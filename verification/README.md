# Verification of the log-connection daemon and of the FM channel search

This project models, in Dafny, two parts of the repository and proves what they promise.

**The daemon of `cplog_connmgr/1.0/default`.** One thread runs an event loop: a `Multiplexer` with a
registry of handlers and a poll array that is rebuilt only when the registry has changed, and a
`TimerManager` with a sorted list of one-shot timers. Timer callbacks and handlers call back into both
while they are being iterated: they register, unregister, reconnect and delete themselves. A second thread
(the HIDL calls) asks for registrations, unregistrations and the end of the loop through a socket pair, and
keeps a map of connections that are retried by timer.

**The tuner of `broadcastradio/2.0/default`.** The software channel search (`FMR_seek_Channel`), the station
scan by hardware seeks (`FMR_seek_Channels`), and the tuner session that steps through a band.

## How the model is built

| file | what it holds |
|---|---|
| `Common`, `Timespec` | C's division and conversions, `timespec` arithmetic |
| `TimerList`, `MuxState`, `LoopState` | the timer list, the registry with its cache, and arbitrary callbacks, as values |
| `Rounds`, `LoopRun`, `RoundLaws` | one pass over timers and handlers, whole runs of the loop, for arbitrary callbacks, and what a round achieves |
| `EventLoop` | `TimerManager` and `Multiplexer` as classes, proved equal to those functions |
| `World`, `LifeCycle`, `FdHandlers` | the handler objects, who owns which descriptor and timer; the handlers as a class |
| `Retry`, `Services` | the retry map; `ConnectControl`, `DaemonThread` and `SchedAndServiceManager` as classes |
| `Daemon`, `DaemonInv`, `DaemonSteps`, `DaemonRuns` | the two threads as a state machine, its invariant, and what holds over all runs |
| `HandlerLaws` | what becomes of a handler, its descriptor and its timer when it is called, and of a new connection |
| `Progress`, `UnsafeDelete` | what the loop thread can do by itself: answering requests, and calling what was wrongly deleted |
| `ReplacedDelete` | when the loop thread replaces what the client waits to delete |
| `RetryRuns`, `PollTimeout` | over all runs: when a retry has a timer, and when the loop thread wakes for it |
| `RoundsOfDaemon` | the rounds of the state machine are rounds of `LoopRun`, on the same inputs and with the same calls |
| `Seek`, `SeekLaws` | the software search as a class, and the cyclic search it refines |
| `Scan`, `ScanLaws` | the station scan as a class, its results and its termination |
| `BandStep`, `Session`, `SessionLaws` | band stepping, the tuner session as a class with its worker thread, and what its calls achieve together |

What comes from outside is a parameter: the readings of the clock, the results of `poll`, `read`,
`accept` and connecting, the addresses the allocator hands out, the replies of the radio, the readings of
`scan_stop`. In `Rounds` and `LoopRun` a callback is any finite list of calls into the multiplexer and the
timer manager; `LifeCycle.StateCallbacksAreOps`, `Retry.SocketReconnectIsOps` and `RoundsOfDaemon` show that
the daemon's callbacks and rounds are of that kind. In `Daemon` one callback, one test of a loop condition and one message is one atomic step. The radio's and
kernel's integers keep their width: signed and unsigned conversions and wrap-around are written out.
The search laws ask for a band that lies in the 16-bit numbers and begins no lower than one 8-bit spacing:
the three bands of the source begin at 7600 and 8750. That the second condition is needed is `NextStaysOnGridIff`.

## What the proofs found

The following are properties of the code as it is. Each has a lemma.

- `socketClose` deletes its handler even if the unregistration could not be written, or the handler still
  had a reconnect timer. The theorems over runs of the daemon are about runs whose deletions are safe: the
  deleted handler is not on its way to be registered and not being polled (`DaemonSteps.DeleteSafe`).
  Dispatch is safe in all runs after a deletion if and only if that deletion is safe
  (`DeleteSafeIffDispatchSafe`); after an unsafe one the loop thread by itself gets to call a null pointer
  or the deleted object, and both happen on runs from the start (`DeadDispatchIsReachable`).
- Waiting for the unregistration is not enough either. `socketClose` reads its member again after the wait,
  and `socket_reconnect`, on the loop thread, may have put a new handler there, which is announced and not
  yet registered. A deletion after a wait in which the request was processed without a reconnect timer is
  safe if and only if the member is empty, still is the handler waited for, or is neither announced nor being
  polled (`QuietDeleteSafeIff`). It is safe whatever happens during the wait if and only if, at the time of
  the call, the member is empty, or no connection for the same member is waiting to be retried with a retry
  timer pending (`WaitedDeleteSafeIff`). A run from the start shows the failure, up to the call of the
  deleted object (`WaitedDeleteCanBeFatal`).
- `unregister_request` can return if and only if the handler is not null (`UnregisterReturnsIff`).
- `stop()` can return from `pthread_join` if and only if the thread was told to end, so never when the QUIT
  request could not be written (`JoinReturnsIff`, `UnwrittenQuitNeverJoins`). `~ConnectControl` stops the
  daemon thread and then deletes it, which stops it again. `quit_request` can return if and only if the
  thread had not been told to end before (`QuitReturnsIff`), so that second one waits for ever; no thread can
  take a step any more (`SecondStopNeverReturns`). A first `stop()` can return if and only if its request was
  written, a second one if and only if it was not (`StopReturnsIff`).
- Unregistering a handler that waits for its reconnect timer does not detach it (`UnregisterDetachesIff`).
- A CpStateHandler that loses its peer is left without descriptor and timer, and never comes back, if and only
  if the new connection cannot be made non-blocking, or is refused while the clock cannot be read
  (`LostPeerIsRetried`).
- Connecting to a socket whose name holds none of the three known names succeeds, and leaves a descriptor that no
  handler owns (`ConnectOwnsIff`).
- A failing clock stalls the retries until another connection fails while the clock works
  (`ReconnectKeepsRetryingIff`, `StalledStepIff`); with several failing connections the pending retry timers
  multiply (`ReconnectLeavesFailures`).
- A retry timer that the client thread starts while the loop thread is in `poll` does not wake it:
  `poll`'s timeout covers the first timer if and only if no earlier one was started meanwhile
  (`PollCoversIff`); a retry may sleep until some descriptor has events (`RetryMaySleep`).
- `set_new_due_time` cannot move a timer forward in the list (`RescheduleKeepsOrderIff`). Intervals must be
  positive and fit a signed `int` (`DueTimeIsLater`): with callbacks that create a timer again, at a clock
  that has not moved, the timer loop ends if and only if they do (`RecreatingEndsIff`).
- The poll timeout is accurate for every timer that `create_timer` makes (`CreatedTimerTimeout`), but a loop
  that is more than 2^31 ms late, as after a suspend of 25 days, goes on waiting although a timer is due
  (`TimeoutAccurateIff`, `LateLoopWaits`).
- The search leaves the band when its start lies more than one channel outside (`StaysInBandIff`), and what
  it returns lies in the band if and only if the start does (`ResultInBandIff`); the caller admits a start
  outside (`StartBelowBandLeavesIt`).
- `FMR_seek_Channels` does not check its tables. The results fit on all working hardware if and only if the
  channels do not outnumber the rows (`ResultsFitIff`): the caller has to see to at most 200 channels, the
  rows of `autoScan`, and at most 255, those of the work table (`AutoScanFitsIff`). Its own calls, with 206
  channels at 100 kHz and 411 at 50 kHz, do not (`AutoScanMayNotFit`).
- A scan whose seeks all fail goes on until the 32-bit frequency wraps, 429 495 856 seeks from 87.5 MHz
  (`FailingHardwareScansOn`).
- Once a tune has run on a closed session, every later scan of the process is refused, in new sessions too
  (`BlockedIff`, `EveryLaterScanIsRefused`); every open session can get there (`LateTaskIsReachable`).
- Stepping up and down are inverse exactly under the conditions of `UpThenDownIff` and `DownThenUpIff`.
  Stepping stays in the range of the frequency, whatever the spacing and the directions, if and only if no
  earlier range overlaps that range (`StaysInRangeIff`); the default short-wave band overlaps medium wave and
  can be left downwards with no way back (`ShortWaveIsLost`).
- The comment on `COM_desense_check` (`broadcastradio/2.0/default/common.cpp:712-717`) calls 0 the verdict
  for a de-sense channel; `FMR_DensenseDetect` takes 1 for it. The model follows the code.

## Model

| member | source | states |
|---|---|---|
| Timespecs.PlusExact | cplog_connmgr/1.0/default/timer_mgr.cpp:175-190 | `operator+` adds exactly that many milliseconds, for either sign |
| Timespecs.PlusNormal | cplog_connmgr/1.0/default/timer_mgr.cpp:175-190 | when `operator+` keeps the nanoseconds in range: always for a non-negative argument, else if and only if they do not fall below zero |
| Timespecs.DueTimeIsLater | cplog_connmgr/1.0/default/timer_mgr.cpp:41-57 | a due time is strictly after the clock reading if and only if the unsigned interval is positive and fits `int` |
| Timespecs.LessIsNanosOrder | cplog_connmgr/1.0/default/timer_mgr.cpp:218-221 | `operator<` is the order of the instants |
| Timespecs.SumDiffInverse | cplog_connmgr/1.0/default/timer_mgr.cpp:192-216 | `timespec_sum` and `timespec_diff` are exact, keep normal form and undo each other both ways |
| Timespecs.SpanAccurateIff | cplog_connmgr/1.0/default/timer_mgr.cpp:201-206 | `operator-` is off by less than one millisecond, for both signs, if and only if the span fits its 32-bit result |
| TimerList.InsertKeepsOrder | cplog_connmgr/1.0/default/timer_mgr.cpp:59-69 | insertion keeps the list sorted, after all timers that are due no later (first in, first out among equals) |
| TimerList.InsertContents | cplog_connmgr/1.0/default/timer_mgr.cpp:59-69 | insertion adds exactly that timer |
| TimerList.EraseKeepsOrder | cplog_connmgr/1.0/default/timer_mgr.cpp:123-129 | taking a timer out keeps order and the other timers |
| TimerList.SelectSplits | cplog_connmgr/1.0/default/timer_mgr.cpp:71-84 | deleting by callback takes out exactly the timers with that callback |
| TimerList.SelectKeepsOrder | cplog_connmgr/1.0/default/timer_mgr.cpp:71-84 | deleting by callback keeps the list sorted and the other timers in their order |
| TimerList.RescheduleKeepsOrderIff | cplog_connmgr/1.0/default/timer_mgr.cpp:99-121 | `set_new_due_time` keeps the list sorted if and only if the new due time is not before that of the timer in front |
| TimerList.RescheduleContents | cplog_connmgr/1.0/default/timer_mgr.cpp:99-121 | rescheduling changes one due time and loses no timer |
| MuxState.RegisterMembers | cplog_connmgr/1.0/default/multiplexer.cpp:39-55 | after registering, exactly the earlier handlers and this one are registered; no duplicates |
| MuxState.RegisterOk | cplog_connmgr/1.0/default/multiplexer.cpp:39-55 | registering during dispatch keeps the agreement of cache and registry |
| MuxState.UnregisterMembers | cplog_connmgr/1.0/default/multiplexer.cpp:57-66 | unregistering takes out this handler's entry and no other |
| MuxState.UnregisterOk | cplog_connmgr/1.0/default/multiplexer.cpp:57-77 | unregistering during dispatch keeps the agreement and leaves no cached slot that names the handler |
| MuxState.ClearSlotSlots | cplog_connmgr/1.0/default/multiplexer.cpp:68-77 | `remove_cur_handler` empties the handler's slot, clears its events, and touches no other slot |
| MuxState.ActiveMembers | cplog_connmgr/1.0/default/multiplexer.cpp:98-111 | the rebuilt array holds exactly the entries polled for some event, in registry order |
| MuxState.PrepareOk | cplog_connmgr/1.0/default/multiplexer.cpp:79-112 | rebuilding makes the cache clean, within its capacity, with no empty slot and current descriptors |
| MuxState.PrepareGrowsJustEnough | cplog_connmgr/1.0/default/multiplexer.cpp:79-95 | the arrays are kept if they are large enough, and else get the next multiple of 32 |
| MuxState.PolledOk | cplog_connmgr/1.0/default/multiplexer.cpp:127 | `poll` keeps the agreement when no slot is empty at that moment |
| LoopState.ApplyAllOk | cplog_connmgr/1.0/default/multiplexer.cpp:39-77 | no callback made of registering, unregistering, quitting, creating and deleting timers can break the registry, the cache or the timer order |
| LoopState.ApplyAllConserves | cplog_connmgr/1.0/default/timer_mgr.cpp:24-84 | a callback loses or duplicates no timer: what was there or is created is there afterwards or deleted |
| LoopState.ApplyAllDue | cplog_connmgr/1.0/default/timer_mgr.cpp:152-173 | callbacks that create timers later than the sampled time never add a due timer: the measure of the timer loop |
| Rounds.TimersFireExactlyOnce | cplog_connmgr/1.0/default/timer_mgr.cpp:152-173 | under re-entrant callbacks every due timer is fired or deleted, exactly once; in due order, ties in list order; no other timer fires; all that is left is due later |
| Rounds.FireDueConserves | cplog_connmgr/1.0/default/timer_mgr.cpp:152-173 | every timer present or created meanwhile has fired once, was deleted once, or is still there |
| Rounds.WithoutDeletionsAllDueFire | cplog_connmgr/1.0/default/timer_mgr.cpp:163-172 | without deletions exactly the due timers fire, in list order |
| Rounds.RecreatingEndsIff | cplog_connmgr/1.0/default/timer_mgr.cpp:41-57 | once a timer is due, the timer loop with callbacks that create a timer again, at a clock that has not moved, ends if and only if the unsigned interval is positive and fits `int` |
| RoundLaws.DeletionsDelete | cplog_connmgr/1.0/default/timer_mgr.cpp:71-84 | deletion by callback takes off all timers with that callback and no other, deletion by address one timer with that address if there is any |
| RoundLaws.RunTimersIsExact | cplog_connmgr/1.0/default/timer_mgr.cpp:152-173 | told by the lists before and after: what fires is due, in list order; every due timer fires as often as it is there unless a callback that ran asks for its deletion; what is left is due later and is exactly what was not due or was created and not deleted; without a clock nothing happens |
| RoundLaws.RoundFires | cplog_connmgr/1.0/default/multiplexer.cpp:114-148 | so does the timer part of a round, before its handlers are called |
| RoundLaws.RoundWaits | cplog_connmgr/1.0/default/multiplexer.cpp:121-127 | the round waits for ever without timers or clock, else until its first timer is due, to one millisecond, and not at all for one that is due, within the 32-bit span |
| RoundLaws.ReadyIsCalled | cplog_connmgr/1.0/default/multiplexer.cpp:79-144 | a handler registered for some event, for which `poll` reports events, is called in that round with its descriptor, unless a callback of the round unregisters it or quits |
| RoundLaws.OnlyReadyAreCalled | cplog_connmgr/1.0/default/multiplexer.cpp:127-144 | nobody else is, and nobody at all if `poll` reports nothing |
| RoundLaws.PassIsItsCallbacks | cplog_connmgr/1.0/default/multiplexer.cpp:130-144 | a pass does to the loop what the called handlers do to it, in turn, and nothing else |
| RoundLaws.RunIsItsRounds | cplog_connmgr/1.0/default/multiplexer.cpp:114-148 | `run` makes one round after the other, each from where the one before has left the loop, and ends only when told to |
| RoundLaws.AnyRunIsItsRounds | cplog_connmgr/1.0/default/multiplexer.cpp:114-148 | so do the runs whose timer loops are cut off |
| Rounds.DispatchExactlyOnce | cplog_connmgr/1.0/default/multiplexer.cpp:130-144 | one pass calls registered handlers only, once each, in slot order, and none that an earlier callback of the pass has unregistered, even if it was registered again; a ready slot is skipped only if an earlier callback of the pass unregistered its handler or quit |
| Rounds.PassStopsAtQuit | cplog_connmgr/1.0/default/multiplexer.cpp:138-141 | the handler that quits is the last one of its pass, and the pass is cut short for no other reason |
| LoopRun.EveryCallIsRegistered | cplog_connmgr/1.0/default/multiplexer.cpp:114-148 | over whole runs, whatever callbacks, clock and `poll` do and however far the timer loops get, `process` is called only on handlers registered at that moment, at most once a round |
| LoopRun.RoundIsAnyRound | cplog_connmgr/1.0/default/multiplexer.cpp:114-148 | the rounds whose timer loop ends are among those rounds |
| LoopRun.NothingRunsAfterQuit | cplog_connmgr/1.0/default/multiplexer.cpp:116 | once the loop has quit, later calls of `run` do nothing, whatever the callbacks did |
| LoopRun.CapacityNeverShrinks | cplog_connmgr/1.0/default/multiplexer.cpp:79-95 | over whole runs the arrays never shrink, hold a multiple of 32 slots, and bound the slots in use |
| LoopRun.TimeoutAccurateIff | cplog_connmgr/1.0/default/timer_mgr.cpp:131-150 | before the first timer is due, the timeout is accurate to one millisecond if and only if the delay fits `int`; after it, `poll` does not wait if and only if the lateness in milliseconds is at most 2^31 modulo 2^32 |
| LoopRun.CreatedTimerTimeout | cplog_connmgr/1.0/default/timer_mgr.cpp:41-57 | the timeout is accurate for every timer that `create_timer` makes, at every clock reading before it is due |
| LoopRun.LateLoopWaits | cplog_connmgr/1.0/default/timer_mgr.cpp:143-149 | a loop that is 2147484 s late waits for 2147483296 ms more |
| EventLoop.TimerManager.InsertTimer | cplog_connmgr/1.0/default/timer_mgr.cpp:59-69 | the list becomes the one of `Insert`, whose laws are proved in `TimerList` |
| EventLoop.TimerManager.AddTimer | cplog_connmgr/1.0/default/timer_mgr.cpp:24-39 | adds the timer, or fails and changes nothing when the clock fails |
| EventLoop.TimerManager.CreateTimer | cplog_connmgr/1.0/default/timer_mgr.cpp:41-57 | adds the timer and returns its address, or null and changes nothing when the clock fails |
| EventLoop.TimerManager.DelTimerByCallback | cplog_connmgr/1.0/default/timer_mgr.cpp:71-84 | leaves exactly the timers with other callbacks, in order |
| EventLoop.TimerManager.FindTimer | cplog_connmgr/1.0/default/timer_mgr.cpp:86-97 | the position of the timer, or the end |
| EventLoop.TimerManager.SetNewDueTime | cplog_connmgr/1.0/default/timer_mgr.cpp:99-121 | reschedules from the old position on; fails and changes nothing for an unknown timer or without clock |
| EventLoop.TimerManager.DelTimer | cplog_connmgr/1.0/default/timer_mgr.cpp:123-129 | deletes that timer if it is in the list |
| EventLoop.TimerManager.NextTime | cplog_connmgr/1.0/default/timer_mgr.cpp:131-150 | with its error case, the poll timeout that `TimeoutAccurateIff` speaks of |
| EventLoop.TimerManager.Run | cplog_connmgr/1.0/default/timer_mgr.cpp:152-173 | for callbacks that change the list under iteration it ends, and `FiresDue` holds of the list before, what it has fired and the list after; without a clock it does nothing |
| EventLoop.Multiplexer.constructor | cplog_connmgr/1.0/default/multiplexer.cpp:14-20 | a new multiplexer satisfies the invariant |
| EventLoop.Multiplexer.RegisterFd | cplog_connmgr/1.0/default/multiplexer.cpp:39-55 | the whole new state, and -1 if and only if the handler was registered |
| EventLoop.Multiplexer.UnregisterFd | cplog_connmgr/1.0/default/multiplexer.cpp:57-66 | the whole new state, in place |
| EventLoop.Multiplexer.RemoveCurHandler | cplog_connmgr/1.0/default/multiplexer.cpp:68-77 | empties the cached slot in the arrays and leaves their used length |
| EventLoop.Multiplexer.RemoveAt | cplog_connmgr/1.0/default/connect_cmn.h:32-42 | removes the element at the index and no other |
| EventLoop.Multiplexer.PreparePollingArray | cplog_connmgr/1.0/default/multiplexer.cpp:79-112 | the arrays are replaced when too small and filled with the polled entries in order |
| EventLoop.Multiplexer.ProcessEvents | cplog_connmgr/1.0/default/multiplexer.cpp:130-144 | the dispatch loop makes the calls of `Pass` and leaves that state |
| EventLoop.Multiplexer.RunLoop | cplog_connmgr/1.0/default/multiplexer.cpp:114-148 | `run` leaves the state and the log of `Run`, about which the whole-run theorems speak |
| FdHandlers.FdHandler.Close | cplog_connmgr/1.0/default/fd_hdl.cpp:25-34 | an open descriptor is handed back to the kernel, once, and becomes -1 |
| FdHandlers.FdHandler.ProcessReconn | cplog_connmgr/1.0/default/cp_state_hdl.cpp:78-100 | a handler that knows its peer is registered with the new descriptor, or waits for one more timer due 500 ms after the clock reading, or has neither |
| FdHandlers.FdHandler.ConnectServerCallback | cplog_connmgr/1.0/default/cp_state_hdl.cpp:102-107 | the timer callback forgets its timer and reconnects |
| FdHandlers.FdHandler.StateProcess | cplog_connmgr/1.0/default/cp_state_hdl.cpp:42-57 | end of file and errors disconnect and reconnect; data and interruptions change nothing |
| FdHandlers.FdHandler.StateProcessClose | cplog_connmgr/1.0/default/cp_state_hdl.cpp:109-113 | unregisters, closes, reconnects, in this order |
| FdHandlers.FdHandler.TimeProcess | cplog_connmgr/1.0/default/cp_time_hdl.cpp:37-110 | at end of file and on errors the descriptor is handed back and becomes -1, the handler is neither registered nor cached, and no timer is added |
| FdHandlers.FdHandler.Destroy | cplog_connmgr/1.0/default/fd_hdl.cpp:18-23 | the destructors delete the timer, unregister, and give the descriptor back |
| FdHandlers.FdHandler.ClientProcess | cplog_connmgr/1.0/default/client_hdl.cpp:58-76 | end of file and errors make the handler delete itself during dispatch |
| FdHandlers.FdHandler.ManagerProcess | cplog_connmgr/1.0/default/client_mgr.cpp:52-71 | an accepted connection gets a fresh handler that is registered during dispatch |
| LifeCycle.LifeCycleStates | cplog_connmgr/1.0/default/cp_state_hdl.cpp:78-113 | a registered handler has an open descriptor and no timer; one that knows a timer has neither and that timer is its only one; nothing refers to a dead handler |
| LifeCycle.ReconnectInv | cplog_connmgr/1.0/default/cp_state_hdl.cpp:78-100 | reconnecting keeps the ownership of registrations, descriptors and timers |
| LifeCycle.StateCloseInv | cplog_connmgr/1.0/default/cp_state_hdl.cpp:109-113 | so does a disconnection, from inside the handler's own callback |
| LifeCycle.ConnectServerInv | cplog_connmgr/1.0/default/cp_state_hdl.cpp:102-107 | so does the reconnect timer's callback, whose timer is already popped |
| LifeCycle.DeleteInv | cplog_connmgr/1.0/default/fd_hdl.cpp:18-23 | deleting a handler in any state leaves no timer, registration or slot that refers to it, and closes its descriptor |
| LifeCycle.StateCallbacksAreOps | cplog_connmgr/1.0/default/cp_state_hdl.cpp:78-113 | these callbacks are callbacks in the sense of `Rounds`, and with a clock that does not run backwards they keep the timer loop finite |
| HandlerLaws.StateHandlerReconnects | cplog_connmgr/1.0/default/cp_state_hdl.cpp:42-113 | at end of file or an error a handler that knows its peer closes its descriptor; it ends registered with the new one if the connection succeeds, with exactly one reconnect timer due 500 ms after the clock reading if it is refused, else with nothing; all other handlers are left alone |
| HandlerLaws.TimerReconnects | cplog_connmgr/1.0/default/cp_state_hdl.cpp:78-107 | so does its reconnect timer when it fires |
| HandlerLaws.TimeHandlerCloses | cplog_connmgr/1.0/default/cp_time_hdl.cpp:37-110 | at end of file or an error its descriptor is closed, it is neither registered nor cached, and no timer was added |
| HandlerLaws.ClientHandlerDies | cplog_connmgr/1.0/default/client_hdl.cpp:58-76 | at end of file or an error the object is gone, its descriptor closed, and the loop knows nothing of it |
| HandlerLaws.ManagerAccepts | cplog_connmgr/1.0/default/client_mgr.cpp:52-71 | an accepted connection gets a live handler with that descriptor, registered for input |
| HandlerLaws.UnbrokenStays | cplog_connmgr/1.0/default/cp_state_hdl.cpp:42-57 | data, `EAGAIN` and `EINTR` change nothing |
| HandlerLaws.RunPeers | cplog_connmgr/1.0/default/ConnectControl.cpp:211-235 | over all runs every live CpStateHandler knows its peer |
| HandlerLaws.LostPeerIsRetried | cplog_connmgr/1.0/default/cp_state_hdl.cpp:42-113 | in every run with safe deletions a CpStateHandler that loses its peer is reconnected or retried as above, and is stranded if and only if the new connection cannot be made non-blocking or is refused without a clock |
| HandlerLaws.RetryTimerReconnects | cplog_connmgr/1.0/default/cp_state_hdl.cpp:102-107 | in every such run a reconnect timer that fires does the same |
| HandlerLaws.ConnectLaw | cplog_connmgr/1.0/default/ConnectControl.cpp:189-235 | a good connection makes a handler of the class the socket name calls for, which knows its peer, is pointed to by its member and announced; a failed one is stored, with one more timer due 200 ms after the clock reading |
| HandlerLaws.ConnectOwnsIff | cplog_connmgr/1.0/default/ConnectControl.cpp:211-235 | a new descriptor belongs to a handler if and only if the socket name holds one of the three names |
| Services.SchedAndServiceManager.Process | cplog_connmgr/1.0/default/sched_and_service_mgr.cpp:49-69 | one request is taken from the channel and served as the state machine says; null handlers are not answered |
| Services.DaemonThread.RegisterRequest | cplog_connmgr/1.0/default/daemon_thread.cpp:88-100 | the request is appended and nothing awaited; a failed write changes nothing |
| Services.DaemonThread.WriteUnregister | cplog_connmgr/1.0/default/daemon_thread.cpp:102-111 | the request is appended and a reply awaited; a failed write changes nothing |
| Services.DaemonThread.Await | cplog_connmgr/1.0/default/daemon_thread.cpp:112-124 | the wait loop ends with the first reply of the wanted kind and drops what comes before |
| Services.DaemonThread.WriteQuit | cplog_connmgr/1.0/default/daemon_thread.cpp:127-136 | the request is appended and a reply awaited; a failed write changes nothing |
| Services.DaemonThread.AwaitQuit | cplog_connmgr/1.0/default/daemon_thread.cpp:138-150 | the thread's flag is cleared if and only if the reply to QUIT was read |
| Services.AwaitIsReads | cplog_connmgr/1.0/default/daemon_thread.cpp:112-124 | the wait loop is that many reading steps of the client thread of `Daemon` |
| Services.ConnectControl.StrStr | cplog_connmgr/1.0/default/ConnectControl.cpp:214-232 | the socket name contains the text |
| Services.ConnectControl.ProcessSocketConnect | cplog_connmgr/1.0/default/ConnectControl.cpp:189-235 | success creates a handler that knows its peer, if the name calls for one, and announces it if the request can be written; failure stores the connection and starts a timer |
| Services.ConnectControl.SocketReconnect | cplog_connmgr/1.0/default/ConnectControl.cpp:160-187 | both loops together are `Reconnect`, for which `ReconnectLeavesFailures` holds |
| Retry.ReconnectLeavesFailures | cplog_connmgr/1.0/default/ConnectControl.cpp:160-187 | a pass leaves exactly the entries whose connect failed, unchanged, and adds one timer for each that could read the clock |
| Retry.ReconnectKeepsRetryingIff | cplog_connmgr/1.0/default/ConnectControl.cpp:160-209 | a pass leaves a timer for what it could not connect if and only if it connected everything, another such timer was pending, or some entry that failed could read the clock |
| Retry.ClockFailureStalls | cplog_connmgr/1.0/default/ConnectControl.cpp:193-197 | if the clock fails for all entries that fail, they stay and no timer is pending |
| Retry.FailureRevives | cplog_connmgr/1.0/default/ConnectControl.cpp:193-208 | one attempt adds a timer if and only if it fails and the clock works; entries already in the map stay |
| Retry.SocketReconnectIsOps | cplog_connmgr/1.0/default/ConnectControl.cpp:160-187 | `socket_reconnect` is a callback in the sense of `Rounds`, and with a clock that does not run backwards its timers keep the timer loop finite |
| DaemonSteps.SafeDispatch | cplog_connmgr/1.0/default/multiplexer.cpp:130-144 | a ready slot holds a live, registered handler with its current, open descriptor |
| DaemonSteps.ReconnectIsRetry | cplog_connmgr/1.0/default/ConnectControl.cpp:160-187 | the system's `socket_reconnect` does to the client's state what `Retry` says |
| DaemonSteps.DeleteSafeIff | cplog_connmgr/1.0/default/ConnectControl.cpp:130-158 | the deletion in `socketClose` keeps the invariant if and only if the handler is not announced for registration and not being polled |
| DaemonSteps.QuietDeleteSafeIff | cplog_connmgr/1.0/default/ConnectControl.cpp:143-148 | after waiting for an unregistration that was processed without a reconnect timer, it keeps the invariant if and only if the member, read again, is empty, still is the handler waited for, or was replaced by one that is neither announced nor being polled |
| DaemonSteps.StepInv | cplog_connmgr/1.0/default/daemon_thread.cpp:88-158 | every step of either thread keeps the invariant, deletions provided they are safe, and disturbs no quiet handler |
| DaemonRuns.StartInv | cplog_connmgr/1.0/default/ConnectControl.cpp:237-247 | the state after `init` satisfies the invariant |
| DaemonRuns.StartServes | cplog_connmgr/1.0/default/ConnectControl.cpp:237-247 | after `init` exactly the listening socket and the request channel are registered, for input and with their descriptors; nothing waits |
| DaemonRuns.RunInv | cplog_connmgr/1.0/default/daemon_thread.cpp:152-158 | the invariant holds in every run whose deletions are safe |
| DaemonRuns.NoDeadDispatch | cplog_connmgr/1.0/default/multiplexer.cpp:130-144 | in every run whose deletions are safe the dispatch loop calls only live, registered handlers, whatever timers, handlers and the other thread have done since `poll` |
| DaemonRuns.LifeCycleInRuns | cplog_connmgr/1.0/default/cp_state_hdl.cpp:31-113 | the life cycle of handlers holds in every run whose deletions are safe; no request, slot, registration or timer refers to a deleted one |
| DaemonRuns.CacheAgreesInRuns | cplog_connmgr/1.0/default/multiplexer.cpp:39-112 | in every run whose deletions are safe the cached array agrees with the registry, clean or dirty |
| DaemonRuns.HandshakeQuiesces | cplog_connmgr/1.0/default/daemon_thread.cpp:102-124 | once `unregister_request` has returned for a handler without timer, the handler is in neither registry, cache nor timers, and stays out until it is deleted |
| DaemonRuns.QuietForEver | cplog_connmgr/1.0/default/daemon_thread.cpp:102-124 | a quiet handler stays out of the loop whatever both threads do |
| DaemonRuns.UnregisterDetachesIff | cplog_connmgr/1.0/default/sched_and_service_mgr.cpp:62-67 | serving UNREGISTER detaches the handler if and only if it has no reconnect timer |
| DaemonRuns.RegisterAttaches | cplog_connmgr/1.0/default/sched_and_service_mgr.cpp:55-57 | serving REGISTER registers that handler and no other, marks the poll array for rebuilding, and sends no reply |
| DaemonRuns.PollWatchesRegistered | cplog_connmgr/1.0/default/multiplexer.cpp:116-127 | the loop enters `poll` watching exactly the handlers registered for some event |
| DaemonRuns.ExactlyOneReply | cplog_connmgr/1.0/default/sched_and_service_mgr.cpp:55-67 | while the client waits its request is on the way or its one reply is, never both; otherwise there is no reply |
| DaemonRuns.NullUnregisterNeverReturns | cplog_connmgr/1.0/default/sched_and_service_mgr.cpp:62-63 | `unregister_request` with a null handler never returns |
| DaemonRuns.NothingRunsAfterQuit | cplog_connmgr/1.0/default/multiplexer.cpp:116-141 | after QUIT is processed no `poll`, timer callback or handler runs again |
| DaemonRuns.DaemonExits | cplog_connmgr/1.0/default/daemon_thread.cpp:152-158 | the reply to QUIT is sent only after the loop is stopped, and once it is read the thread ends within two tests |
| Progress.QuitReturnsIff | cplog_connmgr/1.0/default/daemon_thread.cpp:127-150 | over runs whose deletions are safe: from a state in which the client waits in `quit_request` some run returns if and only if the thread had not been told to end |
| DaemonRuns.SecondStopNeverReturns | cplog_connmgr/1.0/default/daemon_thread.cpp:29-35 | a second `quit_request`, as the destructors make it, leaves both threads without any step |
| DaemonRuns.JoinReturnsIff | cplog_connmgr/1.0/default/daemon_thread.cpp:77-86 | some run returns from `pthread_join` if and only if the thread was told to end |
| Progress.StopReturnsIff | cplog_connmgr/1.0/default/daemon_thread.cpp:77-86 | over runs whose deletions are safe: some run carries a first `stop()` through to the end of `pthread_join` if and only if its QUIT request was written, and a second one if and only if it was not |
| DaemonRuns.UnwrittenQuitNeverJoins | cplog_connmgr/1.0/default/daemon_thread.cpp:127-136 | after a QUIT request that could not be written no run returns from it |
| Progress.AttendedInRuns | cplog_connmgr/1.0/default/sched_and_service_mgr.cpp:27-47 | in every run whose deletions are safe the handler of the request channel stays alive and registered, and the loop runs unless the client has asked it to quit |
| Progress.ReachTop | cplog_connmgr/1.0/default/multiplexer.cpp:114-148 | from every state the loop thread gets by itself to the top of its loop, or to a dead handler |
| Progress.ServeNext | cplog_connmgr/1.0/default/sched_and_service_mgr.cpp:49-69 | from the top of its loop it gets to serve the next request |
| Progress.UnregisterReturnsIff | cplog_connmgr/1.0/default/daemon_thread.cpp:102-124 | from a state in which the client waits in `unregister_request` some run returns if and only if the handler is not null |
| RetryRuns.RetryStepIff | cplog_connmgr/1.0/default/ConnectControl.cpp:160-209 | exactly which steps of the two threads leave a pending timer for what is to be retried |
| RetryRuns.NoRetryIsLost | cplog_connmgr/1.0/default/ConnectControl.cpp:160-209 | over all runs with a working clock a non-empty retry map has a pending timer |
| RetryRuns.NoRetryIsLostFromStart | cplog_connmgr/1.0/default/ConnectControl.cpp:160-209 | the same from the start of the daemon |
| RetryRuns.StalledStepIff | cplog_connmgr/1.0/default/ConnectControl.cpp:160-209 | retrying without a timer ends with, and only with, another failure that can read the clock; its timer will walk the stalled entries too |
| RetryRuns.StalledUntilRevived | cplog_connmgr/1.0/default/ConnectControl.cpp:160-209 | over runs it stays stalled until then |
| PollTimeout.EnterCoversIff | cplog_connmgr/1.0/default/multiplexer.cpp:121-127 | going into `poll`, the timeout is that of `next_time` and covers the first timer if and only if there is none or the clock could be read |
| PollTimeout.PollCoversIff | cplog_connmgr/1.0/default/ConnectControl.cpp:193-207 | while the loop thread is in `poll`, the timeout goes on to cover the first timer if and only if the client thread starts no earlier one |
| PollTimeout.RetryMaySleep | cplog_connmgr/1.0/default/ConnectControl.cpp:193-197 | a run in which a retry has its timer and the loop thread waits for ever |
| RoundsOfDaemon.ProcessIsOps | cplog_connmgr/1.0/default/multiplexer.cpp:133-137 | what each handler's `process` does to the loop is a list of calls into it |
| RoundsOfDaemon.FireIsOps | cplog_connmgr/1.0/default/timer_mgr.cpp:169-171 | so is what each timer callback does |
| RoundsOfDaemon.RoundRefines | cplog_connmgr/1.0/default/multiplexer.cpp:116-145 | a round of the daemon's loop thread without a step of the client thread is a round of `LoopRun` on the same clock readings, `poll` results and descriptors, with the same calls of `process` and the same loop afterwards |
| UnsafeDelete.WatchedDeleteIsFatal | cplog_connmgr/1.0/default/ConnectControl.cpp:143-148 | after deleting a handler that is being polled, the loop thread by itself reaches a null dispatch |
| UnsafeDelete.AnnouncedDeleteIsFatal | cplog_connmgr/1.0/default/ConnectControl.cpp:143-148 | after deleting a handler whose REGISTER request is on its way, the loop thread by itself registers, polls and dispatches the deleted object |
| UnsafeDelete.DeleteSafeIffDispatchSafe | cplog_connmgr/1.0/default/ConnectControl.cpp:130-158 | no run after a deletion, with safe deletions only, dispatches a dead handler if and only if that deletion is safe |
| UnsafeDelete.DeadDispatchIsReachable | cplog_connmgr/1.0/default/ConnectControl.cpp:130-158 | runs from the start that end in such a dispatch, in both ways |
| ReplacedDelete.RetryReplaces | cplog_connmgr/1.0/default/ConnectControl.cpp:143-148 | if a retry for the member is pending when `socketClose` is called, some run waits properly and then holds another handler, announced and not yet registered |
| ReplacedDelete.WaitedDeleteSafeIff | cplog_connmgr/1.0/default/ConnectControl.cpp:130-158 | the deletion after a wait is safe, whatever happens during the wait, if and only if at the call the member is empty or no connection for it is to be retried with a timer pending |
| ReplacedDelete.WaitedDeleteCanBeFatal | cplog_connmgr/1.0/default/ConnectControl.cpp:189-235 | a run from the start in which `socketClose` has waited, deletes the replacing handler, and the loop thread calls it |
| Seek.Tuner.SevereDensense | broadcastradio/2.0/default/fmr_core.cpp:458-478 | the first entry for the channel decides |
| Seek.SevereIff | broadcastradio/2.0/default/fmr_core.cpp:458-478 | a channel is filtered if and only if the first entry for it has a threshold above its strength |
| Seek.StrengthIff | broadcastradio/2.0/default/fmr_core.cpp:446-533 | a probe gives a strength if and only if the radio answers, calls the channel valid, its de-sense verdict is not 1 and the list is not against it; then it is the radio's |
| Seek.Tuner.TuneCheck | broadcastradio/2.0/default/fmr_core.cpp:504-533 | one probe: stopped or not, and valid if and only if it is such a station, with the strength the radio has answered |
| Seek.Tuner.SeekMore | broadcastradio/2.0/default/fmr_core.cpp:536-567 | the best of the channel and its next two, or -1 if stopped |
| Seek.Tuner.SeekChannel | broadcastradio/2.0/default/fmr_core.cpp:573-664 | the four loops probe, stop and find what the reference search does; nothing is written when stopped; it returns a station with its strength if there is one, and otherwise the start |
| SeekLaws.SearchRefinesCyclic | broadcastradio/2.0/default/fmr_core.cpp:573-664 | from a start on the grid: the strongest, ties to the earlier, of the first valid channel in cyclic order and its two successors, in band and on grid; nothing if and only if no other channel is valid |
| SeekLaws.OrderIsCyclic | broadcastradio/2.0/default/fmr_core.cpp:578-620 | the k-th channel visited is the k-th after the start, counted round the band |
| SeekLaws.BackwardIsReverse | broadcastradio/2.0/default/fmr_core.cpp:621-659 | the backward order is the forward order reversed |
| SeekLaws.StaysInBandIff | broadcastradio/2.0/default/fmr_core.cpp:573-664 | the channels visited stay in the band if and only if the start is at most one channel outside |
| SeekLaws.ResultInBandIff | broadcastradio/2.0/default/fmr_core.cpp:573-664 | the returned frequency lies in the band, whatever is on the air, if and only if the start does |
| SeekLaws.StartBelowBandLeavesIt | broadcastradio/2.0/default/fmr_core.cpp:672-693 | a start the caller accepts and from which the search leaves the band |
| SeekLaws.NextOnGrid | broadcastradio/2.0/default/fmr_core.cpp:542-553 | on the grid, the next channel in a direction is the next number, or none at the edge |
| SeekLaws.NextStaysOnGridIff | broadcastradio/2.0/default/fmr_core.cpp:548-552 | going down from any channel ends at a channel or at none if and only if the band begins no lower than one spacing; below that the 32-bit subtraction wraps |
| SeekLaws.BestIsStrongest | broadcastradio/2.0/default/fmr_core.cpp:554-562 | the comparison keeps the strongest, and the earlier of equals |
| SeekLaws.SearchFindsFirst | broadcastradio/2.0/default/fmr_core.cpp:578-659 | the search ends at the first valid channel of the order, or finds none if and only if there is none |
| SeekLaws.SearchIsExact | broadcastradio/2.0/default/fmr_core.cpp:573-664 | for every start, in terms of what the radio answers: nothing is found if and only if no channel is a station; otherwise no station comes before the first one, and the strongest of it and the channels compared with it is found |
| SeekLaws.ProbesAreExact | broadcastradio/2.0/default/fmr_core.cpp:578-659 | what is probed: the channels up to the first station and those compared with it, or all |
| SeekLaws.StopTunesBackIff | broadcastradio/2.0/default/fmr_core.cpp:504-511 | probing stops if and only if `scan_stop` is seen before a probe; then the last command tunes back to the unchanged frequency after exactly the probes before, else every frequency is probed |
| Scan.Scanner.SeekChannels | broadcastradio/2.0/default/fmr_core.cpp:767-845 | result, table, commands and number of seeks, stopped or not; it ends for any hardware, and leaves its tables if and only if the results do not fit both |
| Scan.Scanner.SeekAll | broadcastradio/2.0/default/fmr_core.cpp:783-819 | the loop makes exactly the seeks of `EndsAfter` and keeps exactly the accepted channels, if and only if they fit the work table |
| Scan.PassesIff | broadcastradio/2.0/default/fmr_core.cpp:806-815 | a found channel passes if and only if neither the de-sense verdict nor the list is against it at strength 0 |
| ScanLaws.AcceptedIsExact | broadcastradio/2.0/default/fmr_core.cpp:794-817 | the results are strictly increasing and exactly the frequencies that the hardware has answered to forward seeks and that pass both filters |
| ScanLaws.CurIsExact | broadcastradio/2.0/default/fmr_core.cpp:783-802 | where each seek starts: at the last answer, or below the start of the scan, and one spacing further for each seek failed since |
| ScanLaws.EndsAfterIff | broadcastradio/2.0/default/fmr_core.cpp:783-795 | the scan ends at the first `scan_stop` seen or the first seek that does not rise |
| ScanLaws.SeekCommandAt | broadcastradio/2.0/default/fmr_core.cpp:794-796 | each seek is asked for one spacing above the frequency before it |
| ScanLaws.TableIncreasingIff | broadcastradio/2.0/default/fmr_core.cpp:814-838 | the signed table is increasing if and only if the results do not straddle 2^31 |
| ScanLaws.StopKeepsPrefix | broadcastradio/2.0/default/fmr_core.cpp:784-791 | stopping cuts the same scan short and keeps what was found |
| Scan.ScanEnds | broadcastradio/2.0/default/fmr_core.cpp:783-795 | for any replies the loop ends, within the 32-bit numbers above the first frequency |
| ScanLaws.ConfinedScan | broadcastradio/2.0/default/fmr_core.cpp:783-817 | on hardware that always answers with one of m channels there are at most m + 1 seeks and m results |
| ScanLaws.ResultsFitIff | broadcastradio/2.0/default/fmr_core.cpp:772-838 | a scan from the bottom of a grid of m channels fits both tables, whatever such hardware finds, if and only if both have m rows |
| ScanLaws.AutoScanFitsIff | broadcastradio/2.0/default/fm_hal_bridge.cpp:148-157 | `autoScan`'s call fits on all working hardware if and only if the band has at most 200 channels |
| ScanLaws.AutoScanMayNotFit | broadcastradio/2.0/default/fm_hal_bridge.cpp:148-157 | 206 channels at 100 kHz need not fit its table, and 411 at 50 kHz neither that nor the work table |
| ScanLaws.FailingHardwareScansOn | broadcastradio/2.0/default/fmr_core.cpp:783-802 | if every seek fails the loop steps on until the frequency wraps, with the exact number of seeks |
| ScanLaws.FailingHardwareExample | broadcastradio/2.0/default/fmr_core.cpp:783-802 | from 87.5 MHz at 100 kHz that is 429 495 856 seeks |
| BandStep.StepStaysWithin | broadcastradio/2.0/default/TunerSession.cpp:330-337 | a step never leaves its range |
| BandStep.UpThenDownIff | broadcastradio/2.0/default/TunerSession.cpp:330-337 | exactly when a step down undoes a step up |
| BandStep.DownThenUpIff | broadcastradio/2.0/default/TunerSession.cpp:330-337 | exactly when a step up undoes a step down |
| BandStep.StepsAreInverse | broadcastradio/2.0/default/TunerSession.cpp:330-337 | on the grid of a band of even width above the spacing both directions undo each other everywhere |
| BandStep.EveryChannelOnce | broadcastradio/2.0/default/TunerSession.cpp:330-337 | repeated steps up reach every channel at exactly one step of a round, and then start again |
| BandStep.LongWaveIsNotInverse | broadcastradio/2.0/default/BroadcastRadio.cpp:37-43 | in the long-wave band at 100 kHz a step up and a step down do not return |
| BandStep.WalkStaysWithin | broadcastradio/2.0/default/TunerSession.cpp:528-531 | however one steps, a range that no earlier one overlaps is never left and no step fails |
| BandStep.StaysInRangeIff | broadcastradio/2.0/default/TunerSession.cpp:521-534 | from a frequency, steps of every spacing and direction stay in the range looked up for it if and only if no earlier range overlaps that range |
| BandStep.ShortWaveIsLost | broadcastradio/2.0/default/BroadcastRadio.cpp:37-43 | a step down from 1700 kHz changes to medium wave, and no steps lead back |
| Session.TunerSession.GetAmFmRangeLocked | broadcastradio/2.0/default/TunerSession.cpp:521-534 | the first range with the frequency; none while a tune is under way |
| Session.TunerSession.Step | broadcastradio/2.0/default/TunerSession.cpp:311-350 | all five outcomes with the whole new state |
| Session.TunerSession.Tune | broadcastradio/2.0/default/TunerSession.cpp:247-273 | checks in order; a good tune replaces the waiting one |
| Session.TunerSession.Scan | broadcastradio/2.0/default/TunerSession.cpp:275-309 | as a tune, with the refusal that leaves the session untuned once a tune has run on a closed session |
| Session.TunerSession.Cancel | broadcastradio/2.0/default/TunerSession.cpp:352-369 | what waits is dropped, and the session is tuned again if it has a program; nothing happens in a closed one |
| Session.TunerSession.Close | broadcastradio/2.0/default/TunerSession.cpp:503-519 | nothing waits in a closed session |
| Session.TunerSession.StartTask | broadcastradio/2.0/default/TunerSession.cpp:266-270 | the worker thread takes the scheduled task, which from then on can no longer be cancelled |
| Session.TunerSession.RunTask | broadcastradio/2.0/default/TunerSession.cpp:218-237 | a started tune is performed; in a closed session it only sets the program and has later scans refused |
| Session.SessionInvariant | broadcastradio/2.0/default/TunerSession.cpp:247-369 | over all runs at most one tune waits, and an open session is tuned or has a tune under way, unless scans are refused |
| Session.SettledSessionIsTuned | broadcastradio/2.0/default/TunerSession.cpp:218-245 | from the constructor on, an open session with nothing under way is tuned, if scans were not refused when it was opened |
| Session.BlockedIff | broadcastradio/2.0/default/TunerSession.cpp:227-230 | scans become refused if and only if a started tune runs on a closed session, and then stay so |
| Session.EveryLaterScanIsRefused | broadcastradio/2.0/default/TunerSession.cpp:302-305 | after one such tune every scan of this and all later sessions of the process is refused |
| Session.LateTaskIsReachable | broadcastradio/2.0/default/TunerSession.cpp:227-230 | every open session whose scans are not refused yet gets there by a scan that is started, a close, and the task |
| Session.ClosedNeverTunes | broadcastradio/2.0/default/TunerSession.cpp:227-230 | a closed session gives the radio no further frequency, though a started task still runs |
| Session.BurstIsLastStep | broadcastradio/2.0/default/TunerSession.cpp:311-350 | steps that come before the worker takes the tune do not add up: the last one alone counts |
| Session.SettledStepsWalk | broadcastradio/2.0/default/TunerSession.cpp:311-350 | steps that are each performed before the next walk through the range without leaving it, with one tune each |
| SessionLaws.TuneIsPerformed | broadcastradio/2.0/default/TunerSession.cpp:247-273 | an accepted tune, once performed, ends at the selected program, with one frequency given to the radio and nothing waiting |
| SessionLaws.ScanIsPerformed | broadcastradio/2.0/default/TunerSession.cpp:275-309 | so does a scan, at the station found |
| SessionLaws.StepIsPerformed | broadcastradio/2.0/default/TunerSession.cpp:311-350 | so does a step, one spacing further or round the end of the range |
| SessionLaws.OpensTuned | broadcastradio/2.0/default/TunerSession.cpp:60-78 | the constructor tunes to 87.5 MHz if the device opens and else leaves the session closed |
| SessionLaws.LaterCallReplaces | broadcastradio/2.0/default/TunerSession.cpp:352-369 | until it is started, a tune, scan or step is replaced by the next accepted call as if it had not been made |
| SessionLaws.StartedIsPerformed | broadcastradio/2.0/default/TunerSession.cpp:264-270 | once started it is performed, whatever is called |
| SessionLaws.CancelDropsWaiting | broadcastradio/2.0/default/TunerSession.cpp:352-369 | cancelling drops what waits and nothing else |
| SessionLaws.CloseDropsWaiting | broadcastradio/2.0/default/TunerSession.cpp:503-519 | so does closing, and nothing is started any more |
| SessionLaws.LateTaskOnlyRecords | broadcastradio/2.0/default/TunerSession.cpp:218-237 | a task on a closed session sets the program and refuses scans, and the radio does not hear of it |
| SessionLaws.Refusals | broadcastradio/2.0/default/TunerSession.cpp:247-337 | the result of every call, and what a refused one changes |

## Left out

- DaemonRuns.RunInv: speaks, like the other theorems over runs of the daemon, about runs whose deletions are safe; what an unsafe deletion leads to is in `UnsafeDelete`.
- LoopState.ApplyAllOk: leaves out callbacks that call `set_new_due_time`, which can break the order (`RescheduleKeepsOrderIff`); no callback of the repository does.
- EventLoop.TimerManager.Run: asks for callbacks whose timers are due after the sampled time, as a positive interval and a clock that does not run backwards make them; with others the source's loop need not end (`RecreatingEndsIff`).
- EventLoop.Multiplexer.RunLoop: asks for the same; dispatch safety without it is `EveryCallIsRegistered`.
- Data races finer than one callback, between the loop thread and the HIDL threads on the timer list, the retry map and ConnectControl's pointers: a step is atomic. Concurrent HIDL callers of the request channel are not modelled.
- Object identity of timers and, in the state machine, of handlers: they are values with an address. The classes of `EventLoop`, `FdHandlers` and `Services` do update in place.
- Partial writes and reads on the socket pair: a request is written and read as a whole, or the write fails. The replies of the loop thread are always written.
- `~ConnectControl` after the loop has ended: deletion of the handlers, deletion of the timer through a pointer that may be stale, and the double close of the loop thread's socket in `~DaemonThread`.
- Failures of `init` in ClientManager, SchedAndServiceManager and DaemonThread.
- `CpTimeHandler::process_reconn`, which nothing calls.
- What handlers do with data: buffers, the HIDL callback, `socketData`.
- Signed overflow in `operator-`, undefined in C++, is modelled as wrap-around; `tv_sec` is unbounded.
- A timer callback that calls `shall_quit`: allowed in `Rounds`, where one handler may still be called in that round; no callback of the repository does it.
- What the code does after a scan has left its tables: the model stops there.
- `FMR_seek`'s hardware path, `FMR_scan`'s choice of the start, and `fm.conf`: start, spacing and band are parameters.
- The strength the scan reports: the code never sets it, so it is the constant 0.
- `WorkerThread` is not part of this model beyond its queue; RDS updates, program lists and parameters other than the spacing are left out.
- `gnss`, `aprd`, `connmgr`, `enhance`, `fingerprintmmi` and `face`: they convert, forward and format, and share no state with the two parts modelled here.
