/** Why socketClose must only delete what DeleteSafe allows: otherwise the loop thread, by itself, goes on
    to call a handler that is gone. */
module UnsafeDelete {
  import opened Common
  import opened LoopState
  import opened Retry
  import opened Daemon
  import opened DaemonInv
  import opened DaemonSteps
  import opened DaemonRuns
  import opened Progress
  import W = World
  import MuxState

  lemma DeletedIsAlive(s: Sys)
    requires Inv(s) && Attended(s) && s.client.Deleting? && Victim(s).Some?
    ensures Alive(Step(s, ClientDelete)) && Step(s, ClientDelete).pc == s.pc
    ensures var s' := Step(s, ClientDelete);
            && s'.req == s.req && Victim(s).value !in s'.world.heap && !W.Registered(s'.world, Victim(s).value)
  {
    var p := Victim(s).value;
    AttendedStep(s, ClientDelete);
    DeleteTouches(s.world, p);
    KeptEntries(s.world.loop, p);
  }

  /** Deleting a handler that the poll() under way watches is fatal: if poll() then reports events for
      its slot, the dispatch loop calls process() through a null pointer. */
  lemma WatchedDeleteIsFatal(s: Sys) returns (acts: seq<Action>)
    requires Inv(s) && s.client.Deleting? && s.pc.Polling?
    requires Victim(s).Some? && Victim(s) in s.world.loop.mux.hdls
    ensures ByLoop(acts) && Valid(Step(s, ClientDelete), acts) && DeadDispatch(Exec(Step(s, ClientDelete), acts))
  {
    var h := Victim(s).value;
    var s1 := Step(s, ClientDelete);
    DeleteSlots(s.world, h);
    MuxState.ClearSlotSlots(s.world.loop.mux, h);
    assert s1.world == W.Delete(s.world, h);
    var i :| 0 <= i < |s1.world.loop.mux.hdls| && s1.world.loop.mux.hdls[i] == None;
    acts := SlotReached(s1, i);
  }

  /** Requests that neither stop the loop nor detach the request channel. */
  predicate Harmless(q: seq<Request>) {
    forall i :: 0 <= i < |q| ==> !q[i].ReqQuit? && !AsksUnregister(q[i])
  }

  lemma DeletingIsHarmless(s: Sys)
    requires Inv(s) && s.client.Deleting?
    ensures Harmless(s.req)
  {
    CountZero(s.req, AsksQuit);
  }

  /** Once a deleted handler is registered, the loop thread polls it and calls it. */
  lemma DeadRegistrationIsFatal(s: Sys, p: Addr) returns (acts: seq<Action>)
    requires Alive(s) && p !in s.world.heap && MuxState.PollingEntry(p, W.POLLIN) in s.world.loop.mux.registry
    ensures ByLoop(acts) && Valid(s, acts) && DeadDispatch(Exec(s, acts))
  {
    var up := ReachTop(s);
    var s1 := Exec(s, up);
    if DeadDispatch(s1) {
      acts := up;
    } else {
      var polled := PollAt(s1, MuxState.PollingEntry(p, W.POLLIN));
      ExecConcat(s, up, polled);
      acts := up + polled;
    }
  }

  /** So is a REGISTER request on its way for a deleted handler. */
  lemma {:induction false} DeadRequestIsFatal(s: Sys, p: Addr) returns (acts: seq<Action>)
    requires Alive(s) && p !in s.world.heap && !W.Registered(s.world, p)
    requires Harmless(s.req) && ReqRegister(Some(p)) in s.req
    ensures ByLoop(acts) && Valid(s, acts) && DeadDispatch(Exec(s, acts))
    decreases |s.req|
  {
    var up := ReachTop(s);
    var s1 := Exec(s, up);
    if DeadDispatch(s1) {
      acts := up;
    } else {
      assert !W.Registered(s1.world, p);
      var served := ServeNext(s1);
      var s2 := Exec(s1, served);
      var rest;
      if s.req[0] == ReqRegister(Some(p)) {
        rest := DeadRegistrationIsFatal(s2, p);
      } else {
        assert s.req == [s.req[0]] + s.req[1..];
        rest := DeadRequestIsFatal(s2, p);
      }
      ExecConcat(s, up, served);
      ExecConcat(s, up + served, rest);
      acts := up + served + rest;
    }
  }

  /** Deleting a handler whose registration has been asked for and not yet served is fatal: the loop
      thread registers the deleted object, polls it and calls it. */
  lemma AnnouncedDeleteIsFatal(s: Sys) returns (acts: seq<Action>)
    requires Inv(s) && Attended(s) && s.client.Deleting? && Victim(s).Some? && ReqRegister(Victim(s)) in s.req
    ensures ByLoop(acts) && Valid(Step(s, ClientDelete), acts) && DeadDispatch(Exec(Step(s, ClientDelete), acts))
  {
    DeletedIsAlive(s);
    DeletingIsHarmless(s);
    acts := DeadRequestIsFatal(Step(s, ClientDelete), Victim(s).value);
  }

  lemma SafeDeleteNeverKills(s: Sys, acts: seq<Action>)
    requires Inv(s) && s.client.Deleting? && DeleteSafe(s) && Valid(Step(s, ClientDelete), acts)
    ensures !DeadDispatch(Exec(Step(s, ClientDelete), acts))
  {
    StepInv(s, ClientDelete);
    RunInv(Step(s, ClientDelete), acts);
    var e := Exec(Step(s, ClientDelete), acts);
    if AtReady(e) { SafeDispatch(e); }
  }

  /** No run from here on, with safe deletions only, dispatches a dead handler. */
  ghost predicate NeverDead(s: Sys) {
    forall acts :: LivesThrough(s, acts)
  }

  ghost predicate LivesThrough(s: Sys, acts: seq<Action>) {
    Valid(s, acts) ==> !DeadDispatch(Exec(s, acts))
  }

  /** Dispatch is safe in all runs after socketClose's deletion exactly when that deletion is safe. */
  lemma DeleteSafeIffDispatchSafe(s: Sys)
    requires Inv(s) && Attended(s) && s.client.Deleting?
    ensures DeleteSafe(s) <==> NeverDead(Step(s, ClientDelete))
  {
    var s1 := Step(s, ClientDelete);
    if DeleteSafe(s) {
      forall acts ensures LivesThrough(s1, acts) {
        if Valid(s1, acts) { SafeDeleteNeverKills(s, acts); }
      }
    } else {
      var acts := UnsafeDeleteIsFatal(s);
      assert !LivesThrough(s1, acts);
    }
  }

  lemma UnsafeDeleteIsFatal(s: Sys) returns (acts: seq<Action>)
    requires Inv(s) && Attended(s) && s.client.Deleting? && !DeleteSafe(s)
    ensures ByLoop(acts) && Valid(Step(s, ClientDelete), acts) && DeadDispatch(Exec(Step(s, ClientDelete), acts))
  {
    if ReqRegister(Victim(s)) in s.req {
      acts := AnnouncedDeleteIsFatal(s);
    } else {
      acts := WatchedDeleteIsFatal(s);
    }
  }

  // ---- runs that get there ----

  const HANDLER: Addr := 3

  /** A client connects to the modem. */
  function Connecting(fd: nat): Action {
    ClientConnect(0, "modemd", Conn(W.Attempt(W.Connected(fd), None, 0), HANDLER, true))
  }

  lemma ModemName()
    ensures Classify("modemd") == Modem
  {
    assert OccursAt("modemd", "modemd", 0);
    assert !Contains("modemd", "cp_time_sync_server");
  }

  lemma AfterConnect(listen: nat, channel: nat, fd: nat)
    requires listen != channel && fd !in {listen, channel}
    ensures Valid(Start(listen, channel), [Connecting(fd)])
    ensures var s := Exec(Start(listen, channel), [Connecting(fd)]);
            && Inv(s) && Attended(s) && s.client == Idle && s.ctl.modem == Some(HANDLER)
            && s.req == [ReqRegister(Some(HANDLER))]
  {
    ModemName();
    ExecOne(Start(listen, channel), Connecting(fd));
    AttendedInRuns(listen, channel, [Connecting(fd)]);
  }

  /** The client closes the connection, and the unregistration cannot be written. */
  lemma CloseUnwritten(s: Sys)
    requires s.client == Idle && |s.world.loop.mux.fds| == |s.world.loop.mux.hdls|
    ensures var acts := [ClientClose(Modem, false)];
            Valid(s, acts) && Exec(s, acts) == s.(client := Deleting(s.ctl.modem, Modem, false))
  {
    ExecOne(s, ClientClose(Modem, false));
  }

  /** Before the loop thread has read the REGISTER request. */
  lemma AnnouncedDeleteIsReachable(listen: nat, channel: nat, fd: nat) returns (acts: seq<Action>)
    requires listen != channel && fd !in {listen, channel}
    ensures Valid(Start(listen, channel), acts)
    ensures var s := Exec(Start(listen, channel), acts);
            && Inv(s) && Attended(s) && s.client.Deleting? && Victim(s).Some? && ReqRegister(Victim(s)) in s.req
  {
    AfterConnect(listen, channel, fd);
    var head, close := [Connecting(fd)], [ClientClose(Modem, false)];
    CloseUnwritten(Exec(Start(listen, channel), head));
    ExecConcat(Start(listen, channel), head, close);
    acts := head + close;
    AttendedInRuns(listen, channel, acts);
  }

  /** Once it polls the new handler. */
  lemma WatchedDeleteIsReachable(listen: nat, channel: nat, fd: nat) returns (acts: seq<Action>)
    requires listen != channel && fd !in {listen, channel}
    ensures Valid(Start(listen, channel), acts)
    ensures var s := Exec(Start(listen, channel), acts);
            && Inv(s) && s.client.Deleting? && s.pc.Polling?
            && Victim(s).Some? && Victim(s) in s.world.loop.mux.hdls
  {
    AfterConnect(listen, channel, fd);
    var head := [Connecting(fd)];
    var s1 := Exec(Start(listen, channel), head);
    var tail := PollsNew(s1);
    ExecConcat(Start(listen, channel), head, tail);
    CloseUnwritten(Exec(s1, tail));
    ExecConcat(Start(listen, channel), head + tail, [ClientClose(Modem, false)]);
    acts := head + tail + [ClientClose(Modem, false)];
    AttendedInRuns(listen, channel, acts);
  }

  /** The loop thread serves the request and goes into poll() with the new handler. */
  lemma PollsNew(s: Sys) returns (acts: seq<Action>)
    requires Inv(s) && Attended(s) && s.client == Idle && s.ctl.modem == Some(HANDLER)
    requires s.req == [ReqRegister(Some(HANDLER))]
    ensures Valid(s, acts)
    ensures var e := Exec(s, acts);
            && |e.world.loop.mux.fds| == |e.world.loop.mux.hdls| && e.pc.Polling? && e.client == Idle
            && e.ctl.modem == Some(HANDLER) && Some(HANDLER) in e.world.loop.mux.hdls
  {
    assert RequestOk(s, s.req[0]);
    var up := TopAgain(s);
    var s1 := Exec(s, up);
    var served := ServeNext(s1);
    var s2 := Exec(s1, served);
    RunAttended(s1, served);
    assert Pointer(s2.ctl, Modem) == Some(HANDLER);
    var again := TopAgain(s2);
    var s3 := Exec(s2, again);
    assert Pointer(s3.ctl, Modem) == Some(HANDLER);
    var i := EnterPolling(s3, MuxState.PollingEntry(HANDLER, W.POLLIN));
    ExecOne(s3, CheckRun(None));
    ExecConcat(s, up, served);
    ExecConcat(s, up + served, again);
    ExecConcat(s, up + served + again, [CheckRun(None)]);
    acts := up + served + again + [CheckRun(None)];
  }

  /** With a consistent state the loop thread meets no dead handler on its way. */
  lemma TopAgain(s: Sys) returns (acts: seq<Action>)
    requires Inv(s) && Attended(s) && s.client == Idle
    ensures ByLoop(acts) && Valid(s, acts)
    ensures var e := Exec(s, acts); Inv(e) && Attended(e) && Calm(s, e) && Alive(e) && e.pc.Top?
  {
    acts := ReachTop(s);
    RunAttended(s, acts);
    if AtReady(Exec(s, acts)) { SafeDispatch(Exec(s, acts)); }
  }

  /** Both ways a run from the start comes to a deletion after which, by steps of the loop thread alone,
      process() is called through a pointer that is null or refers to the deleted object. */
  lemma DeadDispatchIsReachable(listen: nat, channel: nat, fd: nat, watched: bool)
    returns (before: seq<Action>, later: seq<Action>)
    requires listen != channel && fd !in {listen, channel}
    ensures Valid(Start(listen, channel), before)
    ensures var s := Exec(Start(listen, channel), before);
            && Inv(s) && s.client.Deleting? && Victim(s).Some?
            && (if watched then s.pc.Polling? && Victim(s) in s.world.loop.mux.hdls
                else ReqRegister(Victim(s)) in s.req)
            && ByLoop(later) && Valid(Step(s, ClientDelete), later)
            && DeadDispatch(Exec(Step(s, ClientDelete), later))
  {
    if watched {
      before := WatchedDeleteIsReachable(listen, channel, fd);
      later := WatchedDeleteIsFatal(Exec(Start(listen, channel), before));
    } else {
      before := AnnouncedDeleteIsReachable(listen, channel, fd);
      later := AnnouncedDeleteIsFatal(Exec(Start(listen, channel), before));
    }
  }
}
