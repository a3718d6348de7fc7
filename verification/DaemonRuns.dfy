/** What holds over whole runs of the daemon: dispatch safety, the handlers' life cycle, the
    unregister handshake, quitting, and the retry map. */
module DaemonRuns {
  import opened Common
  import opened Timespecs
  import opened TimerList
  import opened LoopState
  import opened Retry
  import opened Daemon
  import opened DaemonInv
  import opened DaemonSteps
  import W = World
  import LC = LifeCycle
  import MuxState

  // ---- runs ----

  /** The actions are possible one after the other, and deletions are safe. */
  ghost predicate Valid(s: Sys, acts: seq<Action>)
    decreases acts
  {
    acts == [] ||
    (&& |s.world.loop.mux.fds| == |s.world.loop.mux.hdls|
     && Enabled(s, acts[0])
     && (acts[0].ClientDelete? ==> DeleteSafe(s))
     && Valid(Step(s, acts[0]), acts[1..]))
  }

  ghost function Exec(s: Sys, acts: seq<Action>): Sys
    requires Valid(s, acts)
    decreases acts
  {
    if acts == [] then s else Exec(Step(s, acts[0]), acts[1..])
  }

  lemma {:induction false} ExecConcat(s: Sys, a: seq<Action>, b: seq<Action>)
    requires Valid(s, a) && Valid(Exec(s, a), b)
    ensures Valid(s, a + b) && Exec(s, a + b) == Exec(Exec(s, a), b)
    decreases a
  {
    if a == [] {
      assert a + b == b;
    } else {
      assert (a + b)[1..] == a[1..] + b;
      ExecConcat(Step(s, a[0]), a[1..], b);
    }
  }

  lemma ExecOne(s: Sys, a: Action)
    requires |s.world.loop.mux.fds| == |s.world.loop.mux.hdls| && Enabled(s, a)
    requires a.ClientDelete? ==> DeleteSafe(s)
    requires var s' := Step(s, a); |s'.world.loop.mux.fds| == |s'.world.loop.mux.hdls|
    ensures Valid(s, [a]) && Exec(s, [a]) == Step(s, a)
  {
    var s' := Step(s, a);
    assert [a][1..] == [] && Valid(s', []) && Exec(s', []) == s';
  }

  const MGR: Addr := 1
  const SCHED: Addr := 2

  /** After ConnectControl::init: the listening socket and the request channel are registered. */
  function Start(listen: nat, channel: nat): Sys {
    var m := MuxState.Register(MuxState.Register(MuxState.Initial, MGR, W.POLLIN), SCHED, W.POLLIN);
    var heap := map[MGR := W.Handler(W.ClientMgr, listen, false, None),
                    SCHED := W.Handler(W.Sched, channel, false, None)];
    Sys(W.World(Loop(m, []), heap, {listen, channel}), Ctl(map[], None, None, None, None), [], [],
        Outer, true, Idle, false)
  }

  lemma StartInv(listen: nat, channel: nat)
    requires listen != channel
    ensures Inv(Start(listen, channel))
  {
    var s := Start(listen, channel);
    var m0 := MuxState.Initial;
    assert MuxState.Ok(m0);
    MuxState.RegisterOk(m0, MGR, W.POLLIN);
    MuxState.RegisterOk(MuxState.Register(m0, MGR, W.POLLIN), SCHED, W.POLLIN);
    MuxState.RegisterMembers(m0, MGR, W.POLLIN);
    MuxState.RegisterMembers(MuxState.Register(m0, MGR, W.POLLIN), SCHED, W.POLLIN);
    forall t ensures Pointer(s.ctl, t) == None {}
  }

  /** After init the listening socket and the request channel, and nothing else, are registered for input with
      their descriptors; there is no timer, no request and no connection to retry. */
  lemma StartServes(listen: nat, channel: nat)
    ensures var s := Start(listen, channel);
            && (forall e :: e in s.world.loop.mux.registry <==>
                  e == MuxState.PollingEntry(MGR, W.POLLIN) || e == MuxState.PollingEntry(SCHED, W.POLLIN))
            && s.world.loop.mux.dirty && s.world.loop.mux.run && s.daemonRun && s.world.loop.timers == []
            && s.world.heap.Keys == {MGR, SCHED}
            && s.world.heap[MGR].kind.ClientMgr? && s.world.heap[MGR].fd == listen
            && s.world.heap[SCHED].kind.Sched? && s.world.heap[SCHED].fd == channel
            && s.req == [] && s.resp == [] && s.ctl.sockets == map[] && forall t :: Pointer(s.ctl, t).None?
  {
    MuxState.RegisterMembers(MuxState.Initial, MGR, W.POLLIN);
    MuxState.RegisterMembers(MuxState.Register(MuxState.Initial, MGR, W.POLLIN), SCHED, W.POLLIN);
    forall t ensures Pointer(Start(listen, channel).ctl, t).None? {}
  }

  /** The first step of a run and the run that remains. */
  lemma FirstStep(s: Sys, acts: seq<Action>) returns (s1: Sys)
    requires Inv(s) && Valid(s, acts) && acts != []
    ensures Enabled(s, acts[0]) && (acts[0].ClientDelete? ==> DeleteSafe(s)) && s1 == Step(s, acts[0])
    ensures Inv(s1) && Valid(s1, acts[1..]) && Exec(s, acts) == Exec(s1, acts[1..])
  {
    StepInv(s, acts[0]);
    s1 := Step(s, acts[0]);
  }

  /** The invariant holds in every state of a run whose deletions are safe. */
  lemma {:induction false} RunInv(s: Sys, acts: seq<Action>)
    requires Inv(s) && Valid(s, acts)
    ensures Inv(Exec(s, acts))
    decreases acts
  {
    if acts != [] {
      StepInv(s, acts[0]);
      RunInv(Step(s, acts[0]), acts[1..]);
    }
  }

  /** In every run whose deletions are safe, the dispatch loop calls process() only on a live, registered
      handler with its current, open descriptor, although timer callbacks, earlier handlers and the client
      thread may have unregistered, deleted or registered others since poll(). */
  lemma NoDeadDispatch(listen: nat, channel: nat, acts: seq<Action>)
    requires listen != channel && Valid(Start(listen, channel), acts)
    ensures var s := Exec(Start(listen, channel), acts);
            AtReady(s) ==>
              && TargetLive(s)
              && var h := s.world.loop.mux.hdls[s.pc.i].value;
              && W.Registered(s.world, h)
              && s.world.heap[h].fd == s.world.loop.mux.fds[s.pc.i].fd
              && s.world.heap[h].fd in s.world.open
  {
    StartInv(listen, channel);
    RunInv(Start(listen, channel), acts);
    var s := Exec(Start(listen, channel), acts);
    if AtReady(s) { SafeDispatch(s); }
  }

  /** In every run whose deletions are safe, a handler that waits for its reconnect timer is unregistered,
      without descriptor, and has exactly one such timer; a registered handler has an open descriptor and no
      timer; nothing refers to a deleted handler. */
  lemma LifeCycleInRuns(listen: nat, channel: nat, acts: seq<Action>, h: Addr)
    requires listen != channel && Valid(Start(listen, channel), acts)
    ensures var s := Exec(Start(listen, channel), acts);
            && (W.Registered(s.world, h) ==>
                  && h in s.world.heap && s.world.heap[h].fd >= 0 && s.world.heap[h].fd in s.world.open
                  && s.world.heap[h].timer == None)
            && (h in s.world.heap && s.world.heap[h].timer.Some? ==>
                  && s.world.heap[h].kind == W.CpState && s.world.heap[h].fd < 0
                  && !W.Registered(s.world, h) && Some(h) !in s.world.loop.mux.hdls
                  && LC.OnlyTimerOf(s.world.loop.timers, h, s.world.heap[h].timer.value))
            && (h !in s.world.heap ==>
                  Unreferenced(s, h) && ReqRegister(Some(h)) !in s.req && ReqUnregister(Some(h)) !in s.req)
  {
    StartInv(listen, channel);
    RunInv(Start(listen, channel), acts);
    var s := Exec(Start(listen, channel), acts);
    LC.LifeCycleStates(s.world, h);
    AnnouncedOk(s, h);
    forall i | 0 <= i < |s.req| && s.req[i] == ReqUnregister(Some(h)) ensures h in s.world.heap {
      assert RequestOk(s, s.req[i]);
    }
  }

  /** The slot is empty and has no events, or holds a handler that is registered for its events, with
      the handler's current descriptor. */
  ghost predicate SlotAgrees(s: Sys, i: nat)
    requires i < |s.world.loop.mux.fds| == |s.world.loop.mux.hdls|
  {
    var m := s.world.loop.mux;
    match m.hdls[i]
    case None => m.fds[i].revents == 0
    case Some(h) =>
      && MuxState.PollingEntry(h, m.fds[i].events) in m.registry && m.fds[i].events != 0
      && h in s.world.heap && m.fds[i].fd == s.world.heap[h].fd
  }

  /** The cached array agrees with the registry: in a clean one the slots are its polled entries, in
      order. Nothing occurs twice, and the capacity bounds it all. */
  ghost predicate CacheAgrees(s: Sys) {
    var m, polled := s.world.loop.mux, MuxState.Active(s.world.loop.mux.registry);
    && |m.fds| == |m.hdls| <= m.capacity && m.capacity % MuxState.POLL_ARRAY_INC_STEP == 0
    && (forall i :: 0 <= i < |m.hdls| ==> SlotAgrees(s, i))
    && (!m.dirty ==> |m.hdls| == |polled| && forall i :: 0 <= i < |polled| ==> m.hdls[i] == Some(polled[i].handler))
    && (forall i, j :: 0 <= i < j < |m.hdls| && m.hdls[i].Some? ==> m.hdls[i] != m.hdls[j])
    && (forall i, j :: 0 <= i < j < |m.registry| ==> m.registry[i].handler != m.registry[j].handler)
  }

  lemma CacheAgreesInRuns(listen: nat, channel: nat, acts: seq<Action>)
    requires listen != channel && Valid(Start(listen, channel), acts)
    ensures CacheAgrees(Exec(Start(listen, channel), acts))
  {
    StartInv(listen, channel);
    RunInv(Start(listen, channel), acts);
    var s := Exec(Start(listen, channel), acts);
    forall i | 0 <= i < |s.world.loop.mux.hdls| ensures SlotAgrees(s, i) {
      assert MuxState.SlotOk(s.world.loop.mux, i);
    }
  }

  // ---- the unregister handshake ----

  /** The handler is in neither the registry nor the cached array, and no timer will call it. */
  ghost predicate Unreferenced(s: Sys, h: Addr) {
    && !W.Registered(s.world, h)
    && Some(h) !in s.world.loop.mux.hdls
    && forall t :: t in s.world.loop.timers && t.cb == ConnectServer ==> t.param != h
  }

  lemma QuietIsUnreferenced(s: Sys, h: Addr)
    requires Inv(s) && Quiet(s, h)
    ensures Unreferenced(s, h)
  {
    W.SlotsRegistered(s.world);
  }

  /** No action of the run deletes the handler at this address. */
  ghost predicate Spares(s: Sys, acts: seq<Action>, h: Addr)
    requires Valid(s, acts)
    decreases acts
  {
    acts == [] || ((acts[0].ClientDelete? ==> Victim(s) != Some(h)) && Spares(Step(s, acts[0]), acts[1..], h))
  }

  lemma QuietStep(s: Sys, a: Action, h: Addr)
    requires Inv(s) && Enabled(s, a) && Quiet(s, h)
    requires a.ClientDelete? ==> DeleteSafe(s) && Victim(s) != Some(h)
    ensures Quiet(Step(s, a), h)
  {
    StepInv(s, a);
    if a.ClientDelete? && Victim(s).Some? { DeleteTouches(s.world, Victim(s).value); }
  }

  /** A quiet handler stays out of the loop whatever both threads do, until it is deleted. */
  lemma {:induction false} QuietForEver(s: Sys, acts: seq<Action>, h: Addr)
    requires Inv(s) && Quiet(s, h) && Valid(s, acts) && Spares(s, acts, h)
    ensures Quiet(Exec(s, acts), h) && Unreferenced(Exec(s, acts), h)
    decreases acts
  {
    if acts == [] {
      QuietIsUnreferenced(s, h);
    } else {
      StepInv(s, acts[0]);
      QuietStep(s, acts[0], h);
      QuietForEver(Step(s, acts[0]), acts[1..], h);
    }
  }

  /** Handshake safety: in every run, once unregister_request(h) has returned for a handler that had
      no reconnect timer when the loop thread processed the request, the handler is in neither the
      registry, the cached array nor the timer list, and stays so until it is deleted. */
  lemma HandshakeQuiesces(listen: nat, channel: nat, before: seq<Action>, later: seq<Action>)
    requires listen != channel && Valid(Start(listen, channel), before)
    requires var s := Exec(Start(listen, channel), before);
             && s.client.Deleting? && s.client.h.Some? && s.client.quiet
             && Valid(s, later) && Spares(s, later, s.client.h.value)
    ensures var s := Exec(Start(listen, channel), before);
            Unreferenced(s, s.client.h.value) && Unreferenced(Exec(s, later), s.client.h.value)
  {
    StartInv(listen, channel);
    RunInv(Start(listen, channel), before);
    var s := Exec(Start(listen, channel), before);
    QuietForEver(s, [], s.client.h.value);
    QuietForEver(s, later, s.client.h.value);
  }

  /** Serving UNREGISTER detaches the handler from the loop exactly when it has no reconnect timer. */
  lemma UnregisterDetachesIff(s: Sys, h: Addr)
    requires Inv(s) && s.req != [] && s.req[0] == ReqUnregister(Some(h))
    ensures var s' := Serve(s.(req := s.req[1..]), s.req[0]);
            Unreferenced(s', h) <==> s.world.heap[h].timer.None?
  {
    assert RequestOk(s, s.req[0]);
    ServeUnregister(s, h);
    W.UnregisterInv(s.world, h);
    var s' := Serve(s.(req := s.req[1..]), s.req[0]);
    W.SlotsRegistered(s'.world);
    LC.LifeCycleStates(s.world, h);
    if s.world.heap[h].timer.Some? {
      var ts := s.world.loop.timers;
      var i :| 0 <= i < |ts| && W.IsReconnectTimer(ts[i], h, s.world.heap[h].timer.value);
      assert s'.world.loop.timers[i] in s'.world.loop.timers;
    }
  }

  /** Serving REGISTER attaches exactly that handler to the loop, and has the poll array rebuilt. */
  lemma RegisterAttaches(s: Sys, h: Addr)
    requires Inv(s) && s.req != [] && s.req[0] == ReqRegister(Some(h))
    ensures var s' := Serve(s.(req := s.req[1..]), s.req[0]);
            && s'.world.loop.mux.dirty && s'.resp == s.resp
            && forall g :: W.Registered(s'.world, g) <==> g == h || W.Registered(s.world, g)
  {
    assert RequestOk(s, s.req[0]);
    W.RegisterInv(s.world, h);
  }

  /** The loop thread enters poll() watching exactly the handlers that are registered for some event. */
  lemma PollWatchesRegistered(s: Sys, clock: Option<Timespec>, h: Addr)
    requires Inv(s) && s.pc.Top? && s.world.loop.mux.run
    ensures var s' := Step(s, CheckRun(clock));
            && s'.pc.Polling?
            && (Some(h) in s'.world.loop.mux.hdls
                <==> exists e :: e in s.world.loop.mux.registry && e.handler == h && e.events != 0)
  {
    var m := s.world.loop.mux;
    var m', polled := Step(s, CheckRun(clock)).world.loop.mux, MuxState.Active(m.registry);
    MuxState.ActiveMembers(m.registry);
    if Some(h) in m'.hdls {
      var i :| 0 <= i < |m'.hdls| && m'.hdls[i] == Some(h);
      assert polled[i] in polled;
    }
    if e :| e in m.registry && e.handler == h && e.events != 0 {
      var i :| 0 <= i < |polled| && polled[i] == e;
      assert m'.hdls[i] == Some(h);
    }
  }

  lemma {:induction false} CountReplies(q: seq<Reply>)
    ensures CountIf(q, TellsUnregister) + CountIf(q, TellsQuit) == |q|
  {
    if q != [] { CountReplies(q[1..]); }
  }

  /** Exactly one reply: while the client waits for the unregistration of a handler, its request is
      on the way or its only reply is, never both; otherwise neither is. */
  lemma ExactlyOneReply(s: Sys)
    requires Inv(s)
    ensures s.client.WaitUnregister? && s.client.h.Some? ==>
              (s.resp == [UnregisterResult] && CountIf(s.req, AsksUnregister) == 0)
              || (s.resp == [] && CountIf(s.req, AsksUnregister) == 1)
    ensures s.client.WaitQuit? ==>
              (s.resp == [QuitResult] && CountIf(s.req, AsksQuit) == 0)
              || (s.resp == [] && CountIf(s.req, AsksQuit) == 1)
    ensures !s.client.WaitUnregister? && !s.client.WaitQuit? ==> s.resp == []
  {
    CountReplies(s.resp);
    if |s.resp| == 1 { assert s.resp[1..] == []; }
  }

  /** unregister_request with a null handler never returns. */
  lemma {:induction false} NullUnregisterNeverReturns(s: Sys, acts: seq<Action>)
    requires Inv(s) && s.client.WaitUnregister? && s.client.h.None? && Valid(s, acts)
    ensures Exec(s, acts).client == s.client
    decreases acts
  {
    if acts != [] {
      CountReplies(s.resp);
      StepInv(s, acts[0]);
      LoopKeepsClient(s, acts[0]);
      NullUnregisterNeverReturns(Step(s, acts[0]), acts[1..]);
    }
  }

  /** Whether it is a step of the loop thread. */
  predicate OfLoop(a: Action) {
    a.CheckRun? || a.PollReturns? || a.FireTimer? || a.VisitSlot?
  }

  lemma LoopKeepsClient(s: Sys, a: Action)
    requires Inv(s) && Enabled(s, a) && OfLoop(a)
    ensures Step(s, a).client == s.client && Step(s, a).daemonRun == s.daemonRun
  {
    match a
    case FireTimer(at, conn) => if TimerDue(s) { FireCore(s, at, conn); }
    case VisitSlot(io) =>
      if AtReady(s) {
        SafeDispatch(s);
        ProcessRun(s, s.world.loop.mux.hdls[s.pc.i].value, io);
      }
    case _ =>
  }

  // ---- quitting ----

  lemma QuitStays(s: Sys, a: Action)
    requires Inv(s) && Enabled(s, a) && !s.world.loop.mux.run
    requires a.ClientDelete? ==> DeleteSafe(s)
    ensures !Step(s, a).world.loop.mux.run
    ensures !a.PollReturns? && !a.FireTimer? && !a.VisitSlot?
  {
    if a.ClientConnect? { ConnectFrame(s, a.src, a.name, a.c); }
    if a.ClientDelete? && Victim(s).Some? { DeleteTouches(s.world, Victim(s).value); }
  }

  lemma QuitStep(s: Sys, acts: seq<Action>) returns (s1: Sys)
    requires Inv(s) && !s.world.loop.mux.run && Valid(s, acts) && acts != []
    ensures Inv(s1) && !s1.world.loop.mux.run && Valid(s1, acts[1..]) && Exec(s, acts) == Exec(s1, acts[1..])
    ensures !acts[0].PollReturns? && !acts[0].FireTimer? && !acts[0].VisitSlot?
  {
    QuitStays(s, acts[0]);
    StepInv(s, acts[0]);
    s1 := Step(s, acts[0]);
  }

  /** Quit safety: once QUIT has been processed no handler and no timer callback ever runs again, in
      no later call of run() either. */
  lemma {:induction false} NothingRunsAfterQuit(s: Sys, acts: seq<Action>)
    requires Inv(s) && !s.world.loop.mux.run && Valid(s, acts)
    ensures !Exec(s, acts).world.loop.mux.run
    ensures forall a :: a in acts ==> !a.PollReturns? && !a.FireTimer? && !a.VisitSlot?
    decreases acts
  {
    if acts != [] {
      var s1 := QuitStep(s, acts);
      NothingRunsAfterQuit(s1, acts[1..]);
      assert acts == [acts[0]] + acts[1..];
    }
  }

  /** The reply to QUIT is sent only after the loop was told to stop; and once the client has read
      it, the thread function ends within two tests of its loop conditions. */
  lemma DaemonExits(s: Sys)
    requires Inv(s)
    ensures QuitResult in s.resp ==> !s.world.loop.mux.run
    ensures !s.daemonRun && !s.pc.Exited? ==>
              && Valid(s, [CheckRun(None)])
              && (Exec(s, [CheckRun(None)]).pc.Exited?
                  || (&& Valid(s, [CheckRun(None), CheckRun(None)])
                      && Exec(s, [CheckRun(None), CheckRun(None)]).pc.Exited?))
  {
    if CountIf(s.resp, TellsQuit) == 0 { CountZero(s.resp, TellsQuit); }
    if !s.daemonRun && !s.pc.Exited? {
      var a := CheckRun(None);
      var s1 := Step(s, a);
      assert [a][1..] == [] && [a, a][1..] == [a];
      assert Valid(s1, []) && Exec(s1, []) == s1;
      if !s1.pc.Exited? {
        var s2 := Step(s1, a);
        assert Valid(s2, []) && Exec(s2, []) == s2;
        assert Valid(s1, [a]) && Exec(s1, [a]) == s2;
      }
    }
  }

  /** ~ConnectControl stops the daemon thread and then deletes it, and ~DaemonThread stops it again:
      once the second quit_request has written, neither thread can take any step at all. */
  lemma SecondStopNeverReturns(s: Sys, a: Action)
    requires Inv(s) && s.client.Joined?
    ensures !Enabled(Step(s, ClientQuit(true)), a)
  {
    ExactlyOneReply(s);
  }

  /** pthread_join does not return as long as nobody has told the thread to end. */
  lemma {:induction false} UntoldNeverJoins(s: Sys, acts: seq<Action>)
    requires Inv(s) && s.client.Joining? && s.daemonRun && Valid(s, acts)
    ensures Exec(s, acts).client.Joining? && Exec(s, acts).daemonRun
    decreases acts
  {
    if acts != [] {
      var s1 := FirstStep(s, acts);
      LoopKeepsClient(s, acts[0]);
      UntoldNeverJoins(s1, acts[1..]);
    }
  }

  /** Once the thread is told, it ends and is joined. */
  lemma JoinReturns(s: Sys) returns (acts: seq<Action>)
    requires Inv(s) && s.client.Joining? && !s.daemonRun
    ensures Valid(s, acts) && Exec(s, acts).client.Joined?
    decreases if s.pc.Top? then 2 else if s.pc.Outer? then 1 else 0
  {
    if s.pc.Exited? {
      acts := [ClientJoin];
      ExecOne(s, ClientJoin);
    } else {
      var a := CheckRun(None);
      StepInv(s, a);
      ExecOne(s, a);
      var rest := JoinReturns(Step(s, a));
      ExecConcat(s, [a], rest);
      acts := [a] + rest;
    }
  }

  /** stop() can return from pthread_join exactly when the thread was told to end; so never when the QUIT
      request could not be written. */
  lemma JoinReturnsIff(s: Sys)
    requires Inv(s) && s.client.Joining?
    ensures (exists acts :: Valid(s, acts) && Exec(s, acts).client.Joined?) <==> !s.daemonRun
  {
    if s.daemonRun {
      forall acts | Valid(s, acts) ensures !Exec(s, acts).client.Joined? { UntoldNeverJoins(s, acts); }
    } else {
      var acts := JoinReturns(s);
      assert Valid(s, acts) && Exec(s, acts).client.Joined?;
    }
  }

  lemma UnwrittenQuitNeverJoins(s: Sys, acts: seq<Action>)
    requires Inv(s) && s.client.Idle? && Valid(Step(s, ClientQuit(false)), acts)
    ensures Exec(Step(s, ClientQuit(false)), acts).client.Joining?
  {
    StepInv(s, ClientQuit(false));
    UntoldNeverJoins(Step(s, ClientQuit(false)), acts);
  }
}
