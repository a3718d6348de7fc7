/** What the loop thread can do by itself: whatever state it is in, it can get back to the top of its
    loop, poll, and serve the next request. So a request that is answered at all can be answered. */
module Progress {
  import opened Common
  import opened TimerList
  import opened LoopState
  import opened Retry
  import opened Daemon
  import opened DaemonInv
  import opened DaemonSteps
  import opened DaemonRuns
  import W = World
  import LC = LifeCycle
  import MuxState

  // ---- the request channel is attended ----

  /** The handler of the request channel is alive and registered, and the loop runs unless the client has
      asked it to quit. */
  ghost predicate Attended(s: Sys) {
    && Serviced(s)
    && (!s.world.loop.mux.run ==> s.client.WaitQuit? || s.client.Joining? || s.client.Joined?)
  }

  ghost predicate Serviced(s: Sys) {
    && SCHED in s.world.heap && s.world.heap[SCHED].kind.Sched?
    && MuxState.PollingEntry(SCHED, W.POLLIN) in s.world.loop.mux.registry
  }

  lemma StartAttended(listen: nat, channel: nat)
    ensures Attended(Start(listen, channel))
  {
    MuxState.RegisterMembers(MuxState.Initial, MGR, W.POLLIN);
    MuxState.RegisterMembers(MuxState.Register(MuxState.Initial, MGR, W.POLLIN), SCHED, W.POLLIN);
  }

  /** Registering keeps every entry; unregistering keeps those of other handlers. */
  lemma KeptEntries(l: Loop, h: Addr)
    requires MuxState.Shape(l.mux)
    ensures forall e :: e in l.mux.registry ==> e in W.Register(l, h).mux.registry
    ensures forall e :: e in l.mux.registry && e.handler != h ==> e in W.Unregister(l, h).mux.registry
    ensures MuxState.Shape(W.Register(l, h).mux) && MuxState.Shape(W.Unregister(l, h).mux)
  {
    MuxState.RegisterMembers(l.mux, h, W.POLLIN);
    MuxState.UnregisterMembers(l.mux, h);
    MuxState.RegisterOk(l.mux, h, W.POLLIN);
    MuxState.UnregisterKeepsShape(l.mux, h);
  }

  lemma ServeServiced(s: Sys, r: Request)
    requires MuxState.Shape(s.world.loop.mux) && Serviced(s) && (r.ReqUnregister? ==> r.h != Some(SCHED))
    ensures Serviced(Serve(s, r))
  {
    if !r.ReqQuit? && r.h.Some? { KeptEntries(s.world.loop, r.h.value); }
  }

  /** No object of its kind changed at this address, and its entry is still there. */
  lemma StillServiced(s: Sys, s': Sys)
    requires Serviced(s)
    requires SCHED in s'.world.heap && s'.world.heap[SCHED].kind == s.world.heap[SCHED].kind
    requires forall e :: e in s.world.loop.mux.registry && e.handler == SCHED ==> e in s'.world.loop.mux.registry
    ensures Serviced(s')
  {}

  lemma StateServiced(s: Sys, h: Addr, io: Io)
    requires MuxState.Shape(s.world.loop.mux) && Serviced(s) && h in s.world.heap && s.world.heap[h].kind.CpState?
    ensures Serviced(Process(s, h, io))
  {
    var l := s.world.loop;
    KeptEntries(l, h);
    ReconnectKeeps(W.Unregister(l, h), h, W.Closed(s.world.heap[h]), io.at);
    StillServiced(s, Process(s, h, io));
  }

  lemma SchedServiced(s: Sys, h: Addr, io: Io)
    requires MuxState.Shape(s.world.loop.mux) && Serviced(s) && h in s.world.heap && s.world.heap[h].kind.Sched?
    requires RequestsOk(s)
    ensures Serviced(Process(s, h, io))
  {
    if s.req != [] {
      assert RequestOk(s, s.req[0]);
      ServeServiced(s.(req := s.req[1..]), s.req[0]);
    }
  }

  lemma CloseServiced(s: Sys, h: Addr, io: Io)
    requires MuxState.Shape(s.world.loop.mux) && Serviced(s) && h in s.world.heap
    requires s.world.heap[h].kind.CpTime? || s.world.heap[h].kind.Client?
    ensures Serviced(Process(s, h, io))
  {
    KeptEntries(s.world.loop, h);
  }

  lemma ManagerServiced(s: Sys, h: Addr, io: Io)
    requires MuxState.Shape(s.world.loop.mux) && Serviced(s) && h in s.world.heap && s.world.heap[h].kind.ClientMgr?
    requires io.addr !in s.world.heap
    ensures Serviced(Process(s, h, io))
  {
    KeptEntries(s.world.loop, io.addr);
  }

  lemma ProcessServiced(s: Sys, h: Addr, io: Io)
    requires Inv(s) && Serviced(s) && h in s.world.heap && io.addr !in s.world.heap
    ensures Serviced(Process(s, h, io))
  {
    match s.world.heap[h].kind
    case Sched => SchedServiced(s, h, io);
    case CpState => StateServiced(s, h, io);
    case ClientMgr => ManagerServiced(s, h, io);
    case _ => CloseServiced(s, h, io);
  }

  lemma ReconnectKeeps(l: Loop, h: Addr, self: W.Handler, at: W.Attempt)
    requires MuxState.Shape(l.mux)
    ensures forall e :: e in l.mux.registry ==> e in W.Reconnect(l, h, self, at).0.mux.registry
    ensures W.Reconnect(l, h, self, at).1.kind == self.kind
  {
    KeptEntries(l, h);
  }

  lemma {:induction false} ConnectAllServiced(s: Sys, keys: seq<int>, conn: int -> Conn)
    requires Core(s) && Serviced(s) && ConnsOk(s, keys, conn) && forall k :: k in keys ==> k in s.ctl.sockets
    ensures Serviced(ConnectAll(s, keys, conn))
    decreases keys
  {
    if keys != [] {
      var s1 := ConnectStep(s, keys[0], s.ctl.sockets[keys[0]], conn(keys[0]));
      ConnectCore(s, keys[0], s.ctl.sockets[keys[0]], conn(keys[0]));
      ConnsAfter(s, keys, conn);
      ConnectAllServiced(s1, keys[1..], conn);
    }
  }

  lemma FireServiced(s: Sys, at: W.Attempt, conn: int -> Conn)
    requires Inv(s) && Serviced(s) && TimerDue(s) && Enabled(s, FireTimer(at, conn))
    ensures Serviced(Fire(s, at, conn))
  {
    var t := s.world.loop.timers[0];
    match t.cb
    case ConnectServer => ServerFireServiced(s, at, conn);
    case SocketReconnect => RetryFireServiced(s, at, conn);
    case Other(_) =>
  }

  lemma ServerFireServiced(s: Sys, at: W.Attempt, conn: int -> Conn)
    requires MuxState.Shape(s.world.loop.mux) && Serviced(s) && s.world.loop.timers != []
    requires s.world.loop.timers[0].cb == ConnectServer
    ensures Serviced(Fire(s, at, conn))
  {
    var h := s.world.loop.timers[0].param;
    if h in s.world.heap {
      ReconnectKeeps(LC.Popped(s.world).loop, h, s.world.heap[h].(timer := None), at);
      StillServiced(s, Fire(s, at, conn));
    }
  }

  lemma RetryFireServiced(s: Sys, at: W.Attempt, conn: int -> Conn)
    requires Core(s) && Serviced(s) && TimerDue(s) && Enabled(s, FireTimer(at, conn))
    requires s.world.loop.timers[0].cb == SocketReconnect
    ensures Serviced(Fire(s, at, conn))
  {
    var s1 := s.(world := LC.Popped(s.world));
    W.DropTimerInv(s.world, 0);
    assert Erase(s.world.loop.timers, 0) == s.world.loop.timers[1..];
    CoreFrame(s, s1);
    ConnectAllServiced(s1, SortedKeys(s.ctl.sockets.Keys), conn);
    StillServiced(ConnectAll(s1, SortedKeys(s.ctl.sockets.Keys), conn), Fire(s, at, conn));
  }

  lemma AttendedStep(s: Sys, a: Action)
    requires Inv(s) && Attended(s) && Enabled(s, a)
    ensures Attended(Step(s, a))
  {
    if OfLoop(a) {
      LoopAttended(s, a);
    } else {
      ClientAttended(s, a);
    }
  }

  lemma ClientAttended(s: Sys, a: Action)
    requires Inv(s) && Attended(s) && Enabled(s, a) && !OfLoop(a)
    ensures Attended(Step(s, a))
  {
    if a.ClientDelete? && Victim(s).Some? {
      DeleteTouches(s.world, Victim(s).value);
      KeptEntries(s.world.loop, Victim(s).value);
    }
  }

  lemma LoopAttended(s: Sys, a: Action)
    requires Inv(s) && Attended(s) && Enabled(s, a) && OfLoop(a)
    ensures Attended(Step(s, a))
  {
    if a.FireTimer? && TimerDue(s) {
      FireServiced(s, a.at, a.conn);
      FireCore(s, a.at, a.conn);
    } else if a.VisitSlot? && AtReady(s) {
      SafeDispatch(s);
      ProcessServiced(s, s.world.loop.mux.hdls[s.pc.i].value, a.io);
      ProcessAttended(s, s.world.loop.mux.hdls[s.pc.i].value, a.io);
    }
  }

  /** The loop is only stopped by a QUIT request that the client waits for. */
  lemma ProcessAttended(s: Sys, h: Addr, io: Io)
    requires Inv(s) && Attended(s) && h in s.world.heap
    ensures var s' := Process(s, h, io);
            s'.client == s.client && (!s'.world.loop.mux.run && s.world.loop.mux.run ==> s'.client.WaitQuit?)
  {
    if s.world.heap[h].kind.Sched? {
      if s.req != [] && s.req[0].ReqQuit? { assert CountIf(s.req, AsksQuit) >= 1; }
    } else {
      ProcessKeepsRunning(s, h, io);
    }
  }

  lemma {:induction false} RunAttended(s: Sys, acts: seq<Action>)
    requires Inv(s) && Attended(s) && Valid(s, acts)
    ensures Inv(Exec(s, acts)) && Attended(Exec(s, acts))
    decreases acts
  {
    if acts != [] {
      StepInv(s, acts[0]);
      AttendedStep(s, acts[0]);
      RunAttended(Step(s, acts[0]), acts[1..]);
    }
  }

  /** In every run whose deletions are safe the request channel stays attended. */
  lemma AttendedInRuns(listen: nat, channel: nat, acts: seq<Action>)
    requires listen != channel && Valid(Start(listen, channel), acts)
    ensures Inv(Exec(Start(listen, channel), acts)) && Attended(Exec(Start(listen, channel), acts))
  {
    StartInv(listen, channel);
    StartAttended(listen, channel);
    RunAttended(Start(listen, channel), acts);
  }

  // ---- what the loop thread does when nothing happens outside ----

  /** What the loop thread needs to go on by itself; it holds even when a deletion was not safe. */
  ghost predicate Alive(s: Sys) {
    && MuxState.Shape(s.world.loop.mux) && s.world.loop.mux.run && s.daemonRun && !s.pc.Exited?
    && Serviced(s)
  }

  /** The same requests and replies, client, registrations and objects. */
  ghost predicate Calm(s: Sys, e: Sys) {
    && e.req == s.req && e.resp == s.resp && e.client == s.client && e.quiet == s.quiet
    && e.daemonRun == s.daemonRun && e.world.heap.Keys == s.world.heap.Keys
    && e.world.loop.mux.registry == s.world.loop.mux.registry
    && forall t :: Pointer(e.ctl, t) == Pointer(s.ctl, t)
  }

  /** ConnectControl, the objects and the timers are the same. */
  ghost predicate Untimed(s: Sys, e: Sys) {
    e.ctl == s.ctl && e.world == s.world.(loop := e.world.loop) && e.world.loop.timers == s.world.loop.timers
  }

  predicate ByLoop(acts: seq<Action>) {
    forall k :: 0 <= k < |acts| ==> OfLoop(acts[k])
  }

  /** The dispatch loop is about to call process() on something that is not a live handler. */
  predicate DeadDispatch(s: Sys) {
    AtReady(s) && !TargetLive(s)
  }

  lemma {:induction false} BoundOf(s: set<int>) returns (n: nat)
    ensures forall x :: x in s ==> x < n
  {
    n := 0;
    var rest := s;
    while rest != {}
      invariant rest <= s && forall x :: x in s && x !in rest ==> x < n
      decreases |rest|
    {
      var x := SomeKey(rest);
      n := if x < n then n else x + 1;
      rest := rest - {x};
    }
  }

  lemma {:induction false} IdBound(ts: seq<Timer>) returns (n: nat)
    ensures forall id: TimerId :: id >= n ==> !HasId(ts, id)
  {
    n := 0;
    for i := 0 to |ts|
      invariant forall j :: 0 <= j < i ==> ts[j].id < n
    {
      n := if ts[i].id < n then n else ts[i].id + 1;
    }
  }

  /** A number from which on no address, no timer and no descriptor is in use. */
  lemma FreshFrom(s: Sys) returns (n: nat)
    ensures forall a: Addr :: a >= n ==> a !in s.world.heap && !HasId(s.world.loop.timers, a) && a !in s.world.open
  {
    var m := BoundOf(s.world.heap.Keys);
    var k := IdBound(s.world.loop.timers);
    var d := BoundOf(s.world.open);
    n := m + k + d;
  }

  /** Nothing to read, nobody to accept, no connection, no clock. */
  function NoAttempt(n: nat): W.Attempt {
    W.Attempt(W.Refused, None, n)
  }

  function NoIo(n: nat): Io {
    Io(W.Again, NoAttempt(n), -1, n)
  }

  /** Attempts of their own for the entries of the retry map. */
  function NoConn(n: nat): int -> Conn {
    k => var m := n + (if k >= 0 then 2 * k else -2 * k - 1); Conn(NoAttempt(m), m, true)
  }

  // ---- the timer loop ----

  lemma {:induction false} NoConnections(s: Sys, keys: seq<int>, n: nat)
    requires forall k :: k in keys ==> k in s.ctl.sockets
    ensures var e := ConnectAll(s, keys, NoConn(n));
            e == s.(ctl := e.ctl) && forall t :: Pointer(e.ctl, t) == Pointer(s.ctl, t)
    decreases keys
  {
    if keys != [] {
      var k := keys[0];
      var s1 := ConnectStep(s, k, s.ctl.sockets[k], NoConn(n)(k));
      assert s1 == s.(ctl := s1.ctl) && forall t :: Pointer(s1.ctl, t) == Pointer(s.ctl, t);
      NoConnections(s1, keys[1..], n);
    }
  }

  lemma NoConnsOk(s: Sys, keys: seq<int>, n: nat)
    requires Increasing(keys) && forall a: Addr :: a >= n ==> a !in s.world.heap && !HasId(s.world.loop.timers, a)
    ensures ConnsOk(s, keys, NoConn(n))
  {
    forall i, j | 0 <= i < j < |keys| ensures ConnsApart(NoConn(n)(keys[i]), NoConn(n)(keys[j])) {
      assert keys[i] != keys[j];
    }
  }

  lemma NoConnectionsFire(s: Sys, n: nat)
    requires s.world.loop.timers != []
    ensures var e := Fire(s, NoAttempt(n), NoConn(n));
            && e.world.loop == LC.Popped(s.world).loop && e.world.heap.Keys == s.world.heap.Keys
            && (forall h :: h in s.world.heap ==> e.world.heap[h].kind == s.world.heap[h].kind)
            && (forall t :: Pointer(e.ctl, t) == Pointer(s.ctl, t))
            && e == s.(world := e.world, ctl := e.ctl)
  {
    match s.world.loop.timers[0].cb
    case SocketReconnect => NoConnections(s.(world := LC.Popped(s.world)), SortedKeys(s.ctl.sockets.Keys), n);
    case ConnectServer => NoServerFires(s, n);
    case Other(_) =>
  }

  lemma NoServerFires(s: Sys, n: nat)
    requires s.world.loop.timers != [] && s.world.loop.timers[0].cb == ConnectServer
    ensures var e := Fire(s, NoAttempt(n), NoConn(n));
            && e.world.loop == LC.Popped(s.world).loop && e.world.heap.Keys == s.world.heap.Keys
            && (forall h :: h in s.world.heap ==> e.world.heap[h].kind == s.world.heap[h].kind)
            && e == s.(world := e.world)
  {}

  /** One due timer fires. */
  lemma FireCalmly(s: Sys) returns (a: Action)
    requires Alive(s) && s.pc.Firing? && TimerDue(s)
    ensures OfLoop(a) && Enabled(s, a)
    ensures var e := Step(s, a);
            && Calm(s, e) && Alive(e) && e.pc == s.pc && e.world.loop.mux == s.world.loop.mux
            && e.world.loop.timers == s.world.loop.timers[1..]
  {
    var n := FreshFrom(s);
    a := FireTimer(NoAttempt(n), NoConn(n));
    var s1 := s.(world := LC.Popped(s.world));
    forall id | id >= n ensures !HasId(s1.world.loop.timers, id) {
      assert !HasId(s.world.loop.timers, id);
    }
    NoConnsOk(s1, SortedKeys(s.ctl.sockets.Keys), n);
    NoConnectionsFire(s, n);
  }

  /** The timer loop runs to its end. */
  lemma {:induction false} FinishTimers(s: Sys) returns (acts: seq<Action>)
    requires Alive(s) && s.pc.Firing?
    ensures ByLoop(acts) && Valid(s, acts)
    ensures var e := Exec(s, acts);
            && Calm(s, e) && Alive(e) && e.pc == (if s.pc.err > 0 then Dispatch(0) else Top)
    decreases |s.world.loop.timers|
  {
    if TimerDue(s) {
      var a := FireCalmly(s);
      var rest := FinishTimers(Step(s, a));
      acts := [a] + rest;
      assert acts[1..] == rest;
    } else {
      acts := [FireTimer(NoAttempt(0), NoConn(0))];
      ExecOne(s, acts[0]);
    }
  }

  // ---- the dispatch loop ----

  /** One slot is passed: nothing is ready, or the handler finds nothing to read. */
  lemma PassSlot(s: Sys) returns (a: Action)
    requires Alive(s) && s.pc.Dispatch? && !DeadDispatch(s)
    ensures OfLoop(a) && Enabled(s, a)
    ensures Step(s, a) == s.(pc := if s.pc.i < |s.world.loop.mux.fds| then Dispatch(s.pc.i + 1) else Top)
  {
    var n := FreshFrom(s);
    a := VisitSlot(NoIo(n));
  }

  lemma {:induction false} FinishSlots(s: Sys) returns (acts: seq<Action>)
    requires Alive(s) && s.pc.Dispatch?
    ensures ByLoop(acts) && Valid(s, acts)
    ensures var e := Exec(s, acts); Calm(s, e) && Untimed(s, e) && Alive(e) && (DeadDispatch(e) || e.pc.Top?)
    decreases |s.world.loop.mux.fds| - s.pc.i
  {
    if DeadDispatch(s) {
      acts := [];
    } else {
      var a := PassSlot(s);
      if s.pc.i < |s.world.loop.mux.fds| {
        var rest := FinishSlots(Step(s, a));
        acts := [a] + rest;
        assert acts[1..] == rest;
      } else {
        acts := [a];
        ExecOne(s, a);
      }
    }
  }

  /** From everywhere the loop thread gets to the top of its loop, unless it meets a dead handler. */
  lemma ReachTop(s: Sys) returns (acts: seq<Action>)
    requires Alive(s)
    ensures ByLoop(acts) && Valid(s, acts)
    ensures var e := Exec(s, acts);
            Calm(s, e) && (!s.pc.Firing? ==> Untimed(s, e)) && Alive(e) && (DeadDispatch(e) || e.pc.Top?)
  {
    match s.pc
    case Outer =>
      acts := [CheckRun(None)];
      ExecOne(s, acts[0]);
    case Top => acts := [];
    case Polling(_, _) =>
      acts := [PollReturns(0, (_: nat) => 0, None)];
      ExecOne(s, acts[0]);
    case Firing(_, err) =>
      var timers := FinishTimers(s);
      var e := Exec(s, timers);
      if err > 0 {
        var slots := FinishSlots(e);
        ExecConcat(s, timers, slots);
        acts := timers + slots;
      } else {
        acts := timers;
      }
    case Dispatch(_) => acts := FinishSlots(s);
  }

  // ---- polling, and reaching a slot ----

  function Visits(n: nat, io: Io): (acts: seq<Action>)
    ensures |acts| == n && forall k :: 0 <= k < n ==> acts[k] == VisitSlot(io)
  {
    if n == 0 then [] else [VisitSlot(io)] + Visits(n - 1, io)
  }

  /** The dispatch loop passes over slots without events. */
  lemma {:induction false} SkipSlots(s: Sys, i: nat, n: nat, io: Io)
    requires |s.world.loop.mux.fds| == |s.world.loop.mux.hdls|
    requires s.pc == Dispatch(i) && i + n <= |s.world.loop.mux.fds|
    requires forall j :: i <= j < i + n ==> s.world.loop.mux.fds[j].revents == 0
    ensures Valid(s, Visits(n, io)) && Exec(s, Visits(n, io)) == s.(pc := Dispatch(i + n))
    decreases n
  {
    if n > 0 {
      var acts := Visits(n, io);
      assert acts[0] == VisitSlot(io) && acts[1..] == Visits(n - 1, io);
      assert Step(s, acts[0]) == s.(pc := Dispatch(i + 1));
      SkipSlots(Step(s, acts[0]), i + 1, n - 1, io);
    }
  }

  /** A poll() under way may report events for any slot, and then that slot is reached. */
  lemma SlotReached(s: Sys, i: nat) returns (acts: seq<Action>)
    requires s.pc.Polling? && |s.world.loop.mux.fds| == |s.world.loop.mux.hdls| && i < |s.world.loop.mux.fds|
    ensures ByLoop(acts) && Valid(s, acts) && AtReady(Exec(s, acts))
    ensures var e := Exec(s, acts);
            && e.pc == Dispatch(i) && e.world.loop.mux.hdls == s.world.loop.mux.hdls
            && e == s.(pc := e.pc, world := s.world.(loop := s.world.loop.(mux := e.world.loop.mux)))
            && e.world.loop.mux == s.world.loop.mux.(fds := e.world.loop.mux.fds)
            && (forall j :: 0 <= j < |e.world.loop.mux.fds| ==>
                  e.world.loop.mux.fds[j].events == s.world.loop.mux.fds[j].events)
  {
    var poll := PollReturns(1, (j: nat) => if j == i then 1 else 0, None);
    var s1 := Step(s, poll);
    SkipSlots(s1, 0, i, NoIo(0));
    acts := [poll] + Visits(i, NoIo(0));
    assert acts[1..] == Visits(i, NoIo(0));
    assert Valid(s, acts) && Exec(s, acts) == Exec(s1, Visits(i, NoIo(0))) == s1.(pc := Dispatch(i));
  }

  /** From the top of the loop into poll(), where every registered handler has a slot. */
  lemma EnterPolling(s: Sys, e: PollingEntry) returns (i: nat)
    requires Alive(s) && s.pc.Top? && e in s.world.loop.mux.registry && e.events != 0
    ensures var s' := Step(s, CheckRun(None));
            && Calm(s, s') && Untimed(s, s') && Alive(s') && s'.pc.Polling?
            && i < |s'.world.loop.mux.hdls| && s'.world.loop.mux.hdls[i] == Some(e.handler)
  {
    var m := s.world.loop.mux;
    var polled := MuxState.Active(m.registry);
    MuxState.PrepareOk(m, W.FdOf(s.world));
    MuxState.ActiveMembers(m.registry);
    i :| 0 <= i < |polled| && polled[i] == e;
  }

  lemma PolledShape(m: Mux, fds: seq<MuxState.PollFd>)
    requires MuxState.Shape(m) && |fds| == |m.fds|
    requires forall j :: 0 <= j < |fds| ==> fds[j].events == m.fds[j].events
    ensures MuxState.Shape(m.(fds := fds))
  {}

  /** From the top of the loop to a slot of this handler, with events. */
  lemma PollAt(s: Sys, e: PollingEntry) returns (acts: seq<Action>)
    requires Alive(s) && s.pc.Top? && e in s.world.loop.mux.registry && e.events != 0
    ensures ByLoop(acts) && Valid(s, acts)
    ensures var s' := Exec(s, acts);
            && Calm(s, s') && Untimed(s, s') && Alive(s') && AtReady(s')
            && s'.world.loop.mux.hdls[s'.pc.i] == Some(e.handler)
  {
    var i := EnterPolling(s, e);
    var s1 := Step(s, CheckRun(None));
    ExecOne(s, CheckRun(None));
    var rest := SlotReached(s1, i);
    PolledShape(s1.world.loop.mux, Exec(s1, rest).world.loop.mux.fds);
    acts := [CheckRun(None)] + rest;
    ExecConcat(s, [CheckRun(None)], rest);
  }

  // ---- serving requests ----

  /** From the top of the loop the next request is served. */
  lemma ServeNext(s: Sys) returns (acts: seq<Action>)
    requires Alive(s) && s.pc.Top? && s.req != []
    requires !s.req[0].ReqQuit? && s.req[0] != ReqUnregister(Some(SCHED))
    ensures ByLoop(acts) && Valid(s, acts)
    ensures var r, e := s.req[0], Exec(s, acts);
            && Alive(e) && e.pc.Dispatch? && e.req == s.req[1..] && e.client == s.client && Untimed(s, e)
            && e.resp == s.resp + (if AsksUnregister(r) then [UnregisterResult] else [])
            && (AsksUnregister(r) ==>
                  e.quiet == (r.h.value in s.world.heap && s.world.heap[r.h.value].timer.None?))
            && (r.ReqRegister? && r.h.Some? && !W.Registered(s.world, r.h.value) ==>
                  MuxState.PollingEntry(r.h.value, W.POLLIN) in e.world.loop.mux.registry)
            && (forall g :: W.Registered(e.world, g) ==> W.Registered(s.world, g) || r == ReqRegister(Some(g)))
  {
    var polled := PollAt(s, MuxState.PollingEntry(SCHED, W.POLLIN));
    var s1 := Exec(s, polled);
    var a := ServeStep(s1);
    ExecOne(s1, a);
    ExecConcat(s, polled, [a]);
    acts := polled + [a];
  }

  lemma ServeStep(s: Sys) returns (a: Action)
    requires Alive(s) && AtReady(s) && s.world.loop.mux.hdls[s.pc.i] == Some(SCHED) && s.req != []
    requires !s.req[0].ReqQuit? && s.req[0] != ReqUnregister(Some(SCHED))
    ensures OfLoop(a) && Enabled(s, a)
    ensures var r, e := s.req[0], Step(s, a);
            && Alive(e) && e.pc.Dispatch? && e.req == s.req[1..] && e.client == s.client && Untimed(s, e)
            && e.resp == s.resp + (if AsksUnregister(r) then [UnregisterResult] else [])
            && (AsksUnregister(r) ==>
                  e.quiet == (r.h.value in s.world.heap && s.world.heap[r.h.value].timer.None?))
            && (r.ReqRegister? && r.h.Some? && !W.Registered(s.world, r.h.value) ==>
                  MuxState.PollingEntry(r.h.value, W.POLLIN) in e.world.loop.mux.registry)
            && (forall g :: W.Registered(e.world, g) ==> W.Registered(s.world, g) || r == ReqRegister(Some(g)))
  {
    var n := FreshFrom(s);
    a := VisitSlot(NoIo(n).(read := W.Data));
    ServeAlive(s.(req := s.req[1..]), s.req[0]);
    var e := Step(s, a);
    var served := Serve(s.(req := s.req[1..]), s.req[0]);
    assert e == served.(pc := Dispatch(s.pc.i + 1));
  }

  /** What serving a request other than QUIT does. */
  lemma ServeAlive(s: Sys, r: Request)
    requires MuxState.Shape(s.world.loop.mux) && Serviced(s) && !r.ReqQuit? && r != ReqUnregister(Some(SCHED))
    ensures var e := Serve(s, r);
            && MuxState.Shape(e.world.loop.mux) && Serviced(e) && e.world.loop.mux.run == s.world.loop.mux.run
            && e.daemonRun == s.daemonRun && e.pc == s.pc && e.req == s.req && e.client == s.client
            && Untimed(s, e)
            && e.resp == s.resp + (if AsksUnregister(r) then [UnregisterResult] else [])
            && (AsksUnregister(r) ==>
                  e.quiet == (r.h.value in s.world.heap && s.world.heap[r.h.value].timer.None?))
    ensures var e := Serve(s, r);
            && (r.ReqRegister? && r.h.Some? && !W.Registered(s.world, r.h.value) ==>
                  MuxState.PollingEntry(r.h.value, W.POLLIN) in e.world.loop.mux.registry)
            && (forall g :: W.Registered(e.world, g) ==> W.Registered(s.world, g) || r == ReqRegister(Some(g)))
  {
    ServeServiced(s, r);
    ServeEntries(s, r);
    ServeShape(s, r);
  }

  lemma ServeShape(s: Sys, r: Request)
    requires MuxState.Shape(s.world.loop.mux) && !r.ReqQuit?
    ensures MuxState.Shape(Serve(s, r).world.loop.mux) && Serve(s, r).world.loop.mux.run == s.world.loop.mux.run
  {
    if r.h.Some? { KeptEntries(s.world.loop, r.h.value); }
  }

  lemma ServeEntries(s: Sys, r: Request)
    requires MuxState.Shape(s.world.loop.mux) && !r.ReqQuit?
    ensures var m := Serve(s, r).world.loop.mux;
            && (r.ReqRegister? && r.h.Some? && !W.Registered(s.world, r.h.value) ==>
                  MuxState.PollingEntry(r.h.value, W.POLLIN) in m.registry)
            && (forall g :: MuxState.Registered(m.registry, g) ==>
                  W.Registered(s.world, g) || r == ReqRegister(Some(g)))
  {
    if r.ReqRegister? && r.h.Some? {
      MuxState.RegisterMembers(s.world.loop.mux, r.h.value, W.POLLIN);
    } else if r.ReqUnregister? && r.h.Some? {
      MuxState.UnregisterMembers(s.world.loop.mux, r.h.value);
    }
  }

  // ---- unregister_request ----

  /** unregister_request can return from every state in which the client waits for a handler. */
  lemma {:induction false} UnregisterReturns(s: Sys) returns (acts: seq<Action>)
    requires Inv(s) && Attended(s) && s.client.WaitUnregister? && s.client.h.Some?
    ensures Valid(s, acts) && Exec(s, acts).client.Deleting?
    decreases |s.req|
  {
    ExactlyOneReply(s);
    if s.resp != [] {
      acts := [ClientRead];
      ExecOne(s, ClientRead);
    } else {
      NoQuitAsked(s);
      var up := ReachTop(s);
      var s1 := Exec(s, up);
      RunAttended(s, up);
      if AtReady(s1) { SafeDispatch(s1); }
      var served := ServeNext(s1);
      var s2 := Exec(s1, served);
      RunAttended(s1, served);
      var rest := UnregisterReturns(s2);
      ExecConcat(s, up, served);
      ExecConcat(s, up + served, rest);
      acts := up + served + rest;
    }
  }

  lemma NoQuitAsked(s: Sys)
    requires Inv(s) && s.client.WaitUnregister? && s.client.h.Some? && s.resp == [] && Attended(s)
    ensures s.req != [] && !s.req[0].ReqQuit? && s.req[0] != ReqUnregister(Some(SCHED))
  {
    CountZero(s.req, AsksQuit);
    assert RequestOk(s, s.req[0]);
  }

  /** From a state in which the client waits in unregister_request, some run returns exactly when the
      handler is not null. */
  lemma UnregisterReturnsIff(s: Sys)
    requires Inv(s) && Attended(s) && s.client.WaitUnregister?
    ensures (exists acts :: Valid(s, acts) && !Exec(s, acts).client.WaitUnregister?) <==> s.client.h.Some?
  {
    if s.client.h.Some? {
      var acts := UnregisterReturns(s);
      assert Valid(s, acts) && !Exec(s, acts).client.WaitUnregister?;
    } else {
      forall acts | Valid(s, acts) ensures Exec(s, acts).client.WaitUnregister? {
        NullUnregisterNeverReturns(s, acts);
      }
    }
  }

  // ---- quit_request ----

  /** While the client waits in quit_request: as long as the thread has not been told to end, the loop is
      only stopped with the reply on its way; afterwards the thread is gone and no reply will come. */
  ghost predicate Answering(s: Sys) {
    s.client.WaitQuit? ==>
      if s.daemonRun then !s.world.loop.mux.run ==> s.resp == [QuitResult]
      else s.pc.Exited? && s.resp == []
  }

  lemma NobodyAnswers(s: Sys, a: Action)
    requires Answering(s) && s.client.WaitQuit? && !s.daemonRun
    ensures !Enabled(s, a)
  {}

  lemma ServeAnswers(s: Sys, h: Addr, io: Io)
    requires Inv(s) && s.client.WaitQuit? && s.world.loop.mux.run && h in s.world.heap
    ensures var s' := Process(s, h, io); !s'.world.loop.mux.run ==> s'.resp == [QuitResult]
  {
    if s.world.heap[h].kind.Sched? {
      if s.req != [] && s.req[0].ReqQuit? {
        ExactlyOneReply(s);
        assert CountIf(s.req, AsksQuit) >= 1;
      }
    } else {
      ProcessKeepsRunning(s, h, io);
    }
  }

  lemma LoopAnswering(s: Sys, a: Action)
    requires Inv(s) && Answering(s) && Enabled(s, a) && OfLoop(a) && s.client.WaitQuit? && s.daemonRun
    ensures Answering(Step(s, a))
  {
    LoopKeepsClient(s, a);
    if !s.world.loop.mux.run {
      QuitStays(s, a);
    } else if a.FireTimer? {
      if TimerDue(s) { FireCore(s, a.at, a.conn); }
    } else if a.VisitSlot? && AtReady(s) {
      SafeDispatch(s);
      ServeAnswers(s, s.world.loop.mux.hdls[s.pc.i].value, a.io);
    }
  }

  lemma AnsweringStep(s: Sys, a: Action)
    requires Inv(s) && Attended(s) && Answering(s) && Enabled(s, a)
    ensures Answering(Step(s, a))
  {
    ExactlyOneReply(s);
    if s.client.WaitQuit? && !s.daemonRun {
      NobodyAnswers(s, a);
    } else if OfLoop(a) {
      if s.client.WaitQuit? { LoopAnswering(s, a); } else { LoopKeepsClient(s, a); }
    }
  }

  lemma {:induction false} RunAnswering(s: Sys, acts: seq<Action>)
    requires Inv(s) && Attended(s) && Answering(s) && Valid(s, acts)
    ensures Inv(Exec(s, acts)) && Attended(Exec(s, acts)) && Answering(Exec(s, acts))
    decreases acts
  {
    if acts != [] {
      var s1 := FirstStep(s, acts);
      AttendedStep(s, acts[0]);
      AnsweringStep(s, acts[0]);
      RunAnswering(s1, acts[1..]);
    }
  }

  /** From the top of the loop the QUIT request is served. */
  lemma QuitServed(s: Sys) returns (acts: seq<Action>)
    requires Alive(s) && s.pc.Top? && s.req != [] && s.req[0].ReqQuit?
    ensures ByLoop(acts) && Valid(s, acts)
    ensures Exec(s, acts).resp == s.resp + [QuitResult] && Exec(s, acts).client == s.client
  {
    var polled := PollAt(s, MuxState.PollingEntry(SCHED, W.POLLIN));
    var s1 := Exec(s, polled);
    var n := FreshFrom(s1);
    var a := VisitSlot(NoIo(n).(read := W.Data));
    ExecOne(s1, a);
    ExecConcat(s, polled, [a]);
    acts := polled + [a];
  }

  /** quit_request can return whenever the thread has not been told to end. */
  lemma {:induction false} QuitReturns(s: Sys) returns (acts: seq<Action>)
    requires Inv(s) && Attended(s) && Answering(s) && s.client.WaitQuit? && s.daemonRun
    ensures Valid(s, acts) && Exec(s, acts).client.Joining? && !Exec(s, acts).daemonRun
    ensures Inv(Exec(s, acts))
    decreases |s.req|
  {
    ExactlyOneReply(s);
    if s.resp != [] {
      acts := [ClientRead];
      StepInv(s, ClientRead);
      ExecOne(s, ClientRead);
    } else {
      var up := ReachTop(s);
      var s1 := Exec(s, up);
      RunAnswering(s, up);
      if AtReady(s1) { SafeDispatch(s1); }
      var rest;
      if s.req[0].ReqQuit? {
        rest := QuitAnswered(s1);
      } else {
        var served := QuitAwaited(s1);
        var s2 := Exec(s1, served);
        rest := QuitReturns(s2);
        ExecConcat(s1, served, rest);
        rest := served + rest;
      }
      ExecConcat(s, up, rest);
      acts := up + rest;
    }
  }

  lemma QuitAnswered(s: Sys) returns (acts: seq<Action>)
    requires Inv(s) && Attended(s) && Answering(s) && Alive(s) && s.pc.Top? && s.client.WaitQuit?
    requires s.resp == [] && s.req != [] && s.req[0].ReqQuit?
    ensures Valid(s, acts) && Exec(s, acts).client.Joining? && !Exec(s, acts).daemonRun
    ensures Inv(Exec(s, acts))
  {
    var served := QuitServed(s);
    RunAnswering(s, served);
    StepInv(Exec(s, served), ClientRead);
    ExecOne(Exec(s, served), ClientRead);
    ExecConcat(s, served, [ClientRead]);
    acts := served + [ClientRead];
  }

  /** Another request is served first. */
  lemma QuitAwaited(s: Sys) returns (acts: seq<Action>)
    requires Inv(s) && Attended(s) && Answering(s) && Alive(s) && s.pc.Top? && s.client.WaitQuit?
    requires s.req != [] && !s.req[0].ReqQuit?
    ensures Valid(s, acts)
    ensures var e := Exec(s, acts);
            Inv(e) && Attended(e) && Answering(e) && e.client == s.client && e.daemonRun && |e.req| < |s.req|
  {
    assert RequestOk(s, s.req[0]);
    acts := ServeNext(s);
    RunAnswering(s, acts);
  }

  lemma NoQuitReturns(s: Sys, acts: seq<Action>)
    requires Inv(s) && Answering(s) && s.client.WaitQuit? && !s.daemonRun && Valid(s, acts)
    ensures acts == []
  {
    if acts != [] { NobodyAnswers(s, acts[0]); }
  }

  /** In every run whose deletions are safe: from a state in which the client waits in quit_request, some
      run returns exactly when the thread had not been told to end before. */
  lemma QuitReturnsIff(listen: nat, channel: nat, before: seq<Action>)
    requires listen != channel && Valid(Start(listen, channel), before)
    requires Exec(Start(listen, channel), before).client.WaitQuit?
    ensures var s := Exec(Start(listen, channel), before);
            (exists acts :: Valid(s, acts) && !Exec(s, acts).client.WaitQuit?) <==> s.daemonRun
  {
    var s := Exec(Start(listen, channel), before);
    StartInv(listen, channel);
    StartAttended(listen, channel);
    RunAnswering(Start(listen, channel), before);
    if s.daemonRun {
      var acts := QuitReturns(s);
      assert Valid(s, acts) && !Exec(s, acts).client.WaitQuit?;
    } else {
      forall acts | Valid(s, acts) ensures Exec(s, acts).client.WaitQuit? { NoQuitReturns(s, acts); }
    }
  }

  // ---- stop ----

  /** From a first stop() whose QUIT request was written, some run ends the thread and joins it. */
  lemma FirstStopReturns(s: Sys) returns (acts: seq<Action>)
    requires Inv(s) && Attended(s) && Answering(s) && s.client.Idle?
    ensures Valid(Step(s, ClientQuit(true)), acts) && Exec(Step(s, ClientQuit(true)), acts).client.Joined?
  {
    var s1 := Step(s, ClientQuit(true));
    StepInv(s, ClientQuit(true));
    AttendedStep(s, ClientQuit(true));
    AnsweringStep(s, ClientQuit(true));
    var quit := QuitReturns(s1);
    var join := JoinReturns(Exec(s1, quit));
    ExecConcat(s1, quit, join);
    acts := quit + join;
  }

  lemma SecondStopStuck(s: Sys, acts: seq<Action>)
    requires Inv(s) && s.client.Joined? && Valid(Step(s, ClientQuit(true)), acts)
    ensures acts == []
  {
    if acts != [] { SecondStopNeverReturns(s, acts[0]); }
  }

  lemma UnwrittenSecondStopReturns(s: Sys) returns (acts: seq<Action>)
    requires Inv(s) && s.client.Joined?
    ensures Valid(Step(s, ClientQuit(false)), acts) && Exec(Step(s, ClientQuit(false)), acts).client.Joined?
  {
    StepInv(s, ClientQuit(false));
    acts := JoinReturns(Step(s, ClientQuit(false)));
  }

  /** Some run carries stop() through to the end of pthread_join. */
  ghost predicate StopReturns(s: Sys, written: bool)
    requires |s.world.loop.mux.fds| == |s.world.loop.mux.hdls| && Enabled(s, ClientQuit(written))
  {
    exists acts :: StopsWith(Step(s, ClientQuit(written)), acts)
  }

  ghost predicate StopsWith(s: Sys, acts: seq<Action>) {
    Valid(s, acts) && Exec(s, acts).client.Joined?
  }

  /** In every run whose deletions are safe: a first stop() can return exactly when its QUIT request was written,
      and a second one exactly when it was not. */
  lemma StopReturnsIff(listen: nat, channel: nat, before: seq<Action>, written: bool)
    requires listen != channel && Valid(Start(listen, channel), before)
    requires var s := Exec(Start(listen, channel), before); s.client.Idle? || s.client.Joined?
    ensures Inv(Exec(Start(listen, channel), before))
    ensures var s := Exec(Start(listen, channel), before);
            StopReturns(s, written) <==> (s.client.Idle? <==> written)
  {
    var s := Exec(Start(listen, channel), before);
    StartInv(listen, channel);
    StartAttended(listen, channel);
    RunAnswering(Start(listen, channel), before);
    StopReturnsFrom(s, written);
  }

  lemma StopReturnsFrom(s: Sys, written: bool)
    requires Inv(s) && Attended(s) && Answering(s) && (s.client.Idle? || s.client.Joined?)
    ensures StopReturns(s, written) <==> (s.client.Idle? <==> written)
  {
    var s1 := Step(s, ClientQuit(written));
    if s.client.Idle? && written {
      var acts := FirstStopReturns(s);
      assert StopsWith(s1, acts);
    } else if s.client.Idle? {
      forall acts ensures !StopsWith(s1, acts) {
        if Valid(s1, acts) { UnwrittenQuitNeverJoins(s, acts); }
      }
    } else if written {
      forall acts ensures !StopsWith(s1, acts) {
        if Valid(s1, acts) { SecondStopStuck(s, acts); }
      }
    } else {
      var acts := UnwrittenSecondStopReturns(s);
      assert StopsWith(s1, acts);
    }
  }
}
