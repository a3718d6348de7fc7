/** Every step of the daemon keeps its invariant; for socketClose's deletion, exactly when the object
    it deletes is one the loop thread has let go of. */
module DaemonSteps {
  import opened Common
  import opened Timespecs
  import opened TimerList
  import opened LoopState
  import opened Retry
  import opened Daemon
  import opened DaemonInv
  import W = World
  import LC = LifeCycle
  import MuxState

  // ---- connecting ----

  lemma FailedConnectCore(s: Sys, src: int, name: string, c: Conn)
    requires Core(s) && ConnOk(s, c) && !Succeeds(c)
    ensures Core(ConnectStep(s, src, name, c))
    ensures QuietKept(s, ConnectStep(s, src, name, c))
  {
    var s' := ConnectStep(s, src, name, c);
    if c.at.clock.Some? {
      W.OtherTimerInv(s.world, RetryTimer(c.at.clock.value, c.at.tid));
    }
    assert W.Inv(s'.world) by {
      assert s'.world == s.world.(loop := s'.world.loop);
    }
    CoreFrame(s, s');
  }

  /** Nothing that requests, pointers and the client depend on has changed. */
  lemma CoreFrame(s: Sys, s': Sys)
    requires Core(s) && W.Inv(s'.world)
    requires s'.world.heap == s.world.heap && s'.world.loop.mux.registry == s.world.loop.mux.registry
    requires forall t :: Pointer(s'.ctl, t) == Pointer(s.ctl, t)
    requires s'.req == s.req && s'.resp == s.resp && s'.client == s.client && s'.quiet == s.quiet
    ensures Core(s') && QuietKept(s, s')
  {
    forall i | 0 <= i < |s'.req| ensures RequestOk(s', s'.req[i]) {
      assert RequestOk(s, s.req[i]);
    }
    forall g | Quiet(s, g) ensures Quiet(s', g) {}
  }

  /** Neither a request nor the waiting client refers to the address. */
  ghost predicate Unmentioned(s: Sys, a: Addr) {
    && ReqRegister(Some(a)) !in s.req && ReqUnregister(Some(a)) !in s.req
    && (s.client.WaitUnregister? ==> s.client.h != Some(a))
    && (s.client.Deleting? && s.client.quiet ==> s.client.h != Some(a))
  }

  /** A new handler that ConnectControl points to. */
  lemma NewPeerCore(s: Sys, a: Addr, self: W.Handler, t: Target)
    requires Core(s) && a !in s.world.heap && self.fd >= 0 && self.fd !in s.world.open
    requires self.timer == None && !t.Unknown? && self.kind == KindOf(t)
    ensures var s' := s.(world := W.New(s.world, a, self), ctl := SetPointer(s.ctl, t, Some(a)));
            Core(s') && QuietKept(s, s') && !W.Registered(s'.world, a) && Unmentioned(s', a)
  {
    var s' := s.(world := W.New(s.world, a, self), ctl := SetPointer(s.ctl, t, Some(a)));
    W.NewInv(s.world, a, self);
    forall i | 0 <= i < |s.req|
      ensures RequestOk(s', s.req[i]) && s.req[i] != ReqRegister(Some(a)) && s.req[i] != ReqUnregister(Some(a))
    {
      assert RequestOk(s, s.req[i]);
    }
    AnnounceCtl(s, s', a, t);
    forall g | Quiet(s, g) ensures Quiet(s', g) {}
  }

  /** Asking for its registration. */
  lemma AnnounceCore(s: Sys, a: Addr)
    requires Core(s) && RequestOk(s, ReqRegister(Some(a))) && Unmentioned(s, a)
    ensures var s' := s.(req := s.req + [ReqRegister(Some(a))]);
            Core(s') && forall g :: g != a && Quiet(s, g) ==> Quiet(s', g)
  {
    var s' := s.(req := s.req + [ReqRegister(Some(a))]);
    forall i | 0 <= i < |s'.req| ensures RequestOk(s', s'.req[i]) {
      assert i < |s.req| ==> RequestOk(s, s.req[i]);
    }
    forall i | 0 <= i < |s.req| ensures s.req[i] != ReqRegister(Some(a)) && s.req[i] != ReqUnregister(Some(a)) {
      assert s.req[i] in s.req;
    }
    CountAppend(s.req, ReqRegister(Some(a)), AsksUnregister);
    CountAppend(s.req, ReqRegister(Some(a)), AsksQuit);
    forall g | g != a && Quiet(s, g) ensures Quiet(s', g) {}
  }

  lemma AnnounceCtl(s: Sys, s': Sys, a: Addr, t: Target)
    requires CtlOk(s) && a !in s.world.heap && !t.Unknown?
    requires s'.ctl == SetPointer(s.ctl, t, Some(a))
    requires a in s'.world.heap && s'.world.heap[a].kind == KindOf(t)
    requires forall g :: g in s.world.heap ==> g in s'.world.heap && s'.world.heap[g] == s.world.heap[g]
    ensures CtlOk(s')
  {
    forall u ensures Pointer(s'.ctl, u) == if u == t then Some(a) else Pointer(s.ctl, u) {}
  }

  lemma ConnectCore(s: Sys, src: int, name: string, c: Conn)
    requires Core(s) && ConnOk(s, c)
    ensures Core(ConnectStep(s, src, name, c)) && QuietKept(s, ConnectStep(s, src, name, c))
  {
    if !Succeeds(c) {
      FailedConnectCore(s, src, name, c);
    } else {
      ConnectedCore(s, src, name, c);
    }
  }

  /** What connecting leaves alone, and what it leaves new. */
  lemma ConnectFrame(s: Sys, src: int, name: string, c: Conn)
    ensures ConnectStep(s, src, name, c).world.loop.mux == s.world.loop.mux
    ensures forall d :: ConnOk(s, d) && ConnsApart(c, d) ==> ConnOk(ConnectStep(s, src, name, c), d)
  {
    if !Succeeds(c) { FailedConnectApart(s, src, name, c); }
  }

  lemma FailedConnectApart(s: Sys, src: int, name: string, c: Conn)
    requires !Succeeds(c)
    ensures forall d :: ConnOk(s, d) && ConnsApart(c, d) ==> ConnOk(ConnectStep(s, src, name, c), d)
  {
    var s' := ConnectStep(s, src, name, c);
    forall d | ConnOk(s, d) && ConnsApart(c, d) ensures !HasId(s'.world.loop.timers, d.at.tid) {
      if HasId(s'.world.loop.timers, d.at.tid) {
        InsertedId(s.world.loop.timers, s'.world.loop.timers, c, d.at.tid);
      }
    }
  }

  lemma ConnectedCore(s: Sys, src: int, name: string, c: Conn)
    requires Core(s) && ConnOk(s, c) && Succeeds(c)
    ensures Core(ConnectStep(s, src, name, c)) && QuietKept(s, ConnectStep(s, src, name, c))
  {
    var s' := ConnectStep(s, src, name, c);
    var t := Classify(name);
    if t.Unknown? {
      CoreFrame(s, s');
    } else {
      NewPeerCore(s, c.addr, W.Handler(KindOf(t), c.at.outcome.fd, true, None), t);
      assert s.req + [] == s.req;
      if c.written { AnnounceCore(s'.(req := s.req), c.addr); }
    }
  }

  lemma InsertedId(ts: seq<Timer>, ts': seq<Timer>, c: Conn, id: TimerId)
    requires HasId(ts', id) && id != c.at.tid
    requires ts' == match c.at.clock
                    case Some(now) => Insert(ts, RetryTimer(now, c.at.tid))
                    case None => ts
    ensures HasId(ts, id)
  {
    if c.at.clock.Some? {
      var t := RetryTimer(c.at.clock.value, c.at.tid);
      InsertContents(ts, t);
      var i :| 0 <= i < |ts'| && ts'[i].id == id;
      assert ts'[i] in ts' && ts'[i] != t;
      var j :| 0 <= j < |ts| && ts[j] == ts'[i];
    }
  }

  /** After the first of several connections the others are still to be new. */
  lemma ConnsAfter(s: Sys, keys: seq<int>, conn: int -> Conn)
    requires Core(s) && keys != [] && keys[0] in s.ctl.sockets && ConnsOk(s, keys, conn)
    ensures ConnsOk(ConnectStep(s, keys[0], s.ctl.sockets[keys[0]], conn(keys[0])), keys[1..], conn)
  {
    var k, rest := keys[0], keys[1..];
    var s1 := ConnectStep(s, k, s.ctl.sockets[k], conn(k));
    assert ConnOk(s, conn(keys[0]));
    ConnectFrame(s, k, s.ctl.sockets[k], conn(k));
    forall i | 0 <= i < |rest| ensures ConnOk(s1, conn(rest[i])) {
      assert rest[i] == keys[i + 1];
      assert ConnOk(s, conn(keys[i + 1])) && ConnsApart(conn(keys[0]), conn(keys[i + 1]));
    }
    forall i, j | 0 <= i < j < |rest| ensures ConnsApart(conn(rest[i]), conn(rest[j])) {
      assert rest[i] == keys[i + 1] && rest[j] == keys[j + 1];
    }
  }

  /** One iteration of socket_reconnect's first loop. */
  lemma OneConnectCore(s: Sys, k: int, c: Conn)
    requires Core(s) && k in s.ctl.sockets && ConnOk(s, c)
    ensures var s1 := ConnectStep(s, k, s.ctl.sockets[k], c);
            && Core(s1) && QuietKept(s, s1) && s1.world.loop.mux == s.world.loop.mux
            && DeskOf(s1) == Connect(DeskOf(s), k, s.ctl.sockets[k], c).desk
            && s1 == s.(world := s1.world, ctl := s1.ctl, req := s1.req)
  {
    ConnectCore(s, k, s.ctl.sockets[k], c);
    ConnectFrame(s, k, s.ctl.sockets[k], c);
  }

  /** The whole first loop of socket_reconnect. */
  lemma {:induction false} ConnectAllCore(s: Sys, keys: seq<int>, conn: int -> Conn)
    requires Core(s) && ConnsOk(s, keys, conn)
    requires forall k :: k in keys ==> k in s.ctl.sockets
    ensures var s' := ConnectAll(s, keys, conn);
            && Core(s') && QuietKept(s, s') && s'.world.loop.mux == s.world.loop.mux
            && DeskOf(s') == RetryKeys(DeskOf(s), keys, conn).0
            && s' == s.(world := s'.world, ctl := s'.ctl, req := s'.req)
    decreases keys
  {
    if keys != [] {
      var k := keys[0];
      var s1 := ConnectStep(s, k, s.ctl.sockets[k], conn(k));
      OneConnectCore(s, k, conn(k));
      ConnsAfter(s, keys, conn);
      ConnectAllCore(s1, keys[1..], conn);
    }
  }

  /** socket_reconnect does to ConnectControl's members what Retry says, and keeps the invariant. */
  lemma ReconnectIsRetry(s: Sys, conn: int -> Conn)
    requires Core(s) && ConnsOk(s, SortedKeys(s.ctl.sockets.Keys), conn)
    ensures DeskOf(ReconnectStep(s, conn)) == Reconnect(DeskOf(s), conn)
  {
    ConnectAllCore(s, SortedKeys(s.ctl.sockets.Keys), conn);
  }

  /** Whatever is erased from the retry map afterwards. */
  lemma ConnectAndErase(s: Sys, keys: seq<int>, conn: int -> Conn, left: map<int, string>)
    requires Core(s) && ConnsOk(s, keys, conn) && forall k :: k in keys ==> k in s.ctl.sockets
    ensures var s1 := ConnectAll(s, keys, conn);
            var s' := s1.(ctl := s1.ctl.(sockets := left));
            && Core(s') && QuietKept(s, s') && s'.world.loop.mux == s.world.loop.mux
            && s' == s.(world := s'.world, ctl := s'.ctl, req := s'.req)
  {
    ConnectAllCore(s, keys, conn);
    var s1 := ConnectAll(s, keys, conn);
    CoreFrame(s1, s1.(ctl := s1.ctl.(sockets := left)));
  }

  lemma ReconnectCore(s: Sys, conn: int -> Conn)
    requires Core(s) && ConnsOk(s, SortedKeys(s.ctl.sockets.Keys), conn)
    ensures var s' := ReconnectStep(s, conn);
            && Core(s') && QuietKept(s, s') && s'.world.loop.mux == s.world.loop.mux
            && s' == s.(world := s'.world, ctl := s'.ctl, req := s'.req)
  {
    ConnectAndErase(s, SortedKeys(s.ctl.sockets.Keys), conn, ReconnectStep(s, conn).ctl.sockets);
  }

  // ---- the loop thread ----

  /** Dispatch safety: a ready slot holds a handler that is alive and registered, with its current,
      open descriptor. */
  lemma SafeDispatch(s: Sys)
    requires Inv(s) && AtReady(s)
    ensures TargetLive(s)
    ensures var h := s.world.loop.mux.hdls[s.pc.i].value;
            && W.Registered(s.world, h)
            && s.world.heap[h].fd == s.world.loop.mux.fds[s.pc.i].fd
            && s.world.heap[h].fd in s.world.open
  {
    assert MuxState.SlotOk(s.world.loop.mux, s.pc.i);
    var h := s.world.loop.mux.hdls[s.pc.i].value;
    W.SlotsRegistered(s.world);
    LC.LifeCycleStates(s.world, h);
  }

  lemma ProcessCore(s: Sys, h: Addr, io: Io)
    requires Core(s) && W.Registered(s.world, h)
    requires LC.AttemptOk(s.world.open - W.FdSet(s.world.heap[h].fd), s.world.loop.timers, io.at)
    requires io.addr !in s.world.heap && (io.sock < 0 || io.sock !in s.world.open)
    ensures Core(Process(s, h, io)) && QuietKept(s, Process(s, h, io))
  {
    BusyHandler(s, h);
    BusyHandler(s, io.addr);
    var s' := Process(s, h, io);
    match s.world.heap[h].kind
    case CpState => StateProcessTouches(s, h, io); FrameOk(s, s', h);
    case CpTime => TimeProcessTouches(s, h, io); FrameOk(s, s', h);
    case Client => ClientProcessTouches(s, h, io); FrameOk(s, s', h);
    case ClientMgr => ManagerProcessTouches(s, h, io); FrameOk(s, s', io.addr);
    case Sched => if io.read.Data? && s.req != [] { ServeOk(s); }
  }

  lemma HandlersKeepRunning(l: Loop, h: Addr, self: W.Handler, at: W.Attempt)
    requires |l.mux.fds| == |l.mux.hdls|
    ensures W.StateClose(l, h, self, at).0.mux.run == l.mux.run
    ensures W.TimeClose(l, h, self).0.mux.run == l.mux.run
    ensures W.Destruct(l, h, self).mux.run == l.mux.run
  {}

  lemma ServeRun(s: Sys, r: Request)
    requires |s.world.loop.mux.fds| == |s.world.loop.mux.hdls|
    ensures var s' := Serve(s, r);
            && s'.daemonRun == s.daemonRun && s'.client == s.client
            && (s'.world.loop.mux.run ==>
                  s.world.loop.mux.run && CountIf(s'.resp, TellsQuit) == CountIf(s.resp, TellsQuit))
  {
    CountAppend(s.resp, UnregisterResult, TellsQuit);
  }

  /** Only a served QUIT stops the loop, and it is answered. */
  lemma ProcessRun(s: Sys, h: Addr, io: Io)
    requires |s.world.loop.mux.fds| == |s.world.loop.mux.hdls| && h in s.world.heap
    ensures var s' := Process(s, h, io);
            && s'.daemonRun == s.daemonRun && s'.client == s.client
            && (s'.world.loop.mux.run ==>
                  s.world.loop.mux.run && CountIf(s'.resp, TellsQuit) == CountIf(s.resp, TellsQuit))
  {
    if s.world.heap[h].kind.Sched? {
      if s.req != [] { ServeRun(s.(req := s.req[1..]), s.req[0]); }
    } else {
      ProcessKeepsRunning(s, h, io);
    }
  }

  lemma ProcessKeepsRunning(s: Sys, h: Addr, io: Io)
    requires |s.world.loop.mux.fds| == |s.world.loop.mux.hdls| && h in s.world.heap && !s.world.heap[h].kind.Sched?
    ensures Process(s, h, io) == s.(world := Process(s, h, io).world)
    ensures Process(s, h, io).world.loop.mux.run == s.world.loop.mux.run
  {
    HandlersKeepRunning(s.world.loop, h, s.world.heap[h], io.at);
  }

  lemma VisitSlotInv(s: Sys, io: Io)
    requires Inv(s) && Enabled(s, VisitSlot(io))
    ensures Inv(Step(s, VisitSlot(io))) && QuietKept(s, Step(s, VisitSlot(io)))
  {
    var s' := Step(s, VisitSlot(io));
    if AtReady(s) {
      SafeDispatch(s);
      var h := s.world.loop.mux.hdls[s.pc.i].value;
      var s1 := Process(s, h, io);
      ProcessCore(s, h, io);
      ProcessRun(s, h, io);
      CoreFrame(s1, s');
    } else {
      CoreFrame(s, s');
    }
  }

  lemma FireCore(s: Sys, at: W.Attempt, conn: int -> Conn)
    requires Core(s) && TimerDue(s) && Enabled(s, FireTimer(at, conn))
    ensures var s' := Fire(s, at, conn);
            && Core(s') && QuietKept(s, s') && s'.pc == s.pc && s'.daemonRun == s.daemonRun && s'.client == s.client
            && s'.resp == s.resp && s'.world.loop.mux.run == s.world.loop.mux.run
  {
    var t := s.world.loop.timers[0];
    W.DropTimerInv(s.world, 0);
    assert Erase(s.world.loop.timers, 0) == s.world.loop.timers[1..];
    if t.cb == ConnectServer {
      FireConnectServer(s, at, conn);
    } else {
      var s1 := s.(world := LC.Popped(s.world));
      CoreFrame(s, s1);
      if t.cb == SocketReconnect { ReconnectCore(s1, conn); }
    }
  }

  lemma FireConnectServer(s: Sys, at: W.Attempt, conn: int -> Conn)
    requires Core(s) && s.world.loop.timers != [] && s.world.loop.timers[0].cb == ConnectServer
    requires LC.AttemptOk(s.world.open, s.world.loop.timers[1..], at)
    ensures var s' := Fire(s, at, conn);
            && Core(s') && QuietKept(s, s') && s'.pc == s.pc && s'.daemonRun == s.daemonRun && s'.client == s.client
            && s'.resp == s.resp && s'.world.loop.mux.run == s.world.loop.mux.run
  {
    var t := s.world.loop.timers[0];
    assert t in s.world.loop.timers;
    LC.ConnectServerInv(s.world, at);
    BusyHandler(s, t.param);
    var w := LC.Popped(s.world);
    ReconnectTouches(s.world, t.param, w.heap[t.param].(timer := None), at, w.loop);
    LiftedAlike(s.world, w, t.param, W.ConnectServerCb(w.loop, t.param, w.heap[t.param], at));
    FrameOk(s, Fire(s, at, conn), t.param);
  }

  lemma LiftedAlike(w: W.World, w1: W.World, h: Addr, r: (Loop, W.Handler))
    requires h in w.heap && w1 == w.(loop := w1.loop)
    ensures LC.Lift(w1, h, r) == LC.Lift(w, h, r)
  {}

  lemma FireTimerInv(s: Sys, at: W.Attempt, conn: int -> Conn)
    requires Inv(s) && Enabled(s, FireTimer(at, conn))
    ensures Inv(Step(s, FireTimer(at, conn))) && QuietKept(s, Step(s, FireTimer(at, conn)))
  {
    if TimerDue(s) {
      FireCore(s, at, conn);
    } else {
      CoreFrame(s, Step(s, FireTimer(at, conn)));
    }
  }

  lemma PreparedWorld(w: W.World)
    requires W.Inv(w)
    ensures var w' := w.(loop := w.loop.(mux := MuxState.Prepare(w.loop.mux, W.FdOf(w))));
            W.Inv(w') && forall i :: 0 <= i < |w'.loop.mux.hdls| ==> w'.loop.mux.hdls[i].Some?
  {
    MuxState.PrepareOk(w.loop.mux, W.FdOf(w));
    var w' := w.(loop := w.loop.(mux := MuxState.Prepare(w.loop.mux, W.FdOf(w))));
    W.SlotsRegistered(w');
    assert W.CacheCurrent(w') by {
      forall i | 0 <= i < |w'.loop.mux.hdls|
        ensures var h := w'.loop.mux.hdls[i].value;
                h in w'.heap && w'.loop.mux.fds[i].fd == w'.heap[h].fd
      {
        assert w'.loop.mux.hdls[i] in w'.loop.mux.hdls;
        assert W.Registered(w, w'.loop.mux.hdls[i].value);
      }
    }
  }

  lemma CheckRunInv(s: Sys, clock: Option<Timespec>)
    requires Inv(s) && Enabled(s, CheckRun(clock))
    ensures Inv(Step(s, CheckRun(clock))) && QuietKept(s, Step(s, CheckRun(clock)))
  {
    var s' := Step(s, CheckRun(clock));
    if s.pc.Top? && s.world.loop.mux.dirty { PreparedWorld(s.world); }
    CoreFrame(s, s');
  }

  lemma PolledWorld(w: W.World, err: int, revents: nat -> int)
    requires W.Inv(w) && forall i :: 0 <= i < |w.loop.mux.hdls| ==> w.loop.mux.hdls[i].Some?
    ensures W.Inv(w.(loop := w.loop.(mux := MuxState.Polled(w.loop.mux, err, revents))))
  {
    MuxState.PolledOk(w.loop.mux, err, revents);
  }

  lemma PolledCore(s: Sys, err: int, revents: nat -> int, pc: LoopPc)
    requires Core(s) && forall i :: 0 <= i < |s.world.loop.mux.hdls| ==> s.world.loop.mux.hdls[i].Some?
    ensures var l := s.world.loop;
            var s' := s.(world := s.world.(loop := l.(mux := MuxState.Polled(l.mux, err, revents))), pc := pc);
            Core(s') && QuietKept(s, s')
  {
    var l := s.world.loop;
    PolledWorld(s.world, err, revents);
    CoreFrame(s, s.(world := s.world.(loop := l.(mux := MuxState.Polled(l.mux, err, revents))), pc := pc));
  }

  lemma PollReturnsInv(s: Sys, err: int, revents: nat -> int, clock: Option<Timespec>)
    requires Inv(s) && s.pc.Polling?
    ensures Inv(Step(s, PollReturns(err, revents, clock))) && QuietKept(s, Step(s, PollReturns(err, revents, clock)))
  {
    PolledCore(s, err, revents, Step(s, PollReturns(err, revents, clock)).pc);
  }

  // ---- the client thread ----

  lemma ClientConnectInv(s: Sys, src: int, name: string, c: Conn)
    requires Inv(s) && Enabled(s, ClientConnect(src, name, c))
    ensures Inv(Step(s, ClientConnect(src, name, c))) && QuietKept(s, Step(s, ClientConnect(src, name, c)))
  {
    ConnectCore(s, src, name, c);
  }

  /** Writing a request that announces nothing. */
  lemma AskCore(s: Sys, r: Request, client: ClientPc)
    requires Core(s) && !r.ReqRegister? && RequestOk(s, r)
    requires !s.client.WaitUnregister? && !s.client.WaitQuit?
    requires r.ReqUnregister? ==> client.WaitUnregister? && client.h == r.h
    requires r.ReqQuit? ==> client.WaitQuit?
    ensures Core(s.(req := s.req + [r], client := client))
    ensures QuietKept(s, s.(req := s.req + [r], client := client))
  {
    var s' := s.(req := s.req + [r], client := client);
    forall i | 0 <= i < |s'.req| ensures RequestOk(s', s'.req[i]) {
      assert i < |s.req| ==> RequestOk(s, s.req[i]);
    }
    CountAppend(s.req, r, AsksUnregister);
    CountAppend(s.req, r, AsksQuit);
  }

  lemma ClientCloseInv(s: Sys, t: Target, written: bool)
    requires Inv(s) && Enabled(s, ClientClose(t, written))
    ensures Inv(Step(s, ClientClose(t, written))) && QuietKept(s, Step(s, ClientClose(t, written)))
  {
    var h := Pointer(s.ctl, t);
    if written {
      assert RequestOk(s, ReqUnregister(h));
      AskCore(s, ReqUnregister(h), WaitUnregister(h, t));
    } else {
      var s' := Step(s, ClientClose(t, written));
      forall i | 0 <= i < |s'.req| ensures RequestOk(s', s'.req[i]) {
        assert RequestOk(s, s.req[i]);
      }
    }
  }

  lemma ClientQuitInv(s: Sys, written: bool)
    requires Inv(s) && Enabled(s, ClientQuit(written))
    ensures Inv(Step(s, ClientQuit(written))) && QuietKept(s, Step(s, ClientQuit(written)))
  {
    if written {
      AskCore(s, ReqQuit, WaitQuit);
    } else {
      var s' := Step(s, ClientQuit(written));
      forall i | 0 <= i < |s'.req| ensures RequestOk(s', s'.req[i]) {
        assert RequestOk(s, s.req[i]);
      }
    }
  }

  lemma ClientReadInv(s: Sys)
    requires Inv(s) && Enabled(s, ClientRead)
    ensures Inv(Step(s, ClientRead)) && QuietKept(s, Step(s, ClientRead))
  {
    var s' := Step(s, ClientRead);
    forall i | 0 <= i < |s'.req| ensures RequestOk(s', s'.req[i]) {
      assert RequestOk(s, s.req[i]);
    }
    assert CountIf(s.resp, TellsQuit) == (if TellsQuit(s.resp[0]) then 1 else 0) + CountIf(s.resp[1..], TellsQuit);
    assert CountIf(s.resp, TellsUnregister)
        == (if TellsUnregister(s.resp[0]) then 1 else 0) + CountIf(s.resp[1..], TellsUnregister);
    if CountIf(s.req, AsksUnregister) == 0 { CountZero(s.req, AsksUnregister); }
    forall g | Quiet(s, g) ensures Quiet(s', g) {}
  }

  lemma ClientJoinInv(s: Sys)
    requires Inv(s) && Enabled(s, ClientJoin)
    ensures Inv(Step(s, ClientJoin)) && QuietKept(s, Step(s, ClientJoin))
  {
    var s' := Step(s, ClientJoin);
    forall i | 0 <= i < |s'.req| ensures RequestOk(s', s'.req[i]) {
      assert RequestOk(s, s.req[i]);
    }
  }

  /** What socketClose may delete: an object no request on its way refers to, and that the poll()
      under way is not watching. */
  ghost predicate DeleteSafe(s: Sys)
    requires s.client.Deleting?
  {
    var p := Victim(s);
    p.Some? ==>
      && ReqRegister(p) !in s.req
      && (s.pc.Polling? ==> p !in s.world.loop.mux.hdls)
  }

  lemma DeleteTouches(w: W.World, h: Addr)
    requires W.Inv(w) && h in w.heap
    ensures forall g :: g in w.heap && g != h ==> g in W.Delete(w, h).heap && W.Delete(w, h).heap[g] == w.heap[g]
    ensures forall g :: W.Registered(W.Delete(w, h), g) ==> g != h && W.Registered(w, g)
    ensures W.Delete(w, h).loop.mux.run == w.loop.mux.run
  {
    LC.DeleteInv(w, h);
    MuxState.UnregisterMembers(w.loop.mux, h);
  }

  lemma DeleteCtl(s: Sys, s': Sys, t: Target)
    requires CtlOk(s) && s'.ctl == SetPointer(s.ctl, t, None)
    requires forall g :: g in s.world.heap && Some(g) != Pointer(s.ctl, t) ==>
               g in s'.world.heap && s'.world.heap[g] == s.world.heap[g]
    ensures CtlOk(s')
  {
    forall u ensures Pointer(s'.ctl, u) == if u == t then None else Pointer(s.ctl, u) {}
  }

  lemma DeleteRequests(s: Sys, s': Sys, p: Option<Addr>)
    requires RequestsOk(s) && s'.req == s.req
    requires p.Some? ==> ReqRegister(p) !in s.req
    requires forall i :: 0 <= i < |s.req| ==> !AsksUnregister(s.req[i])
    requires forall g :: g in s.world.heap && Some(g) != p ==> g in s'.world.heap && s'.world.heap[g] == s.world.heap[g]
    requires forall g :: W.Registered(s'.world, g) ==> W.Registered(s.world, g)
    ensures RequestsOk(s')
  {
    forall i | 0 <= i < |s'.req| ensures RequestOk(s', s'.req[i]) {
      assert RequestOk(s, s.req[i]) && s.req[i] in s.req;
    }
  }

  lemma DeleteCore(s: Sys)
    requires Core(s) && s.client.Deleting?
    requires Victim(s).Some? ==> ReqRegister(Victim(s)) !in s.req
    ensures Core(Step(s, ClientDelete))
  {
    var s' := Step(s, ClientDelete);
    var p := Victim(s);
    CountZeroes(s);
    if p.Some? {
      LC.DeleteInv(s.world, p.value);
      DeleteTouches(s.world, p.value);
    }
    DeleteRequests(s, s', p);
    DeleteCtl(s, s', s.client.t);
  }

  lemma CountZeroes(s: Sys)
    requires OneReply(s) && s.client.Deleting?
    ensures forall i :: 0 <= i < |s.req| ==> !AsksUnregister(s.req[i])
  {
    CountZero(s.req, AsksUnregister);
  }

  /** Deleting changes no cached slot of another handler, and empties that of the deleted one if it
      is registered. */
  lemma DeleteSlots(w: W.World, h: Addr)
    requires W.Inv(w) && h in w.heap && (forall i :: 0 <= i < |w.loop.mux.hdls| ==> w.loop.mux.hdls[i].Some?)
    ensures (forall i :: 0 <= i < |W.Delete(w, h).loop.mux.hdls| ==> W.Delete(w, h).loop.mux.hdls[i].Some?)
            <==> Some(h) !in w.loop.mux.hdls
  {
    var m, m' := w.loop.mux, W.Delete(w, h).loop.mux;
    MuxState.ClearSlotSlots(m, h);
    W.SlotsRegistered(w);
    LC.LifeCycleStates(w, h);
    if Some(h) in m.hdls {
      var i :| 0 <= i < |m.hdls| && m.hdls[i] == Some(h);
      assert m.registry[MuxState.Find(m.registry, h)].handler == h;
      assert m'.hdls[i] == None;
    }
  }

  /** socketClose's deletion keeps the invariant exactly when it is safe in the above sense. */
  lemma DeleteSafeIff(s: Sys)
    requires Inv(s) && s.client.Deleting?
    ensures Inv(Step(s, ClientDelete)) <==> DeleteSafe(s)
  {
    var s' := Step(s, ClientDelete);
    var p := Victim(s);
    if p.Some? {
      DeleteTouches(s.world, p.value);
      if s.pc.Polling? { DeleteSlots(s.world, p.value); }
      if ReqRegister(p) in s.req {
        var i :| 0 <= i < |s.req| && s.req[i] == ReqRegister(p);
        assert !RequestOk(s', s'.req[i]);
      } else {
        DeleteCore(s);
      }
    } else {
      DeleteCore(s);
    }
  }

  /** After waiting for an unregistration that was processed without a reconnect timer, it is safe exactly
      when the member is empty or still is that handler, or the loop thread has replaced it by one that is
      neither announced nor being polled. */
  lemma QuietDeleteSafeIff(s: Sys)
    requires Inv(s) && s.client.Deleting? && s.client.quiet
    ensures Inv(Step(s, ClientDelete))
            <==> || Victim(s).None? || Victim(s) == s.client.h
                 || (ReqRegister(Victim(s)) !in s.req && (s.pc.Polling? ==> Victim(s) !in s.world.loop.mux.hdls))
  {
    DeleteSafeIff(s);
    W.SlotsRegistered(s.world);
  }

  /** Every step keeps the invariant, deletions provided they are safe. */
  lemma StepInv(s: Sys, a: Action)
    requires Inv(s) && Enabled(s, a)
    requires a.ClientDelete? ==> DeleteSafe(s)
    ensures Inv(Step(s, a))
    ensures !a.ClientDelete? ==> QuietKept(s, Step(s, a))
  {
    match a
    case CheckRun(clock) => CheckRunInv(s, clock);
    case PollReturns(err, revents, now) => PollReturnsInv(s, err, revents, now);
    case FireTimer(at, conn) => FireTimerInv(s, at, conn);
    case VisitSlot(io) => VisitSlotInv(s, io);
    case ClientConnect(src, name, c) => ClientConnectInv(s, src, name, c);
    case ClientClose(t, written) => ClientCloseInv(s, t, written);
    case ClientRead => ClientReadInv(s);
    case ClientDelete => DeleteSafeIff(s);
    case ClientQuit(written) => ClientQuitInv(s, written);
    case ClientJoin => ClientJoinInv(s);
  }
}
