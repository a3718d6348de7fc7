/** What becomes of a handler and of the rest of the world when its process() or its timer runs, and when a
    connection is made: told by the descriptors, registrations, timers and objects before and after. */
module HandlerLaws {
  import opened Common
  import opened Timespecs
  import opened TimerList
  import opened LoopState
  import opened Retry
  import opened Daemon
  import opened DaemonInv
  import opened DaemonSteps
  import opened DaemonRuns
  import W = World
  import LC = LifeCycle
  import MuxState

  // ---- what may change ----

  /** All other handlers are the same objects and as registered as before. */
  ghost predicate OthersAlone(w: W.World, e: W.World, h: Addr) {
    && (forall g :: g != h ==> (g in e.heap <==> g in w.heap))
    && (forall g :: g != h && g in w.heap ==> e.heap[g] == w.heap[g])
    && (forall g :: g != h ==> (W.Registered(e, g) <==> W.Registered(w, g)))
    && e.loop.mux.run == w.loop.mux.run
  }

  /** The loop knows nothing of the handler. */
  ghost predicate Detached(w: W.World, h: Addr) {
    !W.Registered(w, h) && Some(h) !in w.loop.mux.hdls
  }

  // ---- losing the peer ----

  /** How a CpStateHandler that knows its peer comes out of an attempt to connect. Its descriptor was closed
      before, which left `open`, and the timers were `timers`. Connected, it has the new descriptor and is
      registered for input. Refused, it waits for exactly one reconnect timer, due 500 ms after the clock
      reading. Otherwise it has nothing. */
  ghost predicate Reconnected(open: set<int>, timers: seq<Timer>, e: W.World, h: Addr, at: W.Attempt) {
    && h in e.heap && e.heap[h].kind.CpState? && e.heap[h].dest
    && match at.outcome
       case Connected(fd) =>
         && e.heap[h].fd == fd && e.heap[h].timer.None? && e.open == open + {fd}
         && MuxState.PollingEntry(h, W.POLLIN) in e.loop.mux.registry && e.loop.timers == timers
       case Blocking(_) =>
         && e.heap[h].fd == -1 && e.heap[h].timer.None? && e.open == open
         && Detached(e, h) && e.loop.timers == timers
       case Refused =>
         && e.heap[h].fd == -1 && e.open == open && Detached(e, h)
         && match at.clock
            case None => e.heap[h].timer.None? && e.loop.timers == timers
            case Some(now) =>
              && e.heap[h].timer == Some(at.tid) && LC.OnlyTimerOf(e.loop.timers, h, at.tid)
              && LC.OneMore(timers, e.loop.timers, at.tid, ConnectServer, h, now, 500)
  }

  predicate Broken(read: W.Read) {
    read.Eof? || read.Failed?
  }

  lemma ReconnectLaw(w1: W.World, h: Addr, at: W.Attempt)
    requires W.Inv(w1) && h in w1.heap && w1.heap[h].kind.CpState? && w1.heap[h].dest
    requires w1.heap[h].fd < 0 && w1.heap[h].timer.None? && Detached(w1, h)
    requires LC.AttemptOk(w1.open, w1.loop.timers, at)
    ensures var e := LC.Lift(w1, h, W.Reconnect(w1.loop, h, w1.heap[h], at));
            Reconnected(w1.open, w1.loop.timers, e, h, at) && OthersAlone(w1, e, h)
  {
    var e := LC.Lift(w1, h, W.Reconnect(w1.loop, h, w1.heap[h], at));
    LC.ReconnectInv(w1, h, at);
    MuxState.RegisterMembers(w1.loop.mux, h, W.POLLIN);
    if at.outcome.Refused? && at.clock.Some? {
      LC.OneMoreTimer(w1.loop.timers, at.clock.value, 500, ConnectServer, h, at.tid);
      LC.LifeCycleStates(e, h);
    }
  }

  /** The first half of both process_close functions. */
  lemma DisconnectLaw(w: W.World, h: Addr)
    requires W.Inv(w) && W.Registered(w, h)
    ensures var e := W.Put(w, h, W.Unregister(w.loop, h), W.Closed(w.heap[h]));
            && W.Inv(e) && Detached(e, h) && OthersAlone(w, e, h)
            && e.heap[h] == w.heap[h].(fd := -1) && e.open == w.open - {w.heap[h].fd}
            && w.heap[h].fd in w.open && e.loop.timers == w.loop.timers
  {
    LC.LifeCycleStates(w, h);
    LC.DisconnectInv(w, h);
    W.UnregisterInv(w, h);
  }

  /** At end of file or an error a CpStateHandler that knows its peer closes its descriptor and tries again. */
  lemma StateHandlerReconnects(s: Sys, h: Addr, io: Io)
    requires W.Inv(s.world) && W.Registered(s.world, h) && Broken(io.read)
    requires s.world.heap[h].kind.CpState? && s.world.heap[h].dest
    requires LC.AttemptOk(s.world.open - W.FdSet(s.world.heap[h].fd), s.world.loop.timers, io.at)
    ensures var w, e := s.world, Process(s, h, io).world;
            && Process(s, h, io) == s.(world := e)
            && Reconnected(w.open - {w.heap[h].fd}, w.loop.timers, e, h, io.at) && OthersAlone(w, e, h)
  {
    var w := s.world;
    var w1 := W.Put(w, h, W.Unregister(w.loop, h), W.Closed(w.heap[h]));
    DisconnectLaw(w, h);
    LC.LifeCycleStates(w, h);
    ReconnectLaw(w1, h, io.at);
    assert LC.Lift(w1, h, W.Reconnect(w1.loop, h, w1.heap[h], io.at))
        == LC.Lift(w, h, W.StateClose(w.loop, h, w.heap[h], io.at));
  }

  lemma FireIsReconnect(s: Sys, at: W.Attempt, conn: int -> Conn)
    requires s.world.loop.timers != [] && s.world.loop.timers[0].cb == ConnectServer
    requires var h := s.world.loop.timers[0].param; h in s.world.heap && s.world.heap[h].fd < 0
    ensures var w, h := s.world, s.world.loop.timers[0].param;
            var w1 := W.Put(w, h, LC.Popped(w).loop, w.heap[h].(timer := None));
            Fire(s, at, conn) == s.(world := LC.Lift(w1, h, W.Reconnect(w1.loop, h, w1.heap[h], at)))
  {
    var w, h := s.world, s.world.loop.timers[0].param;
    var w1 := W.Put(w, h, LC.Popped(w).loop, w.heap[h].(timer := None));
    LC.LiftTwice(w, h, LC.Popped(w).loop, w.heap[h].(timer := None), W.Reconnect(w1.loop, h, w1.heap[h], at));
  }

  lemma TimerForgotten(w: W.World)
    requires W.Inv(w) && w.loop.timers != [] && w.loop.timers[0].cb == ConnectServer
    ensures var h := w.loop.timers[0].param;
            && h in w.heap && w.heap[h].kind.CpState? && w.heap[h].fd < 0 && Detached(w, h)
            && W.Inv(W.Put(w, h, LC.Popped(w).loop, w.heap[h].(timer := None)))
  {
    assert w.loop.timers[0] in w.loop.timers;
    LC.PopInv(w);
    LC.LifeCycleStates(w, w.loop.timers[0].param);
  }

  lemma TimerReconnectLaw(w: W.World, at: W.Attempt)
    requires W.Inv(w) && w.loop.timers != [] && w.loop.timers[0].cb == ConnectServer
    requires LC.AttemptOk(w.open, w.loop.timers[1..], at)
    requires var h := w.loop.timers[0].param; h in w.heap && w.heap[h].dest
    ensures var h := w.loop.timers[0].param;
            var w1 := W.Put(w, h, LC.Popped(w).loop, w.heap[h].(timer := None));
            var e := LC.Lift(w1, h, W.Reconnect(w1.loop, h, w1.heap[h], at));
            Reconnected(w.open, w.loop.timers[1..], e, h, at) && OthersAlone(w, e, h)
  {
    TimerForgotten(w);
    ReconnectLaw(W.Put(w, w.loop.timers[0].param, LC.Popped(w).loop, w.heap[w.loop.timers[0].param].(timer := None)),
                 w.loop.timers[0].param, at);
  }

  /** So does its reconnect timer, which is gone. */
  lemma TimerReconnects(s: Sys, at: W.Attempt, conn: int -> Conn)
    requires W.Inv(s.world) && s.world.loop.timers != [] && s.world.loop.timers[0].cb == ConnectServer
    requires LC.AttemptOk(s.world.open, s.world.loop.timers[1..], at)
    requires var h := s.world.loop.timers[0].param; h in s.world.heap && s.world.heap[h].dest
    ensures var w, h, e := s.world, s.world.loop.timers[0].param, Fire(s, at, conn).world;
            && Fire(s, at, conn) == s.(world := e)
            && Reconnected(w.open, w.loop.timers[1..], e, h, at) && OthersAlone(w, e, h)
  {
    TimerForgotten(s.world);
    TimerReconnectLaw(s.world, at);
    FireIsReconnect(s, at, conn);
  }

  /** At end of file or an error a CpTimeHandler closes its descriptor and leaves the loop, for good. */
  lemma TimeHandlerCloses(s: Sys, h: Addr, io: Io)
    requires W.Inv(s.world) && W.Registered(s.world, h) && Broken(io.read) && s.world.heap[h].kind.CpTime?
    ensures var w, e := s.world, Process(s, h, io).world;
            && Process(s, h, io) == s.(world := e)
            && h in e.heap && e.heap[h] == w.heap[h].(fd := -1)
            && e.open == w.open - {w.heap[h].fd} && w.heap[h].fd in w.open
            && Detached(e, h) && e.loop.timers == w.loop.timers && OthersAlone(w, e, h)
  {
    DisconnectLaw(s.world, h);
  }

  /** At end of file or an error a ClientHandler closes its descriptor, leaves the loop and is gone. */
  lemma ClientHandlerDies(s: Sys, h: Addr, io: Io)
    requires W.Inv(s.world) && W.Registered(s.world, h) && Broken(io.read) && s.world.heap[h].kind.Client?
    ensures var w, e := s.world, Process(s, h, io).world;
            && Process(s, h, io) == s.(world := e)
            && h !in e.heap && e.open == w.open - {w.heap[h].fd} && w.heap[h].fd in w.open
            && Detached(e, h) && e.loop.timers == w.loop.timers && OthersAlone(w, e, h)
  {
    LC.LifeCycleStates(s.world, h);
    LC.DeleteInv(s.world, h);
    W.UnregisterInv(s.world, h);
  }

  /** An accepted connection gets a handler of its own, registered for input; without one nothing happens. */
  lemma ManagerAccepts(s: Sys, h: Addr, io: Io)
    requires W.Inv(s.world) && h in s.world.heap && s.world.heap[h].kind.ClientMgr? && io.addr !in s.world.heap
    ensures io.sock < 0 ==> Process(s, h, io) == s
    ensures io.sock >= 0 ==>
              var w, e := s.world, Process(s, h, io).world;
              && Process(s, h, io) == s.(world := e)
              && io.addr in e.heap && e.heap[io.addr] == W.Handler(W.Client, io.sock, false, None)
              && e.open == w.open + {io.sock} && MuxState.PollingEntry(io.addr, W.POLLIN) in e.loop.mux.registry
              && e.loop.timers == w.loop.timers && OthersAlone(w, e, io.addr)
  {
    assert !W.Registered(s.world, io.addr);
    MuxState.RegisterMembers(s.world.loop.mux, io.addr, W.POLLIN);
  }

  /** Data, EAGAIN and EINTR leave all of these handlers as they are. */
  lemma UnbrokenStays(s: Sys, h: Addr, io: Io)
    requires |s.world.loop.mux.fds| == |s.world.loop.mux.hdls| && h in s.world.heap && !Broken(io.read)
    requires !s.world.heap[h].kind.ClientMgr? && !s.world.heap[h].kind.Sched?
    ensures Process(s, h, io) == s
  {}

  // ---- over all runs ----

  /** Every CpStateHandler knows its peer. */
  ghost predicate PeersKnown(w: W.World) {
    forall h :: h in w.heap && w.heap[h].kind.CpState? ==> w.heap[h].dest
  }

  lemma ProcessPeers(s: Sys, h: Addr, io: Io)
    requires |s.world.loop.mux.fds| == |s.world.loop.mux.hdls| && h in s.world.heap && PeersKnown(s.world)
    ensures PeersKnown(Process(s, h, io).world)
  {}

  lemma ConnectPeers(s: Sys, src: int, name: string, c: Conn)
    requires PeersKnown(s.world)
    ensures PeersKnown(ConnectStep(s, src, name, c).world)
  {}

  lemma {:induction false} ConnectAllPeers(s: Sys, keys: seq<int>, conn: int -> Conn)
    requires PeersKnown(s.world) && forall k :: k in keys ==> k in s.ctl.sockets
    ensures PeersKnown(ConnectAll(s, keys, conn).world)
    decreases keys
  {
    if keys != [] {
      ConnectPeers(s, keys[0], s.ctl.sockets[keys[0]], conn(keys[0]));
      ConnectAllPeers(ConnectStep(s, keys[0], s.ctl.sockets[keys[0]], conn(keys[0])), keys[1..], conn);
    }
  }

  lemma FirePeers(s: Sys, at: W.Attempt, conn: int -> Conn)
    requires s.world.loop.timers != [] && PeersKnown(s.world)
    ensures PeersKnown(Fire(s, at, conn).world)
  {
    if s.world.loop.timers[0].cb == SocketReconnect {
      ConnectAllPeers(s.(world := LC.Popped(s.world)), SortedKeys(s.ctl.sockets.Keys), conn);
    }
  }

  lemma StepPeers(s: Sys, a: Action)
    requires |s.world.loop.mux.fds| == |s.world.loop.mux.hdls| && Enabled(s, a) && PeersKnown(s.world)
    ensures PeersKnown(Step(s, a).world)
  {
    match a
    case FireTimer(at, conn) => if TimerDue(s) { FirePeers(s, at, conn); }
    case VisitSlot(io) => if AtReady(s) { ProcessPeers(s, s.world.loop.mux.hdls[s.pc.i].value, io); }
    case ClientConnect(src, name, c) => ConnectPeers(s, src, name, c);
    case _ =>
  }

  lemma {:induction false} RunPeers(s: Sys, acts: seq<Action>)
    requires Valid(s, acts) && PeersKnown(s.world)
    ensures PeersKnown(Exec(s, acts).world)
    decreases acts
  {
    if acts != [] {
      StepPeers(s, acts[0]);
      RunPeers(Step(s, acts[0]), acts[1..]);
    }
  }

  /** In every run whose deletions are safe, each live CpStateHandler knows its peer. So
      whenever the dispatch loop calls one at end of file or an error, it is registered with its new descriptor
      if the connection succeeds, and waits for exactly one reconnect timer, due 500 ms after the clock reading,
      if it is refused. It is left with neither a descriptor nor a timer exactly when the connection cannot be
      made non-blocking, or is refused while the clock cannot be read. */
  lemma LostPeerIsRetried(listen: nat, channel: nat, acts: seq<Action>, io: Io)
    requires listen != channel && Valid(Start(listen, channel), acts)
    requires var s := Exec(Start(listen, channel), acts); AtReady(s) && Enabled(s, VisitSlot(io)) && Broken(io.read)
    ensures var s := Exec(Start(listen, channel), acts);
            var h, w, e := s.world.loop.mux.hdls[s.pc.i].value, s.world, Step(s, VisitSlot(io)).world;
            && PeersKnown(w)
            && (w.heap[h].kind.CpState? ==>
                  && Reconnected(w.open - {w.heap[h].fd}, w.loop.timers, e, h, io.at) && OthersAlone(w, e, h)
                  && (e.heap[h].fd < 0 && e.heap[h].timer.None?
                      <==> io.at.outcome.Blocking? || (io.at.outcome.Refused? && io.at.clock.None?)))
  {
    StartInv(listen, channel);
    RunInv(Start(listen, channel), acts);
    RunPeers(Start(listen, channel), acts);
    var s := Exec(Start(listen, channel), acts);
    var h := s.world.loop.mux.hdls[s.pc.i].value;
    SafeDispatch(s);
    if s.world.heap[h].kind.CpState? { StateHandlerReconnects(s, h, io); }
  }

  /** And so does every reconnect timer that fires. */
  lemma RetryTimerReconnects(listen: nat, channel: nat, acts: seq<Action>, at: W.Attempt, conn: int -> Conn)
    requires listen != channel && Valid(Start(listen, channel), acts)
    requires var s := Exec(Start(listen, channel), acts);
             TimerDue(s) && s.world.loop.timers[0].cb == ConnectServer && Enabled(s, FireTimer(at, conn))
    ensures Inv(Exec(Start(listen, channel), acts))
    ensures var s := Exec(Start(listen, channel), acts);
            var h, w, e := s.world.loop.timers[0].param, s.world, Step(s, FireTimer(at, conn)).world;
            Reconnected(w.open, w.loop.timers[1..], e, h, at) && OthersAlone(w, e, h)
  {
    StartInv(listen, channel);
    RunInv(Start(listen, channel), acts);
    RunPeers(Start(listen, channel), acts);
    var s := Exec(Start(listen, channel), acts);
    LC.PopInv(s.world);
    TimerReconnects(s, at, conn);
  }

  // ---- connecting ----

  /** What process_socket_connect leaves after a good connection: a handler of the class that the first of the
      three names in the socket name calls for, which knows its peer, is pointed to by that member, and is
      announced if the request could be written. A name without any of them leaves an open descriptor only. */
  ghost predicate ConnectedTo(s: Sys, e: Sys, name: string, c: Conn, fd: nat) {
    var time, modem, wcn := Contains(name, "cp_time_sync_server"), Contains(name, "modemd"), Contains(name, "wcnd");
    && e.world.loop == s.world.loop && e.world.open == s.world.open + {fd} && e.ctl.sockets == s.ctl.sockets
    && e.ctl.timer == s.ctl.timer
    && e.ctl.time == (if time then Some(c.addr) else s.ctl.time)
    && e.ctl.modem == (if !time && modem then Some(c.addr) else s.ctl.modem)
    && e.ctl.wcn == (if !time && !modem && wcn then Some(c.addr) else s.ctl.wcn)
    && (if time || modem || wcn then
          && e.world.heap == s.world.heap[c.addr := W.Handler(if time then W.CpTime else W.CpState, fd, true, None)]
          && e.req == s.req + (if c.written then [ReqRegister(Some(c.addr))] else [])
        else e.world.heap == s.world.heap && e.req == s.req)
  }

  /** What it leaves otherwise: the connection is stored to be retried, by one more timer, due 200 ms after the
      clock reading, if the clock can be read. */
  ghost predicate StoredForRetry(s: Sys, e: Sys, src: int, name: string, c: Conn) {
    && e.world.heap == s.world.heap && e.world.open == s.world.open && e.world.loop.mux == s.world.loop.mux
    && e.req == s.req && e.ctl == s.ctl.(sockets := s.ctl.sockets[src := name], timer := e.ctl.timer)
    && match c.at.clock
       case None => e.world.loop.timers == s.world.loop.timers && e.ctl.timer.None?
       case Some(now) =>
         && e.ctl.timer == Some(c.at.tid)
         && LC.OneMore(s.world.loop.timers, e.world.loop.timers, c.at.tid, SocketReconnect, 0, now, 200)
  }

  lemma ConnectLaw(s: Sys, src: int, name: string, c: Conn)
    ensures var e := ConnectStep(s, src, name, c);
            && e == s.(world := e.world, ctl := e.ctl, req := e.req)
            && match c.at.outcome
               case Connected(fd) => ConnectedTo(s, e, name, c, fd)
               case _ => StoredForRetry(s, e, src, name, c)
  {
    if c.at.outcome.Connected? {
      assert s.req + [] == s.req;
    } else if c.at.clock.Some? {
      LC.OneMoreTimer(s.world.loop.timers, c.at.clock.value, 200, SocketReconnect, 0, c.at.tid);
    }
  }

  /** A new descriptor belongs to a handler exactly when the socket name holds one of the three names; else
      nothing will ever close it. */
  lemma ConnectOwnsIff(s: Sys, src: int, name: string, c: Conn)
    requires W.Inv(s.world) && ConnOk(s, c) && c.at.outcome.Connected?
    ensures var e, fd := ConnectStep(s, src, name, c).world, c.at.outcome.fd;
            && fd in e.open
            && ((exists h :: h in e.heap && e.heap[h].fd == fd)
                <==> Contains(name, "cp_time_sync_server") || Contains(name, "modemd") || Contains(name, "wcnd"))
  {
    ConnectLaw(s, src, name, c);
    var e := ConnectStep(s, src, name, c).world;
    assert forall h :: h in s.world.heap && s.world.heap[h].fd >= 0 ==> s.world.heap[h].fd in s.world.open;
    if Contains(name, "cp_time_sync_server") || Contains(name, "modemd") || Contains(name, "wcnd") {
      assert c.addr in e.heap && e.heap[c.addr].fd == c.at.outcome.fd;
    }
  }
}
