/** The invariant of the daemon, and that every step keeps it. */
module DaemonInv {
  import opened Common
  import opened LoopState
  import opened Retry
  import opened Daemon
  import W = World
  import LC = LifeCycle
  import MuxState

  function KindOf(t: Target): W.Kind {
    if t.Time? then W.CpTime else W.CpState
  }

  /** A handler of one of the kinds ConnectControl creates. */
  ghost predicate Peer(s: Sys, h: Addr) {
    h in s.world.heap && (s.world.heap[h].kind.CpState? || s.world.heap[h].kind.CpTime?)
  }

  /** ConnectControl's pointers are live, of the right class, and pairwise different. */
  ghost predicate CtlOk(s: Sys) {
    && (forall t :: Pointer(s.ctl, t).Some? ==>
          Pointer(s.ctl, t).value in s.world.heap && s.world.heap[Pointer(s.ctl, t).value].kind == KindOf(t))
    && (forall t, u :: t != u && Pointer(s.ctl, t).Some? ==> Pointer(s.ctl, t) != Pointer(s.ctl, u))
  }

  /** A request refers to a live handler; one waiting to be registered is connected and untouched. */
  ghost predicate RequestOk(s: Sys, r: Request) {
    match r
    case ReqRegister(Some(h)) =>
      Peer(s, h) && s.world.heap[h].fd >= 0 && s.world.heap[h].timer.None? && !W.Registered(s.world, h)
    case ReqUnregister(Some(h)) => Peer(s, h)
    case _ => true
  }

  /** A handler is announced for registration at most once, and never after its unregistration. */
  ghost predicate InOrder(q: seq<Request>) {
    forall i, j :: 0 <= i < j < |q| && q[j].ReqRegister? ==> q[i] != q[j] && q[i] != ReqUnregister(q[j].h)
  }

  ghost predicate RequestsOk(s: Sys) {
    && (forall i :: 0 <= i < |s.req| ==> RequestOk(s, s.req[i]))
    && InOrder(s.req)
  }

  /** Nothing in the loop refers to the handler, and nothing on its way will register it. */
  ghost predicate Quiet(s: Sys, h: Addr) {
    && h in s.world.heap && s.world.heap[h].timer.None?
    && !W.Registered(s.world, h)
    && ReqRegister(Some(h)) !in s.req
  }

  /** No quiet handler is disturbed. */
  ghost predicate QuietKept(s: Sys, s': Sys) {
    forall g :: Quiet(s, g) ==> Quiet(s', g)
  }

  predicate AsksUnregister(r: Request) {
    r.ReqUnregister? && r.h.Some?
  }

  predicate AsksQuit(r: Request) {
    r.ReqQuit?
  }

  predicate TellsUnregister(r: Reply) {
    r.UnregisterResult?
  }

  predicate TellsQuit(r: Reply) {
    r.QuitResult?
  }

  function CountIf<T>(s: seq<T>, p: T -> bool): nat {
    if s == [] then 0 else (if p(s[0]) then 1 else 0) + CountIf(s[1..], p)
  }

  /** Requests that will be answered plus answers not yet read: one while the client waits, else none. */
  ghost predicate OneReply(s: Sys) {
    && CountIf(s.req, AsksUnregister) + CountIf(s.resp, TellsUnregister)
       == (if s.client.WaitUnregister? && s.client.h.Some? then 1 else 0)
    && CountIf(s.req, AsksQuit) + CountIf(s.resp, TellsQuit) == (if s.client.WaitQuit? then 1 else 0)
    && (forall i :: 0 <= i < |s.req| && AsksUnregister(s.req[i]) ==>
          s.client.WaitUnregister? && s.client.h == s.req[i].h)
  }

  /** The client's handler is alive while it waits, and quiet once it has been told so. */
  ghost predicate ClientOk(s: Sys) {
    && (s.client.WaitUnregister? && s.client.h.Some? ==> Peer(s, s.client.h.value))
    && (s.client.WaitUnregister? && s.client.h.Some? && CountIf(s.resp, TellsUnregister) > 0 && s.quiet ==>
          Quiet(s, s.client.h.value))
    && (s.client.Deleting? && s.client.h.Some? && s.client.quiet ==> Quiet(s, s.client.h.value))
  }

  /** While poll() runs no slot is empty; once the loop has quit it stays at its exits; the thread
      function ends only after the client has been told. */
  ghost predicate PcOk(s: Sys) {
    && (s.pc.Polling? ==> forall i :: 0 <= i < |s.world.loop.mux.hdls| ==> s.world.loop.mux.hdls[i].Some?)
    && (!s.world.loop.mux.run ==> s.pc.Outer? || s.pc.Top? || s.pc.Exited?)
    && (CountIf(s.resp, TellsQuit) > 0 || !s.daemonRun ==> !s.world.loop.mux.run)
    && (s.pc.Exited? ==> !s.daemonRun)
    && (s.client.Joined? ==> !s.daemonRun && s.pc.Exited?)
    && (!s.daemonRun ==> s.client.Joining? || s.client.Joined? || s.client.WaitQuit?)
  }

  ghost predicate Inv(s: Sys) {
    && W.Inv(s.world) && CtlOk(s) && RequestsOk(s) && OneReply(s) && ClientOk(s) && PcOk(s)
  }

  // ---- steps that concern one handler ----

  /** At most handler `h` changed: it may have been created, or deleted if it is a ClientHandler, and
      only it may have become registered. */
  ghost predicate Touches(w: W.World, w': W.World, h: Addr) {
    && (forall g :: g in w.heap && g != h ==> g in w'.heap && w'.heap[g] == w.heap[g])
    && (h in w.heap && !w.heap[h].kind.Client? ==> h in w'.heap && w'.heap[h].kind == w.heap[h].kind)
    && (forall g :: W.Registered(w', g) && g != h ==> W.Registered(w, g))
  }

  /** Only the world, where `h` changed, and the place of the loop thread differ. */
  ghost predicate SameBut(s: Sys, s': Sys, h: Addr) {
    && s' == s.(world := s'.world, pc := s'.pc)
    && Touches(s.world, s'.world, h)
  }

  lemma FrameOk(s: Sys, s': Sys, h: Addr)
    requires CtlOk(s) && RequestsOk(s) && OneReply(s) && ClientOk(s)
    requires SameBut(s, s', h)
    requires ReqRegister(Some(h)) !in s.req && !Quiet(s, h)
    ensures CtlOk(s') && RequestsOk(s') && OneReply(s') && ClientOk(s')
    ensures QuietKept(s, s')
  {
    forall i | 0 <= i < |s'.req| ensures RequestOk(s', s'.req[i]) {
      assert RequestOk(s, s.req[i]);
      assert s.req[i] in s.req;
    }
    forall g | g != h && Quiet(s, g) ensures Quiet(s', g) {}
  }

  lemma AnnouncedOk(s: Sys, h: Addr)
    requires RequestsOk(s)
    ensures ReqRegister(Some(h)) in s.req ==> RequestOk(s, ReqRegister(Some(h)))
  {}

  /** A handler that is registered, or waits for its timer, is not announced and not quiet. */
  lemma BusyHandler(s: Sys, h: Addr)
    requires W.Inv(s.world) && RequestsOk(s)
    requires W.Registered(s.world, h) || (h in s.world.heap && s.world.heap[h].timer.Some?) || h !in s.world.heap
    ensures ReqRegister(Some(h)) !in s.req && !Quiet(s, h)
  {
    AnnouncedOk(s, h);
  }

  lemma ReconnectTouches(w: W.World, h: Addr, self: W.Handler, at: W.Attempt, l: Loop)
    requires h in w.heap && w.heap[h].kind == self.kind
    requires |l.mux.fds| == |l.mux.hdls|
    requires forall g :: MuxState.Registered(l.mux.registry, g) && g != h ==> W.Registered(w, g)
    ensures Touches(w, LC.Lift(w, h, W.Reconnect(l, h, self, at)), h)
  {
    MuxState.RegisterMembers(l.mux, h, W.POLLIN);
  }

  lemma StateProcessTouches(s: Sys, h: Addr, io: Io)
    requires W.Inv(s.world) && W.Registered(s.world, h) && s.world.heap[h].kind.CpState?
    requires LC.AttemptOk(s.world.open - W.FdSet(s.world.heap[h].fd), s.world.loop.timers, io.at)
    ensures W.Inv(Process(s, h, io).world) && SameBut(s, Process(s, h, io), h)
  {
    var w := s.world;
    LC.LifeCycleStates(w, h);
    MuxState.UnregisterMembers(w.loop.mux, h);
    LC.StateCloseInv(w, h, io.at);
    ReconnectTouches(w, h, W.Closed(w.heap[h]), io.at, W.Unregister(w.loop, h));
  }

  lemma TimeProcessTouches(s: Sys, h: Addr, io: Io)
    requires W.Inv(s.world) && W.Registered(s.world, h) && s.world.heap[h].kind.CpTime?
    ensures W.Inv(Process(s, h, io).world) && SameBut(s, Process(s, h, io), h)
  {
    LC.LifeCycleStates(s.world, h);
    MuxState.UnregisterMembers(s.world.loop.mux, h);
    LC.DisconnectInv(s.world, h);
  }

  lemma ClientProcessTouches(s: Sys, h: Addr, io: Io)
    requires W.Inv(s.world) && W.Registered(s.world, h) && s.world.heap[h].kind.Client?
    ensures W.Inv(Process(s, h, io).world) && SameBut(s, Process(s, h, io), h)
  {
    LC.LifeCycleStates(s.world, h);
    MuxState.UnregisterMembers(s.world.loop.mux, h);
    LC.DeleteInv(s.world, h);
  }

  lemma ManagerProcessTouches(s: Sys, h: Addr, io: Io)
    requires W.Inv(s.world) && W.Registered(s.world, h) && s.world.heap[h].kind.ClientMgr?
    requires io.addr !in s.world.heap && (io.sock < 0 || io.sock !in s.world.open)
    ensures W.Inv(Process(s, h, io).world) && SameBut(s, Process(s, h, io), io.addr)
  {
    if io.sock >= 0 {
      var c := W.Handler(W.Client, io.sock, false, None);
      W.NewInv(s.world, io.addr, c);
      W.RegisterInv(W.New(s.world, io.addr, c), io.addr);
    }
  }

  // ---- requests and replies ----

  lemma {:induction false} CountAppend<T>(s: seq<T>, x: T, p: T -> bool)
    ensures CountIf(s + [x], p) == CountIf(s, p) + if p(x) then 1 else 0
  {
    if s == [] {
      assert (s + [x])[1..] == [];
    } else {
      assert (s + [x])[1..] == s[1..] + [x];
      CountAppend(s[1..], x, p);
    }
  }

  lemma {:induction false} CountZero<T>(s: seq<T>, p: T -> bool)
    requires CountIf(s, p) == 0
    ensures forall i :: 0 <= i < |s| ==> !p(s[i])
  {
    if s != [] {
      CountZero(s[1..], p);
      assert forall i :: 0 < i < |s| ==> s[i] == s[1..][i - 1];
    }
  }

  lemma PoppedRequests(s: Sys)
    requires RequestsOk(s) && s.req != []
    ensures RequestsOk(s.(req := s.req[1..]))
    ensures s.req[0].ReqRegister? ==> s.req[0] !in s.req[1..]
    ensures s.req[0].ReqUnregister? ==> ReqRegister(s.req[0].h) !in s.req[1..]
  {
    var q := s.req[1..];
    forall i | 0 <= i < |q| ensures RequestOk(s.(req := q), q[i]) {
      assert RequestOk(s, s.req[i + 1]);
    }
    forall r | r in q && r.ReqRegister? ensures r != s.req[0] && s.req[0] != ReqUnregister(r.h) {
      var j :| 0 <= j < |q| && q[j] == r;
      assert s.req[j + 1] == r;
    }
  }

  /** Everything but the place of the loop thread. */
  ghost predicate Core(s: Sys) {
    W.Inv(s.world) && CtlOk(s) && RequestsOk(s) && OneReply(s) && ClientOk(s)
  }

  lemma ServeRegister(s: Sys, h: Addr)
    requires Core(s) && s.req != [] && s.req[0] == ReqRegister(Some(h))
    ensures Core(Serve(s.(req := s.req[1..]), s.req[0]))
    ensures QuietKept(s, Serve(s.(req := s.req[1..]), s.req[0]))
  {
    var s' := Serve(s.(req := s.req[1..]), s.req[0]);
    PoppedRequests(s);
    assert RequestOk(s, s.req[0]);
    assert s.req[0] in s.req;
    W.RegisterInv(s.world, h);
    forall i | 0 <= i < |s'.req| ensures RequestOk(s', s'.req[i]) {
      assert RequestOk(s.(req := s.req[1..]), s.req[1..][i]);
      assert s'.req[i] in s.req[1..];
    }
    assert forall i :: 0 <= i < |s'.req| ==> s'.req[i] == s.req[i + 1];
    forall g | Quiet(s, g) ensures Quiet(s', g) {
      assert g != h;
    }
  }

  lemma ServeUnregister(s: Sys, h: Addr)
    requires Core(s) && s.req != [] && s.req[0] == ReqUnregister(Some(h))
    ensures Core(Serve(s.(req := s.req[1..]), s.req[0]))
    ensures QuietKept(s, Serve(s.(req := s.req[1..]), s.req[0]))
  {
    var s' := Serve(s.(req := s.req[1..]), s.req[0]);
    PoppedRequests(s);
    assert RequestOk(s, s.req[0]) && AsksUnregister(s.req[0]);
    W.UnregisterInv(s.world, h);
    forall i | 0 <= i < |s'.req| ensures RequestOk(s', s'.req[i]) {
      assert RequestOk(s.(req := s.req[1..]), s.req[1..][i]);
    }
    assert forall i :: 0 <= i < |s'.req| ==> s'.req[i] == s.req[i + 1];
    CountAppend(s.resp, UnregisterResult, TellsUnregister);
    CountAppend(s.resp, UnregisterResult, TellsQuit);
    forall g | Quiet(s, g) ensures Quiet(s', g) {}
  }

  lemma ServeQuit(s: Sys)
    requires Core(s) && s.req != [] && s.req[0] == ReqQuit
    ensures Core(Serve(s.(req := s.req[1..]), s.req[0]))
    ensures QuietKept(s, Serve(s.(req := s.req[1..]), s.req[0]))
    ensures CountIf(s.resp, TellsQuit) == 0
  {
    var s' := Serve(s.(req := s.req[1..]), s.req[0]);
    PoppedRequests(s);
    var m := s.world.loop.mux;
    forall i | 0 <= i < |m.hdls| ensures MuxState.SlotOk(s'.world.loop.mux, i) {
      assert MuxState.SlotOk(m, i);
    }
    forall i | 0 <= i < |s'.req| ensures RequestOk(s', s'.req[i]) {
      assert RequestOk(s.(req := s.req[1..]), s.req[1..][i]);
    }
    assert forall i :: 0 <= i < |s'.req| ==> s'.req[i] == s.req[i + 1];
    CountAppend(s.resp, QuitResult, TellsUnregister);
    CountAppend(s.resp, QuitResult, TellsQuit);
    forall g | Quiet(s, g) ensures Quiet(s', g) {}
  }

  lemma ServeNothing(s: Sys)
    requires Core(s) && s.req != []
    requires s.req[0] == ReqRegister(None) || s.req[0] == ReqUnregister(None)
    ensures Core(Serve(s.(req := s.req[1..]), s.req[0]))
    ensures QuietKept(s, Serve(s.(req := s.req[1..]), s.req[0]))
  {
    PoppedRequests(s);
    var s' := Serve(s.(req := s.req[1..]), s.req[0]);
    assert forall i :: 0 <= i < |s'.req| ==> s'.req[i] == s.req[i + 1];
    forall g | Quiet(s, g) ensures Quiet(s', g) {}
  }

  /** Serving a request keeps the invariant: REGISTER gets no reply, UNREGISTER of a handler and QUIT
      get one, UNREGISTER of a null handler none. */
  lemma ServeOk(s: Sys)
    requires Core(s) && s.req != []
    ensures var s' := Serve(s.(req := s.req[1..]), s.req[0]);
            && Core(s') && QuietKept(s, s')
            && s'.resp == s.resp + (match s.req[0]
                                    case ReqUnregister(Some(_)) => [UnregisterResult]
                                    case ReqQuit => [QuitResult]
                                    case _ => [])
  {
    match s.req[0]
    case ReqRegister(Some(h)) => ServeRegister(s, h);
    case ReqUnregister(Some(h)) => ServeUnregister(s, h);
    case ReqQuit => ServeQuit(s);
    case _ => ServeNothing(s);
  }
}
