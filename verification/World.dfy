/** The daemon's handler objects around the event loop: who owns which descriptor, who is
    registered, who waits on a timer, and what each callback does to all of that. */
module World {
  import opened Common
  import opened Timespecs
  import opened TimerList
  import opened LoopState
  import MuxState

  const POLLIN: int := 1
  const RECONNECT_MS: int := 500

  datatype Kind = CpState | CpTime | Client | ClientMgr | Sched

  /** An FdHandler object. `dest` says that the name of the peer socket is known; only a
      CpStateHandler uses `dest` and `timer`. */
  datatype Handler = Handler(kind: Kind, fd: int, dest: bool, timer: Option<TimerId>)

  /** `heap` holds the live handlers by address, `open` the open descriptors. */
  datatype World = World(loop: Loop, heap: map<Addr, Handler>, open: set<int>)

  /** How connecting to a socket ends: no connection, one that cannot be made non-blocking, or one. */
  datatype Outcome = Refused | Blocking(fd: nat) | Connected(fd: nat)

  /** What one attempt to connect gets: the outcome and, should it create a timer, the clock reading
      and the timer's address. */
  datatype Attempt = Attempt(outcome: Outcome, clock: Option<Timespec>, tid: TimerId)

  /** read() on a handler's socket: data, end of file, EAGAIN or EINTR, another error. */
  datatype Read = Data | Eof | Again | Failed

  // ---- the callbacks of one handler, on the loop and the handler itself ----

  function Register(l: Loop, h: Addr): Loop {
    l.(mux := MuxState.Register(l.mux, h, POLLIN))
  }

  function Unregister(l: Loop, h: Addr): Loop
    requires |l.mux.fds| == |l.mux.hdls|
  {
    l.(mux := MuxState.Unregister(l.mux, h))
  }

  function Closed(self: Handler): Handler {
    if self.fd >= 0 then self.(fd := -1) else self
  }

  /** CpStateHandler::process_reconn. */
  function Reconnect(l: Loop, h: Addr, self: Handler, at: Attempt): (Loop, Handler) {
    if !self.dest then (l, self)
    else match at.outcome
      case Refused =>
        (match at.clock
         case Some(now) =>
           (l.(timers := Insert(l.timers, NewTimer(now, RECONNECT_MS, ConnectServer, h, at.tid))),
            self.(fd := -1, timer := Some(at.tid)))
         case None => (l, self.(fd := -1, timer := None)))
      case Blocking(_) => (l, self.(fd := -1))
      case Connected(fd) => (Register(l, h), self.(fd := fd))
  }

  /** CpStateHandler::connect_server, the timer callback. */
  function ConnectServerCb(l: Loop, h: Addr, self: Handler, at: Attempt): (Loop, Handler) {
    Reconnect(l, h, self.(timer := None), at)
  }

  /** CpStateHandler::process_close. */
  function StateClose(l: Loop, h: Addr, self: Handler, at: Attempt): (Loop, Handler)
    requires |l.mux.fds| == |l.mux.hdls|
  {
    Reconnect(Unregister(l, h), h, Closed(self), at)
  }

  /** CpTimeHandler::process_close: no reconnection. */
  function TimeClose(l: Loop, h: Addr, self: Handler): (Loop, Handler)
    requires |l.mux.fds| == |l.mux.hdls|
  {
    (Unregister(l, h), Closed(self))
  }

  /** The destructors: ~CpStateHandler deletes the timer, ~FdHandler unregisters and closes. */
  function Destruct(l: Loop, h: Addr, self: Handler): Loop
    requires |l.mux.fds| == |l.mux.hdls|
  {
    var l1 := if self.timer.Some? then l.(timers := DeleteId(l.timers, self.timer.value)) else l;
    if self.fd >= 0 then Unregister(l1, h) else l1
  }

  // ---- the same, on the whole world ----

  function FdSet(fd: int): set<int> {
    if fd >= 0 then {fd} else {}
  }

  /** The world after handler `h` changed to `self`, closing its old descriptor for its new one. */
  function Put(w: World, h: Addr, l: Loop, self: Handler): World
    requires h in w.heap
  {
    World(l, w.heap[h := self], w.open - FdSet(w.heap[h].fd) + FdSet(self.fd))
  }

  function Delete(w: World, h: Addr): World
    requires h in w.heap && |w.loop.mux.fds| == |w.loop.mux.hdls|
  {
    World(Destruct(w.loop, h, w.heap[h]), w.heap - {h}, w.open - FdSet(w.heap[h].fd))
  }

  function New(w: World, a: Addr, self: Handler): World {
    w.(heap := w.heap[a := self], open := w.open + FdSet(self.fd))
  }

  function FdOf(w: World): Addr -> int {
    a => if a in w.heap then w.heap[a].fd else -1
  }

  // ---- the invariant ----

  ghost predicate Registered(w: World, h: Addr) {
    MuxState.Registered(w.loop.mux.registry, h)
  }

  /** Every registered handler is alive and has an open descriptor. */
  ghost predicate RegistryLive(w: World) {
    forall h :: Registered(w, h) ==> h in w.heap && w.heap[h].fd >= 0
  }

  /** Every cached slot holds its handler's current descriptor. */
  ghost predicate CacheCurrent(w: World) {
    && |w.loop.mux.fds| == |w.loop.mux.hdls|
    && forall i :: 0 <= i < |w.loop.mux.hdls| && w.loop.mux.hdls[i].Some? ==>
         var h := w.loop.mux.hdls[i].value;
         h in w.heap && w.loop.mux.fds[i].fd == w.heap[h].fd
  }

  ghost predicate IsReconnectTimer(t: Timer, h: Addr, id: TimerId) {
    t.id == id && t.cb == ConnectServer && t.param == h
  }

  /** A reconnect timer belongs to a live handler that knows it. */
  ghost predicate TimersLinked(w: World) {
    forall t :: t in w.loop.timers && t.cb == ConnectServer ==>
      t.param in w.heap && w.heap[t.param].timer == Some(t.id)
  }

  /** A handler that knows a timer is a CpStateHandler without descriptor, and the timer is pending. */
  ghost predicate HandlersLinked(w: World) {
    forall h :: h in w.heap && w.heap[h].timer.Some? ==>
      && w.heap[h].kind == CpState && w.heap[h].fd < 0
      && exists t :: t in w.loop.timers && IsReconnectTimer(t, h, w.heap[h].timer.value)
  }

  /** Descriptors are open and owned by one handler each. */
  ghost predicate FdsOwned(w: World) {
    && (forall h :: h in w.heap && w.heap[h].fd >= 0 ==> w.heap[h].fd in w.open)
    && (forall h, g :: h in w.heap && g in w.heap && h != g && w.heap[h].fd >= 0 ==> w.heap[h].fd != w.heap[g].fd)
  }

  ghost predicate Inv(w: World) {
    && Ok(w.loop) && UniqueIds(w.loop.timers)
    && RegistryLive(w) && CacheCurrent(w) && TimersLinked(w) && HandlersLinked(w) && FdsOwned(w)
  }

  // ---- the invariant is kept by each elementary change ----

  lemma SlotsRegistered(w: World)
    requires MuxState.Ok(w.loop.mux)
    ensures forall h :: Some(h) in w.loop.mux.hdls ==> Registered(w, h)
  {
    forall h | Some(h) in w.loop.mux.hdls ensures Registered(w, h) {
      var i :| 0 <= i < |w.loop.mux.hdls| && w.loop.mux.hdls[i] == Some(h);
      assert MuxState.SlotOk(w.loop.mux, i);
    }
  }

  lemma RegisterInv(w: World, h: Addr)
    requires Inv(w) && h in w.heap && w.heap[h].fd >= 0
    ensures Inv(w.(loop := Register(w.loop, h)))
    ensures forall g :: Registered(w.(loop := Register(w.loop, h)), g) <==> g == h || Registered(w, g)
  {
    MuxState.RegisterOk(w.loop.mux, h, POLLIN);
    MuxState.RegisterMembers(w.loop.mux, h, POLLIN);
  }

  lemma UnregisterInv(w: World, h: Addr)
    requires Inv(w)
    ensures var w' := w.(loop := Unregister(w.loop, h));
            && Inv(w') && Some(h) !in w'.loop.mux.hdls
            && forall g :: Registered(w', g) <==> g != h && Registered(w, g)
  {
    MuxState.UnregisterOk(w.loop.mux, h);
    MuxState.UnregisterMembers(w.loop.mux, h);
    MuxState.ClearSlotSlots(w.loop.mux, h);
  }

  /** Changing the descriptor of a handler that is neither registered nor waiting. */
  lemma SetFdInv(w: World, h: Addr, fd: int)
    requires Inv(w) && h in w.heap && !Registered(w, h) && w.heap[h].timer == None
    requires fd >= 0 ==> fd !in w.open || fd == w.heap[h].fd
    ensures Inv(Put(w, h, w.loop, w.heap[h].(fd := fd)))
  {
    SlotsRegistered(w);
    var w' := Put(w, h, w.loop, w.heap[h].(fd := fd));
    assert HandlersLinked(w') by {
      forall g | g in w'.heap && w'.heap[g].timer.Some?
        ensures && w'.heap[g].kind == CpState && w'.heap[g].fd < 0
                && exists t :: t in w'.loop.timers && IsReconnectTimer(t, g, w'.heap[g].timer.value)
      {
        assert g != h && w'.heap[g] == w.heap[g];
      }
    }
  }

  /** Creating the reconnect timer of a handler that has neither descriptor nor timer. */
  lemma StartTimerInv(w: World, h: Addr, now: Timespec, tid: TimerId)
    requires Inv(w) && h in w.heap && w.heap[h].kind == CpState && w.heap[h].fd < 0 && w.heap[h].timer == None
    requires !HasId(w.loop.timers, tid)
    ensures var t := NewTimer(now, RECONNECT_MS, ConnectServer, h, tid);
            Inv(Put(w, h, w.loop.(timers := Insert(w.loop.timers, t)), w.heap[h].(timer := Some(tid))))
  {
    var t := NewTimer(now, RECONNECT_MS, ConnectServer, h, tid);
    var w' := Put(w, h, w.loop.(timers := Insert(w.loop.timers, t)), w.heap[h].(timer := Some(tid)));
    InsertKeepsOrder(w.loop.timers, t);
    InsertContents(w.loop.timers, t);
    InsertKeepsUnique(w.loop.timers, t);
    assert t in w'.loop.timers && IsReconnectTimer(t, h, tid);
    forall g | g in w'.heap && w'.heap[g].timer.Some? && g != h
      ensures exists u :: u in w'.loop.timers && IsReconnectTimer(u, g, w'.heap[g].timer.value)
    {
      var u :| u in w.loop.timers && IsReconnectTimer(u, g, w.heap[g].timer.value);
      assert u in w'.loop.timers;
    }
  }

  /** Creating a timer of another kind. */
  lemma OtherTimerInv(w: World, t: Timer)
    requires Inv(w) && t.cb != ConnectServer && !HasId(w.loop.timers, t.id)
    ensures Inv(w.(loop := w.loop.(timers := Insert(w.loop.timers, t))))
  {
    var w' := w.(loop := w.loop.(timers := Insert(w.loop.timers, t)));
    InsertKeepsOrder(w.loop.timers, t);
    InsertContents(w.loop.timers, t);
    InsertKeepsUnique(w.loop.timers, t);
    forall g | g in w'.heap && w'.heap[g].timer.Some?
      ensures exists u :: u in w'.loop.timers && IsReconnectTimer(u, g, w'.heap[g].timer.value)
    {
      var u :| u in w.loop.timers && IsReconnectTimer(u, g, w.heap[g].timer.value);
      assert u in w'.loop.timers;
    }
  }

  /** Taking a reconnect timer out of the list together with its handler's pointer to it. */
  lemma DropTimerInv(w: World, p: nat)
    requires Inv(w) && p < |w.loop.timers|
    ensures var t := w.loop.timers[p];
            var l := w.loop.(timers := Erase(w.loop.timers, p));
            if t.cb == ConnectServer
            then t.param in w.heap && Inv(Put(w, t.param, l, w.heap[t.param].(timer := None)))
            else Inv(w.(loop := l))
  {
    var t := w.loop.timers[p];
    var l := w.loop.(timers := Erase(w.loop.timers, p));
    EraseKeepsOrder(w.loop.timers, p);
    var w' := if t.cb == ConnectServer then Put(w, t.param, l, w.heap[t.param].(timer := None)) else w.(loop := l);
    forall u | u in w'.loop.timers && u.cb == ConnectServer
      ensures u.param in w'.heap && w'.heap[u.param].timer == Some(u.id)
    {
      var i :| 0 <= i < |l.timers| && l.timers[i] == u;
      assert HasId(l.timers, u.id);
      assert u.id != t.id;
    }
    forall g | g in w'.heap && w'.heap[g].timer.Some?
      ensures exists u :: u in w'.loop.timers && IsReconnectTimer(u, g, w'.heap[g].timer.value)
    {
      var u :| u in w.loop.timers && IsReconnectTimer(u, g, w.heap[g].timer.value);
      assert u != t;
      assert u in w'.loop.timers;
    }
  }

  lemma NewInv(w: World, a: Addr, self: Handler)
    requires Inv(w) && a !in w.heap && self.timer == None && self.fd !in w.open
    ensures Inv(New(w, a, self)) && !Registered(New(w, a, self), a)
  {
    var w' := New(w, a, self);
    assert !Registered(w, a);
    assert HandlersLinked(w') by {
      forall g | g in w'.heap && w'.heap[g].timer.Some?
        ensures && w'.heap[g].kind == CpState && w'.heap[g].fd < 0
                && exists t :: t in w'.loop.timers && IsReconnectTimer(t, g, w'.heap[g].timer.value)
      {
        assert g != a && w'.heap[g] == w.heap[g];
      }
    }
  }

  /** Dropping a handler nothing refers to any more. */
  lemma DropInv(w: World, h: Addr)
    requires Inv(w) && h in w.heap && !Registered(w, h) && w.heap[h].timer == None
    ensures Inv(World(w.loop, w.heap - {h}, w.open - FdSet(w.heap[h].fd)))
  {
    SlotsRegistered(w);
    var w' := World(w.loop, w.heap - {h}, w.open - FdSet(w.heap[h].fd));
    assert HandlersLinked(w') by {
      forall g | g in w'.heap && w'.heap[g].timer.Some?
        ensures && w'.heap[g].kind == CpState && w'.heap[g].fd < 0
                && exists t :: t in w'.loop.timers && IsReconnectTimer(t, g, w'.heap[g].timer.value)
      {
        assert w'.heap[g] == w.heap[g];
      }
    }
  }
}
