/** The life cycle of the handlers: each callback, and deletion, keeps the invariant of World. */
module LifeCycle {
  import opened Common
  import opened Timespecs
  import opened TimerList
  import opened LoopState
  import opened World

  /** The descriptor a connection attempt yields is not open, and the timer address not in use. */
  ghost predicate AttemptOk(open: set<int>, timers: seq<Timer>, at: Attempt) {
    && !HasId(timers, at.tid)
    && match at.outcome
       case Refused => true
       case Blocking(fd) => fd !in open
       case Connected(fd) => fd !in open
  }

  function Lift(w: World, h: Addr, r: (Loop, Handler)): World
    requires h in w.heap
  {
    Put(w, h, r.0, r.1)
  }

  /** The states of a CpStateHandler. Registered, it has an open descriptor and no timer. Knowing a
      timer, it has no descriptor, is not registered and not cached, and that timer is the only
      pending reconnect timer for it. A dead handler is referred to by nothing. */
  lemma LifeCycleStates(w: World, h: Addr)
    requires Inv(w)
    ensures Registered(w, h) ==>
              && h in w.heap && w.heap[h].fd >= 0 && w.heap[h].fd in w.open && w.heap[h].timer == None
              && forall t :: t in w.loop.timers && t.cb == ConnectServer ==> t.param != h
    ensures h in w.heap && w.heap[h].timer.Some? ==>
              && w.heap[h].kind == CpState && w.heap[h].fd < 0
              && !Registered(w, h) && Some(h) !in w.loop.mux.hdls
              && OnlyTimerOf(w.loop.timers, h, w.heap[h].timer.value)
    ensures h !in w.heap ==>
              && !Registered(w, h) && Some(h) !in w.loop.mux.hdls
              && forall t :: t in w.loop.timers && t.cb == ConnectServer ==> t.param != h
  {
    SlotsRegistered(w);
    if h in w.heap && w.heap[h].timer.Some? {
      var id := w.heap[h].timer.value;
      var t :| t in w.loop.timers && IsReconnectTimer(t, h, id);
      var i :| 0 <= i < |w.loop.timers| && w.loop.timers[i] == t;
      forall j | 0 <= j < |w.loop.timers| && w.loop.timers[j].cb == ConnectServer && w.loop.timers[j].param == h
        ensures j == i
      {
        assert w.loop.timers[j] in w.loop.timers;
      }
    }
  }

  /** Exactly one pending timer is a reconnect timer for `h`, and it has this address. */
  ghost predicate OnlyTimerOf(ts: seq<Timer>, h: Addr, id: TimerId) {
    exists i :: 0 <= i < |ts| && IsReconnectTimer(ts[i], h, id)
      && forall j :: 0 <= j < |ts| && ts[j].cb == ConnectServer && ts[j].param == h ==> j == i
  }

  /** One timer more: with this address, callback and parameter, due so many milliseconds after the reading. */
  ghost predicate OneMore(before: seq<Timer>, after: seq<Timer>, id: TimerId, cb: Callback, param: nat,
                          now: Timespec, ms: int) {
    exists t :: Joined(before, after, t) && t.id == id && t.cb == cb && t.param == param
                && (now.Normal() ==> t.due.Nanos() == now.Nanos() + ms * 1_000_000)
  }

  ghost predicate Joined(before: seq<Timer>, after: seq<Timer>, t: Timer) {
    multiset(after) == multiset(before) + multiset{t}
  }

  lemma OneMoreTimer(ts: seq<Timer>, now: Timespec, ms: int, cb: Callback, param: nat, id: TimerId)
    requires 0 <= ms <= INT32_MAX
    ensures OneMore(ts, Insert(ts, NewTimer(now, ms, cb, param, id)), id, cb, param, now, ms)
  {
    var t := NewTimer(now, ms, cb, param, id);
    InsertContents(ts, t);
    if now.Normal() { PlusExact(now, ms); }
    assert Joined(ts, Insert(ts, t), t);
  }

  /** The connection is refused, and a timer is started if the clock can be read. */
  lemma RefusedInv(w: World, h: Addr, at: Attempt)
    requires Inv(w) && h in w.heap && w.heap[h].kind == CpState && w.heap[h].dest
    requires w.heap[h].fd < 0 && w.heap[h].timer == None
    requires AttemptOk(w.open, w.loop.timers, at) && at.outcome.Refused?
    ensures Inv(Lift(w, h, Reconnect(w.loop, h, w.heap[h], at)))
  {
    var self := w.heap[h];
    SetFdInv(w, h, -1);
    var w1 := Put(w, h, w.loop, self.(fd := -1));
    if at.clock.Some? {
      StartTimerInv(w1, h, at.clock.value, at.tid);
      var t := NewTimer(at.clock.value, RECONNECT_MS, ConnectServer, h, at.tid);
      var l2 := w.loop.(timers := Insert(w.loop.timers, t));
      assert Put(w1, h, l2, w1.heap[h].(timer := Some(at.tid))) == Lift(w, h, Reconnect(w.loop, h, self, at));
    }
  }

  /** process_reconn, from a handler without descriptor and timer. */
  lemma ReconnectInv(w: World, h: Addr, at: Attempt)
    requires Inv(w) && h in w.heap && w.heap[h].kind == CpState
    requires w.heap[h].fd < 0 && w.heap[h].timer == None
    requires AttemptOk(w.open, w.loop.timers, at)
    ensures Inv(Lift(w, h, Reconnect(w.loop, h, w.heap[h], at)))
  {
    var self := w.heap[h];
    if !self.dest {
      assert Put(w, h, w.loop, self) == w;
    } else {
      match at.outcome
      case Refused =>
        RefusedInv(w, h, at);
      case Blocking(fd) =>
        SetFdInv(w, h, -1);
      case Connected(fd) =>
        SetFdInv(w, h, fd);
        var w1 := Put(w, h, w.loop, self.(fd := fd));
        RegisterInv(w1, h);
        assert w1.(loop := Register(w1.loop, h)) == Lift(w, h, Reconnect(w.loop, h, self, at));
    }
  }

  /** Unregister and close: the common first half of both process_close functions. */
  lemma DisconnectInv(w: World, h: Addr)
    requires Inv(w) && h in w.heap && w.heap[h].timer == None
    ensures var w' := Put(w, h, Unregister(w.loop, h), Closed(w.heap[h]));
            && Inv(w') && !Registered(w', h) && w'.open == w.open - FdSet(w.heap[h].fd)
  {
    UnregisterInv(w, h);
    if w.heap[h].fd >= 0 { SetFdInv(w.(loop := Unregister(w.loop, h)), h, -1); }
    DisconnectIsPut(w, h);
  }

  lemma DisconnectIsPut(w: World, h: Addr)
    requires h in w.heap && |w.loop.mux.fds| == |w.loop.mux.hdls|
    ensures var w1 := w.(loop := Unregister(w.loop, h));
            && Put(w1, h, w1.loop, Closed(w.heap[h])) == Put(w, h, Unregister(w.loop, h), Closed(w.heap[h]))
            && (w.heap[h].fd < 0 ==> Put(w1, h, w1.loop, w1.heap[h]) == w1)
  {
    assert w.heap[h := w.heap[h]] == w.heap;
  }

  /** process_close of a CpStateHandler. */
  lemma StateCloseInv(w: World, h: Addr, at: Attempt)
    requires Inv(w) && h in w.heap && w.heap[h].kind == CpState && w.heap[h].timer == None
    requires AttemptOk(w.open - FdSet(w.heap[h].fd), w.loop.timers, at)
    ensures Inv(Lift(w, h, StateClose(w.loop, h, w.heap[h], at)))
  {
    DisconnectInv(w, h);
    var w1 := Put(w, h, Unregister(w.loop, h), Closed(w.heap[h]));
    ReconnectInv(w1, h, at);
    var r := Reconnect(w1.loop, h, w1.heap[h], at);
    assert Lift(w1, h, r) == Lift(w, h, r);
  }

  /** The world a reconnect timer's callback starts from: TimerManager::run has popped the timer. */
  function Popped(w: World): World
    requires w.loop.timers != []
  {
    w.(loop := w.loop.(timers := w.loop.timers[1..]))
  }

  /** What connect_server does first: the popped timer is forgotten by its handler. */
  lemma PopInv(w: World)
    requires Inv(w) && w.loop.timers != [] && w.loop.timers[0].cb == ConnectServer
    ensures var h := w.loop.timers[0].param;
            && h in w.heap && w.heap[h].kind == CpState && w.heap[h].fd < 0
            && Inv(Put(w, h, Popped(w).loop, w.heap[h].(timer := None)))
  {
    var t := w.loop.timers[0];
    assert t in w.loop.timers;
    DropTimerInv(w, 0);
    assert Erase(w.loop.timers, 0) == w.loop.timers[1..];
  }

  /** connect_server, fired for the front timer. */
  lemma ConnectServerInv(w: World, at: Attempt)
    requires Inv(w) && w.loop.timers != [] && w.loop.timers[0].cb == ConnectServer
    requires AttemptOk(w.open, w.loop.timers[1..], at)
    ensures var h := w.loop.timers[0].param;
            && h in w.heap && w.heap[h].kind == CpState
            && Inv(Lift(Popped(w), h, ConnectServerCb(Popped(w).loop, h, w.heap[h], at)))
  {
    var h := w.loop.timers[0].param;
    PopInv(w);
    var w1 := Put(w, h, Popped(w).loop, w.heap[h].(timer := None));
    ReconnectInv(w1, h, at);
    LiftTwice(w, h, Popped(w).loop, w.heap[h].(timer := None), Reconnect(w1.loop, h, w1.heap[h], at));
  }

  lemma LiftTwice(w: World, h: Addr, l: Loop, self: Handler, r: (Loop, Handler))
    requires h in w.heap && w.heap[h].fd < 0 && self.fd < 0
    ensures Lift(Put(w, h, l, self), h, r) == Lift(w.(loop := l), h, r)
  {}

  /** Deleting any live handler leaves nothing behind that refers to it, and closes its descriptor. */
  lemma DeleteInv(w: World, h: Addr)
    requires Inv(w) && h in w.heap
    ensures Inv(Delete(w, h))
    ensures !Registered(Delete(w, h), h) && Some(h) !in Delete(w, h).loop.mux.hdls
    ensures forall t :: t in Delete(w, h).loop.timers && t.cb == ConnectServer ==> t.param != h
    ensures w.heap[h].fd >= 0 ==> w.heap[h].fd !in Delete(w, h).open
  {
    var self := w.heap[h];
    if self.timer.Some? {
      var id := self.timer.value;
      var t :| t in w.loop.timers && IsReconnectTimer(t, h, id);
      var p := Find(w.loop.timers, id);
      assert p < |w.loop.timers| && w.loop.timers[p] == t;
      DropTimerInv(w, p);
      var w1 := Put(w, h, w.loop.(timers := Erase(w.loop.timers, p)), self.(timer := None));
      assert !Registered(w1, h);
      DropInv(w1, h);
      assert World(w1.loop, w1.heap - {h}, w1.open - FdSet(self.fd)) == Delete(w, h);
    } else {
      if self.fd >= 0 { UnregisterInv(w, h); }
      var w1 := w.(loop := Destruct(w.loop, h, self));
      assert !Registered(w1, h);
      DropInv(w1, h);
      assert World(w1.loop, w1.heap - {h}, w1.open - FdSet(self.fd)) == Delete(w, h);
    }
    LifeCycleStates(Delete(w, h), h);
  }

  // ---- the concrete callbacks are instances of the arbitrary ones of Rounds ----

  /** The calls process_reconn makes into the loop. */
  function ReconnectOps(h: Addr, self: Handler, at: Attempt): seq<Op> {
    if !self.dest then []
    else match at.outcome
      case Refused => [Create(at.clock, RECONNECT_MS, ConnectServer, h, at.tid)]
      case Blocking(_) => []
      case Connected(_) => [Reg(h, POLLIN)]
  }

  function StateCloseOps(h: Addr, self: Handler, at: Attempt): seq<Op> {
    [Unreg(h)] + ReconnectOps(h, Closed(self), at)
  }

  lemma ReconnectIsOps(l: Loop, h: Addr, self: Handler, at: Attempt)
    requires |l.mux.fds| == |l.mux.hdls|
    ensures ApplyAll(l, ReconnectOps(h, self, at)).after == Reconnect(l, h, self, at).0
  {
    var ops := ReconnectOps(h, self, at);
    if ops != [] {
      assert ops[1..] == [];
      assert ApplyAll(Apply(l, ops[0]).after, []).after == Apply(l, ops[0]).after;
    }
  }

  lemma StateCloseIsOps(l: Loop, h: Addr, self: Handler, at: Attempt)
    requires |l.mux.fds| == |l.mux.hdls|
    ensures ApplyAll(l, StateCloseOps(h, self, at)).after == StateClose(l, h, self, at).0
  {
    ReconnectIsOps(Unregister(l, h), h, Closed(self), at);
    assert StateCloseOps(h, self, at)[1..] == ReconnectOps(h, Closed(self), at);
  }

  lemma ReconnectOpsLater(h: Addr, self: Handler, at: Attempt, now: Timespec)
    requires at.clock.Some? ==> at.clock.value.Normal() && !Less(at.clock.value, now)
    ensures Later(StateCloseOps(h, self, at), now) && Later(ReconnectOps(h, self, at), now)
  {
    if at.clock.Some? { CreatedLater(now, at.clock.value, RECONNECT_MS); }
  }

  /** What a CpStateHandler does to the loop is a callback in the sense of Rounds, and as long as the
      clock does not run backwards the timer it creates is due after the sampled time: the theorems
      about arbitrary callbacks, and the termination of the timer loop, apply to it. */
  lemma StateCallbacksAreOps(l: Loop, h: Addr, self: Handler, at: Attempt, now: Timespec)
    requires |l.mux.fds| == |l.mux.hdls|
    requires at.clock.Some? ==> at.clock.value.Normal() && !Less(at.clock.value, now)
    ensures ApplyAll(l, StateCloseOps(h, self, at)).after == StateClose(l, h, self, at).0
    ensures ApplyAll(l, ReconnectOps(h, self, at)).after == ConnectServerCb(l, h, self, at).0
    ensures Later(StateCloseOps(h, self, at), now) && Later(ReconnectOps(h, self, at), now)
  {
    ReconnectIsOps(l, h, self.(timer := None), at);
    StateCloseIsOps(l, h, self, at);
    ReconnectOpsLater(h, self, at, now);
  }
}
