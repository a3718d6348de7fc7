/** One round of the event loop as a function: the timers that fire and the handlers that are
    dispatched, for arbitrary callbacks. A callback is the list of calls it makes back into the loop. */
module LoopState {
  import opened Common
  import opened Timespecs
  import opened TimerList
  import MuxState

  type Mux = MuxState.Mux
  type Addr = MuxState.Addr
  type PollingEntry = MuxState.PollingEntry

  datatype Loop = Loop(mux: Mux, timers: seq<Timer>)

  /** A call that a callback may make: the interface of Multiplexer and TimerManager. `clock` is
      the reading clock_gettime gives create_timer, `id` the address of the new timer. */
  datatype Op =
    | Reg(handler: Addr, events: int)
    | Unreg(handler: Addr)
    | Quit
    | Create(clock: Option<Timespec>, interval: int, cb: Callback, param: nat, id: TimerId)
    | DelTimer(id: TimerId)
    | DelCallback(cb: Callback)

  /** The loop after some calls, with the timers they created and deleted. */
  datatype Effect = Effect(after: Loop, created: seq<Timer>, deleted: seq<Timer>)

  ghost predicate Ok(l: Loop) {
    MuxState.Ok(l.mux) && Sorted(l.timers)
  }

  function NewTimer(now: Timespec, interval: int, cb: Callback, param: nat, id: TimerId): Timer {
    Timer(id, DueTime(now, interval), cb, param)
  }

  function Apply(l: Loop, op: Op): Effect
    requires |l.mux.fds| == |l.mux.hdls|
  {
    match op
    case Reg(h, events) => Effect(l.(mux := MuxState.Register(l.mux, h, events)), [], [])
    case Unreg(h) => Effect(l.(mux := MuxState.Unregister(l.mux, h)), [], [])
    case Quit => Effect(l.(mux := l.mux.(run := false)), [], [])
    case Create(None, _, _, _, _) => Effect(l, [], [])
    case Create(Some(now), interval, cb, param, id) =>
      var t := NewTimer(now, interval, cb, param, id);
      Effect(l.(timers := Insert(l.timers, t)), [t], [])
    case DelTimer(id) =>
      var p := Find(l.timers, id);
      Effect(l.(timers := DeleteId(l.timers, id)), [], if p < |l.timers| then [l.timers[p]] else [])
    case DelCallback(cb) =>
      Effect(l.(timers := Select(l.timers, cb, true)), [], Select(l.timers, cb, false))
  }

  /** A whole callback. The number of cached slots does not change. */
  function ApplyAll(l: Loop, ops: seq<Op>): (e: Effect)
    requires |l.mux.fds| == |l.mux.hdls|
    ensures |e.after.mux.fds| == |e.after.mux.hdls| == |l.mux.fds|
    decreases ops
  {
    if ops == [] then Effect(l, [], [])
    else
      var e := Apply(l, ops[0]);
      var r := ApplyAll(e.after, ops[1..]);
      Effect(r.after, e.created + r.created, e.deleted + r.deleted)
  }

  lemma ApplyOk(l: Loop, op: Op)
    requires Ok(l)
    ensures Ok(Apply(l, op).after)
  {
    match op
    case Reg(h, events) => MuxState.RegisterOk(l.mux, h, events);
    case Unreg(h) => MuxState.UnregisterOk(l.mux, h);
    case Quit =>
      forall i | 0 <= i < |l.mux.hdls| ensures MuxState.SlotOk(l.mux.(run := false), i) {
        assert MuxState.SlotOk(l.mux, i);
      }
    case Create(None, _, _, _, _) =>
    case Create(Some(now), interval, cb, param, id) =>
      InsertKeepsOrder(l.timers, NewTimer(now, interval, cb, param, id));
    case DelTimer(id) =>
      if Find(l.timers, id) < |l.timers| { EraseKeepsOrder(l.timers, Find(l.timers, id)); }
    case DelCallback(cb) => SelectKeepsOrder(l.timers, cb);
  }

  /** No callback can break the registry, the cache or the timer order. */
  lemma {:induction false} ApplyAllOk(l: Loop, ops: seq<Op>)
    requires Ok(l)
    ensures Ok(ApplyAll(l, ops).after)
    decreases ops
  {
    if ops != [] {
      ApplyOk(l, ops[0]);
      ApplyAllOk(Apply(l, ops[0]).after, ops[1..]);
    }
  }

  lemma ApplyConserves(l: Loop, op: Op)
    requires |l.mux.fds| == |l.mux.hdls|
    ensures var e := Apply(l, op);
            multiset(l.timers) + multiset(e.created) == multiset(e.after.timers) + multiset(e.deleted)
  {
    match op
    case Create(Some(now), interval, cb, param, id) =>
      InsertContents(l.timers, NewTimer(now, interval, cb, param, id));
    case DelTimer(id) =>
      if Find(l.timers, id) < |l.timers| { EraseKeepsOrder(l.timers, Find(l.timers, id)); }
    case DelCallback(cb) => SelectSplits(l.timers, cb);
    case _ =>
  }

  lemma BalanceChain<T>(a: multiset<T>, b: multiset<T>, c: multiset<T>,
                        in1: multiset<T>, in2: multiset<T>, out1: multiset<T>, out2: multiset<T>)
    requires a + in1 == b + out1 && b + in2 == c + out2
    ensures a + (in1 + in2) == c + (out1 + out2)
  {
    forall x ensures (a + (in1 + in2))[x] == (c + (out1 + out2))[x] {
      assert (a + in1)[x] == (b + out1)[x] && (b + in2)[x] == (c + out2)[x];
    }
  }

  lemma {:induction false} ApplyAllConserves(l: Loop, ops: seq<Op>)
    requires |l.mux.fds| == |l.mux.hdls|
    ensures var e := ApplyAll(l, ops);
            multiset(l.timers) + multiset(e.created) == multiset(e.after.timers) + multiset(e.deleted)
    decreases ops
  {
    if ops != [] {
      var e := Apply(l, ops[0]);
      var r := ApplyAll(e.after, ops[1..]);
      ApplyConserves(l, ops[0]);
      ApplyAllConserves(e.after, ops[1..]);
      BalanceChain(multiset(l.timers), multiset(e.after.timers), multiset(r.after.timers),
                   multiset(e.created), multiset(r.created), multiset(e.deleted), multiset(r.deleted));
    }
  }

  // ---- the timers due at one instant ----

  predicate IsDue(t: Timer, now: Timespec) {
    !Less(now, t.due)
  }

  /** The timers due at `now`, in list order. */
  function Due(ts: seq<Timer>, now: Timespec): (r: seq<Timer>) {
    if ts == [] then []
    else if IsDue(ts[0], now) then [ts[0]] + Due(ts[1..], now)
    else Due(ts[1..], now)
  }

  lemma {:induction false} DueConcat(a: seq<Timer>, b: seq<Timer>, now: Timespec)
    ensures Due(a + b, now) == Due(a, now) + Due(b, now)
  {
    if a == [] {
      assert a + b == b;
    } else {
      assert (a + b)[1..] == a[1..] + b;
      DueConcat(a[1..], b, now);
    }
  }

  lemma {:induction false} DueSelect(ts: seq<Timer>, cb: Callback, now: Timespec)
    ensures Subsequence(Due(Select(ts, cb, true), now), Due(ts, now))
  {
    if ts != [] {
      DueSelect(ts[1..], cb, now);
      var rest := Select(ts[1..], cb, true);
      var sel := Select(ts, cb, true);
      assert ts[0].cb != cb ==> sel[1..] == rest;
      if IsDue(ts[0], now) {
        assert Due(ts, now)[1..] == Due(ts[1..], now);
        assert ts[0].cb != cb ==> Due(sel, now)[1..] == Due(rest, now);
      }
    }
  }

  lemma DueInsert(ts: seq<Timer>, t: Timer, now: Timespec)
    requires !IsDue(t, now)
    ensures Due(Insert(ts, t), now) == Due(ts, now)
  {
    var p := ScanFrom(ts, 0, t.due);
    var a, b := ts[..p], ts[p..];
    assert Insert(ts, t) == a + ([t] + b) && ts == a + b;
    DueConcat(a, [t] + b, now);
    DueConcat([t], b, now);
    DueConcat(a, b, now);
  }

  lemma DueErase(ts: seq<Timer>, p: nat, now: Timespec)
    requires p < |ts|
    ensures Subsequence(Due(Erase(ts, p), now), Due(ts, now))
  {
    var a, x, b := ts[..p], [ts[p]], ts[p + 1..];
    assert ts == a + (x + b);
    DueConcat(a, x + b, now);
    DueConcat(x, b, now);
    DueConcat(a, b, now);
    SubsequenceDrop(Due(a, now), Due(x, now), Due(b, now));
    assert Due(a, now) + (Due(x, now) + Due(b, now)) == Due(a, now) + Due(x, now) + Due(b, now);
  }

  /** The timers a callback creates are all due after `now`. */
  predicate Later(ops: seq<Op>, now: Timespec) {
    forall i :: 0 <= i < |ops| && ops[i].Create? && ops[i].clock.Some? ==>
      Less(now, DueTime(ops[i].clock.value, ops[i].interval))
  }

  /** What makes them so: the clock does not run backwards, and the interval is positive and fits
      the `int` that operator+ takes. */
  lemma CreatedLater(now: Timespec, clock: Timespec, interval: int)
    requires clock.Normal() && !Less(clock, now) && 1 <= interval <= INT32_MAX
    ensures Less(now, DueTime(clock, interval))
  {
    DueTimeIsLater(clock, interval);
  }

  lemma ApplyDue(l: Loop, op: Op, now: Timespec)
    requires |l.mux.fds| == |l.mux.hdls| && Later([op], now)
    ensures Subsequence(Due(Apply(l, op).after.timers, now), Due(l.timers, now))
    ensures forall t :: t in Apply(l, op).created ==> !IsDue(t, now)
  {
    match op
    case Create(Some(clock), interval, cb, param, id) =>
      assert [op][0] == op;
      DueInsert(l.timers, NewTimer(clock, interval, cb, param, id), now);
      SubsequenceRefl(Due(l.timers, now));
    case DelTimer(id) =>
      SubsequenceRefl(Due(l.timers, now));
      if Find(l.timers, id) < |l.timers| { DueErase(l.timers, Find(l.timers, id), now); }
    case DelCallback(cb) => DueSelect(l.timers, cb, now);
    case _ => SubsequenceRefl(Due(l.timers, now));
  }

  lemma {:induction false} SelectNothing(ts: seq<Timer>, cb: Callback)
    requires Select(ts, cb, false) == []
    ensures Select(ts, cb, true) == ts
  {
    if ts != [] { SelectNothing(ts[1..], cb); }
  }

  lemma ApplyKeepsDue(l: Loop, op: Op, now: Timespec)
    requires |l.mux.fds| == |l.mux.hdls| && Later([op], now)
    requires Apply(l, op).deleted == []
    ensures Due(Apply(l, op).after.timers, now) == Due(l.timers, now)
  {
    match op
    case Create(Some(clock), interval, cb, param, id) =>
      assert [op][0] == op;
      DueInsert(l.timers, NewTimer(clock, interval, cb, param, id), now);
    case DelCallback(cb) => SelectNothing(l.timers, cb);
    case _ =>
  }

  /** A callback that deletes no timer leaves the timers due at `now` alone. */
  lemma {:induction false} ApplyAllKeepsDue(l: Loop, ops: seq<Op>, now: Timespec)
    requires |l.mux.fds| == |l.mux.hdls| && Later(ops, now)
    requires ApplyAll(l, ops).deleted == []
    ensures Due(ApplyAll(l, ops).after.timers, now) == Due(l.timers, now)
    decreases ops
  {
    if ops != [] {
      var e := Apply(l, ops[0]);
      assert |e.deleted + ApplyAll(e.after, ops[1..]).deleted| == 0;
      ApplyKeepsDue(l, ops[0], now);
      ApplyAllKeepsDue(e.after, ops[1..], now);
    }
  }

  /** A callback can only take away from the timers due at `now`, and adds none. */
  lemma {:induction false} ApplyAllDue(l: Loop, ops: seq<Op>, now: Timespec)
    requires |l.mux.fds| == |l.mux.hdls| && Later(ops, now)
    ensures Subsequence(Due(ApplyAll(l, ops).after.timers, now), Due(l.timers, now))
    ensures forall t :: t in ApplyAll(l, ops).created ==> !IsDue(t, now)
    decreases ops
  {
    if ops == [] {
      SubsequenceRefl(Due(l.timers, now));
    } else {
      assert [ops[0]][0] == ops[0];
      var e := Apply(l, ops[0]);
      ApplyDue(l, ops[0], now);
      ApplyAllDue(e.after, ops[1..], now);
      SubsequenceTrans(Due(ApplyAll(l, ops).after.timers, now), Due(e.after.timers, now), Due(l.timers, now));
    }
  }
}
