/** TimerManager::run and the body of Multiplexer::run as functions, with what they guarantee for
    every behaviour of the callbacks, the clock and poll(). */
module Rounds {
  import opened Common
  import opened Timespecs
  import opened TimerList
  import opened LoopState
  import MuxState

  /** What the k-th callback invoked does. */
  type Behaviour = nat -> seq<Op>

  // ---- TimerManager::run ----

  /** A run of the timers: which fired, in order, and which the callbacks created and deleted. */
  datatype Journal = Journal(after: Loop, fired: seq<Timer>, created: seq<Timer>, deleted: seq<Timer>)

  ghost predicate AllLater(beh: Behaviour, from: nat, now: Timespec) {
    forall k :: k >= from ==> Later(beh(k), now)
  }

  /** The timer loop from callback number `k` on. It ends because firing a timer takes one away from
      those due at `now`, and no callback adds one. */
  ghost function FireDue(l: Loop, now: Timespec, beh: Behaviour, k: nat): (j: Journal)
    requires |l.mux.fds| == |l.mux.hdls| && AllLater(beh, k, now)
    ensures |j.after.mux.fds| == |j.after.mux.hdls| == |l.mux.fds|
    decreases |Due(l.timers, now)|
  {
    if l.timers == [] || Less(now, l.timers[0].due) then Journal(l, [], [], [])
    else
      var popped := l.(timers := l.timers[1..]);
      var e := ApplyAll(popped, beh(k));
      ApplyAllDue(popped, beh(k), now);
      var j := FireDue(e.after, now, beh, k + 1);
      Journal(j.after, [l.timers[0]] + j.fired, e.created + j.created, e.deleted + j.deleted)
  }

  /** What remains to be done after `fired` leads to the journal `goal`. */
  ghost predicate Pending(goal: Journal, fired: seq<Timer>, l: Loop, now: Timespec, beh: Behaviour) {
    && |l.mux.fds| == |l.mux.hdls| && AllLater(beh, |fired|, now)
    && goal.after == FireDue(l, now, beh, |fired|).after
    && goal.fired == fired + FireDue(l, now, beh, |fired|).fired
  }

  lemma PendingStep(goal: Journal, fired: seq<Timer>, l: Loop, now: Timespec, beh: Behaviour)
    requires Pending(goal, fired, l, now, beh)
    requires l.timers != [] && !Less(now, l.timers[0].due)
    ensures var l1 := ApplyAll(l.(timers := l.timers[1..]), beh(|fired|)).after;
            && |Due(l1.timers, now)| < |Due(l.timers, now)|
            && Pending(goal, fired + [l.timers[0]], l1, now, beh)
  {
    ApplyAllDue(l.(timers := l.timers[1..]), beh(|fired|), now);
  }

  /** TimerManager::run, with the clock reading it takes when the list is not empty. */
  ghost function RunTimers(l: Loop, clock: Option<Timespec>, beh: Behaviour): Journal
    requires |l.mux.fds| == |l.mux.hdls| && (clock.Some? ==> AllLater(beh, 0, clock.value))
  {
    if l.timers == [] || clock.None? then Journal(l, [], [], []) else FireDue(l, clock.value, beh, 0)
  }

  lemma {:induction false} FireDueOk(l: Loop, now: Timespec, beh: Behaviour, k: nat)
    requires Ok(l) && AllLater(beh, k, now)
    ensures Ok(FireDue(l, now, beh, k).after)
    decreases |Due(l.timers, now)|
  {
    if l.timers != [] && !Less(now, l.timers[0].due) {
      var popped := l.(timers := l.timers[1..]);
      ApplyAllDue(popped, beh(k), now);
      ApplyAllOk(popped, beh(k));
      FireDueOk(ApplyAll(popped, beh(k)).after, now, beh, k + 1);
    }
  }

  /** Every timer of the list, or created, is left, has fired or was deleted, exactly once. */
  ghost predicate Balanced(ts: seq<Timer>, created: seq<Timer>,
                           rest: seq<Timer>, fired: seq<Timer>, deleted: seq<Timer>)
  {
    multiset(ts) + multiset(created) == multiset(rest) + (multiset(fired) + multiset(deleted))
  }

  /** Popping the front timer, running its callback, and going on. */
  lemma BalancedStep(ts: seq<Timer>, e: Effect, j: Journal)
    requires ts != [] && Balanced(ts[1..], e.created, e.after.timers, [], e.deleted)
    requires Balanced(e.after.timers, j.created, j.after.timers, j.fired, j.deleted)
    ensures Balanced(ts, e.created + j.created, j.after.timers, [ts[0]] + j.fired, e.deleted + j.deleted)
  {
    BalanceChain(multiset(ts[1..]), multiset(e.after.timers), multiset(j.after.timers),
                 multiset(e.created), multiset(j.created),
                 multiset(e.deleted), multiset(j.fired) + multiset(j.deleted));
    assert multiset(ts) == multiset{ts[0]} + multiset(ts[1..]) by { assert ts == [ts[0]] + ts[1..]; }
    assert multiset([ts[0]] + j.fired) == multiset{ts[0]} + multiset(j.fired);
    assert multiset(e.created + j.created) == multiset(e.created) + multiset(j.created);
    assert multiset(e.deleted + j.deleted) == multiset(e.deleted) + multiset(j.deleted);
    PrependBalance(ts[0], multiset(ts[1..]), multiset(e.created) + multiset(j.created),
                   multiset(j.after.timers), multiset(j.fired), multiset(e.deleted), multiset(j.deleted));
  }

  lemma PrependBalance<T>(head: T, popped: multiset<T>, created: multiset<T>,
                          rest: multiset<T>, fired: multiset<T>, gone1: multiset<T>, gone2: multiset<T>)
    requires popped + created == rest + (gone1 + (fired + gone2))
    ensures (multiset{head} + popped) + created == rest + ((multiset{head} + fired) + (gone1 + gone2))
  {
    forall x
      ensures ((multiset{head} + popped) + created)[x] == (rest + ((multiset{head} + fired) + (gone1 + gone2)))[x]
    {
      assert (popped + created)[x] == (rest + (gone1 + (fired + gone2)))[x];
    }
  }

  /** Conservation: every timer in the list before, or created meanwhile, has fired once, been
      deleted once, or is still in the list. */
  lemma {:induction false} FireDueConserves(l: Loop, now: Timespec, beh: Behaviour, k: nat)
    requires |l.mux.fds| == |l.mux.hdls| && AllLater(beh, k, now)
    ensures var j := FireDue(l, now, beh, k); Balanced(l.timers, j.created, j.after.timers, j.fired, j.deleted)
    decreases |Due(l.timers, now)|
  {
    if l.timers != [] && !Less(now, l.timers[0].due) {
      var popped := l.(timers := l.timers[1..]);
      var e := ApplyAll(popped, beh(k));
      ApplyAllDue(popped, beh(k), now);
      ApplyAllConserves(popped, beh(k));
      FireDueConserves(e.after, now, beh, k + 1);
      BalancedStep(l.timers, e, FireDue(e.after, now, beh, k + 1));
    }
  }

  /** What fires is due, in list order; what the callbacks create is not due; and the timer left at
      the front, if any, is due later. */
  lemma {:induction false} FireDueFires(l: Loop, now: Timespec, beh: Behaviour, k: nat)
    requires |l.mux.fds| == |l.mux.hdls| && AllLater(beh, k, now)
    ensures var j := FireDue(l, now, beh, k);
            && Subsequence(j.fired, Due(l.timers, now))
            && (forall t :: t in j.fired ==> IsDue(t, now))
            && (forall t :: t in j.created ==> !IsDue(t, now))
            && (j.after.timers != [] ==> !IsDue(j.after.timers[0], now))
    decreases |Due(l.timers, now)|
  {
    if l.timers != [] && !Less(now, l.timers[0].due) {
      var popped := l.(timers := l.timers[1..]);
      var e := ApplyAll(popped, beh(k));
      ApplyAllDue(popped, beh(k), now);
      FireDueFires(e.after, now, beh, k + 1);
      var j := FireDue(e.after, now, beh, k + 1);
      SubsequenceTrans(j.fired, Due(e.after.timers, now), Due(popped.timers, now));
      assert Due(l.timers, now)[1..] == Due(popped.timers, now);
      assert ([l.timers[0]] + j.fired)[1..] == j.fired;
    }
  }

  lemma {:induction false} SubsequenceMembers<T>(a: seq<T>, b: seq<T>)
    requires Subsequence(a, b)
    ensures forall t :: t in a ==> t in b
    decreases |a| + |b|
  {
    if a != [] {
      if a[0] == b[0] && Subsequence(a[1..], b[1..]) {
        SubsequenceMembers(a[1..], b[1..]);
        assert a == [a[0]] + a[1..];
      } else {
        SubsequenceMembers(a, b[1..]);
      }
    }
  }

  lemma {:induction false} SubsequenceSorted(a: seq<Timer>, b: seq<Timer>)
    requires Subsequence(a, b) && Sorted(b)
    ensures Sorted(a)
    decreases |a| + |b|
  {
    if a != [] {
      if a[0] == b[0] && Subsequence(a[1..], b[1..]) {
        SubsequenceSorted(a[1..], b[1..]);
        SubsequenceMembers(a[1..], b[1..]);
        forall j | 0 < j < |a| ensures !Less(a[j].due, a[0].due) {
          assert a[1..][j - 1] in b[1..];
        }
      } else {
        SubsequenceSorted(a, b[1..]);
      }
    }
  }

  lemma {:induction false} DueIsSubsequence(ts: seq<Timer>, now: Timespec)
    ensures Subsequence(Due(ts, now), ts)
  {
    if ts != [] {
      DueIsSubsequence(ts[1..], now);
      if IsDue(ts[0], now) { assert Due(ts, now)[1..] == Due(ts[1..], now); }
    }
  }

  /** TimerManager::run under re-entrant callbacks. With `now` the sampled time: the timers fire in
      non-decreasing due order, as a subsequence of the list (so equals fire first-in first-out);
      every timer of the list that is due is either fired or deleted by a callback, as often as it
      occurs; no timer that is not due fires; and everything left is due strictly later. */
  lemma TimersFireExactlyOnce(l: Loop, now: Timespec, beh: Behaviour)
    requires Ok(l) && AllLater(beh, 0, now)
    ensures var j := FireDue(l, now, beh, 0);
            && Ok(j.after)
            && Subsequence(j.fired, l.timers) && Sorted(j.fired)
            && (forall t :: IsDue(t, now) ==>
                  multiset(l.timers)[t] == multiset(j.fired)[t] + multiset(j.deleted)[t])
            && (forall t :: t in j.fired ==> IsDue(t, now))
            && (forall t :: t in j.after.timers ==> Less(now, t.due))
  {
    var j := FireDue(l, now, beh, 0);
    FireDueOk(l, now, beh, 0);
    FireDueConserves(l, now, beh, 0);
    FireDueFires(l, now, beh, 0);
    DueIsSubsequence(l.timers, now);
    SubsequenceTrans(j.fired, Due(l.timers, now), l.timers);
    SubsequenceSorted(j.fired, l.timers);
    forall t | t in j.after.timers ensures Less(now, t.due) {
      var i :| 0 <= i < |j.after.timers| && j.after.timers[i] == t;
      assert !Less(j.after.timers[i].due, j.after.timers[0].due) || i == 0;
    }
    forall t | IsDue(t, now)
      ensures multiset(l.timers)[t] == multiset(j.fired)[t] + multiset(j.deleted)[t]
    {
      assert t !in j.created && t !in j.after.timers;
      assert (multiset(l.timers) + multiset(j.created))[t]
          == (multiset(j.after.timers) + (multiset(j.fired) + multiset(j.deleted)))[t];
    }
  }

  lemma {:induction false} NoneDue(ts: seq<Timer>, now: Timespec)
    requires Sorted(ts) && (ts != [] ==> !IsDue(ts[0], now))
    ensures Due(ts, now) == []
  {
    if ts != [] {
      assert |ts| > 1 ==> !Less(ts[1].due, ts[0].due);
      NoneDue(ts[1..], now);
    }
  }

  /** When no callback deletes timers, exactly the due ones fire, in list order. */
  lemma {:induction false} WithoutDeletionsAllDueFire(l: Loop, now: Timespec, beh: Behaviour, k: nat)
    requires Ok(l) && AllLater(beh, k, now)
    requires FireDue(l, now, beh, k).deleted == []
    ensures FireDue(l, now, beh, k).fired == Due(l.timers, now)
    decreases |Due(l.timers, now)|
  {
    if l.timers == [] || Less(now, l.timers[0].due) {
      NoneDue(l.timers, now);
    } else {
      var popped := l.(timers := l.timers[1..]);
      var e := ApplyAll(popped, beh(k));
      ApplyAllDue(popped, beh(k), now);
      ApplyAllOk(popped, beh(k));
      assert e.deleted + FireDue(e.after, now, beh, k + 1).deleted == [];
      ApplyAllKeepsDue(popped, beh(k), now);
      WithoutDeletionsAllDueFire(e.after, now, beh, k + 1);
    }
  }

  /** The timer loop cut off after `n` iterations, for callbacks that may create any timer. */
  ghost function AfterFirings(l: Loop, now: Timespec, beh: Behaviour, k: nat, n: nat): (r: Loop)
    requires |l.mux.fds| == |l.mux.hdls|
    decreases n
  {
    if n == 0 || l.timers == [] || Less(now, l.timers[0].due) then l
    else AfterFirings(ApplyAll(l.(timers := l.timers[1..]), beh(k)).after, now, beh, k + 1, n - 1)
  }

  predicate TimersDone(l: Loop, now: Timespec) {
    l.timers == [] || Less(now, l.timers[0].due)
  }

  /** The timer loop has come to its end after at most `n` iterations. */
  ghost predicate EndsWithin(l: Loop, now: Timespec, beh: Behaviour, n: nat)
    requires |l.mux.fds| == |l.mux.hdls|
  {
    TimersDone(AfterFirings(l, now, beh, 0, n), now)
  }

  /** A timer loop that ends is one that is cut off after as many turns as it fires timers. */
  lemma {:induction false} FireDueIsTurns(l: Loop, now: Timespec, beh: Behaviour, k: nat)
    requires |l.mux.fds| == |l.mux.hdls| && AllLater(beh, k, now)
    ensures FireDue(l, now, beh, k).after == AfterFirings(l, now, beh, k, |FireDue(l, now, beh, k).fired|)
    decreases |Due(l.timers, now)|
  {
    if l.timers != [] && !Less(now, l.timers[0].due) {
      var popped := l.(timers := l.timers[1..]);
      ApplyAllDue(popped, beh(k), now);
      FireDueIsTurns(ApplyAll(popped, beh(k)).after, now, beh, k + 1);
    }
  }

  /** Callbacks each of which creates such a timer again, at a clock that has not moved. */
  function Recreate(now: Timespec, interval: int, cb: Callback, param: nat, id: TimerId): Behaviour {
    (_: nat) => [Create(Some(now), interval, cb, param, id)]
  }

  /** A timer that is due at once keeps a due timer in front, for any number of iterations. */
  lemma {:induction false} RecreatedStaysDue(l: Loop, now: Timespec, interval: int, cb: Callback, param: nat,
                                             id: TimerId, k: nat, n: nat)
    requires |l.mux.fds| == |l.mux.hdls| && !TimersDone(l, now) && !Less(now, DueTime(now, interval))
    ensures !TimersDone(AfterFirings(l, now, Recreate(now, interval, cb, param, id), k, n), now)
    decreases n
  {
    if n > 0 {
      var beh := Recreate(now, interval, cb, param, id);
      var op := Create(Some(now), interval, cb, param, id);
      var popped := l.(timers := l.timers[1..]);
      var next := ApplyAll(popped, beh(k)).after;
      assert beh(k) == [op] && [op][1..] == [];
      assert ApplyAll(Apply(popped, op).after, []).after == Apply(popped, op).after;
      assert next.timers == Insert(popped.timers, NewTimer(now, interval, cb, param, id));
      RecreatedStaysDue(next, now, interval, cb, param, id, k + 1, n - 1);
    }
  }

  lemma RecreatedIsLater(now: Timespec, interval: int, cb: Callback, param: nat, id: TimerId)
    requires Less(now, DueTime(now, interval))
    ensures AllLater(Recreate(now, interval, cb, param, id), 0, now)
  {}

  /** When a timer is due, the timer loop with callbacks that create a timer again, at a clock that has
      not moved, ends exactly when the unsigned interval is positive and fits `int`. */
  lemma RecreatingEndsIff(l: Loop, now: Timespec, interval: int, cb: Callback, param: nat, id: TimerId)
    requires |l.mux.fds| == |l.mux.hdls| && !TimersDone(l, now)
    requires now.Normal() && 0 <= interval < UINT32_SIZE
    ensures (exists n :: EndsWithin(l, now, Recreate(now, interval, cb, param, id), n)) <==> 1 <= interval <= INT32_MAX
  {
    var beh := Recreate(now, interval, cb, param, id);
    DueTimeIsLater(now, interval);
    if 1 <= interval <= INT32_MAX {
      RecreatedIsLater(now, interval, cb, param, id);
      FireDueIsTurns(l, now, beh, 0);
      FireDueFires(l, now, beh, 0);
      assert EndsWithin(l, now, beh, |FireDue(l, now, beh, 0).fired|);
    } else {
      forall n ensures !EndsWithin(l, now, beh, n) {
        RecreatedStaysDue(l, now, interval, cb, param, id, 0, n);
      }
    }
  }

  // ---- the dispatch loop of Multiplexer::run ----

  /** One call of FdHandler::process: the slot it came from, its argument, and the registry at the
      moment of the call. */
  datatype Call = Call(slot: nat, handler: Addr, fd: int, registry: seq<PollingEntry>)

  datatype PassResult = PassResult(after: Loop, calls: seq<Call>)

  /** The `for` loop over the cached slots, from slot `i` and callback number `k` on. */
  ghost function Pass(l: Loop, i: nat, beh: Behaviour, k: nat): (r: PassResult)
    requires Ok(l)
    ensures Ok(r.after) && |r.after.mux.fds| == |l.mux.fds|
    decreases |l.mux.fds| - i
  {
    if i >= |l.mux.fds| then PassResult(l, [])
    else if l.mux.fds[i].revents == 0 then Pass(l, i + 1, beh, k)
    else
      assert MuxState.SlotOk(l.mux, i);
      var call := Call(i, l.mux.hdls[i].value, l.mux.fds[i].fd, l.mux.registry);
      ApplyAllOk(l, beh(k));
      var l1 := ApplyAll(l, beh(k)).after;
      if !l1.mux.run then PassResult(l1, [call])
      else
        var r := Pass(l1, i + 1, beh, k + 1);
        PassResult(r.after, [call] + r.calls)
  }

  /** What remains of a pass after `calls`, from slot `i` on, leads to the result `goal`. */
  ghost predicate PassPending(goal: PassResult, calls: seq<Call>, l: Loop, i: nat, beh: Behaviour) {
    && Ok(l)
    && goal.after == Pass(l, i, beh, |calls|).after
    && goal.calls == calls + Pass(l, i, beh, |calls|).calls
  }

  function CallAt(l: Loop, i: nat): Call
    requires i < |l.mux.fds| == |l.mux.hdls| && l.mux.hdls[i].Some?
  {
    Call(i, l.mux.hdls[i].value, l.mux.fds[i].fd, l.mux.registry)
  }

  /** One unfolding of the dispatch loop: a ready slot is never empty. */
  lemma PassStep(l: Loop, i: nat, beh: Behaviour, k: nat)
    requires Ok(l) && i < |l.mux.fds|
    ensures l.mux.fds[i].revents == 0 ==> Pass(l, i, beh, k) == Pass(l, i + 1, beh, k)
    ensures l.mux.fds[i].revents != 0 ==> l.mux.hdls[i].Some? && Ok(ApplyAll(l, beh(k)).after)
    ensures l.mux.fds[i].revents != 0 ==>
              var l1 := ApplyAll(l, beh(k)).after;
              Pass(l, i, beh, k) ==
                if l1.mux.run
                then PassResult(Pass(l1, i + 1, beh, k + 1).after, [CallAt(l, i)] + Pass(l1, i + 1, beh, k + 1).calls)
                else PassResult(l1, [CallAt(l, i)])
  {
    assert MuxState.SlotOk(l.mux, i);
    ApplyAllOk(l, beh(k));
  }

  lemma PassPendingSkip(goal: PassResult, calls: seq<Call>, l: Loop, i: nat, beh: Behaviour)
    requires PassPending(goal, calls, l, i, beh) && i < |l.mux.fds| && l.mux.fds[i].revents == 0
    ensures PassPending(goal, calls, l, i + 1, beh)
  {
    PassStep(l, i, beh, |calls|);
  }

  lemma PassPendingStep(goal: PassResult, calls: seq<Call>, l: Loop, i: nat, beh: Behaviour)
    requires PassPending(goal, calls, l, i, beh) && i < |l.mux.fds| && l.mux.fds[i].revents != 0
    ensures l.mux.hdls[i].Some?
    ensures var l1 := ApplyAll(l, beh(|calls|)).after;
            var calls1 := calls + [CallAt(l, i)];
            if l1.mux.run then PassPending(goal, calls1, l1, i + 1, beh) else goal == PassResult(l1, calls1)
  {
    var k := |calls|;
    PassStep(l, i, beh, k);
    var l1 := ApplyAll(l, beh(k)).after;
    var calls1 := calls + [CallAt(l, i)];
    assert |calls1| == k + 1;
    if l1.mux.run {
      PassGlue(goal, calls, Pass(l, i, beh, k), CallAt(l, i), Pass(l1, i + 1, beh, |calls1|));
    }
  }

  lemma PassGlue(goal: PassResult, calls: seq<Call>, p: PassResult, call: Call, rest: PassResult)
    requires goal.after == p.after && goal.calls == calls + p.calls
    requires p == PassResult(rest.after, [call] + rest.calls)
    ensures goal.after == rest.after && goal.calls == (calls + [call]) + rest.calls
  {}

  /** How one callback may change the cached slots: a slot stays as it was, or is emptied and loses
      its pending events; the latter only if the callback unregistered the handler. */
  ghost predicate SlotsShrink(m: Mux, m': Mux, ops: seq<Op>) {
    && |m.fds| == |m.hdls| == |m'.fds| == |m'.hdls|
    && forall i :: 0 <= i < |m.hdls| ==>
         || (m'.hdls[i] == m.hdls[i] && m'.fds[i] == m.fds[i])
         || (m'.hdls[i] == None && m'.fds[i].revents == 0 && m'.fds[i].fd == m.fds[i].fd
             && m.hdls[i].Some? && Unreg(m.hdls[i].value) in ops)
  }

  lemma {:induction false} ApplyAllShrinks(l: Loop, ops: seq<Op>)
    requires Ok(l)
    ensures SlotsShrink(l.mux, ApplyAll(l, ops).after.mux, ops)
    decreases ops
  {
    if ops != [] {
      var e := Apply(l, ops[0]);
      ApplyOk(l, ops[0]);
      if ops[0].Unreg? { MuxState.ClearSlotSlots(l.mux, ops[0].handler); }
      assert SlotsShrink(l.mux, e.after.mux, [ops[0]]) by {
        assert [ops[0]][0] == ops[0];
      }
      ApplyAllShrinks(e.after, ops[1..]);
      assert forall op :: op in ops[1..] || op in [ops[0]] ==> op in ops;
    }
  }

  ghost predicate CallOk(m: Mux, from: nat, c: Call) {
    && |m.fds| == |m.hdls|
    && from <= c.slot < |m.fds|
    && m.fds[c.slot].revents != 0
    && m.hdls[c.slot] == Some(c.handler)
    && m.fds[c.slot].fd == c.fd
    && MuxState.Registered(c.registry, c.handler)
  }

  /** Every call is in order, and they visit the slots from `from` on in increasing order. */
  ghost predicate CallsOk(m: Mux, from: nat, calls: seq<Call>) {
    && (forall n :: 0 <= n < |calls| ==> CallOk(m, from, calls[n]))
    && (forall n, n' :: 0 <= n < n' < |calls| ==> calls[n].slot < calls[n'].slot)
  }

  lemma CallsOkWeaken(m: Mux, m': Mux, from: nat, from': nat, calls: seq<Call>, ops: seq<Op>)
    requires CallsOk(m', from', calls) && from <= from' && SlotsShrink(m, m', ops)
    ensures CallsOk(m, from, calls)
  {
    forall n | 0 <= n < |calls| ensures CallOk(m, from, calls[n]) {
      assert CallOk(m', from', calls[n]);
    }
  }

  lemma ReadyCall(m: Mux, i: nat)
    requires MuxState.Ok(m) && i < |m.fds| && m.fds[i].revents != 0
    ensures m.hdls[i].Some? && CallOk(m, i, Call(i, m.hdls[i].value, m.fds[i].fd, m.registry))
  {
    assert MuxState.SlotOk(m, i);
  }

  lemma CallsOkCons(m: Mux, i: nat, call: Call, rest: seq<Call>)
    requires CallOk(m, i, call) && call.slot == i && CallsOk(m, i + 1, rest)
    ensures CallsOk(m, i, [call] + rest)
  {
    forall n | 0 <= n < |rest| ensures CallOk(m, i, rest[n]) && i < rest[n].slot {
      assert CallOk(m, i + 1, rest[n]);
    }
  }

  /** Each call of a pass goes to the handler of a slot that was ready when the pass began, with
      that slot's descriptor, and the handler is registered at that moment; slots are visited in
      increasing order. So nothing unregistered, deleted or registered meanwhile is ever called. */
  lemma {:induction false} PassCallsRegistered(l: Loop, i: nat, beh: Behaviour, k: nat)
    requires Ok(l)
    ensures CallsOk(l.mux, i, Pass(l, i, beh, k).calls)
    decreases |l.mux.fds| - i
  {
    if i < |l.mux.fds| {
      if l.mux.fds[i].revents == 0 {
        PassCallsRegistered(l, i + 1, beh, k);
        CallsOkWeaken(l.mux, l.mux, i, i + 1, Pass(l, i + 1, beh, k).calls, []);
      } else {
        PassStep(l, i, beh, k);
        ReadyCall(l.mux, i);
        var l1 := ApplyAll(l, beh(k)).after;
        if l1.mux.run {
          PassCallsRegistered(l1, i + 1, beh, k + 1);
          ApplyAllShrinks(l, beh(k));
          var rest := Pass(l1, i + 1, beh, k + 1).calls;
          CallsOkWeaken(l.mux, l1.mux, i + 1, i + 1, rest, beh(k));
          CallsOkCons(l.mux, i, CallAt(l, i), rest);
        }
      }
    }
  }

  /** A slot that was ready is missing from the calls only if an earlier callback of the pass
      unregistered its handler, or the pass was cut short by quit before it was reached. */
  ghost predicate Excused(m: Mux, r: PassResult, beh: Behaviour, k: nat, s: nat)
    requires |m.fds| == |m.hdls| && s < |m.fds|
  {
    || (m.hdls[s].Some? && exists n :: 0 <= n < |r.calls| && r.calls[n].slot < s
                                    && Unreg(m.hdls[s].value) in beh(k + n))
    || (!r.after.mux.run && r.calls != [] && r.calls[|r.calls| - 1].slot < s)
  }

  lemma {:induction false} PassCoversReady(l: Loop, i: nat, beh: Behaviour, k: nat, s: nat)
    requires Ok(l) && i <= s < |l.mux.fds| && l.mux.fds[s].revents != 0
    ensures var r := Pass(l, i, beh, k);
            (exists n :: 0 <= n < |r.calls| && r.calls[n].slot == s) || Excused(l.mux, r, beh, k, s)
    decreases |l.mux.fds| - i
  {
    var r := Pass(l, i, beh, k);
    if l.mux.fds[i].revents == 0 {
      PassCoversReady(l, i + 1, beh, k, s);
    } else {
      assert MuxState.SlotOk(l.mux, i);
      ApplyAllOk(l, beh(k));
      ApplyAllShrinks(l, beh(k));
      var l1 := ApplyAll(l, beh(k)).after;
      assert r.calls[0].slot == i;
      if i < s && l1.mux.run {
        if l1.mux.hdls[s] == l.mux.hdls[s] && l1.mux.fds[s] == l.mux.fds[s] {
          PassCoversReady(l1, i + 1, beh, k + 1, s);
          CoverShift(l, l1, i, beh, k, s, Pass(l1, i + 1, beh, k + 1), r);
        } else {
          assert Unreg(l.mux.hdls[s].value) in beh(k + 0);
        }
      }
    }
  }

  lemma CoverShift(l: Loop, l1: Loop, i: nat, beh: Behaviour, k: nat, s: nat, r1: PassResult, r: PassResult)
    requires |l.mux.fds| == |l.mux.hdls| == |l1.mux.fds| == |l1.mux.hdls| && s < |l.mux.fds|
    requires l1.mux.hdls[s] == l.mux.hdls[s]
    requires r.after == r1.after && |r.calls| == |r1.calls| + 1 && r.calls[1..] == r1.calls
    requires (exists n :: 0 <= n < |r1.calls| && r1.calls[n].slot == s) || Excused(l1.mux, r1, beh, k + 1, s)
    ensures (exists n :: 0 <= n < |r.calls| && r.calls[n].slot == s) || Excused(l.mux, r, beh, k, s)
  {
    if n :| 0 <= n < |r1.calls| && r1.calls[n].slot == s {
      assert r.calls[n + 1].slot == s;
    } else if l1.mux.hdls[s].Some? && exists n :: 0 <= n < |r1.calls| && r1.calls[n].slot < s
                                                  && Unreg(l1.mux.hdls[s].value) in beh(k + 1 + n) {
      var n :| 0 <= n < |r1.calls| && r1.calls[n].slot < s && Unreg(l1.mux.hdls[s].value) in beh(k + 1 + n);
      assert r.calls[n + 1] == r1.calls[n] && k + 1 + n == k + (n + 1);
    } else {
      assert r.calls[|r.calls| - 1] == r1.calls[|r1.calls| - 1];
    }
  }

  lemma ApplyRun(l: Loop, op: Op)
    requires |l.mux.fds| == |l.mux.hdls|
    ensures Apply(l, op).after.mux.run == (l.mux.run && op != Quit)
  {}

  lemma QuitInTail(ops: seq<Op>)
    requires ops != []
    ensures Quit in ops <==> ops[0] == Quit || Quit in ops[1..]
  {
    assert ops == [ops[0]] + ops[1..];
  }

  lemma {:induction false} ApplyAllRun(l: Loop, ops: seq<Op>)
    requires |l.mux.fds| == |l.mux.hdls|
    ensures ApplyAll(l, ops).after.mux.run == (l.mux.run && Quit !in ops)
    decreases ops
  {
    if ops != [] {
      ApplyRun(l, ops[0]);
      QuitInTail(ops);
      ApplyAllRun(Apply(l, ops[0]).after, ops[1..]);
    }
  }

  /** The n-th callback after number `k` calls shall_quit. */
  ghost predicate QuitsAt(beh: Behaviour, k: nat, n: nat) {
    Quit in beh(k + n)
  }

  /** Only the last callback of a pass may have called shall_quit, and then the loop stops. */
  ghost predicate QuitIsLast(r: PassResult, beh: Behaviour, k: nat) {
    && (forall n :: 0 <= n < |r.calls| && QuitsAt(beh, k, n) ==> n == |r.calls| - 1 && !r.after.mux.run)
    && (!r.after.mux.run ==> r.calls != [] && QuitsAt(beh, k, |r.calls| - 1))
  }

  lemma QuitIsLastShift(r: PassResult, r1: PassResult, beh: Behaviour, k: nat)
    requires QuitIsLast(r1, beh, k + 1) && !QuitsAt(beh, k, 0)
    requires r.after == r1.after && |r.calls| == |r1.calls| + 1
    ensures QuitIsLast(r, beh, k)
  {
    forall n | 0 <= n < |r.calls| && QuitsAt(beh, k, n) ensures n == |r.calls| - 1 && !r.after.mux.run {
      assert n > 0 && QuitsAt(beh, k + 1, n - 1);
    }
    if !r.after.mux.run {
      assert QuitsAt(beh, k + 1, |r1.calls| - 1);
      assert QuitsAt(beh, k, |r.calls| - 1);
    }
  }

  lemma QuitIsLastSingle(r: PassResult, beh: Behaviour, k: nat)
    requires |r.calls| == 1 && !r.after.mux.run && QuitsAt(beh, k, 0)
    ensures QuitIsLast(r, beh, k)
  {}

  /** The first call of the pass, and the pass that remains. */
  lemma QuitIsLastStep(l: Loop, i: nat, beh: Behaviour, k: nat)
    requires Ok(l) && l.mux.run && i < |l.mux.fds| && l.mux.fds[i].revents != 0
    requires var l1 := ApplyAll(l, beh(k)).after;
             Ok(l1) && (l1.mux.run ==> QuitIsLast(Pass(l1, i + 1, beh, k + 1), beh, k + 1))
    ensures QuitIsLast(Pass(l, i, beh, k), beh, k)
  {
    var l1 := ApplyAll(l, beh(k)).after;
    PassStep(l, i, beh, k);
    ApplyAllRun(l, beh(k));
    assert QuitsAt(beh, k, 0) == (Quit in beh(k));
    if l1.mux.run {
      QuitIsLastShift(Pass(l, i, beh, k), Pass(l1, i + 1, beh, k + 1), beh, k);
    } else {
      QuitIsLastSingle(Pass(l, i, beh, k), beh, k);
    }
  }

  /** A handler that calls shall_quit is the last one of its pass. */
  lemma {:induction false} PassStopsAtQuit(l: Loop, i: nat, beh: Behaviour, k: nat)
    requires Ok(l) && l.mux.run
    ensures QuitIsLast(Pass(l, i, beh, k), beh, k)
    decreases |l.mux.fds| - i
  {
    if i < |l.mux.fds| {
      PassStep(l, i, beh, k);
      if l.mux.fds[i].revents == 0 {
        PassStopsAtQuit(l, i + 1, beh, k);
      } else {
        var l1 := ApplyAll(l, beh(k)).after;
        ApplyAllOk(l, beh(k));
        if l1.mux.run { PassStopsAtQuit(l1, i + 1, beh, k + 1); }
        QuitIsLastStep(l, i, beh, k);
      }
    }
  }

  /** A handler that a callback unregisters is in no slot any more, even if it is registered again. */
  lemma {:induction false} ApplyAllClears(l: Loop, ops: seq<Op>, h: Addr)
    requires Ok(l) && Unreg(h) in ops
    ensures Some(h) !in ApplyAll(l, ops).after.mux.hdls
    decreases ops
  {
    var e := Apply(l, ops[0]);
    ApplyOk(l, ops[0]);
    if ops[0] == Unreg(h) {
      MuxState.UnregisterOk(l.mux, h);
      ApplyAllShrinks(e.after, ops[1..]);
    } else {
      ApplyAllClears(e.after, ops[1..], h);
    }
  }

  /** The n-th callback after number `k` unregisters the handler. */
  ghost predicate UnregistersAt(beh: Behaviour, k: nat, n: nat, h: Addr) {
    Unreg(h) in beh(k + n)
  }

  /** No call goes to a handler that an earlier callback of the pass has unregistered. */
  ghost predicate NoneUnregistered(calls: seq<Call>, beh: Behaviour, k: nat) {
    forall n, m :: 0 <= n < m < |calls| ==> !UnregistersAt(beh, k, n, calls[m].handler)
  }

  lemma NoneUnregisteredShift(call: Call, rest: seq<Call>, beh: Behaviour, k: nat)
    requires NoneUnregistered(rest, beh, k + 1)
    requires forall m :: 0 <= m < |rest| ==> Unreg(rest[m].handler) !in beh(k)
    ensures NoneUnregistered([call] + rest, beh, k)
  {
    var calls := [call] + rest;
    forall n, m | 0 <= n < m < |calls| ensures !UnregistersAt(beh, k, n, calls[m].handler) {
      assert calls[m] == rest[m - 1];
      if n > 0 { assert !UnregistersAt(beh, k + 1, n - 1, rest[m - 1].handler); }
    }
  }

  /** After a callback, the rest of the pass calls no handler that it has unregistered. */
  lemma LaterNotUnregistered(l: Loop, ops: seq<Op>, i: nat, beh: Behaviour, k: nat)
    requires Ok(l)
    ensures var l1 := ApplyAll(l, ops).after;
            && Ok(l1)
            && forall m :: 0 <= m < |Pass(l1, i, beh, k).calls| ==>
                 Unreg(Pass(l1, i, beh, k).calls[m].handler) !in ops
  {
    ApplyAllOk(l, ops);
    var l1 := ApplyAll(l, ops).after;
    PassCallsRegistered(l1, i, beh, k);
    var calls := Pass(l1, i, beh, k).calls;
    forall m | 0 <= m < |calls| ensures Unreg(calls[m].handler) !in ops {
      assert CallOk(l1.mux, i, calls[m]);
      if Unreg(calls[m].handler) in ops { ApplyAllClears(l, ops, calls[m].handler); }
    }
  }

  lemma {:induction false} PassNoneUnregistered(l: Loop, i: nat, beh: Behaviour, k: nat)
    requires Ok(l)
    ensures NoneUnregistered(Pass(l, i, beh, k).calls, beh, k)
    decreases |l.mux.fds| - i
  {
    if i < |l.mux.fds| {
      PassStep(l, i, beh, k);
      if l.mux.fds[i].revents == 0 {
        PassNoneUnregistered(l, i + 1, beh, k);
      } else {
        var l1 := ApplyAll(l, beh(k)).after;
        if l1.mux.run {
          PassNoneUnregistered(l1, i + 1, beh, k + 1);
          LaterNotUnregistered(l, beh(k), i + 1, beh, k + 1);
          NoneUnregisteredShift(CallAt(l, i), Pass(l1, i + 1, beh, k + 1).calls, beh, k);
        }
      }
    }
  }

  /** One pass over the ready slots, exactly once: the calls go to distinct handlers, each registered
      when called and not unregistered earlier in the pass, in slot order; a ready slot is skipped only
      when an earlier callback of the same pass unregistered its handler or quit. */
  lemma DispatchExactlyOnce(l: Loop, beh: Behaviour)
    requires Ok(l)
    ensures var r := Pass(l, 0, beh, 0);
            && Ok(r.after)
            && CallsOk(l.mux, 0, r.calls)
            && (forall n, m :: 0 <= n < m < |r.calls| ==> r.calls[n].handler != r.calls[m].handler)
            && NoneUnregistered(r.calls, beh, 0)
            && (forall s: nat :: s < |l.mux.fds| && l.mux.fds[s].revents != 0 ==>
                  (exists n :: 0 <= n < |r.calls| && r.calls[n].slot == s) || Excused(l.mux, r, beh, 0, s))
  {
    PassCallsRegistered(l, 0, beh, 0);
    PassNoneUnregistered(l, 0, beh, 0);
    var r := Pass(l, 0, beh, 0);
    forall s: nat | s < |l.mux.fds| && l.mux.fds[s].revents != 0
      ensures (exists n :: 0 <= n < |r.calls| && r.calls[n].slot == s) || Excused(l.mux, r, beh, 0, s)
    {
      PassCoversReady(l, 0, beh, 0, s);
    }
    forall n, m | 0 <= n < m < |r.calls| ensures r.calls[n].handler != r.calls[m].handler {
      assert CallOk(l.mux, 0, r.calls[n]) && CallOk(l.mux, 0, r.calls[m]);
    }
  }
}
