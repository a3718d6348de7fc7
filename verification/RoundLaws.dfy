/** What one call of TimerManager::run and one round of Multiplexer::run achieve, told by the lists before and
    after: which timers fire and what becomes of the others, which handlers are called, how long poll() waits. */
module RoundLaws {
  import opened Common
  import opened Timespecs
  import opened TimerList
  import opened LoopState
  import opened Rounds
  import LR = LoopRun
  import MuxState

  // ---- what the callbacks ask for ----

  /** A call of the callback that takes such a timer off the list. */
  predicate Deletes(ops: seq<Op>, t: Timer) {
    DelTimer(t.id) in ops || DelCallback(t.cb) in ops
  }

  /** A call of the callback that makes this timer, with a clock that can be read. */
  predicate Creates(ops: seq<Op>, t: Timer) {
    exists i :: 0 <= i < |ops| && Makes(ops[i], t)
  }

  predicate Makes(op: Op, t: Timer) {
    && op.Create? && op.clock.Some?
    && t.id == op.id && t.cb == op.cb && t.param == op.param && t.due == DueTime(op.clock.value, op.interval)
  }

  /** One of `n` callbacks from number `k` on asks for the deletion. */
  ghost predicate DeletedBy(beh: Behaviour, k: nat, n: nat, t: Timer) {
    exists m :: k <= m < k + n && Deletes(beh(m), t)
  }

  ghost predicate CreatedBy(beh: Behaviour, k: nat, n: nat, t: Timer) {
    exists m :: k <= m < k + n && Creates(beh(m), t)
  }

  /** A deletion by callback takes off all timers with that callback; one by address takes off one timer with
      that address, if there is any. What is taken off is no longer there. */
  lemma DeletionsDelete(l: Loop, op: Op)
    requires |l.mux.fds| == |l.mux.hdls|
    ensures op.DelCallback? ==>
              && (forall t :: t in Apply(l, op).deleted <==> t in l.timers && t.cb == op.cb)
              && (forall t :: t in Apply(l, op).after.timers <==> t in l.timers && t.cb != op.cb)
    ensures op.DelTimer? && HasId(l.timers, op.id) ==>
              |Apply(l, op).deleted| == 1 && Apply(l, op).deleted[0].id == op.id && Apply(l, op).deleted[0] in l.timers
    ensures multiset(l.timers) + multiset(Apply(l, op).created)
            == multiset(Apply(l, op).after.timers) + multiset(Apply(l, op).deleted)
  {
    ApplyConserves(l, op);
    if op.DelCallback? { SelectSplits(l.timers, op.cb); }
  }

  lemma ApplyNames(l: Loop, op: Op, t: Timer)
    requires |l.mux.fds| == |l.mux.hdls|
    ensures t in Apply(l, op).deleted ==> Deletes([op], t)
    ensures t in Apply(l, op).created <==> Makes(op, t)
  {
    if op.DelCallback? { SelectSplits(l.timers, op.cb); }
  }

  lemma {:induction false} ApplyAllNames(l: Loop, ops: seq<Op>, t: Timer)
    requires |l.mux.fds| == |l.mux.hdls|
    ensures t in ApplyAll(l, ops).deleted ==> Deletes(ops, t)
    ensures t in ApplyAll(l, ops).created <==> Creates(ops, t)
    decreases ops
  {
    if ops != [] {
      var e := Apply(l, ops[0]);
      ApplyNames(l, ops[0], t);
      ApplyAllNames(e.after, ops[1..], t);
      assert ops == [ops[0]] + ops[1..];
      if Creates(ops[1..], t) {
        var i :| 0 <= i < |ops[1..]| && Makes(ops[1..][i], t);
        assert Makes(ops[i + 1], t);
      }
      if Creates(ops, t) && !Makes(ops[0], t) {
        var i :| 0 <= i < |ops| && Makes(ops[i], t);
        assert Makes(ops[1..][i - 1], t);
      }
    }
  }

  /** The journal of a timer pass holds exactly what its callbacks have created, and nothing deleted that none of
      them asked for. */
  lemma {:induction false} FireDueNames(l: Loop, now: Timespec, beh: Behaviour, k: nat, t: Timer)
    requires |l.mux.fds| == |l.mux.hdls| && AllLater(beh, k, now)
    ensures var j := FireDue(l, now, beh, k);
            && (t in j.deleted ==> DeletedBy(beh, k, |j.fired|, t))
            && (t in j.created <==> CreatedBy(beh, k, |j.fired|, t))
    decreases |Due(l.timers, now)|
  {
    if l.timers != [] && !Less(now, l.timers[0].due) {
      var popped := l.(timers := l.timers[1..]);
      var e := ApplyAll(popped, beh(k));
      ApplyAllDue(popped, beh(k), now);
      ApplyAllNames(popped, beh(k), t);
      FireDueNames(e.after, now, beh, k + 1, t);
      NamesStep(beh, k, |FireDue(e.after, now, beh, k + 1).fired|, t);
    }
  }

  lemma NamesStep(beh: Behaviour, k: nat, n: nat, t: Timer)
    ensures DeletedBy(beh, k, n + 1, t) <==> Deletes(beh(k), t) || DeletedBy(beh, k + 1, n, t)
    ensures CreatedBy(beh, k, n + 1, t) <==> Creates(beh(k), t) || CreatedBy(beh, k + 1, n, t)
  {
    if m :| k <= m < k + n + 1 && Deletes(beh(m), t) {
      assert m == k || (k + 1 <= m < k + 1 + n && Deletes(beh(m), t));
    }
    if m :| k <= m < k + n + 1 && Creates(beh(m), t) {
      assert m == k || (k + 1 <= m < k + 1 + n && Creates(beh(m), t));
    }
    if DeletedBy(beh, k + 1, n, t) {
      var m :| k + 1 <= m < k + 1 + n && Deletes(beh(m), t);
      assert k <= m < k + (n + 1) && Deletes(beh(m), t);
    }
    if CreatedBy(beh, k + 1, n, t) {
      var m :| k + 1 <= m < k + 1 + n && Creates(beh(m), t);
      assert k <= m < k + (n + 1) && Creates(beh(m), t);
    }
    assert k <= k < k + (n + 1);
  }

  // ---- TimerManager::run ----

  /** The list `before`, the timers `fired` at the time `now`, and the list `after`. What fires is due, in list
      order, and never more often than it was there; a due timer fires as often as it was there, unless a
      callback that ran has asked for its deletion; everything left is due later. A timer that was not due, or
      was created by a callback that ran, is left, unless such a callback has asked for its deletion; and
      nothing else is left. */
  ghost predicate FiresDue(before: seq<Timer>, fired: seq<Timer>, after: seq<Timer>, now: Timespec, beh: Behaviour) {
    && Subsequence(fired, before) && Sorted(fired)
    && (forall t :: t in fired ==> !Less(now, t.due))
    && (forall t :: t in after ==> Less(now, t.due))
    && (forall t :: multiset(fired)[t] <= multiset(before)[t])
    && (forall t :: t in before && !Less(now, t.due) && !DeletedBy(beh, 0, |fired|, t) ==>
          multiset(fired)[t] == multiset(before)[t])
    && (forall t :: t in before && Less(now, t.due) && !DeletedBy(beh, 0, |fired|, t) ==> t in after)
    && (forall t :: CreatedBy(beh, 0, |fired|, t) && !DeletedBy(beh, 0, |fired|, t) ==> t in after)
    && (forall t :: t in after ==> t in before || CreatedBy(beh, 0, |fired|, t))
  }

  /** How often a timer is where. */
  lemma Accounted(before: seq<Timer>, j: Journal, now: Timespec, t: Timer)
    requires Balanced(before, j.created, j.after.timers, j.fired, j.deleted)
    ensures multiset(before)[t] + multiset(j.created)[t]
            == multiset(j.after.timers)[t] + multiset(j.fired)[t] + multiset(j.deleted)[t]
  {
    assert (multiset(before) + multiset(j.created))[t]
        == (multiset(j.after.timers) + (multiset(j.fired) + multiset(j.deleted)))[t];
  }

  lemma FireDueIsExact(l: Loop, now: Timespec, beh: Behaviour)
    requires Ok(l) && AllLater(beh, 0, now)
    ensures var j := FireDue(l, now, beh, 0); FiresDue(l.timers, j.fired, j.after.timers, now, beh)
  {
    var j := FireDue(l, now, beh, 0);
    TimersFireExactlyOnce(l, now, beh);
    FireDueConserves(l, now, beh, 0);
    FireDueFires(l, now, beh, 0);
    forall t: Timer
      ensures multiset(j.fired)[t] <= multiset(l.timers)[t]
      ensures t in l.timers && !Less(now, t.due) && !DeletedBy(beh, 0, |j.fired|, t) ==>
                multiset(j.fired)[t] == multiset(l.timers)[t]
      ensures t in l.timers && Less(now, t.due) && !DeletedBy(beh, 0, |j.fired|, t) ==> t in j.after.timers
      ensures CreatedBy(beh, 0, |j.fired|, t) && !DeletedBy(beh, 0, |j.fired|, t) ==> t in j.after.timers
      ensures t in j.after.timers ==> t in l.timers || CreatedBy(beh, 0, |j.fired|, t)
    {
      FireDueNames(l, now, beh, 0, t);
      Accounted(l.timers, j, now, t);
      AtMostAsOften(l.timers, j, now, t);
    }
  }

  lemma AtMostAsOften(before: seq<Timer>, j: Journal, now: Timespec, t: Timer)
    requires Balanced(before, j.created, j.after.timers, j.fired, j.deleted)
    requires t in j.fired ==> IsDue(t, now)
    requires t in j.created ==> !IsDue(t, now)
    ensures multiset(j.fired)[t] <= multiset(before)[t]
  {
    Accounted(before, j, now, t);
  }

  /** TimerManager::run. With a clock it fires what is due and leaves the rest; without one, or without timers, it
      does nothing. */
  lemma RunTimersIsExact(l: Loop, clock: Option<Timespec>, beh: Behaviour)
    requires Ok(l) && (clock.Some? ==> AllLater(beh, 0, clock.value))
    ensures var j := RunTimers(l, clock, beh);
            && (clock.Some? ==> FiresDue(l.timers, j.fired, j.after.timers, clock.value, beh))
            && (clock.None? || l.timers == [] ==> j.fired == [] && j.after == l)
  {
    if clock.Some? { FireDueIsExact(l, clock.value, beh); }
  }

  // ---- one round of Multiplexer::run ----

  /** The timer part of a round leads to `mid`: with a clock, what is due has fired and nothing due is left;
      without one nothing has. Then the handlers are called, if poll() has reported events. */
  lemma RoundFires(l: Loop, env: LR.Env) returns (mid: Loop)
    requires Ok(l) && LR.EnvOk(env)
    ensures Ok(mid)
    ensures env.runClock.Some? ==>
              FiresDue(l.timers, LR.Round(l, env).1.fired, mid.timers, env.runClock.value, env.timers)
    ensures env.runClock.None? ==> LR.Round(l, env).1.fired == [] && mid.timers == l.timers
    ensures PassResult(LR.Round(l, env).0, LR.Round(l, env).1.calls)
            == if env.err > 0 then Pass(mid, 0, env.handlers, 0) else PassResult(mid, [])
  {
    LR.PolledRound(l, env);
    var l1 := LR.Prepared(l, env);
    var l2 := l1.(mux := MuxState.Polled(l1.mux, env.err, env.revents));
    RunTimersIsExact(l2, env.runClock, env.timers);
    LR.RunTimersOk(l2, env.runClock, env.timers);
    mid := RunTimers(l2, env.runClock, env.timers).after;
  }

  /** How long poll() is to wait: for ever without timers or without clock; until the first timer is due, to one
      millisecond, if its delay fits `int`; not at all once it is due, unless that is more than 2^31
      milliseconds ago. */
  ghost predicate WaitsFor(ts: seq<Timer>, clock: Option<Timespec>, timeout: int) {
    && (ts == [] || clock.None? ==> timeout == -1)
    && (ts != [] && clock.Some? && ts[0].due.Normal() && clock.value.Normal() ==>
          var due, now := ts[0].due, clock.value;
          && (Less(now, due) && Delay(due, now) <= INT32_MAX ==> LR.Accurate(due, now, timeout))
          && (!Less(now, due) && -Delay(due, now) <= 0x8000_0000 ==> timeout == 0))
  }

  lemma TimeoutWaits(ts: seq<Timer>, clock: Option<Timespec>)
    ensures WaitsFor(ts, clock, LR.Timeout(ts, clock))
  {
    if ts != [] && clock.Some? && ts[0].due.Normal() && clock.value.Normal() {
      LR.TimeoutAccurateIff(ts, clock.value);
      DelayAccuracy(ts[0].due, clock.value);
    }
  }

  /** The round waits for the first of its timers. */
  lemma RoundWaits(l: Loop, env: LR.Env)
    requires Ok(l) && LR.EnvOk(env)
    ensures WaitsFor(l.timers, env.nextClock, LR.Round(l, env).1.timeout)
  {
    TimeoutWaits(l.timers, env.nextClock);
    LR.PolledRound(l, env);
  }

  /** The slot is as it was, or a callback has unregistered its handler. */
  ghost predicate SlotSince(m: Mux, m': Mux, i: nat, beh: Behaviour, k: nat, n: nat)
    requires i < |m.fds| == |m.hdls| == |m'.fds| == |m'.hdls|
  {
    || (m'.hdls[i] == m.hdls[i] && m'.fds[i] == m.fds[i])
    || (m'.hdls[i] == None && m'.fds[i].revents == 0 && m.hdls[i].Some? && UnregisteredBy(beh, k, n, m.hdls[i].value))
  }

  ghost predicate UnregisteredBy(beh: Behaviour, k: nat, n: nat, h: Addr) {
    exists m :: k <= m < k + n && Unreg(h) in beh(m)
  }

  lemma {:induction false} TurnsKeepSlot(l: Loop, now: Timespec, beh: Behaviour, k: nat, n: nat, i: nat)
    requires Ok(l) && i < |l.mux.fds|
    ensures var e := AfterFirings(l, now, beh, k, n);
            |e.mux.fds| == |e.mux.hdls| == |l.mux.fds| && SlotSince(l.mux, e.mux, i, beh, k, n)
    decreases n
  {
    if n > 0 && l.timers != [] && !Less(now, l.timers[0].due) {
      var popped := l.(timers := l.timers[1..]);
      var l1 := ApplyAll(popped, beh(k)).after;
      ApplyAllOk(popped, beh(k));
      ApplyAllShrinks(popped, beh(k));
      TurnsKeepSlot(l1, now, beh, k + 1, n - 1, i);
      if l1.mux.hdls[i] == l.mux.hdls[i] {
        if h :| l.mux.hdls[i] == Some(h) && UnregisteredBy(beh, k + 1, n - 1, h) {
          var m :| k + 1 <= m < k + 1 + (n - 1) && Unreg(h) in beh(m);
          assert k <= m < k + n && Unreg(h) in beh(m);
        }
      } else {
        assert k <= k < k + n && Unreg(l.mux.hdls[i].value) in beh(k);
      }
    }
  }

  ghost predicate NeverQuits(beh: Behaviour) {
    forall k :: Quit !in beh(k)
  }

  lemma {:induction false} TurnsKeepRunning(l: Loop, now: Timespec, beh: Behaviour, k: nat, n: nat)
    requires |l.mux.fds| == |l.mux.hdls| && NeverQuits(beh)
    ensures AfterFirings(l, now, beh, k, n).mux.run == l.mux.run
    decreases n
  {
    if n > 0 && l.timers != [] && !Less(now, l.timers[0].due) {
      var popped := l.(timers := l.timers[1..]);
      ApplyAllRun(popped, beh(k));
      TurnsKeepRunning(ApplyAll(popped, beh(k)).after, now, beh, k + 1, n - 1);
    }
  }

  /** The loop when the handlers' turn comes. */
  ghost function AtDispatch(l: Loop, env: LR.Env, turns: nat): Loop
    requires Ok(l)
  {
    LR.PolledRound(l, env);
    var l1 := LR.Prepared(l, env);
    LR.TimerTurns(l1.(mux := MuxState.Polled(l1.mux, env.err, env.revents)), env.runClock, env.timers, turns)
  }

  lemma RoundDispatches(l: Loop, env: LR.Env, turns: nat)
    requires Ok(l)
    ensures var mid := AtDispatch(l, env, turns);
            && Ok(mid) && |mid.mux.hdls| == |MuxState.Active(l.mux.registry)|
            && LR.AnyRound(l, env, turns)
               == (if env.err > 0 then Pass(mid, 0, env.handlers, 0) else PassResult(mid, []))
            && (l.mux.run && NeverQuits(env.timers) ==> mid.mux.run)
  {
    LR.PolledRound(l, env);
    LR.PreparedOk(l, env);
    var l1 := LR.Prepared(l, env);
    var l2 := l1.(mux := MuxState.Polled(l1.mux, env.err, env.revents));
    LR.TimerTurnsOk(l2, env.runClock, env.timers, turns);
    if env.runClock.Some? {
      TurnsKeepLength(l2, env.runClock.value, env.timers, 0, turns);
      if NeverQuits(env.timers) {
        TurnsKeepRunning(l2, env.runClock.value, env.timers, 0, turns);
      }
    }
  }

  lemma {:induction false} TurnsKeepLength(l: Loop, now: Timespec, beh: Behaviour, k: nat, n: nat)
    requires |l.mux.fds| == |l.mux.hdls|
    ensures |AfterFirings(l, now, beh, k, n).mux.hdls| == |l.mux.hdls|
    decreases n
  {
    if n > 0 && l.timers != [] && !Less(now, l.timers[0].due) {
      TurnsKeepLength(ApplyAll(l.(timers := l.timers[1..]), beh(k)).after, now, beh, k + 1, n - 1);
    }
  }

  /** Slot `i` then still stands for the i-th polled entry, with the events poll() has returned for it, unless a
      timer callback has unregistered that handler. */
  lemma SlotAtDispatch(l: Loop, env: LR.Env, turns: nat, i: nat)
    requires Ok(l) && env.err > 0 && i < |MuxState.Active(l.mux.registry)|
    ensures var h, m := MuxState.Active(l.mux.registry)[i].handler, AtDispatch(l, env, turns).mux;
            && i < |m.fds| == |m.hdls|
            && (|| (m.hdls[i] == Some(h) && m.fds[i].revents == env.revents(i)
                    && (l.mux.dirty ==> m.fds[i].fd == env.fdOf(h)))
                || (m.hdls[i] == None && m.fds[i].revents == 0 && UnregisteredBy(env.timers, 0, turns, h)))
  {
    LR.PolledRound(l, env);
    LR.PreparedOk(l, env);
    var l1 := LR.Prepared(l, env);
    var l2 := l1.(mux := MuxState.Polled(l1.mux, env.err, env.revents));
    if env.runClock.Some? { TurnsKeepSlot(l2, env.runClock.value, env.timers, 0, turns, i); }
  }

  /** A round calls nobody unless poll() has reported events; and then only handlers that were polled and that it
      has reported events for, in the order of the registry. */
  lemma OnlyReadyAreCalled(l: Loop, env: LR.Env, turns: nat)
    requires Ok(l)
    ensures var calls, polled := LR.AnyRound(l, env, turns).calls, MuxState.Active(l.mux.registry);
            && (env.err <= 0 ==> calls == [])
            && (forall n, m :: 0 <= n < m < |calls| ==> calls[n].slot < calls[m].slot)
            && (forall n :: 0 <= n < |calls| ==>
                  && calls[n].slot < |polled| && calls[n].handler == polled[calls[n].slot].handler
                  && env.revents(calls[n].slot) != 0)
  {
    RoundDispatches(l, env, turns);
    if env.err > 0 {
      var mid, calls := AtDispatch(l, env, turns), LR.AnyRound(l, env, turns).calls;
      DispatchExactlyOnce(mid, env.handlers);
      forall n | 0 <= n < |calls|
        ensures && calls[n].slot < |MuxState.Active(l.mux.registry)|
                && calls[n].handler == MuxState.Active(l.mux.registry)[calls[n].slot].handler
                && env.revents(calls[n].slot) != 0
      {
        assert CallOk(mid.mux, 0, calls[n]);
        SlotAtDispatch(l, env, turns, calls[n].slot);
      }
    }
  }

  /** No callback of the round unregisters this handler or quits the loop. */
  ghost predicate LeftAlone(env: LR.Env, h: Addr) {
    && NeverQuits(env.timers) && NeverQuits(env.handlers)
    && (forall k :: Unreg(h) !in env.timers(k)) && (forall k :: Unreg(h) !in env.handlers(k))
  }

  /** Every handler that is registered for some event, and that poll() reports events for, is called in this very
      round, with its descriptor, unless a callback of the round unregisters it or quits the loop. */
  lemma ReadyIsCalled(l: Loop, env: LR.Env, turns: nat, i: nat)
    requires Ok(l) && l.mux.run && env.err > 0
    requires i < |MuxState.Active(l.mux.registry)| && env.revents(i) != 0
    requires LeftAlone(env, MuxState.Active(l.mux.registry)[i].handler)
    ensures var h, calls := MuxState.Active(l.mux.registry)[i].handler, LR.AnyRound(l, env, turns).calls;
            exists n :: 0 <= n < |calls| && calls[n].slot == i && calls[n].handler == h
                        && (l.mux.dirty ==> calls[n].fd == env.fdOf(h))
  {
    var h, mid := MuxState.Active(l.mux.registry)[i].handler, AtDispatch(l, env, turns);
    RoundDispatches(l, env, turns);
    SlotAtDispatch(l, env, turns, i);
    DispatchExactlyOnce(mid, env.handlers);
    PassStopsAtQuit(mid, 0, env.handlers, 0);
    var r := Pass(mid, 0, env.handlers, 0);
    if Excused(mid.mux, r, env.handlers, 0, i) { NotExcused(mid.mux, r, env, h, i); }
    var n :| 0 <= n < |r.calls| && r.calls[n].slot == i;
    assert CallOk(mid.mux, 0, r.calls[n]);
  }

  lemma NotExcused(m: Mux, r: PassResult, env: LR.Env, h: Addr, i: nat)
    requires LeftAlone(env, h) && QuitIsLast(r, env.handlers, 0)
    requires |m.fds| == |m.hdls| && i < |m.fds| && m.hdls[i] == Some(h)
    ensures !Excused(m, r, env.handlers, 0, i)
  {}

  /** The loop after `n` callbacks, from number `k` on. */
  ghost function Callbacks(l: Loop, beh: Behaviour, k: nat, n: nat): Loop
    requires |l.mux.fds| == |l.mux.hdls|
    decreases n
  {
    if n == 0 then l else Callbacks(ApplyAll(l, beh(k)).after, beh, k + 1, n - 1)
  }

  /** The first call of the pass, and the pass that remains. */
  lemma CallbacksStep(l: Loop, i: nat, beh: Behaviour, k: nat)
    requires Ok(l) && i < |l.mux.fds| && l.mux.fds[i].revents != 0
    requires var l1 := ApplyAll(l, beh(k)).after;
             Ok(l1) && var r := Pass(l1, i + 1, beh, k + 1); r.after == Callbacks(l1, beh, k + 1, |r.calls|)
    ensures Pass(l, i, beh, k).after == Callbacks(l, beh, k, |Pass(l, i, beh, k).calls|)
  {
    PassStep(l, i, beh, k);
    var l1 := ApplyAll(l, beh(k)).after;
    assert Callbacks(l1, beh, k + 1, 0) == l1;
  }

  /** A pass does to the loop what the callbacks of the called handlers do, one after the other, and nothing
      else. */
  lemma {:induction false} PassIsItsCallbacks(l: Loop, i: nat, beh: Behaviour, k: nat)
    requires Ok(l)
    ensures Pass(l, i, beh, k).after == Callbacks(l, beh, k, |Pass(l, i, beh, k).calls|)
    decreases |l.mux.fds| - i
  {
    if i < |l.mux.fds| {
      PassStep(l, i, beh, k);
      if l.mux.fds[i].revents == 0 {
        PassIsItsCallbacks(l, i + 1, beh, k);
      } else {
        PassIsItsCallbacks(ApplyAll(l, beh(k)).after, i + 1, beh, k + 1);
        CallbacksStep(l, i, beh, k);
      }
    }
  }

  // ---- run ----

  /** The rounds one after the other, each from where the one before has left the loop. */
  ghost predicate Chain(states: seq<Loop>, envs: seq<LR.Env>, log: seq<LR.Log>)
    requires forall env :: env in envs ==> LR.EnvOk(env)
  {
    && |states| == |log| + 1 && |log| <= |envs|
    && forall k :: 0 <= k < |log| ==>
         && Ok(states[k]) && states[k].mux.run
         && states[k + 1] == LR.Round(states[k], envs[k]).0 && log[k] == LR.Round(states[k], envs[k]).1
  }

  /** run makes one round after the other, and ends only when it is told to, or when there is nothing more to
      come from outside. */
  lemma {:induction false} RunIsItsRounds(l: Loop, envs: seq<LR.Env>) returns (states: seq<Loop>)
    requires Ok(l) && forall env :: env in envs ==> LR.EnvOk(env)
    ensures var o := LR.Run(l, envs);
            && Chain(states, envs, o.log) && states[0] == l && states[|o.log|] == o.after
            && (|o.log| == |envs| || !o.after.mux.run)
    decreases envs
  {
    if !l.mux.run || envs == [] {
      states := [l];
    } else {
      var r, o := LR.Round(l, envs[0]), LR.Run(l, envs);
      var rest := RunIsItsRounds(r.0, envs[1..]);
      states := [l] + rest;
      forall k | 0 <= k < |o.log|
        ensures && Ok(states[k]) && states[k].mux.run
                && states[k + 1] == LR.Round(states[k], envs[k]).0 && o.log[k] == LR.Round(states[k], envs[k]).1
      {
        if k > 0 { assert states[k] == rest[k - 1] && envs[k] == envs[1..][k - 1]; }
      }
    }
  }

  /** The same for rounds whose timer loops are cut off. */
  lemma {:induction false} AnyRunIsItsRounds(l: Loop, envs: seq<(LR.Env, nat)>) returns (states: seq<Loop>)
    requires Ok(l)
    ensures var r := LR.AnyRun(l, envs);
            && |states| == |r.1| + 1 && |r.1| <= |envs| && states[0] == l && states[|r.1|] == r.0
            && (|r.1| == |envs| || !r.0.mux.run)
            && forall k :: 0 <= k < |r.1| ==>
                 && Ok(states[k]) && states[k].mux.run
                 && LR.AnyRound(states[k], envs[k].0, envs[k].1) == PassResult(states[k + 1], r.1[k])
    decreases |envs|
  {
    if !l.mux.run || envs == [] {
      states := [l];
    } else {
      var p, r := LR.AnyRound(l, envs[0].0, envs[0].1), LR.AnyRun(l, envs);
      var rest := AnyRunIsItsRounds(p.after, envs[1..]);
      states := [l] + rest;
      forall k | 0 <= k < |r.1|
        ensures && Ok(states[k]) && states[k].mux.run
                && LR.AnyRound(states[k], envs[k].0, envs[k].1) == PassResult(states[k + 1], r.1[k])
      {
        if k > 0 { assert states[k] == rest[k - 1] && envs[k] == envs[1..][k - 1]; }
      }
    }
  }
}
