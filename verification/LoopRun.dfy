/** Multiplexer::run as a function of everything it asks the kernel for, round by round. */
module LoopRun {
  import opened Common
  import opened Timespecs
  import opened TimerList
  import opened LoopState
  import opened Rounds
  import MuxState

  /** What one round learns from outside: the clock reading of next_time, the outcome of poll(), the
      clock reading of TimerManager::run, what the callbacks do, and the handlers' descriptors. */
  datatype Env = Env(nextClock: Option<Timespec>, err: int, revents: nat -> int,
                     runClock: Option<Timespec>, timers: Behaviour, handlers: Behaviour,
                     fdOf: Addr -> int)

  /** What one round does: the poll timeout, the timers fired and the handlers called. */
  datatype Log = Log(timeout: int, fired: seq<Timer>, calls: seq<Call>)

  datatype Outcome = Outcome(after: Loop, log: seq<Log>)

  /** next_time, with run()'s replacement of a failure by "wait for ever". */
  function Timeout(ts: seq<Timer>, clock: Option<Timespec>): int {
    if ts == [] || clock.None? then -1
    else
      var span := Span(ts[0].due, clock.value);
      if span < 0 then 0 else span
  }

  /** Callbacks of a round create timers that are due after the sampled time. */
  ghost predicate EnvOk(env: Env) {
    env.runClock.Some? ==> AllLater(env.timers, 0, env.runClock.value)
  }

  ghost function Prepared(l: Loop, env: Env): Loop {
    if l.mux.dirty then l.(mux := MuxState.Prepare(l.mux, env.fdOf)) else l
  }

  ghost function Round(l: Loop, env: Env): (r: (Loop, Log))
    requires Ok(l) && EnvOk(env)
    ensures Ok(r.0)
  {
    PreparedOk(l, env);
    var l1 := Prepared(l, env);
    MuxState.PolledOk(l1.mux, env.err, env.revents);
    var l2 := l1.(mux := MuxState.Polled(l1.mux, env.err, env.revents));
    var j := RunTimers(l2, env.runClock, env.timers);
    RunTimersOk(l2, env.runClock, env.timers);
    var p := if env.err > 0 then Pass(j.after, 0, env.handlers, 0) else PassResult(j.after, []);
    (p.after, Log(Timeout(l1.timers, env.nextClock), j.fired, p.calls))
  }

  /** `while (run_)`, for as many rounds as the environment lasts. */
  ghost function Run(l: Loop, envs: seq<Env>): (o: Outcome)
    requires Ok(l) && forall env :: env in envs ==> EnvOk(env)
    ensures Ok(o.after)
    decreases envs
  {
    if !l.mux.run || envs == [] then Outcome(l, [])
    else
      var r := Round(l, envs[0]);
      var o := Run(r.0, envs[1..]);
      Outcome(o.after, [r.1] + o.log)
  }

  /** What remains of a run after the rounds in `log` leads to the outcome `goal`. */
  ghost predicate RunPending(goal: Outcome, log: seq<Log>, l: Loop, envs: seq<Env>) {
    && Ok(l) && (forall env :: env in envs ==> EnvOk(env))
    && goal.after == Run(l, envs).after
    && goal.log == log + Run(l, envs).log
  }

  lemma RunPendingStart(l: Loop, envs: seq<Env>)
    requires Ok(l) && forall env :: env in envs ==> EnvOk(env)
    ensures RunPending(Run(l, envs), [], l, envs)
  {}

  lemma RunPendingStep(goal: Outcome, log: seq<Log>, l: Loop, envs: seq<Env>)
    requires RunPending(goal, log, l, envs)
    ensures !l.mux.run || envs == [] ==> goal == Outcome(l, log)
    ensures l.mux.run && envs != [] ==>
              RunPending(goal, log + [Round(l, envs[0]).1], Round(l, envs[0]).0, envs[1..])
  {}

  lemma RunTimersOk(l: Loop, clock: Option<Timespec>, beh: Behaviour)
    requires Ok(l) && (clock.Some? ==> AllLater(beh, 0, clock.value))
    ensures Ok(RunTimers(l, clock, beh).after)
  {
    if clock.Some? { FireDueOk(l, clock.value, beh, 0); }
  }

  /** When poll() is entered the cache is clean, so no slot is empty. */
  lemma PreparedOk(l: Loop, env: Env)
    requires Ok(l)
    ensures var l1 := Prepared(l, env);
            Ok(l1) && !l1.mux.dirty && forall i :: 0 <= i < |l1.mux.hdls| ==> l1.mux.hdls[i].Some?
  {
    if l.mux.dirty { MuxState.PrepareOk(l.mux, env.fdOf); }
  }

  /** Poll's timeout ends less than one millisecond from the due time. */
  ghost predicate Accurate(due: Timespec, now: Timespec, timeout: int) {
    -MSEC < due.Nanos() - (now.Nanos() + timeout * MSEC) < MSEC
  }

  /** When the earliest timer is not yet due, the timeout is accurate exactly when its delay fits an
      `int`. When it is due, poll does not wait exactly when the number of milliseconds the loop is late
      is at most 2^31, counted modulo 2^32. */
  lemma TimeoutAccurateIff(ts: seq<Timer>, now: Timespec)
    requires ts != [] && ts[0].due.Normal() && now.Normal()
    ensures !IsDue(ts[0], now) ==>
              (Accurate(ts[0].due, now, Timeout(ts, Some(now))) <==> Delay(ts[0].due, now) <= INT32_MAX)
    ensures IsDue(ts[0], now) ==>
              (Timeout(ts, Some(now)) == 0 <==> -Delay(ts[0].due, now) % UINT32_SIZE <= 0x8000_0000)
  {
    DelayAccuracy(ts[0].due, now);
    LessIsNanosOrder(now, ts[0].due);
    SpanWraps(ts[0].due, now);
    if IsDue(ts[0], now) {
      NegatedWrap(Delay(ts[0].due, now));
    } else {
      SpanAccurateIff(ts[0].due, now);
    }
  }

  lemma NegatedWrap(x: int)
    requires x <= 0
    ensures ToInt32(x) <= 0 <==> -x % UINT32_SIZE <= 0x8000_0000
  {
    var m := x % UINT32_SIZE;
    var q := x / UINT32_SIZE;
    assert x == UINT32_SIZE * q + m;
    assert -x == UINT32_SIZE * (-q) - m == UINT32_SIZE * (-q - 1) + (UINT32_SIZE - m);
    assert -x % UINT32_SIZE == if m == 0 then 0 else UINT32_SIZE - m;
  }

  /** For a timer that create_timer made, of any positive `int` interval, the timeout is accurate at
      every later clock reading before it is due. */
  lemma CreatedTimerTimeout(clock: Timespec, interval: int, now: Timespec, ts: seq<Timer>)
    requires clock.Normal() && now.Normal() && !Less(now, clock) && 1 <= interval <= INT32_MAX
    requires ts != [] && ts[0].due == DueTime(clock, interval) && !IsDue(ts[0], now)
    ensures Accurate(ts[0].due, now, Timeout(ts, Some(now)))
  {
    PlusExact(clock, interval);
    PlusNormal(clock, interval);
    LessIsNanosOrder(now, clock);
    DelayAccuracy(ts[0].due, now);
    assert Delay(ts[0].due, now) * MSEC < interval * MSEC + MSEC;
    assert Delay(ts[0].due, now) <= interval;
    TimeoutAccurateIff(ts, now);
  }

  /** A loop that is 2147484 s late, as after a long suspend, waits for 2147483296 ms more. */
  lemma LateLoopWaits(t: Timer)
    requires t.due == Timespec(0, 0)
    ensures IsDue(t, Timespec(2147484, 0)) && Timeout([t], Some(Timespec(2147484, 0))) == 2147483296
  {
    SpanWraps(Timespec(0, 0), Timespec(2147484, 0));
  }

  ghost predicate CallsRegistered(calls: seq<Call>) {
    && (forall n :: 0 <= n < |calls| ==> MuxState.Registered(calls[n].registry, calls[n].handler))
    && (forall n, m :: 0 <= n < m < |calls| ==> calls[n].handler != calls[m].handler)
  }

  // ---- runs in which timer callbacks may create anything ----

  /** TimerManager::run cut off after some turns of its loop, if it can read the clock. */
  ghost function TimerTurns(l: Loop, clock: Option<Timespec>, beh: Behaviour, turns: nat): Loop
    requires |l.mux.fds| == |l.mux.hdls|
  {
    if clock.None? then l else AfterFirings(l, clock.value, beh, 0, turns)
  }

  lemma {:induction false} AfterFiringsOk(l: Loop, now: Timespec, beh: Behaviour, k: nat, n: nat)
    requires Ok(l)
    ensures Ok(AfterFirings(l, now, beh, k, n))
    decreases n
  {
    if n > 0 && l.timers != [] && !Less(now, l.timers[0].due) {
      var popped := l.(timers := l.timers[1..]);
      ApplyAllOk(popped, beh(k));
      AfterFiringsOk(ApplyAll(popped, beh(k)).after, now, beh, k + 1, n - 1);
    }
  }

  lemma TimerTurnsOk(l: Loop, clock: Option<Timespec>, beh: Behaviour, turns: nat)
    requires Ok(l)
    ensures Ok(TimerTurns(l, clock, beh, turns))
  {
    if clock.Some? { AfterFiringsOk(l, clock.value, beh, 0, turns); }
  }

  lemma PolledRound(l: Loop, env: Env)
    requires Ok(l)
    ensures var l1 := Prepared(l, env); Ok(l1.(mux := MuxState.Polled(l1.mux, env.err, env.revents)))
  {
    PreparedOk(l, env);
    MuxState.PolledOk(Prepared(l, env).mux, env.err, env.revents);
  }

  /** A round whose timer loop is cut off after some turns, with the calls of process() it makes. */
  ghost function AnyRound(l: Loop, env: Env, turns: nat): (r: PassResult)
    requires Ok(l)
    ensures Ok(r.after)
  {
    PolledRound(l, env);
    var l1 := Prepared(l, env);
    var l2 := l1.(mux := MuxState.Polled(l1.mux, env.err, env.revents));
    TimerTurnsOk(l2, env.runClock, env.timers, turns);
    var l3 := TimerTurns(l2, env.runClock, env.timers, turns);
    if env.err > 0 then Pass(l3, 0, env.handlers, 0) else PassResult(l3, [])
  }

  /** Every round is such a round. */
  lemma RoundIsAnyRound(l: Loop, env: Env)
    requires Ok(l) && EnvOk(env)
    ensures exists turns :: AnyRound(l, env, turns) == PassResult(Round(l, env).0, Round(l, env).1.calls)
  {
    PolledRound(l, env);
    var l1 := Prepared(l, env);
    var l2 := l1.(mux := MuxState.Polled(l1.mux, env.err, env.revents));
    RunTimersOk(l2, env.runClock, env.timers);
    var turns := |RunTimers(l2, env.runClock, env.timers).fired|;
    if env.runClock.Some? { FireDueIsTurns(l2, env.runClock.value, env.timers, 0); }
    assert AnyRound(l, env, turns) == PassResult(Round(l, env).0, Round(l, env).1.calls);
  }

  ghost function AnyRun(l: Loop, envs: seq<(Env, nat)>): (r: (Loop, seq<seq<Call>>))
    requires Ok(l)
    ensures Ok(r.0)
    decreases |envs|
  {
    if !l.mux.run || envs == [] then (l, [])
    else
      var p := AnyRound(l, envs[0].0, envs[0].1);
      var r := AnyRun(p.after, envs[1..]);
      (r.0, [p.calls] + r.1)
  }

  lemma AnyRoundCalls(l: Loop, env: Env, turns: nat)
    requires Ok(l)
    ensures CallsRegistered(AnyRound(l, env, turns).calls)
  {
    PolledRound(l, env);
    var l1 := Prepared(l, env);
    var l2 := l1.(mux := MuxState.Polled(l1.mux, env.err, env.revents));
    TimerTurnsOk(l2, env.runClock, env.timers, turns);
    PassCalls(TimerTurns(l2, env.runClock, env.timers, turns), env.handlers);
  }

  lemma PassCalls(l: Loop, beh: Behaviour)
    requires Ok(l)
    ensures CallsRegistered(Pass(l, 0, beh, 0).calls)
  {
    DispatchExactlyOnce(l, beh);
    var calls := Pass(l, 0, beh, 0).calls;
    forall n | 0 <= n < |calls| ensures MuxState.Registered(calls[n].registry, calls[n].handler) {
      assert CallOk(l.mux, 0, calls[n]);
    }
  }

  /** Dispatch safety over whole runs: whatever the callbacks, the clock and poll() do, and however far
      the timer loops get, in every round process() is called only on handlers registered at that
      moment, at most once each. */
  lemma {:induction false} EveryCallIsRegistered(l: Loop, envs: seq<(Env, nat)>)
    requires Ok(l)
    ensures forall calls :: calls in AnyRun(l, envs).1 ==> CallsRegistered(calls)
    decreases |envs|
  {
    if l.mux.run && envs != [] {
      AnyRoundCalls(l, envs[0].0, envs[0].1);
      EveryCallIsRegistered(AnyRound(l, envs[0].0, envs[0].1).after, envs[1..]);
    }
  }

  /** Once the loop has quit, run() returns at once, however often it is called. */
  lemma {:induction false} NothingRunsAfterQuit(l: Loop, before: seq<(Env, nat)>, later: seq<(Env, nat)>)
    requires Ok(l) && !AnyRun(l, before).0.mux.run
    ensures AnyRun(l, before + later) == AnyRun(l, before)
    decreases |before|
  {
    if l.mux.run && before != [] {
      assert (before + later)[1..] == before[1..] + later;
      NothingRunsAfterQuit(AnyRound(l, before[0].0, before[0].1).after, before[1..], later);
    } else {
      assert !l.mux.run;
    }
  }

  // ---- the capacity of the cached arrays ----

  lemma ApplyCapacity(l: Loop, op: Op)
    requires |l.mux.fds| == |l.mux.hdls|
    ensures Apply(l, op).after.mux.capacity == l.mux.capacity
  {}

  lemma {:induction false} ApplyAllCapacity(l: Loop, ops: seq<Op>)
    requires |l.mux.fds| == |l.mux.hdls|
    ensures ApplyAll(l, ops).after.mux.capacity == l.mux.capacity
    decreases ops
  {
    if ops != [] {
      ApplyCapacity(l, ops[0]);
      ApplyAllCapacity(Apply(l, ops[0]).after, ops[1..]);
    }
  }

  lemma {:induction false} AfterFiringsCapacity(l: Loop, now: Timespec, beh: Behaviour, k: nat, n: nat)
    requires |l.mux.fds| == |l.mux.hdls|
    ensures AfterFirings(l, now, beh, k, n).mux.capacity == l.mux.capacity
    decreases n
  {
    if n > 0 && l.timers != [] && !Less(now, l.timers[0].due) {
      var popped := l.(timers := l.timers[1..]);
      ApplyAllCapacity(popped, beh(k));
      AfterFiringsCapacity(ApplyAll(popped, beh(k)).after, now, beh, k + 1, n - 1);
    }
  }

  lemma {:induction false} PassCapacity(l: Loop, i: nat, beh: Behaviour, k: nat)
    requires Ok(l)
    ensures Pass(l, i, beh, k).after.mux.capacity == l.mux.capacity
    decreases |l.mux.fds| - i
  {
    if i < |l.mux.fds| {
      if l.mux.fds[i].revents == 0 {
        PassCapacity(l, i + 1, beh, k);
      } else {
        ApplyAllOk(l, beh(k));
        ApplyAllCapacity(l, beh(k));
        if ApplyAll(l, beh(k)).after.mux.run { PassCapacity(ApplyAll(l, beh(k)).after, i + 1, beh, k + 1); }
      }
    }
  }

  lemma RoundCapacity(l: Loop, env: Env, turns: nat)
    requires Ok(l)
    ensures AnyRound(l, env, turns).after.mux.capacity >= l.mux.capacity
  {
    PolledRound(l, env);
    if l.mux.dirty { MuxState.PrepareOk(l.mux, env.fdOf); }
    var l1 := Prepared(l, env);
    var l2 := l1.(mux := MuxState.Polled(l1.mux, env.err, env.revents));
    TimerTurnsOk(l2, env.runClock, env.timers, turns);
    if env.runClock.Some? { AfterFiringsCapacity(l2, env.runClock.value, env.timers, 0, turns); }
    PassCapacity(TimerTurns(l2, env.runClock, env.timers, turns), 0, env.handlers, 0);
  }

  /** The arrays only ever grow, by whole increments, and have room for the slots in use. */
  lemma {:induction false} CapacityNeverShrinks(l: Loop, envs: seq<(Env, nat)>)
    requires Ok(l)
    ensures var m := AnyRun(l, envs).0.mux;
            m.capacity >= l.mux.capacity && m.capacity % MuxState.POLL_ARRAY_INC_STEP == 0 && |m.hdls| <= m.capacity
    decreases |envs|
  {
    if l.mux.run && envs != [] {
      RoundCapacity(l, envs[0].0, envs[0].1);
      CapacityNeverShrinks(AnyRound(l, envs[0].0, envs[0].1).after, envs[1..]);
    }
  }
}
