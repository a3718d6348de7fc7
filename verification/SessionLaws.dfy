/** What the calls of a tuner session and its worker thread achieve together: where a tune, a scan or a step
    ends up, what replaces it, and what is refused. */
module SessionLaws {
  import opened Common
  import opened BandStep
  import opened Session

  // ---- short runs ----

  lemma RunTwo(cfg: Config, s: State, a: Op, b: Op)
    ensures Run(cfg, s, [a, b]) == Next(cfg, Next(cfg, s, a).0, b).0
  {
    var s1 := Next(cfg, s, a).0;
    assert [a, b][1..] == [b] && [b][1..] == [];
    assert Run(cfg, s1, [b]) == Run(cfg, Next(cfg, s1, b).0, []);
  }

  lemma RunThree(cfg: Config, s: State, a: Op, b: Op, c: Op)
    ensures Run(cfg, s, [a, b, c]) == Next(cfg, Next(cfg, Next(cfg, s, a).0, b).0, c).0
  {
    assert [a, b, c][1..] == [b, c];
    RunTwo(cfg, Next(cfg, s, a).0, b, c);
  }

  /** The state of a session that was at `s` and has performed a tune: the radio got its frequency once, or 0 if
      it has none, and nothing waits. */
  ghost predicate TunedTo(s: State, e: State, p: Program) {
    && e.current == p && e.completed
    && e.tuned == s.tuned + [if p.freq.Some? then p.freq.value else 0]
    && e.queue == [] && e.started.None? && !e.closed && e.blocked == s.blocked
  }

  // ---- what is performed ----

  /** An accepted tune ends, once the worker thread has performed it, at the selected program. */
  lemma TuneIsPerformed(cfg: Config, s: State, sel: Program)
    requires !s.closed && s.started.None?
    ensures TunedTo(s, Run(cfg, s, [Tune(sel, true, true), TaskStarts, TaskRuns]), sel)
    ensures Next(cfg, s, Tune(sel, true, true)).1 == Done
  {
    RunThree(cfg, s, Tune(sel, true, true), TaskStarts, TaskRuns);
  }

  /** A scan that is not refused ends at the station it has found. */
  lemma ScanIsPerformed(cfg: Config, s: State, found: int)
    requires !s.closed && !s.blocked && s.started.None?
    ensures TunedTo(s, Run(cfg, s, [Seek(found), TaskStarts, TaskRuns]), Program(true, Some(found)))
    ensures Next(cfg, s, Seek(found)).1 == Done
  {
    RunThree(cfg, s, Seek(found), TaskStarts, TaskRuns);
  }

  /** A step ends one spacing further, or round the end of the first range that holds the frequency. */
  lemma StepIsPerformed(cfg: Config, s: State, up: bool, i: nat)
    requires !s.closed && s.started.None? && s.current.valid && s.current.freq.Some?
    requires i < |cfg.ranges| && FirstRange(cfg.ranges, i, s.current.freq.value)
    requires RangeOk(cfg.ranges[i]) && SpacingOk(cfg.space)
    ensures var r, f := cfg.ranges[i], s.current.freq.value;
            var to := if up then if f + cfg.space <= r.upper then f + cfg.space else r.lower
                      else if f - cfg.space >= r.lower then f - cfg.space
                      else if f >= cfg.space then r.upper else r.lower;
            TunedTo(s, Run(cfg, s, [Step(up), TaskStarts, TaskRuns]), Program(true, Some(to)))
    ensures Next(cfg, s, Step(up)).1 == Done
  {
    LookupFinds(cfg.ranges, i, s.current.freq.value);
    StepValue(cfg.ranges[i], cfg.space, s.current.freq.value, up);
    RunThree(cfg, s, Step(up), TaskStarts, TaskRuns);
  }

  /** The constructor tunes to 87.5 MHz if the device opens, and else leaves the session closed and untuned. */
  lemma OpensTuned(ok: bool, blocked: bool)
    ensures var s := Opened(ok, blocked);
            && s.closed == !ok && s.completed == ok && s.queue == [] && s.started.None? && s.blocked == blocked
            && s.tuned == (if ok then [87500] else [])
            && (ok ==> s.current == Program(true, Some(87500)))
  {}

  // ---- what replaces what ----

  /** A call that cancels what waits. */
  predicate Cancels(op: Op) {
    op.Step? || op.Seek? || op.Cancel? || (op.Tune? && op.supported && op.wellFormed)
  }

  predicate IsCall(op: Op) {
    op.Step? || op.Seek? || op.Cancel? || op.Tune?
  }

  /** Until the worker thread takes it, a tune, scan or step is replaced by the next accepted call: state and
      result are as if it had not been made. */
  lemma LaterCallReplaces(cfg: Config, s: State, first: Op, later: Op)
    requires !s.closed && s.current.valid && IsCall(first) && Cancels(later)
    ensures Run(cfg, s, [first, later]) == Run(cfg, s, [later])
    ensures Next(cfg, Run(cfg, s, [first]), later).1 == Next(cfg, s, later).1
  {
    RunTwo(cfg, s, first, later);
    assert [later][1..] == [] && [first][1..] == [];
    assert Run(cfg, s, [later]) == Run(cfg, Next(cfg, s, later).0, []);
    assert Run(cfg, s, [first]) == Run(cfg, Next(cfg, s, first).0, []);
  }

  /** Once the worker thread has taken it, no call keeps it from being performed. What the call asks for waits
      behind it. */
  lemma StartedIsPerformed(cfg: Config, s: State, op: Op)
    requires !s.closed && s.started.Some? && IsCall(op)
    ensures var p, e := s.started.value, Run(cfg, s, [op, TaskRuns]);
            && e.current == p && e.completed && e.started.None?
            && e.tuned == s.tuned + [if p.freq.Some? then p.freq.value else 0]
            && e.queue == Next(cfg, s, op).0.queue
  {
    RunTwo(cfg, s, op, TaskRuns);
  }

  /** Cancelling before the task is taken leaves the radio where it is, and a session with a valid program
      counts as tuned again; a closed session is not touched. */
  lemma CancelDropsWaiting(cfg: Config, s: State)
    ensures var e := Run(cfg, s, [Op.Cancel, TaskStarts]);
            !s.closed ==>
              && e.queue == [] && e.started == s.started && e.current == s.current && e.tuned == s.tuned
              && !e.closed && e.blocked == s.blocked && e.completed == (s.completed || s.current.valid)
    ensures s.closed ==> Next(cfg, s, Op.Cancel).0 == s
  {
    RunTwo(cfg, s, Op.Cancel, TaskStarts);
  }

  /** Closing drops what waits and nothing else, and nothing is taken any more. */
  lemma CloseDropsWaiting(cfg: Config, s: State)
    ensures var e := Run(cfg, s, [Op.Close, TaskStarts]);
            !s.closed ==>
              && e.closed && e.queue == [] && e.started == s.started && e.current == s.current
              && e.tuned == s.tuned && e.completed == s.completed && e.blocked == s.blocked
    ensures s.closed ==> Next(cfg, s, Op.Close).0 == s
  {
    RunTwo(cfg, s, Op.Close, TaskStarts);
  }

  /** A task that gets the lock on a closed session sets the current program and has scans refused; the radio
      does not hear of it. */
  lemma LateTaskOnlyRecords(cfg: Config, s: State)
    requires s.closed && s.started.Some?
    ensures var e := Run(cfg, s, [TaskStarts, TaskRuns]);
            && e.current == s.started.value && e.blocked && e.started.None?
            && e.tuned == s.tuned && e.completed == s.completed && e.queue == s.queue && e.closed
  {
    RunTwo(cfg, s, TaskStarts, TaskRuns);
  }

  // ---- what is refused ----

  /** The results of all calls. A refused tune changes nothing. A call on a closed session changes nothing. A
      scan refused for the sake of the whole process, and a step without a frequency, without a range, or from
      an invalid program that is not tuned, drop what waits. */
  lemma Refusals(cfg: Config, s: State, op: Op)
    requires op.Tune? || op.Seek? || op.Step?
    ensures var r := Next(cfg, s, op);
            && (s.closed ==> r == (s, InvalidState))
            && (!s.closed && op.Tune? ==>
                  && r.1 == (if !op.supported then NotSupported else if !op.wellFormed then InvalidArguments else Done)
                  && (r.1 != Done ==> r.0 == s))
            && (!s.closed && op.Seek? ==>
                  && r.1 == (if s.blocked then InvalidState else Done)
                  && (r.1 != Done ==> r.0 == s.(queue := [], completed := false)))
            && (!s.closed && op.Step? && s.current.freq.None? ==>
                  r == (s.(queue := [], completed := s.completed || s.current.valid), NotSupported))
            && (!s.closed && op.Step? && s.current.freq.Some?
                && (forall i :: 0 <= i < |cfg.ranges| ==> !Within(cfg.ranges[i], s.current.freq.value)) ==>
                  r == (s.(queue := [], completed := s.completed || s.current.valid), InternalError))
            && (!s.closed && op.Step? && s.current.freq.Some? && !s.completed && !s.current.valid ==>
                  r == (s.(queue := []), InternalError))
  {
    if s.current.freq.Some? { NoRange(cfg.ranges, s.current.freq.value); }
  }

  lemma {:induction false} NoRange(ranges: seq<Range>, freq: int)
    ensures (forall i :: 0 <= i < |ranges| ==> !Within(ranges[i], freq)) ==> Lookup(ranges, freq).None?
  {
    if ranges != [] {
      NoRange(ranges[1..], freq);
      assert forall i :: 0 < i < |ranges| ==> ranges[i] == ranges[1..][i - 1];
      if forall i :: 0 <= i < |ranges| ==> !Within(ranges[i], freq) {
        assert forall i :: 0 <= i < |ranges[1..]| ==> !Within(ranges[1..][i], freq);
      }
    }
  }
}
