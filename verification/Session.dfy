/** The tuner session of TunerSession.cpp: tune, step, scan and cancel replace what the worker thread has
    not yet started, and the worker thread performs the tune later. */
module Session {
  import opened Common
  import opened BandStep

  /** A program selector: whether its primary identifier is a real one, and its AM/FM frequency. */
  datatype Program = Program(valid: bool, freq: Option<int>)

  datatype Result = Done | InvalidState | NotSupported | InvalidArguments | InternalError

  /** `queue` holds the tasks not yet started, `started` the one the worker thread has taken and for
      which it waits for the lock: it can no longer be cancelled. `tuned` are the frequencies given to
      the radio. `blocked` is sprdtune_state, which all sessions of the process share. */
  datatype State = State(closed: bool, completed: bool, current: Program, queue: seq<Program>,
                         started: Option<Program>, tuned: seq<int>, blocked: bool)

  /** One call, or one step of the worker thread. A tune carries the verdicts on its selector, a scan the
      station it found. */
  datatype Op =
    | Tune(sel: Program, supported: bool, wellFormed: bool)
    | Step(up: bool)
    | Seek(found: int)
    | Cancel
    | Close
    | TaskStarts
    | TaskRuns

  datatype Config = Config(ranges: seq<Range>, space: int)

  function AmFm(freq: int): Program {
    Program(true, Some(freq))
  }

  /** utils::getId: the frequency, or 0. */
  function FreqOf(p: Program): int {
    if p.freq.Some? then p.freq.value else 0
  }

  function Cancelled(s: State): State {
    s.(queue := [], completed := s.completed || s.current.valid)
  }

  function Scheduled(s: State, p: Program): State {
    s.(completed := false, queue := s.queue + [p])
  }

  /** tuneInternalLocked. */
  function Tuned(s: State, p: Program): State {
    if s.closed then s.(current := p, blocked := true)
    else s.(current := p, completed := true, tuned := s.tuned + [FreqOf(p)])
  }

  function CurrentRange(cfg: Config, s: State): Option<Range> {
    if s.completed && s.current.freq.Some? then Lookup(cfg.ranges, s.current.freq.value) else None
  }

  function Stepped(cfg: Config, s: State, up: bool): (State, Result) {
    if s.closed then (s, InvalidState)
    else
      var s1 := Cancelled(s);
      if s1.current.freq.None? then (s1, NotSupported)
      else match CurrentRange(cfg, s1)
        case None => (s1, InternalError)
        case Some(r) => (Scheduled(s1, AmFm(StepTo(r, cfg.space, s1.current.freq.value, up))), Done)
  }

  function Next(cfg: Config, s: State, op: Op): (State, Result) {
    match op
    case Step(up) => Stepped(cfg, s, up)
    case Tune(sel, supported, wellFormed) =>
      if s.closed then (s, InvalidState)
      else if !supported then (s, NotSupported)
      else if !wellFormed then (s, InvalidArguments)
      else (Scheduled(Cancelled(s), sel), Done)
    case Seek(found) =>
      if s.closed then (s, InvalidState)
      else if s.blocked then (Cancelled(s).(completed := false), InvalidState)
      else (Scheduled(Cancelled(s), AmFm(found)), Done)
    case Cancel => (if s.closed then s else Cancelled(s), Done)
    case Close => (if s.closed then s else s.(closed := true, queue := []), Done)
    case TaskStarts =>
      (if s.started.None? && s.queue != [] then s.(started := Some(s.queue[0]), queue := s.queue[1..]) else s, Done)
    case TaskRuns => (if s.started.Some? then Tuned(s, s.started.value).(started := None) else s, Done)
  }

  /** The constructor, when the device opens and when it does not. */
  function Opened(ok: bool, blocked: bool): State {
    if ok then Tuned(State(false, false, Program(false, None), [], None, [], blocked), AmFm(87500))
    else State(true, false, Program(false, None), [], None, [], blocked)
  }

  function Run(cfg: Config, s: State, ops: seq<Op>): State
    decreases |ops|
  {
    if ops == [] then s else Run(cfg, Next(cfg, s, ops[0]).0, ops[1..])
  }

  // ---- the code ----

  class TunerSession {
    const ranges: seq<Range>
    var space: int
    var isClosed: bool
    var isTuneCompleted: bool
    var currentProgram: Program
    var queue: seq<Program>
    var started: Option<Program>
    var tuned: seq<int>
    var blocked: bool

    function Now(): State
      reads this
    {
      State(isClosed, isTuneCompleted, currentProgram, queue, started, tuned, blocked)
    }

    function Cfg(): Config
      reads this
    {
      Config(ranges, space)
    }

    constructor (ranges: seq<Range>, opens: bool, blocked: bool)
      ensures this.ranges == ranges && space == 100
      ensures Now() == Opened(opens, blocked)
    {
      this.ranges, space, this.blocked := ranges, 100, blocked;
      isClosed, isTuneCompleted, currentProgram := true, false, Program(false, None);
      queue, started, tuned := [], None, [];
      new;
      if opens {
        isClosed := false;
        TuneInternalLocked(AmFm(87500));
      }
    }

    method TuneInternalLocked(sel: Program)
      modifies this
      ensures Now() == Tuned(old(Now()), sel) && Cfg() == old(Cfg())
    {
      currentProgram := sel;
      if isClosed {
        blocked := true;
        return;
      }
      tuned := tuned + [FreqOf(currentProgram)];
      isTuneCompleted := true;
    }

    method CancelLocked()
      modifies this
      ensures Now() == Cancelled(old(Now())) && Cfg() == old(Cfg())
    {
      queue := [];
      if currentProgram.valid {
        isTuneCompleted := true;
      }
    }

    method Schedule(p: Program)
      modifies this
      ensures Now() == Scheduled(old(Now()), p) && Cfg() == old(Cfg())
    {
      isTuneCompleted := false;
      queue := queue + [p];
    }

    method GetAmFmRangeLocked() returns (range: Option<Range>)
      ensures range == CurrentRange(Cfg(), Now())
    {
      if !isTuneCompleted { return None; }
      if currentProgram.freq.None? { return None; }
      var freq := currentProgram.freq.value;
      var i := 0;
      while i < |ranges|
        invariant 0 <= i <= |ranges|
        invariant Lookup(ranges, freq) == Lookup(ranges[i..], freq)
      {
        if ranges[i].lower <= freq && ranges[i].upper >= freq { return Some(ranges[i]); }
        i := i + 1;
      }
      return None;
    }

    method Step(up: bool) returns (ret: Result)
      modifies this
      ensures (Now(), ret) == Next(old(Cfg()), old(Now()), Op.Step(up)) && Cfg() == old(Cfg())
    {
      if isClosed { return InvalidState; }
      CancelLocked();
      if currentProgram.freq.None? { return NotSupported; }
      var stepTo := currentProgram.freq.value;
      var range := GetAmFmRangeLocked();
      if range.None? { return InternalError; }
      if up {
        stepTo := (stepTo + space) % UINT64_SIZE;
      } else {
        stepTo := (stepTo - space) % UINT64_SIZE;
      }
      if stepTo > range.value.upper { stepTo := range.value.lower; }
      if stepTo < range.value.lower { stepTo := range.value.upper; }
      Schedule(AmFm(stepTo));
      return Done;
    }

    method Tune(sel: Program, supported: bool, wellFormed: bool) returns (ret: Result)
      modifies this
      ensures (Now(), ret) == Next(old(Cfg()), old(Now()), Op.Tune(sel, supported, wellFormed)) && Cfg() == old(Cfg())
    {
      if isClosed { return InvalidState; }
      if !supported { return NotSupported; }
      if !wellFormed { return InvalidArguments; }
      CancelLocked();
      Schedule(sel);
      return Done;
    }

    method Scan(found: int) returns (ret: Result)
      modifies this
      ensures (Now(), ret) == Next(old(Cfg()), old(Now()), Op.Seek(found)) && Cfg() == old(Cfg())
    {
      if isClosed { return InvalidState; }
      CancelLocked();
      isTuneCompleted := false;
      if blocked { return InvalidState; }
      Schedule(AmFm(found));
      return Done;
    }

    method Cancel()
      modifies this
      ensures Now() == Next(old(Cfg()), old(Now()), Op.Cancel).0 && Cfg() == old(Cfg())
    {
      if isClosed { return; }
      CancelLocked();
    }

    method Close()
      modifies this
      ensures Now() == Next(old(Cfg()), old(Now()), Op.Close).0 && Cfg() == old(Cfg())
    {
      if isClosed { return; }
      isClosed := true;
      queue := [];
    }

    /** The worker thread takes the next task. */
    method StartTask()
      modifies this
      ensures Now() == Next(old(Cfg()), old(Now()), Op.TaskStarts).0 && Cfg() == old(Cfg())
    {
      if started.None? && queue != [] {
        started, queue := Some(queue[0]), queue[1..];
      }
    }

    /** The task gets the lock and tunes. */
    method RunTask()
      modifies this
      ensures Now() == Next(old(Cfg()), old(Now()), Op.TaskRuns).0 && Cfg() == old(Cfg())
    {
      if started.Some? {
        TuneInternalLocked(started.value);
        started := None;
      }
    }
  }

  // ---- what holds over whole runs ----

  /** A well-formed selector names a real program: that check is foreign code. */
  predicate OpOk(op: Op) {
    op.Tune? && op.supported && op.wellFormed ==> op.sel.valid
  }

  /** At most one tune waits; an open session has a valid program, and unless scans are refused it is
      tuned or a tune is under way. Closed sessions have nothing waiting. */
  predicate SessionOk(s: State) {
    && |s.queue| <= 1
    && (s.queue != [] ==> s.queue[0].valid)
    && (s.started.Some? ==> s.started.value.valid)
    && (s.closed ==> s.queue == [])
    && (!s.closed ==> s.current.valid && (s.completed || s.queue != [] || s.started.Some? || s.blocked))
  }

  lemma NextOk(cfg: Config, s: State, op: Op)
    requires SessionOk(s) && OpOk(op)
    ensures SessionOk(Next(cfg, s, op).0)
    ensures !Next(cfg, s, op).0.closed ==> Next(cfg, s, op).0.blocked == s.blocked
  {}

  lemma {:induction false} SessionInvariant(cfg: Config, s: State, ops: seq<Op>)
    requires SessionOk(s) && forall i :: 0 <= i < |ops| ==> OpOk(ops[i])
    ensures SessionOk(Run(cfg, s, ops))
    ensures !Run(cfg, s, ops).closed ==> Run(cfg, s, ops).blocked == s.blocked
    decreases |ops|
  {
    if ops != [] {
      var s1 := Next(cfg, s, ops[0]).0;
      NextOk(cfg, s, ops[0]);
      SessionInvariant(cfg, s1, ops[1..]);
      if s1.closed { ClosedNeverTunes(cfg, s1, ops[1..]); }
    }
  }

  /** From the constructor on: an open session with nothing queued or started is tuned, if scans were not
      refused when it was opened. */
  lemma SettledSessionIsTuned(cfg: Config, ok: bool, ops: seq<Op>)
    requires forall i :: 0 <= i < |ops| ==> OpOk(ops[i])
    ensures var s := Run(cfg, Opened(ok, false), ops);
            |s.queue| <= 1 && (!s.closed && s.queue == [] && s.started.None? ==> s.completed)
  {
    SessionInvariant(cfg, Opened(ok, false), ops);
  }

  // ---- refused scans ----

  /** A started task runs on a closed session. */
  predicate LateTask(s: State, op: Op) {
    op.TaskRuns? && s.closed && s.started.Some?
  }

  predicate SomeLateTask(cfg: Config, s: State, ops: seq<Op>)
    decreases |ops|
  {
    ops != [] && (LateTask(s, ops[0]) || SomeLateTask(cfg, Next(cfg, s, ops[0]).0, ops[1..]))
  }

  /** Scans become refused exactly when a task runs late, and then stay so. */
  lemma {:induction false} BlockedIff(cfg: Config, s: State, ops: seq<Op>)
    ensures Run(cfg, s, ops).blocked <==> s.blocked || SomeLateTask(cfg, s, ops)
    decreases |ops|
  {
    if ops != [] { BlockedIff(cfg, Next(cfg, s, ops[0]).0, ops[1..]); }
  }

  /** One session of the process after another: whether its device opened, and what was done with it. */
  datatype Life = Life(opens: bool, ops: seq<Op>)

  function Lives(cfg: Config, blocked: bool, lives: seq<Life>): bool
    decreases |lives|
  {
    if lives == [] then blocked
    else Lives(cfg, Run(cfg, Opened(lives[0].opens, blocked), lives[0].ops).blocked, lives[1..])
  }

  lemma {:induction false} BlockedForGood(cfg: Config, lives: seq<Life>)
    ensures Lives(cfg, true, lives)
    decreases |lives|
  {
    if lives != [] {
      BlockedIff(cfg, Opened(lives[0].opens, true), lives[0].ops);
      BlockedForGood(cfg, lives[1..]);
    }
  }

  /** After one late task every scan of the process is refused, in this and in all later sessions, and an
      open session is left untuned by it. */
  lemma EveryLaterScanIsRefused(cfg: Config, s: State, op: Op, lives: seq<Life>, opens: bool, ops: seq<Op>, found: int)
    requires LateTask(s, op)
    ensures var late := Lives(cfg, Next(cfg, s, op).0.blocked, lives);
            var t := Run(cfg, Opened(opens, late), ops);
            Next(cfg, t, Seek(found)).1 == InvalidState && (!t.closed ==> !Next(cfg, t, Seek(found)).0.completed)
  {
    BlockedForGood(cfg, lives);
    BlockedIff(cfg, Opened(opens, true), ops);
  }

  /** It happens to every open session whose scans are not refused yet: a scan is started by the worker
      thread, and the session is closed before the task gets the lock. */
  lemma LateTaskIsReachable(cfg: Config, s: State, found: int)
    requires !s.closed && !s.blocked
    ensures var ops := [Seek(found), TaskStarts, Op.Close, TaskRuns];
            SomeLateTask(cfg, s, ops) && Run(cfg, s, ops).blocked
  {
    var ops := [Seek(found), TaskStarts, Op.Close, TaskRuns];
    var s1 := Next(cfg, s, ops[0]).0;
    var s2 := Next(cfg, s1, ops[1]).0;
    var s3 := Next(cfg, s2, ops[2]).0;
    assert ops[1..][0] == TaskStarts && ops[1..][1..][0] == Op.Close && ops[1..][1..][1..][0] == TaskRuns;
    assert LateTask(s3, TaskRuns);
    assert SomeLateTask(cfg, s3, ops[1..][1..][1..]);
    assert SomeLateTask(cfg, s2, ops[1..][1..]) && SomeLateTask(cfg, s1, ops[1..]);
    BlockedIff(cfg, s, ops);
  }

  /** A closed session never tunes the radio again. */
  lemma {:induction false} ClosedNeverTunes(cfg: Config, s: State, ops: seq<Op>)
    requires s.closed
    ensures Run(cfg, s, ops).closed && Run(cfg, s, ops).tuned == s.tuned
    decreases |ops|
  {
    if ops != [] { ClosedNeverTunes(cfg, Next(cfg, s, ops[0]).0, ops[1..]); }
  }

  function StepOps(ups: seq<bool>): seq<Op> {
    seq(|ups|, i requires 0 <= i < |ups| => Step(ups[i]))
  }

  /** The session stands in a range with a valid program. */
  predicate CanStep(cfg: Config, s: State) {
    !s.closed && s.current.valid && s.current.freq.Some? && Lookup(cfg.ranges, s.current.freq.value).Some?
  }

  /** Steps that come before the worker thread takes the tune do not add up: each starts at the program
      still tuned to and replaces the one before. */
  lemma {:induction false} BurstIsLastStep(cfg: Config, s: State, ups: seq<bool>)
    requires CanStep(cfg, s) && ups != []
    ensures Run(cfg, s, StepOps(ups)) ==
              s.(completed := false,
                 queue := [AmFm(StepIn(cfg.ranges, cfg.space, s.current.freq.value, ups[|ups| - 1]).value)])
    decreases |ups|
  {
    var s1 := Next(cfg, s, Step(ups[0])).0;
    assert StepOps(ups)[1..] == StepOps(ups[1..]);
    if |ups| > 1 {
      BurstIsLastStep(cfg, s1, ups[1..]);
      assert ups[1..][|ups| - 2] == ups[|ups| - 1];
    } else {
      assert StepOps(ups[1..]) == [];
    }
  }

  /** Steps each of which is performed before the next. */
  function SettledSteps(ups: seq<bool>): seq<Op> {
    if ups == [] then [] else [Step(ups[0]), TaskStarts, TaskRuns] + SettledSteps(ups[1..])
  }

  predicate Idle(s: State) {
    s.queue == [] && s.started.None? && s.completed
  }

  lemma OneSettledStep(cfg: Config, s: State, up: bool, rest: seq<Op>)
    requires CanStep(cfg, s) && Idle(s)
    ensures var to := StepIn(cfg.ranges, cfg.space, s.current.freq.value, up).value;
            Run(cfg, s, [Step(up), TaskStarts, TaskRuns] + rest)
            == Run(cfg, s.(current := AmFm(to), tuned := s.tuned + [to]), rest)
  {
    var to := StepIn(cfg.ranges, cfg.space, s.current.freq.value, up).value;
    var ops := [Step(up), TaskStarts, TaskRuns] + rest;
    var s1 := Next(cfg, s, Step(up)).0;
    var s2 := Next(cfg, s1, TaskStarts).0;
    assert ops[1..] == [TaskStarts, TaskRuns] + rest;
    assert ops[1..][1..] == [TaskRuns] + rest;
    assert ops[1..][1..][1..] == rest;
    assert Run(cfg, s, ops) == Run(cfg, s1, ops[1..]) == Run(cfg, s2, ops[1..][1..]);
    assert s2.started == Some(AmFm(to)) && s2.queue == [];
    assert Next(cfg, s2, TaskRuns).0 == s.(current := AmFm(to), tuned := s.tuned + [to]);
  }

  /** Settled steps do add up: the session walks through the range it stands in, without ever leaving
      it, and tunes the radio once for each. */
  lemma {:induction false} SettledStepsWalk(cfg: Config, s: State, i: nat, ups: seq<bool>)
    requires i < |cfg.ranges| && RangeOk(cfg.ranges[i]) && Alone(cfg.ranges, i)
    requires CanStep(cfg, s) && Idle(s) && Within(cfg.ranges[i], s.current.freq.value)
    ensures var end := Run(cfg, s, SettledSteps(ups));
            && CanStep(cfg, end) && Idle(end) && |end.tuned| == |s.tuned| + |ups|
            && end.current.freq == Walk(cfg.ranges, cfg.space, s.current.freq.value, ups)
            && Within(cfg.ranges[i], end.current.freq.value)
    decreases |ups|
  {
    WalkStaysWithin(cfg.ranges, i, cfg.space, s.current.freq.value, ups);
    LookupFinds(cfg.ranges, i, s.current.freq.value);
    if ups != [] {
      OneSettledStep(cfg, s, ups[0], SettledSteps(ups[1..]));
      var to := StepIn(cfg.ranges, cfg.space, s.current.freq.value, ups[0]).value;
      StepStaysWithin(cfg.ranges[i], cfg.space, s.current.freq.value, ups[0]);
      LookupFinds(cfg.ranges, i, to);
      SettledStepsWalk(cfg, s.(current := AmFm(to), tuned := s.tuned + [to]), i, ups[1..]);
    }
  }
}
