/** Stepping through a band, TunerSession::step: 64-bit arithmetic with wrap-around at both ends of the
    range that the current frequency is looked up in. */
module BandStep {
  import opened Common

  datatype Range = Range(lower: int, upper: int)

  predicate RangeOk(r: Range) {
    0 <= r.lower <= r.upper < UINT32_SIZE
  }

  predicate SpacingOk(space: int) {
    0 < space <= INT32_MAX
  }

  predicate Within(r: Range, freq: int) {
    r.lower <= freq <= r.upper
  }

  /** Where a step from `freq` goes: past the top it comes back at the bottom, below the bottom at the
      top. */
  function StepTo(r: Range, space: int, freq: int, up: bool): int {
    var to := (if up then freq + space else freq - space) % UINT64_SIZE;
    var capped := if to > r.upper then r.lower else to;
    if capped < r.lower then r.upper else capped
  }

  /** A step never leaves its range, on the grid or not. */
  lemma StepStaysWithin(r: Range, space: int, freq: int, up: bool)
    requires RangeOk(r)
    ensures Within(r, StepTo(r, space, freq, up))
  {}

  lemma StepValue(r: Range, space: int, freq: int, up: bool)
    requires RangeOk(r) && SpacingOk(space) && Within(r, freq)
    ensures StepTo(r, space, freq, up) ==
              if up then if freq + space <= r.upper then freq + space else r.lower
              else if freq - space >= r.lower then freq - space
              else if freq >= space then r.upper else r.lower
  {
    if !up && freq < space {
      assert freq - space == UINT64_SIZE * (-1) + (UINT64_SIZE + freq - space);
    }
  }

  /** When a step down undoes a step up. It fails near the top of a range whose width is not a multiple
      of the spacing, and at the wrap of a range that begins below one spacing. */
  lemma UpThenDownIff(r: Range, space: int, freq: int)
    requires RangeOk(r) && SpacingOk(space) && Within(r, freq)
    ensures StepTo(r, space, StepTo(r, space, freq, true), false) == freq
            <==> freq + space <= r.upper || freq == if r.lower >= space then r.upper else r.lower
  {
    StepValue(r, space, freq, true);
    StepValue(r, space, StepTo(r, space, freq, true), false);
  }

  /** When a step up undoes a step down. */
  lemma DownThenUpIff(r: Range, space: int, freq: int)
    requires RangeOk(r) && SpacingOk(space) && Within(r, freq)
    ensures StepTo(r, space, StepTo(r, space, freq, false), true) == freq
            <==> freq - space >= r.lower || (freq == r.lower && (freq >= space || freq + space > r.upper))
  {
    StepValue(r, space, freq, false);
    StepValue(r, space, StepTo(r, space, freq, false), true);
  }

  // ---- going round a band ----

  function Channels(r: Range, space: int): (n: int)
    requires RangeOk(r) && SpacingOk(space)
    ensures n >= 1
  {
    (r.upper - r.lower) / space + 1
  }

  function Channel(r: Range, space: int, i: int): int {
    r.lower + space * i
  }

  lemma ChannelWithin(r: Range, space: int, i: int)
    requires RangeOk(r) && SpacingOk(space)
    ensures 0 <= i < Channels(r, space) <==> Within(r, Channel(r, space, i))
    ensures Channel(r, space, i + 1) == Channel(r, space, i) + space
  {
    var q := (r.upper - r.lower) / space;
    assert r.upper - r.lower == space * q + (r.upper - r.lower) % space;
    MulOrder(space, i, q);
    MulOrder(space, q + 1, i);
    MulOrder(space, 0, i);
    MulStep(space, i);
    MulStep(space, q);
  }

  predicate Even(r: Range, space: int)
    requires space != 0
  {
    (r.upper - r.lower) % space == 0
  }

  /** From channel to channel: the last channel is followed by the first. Downwards this takes a width
      that is a multiple of the spacing and a lower bound of at least the spacing. */
  lemma StepOnGrid(r: Range, space: int, i: int, up: bool)
    requires RangeOk(r) && SpacingOk(space) && 0 <= i < Channels(r, space)
    requires up || (Even(r, space) && r.lower >= space)
    ensures var n := Channels(r, space);
            StepTo(r, space, Channel(r, space, i), up) == Channel(r, space, (if up then i + 1 else i - 1 + n) % n)
  {
    var n := Channels(r, space);
    ChannelWithin(r, space, i);
    ChannelWithin(r, space, if up then i + 1 else i - 1);
    ChannelWithin(r, space, i - 1);
    StepValue(r, space, Channel(r, space, i), up);
    if up {
      ModWrap(i + 1, n);
      assert Channel(r, space, 0) == r.lower;
    } else {
      ModWrap(i - 1 + n, n);
      assert r.upper - r.lower == space * (n - 1);
      assert Channel(r, space, n - 1) == r.upper;
    }
  }

  function Steps(r: Range, space: int, freq: int, up: bool, k: nat): int {
    if k == 0 then freq else StepTo(r, space, Steps(r, space, freq, up, k - 1), up)
  }

  lemma ModIs(x: int, n: int, q: int, m: int)
    requires 0 <= m < n && x == n * q + m
    ensures x % n == m
  {
    var p := q - x / n;
    assert n * p == n * q - n * (x / n) == x % n - m;
    MulOrder(n, p, 0);
    MulOrder(n, 1, p);
    MulOrder(n, p, -1);
    MulOrder(n, 0, p);
  }

  lemma ModStep(x: nat, n: nat)
    requires n > 0
    ensures (x % n + 1) % n == (x + 1) % n
  {
    var q, m := x / n, x % n;
    MulStep(n, q);
    if m + 1 < n {
      ModIs(x + 1, n, q, m + 1);
      ModIs(m + 1, n, 0, m + 1);
    } else {
      ModIs(x + 1, n, q + 1, 0);
      ModIs(m + 1, n, 1, 0);
    }
  }

  /** Repeated steps up go round the band. */
  lemma {:induction false} StepsUpCycle(r: Range, space: int, i: int, k: nat)
    requires RangeOk(r) && SpacingOk(space) && 0 <= i < Channels(r, space)
    ensures Steps(r, space, Channel(r, space, i), true, k) == Channel(r, space, (i + k) % Channels(r, space))
  {
    var n := Channels(r, space);
    if k == 0 {
      ModWrap(i, n);
    } else {
      StepsUpCycle(r, space, i, k - 1);
      StepOnGrid(r, space, (i + k - 1) % n, true);
      ModStep(i + k - 1, n);
    }
  }

  /** On a whole round every channel is visited at exactly one step, and then it starts again. */
  lemma EveryChannelOnce(r: Range, space: int, i: int, j: int)
    requires RangeOk(r) && SpacingOk(space) && 0 <= i < Channels(r, space) && 0 <= j < Channels(r, space)
    ensures var n := Channels(r, space);
            var k := if j >= i then j - i else j - i + n;
            && 0 <= k < n && Steps(r, space, Channel(r, space, i), true, k) == Channel(r, space, j)
            && (forall m :: 0 <= m < n && Steps(r, space, Channel(r, space, i), true, m) == Channel(r, space, j) ==>
                  m == k)
            && Steps(r, space, Channel(r, space, i), true, n) == Channel(r, space, i)
  {
    var n := Channels(r, space);
    var k := if j >= i then j - i else j - i + n;
    ModWrap(i + k, n);
    StepsUpCycle(r, space, i, k);
    forall m | 0 <= m < n && Steps(r, space, Channel(r, space, i), true, m) == Channel(r, space, j) ensures m == k {
      StepsUpCycle(r, space, i, m);
      ModWrap(i + m, n);
      MulOrder(space, (i + m) % n, j);
      MulOrder(space, j, (i + m) % n);
    }
    ModWrap(i + n, n);
    StepsUpCycle(r, space, i, n);
  }

  /** On the grid of such a band the two directions undo each other everywhere. */
  lemma StepsAreInverse(r: Range, space: int, i: int)
    requires RangeOk(r) && SpacingOk(space) && 0 <= i < Channels(r, space) && Even(r, space) && r.lower >= space
    ensures var f := Channel(r, space, i);
            && StepTo(r, space, StepTo(r, space, f, true), false) == f
            && StepTo(r, space, StepTo(r, space, f, false), true) == f
  {
    var n := Channels(r, space);
    StepOnGrid(r, space, i, true);
    StepOnGrid(r, space, i, false);
    ModWrap(i + 1, n);
    ModWrap(i - 1 + n, n);
    StepOnGrid(r, space, (i + 1) % n, false);
    StepOnGrid(r, space, (i - 1 + n) % n, true);
    ModWrap((i + 1) % n - 1 + n, n);
    ModWrap((i - 1 + n) % n + 1, n);
  }

  /** In the long-wave band at 100 kHz a step up from 253 ends at 153, and the step down from there wraps
      to 282. */
  lemma LongWaveIsNotInverse()
    ensures StepTo(Range(153, 282), 100, StepTo(Range(153, 282), 100, 253, true), false) == 282
  {}

  // ---- which range ----

  /** getAmFmRangeLocked: the first range that holds the frequency. */
  function Lookup(ranges: seq<Range>, freq: int): Option<Range> {
    if ranges == [] then None
    else if Within(ranges[0], freq) then Some(ranges[0])
    else Lookup(ranges[1..], freq)
  }

  function StepIn(ranges: seq<Range>, space: int, freq: int, up: bool): Option<int> {
    match Lookup(ranges, freq)
    case None => None
    case Some(r) => Some(StepTo(r, space, freq, up))
  }

  /** Steps in the given directions, each from where the one before has ended. */
  function Walk(ranges: seq<Range>, space: int, freq: int, ups: seq<bool>): Option<int>
    decreases |ups|
  {
    if ups == [] then Some(freq)
    else match StepIn(ranges, space, freq, ups[0])
      case None => None
      case Some(f) => Walk(ranges, space, f, ups[1..])
  }

  predicate Disjoint(a: Range, b: Range) {
    a.upper < b.lower || b.upper < a.lower
  }

  /** No earlier range has a frequency of range `i`. */
  predicate Alone(ranges: seq<Range>, i: nat)
    requires i < |ranges|
  {
    forall j :: 0 <= j < i ==> Disjoint(ranges[j], ranges[i])
  }

  lemma {:induction false} LookupFinds(ranges: seq<Range>, i: nat, freq: int)
    requires i < |ranges| && Within(ranges[i], freq) && forall j :: 0 <= j < i ==> !Within(ranges[j], freq)
    ensures Lookup(ranges, freq) == Some(ranges[i])
    decreases i
  {
    if i > 0 { LookupFinds(ranges[1..], i - 1, freq); }
  }

  /** However one steps, a range that no earlier one overlaps is never left, and no step fails. */
  lemma {:induction false} WalkStaysWithin(ranges: seq<Range>, i: nat, space: int, freq: int, ups: seq<bool>)
    requires i < |ranges| && RangeOk(ranges[i]) && Alone(ranges, i) && Within(ranges[i], freq)
    ensures Walk(ranges, space, freq, ups).Some? && Within(ranges[i], Walk(ranges, space, freq, ups).value)
    decreases |ups|
  {
    if ups != [] {
      LookupFinds(ranges, i, freq);
      StepStaysWithin(ranges[i], space, freq, ups[0]);
      WalkStaysWithin(ranges, i, space, StepTo(ranges[i], space, freq, ups[0]), ups[1..]);
    }
  }

  /** Range `i` is the one looked up for the frequency. */
  predicate FirstRange(ranges: seq<Range>, i: nat, freq: int)
    requires i < |ranges|
  {
    Within(ranges[i], freq) && forall j :: 0 <= j < i ==> !Within(ranges[j], freq)
  }

  /** No step of the walk fails, and range `i` is looked up again at its end. */
  predicate Returns(ranges: seq<Range>, i: nat, space: int, freq: int, ups: seq<bool>)
    requires i < |ranges|
  {
    var end := Walk(ranges, space, freq, ups);
    end.Some? && FirstRange(ranges, i, end.value)
  }

  /** A frequency of range `i` that an earlier range has too. */
  lemma SharedFrequency(ranges: seq<Range>, i: nat) returns (j: nat, p: int)
    requires i < |ranges| && (forall k :: 0 <= k < |ranges| ==> RangeOk(ranges[k])) && !Alone(ranges, i)
    ensures j < i && Within(ranges[j], p) && Within(ranges[i], p)
  {
    j :| 0 <= j < i && !Disjoint(ranges[j], ranges[i]);
    assert RangeOk(ranges[j]) && RangeOk(ranges[i]);
    p := if ranges[j].lower >= ranges[i].lower then ranges[j].lower else ranges[i].lower;
  }

  /** Steps of one towards a shared frequency leave range `i` there at the latest. */
  lemma {:induction false} LeavesByOnes(ranges: seq<Range>, i: nat, freq: int, p: int) returns (ups: seq<bool>)
    requires i < |ranges| && RangeOk(ranges[i]) && FirstRange(ranges, i, freq)
    requires Within(ranges[i], p) && !FirstRange(ranges, i, p)
    ensures !Returns(ranges, i, 1, freq, ups)
    decreases if p > freq then p - freq else freq - p
  {
    var up := p > freq;
    var next := if up then freq + 1 else freq - 1;
    LookupFinds(ranges, i, freq);
    StepValue(ranges[i], 1, freq, up);
    var rest := [];
    if FirstRange(ranges, i, next) { rest := LeavesByOnes(ranges, i, next, p); }
    ups := [up] + rest;
    assert ups[1..] == rest;
    assert Walk(ranges, 1, freq, ups) == Walk(ranges, 1, next, rest);
  }

  /** Stepping from a frequency stays in the range looked up for it, whatever the spacing and the
      directions, exactly when no earlier range overlaps that range. */
  lemma StaysInRangeIff(ranges: seq<Range>, i: nat, freq: int)
    requires i < |ranges| && FirstRange(ranges, i, freq)
    requires forall k :: 0 <= k < |ranges| ==> RangeOk(ranges[k])
    ensures (forall space, ups :: SpacingOk(space) ==> Returns(ranges, i, space, freq, ups)) <==> Alone(ranges, i)
  {
    if Alone(ranges, i) {
      forall space, ups | SpacingOk(space) ensures Returns(ranges, i, space, freq, ups) {
        WalkStaysWithin(ranges, i, space, freq, ups);
        forall j | 0 <= j < i ensures !Within(ranges[j], Walk(ranges, space, freq, ups).value) {
          assert Disjoint(ranges[j], ranges[i]);
        }
      }
    } else {
      var j, p := SharedFrequency(ranges, i);
      var ups := LeavesByOnes(ranges, i, freq, p);
      assert SpacingOk(1) && !Returns(ranges, i, 1, freq, ups);
    }
  }

  /** The default ranges. */
  const DEFAULT_RANGES := [Range(87500, 108000), Range(153, 282), Range(531, 1620), Range(1600, 30000)]

  lemma DefaultRangesAlone()
    ensures Alone(DEFAULT_RANGES, 0) && Alone(DEFAULT_RANGES, 1) && Alone(DEFAULT_RANGES, 2)
    ensures !Alone(DEFAULT_RANGES, 3)
  {
    assert !Disjoint(DEFAULT_RANGES[2], DEFAULT_RANGES[3]);
  }

  /** Short wave overlaps medium wave, which comes first: a step down to 1600 changes the band, and no
      sequence of steps leads back. */
  lemma ShortWaveIsLost(ups: seq<bool>)
    ensures StepIn(DEFAULT_RANGES, 100, 1700, false) == Some(1600)
    ensures var end := Walk(DEFAULT_RANGES, 100, 1600, ups); end.Some? && Within(Range(531, 1620), end.value)
  {
    DefaultRangesAlone();
    LookupFinds(DEFAULT_RANGES, 3, 1700);
    WalkStaysWithin(DEFAULT_RANGES, 2, 100, 1600, ups);
  }
}
