/** The `timespec` arithmetic at the end of timer_mgr.cpp. */
module Timespecs {
  import opened Common

  const NSEC: int := 1_000_000_000
  const MSEC: int := 1_000_000

  datatype Timespec = Timespec(sec: int, nsec: int) {
    /** The range clock_gettime promises for tv_nsec. */
    predicate Normal() {
      0 <= nsec < NSEC
    }

    /** The instant as a number of nanoseconds; the reference for everything below. */
    ghost function Nanos(): int {
      sec * NSEC + nsec
    }
  }

  /** operator+(timespec, int): add a number of milliseconds. */
  function Plus(t: Timespec, ms: int): Timespec {
    var sec := t.sec + CDiv(ms, 1000);
    var nsec := t.nsec + CMod(ms, 1000) * MSEC;
    if nsec >= NSEC then Timespec(sec + 1, nsec - NSEC) else Timespec(sec, nsec)
  }

  /** The due time create_timer computes: the `unsigned` interval is converted to the `int` that
      operator+ takes. */
  function DueTime(now: Timespec, interval: int): Timespec {
    Plus(now, ToInt32(interval))
  }

  /** operator-(timespec, timespec): a span in milliseconds, as a 32-bit int. */
  function Span(t1: Timespec, t2: Timespec): int {
    var sec := ToInt32(t1.sec - t2.sec);
    var ms := CDiv(t1.nsec - t2.nsec, MSEC);
    ToInt32(ms + ToInt32(sec * 1000))
  }

  /** operator< on timespecs. */
  predicate Less(t1: Timespec, t2: Timespec) {
    t1.sec < t2.sec || (t1.sec == t2.sec && t1.nsec < t2.nsec)
  }

  /** timespec_sum. */
  function Sum(t1: Timespec, t2: Timespec): Timespec {
    var sec := t1.sec + t2.sec;
    var nsec := t1.nsec + t2.nsec;
    if nsec >= NSEC then Timespec(sec + 1, nsec - NSEC) else Timespec(sec, nsec)
  }

  /** timespec_diff. */
  function Diff(t1: Timespec, t2: Timespec): Timespec {
    if t1.nsec < t2.nsec then
      Timespec(t1.sec - t2.sec - 1, t1.nsec + NSEC - t2.nsec)
    else
      Timespec(t1.sec - t2.sec, t1.nsec - t2.nsec)
  }

  /** C's quotient and remainder recompose the dividend, and the remainder has its sign. */
  lemma CDivMod(a: int, b: int)
    requires b > 0
    ensures a == b * CDiv(a, b) + CMod(a, b)
    ensures -b < CMod(a, b) < b
    ensures a >= 0 ==> CMod(a, b) >= 0
    ensures a <= 0 ==> CMod(a, b) <= 0 && CDiv(a, b) <= 0
  {
    var x := if a >= 0 then a else -a;
    var q, r := x / b, x % b;
    Euclid(x, b);
    if a < 0 {
      MulNeg(b, q);
      assert CDiv(a, b) == -q && CMod(a, b) == -r;
    } else {
      assert CDiv(a, b) == q && CMod(a, b) == r;
    }
  }

  lemma Euclid(x: nat, b: int)
    requires b > 0
    ensures x == b * (x / b) + x % b && 0 <= x % b < b && x / b >= 0
  {}

  lemma MulNeg(b: int, q: int)
    ensures b * (-q) == -(b * q)
  {}

  /** operator+ adds exactly that many milliseconds, whatever the sign of the argument. */
  lemma PlusExact(t: Timespec, ms: int)
    ensures Plus(t, ms).Nanos() == t.Nanos() + ms * MSEC
  {
    CDivMod(ms, 1000);
    var q, r := CDiv(ms, 1000), CMod(ms, 1000);
    assert ms * MSEC == q * NSEC + r * MSEC;
  }

  /** operator+ keeps normal form exactly when the nanosecond part does not fall below zero; for a
      non-negative argument it always does keep it. */
  lemma PlusNormal(t: Timespec, ms: int)
    requires t.Normal()
    ensures Plus(t, ms).Normal() <==> t.nsec + CMod(ms, 1000) * MSEC >= 0
    ensures ms >= 0 ==> Plus(t, ms).Normal()
  {
    CDivMod(ms, 1000);
  }

  /** A due time lies strictly after the clock reading it is computed from exactly when the
      unsigned interval is at least one millisecond and fits a signed int. */
  lemma DueTimeIsLater(now: Timespec, interval: int)
    requires now.Normal() && 0 <= interval < UINT32_SIZE
    ensures Less(now, DueTime(now, interval)) <==> 1 <= interval <= INT32_MAX
  {
    var ms := ToInt32(interval);
    CDivMod(ms, 1000);
    if 1 <= interval <= INT32_MAX {
      PlusExact(now, ms);
      PlusNormal(now, ms);
      LessIsNanosOrder(now, Plus(now, ms));
    } else if interval != 0 {
      assert ms < 0;
    }
  }

  /** operator< on normal values is the order of the instants. */
  lemma LessIsNanosOrder(t1: Timespec, t2: Timespec)
    requires t1.Normal() && t2.Normal()
    ensures Less(t1, t2) <==> t1.Nanos() < t2.Nanos()
  {
    if t1.sec < t2.sec {
      assert (t2.sec - t1.sec) * NSEC >= NSEC;
    } else if t2.sec < t1.sec {
      assert (t1.sec - t2.sec) * NSEC >= NSEC;
    }
  }

  /** timespec_sum and timespec_diff are exact, keep normal form and undo each other both ways. */
  lemma SumDiffInverse(t1: Timespec, t2: Timespec)
    requires t1.Normal() && t2.Normal()
    ensures Sum(t1, t2).Normal() && Sum(t1, t2).Nanos() == t1.Nanos() + t2.Nanos()
    ensures Diff(t1, t2).Normal() && Diff(t1, t2).Nanos() == t1.Nanos() - t2.Nanos()
    ensures Diff(Sum(t1, t2), t2) == t1
    ensures Sum(Diff(t1, t2), t2) == t1
  {}

  /** The span from `t2` to `t1` in milliseconds, before operator- squeezes it into 32 bits. */
  function Delay(t1: Timespec, t2: Timespec): int {
    CDiv(t1.nsec - t2.nsec, MSEC) + 1000 * (t1.sec - t2.sec)
  }

  /** It is off by less than one millisecond, for either sign of the nanosecond difference. */
  lemma DelayAccuracy(t1: Timespec, t2: Timespec)
    requires t1.Normal() && t2.Normal()
    ensures -MSEC < t1.Nanos() - t2.Nanos() - Delay(t1, t2) * MSEC < MSEC
    ensures Less(t2, t1) ==> Delay(t1, t2) >= 0
    ensures !Less(t2, t1) ==> Delay(t1, t2) <= 0
  {
    CDivMod(t1.nsec - t2.nsec, MSEC);
  }

  lemma ToInt32Shift(x: int) returns (k: int)
    ensures ToInt32(x) == x + k * UINT32_SIZE
  {
    k := -(x / UINT32_SIZE);
    if ToInt32(x) < 0 { k := k - 1; }
  }

  lemma ToInt32Unique(x: int, y: int, k: int)
    requires y == x + k * UINT32_SIZE
    ensures ToInt32(x) == ToInt32(y)
  {}

  /** The 32-bit conversions inside operator- only wrap its result round. */
  lemma SpanWraps(t1: Timespec, t2: Timespec)
    ensures Span(t1, t2) == ToInt32(Delay(t1, t2))
  {
    var d := t1.sec - t2.sec;
    var j := ToInt32Shift(d);
    var k := ToInt32Shift(ToInt32(d) * 1000);
    ToInt32Unique(Delay(t1, t2), CDiv(t1.nsec - t2.nsec, MSEC) + ToInt32(ToInt32(d) * 1000), j * 1000 + k);
  }

  /** operator- is off by less than one millisecond exactly when the span fits its 32-bit result. */
  lemma SpanAccurateIff(t1: Timespec, t2: Timespec)
    requires t1.Normal() && t2.Normal()
    ensures -MSEC < t1.Nanos() - t2.Nanos() - Span(t1, t2) * MSEC < MSEC
            <==> -0x8000_0000 <= Delay(t1, t2) <= INT32_MAX
  {
    SpanWraps(t1, t2);
    DelayAccuracy(t1, t2);
    var k := ToInt32Shift(Delay(t1, t2));
  }
}
