/** The software channel search of fmr_core.cpp: FMR_seek_Channel and what it calls, proved against a
    cyclic search over the grid of the band. */
module Seek {
  import opened Common

  // ---- the radio ----

  /** The reply to a soft-mute tune. */
  datatype Reply = Reply(ret: int, rssi: int, valid: bool)

  /** A channel known to be spurious below a signal threshold. */
  datatype FakeChannel = FakeChannel(freq: int, threshold: int)

  /** A fixed signal: the reply per frequency, the de-sense verdict per channel and strength, and the
      configured list of fake channels. */
  datatype Signal = Signal(tune: int -> Reply, desense: (int, int) -> int, fakes: seq<FakeChannel>)

  datatype Command = Tune(freq: int) | SoftMuteTune(freq: int)

  /** FMR_SevereDensense: the first entry for the channel decides. */
  function Severe(fakes: seq<FakeChannel>, ch: int, rssi: int): bool {
    if fakes == [] then false
    else if fakes[0].freq == ch then rssi < fakes[0].threshold
    else Severe(fakes[1..], ch, rssi)
  }

  /** The strength of a valid channel; none if it is not one. Both filters get the frequency as a
      16-bit number. */
  function Strength(sig: Signal, freq: int): Option<int> {
    var r := sig.tune(freq);
    var ch := freq % UINT16_SIZE;
    if r.ret == 0 && r.valid && sig.desense(ch, r.rssi) != 1 && !Severe(sig.fakes, ch, r.rssi)
    then Some(r.rssi) else None
  }

  /** The first entry for the channel has a threshold above the strength. */
  ghost predicate Spurious(fakes: seq<FakeChannel>, ch: int, rssi: int) {
    exists i :: 0 <= i < |fakes| && FirstEntry(fakes, i, ch) && rssi < fakes[i].threshold
  }

  ghost predicate FirstEntry(fakes: seq<FakeChannel>, i: nat, ch: int)
    requires i < |fakes|
  {
    fakes[i].freq == ch && forall j :: 0 <= j < i ==> fakes[j].freq != ch
  }

  /** The radio answers the soft-mute tune, calls the channel valid, and neither its de-sense verdict nor the
      configured list is against it. */
  ghost predicate IsStation(sig: Signal, freq: int) {
    var r := sig.tune(freq);
    && r.ret == 0 && r.valid
    && sig.desense(freq % UINT16_SIZE, r.rssi) != 1
    && !Spurious(sig.fakes, freq % UINT16_SIZE, r.rssi)
  }

  lemma {:induction false} SevereIff(fakes: seq<FakeChannel>, ch: int, rssi: int)
    ensures Severe(fakes, ch, rssi) <==> Spurious(fakes, ch, rssi)
  {
    if fakes != [] {
      if fakes[0].freq == ch {
        assert FirstEntry(fakes, 0, ch);
      } else {
        SevereIff(fakes[1..], ch, rssi);
        if Spurious(fakes[1..], ch, rssi) {
          var i :| 0 <= i < |fakes[1..]| && FirstEntry(fakes[1..], i, ch) && rssi < fakes[1..][i].threshold;
          assert FirstEntry(fakes, i + 1, ch);
        }
        if Spurious(fakes, ch, rssi) {
          var i :| 0 <= i < |fakes| && FirstEntry(fakes, i, ch) && rssi < fakes[i].threshold;
          assert FirstEntry(fakes[1..], i - 1, ch);
        }
      }
    }
  }

  /** A channel has a strength exactly when it is a station, and then the one the radio has answered. */
  lemma StrengthIff(sig: Signal, freq: int)
    ensures Strength(sig, freq).Some? <==> IsStation(sig, freq)
    ensures IsStation(sig, freq) ==> Strength(sig, freq) == Some(sig.tune(freq).rssi)
  {
    SevereIff(sig.fakes, freq % UINT16_SIZE, sig.tune(freq).rssi);
  }

  // ---- the reference: a cyclic search ----

  datatype Band = Band(min: int, max: int, space: int)

  predicate BandOk(b: Band) {
    0 <= b.min <= b.max < UINT16_SIZE && 0 < b.space < 256
  }

  /** The number of channels FMR_seek computes. */
  function Channels(b: Band): int
    requires b.space > 0
  {
    CDiv(b.max - b.min, b.space) + 1
  }

  function Freq(b: Band, i: int): int {
    b.min + b.space * i
  }

  /** The integers from `lo` up to but not including `hi`, and downwards. */
  function Up(lo: int, hi: int): seq<int>
    decreases hi - lo
  {
    if lo >= hi then [] else [lo] + Up(lo + 1, hi)
  }

  function Down(hi: int, lo: int): seq<int>
    decreases hi - lo
  {
    if hi < lo then [] else [hi] + Down(hi - 1, lo)
  }

  /** The channel numbers in search order: away from the start channel `at`, round the band. */
  function Order(at: int, n: int, forward: bool): seq<int> {
    if forward then Up(at + 1, n) + Up(0, at) else Down(at - 1, 0) + Down(n - 1, at + 1)
  }

  function Reverse(s: seq<int>): seq<int> {
    if s == [] then [] else Reverse(s[1..]) + [s[0]]
  }

  /** The next channel in a direction, if it is in the band; a 32-bit subtraction. */
  function Next(b: Band, freq: int, forward: bool): Option<int> {
    if forward then
      if freq + b.space > b.max then None else Some(freq + b.space)
    else
      var f := (freq - b.space) % UINT32_SIZE;
      if f < b.min then None else Some(f)
  }

  /** Up to `left` further channels in a direction. */
  function Neighbours(b: Band, freq: int, forward: bool, left: nat): seq<int>
    decreases left
  {
    if left == 0 then []
    else match Next(b, freq, forward)
      case None => []
      case Some(f) => [f] + Neighbours(b, f, forward, left - 1)
  }

  datatype Found = Found(freq: int, rssi: int)

  /** The best of what was found and the channels in the list: a later one must be strictly stronger. */
  function Best(sig: Signal, found: Found, freqs: seq<int>): Found
    decreases freqs
  {
    if freqs == [] then found
    else match Strength(sig, freqs[0])
      case Some(r) => Best(sig, if r > found.rssi then Found(freqs[0], r) else found, freqs[1..])
      case None => Best(sig, found, freqs[1..])
  }

  /** What the search probes, from the given channels on, when it is not stopped: up to the first
      valid channel, and then two more in that direction (`more`). */
  function Probes(sig: Signal, b: Band, order: seq<int>, more: bool): seq<int> {
    if order == [] then []
    else
      var f := Freq(b, order[0]);
      if Strength(sig, f).None? then [f] + Probes(sig, b, order[1..], more)
      else [f] + Neighbours(b, f, more, 2)
  }

  /** What an unstopped search finds. */
  function Search(sig: Signal, b: Band, order: seq<int>, more: bool): Option<Found> {
    if order == [] then None
    else
      var f := Freq(b, order[0]);
      match Strength(sig, f)
      case None => Search(sig, b, order[1..], more)
      case Some(r) => Some(Best(sig, Found(f, r), Neighbours(b, f, more, 2)))
  }

  /** Some channel of the order is a station. */
  ghost predicate OnAir(sig: Signal, b: Band, order: seq<int>) {
    exists k :: 0 <= k < |order| && IsStation(sig, Freq(b, order[k]))
  }

  lemma {:induction false} BestIsStation(sig: Signal, found: Found, freqs: seq<int>)
    requires IsStation(sig, found.freq) && found.rssi == sig.tune(found.freq).rssi
    ensures var best := Best(sig, found, freqs); IsStation(sig, best.freq) && best.rssi == sig.tune(best.freq).rssi
    decreases freqs
  {
    if freqs != [] {
      StrengthIff(sig, freqs[0]);
      var s := Strength(sig, freqs[0]);
      BestIsStation(sig, if s.Some? && s.value > found.rssi then Found(freqs[0], s.value) else found, freqs[1..]);
    }
  }

  /** The search finds a station if there is one. */
  lemma {:induction false} SearchFindsStation(sig: Signal, b: Band, order: seq<int>, more: bool)
    ensures Search(sig, b, order, more).Some? <==> OnAir(sig, b, order)
    ensures Search(sig, b, order, more).Some? ==>
              var found := Search(sig, b, order, more).value;
              IsStation(sig, found.freq) && found.rssi == sig.tune(found.freq).rssi
    decreases order
  {
    if order != [] {
      var f := Freq(b, order[0]);
      StrengthIff(sig, f);
      if IsStation(sig, f) {
        BestIsStation(sig, Found(f, sig.tune(f).rssi), Neighbours(b, f, more, 2));
      } else {
        SearchFindsStation(sig, b, order[1..], more);
        assert forall k :: 0 < k < |order| ==> order[k] == order[1..][k - 1];
      }
    }
  }

  // ---- the code ----

  /** How many of the next `n` readings of scan_stop, from number `from` on, come before the first
      that is set. */
  function Unstopped(stops: nat -> bool, from: nat, n: nat): (k: nat)
    ensures k <= n
    decreases n
  {
    if n == 0 || stops(from) then 0 else 1 + Unstopped(stops, from + 1, n - 1)
  }

  lemma {:induction false} UnstoppedFirst(stops: nat -> bool, from: nat, n: nat)
    ensures var k := Unstopped(stops, from, n);
            (k < n ==> stops(from + k)) && forall m :: from <= m < from + k ==> !stops(m)
    decreases n
  {
    if n > 0 && !stops(from) { UnstoppedFirst(stops, from + 1, n - 1); }
  }

  function SoftTunes(freqs: seq<int>): seq<Command> {
    seq(|freqs|, i requires 0 <= i < |freqs| => SoftMuteTune(freqs[i]))
  }

  /** The search state: how often scan_stop was read, the commands sent to the radio, the frequency the
      radio was tuned to before. */
  datatype Air = Air(checks: nat, commands: seq<Command>, curFreq: int)

  /** Probing the frequencies, when `k` of them are probed before scan_stop is seen. */
  function ProbedAt(a: Air, freqs: seq<int>, k: nat): Air
    requires k <= |freqs|
  {
    if k == |freqs| then Air(a.checks + k, a.commands + SoftTunes(freqs), a.curFreq)
    else Air(a.checks + k + 1, a.commands + SoftTunes(freqs[..k]) + [Tune(a.curFreq)], a.curFreq)
  }

  /** Probing the frequencies one after the other: each reads scan_stop first; at the first reading that
      is set the radio is tuned back to the current frequency and the search is over. */
  function Probed(a: Air, stops: nat -> bool, freqs: seq<int>): Air {
    ProbedAt(a, freqs, Unstopped(stops, a.checks, |freqs|))
  }

  predicate StoppedIn(a: Air, stops: nat -> bool, freqs: seq<int>) {
    Unstopped(stops, a.checks, |freqs|) < |freqs|
  }

  lemma {:induction false} UnstoppedUnique(stops: nat -> bool, from: nat, n: nat, k: nat)
    requires k <= n && (k < n ==> stops(from + k)) && forall m :: from <= m < from + k ==> !stops(m)
    ensures Unstopped(stops, from, n) == k
    decreases n
  {
    if k > 0 { UnstoppedUnique(stops, from + 1, n - 1, k - 1); }
  }

  lemma SoftTunesConcat(p: seq<int>, q: seq<int>)
    ensures SoftTunes(p + q) == SoftTunes(p) + SoftTunes(q)
  {}

  lemma StoppedConcat(a: Air, stops: nat -> bool, p: seq<int>, q: seq<int>)
    requires StoppedIn(a, stops, p)
    ensures StoppedIn(a, stops, p + q) && Probed(a, stops, p + q) == Probed(a, stops, p)
  {
    var k := Unstopped(stops, a.checks, |p|);
    UnstoppedLonger(stops, a.checks, |p|, |p| + |q|);
    assert (p + q)[..k] == p[..k];
  }

  /** The readings over a list and then another, when the first is not stopped. */
  lemma {:induction false} UnstoppedTwice(stops: nat -> bool, from: nat, m: nat, n: nat)
    requires Unstopped(stops, from, m) == m
    ensures Unstopped(stops, from, m + n) == m + Unstopped(stops, from + m, n)
    decreases m
  {
    if m > 0 { UnstoppedTwice(stops, from + 1, m - 1, n); }
  }

  lemma {:induction false} UnstoppedLonger(stops: nat -> bool, from: nat, m: nat, n: nat)
    requires Unstopped(stops, from, m) < m <= n
    ensures Unstopped(stops, from, n) == Unstopped(stops, from, m)
    decreases m
  {
    if !stops(from) { UnstoppedLonger(stops, from + 1, m - 1, n - 1); }
  }

  lemma ProbedAs(a: Air, stops: nat -> bool, freqs: seq<int>, k: nat)
    requires k <= |freqs| && Unstopped(stops, a.checks, |freqs|) == k
    ensures Probed(a, stops, freqs) == ProbedAt(a, freqs, k) && (StoppedIn(a, stops, freqs) <==> k < |freqs|)
  {}

  lemma UnstoppedConcat(a: Air, stops: nat -> bool, p: seq<int>, q: seq<int>)
    requires !StoppedIn(a, stops, p)
    ensures StoppedIn(a, stops, p + q) == StoppedIn(Probed(a, stops, p), stops, q)
    ensures Probed(a, stops, p + q) == Probed(Probed(a, stops, p), stops, q)
  {
    var m, r := |p|, p + q;
    var a1 := ProbedAt(a, p, m);
    var j := Unstopped(stops, a1.checks, |q|);
    assert a1.checks == a.checks + m && |r| == m + |q|;
    UnstoppedTwice(stops, a.checks, m, |q|);
    ProbedAs(a, stops, p, m);
    ProbedAs(a, stops, r, m + j);
    ProbedAs(a1, stops, q, j);
    ProbedAtConcat(a, p, q, j);
  }

  /** The commands add up. */
  lemma ProbedAtConcat(a: Air, p: seq<int>, q: seq<int>, j: nat)
    requires j <= |q|
    ensures ProbedAt(a, p + q, |p| + j) == ProbedAt(ProbedAt(a, p, |p|), q, j)
  {
    SoftTunesConcat(p, q);
    TakePast(p, q, j);
    SoftTunesConcat(p, q[..j]);
  }

  lemma TakePast(p: seq<int>, q: seq<int>, j: nat)
    requires j <= |q|
    ensures (p + q)[..|p| + j] == p + q[..j]
  {}

  /** Probing a list and then another is probing their concatenation. */
  lemma ProbedConcat(a: Air, stops: nat -> bool, p: seq<int>, q: seq<int>)
    ensures StoppedIn(a, stops, p) ==> StoppedIn(a, stops, p + q) && Probed(a, stops, p + q) == Probed(a, stops, p)
    ensures !StoppedIn(a, stops, p) ==>
              && StoppedIn(a, stops, p + q) == StoppedIn(Probed(a, stops, p), stops, q)
              && Probed(a, stops, p + q) == Probed(Probed(a, stops, p), stops, q)
  {
    if StoppedIn(a, stops, p) {
      StoppedConcat(a, stops, p, q);
    } else {
      UnstoppedConcat(a, stops, p, q);
    }
  }

  /** What remains of a search after probing `done` in vain: the channels of `rest`. */
  ghost predicate Pending(sig: Signal, b: Band, order: seq<int>, more: bool, done: seq<int>, rest: seq<int>) {
    && Probes(sig, b, order, more) == done + Probes(sig, b, rest, more)
    && Search(sig, b, order, more) == Search(sig, b, rest, more)
  }

  lemma PendingStep(sig: Signal, b: Band, order: seq<int>, more: bool, done: seq<int>, rest: seq<int>)
    requires Pending(sig, b, order, more, done, rest) && rest != []
    ensures var f := Freq(b, rest[0]);
            if Strength(sig, f).None?
            then Pending(sig, b, order, more, done + [f], rest[1..])
            else
              && Probes(sig, b, order, more) == (done + [f]) + Neighbours(b, f, more, 2)
              && Search(sig, b, order, more)
                 == Some(Best(sig, Found(f, Strength(sig, f).value), Neighbours(b, f, more, 2)))
  {
    var f := Freq(b, rest[0]);
    Regroup(done, f, if Strength(sig, f).None? then Probes(sig, b, rest[1..], more) else Neighbours(b, f, more, 2));
  }

  lemma Regroup(done: seq<int>, f: int, tail: seq<int>)
    ensures done + ([f] + tail) == (done + [f]) + tail
  {}

  /** One more probe after `done`: either it is the one that stops the search, or the search goes on. */
  lemma ProbeOne(a: Air, stops: nat -> bool, done: seq<int>, f: int, rest: seq<int>)
    requires !StoppedIn(a, stops, done)
    ensures var a1 := Probed(a, stops, done);
            if StoppedIn(a1, stops, [f])
            then && StoppedIn(a, stops, (done + [f]) + rest)
                 && Probed(a, stops, (done + [f]) + rest) == Probed(a1, stops, [f])
            else !StoppedIn(a, stops, done + [f]) && Probed(a, stops, done + [f]) == Probed(a1, stops, [f])
  {
    ProbedConcat(a, stops, done, [f]);
    ProbedConcat(a, stops, done + [f], rest);
  }

  /** What trying one channel probes: the channel, and two more if it is valid. */
  function TryProbes(sig: Signal, b: Band, f: int, more: bool): seq<int> {
    if Strength(sig, f).None? then [f] else [f] + Neighbours(b, f, more, 2)
  }

  /** Trying the next channel of a pending search: it stops the search, ends it, or leaves the rest. */
  lemma SeekProbe(a: Air, stops: nat -> bool, sig: Signal, b: Band, order: seq<int>, more: bool,
                  done: seq<int>, rest: seq<int>)
    requires Pending(sig, b, order, more, done, rest) && rest != [] && !StoppedIn(a, stops, done)
    ensures var f := Freq(b, rest[0]);
            var p := TryProbes(sig, b, f, more);
            var a1 := Probed(a, stops, done);
            var all := Probes(sig, b, order, more);
            if StoppedIn(a1, stops, p) then StoppedIn(a, stops, all) && Probed(a, stops, all) == Probed(a1, stops, p)
            else if Strength(sig, f).None? then
              && Pending(sig, b, order, more, done + [f], rest[1..])
              && !StoppedIn(a, stops, done + [f]) && Probed(a, stops, done + [f]) == Probed(a1, stops, p)
            else
              && !StoppedIn(a, stops, all) && Probed(a, stops, all) == Probed(a1, stops, p)
              && Search(sig, b, order, more)
                 == Some(Best(sig, Found(f, Strength(sig, f).value), Neighbours(b, f, more, 2)))
  {
    var f := Freq(b, rest[0]);
    var p := TryProbes(sig, b, f, more);
    PendingStep(sig, b, order, more, done, rest);
    ProbedConcat(a, stops, done, p);
    if Strength(sig, f).None? {
      ProbedConcat(a, stops, done + p, Probes(sig, b, rest[1..], more));
    } else {
      assert (done + [f]) + Neighbours(b, f, more, 2) == done + p;
    }
  }

  lemma ConsConcat(i: int, s: seq<int>, tail: seq<int>)
    ensures ([i] + s) + tail == [i] + (s + tail)
  {}

  lemma UpTail(i: int, hi: int, tail: seq<int>)
    ensures i >= hi ==> Up(i, hi) + tail == tail
    ensures i < hi ==> Up(i, hi) + tail == [i] + (Up(i + 1, hi) + tail)
  {
    if i < hi { ConsConcat(i, Up(i + 1, hi), tail); }
  }

  lemma DownTail(i: int, lo: int, tail: seq<int>)
    ensures i < lo ==> Down(i, lo) + tail == tail
    ensures i >= lo ==> Down(i, lo) + tail == [i] + (Down(i - 1, lo) + tail)
  {
    if i >= lo { ConsConcat(i, Down(i - 1, lo), tail); }
  }

  datatype Verdict = Halt | Onward | Hit(found: Found)

  /** Where the search is: `done` was probed in vain and without being stopped, `rest` remains. */
  ghost predicate Searching(a: Air, now: Air, stops: nat -> bool, sig: Signal, b: Band, order: seq<int>,
                            more: bool, done: seq<int>, rest: seq<int>) {
    && Pending(sig, b, order, more, done, rest)
    && now == Probed(a, stops, done)
    && !StoppedIn(a, stops, done)
  }

  /** Where the search is after one of its loops. */
  ghost predicate Swept(a: Air, now: Air, stops: nat -> bool, sig: Signal, b: Band, order: seq<int>,
                        more: bool, done: seq<int>, rest: seq<int>, v: Verdict) {
    var all := Probes(sig, b, order, more);
    match v
    case Onward => Searching(a, now, stops, sig, b, order, more, done, rest)
    case Halt => StoppedIn(a, stops, all) && now == Probed(a, stops, all)
    case Hit(found) =>
      !StoppedIn(a, stops, all) && now == Probed(a, stops, all) && Search(sig, b, order, more) == Some(found)
  }

  lemma SearchStarts(a: Air, stops: nat -> bool, sig: Signal, b: Band, order: seq<int>, more: bool)
    ensures Searching(a, a, stops, sig, b, order, more, [], order)
  {
    assert [] + Probes(sig, b, order, more) == Probes(sig, b, order, more);
    assert SoftTunes([]) == [];
    assert a.commands + [] == a.commands;
  }

  /** What remains of FMR_Seek_More after the channels in `done`. */
  ghost predicate MorePending(sig: Signal, b: Band, forward: bool, first: Found, all: seq<int>,
                              done: seq<int>, found: Found, cur: int, left: nat) {
    && all == done + Neighbours(b, cur, forward, left)
    && Best(sig, first, all) == Best(sig, found, Neighbours(b, cur, forward, left))
  }

  lemma MoreStep(sig: Signal, b: Band, forward: bool, first: Found, all: seq<int>,
                 done: seq<int>, found: Found, cur: int, left: nat)
    requires left > 0 && MorePending(sig, b, forward, first, all, done, found, cur, left)
    requires Next(b, cur, forward).Some?
    ensures var f := Next(b, cur, forward).value;
            var found1 := if Strength(sig, f).Some? && Strength(sig, f).value > found.rssi
                          then Found(f, Strength(sig, f).value) else found;
            && all == (done + [f]) + Neighbours(b, f, forward, left - 1)
            && MorePending(sig, b, forward, first, all, done + [f], found1, f, left - 1)
  {
    var f := Next(b, cur, forward).value;
    var tail := Neighbours(b, f, forward, left - 1);
    Regroup(done, f, tail);
    assert ([f] + tail)[1..] == tail;
  }

  /** The start and the end of FMR_Seek_More. */
  lemma MoreEnds(sig: Signal, b: Band, forward: bool, first: Found, all: seq<int>,
                 done: seq<int>, found: Found, cur: int, left: nat)
    requires MorePending(sig, b, forward, first, all, done, found, cur, left)
    requires left == 0 || Next(b, cur, forward).None?
    ensures all == done && Best(sig, first, all) == found
  {
    assert done + [] == done;
  }

  lemma MoreStarts(sig: Signal, b: Band, forward: bool, first: Found, left: nat)
    ensures MorePending(sig, b, forward, first, Neighbours(b, first.freq, forward, left), [], first, first.freq, left)
  {
    assert [] + Neighbours(b, first.freq, forward, left) == Neighbours(b, first.freq, forward, left);
  }

  lemma NothingProbed(a: Air, stops: nat -> bool)
    ensures Probed(a, stops, []) == a && !StoppedIn(a, stops, [])
  {
    assert SoftTunes([]) == [] && a.commands + [] == a.commands;
  }

  class Tuner {
    const sig: Signal
    /** The value of scan_stop at the k-th time it is read. */
    const stops: nat -> bool
    var checks: nat
    var curFreq: int
    var commands: seq<Command>

    function State(): Air
      reads this
    {
      Air(checks, commands, curFreq)
    }

    constructor (sig: Signal, stops: nat -> bool, curFreq: int)
      ensures this.sig == sig && this.stops == stops
      ensures State() == Air(0, [], curFreq)
    {
      this.sig, this.stops, this.curFreq := sig, stops, curFreq;
      checks, commands := 0, [];
    }

    /** FMR_tune. */
    method TuneTo(freq: int)
      modifies this
      ensures State() == old(State()).(commands := old(commands) + [Tune(freq)], curFreq := freq)
    {
      commands := commands + [Tune(freq)];
      curFreq := freq;
    }

    /** FMR_SevereDensense. */
    method SevereDensense(ch: int, rssi: int) returns (severe: bool)
      ensures severe == Severe(sig.fakes, ch, rssi)
      ensures severe <==> Spurious(sig.fakes, ch, rssi)
    {
      SevereIff(sig.fakes, ch, rssi);
      var i := 0;
      while i < |sig.fakes|
        invariant 0 <= i <= |sig.fakes|
        invariant Severe(sig.fakes, ch, rssi) == Severe(sig.fakes[i..], ch, rssi)
      {
        if sig.fakes[i].freq == ch {
          return rssi < sig.fakes[i].threshold;
        }
        i := i + 1;
      }
      return false;
    }

    /** FMR_Seek_TuneCheck: `go` is false if the search has been stopped. */
    method TuneCheck(freq: int) returns (go: bool, valid: bool, rssi: int)
      modifies this
      ensures State() == Probed(old(State()), stops, [freq])
      ensures go == !StoppedIn(old(State()), stops, [freq])
      ensures go ==> valid == Strength(sig, freq).Some? && (valid ==> rssi == Strength(sig, freq).value)
      ensures go ==> (valid <==> IsStation(sig, freq)) && (valid ==> rssi == sig.tune(freq).rssi)
    {
      StrengthIff(sig, freq);
      UnstoppedUnique(stops, checks, 1, if stops(checks) then 0 else 1);
      var stop := stops(checks);
      checks := checks + 1;
      if stop {
        TuneTo(curFreq);
        return false, false, 0;
      }
      commands := commands + [SoftMuteTune(freq)];
      assert SoftTunes([freq]) == [SoftMuteTune(freq)];
      var reply := sig.tune(freq);
      if reply.ret != 0 { return true, false, 0; }
      if reply.valid {
        var ch := freq % UINT16_SIZE;
        if sig.desense(ch, reply.rssi) == 1 { return true, false, 0; }
        var severe := SevereDensense(ch, reply.rssi);
        if severe { return true, false, 0; }
      }
      return true, reply.valid, reply.rssi;
    }

    /** Probe one further channel and keep the stronger. */
    method Compare(freq: int, found: Found) returns (go: bool, better: Found)
      modifies this
      ensures State() == Probed(old(State()), stops, [freq])
      ensures go == !StoppedIn(old(State()), stops, [freq])
      ensures go ==> better == if Strength(sig, freq).Some? && Strength(sig, freq).value > found.rssi
                               then Found(freq, Strength(sig, freq).value) else found
    {
      better := found;
      var valid, rssi;
      go, valid, rssi := TuneCheck(freq);
      if go && valid && rssi > found.rssi {
        better := Found(freq, rssi);
      }
    }

    /** One iteration of FMR_Seek_More, when there is a next channel. */
    method CompareNext(b: Band, first: Found, forward: bool, found: Found, cur: int,
                       ghost a: Air, ghost done: seq<int>, ghost left: nat)
        returns (go: bool, better: Found)
      requires BandOk(b) && left > 0 && Next(b, cur, forward).Some?
      requires MorePending(sig, b, forward, first, Neighbours(b, first.freq, forward, 2), done, found, cur, left)
      requires State() == Probed(a, stops, done) && !StoppedIn(a, stops, done)
      modifies this
      ensures var f := Next(b, cur, forward).value;
              var all := Neighbours(b, first.freq, forward, 2);
              if go then
                && MorePending(sig, b, forward, first, all, done + [f], better, f, left - 1)
                && State() == Probed(a, stops, done + [f]) && !StoppedIn(a, stops, done + [f])
              else StoppedIn(a, stops, all) && State() == Probed(a, stops, all)
    {
      ghost var all := Neighbours(b, first.freq, forward, 2);
      var f := Next(b, cur, forward).value;
      MoreStep(sig, b, forward, first, all, done, found, cur, left);
      ProbeOne(a, stops, done, f, Neighbours(b, f, forward, left - 1));
      go, better := Compare(f, found);
    }

    /** FMR_Seek_More: two further channels in a direction; 0 with the best, or -1 if stopped. */
    method SeekMore(b: Band, first: Found, forward: bool) returns (ret: int, found: Found)
      requires BandOk(b)
      modifies this
      ensures State() == Probed(old(State()), stops, Neighbours(b, first.freq, forward, 2))
      ensures ret == if StoppedIn(old(State()), stops, Neighbours(b, first.freq, forward, 2)) then -1 else 0
      ensures ret == 0 ==> found == Best(sig, first, Neighbours(b, first.freq, forward, 2))
    {
      found := first;
      var cur := first.freq;
      ghost var all := Neighbours(b, first.freq, forward, 2);
      ghost var done: seq<int> := [];
      MoreStarts(sig, b, forward, first, 2);
      NothingProbed(State(), stops);
      for i := 0 to 2
        invariant MorePending(sig, b, forward, first, all, done, found, cur, 2 - i)
        invariant State() == Probed(old(State()), stops, done) && !StoppedIn(old(State()), stops, done)
      {
        var next := Next(b, cur, forward);
        if next.None? {
          MoreEnds(sig, b, forward, first, all, done, found, cur, 2 - i);
          return 0, found;
        }
        var go;
        go, found := CompareNext(b, first, forward, found, cur, old(State()), done, 2 - i);
        cur := next.value;
        if !go { return -1, found; }
        done := done + [cur];
      }
      MoreEnds(sig, b, forward, first, all, done, found, cur, 0);
      return 0, found;
    }

    /** The body of the four loops of FMR_seek_Channel. */
    method TryChannel(b: Band, f: int, more: bool) returns (v: Verdict)
      requires BandOk(b)
      modifies this
      ensures State() == Probed(old(State()), stops, TryProbes(sig, b, f, more))
      ensures v.Halt? == StoppedIn(old(State()), stops, TryProbes(sig, b, f, more))
      ensures v.Onward? ==> Strength(sig, f).None?
      ensures v.Hit? ==> Strength(sig, f).Some?
                         && v.found == Best(sig, Found(f, Strength(sig, f).value), Neighbours(b, f, more, 2))
    {
      ProbedConcat(State(), stops, [f], Neighbours(b, f, more, 2));
      var go, valid, rssi := TuneCheck(f);
      if !go { return Halt; }
      if !valid { return Onward; }
      var ret, found := SeekMore(b, Found(f, rssi), more);
      if ret != 0 { return Halt; }
      return Hit(found);
    }

    /** One iteration of those loops, on the first channel of what remains. */
    method SweepOne(b: Band, i: int, more: bool, ghost a: Air, ghost order: seq<int>, ghost done: seq<int>,
                    ghost rest: seq<int>)
        returns (v: Verdict)
      requires BandOk(b)
      requires Searching(a, State(), stops, sig, b, order, more, done, [i] + rest)
      modifies this
      ensures Swept(a, State(), stops, sig, b, order, more, done + [Freq(b, i)], rest, v)
    {
      assert ([i] + rest)[1..] == rest;
      SeekProbe(a, stops, sig, b, order, more, done, [i] + rest);
      v := TryChannel(b, Freq(b, i), more);
    }

    /** The first and third loops: channels `lo`, `lo + 1`, and so on below `hi`. */
    method SweepUp(b: Band, lo: int, hi: int, more: bool,
                   ghost a: Air, ghost order: seq<int>, ghost done: seq<int>, ghost tail: seq<int>)
        returns (v: Verdict, ghost done': seq<int>)
      requires BandOk(b)
      requires Searching(a, State(), stops, sig, b, order, more, done, Up(lo, hi) + tail)
      modifies this
      ensures Swept(a, State(), stops, sig, b, order, more, done', tail, v)
    {
      done' := done;
      ghost var rest := Up(lo, hi) + tail;
      var i := lo;
      while i < hi
        invariant rest == Up(i, hi) + tail
        invariant Searching(a, State(), stops, sig, b, order, more, done', rest)
        decreases hi - i
      {
        UpTail(i, hi, tail);
        rest := Up(i + 1, hi) + tail;
        v := SweepOne(b, i, more, a, order, done', rest);
        done' := done' + [Freq(b, i)];
        if !v.Onward? { return; }
        i := i + 1;
      }
      UpTail(i, hi, tail);
      return Onward, done';
    }

    /** The second and fourth loops: channels `hi`, `hi - 1`, and so on down to `lo`. */
    method SweepDown(b: Band, hi: int, lo: int, more: bool,
                     ghost a: Air, ghost order: seq<int>, ghost done: seq<int>, ghost tail: seq<int>)
        returns (v: Verdict, ghost done': seq<int>)
      requires BandOk(b)
      requires Searching(a, State(), stops, sig, b, order, more, done, Down(hi, lo) + tail)
      modifies this
      ensures Swept(a, State(), stops, sig, b, order, more, done', tail, v)
    {
      done' := done;
      ghost var rest := Down(hi, lo) + tail;
      var i := hi;
      while i >= lo
        invariant rest == Down(i, lo) + tail
        invariant Searching(a, State(), stops, sig, b, order, more, done', rest)
        decreases i - lo
      {
        DownTail(i, lo, tail);
        rest := Down(i - 1, lo) + tail;
        v := SweepOne(b, i, more, a, order, done', rest);
        done' := done' + [Freq(b, i)];
        if !v.Onward? { return; }
        i := i - 1;
      }
      DownTail(i, lo, tail);
      return Onward, done';
    }

    /** FMR_seek_Channel. The two results are passed in, and out again when they are not written. */
    method SeekChannel(b: Band, start: int, n: int, dir: int, freqIn: int, rssiIn: int)
        returns (ret: int, freq: int, rssi: int)
      requires BandOk(b) && 0 <= start < UINT16_SIZE
      modifies this
      ensures var order := Order(CDiv(start - b.min, b.space), n, dir == 1);
              var more := dir % 256 != 0;
              var all := Probes(sig, b, order, more);
              && State() == Probed(old(State()), stops, all)
              && (ret, freq, rssi) ==
                   if StoppedIn(old(State()), stops, all) then (-1, freqIn, rssiIn)
                   else match Search(sig, b, order, more)
                     case Some(f) => (0, f.freq, f.rssi)
                     case None => (0, start, rssiIn)
      ensures var order := Order(CDiv(start - b.min, b.space), n, dir == 1);
              ret == 0 ==> if OnAir(sig, b, order) then IsStation(sig, freq) && rssi == sig.tune(freq).rssi
                           else freq == start && rssi == rssiIn
    {
      SearchFindsStation(sig, b, Order(CDiv(start - b.min, b.space), n, dir == 1), dir % 256 != 0);
      freq, rssi := freqIn, rssiIn;
      var at := CDiv(start - b.min, b.space);
      var more := dir % 256 != 0;
      ghost var was := State();
      ghost var order := Order(at, n, dir == 1);
      ghost var done := [];
      SearchStarts(was, stops, sig, b, order, more);
      var v;
      if dir == 1 {
        v, done := SweepUp(b, at + 1, n, more, was, order, done, Up(0, at));
        if v.Onward? {
          assert Up(0, at) + [] == Up(0, at);
          v, done := SweepUp(b, 0, at, more, was, order, done, []);
        }
      } else {
        v, done := SweepDown(b, at - 1, 0, more, was, order, done, Down(n - 1, at + 1));
        if v.Onward? {
          assert Down(n - 1, at + 1) + [] == Down(n - 1, at + 1);
          v, done := SweepDown(b, n - 1, at + 1, more, was, order, done, []);
        }
      }
      match v
      case Halt => return -1, freq, rssi;
      case Hit(found) => return 0, found.freq, found.rssi;
      case Onward =>
        assert Probes(sig, b, order, more) == done;
        return 0, start, rssi;
    }
  }
}
