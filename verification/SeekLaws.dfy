/** What the search of Seek guarantees: a cyclic sweep of the grid that returns the strongest of the
    first valid channel and its two successors, and a clean way out when it is stopped. */
module SeekLaws {
  import opened Common
  import opened Seek

  // ---- the order of the search ----

  lemma {:induction false} UpMembers(lo: int, hi: int)
    ensures forall i :: i in Up(lo, hi) <==> lo <= i < hi
    ensures |Up(lo, hi)| == if lo < hi then hi - lo else 0
    ensures forall k :: 0 <= k < |Up(lo, hi)| ==> Up(lo, hi)[k] == lo + k
    decreases hi - lo
  {
    if lo < hi {
      UpMembers(lo + 1, hi);
      assert Up(lo, hi) == [lo] + Up(lo + 1, hi);
    }
  }

  lemma {:induction false} ReverseConcat(a: seq<int>, b: seq<int>)
    ensures Reverse(a + b) == Reverse(b) + Reverse(a)
  {
    if a == [] {
      assert a + b == b;
    } else {
      assert (a + b)[1..] == a[1..] + b;
      ReverseConcat(a[1..], b);
    }
  }

  lemma {:induction false} ReverseMembers(a: seq<int>)
    ensures |Reverse(a)| == |a| && forall x :: x in Reverse(a) <==> x in a
  {
    if a != [] {
      ReverseMembers(a[1..]);
      assert a == [a[0]] + a[1..];
    }
  }

  lemma {:induction false} DownIsReverse(hi: int, lo: int)
    ensures Down(hi, lo) == Reverse(Up(lo, hi + 1))
    decreases hi - lo
  {
    if hi >= lo {
      DownIsReverse(hi - 1, lo);
      UpMembers(lo, hi + 1);
      UpMembers(lo, hi);
      assert Up(lo, hi + 1) == Up(lo, hi) + [hi];
      ReverseConcat(Up(lo, hi), [hi]);
      assert [hi][1..] == [];
    }
  }

  lemma {:induction false} DownMembers(hi: int, lo: int)
    ensures |Down(hi, lo)| == if hi < lo then 0 else hi - lo + 1
    ensures forall k :: 0 <= k < |Down(hi, lo)| ==> Down(hi, lo)[k] == hi - k
    decreases hi - lo
  {
    if hi >= lo { DownMembers(hi - 1, lo); }
  }

  /** The backward search probes in exactly the reverse of the forward order. */
  lemma BackwardIsReverse(at: int, n: int)
    ensures Order(at, n, false) == Reverse(Order(at, n, true))
  {
    DownIsReverse(at - 1, 0);
    DownIsReverse(n - 1, at + 1);
    ReverseConcat(Up(at + 1, n), Up(0, at));
  }

  lemma OrderMembers(at: int, n: int, forward: bool)
    ensures forall i :: i in Order(at, n, forward) <==> at < i < n || 0 <= i < at
  {
    UpMembers(at + 1, n);
    UpMembers(0, at);
    if !forward {
      BackwardIsReverse(at, n);
      ReverseMembers(Order(at, n, true));
    }
  }

  /** From a start channel in the band, the search visits every other channel exactly once: forward,
      the k-th one visited is the k-th after the start, counted round the band. */
  lemma OrderIsCyclic(at: int, n: int, k: nat)
    requires 0 <= at < n && k < n - 1
    ensures |Order(at, n, true)| == n - 1
    ensures Order(at, n, true)[k] == (at + 1 + k) % n
  {
    UpMembers(at + 1, n);
    UpMembers(0, at);
    ModWrap(at + 1 + k, n);
    if at + 1 + k >= n {
      assert Order(at, n, true)[k] == Up(0, at)[k - (n - at - 1)];
    }
  }

  /** The search stays inside the band exactly when the start is no more than one channel outside:
      the caller's check of the start frequency does not depend on the band. */
  lemma StaysInBandIff(at: int, n: int, forward: bool)
    requires n >= 1
    ensures (forall i :: i in Order(at, n, forward) ==> 0 <= i < n) <==> -1 <= at <= n
  {
    OrderMembers(at, n, forward);
    if at < -1 {
      assert -1 in Order(at, n, forward);
    } else if at > n {
      assert n in Order(at, n, forward);
    }
  }

  /** Seeking from 76.0 MHz, which the caller accepts, in the band 87.5 to 108 MHz probes below it. */
  lemma StartBelowBandLeavesIt()
    ensures var b := Band(8750, 10800, 10);
            var at := CDiv(7600 - b.min, b.space);
            Freq(b, Order(at, Channels(b), true)[0]) == 7610
  {
    assert CDiv(7600 - 8750, 10) == -115;
    UpMembers(-114, 206);
  }

  // ---- the channels compared ----

  lemma ChannelBound(b: Band, i: int)
    requires BandOk(b)
    ensures i < Channels(b) <==> Freq(b, i) <= b.max
    ensures 0 <= i <==> b.min <= Freq(b, i)
  {
    var q := (b.max - b.min) / b.space;
    var r := (b.max - b.min) % b.space;
    assert b.max - b.min == b.space * q + r;
    if i <= q {
      assert b.space * i <= b.space * q;
    } else {
      assert b.space * i >= b.space * (q + 1);
    }
    if i < 0 { assert b.space * i < 0; }
  }

  /** From a channel of the grid, FMR_Seek_More takes the next channel number, if it is in the band. */
  lemma NextOnGrid(b: Band, i: int, forward: bool)
    requires BandOk(b) && b.min >= b.space && 0 <= i < Channels(b)
    ensures var j := if forward then i + 1 else i - 1;
            Next(b, Freq(b, i), forward) == if 0 <= j < Channels(b) then Some(Freq(b, j)) else None
  {
    var j := if forward then i + 1 else i - 1;
    ChannelBound(b, i);
    ChannelBound(b, j);
    assert b.space * (i + 1) == b.space * i + b.space;
    assert b.space * (i - 1) == b.space * i - b.space;
  }

  /** The next channel down from this one, if any, is a channel. */
  predicate NextIsChannel(b: Band, i: int)
    requires b.space > 0
  {
    var next := Next(b, Freq(b, i), false);
    next.Some? ==> exists j :: 0 <= j < Channels(b) && Freq(b, j) == next.value
  }

  /** Going down from a channel never leaves the channels exactly when the band begins no lower than one
      spacing: below that the 32-bit subtraction wraps. */
  lemma NextStaysOnGridIff(b: Band)
    requires BandOk(b)
    ensures (forall i :: 0 <= i < Channels(b) ==> NextIsChannel(b, i)) <==> b.min >= b.space
  {
    if b.min >= b.space {
      forall i | 0 <= i < Channels(b) ensures NextIsChannel(b, i) { NextOnGrid(b, i, false); }
    } else {
      ChannelBound(b, 0);
      forall j | 0 <= j < Channels(b) ensures Freq(b, j) <= b.max { ChannelBound(b, j); }
      assert Next(b, Freq(b, 0), false) == Some(UINT32_SIZE + b.min - b.space);
      assert !NextIsChannel(b, 0);
    }
  }

  /** The numbers of the channels compared with channel `i`. */
  function Window(i: int, n: int, forward: bool): seq<int> {
    if forward then Up(i + 1, if i + 3 < n then i + 3 else n)
    else Down(i - 1, if i - 2 > 0 then i - 2 else 0)
  }

  lemma NeighboursOnGrid(b: Band, i: int, forward: bool)
    requires BandOk(b) && b.min >= b.space && 0 <= i < Channels(b)
    ensures var w := Window(i, Channels(b), forward);
            && |Neighbours(b, Freq(b, i), forward, 2)| == |w| <= 2
            && forall k :: 0 <= k < |w| ==>
                 && w[k] == (if forward then i + 1 + k else i - 1 - k)
                 && 0 <= w[k] < Channels(b)
                 && Neighbours(b, Freq(b, i), forward, 2)[k] == Freq(b, w[k])
  {
    var n := Channels(b);
    var j := if forward then i + 1 else i - 1;
    var w := Window(i, n, forward);
    NextOnGrid(b, i, forward);
    if forward {
      UpMembers(i + 1, if i + 3 < n then i + 3 else n);
    } else {
      DownMembers(i - 1, if i - 2 > 0 then i - 2 else 0);
    }
    if 0 <= j < n {
      NextOnGrid(b, j, forward);
      var j2 := if forward then j + 1 else j - 1;
      assert Neighbours(b, Freq(b, j), forward, 1) == if 0 <= j2 < n then [Freq(b, j2)] else [];
    }
  }

  /** `found` is a station of the list, strictly stronger than those before it and at least as strong as
      those after it. */
  ghost predicate Strongest(sig: Signal, freqs: seq<int>, found: Found) {
    exists j :: 0 <= j < |freqs| && StrongestAt(sig, freqs, found, j)
  }

  ghost predicate StrongestAt(sig: Signal, freqs: seq<int>, found: Found, j: nat)
    requires j < |freqs|
  {
    && found.freq == freqs[j] && IsStation(sig, freqs[j]) && found.rssi == sig.tune(freqs[j]).rssi
    && (forall k :: 0 <= k < j && IsStation(sig, freqs[k]) ==> sig.tune(freqs[k]).rssi < found.rssi)
    && (forall k :: j < k < |freqs| && IsStation(sig, freqs[k]) ==> sig.tune(freqs[k]).rssi <= found.rssi)
  }

  lemma {:induction false} BestIsStrongest(sig: Signal, past: seq<int>, found: Found, freqs: seq<int>)
    requires Strongest(sig, past, found)
    ensures Strongest(sig, past + freqs, Best(sig, found, freqs))
    decreases freqs
  {
    if freqs == [] {
      assert past + freqs == past;
    } else {
      var f := freqs[0];
      StrengthIff(sig, f);
      var s := Strength(sig, f);
      var found1 := if s.Some? && s.value > found.rssi then Found(f, s.value) else found;
      var past1 := past + [f];
      var j :| 0 <= j < |past| && StrongestAt(sig, past, found, j);
      if found1 != found {
        assert StrongestAt(sig, past1, found1, |past|);
      } else {
        assert StrongestAt(sig, past1, found1, j);
      }
      BestIsStrongest(sig, past1, found1, freqs[1..]);
      assert past1 + freqs[1..] == past + freqs;
    }
  }

  // ---- the search as a whole ----

  /** The first station of the order is number `p`. */
  ghost predicate FirstStation(sig: Signal, b: Band, order: seq<int>, p: nat) {
    && p < |order|
    && IsStation(sig, Freq(b, order[p]))
    && forall k :: 0 <= k < p ==> !IsStation(sig, Freq(b, order[k]))
  }

  lemma {:induction false} SearchFindsFirst(sig: Signal, b: Band, order: seq<int>, more: bool)
    ensures Search(sig, b, order, more).None?
            <==> forall k :: 0 <= k < |order| ==> !IsStation(sig, Freq(b, order[k]))
    ensures Search(sig, b, order, more).Some? ==>
              exists p :: 0 <= p < |order| && FirstStation(sig, b, order, p) && FoundAt(sig, b, order, more, p)
    decreases order
  {
    if order != [] {
      StrengthIff(sig, Freq(b, order[0]));
      if IsStation(sig, Freq(b, order[0])) {
        assert FirstStation(sig, b, order, 0) && FoundAt(sig, b, order, more, 0);
      } else {
        SearchFindsFirst(sig, b, order[1..], more);
        assert forall k :: 0 < k < |order| ==> order[k] == order[1..][k - 1];
        if Search(sig, b, order, more).Some? {
          var p :| 0 <= p < |order[1..]| && FirstStation(sig, b, order[1..], p) && FoundAt(sig, b, order[1..], more, p);
          assert FirstStation(sig, b, order, p + 1) && FoundAt(sig, b, order, more, p + 1);
        }
      }
    }
  }

  ghost predicate FoundAt(sig: Signal, b: Band, order: seq<int>, more: bool, p: nat)
    requires p < |order|
  {
    var f := Freq(b, order[p]);
    && Strength(sig, f).Some?
    && Search(sig, b, order, more) == Some(Best(sig, Found(f, Strength(sig, f).value), Neighbours(b, f, more, 2)))
  }

  /** Nothing is found exactly when no channel of the order is a station. Otherwise no station comes before the
      first one, and of that one and the channels compared with it the strongest station is found, with the
      strength that the radio has answered. */
  lemma SearchIsExact(sig: Signal, b: Band, order: seq<int>, more: bool)
    ensures match Search(sig, b, order, more)
            case None => forall k :: 0 <= k < |order| ==> !IsStation(sig, Freq(b, order[k]))
            case Some(found) =>
              && IsStation(sig, found.freq) && found.rssi == sig.tune(found.freq).rssi
              && exists p :: 0 <= p < |order| && FirstStation(sig, b, order, p)
                   && Strongest(sig, [Freq(b, order[p])] + Neighbours(b, Freq(b, order[p]), more, 2), found)
  {
    SearchFindsFirst(sig, b, order, more);
    if Search(sig, b, order, more).Some? {
      var p :| 0 <= p < |order| && FirstStation(sig, b, order, p) && FoundAt(sig, b, order, more, p);
      var f := Freq(b, order[p]);
      StrengthIff(sig, f);
      assert StrongestAt(sig, [f], Found(f, Strength(sig, f).value), 0);
      BestIsStrongest(sig, [f], Found(f, Strength(sig, f).value), Neighbours(b, f, more, 2));
    }
  }

  /** The result is a channel of the band's grid. */
  ghost predicate OnGrid(b: Band, freq: int)
    requires b.space > 0
  {
    exists i :: 0 <= i < Channels(b) && freq == Freq(b, i)
  }

  /** The search refines a cyclic one. For a start on the grid it finds nothing exactly when no other
      channel is a station; otherwise it finds, in the band and on the grid, the strongest (ties to the
      earlier) of the first station in cyclic order and the next two channels in that direction. */
  lemma SearchRefinesCyclic(sig: Signal, b: Band, at: int, forward: bool)
    requires BandOk(b) && b.min >= b.space && 0 <= at < Channels(b)
    ensures var order := Order(at, Channels(b), forward);
            match Search(sig, b, order, forward)
            case None => forall i :: 0 <= i < Channels(b) && i != at ==> !IsStation(sig, Freq(b, i))
            case Some(found) =>
              && OnGrid(b, found.freq)
              && exists p :: 0 <= p < |order| && FirstStation(sig, b, order, p)
                   && Strongest(sig, [Freq(b, order[p])] + Neighbours(b, Freq(b, order[p]), forward, 2), found)
  {
    var n := Channels(b);
    var order := Order(at, n, forward);
    OrderMembers(at, n, forward);
    SearchIsExact(sig, b, order, forward);
    match Search(sig, b, order, forward)
    case None =>
      forall i | 0 <= i < n && i != at ensures !IsStation(sig, Freq(b, i)) {
        assert i in order;
      }
    case Some(found) =>
      var p :| 0 <= p < |order| && FirstStation(sig, b, order, p)
               && Strongest(sig, [Freq(b, order[p])] + Neighbours(b, Freq(b, order[p]), forward, 2), found);
      assert order[p] in order;
      StrongestOnGrid(sig, b, order[p], forward, found);
  }

  lemma StrongestOnGrid(sig: Signal, b: Band, i: int, forward: bool, found: Found)
    requires BandOk(b) && b.min >= b.space && 0 <= i < Channels(b)
    requires Strongest(sig, [Freq(b, i)] + Neighbours(b, Freq(b, i), forward, 2), found)
    ensures OnGrid(b, found.freq)
  {
    NeighboursOnGrid(b, i, forward);
    var nb := Neighbours(b, Freq(b, i), forward, 2);
    var freqs := [Freq(b, i)] + nb;
    var j :| 0 <= j < |freqs| && StrongestAt(sig, freqs, found, j);
    if j > 0 { assert found.freq == nb[j - 1]; }
  }

  /** The frequency an unstopped search returns: the start, if nothing is found. */
  function Result(sig: Signal, b: Band, start: int, forward: bool): int
    requires b.space > 0
  {
    match Search(sig, b, Order(CDiv(start - b.min, b.space), Channels(b), forward), forward)
    case None => start
    case Some(found) => found.freq
  }

  predicate InBand(b: Band, freq: int) {
    b.min <= freq <= b.max
  }

  const SILENCE := Signal(_ => Reply(0, 0, false), (_, _) => 0, [])

  lemma ResultInBand(sig: Signal, b: Band, start: int, forward: bool)
    requires BandOk(b) && b.min >= b.space && InBand(b, start)
    ensures InBand(b, Result(sig, b, start, forward))
  {
    var at := CDiv(start - b.min, b.space);
    assert start - b.min == b.space * at + (start - b.min) % b.space;
    MulOrder(b.space, 0, at);
    MulOrder(b.space, at, (b.max - b.min) / b.space);
    ChannelBound(b, at);
    SearchRefinesCyclic(sig, b, at, forward);
    match Search(sig, b, Order(at, Channels(b), forward), forward)
    case None =>
    case Some(found) =>
      var i :| 0 <= i < Channels(b) && found.freq == Freq(b, i);
      ChannelBound(b, i);
  }

  /** The returned frequency lies in the band, whatever is on the air, exactly when the start does. */
  lemma ResultInBandIff(b: Band, start: int, forward: bool)
    requires BandOk(b) && b.min >= b.space
    ensures (forall sig :: InBand(b, Result(sig, b, start, forward))) <==> InBand(b, start)
  {
    if InBand(b, start) {
      forall sig ensures InBand(b, Result(sig, b, start, forward)) { ResultInBand(sig, b, start, forward); }
    } else {
      SearchFindsFirst(SILENCE, b, Order(CDiv(start - b.min, b.space), Channels(b), forward), forward);
      assert Result(SILENCE, b, start, forward) == start;
    }
  }

  /** The frequencies of the first `n` channels of the order. */
  function Freqs(b: Band, order: seq<int>, n: nat): seq<int>
    requires n <= |order|
  {
    seq(n, k requires 0 <= k < n => Freq(b, order[k]))
  }

  /** A search that is not stopped probes the whole order if there is no station in it, else the channels up
      to the first station and then those compared with it. */
  lemma {:induction false} ProbesAreExact(sig: Signal, b: Band, order: seq<int>, more: bool)
    ensures !OnAir(sig, b, order) ==> Probes(sig, b, order, more) == Freqs(b, order, |order|)
    ensures forall p :: 0 <= p < |order| && FirstStation(sig, b, order, p) ==>
              Probes(sig, b, order, more) == Freqs(b, order, p + 1) + Neighbours(b, Freq(b, order[p]), more, 2)
    decreases order
  {
    if order != [] {
      var rest := order[1..];
      assert forall k :: 0 < k < |order| ==> order[k] == rest[k - 1];
      StrengthIff(sig, Freq(b, order[0]));
      ProbesAreExact(sig, b, rest, more);
      if !IsStation(sig, Freq(b, order[0])) {
        assert Freqs(b, order, |order|) == [Freq(b, order[0])] + Freqs(b, rest, |rest|);
        forall p | 0 <= p < |order| && FirstStation(sig, b, order, p)
          ensures Probes(sig, b, order, more) == Freqs(b, order, p + 1) + Neighbours(b, Freq(b, order[p]), more, 2)
        {
          assert FirstStation(sig, b, rest, p - 1);
          assert Freqs(b, order, p + 1) == [Freq(b, order[0])] + Freqs(b, rest, p);
        }
      } else {
        assert Freqs(b, order, 1) == [Freq(b, order[0])];
      }
    }
  }

  /** The commands of `a1` are those of `a` and then soft-mute tunes to the frequencies. */
  ghost predicate AddsProbes(a: Air, a1: Air, freqs: seq<int>) {
    && |a1.commands| >= |a.commands| + |freqs| && a1.commands[..|a.commands|] == a.commands
    && forall m :: 0 <= m < |freqs| ==> a1.commands[|a.commands| + m] == SoftMuteTune(freqs[m])
  }

  /** Probing is stopped exactly when scan_stop is seen before one of the probes. Unless it is, every frequency
      is probed, in order; if it is, first at reading `k`, the ones before are, and then the radio is tuned back
      to the frequency it had before. That frequency is unchanged. */
  lemma StopTunesBackIff(a: Air, stops: nat -> bool, freqs: seq<int>)
    ensures StoppedIn(a, stops, freqs) <==> exists k :: 0 <= k < |freqs| && FirstStop(a, stops, k)
    ensures var a1 := Probed(a, stops, freqs);
            && a1.curFreq == a.curFreq
            && (!StoppedIn(a, stops, freqs) ==>
                  AddsProbes(a, a1, freqs) && |a1.commands| == |a.commands| + |freqs|)
            && (forall k :: 0 <= k < |freqs| && FirstStop(a, stops, k) ==>
                  && AddsProbes(a, a1, freqs[..k]) && |a1.commands| == |a.commands| + k + 1
                  && a1.commands[|a.commands| + k] == Tune(a.curFreq))
  {
    UnstoppedFirst(stops, a.checks, |freqs|);
    forall k | 0 <= k < |freqs| && FirstStop(a, stops, k) ensures Unstopped(stops, a.checks, |freqs|) == k {
      UnstoppedUnique(stops, a.checks, |freqs|, k);
    }
    var k := Unstopped(stops, a.checks, |freqs|);
    if k < |freqs| { assert FirstStop(a, stops, k); }
  }

  /** scan_stop is seen at the k-th of the coming readings, and not before. */
  ghost predicate FirstStop(a: Air, stops: nat -> bool, k: nat) {
    stops(a.checks + k) && forall m :: a.checks <= m < a.checks + k ==> !stops(m)
  }
}
