/** The station scan of fmr_core.cpp, FMR_seek_Channels: a loop of hardware seeks that goes on as long
    as the frequency rises, kept apart from the software search of Seek. */
module Scan {
  import opened Common
  import opened Seek

  /** The answer to the k-th hardware seek; a failed one leaves the frequency as it was. */
  datatype SeekReply = SeekReply(ret: int, freq: int)

  /** The hardware during one scan: its replies, the readings of scan_stop, the de-sense verdicts and
      the fake channels. */
  datatype Hardware = Hardware(reply: nat -> SeekReply, stops: nat -> bool, desense: (int, int) -> int,
                               fakes: seq<FakeChannel>)

  datatype ScanCommand = HardwareSeek(freq: int) | TuneBack(freq: int) | Restore

  /** A row of the work table. */
  datatype Cqi = Cqi(ch: int, rssi: int, reserve: int)

  const WORK_ROWS := 255

  // ---- the run of a scan, as a sequence of 32-bit frequencies ----

  /** What is written to the frequency by the k-th seek, started one spacing above `cur`. */
  function After(hw: Hardware, space: int, cur: int, k: nat): (next: int)
    ensures 0 <= next < UINT32_SIZE
  {
    if hw.reply(k).ret == 0 then hw.reply(k).freq % UINT32_SIZE else (cur + space) % UINT32_SIZE
  }

  /** The frequency before the k-th seek. */
  function Cur(hw: Hardware, start: int, space: int, k: nat): (freq: int)
    ensures 0 <= freq < UINT32_SIZE
  {
    if k == 0 then (start - space) % UINT32_SIZE else After(hw, space, Cur(hw, start, space, k - 1), k - 1)
  }

  function Last(hw: Hardware, start: int, space: int, k: nat): int {
    if k == 0 then 0 else Cur(hw, start, space, k - 1)
  }

  predicate Rising(hw: Hardware, start: int, space: int, k: nat) {
    Last(hw, start, space, k) < Cur(hw, start, space, k)
  }

  /** The loop makes a k-th seek, given that it has made those before. */
  predicate Continues(hw: Hardware, start: int, space: int, k: nat) {
    Rising(hw, start, space, k) && !hw.stops(k)
  }

  /** The loop makes exactly `n` seeks. */
  ghost predicate EndsAfter(hw: Hardware, start: int, space: int, n: nat) {
    && (forall k :: 0 <= k < n ==> Continues(hw, start, space, k))
    && !Continues(hw, start, space, n)
  }

  /** Both de-sense filters let the channel pass; the strength they see is always 0. */
  predicate Passes(hw: Hardware, freq: int) {
    var ch := freq % UINT16_SIZE;
    hw.desense(ch, 0) != 1 && !Severe(hw.fakes, ch, 0)
  }

  /** Neither the de-sense verdict nor the configured list is against the channel, at strength 0. */
  ghost predicate Unfiltered(hw: Hardware, freq: int) {
    hw.desense(freq % UINT16_SIZE, 0) != 1 && !Spurious(hw.fakes, freq % UINT16_SIZE, 0)
  }

  lemma PassesIff(hw: Hardware, freq: int)
    ensures Passes(hw, freq) <==> Unfiltered(hw, freq)
  {
    SevereIff(hw.fakes, freq % UINT16_SIZE, 0);
  }

  /** The k-th seek succeeds, moves forward and finds a channel that passes. */
  predicate Accepts(hw: Hardware, start: int, space: int, k: nat) {
    && hw.reply(k).ret == 0
    && Rising(hw, start, space, k + 1)
    && Passes(hw, Cur(hw, start, space, k + 1))
  }

  /** The frequencies accepted from the first `n` seeks, in order. */
  function Accepted(hw: Hardware, start: int, space: int, n: nat): (s: seq<int>)
    ensures |s| <= n
  {
    if n == 0 then []
    else
      var s := Accepted(hw, start, space, n - 1);
      if Accepts(hw, start, space, n - 1) then s + [Cur(hw, start, space, n)] else s
  }

  function Ints(freqs: seq<int>): (s: seq<int>)
    ensures |s| == |freqs|
  {
    seq(|freqs|, i requires 0 <= i < |freqs| => ToInt32(freqs[i]))
  }

  function SeekCommands(hw: Hardware, start: int, space: int, n: nat): (s: seq<ScanCommand>)
    ensures |s| == n
  {
    if n == 0 then []
    else SeekCommands(hw, start, space, n - 1) + [HardwareSeek((Cur(hw, start, space, n - 1) + space) % UINT32_SIZE)]
  }

  /** All results of the scan fit a table of `rows` rows. */
  ghost predicate FitsIn(hw: Hardware, start: int, space: int, rows: nat) {
    forall n: nat :: EndsAfter(hw, start, space, n) ==> |Accepted(hw, start, space, n)| <= rows
  }

  /** They fit the work table and the caller's table. */
  ghost predicate Fits(hw: Hardware, start: int, space: int, rows: nat) {
    FitsIn(hw, start, space, rows) && FitsIn(hw, start, space, WORK_ROWS)
  }

  // ---- the code ----

  class Scanner {
    const hw: Hardware
    var curFreq: int
    var commands: seq<ScanCommand>

    constructor (hw: Hardware, curFreq: int)
      ensures this.hw == hw && this.curFreq == curFreq && commands == []
    {
      this.hw, this.curFreq, commands := hw, curFreq, [];
    }

    /** FMR_SevereDensense on the fake channels of the scan. */
    method SevereAt(ch: int) returns (severe: bool)
      ensures severe == Severe(hw.fakes, ch, 0)
    {
      var i := 0;
      while i < |hw.fakes|
        invariant 0 <= i <= |hw.fakes|
        invariant Severe(hw.fakes, ch, 0) == Severe(hw.fakes[i..], ch, 0)
      {
        if hw.fakes[i].freq == ch {
          return 0 < hw.fakes[i].threshold;
        }
        i := i + 1;
      }
      return false;
    }

    method Filter(freq: int) returns (pass: bool)
      ensures pass == Passes(hw, freq)
      ensures pass <==> Unfiltered(hw, freq)
    {
      PassesIff(hw, freq);
      var ch := freq % UINT16_SIZE;
      if hw.desense(ch, 0) == 1 { return false; }
      var severe := SevereAt(ch);
      return !severe;
    }

    /** A hardware seek and the two filters. */
    method SeekOnce(cur: int, space: int, k: nat) returns (next: int, accept: bool)
      modifies this
      ensures next == After(hw, space, cur, k)
      ensures accept == (hw.reply(k).ret == 0 && cur < next && Passes(hw, next))
      ensures commands == old(commands) + [HardwareSeek((cur + space) % UINT32_SIZE)] && curFreq == old(curFreq)
    {
      next := (cur + space) % UINT32_SIZE;
      commands := commands + [HardwareSeek(next)];
      if hw.reply(k).ret == 0 {
        next := hw.reply(k).freq % UINT32_SIZE;
      }
      if hw.reply(k).ret != 0 || cur >= next { return next, false; }
      accept := Filter(next);
    }

    /** The loop; it ends for any hardware. `overrun` says that a result found no row in the work table:
        the code does not check this, and nothing is claimed about what it does then. */
    method SeekAll(start: int, space: int, work: array<Cqi>) returns (num: nat, n: nat, overrun: bool)
      requires work.Length == WORK_ROWS
      modifies this, work
      ensures overrun <==> !FitsIn(hw, start, space, WORK_ROWS)
      ensures curFreq == old(curFreq)
      ensures !overrun ==>
                && EndsAfter(hw, start, space, n) && Kept(work, num, start, space, n)
                && commands == old(commands) + SeekCommands(hw, start, space, n)
                               + if Rising(hw, start, space, n) then [Restore, TuneBack(curFreq)] else []
    {
      num, n, overrun := 0, 0, false;
      var last, cur := 0, (start - space) % UINT32_SIZE;
      while last < cur
        invariant cur == Cur(hw, start, space, n) && last == Last(hw, start, space, n)
        invariant forall k :: 0 <= k < n ==> Continues(hw, start, space, k)
        invariant Kept(work, num, start, space, n)
        invariant curFreq == old(curFreq)
        invariant commands == old(commands) + SeekCommands(hw, start, space, n)
        decreases UINT32_SIZE - last
      {
        if hw.stops(n) {
          StopHere();
          EndFits(hw, start, space, n);
          return;
        }
        last := cur;
        cur, num, overrun := SeekAndKeep(start, cur, space, n, work, num);
        if overrun {
          TooMany(hw, start, space, n);
          return;
        }
        n := n + 1;
      }
      EndFits(hw, start, space, n);
    }

    method StopHere()
      modifies this
      ensures curFreq == old(curFreq) && commands == old(commands) + [Restore, TuneBack(curFreq)]
    {
      commands := commands + [Restore];
      commands := commands + [TuneBack(curFreq)];
    }

    /** The work table holds what the first `n` seeks have found. */
    ghost predicate Kept(work: array<Cqi>, num: nat, start: int, space: int, n: nat)
      reads work
    {
      && num == |Accepted(hw, start, space, n)| <= work.Length
      && forall i :: 0 <= i < num ==> work[i] == Cqi(ToInt32(Accepted(hw, start, space, n)[i]), 0, 1)
    }

    /** One turn of the loop: the result is kept if it passes and there is a row for it. */
    method SeekAndKeep(ghost start: int, cur: int, space: int, k: nat, work: array<Cqi>, num: nat)
        returns (next: int, num': nat, overrun: bool)
      requires cur == Cur(hw, start, space, k) && Kept(work, num, start, space, k)
      modifies this, work
      ensures next == Cur(hw, start, space, k + 1)
      ensures overrun <==> |Accepted(hw, start, space, k + 1)| > work.Length
      ensures SeekCommands(hw, start, space, k + 1)
              == SeekCommands(hw, start, space, k) + [HardwareSeek((cur + space) % UINT32_SIZE)]
      ensures !overrun ==> Kept(work, num', start, space, k + 1)
      ensures commands == old(commands) + [HardwareSeek((cur + space) % UINT32_SIZE)] && curFreq == old(curFreq)
    {
      var accept;
      next, accept := SeekOnce(cur, space, k);
      num', overrun := num, false;
      if accept {
        if num == work.Length { return next, num, true; }
        work[num] := Cqi(ToInt32(next), 0, 1);
        num' := num + 1;
      }
    }

    /** Copy the kept rows of the work table to the caller's, as far as there are rows. */
    method CopyOut(work: array<Cqi>, num: nat, table: array<int>, ghost found: seq<int>)
        returns (count: nat, overrun: bool)
      requires num == |found| <= work.Length
      requires forall i :: 0 <= i < num ==> work[i] == Cqi(found[i], 0, 1)
      modifies table
      ensures overrun <==> num > table.Length
      ensures !overrun ==> count == num && table[..] == found + old(table[..])[num..]
    {
      count := 0;
      for i := 0 to num
        invariant count == i <= table.Length
        invariant forall j :: 0 <= j < i ==> table[j] == found[j]
        invariant forall j :: i <= j < table.Length ==> table[j] == old(table[j])
      {
        assert work[i] == Cqi(found[i], 0, 1);
        if work[i].reserve == 1 {
          if count == table.Length { return count, true; }
          table[count] := work[i].ch;
          count := count + 1;
        }
      }
      return count, false;
    }

    /** FMR_seek_Channels: -1 and no channels if nothing was found, else 0 and the channels in `table`;
        unless the results do not fit one of the tables. */
    method SeekChannels(table: array<int>, start: int, space: int)
        returns (ret: int, count: nat, n: nat, overrun: bool)
      modifies this, table
      ensures overrun <==> !Fits(hw, start, space, table.Length)
      ensures curFreq == old(curFreq)
      ensures !overrun ==>
                var found := Ints(Accepted(hw, start, space, n));
                && EndsAfter(hw, start, space, n)
                && count == |found| <= table.Length
                && ret == (if found == [] then -1 else 0)
                && table[..] == found + old(table[..])[count..]
                && commands == old(commands) + SeekCommands(hw, start, space, n)
                               + (if Rising(hw, start, space, n) then [Restore, TuneBack(curFreq)] else [])
                               + (if ret == -1 then [Restore] else [])
    {
      var work := new Cqi[WORK_ROWS](_ => Cqi(0, 0, 0));
      var num;
      ret, count := 0, 0;
      num, n, overrun := SeekAll(start, space, work);
      if overrun { return; }
      EndFitsIn(hw, start, space, n, table.Length);
      if num == 0 {
        commands := commands + [Restore];
        return -1, 0, n, false;
      }
      count, overrun := CopyOut(work, num, table, Ints(Accepted(hw, start, space, n)));
    }
  }

  // ---- termination ----

  /** While the loop goes on, the frequency has risen at every seek. */
  lemma {:induction false} RisesByOne(hw: Hardware, start: int, space: int, n: nat)
    requires forall k :: 0 <= k < n ==> Continues(hw, start, space, k)
    ensures n > 0 ==> Cur(hw, start, space, n - 1) >= Cur(hw, start, space, 0) + n - 1 && Cur(hw, start, space, 0) > 0
  {
    if n > 1 {
      RisesByOne(hw, start, space, n - 1);
      assert Continues(hw, start, space, n - 1);
    } else if n == 1 {
      assert Continues(hw, start, space, 0);
    }
  }

  /** For any replies the loop ends, within the 32-bit numbers above the first frequency. */
  lemma ScanEnds(hw: Hardware, start: int, space: int)
    ensures exists n: nat :: n <= UINT32_SIZE - Cur(hw, start, space, 0) && EndsAfter(hw, start, space, n)
  {
    var most := UINT32_SIZE - Cur(hw, start, space, 0);
    var n := 0;
    while Continues(hw, start, space, n)
      invariant forall k :: 0 <= k < n ==> Continues(hw, start, space, k)
      invariant n <= most
      decreases most - n
    {
      n := n + 1;
      RisesByOne(hw, start, space, n);
    }
    assert EndsAfter(hw, start, space, n);
  }

  lemma {:induction false} AcceptedGrows(hw: Hardware, start: int, space: int, m: nat, n: nat)
    requires m <= n
    ensures Accepted(hw, start, space, m) <= Accepted(hw, start, space, n)
    decreases n
  {
    if m < n { AcceptedGrows(hw, start, space, m, n - 1); }
  }

  /** The scan ends in one place only. */
  lemma EndFitsIn(hw: Hardware, start: int, space: int, n: nat, rows: nat)
    requires EndsAfter(hw, start, space, n)
    ensures FitsIn(hw, start, space, rows) <==> |Accepted(hw, start, space, n)| <= rows
  {
    forall m: nat | EndsAfter(hw, start, space, m) ensures m == n {}
  }

  lemma EndFits(hw: Hardware, start: int, space: int, n: nat)
    requires forall k :: 0 <= k < n ==> Continues(hw, start, space, k)
    requires !Continues(hw, start, space, n) && |Accepted(hw, start, space, n)| <= WORK_ROWS
    ensures EndsAfter(hw, start, space, n) && FitsIn(hw, start, space, WORK_ROWS)
  {
    assert EndsAfter(hw, start, space, n);
    EndFitsIn(hw, start, space, n, WORK_ROWS);
  }

  /** Once too much has been accepted the results as a whole do not fit. */
  lemma TooMany(hw: Hardware, start: int, space: int, m: nat)
    requires forall k :: 0 <= k <= m ==> Continues(hw, start, space, k)
    requires |Accepted(hw, start, space, m + 1)| > WORK_ROWS
    ensures !FitsIn(hw, start, space, WORK_ROWS)
  {
    ScanEnds(hw, start, space);
    var n: nat :| EndsAfter(hw, start, space, n);
    if n > m { AcceptedGrows(hw, start, space, m + 1, n); }
    EndFitsIn(hw, start, space, n, WORK_ROWS);
  }
}
