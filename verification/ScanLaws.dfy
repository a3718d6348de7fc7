/** What the station scan of Scan returns, and how long it takes. */
module ScanLaws {
  import opened Common
  import opened Scan
  import opened Seek

  // ---- the table ----

  lemma {:induction false} CurGrows(hw: Hardware, start: int, space: int, m: nat, n: nat)
    requires m <= n && forall k :: 0 <= k <= n ==> Rising(hw, start, space, k)
    ensures m < n ==> Cur(hw, start, space, m) < Cur(hw, start, space, n)
    decreases n
  {
    if m < n {
      CurGrows(hw, start, space, m, n - 1);
      assert Rising(hw, start, space, n);
    }
  }

  lemma WrapTwice(x: int, y: int)
    ensures (x % UINT32_SIZE + y) % UINT32_SIZE == (x + y) % UINT32_SIZE
  {}

  /** The seeks from `m` on, up to the k-th, have failed, and the one before them has succeeded. */
  ghost predicate FailedSince(hw: Hardware, m: nat, k: nat) {
    && m <= k
    && (m > 0 ==> hw.reply(m - 1).ret == 0)
    && forall j :: m <= j < k ==> hw.reply(j).ret != 0
  }

  /** The frequency from which the k-th seek starts: what the last successful seek has answered, or else one
      spacing below the start of the scan, and one spacing more for each seek that has failed since. */
  lemma {:induction false} CurIsExact(hw: Hardware, start: int, space: int, m: nat, k: nat)
    requires FailedSince(hw, m, k)
    ensures Cur(hw, start, space, k)
            == ((if m == 0 then start - space else hw.reply(m - 1).freq) + space * (k - m)) % UINT32_SIZE
    decreases k
  {
    if k > m {
      CurIsExact(hw, start, space, m, k - 1);
      MulStep(space, k - 1 - m);
      WrapTwice((if m == 0 then start - space else hw.reply(m - 1).freq) + space * (k - 1 - m), space);
    }
  }

  /** The k-th seek succeeds, with a frequency above the one it started from that neither filter is against. */
  ghost predicate Hits(hw: Hardware, start: int, space: int, k: nat) {
    var f := hw.reply(k).freq % UINT32_SIZE;
    hw.reply(k).ret == 0 && Cur(hw, start, space, k) < f && Unfiltered(hw, f)
  }

  /** The results are strictly increasing and are exactly the frequencies that the successful forward seeks
      have answered and that pass both filters. */
  lemma {:induction false} AcceptedIsExact(hw: Hardware, start: int, space: int, n: nat)
    requires forall k :: 0 <= k < n ==> Continues(hw, start, space, k)
    ensures Increasing(Accepted(hw, start, space, n))
    ensures forall f :: f in Accepted(hw, start, space, n)
                        <==> exists k :: 0 <= k < n && Hits(hw, start, space, k) && f == hw.reply(k).freq % UINT32_SIZE
  {
    if n > 0 {
      AcceptedIsExact(hw, start, space, n - 1);
      PassesIff(hw, Cur(hw, start, space, n));
      var s := Accepted(hw, start, space, n - 1);
      assert Accepts(hw, start, space, n - 1) <==> Hits(hw, start, space, n - 1);
      if Accepts(hw, start, space, n - 1) {
        forall k | 0 <= k <= n ensures Rising(hw, start, space, k) {
          if k < n { assert Continues(hw, start, space, k); }
        }
        forall f | f in s ensures f < Cur(hw, start, space, n) {
          var k :| 0 <= k < n - 1 && Hits(hw, start, space, k) && f == hw.reply(k).freq % UINT32_SIZE;
          assert f == Cur(hw, start, space, k + 1);
          CurGrows(hw, start, space, k + 1, n);
        }
        IncreasingSnoc(s, Cur(hw, start, space, n));
      }
    }
  }

  /** The scan ends at the first reading of scan_stop that is set, or at the first seek that has not risen. */
  lemma EndsAfterIff(hw: Hardware, start: int, space: int, n: nat)
    ensures EndsAfter(hw, start, space, n)
            <==> && (forall k :: 0 <= k < n ==> !hw.stops(k) && Rises(hw, start, space, k))
                 && (hw.stops(n) || !Rises(hw, start, space, n))
  {
    if EndsAfter(hw, start, space, n) {
      forall k | 0 <= k < n ensures !hw.stops(k) && Rises(hw, start, space, k) {
        assert Continues(hw, start, space, k);
      }
    } else if forall k :: 0 <= k < n ==> !hw.stops(k) && Rises(hw, start, space, k) {
      forall k | 0 <= k < n ensures Continues(hw, start, space, k) {
        assert Rises(hw, start, space, k);
      }
    }
  }

  ghost predicate Rises(hw: Hardware, start: int, space: int, k: nat) {
    Cur(hw, start, space, k) > if k == 0 then 0 else Cur(hw, start, space, k - 1)
  }

  /** Each seek starts one spacing above the frequency before it. */
  lemma {:induction false} SeekCommandAt(hw: Hardware, start: int, space: int, n: nat, k: nat)
    requires k < n
    ensures SeekCommands(hw, start, space, n)[k] == HardwareSeek((Cur(hw, start, space, k) + space) % UINT32_SIZE)
  {
    if k < n - 1 { SeekCommandAt(hw, start, space, n - 1, k); }
  }

  /** Converted to the table's signed integers, increasing results stay so exactly when they do not
      straddle 2^31. The 16-bit replies of the driver never do. */
  lemma TableIncreasingIff(s: seq<int>)
    requires Increasing(s) && forall i :: 0 <= i < |s| ==> 0 <= s[i] < UINT32_SIZE
    ensures Increasing(Ints(s)) <==> |s| == 0 || s[|s| - 1] <= INT32_MAX || s[0] > INT32_MAX
  {
    if |s| > 0 && s[0] <= INT32_MAX < s[|s| - 1] {
      assert Ints(s)[0] > Ints(s)[|s| - 1];
    } else {
      forall i, j | 0 <= i < j < |s| ensures Ints(s)[i] < Ints(s)[j] {
        assert s[0] <= s[i] < s[j] <= s[|s| - 1];
      }
    }
  }

  /** Stopping keeps what was found: it only cuts the same scan short. */
  lemma {:induction false} StopKeepsPrefix(hw: Hardware, stops: nat -> bool, start: int, space: int, n: nat)
    ensures Cur(hw.(stops := stops), start, space, n) == Cur(hw, start, space, n)
    ensures Accepted(hw.(stops := stops), start, space, n) == Accepted(hw, start, space, n)
    decreases n
  {
    var other := hw.(stops := stops);
    if n > 0 {
      StopKeepsPrefix(hw, stops, start, space, n - 1);
      if n > 1 { StopKeepsPrefix(hw, stops, start, space, n - 2); }
      assert Passes(other, Cur(hw, start, space, n)) == Passes(hw, Cur(hw, start, space, n));
    }
  }

  // ---- how many seeks ----

  predicate OnGrid(freq: int, lo: int, space: int, m: nat) {
    exists i :: 0 <= i < m && freq == GridFreq(lo, space, i)
  }

  function GridFreq(lo: int, space: int, i: int): int {
    lo + space * i
  }

  /** The hardware always answers, with one of the `m` channels from `lo` on. */
  ghost predicate Confined(hw: Hardware, lo: int, space: int, m: nat) {
    forall k :: hw.reply(k).ret == 0 && OnGrid(hw.reply(k).freq, lo, space, m)
  }

  predicate GridOk(lo: int, space: int, m: nat) {
    0 < space < lo && 0 < m && GridFreq(lo, space, m - 1) < UINT16_SIZE
  }

  lemma GridBounds(freq: int, lo: int, space: int, m: nat)
    requires GridOk(lo, space, m) && OnGrid(freq, lo, space, m)
    ensures lo <= freq <= GridFreq(lo, space, m - 1) && freq % UINT32_SIZE == freq
  {
    var i :| 0 <= i < m && freq == GridFreq(lo, space, i);
    assert space * i <= space * (m - 1) && 0 <= space * i;
  }

  lemma GridOrder(lo: int, space: int, i: int, j: int)
    requires space > 0
    ensures i <= j <==> GridFreq(lo, space, i) <= GridFreq(lo, space, j)
  {
    MulOrder(space, i, j);
  }

  lemma GridStep(lo: int, space: int, i: int)
    requires space > 0
    ensures GridFreq(lo, space, i + 1) == GridFreq(lo, space, i) + space && GridFreq(lo, space, 0) == lo
  {
    MulStep(space, i);
  }

  /** The j-th rising frequency is at least the j-th channel. */
  lemma {:induction false} GridRises(hw: Hardware, start: int, lo: int, space: int, m: nat, j: nat)
    requires GridOk(lo, space, m) && Confined(hw, lo, space, m)
    requires 1 <= j && forall k :: 0 <= k <= j ==> Rising(hw, start, space, k)
    ensures j <= m && Cur(hw, start, space, j) >= GridFreq(lo, space, j - 1)
  {
    var f := hw.reply(j - 1).freq;
    GridBounds(f, lo, space, m);
    assert Cur(hw, start, space, j) == f;
    if j > 1 {
      GridRises(hw, start, lo, space, m, j - 1);
      assert Rising(hw, start, space, j);
      var i :| 0 <= i < m && f == GridFreq(lo, space, i);
      GridOrder(lo, space, i, j - 2);
      GridOrder(lo, space, j - 1, i);
    } else {
      GridStep(lo, space, 0);
    }
  }

  /** On working hardware the scan makes at most one seek more than there are channels, and finds at
      most that many. */
  lemma ConfinedScan(hw: Hardware, start: int, lo: int, space: int, m: nat, n: nat)
    requires GridOk(lo, space, m) && Confined(hw, lo, space, m) && EndsAfter(hw, start, space, n)
    ensures n <= m + 1 && |Accepted(hw, start, space, n)| <= m
  {
    forall k | 0 <= k < n ensures Rising(hw, start, space, k) { assert Continues(hw, start, space, k); }
    if n > 1 { GridRises(hw, start, lo, space, m, n - 1); }
    if n > 0 {
      if Rising(hw, start, space, n) {
        GridRises(hw, start, lo, space, m, n);
      } else {
        assert Accepted(hw, start, space, n) == Accepted(hw, start, space, n - 1);
      }
    }
  }

  /** Hardware that finds every channel of the grid, one after the other. */
  function Everything(lo: int, space: int, m: nat): Hardware {
    Hardware((k: nat) => SeekReply(0, GridFreq(lo, space, if k < m then k else m - 1)),
             (k: nat) => false, (ch, rssi) => 0, [])
  }

  lemma {:induction false} EverythingFound(lo: int, space: int, m: nat, n: nat)
    requires GridOk(lo, space, m) && n <= m
    ensures Cur(Everything(lo, space, m), lo, space, n) == GridFreq(lo, space, n - 1)
    ensures Continues(Everything(lo, space, m), lo, space, n)
    ensures |Accepted(Everything(lo, space, m), lo, space, n)| == n
    decreases n
  {
    var hw := Everything(lo, space, m);
    if n == 0 {
      assert GridFreq(lo, space, -1) == lo - space;
    } else {
      EverythingFound(lo, space, m, n - 1);
      assert OnGrid(GridFreq(lo, space, n - 1), lo, space, m);
      GridBounds(GridFreq(lo, space, n - 1), lo, space, m);
      assert space * (n - 1) == space * (n - 2) + space;
      assert Accepts(hw, lo, space, n - 1);
    }
  }

  lemma EverythingEnds(lo: int, space: int, m: nat)
    requires GridOk(lo, space, m)
    ensures Confined(Everything(lo, space, m), lo, space, m)
    ensures EndsAfter(Everything(lo, space, m), lo, space, m + 1)
    ensures |Accepted(Everything(lo, space, m), lo, space, m + 1)| == m
  {
    var hw := Everything(lo, space, m);
    forall k: nat ensures hw.reply(k).ret == 0 && OnGrid(hw.reply(k).freq, lo, space, m) {
      assert hw.reply(k).freq == GridFreq(lo, space, if k < m then k else m - 1);
    }
    forall k | 0 <= k <= m ensures Continues(hw, lo, space, k) { EverythingFound(lo, space, m, k); }
    EverythingFound(lo, space, m, m);
    var top := GridFreq(lo, space, m - 1);
    assert hw.reply(m).freq == top && OnGrid(top, lo, space, m);
    GridBounds(top, lo, space, m);
    assert Cur(hw, lo, space, m + 1) == top;
  }

  /** A scan from the bottom of a grid of `m` channels fits its tables, whatever working hardware finds,
      exactly when both have `m` rows: 255 in the work table, `rows` in the caller's. */
  lemma ResultsFitIff(lo: int, space: int, m: nat, rows: nat)
    requires GridOk(lo, space, m)
    ensures (forall hw :: Confined(hw, lo, space, m) ==> Fits(hw, lo, space, rows)) <==> m <= rows && m <= WORK_ROWS
  {
    if m <= rows && m <= WORK_ROWS {
      forall hw | Confined(hw, lo, space, m) ensures Fits(hw, lo, space, rows) {
        forall n: nat | EndsAfter(hw, lo, space, n) ensures |Accepted(hw, lo, space, n)| <= m {
          ConfinedScan(hw, lo, lo, space, m, n);
        }
      }
    } else {
      EverythingEnds(lo, space, m);
      EndFitsIn(Everything(lo, space, m), lo, space, m + 1, rows);
      EndFitsIn(Everything(lo, space, m), lo, space, m + 1, WORK_ROWS);
      assert !Fits(Everything(lo, space, m), lo, space, rows);
    }
  }

  /** The rows of the table that autoScan passes. */
  const AUTO_SCAN_ROWS := 200

  /** autoScan's own call, from 87.5 MHz up to `top`: it is safe on all working hardware exactly when the
      band has no more channels than autoScan has rows. */
  lemma AutoScanFitsIff(top: int, space: int)
    requires 0 < space && 8750 <= top < UINT16_SIZE && space < 8750
    ensures var m := (top - 8750) / space + 1;
            (forall hw :: Confined(hw, 8750, space, m) ==> Fits(hw, 8750, space, AUTO_SCAN_ROWS))
            <==> m <= AUTO_SCAN_ROWS
  {
    var m := (top - 8750) / space + 1;
    assert top - 8750 == space * (m - 1) + (top - 8750) % space;
    ResultsFitIff(8750, space, m, AUTO_SCAN_ROWS);
  }

  /** It is not for either spacing up to 108 MHz: 206 channels at 100 kHz do not fit autoScan's table, and
      411 at 50 kHz fit neither that nor the work table. */
  lemma AutoScanMayNotFit()
    ensures exists hw :: Confined(hw, 8750, 10, 206) && !FitsIn(hw, 8750, 10, AUTO_SCAN_ROWS)
    ensures exists hw :: Confined(hw, 8750, 5, 411)
                         && !FitsIn(hw, 8750, 5, AUTO_SCAN_ROWS) && !FitsIn(hw, 8750, 5, WORK_ROWS)
  {
    EverythingEnds(8750, 10, 206);
    EndFitsIn(Everything(8750, 10, 206), 8750, 10, 207, AUTO_SCAN_ROWS);
    EverythingEnds(8750, 5, 411);
    EndFitsIn(Everything(8750, 5, 411), 8750, 5, 412, AUTO_SCAN_ROWS);
    EndFitsIn(Everything(8750, 5, 411), 8750, 5, 412, WORK_ROWS);
  }

  ghost predicate AlwaysFails(hw: Hardware) {
    forall k: nat :: hw.reply(k).ret != 0 && !hw.stops(k)
  }

  /** The number of seeks from `cur` to the end of the 32-bit numbers. */
  function StepsToWrap(cur: int, space: int): int
    requires space > 0
  {
    (UINT32_SIZE - cur + space - 1) / space
  }

  lemma WrapsThere(cur: int, space: int)
    requires 0 <= cur < UINT32_SIZE && space > 0
    ensures var n := StepsToWrap(cur, space);
            n > 0 && GridFreq(cur, space, n - 1) < UINT32_SIZE <= GridFreq(cur, space, n) < UINT32_SIZE + space
  {
    var x := UINT32_SIZE - cur + space - 1;
    var n := StepsToWrap(cur, space);
    assert x == space * n + x % space;
    MulStep(space, n);
    MulOrder(space, n, 0);
  }

  lemma {:induction false} FailingCur(hw: Hardware, start: int, space: int, k: nat)
    requires AlwaysFails(hw) && 0 < space < start < UINT16_SIZE
    requires GridFreq(start - space, space, k) < UINT32_SIZE
    ensures Cur(hw, start, space, k) == GridFreq(start - space, space, k)
    decreases k
  {
    if k > 0 {
      GridStep(start - space, space, k - 1);
      GridOrder(start - space, space, 0, k - 1);
      FailingCur(hw, start, space, k - 1);
      assert hw.reply(k - 1).ret != 0;
    }
  }

  lemma FailingContinues(hw: Hardware, start: int, space: int, k: nat)
    requires AlwaysFails(hw) && 0 < space < start < UINT16_SIZE
    requires GridFreq(start - space, space, k) < UINT32_SIZE
    ensures Continues(hw, start, space, k)
  {
    FailingCur(hw, start, space, k);
    assert !hw.stops(k);
    if k > 0 {
      GridStep(start - space, space, k - 1);
      FailingCur(hw, start, space, k - 1);
    }
  }

  lemma FailingWraps(hw: Hardware, start: int, space: int, n: nat)
    requires AlwaysFails(hw) && 0 < space < start < UINT16_SIZE && n > 0
    requires GridFreq(start - space, space, n - 1) < UINT32_SIZE <= GridFreq(start - space, space, n)
    ensures !Continues(hw, start, space, n)
  {
    GridStep(start - space, space, n - 1);
    FailingCur(hw, start, space, n - 1);
    assert hw.reply(n - 1).ret != 0;
  }

  /** A failed seek does not end the scan: if every seek fails and nobody stops it, the scan steps by one
      spacing until the 32-bit frequency wraps round, and only then returns with nothing. */
  lemma FailingHardwareScansOn(hw: Hardware, start: int, space: int)
    requires AlwaysFails(hw) && 0 < space < start < UINT16_SIZE
    ensures EndsAfter(hw, start, space, StepsToWrap(start - space, space))
    ensures Accepted(hw, start, space, StepsToWrap(start - space, space)) == []
  {
    var n := StepsToWrap(start - space, space);
    WrapsThere(start - space, space);
    forall k | 0 <= k < n ensures Continues(hw, start, space, k) {
      GridOrder(start - space, space, k, n - 1);
      FailingContinues(hw, start, space, k);
    }
    FailingWraps(hw, start, space, n);
    NothingAccepted(hw, start, space, n);
  }

  lemma {:induction false} NothingAccepted(hw: Hardware, start: int, space: int, n: nat)
    requires AlwaysFails(hw)
    ensures Accepted(hw, start, space, n) == []
  {
    if n > 0 { NothingAccepted(hw, start, space, n - 1); }
  }

  /** From 87.5 MHz at 100 kHz that is 429 495 856 seeks. */
  lemma FailingHardwareExample(hw: Hardware)
    requires AlwaysFails(hw)
    ensures EndsAfter(hw, 8750, 10, 429_495_856)
  {
    FailingHardwareScansOn(hw, 8750, 10);
  }
}
