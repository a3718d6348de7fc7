/** What the list operations of TimerManager do, as functions on the list, and the order they keep. */
module TimerList {
  import opened Common
  import opened Timespecs

  type TimerId = nat

  /** The functions the daemon registers as timer callbacks, and any other one. */
  datatype Callback = ConnectServer | SocketReconnect | Other(code: nat)

  /** A `Timer` object; `id` stands for its address. */
  datatype Timer = Timer(id: TimerId, due: Timespec, cb: Callback, param: nat)

  /** No timer comes before one that is due earlier. */
  ghost predicate Sorted(ts: seq<Timer>) {
    forall i, j :: 0 <= i < j < |ts| ==> !Less(ts[j].due, ts[i].due)
  }

  ghost predicate UniqueIds(ts: seq<Timer>) {
    forall i, j :: 0 <= i < j < |ts| ==> ts[i].id != ts[j].id
  }

  ghost predicate HasId(ts: seq<Timer>, id: TimerId) {
    exists i :: 0 <= i < |ts| && ts[i].id == id
  }

  /** Where a scan for the first timer due strictly later than `due`, begun at `from`, stops. */
  function ScanFrom(ts: seq<Timer>, from: nat, due: Timespec): (p: nat)
    requires from <= |ts|
    ensures from <= p <= |ts|
    ensures forall i :: from <= i < p ==> !Less(due, ts[i].due)
    ensures p < |ts| ==> Less(due, ts[p].due)
    decreases |ts| - from
  {
    if from == |ts| || Less(due, ts[from].due) then from else ScanFrom(ts, from + 1, due)
  }

  function InsertAt(ts: seq<Timer>, p: nat, t: Timer): (r: seq<Timer>)
    requires p <= |ts|
    ensures |r| == |ts| + 1
    ensures forall i :: 0 <= i < |r| ==> r[i] == if i < p then ts[i] else if i == p then t else ts[i - 1]
  {
    ts[..p] + [t] + ts[p..]
  }

  /** insert_timer. */
  function Insert(ts: seq<Timer>, t: Timer): seq<Timer> {
    InsertAt(ts, ScanFrom(ts, 0, t.due), t)
  }

  /** find: the position of the timer with this address, or the length of the list. */
  function Find(ts: seq<Timer>, id: TimerId): (p: nat)
    ensures p <= |ts|
    ensures p < |ts| ==> ts[p].id == id
    ensures forall i :: 0 <= i < p ==> ts[i].id != id
  {
    if ts == [] || ts[0].id == id then 0 else 1 + Find(ts[1..], id)
  }

  /** The list without the element at `p`. */
  function Erase(ts: seq<Timer>, p: nat): seq<Timer>
    requires p < |ts|
  {
    ts[..p] + ts[p + 1..]
  }

  /** del_timer(Timer*). */
  function DeleteId(ts: seq<Timer>, id: TimerId): seq<Timer> {
    var p := Find(ts, id);
    if p < |ts| then Erase(ts, p) else ts
  }

  /** The timers that (`keep`) do not have, or do have, this callback, in list order. */
  function Select(ts: seq<Timer>, cb: Callback, keep: bool): seq<Timer> {
    if ts == [] then []
    else if (ts[0].cb != cb) == keep then [ts[0]] + Select(ts[1..], cb, keep)
    else Select(ts[1..], cb, keep)
  }

  /** set_new_due_time once the timer is found at `p`: the scan resumes where it was erased. */
  function Reschedule(ts: seq<Timer>, p: nat, due: Timespec): seq<Timer>
    requires p < |ts|
  {
    var rest := Erase(ts, p);
    var q := ScanFrom(rest, p, due);
    InsertAt(rest, q, ts[p].(due := due))
  }

  lemma ScanFromUnique(ts: seq<Timer>, from: nat, due: Timespec, p: nat)
    requires from <= p <= |ts|
    requires forall i :: from <= i < p ==> !Less(due, ts[i].due)
    requires p < |ts| ==> Less(due, ts[p].due)
    ensures ScanFrom(ts, from, due) == p
  {}

  /** Insertion at a place where everything before is due no later and everything after strictly
      later keeps the list sorted. */
  lemma InsertAtKeepsOrder(ts: seq<Timer>, p: nat, t: Timer)
    requires p <= |ts| && Sorted(ts)
    requires forall i :: 0 <= i < p ==> !Less(t.due, ts[i].due)
    requires p < |ts| ==> Less(t.due, ts[p].due)
    ensures Sorted(InsertAt(ts, p, t))
    ensures forall i :: p <= i < |ts| ==> Less(t.due, ts[i].due)
  {
    forall i | p <= i < |ts| ensures Less(t.due, ts[i].due) {
      assert i > p ==> !Less(ts[i].due, ts[p].due);
    }
  }

  /** Insertion keeps the list sorted, and is FIFO: everything before the new timer is due no later
      (so all its equals are), everything after it is due strictly later, and nothing else moves. */
  lemma InsertKeepsOrder(ts: seq<Timer>, t: Timer)
    requires Sorted(ts)
    ensures Sorted(Insert(ts, t))
    ensures var p := ScanFrom(ts, 0, t.due);
            && Insert(ts, t)[p] == t
            && Insert(ts, t)[..p] == ts[..p]
            && Insert(ts, t)[p + 1..] == ts[p..]
            && (forall i :: 0 <= i < p ==> !Less(t.due, ts[i].due))
            && (forall i :: p <= i < |ts| ==> Less(t.due, ts[i].due))
  {
    InsertAtKeepsOrder(ts, ScanFrom(ts, 0, t.due), t);
  }

  lemma EraseKeepsOrder(ts: seq<Timer>, p: nat)
    requires p < |ts|
    ensures Sorted(ts) ==> Sorted(Erase(ts, p))
    ensures UniqueIds(ts) ==> UniqueIds(Erase(ts, p)) && !HasId(Erase(ts, p), ts[p].id)
    ensures forall t :: t in Erase(ts, p) ==> t in ts
    ensures forall t :: t in ts && t != ts[p] ==> t in Erase(ts, p)
    ensures multiset(ts) == multiset(Erase(ts, p)) + multiset{ts[p]}
  {
    var r := Erase(ts, p);
    assert forall i :: 0 <= i < |r| ==> r[i] == ts[if i < p then i else i + 1];
    assert ts == ts[..p] + [ts[p]] + ts[p + 1..];
    forall t | t in ts && t != ts[p] ensures t in r {
      var i :| 0 <= i < |ts| && ts[i] == t;
      assert r[if i < p then i else i - 1] == t;
    }
  }

  lemma InsertContents(ts: seq<Timer>, t: Timer)
    ensures multiset(Insert(ts, t)) == multiset(ts) + multiset{t}
    ensures forall u :: u in Insert(ts, t) <==> u == t || u in ts
  {
    var p := ScanFrom(ts, 0, t.due);
    assert ts == ts[..p] + ts[p..];
    assert Insert(ts, t) == ts[..p] + [t] + ts[p..];
    forall u ensures u in Insert(ts, t) <==> u == t || u in ts {
      assert u in Insert(ts, t) <==> u in multiset(Insert(ts, t));
      assert u in ts <==> u in multiset(ts);
    }
  }

  lemma InsertKeepsUnique(ts: seq<Timer>, t: Timer)
    requires UniqueIds(ts) && !HasId(ts, t.id)
    ensures UniqueIds(Insert(ts, t))
  {
    var p, r := ScanFrom(ts, 0, t.due), Insert(ts, t);
    forall i, j | 0 <= i < j < |r| ensures r[i].id != r[j].id {
      assert i != p ==> r[i] == ts[if i < p then i else i - 1];
      assert j != p ==> r[j] == ts[if j < p then j else j - 1];
    }
  }

  lemma {:induction false} SelectSplits(ts: seq<Timer>, cb: Callback)
    ensures multiset(ts) == multiset(Select(ts, cb, true)) + multiset(Select(ts, cb, false))
    ensures forall t :: t in Select(ts, cb, true) <==> t in ts && t.cb != cb
    ensures forall t :: t in Select(ts, cb, false) <==> t in ts && t.cb == cb
  {
    if ts != [] {
      assert ts == [ts[0]] + ts[1..];
      SelectSplits(ts[1..], cb);
    }
  }

  /** Selecting is order-preserving: adjacent-order facts on the list survive. */
  lemma {:induction false} SelectKeepsOrder(ts: seq<Timer>, cb: Callback)
    requires Sorted(ts)
    ensures Sorted(Select(ts, cb, true)) && Subsequence(Select(ts, cb, true), ts)
  {
    if ts != [] {
      SelectKeepsOrder(ts[1..], cb);
      assert ts[0].cb != cb ==> Select(ts, cb, true)[1..] == Select(ts[1..], cb, true);
      SelectSplits(ts[1..], cb);
      var r := Select(ts[1..], cb, true);
      forall j | 0 <= j < |r| ensures !Less(r[j].due, ts[0].due) {
        assert r[j] in ts[1..];
      }
    }
  }

  /** Deleting by callback, one element at a time. */
  lemma SelectAt(ts: seq<Timer>, i: nat, cb: Callback)
    requires i < |ts|
    ensures var left := ts[..i] + ts[i + 1..];
            ts[i].cb == cb ==>
              |left| == |ts| - 1 && left[..i] + Select(left[i..], cb, true) == ts[..i] + Select(ts[i..], cb, true)
    ensures ts[i].cb != cb ==> ts[..i + 1] + Select(ts[i + 1..], cb, true) == ts[..i] + Select(ts[i..], cb, true)
  {
    var left := ts[..i] + ts[i + 1..];
    assert ts[i..][0] == ts[i] && ts[i..][1..] == ts[i + 1..];
    assert left[..i] == ts[..i] && left[i..] == ts[i + 1..];
    assert ts[..i + 1] == ts[..i] + [ts[i]];
  }

  /** set_new_due_time keeps the list sorted exactly when the new due time is not earlier than that
      of the timer in front of it: the scan cannot move a timer towards the front. */
  lemma RescheduleKeepsOrderIff(ts: seq<Timer>, p: nat, due: Timespec)
    requires p < |ts| && Sorted(ts)
    ensures Sorted(Reschedule(ts, p, due)) <==> (p == 0 || !Less(due, ts[p - 1].due))
  {
    EraseKeepsOrder(ts, p);
    var rest := Erase(ts, p);
    var q := ScanFrom(rest, p, due);
    var r := Reschedule(ts, p, due);
    if p == 0 || !Less(due, ts[p - 1].due) {
      forall i | 0 <= i < p ensures !Less(due, rest[i].due) {
        assert rest[i] == ts[i] && !Less(ts[p - 1].due, ts[i].due);
      }
      InsertAtKeepsOrder(rest, q, ts[p].(due := due));
    } else {
      assert r[p - 1] == ts[p - 1] && p - 1 < q;
    }
  }

  /** Whatever the new due time, rescheduling changes that timer's due time and loses nothing. */
  lemma RescheduleContents(ts: seq<Timer>, p: nat, due: Timespec)
    requires p < |ts|
    ensures multiset(Reschedule(ts, p, due)) + multiset{ts[p]} == multiset(ts) + multiset{ts[p].(due := due)}
  {
    EraseKeepsOrder(ts, p);
    var rest := Erase(ts, p);
    var q := ScanFrom(rest, p, due);
    assert rest == rest[..q] + rest[q..];
  }
}
