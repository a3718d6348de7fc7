/** ConnectControl's side of the daemon: connecting to a socket, and the map of connections that are
    retried by timer until they succeed. */
module Retry {
  import opened Common
  import opened Timespecs
  import opened TimerList
  import opened LoopState
  import W = World

  const RETRY_MS: int := 200

  datatype Request = ReqRegister(h: Option<Addr>) | ReqUnregister(h: Option<Addr>) | ReqQuit

  datatype Target = Time | Modem | Wcn | Unknown

  /** The members of ConnectControl this model needs; `timer` is timer_, `sockets` is sockets_. */
  datatype Ctl = Ctl(sockets: map<int, string>, modem: Option<Addr>, wcn: Option<Addr>,
                     time: Option<Addr>, timer: Option<TimerId>)

  /** The loop, ConnectControl, and the requests written to the loop thread and not yet read. */
  datatype Desk = Desk(loop: Loop, ctl: Ctl, req: seq<Request>)

  /** What connecting gets from outside: the attempt, the address of a new handler, and whether the
      channel takes the request to register it. */
  datatype Conn = Conn(at: W.Attempt, addr: Addr, written: bool)

  predicate OccursAt(s: string, sub: string, i: nat) {
    i + |sub| <= |s| && s[i..i + |sub|] == sub
  }

  predicate Contains(s: string, sub: string) {
    exists i: nat | i <= |s| :: OccursAt(s, sub, i)
  }

  /** The chain of strstr tests on a socket name. */
  function Classify(name: string): Target {
    if Contains(name, "cp_time_sync_server") then Time
    else if Contains(name, "modemd") then Modem
    else if Contains(name, "wcnd") then Wcn
    else Unknown
  }

  function Pointer(ctl: Ctl, t: Target): Option<Addr> {
    match t
    case Time => ctl.time
    case Modem => ctl.modem
    case Wcn => ctl.wcn
    case Unknown => None
  }

  function SetPointer(ctl: Ctl, t: Target, p: Option<Addr>): Ctl {
    match t
    case Time => ctl.(time := p)
    case Modem => ctl.(modem := p)
    case Wcn => ctl.(wcn := p)
    case Unknown => ctl
  }

  predicate Succeeds(c: Conn) {
    c.at.outcome.Connected?
  }

  function RetryTimer(now: Timespec, tid: TimerId): Timer {
    NewTimer(now, RETRY_MS, SocketReconnect, 0, tid)
  }

  datatype ConnectResult = ConnectResult(desk: Desk, ret: int, created: Option<W.Handler>)

  /** process_socket_connect: the desk after it, its result, and the handler it created, if any. */
  function Connect(d: Desk, src: int, name: string, c: Conn): ConnectResult {
    match c.at.outcome
    case Connected(fd) =>
      var t := Classify(name);
      if t.Unknown? then ConnectResult(d, fd, None)
      else
        ConnectResult(
          Desk(d.loop, SetPointer(d.ctl, t, Some(c.addr)),
               d.req + if c.written then [ReqRegister(Some(c.addr))] else []), fd,
          Some(W.Handler(if t.Time? then W.CpTime else W.CpState, fd, true, None)))
    case _ =>
      var sockets := d.ctl.sockets[src := name];
      match c.at.clock
      case Some(now) =>
        ConnectResult(
          Desk(d.loop.(timers := Insert(d.loop.timers, RetryTimer(now, c.at.tid))),
               d.ctl.(sockets := sockets, timer := Some(c.at.tid)), d.req), -1, None)
      case None => ConnectResult(Desk(d.loop, d.ctl.(sockets := sockets, timer := None), d.req), -1, None)
  }

  // ---- iteration over a std::map ----

  lemma NoKeys(s: set<int>)
    ensures (forall x :: x !in s) ==> s == {}
  {
    if forall x :: x !in s { assert s == {}; }
  }

  lemma SomeKey(s: set<int>) returns (x: int)
    requires s != {}
    ensures x in s
  {
    NoKeys(s);
    x :| x in s;
  }

  lemma {:induction false} MinExists(s: set<int>)
    requires s != {}
    ensures exists k :: k in s && forall j :: j in s ==> k <= j
  {
    var x := SomeKey(s);
    var rest := s - {x};
    if rest != {} {
      MinExists(rest);
      var k :| k in rest && forall j :: j in rest ==> k <= j;
      var m := if k <= x then k else x;
      forall j | j in s ensures m <= j {
        assert j == x || j in rest;
      }
      assert m in s;
    } else {
      assert forall j :: j in s ==> j == x || j in rest;
    }
  }

  /** The sequence lists the set in increasing order. */
  ghost predicate Lists(r: seq<int>, s: set<int>) {
    Increasing(r) && forall k :: k in r <==> k in s
  }

  lemma {:induction false} ListExists(s: set<int>)
    ensures exists r :: Lists(r, s)
  {
    if s == {} {
      assert Lists([], s);
    } else {
      MinExists(s);
      var k :| k in s && forall j :: j in s ==> k <= j;
      ListExists(s - {k});
      var r :| Lists(r, s - {k});
      forall i, j | 0 <= i < j < |r| + 1 ensures ([k] + r)[i] < ([k] + r)[j] {
        assert r[j - 1] in r;
      }
      assert Lists([k] + r, s);
    }
  }

  /** The keys in the order in which a std::map is iterated. */
  ghost function SortedKeys(s: set<int>): (r: seq<int>)
    ensures forall k :: k in r <==> k in s
    ensures Increasing(r)
  {
    ListExists(s);
    var r :| Lists(r, s);
    r
  }

  /** The first loop of socket_reconnect over the given keys; it also yields the keys that connected. */
  ghost function RetryKeys(d: Desk, keys: seq<int>, conn: int -> Conn): (r: (Desk, seq<int>))
    requires forall k :: k in keys ==> k in d.ctl.sockets
    ensures r.0.ctl.sockets == d.ctl.sockets
    decreases keys
  {
    if keys == [] then (d, [])
    else
      var k := keys[0];
      var d1 := Connect(d, k, d.ctl.sockets[k], conn(k)).desk;
      var r := RetryKeys(d1, keys[1..], conn);
      (r.0, (if Succeeds(conn(k)) then [k] else []) + r.1)
  }

  /** socket_reconnect: try every entry, then erase those that connected. */
  ghost function Reconnect(d: Desk, conn: int -> Conn): Desk {
    var r := RetryKeys(d, SortedKeys(d.ctl.sockets.Keys), conn);
    r.0.(ctl := r.0.ctl.(sockets := r.0.ctl.sockets - (set k | k in r.1)))
  }

  /** The pending timers whose callback retries. */
  function Pending(d: Desk): nat {
    |Select(d.loop.timers, SocketReconnect, false)|
  }

  lemma {:induction false} SelectConcat(a: seq<Timer>, b: seq<Timer>, cb: Callback, keep: bool)
    ensures Select(a + b, cb, keep) == Select(a, cb, keep) + Select(b, cb, keep)
  {
    if a == [] {
      assert a + b == b;
    } else {
      assert (a + b)[1..] == a[1..] + b;
      SelectConcat(a[1..], b, cb, keep);
    }
  }

  lemma SelectInsert(ts: seq<Timer>, t: Timer, cb: Callback)
    ensures |Select(Insert(ts, t), cb, false)| == |Select(ts, cb, false)| + if t.cb == cb then 1 else 0
  {
    var p := ScanFrom(ts, 0, t.due);
    var a, b := ts[..p], ts[p..];
    assert Insert(ts, t) == a + ([t] + b) && ts == a + b;
    SelectConcat(a, [t] + b, cb, false);
    SelectConcat([t], b, cb, false);
    SelectConcat(a, b, cb, false);
    assert [t][1..] == [];
  }

  /** How many of the keys fail to connect and get a timer. */
  ghost function Failures(keys: seq<int>, conn: int -> Conn): nat {
    if keys == [] then 0
    else (if !Succeeds(conn(keys[0])) && conn(keys[0]).at.clock.Some? then 1 else 0) + Failures(keys[1..], conn)
  }

  lemma {:induction false} RetryKeysEffect(d: Desk, keys: seq<int>, conn: int -> Conn)
    requires forall k :: k in keys ==> k in d.ctl.sockets
    ensures var r := RetryKeys(d, keys, conn);
            && Pending(r.0) == Pending(d) + Failures(keys, conn)
            && forall k :: k in r.1 <==> k in keys && Succeeds(conn(k))
    decreases keys
  {
    if keys != [] {
      var k := keys[0];
      var c := conn(k);
      var d1 := Connect(d, k, d.ctl.sockets[k], c).desk;
      if !Succeeds(c) && c.at.clock.Some? {
        SelectInsert(d.loop.timers, RetryTimer(c.at.clock.value, c.at.tid), SocketReconnect);
      }
      RetryKeysEffect(d1, keys[1..], conn);
      assert keys == [k] + keys[1..];
    }
  }

  /** The attempt fails, and a timer is started for it. */
  predicate FailsTimed(c: Conn) {
    !Succeeds(c) && c.at.clock.Some?
  }

  lemma {:induction false} FailuresIff(keys: seq<int>, conn: int -> Conn)
    ensures Failures(keys, conn) >= 1 <==> exists k :: k in keys && FailsTimed(conn(k))
  {
    if keys != [] {
      FailuresIff(keys[1..], conn);
      assert forall k :: k in keys <==> k == keys[0] || k in keys[1..];
    }
  }

  /** One reconnect pass, with the timer that caused it already taken off the list, leaves exactly
      the entries whose connect failed in that pass, and adds one pending timer for each of them that
      got a clock reading: with several entries failing the pending timers multiply. */
  lemma ReconnectLeavesFailures(d: Desk, conn: int -> Conn)
    ensures var d' := Reconnect(d, conn);
            && d'.ctl.sockets == (map k | k in d.ctl.sockets && !Succeeds(conn(k)) :: d.ctl.sockets[k])
            && Pending(d') == Pending(d) + Failures(SortedKeys(d.ctl.sockets.Keys), conn)
  {
    RetryKeysEffect(d, SortedKeys(d.ctl.sockets.Keys), conn);
  }

  /** A pass leaves what it could not connect with a pending timer exactly when it connected everything,
      there was another such timer already, or some entry that failed could read the clock. */
  lemma ReconnectKeepsRetryingIff(d: Desk, conn: int -> Conn)
    ensures var d' := Reconnect(d, conn);
            (d'.ctl.sockets != map[] ==> Pending(d') >= 1)
            <==> || (forall k :: k in d.ctl.sockets ==> Succeeds(conn(k)))
                 || Pending(d) >= 1
                 || exists k :: k in d.ctl.sockets && FailsTimed(conn(k))
  {
    ReconnectLeavesFailures(d, conn);
    FailuresIff(SortedKeys(d.ctl.sockets.Keys), conn);
    var left := Reconnect(d, conn).ctl.sockets;
    if k :| k in d.ctl.sockets && !Succeeds(conn(k)) {
      assert k in left;
    } else {
      assert left == map[];
    }
  }

  /** If the clock fails for every entry that fails, and no other timer is pending, what is left in the
      map has none. */
  lemma ClockFailureStalls(d: Desk, conn: int -> Conn, k: int)
    requires Pending(d) == 0 && k in d.ctl.sockets && !Succeeds(conn(k))
    requires forall j :: j in d.ctl.sockets && !Succeeds(conn(j)) ==> conn(j).at.clock.None?
    ensures k in Reconnect(d, conn).ctl.sockets && Pending(Reconnect(d, conn)) == 0
  {
    ReconnectLeavesFailures(d, conn);
    FailuresIff(SortedKeys(d.ctl.sockets.Keys), conn);
  }

  /** Only another attempt that fails, with a clock reading, starts a timer, and the map it is going to
      walk holds the stalled entries too. */
  lemma FailureRevives(d: Desk, src: int, name: string, c: Conn)
    ensures var d' := Connect(d, src, name, c).desk;
            && Pending(d') == Pending(d) + (if FailsTimed(c) then 1 else 0)
            && d'.ctl.sockets == if Succeeds(c) then d.ctl.sockets else d.ctl.sockets[src := name]
  {
    if FailsTimed(c) { SelectInsert(d.loop.timers, RetryTimer(c.at.clock.value, c.at.tid), SocketReconnect); }
  }

  // ---- the pass as a callback of the event loop ----

  /** The calls one attempt makes into the loop: the handler is registered by a request, not here. */
  function ConnectOps(c: Conn): seq<Op> {
    if Succeeds(c) then [] else [Create(c.at.clock, RETRY_MS, SocketReconnect, 0, c.at.tid)]
  }

  function RetryOps(keys: seq<int>, conn: int -> Conn): seq<Op> {
    if keys == [] then [] else ConnectOps(conn(keys[0])) + RetryOps(keys[1..], conn)
  }

  lemma {:induction false} RetryKeysIsOps(d: Desk, keys: seq<int>, conn: int -> Conn)
    requires |d.loop.mux.fds| == |d.loop.mux.hdls| && forall k :: k in keys ==> k in d.ctl.sockets
    ensures RetryKeys(d, keys, conn).0.loop == ApplyAll(d.loop, RetryOps(keys, conn)).after
    decreases keys
  {
    if keys != [] {
      var k := keys[0];
      RetryKeysIsOps(Connect(d, k, d.ctl.sockets[k], conn(k)).desk, keys[1..], conn);
      var ops := RetryOps(keys, conn);
      if Succeeds(conn(k)) {
        assert ops == RetryOps(keys[1..], conn);
      } else {
        assert ops[0] == ConnectOps(conn(k))[0] && ops[1..] == RetryOps(keys[1..], conn);
      }
    }
  }

  /** The clock has not run backwards since `now`. */
  predicate ReadsNoEarlier(c: Conn, now: Timespec) {
    c.at.clock.Some? ==> c.at.clock.value.Normal() && !Less(c.at.clock.value, now)
  }

  lemma {:induction false} RetryOpsLater(keys: seq<int>, conn: int -> Conn, now: Timespec)
    requires forall k :: k in keys ==> ReadsNoEarlier(conn(k), now)
    ensures Later(RetryOps(keys, conn), now)
  {
    if keys != [] {
      var k := keys[0];
      assert k in keys;
      assert ReadsNoEarlier(conn(k), now);
      RetryOpsLater(keys[1..], conn, now);
      if conn(k).at.clock.Some? { CreatedLater(now, conn(k).at.clock.value, RETRY_MS); }
    }
  }

  /** socket_reconnect is a callback in the sense of Rounds, and with a clock that does not run backwards
      the timers it creates are due after the sampled time. */
  lemma SocketReconnectIsOps(d: Desk, conn: int -> Conn, now: Timespec)
    requires |d.loop.mux.fds| == |d.loop.mux.hdls|
    requires forall k :: k in d.ctl.sockets ==> ReadsNoEarlier(conn(k), now)
    ensures var ops := RetryOps(SortedKeys(d.ctl.sockets.Keys), conn);
            ApplyAll(d.loop, ops).after == Reconnect(d, conn).loop && Later(ops, now)
  {
    RetryKeysIsOps(d, SortedKeys(d.ctl.sockets.Keys), conn);
    RetryOpsLater(SortedKeys(d.ctl.sockets.Keys), conn, now);
  }
}
