/** socketClose reads its member again after it has waited for the unregistration. By then socket_reconnect
    may have put another handler there: exactly when that can happen, and what the deletion then leads to. */
module ReplacedDelete {
  import opened Common
  import opened Timespecs
  import opened TimerList
  import opened LoopState
  import opened Retry
  import opened Daemon
  import opened DaemonInv
  import opened DaemonSteps
  import opened DaemonRuns
  import opened Progress
  import opened RetryRuns
  import opened UnsafeDelete
  import W = World
  import LC = LifeCycle
  import MuxState

  /** A connection for this member is waiting to be retried. */
  ghost predicate Retried(s: Sys, t: Target) {
    exists k :: k in s.ctl.sockets && Classify(s.ctl.sockets[k]) == t
  }

  /** It is, and some retry timer is pending. */
  ghost predicate Threatened(s: Sys, t: Target) {
    Pending(DeskOf(s)) >= 1 && Retried(s, t)
  }

  predicate NoDelete(acts: seq<Action>) {
    forall i :: 0 <= i < |acts| ==> !acts[i].ClientDelete?
  }

  lemma NoDeleteConcat(a: seq<Action>, b: seq<Action>)
    requires ByLoop(a) && NoDelete(b)
    ensures NoDelete(a + b)
  {}

  // ---- without a retry the member stays ----

  lemma {:induction false} ConnectAllKeepsPointer(s: Sys, keys: seq<int>, conn: int -> Conn, t: Target)
    requires forall k :: k in keys ==> k in s.ctl.sockets && Classify(s.ctl.sockets[k]) != t
    ensures Pointer(ConnectAll(s, keys, conn).ctl, t) == Pointer(s.ctl, t)
    decreases keys
  {
    if keys != [] {
      var s1 := ConnectStep(s, keys[0], s.ctl.sockets[keys[0]], conn(keys[0]));
      assert Pointer(s1.ctl, t) == Pointer(s.ctl, t);
      ConnectAllKeepsPointer(s1, keys[1..], conn, t);
    }
  }

  lemma FireUnthreatened(s: Sys, at: W.Attempt, conn: int -> Conn, t: Target)
    requires Inv(s) && TimerDue(s) && Enabled(s, FireTimer(at, conn)) && !Threatened(s, t)
    ensures Pointer(Fire(s, at, conn).ctl, t) == Pointer(s.ctl, t) && !Threatened(Fire(s, at, conn), t)
  {
    if s.world.loop.timers[0].cb == SocketReconnect {
      PopPending(s.world.loop.timers);
      ConnectAllKeepsPointer(s.(world := LC.Popped(s.world)), SortedKeys(s.ctl.sockets.Keys), conn, t);
    } else {
      FirePending(s, at, conn);
    }
  }

  lemma VisitUnthreatened(s: Sys, io: Io, t: Target)
    requires Inv(s) && Enabled(s, VisitSlot(io)) && !Threatened(s, t)
    ensures Pointer(Step(s, VisitSlot(io)).ctl, t) == Pointer(s.ctl, t) && !Threatened(Step(s, VisitSlot(io)), t)
  {
    if AtReady(s) { ProcessPending(s, s.world.loop.mux.hdls[s.pc.i].value, io); }
  }

  lemma PollUntimed(s: Sys, a: Action)
    requires |s.world.loop.mux.fds| == |s.world.loop.mux.hdls| && Enabled(s, a) && (a.CheckRun? || a.PollReturns?)
    ensures Untimed(s, Step(s, a))
  {}

  lemma LoopUnthreatened(s: Sys, a: Action, t: Target)
    requires Inv(s) && Enabled(s, a) && OfLoop(a) && !Threatened(s, t)
    ensures Pointer(Step(s, a).ctl, t) == Pointer(s.ctl, t) && !Threatened(Step(s, a), t)
  {
    match a
    case FireTimer(at, conn) => if TimerDue(s) { FireUnthreatened(s, at, conn, t); }
    case VisitSlot(io) => VisitUnthreatened(s, io, t);
    case _ => PollUntimed(s, a);
  }

  /** The client waits, or has waited, for the handler it still finds in its member. */
  ghost predicate Kept(s: Sys, t: Target) {
    && !Threatened(s, t)
    && (s.client.WaitUnregister? || s.client.Deleting?)
    && s.client.t == t && s.client.h == Pointer(s.ctl, t)
  }

  lemma KeptStep(s: Sys, a: Action, t: Target)
    requires Inv(s) && Enabled(s, a) && !a.ClientDelete? && Kept(s, t)
    ensures Kept(Step(s, a), t)
  {
    if OfLoop(a) {
      LoopUnthreatened(s, a, t);
      LoopKeepsClient(s, a);
    }
  }

  lemma {:induction false} RunKept(s: Sys, acts: seq<Action>, t: Target)
    requires Inv(s) && Valid(s, acts) && NoDelete(acts) && Kept(s, t)
    ensures Inv(Exec(s, acts)) && Kept(Exec(s, acts), t)
    decreases acts
  {
    if acts != [] {
      var s1 := FirstStep(s, acts);
      KeptStep(s, acts[0], t);
      RunKept(s1, acts[1..], t);
    }
  }

  // ---- a retry that succeeds replaces the member ----

  /** Connections that succeed, with descriptors and addresses of their own. */
  function GoodConn(n: nat): int -> Conn {
    k => var m := n + (if k >= 0 then 2 * k else -2 * k - 1); Conn(W.Attempt(W.Connected(m), None, m), m, true)
  }

  lemma GoodConnsOk(s: Sys, keys: seq<int>, n: nat)
    requires Increasing(keys)
    requires forall a: Addr :: a >= n ==> a !in s.world.heap && !HasId(s.world.loop.timers, a) && a !in s.world.open
    ensures ConnsOk(s, keys, GoodConn(n))
  {
    forall i, j | 0 <= i < j < |keys| ensures ConnsApart(GoodConn(n)(keys[i]), GoodConn(n)(keys[j])) {
      assert keys[i] != keys[j];
    }
  }

  /** The member's handler was announced by a request from position `i` on. */
  ghost predicate AnnouncedFrom(i: nat, s: Sys, t: Target) {
    Pointer(s.ctl, t).Some? && exists j :: i <= j < |s.req| && s.req[j] == ReqRegister(Pointer(s.ctl, t))
  }

  lemma StillAnnounced(i: nat, s: Sys, e: Sys, t: Target)
    requires AnnouncedFrom(i, s, t) && s.req <= e.req && Pointer(e.ctl, t) == Pointer(s.ctl, t)
    ensures AnnouncedFrom(i, e, t)
  {
    var j :| i <= j < |s.req| && s.req[j] == ReqRegister(Pointer(s.ctl, t));
    assert e.req[j] == s.req[j];
  }

  lemma OneConnects(s: Sys, k: int, name: string, n: nat, t: Target)
    requires !t.Unknown?
    ensures var e := ConnectStep(s, k, name, GoodConn(n)(k));
            && e.world.loop == s.world.loop && s.req <= e.req && e.ctl.sockets == s.ctl.sockets
            && e == s.(world := e.world, ctl := e.ctl, req := e.req)
            && (if Classify(name) == t then AnnouncedFrom(|s.req|, e, t) else Pointer(e.ctl, t) == Pointer(s.ctl, t))
  {
    var e := ConnectStep(s, k, name, GoodConn(n)(k));
    if Classify(name) == t { assert e.req[|s.req|] == ReqRegister(Pointer(e.ctl, t)); }
  }

  /** All connections of a pass succeed. */
  lemma {:induction false} AllConnect(s: Sys, keys: seq<int>, n: nat, t: Target)
    requires !t.Unknown? && forall k :: k in keys ==> k in s.ctl.sockets
    ensures var e := ConnectAll(s, keys, GoodConn(n));
            && e.world.loop == s.world.loop && s.req <= e.req
            && e == s.(world := e.world, ctl := e.ctl, req := e.req)
            && (Pointer(e.ctl, t) == Pointer(s.ctl, t) || AnnouncedFrom(|s.req|, e, t))
            && ((exists k :: k in keys && Classify(s.ctl.sockets[k]) == t) ==> AnnouncedFrom(|s.req|, e, t))
    decreases keys
  {
    if keys != [] {
      var k := keys[0];
      var s1 := ConnectStep(s, k, s.ctl.sockets[k], GoodConn(n)(k));
      OneConnects(s, k, s.ctl.sockets[k], n, t);
      AllConnect(s1, keys[1..], n, t);
      var e := ConnectAll(s, keys, GoodConn(n));
      if Pointer(e.ctl, t) == Pointer(s1.ctl, t) && Classify(s.ctl.sockets[k]) == t {
        StillAnnounced(|s.req|, s1, e, t);
      }
      assert keys == [k] + keys[1..];
    }
  }

  /** A handler for the member is announced from position `i` on and nothing is left to retry, or a retry
      is still to come. */
  ghost predicate Primed(i: nat, s: Sys, t: Target) {
    (s.ctl.sockets == map[] && AnnouncedFrom(i, s, t)) || Threatened(s, t)
  }

  /** What firing a timer does here: the timer goes, requests may come, and the member's retry is kept or
      has succeeded. */
  ghost predicate Fired(s: Sys, e: Sys, i: nat, t: Target)
    requires s.world.loop.timers != []
  {
    && e.world.loop.timers == s.world.loop.timers[1..] && e.world.loop.mux == s.world.loop.mux
    && e == s.(world := e.world, ctl := e.ctl, req := e.req)
    && s.req <= e.req && (Primed(i, s, t) ==> Primed(i, e, t))
  }

  lemma PoppedCore(s: Sys)
    requires Core(s) && s.world.loop.timers != [] && s.world.loop.timers[0].cb != ConnectServer
    ensures Core(s.(world := LC.Popped(s.world)))
  {
    W.DropTimerInv(s.world, 0);
    assert Erase(s.world.loop.timers, 0) == s.world.loop.timers[1..];
    CoreFrame(s, s.(world := LC.Popped(s.world)));
  }

  lemma NothingLeft(s: Sys, n: nat)
    requires Core(s) && ConnsOk(s, SortedKeys(s.ctl.sockets.Keys), GoodConn(n))
    ensures ReconnectStep(s, GoodConn(n)).ctl.sockets == map[]
  {
    ReconnectIsRetry(s, GoodConn(n));
    ReconnectLeavesFailures(DeskOf(s), GoodConn(n));
  }

  lemma RetryFires(s: Sys, n: nat, i: nat, t: Target)
    requires Core(s) && TimerDue(s) && Enabled(s, FireTimer(NoAttempt(n), GoodConn(n)))
    requires s.world.loop.timers[0].cb == SocketReconnect && !t.Unknown? && i <= |s.req|
    ensures Fired(s, Fire(s, NoAttempt(n), GoodConn(n)), i, t)
  {
    var s1 := s.(world := LC.Popped(s.world));
    var keys, e := SortedKeys(s.ctl.sockets.Keys), Fire(s, NoAttempt(n), GoodConn(n));
    PoppedCore(s);
    AllConnect(s1, keys, n, t);
    NothingLeft(s1, n);
    if Primed(i, s, t) { RetryPrimes(s, s1, e, i, t); }
  }

  lemma RetryPrimes(s: Sys, s1: Sys, e: Sys, i: nat, t: Target)
    requires Primed(i, s, t) && i <= |s.req| && s1.ctl == s.ctl && s1.req == s.req && s.req <= e.req
    requires e.ctl.sockets == map[]
    requires Pointer(e.ctl, t) == Pointer(s1.ctl, t) || AnnouncedFrom(|s1.req|, e, t)
    requires Retried(s1, t) ==> AnnouncedFrom(|s1.req|, e, t)
    ensures Primed(i, e, t)
  {
    if !AnnouncedFrom(|s1.req|, e, t) { StillAnnounced(i, s, e, t); }
  }

  lemma OtherFires(s: Sys, n: nat, i: nat, t: Target)
    requires Core(s) && TimerDue(s) && Enabled(s, FireTimer(NoAttempt(n), GoodConn(n)))
    requires s.world.loop.timers[0].cb != SocketReconnect
    ensures Fired(s, Fire(s, NoAttempt(n), GoodConn(n)), i, t)
  {
    FirePending(s, NoAttempt(n), GoodConn(n));
    if AnnouncedFrom(i, s, t) { StillAnnounced(i, s, Fire(s, NoAttempt(n), GoodConn(n)), t); }
  }

  /** A due timer fires; retries succeed, reconnections are refused and cannot read the clock. */
  lemma FireWell(s: Sys, i: nat, t: Target) returns (a: Action)
    requires Core(s) && TimerDue(s) && !t.Unknown? && i <= |s.req|
    ensures a.FireTimer? && Enabled(s, a) && Fired(s, Step(s, a), i, t)
  {
    var n := FreshFrom(s);
    a := FireTimer(NoAttempt(n), GoodConn(n));
    var s1 := s.(world := LC.Popped(s.world));
    forall id | id >= n ensures !HasId(s1.world.loop.timers, id) {
      assert !HasId(s.world.loop.timers, id);
    }
    GoodConnsOk(s1, SortedKeys(s.ctl.sockets.Keys), n);
    if s.world.loop.timers[0].cb == SocketReconnect { RetryFires(s, n, i, t); } else { OtherFires(s, n, i, t); }
  }

  // ---- the client waits, and the loop thread goes on ----

  /** The client waits for `h`, which its request at position `i - 1` asks to unregister, and what comes
      behind that request announces, or will announce, another handler for the member. */
  ghost predicate Awaiting(s: Sys, h: Addr, t: Target, i: nat) {
    && Inv(s) && Attended(s) && s.client == WaitUnregister(Some(h), t) && !t.Unknown? && s.resp == []
    && 1 <= i <= |s.req| && s.req[i - 1] == ReqUnregister(Some(h))
    && Primed(i, s, t)
  }

  lemma AwaitingAlive(s: Sys, h: Addr, t: Target, i: nat)
    requires Awaiting(s, h, t, i)
    ensures Alive(s)
  {}

  predicate AllDue(ts: seq<Timer>, now: Timespec) {
    forall j :: 0 <= j < |ts| ==> !Less(now, ts[j].due)
  }

  lemma FireOne(s: Sys, h: Addr, t: Target, i: nat) returns (a: Action)
    requires Awaiting(s, h, t, i) && TimerDue(s)
    ensures a.FireTimer? && Enabled(s, a) && Awaiting(Step(s, a), h, t, i)
    ensures Step(s, a).pc == s.pc && Step(s, a).world.loop.timers == s.world.loop.timers[1..]
  {
    a := FireWell(s, i, t);
    StepInv(s, a);
    AttendedStep(s, a);
    assert Step(s, a).req[i - 1] == s.req[i - 1];
  }

  lemma LeaveTimers(s: Sys, h: Addr, t: Target, i: nat) returns (acts: seq<Action>)
    requires Awaiting(s, h, t, i) && s.pc.Firing? && !TimerDue(s)
    ensures ByLoop(acts) && Valid(s, acts)
    ensures var e := Exec(s, acts);
            Awaiting(e, h, t, i) && !e.pc.Firing? && e.world.loop.timers == s.world.loop.timers
  {
    acts := [FireTimer(NoAttempt(0), NoConn(0))];
    StepInv(s, acts[0]);
    ExecOne(s, acts[0]);
  }

  lemma FireThen(s: Sys, a: Action, rest: seq<Action>)
    requires |s.world.loop.mux.fds| == |s.world.loop.mux.hdls| && a.FireTimer? && Enabled(s, a)
    requires Valid(Step(s, a), rest) && ByLoop(rest)
    ensures ByLoop([a] + rest) && Valid(s, [a] + rest) && Exec(s, [a] + rest) == Exec(Step(s, a), rest)
  {
    assert ([a] + rest)[1..] == rest;
  }

  /** The timer loop runs to its end. */
  lemma {:induction false} FireAll(s: Sys, h: Addr, t: Target, i: nat) returns (acts: seq<Action>)
    requires Awaiting(s, h, t, i) && s.pc.Firing?
    ensures ByLoop(acts) && Valid(s, acts)
    ensures var e := Exec(s, acts);
            && Awaiting(e, h, t, i) && !e.pc.Firing?
            && (AllDue(s.world.loop.timers, s.pc.now) ==> e.world.loop.timers == [])
    decreases 2 * |s.world.loop.timers| + 1
  {
    if TimerDue(s) {
      acts := FireFirst(s, h, t, i);
    } else {
      acts := LeaveTimers(s, h, t, i);
    }
  }

  lemma {:induction false} FireFirst(s: Sys, h: Addr, t: Target, i: nat) returns (acts: seq<Action>)
    requires Awaiting(s, h, t, i) && TimerDue(s)
    ensures ByLoop(acts) && Valid(s, acts)
    ensures var e := Exec(s, acts);
            && Awaiting(e, h, t, i) && !e.pc.Firing?
            && (AllDue(s.world.loop.timers, s.pc.now) ==> e.world.loop.timers == [])
    decreases 2 * |s.world.loop.timers|
  {
    var a := FireOne(s, h, t, i);
    var rest := FireAll(Step(s, a), h, t, i);
    FireThen(s, a, rest);
    acts := [a] + rest;
  }

  lemma UntimedAwaits(s: Sys, e: Sys, h: Addr, t: Target, i: nat)
    requires Awaiting(s, h, t, i) && Inv(e) && Attended(e) && Calm(s, e) && Untimed(s, e)
    ensures Awaiting(e, h, t, i)
  {
    if AnnouncedFrom(i, s, t) { StillAnnounced(i, s, e, t); }
  }

  lemma Upwards(s: Sys, h: Addr, t: Target, i: nat) returns (acts: seq<Action>)
    requires Awaiting(s, h, t, i) && !s.pc.Firing?
    ensures ByLoop(acts) && Valid(s, acts)
    ensures var e := Exec(s, acts);
            Awaiting(e, h, t, i) && e.pc.Top? && e.world.loop.timers == s.world.loop.timers
  {
    AwaitingAlive(s, h, t, i);
    acts := ReachTop(s);
    RunAttended(s, acts);
    var e := Exec(s, acts);
    if AtReady(e) { SafeDispatch(e); }
    UntimedAwaits(s, e, h, t, i);
  }

  lemma {:induction false} LateClock(ts: seq<Timer>) returns (now: Timespec)
    ensures AllDue(ts, now)
  {
    now := Timespec(0, 0);
    for j := 0 to |ts|
      invariant forall k :: 0 <= k < j ==> !Less(now, ts[k].due)
    {
      if now.sec <= ts[j].due.sec { now := Timespec(ts[j].due.sec + 1, 0); }
    }
  }

  lemma TimersPolled(s: Sys, now: Timespec)
    requires Alive(s) && s.pc.Polling? && s.world.loop.timers != []
    ensures var e := Step(s, PollReturns(0, (_: nat) => 0, Some(now)));
            Calm(s, e) && Untimed(s, e) && e.pc == Firing(now, 0) && |e.world.loop.mux.fds| == |e.world.loop.mux.hdls|
  {}

  /** From the top of the loop into the timer loop, at a time when all timers are due. */
  lemma PollLate(s: Sys, now: Timespec) returns (acts: seq<Action>)
    requires Alive(s) && s.pc.Top? && s.world.loop.timers != []
    ensures ByLoop(acts) && Valid(s, acts)
    ensures var e := Exec(s, acts); Calm(s, e) && Untimed(s, e) && e.pc == Firing(now, 0)
  {
    var i := EnterPolling(s, MuxState.PollingEntry(SCHED, W.POLLIN));
    var check, poll := CheckRun(None), PollReturns(0, (_: nat) => 0, Some(now));
    var s1 := Step(s, check);
    ExecOne(s, check);
    TimersPolled(s1, now);
    ExecOne(s1, poll);
    ExecConcat(s, [check], [poll]);
    acts := [check] + [poll];
  }

  /** All timers are fired, and the loop thread is back at the top of its loop. */
  lemma NoTimersLeft(s: Sys, h: Addr, t: Target, i: nat) returns (acts: seq<Action>)
    requires Awaiting(s, h, t, i)
    ensures ByLoop(acts) && Valid(s, acts)
    ensures var e := Exec(s, acts); Awaiting(e, h, t, i) && e.pc.Top? && e.world.loop.timers == []
  {
    if s.pc.Firing? {
      var fires := FireAll(s, h, t, i);
      var rest := EmptiedOutside(Exec(s, fires), h, t, i);
      ExecConcat(s, fires, rest);
      acts := fires + rest;
    } else {
      acts := EmptiedOutside(s, h, t, i);
    }
  }

  lemma EmptiedOutside(s: Sys, h: Addr, t: Target, i: nat) returns (acts: seq<Action>)
    requires Awaiting(s, h, t, i) && !s.pc.Firing?
    ensures ByLoop(acts) && Valid(s, acts)
    ensures var e := Exec(s, acts); Awaiting(e, h, t, i) && e.pc.Top? && e.world.loop.timers == []
  {
    var up := Upwards(s, h, t, i);
    var rest := EmptiedAtTop(Exec(s, up), h, t, i);
    ExecConcat(s, up, rest);
    acts := up + rest;
  }

  lemma EmptiedAtTop(s: Sys, h: Addr, t: Target, i: nat) returns (acts: seq<Action>)
    requires Awaiting(s, h, t, i) && s.pc.Top?
    ensures ByLoop(acts) && Valid(s, acts)
    ensures var e := Exec(s, acts); Awaiting(e, h, t, i) && e.pc.Top? && e.world.loop.timers == []
  {
    if s.world.loop.timers == [] {
      acts := [];
    } else {
      var now := LateClock(s.world.loop.timers);
      var polled := PolledLate(s, h, t, i, now);
      var rest := EmptiedInside(Exec(s, polled), h, t, i);
      ExecConcat(s, polled, rest);
      acts := polled + rest;
    }
  }

  lemma PolledLate(s: Sys, h: Addr, t: Target, i: nat, now: Timespec) returns (acts: seq<Action>)
    requires Awaiting(s, h, t, i) && s.pc.Top? && s.world.loop.timers != []
    ensures ByLoop(acts) && Valid(s, acts)
    ensures var e := Exec(s, acts);
            Awaiting(e, h, t, i) && e.pc == Firing(now, 0) && e.world.loop.timers == s.world.loop.timers
  {
    AwaitingAlive(s, h, t, i);
    acts := PollLate(s, now);
    RunAttended(s, acts);
    UntimedAwaits(s, Exec(s, acts), h, t, i);
  }

  lemma EmptiedInside(s: Sys, h: Addr, t: Target, i: nat) returns (acts: seq<Action>)
    requires Awaiting(s, h, t, i) && s.pc.Firing? && AllDue(s.world.loop.timers, s.pc.now)
    ensures ByLoop(acts) && Valid(s, acts)
    ensures var e := Exec(s, acts); Awaiting(e, h, t, i) && e.pc.Top? && e.world.loop.timers == []
  {
    var fires := FireAll(s, h, t, i);
    var up := Upwards(Exec(s, fires), h, t, i);
    ExecConcat(s, fires, up);
    acts := fires + up;
  }

  // ---- the request is served and the reply is read ----

  /** The client has waited, and its member holds a handler that is still to be registered. */
  ghost predicate Replaced(s: Sys, h: Addr, t: Target) {
    && Inv(s) && Attended(s) && s.client == Deleting(Some(h), t, true)
    && Victim(s).Some? && ReqRegister(Victim(s)) in s.req
  }

  lemma NoTimerIsQuiet(s: Sys, h: Addr)
    requires Inv(s) && s.client.WaitUnregister? && s.client.h == Some(h) && s.world.loop.timers == []
    ensures h in s.world.heap && s.world.heap[h].timer.None?
  {}

  lemma CountSome<T>(s: seq<T>, j: nat, p: T -> bool)
    requires j < |s| && p(s[j])
    ensures CountIf(s, p) >= 1
  {
    if CountIf(s, p) == 0 { CountZero(s, p); }
  }

  /** No two requests ask for an unregistration. */
  lemma OnlyAsked(s: Sys, j: nat)
    requires Inv(s) && s.client.WaitUnregister? && s.client.h.Some? && 0 < j < |s.req| && AsksUnregister(s.req[j])
    ensures !AsksUnregister(s.req[0])
  {
    CountSome(s.req[1..], j - 1, AsksUnregister);
  }

  /** One request is served. */
  lemma ServeOne(s: Sys, h: Addr, t: Target, i: nat) returns (acts: seq<Action>)
    requires Awaiting(s, h, t, i) && s.pc.Top? && s.world.loop.timers == []
    ensures ByLoop(acts) && Valid(s, acts)
    ensures var e := Exec(s, acts);
            && Inv(e) && Attended(e) && e.client == s.client && e.world.loop.timers == [] && e.pc.Dispatch?
            && e.req == s.req[1..] && e.ctl == s.ctl
            && (if i == 1 then e.resp == [UnregisterResult] && e.quiet else e.resp == [])
  {
    AwaitingAlive(s, h, t, i);
    NoQuitAsked(s);
    NoTimerIsQuiet(s, h);
    if i > 1 { OnlyAsked(s, i - 1); }
    acts := ServeNext(s);
    RunAttended(s, acts);
  }

  lemma NowAnnounced(s: Sys, i: nat, t: Target)
    requires Primed(i, s, t) && s.world.loop.timers == []
    ensures s.ctl.sockets == map[] && AnnouncedFrom(i, s, t)
  {}

  lemma PoppedPrimed(s: Sys, e: Sys, i: nat, t: Target)
    requires s.ctl.sockets == map[] && AnnouncedFrom(i, s, t) && 1 <= i <= |s.req|
    requires e.req == s.req[1..] && e.ctl == s.ctl
    ensures Primed(i - 1, e, t) && Pointer(e.ctl, t).Some? && ReqRegister(Pointer(e.ctl, t)) in e.req
  {
    var j :| i <= j < |s.req| && s.req[j] == ReqRegister(Pointer(s.ctl, t));
    assert e.req[j - 1] == s.req[j];
  }

  /** The reply is there, and behind it the announcement of another handler for the member. */
  ghost predicate Answered(s: Sys, h: Addr, t: Target) {
    && Inv(s) && Attended(s) && s.client == WaitUnregister(Some(h), t)
    && s.resp == [UnregisterResult] && s.quiet
    && Pointer(s.ctl, t).Some? && ReqRegister(Pointer(s.ctl, t)) in s.req
  }

  lemma ReadReply(s: Sys, h: Addr, t: Target)
    requires Answered(s, h, t)
    ensures Valid(s, [ClientRead]) && Replaced(Exec(s, [ClientRead]), h, t)
  {
    StepInv(s, ClientRead);
    AttendedStep(s, ClientRead);
    ExecOne(s, ClientRead);
  }

  lemma ServedLast(s: Sys, h: Addr, t: Target) returns (acts: seq<Action>)
    requires Awaiting(s, h, t, 1) && s.pc.Top? && s.world.loop.timers == []
    ensures NoDelete(acts) && Valid(s, acts) && Replaced(Exec(s, acts), h, t)
  {
    var served := ServeOwn(s, h, t);
    ReadReply(Exec(s, served), h, t);
    ExecConcat(s, served, [ClientRead]);
    NoDeleteConcat(served, [ClientRead]);
    acts := served + [ClientRead];
  }

  lemma ServeOwn(s: Sys, h: Addr, t: Target) returns (acts: seq<Action>)
    requires Awaiting(s, h, t, 1) && s.pc.Top? && s.world.loop.timers == []
    ensures ByLoop(acts) && Valid(s, acts) && Answered(Exec(s, acts), h, t)
  {
    acts := ServeOne(s, h, t, 1);
    NowAnnounced(s, 1, t);
    PoppedPrimed(s, Exec(s, acts), 1, t);
  }

  lemma ServedFirst(s: Sys, h: Addr, t: Target, i: nat) returns (acts: seq<Action>)
    requires Awaiting(s, h, t, i) && s.pc.Top? && s.world.loop.timers == [] && i > 1
    ensures ByLoop(acts) && Valid(s, acts)
    ensures var e := Exec(s, acts); Awaiting(e, h, t, i - 1) && e.pc.Top? && e.world.loop.timers == []
  {
    var served := ServeOne(s, h, t, i);
    var e := Exec(s, served);
    NowAnnounced(s, i, t);
    PoppedPrimed(s, e, i, t);
    assert e.req[i - 2] == s.req[i - 1];
    var up := Upwards(e, h, t, i - 1);
    ExecConcat(s, served, up);
    acts := served + up;
  }

  /** The requests before the client's own are served. */
  lemma {:induction false} ServedUpTo(s: Sys, h: Addr, t: Target, i: nat) returns (acts: seq<Action>)
    requires Awaiting(s, h, t, i) && s.pc.Top? && s.world.loop.timers == []
    ensures ByLoop(acts) && Valid(s, acts)
    ensures var e := Exec(s, acts); Awaiting(e, h, t, 1) && e.pc.Top? && e.world.loop.timers == []
    decreases 2 * i + 1
  {
    if i == 1 { acts := []; } else { acts := ServedNext(s, h, t, i); }
  }

  lemma {:induction false} ServedNext(s: Sys, h: Addr, t: Target, i: nat) returns (acts: seq<Action>)
    requires Awaiting(s, h, t, i) && s.pc.Top? && s.world.loop.timers == [] && i > 1
    ensures ByLoop(acts) && Valid(s, acts)
    ensures var e := Exec(s, acts); Awaiting(e, h, t, 1) && e.pc.Top? && e.world.loop.timers == []
    decreases 2 * i
  {
    var first := ServedFirst(s, h, t, i);
    var rest := ServedUpTo(Exec(s, first), h, t, i - 1);
    ExecConcat(s, first, rest);
    acts := first + rest;
  }

  lemma ServedAll(s: Sys, h: Addr, t: Target, i: nat) returns (acts: seq<Action>)
    requires Awaiting(s, h, t, i) && s.pc.Top? && s.world.loop.timers == []
    ensures NoDelete(acts) && Valid(s, acts) && Replaced(Exec(s, acts), h, t)
  {
    var first := ServedUpTo(s, h, t, i);
    var rest := ServedLast(Exec(s, first), h, t);
    ExecConcat(s, first, rest);
    NoDeleteConcat(first, rest);
    acts := first + rest;
  }

  /** The client asks for the unregistration of its member's handler. */
  lemma ClosesWritten(s: Sys, t: Target)
    requires Inv(s) && Attended(s) && s.client.Idle? && !t.Unknown? && Pointer(s.ctl, t).Some? && Threatened(s, t)
    ensures Awaiting(Step(s, ClientClose(t, true)), Pointer(s.ctl, t).value, t, |s.req| + 1)
  {
    var s1 := Step(s, ClientClose(t, true));
    ExactlyOneReply(s);
    StepInv(s, ClientClose(t, true));
    AttendedStep(s, ClientClose(t, true));
    assert s1.req[|s.req|] == ReqUnregister(Pointer(s.ctl, t));
  }

  lemma RetryReplaces(s: Sys, t: Target) returns (acts: seq<Action>)
    requires Inv(s) && Attended(s) && s.client.Idle? && !t.Unknown? && Pointer(s.ctl, t).Some? && Threatened(s, t)
    ensures var s1 := Step(s, ClientClose(t, true));
            NoDelete(acts) && Valid(s1, acts) && Replaced(Exec(s1, acts), Pointer(s.ctl, t).value, t)
  {
    var h, i, s1 := Pointer(s.ctl, t).value, |s.req| + 1, Step(s, ClientClose(t, true));
    ClosesWritten(s, t);
    var up := NoTimersLeft(s1, h, t, i);
    var rest := ServedAll(Exec(s1, up), h, t, i);
    ExecConcat(s1, up, rest);
    NoDeleteConcat(up, rest);
    acts := up + rest;
  }

  // ---- the exact condition ----

  /** If the run waits for the unregistration, and the loop thread has processed it without a reconnect
      timer, the deletion that comes next is safe. */
  ghost predicate WaitsSafely(s: Sys, acts: seq<Action>) {
    Valid(s, acts) && NoDelete(acts) && Exec(s, acts).client.Deleting? && Exec(s, acts).client.quiet ==>
      DeleteSafe(Exec(s, acts))
  }

  lemma KeptWaitsSafely(s: Sys, t: Target, acts: seq<Action>)
    requires Inv(s) && s.client.Idle? && !t.Unknown? && !Threatened(s, t)
    ensures WaitsSafely(Step(s, ClientClose(t, true)), acts)
  {
    var s1 := Step(s, ClientClose(t, true));
    StepInv(s, ClientClose(t, true));
    assert Kept(s1, t);
    if Valid(s1, acts) && NoDelete(acts) {
      RunKept(s1, acts, t);
      var e := Exec(s1, acts);
      if e.client.Deleting? && e.client.quiet {
        QuietDeleteSafeIff(e);
        DeleteSafeIff(e);
      }
    }
  }

  lemma NullWaitsSafely(s: Sys, t: Target, acts: seq<Action>)
    requires Inv(s) && s.client.Idle? && !t.Unknown? && Pointer(s.ctl, t).None?
    ensures WaitsSafely(Step(s, ClientClose(t, true)), acts)
  {
    var s1 := Step(s, ClientClose(t, true));
    StepInv(s, ClientClose(t, true));
    if Valid(s1, acts) { NullUnregisterNeverReturns(s1, acts); }
  }

  /** Whatever happens while socketClose waits for the unregistration of its handler, its deletion is safe
      afterwards, exactly when no connection for the same member is waiting to be retried with a retry timer
      pending at the time of the call. (For an empty member the call does not return.) */
  lemma WaitedDeleteSafeIff(s: Sys, t: Target)
    requires Inv(s) && Attended(s) && s.client.Idle? && !t.Unknown?
    ensures (forall acts :: WaitsSafely(Step(s, ClientClose(t, true)), acts))
            <==> Pointer(s.ctl, t).None? || !Threatened(s, t)
  {
    var s1 := Step(s, ClientClose(t, true));
    if Pointer(s.ctl, t).None? {
      forall acts ensures WaitsSafely(s1, acts) { NullWaitsSafely(s, t, acts); }
    } else if !Threatened(s, t) {
      forall acts ensures WaitsSafely(s1, acts) { KeptWaitsSafely(s, t, acts); }
    } else {
      var acts := RetryReplaces(s, t);
      assert !WaitsSafely(s1, acts);
    }
  }

  // ---- a run that gets there ----

  /** A connection that is refused and gets a retry timer. */
  function Refusal(now: Timespec): Action {
    ClientConnect(0, "modemd", Conn(W.Attempt(W.Refused, Some(now), 0), HANDLER, true))
  }

  /** A second connection for the same member succeeds. */
  function Success(fd: nat): Action {
    ClientConnect(1, "modemd", Conn(W.Attempt(W.Connected(fd), None, 1), HANDLER, true))
  }

  lemma ThreatIsReachable(listen: nat, channel: nat, fd: nat, now: Timespec) returns (acts: seq<Action>)
    requires listen != channel && fd !in {listen, channel}
    ensures Valid(Start(listen, channel), acts)
    ensures var s := Exec(Start(listen, channel), acts);
            && Inv(s) && Attended(s) && s.client.Idle?
            && Pointer(s.ctl, Modem) == Some(HANDLER) && Threatened(s, Modem)
  {
    var s0 := Start(listen, channel);
    var s1 := Step(s0, Refusal(now));
    ModemName();
    ExecOne(s0, Refusal(now));
    ConnectPending(s0, 0, "modemd", Refusal(now).c);
    ExecOne(s1, Success(fd));
    ConnectPending(s1, 1, "modemd", Success(fd).c);
    ExecConcat(s0, [Refusal(now)], [Success(fd)]);
    acts := [Refusal(now)] + [Success(fd)];
    AttendedInRuns(listen, channel, acts);
    assert 0 in Exec(s0, acts).ctl.sockets;
  }

  /** Waiting is not enough: a run from the start comes to a deletion, after an unregistration that was
      written, waited for and processed without a reconnect timer, of another handler that is still to be
      registered; and then the loop thread by itself calls the deleted object. */
  lemma WaitedDeleteCanBeFatal(listen: nat, channel: nat, fd: nat, now: Timespec)
    returns (before: seq<Action>, wait: seq<Action>, later: seq<Action>)
    requires listen != channel && fd !in {listen, channel}
    ensures Valid(Start(listen, channel), before)
    ensures var s := Exec(Start(listen, channel), before);
            && Inv(s) && s.client.Idle? && Pointer(s.ctl, Modem) == Some(HANDLER)
            && NoDelete(wait) && Valid(Step(s, ClientClose(Modem, true)), wait)
            && var e := Exec(Step(s, ClientClose(Modem, true)), wait);
               && Inv(e) && e.client == Deleting(Some(HANDLER), Modem, true)
               && ByLoop(later) && Valid(Step(e, ClientDelete), later)
               && DeadDispatch(Exec(Step(e, ClientDelete), later))
  {
    before := ThreatIsReachable(listen, channel, fd, now);
    var s := Exec(Start(listen, channel), before);
    wait := RetryReplaces(s, Modem);
    later := AnnouncedDeleteIsFatal(Exec(Step(s, ClientClose(Modem, true)), wait));
  }
}
