/** While the loop thread sleeps in poll(), the client thread may start a retry timer, and nothing wakes
    the loop thread for it. */
module PollTimeout {
  import opened Common
  import opened Timespecs
  import opened TimerList
  import opened LoopState
  import opened Retry
  import opened Daemon
  import opened DaemonInv
  import opened DaemonSteps
  import opened DaemonRuns
  import opened RetryRuns
  import W = World
  import LR = LoopRun

  /** The instant is before the due time that poll's timeout was computed from, if there is one. */
  predicate Earlier(due: Timespec, until: Option<Timespec>) {
    until.None? || Less(due, until.value)
  }

  /** poll() gives up no later than for the timer that is now the first. */
  predicate Covers(s: Sys)
    requires s.pc.Polling?
  {
    s.world.loop.timers == [] || !Earlier(s.world.loop.timers[0].due, s.pc.until)
  }

  /** Going into poll(), the timeout is the one of next_time, and covers the first timer exactly when
      there is none or the clock could be read. */
  lemma EnterCoversIff(s: Sys, clock: Option<Timespec>)
    requires s.pc.Top? && s.world.loop.mux.run && |s.world.loop.mux.fds| == |s.world.loop.mux.hdls|
    ensures var s' := Step(s, CheckRun(clock));
            && s'.pc.Polling? && s'.pc.timeout == LR.Timeout(s.world.loop.timers, clock)
            && (s'.pc.until.None? ==> s'.pc.timeout == -1)
            && (Covers(s') <==> s.world.loop.timers == [] || clock.Some?)
  {}

  /** The client thread starts a retry timer that is due before poll's timeout is meant to end. */
  predicate StartsEarlier(until: Option<Timespec>, a: Action) {
    Revives(a) && Earlier(DueTime(a.c.at.clock.value, RETRY_MS), until)
  }

  predicate SomeEarlier(until: Option<Timespec>, acts: seq<Action>) {
    exists k :: 0 <= k < |acts| && StartsEarlier(until, acts[k])
  }

  /** A retry timer that poll() does not know of. */
  ghost predicate Overslept(s: Sys)
    requires s.pc.Polling?
  {
    exists t :: t in s.world.loop.timers && OversleptBy(t, s.pc.until)
  }

  ghost predicate OversleptBy(t: Timer, until: Option<Timespec>) {
    t.cb == SocketReconnect && Earlier(t.due, until)
  }

  lemma OversleptUncovered(s: Sys)
    requires s.pc.Polling? && Sorted(s.world.loop.timers) && Overslept(s)
    ensures !Covers(s)
  {
    var t :| t in s.world.loop.timers && OversleptBy(t, s.pc.until);
    var i :| 0 <= i < |s.world.loop.timers| && s.world.loop.timers[i] == t;
    assert i == 0 || !Less(t.due, s.world.loop.timers[0].due);
  }

  /** Inserting a timer: the new list is not covered exactly if the old one was not, or the new timer is
      early. */
  lemma InsertCovers(ts: seq<Timer>, t: Timer, until: Option<Timespec>)
    requires Sorted(ts)
    ensures var r := Insert(ts, t);
            && r != []
            && (!Earlier(r[0].due, until) <==> (ts == [] || !Earlier(ts[0].due, until)) && !Earlier(t.due, until))
  {}

  lemma ConnectCovers(s: Sys, src: int, name: string, c: Conn)
    requires W.Inv(s.world) && s.pc.Polling? && Covers(s)
    ensures var s' := ConnectStep(s, src, name, c);
            && s'.pc == s.pc && (Covers(s') <==> !StartsEarlier(s.pc.until, ClientConnect(src, name, c)))
            && (StartsEarlier(s.pc.until, ClientConnect(src, name, c)) ==> Overslept(s'))
  {
    var ts := ConnectStep(s, src, name, c).world.loop.timers;
    if FailsTimed(c) {
      var t := RetryTimer(c.at.clock.value, c.at.tid);
      assert ts == Insert(s.world.loop.timers, t);
      RetryTimerCovers(s.world.loop.timers, t, s.pc.until);
    } else {
      assert ts == s.world.loop.timers;
    }
  }

  /** Starting a retry timer. */
  lemma RetryTimerCovers(ts: seq<Timer>, t: Timer, until: Option<Timespec>)
    requires Sorted(ts) && t.cb == SocketReconnect && (ts == [] || !Earlier(ts[0].due, until))
    ensures var r := Insert(ts, t);
            && r != [] && (!Earlier(r[0].due, until) <==> !Earlier(t.due, until))
            && (Earlier(t.due, until) ==> exists u :: u in r && OversleptBy(u, until))
  {
    InsertCovers(ts, t, until);
    InsertContents(ts, t);
    assert Earlier(t.due, until) ==> OversleptBy(t, until);
  }

  /** Deleting a reconnect timer. */
  lemma DeleteCovers(s: Sys)
    requires Inv(s) && s.pc.Polling? && s.client.Deleting?
    ensures var s' := Step(s, ClientDelete);
            && s'.pc == s.pc && (Covers(s) ==> Covers(s')) && (Overslept(s) ==> Overslept(s'))
  {
    var p := Victim(s);
    if p.Some? && s.world.heap[p.value].timer.Some? {
      var q := TimerPosition(s.world, p.value);
      ErasedCovers(s.world.loop.timers, q, s.pc.until);
      assert Step(s, ClientDelete).world.loop.timers == Erase(s.world.loop.timers, q);
    }
  }

  /** Where the reconnect timer of a handler is. */
  lemma TimerPosition(w: W.World, h: Addr) returns (q: nat)
    requires W.Inv(w) && h in w.heap && w.heap[h].timer.Some?
    ensures q == Find(w.loop.timers, w.heap[h].timer.value) < |w.loop.timers|
    ensures w.loop.timers[q].cb == ConnectServer
  {
    var id := w.heap[h].timer.value;
    var t :| t in w.loop.timers && W.IsReconnectTimer(t, h, id);
    q := Find(w.loop.timers, id);
  }

  lemma ErasedCovers(ts: seq<Timer>, q: nat, until: Option<Timespec>)
    requires Sorted(ts) && q < |ts| && ts[q].cb == ConnectServer
    ensures !Earlier(ts[0].due, until) ==> Erase(ts, q) == [] || !Earlier(Erase(ts, q)[0].due, until)
    ensures (exists t :: t in ts && OversleptBy(t, until)) ==> exists t :: t in Erase(ts, q) && OversleptBy(t, until)
  {
    if !Earlier(ts[0].due, until) { EraseFirst(ts, q, until); }
    if t :| t in ts && OversleptBy(t, until) {
      var i :| 0 <= i < |ts| && ts[i] == t;
      assert i != q && Erase(ts, q)[if i < q then i else i - 1] == t;
    }
  }

  lemma EraseFirst(ts: seq<Timer>, q: nat, until: Option<Timespec>)
    requires Sorted(ts) && q < |ts| && !Earlier(ts[0].due, until)
    ensures Erase(ts, q) == [] || !Earlier(Erase(ts, q)[0].due, until)
  {
    if q == 0 && |ts| > 1 {
      assert Erase(ts, q)[0] == ts[1] && !Less(ts[1].due, ts[0].due);
    }
  }

  lemma ConnectKeepsOverslept(s: Sys, src: int, name: string, c: Conn)
    requires s.pc.Polling? && Overslept(s)
    ensures Overslept(ConnectStep(s, src, name, c))
  {
    var t :| t in s.world.loop.timers && OversleptBy(t, s.pc.until);
    if FailsTimed(c) { InsertContents(s.world.loop.timers, RetryTimer(c.at.clock.value, c.at.tid)); }
    assert t in ConnectStep(s, src, name, c).world.loop.timers;
  }

  lemma ClientStepCovers(s: Sys, a: Action)
    requires Inv(s) && Enabled(s, a) && s.pc.Polling? && !OfLoop(a)
    ensures Step(s, a).pc == s.pc
    ensures Covers(s) ==> (Covers(Step(s, a)) <==> !StartsEarlier(s.pc.until, a))
    ensures Overslept(s) || (Covers(s) && StartsEarlier(s.pc.until, a)) ==> Overslept(Step(s, a))
  {
    match a
    case ClientConnect(src, name, c) =>
      if Covers(s) { ConnectCovers(s, src, name, c); }
      if Overslept(s) { ConnectKeepsOverslept(s, src, name, c); }
    case ClientDelete => DeleteCovers(s);
    case _ =>
  }

  predicate ByClient(acts: seq<Action>) {
    forall k :: 0 <= k < |acts| ==> !OfLoop(acts[k])
  }

  lemma ClientStepOf(s: Sys, acts: seq<Action>) returns (s1: Sys)
    requires Inv(s) && s.pc.Polling? && Valid(s, acts) && acts != [] && ByClient(acts)
    ensures ByClient(acts[1..]) && Inv(s1) && s1.pc == s.pc
    ensures Valid(s1, acts[1..]) && Exec(s, acts) == Exec(s1, acts[1..])
    ensures Covers(s) ==> (Covers(s1) <==> !StartsEarlier(s.pc.until, acts[0]))
    ensures Overslept(s) || (Covers(s) && StartsEarlier(s.pc.until, acts[0])) ==> Overslept(s1)
  {
    s1 := FirstStep(s, acts);
    ClientStepCovers(s, acts[0]);
  }

  /** As long as the loop thread stays in a poll() whose timeout covered the first timer, it goes on to
      do so exactly until the client thread starts an earlier one. */
  lemma {:induction false} PollCoversIff(s: Sys, acts: seq<Action>)
    requires Inv(s) && s.pc.Polling? && Covers(s) && Valid(s, acts)
    requires ByClient(acts)
    ensures Exec(s, acts).pc == s.pc
    ensures Covers(Exec(s, acts)) <==> !SomeEarlier(s.pc.until, acts)
    decreases acts
  {
    if acts != [] {
      var s1 := ClientStepOf(s, acts);
      SomeEarlierTail(s.pc.until, acts);
      if StartsEarlier(s.pc.until, acts[0]) {
        StaysOverslept(s1, acts[1..]);
      } else {
        PollCoversIff(s1, acts[1..]);
      }
    }
  }

  lemma SomeEarlierTail(until: Option<Timespec>, acts: seq<Action>)
    requires acts != []
    ensures SomeEarlier(until, acts) <==> StartsEarlier(until, acts[0]) || SomeEarlier(until, acts[1..])
  {
    if k :| 0 <= k < |acts| && StartsEarlier(until, acts[k]) {
      if k > 0 { assert StartsEarlier(until, acts[1..][k - 1]); }
    }
    if k :| 0 <= k < |acts[1..]| && StartsEarlier(until, acts[1..][k]) {
      assert StartsEarlier(until, acts[k + 1]);
    }
  }

  lemma {:induction false} StaysOverslept(s: Sys, acts: seq<Action>)
    requires Inv(s) && s.pc.Polling? && Overslept(s) && Valid(s, acts)
    requires ByClient(acts)
    ensures Exec(s, acts).pc == s.pc && !Covers(Exec(s, acts))
    decreases acts
  {
    if acts == [] {
      OversleptUncovered(s);
    } else {
      var s1 := ClientStepOf(s, acts);
      StaysOverslept(s1, acts[1..]);
    }
  }

  // ---- the sleeping retry ----

  /** The loop thread goes to sleep with no timers, and then a client's connection is refused. */
  function Refusal(src: int, name: string, now: Timespec): Action {
    ClientConnect(src, name, Conn(W.Attempt(W.Refused, Some(now), 0), MGR + SCHED, true))
  }

  /** The connection is in the retry map and has its timer, but the loop thread waits for ever: the retry
      sleeps until an event on some descriptor ends poll(). */
  lemma RetryMaySleep(listen: nat, channel: nat, clock: Option<Timespec>, src: int, name: string, now: Timespec)
    requires listen != channel
    ensures var acts := [CheckRun(clock), CheckRun(clock), Refusal(src, name, now)];
            && Valid(Start(listen, channel), acts)
            && var s := Exec(Start(listen, channel), acts);
            && s.pc == Polling(-1, None) && s.ctl.sockets == map[src := name] && RetryOk(s) && !Covers(s)
  {
    var s0 := Start(listen, channel);
    var sleep := [CheckRun(clock), CheckRun(clock)];
    var a := Refusal(src, name, now);
    GoesToSleep(listen, channel, clock);
    var s2 := Exec(s0, sleep);
    RefusedAsleep(s2, src, name, now);
    ExecConcat(s0, sleep, [a]);
    assert sleep + [a] == [CheckRun(clock), CheckRun(clock), a];
  }

  lemma RefusedAsleep(s: Sys, src: int, name: string, now: Timespec)
    requires Inv(s) && s.pc == Polling(-1, None) && s.world.loop.timers == [] && s.client == Idle
    requires s.ctl.sockets == map[] && MGR + SCHED !in s.world.heap
    ensures var a := Refusal(src, name, now);
            && Valid(s, [a])
            && var s' := Exec(s, [a]);
            && s'.pc == s.pc && s'.ctl.sockets == map[src := name] && RetryOk(s') && !Covers(s')
  {
    var a := Refusal(src, name, now);
    ConnectPending(s, src, name, a.c);
    ConnectCovers(s, src, name, a.c);
    ExecOne(s, a);
  }

  /** One test of a loop condition. */
  lemma ChecksLoop(s: Sys, clock: Option<Timespec>)
    requires Inv(s) && (s.pc.Outer? || s.pc.Top?)
    ensures var s' := Step(s, CheckRun(clock));
            && Valid(s, [CheckRun(clock)]) && Exec(s, [CheckRun(clock)]) == s' && Inv(s')
            && s'.client == s.client && s'.ctl == s.ctl && s'.world.heap == s.world.heap
            && s'.world.loop.timers == s.world.loop.timers
  {
    StepInv(s, CheckRun(clock));
    ExecOne(s, CheckRun(clock));
  }

  /** Without timers the loop thread waits for ever. */
  lemma GoesToSleep(listen: nat, channel: nat, clock: Option<Timespec>)
    requires listen != channel
    ensures var acts := [CheckRun(clock), CheckRun(clock)];
            && Valid(Start(listen, channel), acts)
            && var s := Exec(Start(listen, channel), acts);
            && Inv(s) && s.pc == Polling(-1, None) && s.world.loop.timers == [] && s.client == Idle
            && s.ctl == Start(listen, channel).ctl && s.world.heap == Start(listen, channel).world.heap
  {
    var s0 := Start(listen, channel);
    var check := [CheckRun(clock)];
    StartInv(listen, channel);
    ChecksLoop(s0, clock);
    var s1 := Step(s0, CheckRun(clock));
    assert s1 == s0.(pc := Top);
    ChecksLoop(s1, clock);
    ExecConcat(s0, check, check);
    assert check + check == [CheckRun(clock), CheckRun(clock)];
  }
}
