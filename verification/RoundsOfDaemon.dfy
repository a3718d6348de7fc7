/** The loop thread of Daemon, as long as the client thread does not interfere, runs the rounds of
    LoopRun: what is proved there for arbitrary callbacks holds of the daemon's. */
module RoundsOfDaemon {
  import opened Common
  import opened Timespecs
  import opened TimerList
  import opened LoopState
  import opened Rounds
  import opened Retry
  import opened Daemon
  import opened DaemonInv
  import opened DaemonSteps
  import opened DaemonRuns
  import W = World
  import LC = LifeCycle
  import LR = LoopRun
  import MuxState

  // ---- callbacks as calls into the loop ----

  function DestructOps(h: Addr, self: W.Handler): seq<Op> {
    (if self.timer.Some? then [DelTimer(self.timer.value)] else []) + (if self.fd >= 0 then [Unreg(h)] else [])
  }

  function ServeOps(r: Request): seq<Op> {
    match r
    case ReqRegister(Some(h)) => [Reg(h, W.POLLIN)]
    case ReqQuit => [Quit]
    case ReqUnregister(Some(h)) => [Unreg(h)]
    case _ => []
  }

  /** The calls process() of the handler at `h` makes. */
  function ProcessOps(s: Sys, h: Addr, io: Io): seq<Op>
    requires h in s.world.heap
  {
    var self := s.world.heap[h];
    var closed := io.read.Eof? || io.read.Failed?;
    match self.kind
    case CpState => if closed then LC.StateCloseOps(h, self, io.at) else []
    case CpTime => if closed then [Unreg(h)] else []
    case Client => if closed then DestructOps(h, self) else []
    case ClientMgr => if io.sock < 0 then [] else [Reg(io.addr, W.POLLIN)]
    case Sched => if io.read.Data? && s.req != [] then ServeOps(s.req[0]) else []
  }

  lemma OneOp(l: Loop, op: Op)
    requires |l.mux.fds| == |l.mux.hdls|
    ensures ApplyAll(l, [op]).after == Apply(l, op).after && ApplyAll(l, []).after == l
  {
    assert [op][1..] == [];
    assert ApplyAll(Apply(l, op).after, []).after == Apply(l, op).after;
  }

  lemma DestructIsOps(l: Loop, h: Addr, self: W.Handler)
    requires |l.mux.fds| == |l.mux.hdls|
    ensures ApplyAll(l, DestructOps(h, self)).after == W.Destruct(l, h, self)
  {
    var ops := DestructOps(h, self);
    if self.timer.Some? && self.fd >= 0 {
      assert ops[1..] == [Unreg(h)];
      OneOp(Apply(l, ops[0]).after, Unreg(h));
    } else if ops != [] {
      OneOp(l, ops[0]);
      assert ops == [ops[0]];
    }
  }

  lemma ProcessIsOps(s: Sys, h: Addr, io: Io)
    requires |s.world.loop.mux.fds| == |s.world.loop.mux.hdls| && h in s.world.heap
    ensures Process(s, h, io).world.loop == ApplyAll(s.world.loop, ProcessOps(s, h, io)).after
  {
    var l, self, ops := s.world.loop, s.world.heap[h], ProcessOps(s, h, io);
    if self.kind.CpState? {
      LC.StateCloseIsOps(l, h, self, io.at);
    } else if self.kind.Client? {
      DestructIsOps(l, h, self);
    } else if self.kind.Sched? {
      if io.read.Data? && s.req != [] { ServeIsOps(s.(req := s.req[1..]), s.req[0]); }
    } else if ops != [] {
      OneOp(l, ops[0]);
      assert ops == [ops[0]];
    }
  }

  lemma ServeIsOps(s: Sys, r: Request)
    requires |s.world.loop.mux.fds| == |s.world.loop.mux.hdls|
    ensures Serve(s, r).world.loop == ApplyAll(s.world.loop, ServeOps(r)).after
  {
    var ops := ServeOps(r);
    if ops != [] {
      OneOp(s.world.loop, ops[0]);
      assert ops == [ops[0]];
    }
  }

  /** The calls the callback of the front timer makes. */
  ghost function FireOps(s: Sys, at: W.Attempt, conn: int -> Conn): seq<Op>
    requires s.world.loop.timers != []
  {
    var t := s.world.loop.timers[0];
    match t.cb
    case ConnectServer => if t.param in s.world.heap then LC.ReconnectOps(t.param, s.world.heap[t.param], at) else []
    case SocketReconnect => RetryOps(SortedKeys(s.ctl.sockets.Keys), conn)
    case Other(_) => []
  }

  lemma FireIsOps(s: Sys, at: W.Attempt, conn: int -> Conn)
    requires Core(s) && TimerDue(s) && Enabled(s, FireTimer(at, conn))
    ensures Fire(s, at, conn).world.loop == ApplyAll(LC.Popped(s.world).loop, FireOps(s, at, conn)).after
  {
    var t := s.world.loop.timers[0];
    var s1 := s.(world := LC.Popped(s.world));
    if t.cb == SocketReconnect {
      W.DropTimerInv(s.world, 0);
      assert Erase(s.world.loop.timers, 0) == s.world.loop.timers[1..];
      CoreFrame(s, s1);
      ReconnectIsRetry(s1, conn);
      RetryKeysIsOps(DeskOf(s1), SortedKeys(s.ctl.sockets.Keys), conn);
    } else if t.cb == ConnectServer && t.param in s.world.heap {
      LC.ReconnectIsOps(s1.world.loop, t.param, s.world.heap[t.param].(timer := None), at);
    }
  }

  // ---- the timer loop ----

  /** The behaviour of callbacks that make these calls, one after the other. */
  function Script(calls: seq<seq<Op>>): Behaviour {
    (n: nat) => if n < |calls| then calls[n] else []
  }

  /** The timer loop, for as many turns as there are callbacks. */
  ghost function Turns(l: Loop, now: Timespec, calls: seq<seq<Op>>): Loop
    requires |l.mux.fds| == |l.mux.hdls|
    decreases |calls|
  {
    if calls == [] || l.timers == [] || Less(now, l.timers[0].due) then l
    else Turns(ApplyAll(l.(timers := l.timers[1..]), calls[0]).after, now, calls[1..])
  }

  lemma {:induction false} TurnsAreFirings(l: Loop, now: Timespec, all: seq<seq<Op>>, k: nat)
    requires |l.mux.fds| == |l.mux.hdls| && k <= |all|
    ensures AfterFirings(l, now, Script(all), k, |all| - k) == Turns(l, now, all[k..])
    decreases |all| - k
  {
    if k < |all| && l.timers != [] && !Less(now, l.timers[0].due) {
      assert all[k..][0] == all[k] == Script(all)(k) && all[k..][1..] == all[k + 1..];
      TurnsAreFirings(ApplyAll(l.(timers := l.timers[1..]), all[k]).after, now, all, k + 1);
    }
  }

  /** One turn of the timer loop. */
  lemma OneTurn(s: Sys, acts: seq<Action>) returns (s1: Sys, ops: seq<Op>)
    requires Inv(s) && TimerDue(s) && Valid(s, acts) && acts != [] && acts[0].FireTimer?
    ensures Inv(s1) && s1.pc == s.pc && Valid(s1, acts[1..]) && Exec(s, acts) == Exec(s1, acts[1..])
    ensures s1.world.loop == ApplyAll(LC.Popped(s.world).loop, ops).after
  {
    s1 := Step(s, acts[0]);
    ops := FireOps(s, acts[0].at, acts[0].conn);
    StepInv(s, acts[0]);
    FireIsOps(s, acts[0].at, acts[0].conn);
    FireCore(s, acts[0].at, acts[0].conn);
  }

  /** The step that leaves the timer loop, and that no further ones of it follow. */
  lemma TimersDone(s: Sys, acts: seq<Action>)
    requires Inv(s) && s.pc.Firing? && !TimerDue(s) && Valid(s, acts) && FiresOnly(acts) && acts != []
    ensures Exec(s, acts) == s.(pc := if s.pc.err > 0 then Dispatch(0) else Top)
  {
    LoopLeft(Step(s, acts[0]), acts[1..]);
  }

  /** Once a loop is left there are no more of its steps. */
  lemma LoopLeft(s: Sys, acts: seq<Action>)
    requires Valid(s, acts)
    ensures !s.pc.Firing? && FiresOnly(acts) ==> acts == []
    ensures !s.pc.Dispatch? && VisitsOnly(acts) ==> acts == []
  {}

  ghost predicate FiresOnly(acts: seq<Action>) {
    forall i :: 0 <= i < |acts| ==> acts[i].FireTimer?
  }

  ghost predicate VisitsOnly(acts: seq<Action>) {
    forall i :: 0 <= i < |acts| ==> acts[i].VisitSlot?
  }

  /** The daemon's timer loop, or a part of it, is that of some callbacks. */
  lemma {:induction false} TimersRefine(s: Sys, acts: seq<Action>) returns (calls: seq<seq<Op>>)
    requires Inv(s) && s.pc.Firing? && Valid(s, acts) && FiresOnly(acts)
    ensures Exec(s, acts).world.loop == Turns(s.world.loop, s.pc.now, calls)
    ensures !Exec(s, acts).pc.Firing? ==> Exec(s, acts).pc == if s.pc.err > 0 then Dispatch(0) else Top
    decreases |acts|
  {
    calls := [];
    if acts != [] {
      if TimerDue(s) {
        var s1, ops := OneTurn(s, acts);
        var rest := TimersRefine(s1, acts[1..]);
        calls := [ops] + rest;
        assert calls[1..] == rest;
      } else {
        TimersDone(s, acts);
      }
    }
  }

  // ---- the dispatch loop ----

  /** The dispatch loop from slot `i` on, for these callbacks and then for idle ones. */
  ghost function ScriptPass(l: Loop, i: nat, calls: seq<seq<Op>>): PassResult
    requires Ok(l)
    decreases |l.mux.fds| - i
  {
    if i >= |l.mux.fds| then PassResult(l, [])
    else if l.mux.fds[i].revents == 0 then ScriptPass(l, i + 1, calls)
    else
      assert MuxState.SlotOk(l.mux, i);
      var ops := if calls == [] then [] else calls[0];
      ApplyAllOk(l, ops);
      var l1 := ApplyAll(l, ops).after;
      var r := if l1.mux.run then ScriptPass(l1, i + 1, if calls == [] then [] else calls[1..]) else PassResult(l1, []);
      PassResult(r.after, [CallAt(l, i)] + r.calls)
  }

  lemma {:induction false} ScriptIsPass(l: Loop, i: nat, all: seq<seq<Op>>, k: nat)
    requires Ok(l)
    ensures Pass(l, i, Script(all), k) == ScriptPass(l, i, if k <= |all| then all[k..] else [])
    decreases |l.mux.fds| - i
  {
    if i < |l.mux.fds| {
      PassStep(l, i, Script(all), k);
      if l.mux.fds[i].revents == 0 {
        ScriptIsPass(l, i + 1, all, k);
      } else {
        if k < |all| { assert all[k..][0] == all[k] && all[k..][1..] == all[k + 1..]; }
        var l1 := ApplyAll(l, Script(all)(k)).after;
        if l1.mux.run { ScriptIsPass(l1, i + 1, all, k + 1); }
      }
    }
  }

  /** The calls of process() that the visits make: the handlers at the ready slots, in order. */
  ghost function Visited(s: Sys, acts: seq<Action>): seq<Call>
    requires Valid(s, acts)
    decreases acts
  {
    if acts == [] then []
    else
      (if acts[0].VisitSlot? && AtReady(s) then [CallAt(s.world.loop, s.pc.i)] else [])
      + Visited(Step(s, acts[0]), acts[1..])
  }

  /** A handler is called. */
  lemma OneCall(s: Sys, acts: seq<Action>) returns (s1: Sys, ops: seq<Op>)
    requires Inv(s) && AtReady(s) && Valid(s, acts) && acts != [] && acts[0].VisitSlot?
    ensures Inv(s1) && Valid(s1, acts[1..]) && Exec(s, acts) == Exec(s1, acts[1..]) && TargetLive(s)
    ensures Visited(s, acts) == [CallAt(s.world.loop, s.pc.i)] + Visited(s1, acts[1..])
    ensures s1.world.loop == ApplyAll(s.world.loop, ops).after
    ensures s1.pc == if s1.world.loop.mux.run then Dispatch(s.pc.i + 1) else Top
  {
    s1 := FirstStep(s, acts);
    SafeDispatch(s);
    var h := s.world.loop.mux.hdls[s.pc.i].value;
    ops := ProcessOps(s, h, acts[0].io);
    ProcessIsOps(s, h, acts[0].io);
  }

  /** A slot without events is passed. */
  lemma OneSkip(s: Sys, acts: seq<Action>) returns (s1: Sys)
    requires Inv(s) && s.pc.Dispatch? && !AtReady(s) && Valid(s, acts) && acts != [] && acts[0].VisitSlot?
    ensures Inv(s1) && Valid(s1, acts[1..]) && Exec(s, acts) == Exec(s1, acts[1..])
    ensures Visited(s, acts) == Visited(s1, acts[1..])
    ensures s1 == s.(pc := if s.pc.i < |s.world.loop.mux.fds| then Dispatch(s.pc.i + 1) else Top)
  {
    s1 := FirstStep(s, acts);
  }

  /** The dispatch loop from slot `i` on makes the calls of `e` and leads to its loop, for some callbacks. */
  ghost predicate Scripted(l: Loop, i: nat, e: PassResult)
    requires Ok(l)
  {
    exists calls :: ScriptPass(l, i, calls) == e
  }

  lemma ScriptCons(l: Loop, i: nat, ops: seq<Op>, e: PassResult)
    requires Ok(l) && i < |l.mux.fds| && l.mux.fds[i].revents != 0 && l.mux.hdls[i].Some?
    requires var l1 := ApplyAll(l, ops).after;
             Ok(l1) && if l1.mux.run then Scripted(l1, i + 1, e) else e == PassResult(l1, [])
    ensures Scripted(l, i, PassResult(e.after, [CallAt(l, i)] + e.calls))
  {
    var l1 := ApplyAll(l, ops).after;
    var rest: seq<seq<Op>> := [];
    if l1.mux.run { rest :| ScriptPass(l1, i + 1, rest) == e; }
    assert ([ops] + rest)[0] == ops && ([ops] + rest)[1..] == rest;
    assert ScriptPass(l, i, [ops] + rest) == PassResult(e.after, [CallAt(l, i)] + e.calls);
  }

  lemma ScriptSkip(l: Loop, i: nat, e: PassResult)
    requires Ok(l) && (i < |l.mux.fds| ==> l.mux.fds[i].revents == 0)
    requires if i < |l.mux.fds| then Scripted(l, i + 1, e) else e == PassResult(l, [])
    ensures Scripted(l, i, e)
  {
    var rest: seq<seq<Op>> := [];
    if i < |l.mux.fds| { rest :| ScriptPass(l, i + 1, rest) == e; }
    assert ScriptPass(l, i, rest) == e;
  }

  /** Where the dispatch loop is, and what that leads to. */
  ghost predicate Leads(s: Sys, e: PassResult)
    requires Ok(s.world.loop)
  {
    if s.pc.Dispatch? then Scripted(s.world.loop, s.pc.i, e) else e == PassResult(s.world.loop, [])
  }

  lemma CallLeads(s: Sys, s1: Sys, ops: seq<Op>, e: PassResult)
    requires Ok(s.world.loop) && AtReady(s) && TargetLive(s) && Ok(s1.world.loop) && Leads(s1, e)
    requires s1.world.loop == ApplyAll(s.world.loop, ops).after
    requires s1.pc == if s1.world.loop.mux.run then Dispatch(s.pc.i + 1) else Top
    ensures Leads(s, PassResult(e.after, [CallAt(s.world.loop, s.pc.i)] + e.calls))
  {
    ScriptCons(s.world.loop, s.pc.i, ops, e);
  }

  lemma SkipLeads(s: Sys, s1: Sys, e: PassResult)
    requires Ok(s.world.loop) && s.pc.Dispatch? && !AtReady(s) && Ok(s1.world.loop) && Leads(s1, e)
    requires s1 == s.(pc := if s.pc.i < |s.world.loop.mux.fds| then Dispatch(s.pc.i + 1) else Top)
    ensures Leads(s, e)
  {
    ScriptSkip(s.world.loop, s.pc.i, e);
  }

  /** The visits make the calls of some callbacks, and lead where these lead. */
  ghost predicate Refined(s: Sys, acts: seq<Action>)
    requires Valid(s, acts) && Ok(s.world.loop)
  {
    Leads(s, PassResult(Exec(s, acts).world.loop, Visited(s, acts)))
  }

  lemma SlotRefined(s: Sys, acts: seq<Action>) returns (s1: Sys)
    requires Inv(s) && s.pc.Dispatch? && Valid(s, acts) && VisitsOnly(acts) && acts != []
    ensures Inv(s1) && Valid(s1, acts[1..]) && Exec(s, acts) == Exec(s1, acts[1..])
    ensures s1.pc.Dispatch? || s1.pc.Top?
    ensures Refined(s1, acts[1..]) ==> Refined(s, acts)
  {
    if AtReady(s) {
      var ops;
      s1, ops := OneCall(s, acts);
      if Refined(s1, acts[1..]) {
        CallLeads(s, s1, ops, PassResult(Exec(s1, acts[1..]).world.loop, Visited(s1, acts[1..])));
      }
    } else {
      s1 := OneSkip(s, acts);
      if Refined(s1, acts[1..]) { SkipLeads(s, s1, PassResult(Exec(s, acts).world.loop, Visited(s, acts))); }
    }
  }

  /** The daemon's dispatch loop, from a slot to its end, is that of some callbacks. */
  lemma {:induction false} SlotsRefine(s: Sys, acts: seq<Action>)
    requires Inv(s) && (s.pc.Dispatch? || s.pc.Top?) && Valid(s, acts) && VisitsOnly(acts) && Exec(s, acts).pc.Top?
    ensures Refined(s, acts)
    decreases |acts|
  {
    if s.pc.Top? {
      LoopLeft(s, acts);
    } else {
      var s1 := SlotRefined(s, acts);
      SlotsRefine(s1, acts[1..]);
    }
  }

  // ---- a whole round ----

  /** What a round of LoopRun learns from outside is what the round of the daemon learnt: the clock readings,
      what poll() returned, and the handlers' descriptors. */
  ghost predicate SameInputs(s: Sys, check: Action, poll: Action, env: LR.Env)
    requires check.CheckRun? && poll.PollReturns?
  {
    && env.nextClock == check.clock && env.err == poll.err && env.revents == poll.revents
    && env.runClock == poll.now && env.fdOf == W.FdOf(s.world)
  }

  /** One round of the daemon's loop thread, from the top of its loop back to it without a step of the
      client thread, is a round of LoopRun: on the same inputs, for the daemon's callbacks, with the same
      calls of process() and the same loop afterwards. */
  lemma RoundRefines(s: Sys, check: Action, poll: Action, fires: seq<Action>, visits: seq<Action>)
    returns (env: LR.Env, turns: nat)
    requires Inv(s) && s.pc.Top? && s.world.loop.mux.run && check.CheckRun? && poll.PollReturns?
    requires FiresOnly(fires) && VisitsOnly(visits)
    requires var s2 := Step(Step(s, check), poll);
             && Valid(s2, fires) && !Exec(s2, fires).pc.Firing?
             && Valid(Exec(s2, fires), visits) && Exec(Exec(s2, fires), visits).pc.Top?
    ensures SameInputs(s, check, poll, env)
    ensures var s3 := Exec(Step(Step(s, check), poll), fires);
            LR.AnyRound(s.world.loop, env, turns) == PassResult(Exec(s3, visits).world.loop, Visited(s3, visits))
  {
    StepInv(s, check);
    var s1 := Step(s, check);
    StepInv(s1, poll);
    var s2 := Step(s1, poll);
    var timers := TimerPart(s2, poll, fires);
    var s3 := Exec(s2, fires);
    RunInv(s2, fires);
    var handlers := DispatchPart(s3, visits);
    turns := |timers|;
    env := LR.Env(check.clock, poll.err, poll.revents, poll.now, Script(timers), Script(handlers), W.FdOf(s.world));
    RoundOfParts(s, check, poll, env, turns, s3.world.loop);
  }

  lemma TimerPart(s: Sys, poll: Action, fires: seq<Action>) returns (calls: seq<seq<Op>>)
    requires Inv(s) && poll.PollReturns? && Valid(s, fires) && FiresOnly(fires) && !Exec(s, fires).pc.Firing?
    requires s.pc == if s.world.loop.timers != [] && poll.now.Some? then Firing(poll.now.value, poll.err)
                     else if poll.err > 0 then Dispatch(0) else Top
    ensures Exec(s, fires).world.loop == LR.TimerTurns(s.world.loop, poll.now, Script(calls), |calls|)
    ensures Exec(s, fires).pc == if poll.err > 0 then Dispatch(0) else Top
  {
    calls := [];
    if s.pc.Firing? {
      calls := TimersRefine(s, fires);
      TurnsAreFirings(s.world.loop, s.pc.now, calls, 0);
      assert calls[0..] == calls;
    } else {
      LoopLeft(s, fires);
    }
  }

  lemma DispatchPart(s: Sys, visits: seq<Action>) returns (calls: seq<seq<Op>>)
    requires Inv(s) && (s.pc == Dispatch(0) || s.pc == Top)
    requires Valid(s, visits) && VisitsOnly(visits) && Exec(s, visits).pc.Top?
    ensures PassResult(Exec(s, visits).world.loop, Visited(s, visits))
            == if s.pc.Dispatch? then Pass(s.world.loop, 0, Script(calls), 0) else PassResult(s.world.loop, [])
  {
    SlotsRefine(s, visits);
    calls := [];
    if s.pc.Dispatch? {
      calls :| ScriptPass(s.world.loop, 0, calls) == PassResult(Exec(s, visits).world.loop, Visited(s, visits));
      ScriptIsPass(s.world.loop, 0, calls, 0);
      assert calls[0..] == calls;
    }
  }

  /** Putting the parts together. */
  lemma RoundOfParts(s: Sys, check: Action, poll: Action, env: LR.Env, turns: nat, l3: Loop)
    requires Inv(s) && s.pc.Top? && s.world.loop.mux.run && check.CheckRun? && poll.PollReturns?
    requires SameInputs(s, check, poll, env)
    requires var l2 := Step(Step(s, check), poll).world.loop;
             |l2.mux.fds| == |l2.mux.hdls| && l3 == LR.TimerTurns(l2, env.runClock, env.timers, turns)
    ensures Ok(l3)
    ensures LR.AnyRound(s.world.loop, env, turns)
            == if env.err > 0 then Pass(l3, 0, env.handlers, 0) else PassResult(l3, [])
  {
    LR.PolledRound(s.world.loop, env);
    LR.TimerTurnsOk(Step(Step(s, check), poll).world.loop, env.runClock, env.timers, turns);
  }
}
