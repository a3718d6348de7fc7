/** Over whole runs of the daemon: when a connection that is to be retried has a pending timer. */
module RetryRuns {
  import opened Common
  import opened TimerList
  import opened LoopState
  import opened Retry
  import opened Daemon
  import opened DaemonInv
  import opened DaemonSteps
  import opened DaemonRuns
  import W = World
  import LC = LifeCycle

  /** The connections to retry have a pending timer. */
  ghost predicate RetryOk(s: Sys) {
    s.ctl.sockets != map[] ==> Pending(DeskOf(s)) >= 1
  }

  /** The step leaves a pending timer for what is to be retried. */
  ghost predicate KeepsRetry(s: Sys, a: Action) {
    match a
    case ClientConnect(_, _, c) => Succeeds(c) || c.at.clock.Some? || Pending(DeskOf(s)) >= 1
    case FireTimer(_, conn) =>
      TimerDue(s) && s.world.loop.timers[0].cb == SocketReconnect ==>
        || (forall k :: k in s.ctl.sockets ==> Succeeds(conn(k)))
        || Pending(DeskOf(s)) >= 2
        || exists k :: k in s.ctl.sockets && FailsTimed(conn(k))
    case _ => true
  }

  /** Every clock reading taken for a retry timer succeeds. */
  ghost predicate ClockWorks(a: Action) {
    match a
    case FireTimer(_, conn) => forall k :: conn(k).at.clock.Some?
    case ClientConnect(_, _, c) => c.at.clock.Some?
    case _ => true
  }

  lemma SelectErase(ts: seq<Timer>, p: nat)
    requires p < |ts| && ts[p].cb != SocketReconnect
    ensures Select(Erase(ts, p), SocketReconnect, false) == Select(ts, SocketReconnect, false)
  {
    var a, x, b := ts[..p], [ts[p]], ts[p + 1..];
    assert ts == a + (x + b);
    SelectConcat(a, x + b, SocketReconnect, false);
    SelectConcat(x, b, SocketReconnect, false);
    SelectConcat(a, b, SocketReconnect, false);
    assert x[1..] == [];
  }

  /** The number of pending retries is the same in two lists of timers. */
  ghost predicate SamePending(l: Loop, l': Loop) {
    |Select(l'.timers, SocketReconnect, false)| == |Select(l.timers, SocketReconnect, false)|
  }

  lemma StateReconnectPending(l: Loop, h: Addr, self: W.Handler, at: W.Attempt)
    ensures SamePending(l, W.Reconnect(l, h, self, at).0)
  {
    if self.dest && at.outcome.Refused? && at.clock.Some? {
      SelectInsert(l.timers, NewTimer(at.clock.value, W.RECONNECT_MS, ConnectServer, h, at.tid), SocketReconnect);
    }
  }

  lemma DestructPending(w: W.World, h: Addr)
    requires W.Inv(w) && h in w.heap
    ensures SamePending(w.loop, W.Destruct(w.loop, h, w.heap[h]))
  {
    if w.heap[h].timer.Some? {
      var id := w.heap[h].timer.value;
      var t :| t in w.loop.timers && W.IsReconnectTimer(t, h, id);
      var p := Find(w.loop.timers, id);
      assert p < |w.loop.timers| && w.loop.timers[p] == t;
      SelectErase(w.loop.timers, p);
    }
  }

  lemma ProcessPending(s: Sys, h: Addr, io: Io)
    requires W.Inv(s.world) && h in s.world.heap
    ensures SamePending(s.world.loop, Process(s, h, io).world.loop)
    ensures Process(s, h, io).ctl == s.ctl
  {
    var w := s.world;
    match w.heap[h].kind
    case CpState => StateReconnectPending(W.Unregister(w.loop, h), h, W.Closed(w.heap[h]), io.at);
    case Client => DestructPending(w, h);
    case _ =>
  }

  lemma ConnectPending(s: Sys, src: int, name: string, c: Conn)
    ensures var s' := ConnectStep(s, src, name, c);
            && Pending(DeskOf(s')) == Pending(DeskOf(s)) + (if FailsTimed(c) then 1 else 0)
            && s'.ctl.sockets == (if Succeeds(c) then s.ctl.sockets else s.ctl.sockets[src := name])
            && (!Succeeds(c) ==> s'.ctl.sockets != map[])
  {
    FailureRevives(DeskOf(s), src, name, c);
    assert src in s.ctl.sockets[src := name];
  }

  /** Popping the front timer. */
  lemma PopPending(ts: seq<Timer>)
    requires ts != []
    ensures |Select(ts, SocketReconnect, false)|
            == |Select(ts[1..], SocketReconnect, false)| + if ts[0].cb == SocketReconnect then 1 else 0
  {}

  lemma FirePending(s: Sys, at: W.Attempt, conn: int -> Conn)
    requires Core(s) && TimerDue(s) && Enabled(s, FireTimer(at, conn))
    requires s.world.loop.timers[0].cb != SocketReconnect
    ensures Pending(DeskOf(Fire(s, at, conn))) == Pending(DeskOf(s)) && Fire(s, at, conn).ctl == s.ctl
  {
    var ts := s.world.loop.timers;
    PopPending(ts);
    if ts[0].cb == ConnectServer && ts[0].param in s.world.heap {
      StateReconnectPending(LC.Popped(s.world).loop, ts[0].param, s.world.heap[ts[0].param].(timer := None), at);
    }
  }

  lemma FireRetry(s: Sys, at: W.Attempt, conn: int -> Conn)
    requires Core(s) && TimerDue(s) && Enabled(s, FireTimer(at, conn))
    requires s.world.loop.timers[0].cb == SocketReconnect
    ensures RetryOk(Fire(s, at, conn)) <==> KeepsRetry(s, FireTimer(at, conn))
  {
    var s1 := s.(world := LC.Popped(s.world));
    PopPending(s.world.loop.timers);
    W.DropTimerInv(s.world, 0);
    assert Erase(s.world.loop.timers, 0) == s.world.loop.timers[1..];
    CoreFrame(s, s1);
    ReconnectIsRetry(s1, conn);
    ReconnectKeepsRetryingIff(DeskOf(s1), conn);
  }

  lemma DeletePending(s: Sys)
    requires Inv(s) && s.client.Deleting?
    ensures var s' := Step(s, ClientDelete);
            Pending(DeskOf(s')) == Pending(DeskOf(s)) && s'.ctl.sockets == s.ctl.sockets
  {
    if Victim(s).Some? { DestructPending(s.world, Victim(s).value); }
  }

  /** Steps other than connecting and the retry pass change neither the retry map nor its timers. */
  lemma OtherStepPending(s: Sys, a: Action)
    requires Inv(s) && Enabled(s, a) && !a.ClientConnect?
    requires a.FireTimer? && TimerDue(s) ==> s.world.loop.timers[0].cb != SocketReconnect
    ensures Pending(DeskOf(Step(s, a))) == Pending(DeskOf(s)) && Step(s, a).ctl.sockets == s.ctl.sockets
  {
    if a.FireTimer? {
      if TimerDue(s) { FirePending(s, a.at, a.conn); }
    } else if a.VisitSlot? {
      if AtReady(s) { VisitPending(s, a.io); }
    } else if a.ClientDelete? {
      DeletePending(s);
    } else {
      IdleStepPending(s, a);
    }
  }

  lemma IdleStepPending(s: Sys, a: Action)
    requires Inv(s) && Enabled(s, a) && !a.ClientConnect? && !a.FireTimer? && !a.VisitSlot? && !a.ClientDelete?
    ensures Step(s, a).world.loop.timers == s.world.loop.timers && Step(s, a).ctl == s.ctl
  {}

  lemma VisitPending(s: Sys, io: Io)
    requires Inv(s) && Enabled(s, VisitSlot(io)) && AtReady(s)
    ensures var s' := Step(s, VisitSlot(io));
            Pending(DeskOf(s')) == Pending(DeskOf(s)) && s'.ctl.sockets == s.ctl.sockets
  {
    SafeDispatch(s);
    ProcessPending(s, s.world.loop.mux.hdls[s.pc.i].value, io);
  }

  /** Exactly the steps that keep a retry timer keep this. */
  lemma RetryStepIff(s: Sys, a: Action)
    requires Inv(s) && Enabled(s, a) && RetryOk(s)
    ensures RetryOk(Step(s, a)) <==> KeepsRetry(s, a)
  {
    if a.ClientConnect? {
      ConnectPending(s, a.src, a.name, a.c);
    } else if a.FireTimer? && TimerDue(s) && s.world.loop.timers[0].cb == SocketReconnect {
      FireRetry(s, a.at, a.conn);
    } else {
      OtherStepPending(s, a);
    }
  }

  lemma ClockWorksKeeps(s: Sys, a: Action)
    requires ClockWorks(a)
    ensures KeepsRetry(s, a)
  {}

  /** As long as the clock works, in every state of a run a non-empty retry map has a pending timer. When
      that timer can fire is the matter of PollTimeout. */
  lemma {:induction false} NoRetryIsLost(s: Sys, acts: seq<Action>)
    requires Inv(s) && RetryOk(s) && Valid(s, acts)
    requires forall a :: a in acts ==> ClockWorks(a)
    ensures RetryOk(Exec(s, acts))
    decreases acts
  {
    if acts != [] {
      StepInv(s, acts[0]);
      ClockWorksKeeps(s, acts[0]);
      RetryStepIff(s, acts[0]);
      NoRetryIsLost(Step(s, acts[0]), acts[1..]);
    }
  }

  lemma NoRetryIsLostFromStart(listen: nat, channel: nat, acts: seq<Action>)
    requires listen != channel && Valid(Start(listen, channel), acts)
    requires forall a :: a in acts ==> ClockWorks(a)
    ensures RetryOk(Exec(Start(listen, channel), acts))
  {
    StartInv(listen, channel);
    NoRetryIsLost(Start(listen, channel), acts);
  }

  // ---- after the clock has failed ----

  /** Connections to retry, and no timer for them. */
  ghost predicate Stalled(s: Sys) {
    s.ctl.sockets != map[] && Pending(DeskOf(s)) == 0
  }

  predicate Revives(a: Action) {
    a.ClientConnect? && FailsTimed(a.c)
  }

  lemma NoRetryInFront(s: Sys)
    requires Pending(DeskOf(s)) == 0 && s.world.loop.timers != []
    ensures s.world.loop.timers[0].cb != SocketReconnect
  {}

  /** Retrying stays stalled until the next failure that can read the clock, and ends with it: the map
      that its timer is going to walk then holds the stalled entries too. */
  lemma StalledStepIff(s: Sys, a: Action)
    requires Inv(s) && Enabled(s, a) && Stalled(s)
    ensures Stalled(Step(s, a)) <==> !Revives(a)
    ensures Revives(a) ==> RetryOk(Step(s, a)) && forall k :: k in s.ctl.sockets ==> k in Step(s, a).ctl.sockets
  {
    if a.ClientConnect? {
      ConnectPending(s, a.src, a.name, a.c);
    } else {
      if a.FireTimer? && TimerDue(s) { NoRetryInFront(s); }
      OtherStepPending(s, a);
    }
  }

  lemma {:induction false} StalledUntilRevived(s: Sys, acts: seq<Action>)
    requires Inv(s) && Stalled(s) && Valid(s, acts) && forall a :: a in acts ==> !Revives(a)
    ensures Stalled(Exec(s, acts))
    decreases acts
  {
    if acts != [] {
      StepInv(s, acts[0]);
      StalledStepIff(s, acts[0]);
      StalledUntilRevived(Step(s, acts[0]), acts[1..]);
    }
  }
}
