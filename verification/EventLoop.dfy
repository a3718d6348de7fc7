/** timer_mgr.cpp and multiplexer.cpp in their own form: objects that are updated in place. Every
    method is tied to the functions of TimerList, MuxState, Rounds and LoopRun. */
module EventLoop {
  import opened Common
  import opened Timespecs
  import opened TimerList
  import opened LoopState
  import opened Rounds
  import opened LoopRun
  import opened RoundLaws
  import MuxState

  type PollFd = MuxState.PollFd

  class TimerManager {
    var timers: seq<Timer>

    constructor ()
      ensures timers == []
    {
      timers := [];
    }

    method InsertTimer(t: Timer)
      modifies this
      ensures timers == Insert(old(timers), t)
    {
      var it := 0;
      while it < |timers|
        invariant 0 <= it <= |timers|
        invariant forall i :: 0 <= i < it ==> !Less(t.due, timers[i].due)
      {
        if Less(t.due, timers[it].due) { break; }
        it := it + 1;
      }
      ScanFromUnique(timers, 0, t.due, it);
      timers := timers[..it] + [t] + timers[it..];
    }

    method AddTimer(clock: Option<Timespec>, interval: int, cb: Callback, param: nat, id: TimerId)
        returns (ret: int)
      modifies this
      ensures clock.None? ==> ret == -1 && timers == old(timers)
      ensures clock.Some? ==> ret == 0 && timers == Insert(old(timers), NewTimer(clock.value, interval, cb, param, id))
    {
      if clock.None? { return -1; }
      InsertTimer(Timer(id, DueTime(clock.value, interval), cb, param));
      return 0;
    }

    /** Returns the address of the new timer, or none (a null pointer) when the clock fails. */
    method CreateTimer(clock: Option<Timespec>, interval: int, cb: Callback, param: nat, id: TimerId)
        returns (r: Option<TimerId>)
      modifies this
      ensures clock.None? ==> r == None && timers == old(timers)
      ensures clock.Some? ==>
                r == Some(id) && timers == Insert(old(timers), NewTimer(clock.value, interval, cb, param, id))
    {
      if clock.None? { return None; }
      InsertTimer(Timer(id, DueTime(clock.value, interval), cb, param));
      return Some(id);
    }

    method DelTimerByCallback(cb: Callback)
      modifies this
      ensures timers == Select(old(timers), cb, true)
    {
      var it := 0;
      while it < |timers|
        invariant 0 <= it <= |timers|
        invariant timers[..it] + Select(timers[it..], cb, true) == Select(old(timers), cb, true)
        decreases |timers| - it
      {
        SelectAt(timers, it, cb);
        if timers[it].cb == cb {
          timers := timers[..it] + timers[it + 1..];
        } else {
          it := it + 1;
        }
      }
      assert timers[..it] == timers && timers[it..] == [];
    }

    method FindTimer(id: TimerId) returns (p: nat)
      ensures p == Find(timers, id)
    {
      p := 0;
      while p < |timers| && timers[p].id != id
        invariant 0 <= p <= |timers|
        invariant forall i :: 0 <= i < p ==> timers[i].id != id
      {
        p := p + 1;
      }
      assert p == Find(timers, id);
    }

    method SetNewDueTime(id: TimerId, clock: Option<Timespec>, interval: int) returns (ret: int)
      modifies this
      ensures var p := Find(old(timers), id);
              if p < |old(timers)| && clock.Some?
              then ret == 0 && timers == Reschedule(old(timers), p, DueTime(clock.value, interval))
              else ret == -1 && timers == old(timers)
    {
      var p := FindTimer(id);
      if p == |timers| || clock.None? { return -1; }
      var t := timers[p].(due := DueTime(clock.value, interval));
      timers := timers[..p] + timers[p + 1..];
      var it := p;
      while it < |timers|
        invariant p <= it <= |timers|
        invariant forall i :: p <= i < it ==> !Less(t.due, timers[i].due)
      {
        if Less(t.due, timers[it].due) { break; }
        it := it + 1;
      }
      ScanFromUnique(timers, p, t.due, it);
      timers := timers[..it] + [t] + timers[it..];
      return 0;
    }

    method DelTimer(id: TimerId)
      modifies this
      ensures timers == DeleteId(old(timers), id)
    {
      var p := FindTimer(id);
      if p < |timers| {
        timers := timers[..p] + timers[p + 1..];
      }
    }

    method NextTime(clock: Option<Timespec>) returns (ret: int, span: int)
      ensures (if ret < 0 then -1 else span) == Timeout(timers, clock)
      ensures ret < 0 <==> timers != [] && clock.None?
    {
      if timers == [] { return 0, -1; }
      if clock.None? { return -1, 0; }
      span := Span(timers[0].due, clock.value);
      if span < 0 { span := 0; }
      return 0, span;
    }

    /** run: the callbacks act on the multiplexer that owns this manager. `fired` records the timers
        whose callback was invoked. */
    method Run(mux: Multiplexer, clock: Option<Timespec>, beh: Behaviour) returns (fired: seq<Timer>)
      requires mux.Valid() && mux.timerMgr == this
      requires clock.Some? ==> AllLater(beh, 0, clock.value)
      modifies mux.Repr()
      ensures mux.Valid() && mux.Repr() == old(mux.Repr())
      ensures mux.View() == RunTimers(old(mux.View()), clock, beh).after
      ensures fired == RunTimers(old(mux.View()), clock, beh).fired
      ensures Sorted(old(timers)) && MuxState.Ok(old(mux.Mux())) ==>
                if clock.Some? then FiresDue(old(timers), fired, timers, clock.value, beh)
                else fired == [] && timers == old(timers)
    {
      if Ok(mux.View()) { RunTimersIsExact(mux.View(), clock, beh); }
      fired := [];
      if timers == [] { return; }
      if clock.None? { return; }
      fired := RunDue(mux, clock.value, beh);
    }

    /** The loop of run, once the time is sampled. */
    method RunDue(mux: Multiplexer, now: Timespec, beh: Behaviour) returns (fired: seq<Timer>)
      requires mux.Valid() && mux.timerMgr == this && AllLater(beh, 0, now)
      modifies mux.Repr()
      ensures mux.Valid() && mux.Repr() == old(mux.Repr())
      ensures mux.View() == FireDue(old(mux.View()), now, beh, 0).after
      ensures fired == FireDue(old(mux.View()), now, beh, 0).fired
    {
      fired := [];
      ghost var goal := FireDue(mux.View(), now, beh, 0);
      while timers != []
        invariant mux.Valid() && mux.timerMgr == this && mux.Repr() == old(mux.Repr())
        invariant Pending(goal, fired, mux.View(), now, beh)
        decreases |Due(timers, now)|
      {
        var p := timers[0];
        if Less(now, p.due) { break; }
        PendingStep(goal, fired, mux.View(), now, beh);
        FireFront(mux, beh(|fired|));
        fired := fired + [p];
      }
    }

    /** One iteration: pop the front timer and invoke its callback. */
    method FireFront(mux: Multiplexer, ops: seq<Op>)
      requires mux.Valid() && mux.timerMgr == this && timers != []
      modifies mux.Repr()
      ensures mux.Valid() && mux.Repr() == old(mux.Repr())
      ensures mux.View() == ApplyAll(old(mux.View()).(timers := old(timers)[1..]), ops).after
    {
      timers := timers[1..];
      mux.Callback(ops);
    }
  }

  class Multiplexer {
    var run: bool
    var dirty: bool
    var pollArrSize: nat
    var currentNum: nat
    var currentFds: array<PollFd>
    var pollingHdl: seq<PollingEntry>
    var currentHandlers: array<Option<Addr>>
    const timerMgr: TimerManager

    ghost predicate Valid()
      reads this, currentFds, currentHandlers
    {
      currentFds.Length == currentHandlers.Length == pollArrSize && currentNum <= pollArrSize
    }

    ghost function Repr(): set<object>
      reads this
    {
      {this, timerMgr, currentFds, currentHandlers}
    }

    ghost function Mux(): MuxState.Mux
      reads this, currentFds, currentHandlers
      requires Valid()
    {
      MuxState.Mux(run, dirty, pollArrSize, pollingHdl, currentFds[..currentNum], currentHandlers[..currentNum])
    }

    ghost function View(): Loop
      reads this, timerMgr, currentFds, currentHandlers
      requires Valid()
      ensures |View().mux.fds| == |View().mux.hdls| == currentNum
    {
      Loop(Mux(), timerMgr.timers)
    }

    constructor ()
      ensures Valid() && fresh(Repr())
      ensures View() == Loop(MuxState.Initial, [])
      ensures Ok(View())
    {
      run, dirty, pollArrSize, currentNum, pollingHdl := true, true, 0, 0, [];
      currentFds := new PollFd[0];
      currentHandlers := new Option<Addr>[0];
      timerMgr := new TimerManager();
      new;
    }

    method FindHandler(h: Addr) returns (i: nat)
      ensures i == MuxState.Find(pollingHdl, h)
    {
      i := 0;
      while i < |pollingHdl|
        invariant 0 <= i <= |pollingHdl|
        invariant forall j :: 0 <= j < i ==> pollingHdl[j].handler != h
      {
        if pollingHdl[i].handler == h { break; }
        i := i + 1;
      }
    }

    method RegisterFd(h: Addr, events: int) returns (ret: int)
      requires Valid()
      modifies this
      ensures Valid() && Repr() == old(Repr())
      ensures View() == old(View()).(mux := MuxState.Register(old(Mux()), h, events))
      ensures ret == if MuxState.Registered(old(pollingHdl), h) then -1 else 0
    {
      var i := FindHandler(h);
      ret := -1;
      if i == |pollingHdl| {
        pollingHdl := pollingHdl + [MuxState.PollingEntry(h, events)];
        dirty := true;
        ret := 0;
      }
    }

    method RemoveCurHandler(h: Addr)
      requires Valid()
      modifies currentFds, currentHandlers
      ensures Valid() && View() == old(View()).(mux := MuxState.ClearSlot(old(Mux()), h))
    {
      var i := 0;
      while i < currentNum
        invariant 0 <= i <= currentNum
        invariant forall j :: 0 <= j < i ==> currentHandlers[j] != Some(h)
        invariant View() == old(View())
      {
        if currentHandlers[i] == Some(h) {
          assert i == MuxState.FindSlot(Mux().hdls, h);
          currentHandlers[i] := None;
          currentFds[i] := currentFds[i].(revents := 0);
          return;
        }
        i := i + 1;
      }
      assert MuxState.FindSlot(Mux().hdls, h) == currentNum;
    }

    method UnregisterFd(h: Addr)
      requires Valid()
      modifies this, currentFds, currentHandlers
      ensures Valid() && Repr() == old(Repr())
      ensures View() == old(View()).(mux := MuxState.Unregister(old(Mux()), h))
    {
      var i := FindHandler(h);
      if i < |pollingHdl| {
        RemoveCurHandler(h);
        RemoveAt(i);
        dirty := true;
      }
    }

    /** remove_at: step an iterator to the index and erase there. */
    method RemoveAt(index: nat)
      requires index < |pollingHdl|
      modifies this`pollingHdl
      ensures pollingHdl == old(pollingHdl)[..index] + old(pollingHdl)[index + 1..]
    {
      var it, i := 0, 0;
      while i < index
        invariant i == it <= index
      {
        it := it + 1;
        i := i + 1;
      }
      pollingHdl := pollingHdl[..it] + pollingHdl[it + 1..];
    }

    method ShallQuit()
      requires Valid()
      modifies this`run
      ensures Valid() && Repr() == old(Repr())
      ensures View() == old(View()).(mux := old(Mux()).(run := false))
    {
      run := false;
    }

    /** A callback: the calls it makes back into the loop, one after the other. */
    method Callback(ops: seq<Op>)
      requires Valid()
      modifies Repr()
      ensures Valid() && Repr() == old(Repr())
      ensures View() == ApplyAll(old(View()), ops).after
    {
      var i := 0;
      ghost var was := View();
      while i < |ops|
        invariant 0 <= i <= |ops|
        invariant Valid() && Repr() == old(Repr())
        invariant ApplyAll(View(), ops[i..]).after == ApplyAll(was, ops).after
      {
        ghost var l := View();
        assert ops[i..][0] == ops[i] && ops[i..][1..] == ops[i + 1..];
        match ops[i] {
          case Reg(h, events) => var _ := RegisterFd(h, events);
          case Unreg(h) => UnregisterFd(h);
          case Quit => ShallQuit();
          case Create(clock, interval, cb, param, id) => var _ := timerMgr.CreateTimer(clock, interval, cb, param, id);
          case DelTimer(id) => timerMgr.DelTimer(id);
          case DelCallback(cb) => timerMgr.DelTimerByCallback(cb);
        }
        assert View() == Apply(l, ops[i]).after;
        i := i + 1;
      }
      assert ops[i..] == [];
    }

    method PreparePollingArray(fdOf: Addr -> int)
      requires Valid()
      modifies this, currentFds, currentHandlers
      ensures Valid() && fresh(Repr() - old(Repr()))
      ensures View() == old(View()).(mux := MuxState.Prepare(old(Mux()), fdOf).(dirty := old(dirty)))
    {
      if |pollingHdl| > pollArrSize {
        var stepTimes := (|pollingHdl| + MuxState.POLL_ARRAY_INC_STEP - 1) / MuxState.POLL_ARRAY_INC_STEP;
        var newSize := stepTimes * MuxState.POLL_ARRAY_INC_STEP;
        currentFds := new PollFd[newSize];
        currentHandlers := new Option<Addr>[newSize];
        pollArrSize := newSize;
        currentNum := 0;
      }
      FillPollingArray(fdOf);
    }

    /** The loop of prepare_polling_array that copies the registry into the arrays. */
    method FillPollingArray(fdOf: Addr -> int)
      requires Valid() && |pollingHdl| <= pollArrSize
      modifies this`currentNum, currentFds, currentHandlers
      ensures Valid()
      ensures View() == old(View()).(mux := MuxState.Prepare(old(Mux()), fdOf).(dirty := old(dirty)))
    {
      var i, j := 0, 0;
      while i < |pollingHdl|
        invariant 0 <= i <= |pollingHdl| && j == |MuxState.Active(pollingHdl[..i])| <= i
        invariant forall n :: 0 <= n < j ==>
          var e := MuxState.Active(pollingHdl[..i])[n];
          currentFds[n] == MuxState.PollFd(fdOf(e.handler), e.events, 0) && currentHandlers[n] == Some(e.handler)
      {
        assert pollingHdl[..i + 1][..i] == pollingHdl[..i];
        var e := pollingHdl[i];
        if e.events != 0 {
          currentFds[j] := MuxState.PollFd(fdOf(e.handler), e.events, 0);
          currentHandlers[j] := Some(e.handler);
          j := j + 1;
        }
        i := i + 1;
      }
      assert pollingHdl[..i] == pollingHdl;
      currentNum := j;
    }

    /** The kernel's half of poll(): it writes the returned events. */
    method Poll(err: int, revents: nat -> int)
      requires Valid()
      modifies currentFds
      ensures Valid() && View() == old(View()).(mux := MuxState.Polled(old(Mux()), err, revents))
    {
      if err < 0 { return; }
      for i := 0 to currentNum
        invariant forall n :: 0 <= n < i ==>
          currentFds[n] == old(currentFds[n]).(revents := if err == 0 then 0 else revents(n))
        invariant forall n :: i <= n < currentNum ==> currentFds[n] == old(currentFds[n])
      {
        currentFds[i] := currentFds[i].(revents := if err == 0 then 0 else revents(i));
      }
    }

    /** One call of process() on the handler of a slot. */
    method CallHandler(i: nat, ops: seq<Op>) returns (call: Call)
      requires Valid() && i < currentNum && currentHandlers[i].Some?
      modifies Repr()
      ensures Valid() && Repr() == old(Repr())
      ensures call == CallAt(old(View()), i)
      ensures View() == ApplyAll(old(View()), ops).after
    {
      call := Call(i, currentHandlers[i].value, currentFds[i].fd, pollingHdl);
      Callback(ops);
    }

    /** One iteration of run's `for` loop; `stop` says that the handler has quit the loop. */
    method ProcessSlot(ghost goal: PassResult, calls: seq<Call>, i: nat, beh: Behaviour)
        returns (calls': seq<Call>, stop: bool)
      requires Valid() && i < currentNum && PassPending(goal, calls, View(), i, beh)
      modifies Repr()
      ensures Valid() && Repr() == old(Repr()) && currentNum == old(currentNum)
      ensures if stop then PassResult(View(), calls') == goal else PassPending(goal, calls', View(), i + 1, beh)
    {
      calls', stop := calls, false;
      if currentFds[i].revents != 0 {
        PassPendingStep(goal, calls, View(), i, beh);
        var call := CallHandler(i, beh(|calls|));
        calls' := calls + [call];
        stop := !run;
      } else {
        PassPendingSkip(goal, calls, View(), i, beh);
      }
    }

    /** The `for` loop of run over the cached slots. `calls` records the calls of process(). */
    method ProcessEvents(beh: Behaviour) returns (calls: seq<Call>)
      requires Valid() && Ok(View())
      modifies Repr()
      ensures Valid() && Repr() == old(Repr())
      ensures PassResult(View(), calls) == Pass(old(View()), 0, beh, 0)
    {
      calls := [];
      ghost var goal := Pass(View(), 0, beh, 0);
      var i := 0;
      while i < currentNum
        invariant 0 <= i
        invariant Valid() && Repr() == old(Repr())
        invariant PassPending(goal, calls, View(), i, beh)
        invariant currentNum == old(currentNum)
        decreases currentNum - i
      {
        var stop;
        calls, stop := ProcessSlot(goal, calls, i, beh);
        if stop { return; }
        i := i + 1;
      }
    }

    method RunRound(env: Env) returns (log: Log)
      requires Valid() && Ok(View()) && EnvOk(env)
      modifies Repr()
      ensures Valid() && fresh(Repr() - old(Repr()))
      ensures (View(), log) == Round(old(View()), env)
    {
      if dirty {
        PreparePollingArray(env.fdOf);
        dirty := false;
      }
      assert View() == Prepared(old(View()), env);
      PreparedOk(old(View()), env);
      var ret, to := timerMgr.NextTime(env.nextClock);
      if ret < 0 { to := -1; }
      MuxState.PolledOk(Mux(), env.err, env.revents);
      Poll(env.err, env.revents);
      RunTimersOk(View(), env.runClock, env.timers);
      var fired := timerMgr.Run(this, env.runClock, env.timers);
      var calls := [];
      if env.err > 0 {
        calls := ProcessEvents(env.handlers);
      }
      log := Log(to, fired, calls);
    }

    /** One more iteration of run. */
    method NextRound(ghost goal: Outcome, log: seq<Log>, envs: seq<Env>) returns (log': seq<Log>)
      requires Valid() && Ok(View()) && run && envs != [] && RunPending(goal, log, View(), envs)
      modifies Repr()
      ensures Valid() && fresh(Repr() - old(Repr()))
      ensures RunPending(goal, log', View(), envs[1..])
    {
      RunPendingStep(goal, log, View(), envs);
      var g := RunRound(envs[0]);
      log' := log + [g];
    }

    /** run, for as many rounds as the environment lasts. */
    method RunLoop(envs: seq<Env>) returns (log: seq<Log>)
      requires Valid() && Ok(View()) && forall env :: env in envs ==> EnvOk(env)
      modifies Repr()
      ensures Valid() && fresh(Repr() - old(Repr()))
      ensures Outcome(View(), log) == Run(old(View()), envs)
    {
      log := [];
      var rest := envs;
      ghost var goal := Run(View(), envs);
      RunPendingStart(View(), envs);
      while run && rest != []
        invariant Valid() && fresh(Repr() - old(Repr()))
        invariant RunPending(goal, log, View(), rest)
        decreases |rest|
      {
        log := NextRound(goal, log, rest);
        rest := rest[1..];
      }
      RunPendingStep(goal, log, View(), rest);
    }
  }
}
