/** The daemon as a state machine of two threads: the loop thread (daemon_thread_func, Multiplexer::run
    and every callback) and one client thread (the HIDL calls into ConnectControl), which meet at a
    pair of first-in first-out channels. One callback, one test of a loop condition, or one message
    is one atomic step. */
module Daemon {
  import opened Common
  import opened Timespecs
  import opened TimerList
  import opened LoopState
  import opened Retry
  import W = World
  import LC = LifeCycle
  import LR = LoopRun
  import MuxState

  datatype Reply = UnregisterResult | QuitResult

  /** Where the loop thread is: at `while (run_)` of the daemon thread or of run(), inside poll() with
      the timeout it was given and the due time that this was computed from, in the timer loop with the
      sampled time and poll()'s result, at a slot of the dispatch loop, or past the end of the thread
      function. */
  datatype LoopPc =
    | Outer
    | Top
    | Polling(timeout: int, until: Option<Timespec>)
    | Firing(now: Timespec, err: int)
    | Dispatch(i: nat)
    | Exited

  /** Where the client thread is: between calls, in unregister_request, back from it and about to
      delete the handler, in quit_request, in pthread_join, or past it. `quiet` tells whether the
      handler had no reconnect timer when the loop thread processed the request. */
  datatype ClientPc =
    | Idle
    | WaitUnregister(h: Option<Addr>, t: Target)
    | Deleting(h: Option<Addr>, t: Target, quiet: bool)
    | WaitQuit
    | Joining
    | Joined

  /** `quiet` is what the pending UNREGISTER reply will tell, see ClientPc. */
  datatype Sys = Sys(world: W.World, ctl: Ctl, req: seq<Request>, resp: seq<Reply>,
                     pc: LoopPc, daemonRun: bool, client: ClientPc, quiet: bool)

  /** What one call of process() gets from outside. */
  datatype Io = Io(read: W.Read, at: W.Attempt, sock: int, addr: Addr)

  datatype Action =
    | CheckRun(clock: Option<Timespec>)
    | PollReturns(err: int, revents: nat -> int, now: Option<Timespec>)
    | FireTimer(at: W.Attempt, conn: int -> Conn)
    | VisitSlot(io: Io)
    | ClientConnect(src: int, name: string, c: Conn)
    | ClientClose(t: Target, written: bool)
    | ClientRead
    | ClientDelete
    | ClientQuit(written: bool)
    | ClientJoin

  // ---- connecting ----

  function DeskOf(s: Sys): Desk {
    Desk(s.world.loop, s.ctl, s.req)
  }

  /** process_socket_connect on the whole system. */
  function ConnectStep(s: Sys, src: int, name: string, c: Conn): Sys {
    var r := Connect(DeskOf(s), src, name, c);
    var heap := if r.created.Some? then s.world.heap[c.addr := r.created.value] else s.world.heap;
    var open := if Succeeds(c) then s.world.open + {c.at.outcome.fd} else s.world.open;
    s.(world := W.World(r.desk.loop, heap, open), ctl := r.desk.ctl, req := r.desk.req)
  }

  /** The first loop of socket_reconnect on the whole system. */
  ghost function ConnectAll(s: Sys, keys: seq<int>, conn: int -> Conn): (r: Sys)
    requires forall k :: k in keys ==> k in s.ctl.sockets
    ensures r.ctl.sockets == s.ctl.sockets
    decreases keys
  {
    if keys == [] then s
    else ConnectAll(ConnectStep(s, keys[0], s.ctl.sockets[keys[0]], conn(keys[0])), keys[1..], conn)
  }

  /** socket_reconnect on the whole system. */
  ghost function ReconnectStep(s: Sys, conn: int -> Conn): Sys {
    var keys := SortedKeys(s.ctl.sockets.Keys);
    var s1 := ConnectAll(s, keys, conn);
    var connected := RetryKeys(DeskOf(s), keys, conn).1;
    s1.(ctl := s1.ctl.(sockets := s1.ctl.sockets - (set k | k in connected)))
  }

  // ---- the loop thread ----

  function Prepared(s: Sys): Sys {
    var l := s.world.loop;
    if l.mux.dirty then s.(world := s.world.(loop := l.(mux := MuxState.Prepare(l.mux, W.FdOf(s.world))))) else s
  }

  /** Going into poll(): next_time gives the timeout, for ever without timers or clock. */
  function EnterPoll(ts: seq<Timer>, clock: Option<Timespec>): LoopPc {
    Polling(LR.Timeout(ts, clock), if ts == [] || clock.None? then None else Some(ts[0].due))
  }

  /** SchedAndServiceManager::process on the request it has read. */
  function Serve(s: Sys, r: Request): Sys
    requires |s.world.loop.mux.fds| == |s.world.loop.mux.hdls|
  {
    var l := s.world.loop;
    match r
    case ReqRegister(Some(h)) => s.(world := s.world.(loop := W.Register(l, h)))
    case ReqQuit =>
      s.(world := s.world.(loop := l.(mux := l.mux.(run := false))), resp := s.resp + [QuitResult])
    case ReqUnregister(Some(h)) =>
      s.(world := s.world.(loop := W.Unregister(l, h)), resp := s.resp + [UnregisterResult],
         quiet := h in s.world.heap && s.world.heap[h].timer.None?)
    case _ => s
  }

  /** process() of the handler at `h`. */
  function Process(s: Sys, h: Addr, io: Io): Sys
    requires |s.world.loop.mux.fds| == |s.world.loop.mux.hdls| && h in s.world.heap
  {
    var w := s.world;
    var self := w.heap[h];
    var closed := io.read.Eof? || io.read.Failed?;
    match self.kind
    case CpState => if closed then s.(world := LC.Lift(w, h, W.StateClose(w.loop, h, self, io.at))) else s
    case CpTime => if closed then s.(world := LC.Lift(w, h, W.TimeClose(w.loop, h, self))) else s
    case Client => if closed then s.(world := W.Delete(w, h)) else s
    case ClientMgr =>
      if io.sock < 0 then s
      else
        var w1 := W.New(w, io.addr, W.Handler(W.Client, io.sock, false, None));
        s.(world := w1.(loop := W.Register(w1.loop, io.addr)))
    case Sched =>
      if io.read.Data? && s.req != [] then Serve(s.(req := s.req[1..]), s.req[0]) else s
  }

  /** The slot the dispatch loop is at is ready. */
  predicate AtReady(s: Sys) {
    var m := s.world.loop.mux;
    && s.pc.Dispatch?
    && |m.fds| == |m.hdls|
    && s.pc.i < |m.fds|
    && m.fds[s.pc.i].revents != 0
  }

  /** The handler about to be dispatched is a live object; false means that the code would call
      process() through a null or a dangling pointer. */
  predicate TargetLive(s: Sys)
    requires AtReady(s)
  {
    var p := s.world.loop.mux.hdls[s.pc.i];
    p.Some? && p.value in s.world.heap
  }

  predicate TimerDue(s: Sys) {
    s.pc.Firing? && s.world.loop.timers != [] && !Less(s.pc.now, s.world.loop.timers[0].due)
  }

  /** The callback of the front timer, which has been popped. */
  ghost function Fire(s: Sys, at: W.Attempt, conn: int -> Conn): Sys
    requires s.world.loop.timers != []
  {
    var t := s.world.loop.timers[0];
    var w := LC.Popped(s.world);
    match t.cb
    case ConnectServer =>
      if t.param in w.heap
      then s.(world := LC.Lift(w, t.param, W.ConnectServerCb(w.loop, t.param, w.heap[t.param], at)))
      else s.(world := w)
    case SocketReconnect => ReconnectStep(s.(world := w), conn)
    case Other(_) => s.(world := w)
  }

  // ---- the transitions ----

  ghost predicate ConnOk(s: Sys, c: Conn) {
    LC.AttemptOk(s.world.open, s.world.loop.timers, c.at) && c.addr !in s.world.heap
  }

  function FdsOf(o: W.Outcome): set<int> {
    match o
    case Refused => {}
    case Blocking(fd) => {fd}
    case Connected(fd) => {fd}
  }

  ghost predicate ConnsApart(c: Conn, d: Conn) {
    c.at.tid != d.at.tid && c.addr != d.addr && FdsOf(c.at.outcome) !! FdsOf(d.at.outcome)
  }

  /** What the kernel and the allocator hand out during a pass over these keys is new each time. */
  ghost predicate ConnsOk(s: Sys, keys: seq<int>, conn: int -> Conn) {
    && (forall i :: 0 <= i < |keys| ==> ConnOk(s, conn(keys[i])))
    && (forall i, j :: 0 <= i < j < |keys| ==> ConnsApart(conn(keys[i]), conn(keys[j])))
  }

  /** When an action is possible. Descriptors and addresses handed out are not in use. */
  ghost predicate Enabled(s: Sys, a: Action) {
    match a
    case CheckRun(clock) => s.pc.Outer? || s.pc.Top?
    case PollReturns(err, revents, now) => s.pc.Polling?
    case FireTimer(at, conn) =>
      && s.pc.Firing?
      && (TimerDue(s) ==>
            && LC.AttemptOk(s.world.open, s.world.loop.timers[1..], at)
            && ConnsOk(s.(world := LC.Popped(s.world)), SortedKeys(s.ctl.sockets.Keys), conn))
    case VisitSlot(io) =>
      && s.pc.Dispatch?
      && (AtReady(s) ==>
            && TargetLive(s)
            && var self := s.world.heap[s.world.loop.mux.hdls[s.pc.i].value];
            && LC.AttemptOk(s.world.open - W.FdSet(self.fd), s.world.loop.timers, io.at)
            && io.addr !in s.world.heap && (io.sock < 0 || io.sock !in s.world.open))
    case ClientConnect(src, name, c) => s.client.Idle? && ConnOk(s, c)
    case ClientClose(t, written) => s.client.Idle? && !t.Unknown?
    case ClientRead => (s.client.WaitUnregister? || s.client.WaitQuit?) && s.resp != []
    case ClientDelete => s.client.Deleting?
    case ClientQuit(written) => s.client.Idle? || s.client.Joined?
    case ClientJoin => s.client.Joining? && s.pc.Exited?
  }

  /** The object socketClose deletes: the member is read again after the request has returned. */
  function Victim(s: Sys): Option<Addr>
    requires s.client.Deleting?
  {
    Pointer(s.ctl, s.client.t)
  }

  ghost function Step(s: Sys, a: Action): Sys
    requires |s.world.loop.mux.fds| == |s.world.loop.mux.hdls| && Enabled(s, a)
  {
    match a
    case CheckRun(clock) =>
      if s.pc.Outer? then s.(pc := if s.daemonRun then Top else Exited)
      else if !s.world.loop.mux.run then s.(pc := Outer)
      else Prepared(s).(pc := EnterPoll(s.world.loop.timers, clock))
    case PollReturns(err, revents, now) =>
      var l := s.world.loop;
      var s1 := s.(world := s.world.(loop := l.(mux := MuxState.Polled(l.mux, err, revents))));
      if l.timers != [] && now.Some? then s1.(pc := Firing(now.value, err))
      else s1.(pc := if err > 0 then Dispatch(0) else Top)
    case FireTimer(at, conn) =>
      if TimerDue(s) then Fire(s, at, conn)
      else s.(pc := if s.pc.err > 0 then Dispatch(0) else Top)
    case VisitSlot(io) =>
      if AtReady(s) then
        var s1 := Process(s, s.world.loop.mux.hdls[s.pc.i].value, io);
        s1.(pc := if s1.world.loop.mux.run then Dispatch(s.pc.i + 1) else Top)
      else if s.pc.i < |s.world.loop.mux.fds| then s.(pc := Dispatch(s.pc.i + 1))
      else s.(pc := Top)
    case ClientConnect(src, name, c) => ConnectStep(s, src, name, c)
    case ClientClose(t, written) =>
      var h := Pointer(s.ctl, t);
      if written then s.(req := s.req + [ReqUnregister(h)], client := WaitUnregister(h, t))
      else s.(client := Deleting(h, t, false))
    case ClientRead =>
      var s1 := s.(resp := s.resp[1..]);
      if s.client.WaitUnregister? && s.resp[0].UnregisterResult? then
        s1.(client := Deleting(s.client.h, s.client.t, s.quiet))
      else if s.client.WaitQuit? && s.resp[0].QuitResult? then s1.(client := Joining, daemonRun := false)
      else s1
    case ClientDelete =>
      var s1 := s.(ctl := SetPointer(s.ctl, s.client.t, None), client := Idle);
      var p := Victim(s);
      if p.Some? && p.value in s.world.heap then s1.(world := W.Delete(s.world, p.value)) else s1
    case ClientQuit(written) =>
      if written then s.(req := s.req + [ReqQuit], client := WaitQuit) else s.(client := Joining)
    case ClientJoin => s.(client := Joined)
  }
}
