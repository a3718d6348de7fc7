/** daemon_thread.cpp, sched_and_service_mgr.cpp and ConnectControl.cpp as objects, tied to the functions
    of Daemon and Retry. */
module Services {
  import opened Common
  import opened Timespecs
  import opened TimerList
  import opened LoopState
  import opened EventLoop
  import opened FdHandlers
  import opened Retry
  import D = Daemon
  import Runs = DaemonRuns
  import W = World

  /** The socket pair: requests to the loop thread and replies from it, in order. */
  class Channel {
    var req: seq<Request>
    var resp: seq<D.Reply>

    constructor ()
      ensures req == [] && resp == []
    {
      req, resp := [], [];
    }
  }

  // ---- the loop thread's end ----

  class SchedAndServiceManager {
    const mux: Multiplexer
    const channel: Channel

    constructor (mux: Multiplexer, channel: Channel)
      ensures this.mux == mux && this.channel == channel
    {
      this.mux, this.channel := mux, channel;
    }

    /** The loop and the channel are those of the system state. */
    ghost predicate Shows(s: D.Sys)
      reads mux, mux.timerMgr, mux.currentFds, mux.currentHandlers, channel
    {
      mux.Valid() && s.world.loop == mux.View() && s.req == channel.req && s.resp == channel.resp
    }

    /** process: it takes one request and acts on it; `s`, `h` and `io` are the system state, this
        handler's address in it and what is read. */
    method Process(read: W.Read, ghost s: D.Sys, ghost h: Addr, ghost io: D.Io)
      requires Shows(s) && channel !in mux.Repr()
      requires h in s.world.heap && s.world.heap[h].kind == W.Sched && io.read == read
      modifies mux.Repr(), channel
      ensures Shows(D.Process(s, h, io)) && mux.Repr() == old(mux.Repr())
    {
      if !read.Data? || channel.req == [] { return; }
      var r := channel.req[0];
      channel.req := channel.req[1..];
      if r.ReqRegister? && r.h.Some? {
        var _ := mux.RegisterFd(r.h.value, W.POLLIN);
      } else if r.ReqQuit? {
        mux.ShallQuit();
        channel.resp := channel.resp + [D.QuitResult];
      } else if r.ReqUnregister? && r.h.Some? {
        mux.UnregisterFd(r.h.value);
        channel.resp := channel.resp + [D.UnregisterResult];
      }
    }
  }

  // ---- the client's end ----

  /** The position of the first reply of a kind, or the number of replies. */
  function FirstReply(resp: seq<D.Reply>, want: D.Reply): (i: nat)
    ensures i <= |resp|
    ensures i < |resp| ==> resp[i] == want
    ensures forall j :: 0 <= j < i ==> resp[j] != want
  {
    if resp == [] || resp[0] == want then 0 else 1 + FirstReply(resp[1..], want)
  }

  class DaemonThread {
    var run: bool
    const channel: Channel

    constructor (channel: Channel)
      ensures run && this.channel == channel
    {
      run, this.channel := true, channel;
    }

    /** register_request: nothing is awaited. `written` says whether the channel took the request. */
    method RegisterRequest(h: Option<Addr>, written: bool) returns (ret: int)
      modifies channel
      ensures channel.resp == old(channel.resp)
      ensures ret == (if written then 0 else -1)
      ensures channel.req == old(channel.req) + if written then [ReqRegister(h)] else []
    {
      if !written { return -1; }
      channel.req := channel.req + [ReqRegister(h)];
      return 0;
    }

    /** The first half of unregister_request. */
    method WriteUnregister(h: Option<Addr>, written: bool) returns (waiting: bool)
      modifies channel
      ensures channel.resp == old(channel.resp) && waiting == written
      ensures channel.req == old(channel.req) + if written then [ReqUnregister(h)] else []
    {
      if !written { return false; }
      channel.req := channel.req + [ReqUnregister(h)];
      return true;
    }

    /** The wait loop of both requests on the replies that have arrived: other replies are dropped. */
    method Await(want: D.Reply) returns (got: bool)
      modifies channel
      ensures channel.req == old(channel.req)
      ensures got <==> want in old(channel.resp)
      ensures channel.resp == if got then old(channel.resp)[FirstReply(old(channel.resp), want) + 1..] else []
    {
      ghost var all := channel.resp;
      ghost var n := 0;
      while channel.resp != []
        invariant 0 <= n <= |all| && channel.resp == all[n..] && channel.req == old(channel.req)
        invariant forall j :: 0 <= j < n ==> all[j] != want
        decreases |channel.resp|
      {
        var msg := channel.resp[0];
        channel.resp := channel.resp[1..];
        if msg == want {
          assert FirstReply(all, want) == n;
          return true;
        }
        n := n + 1;
      }
      return false;
    }

    /** The first half of quit_request. */
    method WriteQuit(written: bool) returns (waiting: bool)
      modifies channel
      ensures channel.resp == old(channel.resp) && waiting == written
      ensures channel.req == old(channel.req) + if written then [ReqQuit] else []
    {
      if !written { return false; }
      channel.req := channel.req + [ReqQuit];
      return true;
    }

    /** The second half of quit_request. */
    method AwaitQuit() returns (got: bool)
      modifies this, channel
      ensures channel.req == old(channel.req)
      ensures got <==> D.QuitResult in old(channel.resp)
      ensures run == (old(run) && !got)
      ensures channel.resp == if got then old(channel.resp)[FirstReply(old(channel.resp), D.QuitResult) + 1..] else []
    {
      got := Await(D.QuitResult);
      if got {
        run := false;
      }
    }
  }

  // ---- the client's state ----

  /** The socket name holds one of the names that a handler is made for. */
  predicate NamesTarget(name: string) {
    Contains(name, "cp_time_sync_server") || Contains(name, "modemd") || Contains(name, "wcnd")
  }

  class ConnectControl {
    const mux: Multiplexer
    const daemonThread: DaemonThread
    var sockets: map<int, string>
    var modem: Option<Addr>
    var wcn: Option<Addr>
    var time: Option<Addr>
    var timer: Option<TimerId>

    ghost predicate Valid()
      reads this, daemonThread, mux, mux.currentFds, mux.currentHandlers
    {
      mux.Valid() && {this, daemonThread, daemonThread.channel} !! mux.Repr()
    }

    ghost function Frame(): set<object>
      reads this, daemonThread, mux
    {
      {this, daemonThread.channel} + mux.Repr()
    }

    ghost function View(): Desk
      reads this, Frame(), daemonThread, mux, mux.currentFds, mux.currentHandlers
      requires Valid()
    {
      Desk(mux.View(), Ctl(sockets, modem, wcn, time, timer), daemonThread.channel.req)
    }

    constructor (mux: Multiplexer, daemonThread: DaemonThread)
      requires mux.Valid() && {daemonThread, daemonThread.channel} !! mux.Repr()
      ensures Valid() && this.mux == mux && this.daemonThread == daemonThread
      ensures View() == Desk(mux.View(), Ctl(map[], None, None, None, None), daemonThread.channel.req)
    {
      this.mux, this.daemonThread := mux, daemonThread;
      sockets, modem, wcn, time, timer := map[], None, None, None, None;
    }

    /** strstr. */
    method StrStr(s: string, sub: string) returns (found: bool)
      ensures found == Contains(s, sub)
    {
      var i := 0;
      while i <= |s|
        invariant 0 <= i <= |s| + 1
        invariant forall j: nat :: j < i ==> !OccursAt(s, sub, j)
      {
        if i + |sub| <= |s| && s[i..i + |sub|] == sub {
          assert OccursAt(s, sub, i);
          return true;
        }
        i := i + 1;
      }
      return false;
    }

    /** The failing branches of process_socket_connect. */
    method RetryLater(src: int, name: string, clock: Option<Timespec>, tid: TimerId)
      requires Valid()
      modifies Frame()
      ensures Valid() && Frame() == old(Frame())
      ensures daemonThread.channel.req == old(daemonThread.channel.req)
      ensures var d := old(View());
              View() == Desk(if clock.Some?
                             then d.loop.(timers := Insert(d.loop.timers, RetryTimer(clock.value, tid)))
                             else d.loop,
                             d.ctl.(sockets := d.ctl.sockets[src := name],
                                    timer := if clock.Some? then Some(tid) else None),
                             d.req)
    {
      sockets := sockets[src := name];
      timer := mux.timerMgr.CreateTimer(clock, RETRY_MS, Callback.SocketReconnect, 0, tid);
    }

    method SetMember(t: Target, p: Option<Addr>)
      requires Valid()
      modifies this
      ensures Valid() && View() == old(View()).(ctl := SetPointer(old(View().ctl), t, p))
    {
      match t
      case Time => time := p;
      case Modem => modem := p;
      case Wcn => wcn := p;
      case Unknown =>
    }

    method TargetOf(name: string) returns (t: Target)
      ensures t == Classify(name)
    {
      var found := StrStr(name, "cp_time_sync_server");
      if found { return Time; }
      found := StrStr(name, "modemd");
      if found { return Modem; }
      found := StrStr(name, "wcnd");
      if found { return Wcn; }
      return Unknown;
    }

    /** process_socket_connect. The result is the new descriptor, or -1. */
    method ProcessSocketConnect(src: int, name: string, c: Conn) returns (ret: int, h: FdHandler?)
      requires Valid()
      modifies Frame()
      ensures Valid() && Frame() == old(Frame())
      ensures View() == Connect(old(View()), src, name, c).desk && ret == Connect(old(View()), src, name, c).ret
      ensures match Connect(old(View()), src, name, c).created
              case None => h == null
              case Some(self) => h != null && fresh(h) && h.addr == c.addr && h.Self() == self
      ensures ret == if c.at.outcome.Connected? then c.at.outcome.fd else -1
      ensures h != null <==> c.at.outcome.Connected? && NamesTarget(name)
      ensures h != null ==>
                h.Self() == W.Handler(if Contains(name, "cp_time_sync_server") then W.CpTime else W.CpState,
                                      c.at.outcome.fd, true, None)
    {
      h := null;
      match c.at.outcome
      case Refused =>
        RetryLater(src, name, c.at.clock, c.at.tid);
        return -1, null;
      case Blocking(_) =>
        RetryLater(src, name, c.at.clock, c.at.tid);
        return -1, null;
      case Connected(fd) =>
        var t := TargetOf(name);
        if !t.Unknown? {
          h := new FdHandler(c.addr, if t.Time? then W.CpTime else W.CpState, fd, true, mux);
          SetMember(t, Some(c.addr));
          var _ := daemonThread.RegisterRequest(Some(c.addr), c.written);
        }
        return fd, h;
    }

    static method Smallest(s: set<int>) returns (k: int)
      requires s != {}
      ensures k in s && forall j :: j in s ==> k <= j
    {
      MinExists(s);
      k :| k in s && forall j :: j in s ==> k <= j;
    }

    /** The order in which a std::map with these keys is iterated. */
    static method KeysInOrder(s: set<int>) returns (keys: seq<int>)
      ensures keys == SortedKeys(s)
    {
      keys := [];
      var rest := s;
      while rest != {}
        invariant Increasing(keys) && rest <= s
        invariant forall k :: k in keys <==> k in s && k !in rest
        invariant forall k, j :: k in keys && j in rest ==> k < j
        decreases |rest|
      {
        var k := Smallest(rest);
        IncreasingSnoc(keys, k);
        keys := keys + [k];
        rest := rest - {k};
      }
      IncreasingUnique(keys, SortedKeys(s));
    }

    /** One iteration of socket_reconnect's first loop. */
    method RetryKey(ghost goal: (Desk, seq<int>), ids: seq<int>, keys: seq<int>, conn: int -> Conn)
        returns (ids': seq<int>)
      requires Valid() && keys != [] && Retrying(goal, View(), ids, keys, conn)
      modifies Frame()
      ensures Valid() && Frame() == old(Frame())
      ensures Retrying(goal, View(), ids', keys[1..], conn)
    {
      var k := keys[0];
      var ret, _ := ProcessSocketConnect(k, sockets[k], conn(k));
      ids' := if ret != -1 then ids + [k] else ids;
    }

    /** The first loop, over the entries with the given keys. */
    method TryAll(keys: seq<int>, conn: int -> Conn) returns (ids: seq<int>)
      requires Valid() && forall k :: k in keys ==> k in sockets
      modifies Frame()
      ensures Valid() && Frame() == old(Frame())
      ensures (View(), ids) == RetryKeys(old(View()), keys, conn)
    {
      ids := [];
      ghost var goal := RetryKeys(View(), keys, conn);
      for i := 0 to |keys|
        invariant Valid() && Frame() == old(Frame())
        invariant Retrying(goal, View(), ids, keys[i..], conn)
      {
        assert keys[i..][1..] == keys[i + 1..];
        ids := RetryKey(goal, ids, keys[i..], conn);
      }
      RetriedAll(goal, View(), ids, keys[|keys|..], conn);
    }

    /** socket_reconnect: every entry is tried, then those that connected are erased. */
    method SocketReconnect(conn: int -> Conn)
      requires Valid()
      modifies Frame()
      ensures Valid() && Frame() == old(Frame())
      ensures View() == Reconnect(old(View()), conn)
    {
      var keys := KeysInOrder(sockets.Keys);
      var ids := TryAll(keys, conn);
      EraseAll(ids);
    }

    /** The second loop. */
    method EraseAll(ids: seq<int>)
      requires Valid()
      modifies this
      ensures Valid()
      ensures View() == old(View()).(ctl := old(View().ctl).(sockets := old(sockets) - (set k | k in ids)))
    {
      for i := 0 to |ids|
        invariant Valid()
        invariant View() == old(View()).(ctl := old(View().ctl).(sockets := sockets))
        invariant sockets == old(sockets) - (set k | k in ids[..i])
      {
        if ids[i] in sockets { sockets := sockets - {ids[i]}; }
      }
      assert ids[..|ids|] == ids;
    }
  }

  /** What remains of socket_reconnect's first loop when the keys in `rest` have not been tried. */
  ghost predicate Retrying(goal: (Desk, seq<int>), d: Desk, ids: seq<int>, rest: seq<int>, conn: int -> Conn) {
    && (forall k :: k in rest ==> k in d.ctl.sockets)
    && var r := RetryKeys(d, rest, conn);
    && goal.0 == r.0 && goal.1 == ids + r.1
  }

  lemma RetriedAll(goal: (Desk, seq<int>), d: Desk, ids: seq<int>, rest: seq<int>, conn: int -> Conn)
    requires Retrying(goal, d, ids, rest, conn) && rest == []
    ensures goal == (d, ids)
  {
    assert ids + [] == ids;
  }

  function Reads(n: nat): (acts: seq<D.Action>)
    ensures |acts| == n
  {
    if n == 0 then [] else [D.ClientRead] + Reads(n - 1)
  }

  /** The wait loop of unregister_request is as many steps of the client thread as it reads replies. */
  lemma {:induction false} AwaitIsReads(s: D.Sys, i: nat)
    requires s.client.WaitUnregister? && i == FirstReply(s.resp, D.UnregisterResult) < |s.resp|
    requires |s.world.loop.mux.fds| == |s.world.loop.mux.hdls|
    ensures Runs.Valid(s, Reads(i + 1))
    ensures Runs.Exec(s, Reads(i + 1))
            == s.(resp := s.resp[i + 1..], client := D.Deleting(s.client.h, s.client.t, s.quiet))
    decreases i
  {
    var acts := Reads(i + 1);
    var s1 := D.Step(s, D.ClientRead);
    assert acts[0] == D.ClientRead && acts[1..] == Reads(i);
    if i > 0 {
      AwaitIsReads(s1, i - 1);
      assert s1.resp[i..] == s.resp[i + 1..];
    } else {
      assert Runs.Valid(s1, []) && Runs.Exec(s1, []) == s1;
    }
  }
}
