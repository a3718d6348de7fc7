/** fd_hdl.cpp, cp_state_hdl.cpp, cp_time_hdl.cpp and client_hdl.cpp as objects that update
    themselves and the multiplexer they belong to, tied to the functions of World. */
module FdHandlers {
  import opened Common
  import opened TimerList
  import opened LoopState
  import opened EventLoop
  import W = World
  import LC = LifeCycle
  import MuxState

  /** FdHandler and its subclasses; `kind` tells them apart, `addr` is the object's address. */
  class FdHandler {
    const addr: Addr
    const kind: W.Kind
    const dest: bool
    const mux: Multiplexer
    var fd: int
    var timer: Option<TimerId>

    ghost function Self(): W.Handler
      reads this
    {
      W.Handler(kind, fd, dest, timer)
    }

    constructor (addr: Addr, kind: W.Kind, fd: int, dest: bool, mux: Multiplexer)
      ensures this.addr == addr && this.mux == mux
      ensures Self() == W.Handler(kind, fd, dest, None)
    {
      this.addr, this.kind, this.fd, this.dest, this.mux := addr, kind, fd, dest, mux;
      timer := None;
    }

    /** FdHandler::close; `err` is what the kernel's close() returns, `closed` the descriptor handed
        back to it, if any. */
    method Close(err: int) returns (ret: int, closed: Option<int>)
      modifies this`fd
      ensures Self() == W.Closed(old(Self()))
      ensures ret == if old(fd) >= 0 then err else 0
      ensures closed == if old(fd) >= 0 then Some(old(fd)) else None
    {
      ret, closed := 0, None;
      if fd >= 0 {
        ret, closed := err, Some(fd);
        fd := -1;
      }
    }

    /** CpStateHandler::process_reconn. */
    method ProcessReconn(at: W.Attempt)
      requires mux.Valid() && this !in mux.Repr()
      modifies this, mux.Repr()
      ensures mux.Valid() && mux.Repr() == old(mux.Repr())
      ensures (mux.View(), Self()) == W.Reconnect(old(mux.View()), addr, old(Self()), at)
      ensures dest && at.outcome.Connected? ==>
                && fd == at.outcome.fd && timer == old(timer) && mux.timerMgr.timers == old(mux.timerMgr.timers)
                && MuxState.Registered(mux.pollingHdl, addr)
      ensures dest && !at.outcome.Connected? ==> fd == -1 && mux.pollingHdl == old(mux.pollingHdl)
      ensures dest && at.outcome.Refused? ==>
                if at.clock.Some?
                then && timer == Some(at.tid)
                     && LC.OneMore(old(mux.timerMgr.timers), mux.timerMgr.timers, at.tid, ConnectServer, addr,
                                   at.clock.value, 500)
                else timer == None && mux.timerMgr.timers == old(mux.timerMgr.timers)
    {
      MuxState.RegisterMembers(mux.Mux(), addr, W.POLLIN);
      if at.clock.Some? {
        LC.OneMoreTimer(mux.timerMgr.timers, at.clock.value, 500, ConnectServer, addr, at.tid);
      }
      if !dest { return; }
      match at.outcome
      case Refused =>
        fd := -1;
        timer := mux.timerMgr.CreateTimer(at.clock, W.RECONNECT_MS, ConnectServer, addr, at.tid);
      case Blocking(sock) =>
        fd := sock;
        var _, _ := Close(0);
      case Connected(sock) =>
        fd := sock;
        var _ := mux.RegisterFd(addr, W.POLLIN);
    }

    /** CpStateHandler::connect_server, invoked by the timer manager. */
    method ConnectServerCallback(at: W.Attempt)
      requires mux.Valid() && this !in mux.Repr()
      modifies this, mux.Repr()
      ensures mux.Valid() && mux.Repr() == old(mux.Repr())
      ensures (mux.View(), Self()) == W.ConnectServerCb(old(mux.View()), addr, old(Self()), at)
    {
      timer := None;
      ProcessReconn(at);
    }

    /** CpStateHandler::process_close. */
    method StateProcessClose(at: W.Attempt)
      requires mux.Valid() && this !in mux.Repr()
      modifies this, mux.Repr()
      ensures mux.Valid() && mux.Repr() == old(mux.Repr())
      ensures (mux.View(), Self()) == W.StateClose(old(mux.View()), addr, old(Self()), at)
    {
      mux.UnregisterFd(addr);
      var _, _ := Close(0);
      ProcessReconn(at);
    }

    /** CpStateHandler::process: data go to the HIDL callback, which is not part of this model. */
    method StateProcess(read: W.Read, at: W.Attempt)
      requires mux.Valid() && this !in mux.Repr()
      modifies this, mux.Repr()
      ensures mux.Valid() && mux.Repr() == old(mux.Repr())
      ensures (mux.View(), Self()) ==
                if read.Eof? || read.Failed? then W.StateClose(old(mux.View()), addr, old(Self()), at)
                else old((mux.View(), Self()))
    {
      match read
      case Data =>
      case Eof => StateProcessClose(at);
      case Again =>
      case Failed => StateProcessClose(at);
    }

    /** CpTimeHandler::process and process_close. `closed` is the descriptor handed back to the kernel, if
        any. */
    method TimeProcess(read: W.Read) returns (closed: Option<int>)
      requires mux.Valid() && this !in mux.Repr()
      modifies this, mux.Repr()
      ensures mux.Valid() && mux.Repr() == old(mux.Repr())
      ensures (read.Eof? || read.Failed?) && old(fd) >= 0 ==>
                && closed == Some(old(fd)) && fd == -1 && mux.timerMgr.timers == old(mux.timerMgr.timers)
                && (MuxState.Ok(old(mux.Mux())) ==>
                      !MuxState.Registered(mux.pollingHdl, addr) && Some(addr) !in mux.Mux().hdls)
      ensures !(read.Eof? || read.Failed?) ==> closed == None
      ensures (mux.View(), Self()) ==
                if read.Eof? || read.Failed? then W.TimeClose(old(mux.View()), addr, old(Self()))
                else old((mux.View(), Self()))
    {
      closed := None;
      if read.Eof? || read.Failed? {
        if MuxState.Ok(mux.Mux()) {
          MuxState.UnregisterMembers(mux.Mux(), addr);
          MuxState.UnregisterOk(mux.Mux(), addr);
        }
        mux.UnregisterFd(addr);
        var _, handedBack := Close(0);
        closed := handedBack;
      }
    }

    /** The destructors of CpStateHandler and FdHandler, in this order. `closed` is the descriptor
        handed back to the kernel, if any. */
    method Destroy() returns (closed: Option<int>)
      requires mux.Valid() && this !in mux.Repr()
      modifies this, mux.Repr()
      ensures mux.Valid() && mux.Repr() == old(mux.Repr())
      ensures mux.View() == W.Destruct(old(mux.View()), addr, old(Self()))
      ensures closed == if old(fd) >= 0 then Some(old(fd)) else None
    {
      if timer.Some? {
        mux.timerMgr.DelTimer(timer.value);
        timer := None;
      }
      closed := None;
      if fd >= 0 {
        mux.UnregisterFd(addr);
        closed := Some(fd);
      }
    }

    /** DataProcessHandler::process of a ClientHandler: at end of file or on an error the handler
        deletes itself. `deleted` says whether it did. */
    method ClientProcess(read: W.Read) returns (deleted: bool)
      requires mux.Valid() && this !in mux.Repr()
      modifies this, mux.Repr()
      ensures mux.Valid() && mux.Repr() == old(mux.Repr())
      ensures deleted == (read.Eof? || read.Failed?)
      ensures mux.View() == if deleted then W.Destruct(old(mux.View()), addr, old(Self())) else old(mux.View())
    {
      deleted := read.Eof? || read.Failed?;
      if deleted {
        var _ := Destroy();
      }
    }

    /** ClientManager::process: a new connection gets a handler of its own. */
    method ManagerProcess(sock: int, client: Addr) returns (h: FdHandler?)
      requires mux.Valid()
      modifies mux.Repr()
      ensures mux.Valid() && mux.Repr() == old(mux.Repr())
      ensures sock < 0 ==> h == null && mux.View() == old(mux.View())
      ensures sock >= 0 ==>
                && h != null && fresh(h) && h.addr == client && h.mux == mux
                && h.Self() == W.Handler(W.Client, sock, false, None)
                && mux.View() == W.Register(old(mux.View()), client)
    {
      h := null;
      if sock >= 0 {
        h := new FdHandler(client, W.Client, sock, false, mux);
        var _ := mux.RegisterFd(client, W.POLLIN);
      }
    }
  }
}
