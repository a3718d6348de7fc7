/** The registry and the cached poll array of Multiplexer as a value, and the invariant tying them. */
module MuxState {
  import opened Common

  /** The address of an FdHandler object. */
  type Addr = nat

  const POLL_ARRAY_INC_STEP: nat := 32

  datatype PollingEntry = PollingEntry(handler: Addr, events: int)

  datatype PollFd = PollFd(fd: int, events: int, revents: int)

  /** `fds` and `hdls` are the first `current_num_` elements of the two cached arrays, both of which
      hold `capacity` elements. */
  datatype Mux = Mux(run: bool, dirty: bool, capacity: nat, registry: seq<PollingEntry>,
                     fds: seq<PollFd>, hdls: seq<Option<Addr>>)

  /** find_handler: the index of the handler's entry, or the size of the registry. */
  function Find(reg: seq<PollingEntry>, h: Addr): (i: nat)
    ensures i <= |reg|
    ensures i < |reg| ==> reg[i].handler == h
    ensures forall j :: 0 <= j < i ==> reg[j].handler != h
  {
    if reg == [] || reg[0].handler == h then 0 else 1 + Find(reg[1..], h)
  }

  predicate Registered(reg: seq<PollingEntry>, h: Addr) {
    exists i :: 0 <= i < |reg| && reg[i].handler == h
  }

  /** The first cached slot that holds the handler, or the number of slots. */
  function FindSlot(hdls: seq<Option<Addr>>, h: Addr): (i: nat)
    ensures i <= |hdls|
    ensures i < |hdls| ==> hdls[i] == Some(h)
    ensures forall j :: 0 <= j < i ==> hdls[j] != Some(h)
  {
    if hdls == [] || hdls[0] == Some(h) then 0 else 1 + FindSlot(hdls[1..], h)
  }

  /** register_fd. */
  function Register(m: Mux, h: Addr, events: int): Mux {
    if Find(m.registry, h) == |m.registry| then
      m.(registry := m.registry + [PollingEntry(h, events)], dirty := true)
    else m
  }

  /** remove_cur_handler. */
  function ClearSlot(m: Mux, h: Addr): Mux
    requires |m.fds| == |m.hdls|
  {
    var i := FindSlot(m.hdls, h);
    if i < |m.hdls| then
      m.(hdls := m.hdls[i := None], fds := m.fds[i := m.fds[i].(revents := 0)])
    else m
  }

  /** unregister_fd. */
  function Unregister(m: Mux, h: Addr): Mux
    requires |m.fds| == |m.hdls|
  {
    var i := Find(m.registry, h);
    if i < |m.registry| then
      ClearSlot(m, h).(registry := m.registry[..i] + m.registry[i + 1..], dirty := true)
    else m
  }

  /** The entries that are polled for some event, in registry order. */
  function Active(reg: seq<PollingEntry>): (r: seq<PollingEntry>)
    ensures |r| <= |reg|
  {
    if reg == [] then []
    else
      var init := Active(reg[..|reg| - 1]);
      var last := reg[|reg| - 1];
      if last.events != 0 then init + [last] else init
  }

  /** The array size that holds `n` handlers: the next multiple of the increment. */
  function RoundUp(n: nat): nat {
    (n + POLL_ARRAY_INC_STEP - 1) / POLL_ARRAY_INC_STEP * POLL_ARRAY_INC_STEP
  }

  /** prepare_polling_array, after which run() clears the dirty flag. `fdOf` answers handler->fd(). */
  function Prepare(m: Mux, fdOf: Addr -> int): Mux {
    var act := Active(m.registry);
    m.(dirty := false,
       capacity := if |m.registry| > m.capacity then RoundUp(|m.registry|) else m.capacity,
       fds := seq(|act|, i requires 0 <= i < |act| => PollFd(fdOf(act[i].handler), act[i].events, 0)),
       hdls := seq(|act|, i requires 0 <= i < |act| => Some(act[i].handler)))
  }

  /** poll() with its return value: positive, it stored a set of returned events in every slot; zero,
      it stored none; negative, it left the array alone. */
  function Polled(m: Mux, err: int, revents: nat -> int): Mux {
    if err < 0 then m
    else m.(fds := seq(|m.fds|, i requires 0 <= i < |m.fds| =>
                       m.fds[i].(revents := if err == 0 then 0 else revents(i))))
  }

  ghost predicate DistinctHandlers(reg: seq<PollingEntry>) {
    forall i, j :: 0 <= i < j < |reg| ==> reg[i].handler != reg[j].handler
  }

  ghost predicate DistinctSlots(hdls: seq<Option<Addr>>) {
    forall i, j :: 0 <= i < j < |hdls| && hdls[i].Some? ==> hdls[i] != hdls[j]
  }

  /** Slot `i` caches an entry of the registry, or is empty and has no pending events. */
  ghost predicate SlotOk(m: Mux, i: nat)
    requires i < |m.fds| == |m.hdls|
  {
    match m.hdls[i]
    case Some(h) => m.fds[i].events != 0 && PollingEntry(h, m.fds[i].events) in m.registry
    case None => m.fds[i].revents == 0
  }

  /** When the cache is clean, it is the in-order projection of the registry. */
  ghost predicate CleanOk(m: Mux)
    requires |m.fds| == |m.hdls|
  {
    var act := Active(m.registry);
    && |m.hdls| == |act|
    && forall i :: 0 <= i < |act| ==> m.hdls[i] == Some(act[i].handler) && m.fds[i].events == act[i].events
  }

  /** The part of the invariant that holds at every moment, also while poll() runs. */
  ghost predicate Shape(m: Mux) {
    && |m.fds| == |m.hdls| <= m.capacity
    && m.capacity % POLL_ARRAY_INC_STEP == 0
    && DistinctHandlers(m.registry)
    && DistinctSlots(m.hdls)
    && (!m.dirty ==> CleanOk(m))
  }

  /** The invariant that holds whenever the loop thread may dispatch. */
  ghost predicate Ok(m: Mux) {
    && Shape(m)
    && forall i :: 0 <= i < |m.hdls| ==> SlotOk(m, i)
  }

  const Initial := Mux(true, true, 0, [], [], [])

  /** Active() is an order-preserving projection: it holds exactly the polled entries. */
  lemma {:induction false} ActiveMembers(reg: seq<PollingEntry>)
    ensures forall e :: e in Active(reg) <==> e in reg && e.events != 0
    ensures Subsequence(Active(reg), reg)
    ensures DistinctHandlers(reg) ==> DistinctHandlers(Active(reg))
  {
    if reg != [] {
      var init := reg[..|reg| - 1];
      ActiveMembers(init);
      SubsequenceSnoc(Active(init), init, reg[|reg| - 1]);
      assert reg == init + [reg[|reg| - 1]];
      if DistinctHandlers(reg) {
        assert DistinctHandlers(init);
        forall i | 0 <= i < |Active(init)| ensures Active(init)[i].handler != reg[|reg| - 1].handler {
          assert Active(init)[i] in init;
        }
      }
    }
  }

  lemma RoundUpFits(n: nat)
    ensures n <= RoundUp(n) < n + POLL_ARRAY_INC_STEP && RoundUp(n) % POLL_ARRAY_INC_STEP == 0
  {}

  /** Rebuilding keeps the arrays if they are large enough, and else takes the next multiple of the increment. */
  lemma PrepareGrowsJustEnough(m: Mux, fdOf: Addr -> int)
    ensures var c := Prepare(m, fdOf).capacity;
            if |m.registry| <= m.capacity then c == m.capacity
            else |m.registry| <= c < |m.registry| + POLL_ARRAY_INC_STEP && c % POLL_ARRAY_INC_STEP == 0
  {
    RoundUpFits(|m.registry|);
  }

  lemma RegisterMembers(m: Mux, h: Addr, events: int)
    ensures forall e :: e in Register(m, h, events).registry
                    <==> e in m.registry || (e == PollingEntry(h, events) && !Registered(m.registry, h))
    ensures forall g :: Registered(Register(m, h, events).registry, g) <==> g == h || Registered(m.registry, g)
    ensures DistinctHandlers(m.registry) ==> DistinctHandlers(Register(m, h, events).registry)
  {
    var r := Register(m, h, events).registry;
    var n := |m.registry|;
    if Find(m.registry, h) == n {
      assert r[n].handler == h;
      forall g | Registered(m.registry, g) ensures Registered(r, g) {
        var i :| 0 <= i < n && m.registry[i].handler == g;
        assert r[i].handler == g;
      }
    } else {
      assert m.registry[Find(m.registry, h)].handler == h;
    }
  }

  lemma UnregisterMembers(m: Mux, h: Addr)
    requires |m.fds| == |m.hdls| && DistinctHandlers(m.registry)
    ensures forall e :: e in Unregister(m, h).registry <==> e in m.registry && e.handler != h
    ensures forall g :: Registered(Unregister(m, h).registry, g) <==> g != h && Registered(m.registry, g)
    ensures DistinctHandlers(Unregister(m, h).registry)
  {
    var i, r := Find(m.registry, h), Unregister(m, h).registry;
    if i < |m.registry| { WithoutEntry(m.registry, i); }
  }

  /** Removing one of several entries of different handlers. */
  lemma WithoutEntry(reg: seq<PollingEntry>, i: nat)
    requires i < |reg| && DistinctHandlers(reg)
    ensures var r := reg[..i] + reg[i + 1..];
            && (forall e :: e in r <==> e in reg && e.handler != reg[i].handler)
            && (forall g :: Registered(r, g) <==> g != reg[i].handler && Registered(reg, g))
            && DistinctHandlers(r)
  {
    var r := reg[..i] + reg[i + 1..];
    assert forall j :: 0 <= j < |r| ==> r[j] == reg[if j < i then j else j + 1];
    forall e ensures e in r <==> e in reg && e.handler != reg[i].handler { WithoutEntryAt(reg, i, e); }
    forall g ensures Registered(r, g) <==> g != reg[i].handler && Registered(reg, g) {
      RegisteredBy(r, g);
      RegisteredBy(reg, g);
    }
  }

  lemma WithoutEntryAt(reg: seq<PollingEntry>, i: nat, e: PollingEntry)
    requires i < |reg| && DistinctHandlers(reg)
    ensures e in reg[..i] + reg[i + 1..] <==> e in reg && e.handler != reg[i].handler
  {
    assert reg == reg[..i] + [reg[i]] + reg[i + 1..];
    assert e in reg <==> e in reg[..i] || e == reg[i] || e in reg[i + 1..];
  }

  lemma RegisteredBy(reg: seq<PollingEntry>, h: Addr)
    ensures Registered(reg, h) <==> exists e :: e in reg && e.handler == h
  {
    if Registered(reg, h) {
      var i :| 0 <= i < |reg| && reg[i].handler == h;
      assert reg[i] in reg;
    }
  }

  lemma RegisterOk(m: Mux, h: Addr, events: int)
    ensures Shape(m) ==> Shape(Register(m, h, events))
    ensures Ok(m) ==> Ok(Register(m, h, events))
  {
    RegisterMembers(m, h, events);
    if Ok(m) {
      var m' := Register(m, h, events);
      forall i | 0 <= i < |m'.hdls| ensures SlotOk(m', i) {
        assert SlotOk(m, i);
      }
    }
  }

  /** Clearing the first slot that holds the handler leaves none that does, and touches no other. */
  lemma ClearSlotSlots(m: Mux, h: Addr)
    requires |m.fds| == |m.hdls| && DistinctSlots(m.hdls)
    ensures var m' := ClearSlot(m, h);
            && |m'.fds| == |m'.hdls| == |m.hdls|
            && DistinctSlots(m'.hdls)
            && forall i :: 0 <= i < |m.hdls| ==>
                 && m'.hdls[i] == (if m.hdls[i] == Some(h) then None else m.hdls[i])
                 && m'.fds[i] == (if m.hdls[i] == Some(h) then m.fds[i].(revents := 0) else m.fds[i])
  {}

  lemma UnregisterKeepsShape(m: Mux, h: Addr)
    requires Shape(m)
    ensures Shape(Unregister(m, h))
    ensures Registered(m.registry, h) ==> Some(h) !in Unregister(m, h).hdls
  {
    UnregisterMembers(m, h);
    ClearSlotSlots(m, h);
  }

  /** Unregistering keeps the invariant, and leaves no slot that names the handler. */
  lemma UnregisterOk(m: Mux, h: Addr)
    requires Ok(m)
    ensures Ok(Unregister(m, h)) && Some(h) !in Unregister(m, h).hdls
  {
    UnregisterKeepsShape(m, h);
    UnregisterMembers(m, h);
    ClearSlotSlots(m, h);
    var m' := Unregister(m, h);
    forall i | 0 <= i < |m'.hdls| ensures SlotOk(m', i) && m'.hdls[i] != Some(h) {
      assert SlotOk(m, i);
      if m.hdls[i] == Some(h) {
        assert m.registry[Find(m.registry, h)].handler == h;
      }
    }
  }

  lemma PrepareOk(m: Mux, fdOf: Addr -> int)
    requires Shape(m)
    ensures Ok(Prepare(m, fdOf)) && !Prepare(m, fdOf).dirty
    ensures Prepare(m, fdOf).capacity >= m.capacity
    ensures forall i :: 0 <= i < |Prepare(m, fdOf).hdls| ==>
              && Prepare(m, fdOf).hdls[i].Some?
              && Prepare(m, fdOf).fds[i].fd == fdOf(Prepare(m, fdOf).hdls[i].value)
  {
    var m' := Prepare(m, fdOf);
    var act := Active(m.registry);
    ActiveMembers(m.registry);
    RoundUpFits(|m.registry|);
    forall i | 0 <= i < |m'.hdls| ensures SlotOk(m', i) {
      assert act[i] in act;
    }
  }

  /** poll() keeps the invariant when no slot is empty at that moment. */
  lemma PolledOk(m: Mux, err: int, revents: nat -> int)
    requires Ok(m) && (forall i :: 0 <= i < |m.hdls| ==> m.hdls[i].Some?)
    ensures Ok(Polled(m, err, revents))
  {
    var m' := Polled(m, err, revents);
    forall i | 0 <= i < |m'.hdls| ensures SlotOk(m', i) {
      assert SlotOk(m, i);
    }
  }
}
