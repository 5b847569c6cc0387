/** How ow_read takes one element of the sketch, step by step, with the sketch's triple stored,
    half stored or not stored at all. */
module Elements {
  import opened Bytes
  import opened Verbs
  import opened Rendezvous
  import opened Invariants
  import opened Preservation
  import opened Termination
  import opened Guarantees
  import opened Frames
  import opened Witnesses
  import opened Program
  import opened Schedules

  // ------------------------------------------------------------------------ one whole element

  /** ow_read at the head of its loop, its queues as start() left them. */
  ghost predicate AtElement(cfg: Config, w: World, op: Op, i: nat) {
    && Reachable(cfg, w) && op.OwRead? && w.c.pc == Loop(op, i) && w.c.io == StartIo()
    && w.c.progress.pendingReads == 0
  }

  /** `after` is `before` with `d` as its element i. */
  ghost predicate Placed(before: seq<Byte>, after: seq<Byte>, i: nat, d: seq<Byte>) {
    |d| == 4 && 4 * i + 4 <= |before| && after == Put(before, 4 * i, d)
  }

  /** What a read of element i at this address and key brings. */
  function ElementBytes(m: ServerMemory, addr: U64, rkey: U32, i: nat): Option<seq<Byte>> {
    Fetch(m, ElementAddress(addr, i), rkey, 4)
  }

  /** The read just posted is executed, its completion not yet generated. */
  lemma ElementExecuted(cfg: Config, w0: World, op: Op, i: nat) returns (w: World)
    requires ValidConfig(cfg) && Reachable(cfg, w0) && op.OwRead? && i < cfg.n
    requires w0.c.io == PostSend(StartIo(), Request(w0.c.known, w0.c.wr, op, i))
    requires Fetch(cfg.mem, w0.c.wr.addr, w0.c.wr.rkey, 4).Some?
    ensures Reachable(cfg, w)
    ensures var d := Fetch(w0.s.mem, w0.c.wr.addr, w0.c.wr.rkey, 4);
            && d.Some? && Placed(w0.c.local.sketch, w.c.local.sketch, i, d.value)
            && w == w0.(c := w0.c.(local := w0.c.local.(sketch := w.c.local.sketch),
                                   io := Io(QueuePair(1, [], [ReadDone]), CompletionQueue(true, 0, []), Waiting)))
  {
    hide Reachable, Inv, ReadInto, Fetch, SameSizes, SameServerRegions, MemInv;
    ReachableInv(cfg, w0);
    InvMemories(cfg, w0);
    StrayRead(cfg, w0.c.wr.addr, w0.c.wr.rkey, i, w0.c.local, w0.s.mem);
    w := Extend(cfg, w0, ClientSend);
  }

  /** The decrement, and the CQ thread's way back to its wait. */
  lemma Settled(cfg: Config, w0: World) returns (w: World)
    requires Reachable(cfg, w0)
    requires w0.c.io == Io(QueuePair(1, [], []), CompletionQueue(true, 0, []), Decrement)
    ensures Reachable(cfg, w)
    ensures w == w0.(c := w0.c.(io := StartIo(),
                                progress := w0.c.progress.(pendingReads := w0.c.progress.pendingReads - 1)))
  {
    hide Reachable;
    w := Extend(cfg, w0, ClientCq);
    w := Extend(cfg, w, ClientCq);
    w := Extend(cfg, w, ClientCq);
  }

  /** The count, and the flag seen. */
  lemma NextElement(cfg: Config, w0: World, op: Op, i: nat) returns (w: World)
    requires Reachable(cfg, w0) && op.OwRead? && w0.c.pc == Count(op, i) && w0.c.io == StartIo()
    requires w0.c.progress.readComplete && w0.c.progress.pendingReads == -1
    ensures AtElement(cfg, w, op, i + 1)
    ensures w == w0.(c := w0.c.(pc := Loop(op, i + 1), progress := w0.c.progress.(pendingReads := 0)))
  {
    hide Reachable;
    w := Extend(cfg, w0, ClientMain);
    w := Extend(cfg, w, ClientMain);
  }

  /** One turn with nobody else stepping: the element is what lies at the address and key that
      sketch_info holds, if that is registered, whatever memory it is. */
  lemma TakeElement(cfg: Config, w0: World, op: Op, i: nat) returns (w: World)
    requires ValidConfig(cfg) && AtElement(cfg, w0, op, i) && i < cfg.n
    requires var t := w0.c.known.sketchInfo; Registered(cfg, t.addr, t.rkey, i)
    ensures AtElement(cfg, w, op, i + 1) && w.s == w0.s && w.c.known == w0.c.known && w.c.ops == w0.c.ops
    ensures var t := w0.c.known.sketchInfo; var d := ElementBytes(w0.s.mem, t.addr, t.rkey, i);
            d.Some? && Placed(w0.c.local.sketch, w.c.local.sketch, i, d.value)
  {
    hide Reachable, Request, Fetch, ElementAddress;
    w := FillElement(cfg, w0, op, i);
    w := PostRead(cfg, w, op, i);
    w := ElementExecuted(cfg, w, op, i);
    w := FlagWithoutDecrement(cfg, w);
    w := Settled(cfg, w);
    w := NextElement(cfg, w, op, i);
  }

  /** Turn after turn: the elements before `from` stay. */
  lemma {:induction false} TakeElements(cfg: Config, w0: World, op: Op, from: nat, until: nat) returns (w: World)
    requires ValidConfig(cfg) && AtElement(cfg, w0, op, from) && from <= until <= cfg.n
    requires var t := w0.c.known.sketchInfo; forall j :: from <= j < until ==> Registered(cfg, t.addr, t.rkey, j)
    requires 4 * from <= |w0.c.local.sketch|
    ensures AtElement(cfg, w, op, until) && w.s == w0.s && w.c.known == w0.c.known && w.c.ops == w0.c.ops
    ensures |w.c.local.sketch| == |w0.c.local.sketch|
    ensures w.c.local.sketch[..4 * from] == w0.c.local.sketch[..4 * from]
    decreases until
  {
    hide AtElement, Registered, ElementBytes;
    if from == until {
      w := w0;
    } else {
      var v := TakeElements(cfg, w0, op, from, until - 1);
      var t := w0.c.known.sketchInfo;
      assert Registered(cfg, t.addr, t.rkey, until - 1);
      w := TakeElement(cfg, v, op, until - 1);
      var d := ElementBytes(v.s.mem, t.addr, t.rkey, until - 1).value;
      PlacedKeeps(v.c.local.sketch, w.c.local.sketch, until - 1, d);
      PrefixOf(v.c.local.sketch, w.c.local.sketch, 4 * from, 4 * (until - 1));
    }
  }

  lemma PrefixOf(a: seq<Byte>, b: seq<Byte>, i: nat, j: nat)
    requires i <= j <= |a| == |b| && a[..j] == b[..j]
    ensures a[..i] == b[..i]
  {
    assert a[..i] == a[..j][..i] && b[..i] == b[..j][..i];
  }

  lemma PlacedKeeps(before: seq<Byte>, after: seq<Byte>, i: nat, d: seq<Byte>)
    requires Placed(before, after, i, d)
    ensures |after| == |before| && after[..4 * i] == before[..4 * i] && after[4 * i..4 * i + 4] == d
  {
  }

  // --------------------------------------------------- while the main thread stands still

  /** What an agent other than the client's main thread leaves alone when the send queue is empty. */
  lemma OthersKeepLocal(cfg: Config, w: World, a: Agent)
    requires a != ClientMain && a != ClientSend && Next(cfg, w, a).Some?
    ensures var v := Next(cfg, w, a).value; v.c.local == w.c.local && v.c.io.qp.sq == w.c.io.qp.sq
  {
    hide ServerStep, ServerCqStep, Decode, FromBe, Encode, StoreAddress, StoreRest, SetFlag, CqLoop;
  }

  lemma EmptyHasNoStep(cfg: Config, w: World)
    requires w.c.io.qp.sq == []
    ensures Next(cfg, w, ClientSend).None?
  {
  }

  /** The sketch's triple is stored in order, one piece at a time. */
  lemma StageStep(cfg: Config, w: World, a: Agent)
    requires ValidConfig(cfg) && Reachable(cfg, w) && Next(cfg, w, a).Some? && a != ClientMain
    ensures var v := Next(cfg, w, a).value;
            Stage(w.c.io, w.c.known) <= Stage(v.c.io, v.c.known) <= Stage(w.c.io, w.c.known) + 1
  {
    hide Inv, ServerStep, ServerCqStep, Decode, Encode, ReadInto, WriteFrom, StoreAddress, StoreRest, FromBe, Be;
    hide Reachable;
    ReachableInv(cfg, w);
    if a == ClientCq { StageCq(cfg, w); } else { OthersKeepStage(cfg, w, a); }
  }

  lemma OthersKeepStage(cfg: Config, w: World, a: Agent)
    requires a != ClientMain && a != ClientCq && Next(cfg, w, a).Some?
    ensures var v := Next(cfg, w, a).value; v.c.known == w.c.known && v.c.io.thread == w.c.io.thread
  {
    hide ServerStep, ServerCqStep, Decode, Encode, ReadInto, WriteFrom;
  }

  lemma StageCq(cfg: Config, w: World)
    requires ValidConfig(cfg) && Reachable(cfg, w) && ClientCqStep(w.c).Some?
    ensures var c := ClientCqStep(w.c).value;
            Stage(w.c.io, w.c.known) <= Stage(c.io, c.known) <= Stage(w.c.io, w.c.known) + 1
  {
    hide ConnInv, HostQueues, FirstMessage, SendCounts, OnlyAdvert, MemInv, Operations, Encode, Decode, Be, FromBe;
    hide SketchInfo;
    hide Reachable;
    ReachableInv(cfg, w);
    if InHandler(w.c.io.thread) { ImmediateRoundTrip(FlagsGot(w.c.known)); }
  }

  /** At rest with nothing posted, the client has been told everything. */
  lemma QuietTold(cfg: Config, w: World)
    requires ValidConfig(cfg) && Reachable(cfg, w) && OthersStuck(cfg, w) && InOperation(w.c.pc) && w.c.io.qp.sq == []
    ensures w.c.known.getSketchAddr && w.c.io == StartIo()
  {
    hide Reachable, Inv, Next, RecvChain;
    ReachableInv(cfg, w);
    StuckQueues(cfg, w);
    QuietConnected(cfg, w);
    QuietServer(cfg, w);
    MainSteps(cfg, w);
    StuckServer(cfg, w);
    DrainedChains(w.c.io);
    AllTold(cfg, w);
    Credits(cfg, w);
    QuietArmed(cfg, w);
  }

  lemma QuietConnected(cfg: Config, w: World)
    requires ValidConfig(cfg) && Reachable(cfg, w) && OthersStuck(cfg, w) && InOperation(w.c.pc)
    ensures ClientPosted(w.c.pc) && ServerAccepted(w.s.pc) && !w.s.pc.WaitState?
  {
    hide HostQueues, FirstMessage, SendCounts, OnlyAdvert, AdvertCounts, AdvertContents, MemInv, Operations, Encode;
    hide Reachable;
    ReachableInv(cfg, w);
    assert Next(cfg, w, ServerMain).None? && Next(cfg, w, ServerCm).None? && Next(cfg, w, CmReport).None?;
  }

  lemma QuietServer(cfg: Config, w: World)
    requires ValidConfig(cfg) && Reachable(cfg, w) && OthersStuck(cfg, w) && ServerAccepted(w.s.pc)
    requires Drained(true, w.c.io) && Drained(ServerStarted(w.s.pc), w.s.io)
    requires ClientStarted(w.c.pc) && w.c.io.qp.sq == []
    ensures IoIdle(w.c.io) && IoIdle(w.s.io)
  {
    hide Inv, Next;
    hide Reachable;
    ReachableInv(cfg, w);
    assert Next(cfg, w, ServerSend).None?;
    if w.s.io.qp.sq != [] { ServerCanSend(cfg, w); }
  }

  lemma AllTold(cfg: Config, w: World)
    requires ValidConfig(cfg) && Reachable(cfg, w) && w.s.pc == Done
    requires IoIdle(w.s.io) && IoIdle(w.c.io) && RecvChain(w.c.io) == 0
    ensures w.c.known.getSketchAddr
  {
    hide ConnInv, HostQueues, FirstMessage, SendCounts, OnlyAdvert, AdvertContents, MemInv, Operations, Encode;
    hide Reachable;
    ReachableInv(cfg, w);
  }

  lemma QuietArmed(cfg: Config, w: World)
    requires ValidConfig(cfg) && Reachable(cfg, w) && Drained(true, w.c.io) && ClientStarted(w.c.pc)
    ensures w.c.io.cq.armed
  {
    hide Inv, Reads, PcInv;
    hide Reachable;
    ReachableInv(cfg, w);
    InvQueues(cfg, w);
  }

  /** Holding the main thread, the others can be run until just so much of the triple is stored. */
  lemma {:induction false} RevealTo(cfg: Config, w0: World, stage: nat) returns (w: World)
    requires ValidConfig(cfg) && Reachable(cfg, w0) && InOperation(w0.c.pc) && w0.c.io.qp.sq == []
    requires Stage(w0.c.io, w0.c.known) <= stage <= 2
    ensures Reachable(cfg, w) && Stage(w.c.io, w.c.known) == stage && w.c.io.qp.sq == []
    ensures w.c.pc == w0.c.pc && w.c.ops == w0.c.ops && w.c.wr == w0.c.wr && w.c.local == w0.c.local
    decreases Measure(cfg, w0)
  {
    hide Next, Reachable, Measure, Inv, Stage;
    if Stage(w0.c.io, w0.c.known) == stage {
      w := w0;
    } else if a: Agent :| a != ClientMain && Next(cfg, w0, a).Some? {
      ReachableInv(cfg, w0);
      Advance(cfg, w0, a);
      OthersKeepPc(cfg, w0, a);
      StageStep(cfg, w0, a);
      EmptyHasNoStep(cfg, w0);
      OthersKeepLocal(cfg, w0, a);
      w := RevealTo(cfg, Next(cfg, w0, a).value, stage);
    } else {
      QuietTold(cfg, w0);
      ReachableInv(cfg, w0);
      ToldIsStaged(cfg, w0);
    }
  }

  lemma ToldIsStaged(cfg: Config, w: World)
    requires ValidConfig(cfg) && Reachable(cfg, w)
    ensures w.c.known.getSketchAddr ==> Stage(w.c.io, w.c.known) == 2
    ensures Stage(w.c.io, w.c.known) < 2 ==> !w.c.known.getSketchAddr
    ensures SketchInfo(cfg, Stage(w.c.io, w.c.known), w.c.known.sketchInfo)
    ensures Stage(w.c.io, w.c.known) >= 1 ==> AdvertsPosted(w.s.pc) == 3
  {
    hide ConnInv, HostQueues, FirstMessage, SendCounts, OnlyAdvert, MemInv, Operations, Encode;
    hide Reachable;
    ReachableInv(cfg, w);
  }

  /** Or until there is nothing left for them to do. */
  lemma {:induction false} Rest(cfg: Config, w0: World) returns (w: World)
    requires ValidConfig(cfg) && Reachable(cfg, w0) && InOperation(w0.c.pc) && w0.c.io.qp.sq == []
    ensures Reachable(cfg, w) && w.c.known.getSketchAddr && w.c.io == StartIo()
    ensures w.c.pc == w0.c.pc && w.c.ops == w0.c.ops && w.c.local == w0.c.local
    decreases Measure(cfg, w0)
  {
    hide Next, Reachable, Measure, Inv;
    if a: Agent :| a != ClientMain && Next(cfg, w0, a).Some? {
      Advance(cfg, w0, a);
      OthersKeepPc(cfg, w0, a);
      EmptyHasNoStep(cfg, w0);
      OthersKeepLocal(cfg, w0, a);
      w := Rest(cfg, Next(cfg, w0, a).value);
    } else {
      QuietTold(cfg, w0);
      w := w0;
    }
  }

  /** Once told, an ow_read goes on to its end, with what it has already read. */
  lemma FinishRead(cfg: Config, w0: World, op: Op, i: nat) returns (w: World)
    requires ValidConfig(cfg) && AtElement(cfg, w0, op, i) && i <= cfg.n
    ensures Reachable(cfg, w) && w.c.pc == Return(op) && w.c.ops == w0.c.ops
    ensures |w.c.local.sketch| == |w0.c.local.sketch| >= 4 * i
    ensures w.c.local.sketch[..4 * i] == w0.c.local.sketch[..4 * i]
  {
    hide Reachable, Inv, Registered;
    w := Rest(cfg, w0);
    ReachableInv(cfg, w);
    ToldIsStaged(cfg, w);
    NothingCounted(cfg, w, op, i);
    forall j | i <= j < cfg.n ensures Registered(cfg, cfg.mem.sketch.base, cfg.mem.sketch.rkey, j) {
      SketchRegistered(cfg, j);
    }
    w := TakeElements(cfg, w, op, i, cfg.n);
    w := Extend(cfg, w, ClientMain);
    w := Extend(cfg, w, ClientMain);
  }

  lemma NothingCounted(cfg: Config, w: World, op: Op, i: nat)
    requires ValidConfig(cfg) && Reachable(cfg, w) && w.c.pc == Loop(op, i) && w.c.io == StartIo() && i <= cfg.n
    ensures w.c.progress.pendingReads == 0 && 4 * i <= |w.c.local.sketch|
  {
    hide Inv, HostQueues, PcInv, MemInv;
    hide Reachable;
    ReachableInv(cfg, w);
    InvQueues(cfg, w);
    InvMemories(cfg, w);
    FreshChain();
  }
}
