/** Every step of every agent keeps the invariant. */
module Preservation {
  import opened Bytes
  import opened Verbs
  import opened ClassTransfer
  import opened Rendezvous
  import opened Invariants

  // --------------------------------------------------------------- connection management

  lemma CmKeeps(cfg: Config, w: World, a: Agent)
    requires ValidConfig(cfg) && Inv(cfg, w)
    requires a.ClientCm? || a.ServerCm? || a.CmReport?
    requires Next(cfg, w, a).Some?
    ensures Inv(cfg, Next(cfg, w, a).value)
  {
    hide Schedule, Informed, SameSizes;
    hide ConnInv, HostQueues, FirstMessage, SendCounts, OnlyAdvert, AdvertCounts, AdvertContents, MemInv;
    hide Reads, PcInv, OnlyRequest, DataInv;
    var v := Next(cfg, w, a).value;
    assert v == w.(c := w.c.(state := v.c.state, cmEvents := v.c.cmEvents),
                   s := w.s.(state := v.s.state, cmEvents := v.s.cmEvents), work := v.work);
    ConnKept(w);
  }

  lemma ConnKept(w: World)
    requires Conn(w)
    ensures ClientCmStep(w).Some? ==> Conn(ClientCmStep(w).value)
    ensures ServerCmStep(w).Some? ==> Conn(ServerCmStep(w).value)
    ensures CmReportStep(w).Some? ==> Conn(CmReportStep(w).value)
  {
  }

  // -------------------------------------------------------------------- completion threads

  /** The facts about a host's queues that a thread's loop step and its handlers keep. */
  lemma LoopKeeps(started: bool, io: Io)
    requires HostQueues(started, io) && LoopStep(io).Some?
    ensures var io' := LoopStep(io).value;
            && HostQueues(started, io')
            && io'.qp == io.qp
            && RecvChain(io') == RecvChain(io)
            && (forall k :: Chain(io'.qp, io'.cq, io'.thread, k) == Chain(io.qp, io.cq, io.thread, k))
            && !InHandler(io.thread) && !io.thread.Repost? && !io.thread.Decrement?
            && !InHandler(io'.thread) && !io'.thread.Repost? && !io'.thread.Decrement?
            && (forall m :: OnlyMessage(io, m) ==> OnlyMessage(io', m))
  {
  }

  lemma HandledKeeps(started: bool, io: Io, pc: CqPc)
    requires HostQueues(started, io) && io.thread.Handle?
    requires pc.Draining? || InHandler(pc) || pc.Decrement?
    ensures var io' := At(io, pc);
            && HostQueues(started, io')
            && RecvChain(io') == RecvChain(io) - Bit(io.thread.wc.RecvDone?)
            && (forall k :: Chain(io'.qp, io'.cq, io'.thread, k)
                            == Chain(io.qp, io.cq, io.thread, k) - Bit(CompletionKind(io.thread.wc) == k))
            && (forall m :: OnlyMessage(io, m) ==> OnlyMessage(io', m))
  {
  }

  // ------------------------------------------------------------------- client's CQ thread

  function ClientCqWorld(w: World): World
    requires ClientCqStep(w.c).Some?
  {
    w.(c := ClientCqStep(w.c).value)
  }

  lemma ClientLoopKeeps(cfg: Config, w: World)
    requires ValidConfig(cfg) && Inv(cfg, w) && LoopStep(w.c.io).Some?
    ensures Inv(cfg, w.(c := w.c.(io := LoopStep(w.c.io).value)))
  {
    hide Schedule, Informed, SameSizes;
    hide CqLoop, ConnInv, HostQueues, FirstMessage, SendCounts, OnlyAdvert, OnlyMessage, MemInv, PcInv;
    hide OnlyRequest, DataInv;
    hide RecvChain, Chain;
    LoopKeeps(ClientStarted(w.c.pc), w.c.io);
  }

  lemma ClientSendDoneKeeps(cfg: Config, w: World)
    requires ValidConfig(cfg) && Inv(cfg, w)
    requires w.c.io.thread.Handle? && w.c.io.thread.wc.SendDone?
    ensures Inv(cfg, w.(c := w.c.(io := At(w.c.io, Draining))))
  {
    hide Schedule, Informed, SameSizes;
    hide ConnInv, HostQueues, FirstMessage, SendCounts, OnlyAdvert, OnlyMessage, MemInv, PcInv, OnlyRequest, DataInv;
    hide RecvChain, Chain;
    HandledKeeps(ClientStarted(w.c.pc), w.c.io, Draining);
  }

  /** A read's completion: the flag, with the decrement still to come. */
  lemma ClientReadDoneKeeps(cfg: Config, w: World)
    requires ValidConfig(cfg) && Inv(cfg, w)
    requires w.c.io.thread == Handle(ReadDone)
    ensures Inv(cfg, w.(c := ClientHandle(w.c, ReadDone)))
  {
    hide Schedule, Informed, SameSizes;
    hide ConnInv, HostQueues, FirstMessage, SendCounts, OnlyAdvert, OnlyMessage, MemInv, PcInv, OnlyRequest, DataInv;
    hide RecvChain;
    HandledKeeps(ClientStarted(w.c.pc), w.c.io, Decrement);
  }

  lemma ClientWriteDoneKeeps(cfg: Config, w: World)
    requires ValidConfig(cfg) && Inv(cfg, w)
    requires w.c.io.thread == Handle(WriteDone)
    ensures Inv(cfg, w.(c := ClientHandle(w.c, WriteDone)))
  {
    hide Schedule, Informed, SameSizes;
    hide ConnInv, HostQueues, FirstMessage, SendCounts, OnlyAdvert, OnlyMessage, MemInv, PcInv, OnlyRequest, DataInv;
    hide RecvChain;
    HandledKeeps(ClientStarted(w.c.pc), w.c.io, Draining);
  }

  lemma ClientDecrementKeeps(cfg: Config, w: World)
    requires ValidConfig(cfg) && Inv(cfg, w)
    requires w.c.io.thread == Decrement
    ensures Inv(cfg, ClientCqWorld(w))
  {
    hide Schedule, Informed, SameSizes;
    hide ConnInv, FirstMessage, SendCounts, OnlyAdvert, MemInv, PcInv, OnlyRequest, DataInv;
  }

  lemma ClientRepostKeeps(cfg: Config, w: World)
    requires ValidConfig(cfg) && Inv(cfg, w)
    requires w.c.io.thread == Repost
    ensures Inv(cfg, ClientCqWorld(w))
  {
    hide Schedule, Informed, SameSizes;
    hide ConnInv, FirstMessage, SendCounts, OnlyAdvert, MemInv, PcInv, OnlyRequest, DataInv;
  }

  /** The immediates survive the byte-order conversions, and the codes are distinct. */
  lemma ImmediateRoundTrip(k: Index)
    ensures Be(4, Immediate(k)) != [] && FromBe(Be(4, Immediate(k))) == Immediate(k)
  {
    WordWidths();
    BeRoundTrip(4, Immediate(k));
  }

  /** recv_handler stores the address the server encoded under its immediate. */
  lemma ClientRecvKeeps(cfg: Config, w: World)
    requires ValidConfig(cfg) && Inv(cfg, w)
    requires w.c.io.thread.Handle? && w.c.io.thread.wc.RecvDone?
    ensures Inv(cfg, ClientCqWorld(w))
  {
    hide ConnInv, HostQueues, FirstMessage, SendCounts, OnlyAdvert, MemInv, DataInv, OnlyRequest, Addressed, SameSizes;
    hide Encode, Decode, Be, FromBe, Chain, Informed;
    var k: Index := FlagsGot(w.c.known);
    ImmediateRoundTrip(k);
    WireRoundTrip(Advert(cfg, k), w.c.recvBuf);
    HandledKeeps(ClientStarted(w.c.pc), w.c.io, AddressStored(Be(4, Immediate(k))));
  }

  /** Then the length and key. */
  lemma ClientAddressKeeps(cfg: Config, w: World)
    requires ValidConfig(cfg) && Inv(cfg, w)
    requires w.c.io.thread.AddressStored?
    ensures Inv(cfg, ClientCqWorld(w))
  {
    hide ConnInv, FirstMessage, SendCounts, OnlyAdvert, MemInv, DataInv, OnlyRequest, Addressed, SameSizes;
    hide Encode, Decode, Be, FromBe, Informed;
    var k: Index := FlagsGot(w.c.known);
    ImmediateRoundTrip(k);
    WireRoundTrip(Advert(cfg, k), w.c.recvBuf);
  }

  /** The flag follows its triple. */
  lemma FlagKeepsAdverts(cfg: Config, w: World)
    requires ValidConfig(cfg) && Inv(cfg, w) && w.c.io.thread.Stored?
    ensures var v := ClientCqWorld(w);
            && Adverts(cfg, v) && HostQueues(ClientStarted(v.c.pc), v.c.io)
            && v == w.(c := w.c.(known := SetFlag(w.c.known, Immediate(FlagsGot(w.c.known))), io := At(w.c.io, Repost)))
            && FlagsGot(w.c.known) < 3
  {
    hide ConnInv, FirstMessage, SendCounts, OnlyAdvert, MemInv, DataInv, OnlyRequest, PcInv, Schedule;
    hide Informed, SameSizes;
    hide Encode, Decode, Be, FromBe, Reads;
    ImmediateRoundTrip(FlagsGot(w.c.known));
  }

  lemma FlagKeepsSchedule(cfg: Config, w: World, imm: nat)
    requires ValidConfig(cfg) && Operations(cfg, w)
    ensures var known := SetFlag(w.c.known, imm);
            PcInv(cfg.n, w.c.pc, w.c.ops, known) && Schedule(cfg, w.c.ops, known)
  {
    hide DataInv, SameSizes, Reads, Informed, Delayed, OnlyRequest, Addressed;
  }

  lemma ClientStoredKeeps(cfg: Config, w: World)
    requires ValidConfig(cfg) && Inv(cfg, w)
    requires w.c.io.thread.Stored?
    ensures Inv(cfg, ClientCqWorld(w))
  {
    hide ConnInv, HostQueues, FirstMessage, SendCounts, OnlyAdvert, MemInv, DataInv, Adverts, PcInv, Schedule;
    hide OnlyRequest;
    hide Informed, SameSizes, Encode, Decode, Be, FromBe, SetFlag;
    FlagKeepsAdverts(cfg, w);
    FlagKeepsSchedule(cfg, w, Immediate(FlagsGot(w.c.known)));
  }

  lemma ClientCqKeeps(cfg: Config, w: World)
    requires ValidConfig(cfg) && Inv(cfg, w) && ClientCqStep(w.c).Some?
    ensures Inv(cfg, ClientCqWorld(w))
  {
    hide Inv;
    match w.c.io.thread
    case Handle(wc) =>
      match wc {
        case SendDone(_) => ClientSendDoneKeeps(cfg, w);
        case RecvDone(_, _) => ClientRecvKeeps(cfg, w);
        case ReadDone => ClientReadDoneKeeps(cfg, w);
        case WriteDone => ClientWriteDoneKeeps(cfg, w);
      }
    case AddressStored(_) => ClientAddressKeeps(cfg, w);
    case Stored(_) => ClientStoredKeeps(cfg, w);
    case Repost => ClientRepostKeeps(cfg, w);
    case Decrement => ClientDecrementKeeps(cfg, w);
    case _ => ClientLoopKeeps(cfg, w);
  }

  // -------------------------------------------------------------------- server's CQ thread

  function ServerCqWorld(w: World): World
    requires ServerCqStep(w.s).Some?
  {
    w.(s := ServerCqStep(w.s).value)
  }

  lemma ServerLoopKeeps(cfg: Config, w: World)
    requires ValidConfig(cfg) && Inv(cfg, w) && LoopStep(w.s.io).Some?
    ensures Inv(cfg, w.(s := w.s.(io := LoopStep(w.s.io).value)))
  {
    hide Schedule, Informed, SameSizes;
    hide CqLoop, ConnInv, HostQueues, AdvertCounts, AdvertContents, OnlyMessage, MemInv;
    hide PcInv, OnlyRequest, DataInv, Reads, RecvChain, Chain, Encode;
    LoopKeeps(ServerStarted(w.s.pc), w.s.io);
    OnlyAdvertLoop(AdvertsPosted(w.s.pc), w.s.io);
  }

  lemma OnlyAdvertLoop(p: nat, io: Io)
    requires p <= 3 && OnlyAdvert(p, io) && LoopStep(io).Some?
    ensures OnlyAdvert(p, LoopStep(io).value)
  {
  }

  /** server_recv_handler decodes the triple the client encoded. */
  lemma ServerRecvKeeps(cfg: Config, w: World)
    requires ValidConfig(cfg) && Inv(cfg, w)
    requires w.s.io.thread.Handle? && w.s.io.thread.wc.RecvDone?
    ensures Inv(cfg, ServerCqWorld(w))
  {
    hide Schedule, Informed, SameSizes;
    hide ConnInv, HostQueues, AdvertCounts, AdvertContents, MemInv;
    hide PcInv, OnlyRequest, DataInv, Reads, Chain, Encode, Decode;
    WireRoundTrip(cfg.clientStart, w.s.recvBuf);
    HandledKeeps(ServerStarted(w.s.pc), w.s.io, Stored([]));
  }

  lemma ServerStoredKeeps(cfg: Config, w: World)
    requires ValidConfig(cfg) && Inv(cfg, w)
    requires w.s.io.thread.Stored?
    ensures Inv(cfg, ServerCqWorld(w))
  {
    hide Schedule, Informed, SameSizes;
    hide ConnInv, AdvertCounts, AdvertContents, MemInv;
    hide PcInv, OnlyRequest, DataInv, Reads, Encode, Decode;
  }

  /** A send's completion sets the flag of the advertisement that was posted last. */
  lemma ServerSentKeeps(cfg: Config, w: World)
    requires ValidConfig(cfg) && Inv(cfg, w)
    requires w.s.io.thread.Handle? && w.s.io.thread.wc.SendDone?
    ensures Inv(cfg, ServerCqWorld(w))
  {
    hide Schedule, Informed, SameSizes;
    hide ConnInv, HostQueues, AdvertCounts, AdvertContents, OnlyMessage, MemInv;
    hide PcInv, OnlyRequest, DataInv, Reads, RecvChain, Chain, Encode;
    HandledKeeps(ServerStarted(w.s.pc), w.s.io, Draining);
  }

  lemma ServerCqKeeps(cfg: Config, w: World)
    requires ValidConfig(cfg) && Inv(cfg, w) && ServerCqStep(w.s).Some?
    ensures Inv(cfg, ServerCqWorld(w))
  {
    hide Inv;
    match w.s.io.thread
    case Handle(wc) =>
      match wc {
        case SendDone(_) => ServerSentKeeps(cfg, w);
        case RecvDone(_, _) => ServerRecvKeeps(cfg, w);
        case _ => ServerOnlySends(cfg, w);
      }
    case Stored(_) => ServerStoredKeeps(cfg, w);
    case AddressStored(_) => ServerOnlySends(cfg, w);
    case Repost => ServerOnlySends(cfg, w);
    case Decrement => ServerOnlySends(cfg, w);
    case _ => ServerLoopKeeps(cfg, w);
  }

  lemma ServerOnlySends(cfg: Config, w: World)
    requires ValidConfig(cfg) && Inv(cfg, w)
    ensures w.s.io.thread.Handle? ==> w.s.io.thread.wc.SendDone? || w.s.io.thread.wc.RecvDone?
    ensures !w.s.io.thread.Repost? && !w.s.io.thread.Decrement? && !w.s.io.thread.AddressStored?
  {
    hide ConnInv, HostQueues, AdvertCounts, AdvertContents, MemInv;
    hide PcInv, OnlyRequest, DataInv, Reads, Encode, FirstMessage;
  }

  // ------------------------------------------------------------------------ the adapters

  lemma AckMoves(started: bool, io: Io)
    requires HostQueues(started, io) && AckStep(io).Some?
    ensures var io' := AckStep(io).value;
            && HostQueues(started, io')
            && io'.qp == io.qp.(acked := io.qp.acked[1..]) && io'.thread == io.thread
            && RecvChain(io') == RecvChain(io)
            && (forall k :: Chain(io'.qp, io'.cq, io'.thread, k) == Chain(io.qp, io.cq, io.thread, k))
            && (forall m :: OnlyMessage(io, m) ==> OnlyMessage(io', m))
  {
    var c := io.qp.acked[0];
    AddCompletionKeeps(io.cq, io.thread, c);
    forall k ensures CountCompletions(io.cq.queue + [c], k)
                     == CountCompletions(io.cq.queue, k) + (if CompletionKind(c) == k then 1 else 0)
    {
      CountCompletionsPush(io.cq.queue, c, k);
    }
  }

  lemma ExecutedMoves(started: bool, io: Io, c: Completion)
    requires HostQueues(started, io) && io.qp.sq != [] && CompletionKind(c) == RequestKind(io.qp.sq[0])
    ensures var io' := Executed(io, c);
            && HostQueues(started, io')
            && io'.cq == io.cq && io'.thread == io.thread && io'.qp.recvs == io.qp.recvs && io'.qp.sq == io.qp.sq[1..]
            && RecvChain(io') == RecvChain(io)
            && (forall k :: CountRequests(io'.qp.sq, k) == CountRequests(io.qp.sq, k) - Bit(k == CompletionKind(c)))
            && (forall k :: Chain(io'.qp, io'.cq, io'.thread, k) == Chain(io.qp, io.cq, io.thread, k))
            && (forall m :: OnlyMessage(io, m) ==> OnlyMessage(io', m))
  {
    forall k ensures CountCompletions(io.qp.acked + [c], k)
                     == CountCompletions(io.qp.acked, k) + (if CompletionKind(c) == k then 1 else 0)
    {
      CountCompletionsPush(io.qp.acked, c, k);
    }
  }

  lemma DeliverMoves(started: bool, io: Io, len: nat, imm: seq<Byte>)
    requires HostQueues(started, io) && io.qp.recvs > 0
    ensures var io' := Deliver(io, len, imm);
            && HostQueues(started, io')
            && io'.qp == io.qp.(recvs := io.qp.recvs - 1) && io'.thread == io.thread
            && RecvChain(io') == RecvChain(io) + 1
            && (forall k :: k != KRecv ==> Chain(io'.qp, io'.cq, io'.thread, k) == Chain(io.qp, io.cq, io.thread, k))
            && (RecvChain(io) == 0 ==> OnlyMessage(io', RecvDone(len, imm)))
            && (forall x :: x in io'.cq.queue && x.SendDone? ==> x in io.cq.queue)
  {
    var c := RecvDone(len, imm);
    AddCompletionKeeps(io.cq, io.thread, c);
    forall k ensures CountCompletions(io.cq.queue + [c], k)
                     == CountCompletions(io.cq.queue, k) + (if CompletionKind(c) == k then 1 else 0)
    {
      CountCompletionsPush(io.cq.queue, c, k);
    }
    if RecvChain(io) == 0 { CountCompletionsNone(io.cq.queue, KRecv); }
  }

  lemma ClientAckKeeps(cfg: Config, w: World)
    requires ValidConfig(cfg) && Inv(cfg, w) && AckStep(w.c.io).Some?
    ensures Inv(cfg, w.(c := w.c.(io := AckStep(w.c.io).value)))
  {
    hide Schedule, Informed, SameSizes;
    hide AckStep, ConnInv, HostQueues, FirstMessage, SendCounts, OnlyAdvert, OnlyMessage, MemInv, PcInv;
    hide OnlyRequest, DataInv;
    hide RecvChain, Chain, Encode;
    AckMoves(ClientStarted(w.c.pc), w.c.io);
  }

  lemma ServerAckKeeps(cfg: Config, w: World)
    requires ValidConfig(cfg) && Inv(cfg, w) && AckStep(w.s.io).Some?
    ensures Inv(cfg, w.(s := w.s.(io := AckStep(w.s.io).value)))
  {
    hide Schedule, Informed, SameSizes;
    hide AckStep, ConnInv, HostQueues, AdvertCounts, AdvertContents, OnlyMessage, OnlyAdvert, MemInv;
    hide PcInv, OnlyRequest, DataInv, Reads, RecvChain, Chain, Encode;
    AckMoves(ServerStarted(w.s.pc), w.s.io);
    OnlyAdvertAck(AdvertsPosted(w.s.pc), w.s.io);
  }

  lemma OnlyAdvertAck(p: nat, io: Io)
    requires p <= 3 && OnlyAdvert(p, io) && AckStep(io).Some?
    ensures OnlyAdvert(p, AckStep(io).value)
  {
    var acked := io.qp.acked;
    assert acked[0] in acked && forall x :: x in acked[1..] ==> x in acked;
  }

  lemma ClientMessageOperations(cfg: Config, w: World)
    requires ValidConfig(cfg) && Inv(cfg, w) && w.c.io.qp.sq != [] && w.c.io.qp.sq[0].Send? && ClientSendStep(w).Some?
    ensures Operations(cfg, ClientSendStep(w).value)
  {
    hide Executed, Deliver, ConnInv, HostQueues, OnlyMessage, MemInv, PcInv, First, Sends, Adverts;
    hide RecvChain, Chain, Encode, Schedule, Informed, SameSizes, Landed, SketchPrefix, Request;
    ExecutedMoves(ClientStarted(w.c.pc), w.c.io, SendDone(w.c.io.qp.sq[0].wrId));
  }

  /** The client's triple reaches the server's receive buffer. */
  lemma ClientMessageKeeps(cfg: Config, w: World)
    requires ValidConfig(cfg) && Inv(cfg, w) && w.c.io.qp.sq != [] && w.c.io.qp.sq[0].Send? && ClientSendStep(w).Some?
    ensures Inv(cfg, ClientSendStep(w).value)
  {
    hide Executed, Deliver, ConnInv, HostQueues, OnlyMessage, MemInv, Operations;
    hide RecvChain, Chain, Encode;
    ClientMessageOperations(cfg, w);
    var sq := w.c.io.qp.sq;
    assert sq[0] in sq;
    ExecutedMoves(ClientStarted(w.c.pc), w.c.io, SendDone(sq[0].wrId));
    DeliverMoves(ServerStarted(w.s.pc), w.s.io, |w.c.sendBuf|, sq[0].imm);
  }

  // ----------------------------------------------------------------- one-sided operations

  /** The addresses an operation finds are those advertised, or ow_read's what was there before. */
  lemma MayCallRequest(cfg: Config, w: World, op: Op, i: nat)
    requires ValidConfig(cfg) && Inv(cfg, w) && w.c.known.getRdmaAddr && MayCall(w.c.known, op)
    ensures !op.OwRead? ==> forall wr :: Request(w.c.known, wr, op, i) == Exact(cfg, op, i)
  {
    hide ConnInv, HostQueues, FirstMessage, SendCounts, OnlyAdvert, MemInv, Operations, Encode, RecvChain;
    var k := w.c.known;
    assert StoredTriple(k, 0) == Advert(cfg, 0);
    if k.getClassAddr { assert StoredTriple(k, 1) == Advert(cfg, 1); }
  }

  /** sketch_info holds the sketch's address and key or, before the flag, what was there before. */
  predicate SketchKnown(cfg: Config, known: Known) {
    && (known.sketchInfo.addr == cfg.mem.sketch.base
        || (!known.getSketchAddr && known.sketchInfo.addr == cfg.unset.addr))
    && MayKey(cfg, known.getSketchAddr, known.sketchInfo.rkey)
  }

  lemma MayCallSketch(cfg: Config, w: World)
    requires ValidConfig(cfg) && Inv(cfg, w)
    ensures SketchKnown(cfg, w.c.known)
  {
    hide ConnInv, HostQueues, FirstMessage, SendCounts, OnlyAdvert, MemInv, Operations, Encode, RecvChain;
  }

  /** A read into a single local range. */
  lemma ReadOne(l: LocalMemory, m: ServerMemory, addr: int, rkey: U32, g: Sge)
    requires SgeFits(l, g) && Fetch(m, addr, rkey, g.len).Some?
    ensures ReadInto(l, m, addr, rkey, [g])
            == Some(l.Set(g.buf, Put(l.Get(g.buf), g.off, Fetch(m, addr, rkey, g.len).value)))
  {
    assert TotalLength([g]) == g.len + TotalLength([]);
    var d := Fetch(m, addr, rkey, g.len).value;
    assert d[..g.len] == d;
    assert Scatter(l, [g], d) == Scatter(l.Set(g.buf, Put(l.Get(g.buf), g.off, d)), [], d[g.len..]);
  }

  /** It is executed exactly when both its ranges are registered, and then only one buffer changes. */
  lemma OneRange(l: LocalMemory, m: ServerMemory, addr: int, rkey: U32, g: Sge)
    ensures var l' := ReadInto(l, m, addr, rkey, [g]); var d := Fetch(m, addr, rkey, g.len);
            && (l'.Some? <==> SgeFits(l, g) && d.Some?)
            && (l'.Some? ==> l' == Some(l.Set(g.buf, Put(l.Get(g.buf), g.off, d.value))))
  {
    assert TotalLength([g]) == g.len + TotalLength([]);
    if SgeFits(l, g) && Fetch(m, addr, rkey, g.len).Some? { ReadOne(l, m, addr, rkey, g); }
  }

  /** The client's rdma buffer can take the server's start buffer. */
  predicate StartFits(cfg: Config) { |cfg.mem.start.bytes| <= |cfg.local.rdma| }

  /** The bytes are class_send_buf's at some point of the copies. */
  ghost predicate IsVersion(cfg: Config, b: seq<Byte>)
    requires ValidConfig(cfg)
  {
    exists j :: 0 <= j <= CopiedWords(cfg.obj) && b == Partly(cfg.obj, cfg.mem.cls.bytes, j)
  }

  /** A read request from advertised addresses stays inside every region, on both hosts - for
      rdma_read exactly when the start buffer fits - and brings what the operation is for. */
  lemma ReadLands(cfg: Config, informed: bool, op: Op, i: nat, l: LocalMemory, m: ServerMemory)
    requires ValidConfig(cfg) && SameSizes(l, cfg.local) && SameServerRegions(m, cfg.mem)
    requires !op.RdmaWrite? && (op.OwRead? ==> i < cfg.n)
    requires IsVersion(cfg, m.cls.bytes)
    ensures var r := Exact(cfg, op, i);
            var l' := ReadInto(l, m, r.raddr, r.rkey, r.scatter);
            && (l'.Some? <==> op.RdmaRead? ==> StartFits(cfg))
            && (l'.Some? ==> SameSizes(l'.value, cfg.local))
            && (l'.Some? && Before(informed, op, i, l, m) ==>
                  Landed(cfg, informed, op, i, l'.value, m) && Before(informed, op, i, l'.value, m))
  {
    match op
    case RdmaRead => StartReadLands(cfg, l, m);
    case ReadClass(_) => ClassReadLands(cfg, op, l, m);
    case OwRead(_) => SketchReadLands(cfg, op, i, l, m);
  }

  lemma StartReadLands(cfg: Config, l: LocalMemory, m: ServerMemory)
    requires ValidConfig(cfg) && SameSizes(l, cfg.local) && SameServerRegions(m, cfg.mem)
    ensures var r := Exact(cfg, RdmaRead, 0);
            var l' := ReadInto(l, m, r.raddr, r.rkey, r.scatter);
            && (l'.Some? <==> StartFits(cfg))
            && (l'.Some? ==> SameSizes(l'.value, cfg.local) && StartMatches(l'.value, m)
                             && l'.value.rdma == Put(l.rdma, 0, m.start.bytes))
  {
    var t := Advert(cfg, 0);
    OneRange(l, m, t.addr, t.rkey, Sge(RdmaBuf, 0, t.len));
  }

  lemma InVersions(cfg: Config, pc: ServerPc, mem: ServerMemory)
    requires ValidConfig(cfg) && MemInv(cfg, pc, mem)
    ensures IsVersion(cfg, mem.cls.bytes)
  {
    hide Partly, SketchBytes;
    assert mem.cls.bytes == Partly(cfg.obj, cfg.mem.cls.bytes, CopyPosition(cfg, pc));
  }

  lemma ClassReadLands(cfg: Config, op: Op, l: LocalMemory, m: ServerMemory)
    requires ValidConfig(cfg) && op.ReadClass?
    requires SameSizes(l, cfg.local) && SameServerRegions(m, cfg.mem)
    ensures var r := Exact(cfg, op, 0);
            var l' := ReadInto(l, m, r.raddr, r.rkey, r.scatter);
            && l'.Some? && SameSizes(l'.value, cfg.local) && ClassLanded(l'.value, m.cls.bytes)
            && l'.value.rdma == l.rdma
  {
    hide ValidConfig, SameServerRegions, Fetch;
    ClassBytesFetched(cfg, op, m);
    LocalClassSizes(cfg, l);
    var r := Exact(cfg, op, 0);
    var d := m.cls.bytes[..HEADER_SIZE + 4 * RECV_WORDS];
    ReadTwo(l, m, r.raddr, r.rkey, r.scatter[0], r.scatter[1], d);
    assert Put(l.classBuf, 0, d[HEADER_SIZE..])[4 * RECV_WORDS..] == l.classBuf[4 * RECV_WORDS..];
  }

  /** The class read's remote range is registered. */
  lemma ClassBytesFetched(cfg: Config, op: Op, m: ServerMemory)
    requires ValidConfig(cfg) && op.ReadClass?
    requires SameServerRegions(m, cfg.mem)
    ensures |m.cls.bytes| == HEADER_SIZE + 4 * SEND_WORDS
    ensures var r := Exact(cfg, op, 0); var len := HEADER_SIZE + 4 * RECV_WORDS;
            Fetch(m, r.raddr, r.rkey, len) == Some(m.cls.bytes[..len])
  {
  }

  lemma LocalClassSizes(cfg: Config, l: LocalMemory)
    requires ValidConfig(cfg) && SameSizes(l, cfg.local)
    ensures |l.classData| == CLASS_RECV_DATA_SIZE && |l.classBuf| == CLASS_RECV_BUF_SIZE
    ensures l.classBuf[4 * RECV_WORDS..] == cfg.local.classBuf[4 * RECV_WORDS..]
  {
  }

  /** A read into two local ranges of different buffers. */
  lemma ReadTwo(l: LocalMemory, m: ServerMemory, addr: int, rkey: U32, g0: Sge, g1: Sge, d: seq<Byte>)
    requires g0.buf != g1.buf && SgeFits(l, g0) && SgeFits(l, g1)
    requires |d| == g0.len + g1.len && Fetch(m, addr, rkey, |d|) == Some(d)
    ensures ReadInto(l, m, addr, rkey, [g0, g1])
            == Some(l.Set(g0.buf, Put(l.Get(g0.buf), g0.off, d[..g0.len]))
                     .Set(g1.buf, Put(l.Get(g1.buf), g1.off, d[g0.len..])))
  {
    hide Fetch, Put;
    var gs := [g0, g1];
    assert gs[1..] == [g1];
    assert TotalLength([g1]) == g1.len + TotalLength([]);
    var l1 := l.Set(g0.buf, Put(l.Get(g0.buf), g0.off, d[..g0.len]));
    var rest := d[g0.len..];
    assert l1.Get(g1.buf) == l.Get(g1.buf);
    assert rest[..g1.len] == rest;
    assert Scatter(l1, [g1], rest) == Some(l1.Set(g1.buf, Put(l1.Get(g1.buf), g1.off, rest)));
  }

  lemma SketchReadLands(cfg: Config, op: Op, i: nat, l: LocalMemory, m: ServerMemory)
    requires ValidConfig(cfg) && op.OwRead?
    requires SameSizes(l, cfg.local) && SameServerRegions(m, cfg.mem)
    requires i < cfg.n
    ensures var r := Exact(cfg, op, i);
            var l' := ReadInto(l, m, r.raddr, r.rkey, r.scatter);
            && l'.Some? && SameSizes(l'.value, cfg.local)
            && (SketchPrefix(i, l, m) ==> SketchPrefix(i, l'.value, m) && SketchPrefix(i + 1, l'.value, m))
  {
    var r := Exact(cfg, op, i);
    assert r.raddr == m.sketch.base + 4 * i;
    var d := Fetch(m, r.raddr, r.rkey, 4).value;
    assert d == m.sketch.bytes[4 * i..4 * i + 4];
    var s' := Put(l.sketch, 4 * i, d);
    ReadOne(l, m, r.raddr, r.rkey, r.scatter[0]);
    assert s'[..4 * (i + 1)] == s'[..4 * i] + s'[4 * i..4 * i + 4];
    assert m.sketch.bytes[..4 * (i + 1)] == m.sketch.bytes[..4 * i] + d;
  }

  /** A sketch element read from whatever address and key the client has: it needs a registered
      range, and changes one element of the local sketch. */
  lemma StrayRead(cfg: Config, addr: int, rkey: U32, i: nat, l: LocalMemory, m: ServerMemory)
    requires ValidConfig(cfg) && i < cfg.n
    requires SameSizes(l, cfg.local) && SameServerRegions(m, cfg.mem)
    ensures var l' := ReadInto(l, m, addr, rkey, [Sge(SketchBuf, 4 * i, 4)]); var d := Fetch(m, addr, rkey, 4);
            && (l'.Some? <==> Fetch(cfg.mem, addr, rkey, 4).Some?)
            && (l'.Some? ==> d.Some? && SameSizes(l'.value, cfg.local) && 4 * i + 4 <= |l.sketch|
                             && l'.value == l.(sketch := Put(l.sketch, 4 * i, d.value)))
  {
    OneRange(l, m, addr, rkey, Sge(SketchBuf, 4 * i, 4));
  }

  /** A write request needs the start buffer to fit, too. */
  lemma WriteLands(cfg: Config, l: LocalMemory, m: ServerMemory)
    requires ValidConfig(cfg)
    requires SameSizes(l, cfg.local) && SameServerRegions(m, cfg.mem)
    ensures var r := Exact(cfg, RdmaWrite, 0);
            var m' := WriteFrom(l, m, r.raddr, r.rkey, r.source);
            && (m'.Some? <==> StartFits(cfg))
            && (m'.Some? ==>
                  && SameServerRegions(m'.value, cfg.mem)
                  && m'.value.cls == m.cls && m'.value.sketch == m.sketch && StartMatches(l, m'.value)
                  && m'.value.start.bytes == l.rdma[..|m.start.bytes|])
  {
  }

  /** The head of the send queue, if not a send, is the current operation's request. */
  lemma HeadIsCurrent(cfg: Config, w: World)
    requires ValidConfig(cfg) && Inv(cfg, w) && w.c.io.qp.sq != [] && !w.c.io.qp.sq[0].Send?
    ensures Current(w.c.pc).Some?
    ensures var (op, i) := Current(w.c.pc).value; var r := w.c.io.qp.sq[0];
            var informed := Informed(cfg, w.c.pc, w.c.ops);
            && MayPost(cfg, informed, op, i, r)
            && (r.Write? <==> op.RdmaWrite?) && (!op.OwRead? ==> i == 0)
            && (r.Read? ==> ReadActive(w.c.pc)) && (r.Write? ==> WriteActive(w.c.pc))
            && (op.OwRead? ==> i < cfg.n) && Before(informed, op, i, w.c.local, w.s.mem)
    ensures forall k :: k == KRead || k == KWrite ==> CountRequests(w.c.io.qp.sq[1..], k) == 0
  {
    hide ConnInv, HostQueues, FirstMessage, SendCounts, OnlyAdvert, AdvertCounts, AdvertContents, MemInv, Encode;
    hide Schedule, Informed, Addressed, SameSizes;
    assert w.c.io.qp.sq[0] in w.c.io.qp.sq;
  }

  lemma InvMemories(cfg: Config, w: World)
    requires ValidConfig(cfg) && Inv(cfg, w)
    ensures SameSizes(w.c.local, cfg.local) && MemInv(cfg, w.s.pc, w.s.mem) && SameServerRegions(w.s.mem, cfg.mem)
  {
    hide ConnInv, HostQueues, FirstMessage, SendCounts, OnlyAdvert, AdvertCounts, AdvertContents, PcInv, Encode;
    hide OnlyRequest, DataInv, Reads, Schedule, SameSizes, SameServerRegions, Partly;
  }

  lemma ClientReadKeeps(cfg: Config, w: World)
    requires ValidConfig(cfg) && Inv(cfg, w) && w.c.io.qp.sq != [] && w.c.io.qp.sq[0].Read? && ClientSendStep(w).Some?
    ensures Inv(cfg, ClientSendStep(w).value)
  {
    hide Executed, ConnInv, HostQueues, OnlyMessage, PcInv, SendCounts, OnlyAdvert, Schedule, Informed, MayPost;
    hide RecvChain, Chain, Encode, ReadInto, Landed, SketchPrefix, SameSizes, Addressed;
    HeadIsCurrent(cfg, w);
    ExecutedMoves(ClientStarted(w.c.pc), w.c.io, ReadDone);
    ReadExecuted(cfg, w);
  }

  /** Whatever addresses the request at the head was built from, executing it keeps the data's
      invariant. */
  lemma ReadExecuted(cfg: Config, w: World)
    requires ValidConfig(cfg) && Inv(cfg, w) && w.c.io.qp.sq != [] && w.c.io.qp.sq[0].Read? && ClientSendStep(w).Some?
    requires Current(w.c.pc).Some?
    ensures var l' := ClientSendStep(w).value.c.local; var (op, i) := Current(w.c.pc).value;
            var informed := Informed(cfg, w.c.pc, w.c.ops);
            && SameSizes(l', cfg.local)
            && Landed(cfg, informed, op, i, l', w.s.mem) && Before(informed, op, i, l', w.s.mem)
  {
    hide Inv, Executed, ReadInto, SketchPrefix, SameSizes, Informed, IsVersion, MemInv;
    var (op, i) := Current(w.c.pc).value;
    var informed := Informed(cfg, w.c.pc, w.c.ops);
    var r := w.c.io.qp.sq[0];
    HeadIsCurrent(cfg, w);
    InvMemories(cfg, w);
    InVersions(cfg, w.s.pc, w.s.mem);
    if op.OwRead? && !informed {
      StrayRead(cfg, r.raddr, r.rkey, i, w.c.local, w.s.mem);
    } else {
      ReadLands(cfg, informed, op, i, w.c.local, w.s.mem);
    }
  }

  lemma ClientWriteOperations(cfg: Config, w: World)
    requires ValidConfig(cfg) && Inv(cfg, w) && w.c.io.qp.sq != [] && w.c.io.qp.sq[0].Write? && ClientSendStep(w).Some?
    ensures Operations(cfg, ClientSendStep(w).value)
  {
    hide Executed, ConnInv, HostQueues, OnlyMessage, PcInv, First, Sends, Adverts, Schedule, Informed;
    hide RecvChain, Chain, Encode, WriteFrom, SketchPrefix, SameSizes, Request, SameServerRegions, Partly;
    hide Addressed, MayAddress;
    HeadIsCurrent(cfg, w);
    ExecutedMoves(ClientStarted(w.c.pc), w.c.io, WriteDone);
    InvMemories(cfg, w);
    WriteLands(cfg, w.c.local, w.s.mem);
  }

  lemma ClientWriteKeeps(cfg: Config, w: World)
    requires ValidConfig(cfg) && Inv(cfg, w) && w.c.io.qp.sq != [] && w.c.io.qp.sq[0].Write? && ClientSendStep(w).Some?
    ensures Inv(cfg, ClientSendStep(w).value)
  {
    hide Executed, ConnInv, HostQueues, OnlyMessage, Operations, SendCounts, OnlyAdvert;
    hide RecvChain, Chain, Encode, WriteFrom, Request, SameServerRegions, SameSizes, Before;
    ClientWriteOperations(cfg, w);
    HeadIsCurrent(cfg, w);
    ExecutedMoves(ClientStarted(w.c.pc), w.c.io, WriteDone);
    InvMemories(cfg, w);
    WriteLands(cfg, w.c.local, w.s.mem);
  }

  lemma ClientSendKeeps(cfg: Config, w: World)
    requires ValidConfig(cfg) && Inv(cfg, w) && ClientSendStep(w).Some?
    ensures Inv(cfg, ClientSendStep(w).value)
  {
    hide Inv, Executed, Deliver, ReadInto, WriteFrom;
    match w.c.io.qp.sq[0]
    case Send(_, _) => ClientMessageKeeps(cfg, w);
    case Read(_, _, _) => ClientReadKeeps(cfg, w);
    case Write(_, _, _) => ClientWriteKeeps(cfg, w);
  }

  lemma ServerSendOperations(cfg: Config, w: World)
    requires ValidConfig(cfg) && Inv(cfg, w) && ServerSendStep(w).Some?
    ensures Operations(cfg, ServerSendStep(w).value)
  {
    hide Executed, Deliver, ConnInv, HostQueues, OnlyMessage, MemInv, PcInv, OnlyRequest, DataInv, First;
    hide Sends, Adverts;
    hide RecvChain, Chain, Encode, Be, Schedule, Informed, SameSizes;
    DeliverMoves(ClientStarted(w.c.pc), w.c.io, |w.s.sendBuf|, w.s.io.qp.sq[0].imm);
  }

  /** An advertisement reaches the client's receive buffer. */
  lemma ServerSendKeeps(cfg: Config, w: World)
    requires ValidConfig(cfg) && Inv(cfg, w) && ServerSendStep(w).Some?
    ensures Inv(cfg, ServerSendStep(w).value)
  {
    hide Executed, Deliver, ConnInv, HostQueues, OnlyMessage, MemInv, Operations;
    hide RecvChain, Encode, Be;
    ServerSendOperations(cfg, w);
    var sq := w.s.io.qp.sq;
    assert sq[0] in sq;
    ExecutedMoves(ServerStarted(w.s.pc), w.s.io, SendDone(sq[0].wrId));
    DeliverMoves(ClientStarted(w.c.pc), w.c.io, |w.s.sendBuf|, sq[0].imm);
    OnlyAdvertExecuted(AdvertsPosted(w.s.pc), w.s.io);
  }

  lemma OnlyAdvertExecuted(p: nat, io: Io)
    requires p <= 3 && OnlyAdvert(p, io) && io.qp.sq != [] && io.qp.sq[0].Send?
    ensures OnlyAdvert(p, Executed(io, SendDone(io.qp.sq[0].wrId)))
  {
    var sq := io.qp.sq;
    assert sq[0] in sq && forall x :: x in sq[1..] ==> x in sq;
  }

  // ------------------------------------------------------------------ server's main thread

  function ServerMainWorld(cfg: Config, w: World): World
    requires ServerMainStep(cfg, w).Some?
  {
    ServerMainStep(cfg, w).value
  }

  lemma ServerSetupKeeps(cfg: Config, w: World)
    requires ValidConfig(cfg) && Inv(cfg, w) && ServerMainStep(cfg, w).Some?
    requires w.s.pc.ServerSetup?
    ensures Inv(cfg, ServerMainWorld(cfg, w))
  {
    hide Schedule, Informed, SameSizes, SameServerRegions, Partly;
    hide AdvertContents, PcInv, OnlyRequest, DataInv, Reads, Encode, Be, AdvertCounts, Serialized, Header, ValidConfig;
  }

  lemma ServerStartKeeps(cfg: Config, w: World)
    requires ValidConfig(cfg) && Inv(cfg, w) && ServerMainStep(cfg, w).Some?
    requires w.s.pc.Listening? || w.s.pc.Accepting? || w.s.pc.WaitState?
    ensures Inv(cfg, ServerMainWorld(cfg, w))
  {
    hide Schedule, Informed, SameSizes, SameServerRegions, Partly;
    hide AdvertCounts, HostQueues, OnlyAdvert, AdvertContents, PcInv, OnlyRequest, DataInv, Reads, Encode, Be, Chain;
    hide OnlyMessage, RecvChain, ValidConfig, SendCounts, FirstMessage;
  }

  lemma ServerHasTripleKeeps(cfg: Config, w: World)
    requires ValidConfig(cfg) && Inv(cfg, w) && ServerMainStep(cfg, w).Some?
    requires w.s.pc.WaitRemote?
    ensures Inv(cfg, ServerMainWorld(cfg, w))
  {
    hide Schedule, Informed, SameSizes, SameServerRegions, Partly;
    hide AdvertCounts, HostQueues, OnlyAdvert, AdvertContents, PcInv, OnlyRequest, DataInv, Reads, Encode, Be, Chain;
    hide OnlyMessage, RecvChain, ValidConfig;
  }

  /** Nobody reads the class or sketch region on the strength of GET_SKETCH_ADDR before the
      third advertisement is posted. */
  lemma MemUnseen(cfg: Config, w: World, m: ServerMemory)
    requires ValidConfig(cfg) && Inv(cfg, w) && AdvertsPosted(w.s.pc) < 3 && m.start == w.s.mem.start
    ensures DataInv(cfg, Informed(cfg, w.c.pc, w.c.ops), w.c.pc, w.c.io.qp.sq, w.c.local, m)
  {
    hide ConnInv, HostQueues, FirstMessage, SendCounts, OnlyAdvert, AdvertContents, OnlyRequest, Reads, Encode, MemInv;
    assert !w.c.known.getSketchAddr;
  }

  lemma ServerFillKeeps(cfg: Config, w: World)
    requires ValidConfig(cfg) && Inv(cfg, w) && ServerMainStep(cfg, w).Some?
    requires w.s.pc.Fill?
    ensures Inv(cfg, ServerMainWorld(cfg, w))
  {
    hide Schedule, Informed, SameSizes, Partly;
    hide AdvertCounts, Chain, HostQueues, FirstMessage, OnlyAdvert, AdvertContents, PcInv, OnlyRequest;
    hide DataInv, Reads, Encode, Be;
  }

  lemma SketchStoreKeeps(cfg: Config, s: Server)
    requires ValidConfig(cfg) && MemInv(cfg, s.pc, s.mem) && s.pc.FillSketch?
    ensures ServerStep(cfg, s).Some? && MemInv(cfg, ServerStep(cfg, s).value.pc, ServerStep(cfg, s).value.mem)
  {
    hide Le, Serialized, Header;
    var j, b := s.pc.j, s.mem.sketch.bytes;
    if j < cfg.n {
      var b' := Put(b, 4 * j, Le(4, j));
      assert b'[..4 * (j + 1)] == b'[..4 * j] + b'[4 * j..4 * j + 4];
      assert b'[4 * (j + 1)..] == b[4 * j..][4..];
    }
  }

  lemma ServerSketchKeeps(cfg: Config, w: World)
    requires ValidConfig(cfg) && Inv(cfg, w) && ServerMainStep(cfg, w).Some?
    requires w.s.pc.FillSketch?
    ensures Inv(cfg, ServerMainWorld(cfg, w))
  {
    hide Schedule, Informed, SameSizes, SameServerRegions, Partly;
    hide SendCounts, AdvertCounts, HostQueues, FirstMessage, OnlyAdvert, AdvertContents, PcInv, OnlyRequest, DataInv;
    hide Reads, Encode, Le, MemInv;
    MemUnseen(cfg, w, ServerMainWorld(cfg, w).s.mem);
    SketchStoreKeeps(cfg, w.s);
    assert !ServerStep(cfg, w.s).value.pc.ServerExit? by { MemInvNoExit(cfg, ServerStep(cfg, w.s).value); }
  }

  lemma MemInvNoExit(cfg: Config, s: Server)
    requires ValidConfig(cfg) && MemInv(cfg, s.pc, s.mem)
    ensures !s.pc.ServerExit?
  {
  }

  lemma CopyStoreKeeps(cfg: Config, s: Server)
    requires ValidConfig(cfg) && MemInv(cfg, s.pc, s.mem) && s.pc.CopyClass?
    ensures ServerStep(cfg, s).Some?
    ensures var s' := ServerStep(cfg, s).value;
            && MemInv(cfg, s'.pc, s'.mem) && s'.mem.start == s.mem.start
            && (s'.pc.CopyClass? || s'.pc == WaitSent(1)) && s' == s.(mem := s'.mem, pc := s'.pc)
  {
    hide Partly, CopiedWord, SketchBytes;
    CopyAdvances(cfg.obj, cfg.mem.cls.bytes, s.pc.j);
  }

  lemma ServerCopyKeeps(cfg: Config, w: World)
    requires ValidConfig(cfg) && Inv(cfg, w) && ServerMainStep(cfg, w).Some?
    requires w.s.pc.CopyClass?
    ensures Inv(cfg, ServerMainWorld(cfg, w))
  {
    hide AdvertCounts, HostQueues, FirstMessage, OnlyAdvert, AdvertContents, PcInv, OnlyRequest, DataInv, Chain;
    hide Reads, Encode, MemInv, Schedule, Informed, ServerStep, ValidConfig;
    InvMemories(cfg, w);
    CopyStoreKeeps(cfg, w.s);
    MemUnseen(cfg, w, ServerMainWorld(cfg, w).s.mem);
  }

  lemma ServerWaitKeeps(cfg: Config, w: World)
    requires ValidConfig(cfg) && Inv(cfg, w) && ServerMainStep(cfg, w).Some?
    requires w.s.pc.WaitSent?
    ensures Inv(cfg, ServerMainWorld(cfg, w))
  {
    hide Schedule, Informed, SameSizes, SameServerRegions, Partly;
    hide AdvertCounts, Chain, HostQueues, FirstMessage, OnlyAdvert, AdvertContents, PcInv, OnlyRequest;
    hide DataInv, Reads, Encode;
    hide SketchBytes, Serialized, Header, Words, ValidConfig;
  }

  /** What posting a request changes in a host's queues. */
  lemma PostMoves(started: bool, io: Io, r: WorkRequest)
    requires HostQueues(started, io) && started
    ensures var io' := PostSend(io, r);
            && HostQueues(started, io')
            && io'.cq == io.cq && io'.thread == io.thread && io'.qp.recvs == io.qp.recvs && io'.qp.acked == io.qp.acked
            && RecvChain(io') == RecvChain(io)
            && (forall k :: CountRequests(io'.qp.sq, k) == CountRequests(io.qp.sq, k) + Bit(RequestKind(r) == k))
            && (forall k :: Chain(io'.qp, io'.cq, io'.thread, k)
                            == Chain(io.qp, io.cq, io.thread, k) + Bit(RequestKind(r) == k))
            && (forall m :: OnlyMessage(io, m) ==> OnlyMessage(io', m))
  {
    forall k
      ensures CountRequests(io.qp.sq + [r], k) == CountRequests(io.qp.sq, k) + (if RequestKind(r) == k then 1 else 0)
    {
      CountRequestsPush(io.qp.sq, r, k);
    }
  }

  /** With every earlier advertisement acknowledged, nothing of the server's is outstanding. */
  lemma NothingOutstanding(io: Io, p: nat)
    requires p <= 3 && OnlyAdvert(p, io)
    requires Chain(io.qp, io.cq, io.thread, KSend) == 0
    ensures io.qp.sq == [] && io.qp.acked == []
    ensures forall q: nat :: q <= 3 ==> OnlyAdvert(q, io)
  {
    CountAllSends(io.qp.sq);
    CountAllSendsDone(io.qp.acked);
    CountCompletionsNone(io.cq.queue, KSend);
  }

  lemma ServerPostSends(cfg: Config, s: Server)
    requires ValidConfig(cfg) && Sends(cfg, s) && s.pc.PostAdvert? && HostQueues(true, s.io)
    ensures s.io.qp.Outstanding() == 0
    ensures ServerStep(cfg, s).Some? && Sends(cfg, ServerStep(cfg, s).value)
  {
    hide HostQueues, OnlyMessage, Encode, Be, Chain, RecvChain;
    var k: nat := s.pc.k;
    NothingOutstanding(s.io, k);
    assert OnlyAdvert(k + 1, s.io);
    PostMoves(true, s.io, Send(WrId(k), Be(4, Immediate(k))));
  }

  lemma ServerPostKeeps(cfg: Config, w: World)
    requires ValidConfig(cfg) && Inv(cfg, w) && ServerMainStep(cfg, w).Some?
    requires w.s.pc.PostAdvert?
    ensures Inv(cfg, ServerMainWorld(cfg, w))
  {
    hide Schedule, Informed, SameSizes, SameServerRegions, Partly;
    hide HostQueues, OnlyMessage, AdvertContents, PcInv, OnlyRequest, DataInv, Reads, Encode, Be, Chain, RecvChain;
    hide SendCounts, OnlyAdvert;
    var k, io := w.s.pc.k, w.s.io;
    ServerPostSends(cfg, w.s);
    PostMoves(ServerStarted(w.s.pc), io, Send(WrId(k), Be(4, Immediate(k))));
  }

  lemma ServerMainKeeps(cfg: Config, w: World)
    requires ValidConfig(cfg) && Inv(cfg, w) && ServerMainStep(cfg, w).Some?
    ensures Inv(cfg, ServerMainWorld(cfg, w))
  {
    hide Inv;
    match w.s.pc
    case Fill(_) => ServerFillKeeps(cfg, w);
    case FillSketch(_) => ServerSketchKeeps(cfg, w);
    case PostAdvert(_) => ServerPostKeeps(cfg, w);
    case CopyClass(_) => ServerCopyKeeps(cfg, w);
    case WaitSent(_) => ServerWaitKeeps(cfg, w);
    case ServerSetup => ServerSetupKeeps(cfg, w);
    case WaitRemote => ServerHasTripleKeeps(cfg, w);
    case _ => ServerStartKeeps(cfg, w);
  }

  // ------------------------------------------------------------------ client's main thread

  function ClientMainWorld(cfg: Config, w: World): World
    requires ClientMainStep(cfg, w).Some?
  {
    ClientMainStep(cfg, w).value
  }

  lemma ClientSetupKeeps(cfg: Config, w: World)
    requires ValidConfig(cfg) && Inv(cfg, w) && ClientMainStep(cfg, w).Some?
    requires w.c.pc.Setup?
    ensures Inv(cfg, ClientMainWorld(cfg, w))
  {
    hide SendCounts, OnlyAdvert, Encode, Be, MemInv;
  }

  lemma ClientResolvedKeeps(cfg: Config, w: World)
    requires ValidConfig(cfg) && Inv(cfg, w) && ClientMainStep(cfg, w).Some?
    requires w.c.pc.Resolving?
    ensures Inv(cfg, ClientMainWorld(cfg, w))
  {
    hide HostQueues, SendCounts, OnlyAdvert, AdvertContents, AdvertCounts, MemInv, Encode, Be, Chain;
    hide RecvChain, FirstMessage;
    hide Schedule, ValidConfig, SameSizes;
  }

  lemma ClientConnectKeeps(cfg: Config, w: World)
    requires ValidConfig(cfg) && Inv(cfg, w) && ClientMainStep(cfg, w).Some?
    requires w.c.pc.Connecting?
    ensures Inv(cfg, ClientMainWorld(cfg, w))
  {
    hide HostQueues, SendCounts, OnlyAdvert, AdvertContents, AdvertCounts, MemInv, Encode, Be, Chain;
    hide RecvChain, FirstMessage;
    hide Schedule, ValidConfig, SameSizes;
  }

  lemma ClientConnectedKeeps(cfg: Config, w: World)
    requires ValidConfig(cfg) && Inv(cfg, w) && ClientMainStep(cfg, w).Some?
    requires w.c.pc.WaitConnected?
    ensures Inv(cfg, ClientMainWorld(cfg, w))
  {
    hide HostQueues, SendCounts, OnlyAdvert, AdvertContents, AdvertCounts, MemInv, Encode, Be, Chain;
    hide RecvChain, FirstMessage;
    hide Schedule, ValidConfig, SameSizes;
  }

  lemma ClientStartedKeeps(cfg: Config, w: World)
    requires ValidConfig(cfg) && Inv(cfg, w) && ClientMainStep(cfg, w).Some?
    requires w.c.pc.WaitRdmaAddr?
    ensures Inv(cfg, ClientMainWorld(cfg, w))
  {
    hide HostQueues, SendCounts, OnlyAdvert, AdvertContents, AdvertCounts, MemInv, Encode, Be, Chain;
    hide RecvChain, FirstMessage;
    hide Schedule, ValidConfig, SameSizes;
  }

  lemma ClientFillKeeps(cfg: Config, w: World)
    requires ValidConfig(cfg) && Inv(cfg, w) && ClientMainStep(cfg, w).Some?
    requires w.c.pc.FillSend?
    ensures Inv(cfg, ClientMainWorld(cfg, w))
  {
    hide HostQueues, SendCounts, OnlyAdvert, AdvertContents, AdvertCounts, MemInv, Be, Chain, RecvChain;
  }

  /** At most two of the client's requests are outstanding. */
  lemma ClientOutstanding(pc: ClientPc, io: Io, p: Progress)
    requires Reads(pc, io, p) && HostQueues(true, io)
    ensures io.qp.Outstanding() <= Bit(ClientPosted(pc)) + Bit(ReadActive(pc)) + Bit(WriteActive(pc)) <= 2
    ensures io.qp.Outstanding() + |io.cq.queue|
            <= Bit(ClientPosted(pc)) + Bit(ReadActive(pc)) + Bit(WriteActive(pc)) + CountCompletions(io.cq.queue, KRecv)
  {
    CountRequestsTotal(io.qp.sq);
    CountCompletionsTotal(io.qp.acked);
    CountCompletionsTotal(io.cq.queue);
    if CountCompletions(io.qp.acked, KRecv) > 0 { RecvAmong(io.qp.acked); }
  }

  lemma {:induction false} RecvAmong(q: seq<Completion>)
    requires CountCompletions(q, KRecv) > 0
    ensures exists x :: x in q && CompletionKind(x) == KRecv
  {
    if CompletionKind(q[0]) == KRecv {
      assert q[0] in q;
    } else {
      RecvAmong(q[1..]);
      var x :| x in q[1..] && CompletionKind(x) == KRecv;
      assert x in q;
    }
  }

  lemma TriplePosted(cfg: Config, w: World)
    requires ValidConfig(cfg) && Inv(cfg, w) && w.c.pc.PostTriple?
    ensures ClientMainStep(cfg, w) == Some(w.(c := w.c.(pc := WaitRdmaAddr, io := PostSend(w.c.io, Send(0, [])))))
  {
    hide ConnInv, HostQueues, FirstMessage, SendCounts, OnlyAdvert, AdvertCounts, AdvertContents, MemInv;
    hide PcInv, OnlyRequest;
    hide DataInv, Reads, Schedule, SameSizes, Encode;
    ClientOutstanding(w.c.pc, w.c.io, w.c.progress);
  }

  lemma ClientPostTripleOperations(cfg: Config, w: World)
    requires ValidConfig(cfg) && Inv(cfg, w) && ClientMainStep(cfg, w).Some?
    requires w.c.pc.PostTriple?
    ensures Operations(cfg, ClientMainWorld(cfg, w))
  {
    hide HostQueues, OnlyMessage, First, Sends, Adverts, ConnInv, MemInv, Encode, Be, Chain, RecvChain;
    hide Schedule, SameSizes;
    TriplePosted(cfg, w);
    PostMoves(true, w.c.io, Send(0, []));
  }

  lemma ClientPostTripleKeeps(cfg: Config, w: World)
    requires ValidConfig(cfg) && Inv(cfg, w) && ClientMainStep(cfg, w).Some?
    requires w.c.pc.PostTriple?
    ensures Inv(cfg, ClientMainWorld(cfg, w))
  {
    hide HostQueues, OnlyMessage, SendCounts, OnlyAdvert, MemInv, Encode, Be, Chain, RecvChain, Operations;
    ClientPostTripleOperations(cfg, w);
    TriplePosted(cfg, w);
    PostMoves(true, w.c.io, Send(0, []));
  }

  /** Past start(), the main thread touches only what `Operations` speaks about. */
  lemma OpFrame(cfg: Config, w: World, c: Client)
    requires ValidConfig(cfg) && Inv(cfg, w)
    requires ClientPosted(w.c.pc) && ClientPosted(c.pc)
    requires c == w.c.(pc := c.pc, ops := c.ops, wr := c.wr, progress := c.progress, local := c.local)
    requires Operations(cfg, w.(c := c))
    ensures Inv(cfg, w.(c := c))
  {
    hide HostQueues, FirstMessage, SendCounts, OnlyAdvert, AdvertContents, AdvertCounts, MemInv, Operations;
  }

  predicate InOperation(pc: ClientPc) { pc.Idle? || Current(pc).Some? }

  /** With no read or write outstanding, the send queue holds at most the first message. */
  lemma NoRequest(sq: seq<WorkRequest>)
    requires CountRequests(sq, KRead) == 0 && CountRequests(sq, KWrite) == 0
    ensures forall r :: r in sq ==> r.Send?
  {
    CountRequestsNone(sq, KRead);
    CountRequestsNone(sq, KWrite);
  }

  lemma NoRequestYet(io: Io)
    requires Chain(io.qp, io.cq, io.thread, KRead) == 0 && Chain(io.qp, io.cq, io.thread, KWrite) == 0
    ensures forall r :: r in io.qp.sq ==> r.Send?
  {
    NoRequest(io.qp.sq);
  }

  lemma CallReadKeeps(cfg: Config, w: World)
    requires ValidConfig(cfg) && Operations(cfg, w) && w.c.pc.Idle? && OpStep(cfg, w.c).Some?
    requires w.c.ops[0].RdmaRead? || w.c.ops[0].ReadClass?
    ensures Operations(cfg, w.(c := OpStep(cfg, w.c).value))
  {
    hide Landed, Request, SameSizes, Chain, ValidConfig, Schedule, SomeVersionLanded;
    NoRequestYet(w.c.io);
  }

  lemma CallWriteKeeps(cfg: Config, w: World)
    requires ValidConfig(cfg) && Operations(cfg, w) && w.c.pc.Idle? && OpStep(cfg, w.c).Some?
    requires w.c.ops[0].RdmaWrite?
    ensures Operations(cfg, w.(c := OpStep(cfg, w.c).value))
  {
    hide Landed, Request, Chain, Schedule, SomeVersionLanded;
    NoRequestYet(w.c.io);
  }

  lemma CallOwReadKeeps(cfg: Config, w: World)
    requires ValidConfig(cfg) && MemInv(cfg, w.s.pc, w.s.mem)
    requires Operations(cfg, w) && w.c.pc.Idle? && OpStep(cfg, w.c).Some? && w.c.ops[0].OwRead?
    ensures Operations(cfg, w.(c := OpStep(cfg, w.c).value))
  {
    hide Landed, Request, Chain, Schedule, SomeVersionLanded, Partly, SketchBytes;
    NoRequestYet(w.c.io);
  }

  lemma CallKeeps(cfg: Config, w: World)
    requires ValidConfig(cfg) && MemInv(cfg, w.s.pc, w.s.mem)
    requires Operations(cfg, w) && w.c.pc.Idle? && OpStep(cfg, w.c).Some?
    ensures Operations(cfg, w.(c := OpStep(cfg, w.c).value))
  {
    hide Operations, MemInv, ValidConfig, Call;
    match w.c.ops[0]
    case RdmaRead => CallReadKeeps(cfg, w);
    case ReadClass(_) => CallReadKeeps(cfg, w);
    case RdmaWrite => CallWriteKeeps(cfg, w);
    case OwRead(_) => CallOwReadKeeps(cfg, w);
  }

  lemma LoopHeadKeeps(cfg: Config, w: World)
    requires ValidConfig(cfg) && Operations(cfg, w) && w.c.pc.Loop? && OpStep(cfg, w.c).Some?
    ensures Operations(cfg, w.(c := OpStep(cfg, w.c).value))
  {
    hide Landed;
    NoRequest(w.c.io.qp.sq);
  }

  lemma CountKeeps(cfg: Config, w: World)
    requires ValidConfig(cfg) && Operations(cfg, w) && w.c.pc.Count? && OpStep(cfg, w.c).Some?
    ensures Operations(cfg, w.(c := OpStep(cfg, w.c).value))
  {
    hide Landed, Request;
  }

  lemma SpinKeeps(cfg: Config, w: World)
    requires ValidConfig(cfg) && Operations(cfg, w) && w.c.pc.Spin? && OpStep(cfg, w.c).Some?
    ensures Operations(cfg, w.(c := OpStep(cfg, w.c).value))
  {
    NoRequest(w.c.io.qp.sq);
  }

  lemma WaitKeeps(cfg: Config, w: World)
    requires ValidConfig(cfg) && Operations(cfg, w) && w.c.pc.Wait? && OpStep(cfg, w.c).Some?
    ensures Operations(cfg, w.(c := OpStep(cfg, w.c).value))
  {
    hide Landed;
    NoRequest(w.c.io.qp.sq);
  }

  lemma ReturnKeeps(cfg: Config, w: World)
    requires ValidConfig(cfg) && Operations(cfg, w) && w.c.pc.Return? && OpStep(cfg, w.c).Some?
    ensures Operations(cfg, w.(c := OpStep(cfg, w.c).value))
  {
    hide Landed;
    NoRequest(w.c.io.qp.sq);
  }

  /** ibv_post_send never finds the queue full. */
  function Posted(c: Client): Client
    requires c.pc.Post?
  {
    c.(pc := if c.pc.op.RdmaWrite? then Spin(c.pc.op, c.pc.i) else Count(c.pc.op, c.pc.i),
       io := PostSend(c.io, Request(c.known, c.wr, c.pc.op, c.pc.i)))
  }

  lemma PostSucceeds(cfg: Config, c: Client)
    requires Reads(c.pc, c.io, c.progress) && HostQueues(true, c.io) && c.pc.Post?
    ensures OpStep(cfg, c) == Some(Posted(c))
  {
    hide HostQueues, Reads;
    ClientOutstanding(c.pc, c.io, c.progress);
  }

  lemma ClientPostOps(cfg: Config, w: World)
    requires ValidConfig(cfg) && Operations(cfg, w) && HostQueues(true, w.c.io) && w.c.pc.Post?
    requires !w.c.pc.op.OwRead? ==> Request(w.c.known, w.c.wr, w.c.pc.op, w.c.pc.i) == Exact(cfg, w.c.pc.op, w.c.pc.i)
    ensures Operations(cfg, w.(c := Posted(w.c)))
  {
    hide HostQueues, OnlyMessage, Chain, RecvChain, Landed, SketchPrefix, Exact, MayAddress, MayKey;
    hide SameSizes, Schedule;
    NoRequestYet(w.c.io);
    PostMoves(true, w.c.io, Request(w.c.known, w.c.wr, w.c.pc.op, w.c.pc.i));
  }

  lemma ClientPostKeeps(cfg: Config, w: World)
    requires ValidConfig(cfg) && Inv(cfg, w) && w.c.pc.Post? && ClientMainStep(cfg, w).Some?
    ensures Inv(cfg, ClientMainWorld(cfg, w))
  {
    hide OpStep, HostQueues, OnlyMessage, SendCounts, OnlyAdvert, MemInv, Encode, Be, Chain, RecvChain;
    hide Operations;
    PostedOperations(cfg, w);
    PostMoves(true, w.c.io, Request(w.c.known, w.c.wr, w.c.pc.op, w.c.pc.i));
  }

  lemma CurrentCall(cfg: Config, w: World)
    requires ValidConfig(cfg) && Inv(cfg, w) && Current(w.c.pc).Some?
    ensures w.c.known.getRdmaAddr && MayCall(w.c.known, Current(w.c.pc).value.0)
  {
    hide ConnInv, HostQueues, FirstMessage, SendCounts, OnlyAdvert, AdvertCounts, AdvertContents, MemInv, OnlyRequest;
    hide DataInv, Reads, Schedule, SameSizes, Addressed, Encode;
  }

  lemma PostedOperations(cfg: Config, w: World)
    requires ValidConfig(cfg) && Inv(cfg, w) && w.c.pc.Post?
    ensures ClientMainStep(cfg, w) == Some(w.(c := Posted(w.c))) && Operations(cfg, w.(c := Posted(w.c)))
  {
    hide OpStep, HostQueues, First, Sends, Adverts, ConnInv, MemInv, Chain, RecvChain;
    hide Reads, PcInv, OnlyRequest, DataInv, Schedule, SameSizes, Posted;
    PostSucceeds(cfg, w.c);
    CurrentCall(cfg, w);
    MayCallRequest(cfg, w, w.c.pc.op, w.c.pc.i);
    ClientPostOps(cfg, w);
  }

  lemma OpStepTouches(cfg: Config, c: Client)
    requires InOperation(c.pc) && !c.pc.Post? && OpStep(cfg, c).Some?
    ensures var c' := OpStep(cfg, c).value;
            c' == c.(pc := c'.pc, ops := c'.ops, wr := c'.wr, progress := c'.progress, local := c'.local)
            && (c'.pc.Exit? || InOperation(c'.pc))
  {
  }

  /** Element i's address, then its key, go into the work request. */
  lemma FillKeeps(cfg: Config, w: World)
    requires ValidConfig(cfg) && Operations(cfg, w) && (w.c.pc.Address? || w.c.pc.Key?) && OpStep(cfg, w.c).Some?
    requires SketchKnown(cfg, w.c.known)
    ensures Operations(cfg, w.(c := OpStep(cfg, w.c).value))
  {
    hide Landed, SketchPrefix, Chain, ValidConfig, SameSizes;
    NoRequestYet(w.c.io);
  }

  lemma OpStepKeeps(cfg: Config, w: World)
    requires ValidConfig(cfg) && MemInv(cfg, w.s.pc, w.s.mem) && SketchKnown(cfg, w.c.known)
    requires Operations(cfg, w) && InOperation(w.c.pc) && !w.c.pc.Post? && OpStep(cfg, w.c).Some?
    ensures Operations(cfg, w.(c := OpStep(cfg, w.c).value))
    ensures !OpStep(cfg, w.c).value.pc.Exit?
  {
    hide Reads, OnlyRequest, DataInv, SameSizes, MemInv, OpStep;
    match w.c.pc
    case Idle => CallKeeps(cfg, w);
    case Loop(_, _) => LoopHeadKeeps(cfg, w);
    case Address(_, _) => FillKeeps(cfg, w);
    case Key(_, _) => FillKeeps(cfg, w);
    case Count(_, _) => CountKeeps(cfg, w);
    case Spin(_, _) => SpinKeeps(cfg, w);
    case Wait(_) => WaitKeeps(cfg, w);
    case Return(_) => ReturnKeeps(cfg, w);
  }

  lemma ClientOpKeeps(cfg: Config, w: World)
    requires ValidConfig(cfg) && Inv(cfg, w) && InOperation(w.c.pc) && !w.c.pc.Post? && ClientMainStep(cfg, w).Some?
    ensures Inv(cfg, ClientMainWorld(cfg, w))
  {
    hide Operations, MemInv, OpStep, Conn, Queues, First, Sends, Adverts;
    MayCallSketch(cfg, w);
    OpStepKeeps(cfg, w);
    OpStepTouches(cfg, w.c);
    OpFrame(cfg, w, OpStep(cfg, w.c).value);
  }

  lemma ClientMainKeeps(cfg: Config, w: World)
    requires ValidConfig(cfg) && Inv(cfg, w) && ClientMainStep(cfg, w).Some?
    ensures Inv(cfg, ClientMainWorld(cfg, w))
  {
    hide Inv;
    match w.c.pc
    case Setup => ClientSetupKeeps(cfg, w);
    case PostTriple => ClientPostTripleKeeps(cfg, w);
    case Resolving => ClientResolvedKeeps(cfg, w);
    case Connecting => ClientConnectKeeps(cfg, w);
    case WaitConnected => ClientConnectedKeeps(cfg, w);
    case FillSend => ClientFillKeeps(cfg, w);
    case WaitRdmaAddr => ClientStartedKeeps(cfg, w);
    case Exit =>
    case Post(_, _) => ClientPostKeeps(cfg, w);
    case _ => ClientOpKeeps(cfg, w);
  }

  // -------------------------------------------------------------------------- all steps

  /** The invariant is inductive. */
  lemma StepKeeps(cfg: Config, w: World, a: Agent)
    requires ValidConfig(cfg) && Inv(cfg, w) && Next(cfg, w, a).Some?
    ensures Inv(cfg, Next(cfg, w, a).value)
  {
    hide Inv;
    match a
    case ClientMain => ClientMainKeeps(cfg, w);
    case ClientCq => ClientCqKeeps(cfg, w);
    case ClientSend => ClientSendKeeps(cfg, w);
    case ClientAck => ClientAckKeeps(cfg, w);
    case ServerMain => ServerMainKeeps(cfg, w);
    case ServerCq => ServerCqKeeps(cfg, w);
    case ServerSend => ServerSendKeeps(cfg, w);
    case ServerAck => ServerAckKeeps(cfg, w);
    case _ => CmKeeps(cfg, w, a);
  }

  /** So it holds in every state of every run. */
  lemma {:induction false} RunKeeps(cfg: Config, agents: seq<Agent>)
    requires ValidConfig(cfg) && Run(cfg, agents).Some?
    ensures Inv(cfg, Run(cfg, agents).value)
  {
    hide Inv, Next, Init;
    if agents == [] {
      InitInv(cfg);
    } else {
      var front := agents[..|agents| - 1];
      RunKeeps(cfg, front);
      StepKeeps(cfg, Run(cfg, front).value, agents[|agents| - 1]);
    }
  }
}
