/** The inductive invariant of the rendezvous, in groups: connection, queues, the client's
    one message, the server's three, server memory, and the client's operations. Each group
    is a predicate of just the fields it speaks about. */
module Invariants {
  import opened Bytes
  import opened Verbs
  import opened ClassTransfer
  import opened Rendezvous

  function Bit(b: bool): nat { if b then 1 else 0 }

  // ------------------------------------------------------------------------- connection

  predicate ClientStarted(pc: ClientPc) { !pc.Resolving? && !pc.Setup? }

  /** The client has called rdma_connect. */
  predicate ClientConnecting(pc: ClientPc) { ClientStarted(pc) && !pc.Connecting? && !pc.Exit? }

  predicate ServerStarted(pc: ServerPc) { !pc.Listening? && !pc.ServerSetup? }

  /** The server has called rdma_accept. */
  predicate ServerAccepted(pc: ServerPc) { ServerStarted(pc) && !pc.Accepting? && !pc.ServerExit? }

  /** The server between rdma_connect and the client's notification. */
  ghost predicate RequestInv(ss: ServerState, sev: seq<CmEvent>, spc: ServerPc, work: CmWork) {
    || (ss == SERVER_INIT && spc == Listening && sev == [] && work == ConnectReq)
    || (ss == SERVER_INIT && spc == Listening && sev == [EvConnectRequest] && work == NoWork)
    || (ss == REQUEST_GET && (spc == Listening || spc == ServerSetup || spc == Accepting)
        && sev == [] && work == NoWork)
    || (ss == REQUEST_GET && spc == WaitState && sev == [] && work == AcceptReq)
  }

  /** The server once the client has been told. */
  ghost predicate AcceptedInv(ss: ServerState, sev: seq<CmEvent>, spc: ServerPc, work: CmWork) {
    || (ss == REQUEST_GET && spc == WaitState && sev == [] && work == ReadyToUse)
    || (ss == REQUEST_GET && spc == WaitState && sev == [EvEstablished] && work == NoWork)
    || (ss == SERVER_CONNECTED && ServerAccepted(spc) && sev == [] && work == NoWork)
  }

  /** One disjunct for each stretch of the connection's establishment. */
  ghost predicate ConnInv(cs: ClientState, cev: seq<CmEvent>, cpc: ClientPc,
                          ss: ServerState, sev: seq<CmEvent>, spc: ServerPc, work: CmWork)
  {
    || (cs == INIT && cpc == Resolving && ss == SERVER_INIT && spc == Listening && sev == []
        && ((work == ResolveAddr && cev == []) || (work == NoWork && cev == [EvAddrResolved])))
    || (cs == ADDR_RESOLVED && cpc == Resolving && ss == SERVER_INIT && spc == Listening && sev == []
        && ((work == ResolveRoute && cev == []) || (work == NoWork && cev == [EvRouteResolved])))
    || (cs == ROUTE_RESOLVED && (cpc == Resolving || cpc == Setup || cpc == Connecting) && cev == []
        && ss == SERVER_INIT && spc == Listening && sev == [] && work == NoWork)
    || (cs == ROUTE_RESOLVED && cpc == WaitConnected && cev == [] && RequestInv(ss, sev, spc, work))
    || (((cs == ROUTE_RESOLVED && cpc == WaitConnected && cev == [EvEstablished])
         || (cs == CONNECTED && ClientConnecting(cpc) && cev == []))
        && AcceptedInv(ss, sev, spc, work))
  }

  ghost predicate Conn(w: World) {
    ConnInv(w.c.state, w.c.cmEvents, w.c.pc, w.s.state, w.s.cmEvents, w.s.pc, w.work)
  }

  // ----------------------------------------------------------------------------- queues

  ghost predicate HostQueues(started: bool, io: Io) {
    && CqInv(io.cq, io.thread)
    && (io.thread.NotStarted? <==> !started)
    && (!started ==> io.qp == NO_QP)
    && (forall x :: x in io.qp.acked ==> CompletionKind(x) != KRecv)
  }

  predicate InfoSized(a: seq<Byte>, b: seq<Byte>) { |a| == INFO_SIZE && |b| == INFO_SIZE }

  /** Received messages not yet handled. */
  function RecvChain(io: Io): nat {
    CountCompletions(io.cq.queue, KRecv) + Bit(io.thread.Handle? && io.thread.wc.RecvDone?)
  }

  /** Every received message queued or at the handler's start is `m`. */
  ghost predicate OnlyMessage(io: Io, m: Completion) {
    && (forall x :: x in io.cq.queue && x.RecvDone? ==> x == m)
    && (io.thread.Handle? && io.thread.wc.RecvDone? ==> io.thread.wc == m)
  }

  // ------------------------------------------------------------------ client to server

  /** The client has posted its own triple. */
  predicate ClientPosted(pc: ClientPc) {
    ClientConnecting(pc) && !pc.WaitConnected? && !pc.FillSend? && !pc.PostTriple?
  }

  predicate PastWaitRemote(pc: ServerPc) { ServerAccepted(pc) && !pc.WaitState? && !pc.WaitRemote? }

  /** The server's view of the client's message, from posted receive to flag. */
  ghost predicate FirstMessage(t: Triple, posted: bool, sq: seq<WorkRequest>, sendBuf: seq<Byte>,
                               started: bool, past: bool, io: Io, peer: Peer, recvBuf: seq<Byte>)
  {
    var arrived := RecvChain(io);
    var taken := Bit(io.thread.Stored?) + Bit(peer.getRemoteAddr);
    && CountRequests(sq, KSend) + arrived + taken == Bit(posted)
    && io.qp.recvs + arrived + taken == Bit(started)
    && (posted ==> sendBuf == Encode(t))
    && (forall r :: r in sq && r.Send? ==> r == Send(0, []))
    && (arrived > 0 ==> recvBuf == Encode(t) && OnlyMessage(io, RecvDone(INFO_SIZE, [])))
    && (taken > 0 ==> peer.remote == t)
    && (past ==> peer.getRemoteAddr)
  }

  ghost predicate First(cfg: Config, w: World) {
    && (w.c.pc.PostTriple? ==> w.c.sendBuf == Encode(cfg.clientStart))
    && FirstMessage(cfg.clientStart, ClientPosted(w.c.pc), w.c.io.qp.sq, w.c.sendBuf,
                    ServerStarted(w.s.pc), PastWaitRemote(w.s.pc), w.s.io, w.s.peer, w.s.recvBuf)
  }

  // ------------------------------------------------------------------ server to client

  /** How many advertisements the server has posted. */
  function AdvertsPosted(pc: ServerPc): (n: nat)
    ensures n <= 3
  {
    match pc
    case Fill(k) => k
    case PostAdvert(k) => k
    case WaitSent(k) => k + 1
    case CopyClass(_) => 2
    case FillSketch(_) => 2
    case Done => 3
    case _ => 0
  }

  function FlagsSent(sent: Sent): nat { Bit(sent.rdma) + Bit(sent.cls) + Bit(sent.sketch) }
  function FlagsGot(known: Known): nat { Bit(known.getRdmaAddr) + Bit(known.getClassAddr) + Bit(known.getSketchAddr) }

  function Last(p: nat): Index requires 1 <= p <= 3 { p - 1 }

  /** The advertisement send_buf must hold at this point of the server's main thread. */
  function InBuffer(pc: ServerPc): Option<Index> {
    match pc
    case PostAdvert(k) => Some(k)
    case WaitSent(k) => Some(k)
    case CopyClass(_) => Some(1)
    case FillSketch(_) => Some(2)
    case Done => Some(2)
    case _ => None
  }

  /** Nothing the server posted is still on its way to its flag. */
  predicate AllSent(pc: ServerPc) { pc.Fill? || pc.PostAdvert? || pc.FillSketch? || pc.Done? }

  /** Every request and send completion of the server is that of its latest advertisement. */
  ghost predicate OnlyAdvert(p: nat, io: Io)
    requires p <= 3
  {
    && (forall r :: r in io.qp.sq ==> 1 <= p && r == Send(WrId(Last(p)), Be(4, Immediate(Last(p)))))
    && (forall x :: x in io.qp.acked ==> 1 <= p && x == SendDone(WrId(Last(p))))
    && (forall x :: x in io.cq.queue && x.SendDone? ==> 1 <= p && x == SendDone(WrId(Last(p))))
    && (io.thread.Handle? && io.thread.wc.SendDone? ==> 1 <= p && io.thread.wc == SendDone(WrId(Last(p))))
  }

  ghost predicate SendCounts(p: nat, allSent: bool, io: Io, sent: Sent) {
    && Chain(io.qp, io.cq, io.thread, KSend) + FlagsSent(sent) == p
    && Chain(io.qp, io.cq, io.thread, KSend) <= 1
    && Chain(io.qp, io.cq, io.thread, KRead) == 0 && Chain(io.qp, io.cq, io.thread, KWrite) == 0
    && (sent.sketch ==> sent.cls) && (sent.cls ==> sent.rdma)
    && (allSent ==> FlagsSent(sent) == p)
    && !io.thread.Repost? && !io.thread.Decrement? && !io.thread.AddressStored?
  }

  ghost predicate Sends(cfg: Config, s: Server)
    requires ValidConfig(cfg)
  {
    && SendCounts(AdvertsPosted(s.pc), AllSent(s.pc), s.io, s.sent)
    && OnlyAdvert(AdvertsPosted(s.pc), s.io)
    && (InBuffer(s.pc).Some? ==> s.sendBuf == Encode(Advert(cfg, InBuffer(s.pc).value)))
  }

  function StoredTriple(known: Known, k: Index): Triple {
    if k == 0 then known.remote else if k == 1 then known.classInfo else known.sketchInfo
  }

  /** A triple is being stored, or stored without its flag. */
  predicate InHandler(pc: CqPc) { pc.AddressStored? || pc.Stored? }

  /** The client's view of the advertisements: `p` posted by the server, of which those in
      `sq` have not been delivered. */
  ghost predicate AdvertCounts(p: nat, sq: seq<WorkRequest>, started: bool, io: Io, known: Known) {
    && p == CountRequests(sq, KSend) + RecvChain(io) + Bit(InHandler(io.thread)) + FlagsGot(known)
    && io.qp.recvs + RecvChain(io) + Bit(InHandler(io.thread)) + Bit(io.thread.Repost?) == Bit(started)
    && (known.getSketchAddr ==> known.getClassAddr) && (known.getClassAddr ==> known.getRdmaAddr)
  }

  /** How much of the sketch's triple the client has stored: nothing, the address, everything. */
  function Stage(io: Io, known: Known): nat {
    if FlagsGot(known) == 3 then 2
    else if FlagsGot(known) < 2 then 0
    else if io.thread.Stored? then 2
    else if io.thread.AddressStored? then 1
    else 0
  }

  /** sketch_info's remote fields, from what they held before and what was stored since. */
  ghost predicate SketchInfo(cfg: Config, stage: nat, t: Triple)
    requires ValidConfig(cfg)
  {
    t == if stage == 0 then cfg.unset
         else if stage == 1 then cfg.unset.(addr := cfg.mem.sketch.base)
         else Advert(cfg, 2)
  }

  ghost predicate AdvertContents(cfg: Config, io: Io, known: Known, recvBuf: seq<Byte>)
    requires ValidConfig(cfg)
  {
    var g := FlagsGot(known);
    && (RecvChain(io) > 0 ==> g < 3 && recvBuf == Encode(Advert(cfg, g))
                              && OnlyMessage(io, RecvDone(INFO_SIZE, Be(4, Immediate(g)))))
    && (io.thread.AddressStored? ==>
          && g < 3 && io.thread.imm == Be(4, Immediate(g)) && recvBuf == Encode(Advert(cfg, g))
          && StoredTriple(known, g).addr == Advert(cfg, g).addr)
    && (io.thread.Stored? ==> g < 3 && io.thread.imm == Be(4, Immediate(g)) && StoredTriple(known, g) == Advert(cfg, g))
    && (forall k: Index :: k < g ==> StoredTriple(known, k) == Advert(cfg, k))
    && SketchInfo(cfg, Stage(io, known), known.sketchInfo)
  }

  ghost predicate Adverts(cfg: Config, w: World)
    requires ValidConfig(cfg)
  {
    && AdvertCounts(AdvertsPosted(w.s.pc), w.s.io.qp.sq, ClientStarted(w.c.pc), w.c.io, w.c.known)
    && AdvertContents(cfg, w.c.io, w.c.known, w.c.recvBuf)
  }

  // ----------------------------------------------------------------------- server memory

  predicate SameRegion(r: Region, r0: Region) {
    r.base == r0.base && r.rkey == r0.rkey && |r.bytes| == |r0.bytes|
  }

  predicate ClassCopied(pc: ServerPc) {
    (pc.WaitSent? && pc.k >= 1) || (pc.Fill? && pc.k == 2) || (pc.PostAdvert? && pc.k == 2)
    || pc.FillSketch? || pc.Done?
  }

  /** How many words of the class the server has copied. */
  function CopyPosition(cfg: Config, pc: ServerPc): nat {
    if pc.CopyClass? then pc.j else if ClassCopied(pc) then CopiedWords(cfg.obj) else 0
  }

  predicate SketchFilled(pc: ServerPc) {
    (pc.WaitSent? && pc.k == 2) || (pc.PostAdvert? && pc.k == 2) || pc.Done?
  }

  /** How many elements of the sketch the server has filled. */
  function SketchPosition(cfg: Config, pc: ServerPc): nat {
    if pc.FillSketch? then pc.j else if SketchFilled(pc) then cfg.n else 0
  }

  /** The regions' places, keys and sizes never change. */
  ghost predicate SameServerRegions(m: ServerMemory, m0: ServerMemory) {
    SameRegion(m.start, m0.start) && SameRegion(m.cls, m0.cls) && SameRegion(m.sketch, m0.sketch)
  }

  ghost predicate MemInv(cfg: Config, pc: ServerPc, mem: ServerMemory)
    requires ValidConfig(cfg)
  {
    && !pc.ServerExit?
    && SameServerRegions(mem, cfg.mem)
    && CopyPosition(cfg, pc) <= CopiedWords(cfg.obj)
    && mem.cls.bytes == Partly(cfg.obj, cfg.mem.cls.bytes, CopyPosition(cfg, pc))
    && SketchPosition(cfg, pc) <= cfg.n
    && mem.sketch.bytes[..4 * SketchPosition(cfg, pc)] == SketchBytes(SketchPosition(cfg, pc))
    && mem.sketch.bytes[4 * SketchPosition(cfg, pc)..] == cfg.mem.sketch.bytes[4 * SketchPosition(cfg, pc)..]
  }

  // ------------------------------------------------------------------- client operations

  /** A read of the current operation may be outstanding. */
  predicate ReadActive(pc: ClientPc) {
    pc.Count? || (pc.Spin? && pc.op.OwRead?) || (pc.Wait? && !pc.op.OwRead?)
  }

  /** Between clearing the flag and posting an element's read. */
  predicate Filling(pc: ClientPc) { pc.Address? || pc.Key? || (pc.Post? && pc.op.OwRead?) }

  /** A completed read may still be uncounted by the CQ thread. */
  predicate DecrementActive(pc: ClientPc) {
    ReadActive(pc) || pc.Loop? || Filling(pc) || pc.Wait?
  }

  predicate WriteActive(pc: ClientPc) { pc.Spin? && pc.op.RdmaWrite? }

  /** Reads (writes) on their way to their flag, and the flags and counter they drive. */
  ghost predicate Reads(pc: ClientPc, io: Io, p: Progress) {
    var u, v := Chain(io.qp, io.cq, io.thread, KRead), Chain(io.qp, io.cq, io.thread, KWrite);
    && p.pendingReads + Bit(pc.Count?) == u + Bit(io.thread.Decrement?)
    && u <= Bit(ReadActive(pc))
    && Bit(io.thread.Decrement?) <= Bit(DecrementActive(pc))
    && (Filling(pc) || (pc.Post? && !pc.op.RdmaWrite?) ==> !p.readComplete)
    && (ReadActive(pc) ==> (p.readComplete <==> u == 0))
    && v <= Bit(WriteActive(pc))
    && (pc.Post? && pc.op.RdmaWrite? ==> !p.writeComplete)
    && (WriteActive(pc) ==> (p.writeComplete <==> v == 0))
    && Chain(io.qp, io.cq, io.thread, KSend) <= Bit(ClientPosted(pc))
  }

  /** The operation and element the main thread is working on. */
  function Current(pc: ClientPc): Option<(Op, nat)> {
    match pc
    case Loop(op, i) => Some((op, i))
    case Address(op, i) => Some((op, i))
    case Key(op, i) => Some((op, i))
    case Post(op, i) => Some((op, i))
    case Count(op, i) => Some((op, i))
    case Spin(op, i) => Some((op, i))
    case Wait(op) => Some((op, 0))
    case Return(op) => Some((op, 0))
    case _ => None
  }

  /** The buffers keep their sizes, and the data buffer what no class read covers. */
  ghost predicate SameSizes(l: LocalMemory, l0: LocalMemory) {
    && |l.rdma| == |l0.rdma| && |l.classData| == |l0.classData| && |l.classBuf| == |l0.classBuf|
    && |l.sketch| == |l0.sketch|
    && (|l0.classBuf| >= 4 * RECV_WORDS ==> l.classBuf[4 * RECV_WORDS..] == l0.classBuf[4 * RECV_WORDS..])
  }

  // ------------------------------------------------------------- who waited for the sketch

  predicate WaitsForSketch(op: Op) { (op.ReadClass? || op.OwRead?) && op.waitSketch }

  /** One of the first `p` operations waits for the sketch's address. */
  ghost predicate Delayed(ops: seq<Op>, p: nat) {
    exists j :: 0 <= j < p && j < |ops| && WaitsForSketch(ops[j])
  }

  /** How many operations have returned when `rest` are left. */
  function Returned(all: seq<Op>, rest: seq<Op>): nat { if |rest| <= |all| then |all| - |rest| else 0 }

  /** The current operation, or one before it, waited for the sketch's address. */
  ghost predicate Informed(cfg: Config, pc: ClientPc, rest: seq<Op>) {
    Current(pc).Some? && (WaitsForSketch(Current(pc).value.0) || Delayed(cfg.ops, Returned(cfg.ops, rest)))
  }

  /** The operations left are the end of the program, and who waited was told. */
  ghost predicate Schedule(cfg: Config, rest: seq<Op>, known: Known) {
    && |rest| <= |cfg.ops| && rest == cfg.ops[Returned(cfg.ops, rest)..]
    && (Delayed(cfg.ops, Returned(cfg.ops, rest)) ==> known.getSketchAddr)
  }

  /** The main thread is at a place its source code has. */
  predicate PcInv(n: nat, pc: ClientPc, ops: seq<Op>, known: Known) {
    && !pc.Exit?
    && (pc.Idle? || Current(pc).Some? ==> known.getRdmaAddr)
    && (Current(pc).Some? ==>
          var (op, i) := Current(pc).value;
          && ops != [] && ops[0] == op && MayCall(known, op)
          && (if !op.OwRead? then i == 0 else i <= n && (Filling(pc) || pc.Count? || pc.Spin? ==> i < n)))
    && (pc.Loop? || pc.Address? || pc.Key? ==> pc.op.OwRead?)
    && (pc.Count? || pc.Wait? ==> !pc.op.RdmaWrite?)
    && (pc.Spin? ==> pc.op.OwRead? || pc.op.RdmaWrite?)
  }

  /** What the client knows when it knows everything. */
  ghost function Advertised(cfg: Config): Known
    requires ValidConfig(cfg)
  {
    Known(true, true, true, Advert(cfg, 0), Advert(cfg, 1), Advert(cfg, 2))
  }

  /** What ow_read may take for element i's address and for the key: the sketch's, or, in an
      ow_read that was not informed, what its fields held before. */
  predicate MayAddress(cfg: Config, informed: bool, addr: int, i: nat) {
    addr == ElementAddress(cfg.mem.sketch.base, i) || (!informed && addr == ElementAddress(cfg.unset.addr, i))
  }

  predicate MayKey(cfg: Config, informed: bool, rkey: U32) {
    rkey == cfg.mem.sketch.rkey || (!informed && rkey == cfg.unset.rkey)
  }

  /** ow_read's work request is filled as far as the main thread has come. */
  predicate Addressed(cfg: Config, informed: bool, pc: ClientPc, wr: Target) {
    && (pc.Key? || (pc.Post? && pc.op.OwRead?) ==> MayAddress(cfg, informed, wr.addr, pc.i))
    && (pc.Post? && pc.op.OwRead? ==> MayKey(cfg, informed, wr.rkey))
  }

  /** Request i of operation `op`, built from what the server advertised. */
  ghost function Exact(cfg: Config, op: Op, i: nat): WorkRequest
    requires ValidConfig(cfg)
  {
    Request(Advertised(cfg), Target(ElementAddress(cfg.mem.sketch.base, i), cfg.mem.sketch.rkey), op, i)
  }

  /** `r` is request i of operation `op`. */
  ghost predicate MayPost(cfg: Config, informed: bool, op: Op, i: nat, r: WorkRequest)
    requires ValidConfig(cfg)
  {
    if op.OwRead? then
      && r.Read? && MayAddress(cfg, informed, r.raddr, i) && MayKey(cfg, informed, r.rkey)
      && r.scatter == [Sge(SketchBuf, 4 * i, 4)]
    else r == Exact(cfg, op, i)
  }

  /** Reads and writes in the send queue are the current operation's. */
  ghost predicate OnlyRequest(cfg: Config, informed: bool, pc: ClientPc, sq: seq<WorkRequest>)
    requires ValidConfig(cfg)
  {
    forall r :: r in sq && !r.Send? ==>
      Current(pc).Some? && MayPost(cfg, informed, Current(pc).value.0, Current(pc).value.1, r)
  }

  ghost predicate StartMatches(l: LocalMemory, m: ServerMemory) {
    |m.start.bytes| <= |l.rdma| && l.rdma[..|m.start.bytes|] == m.start.bytes
  }

  ghost predicate SketchPrefix(i: nat, l: LocalMemory, m: ServerMemory) {
    4 * i <= |l.sketch| == |m.sketch.bytes| && l.sketch[..4 * i] == m.sketch.bytes[..4 * i]
  }

  /** The class read has landed in both receive buffers. */
  ghost predicate ClassLanded(l: LocalMemory, remote: seq<Byte>) {
    && |remote| >= HEADER_SIZE + 4 * RECV_WORDS
    && |l.classData| >= HEADER_SIZE && |l.classBuf| >= 4 * RECV_WORDS
    && l.classData[..HEADER_SIZE] == remote[..HEADER_SIZE]
    && l.classBuf[..4 * RECV_WORDS] == remote[HEADER_SIZE..HEADER_SIZE + 4 * RECV_WORDS]
  }

  /** The read brought class_send_buf as it was after some number of words copied. */
  ghost predicate SomeVersionLanded(cfg: Config, l: LocalMemory)
    requires ValidConfig(cfg)
  {
    exists j :: 0 <= j <= CopiedWords(cfg.obj) && ClassLanded(l, Partly(cfg.obj, cfg.mem.cls.bytes, j))
  }

  /** Request `i` of operation `op`, and those before it, have been executed. */
  ghost predicate Landed(cfg: Config, informed: bool, op: Op, i: nat, l: LocalMemory, m: ServerMemory)
    requires ValidConfig(cfg)
  {
    match op
    case RdmaRead => StartMatches(l, m)
    case RdmaWrite => StartMatches(l, m)
    case ReadClass(_) => if informed then ClassLanded(l, m.cls.bytes) else SomeVersionLanded(cfg, l)
    case OwRead(_) => informed ==> SketchPrefix(i + 1, l, m)
  }

  /** rdma_write's strcpy has been done. */
  ghost predicate MessageIn(cfg: Config, l: LocalMemory) {
    |cfg.message| <= |l.rdma| && l.rdma[..|cfg.message|] == cfg.message
  }

  /** The sketch elements read before element `i`, if the operation was informed. */
  ghost predicate Before(informed: bool, op: Op, i: nat, l: LocalMemory, m: ServerMemory) {
    op.OwRead? && informed ==> SketchPrefix(i, l, m)
  }

  /** What has arrived, at each point of each operation. */
  ghost predicate DataInv(cfg: Config, informed: bool, pc: ClientPc, sq: seq<WorkRequest>,
                          l: LocalMemory, m: ServerMemory)
    requires ValidConfig(cfg)
  {
    var executed := CountRequests(sq, KRead) == 0 && CountRequests(sq, KWrite) == 0;
    match pc
    case Loop(op, i) => Before(informed, op, i, l, m)
    case Address(op, i) => Before(informed, op, i, l, m)
    case Key(op, i) => Before(informed, op, i, l, m)
    case Post(op, i) => Before(informed, op, i, l, m) && (op.RdmaWrite? ==> MessageIn(cfg, l))
    case Count(op, i) => Before(informed, op, i, l, m) && (executed ==> Landed(cfg, informed, op, i, l, m))
    case Spin(op, i) =>
      && Before(informed, op, i, l, m) && (op.RdmaWrite? ==> MessageIn(cfg, l))
      && (executed ==> Landed(cfg, informed, op, i, l, m))
    case Wait(op) =>
      if op.OwRead? then Before(informed, op, cfg.n, l, m) else executed ==> Landed(cfg, informed, op, 0, l, m)
    case Return(op) =>
      && (op.RdmaWrite? ==> MessageIn(cfg, l))
      && (if op.OwRead? then Before(informed, op, cfg.n, l, m) else Landed(cfg, informed, op, 0, l, m))
    case _ => true
  }

  ghost predicate Queues(w: World) {
    && HostQueues(ClientStarted(w.c.pc), w.c.io)
    && HostQueues(ServerStarted(w.s.pc), w.s.io)
    && InfoSized(w.c.sendBuf, w.c.recvBuf) && InfoSized(w.s.sendBuf, w.s.recvBuf)
  }

  ghost predicate Operations(cfg: Config, w: World)
    requires ValidConfig(cfg)
  {
    && Reads(w.c.pc, w.c.io, w.c.progress)
    && SameSizes(w.c.local, cfg.local)
    && PcInv(cfg.n, w.c.pc, w.c.ops, w.c.known)
    && Schedule(cfg, w.c.ops, w.c.known)
    && Addressed(cfg, Informed(cfg, w.c.pc, w.c.ops), w.c.pc, w.c.wr)
    && OnlyRequest(cfg, Informed(cfg, w.c.pc, w.c.ops), w.c.pc, w.c.io.qp.sq)
    && DataInv(cfg, Informed(cfg, w.c.pc, w.c.ops), w.c.pc, w.c.io.qp.sq, w.c.local, w.s.mem)
  }

  ghost predicate Inv(cfg: Config, w: World)
    requires ValidConfig(cfg)
  {
    && Conn(w)
    && Queues(w)
    && First(cfg, w)
    && Sends(cfg, w.s)
    && Adverts(cfg, w)
    && MemInv(cfg, w.s.pc, w.s.mem)
    && Operations(cfg, w)
  }

  lemma InitInv(cfg: Config)
    requires ValidConfig(cfg)
    ensures Inv(cfg, Init(cfg))
  {
    InitExchange(cfg);
    InitOperations(cfg);
  }

  lemma InitExchange(cfg: Config)
    requires ValidConfig(cfg)
    ensures var w := Init(cfg);
            First(cfg, w) && Sends(cfg, w.s) && Adverts(cfg, w) && Queues(w)
  {
    hide Encode, Be, AdvertOf, ValidConfig, Init, InitClient, InitServer;
    InitFields(cfg);
    assert RecvChain(NO_IO) == 0;
  }

  /** What Init amounts to, field by field. */
  lemma InitFields(cfg: Config)
    ensures var w := Init(cfg);
            && w.c.pc == Resolving && w.s.pc == Listening && w.c.io == NO_IO && w.s.io == NO_IO
            && FlagsGot(w.c.known) == 0 && FlagsSent(w.s.sent) == 0 && !w.s.peer.getRemoteAddr
            && InfoSized(w.c.sendBuf, w.c.recvBuf) && InfoSized(w.s.sendBuf, w.s.recvBuf)
            && w.c.known.sketchInfo == cfg.unset
  {
    hide Be;
  }

  lemma InitOperations(cfg: Config)
    requires ValidConfig(cfg)
    ensures var w := Init(cfg);
            Conn(w) && MemInv(cfg, w.s.pc, w.s.mem) && Operations(cfg, w)
  {
    hide Be, MemInv, ValidConfig, Operations;
    InitMemory(cfg);
    InitProgress(cfg);
  }

  lemma InitProgress(cfg: Config)
    requires ValidConfig(cfg)
    ensures Operations(cfg, Init(cfg))
  {
    hide Be, ValidConfig, Operations;
    NothingHappened(cfg, Init(cfg));
  }

  /** Before start() there is nothing to say about operations. */
  lemma NothingHappened(cfg: Config, w: World)
    requires ValidConfig(cfg) && w.c.pc == Resolving && w.c.io == NO_IO && w.c.ops == cfg.ops && w.c.local == cfg.local
    requires w.c.progress == Progress(false, false, 0)
    ensures Operations(cfg, w)
  {
    hide Be, FromBe, Le, FromLe, Pow256, ValidConfig, Reads, SameSizes, Schedule, DataInv, Addressed, OnlyRequest;
    hide Informed, PcInv, Delayed, MayPost, Request, Chain, SketchBytes, Serialized, Partly, CountRequests;
    NothingBegun(cfg.n, cfg.ops, w.c.known);
    NothingReads(w.c.pc, w.c.io, w.c.progress);
    NothingReturned(cfg, w.c.known);
    NothingMoved(cfg.local);
    NothingLanded(cfg, Informed(cfg, w.c.pc, w.c.ops), w.c.pc, w.c.wr, w.c.local, w.s.mem);
  }

  lemma NothingReads(pc: ClientPc, io: Io, p: Progress)
    requires pc == Resolving && io == NO_IO && p == Progress(false, false, 0)
    ensures Reads(pc, io, p)
  {
    hide Chain;
    NothingInit();
  }

  lemma NothingBegun(n: nat, ops: seq<Op>, known: Known)
    ensures PcInv(n, Resolving, ops, known)
  {
  }

  lemma NothingReturned(cfg: Config, known: Known)
    ensures Schedule(cfg, cfg.ops, known)
  {
  }

  lemma NothingMoved(l: LocalMemory)
    ensures SameSizes(l, l)
  {
  }

  lemma NothingLanded(cfg: Config, informed: bool, pc: ClientPc, wr: Target, l: LocalMemory, m: ServerMemory)
    requires ValidConfig(cfg) && pc == Resolving
    ensures DataInv(cfg, informed, pc, [], l, m)
    ensures Addressed(cfg, informed, pc, wr) && OnlyRequest(cfg, informed, pc, [])
  {
    hide ValidConfig, Landed, Before, MayPost;
  }

  lemma NothingInit()
    ensures forall k :: Chain(NO_QP, NO_CQ, NotStarted, k) == 0
  {
  }

  lemma InitMemory(cfg: Config)
    requires ValidConfig(cfg)
    ensures MemInv(cfg, Listening, cfg.mem)
  {
    hide Serialized;
    CopyAdvances(cfg.obj, cfg.mem.cls.bytes, 0);
  }
}
