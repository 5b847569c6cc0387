/** The client and the server as one transition system: two hosts with three threads each,
    their adapters, and the connection manager between them. Every thread is deterministic,
    so a step is named by the agent that takes it. */
module Rendezvous {
  import opened Bytes
  import opened Verbs
  import opened ClassTransfer

  // --------------------------------------------------------------------- the wire format

  /** An advertised buffer: struct rdma_info in host order. */
  datatype Triple = Triple(addr: U64, len: U32, rkey: U32)

  const INFO_SIZE: nat := 16            // sizeof(struct rdma_info)

  /** The 16 bytes of a rdma_info holding `t`: htobe64 of buf, htobe32 of rkey and size. */
  function Encode(t: Triple): (b: seq<Byte>)
    ensures |b| == INFO_SIZE
  {
    Be(8, t.addr) + Be(4, t.rkey) + Be(4, t.len)
  }

  /** be64toh and be32toh of the three fields. */
  function Decode(b: seq<Byte>): Triple
    requires |b| == INFO_SIZE
  {
    BeInverse(b[..8]); BeInverse(b[8..12]); BeInverse(b[12..]);
    WordWidths();
    Triple(FromBe(b[..8]), FromBe(b[12..]), FromBe(b[8..12]))
  }

  /** Each of the two conversions undoes the other, on every triple and every 16 bytes. */
  lemma WireRoundTrip(t: Triple, b: seq<Byte>)
    requires |b| == INFO_SIZE
    ensures Decode(Encode(t)) == t
    ensures Encode(Decode(b)) == b
  {
    WordWidths();
    BeRoundTrip(8, t.addr); BeRoundTrip(4, t.rkey); BeRoundTrip(4, t.len);
    var e := Encode(t);
    assert e[..8] == Be(8, t.addr) && e[8..12] == Be(4, t.rkey) && e[12..] == Be(4, t.len);
    BeInverse(b[..8]); BeInverse(b[8..12]); BeInverse(b[12..]);
    assert b == b[..8] + b[8..12] + b[12..];
  }

  /** struct rdma_info byte by byte: eight of the address, four of the key, four of the size, each
      most significant first. */
  lemma WireLayout(t: Triple)
    ensures forall i :: 0 <= i < 8 ==> Encode(t)[i] == t.addr / Pow256(7 - i) % 256
    ensures forall i :: 8 <= i < 12 ==> Encode(t)[i] == t.rkey / Pow256(11 - i) % 256
    ensures forall i :: 12 <= i < 16 ==> Encode(t)[i] == t.len / Pow256(15 - i) % 256
  {
    hide Be, Pow256;
    forall i | 0 <= i < 8 ensures Encode(t)[i] == t.addr / Pow256(7 - i) % 256 { BeByte(8, t.addr, i); }
    forall i | 8 <= i < 12 ensures Encode(t)[i] == t.rkey / Pow256(11 - i) % 256 { BeByte(4, t.rkey, i - 8); }
    forall i | 12 <= i < 16 ensures Encode(t)[i] == t.len / Pow256(15 - i) % 256 { BeByte(4, t.len, i - 12); }
  }

  const RDMA_IMM: U32 := 1122
  const CLASS_IMM: U32 := 1123
  const SKETCH_IMM: U32 := 1124

  // ------------------------------------------------------------------------ configuration

  /** What the client's main program calls after start(). `ReadClass(false)` waits for
      GET_CLASS_ADDR and `OwRead(false)` for nothing, as main does; `ReadClass(true)` and
      `OwRead(true)` wait for GET_SKETCH_ADDR first. */
  datatype Op = RdmaRead | RdmaWrite | ReadClass(waitSketch: bool) | OwRead(waitSketch: bool)

  /** `n` is data_size; `message` the string rdma_write copies, with its terminator; `unset`
      what sketch_info's remote fields hold before the third advertisement is stored; `mem` and
      `local` the registered memories at start-up. */
  datatype Config = Config(n: nat, obj: RdmaTestValue, message: seq<Byte>, clientStart: Triple, unset: Triple,
                           mem: ServerMemory, local: LocalMemory, ops: seq<Op>)

  predicate Addressable(r: Region) { r.base + |r.bytes| <= TWO_64 }

  ghost predicate ValidConfig(cfg: Config) {
    && WellFormed(cfg.obj) && cfg.obj.size <= SEND_WORDS
    && Addressable(cfg.mem.start) && Addressable(cfg.mem.cls) && Addressable(cfg.mem.sketch)
    && cfg.mem.start.rkey != cfg.mem.cls.rkey && cfg.mem.start.rkey != cfg.mem.sketch.rkey
    && cfg.mem.cls.rkey != cfg.mem.sketch.rkey
    && |cfg.mem.start.bytes| < TWO_32
    && |cfg.message| <= |cfg.local.rdma|
    && |cfg.mem.cls.bytes| == HEADER_SIZE + 4 * SEND_WORDS
    && cfg.n < TWO_32 && |cfg.mem.sketch.bytes| == 4 * cfg.n && |cfg.local.sketch| == 4 * cfg.n
    && |cfg.local.classData| == CLASS_RECV_DATA_SIZE && |cfg.local.classBuf| == CLASS_RECV_BUF_SIZE
  }

  /** The three advertisements, in the order they are sent. */
  type Index = k: int | 0 <= k < 3

  function Immediate(k: Index): U32 {
    if k == 0 then RDMA_IMM else if k == 1 then CLASS_IMM else SKETCH_IMM
  }

  /** wr_id of each advertisement; the first request's is never set and taken to be zero. */
  function WrId(k: Index): U32 {
    if k == 0 then 0 else Immediate(k)
  }

  /** data[i] = i for the first `j` sketch elements. */
  function SketchBytes(j: nat): (b: seq<Byte>)
    ensures |b| == 4 * j
  {
    if j == 0 then [] else SketchBytes(j - 1) + Le(4, j - 1)
  }

  // ---------------------------------------------------------------------------- the hosts

  datatype ClientState = INIT | ROUTE_RESOLVED | ADDR_RESOLVED | CONNECTED
  datatype ServerState = SERVER_INIT | SERVER_BIND | REQUEST_GET | SERVER_CONNECTED

  /** The enumerators' values; the server's main thread compares its state with the client's
      CONNECTED. */
  function ClientCode(s: ClientState): nat {
    match s case INIT => 0 case ROUTE_RESOLVED => 1 case ADDR_RESOLVED => 2 case CONNECTED => 3
  }
  function ServerCode(s: ServerState): nat {
    match s case SERVER_INIT => 0 case SERVER_BIND => 1 case REQUEST_GET => 2 case SERVER_CONNECTED => 3
  }

  datatype CmEvent = EvAddrResolved | EvRouteResolved | EvConnectRequest | EvConnectResponse | EvEstablished

  /** What the connection manager has been asked for and not yet reported. */
  datatype CmWork = NoWork | ResolveAddr | ResolveRoute | ConnectReq | AcceptReq | ReadyToUse

  /** Where the client's main thread stands. */
  datatype ClientPc =
    | Resolving | Setup | Connecting | WaitConnected | FillSend | PostTriple | WaitRdmaAddr
    | Idle                        // between operations
    | Loop(op: Op, i: nat)        // head of ow_read's loop
    | Address(op: Op, i: nat)     // before it reads the sketch's address into its work request
    | Key(op: Op, i: nat)         // before it reads the key
    | Post(op: Op, i: nat)        // before ibv_post_send
    | Count(op: Op, i: nat)       // before pendingReads++
    | Spin(op: Op, i: nat)        // on RDMA_READ_COMPLETE or RDMA_WRITE_COMPLETE
    | Wait(op: Op)                // on pendingReads > 0
    | Return(op: Op)
    | Exit                        // exit(1)

  /** recv_handler's fields: the flags and the triples. */
  datatype Known = Known(getRdmaAddr: bool, getClassAddr: bool, getSketchAddr: bool,
                         remote: Triple, classInfo: Triple, sketchInfo: Triple)

  /** The remote part of ow_read's work request, sketch_wr. */
  datatype Target = Target(addr: U64, rkey: U32)

  /** RDMA_READ_COMPLETE, RDMA_WRITE_COMPLETE and the atomic counter. */
  datatype Progress = Progress(readComplete: bool, writeComplete: bool, pendingReads: int)

  /** A host's verbs objects and its CQ thread's position. */
  datatype Io = Io(qp: QueuePair, cq: CompletionQueue, thread: CqPc)

  datatype Client = Client(
    state: ClientState, cmEvents: seq<CmEvent>,
    pc: ClientPc, ops: seq<Op>,
    known: Known, wr: Target, progress: Progress,
    sendBuf: seq<Byte>, recvBuf: seq<Byte>,
    io: Io, local: LocalMemory)

  /** Where the server's main thread stands. */
  datatype ServerPc =
    | Listening | ServerSetup | Accepting | WaitState | WaitRemote
    | Fill(k: Index)              // before send_buf is written
    | PostAdvert(k: Index)        // before ibv_post_send
    | CopyClass(j: nat)           // in init_class_recv's two memcpy calls, before word j
    | FillSketch(j: nat)          // head of init_sketch_rdma's loop
    | WaitSent(k: Index)
    | Done
    | ServerExit

  /** server_recv_handler's fields. */
  datatype Peer = Peer(getRemoteAddr: bool, remote: Triple)

  /** The three send-completion flags. */
  datatype Sent = Sent(rdma: bool, cls: bool, sketch: bool)

  datatype Server = Server(
    state: ServerState, cmEvents: seq<CmEvent>,
    pc: ServerPc,
    peer: Peer, sent: Sent,
    sendBuf: seq<Byte>, recvBuf: seq<Byte>,
    io: Io, mem: ServerMemory)

  datatype World = World(c: Client, s: Server, work: CmWork)

  datatype Agent = ClientMain | ClientCm | ClientCq | ClientSend | ClientAck
                 | ServerMain | ServerCm | ServerCq | ServerSend | ServerAck | CmReport

  const BLANK: seq<Byte> := Be(INFO_SIZE, 0)
  const NO_TRIPLE := Triple(0, 0, 0)
  const NO_TARGET := Target(0, 0)

  const NO_IO := Io(NO_QP, NO_CQ, NotStarted)

  function InitClient(cfg: Config): Client {
    Client(INIT, [], Resolving, cfg.ops,
           Known(false, false, false, NO_TRIPLE, NO_TRIPLE, cfg.unset), NO_TARGET,
           Progress(false, false, 0),
           BLANK, BLANK, NO_IO, cfg.local)
  }

  function InitServer(cfg: Config): Server {
    Server(SERVER_INIT, [], Listening, Peer(false, NO_TRIPLE), Sent(false, false, false),
           BLANK, BLANK, NO_IO, cfg.mem)
  }

  /** The client has called rdma_resolve_addr, the server rdma_listen. */
  function Init(cfg: Config): World {
    World(InitClient(cfg), InitServer(cfg), ResolveAddr)
  }

  // ------------------------------------------------------------------ client, main thread

  /** start() creates the CQ and arms it, posts the receive and starts the CQ thread. */
  function StartIo(): Io {
    Io(QueuePair(1, [], []), CompletionQueue(true, 0, []), Waiting)
  }

  function PostSend(io: Io, r: WorkRequest): Io {
    io.(qp := io.qp.(sq := io.qp.sq + [r]))
  }

  /** ibv_post_send: a full send queue is an error, and the callers exit on it. */
  function PostRequest(c: Client, r: WorkRequest, next: ClientPc): Client {
    if c.io.qp.Outstanding() >= SQ_DEPTH then c.(pc := Exit)
    else c.(io := PostSend(c.io, r), pc := next)
  }

  /** The address of sketch element i, from the address of element 0. */
  function ElementAddress(addr: U64, i: nat): U64 { (addr + 4 * i) % TWO_64 }

  /** The request an operation posts, from the addresses the client stored; ow_read's from what
      it has put into its work request. */
  function Request(known: Known, wr: Target, op: Op, i: nat): WorkRequest {
    match op
    case RdmaRead => Read(known.remote.addr, known.remote.rkey, [Sge(RdmaBuf, 0, known.remote.len)])
    case RdmaWrite => Write(known.remote.addr, known.remote.rkey, Sge(RdmaBuf, 0, known.remote.len))
    case ReadClass(_) =>
      Read(known.classInfo.addr, known.classInfo.rkey,
           [Sge(ClassRecvData, 0, HEADER_SIZE), Sge(ClassRecvBuf, 0, 4 * RECV_WORDS)])
    case OwRead(_) => Read(wr.addr, wr.rkey, [Sge(SketchBuf, 4 * i, 4)])
  }

  /** The wait in front of an operation: main's on GET_CLASS_ADDR, and a caller's on
      GET_SKETCH_ADDR. */
  predicate MayCall(known: Known, op: Op) {
    match op
    case RdmaRead => true
    case RdmaWrite => true
    case ReadClass(waitSketch) => known.getClassAddr && (waitSketch ==> known.getSketchAddr)
    case OwRead(waitSketch) => waitSketch ==> known.getSketchAddr
  }

  /** From the call to just before the first ibv_post_send (or loop test). */
  function Call(cfg: Config, c: Client, op: Op): Client {
    match op
    case RdmaRead =>
      if !c.known.getRdmaAddr then c.(pc := Exit)
      else c.(progress := c.progress.(readComplete := false), pc := Post(op, 0))
    case RdmaWrite =>
      if |cfg.message| > |c.local.rdma| then c.(pc := Exit)
      else c.(progress := c.progress.(writeComplete := false), pc := Post(op, 0),
              local := c.local.(rdma := Put(c.local.rdma, 0, cfg.message)))
    case ReadClass(_) => c.(progress := c.progress.(readComplete := false), pc := Post(op, 0))
    case OwRead(_) => c.(progress := c.progress.(pendingReads := 0), pc := Loop(op, 0))
  }

  /** start(), from its first spin to its return. */
  function StartStep(cfg: Config, c: Client): Option<Client> {
    match c.pc
    case Resolving => if c.state == ROUTE_RESOLVED then Some(c.(pc := Setup)) else None
    case Setup => Some(c.(io := StartIo(), pc := Connecting))
    case Connecting => Some(c.(pc := WaitConnected))
    case WaitConnected => if c.state == CONNECTED then Some(c.(pc := FillSend)) else None
    case FillSend => Some(c.(sendBuf := Encode(cfg.clientStart), pc := PostTriple))
    case PostTriple => Some(PostRequest(c, Send(0, []), WaitRdmaAddr))
    case WaitRdmaAddr => if c.known.getRdmaAddr then Some(c.(pc := Idle)) else None
    case _ => None
  }

  /** rdma_read, rdma_write, read_class and ow_read. */
  function OpStep(cfg: Config, c: Client): Option<Client> {
    match c.pc
    case Idle => if c.ops == [] || !MayCall(c.known, c.ops[0]) then None else Some(Call(cfg, c, c.ops[0]))
    case Loop(op, i) =>
      if i < cfg.n then Some(c.(progress := c.progress.(readComplete := false), pc := Address(op, i)))
      else Some(c.(pc := Wait(op)))
    case Address(op, i) =>
      Some(c.(wr := c.wr.(addr := ElementAddress(c.known.sketchInfo.addr, i)), pc := Key(op, i)))
    case Key(op, i) => Some(c.(wr := c.wr.(rkey := c.known.sketchInfo.rkey), pc := Post(op, i)))
    case Post(op, i) =>
      Some(PostRequest(c, Request(c.known, c.wr, op, i), if op.RdmaWrite? then Spin(op, i) else Count(op, i)))
    case Count(op, i) =>
      Some(c.(progress := c.progress.(pendingReads := c.progress.pendingReads + 1),
              pc := if op.OwRead? then Spin(op, i) else Wait(op)))
    case Spin(op, i) =>
      if op.RdmaWrite? then (if c.progress.writeComplete then Some(c.(pc := Return(op))) else None)
      else if c.progress.readComplete then Some(c.(pc := Loop(op, i + 1))) else None
    case Wait(op) => if c.progress.pendingReads > 0 then None else Some(c.(pc := Return(op)))
    case Return(op) => if c.ops == [] then None else Some(c.(ops := c.ops[1..], pc := Idle))
    case _ => None
  }

  function ClientMainStep(cfg: Config, w: World): Option<World> {
    match StartStep(cfg, w.c)
    case Some(c) => Some(w.(c := c, work := if w.c.pc.Connecting? then ConnectReq else w.work))
    case None => match OpStep(cfg, w.c)
      case Some(c) => Some(w.(c := c))
      case None => None
  }

  // ------------------------------------------------------------- client, the other threads

  /** One event of cm_thread, and whether rdma_resolve_route is called on it. */
  function ClientCmEvent(c: Client): (Client, bool)
    requires c.cmEvents != []
  {
    var rest := c.(cmEvents := c.cmEvents[1..]);
    match c.cmEvents[0]
    case EvAddrResolved => (rest.(state := ADDR_RESOLVED), true)
    case EvRouteResolved => (rest.(state := ROUTE_RESOLVED), false)
    case EvEstablished => (rest.(state := CONNECTED), false)
    case _ => (rest, false)
  }

  function ClientCmStep(w: World): Option<World> {
    if w.c.cmEvents == [] then None
    else
      var (c, route) := ClientCmEvent(w.c);
      Some(w.(c := c, work := if route then ResolveRoute else w.work))
  }

  /** The stores of recv_handler that precede the flag, the address first; an unknown immediate
      stores nothing. */
  function StoreAddress(known: Known, imm: nat, addr: U64): Known {
    if imm == RDMA_IMM then known.(remote := known.remote.(addr := addr))
    else if imm == CLASS_IMM then known.(classInfo := known.classInfo.(addr := addr))
    else if imm == SKETCH_IMM then known.(sketchInfo := known.sketchInfo.(addr := addr))
    else known
  }

  function StoreRest(known: Known, imm: nat, len: U32, rkey: U32): Known {
    if imm == RDMA_IMM then known.(remote := known.remote.(len := len, rkey := rkey))
    else if imm == CLASS_IMM then known.(classInfo := known.classInfo.(len := len, rkey := rkey))
    else if imm == SKETCH_IMM then known.(sketchInfo := known.sketchInfo.(len := len, rkey := rkey))
    else known
  }

  function SetFlag(known: Known, imm: nat): Known {
    if imm == RDMA_IMM then known.(getRdmaAddr := true)
    else if imm == CLASS_IMM then known.(getClassAddr := true)
    else if imm == SKETCH_IMM then known.(getSketchAddr := true)
    else known
  }

  function At(io: Io, pc: CqPc): Io { io.(thread := pc) }

  /** A handler's first step after ibv_poll_cq. */
  function ClientHandle(c: Client, wc: Completion): Client {
    match wc
    case SendDone(_) => c.(io := At(c.io, Draining))
    case RecvDone(len, imm) =>
      if len != INFO_SIZE || |c.recvBuf| != INFO_SIZE then c.(io := At(c.io, CqExit))
      else if imm == [] then c.(io := At(c.io, Draining))
      else c.(known := StoreAddress(c.known, FromBe(imm), Decode(c.recvBuf).addr), io := At(c.io, AddressStored(imm)))
    case ReadDone => c.(progress := c.progress.(readComplete := true), io := At(c.io, Decrement))
    case WriteDone => c.(progress := c.progress.(writeComplete := true), io := At(c.io, Draining))
  }

  /** ibv_post_recv, whose result recv_handler ignores. */
  function PostRecv(qp: QueuePair): QueuePair {
    if qp.recvs < MAX_RECV_WR then qp.(recvs := qp.recvs + 1) else qp
  }

  function LoopStep(io: Io): Option<Io> {
    match CqLoop(io.cq, io.thread)
    case Some(r) => Some(io.(cq := r.0, thread := r.1))
    case None => None
  }

  /** recv_handler's second step. */
  function ClientStoreRest(c: Client, imm: seq<Byte>): Client {
    if |c.recvBuf| != INFO_SIZE then c.(io := At(c.io, CqExit))
    else
      var t := Decode(c.recvBuf);
      c.(known := StoreRest(c.known, FromBe(imm), t.len, t.rkey), io := At(c.io, Stored(imm)))
  }

  function ClientCqStep(c: Client): Option<Client> {
    match c.io.thread
    case Handle(wc) => Some(ClientHandle(c, wc))
    case AddressStored(imm) => Some(ClientStoreRest(c, imm))
    case Stored(imm) => Some(c.(known := SetFlag(c.known, FromBe(imm)), io := At(c.io, Repost)))
    case Repost => Some(c.(io := c.io.(qp := PostRecv(c.io.qp), thread := Draining)))
    case Decrement =>
      Some(c.(progress := c.progress.(pendingReads := c.progress.pendingReads - 1), io := At(c.io, Draining)))
    case _ => match LoopStep(c.io)
      case Some(io) => Some(c.(io := io))
      case None => None
  }

  // ----------------------------------------------------------------------- server threads

  /** Advertisement `k`, from the fields the three senders read. */
  function AdvertOf(m: ServerMemory, n: nat, k: Index): Triple
    requires |m.start.bytes| < TWO_32 && n < TWO_32
  {
    if k == 0 then Triple(m.start.base, |m.start.bytes|, m.start.rkey)
    else if k == 1 then Triple(m.cls.base, HEADER_SIZE, m.cls.rkey)
    else Triple(m.sketch.base, n, m.sketch.rkey)
  }

  function SentFlag(sent: Sent, k: Index): bool {
    if k == 0 then sent.rdma else if k == 1 then sent.cls else sent.sketch
  }

  function StoreAt(r: Region, off: nat, d: seq<Byte>): Region
    requires off + |d| <= |r.bytes|
  {
    r.(bytes := Put(r.bytes, off, d))
  }

  /** start(), init_class_recv and init_sketch_rdma. */
  function ServerStep(cfg: Config, s: Server): Option<Server> {
    match s.pc
    case Listening => if s.state == REQUEST_GET then Some(s.(pc := ServerSetup)) else None
    case ServerSetup => Some(s.(io := StartIo(), pc := Accepting))
    case Accepting => Some(s.(pc := WaitState))
    case WaitState => if ServerCode(s.state) == ClientCode(CONNECTED) then Some(s.(pc := WaitRemote)) else None
    case WaitRemote => if s.peer.getRemoteAddr then Some(s.(pc := Fill(0))) else None
    case Fill(k) =>
      if |s.mem.start.bytes| >= TWO_32 || cfg.n >= TWO_32 then Some(s.(pc := ServerExit))
      else Some(s.(sendBuf := Encode(AdvertOf(s.mem, cfg.n, k)), pc := if k == 2 then FillSketch(0) else PostAdvert(k)))
    case FillSketch(j) =>
      if j >= cfg.n then Some(s.(pc := PostAdvert(2)))
      else if 4 * j + 4 > |s.mem.sketch.bytes| then Some(s.(pc := ServerExit))
      else Some(s.(mem := s.mem.(sketch := StoreAt(s.mem.sketch, 4 * j, Le(4, j))), pc := FillSketch(j + 1)))
    case PostAdvert(k) =>
      if s.io.qp.Outstanding() >= SQ_DEPTH then Some(s.(pc := ServerExit))
      else Some(s.(io := PostSend(s.io, Send(WrId(k), Be(4, Immediate(k)))),
                   pc := if k == 1 then CopyClass(0) else WaitSent(k)))
    case CopyClass(j) =>
      if !WellFormed(cfg.obj) || |s.mem.cls.bytes| < 4 * CopiedWords(cfg.obj) then Some(s.(pc := ServerExit))
      else if j < CopiedWords(cfg.obj) then
        Some(s.(mem := s.mem.(cls := StoreAt(s.mem.cls, 4 * j, CopiedWord(cfg.obj, j))), pc := CopyClass(j + 1)))
      else Some(s.(pc := WaitSent(1)))
    case WaitSent(k) =>
      if !SentFlag(s.sent, k) then None else Some(s.(pc := if k == 2 then Done else Fill(k + 1)))
    case _ => None
  }

  function ServerMainStep(cfg: Config, w: World): Option<World> {
    match ServerStep(cfg, w.s)
    case Some(s) => Some(w.(s := s, work := if w.s.pc.Accepting? then AcceptReq else w.work))
    case None => None
  }

  /** One event of cm_thread; state and child_cm_id are set together. */
  function ServerCmEvent(s: Server): Server
    requires s.cmEvents != []
  {
    var rest := s.(cmEvents := s.cmEvents[1..]);
    match s.cmEvents[0]
    case EvConnectRequest => rest.(state := REQUEST_GET)
    case EvConnectResponse => rest.(state := SERVER_CONNECTED)
    case EvEstablished => rest.(state := SERVER_CONNECTED)
    case _ => rest
  }

  function ServerCmStep(w: World): Option<World> {
    if w.s.cmEvents == [] then None else Some(w.(s := ServerCmEvent(w.s)))
  }

  /** The flag a send completion sets. */
  function MarkSent(sent: Sent, wrId: U32): Sent {
    if wrId == 0 then sent.(rdma := true)
    else if wrId == CLASS_IMM then sent.(cls := true)
    else if wrId == SKETCH_IMM then sent.(sketch := true)
    else sent
  }

  function ServerHandle(s: Server, wc: Completion): Server {
    match wc
    case RecvDone(len, imm) =>
      if len != INFO_SIZE || |s.recvBuf| != INFO_SIZE then s.(io := At(s.io, CqExit))
      else s.(peer := s.peer.(remote := Decode(s.recvBuf)), io := At(s.io, Stored(imm)))
    case SendDone(wrId) => s.(sent := MarkSent(s.sent, wrId), io := At(s.io, Draining))
    case _ => s.(io := At(s.io, Draining))
  }

  function ServerCqStep(s: Server): Option<Server> {
    match s.io.thread
    case Handle(wc) => Some(ServerHandle(s, wc))
    case Stored(_) => Some(s.(peer := s.peer.(getRemoteAddr := true), io := At(s.io, Draining)))
    case _ => match LoopStep(s.io)
      case Some(io) => Some(s.(io := io))
      case None => None
  }

  /** What the server's initial memory makes it advertise. */
  ghost function Advert(cfg: Config, k: Index): Triple
    requires ValidConfig(cfg)
  {
    AdvertOf(cfg.mem, cfg.n, k)
  }

  // ---------------------------------------------------------------------- the environment

  /** The connection manager reports the outcome of the request it was given. */
  function CmReportStep(w: World): Option<World> {
    match w.work
    case NoWork => None
    case ResolveAddr => Some(w.(c := w.c.(cmEvents := w.c.cmEvents + [EvAddrResolved]), work := NoWork))
    case ResolveRoute => Some(w.(c := w.c.(cmEvents := w.c.cmEvents + [EvRouteResolved]), work := NoWork))
    case ConnectReq => Some(w.(s := w.s.(cmEvents := w.s.cmEvents + [EvConnectRequest]), work := NoWork))
    case AcceptReq => Some(w.(c := w.c.(cmEvents := w.c.cmEvents + [EvEstablished]), work := ReadyToUse))
    case ReadyToUse => Some(w.(s := w.s.(cmEvents := w.s.cmEvents + [EvEstablished]), work := NoWork))
  }

  /** The head of the send queue is executed: no longer pending, its completion to come. */
  function Executed(io: Io, c: Completion): Io
    requires io.qp.sq != []
  {
    io.(qp := io.qp.(sq := io.qp.sq[1..], acked := io.qp.acked + [c]))
  }

  /** A message uses up a posted receive and adds a completion. */
  function Deliver(io: Io, len: nat, imm: seq<Byte>): Io
    requires io.qp.recvs > 0
  {
    io.(qp := io.qp.(recvs := io.qp.recvs - 1), cq := AddCompletion(io.cq, RecvDone(len, imm)))
  }

  /** A receive is posted and the CQ has room; otherwise the sender's adapter retries forever. */
  predicate CanReceive(io: Io) { io.qp.recvs > 0 && |io.cq.queue| < CQ_DEPTH }

  /** The client's adapter executes the head of its send queue. A send carries send_buf as it
      is now. A read or write needs every range to be registered. */
  function ClientSendStep(w: World): Option<World> {
    if w.c.io.qp.sq == [] then None
    else match w.c.io.qp.sq[0]
      case Send(wrId, imm) =>
        if !CanReceive(w.s.io) then None
        else Some(w.(c := w.c.(io := Executed(w.c.io, SendDone(wrId))),
                     s := w.s.(recvBuf := w.c.sendBuf, io := Deliver(w.s.io, |w.c.sendBuf|, imm))))
      case Read(raddr, rkey, scatter) =>
        (match ReadInto(w.c.local, w.s.mem, raddr, rkey, scatter)
         case None => None
         case Some(l) => Some(w.(c := w.c.(local := l, io := Executed(w.c.io, ReadDone)))))
      case Write(raddr, rkey, g) =>
        (match WriteFrom(w.c.local, w.s.mem, raddr, rkey, g)
         case None => None
         case Some(m) => Some(w.(c := w.c.(io := Executed(w.c.io, WriteDone)), s := w.s.(mem := m))))
  }

  /** The server's adapter; the server only sends. */
  function ServerSendStep(w: World): Option<World> {
    if w.s.io.qp.sq == [] then None
    else match w.s.io.qp.sq[0]
      case Send(wrId, imm) =>
        if !CanReceive(w.c.io) then None
        else Some(w.(s := w.s.(io := Executed(w.s.io, SendDone(wrId))),
                     c := w.c.(recvBuf := w.s.sendBuf, io := Deliver(w.c.io, |w.s.sendBuf|, imm))))
      case _ => None
  }

  /** The completion of the oldest executed request is generated, if the CQ has room. */
  function AckStep(io: Io): Option<Io> {
    if io.qp.acked == [] || |io.cq.queue| >= CQ_DEPTH then None
    else Some(io.(qp := io.qp.(acked := io.qp.acked[1..]), cq := AddCompletion(io.cq, io.qp.acked[0])))
  }

  /** The step of agent `a`, or None if it is spinning, blocked or has nothing to do. */
  function Next(cfg: Config, w: World, a: Agent): Option<World> {
    match a
    case ClientMain => ClientMainStep(cfg, w)
    case ClientCm => ClientCmStep(w)
    case ClientCq => (match ClientCqStep(w.c) case Some(c) => Some(w.(c := c)) case None => None)
    case ClientSend => ClientSendStep(w)
    case ClientAck => (match AckStep(w.c.io) case Some(io) => Some(w.(c := w.c.(io := io))) case None => None)
    case ServerMain => ServerMainStep(cfg, w)
    case ServerCm => ServerCmStep(w)
    case ServerCq => (match ServerCqStep(w.s) case Some(s) => Some(w.(s := s)) case None => None)
    case ServerSend => ServerSendStep(w)
    case ServerAck => (match AckStep(w.s.io) case Some(io) => Some(w.(s := w.s.(io := io))) case None => None)
    case CmReport => CmReportStep(w)
  }

  /** A run is any sequence of agents, each able to step when its turn comes. */
  function Run(cfg: Config, agents: seq<Agent>): Option<World> {
    if agents == [] then Some(Init(cfg))
    else match Run(cfg, agents[..|agents| - 1])
      case Some(w) => Next(cfg, w, agents[|agents| - 1])
      case None => None
  }
}
