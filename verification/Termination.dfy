/** Every run is finite and ends in the final state: a measure that each step decreases,
    and a proof that only the final state has no step. */
module Termination {
  import opened Bytes
  import opened Verbs
  import opened ClassTransfer
  import opened Rendezvous
  import opened Invariants
  import opened Preservation

  // ------------------------------------------------------------------------- the measure

  function ThreadRank(pc: CqPc): nat {
    match pc
    case Handle(_) => 6
    case AddressStored(_) => 5
    case GotEvent => 4
    case Stored(_) => 4
    case Repost => 3
    case Decrement => 3
    case Draining => 2
    case Acking => 1
    case _ => 0
  }

  /** What a host's queues still have to do: a completion may cost one more round of its thread. */
  function IoWork(io: Io): nat {
    22 * |io.qp.sq| + 11 * |io.qp.acked| + 5 * |io.cq.queue| + 5 * io.cq.events + ThreadRank(io.thread)
  }

  function OpWork(n: nat, op: Op): nat { if op.OwRead? then 4 + 30 * n else 28 }

  function OpsWork(n: nat, ops: seq<Op>): nat {
    if ops == [] then 0 else OpWork(n, ops[0]) + OpsWork(n, ops[1..])
  }

  /** Steps left in the current operation. */
  function OpRank(n: nat, pc: ClientPc): int {
    match pc
    case Loop(_, i) => 3 + 30 * (n - i)
    case Address(_, i) => 2 + 30 * (n - i)
    case Key(_, i) => 1 + 30 * (n - i)
    case Post(op, i) => if op.OwRead? then 30 * (n - i) else 27
    case Count(op, i) => if op.OwRead? then 30 * (n - i) - 23 else 3
    case Spin(op, i) => if op.OwRead? then 30 * (n - i) - 24 else 2
    case Wait(_) => 2
    case _ => 1
  }

  function ClientRank(n: nat, pc: ClientPc, ops: seq<Op>): int {
    match pc
    case Resolving => 31 + OpsWork(n, ops)
    case Setup => 30 + OpsWork(n, ops)
    case Connecting => 29 + OpsWork(n, ops)
    case WaitConnected => 26 + OpsWork(n, ops)
    case FillSend => 25 + OpsWork(n, ops)
    case PostTriple => 24 + OpsWork(n, ops)
    case WaitRdmaAddr => 1 + OpsWork(n, ops)
    case Idle => OpsWork(n, ops)
    case Exit => 0
    case _ => OpRank(n, pc) + (if ops == [] then 0 else OpsWork(n, ops[1..]))
  }

  /** `n` sketch elements and `z` words of the class are to be stored. */
  function ServerRank(n: nat, z: nat, pc: ServerPc): int {
    match pc
    case Listening => 86 + n + z
    case ServerSetup => 85 + n + z
    case Accepting => 84 + n + z
    case WaitState => 79 + n + z
    case WaitRemote => 78 + n + z
    case Fill(k) => if k == 0 then 77 + n + z else if k == 1 then 52 + n + z else 26 + n
    case PostAdvert(k) => if k == 0 then 76 + n + z else if k == 1 then 51 + n + z else 24
    case WaitSent(k) => if k == 0 then 53 + n + z else if k == 1 then 27 + n else 1
    case CopyClass(j) => 28 + n + z - j
    case FillSketch(j) => 25 + n - j
    case _ => 0
  }

  function EventWork(e: CmEvent): nat { if e.EvAddrResolved? then 3 else 1 }
  function EventsWork(q: seq<CmEvent>): nat {
    if q == [] then 0 else EventWork(q[0]) + EventsWork(q[1..])
  }

  function CmRank(work: CmWork): nat {
    match work
    case NoWork => 0
    case ResolveAddr => 4
    case ResolveRoute => 2
    case ConnectReq => 2
    case AcceptReq => 4
    case ReadyToUse => 2
  }

  function Measure(cfg: Config, w: World): int {
    IoWork(w.c.io) + IoWork(w.s.io)
    + ClientRank(cfg.n, w.c.pc, w.c.ops) + ServerRank(cfg.n, CopiedWords(cfg.obj), w.s.pc)
    + EventsWork(w.c.cmEvents) + EventsWork(w.s.cmEvents) + CmRank(w.work)
  }

  lemma {:induction false} EventsPush(q: seq<CmEvent>, e: CmEvent)
    ensures EventsWork(q + [e]) == EventsWork(q) + EventWork(e)
  {
    if q == [] {
    } else {
      assert (q + [e])[1..] == q[1..] + [e];
      EventsPush(q[1..], e);
    }
  }

  lemma CmThreadDecreases(cfg: Config, w: World, a: Agent)
    requires a.ClientCm? || a.ServerCm?
    requires Next(cfg, w, a).Some? && (a.ClientCm? ==> w.work == NoWork || !w.c.cmEvents[0].EvAddrResolved?)
    ensures Measure(cfg, Next(cfg, w, a).value) < Measure(cfg, w)
  {
    hide IoWork, ClientRank, ServerRank;
  }

  lemma CmReportDecreases(cfg: Config, w: World)
    requires CmReportStep(w).Some?
    ensures Measure(cfg, CmReportStep(w).value) < Measure(cfg, w)
  {
    hide IoWork, ClientRank, ServerRank, EventsWork;
    forall e ensures EventsWork(w.c.cmEvents + [e]) == EventsWork(w.c.cmEvents) + EventWork(e) {
      EventsPush(w.c.cmEvents, e);
    }
    forall e ensures EventsWork(w.s.cmEvents + [e]) == EventsWork(w.s.cmEvents) + EventWork(e) {
      EventsPush(w.s.cmEvents, e);
    }
  }

  lemma ClientCqDecreases(cfg: Config, w: World)
    requires ClientCqStep(w.c).Some?
    ensures Measure(cfg, Next(cfg, w, ClientCq).value) < Measure(cfg, w)
  {
    hide ClientRank, ServerRank, EventsWork, CmRank;
  }

  lemma ServerCqDecreases(cfg: Config, w: World)
    requires ServerCqStep(w.s).Some?
    ensures Measure(cfg, Next(cfg, w, ServerCq).value) < Measure(cfg, w)
  {
    hide ClientRank, ServerRank, EventsWork, CmRank;
  }

  lemma AdapterDecreases(cfg: Config, w: World, a: Agent)
    requires a.ClientSend? || a.ClientAck? || a.ServerSend? || a.ServerAck?
    requires Next(cfg, w, a).Some?
    ensures Measure(cfg, Next(cfg, w, a).value) < Measure(cfg, w)
  {
    hide ClientRank, ServerRank, EventsWork, CmRank, ReadInto, WriteFrom, ThreadRank;
  }

  lemma ServerStepDecreases(cfg: Config, s: Server)
    requires ServerStep(cfg, s).Some?
    requires s.pc.ServerSetup? ==> s.io == NO_IO
    requires s.pc.FillSketch? ==> s.pc.j <= cfg.n
    requires s.pc.CopyClass? ==> s.pc.j <= CopiedWords(cfg.obj)
    ensures var s' := ServerStep(cfg, s).value;
            && IoWork(s'.io) + ServerRank(cfg.n, CopiedWords(cfg.obj), s'.pc) + (if s.pc.Accepting? then 4 else 0)
               < IoWork(s.io) + ServerRank(cfg.n, CopiedWords(cfg.obj), s.pc)
            && s'.cmEvents == s.cmEvents
  {
    hide ThreadRank, Encode, Header, Words, Be, AdvertOf, StoreAt, StartIo, IoWork;
    StartIoWork();
    PostWork(s.io, Send(0, []));
    if s.pc.PostAdvert? { PostWork(s.io, Send(WrId(s.pc.k), Be(4, Immediate(s.pc.k)))); }
  }

  lemma StartIoWork()
    ensures IoWork(StartIo()) == 0 && IoWork(NO_IO) == 0
  {
  }

  lemma PostWork(io: Io, r: WorkRequest)
    ensures IoWork(PostSend(io, r)) == IoWork(io) + 22
  {
  }

  lemma ServerMainDecreases(cfg: Config, w: World)
    requires ServerMainStep(cfg, w).Some?
    requires w.s.pc.ServerSetup? ==> w.s.io == NO_IO
    requires w.s.pc.FillSketch? ==> w.s.pc.j <= cfg.n
    requires w.s.pc.CopyClass? ==> w.s.pc.j <= CopiedWords(cfg.obj)
    requires w.s.pc.Accepting? ==> w.work == NoWork
    ensures Measure(cfg, ServerMainWorld(cfg, w)) < Measure(cfg, w)
  {
    hide ClientRank, EventsWork, ServerStep, ServerRank, IoWork;
    ServerStepDecreases(cfg, w.s);
  }

  lemma StartStepDecreases(cfg: Config, c: Client)
    requires StartStep(cfg, c).Some?
    requires c.pc.Setup? ==> c.io == NO_IO
    ensures var c' := StartStep(cfg, c).value;
            && IoWork(c'.io) + ClientRank(cfg.n, c'.pc, c'.ops) + (if c.pc.Connecting? then 2 else 0)
               < IoWork(c.io) + ClientRank(cfg.n, c.pc, c.ops)
            && c'.cmEvents == c.cmEvents
  {
    hide ThreadRank, Encode, StartIo, IoWork, OpsWork;
    StartIoWork();
    PostWork(c.io, Send(0, []));
  }

  lemma CallDecreases(cfg: Config, c: Client)
    requires OpStep(cfg, c).Some? && c.pc == Idle
    ensures var c' := OpStep(cfg, c).value;
            && ClientRank(cfg.n, c'.pc, c'.ops) < ClientRank(cfg.n, c.pc, c.ops)
            && c'.io == c.io && c'.cmEvents == c.cmEvents
  {
    hide Put, MayCall;
  }

  lemma OpStepDecreases(cfg: Config, c: Client)
    requires OpStep(cfg, c).Some? && PcInv(cfg.n, c.pc, c.ops, c.known)
    ensures var c' := OpStep(cfg, c).value;
            && IoWork(c'.io) + ClientRank(cfg.n, c'.pc, c'.ops) < IoWork(c.io) + ClientRank(cfg.n, c.pc, c.ops)
            && c'.cmEvents == c.cmEvents
  {
    hide ThreadRank, Request, IoWork, ElementAddress, Put, MayCall;
    if c.pc.Post? {
      PostWork(c.io, Request(c.known, c.wr, c.pc.op, c.pc.i));
    } else if c.pc == Idle {
      CallDecreases(cfg, c);
    }
  }

  lemma ClientMainDecreases(cfg: Config, w: World)
    requires ClientMainStep(cfg, w).Some?
    requires w.c.pc.Setup? ==> w.c.io == NO_IO
    requires PcInv(cfg.n, w.c.pc, w.c.ops, w.c.known)
    requires w.c.pc.Connecting? ==> w.work == NoWork
    ensures Measure(cfg, ClientMainWorld(cfg, w)) < Measure(cfg, w)
  {
    hide ServerRank, EventsWork, IoWork, StartStep, OpStep, ClientRank, PcInv;
    if StartStep(cfg, w.c).Some? { StartStepDecreases(cfg, w.c); } else { OpStepDecreases(cfg, w.c); }
    assert w.c.pc.Connecting? ==> StartStep(cfg, w.c).Some? by { ConnectingStarts(cfg, w.c); }
  }

  lemma ConnectingStarts(cfg: Config, c: Client)
    ensures c.pc.Connecting? ==> StartStep(cfg, c).Some?
  {
  }

  /** What the measure's lemmas need of the invariant. */
  lemma MeasureFacts(cfg: Config, w: World)
    requires ValidConfig(cfg) && Inv(cfg, w)
    ensures w.c.pc.Setup? ==> w.c.io == NO_IO
    ensures w.s.pc.ServerSetup? ==> w.s.io == NO_IO
    ensures w.s.pc.FillSketch? ==> w.s.pc.j <= cfg.n
    ensures w.s.pc.CopyClass? ==> w.s.pc.j <= CopiedWords(cfg.obj)
    ensures w.c.pc.Connecting? || w.s.pc.Accepting? ==> w.work == NoWork
    ensures w.c.cmEvents != [] && w.c.cmEvents[0].EvAddrResolved? ==> w.work == NoWork
    ensures PcInv(cfg.n, w.c.pc, w.c.ops, w.c.known)
  {
    hide FirstMessage, SendCounts, OnlyAdvert, AdvertCounts, AdvertContents, Reads, OnlyRequest, DataInv, PcInv, Encode;
  }

  lemma MeasureNonNegative(cfg: Config, w: World)
    requires ValidConfig(cfg) && Inv(cfg, w)
    ensures Measure(cfg, w) >= 0
  {
    hide Inv, IoWork, ClientRank, ServerRank, EventsWork, PcInv;
    MeasureFacts(cfg, w);
    ClientRankNonNegative(cfg.n, w.c.pc, w.c.ops, w.c.known);
    ServerRankNonNegative(cfg.n, CopiedWords(cfg.obj), w.s.pc);
  }

  lemma ClientRankNonNegative(n: nat, pc: ClientPc, ops: seq<Op>, known: Known)
    requires PcInv(n, pc, ops, known)
    ensures ClientRank(n, pc, ops) >= 0
  {
    hide OpsWork;
  }

  lemma ServerRankNonNegative(n: nat, z: nat, pc: ServerPc)
    requires (pc.FillSketch? ==> pc.j <= n) && (pc.CopyClass? ==> pc.j <= z)
    ensures ServerRank(n, z, pc) >= 0
  {
  }

  /** Every step that is not spinning brings the end nearer. */
  lemma StepDecreases(cfg: Config, w: World, a: Agent)
    requires ValidConfig(cfg) && Inv(cfg, w) && Next(cfg, w, a).Some?
    ensures 0 <= Measure(cfg, Next(cfg, w, a).value) < Measure(cfg, w)
  {
    hide Inv, Measure, PcInv;
    MeasureFacts(cfg, w);
    StepKeeps(cfg, w, a);
    MeasureNonNegative(cfg, Next(cfg, w, a).value);
    match a
    case ClientMain => ClientMainDecreases(cfg, w);
    case ClientCq => ClientCqDecreases(cfg, w);
    case ServerMain => ServerMainDecreases(cfg, w);
    case ServerCq => ServerCqDecreases(cfg, w);
    case ClientCm => CmThreadDecreases(cfg, w, a);
    case ServerCm => CmThreadDecreases(cfg, w, a);
    case CmReport => CmReportDecreases(cfg, w);
    case _ => AdapterDecreases(cfg, w, a);
  }

  /** The measure of the initial state, in the configuration's terms. */
  function RunBound(cfg: Config): nat {
    121 + cfg.n + CopiedWords(cfg.obj) + OpsWork(cfg.n, cfg.ops)
  }

  lemma {:induction false} RunsAreShort(cfg: Config, agents: seq<Agent>)
    requires ValidConfig(cfg) && Run(cfg, agents).Some?
    ensures |agents| + Measure(cfg, Run(cfg, agents).value) <= RunBound(cfg)
  {
    hide Inv, Next;
    if agents == [] {
      InitialMeasure(cfg);
    } else {
      var front := agents[..|agents| - 1];
      RunsAreShort(cfg, front);
      RunKeeps(cfg, front);
      StepDecreases(cfg, Run(cfg, front).value, agents[|agents| - 1]);
    }
  }

  lemma InitialMeasure(cfg: Config)
    ensures Measure(cfg, Init(cfg)) == RunBound(cfg)
  {
    hide OpsWork, Be;
    StartIoWork();
  }

  // ------------------------------------------------------------- what can be executed

  /** Sketch element i at this address and key lies in registered memory. */
  predicate Registered(cfg: Config, addr: U64, rkey: U32, i: nat) {
    Fetch(cfg.mem, ElementAddress(addr, i), rkey, 4).Some?
  }

  /** An ow_read that did not wait may find the address or the key, or both, still as they were
      before the sketch's triple was stored: element i's requests from such mixtures name
      registered memory, too - though not, in general, the sketch. */
  predicate MixturesRegistered(cfg: Config, i: nat) {
    && Registered(cfg, cfg.unset.addr, cfg.unset.rkey, i)
    && Registered(cfg, cfg.unset.addr, cfg.mem.sketch.rkey, i)
    && Registered(cfg, cfg.mem.sketch.base, cfg.unset.rkey, i)
  }

  predicate UnsetRegistered(cfg: Config) {
    forall i :: 0 <= i < cfg.n ==> MixturesRegistered(cfg, i)
  }

  /** The requests of operation `p` name registered memory on both hosts. */
  ghost predicate Executable(cfg: Config, p: nat)
    requires p < |cfg.ops|
  {
    match cfg.ops[p]
    case RdmaRead => StartFits(cfg)
    case RdmaWrite => StartFits(cfg)
    case ReadClass(_) => true
    case OwRead(waitSketch) => waitSketch || Delayed(cfg.ops, p) || UnsetRegistered(cfg)
  }

  /** The program can be completed. */
  ghost predicate Completable(cfg: Config) {
    forall p :: 0 <= p < |cfg.ops| ==> Executable(cfg, p)
  }

  /** The operation the client is in, if any, can be executed. */
  ghost predicate CurrentExecutable(cfg: Config, w: World) {
    Current(w.c.pc).Some? && 0 < |w.c.ops| <= |cfg.ops| ==> Executable(cfg, Returned(cfg.ops, w.c.ops))
  }

  // ---------------------------------------------------------------------- no deadlock

  /** No agent can step: every thread spins or is blocked, and the adapters have no work. */
  ghost predicate Stuck(cfg: Config, w: World) {
    forall a: Agent :: Next(cfg, w, a).None?
  }

  predicate IoIdle(io: Io) {
    io.qp.sq == [] && io.qp.acked == [] && io.cq.queue == [] && io.cq.events == 0 && io.thread == Waiting
  }

  /** Everything advertised, received and acknowledged, every operation returned. */
  predicate Final(w: World) {
    && w.c.state == CONNECTED && w.s.state == SERVER_CONNECTED
    && w.c.pc == Idle && w.c.ops == [] && w.s.pc == Done
    && w.c.known.getRdmaAddr && w.c.known.getClassAddr && w.c.known.getSketchAddr
    && w.s.sent.rdma && w.s.sent.cls && w.s.sent.sketch
    && IoIdle(w.c.io) && IoIdle(w.s.io) && w.c.cmEvents == [] && w.s.cmEvents == [] && w.work == NoWork
  }

  /** Everything but the send queue is drained, and the thread waits for the next event. */
  predicate Drained(started: bool, io: Io) {
    && io.qp.acked == [] && io.cq.queue == [] && io.cq.events == 0
    && io.thread == (if started then Waiting else NotStarted)
  }

  lemma IoQuiet(started: bool, io: Io)
    requires HostQueues(started, io) && AckStep(io).None? && |io.cq.queue| < CQ_DEPTH
    requires LoopStep(io).None? && !io.thread.Handle? && !InHandler(io.thread)
    requires !io.thread.Repost? && !io.thread.Decrement?
    ensures Drained(started, io)
  {
  }

  /** Unpolled completions: at most three on the client and two on the server. */
  lemma CompletionsBounded(cfg: Config, w: World)
    requires ValidConfig(cfg) && Inv(cfg, w)
    ensures |w.c.io.cq.queue| <= 3 && |w.s.io.cq.queue| <= 2
    ensures w.c.io.qp.Outstanding() <= 2 && w.s.io.qp.Outstanding() <= 1
  {
    hide ConnInv, OnlyAdvert, OnlyMessage, AdvertContents, MemInv, PcInv, OnlyRequest, DataInv, Encode;
    if ClientStarted(w.c.pc) { ClientOutstanding(w.c.pc, w.c.io, w.c.progress); }
    CountCompletionsTotal(w.s.io.cq.queue);
    CountCompletionsTotal(w.s.io.qp.acked);
    CountRequestsTotal(w.s.io.qp.sq);
    if CountCompletions(w.s.io.qp.acked, KRecv) > 0 { RecvAmong(w.s.io.qp.acked); }
  }

  /** No agent but, perhaps, the client's main thread can step. */
  ghost predicate OthersStuck(cfg: Config, w: World) {
    forall a: Agent :: a != ClientMain ==> Next(cfg, w, a).None?
  }

  lemma StuckQueues(cfg: Config, w: World)
    requires ValidConfig(cfg) && Inv(cfg, w) && OthersStuck(cfg, w)
    ensures Drained(ClientStarted(w.c.pc), w.c.io) && Drained(ServerStarted(w.s.pc), w.s.io)
  {
    hide ConnInv, FirstMessage, SendCounts, OnlyAdvert, AdvertCounts, AdvertContents, MemInv, PcInv;
    hide OnlyRequest, DataInv, Encode, Reads;
    CompletionsBounded(cfg, w);
    ServerOnlySends(cfg, w);
    assert Next(cfg, w, ClientCq).None? && Next(cfg, w, ServerCq).None?;
    assert Next(cfg, w, ClientAck).None? && Next(cfg, w, ServerAck).None?;
    IoQuiet(ClientStarted(w.c.pc), w.c.io);
    IoQuiet(ServerStarted(w.s.pc), w.s.io);
  }

  /** The connection is established, and both main threads know it. */
  lemma StuckConnected(cfg: Config, w: World)
    requires ValidConfig(cfg) && Inv(cfg, w) && Stuck(cfg, w)
    ensures w.c.state == CONNECTED && w.s.state == SERVER_CONNECTED
    ensures w.c.cmEvents == [] && w.s.cmEvents == [] && w.work == NoWork
    ensures ClientPosted(w.c.pc) && ServerAccepted(w.s.pc) && !w.s.pc.WaitState?
  {
    hide HostQueues, FirstMessage, SendCounts, OnlyAdvert, AdvertCounts, AdvertContents, MemInv, OnlyRequest;
    hide DataInv, Encode, Reads;
    assert Next(cfg, w, ClientMain).None? && Next(cfg, w, ServerMain).None?;
    assert Next(cfg, w, ClientCm).None? && Next(cfg, w, ServerCm).None? && Next(cfg, w, CmReport).None?;
  }

  /** No send is waiting for a receive, and no read or write for a region. */
  lemma StuckSendQueues(cfg: Config, w: World)
    requires ValidConfig(cfg) && Inv(cfg, w) && Stuck(cfg, w) && CurrentExecutable(cfg, w)
    ensures w.c.io.qp.sq == [] && w.s.io.qp.sq == []
  {
    hide Inv, Next, CurrentExecutable;
    StuckQueues(cfg, w);
    StuckConnected(cfg, w);
    assert Next(cfg, w, ClientSend).None? && Next(cfg, w, ServerSend).None?;
    if w.c.io.qp.sq != [] {
      if w.c.io.qp.sq[0].Send? { ClientCanSend(cfg, w); } else { ClientCanRead(cfg, w); }
    }
    if w.s.io.qp.sq != [] { ServerCanSend(cfg, w); }
  }

  lemma ClientCanSend(cfg: Config, w: World)
    requires ValidConfig(cfg) && Inv(cfg, w)
    requires w.c.io.qp.sq != [] && w.c.io.qp.sq[0].Send?
    requires Drained(ServerStarted(w.s.pc), w.s.io) && ServerAccepted(w.s.pc)
    ensures Next(cfg, w, ClientSend).Some?
  {
    hide ConnInv, HostQueues, SendCounts, OnlyAdvert, AdvertCounts, AdvertContents, MemInv, PcInv;
    hide OnlyRequest, DataInv, Reads;
    hide OnlyMessage, Encode;
  }

  lemma ClientCanRead(cfg: Config, w: World)
    requires ValidConfig(cfg) && Inv(cfg, w) && CurrentExecutable(cfg, w)
    requires w.c.io.qp.sq != [] && !w.c.io.qp.sq[0].Send?
    ensures Next(cfg, w, ClientSend).Some?
  {
    hide Inv, ReadInto, WriteFrom, Landed, SketchPrefix, SameSizes, Executed, IsVersion, MemInv, Informed;
    hide SameServerRegions, Executable, UnsetRegistered, Fetch;
    HeadIsCurrent(cfg, w);
    InvMemories(cfg, w);
    var (op, i) := Current(w.c.pc).value;
    var r := w.c.io.qp.sq[0];
    CurrentPosition(cfg, w);
    if op.RdmaWrite? {
      WriteLands(cfg, w.c.local, w.s.mem);
    } else if op.OwRead? {
      StrayRead(cfg, r.raddr, r.rkey, i, w.c.local, w.s.mem);
      ElementRegistered(cfg, Informed(cfg, w.c.pc, w.c.ops), i, r.raddr, r.rkey);
    } else {
      InVersions(cfg, w.s.pc, w.s.mem);
      ReadLands(cfg, false, op, i, w.c.local, w.s.mem);
    }
  }

  /** Whatever an ow_read took for address and key. */
  lemma ElementRegistered(cfg: Config, informed: bool, i: nat, addr: int, rkey: U32)
    requires ValidConfig(cfg) && i < cfg.n && (informed || UnsetRegistered(cfg))
    requires MayAddress(cfg, informed, addr, i) && MayKey(cfg, informed, rkey)
    ensures Fetch(cfg.mem, addr, rkey, 4).Some?
  {
    hide Fetch;
    SketchRegistered(cfg, i);
    if !informed {
      assert MixturesRegistered(cfg, i);
    }
  }

  lemma SketchRegistered(cfg: Config, i: nat)
    requires ValidConfig(cfg) && i < cfg.n
    ensures Registered(cfg, cfg.mem.sketch.base, cfg.mem.sketch.rkey, i)
  {
  }

  /** The current operation is the program's, and executable. */
  lemma CurrentPosition(cfg: Config, w: World)
    requires ValidConfig(cfg) && Inv(cfg, w) && CurrentExecutable(cfg, w) && Current(w.c.pc).Some?
    ensures var p := Returned(cfg.ops, w.c.ops); var op := Current(w.c.pc).value.0;
            && p < |cfg.ops| && cfg.ops[p] == op && Executable(cfg, p)
            && (op.RdmaRead? || op.RdmaWrite? ==> StartFits(cfg))
            && (op.OwRead? && !Informed(cfg, w.c.pc, w.c.ops) ==> UnsetRegistered(cfg))
  {
    hide ConnInv, HostQueues, FirstMessage, SendCounts, OnlyAdvert, AdvertCounts, AdvertContents, MemInv, OnlyRequest;
    hide DataInv, Reads, Encode, SameSizes, Delayed, UnsetRegistered;
    assert w.c.ops[0] == cfg.ops[Returned(cfg.ops, w.c.ops)];
  }

  lemma ServerCanSend(cfg: Config, w: World)
    requires ValidConfig(cfg) && Inv(cfg, w) && w.s.io.qp.sq != []
    requires Drained(ClientStarted(w.c.pc), w.c.io) && ClientStarted(w.c.pc)
    ensures Next(cfg, w, ServerSend).Some?
  {
    hide ConnInv, HostQueues, FirstMessage, SendCounts, AdvertContents, MemInv, PcInv, OnlyRequest, DataInv;
    hide Reads, Encode;
    assert w.s.io.qp.sq[0] in w.s.io.qp.sq;
    CountAllSends(w.s.io.qp.sq);
  }

  /** With everything drained, nothing is on its way along either chain. */
  lemma DrainedChains(io: Io)
    requires Drained(true, io) && io.qp.sq == []
    ensures IoIdle(io) && RecvChain(io) == 0 && forall k :: Chain(io.qp, io.cq, io.thread, k) == 0
  {
  }

  lemma StuckServer(cfg: Config, w: World)
    requires ValidConfig(cfg) && Inv(cfg, w) && ServerMainStep(cfg, w).None?
    requires IoIdle(w.c.io) && IoIdle(w.s.io)
    requires ClientPosted(w.c.pc) && ServerAccepted(w.s.pc) && !w.s.pc.WaitState?
    ensures w.s.pc == Done && FlagsSent(w.s.sent) == 3
  {
    hide ConnInv, HostQueues, OnlyMessage, OnlyAdvert, AdvertCounts, AdvertContents, PcInv, OnlyRequest, DataInv, Reads;
    hide Encode, Be, Header, Words, AdvertOf, MemInv;
    DrainedChains(w.s.io);
  }

  lemma StuckClient(cfg: Config, w: World)
    requires ValidConfig(cfg) && Inv(cfg, w) && ClientMainStep(cfg, w).None?
    requires IoIdle(w.c.io) && IoIdle(w.s.io)
    requires ClientPosted(w.c.pc) && w.s.pc == Done
    ensures w.c.pc == Idle && w.c.ops == [] && FlagsGot(w.c.known) == 3
  {
    hide ConnInv, HostQueues, OnlyMessage, OnlyAdvert, FirstMessage, SendCounts, AdvertContents, OnlyRequest, DataInv;
    hide Encode, MemInv, Request;
    DrainedChains(w.c.io);
    assert StartStep(cfg, w.c).None? && OpStep(cfg, w.c).None?;
  }

  /** Deadlock freedom: unless the current operation cannot be executed, nobody can step exactly
      when all is done. */
  lemma StuckIffFinal(cfg: Config, w: World)
    requires ValidConfig(cfg) && Inv(cfg, w) && CurrentExecutable(cfg, w)
    ensures Stuck(cfg, w) <==> Final(w)
  {
    hide Inv, Next, CurrentExecutable;
    if Stuck(cfg, w) {
      StuckQueues(cfg, w);
      StuckConnected(cfg, w);
      StuckSendQueues(cfg, w);
      DrainedChains(w.c.io);
      DrainedChains(w.s.io);
      assert Next(cfg, w, ClientMain).None? && Next(cfg, w, ServerMain).None?;
      MainSteps(cfg, w);
      StuckServer(cfg, w);
      StuckClient(cfg, w);
    }
    if Final(w) {
      forall a: Agent ensures Next(cfg, w, a).None? { FinalIsStuck(cfg, w, a); }
    }
  }

  lemma MainSteps(cfg: Config, w: World)
    ensures Next(cfg, w, ClientMain) == ClientMainStep(cfg, w)
    ensures Next(cfg, w, ServerMain) == ServerMainStep(cfg, w)
  {
  }

  lemma FinalIsStuck(cfg: Config, w: World, a: Agent)
    requires Final(w)
    ensures Next(cfg, w, a).None?
  {
  }
}
