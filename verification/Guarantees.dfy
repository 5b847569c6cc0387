/** What holds in every state of every run, for every configuration and list of operations. */
module Guarantees {
  import opened Bytes
  import opened Verbs
  import opened ClassTransfer
  import opened Rendezvous
  import opened Invariants
  import opened Preservation
  import opened Termination

  /** `w` is a state of some run. */
  ghost predicate Reachable(cfg: Config, w: World) {
    exists agents: seq<Agent> :: Run(cfg, agents) == Some(w)
  }

  lemma ReachableInv(cfg: Config, w: World)
    requires ValidConfig(cfg) && Reachable(cfg, w)
    ensures Inv(cfg, w)
  {
    hide Inv, Run;
    var agents :| Run(cfg, agents) == Some(w);
    RunKeeps(cfg, agents);
  }

  // ---------------------------------------------------------------- progress, termination

  /** No run is longer than its bound, and a run that cannot be continued has finished the
      handshake and every operation, if every operation can be executed. */
  lemma EveryRunFinishes(cfg: Config, agents: seq<Agent>)
    requires ValidConfig(cfg) && Run(cfg, agents).Some?
    ensures |agents| <= RunBound(cfg)
    ensures Completable(cfg) ==>
              ((forall a: Agent :: Run(cfg, agents + [a]).None?) <==> Final(Run(cfg, agents).value))
  {
    hide Inv, Next, Final, Measure, Run, Completable;
    var w := Run(cfg, agents).value;
    RunKeeps(cfg, agents);
    RunsAreShort(cfg, agents);
    MeasureNonNegative(cfg, w);
    if Completable(cfg) {
      AllExecutable(cfg, w);
      StuckIffFinal(cfg, w);
    }
    forall a: Agent ensures Run(cfg, agents + [a]) == Next(cfg, w, a) { RunSnoc(cfg, agents, a); }
  }

  lemma AllExecutable(cfg: Config, w: World)
    requires Completable(cfg)
    ensures CurrentExecutable(cfg, w)
  {
    hide Executable;
  }

  lemma RunSnoc(cfg: Config, agents: seq<Agent>, a: Agent)
    requires Run(cfg, agents).Some?
    ensures Run(cfg, agents + [a]) == Next(cfg, Run(cfg, agents).value, a)
  {
    hide Next;
    assert (agents + [a])[..|agents|] == agents;
  }

  /** From every reachable state the final state can be, and is eventually, reached. */
  lemma {:induction false} CanFinish(cfg: Config, agents: seq<Agent>)
    requires ValidConfig(cfg) && Completable(cfg) && Run(cfg, agents).Some?
    ensures exists more: seq<Agent> :: agents <= more && Run(cfg, more).Some? && Final(Run(cfg, more).value)
    decreases RunBound(cfg) - |agents|
  {
    hide Inv, Next, Final, Run, Completable;
    EveryRunFinishes(cfg, agents);
    if Final(Run(cfg, agents).value) {
      assert agents <= agents;
    } else {
      var a :| Run(cfg, agents + [a]).Some?;
      EveryRunFinishes(cfg, agents + [a]);
      CanFinish(cfg, agents + [a]);
      var more :| agents + [a] <= more && Run(cfg, more).Some? && Final(Run(cfg, more).value);
      assert agents <= more;
    }
  }

  /** Deadlock freedom: in a reachable state no agent can step exactly when all is done. */
  lemma DeadlockFree(cfg: Config, w: World)
    requires ValidConfig(cfg) && Completable(cfg) && Reachable(cfg, w)
    ensures Stuck(cfg, w) <==> Final(w)
  {
    hide Inv, Reachable, Stuck, Final, Completable;
    ReachableInv(cfg, w);
    AllExecutable(cfg, w);
    StuckIffFinal(cfg, w);
  }

  // ------------------------------------------------------------------------- wake-ups

  ghost predicate WakeupPending(io: Io) {
    io.thread == Waiting && io.cq.queue != [] ==> io.cq.events > 0
  }

  /** A CQ thread blocked with completions queued always has an event waiting for it, and the
      notification token is in exactly one place. */
  lemma NoLostWakeup(cfg: Config, w: World)
    requires ValidConfig(cfg) && Reachable(cfg, w)
    ensures WakeupPending(w.c.io) && WakeupPending(w.s.io)
    ensures ClientStarted(w.c.pc) ==> OneToken(w.c.io.cq, w.c.io.thread)
    ensures ServerStarted(w.s.pc) ==> OneToken(w.s.io.cq, w.s.io.thread)
  {
    hide Inv, Reachable, Reads, PcInv;
    ReachableInv(cfg, w);
    InvQueues(cfg, w);
  }

  // ------------------------------------------------------------ pendingReads and the flag

  /** Statements whose executions are counted. */
  datatype Event = ReadPosted | ReadCounted | ReadPolled | ReadDecremented

  predicate Happens(e: Event, w: World, a: Agent) {
    match e
    case ReadPosted => a == ClientMain && w.c.pc.Post? && !w.c.pc.op.RdmaWrite?
    case ReadCounted => a == ClientMain && w.c.pc.Count?
    case ReadPolled => a == ClientCq && w.c.io.thread == Handle(ReadDone)
    case ReadDecremented => a == ClientCq && w.c.io.thread == Decrement
  }

  /** How often `e` was executed in the run. */
  function Times(cfg: Config, agents: seq<Agent>, e: Event): nat {
    if agents == [] then 0
    else
      var front := agents[..|agents| - 1];
      Times(cfg, front, e)
      + (if Run(cfg, front).Some? && Happens(e, Run(cfg, front).value, agents[|agents| - 1]) then 1 else 0)
  }

  /** The reads between post and flag, and those between flag and decrement. */
  function Unflagged(c: Client): nat { Chain(c.io.qp, c.io.cq, c.io.thread, KRead) }

  lemma StepCounts(cfg: Config, w: World, a: Agent)
    requires ValidConfig(cfg) && Reachable(cfg, w) && Next(cfg, w, a).Some?
    ensures var v := Next(cfg, w, a).value;
            && Unflagged(v.c) == Unflagged(w.c) + Bit(Happens(ReadPosted, w, a)) - Bit(Happens(ReadPolled, w, a))
            && v.c.progress.pendingReads
               == w.c.progress.pendingReads + Bit(Happens(ReadCounted, w, a)) - Bit(Happens(ReadDecremented, w, a))
  {
    hide Inv, Unflagged, Next, Reachable;
    ReachableInv(cfg, w);
    match a
    case ClientMain => MainCounts(cfg, w);
    case ClientCq => CqCounts(cfg, w);
    case ClientSend => SendKeepsUnflagged(cfg, w);
    case ClientAck => AckKeepsUnflagged(cfg, w);
    case ServerSend => ServerSendKeepsUnflagged(cfg, w);
    case _ => OthersKeep(cfg, w, a);
  }

  lemma OthersKeep(cfg: Config, w: World, a: Agent)
    requires a.ClientCm? || a.CmReport? || a.ServerMain? || a.ServerCm? || a.ServerCq? || a.ServerAck?
    requires Next(cfg, w, a).Some?
    ensures var v := Next(cfg, w, a).value; Unflagged(v.c) == Unflagged(w.c) && v.c.progress == w.c.progress
  {
    hide ServerStep, ServerCqStep, AckStep;
  }

  lemma InvQueues(cfg: Config, w: World)
    requires ValidConfig(cfg) && Inv(cfg, w)
    ensures HostQueues(ClientStarted(w.c.pc), w.c.io) && HostQueues(ServerStarted(w.s.pc), w.s.io)
    ensures Reads(w.c.pc, w.c.io, w.c.progress) && PcInv(cfg.n, w.c.pc, w.c.ops, w.c.known)
  {
    hide ConnInv, HostQueues, FirstMessage, SendCounts, OnlyAdvert, AdvertCounts, AdvertContents, MemInv, PcInv;
    hide OnlyRequest, DataInv, Reads, Encode;
  }

  lemma AckKeepsUnflagged(cfg: Config, w: World)
    requires ValidConfig(cfg) && Inv(cfg, w) && Next(cfg, w, ClientAck).Some?
    ensures var v := Next(cfg, w, ClientAck).value; Unflagged(v.c) == Unflagged(w.c) && v.c.progress == w.c.progress
  {
    hide Inv, HostQueues, Chain, AckStep, Reads, PcInv;
    InvQueues(cfg, w);
    AckMoves(ClientStarted(w.c.pc), w.c.io);
  }

  lemma SendKeepsUnflagged(cfg: Config, w: World)
    requires ValidConfig(cfg) && Inv(cfg, w) && Next(cfg, w, ClientSend).Some?
    ensures var v := Next(cfg, w, ClientSend).value; Unflagged(v.c) == Unflagged(w.c) && v.c.progress == w.c.progress
  {
    hide Inv, HostQueues, Chain, Reads, PcInv, ReadInto, WriteFrom, Executed, Deliver;
    InvQueues(cfg, w);
    var r := w.c.io.qp.sq[0];
    match r
    case Send(wrId, _) => ExecutedMoves(ClientStarted(w.c.pc), w.c.io, SendDone(wrId));
    case Read(_, _, _) => ExecutedMoves(ClientStarted(w.c.pc), w.c.io, ReadDone);
    case Write(_, _, _) => ExecutedMoves(ClientStarted(w.c.pc), w.c.io, WriteDone);
  }

  lemma ServerSendKeepsUnflagged(cfg: Config, w: World)
    requires ValidConfig(cfg) && Inv(cfg, w) && Next(cfg, w, ServerSend).Some?
    ensures var v := Next(cfg, w, ServerSend).value; Unflagged(v.c) == Unflagged(w.c) && v.c.progress == w.c.progress
  {
    hide Inv, HostQueues, Chain, Reads, PcInv, Executed, Deliver;
    InvQueues(cfg, w);
    DeliverMoves(ClientStarted(w.c.pc), w.c.io, |w.s.sendBuf|, w.s.io.qp.sq[0].imm);
  }

  lemma CqCounts(cfg: Config, w: World)
    requires ValidConfig(cfg) && Inv(cfg, w) && Next(cfg, w, ClientCq).Some?
    ensures var v := Next(cfg, w, ClientCq).value;
            && Unflagged(v.c) == Unflagged(w.c) - Bit(Happens(ReadPolled, w, ClientCq))
            && v.c.progress.pendingReads == w.c.progress.pendingReads - Bit(Happens(ReadDecremented, w, ClientCq))
  {
    hide Inv, StoreAddress, StoreRest, SetFlag, Decode, FromBe;
  }

  lemma MainCounts(cfg: Config, w: World)
    requires ValidConfig(cfg) && Inv(cfg, w) && Next(cfg, w, ClientMain).Some?
    ensures var v := Next(cfg, w, ClientMain).value;
            && Unflagged(v.c) == Unflagged(w.c) + Bit(Happens(ReadPosted, w, ClientMain))
            && v.c.progress.pendingReads == w.c.progress.pendingReads + Bit(Happens(ReadCounted, w, ClientMain))
  {
    hide Inv, Chain, Request, HostQueues, Encode, PcInv;
    InvQueues(cfg, w);
    MeasureFacts(cfg, w);
    FreshChain();
    if w.c.pc.Post? {
      PostSucceeds(cfg, w.c);
      PostMoves(true, w.c.io, Request(w.c.known, w.c.wr, w.c.pc.op, w.c.pc.i));
      RequestKinds(w.c.known, w.c.wr, w.c.pc.op, w.c.pc.i);
    } else if w.c.pc.PostTriple? {
      PostMoves(true, w.c.io, Send(0, []));
    }
  }

  lemma FreshChain()
    ensures forall io, k :: io == StartIo() || io == NO_IO ==> Chain(io.qp, io.cq, io.thread, k) == 0
  {
  }

  lemma RequestKinds(known: Known, wr: Target, op: Op, i: nat)
    ensures RequestKind(Request(known, wr, op, i)) == if op.RdmaWrite? then KWrite else KRead
  {
  }

  /** Conservation over every run: what is posted is polled or in between, what is counted is
      decremented or still in pendingReads. */
  lemma {:induction false} Conservation(cfg: Config, agents: seq<Agent>)
    requires ValidConfig(cfg) && Run(cfg, agents).Some?
    ensures var c := Run(cfg, agents).value.c;
            && Times(cfg, agents, ReadPosted) == Times(cfg, agents, ReadPolled) + Unflagged(c)
            && c.progress.pendingReads == Times(cfg, agents, ReadCounted) - Times(cfg, agents, ReadDecremented)
  {
    hide Inv, Next, Unflagged, Happens;
    if agents == [] {
      FreshCounts(cfg);
    } else {
      var front := agents[..|agents| - 1];
      Conservation(cfg, front);
      assert Reachable(cfg, Run(cfg, front).value);
      StepCounts(cfg, Run(cfg, front).value, agents[|agents| - 1]);
    }
  }

  lemma FreshCounts(cfg: Config)
    ensures Unflagged(Init(cfg).c) == 0 && Init(cfg).c.progress.pendingReads == 0
  {
    hide Be;
  }

  /** pendingReads stays in -1..2; between operations it is 0, so ow_read's reset changes
      nothing, and no operation returns with a read of its own outstanding. */
  lemma PendingReadsRange(cfg: Config, w: World)
    requires ValidConfig(cfg) && Reachable(cfg, w)
    ensures -1 <= w.c.progress.pendingReads <= 2
    ensures !InOperation(w.c.pc) || w.c.pc.Idle? || w.c.pc.Return? ==>
              w.c.progress.pendingReads == 0 && Unflagged(w.c) == 0 && w.c.io.thread != Decrement
  {
    hide Inv, HostQueues, PcInv, Chain, Reachable;
    ReachableInv(cfg, w);
    InvQueues(cfg, w);
  }

  /** Once an operation has posted its read - in iteration i of ow_read, or in rdma_read or
      read_class - and until it goes on, RDMA_READ_COMPLETE is true exactly when every read posted
      so far, this one included, has been polled: the flag of an earlier read is never taken for
      it. */
  lemma FlagIsFresh(cfg: Config, agents: seq<Agent>)
    requires ValidConfig(cfg) && Run(cfg, agents).Some?
    requires ReadActive(Run(cfg, agents).value.c.pc)
    ensures Run(cfg, agents).value.c.progress.readComplete <==>
              Times(cfg, agents, ReadPolled) == Times(cfg, agents, ReadPosted)
  {
    hide Inv, HostQueues, PcInv, Chain, Times, Run;
    RunKeeps(cfg, agents);
    InvQueues(cfg, Run(cfg, agents).value);
    Conservation(cfg, agents);
  }

  /** RDMA_WRITE_COMPLETE likewise, while rdma_write waits for it. */
  lemma WriteFlagIsFresh(cfg: Config, w: World)
    requires ValidConfig(cfg) && Reachable(cfg, w) && WriteActive(w.c.pc)
    ensures w.c.progress.writeComplete <==> Chain(w.c.io.qp, w.c.io.cq, w.c.io.thread, KWrite) == 0
  {
    hide Inv, HostQueues, PcInv, Chain, Reachable;
    ReachableInv(cfg, w);
    InvQueues(cfg, w);
  }

  // --------------------------------------------------------------- what the reads bring

  lemma InvData(cfg: Config, w: World)
    requires ValidConfig(cfg) && Inv(cfg, w)
    ensures MemInv(cfg, w.s.pc, w.s.mem) && SameSizes(w.c.local, cfg.local)
    ensures PcInv(cfg.n, w.c.pc, w.c.ops, w.c.known) && Schedule(cfg, w.c.ops, w.c.known)
    ensures DataInv(cfg, Informed(cfg, w.c.pc, w.c.ops), w.c.pc, w.c.io.qp.sq, w.c.local, w.s.mem)
  {
    hide ConnInv, HostQueues, FirstMessage, SendCounts, OnlyAdvert, AdvertCounts, AdvertContents, MemInv, PcInv;
    hide OnlyRequest, DataInv, Reads, Encode, Schedule, Informed, SameSizes;
  }

  /** GET_SKETCH_ADDR implies GET_CLASS_ADDR implies GET_RDMA_ADDR; and GET_SKETCH_ADDR implies
      that both the sketch and the serialised class are complete in server memory. */
  lemma Causality(cfg: Config, w: World)
    requires ValidConfig(cfg) && Reachable(cfg, w)
    ensures w.c.known.getSketchAddr ==> w.c.known.getClassAddr
    ensures w.c.known.getClassAddr ==> w.c.known.getRdmaAddr
    ensures w.c.known.getSketchAddr ==>
              && w.s.mem.sketch.bytes == SketchBytes(cfg.n)
              && w.s.mem.cls.bytes == Serialized(cfg.obj, cfg.mem.cls.bytes)
    ensures w.c.known.getRdmaAddr ==> w.s.peer.getRemoteAddr && w.s.peer.remote == cfg.clientStart
  {
    ReachableInv(cfg, w);
    hide ConnInv, HostQueues, SendCounts, OnlyAdvert, AdvertContents, PcInv, OnlyRequest, DataInv, Reads, Encode;
    hide OnlyMessage, SketchBytes, Serialized, Partly, Header, Reachable, Schedule, Informed, SameSizes;
    CopyAdvances(cfg.obj, cfg.mem.cls.bytes, CopiedWords(cfg.obj));
    if w.c.known.getRdmaAddr { assert AdvertsPosted(w.s.pc) >= 1; }
  }

  lemma {:induction false} SketchBytesPrefix(j: nat, n: nat)
    requires j <= n
    ensures SketchBytes(n)[..4 * j] == SketchBytes(j)
  {
    if j < n {
      SketchBytesPrefix(j, n - 1);
      assert SketchBytes(n)[..4 * j] == SketchBytes(n - 1)[..4 * j];
    }
  }

  lemma SketchSlot(n: nat, i: nat)
    requires i < n
    ensures SketchBytes(n)[4 * i..4 * i + 4] == Le(4, i)
  {
    hide Le;
    SketchBytesPrefix(i + 1, n);
    var s := SketchBytes(n);
    assert s[4 * i..4 * i + 4] == s[..4 * (i + 1)][4 * i..4 * i + 4] == SketchBytes(i + 1)[4 * i..4 * i + 4];
  }

  lemma WordIs(sketch: seq<Byte>, k: nat)
    requires k < TWO_32 && 4 * k + 4 <= |sketch| && sketch[4 * k..4 * k + 4] == Le(4, k)
    ensures WordAt(sketch, 4 * k) == k
  {
    WordWidths();
    LeRoundTrip(4, k);
  }

  lemma SketchWord(n: nat, k: nat)
    requires k < n <= TWO_32
    ensures WordAt(SketchBytes(n), 4 * k) == k
  {
    hide Le, FromLe, WordAt, SketchBytes;
    SketchSlot(n, k);
    WordIs(SketchBytes(n), k);
  }

  /** With the third advertisement posted, both copies and the fill loop are done. */
  lemma FinishedMemory(cfg: Config, w: World)
    requires ValidConfig(cfg) && Reachable(cfg, w) && AdvertsPosted(w.s.pc) == 3
    ensures w.s.mem.cls.bytes == Serialized(cfg.obj, cfg.mem.cls.bytes) && w.s.mem.sketch.bytes == SketchBytes(cfg.n)
  {
    hide Reachable, Inv, Serialized, SketchBytes, Partly;
    ReachableInv(cfg, w);
    InvMemories(cfg, w);
    CopyAdvances(cfg.obj, cfg.mem.cls.bytes, CopiedWords(cfg.obj));
    var s := w.s.mem.sketch.bytes;
    assert s[..4 * cfg.n] == s;
  }

  /** Who was told the sketch's address before an operation knows it in that operation. */
  lemma InformedKnows(cfg: Config, w: World)
    requires ValidConfig(cfg) && Reachable(cfg, w) && Informed(cfg, w.c.pc, w.c.ops)
    ensures w.c.known.getSketchAddr
  {
    hide Inv, Reachable, MemInv, DataInv, Delayed;
    ReachableInv(cfg, w);
    InvData(cfg, w);
  }

  /** When an ow_read that waited for its address, or came after an operation that did, returns,
      every slot of the local sketch buffer holds the server's element, which is its own index -
      for every interleaving and any data_size. */
  lemma OwReadCorrect(cfg: Config, w: World)
    requires ValidConfig(cfg) && Reachable(cfg, w) && w.c.pc.Return? && w.c.pc.op.OwRead?
    requires Informed(cfg, w.c.pc, w.c.ops)
    ensures w.c.local.sketch == w.s.mem.sketch.bytes
    ensures forall k :: 0 <= k < cfg.n ==> 4 * k + 4 <= |w.c.local.sketch| && WordAt(w.c.local.sketch, 4 * k) == k
  {
    hide Inv, MemInv, Reachable, SketchBytes, Informed;
    ReachableInv(cfg, w);
    InvData(cfg, w);
    InformedKnows(cfg, w);
    Causality(cfg, w);
    var l, m := w.c.local.sketch, w.s.mem.sketch.bytes;
    assert |l| == 4 * cfg.n && l == l[..4 * cfg.n] && m == m[..4 * cfg.n];
    forall k | 0 <= k < cfg.n ensures WordAt(l, 4 * k) == k { SketchWord(cfg.n, k); }
  }

  /** When rdma_read returns, the client's buffer starts with the server's start buffer. */
  lemma RdmaReadCorrect(cfg: Config, w: World)
    requires ValidConfig(cfg) && Reachable(cfg, w) && w.c.pc == Return(RdmaRead)
    ensures |w.s.mem.start.bytes| <= |w.c.local.rdma| && w.c.local.rdma[..|w.s.mem.start.bytes|] == w.s.mem.start.bytes
  {
    hide Inv, MemInv, Reachable;
    ReachableInv(cfg, w);
    InvData(cfg, w);
  }

  /** When rdma_write returns, the server's start buffer is the start of the client's buffer,
      and that holds the message, as far as each reaches. */
  lemma RdmaWriteCorrect(cfg: Config, w: World)
    requires ValidConfig(cfg) && Reachable(cfg, w) && w.c.pc == Return(RdmaWrite)
    ensures |w.s.mem.start.bytes| <= |w.c.local.rdma| && w.c.local.rdma[..|w.s.mem.start.bytes|] == w.s.mem.start.bytes
    ensures forall i :: 0 <= i < |cfg.message| && i < |w.s.mem.start.bytes| ==> w.s.mem.start.bytes[i] == cfg.message[i]
  {
    hide Inv, MemInv, Reachable;
    ReachableInv(cfg, w);
    InvData(cfg, w);
    var l, m := w.c.local.rdma, w.s.mem.start.bytes;
    forall i | 0 <= i < |cfg.message| && i < |m| ensures m[i] == cfg.message[i] {
      assert m[i] == l[..|m|][i] == l[i] == l[..|cfg.message|][i];
    }
  }

  /** When a read_class that waited for GET_SKETCH_ADDR, or came after an operation that did,
      returns, the object it builds has the server's three words; and it is the server's in full
      if and only if the data buffer already had the elements beyond the first 100. */
  lemma ReadClassCorrect(cfg: Config, w: World)
    requires ValidConfig(cfg) && Reachable(cfg, w) && w.c.pc.Return? && w.c.pc.op.ReadClass?
    requires Informed(cfg, w.c.pc, w.c.ops)
    ensures |w.c.local.classData| >= HEADER_SIZE
    ensures var r := Reconstruct(w.c.local.classData, w.c.local.classBuf);
            && r.size == cfg.obj.size && r.a == cfg.obj.a && r.b == cfg.obj.b
            && (Agrees(r, cfg.obj) <==> TailHolds(cfg.local.classBuf, cfg.obj))
    ensures var l := w.c.local; var remote := Serialized(cfg.obj, cfg.mem.cls.bytes);
            && |l.classBuf| == 4000 && l.classData[..32] == remote[..32] && l.classBuf[..400] == remote[32..432]
            && (forall k :: 0 <= k < cfg.obj.size && k < 100 ==> WordAt(l.classBuf, 4 * k) == cfg.obj.data[k])
            && l.classBuf[400..] == cfg.local.classBuf[400..]
  {
    hide Inv, MemInv, Reachable, Serialized, Agrees, Reconstruct, TailHolds, Informed, WordAt;
    ReachableInv(cfg, w);
    InvData(cfg, w);
    InformedKnows(cfg, w);
    Causality(cfg, w);
    LocalClassSizes(cfg, w.c.local);
    LandedIsAfterRead(w.c.local.classData, w.c.local.classBuf, w.s.mem.cls.bytes);
    RoundTrip(cfg.obj, cfg.mem.cls.bytes, w.c.local.classData, w.c.local.classBuf);
    SameTail(w.c.local.classBuf, cfg.local.classBuf, cfg.obj);
    SerializedWords(cfg.obj, cfg.mem.cls.bytes);
    forall k | 0 <= k < cfg.obj.size && k < 100 ensures WordAt(w.c.local.classBuf, 4 * k) == cfg.obj.data[k] {
      var l, remote := w.c.local.classBuf, w.s.mem.cls.bytes;
      assert l[0..400] == l[..400] == remote[32..432];
      WordWithin(l, 0, 400, 4 * k);
      WordWithin(remote, 32, 432, 4 * k);
    }
  }

  /** Buffers that already hold what a read of `remote` brings are not changed by it. */
  lemma LandedIsAfterRead(h: seq<Byte>, d: seq<Byte>, remote: seq<Byte>)
    requires |h| == CLASS_RECV_DATA_SIZE && |d| == CLASS_RECV_BUF_SIZE && |remote| >= HEADER_SIZE + 4 * RECV_WORDS
    requires h[..HEADER_SIZE] == remote[..HEADER_SIZE]
    requires d[..4 * RECV_WORDS] == remote[HEADER_SIZE..HEADER_SIZE + 4 * RECV_WORDS]
    ensures AfterRead(h, d, remote) == Reconstruct(h, d)
  {
    assert Put(h, 0, remote[..HEADER_SIZE]) == h;
    assert Put(d, 0, remote[HEADER_SIZE..HEADER_SIZE + 4 * RECV_WORDS]) == d;
  }

  /** Word `m` of class_send_buf once the first `j` are copied: the object's or the stale one. */
  function WordOf(cfg: Config, j: nat, m: nat): U32
    requires WellFormed(cfg.obj) && HEADER_SIZE + 4 * cfg.obj.size <= |cfg.mem.cls.bytes|
    requires 4 * m + 4 <= |cfg.mem.cls.bytes|
  {
    WordAt(if m < j then Serialized(cfg.obj, cfg.mem.cls.bytes) else cfg.mem.cls.bytes, 4 * m)
  }

  /** The client's two class buffers hold the object's words up to word `j`, stale ones from there. */
  ghost predicate SeesFirst(cfg: Config, l: LocalMemory, j: nat)
    requires ValidConfig(cfg)
  {
    && |l.classData| >= HEADER_SIZE && |l.classBuf| >= 4 * RECV_WORDS
    && (forall k :: 0 <= k < HEADER_WORDS ==> WordAt(l.classData, 4 * k) == WordOf(cfg, j, k))
    && (forall k :: 0 <= k < RECV_WORDS ==> WordAt(l.classBuf, 4 * k) == WordOf(cfg, j, HEADER_WORDS + k))
  }

  /** When a read_class that was called on GET_CLASS_ADDR alone returns, each word its caller
      sees is the object's or the stale one, never a mixture, and the new ones come first. */
  lemma ReadClassWords(cfg: Config, w: World)
    requires ValidConfig(cfg) && Reachable(cfg, w) && w.c.pc.Return? && w.c.pc.op.ReadClass?
    requires !Informed(cfg, w.c.pc, w.c.ops)
    ensures exists j :: 0 <= j <= CopiedWords(cfg.obj) && SeesFirst(cfg, w.c.local, j)
  {
    hide Inv, MemInv, Reachable, Informed, Partly, SeesFirst;
    ReachableInv(cfg, w);
    InvData(cfg, w);
    var j :| 0 <= j <= CopiedWords(cfg.obj) && ClassLanded(w.c.local, Partly(cfg.obj, cfg.mem.cls.bytes, j));
    VersionSeen(cfg, w.c.local, j);
  }

  lemma VersionSeen(cfg: Config, l: LocalMemory, j: nat)
    requires ValidConfig(cfg) && j <= CopiedWords(cfg.obj)
    requires ClassLanded(l, Partly(cfg.obj, cfg.mem.cls.bytes, j))
    ensures SeesFirst(cfg, l, j)
  {
    hide WordAt, Partly, Serialized;
    var b := Partly(cfg.obj, cfg.mem.cls.bytes, j);
    assert l.classData[0..HEADER_SIZE] == l.classData[..HEADER_SIZE] == b[0..HEADER_SIZE];
    assert l.classBuf[0..4 * RECV_WORDS] == l.classBuf[..4 * RECV_WORDS];
    forall k | 0 <= k < HEADER_WORDS ensures WordAt(l.classData, 4 * k) == WordOf(cfg, j, k) {
      WordWithin(l.classData, 0, HEADER_SIZE, 4 * k);
      WordWithin(b, 0, HEADER_SIZE, 4 * k);
      PartlyWord(cfg.obj, cfg.mem.cls.bytes, j, k);
    }
    forall k | 0 <= k < RECV_WORDS ensures WordAt(l.classBuf, 4 * k) == WordOf(cfg, j, HEADER_WORDS + k) {
      WordWithin(l.classBuf, 0, 4 * RECV_WORDS, 4 * k);
      WordWithin(b, HEADER_SIZE, HEADER_SIZE + 4 * RECV_WORDS, 4 * k);
      PartlyWord(cfg.obj, cfg.mem.cls.bytes, j, HEADER_WORDS + k);
    }
  }

  // --------------------------------------------------------------- buffers and credits

  /** The client's receive credits: posted, received and not handled, being handled, or about
      to be posted again. */
  function ClientCredits(c: Client): nat {
    c.io.qp.recvs + RecvChain(c.io) + Bit(InHandler(c.io.thread)) + Bit(c.io.thread.Repost?)
  }

  /** The server's: posted, received and not handled, being handled, or handled for good. */
  function ServerCredits(s: Server): nat {
    s.io.qp.recvs + RecvChain(s.io) + Bit(s.io.thread.Stored?) + Bit(s.peer.getRemoteAddr)
  }

  lemma CreditsOf(cfg: Config, w: World)
    requires ValidConfig(cfg) && Inv(cfg, w)
    ensures ClientCredits(w.c) == Bit(ClientStarted(w.c.pc)) && ServerCredits(w.s) == Bit(ServerStarted(w.s.pc))
  {
    hide ConnInv, HostQueues, SendCounts, OnlyAdvert, AdvertContents, MemInv, PcInv, OnlyRequest, DataInv;
    hide Reads, Encode, RecvChain, OnlyMessage;
  }

  /** Receive credits are conserved: one on each host once it has started. */
  lemma Credits(cfg: Config, w: World)
    requires ValidConfig(cfg) && Reachable(cfg, w)
    ensures ClientCredits(w.c) == Bit(ClientStarted(w.c.pc)) && ServerCredits(w.s) == Bit(ServerStarted(w.s.pc))
  {
    hide Inv, Reachable, RecvChain;
    ReachableInv(cfg, w);
    CreditsOf(cfg, w);
  }

  /** No request is outstanding, and no send's completion is waiting to be handled. */
  ghost predicate NoSendInFlight(io: Io) {
    io.qp.Outstanding() == 0 && Chain(io.qp, io.cq, io.thread, KSend) == 0
  }

  /** A host's single receive buffer holds a message that has not been decoded. */
  predicate Undecoded(io: Io) { RecvChain(io) > 0 }

  /** send_buf is rewritten only with nothing in flight from it, and recv_buf only with no
      undecoded message in it, on either host. */
  lemma BuffersAreSafe(cfg: Config, w: World, a: Agent)
    requires ValidConfig(cfg) && Reachable(cfg, w) && Next(cfg, w, a).Some?
    ensures var v := Next(cfg, w, a).value;
            && (v.s.sendBuf != w.s.sendBuf ==> NoSendInFlight(w.s.io))
            && (v.c.sendBuf != w.c.sendBuf ==> w.c.io.qp.Outstanding() == 0)
            && (v.c.recvBuf != w.c.recvBuf ==> !Undecoded(w.c.io))
            && (v.s.recvBuf != w.s.recvBuf ==> !Undecoded(w.s.io))
  {
    hide Inv, Reachable, Chain, Next, RecvChain;
    ReachableInv(cfg, w);
    CreditsOf(cfg, w);
    match a
    case ServerMain => ServerFillsSafely(cfg, w);
    case ClientMain => ClientFillsSafely(cfg, w);
    case _ => OthersDeliverSafely(cfg, w, a);
  }

  /** Only a delivery writes a receive buffer, and it takes a posted receive. */
  lemma OthersDeliverSafely(cfg: Config, w: World, a: Agent)
    requires !a.ServerMain? && !a.ClientMain? && Next(cfg, w, a).Some?
    ensures var v := Next(cfg, w, a).value;
            && v.s.sendBuf == w.s.sendBuf && v.c.sendBuf == w.c.sendBuf
            && (v.c.recvBuf != w.c.recvBuf ==> w.c.io.qp.recvs > 0)
            && (v.s.recvBuf != w.s.recvBuf ==> w.s.io.qp.recvs > 0)
  {
    hide Executed, Deliver, ReadInto, WriteFrom, AckStep, LoopStep, StoreAddress, StoreRest, SetFlag, MarkSent, Decode;
    hide FromBe, At, PostRecv;
  }

  lemma ServerFillsSafely(cfg: Config, w: World)
    requires ValidConfig(cfg) && Inv(cfg, w) && Next(cfg, w, ServerMain).Some?
    ensures var v := Next(cfg, w, ServerMain).value;
            && (v.s.sendBuf != w.s.sendBuf ==> NoSendInFlight(w.s.io))
            && v.c == w.c && v.s.recvBuf == w.s.recvBuf
  {
    hide ConnInv, HostQueues, FirstMessage, AdvertCounts, AdvertContents, MemInv, PcInv, OnlyRequest, DataInv, Reads;
    hide Encode, Chain, StoreAt, Header, Words, Be, AdvertOf;
    if w.s.pc.Fill? { NothingOutstanding(w.s.io, AdvertsPosted(w.s.pc)); }
  }

  lemma ClientFillsSafely(cfg: Config, w: World)
    requires ValidConfig(cfg) && Inv(cfg, w) && Next(cfg, w, ClientMain).Some?
    ensures var v := Next(cfg, w, ClientMain).value;
            && (v.c.sendBuf != w.c.sendBuf ==> w.c.io.qp.Outstanding() == 0)
            && v.c.recvBuf == w.c.recvBuf && v.s == w.s
  {
    hide Inv, HostQueues, Reads, PcInv, Encode, Request;
    InvQueues(cfg, w);
    if w.c.pc.FillSend? { ClientOutstanding(w.c.pc, w.c.io, w.c.progress); }
  }

  /** A flag that is set stands for exactly the triple the server encoded under its immediate. */
  lemma TriplesAreExact(cfg: Config, w: World)
    requires ValidConfig(cfg) && Reachable(cfg, w)
    ensures w.c.known.getRdmaAddr ==>
              w.c.known.remote == Triple(cfg.mem.start.base, |cfg.mem.start.bytes|, cfg.mem.start.rkey)
    ensures w.c.known.getClassAddr ==>
              w.c.known.classInfo == Triple(cfg.mem.cls.base, 32, cfg.mem.cls.rkey)
    ensures w.c.known.getSketchAddr ==>
              w.c.known.sketchInfo == Triple(cfg.mem.sketch.base, cfg.n, cfg.mem.sketch.rkey)
    ensures w.s.peer.getRemoteAddr ==> w.s.peer.remote == cfg.clientStart
  {
    ReachableInv(cfg, w);
    hide ConnInv, HostQueues, SendCounts, OnlyAdvert, MemInv, PcInv, OnlyRequest, DataInv, Reads, Encode;
    hide RecvChain, OnlyMessage, Reachable;
    var k := w.c.known;
    if k.getRdmaAddr { assert StoredTriple(k, 0) == Advert(cfg, 0); }
    if k.getClassAddr { assert StoredTriple(k, 1) == Advert(cfg, 1); }
    if k.getSketchAddr { assert StoredTriple(k, 2) == Advert(cfg, 2); }
  }

  /** What the server has in its send queue is one of its three messages: the wr_id, the immediate
      as the four bytes on the wire - 1122, 1123 or 1124 - and the triple in send_buf. */
  ghost predicate IsMessage(cfg: Config, r: WorkRequest, sendBuf: seq<Byte>)
    requires ValidConfig(cfg)
  {
    || (r == Send(0, [0, 0, 4, 98])
        && sendBuf == Encode(Triple(cfg.mem.start.base, |cfg.mem.start.bytes|, cfg.mem.start.rkey)))
    || (r == Send(1123, [0, 0, 4, 99]) && sendBuf == Encode(Triple(cfg.mem.cls.base, 32, cfg.mem.cls.rkey)))
    || (r == Send(1124, [0, 0, 4, 100]) && sendBuf == Encode(Triple(cfg.mem.sketch.base, cfg.n, cfg.mem.sketch.rkey)))
  }

  lemma SomeSend(sq: seq<WorkRequest>, r: WorkRequest)
    requires r in sq && r.Send?
    ensures CountRequests(sq, KSend) > 0
  {
    if CountRequests(sq, KSend) == 0 { CountRequestsNone(sq, KSend); }
  }

  lemma ServerSendsAre(cfg: Config, w: World, r: WorkRequest)
    requires ValidConfig(cfg) && Reachable(cfg, w) && r in w.s.io.qp.sq
    ensures exists k: Index :: r == Send(WrId(k), Be(4, Immediate(k))) && w.s.sendBuf == Encode(Advert(cfg, k))
  {
    hide Reachable, Encode, Be;
    ReachableInv(cfg, w);
    hide ConnInv, HostQueues, FirstMessage, AdvertCounts, AdvertContents, MemInv, Operations;
    SomeSend(w.s.io.qp.sq, r);
    var k := Last(AdvertsPosted(w.s.pc));
    assert r == Send(WrId(k), Be(4, Immediate(k))) && w.s.sendBuf == Encode(Advert(cfg, k));
  }

  lemma ServerMessage(cfg: Config, w: World, r: WorkRequest)
    requires ValidConfig(cfg) && Reachable(cfg, w) && r in w.s.io.qp.sq
    ensures IsMessage(cfg, r, w.s.sendBuf)
  {
    hide Reachable, Encode, Be;
    WordBytesAre(1122); WordBytesAre(1123); WordBytesAre(1124);
    ServerSendsAre(cfg, w, r);
  }

  lemma ClientMessage(cfg: Config, w: World, r: WorkRequest)
    requires ValidConfig(cfg) && Reachable(cfg, w) && r in w.c.io.qp.sq && r.Send?
    ensures r == Send(0, []) && w.c.sendBuf == Encode(cfg.clientStart)
  {
    hide Reachable, Encode, Be;
    ReachableInv(cfg, w);
    hide ConnInv, HostQueues, SendCounts, OnlyAdvert, AdvertCounts, AdvertContents, MemInv, Operations, RecvChain;
    SomeSend(w.c.io.qp.sq, r);
  }

  /** Every message on its way: the server's three with their immediates and wr_ids, the client's
      one with its own triple. */
  lemma MessagesAreExact(cfg: Config, w: World)
    requires ValidConfig(cfg) && Reachable(cfg, w)
    ensures forall r :: r in w.s.io.qp.sq ==> IsMessage(cfg, r, w.s.sendBuf)
    ensures forall r :: r in w.c.io.qp.sq && r.Send? ==> r == Send(0, []) && w.c.sendBuf == Encode(cfg.clientStart)
  {
    hide Reachable, Encode, IsMessage;
    forall r | r in w.s.io.qp.sq ensures IsMessage(cfg, r, w.s.sendBuf) { ServerMessage(cfg, w, r); }
    forall r | r in w.c.io.qp.sq && r.Send? ensures r == Send(0, []) && w.c.sendBuf == Encode(cfg.clientStart) {
      ClientMessage(cfg, w, r);
    }
  }

  /** How many of the server's messages have reached the client's receive buffer. */
  function Delivered(c: Client): nat { RecvChain(c.io) + Bit(InHandler(c.io.thread)) + FlagsGot(c.known) }

  /** A send-completion flag means that its message has been delivered, and those before it. */
  lemma SentMeansDelivered(cfg: Config, w: World)
    requires ValidConfig(cfg) && Reachable(cfg, w)
    ensures w.s.sent.rdma ==> Delivered(w.c) >= 1
    ensures w.s.sent.cls ==> Delivered(w.c) >= 2
    ensures w.s.sent.sketch ==> Delivered(w.c) == 3
  {
    hide Reachable, Encode;
    ReachableInv(cfg, w);
    hide ConnInv, HostQueues, FirstMessage, OnlyAdvert, AdvertContents, MemInv, Operations, RecvChain;
  }

  // --------------------------------------------------------------------- bounds and errors

  /** No queue overflows, no thread reaches exit(1), and every one-sided request of an executable
      operation lies within registered memory on both hosts. */
  lemma NoErrors(cfg: Config, w: World)
    requires ValidConfig(cfg) && Reachable(cfg, w)
    ensures w.c.io.qp.Outstanding() <= 2 && w.s.io.qp.Outstanding() <= 1
    ensures |w.c.io.cq.queue| <= 3 && |w.s.io.cq.queue| <= 2
    ensures !w.c.pc.Exit? && !w.s.pc.ServerExit? && !w.c.io.thread.CqExit? && !w.s.io.thread.CqExit?
    ensures CurrentExecutable(cfg, w) && w.c.io.qp.sq != [] && !w.c.io.qp.sq[0].Send? ==>
              Next(cfg, w, ClientSend).Some?
  {
    hide Inv, Reachable, Next, CurrentExecutable;
    ReachableInv(cfg, w);
    CompletionsBounded(cfg, w);
    if CurrentExecutable(cfg, w) && w.c.io.qp.sq != [] && !w.c.io.qp.sq[0].Send? { ClientCanRead(cfg, w); }
    NoExits(cfg, w);
  }

  lemma NoExits(cfg: Config, w: World)
    requires ValidConfig(cfg) && Inv(cfg, w)
    ensures !w.c.pc.Exit? && !w.s.pc.ServerExit? && !w.c.io.thread.CqExit? && !w.s.io.thread.CqExit?
  {
    hide ConnInv, FirstMessage, SendCounts, OnlyAdvert, AdvertCounts, AdvertContents, OnlyRequest, DataInv;
    hide Reads, Encode;
  }

  /** rdma_read's one local range fits exactly when the server's start buffer is no longer
      than the client's rdma buffer: the length comes from the server, the buffer from the client. */
  lemma RdmaReadFitsIff(t: Triple, l: LocalMemory, m: ServerMemory)
    requires t == Triple(m.start.base, t.len, m.start.rkey) && t.len == |m.start.bytes|
    ensures var r := Request(Known(true, false, false, t, NO_TRIPLE, NO_TRIPLE), NO_TARGET, RdmaRead, 0);
            ReadInto(l, m, r.raddr, r.rkey, r.scatter).Some? <==> |m.start.bytes| <= |l.rdma|
  {
    var g := Sge(RdmaBuf, 0, t.len);
    assert TotalLength([g]) == g.len + TotalLength([]);
    if |m.start.bytes| <= |l.rdma| { ReadOne(l, m, t.addr, t.rkey, g); }
  }

  // -------------------------------------------------------------------- connection order

  function ClientOrder(s: ClientState): nat {
    match s case INIT => 0 case ADDR_RESOLVED => 1 case ROUTE_RESOLVED => 2 case CONNECTED => 3
  }

  /** Each step leaves a host's state alone or moves it to the next one. */
  lemma StatesAdvance(cfg: Config, w: World, a: Agent)
    requires ValidConfig(cfg) && Reachable(cfg, w) && Next(cfg, w, a).Some?
    ensures var v := Next(cfg, w, a).value;
            && ClientOrder(w.c.state) <= ClientOrder(v.c.state) <= ClientOrder(w.c.state) + 1
            && (v.s.state == w.s.state
                || (w.s.state == SERVER_INIT && v.s.state == REQUEST_GET)
                || (w.s.state == REQUEST_GET && v.s.state == SERVER_CONNECTED))
  {
    hide Inv, Reachable, StartStep, OpStep, ServerStep, ClientCqStep, ServerCqStep, AckStep;
    ReachableInv(cfg, w);
    InvConn(cfg, w);
    if a.ClientMain? { MainKeepsState(cfg, w); }
    if a.ServerMain? { ServerMainKeepsState(cfg, w); }
    if a.ClientCq? || a.ServerCq? { CqKeepsState(cfg, w, a); }
  }

  lemma MainKeepsState(cfg: Config, w: World)
    requires Next(cfg, w, ClientMain).Some?
    ensures Next(cfg, w, ClientMain).value.c.state == w.c.state && Next(cfg, w, ClientMain).value.s == w.s
  {
    hide Request, Encode;
  }

  lemma ServerMainKeepsState(cfg: Config, w: World)
    requires Next(cfg, w, ServerMain).Some?
    ensures Next(cfg, w, ServerMain).value.s.state == w.s.state && Next(cfg, w, ServerMain).value.c == w.c
  {
    hide AdvertOf, Encode, StoreAt, Header, Words, Be;
  }

  lemma CqKeepsState(cfg: Config, w: World, a: Agent)
    requires a.ClientCq? || a.ServerCq?
    requires Next(cfg, w, a).Some?
    ensures Next(cfg, w, a).value.c.state == w.c.state && Next(cfg, w, a).value.s.state == w.s.state
  {
    hide StoreAddress, StoreRest, SetFlag, MarkSent, Decode, FromBe, PostRecv;
  }

  /** Over any run the states only move forward: a longer run's are at or past a prefix's. */
  lemma {:induction false} StatesOnlyAdvance(cfg: Config, early: seq<Agent>, late: seq<Agent>)
    requires ValidConfig(cfg) && early <= late && Run(cfg, late).Some?
    ensures Run(cfg, early).Some?
    ensures ClientOrder(Run(cfg, early).value.c.state) <= ClientOrder(Run(cfg, late).value.c.state)
    ensures ServerCode(Run(cfg, early).value.s.state) <= ServerCode(Run(cfg, late).value.s.state)
    decreases |late|
  {
    hide Inv, Next;
    if early == late {
    } else {
      var front := late[..|late| - 1];
      assert early <= front;
      StatesOnlyAdvance(cfg, early, front);
      assert Reachable(cfg, Run(cfg, front).value);
      StatesAdvance(cfg, Run(cfg, front).value, late[|late| - 1]);
    }
  }

  /** The client connects only after its route is resolved and sends only when connected; the
      server accepts only after a request, and sends only when connected and holding the
      client's triple. */
  lemma OrderOfActions(cfg: Config, w: World)
    requires ValidConfig(cfg) && Reachable(cfg, w)
    ensures w.c.pc.Connecting? || w.work == ConnectReq ==> w.c.state == ROUTE_RESOLVED
    ensures w.c.pc.PostTriple? || w.c.io.qp.Outstanding() > 0 ==> w.c.state == CONNECTED
    ensures w.s.pc.Accepting? || w.work == AcceptReq ==> w.s.state == REQUEST_GET
    ensures w.s.pc.PostAdvert? || w.s.io.qp.Outstanding() > 0 ==>
              w.s.state == SERVER_CONNECTED && w.s.peer.getRemoteAddr && w.s.peer.remote == cfg.clientStart
  {
    hide Inv, Reachable;
    ReachableInv(cfg, w);
    ServerSendsLate(cfg, w);
    ClientSendsLate(cfg, w);
    InvConn(cfg, w);
  }

  lemma InvConn(cfg: Config, w: World)
    requires ValidConfig(cfg) && Inv(cfg, w)
    ensures Conn(w)
  {
    hide ConnInv, HostQueues, FirstMessage, SendCounts, OnlyAdvert, AdvertCounts, AdvertContents, MemInv;
    hide PcInv, OnlyRequest;
    hide DataInv, Reads, Encode;
  }

  lemma ClientSendsLate(cfg: Config, w: World)
    requires ValidConfig(cfg) && Inv(cfg, w)
    ensures w.c.io.qp.Outstanding() > 0 ==> ClientPosted(w.c.pc)
  {
    hide ConnInv, FirstMessage, SendCounts, OnlyAdvert, AdvertCounts, AdvertContents, MemInv, PcInv;
    hide OnlyRequest, DataInv, Encode;
    if ClientStarted(w.c.pc) { ClientOutstanding(w.c.pc, w.c.io, w.c.progress); }
  }

  lemma ServerSendsLate(cfg: Config, w: World)
    requires ValidConfig(cfg) && Inv(cfg, w)
    ensures w.s.pc.PostAdvert? || w.s.io.qp.Outstanding() > 0 ==> PastWaitRemote(w.s.pc)
    ensures PastWaitRemote(w.s.pc) ==> w.s.peer.getRemoteAddr && w.s.peer.remote == cfg.clientStart
  {
    hide ConnInv, HostQueues, AdvertCounts, AdvertContents, MemInv, PcInv, OnlyRequest, DataInv, Reads, Encode;
    NothingOutstandingAtZero(w.s.io, AdvertsPosted(w.s.pc));
  }

  lemma NothingOutstandingAtZero(io: Io, p: nat)
    requires p <= 3 && OnlyAdvert(p, io)
    ensures p == 0 ==> io.qp.Outstanding() == 0
  {
    if io.qp.sq != [] { assert io.qp.sq[0] in io.qp.sq; }
    if io.qp.acked != [] { assert io.qp.acked[0] in io.qp.acked; }
  }
}
