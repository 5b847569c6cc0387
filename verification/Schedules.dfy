/** Runs that exist because the scheduler allows them. The server's main thread can stand
    before its copies while the client runs on: then read_class returns what the buffer held
    before, and ow_read posts requests built from what its fields held before. And pendingReads
    takes both ends of its range. */
module Schedules {
  import opened Bytes
  import opened Verbs
  import opened ClassTransfer
  import opened Rendezvous
  import opened Invariants
  import opened Preservation
  import opened Termination
  import opened Guarantees
  import opened Frames
  import opened Witnesses
  import opened Program

  // ------------------------------------------------------------- schedules without an agent

  /** May `a` run? `frozen`: the server's main thread is not scheduled. */
  predicate Scheduled(frozen: bool, a: Agent) { frozen ==> a != ServerMain }

  /** No scheduled agent but the client's main thread can step. */
  ghost predicate Quiet(cfg: Config, w: World, frozen: bool) {
    forall a: Agent :: a != ClientMain && Scheduled(frozen, a) ==> Next(cfg, w, a).None?
  }

  /** A frozen server stands before its copies, its second advertisement received. */
  predicate Held(w: World, frozen: bool) {
    frozen ==> w.s.pc == CopyClass(0) && w.c.known.getClassAddr
  }

  lemma HeldKept(cfg: Config, w: World, frozen: bool, a: Agent)
    requires Held(w, frozen) && Scheduled(frozen, a) && Next(cfg, w, a).Some?
    ensures Held(Next(cfg, w, a).value, frozen)
  {
    hide ServerStep, ReadInto, WriteFrom, LoopStep, AckStep, Executed, Deliver, Decode, FromBe, PostRecv;
    hide Encode, Request, Be;
    if a == ServerMain { assert !frozen; }
  }

  /** Left alone by the client's main thread, the scheduled agents come to rest. */
  lemma {:induction false} Quiesce(cfg: Config, w0: World, frozen: bool) returns (w: World)
    requires ValidConfig(cfg) && Reachable(cfg, w0) && Held(w0, frozen)
    ensures Reachable(cfg, w) && Held(w, frozen) && Quiet(cfg, w, frozen)
    ensures w.c.pc == w0.c.pc && w.c.ops == w0.c.ops
    decreases Measure(cfg, w0)
  {
    hide Next, Reachable, Measure, Held;
    if a: Agent :| a != ClientMain && Scheduled(frozen, a) && Next(cfg, w0, a).Some? {
      Advance(cfg, w0, a);
      OthersKeepPc(cfg, w0, a);
      HeldKept(cfg, w0, frozen, a);
      w := Quiesce(cfg, Next(cfg, w0, a).value, frozen);
    } else {
      w := w0;
    }
  }

  lemma QuietIo(cfg: Config, w: World)
    requires HostQueues(true, w.c.io) && !w.c.io.thread.CqExit? && |w.c.io.cq.queue| < CQ_DEPTH
    requires Next(cfg, w, ClientAck).None? && Next(cfg, w, ClientCq).None?
    ensures Drained(true, w.c.io) && w.c.io.cq.armed && RecvChain(w.c.io) == 0
  {
    IoQuiet(true, w.c.io);
  }

  /** The client's one message has left the send queue. */
  lemma OnlyOneSided(cfg: Config, w: World)
    requires ValidConfig(cfg) && Inv(cfg, w) && w.s.peer.getRemoteAddr && w.c.io.qp.sq != []
    ensures !w.c.io.qp.sq[0].Send?
  {
    hide ConnInv, HostQueues, SendCounts, OnlyAdvert, AdvertCounts, AdvertContents, MemInv, Operations, Encode;
    CountRequestsNone(w.c.io.qp.sq, KSend);
  }

  /** Once the first advertisement is in, a quiet client has nothing queued anywhere. */
  lemma QuietQueues(cfg: Config, w: World, frozen: bool)
    requires ValidConfig(cfg) && Reachable(cfg, w) && Quiet(cfg, w, frozen) && CurrentExecutable(cfg, w)
    requires w.c.known.getRdmaAddr && InOperation(w.c.pc)
    ensures IoIdle(w.c.io) && w.c.io.cq.armed && RecvChain(w.c.io) == 0
  {
    hide Reachable, Inv, Next, CurrentExecutable;
    ReachableInv(cfg, w);
    CompletionsBounded(cfg, w);
    NoExits(cfg, w);
    InvQueues(cfg, w);
    Causality(cfg, w);
    assert Scheduled(frozen, ClientAck) && Scheduled(frozen, ClientCq) && Scheduled(frozen, ClientSend);
    QuietIo(cfg, w);
    if w.c.io.qp.sq != [] {
      OnlyOneSided(cfg, w);
      ClientCanRead(cfg, w);
    }
  }

  /** With the main thread stuck as well, it stands before an operation it may not call yet,
      or has finished. */
  lemma StuckInIdle(cfg: Config, w: World, frozen: bool)
    requires ValidConfig(cfg) && Reachable(cfg, w) && Quiet(cfg, w, frozen) && CurrentExecutable(cfg, w)
    requires w.c.known.getRdmaAddr && InOperation(w.c.pc) && Next(cfg, w, ClientMain).None?
    ensures w.c.pc == Idle && (w.c.ops == [] || !MayCall(w.c.known, w.c.ops[0]))
  {
    hide Reachable, Inv, Encode, Request, HostQueues, RecvChain, Quiet, CurrentExecutable;
    ReachableInv(cfg, w);
    InvQueues(cfg, w);
    QuietQueues(cfg, w, frozen);
    DrainedChains(w.c.io);
  }

  // ---------------------------------------------------------------- running up to operation p

  /** Every operation before `p` can be executed; with the server frozen, none waits for the
      sketch's address. */
  ghost predicate WayIsFree(cfg: Config, p: nat, frozen: bool) {
    && (forall j :: 0 <= j < p && j < |cfg.ops| ==> Executable(cfg, j))
    && (frozen ==> !Delayed(cfg.ops, p))
  }

  /** The client is on its way to operation `p` of its program. */
  predicate Approaching(cfg: Config, w: World, p: nat) {
    && InOperation(w.c.pc) && p <= |cfg.ops| && |cfg.ops| - p <= |w.c.ops| <= |cfg.ops|
    && (|w.c.ops| == |cfg.ops| - p ==> w.c.pc == Idle)
  }

  predicate AtCall(cfg: Config, w: World, p: nat) {
    p <= |cfg.ops| && w.c.pc == Idle && w.c.ops == cfg.ops[p..]
  }

  lemma OpStepKeepsOps(cfg: Config, w: World)
    requires InOperation(w.c.pc) && Next(cfg, w, ClientMain).Some?
    ensures var v := Next(cfg, w, ClientMain).value;
            && (v.c.pc.Exit? || InOperation(v.c.pc))
            && (if w.c.pc.Return? then w.c.ops != [] && v.c.ops == w.c.ops[1..] && v.c.pc == Idle
                else v.c.ops == w.c.ops)
  {
    hide Request, Encode;
  }

  /** What remains of the program is a suffix of it. */
  lemma Suffix(cfg: Config, w: World)
    requires ValidConfig(cfg) && Reachable(cfg, w)
    ensures |w.c.ops| <= |cfg.ops| && w.c.ops == cfg.ops[|cfg.ops| - |w.c.ops|..]
    ensures Delayed(cfg.ops, Returned(cfg.ops, w.c.ops)) ==> w.c.known.getSketchAddr
  {
    hide Reachable, Inv, MemInv, DataInv, PcInv, SameSizes, Delayed;
    ReachableInv(cfg, w);
    InvData(cfg, w);
  }

  lemma ApproachingKept(cfg: Config, w: World, p: nat)
    requires ValidConfig(cfg) && Reachable(cfg, w) && Approaching(cfg, w, p) && !AtCall(cfg, w, p)
    requires Next(cfg, w, ClientMain).Some?
    ensures Approaching(cfg, Next(cfg, w, ClientMain).value, p)
  {
    hide Reachable, Next;
    var v := Next(cfg, w, ClientMain).value;
    Advance(cfg, w, ClientMain);
    NoErrors(cfg, v);
    OpStepKeepsOps(cfg, w);
    Suffix(cfg, w);
  }

  /** The client gets to operation `p` if every operation before it can be executed - with the
      server's main thread frozen, too, if none of them waits for the sketch's address. */
  lemma {:induction false} RunTo(cfg: Config, w0: World, p: nat, frozen: bool) returns (w: World)
    requires ValidConfig(cfg) && Reachable(cfg, w0) && Held(w0, frozen) && Approaching(cfg, w0, p)
    requires p < |cfg.ops| && WayIsFree(cfg, p, frozen)
    ensures Reachable(cfg, w) && Held(w, frozen) && AtCall(cfg, w, p)
    decreases Measure(cfg, w0)
  {
    hide Next, Reachable, Measure, Held, WayIsFree;
    if AtCall(cfg, w0, p) {
      w := w0;
    } else if a: Agent :| Scheduled(frozen, a) && Next(cfg, w0, a).Some? {
      Advance(cfg, w0, a);
      HeldKept(cfg, w0, frozen, a);
      if a == ClientMain { ApproachingKept(cfg, w0, p); } else { OthersKeepPc(cfg, w0, a); }
      w := RunTo(cfg, Next(cfg, w0, a).value, p, frozen);
    } else {
      SomebodySteps(cfg, w0, p, frozen);
    }
  }

  lemma WayIsExecutable(cfg: Config, w: World, p: nat, frozen: bool)
    requires p < |cfg.ops| && WayIsFree(cfg, p, frozen) && Approaching(cfg, w, p)
    ensures CurrentExecutable(cfg, w)
  {
    hide Executable, Delayed;
  }

  lemma SomebodySteps(cfg: Config, w: World, p: nat, frozen: bool)
    requires ValidConfig(cfg) && Reachable(cfg, w) && Held(w, frozen) && Approaching(cfg, w, p) && !AtCall(cfg, w, p)
    requires p < |cfg.ops| && WayIsFree(cfg, p, frozen)
    ensures exists a: Agent :: Scheduled(frozen, a) && Next(cfg, w, a).Some?
  {
    hide Next, Reachable, Final, Inv, CurrentExecutable;
    ReachableInv(cfg, w);
    Suffix(cfg, w);
    WayIsExecutable(cfg, w, p, frozen);
    if forall a: Agent :: Scheduled(frozen, a) ==> Next(cfg, w, a).None? {
      assert Scheduled(frozen, ClientMain);
      if frozen {
        Causality(cfg, w);
        StuckInIdle(cfg, w, frozen);
        NoWait(cfg, p, |cfg.ops| - |w.c.ops|);
      } else {
        StuckIffFinal(cfg, w);
        NothingLeft(w);
      }
    }
  }

  lemma NothingLeft(w: World)
    requires Final(w)
    ensures w.c.ops == []
  {
  }

  lemma NoWait(cfg: Config, p: nat, j: nat)
    requires !Delayed(cfg.ops, p) && j < p && j < |cfg.ops|
    ensures !WaitsForSketch(cfg.ops[j])
  {
  }

  /** Between operations the first advertisement is in. */
  lemma QuietCall(cfg: Config, w: World)
    requires ValidConfig(cfg) && Reachable(cfg, w) && w.c.pc == Idle
    ensures w.c.known.getRdmaAddr && w.c.progress.pendingReads == 0
  {
    hide Reachable, Inv, HostQueues, Reads;
    ReachableInv(cfg, w);
    InvQueues(cfg, w);
    PendingReadsRange(cfg, w);
  }

  lemma QuietStart(cfg: Config, w: World, frozen: bool)
    requires ValidConfig(cfg) && Reachable(cfg, w) && Quiet(cfg, w, frozen) && w.c.pc == Idle && w.c.known.getRdmaAddr
    ensures w.c.io == StartIo()
  {
    hide Reachable, Inv, Quiet, RecvChain;
    QuietQueues(cfg, w, frozen);
    Credits(cfg, w);
  }

  lemma NotYetCopied(cfg: Config, w: World)
    requires ValidConfig(cfg) && Inv(cfg, w) && w.s.pc == CopyClass(0)
    requires !InHandler(w.c.io.thread)
    ensures !w.c.known.getSketchAddr && w.s.mem.cls.bytes == cfg.mem.cls.bytes && w.c.known.sketchInfo == cfg.unset
  {
    hide ConnInv, HostQueues, FirstMessage, SendCounts, OnlyAdvert, Operations, Encode, Partly;
    CopyAdvances(cfg.obj, cfg.mem.cls.bytes, 0);
  }

  /** A frozen server has seen its second advertisement acknowledged. */
  lemma SecondSent(cfg: Config, w: World)
    requires ValidConfig(cfg) && Reachable(cfg, w) && w.s.pc == CopyClass(0) && Quiet(cfg, w, true)
    requires w.c.pc == Idle && w.c.io == StartIo()
    ensures w.s.sent.cls
  {
    hide Reachable, Inv, Next;
    ReachableInv(cfg, w);
    CompletionsBounded(cfg, w);
    InvQueues(cfg, w);
    assert Next(cfg, w, ServerCq).None? && Next(cfg, w, ServerAck).None? && Next(cfg, w, ServerSend).None?;
    QuietServerIo(cfg, w);
    if w.s.io.qp.sq != [] { ServerCanSend(cfg, w); }
    DrainedChains(w.s.io);
    BothSent(cfg, w);
  }

  lemma QuietServerIo(cfg: Config, w: World)
    requires ValidConfig(cfg) && Inv(cfg, w) && ServerStarted(w.s.pc)
    requires Next(cfg, w, ServerCq).None? && Next(cfg, w, ServerAck).None? && |w.s.io.cq.queue| < CQ_DEPTH
    ensures Drained(true, w.s.io)
  {
    hide Inv, Reads, PcInv;
    InvQueues(cfg, w);
    ServerOnlySends(cfg, w);
    IoQuiet(true, w.s.io);
  }

  lemma BothSent(cfg: Config, w: World)
    requires ValidConfig(cfg) && Inv(cfg, w) && w.s.pc == CopyClass(0)
    requires Chain(w.s.io.qp, w.s.io.cq, w.s.io.thread, KSend) == 0
    ensures w.s.sent.cls
  {
    hide ConnInv, HostQueues, FirstMessage, OnlyAdvert, AdvertCounts, AdvertContents, MemInv, Operations, Encode;
  }

  /** Once everything else has come to rest, the next operation may be called. */
  lemma QuietMayCall(cfg: Config, w: World)
    requires ValidConfig(cfg) && Reachable(cfg, w) && Quiet(cfg, w, false) && w.c.pc == Idle && w.c.ops != []
    ensures MayCall(w.c.known, w.c.ops[0])
  {
    hide Next, Reachable, Inv, Final;
    ReachableInv(cfg, w);
    StuckIffFinal(cfg, w);
    if !MayCall(w.c.known, w.c.ops[0]) { SpinningIsNoStep(cfg, w); }
  }

  /** The client at the call of operation `p`, its queues as start() left them. */
  lemma ReachCall(cfg: Config, p: nat, frozen: bool) returns (w: World)
    requires ValidConfig(cfg) && p < |cfg.ops| && WayIsFree(cfg, p, frozen)
    ensures Reachable(cfg, w) && Held(w, frozen) && AtCall(cfg, w, p)
    ensures w.c.io == StartIo() && w.c.progress.pendingReads == 0 && w.c.known.getRdmaAddr
    ensures if frozen then
              && !w.c.known.getSketchAddr && w.c.known.sketchInfo == cfg.unset
              && w.s.mem.cls.bytes == cfg.mem.cls.bytes && w.s.sent.cls
            else MayCall(w.c.known, cfg.ops[p])
  {
    hide Reachable, Encode, AdvertOf, Inv, Quiet, Final, Next, WayIsFree, MayCall;
    w := ReachSecond(cfg);
    w := RunTo(cfg, w, p, frozen);
    w := Quiesce(cfg, w, frozen);
    QuietCall(cfg, w);
    ReachableInv(cfg, w);
    QuietStart(cfg, w, frozen);
    if frozen {
      NotYetCopied(cfg, w);
      SecondSent(cfg, w);
    } else {
      QuietMayCall(cfg, w);
    }
  }

  /** An operation can be reached without the sketch's address exactly when no earlier one had
      to wait for it. */
  lemma CallIsEarlyIff(cfg: Config, p: nat)
    requires ValidConfig(cfg) && p < |cfg.ops| && WayIsFree(cfg, p, false)
    ensures (exists w :: Reachable(cfg, w) && AtCall(cfg, w, p) && !w.c.known.getSketchAddr) <==> !Delayed(cfg.ops, p)
  {
    hide Reachable, Delayed;
    if Delayed(cfg.ops, p) {
      forall w | Reachable(cfg, w) && AtCall(cfg, w, p) ensures w.c.known.getSketchAddr { Suffix(cfg, w); }
    } else {
      var w := ReachCall(cfg, p, true);
    }
  }

  // -------------------------------------------------------------------------- one operation's steps

  /** One turn's way from the loop's head to just before ibv_post_send, nobody else stepping. */
  lemma FillElement(cfg: Config, w0: World, op: Op, i: nat) returns (w: World)
    requires Reachable(cfg, w0) && op.OwRead? && w0.c.pc == Loop(op, i) && i < cfg.n
    ensures Reachable(cfg, w)
    ensures w == w0.(c := w0.c.(pc := Post(op, i), progress := w0.c.progress.(readComplete := false),
                                wr := Target(ElementAddress(w0.c.known.sketchInfo.addr, i),
                                             w0.c.known.sketchInfo.rkey)))
  {
    hide Reachable, ElementAddress;
    w := Extend(cfg, w0, ClientMain);
    w := Extend(cfg, w, ClientMain);
    w := Extend(cfg, w, ClientMain);
  }

  /** ibv_post_send of a read. */
  lemma PostRead(cfg: Config, w0: World, op: Op, i: nat) returns (w: World)
    requires Reachable(cfg, w0) && !op.RdmaWrite? && w0.c.pc == Post(op, i) && w0.c.io.qp.Outstanding() < SQ_DEPTH
    ensures Reachable(cfg, w)
    ensures w == w0.(c := w0.c.(pc := Count(op, i), io := PostSend(w0.c.io, Request(w0.c.known, w0.c.wr, op, i))))
  {
    hide Reachable, Request;
    w := Extend(cfg, w0, ClientMain);
  }

  /** The call of rdma_read or read_class. */
  lemma CallRead(cfg: Config, w0: World, op: Op) returns (w: World)
    requires Reachable(cfg, w0) && w0.c.pc == Idle && w0.c.ops != [] && w0.c.ops[0] == op
    requires (op.RdmaRead? && w0.c.known.getRdmaAddr) || (op.ReadClass? && MayCall(w0.c.known, op))
    ensures Reachable(cfg, w)
    ensures w == w0.(c := w0.c.(pc := Post(op, 0), progress := w0.c.progress.(readComplete := false)))
  {
    hide Reachable;
    w := Extend(cfg, w0, ClientMain);
  }

  /** The call of ow_read. */
  lemma CallOwRead(cfg: Config, w0: World, op: Op) returns (w: World)
    requires Reachable(cfg, w0) && w0.c.pc == Idle && w0.c.ops != [] && w0.c.ops[0] == op
    requires op.OwRead? && MayCall(w0.c.known, op)
    ensures Reachable(cfg, w)
    ensures w == w0.(c := w0.c.(pc := Loop(op, 0), progress := w0.c.progress.(pendingReads := 0)))
  {
    hide Reachable;
    w := Extend(cfg, w0, ClientMain);
  }

  /** pendingReads++, and the wait of rdma_read and read_class, which does not wait. */
  lemma CountAndReturn(cfg: Config, w0: World, op: Op) returns (w: World)
    requires Reachable(cfg, w0) && (op.RdmaRead? || op.ReadClass?) && w0.c.pc == Count(op, 0)
    requires w0.c.progress.pendingReads == -1
    ensures Reachable(cfg, w)
    ensures w == w0.(c := w0.c.(pc := Return(op), progress := w0.c.progress.(pendingReads := 0)))
  {
    hide Reachable;
    w := Extend(cfg, w0, ClientMain);
    w := Extend(cfg, w, ClientMain);
  }

  // --------------------------------------------------------------------- a read that is early

  /** The flag is set, the decrement still to come. */
  lemma FlagWithoutDecrement(cfg: Config, w0: World) returns (w: World)
    requires Reachable(cfg, w0)
    requires w0.c.io == Io(QueuePair(1, [], [ReadDone]), CompletionQueue(true, 0, []), Waiting)
    ensures Reachable(cfg, w)
    ensures w == w0.(c := w0.c.(io := Io(QueuePair(1, [], []), CompletionQueue(true, 0, []), Decrement),
                                progress := w0.c.progress.(readComplete := true)))
  {
    hide Reachable;
    w := Extend(cfg, w0, ClientAck);
    w := Extend(cfg, w, ClientCq);
    w := Extend(cfg, w, ClientCq);
    w := Extend(cfg, w, ClientCq);
    w := Extend(cfg, w, ClientCq);
  }

  /** pendingReads-- */
  lemma CountedDown(cfg: Config, w0: World) returns (w: World)
    requires Reachable(cfg, w0) && w0.c.io.thread == Decrement
    ensures Reachable(cfg, w)
    ensures w == w0.(c := w0.c.(io := At(w0.c.io, Draining),
                                progress := w0.c.progress.(pendingReads := w0.c.progress.pendingReads - 1)))
  {
    hide Reachable;
    w := Extend(cfg, w0, ClientCq);
  }

  /** The request in the send queue brings the class bytes as they are. */
  lemma ClassReadExecuted(cfg: Config, w0: World, op: Op) returns (w: World)
    requires ValidConfig(cfg) && Reachable(cfg, w0) && op.ReadClass? && w0.c.pc == Count(op, 0)
    requires w0.c.io == PostSend(StartIo(), Request(w0.c.known, w0.c.wr, op, 0))
    ensures Reachable(cfg, w) && ClassLanded(w.c.local, w0.s.mem.cls.bytes)
    ensures w == w0.(c := w0.c.(local := w.c.local,
                                io := Io(QueuePair(1, [], [ReadDone]), CompletionQueue(true, 0, []), Waiting)))
  {
    hide Reachable, ReadInto, Inv, Encode, ClassLanded, Informed, Landed, Before, SameSizes;
    hide SameServerRegions, MemInv;
    ReachableInv(cfg, w0);
    HeadIsCurrent(cfg, w0);
    InvMemories(cfg, w0);
    ClassReadLands(cfg, op, w0.c.local, w0.s.mem);
    w := Extend(cfg, w0, ClientSend);
  }

  /** read_class called at operation `p` returns; with the server frozen it has the bytes of
      before the copies. */
  lemma ReadClassReturns(cfg: Config, p: nat, frozen: bool) returns (w: World)
    requires ValidConfig(cfg) && p < |cfg.ops| && cfg.ops[p].ReadClass? && WayIsFree(cfg, p, frozen)
    requires frozen ==> !cfg.ops[p].waitSketch
    ensures Reachable(cfg, w) && w.c.pc == Return(cfg.ops[p]) && w.c.ops == cfg.ops[p..]
    ensures frozen ==> ClassLanded(w.c.local, cfg.mem.cls.bytes)
  {
    hide Reachable, ReadInto, Encode, Request, ClassLanded, WayIsFree;
    var op := cfg.ops[p];
    w := ReachCall(cfg, p, frozen);
    w := CallRead(cfg, w, op);
    w := PostRead(cfg, w, op, 0);
    w := ClassReadExecuted(cfg, w, op);
    w := FlagWithoutDecrement(cfg, w);
    w := CountedDown(cfg, w);
    w := CountAndReturn(cfg, w, op);
  }

  /** The object the caller of read_class sees. */
  ghost predicate ReadIsRight(cfg: Config, w: World) {
    && |w.c.local.classData| >= HEADER_SIZE
    && Agrees(Reconstruct(w.c.local.classData, w.c.local.classBuf), cfg.obj)
  }

  /** In this state, if operation `p`, a read_class, has returned, its caller sees the object. */
  ghost predicate ReturnsRight(cfg: Config, w: World, p: nat)
    requires p <= |cfg.ops|
  {
    w.c.pc.Return? && w.c.pc.op.ReadClass? && w.c.ops == cfg.ops[p..] ==> ReadIsRight(cfg, w)
  }

  /** Whichever state of the server's buffer was read, the caller sees the object if the buffer
      held it all along and the data buffer had what no read brings. */
  lemma EarlyReadAgrees(cfg: Config, w: World)
    requires ValidConfig(cfg) && Holds(cfg.mem.cls.bytes, cfg.obj) && TailHolds(cfg.local.classBuf, cfg.obj)
    requires Reachable(cfg, w) && w.c.pc.Return? && w.c.pc.op.ReadClass? && !Informed(cfg, w.c.pc, w.c.ops)
    ensures ReadIsRight(cfg, w)
  {
    hide Reachable, Inv, Encode, MemInv, Agrees, Holds, TailHolds, Reconstruct, Partly, Informed;
    ReachableInv(cfg, w);
    InvData(cfg, w);
    LocalClassSizes(cfg, w.c.local);
    var j :| 0 <= j <= CopiedWords(cfg.obj) && ClassLanded(w.c.local, Partly(cfg.obj, cfg.mem.cls.bytes, j));
    CopiesHold(cfg.obj, cfg.mem.cls.bytes, j);
    AgreesIffHolds(w.c.local.classData, w.c.local.classBuf, Partly(cfg.obj, cfg.mem.cls.bytes, j), cfg.obj);
    SameTail(w.c.local.classBuf, cfg.local.classBuf, cfg.obj);
  }

  /** What a returned read_class shows when the server was frozen. */
  lemma FrozenReadIff(cfg: Config, w: World)
    requires ValidConfig(cfg) && Reachable(cfg, w) && ClassLanded(w.c.local, cfg.mem.cls.bytes)
    ensures ReadIsRight(cfg, w) <==> Holds(cfg.mem.cls.bytes, cfg.obj) && TailHolds(cfg.local.classBuf, cfg.obj)
  {
    hide Reachable, Inv, Agrees, Holds, TailHolds, Reconstruct, MemInv, DataInv;
    ReachableInv(cfg, w);
    InvData(cfg, w);
    LocalClassSizes(cfg, w.c.local);
    AgreesIffHolds(w.c.local.classData, w.c.local.classBuf, cfg.mem.cls.bytes, cfg.obj);
    SameTail(w.c.local.classBuf, cfg.local.classBuf, cfg.obj);
  }

  /** read_class called on GET_CLASS_ADDR alone, as main calls it, returns the server's object
      in every run if and only if an earlier operation had to wait for the sketch's address or
      class_send_buf held that object before the server copied it - and the client's data buffer
      held the elements beyond the first 100, which no read brings. (Waiting for GET_SKETCH_ADDR
      itself, the second half alone decides: Guarantees.ReadClassCorrect.) */
  lemma EarlyReadClassIff(cfg: Config, p: nat)
    requires ValidConfig(cfg) && p < |cfg.ops| && cfg.ops[p] == ReadClass(false) && WayIsFree(cfg, p, false)
    ensures (forall w :: Reachable(cfg, w) ==> ReturnsRight(cfg, w, p))
            <==> (Delayed(cfg.ops, p) || Holds(cfg.mem.cls.bytes, cfg.obj)) && TailHolds(cfg.local.classBuf, cfg.obj)
  {
    hide Reachable, Holds, TailHolds, Delayed, ReadIsRight, Executable;
    if (Delayed(cfg.ops, p) || Holds(cfg.mem.cls.bytes, cfg.obj)) && TailHolds(cfg.local.classBuf, cfg.obj) {
      forall w | Reachable(cfg, w) ensures ReturnsRight(cfg, w, p) {
        if w.c.pc.Return? && w.c.pc.op.ReadClass? && w.c.ops == cfg.ops[p..] {
          CurrentIsHead(cfg, w);
          if Delayed(cfg.ops, p) { LateReadIff(cfg, w); } else { EarlyReadAgrees(cfg, w); }
        }
      }
    } else if Delayed(cfg.ops, p) {
      var w := ReadClassReturns(cfg, p, false);
      LateReadIff(cfg, w);
    } else {
      var w := ReadClassReturns(cfg, p, true);
      FrozenReadIff(cfg, w);
    }
  }

  lemma LateReadIff(cfg: Config, w: World)
    requires ValidConfig(cfg) && Reachable(cfg, w) && w.c.pc.Return? && w.c.pc.op.ReadClass?
    requires Informed(cfg, w.c.pc, w.c.ops)
    ensures ReadIsRight(cfg, w) <==> TailHolds(cfg.local.classBuf, cfg.obj)
  {
    hide Reachable, Holds, TailHolds, Delayed, Agrees, Reconstruct;
    ReadClassCorrect(cfg, w);
  }

  // -------------------------------------------------------------- both ends of pendingReads

  /** `op` reads at least once. */
  predicate ReadsRemote(cfg: Config, op: Op) { !op.RdmaWrite? && (op.OwRead? ==> cfg.n >= 1) }

  /** The operation's first read is posted. */
  lemma FirstPost(cfg: Config, w0: World, p: nat) returns (w: World)
    requires Reachable(cfg, w0) && p < |cfg.ops| && AtCall(cfg, w0, p)
    requires ReadsRemote(cfg, cfg.ops[p]) && MayCall(w0.c.known, cfg.ops[p]) && w0.c.known.getRdmaAddr
    requires w0.c.io == StartIo() && w0.c.progress.pendingReads == 0
    ensures Reachable(cfg, w) && w.c.pc == Count(cfg.ops[p], 0) && w.c.ops == cfg.ops[p..]
    ensures w.c.io == PostSend(StartIo(), Request(w.c.known, w.c.wr, cfg.ops[p], 0))
    ensures w.c.progress.pendingReads == 0
  {
    hide Reachable, Request, MayCall, ElementAddress;
    var op := cfg.ops[p];
    if op.OwRead? {
      w := CallOwRead(cfg, w0, op);
      w := FillElement(cfg, w, op, 0);
    } else {
      w := CallRead(cfg, w0, op);
    }
    w := PostRead(cfg, w, op, 0);
  }

  /** The operation's first read is posted and executed, its completion not yet generated. */
  lemma FirstRead(cfg: Config, w0: World, p: nat) returns (w: World)
    requires ValidConfig(cfg) && Reachable(cfg, w0) && p < |cfg.ops| && AtCall(cfg, w0, p)
    requires ReadsRemote(cfg, cfg.ops[p]) && Executable(cfg, p) && MayCall(w0.c.known, cfg.ops[p])
    requires w0.c.io == StartIo() && w0.c.progress.pendingReads == 0 && w0.c.known.getRdmaAddr
    ensures Reachable(cfg, w) && w.c.pc == Count(cfg.ops[p], 0) && w.c.ops == cfg.ops[p..]
    ensures w.c.io == Io(QueuePair(1, [], [ReadDone]), CompletionQueue(true, 0, []), Waiting)
    ensures w.c.progress.pendingReads == 0
  {
    hide Reachable, ReadInto, Inv, Executable, Request;
    w := FirstPost(cfg, w0, p);
    ReachableInv(cfg, w);
    RequestKinds(w.c.known, w.c.wr, cfg.ops[p], 0);
    ClientCanRead(cfg, w);
    w := Extend(cfg, w, ClientSend);
  }

  /** The decrement can overtake the increment, in any operation that reads. */
  lemma PendingReadsGoesNegative(cfg: Config, p: nat)
    requires ValidConfig(cfg) && p < |cfg.ops| && ReadsRemote(cfg, cfg.ops[p]) && WayIsFree(cfg, p + 1, false)
    ensures exists w :: Reachable(cfg, w) && w.c.ops == cfg.ops[p..] && w.c.pc == Count(cfg.ops[p], 0)
                        && w.c.progress.pendingReads == -1
  {
    hide Reachable, MayCall, Executable;
    assert Executable(cfg, p);
    var w := ReachCall(cfg, p, false);
    w := FirstRead(cfg, w, p);
    w := FlagWithoutDecrement(cfg, w);
    w := Extend(cfg, w, ClientCq);
  }

  /** ow_read can count its next read while the previous one has not been counted down: any
      ow_read of two elements or more has a run with pendingReads at 2. */
  lemma PendingReadsReachesTwo(cfg: Config, p: nat)
    requires ValidConfig(cfg) && cfg.n >= 2 && p < |cfg.ops| && cfg.ops[p].OwRead? && WayIsFree(cfg, p + 1, false)
    ensures exists w :: Reachable(cfg, w) && w.c.ops == cfg.ops[p..] && w.c.pc == Spin(cfg.ops[p], 1)
                        && w.c.progress.pendingReads == 2
  {
    hide Reachable, Encode, AdvertOf, Request, Executable, ElementAddress, MayCall;
    assert Executable(cfg, p);
    var op := cfg.ops[p];
    var w := ReachCall(cfg, p, false);
    w := FirstRead(cfg, w, p);
    w := FlagWithoutDecrement(cfg, w);
    w := Extend(cfg, w, ClientMain);
    w := Extend(cfg, w, ClientMain);
    w := FillElement(cfg, w, op, 1);
    w := PostRead(cfg, w, op, 1);
    w := Extend(cfg, w, ClientMain);
  }
}
