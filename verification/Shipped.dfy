/** The two programs as their mains set them up. */
module Shipped {
  import opened Bytes
  import opened ClassTransfer
  import opened Rendezvous
  import opened Invariants
  import opened Preservation
  import opened Termination
  import opened Guarantees
  import opened Schedules
  import opened Blocking
  import opened EarlySketch
  import opened StartBuffer
  import opened ReadCount

  function OwReads(waitSketch: bool, k: nat): (s: seq<Op>)
    ensures |s| == k && forall i :: 0 <= i < k ==> s[i] == OwRead(waitSketch)
  {
    if k == 0 then [] else [OwRead(waitSketch)] + OwReads(waitSketch, k - 1)
  }

  /** main after start(): rdma_read, read_class on GET_CLASS_ADDR, rdma_read, ten times ow_read -
      which main calls without waiting for the sketch's address. */
  function Main(waitSketch: bool): seq<Op> {
    [RdmaRead, ReadClass(false), RdmaRead] + OwReads(waitSketch, 10)
  }

  /** Main's calls, one by one. */
  lemma MainIs(waitSketch: bool)
    ensures |Main(waitSketch)| == 13
    ensures var m := Main(waitSketch);
            && m[0] == RdmaRead && m[1] == ReadClass(false) && m[2] == RdmaRead
            && forall i :: 3 <= i < 13 ==> m[i] == OwRead(waitSketch)
  {
  }

  /** The object `a` and the buffer sizes; where the regions lie, their keys and what malloc
      left in them, and in sketch_info, is open. */
  ghost predicate AsShipped(cfg: Config) {
    && cfg.n == 1000
    && cfg.obj == RdmaTestValue(10, 1, 1, cfg.obj.rest, Iota(10)) && |cfg.obj.rest| == 20
    && |cfg.mem.start.bytes| == 1000 && |cfg.local.rdma| == 1000 && |cfg.message| == 28
    && |cfg.mem.cls.bytes| == 20032 && |cfg.local.classData| == 1000 && |cfg.local.classBuf| == 4000
    && |cfg.mem.sketch.bytes| == 4000 && |cfg.local.sketch| == 4000
    && Addressable(cfg.mem.start) && Addressable(cfg.mem.cls) && Addressable(cfg.mem.sketch)
    && cfg.mem.start.rkey != cfg.mem.cls.rkey && cfg.mem.start.rkey != cfg.mem.sketch.rkey
    && cfg.mem.cls.rkey != cfg.mem.sketch.rkey
  }

  /** The shipped main, with the wait or without, never changes the server's start buffer; once its
      first rdma_read has returned the client's buffer is that buffer, and stays so; and a finished
      run has posted 10003 reads. */
  lemma ShippedReads(cfg: Config, waitSketch: bool)
    requires AsShipped(cfg) && cfg.ops == Main(waitSketch)
    ensures ValidConfig(cfg)
    ensures forall w :: Reachable(cfg, w) ==>
              w.s.mem.start == cfg.mem.start && (|w.c.ops| <= 12 ==> w.c.local.rdma == cfg.mem.start.bytes)
    ensures forall agents :: Run(cfg, agents).Some? && Final(Run(cfg, agents).value) ==>
              Times(cfg, agents, ReadPosted) == Times(cfg, agents, ReadPolled) == 10003
  {
    hide Run, Reachable, Final, Times, ReadsBefore;
    ShippedIsValid(cfg);
    MainIs(waitSketch);
    forall w | Reachable(cfg, w)
      ensures w.s.mem.start == cfg.mem.start && (|w.c.ops| <= 12 ==> w.c.local.rdma == cfg.mem.start.bytes)
    {
      WithoutWrites(cfg, w, 0);
      assert Put(cfg.local.rdma, 0, cfg.mem.start.bytes) == cfg.mem.start.bytes;
    }
    forall agents | Run(cfg, agents).Some? && Final(Run(cfg, agents).value)
      ensures Times(cfg, agents, ReadPosted) == Times(cfg, agents, ReadPolled) == 10003
    {
      FinishedReads(cfg, agents);
      MainReads(waitSketch, 13);
    }
  }

  lemma {:induction false} MainReads(waitSketch: bool, p: nat)
    requires p <= 13
    ensures ReadsBefore(1000, Main(waitSketch), p) == if p <= 3 then p else 3 + 1000 * (p - 3)
  {
    MainIs(waitSketch);
    if p > 0 { MainReads(waitSketch, p - 1); }
  }

  /** Once the server has posted its third advertisement its memory holds the object (10, 1, 1) with
      elements 0 to 9, and the sketch 0 to 999. */
  lemma ShippedMemory(cfg: Config, w: World)
    requires AsShipped(cfg) && Reachable(cfg, w) && AdvertsPosted(w.s.pc) == 3
    ensures var c, s := w.s.mem.cls.bytes, w.s.mem.sketch.bytes;
            && |c| == 20032 && WordAt(c, 0) == 10 && WordAt(c, 4) == 1 && WordAt(c, 8) == 1
            && (forall k :: 0 <= k < 10 ==> WordAt(c, 32 + 4 * k) == k)
            && |s| == 4000 && (forall k :: 0 <= k < 1000 ==> WordAt(s, 4 * k) == k)
  {
    hide Reachable, WordAt, Serialized, SketchBytes, Partly;
    ShippedIsValid(cfg);
    FinishedMemory(cfg, w);
    SerializedWords(cfg.obj, cfg.mem.cls.bytes);
    forall k | 0 <= k < 10 ensures WordAt(w.s.mem.cls.bytes, 32 + 4 * k) == k { assert cfg.obj.data[k] == k; }
    forall k | 0 <= k < 1000 ensures WordAt(w.s.mem.sketch.bytes, 4 * k) == k { SketchWord(1000, k); }
  }

  /** As shipped, no run is longer than 301263 steps; the system always finishes if and only if
      ow_read's uninitialised address and key, and their mixtures with the sketch's, name
      registered memory for all 1000 elements; the first ow_read returns the sketch in every run
      if and only if those places happen to hold its elements; and read_class is right in every
      run if and only if malloc left the object in class_send_buf. */
  lemma ShippedPrograms(cfg: Config)
    requires AsShipped(cfg) && cfg.ops == Main(false)
    ensures ValidConfig(cfg)
    ensures forall agents :: Run(cfg, agents).Some? ==> |agents| <= 301263
    ensures (forall w :: Reachable(cfg, w) && Stuck(cfg, w) ==> Final(w)) <==> UnsetRegistered(cfg)
    ensures (forall w :: Reachable(cfg, w) ==> ReturnsSketch(cfg, w, 3)) <==> ValuesRight(cfg, 3)
    ensures (forall w :: Reachable(cfg, w) ==> ReturnsRight(cfg, w, 1)) <==> Holds(cfg.mem.cls.bytes, cfg.obj)
  {
    hide Run, Reachable, Stuck, Final, ReturnsRight, Holds, TailHolds, ReturnsSketch, ValuesRight, RunBound;
    hide UnsetRegistered;
    ShippedIsValid(cfg);
    ShippedWay(cfg);
    ShippedBound(cfg, false);
    forall agents | Run(cfg, agents).Some? ensures |agents| <= 301263 { EveryRunFinishes(cfg, agents); }
    FinishesIff(cfg);
    EarlyOwReadIff(cfg, 3);
    EarlyReadClassIff(cfg, 1);
  }

  /** With a wait for GET_SKETCH_ADDR in front of ow_read, the shipped programs always finish,
      and every ow_read brings the server's sketch. */
  lemma WithTheWait(cfg: Config)
    requires AsShipped(cfg) && cfg.ops == Main(true)
    ensures ValidConfig(cfg)
    ensures forall w :: Reachable(cfg, w) && Stuck(cfg, w) ==> Final(w)
    ensures forall w :: Reachable(cfg, w) && w.c.pc == Return(OwRead(true)) ==>
              w.c.local.sketch == w.s.mem.sketch.bytes == SketchBytes(1000)
  {
    hide Reachable, Stuck, Final, SketchBytes;
    ShippedIsValid(cfg);
    assert Completable(cfg) by { AllWait(cfg); }
    FinishesIff(cfg);
    forall w | Reachable(cfg, w) && w.c.pc == Return(OwRead(true))
      ensures w.c.local.sketch == w.s.mem.sketch.bytes == SketchBytes(1000)
    {
      OwReadCorrect(cfg, w);
      InformedKnows(cfg, w);
      Causality(cfg, w);
    }
  }

  lemma ShippedIsValid(cfg: Config)
    requires AsShipped(cfg)
    ensures ValidConfig(cfg) && StartFits(cfg) && TailHolds(cfg.local.classBuf, cfg.obj) && cfg.n == 1000
  {
  }

  lemma AllWait(cfg: Config)
    requires AsShipped(cfg) && cfg.ops == Main(true)
    ensures Completable(cfg)
  {
    hide UnsetRegistered;
  }

  /** The way to read_class and to the first ow_read is free, nothing delays them, and the
      ow_reads alone can block. */
  lemma ShippedWay(cfg: Config)
    requires AsShipped(cfg) && cfg.ops == Main(false)
    ensures WayIsFree(cfg, 1, false) && WayIsFree(cfg, 3, false)
    ensures !Delayed(cfg.ops, 1) && !Delayed(cfg.ops, 3)
    ensures Completable(cfg) <==> UnsetRegistered(cfg)
  {
    hide UnsetRegistered;
    assert forall p :: 3 <= p < 13 ==> cfg.ops[p] == OwRead(false) && !Delayed(cfg.ops, p);
    assert Executable(cfg, 3) <==> UnsetRegistered(cfg);
  }

  lemma ShippedBound(cfg: Config, waitSketch: bool)
    requires AsShipped(cfg) && cfg.ops == Main(waitSketch)
    ensures RunBound(cfg) == 301263
  {
    hide OpsWork;
    var rest := OwReads(waitSketch, 10);
    TenReads(waitSketch, 10);
    WorkBefore(RdmaRead, rest);
    WorkBefore(ReadClass(false), [RdmaRead] + rest);
    WorkBefore(RdmaRead, [ReadClass(false)] + ([RdmaRead] + rest));
    assert Main(waitSketch) == [RdmaRead] + ([ReadClass(false)] + ([RdmaRead] + rest));
  }

  lemma WorkBefore(op: Op, ops: seq<Op>)
    ensures OpsWork(1000, [op] + ops) == OpWork(1000, op) + OpsWork(1000, ops)
  {
    assert ([op] + ops)[1..] == ops;
  }

  lemma {:induction false} TenReads(waitSketch: bool, k: nat)
    ensures OpsWork(1000, OwReads(waitSketch, k)) == 30004 * k
  {
    if k > 0 {
      TenReads(waitSketch, k - 1);
      assert OwReads(waitSketch, k)[1..] == OwReads(waitSketch, k - 1);
    }
  }
}
