/** What an ow_read that did not wait for its address returns. */
module EarlySketch {
  import opened Bytes
  import opened Verbs
  import opened ClassTransfer
  import opened Rendezvous
  import opened Invariants
  import opened Preservation
  import opened Termination
  import opened Guarantees
  import opened Frames
  import opened Program
  import opened Schedules
  import opened Elements
  import opened Blocking
  import opened StartBuffer

  // -------------------------------------------------------------------- the server's memory

  /** The server's memory in operation `p`: before its class copies and its fill loop, or after. */
  ghost function MemoryAt(cfg: Config, p: nat, filled: bool): ServerMemory
    requires ValidConfig(cfg) && p <= |cfg.ops|
  {
    ServerMemory(
      cfg.mem.start.(bytes := BuffersAt(cfg, p).start),
      if filled then cfg.mem.cls.(bytes := Serialized(cfg.obj, cfg.mem.cls.bytes)) else cfg.mem.cls,
      if filled then cfg.mem.sketch.(bytes := SketchBytes(cfg.n)) else cfg.mem.sketch)
  }

  /** Every byte of `m` is that of `a` or that of `b`. */
  ghost predicate Mixed(a: seq<Byte>, b: seq<Byte>, m: seq<Byte>) {
    |a| == |b| == |m| && forall x :: 0 <= x < |m| ==> m[x] == a[x] || m[x] == b[x]
  }

  lemma MixedSlice(a: seq<Byte>, b: seq<Byte>, m: seq<Byte>, from: nat, until: nat)
    requires Mixed(a, b, m) && from <= until <= |m| && a[from..until] == b[from..until]
    ensures m[from..until] == a[from..until]
  {
    forall x | from <= x < until ensures m[x] == a[x] {
      assert a[from..until][x - from] == b[from..until][x - from];
    }
  }

  /** In between, memory is a mixture, byte by byte. */
  lemma MemoryIsMixed(cfg: Config, p: nat, w: World)
    requires ValidConfig(cfg) && Reachable(cfg, w) && p <= |cfg.ops| && w.s.mem.start.bytes == BuffersAt(cfg, p).start
    ensures SameServerRegions(w.s.mem, cfg.mem)
    ensures Mixed(MemoryAt(cfg, p, false).cls.bytes, MemoryAt(cfg, p, true).cls.bytes, w.s.mem.cls.bytes)
    ensures Mixed(MemoryAt(cfg, p, false).sketch.bytes, MemoryAt(cfg, p, true).sketch.bytes, w.s.mem.sketch.bytes)
    ensures AdvertsPosted(w.s.pc) == 3 ==> w.s.mem == MemoryAt(cfg, p, true)
    ensures w.s.pc == CopyClass(0) ==> w.s.mem == MemoryAt(cfg, p, false)
  {
    hide Inv, BuffersAt, Serialized, SketchBytes;
    hide Reachable;
    ReachableInv(cfg, w);
    InvMemories(cfg, w);
    var j, k := SketchPosition(cfg, w.s.pc), CopyPosition(cfg, w.s.pc);
    SketchBytesPrefix(j, cfg.n);
    CopyAdvances(cfg.obj, cfg.mem.cls.bytes, k);
    SketchMixed(cfg, w.s.mem.sketch.bytes, j);
  }

  lemma SketchMixed(cfg: Config, b: seq<Byte>, j: nat)
    requires ValidConfig(cfg) && j <= cfg.n && SketchBytes(cfg.n)[..4 * j] == SketchBytes(j)
    requires |b| == |cfg.mem.sketch.bytes|
    requires b[..4 * j] == SketchBytes(j) && b[4 * j..] == cfg.mem.sketch.bytes[4 * j..]
    ensures Mixed(cfg.mem.sketch.bytes, SketchBytes(cfg.n), b)
    ensures j == 0 ==> b == cfg.mem.sketch.bytes
    ensures j == cfg.n ==> b == SketchBytes(cfg.n)
  {
    hide SketchBytes;
    var s := SketchBytes(cfg.n);
    forall x | 0 <= x < |b| ensures b[x] == cfg.mem.sketch.bytes[x] || b[x] == s[x] {
      if x < 4 * j {
        assert b[x] == b[..4 * j][x] == s[..4 * j][x];
      } else {
        assert b[x] == b[4 * j..][x - 4 * j] == cfg.mem.sketch.bytes[4 * j..][x - 4 * j];
      }
    }
    if j == 0 { assert b == b[4 * j..] && cfg.mem.sketch.bytes == cfg.mem.sketch.bytes[4 * j..]; }
    if j == cfg.n { assert b == b[..4 * j]; }
  }

  /** Both memories agreeing on what a read brings, so does every memory in between. */
  lemma FetchMixed(m0: ServerMemory, m1: ServerMemory, m: ServerMemory, addr: int, rkey: U32)
    requires SameServerRegions(m, m0) && SameServerRegions(m, m1)
    requires m.start.bytes == m0.start.bytes == m1.start.bytes
    requires Mixed(m0.cls.bytes, m1.cls.bytes, m.cls.bytes) && Mixed(m0.sketch.bytes, m1.sketch.bytes, m.sketch.bytes)
    requires Fetch(m0, addr, rkey, 4).Some? && Fetch(m0, addr, rkey, 4) == Fetch(m1, addr, rkey, 4)
    ensures Fetch(m, addr, rkey, 4) == Fetch(m0, addr, rkey, 4)
  {
    hide Mixed;
    if rkey != m.start.rkey {
      if rkey == m.cls.rkey {
        var at := addr - m.cls.base;
        MixedSlice(m0.cls.bytes, m1.cls.bytes, m.cls.bytes, at, at + 4);
      } else {
        var at := addr - m.sketch.base;
        MixedSlice(m0.sketch.bytes, m1.sketch.bytes, m.sketch.bytes, at, at + 4);
      }
    }
  }

  // ---------------------------------------------------------------------------- the condition

  /** Element i read at this address and key has its value. */
  ghost predicate ElementRight(cfg: Config, p: nat, filled: bool, addr: U64, rkey: U32, i: nat)
    requires ValidConfig(cfg) && p <= |cfg.ops|
  {
    ElementBytes(MemoryAt(cfg, p, filled), addr, rkey, i) == Some(Le(4, i))
  }

  /** So it has by whatever mixture of old and new address and key it can be requested: before
      any of the triple is stored the server may be filling its memory or not have begun, and
      afterwards it has finished. */
  ghost predicate MixturesRight(cfg: Config, p: nat, i: nat)
    requires ValidConfig(cfg) && p <= |cfg.ops|
  {
    && (Registered(cfg, cfg.unset.addr, cfg.unset.rkey, i) ==>
          && ElementRight(cfg, p, false, cfg.unset.addr, cfg.unset.rkey, i)
          && ElementRight(cfg, p, true, cfg.unset.addr, cfg.unset.rkey, i))
    && (Registered(cfg, cfg.unset.addr, cfg.mem.sketch.rkey, i) ==>
          ElementRight(cfg, p, true, cfg.unset.addr, cfg.mem.sketch.rkey, i))
    && (Registered(cfg, cfg.mem.sketch.base, cfg.unset.rkey, i) ==>
          ElementRight(cfg, p, true, cfg.mem.sketch.base, cfg.unset.rkey, i))
  }

  /** Every element that can be reached before the triple is stored. */
  ghost predicate ValuesRight(cfg: Config, p: nat)
    requires ValidConfig(cfg) && p <= |cfg.ops|
  {
    forall i :: 0 <= i < cfg.n && EarlyReach(cfg, i) ==> MixturesRight(cfg, p, i)
  }

  // ------------------------------------------------------- an invariant of operation p's ow_read

  /** The first `k` elements have their values. */
  ghost predicate UpTo(l: LocalMemory, k: nat) {
    4 * k <= |l.sketch| && forall j :: 0 <= j < k ==> l.sketch[4 * j..4 * j + 4] == Le(4, j)
  }

  /** Where element i's address may have come from, at this stage of storing the triple. */
  ghost predicate AddressFrom(cfg: Config, stage: nat, addr: int, i: nat) {
    || (addr == ElementAddress(cfg.unset.addr, i) && EarlyReach(cfg, i))
    || (addr == ElementAddress(cfg.mem.sketch.base, i) && stage >= 1)
  }

  /** And the request. */
  ghost predicate RequestFrom(cfg: Config, stage: nat, addr: int, rkey: U32, i: nat) {
    || (addr == ElementAddress(cfg.unset.addr, i) && rkey == cfg.unset.rkey && EarlyReach(cfg, i))
    || (addr == ElementAddress(cfg.unset.addr, i) && rkey == cfg.mem.sketch.rkey && EarlyReach(cfg, i) && stage == 2)
    || (addr == ElementAddress(cfg.mem.sketch.base, i) && rkey == cfg.unset.rkey && EarlyReach(cfg, i) && stage >= 1)
    || (addr == ElementAddress(cfg.mem.sketch.base, i) && rkey == cfg.mem.sketch.rkey && stage == 2)
  }

  /** Element i's read is posted; `unflagged` counts it until its completion is polled. */
  ghost predicate EarlyPosted(cfg: Config, stage: nat, sq: seq<WorkRequest>, unflagged: nat, l: LocalMemory, i: nat) {
    && UpTo(l, i) && (stage < 2 ==> EarlyReach(cfg, i))
    && (forall r :: r in sq && !r.Send? ==> r.Read? && RequestFrom(cfg, stage, r.raddr, r.rkey, i))
    && (CountRequests(sq, KRead) == 0 ==> UpTo(l, i + 1) && (stage == 0 ==> EarlyReach(cfg, i + 1)))
    && (stage < 2 && unflagged == 0 ==> EarlyReach(cfg, i + 1))
  }

  ghost predicate EarlyAt(cfg: Config, pc: ClientPc, stage: nat, wr: Target, sq: seq<WorkRequest>, unflagged: nat,
                          l: LocalMemory)
  {
    match pc
    case Loop(_, i) => UpTo(l, i) && (stage < 2 ==> EarlyReach(cfg, i))
    case Address(_, i) => UpTo(l, i) && (stage < 2 ==> EarlyReach(cfg, i))
    case Key(_, i) => UpTo(l, i) && (stage < 2 ==> EarlyReach(cfg, i)) && AddressFrom(cfg, stage, wr.addr, i)
    case Post(_, i) =>
      UpTo(l, i) && (stage < 2 ==> EarlyReach(cfg, i)) && RequestFrom(cfg, stage, wr.addr, wr.rkey, i)
    case Count(_, i) => EarlyPosted(cfg, stage, sq, unflagged, l, i)
    case Spin(_, i) => EarlyPosted(cfg, stage, sq, unflagged, l, i)
    case Wait(_) => UpTo(l, cfg.n)
    case Return(_) => UpTo(l, cfg.n)
    case _ => true
  }

  /** The client is in operation `p`. */
  predicate InOp(cfg: Config, w: World, p: nat)
    requires p <= |cfg.ops|
  {
    w.c.ops == cfg.ops[p..] && Current(w.c.pc).Some?
  }

  ghost predicate EarlyInv(cfg: Config, p: nat, w: World)
    requires p <= |cfg.ops|
  {
    InOp(cfg, w, p) ==>
      EarlyAt(cfg, w.c.pc, Stage(w.c.io, w.c.known), w.c.wr, w.c.io.qp.sq, Unflagged(w.c), w.c.local)
  }

  /** The stage only grows; the flag comes before the stage can move on. */
  lemma EarlyGrows(cfg: Config, pc: ClientPc, stage: nat, stage': nat, wr: Target, sq: seq<WorkRequest>,
                   u: nat, u': nat, l: LocalMemory)
    requires EarlyAt(cfg, pc, stage, wr, sq, u, l) && stage <= stage' <= 2
    requires u' == u || (u' < u && stage' == stage != 1 && CountRequests(sq, KRead) == 0)
    ensures EarlyAt(cfg, pc, stage', wr, sq, u', l)
  {
    hide UpTo, EarlyReach, ElementAddress;
  }

  lemma CqKeepsEarly(cfg: Config, p: nat, w: World)
    requires ValidConfig(cfg) && Reachable(cfg, w) && p <= |cfg.ops| && EarlyInv(cfg, p, w)
    requires Next(cfg, w, ClientCq).Some?
    ensures EarlyInv(cfg, p, Next(cfg, w, ClientCq).value)
  {
    hide Reachable, Inv, Next, EarlyAt, Stage, Unflagged;
    ReachableInv(cfg, w);
    var v := Next(cfg, w, ClientCq).value;
    OthersKeepPc(cfg, w, ClientCq);
    OthersKeepLocal(cfg, w, ClientCq);
    StageStep(cfg, w, ClientCq);
    StepCounts(cfg, w, ClientCq);
    StageIsSmall(v);
    if Happens(ReadPolled, w, ClientCq) { PolledIsAlone(cfg, w); }
    if InOp(cfg, w, p) {
      EarlyGrows(cfg, w.c.pc, Stage(w.c.io, w.c.known), Stage(v.c.io, v.c.known), w.c.wr, w.c.io.qp.sq,
                 Unflagged(w.c), Unflagged(v.c), w.c.local);
    }
  }

  lemma StageIsSmall(w: World)
    ensures Stage(w.c.io, w.c.known) <= 2
  {
  }

  /** While a read's completion is handled nothing is being stored, and no read is queued. */
  lemma PolledIsAlone(cfg: Config, w: World)
    requires ValidConfig(cfg) && Reachable(cfg, w) && w.c.io.thread == Handle(ReadDone)
    requires Next(cfg, w, ClientCq).Some?
    ensures var c := Next(cfg, w, ClientCq).value.c; Stage(c.io, c.known) == Stage(w.c.io, w.c.known) != 1
    ensures CountRequests(w.c.io.qp.sq, KRead) == 0
  {
    hide Inv, HostQueues, PcInv;
    hide Reachable;
    ReachableInv(cfg, w);
    InvQueues(cfg, w);
  }

  /** What a request of operation `p` brings is right, if the condition holds. */
  lemma ValueIsRight(cfg: Config, p: nat, w: World, addr: int, rkey: U32, i: nat)
    requires ValidConfig(cfg) && Reachable(cfg, w) && p < |cfg.ops| && ValuesRight(cfg, p) && i < cfg.n
    requires InOp(cfg, w, p) && Current(w.c.pc).value.0.OwRead?
    requires RequestFrom(cfg, Stage(w.c.io, w.c.known), addr, rkey, i) && Fetch(cfg.mem, addr, rkey, 4).Some?
    ensures Fetch(w.s.mem, addr, rkey, 4) == Some(Le(4, i))
  {
    hide Reachable, Inv, Fetch, Le, EarlyReach, ElementAddress, Stage, MemoryAt, Mixed, SameServerRegions;
    ReachableInv(cfg, w);
    InOpStart(cfg, p, w);
    MemoryIsMixed(cfg, p, w);
    ToldIsStaged(cfg, w);
    StageIsSmall(w);
    ValuesAt(cfg, p, i);
    if addr == ElementAddress(cfg.unset.addr, i) && rkey == cfg.unset.rkey && EarlyReach(cfg, i) {
      RegionsAt(cfg, p, w);
      FetchMixed(MemoryAt(cfg, p, false), MemoryAt(cfg, p, true), w.s.mem, addr, rkey);
    } else if rkey == cfg.mem.sketch.rkey && addr == ElementAddress(cfg.mem.sketch.base, i) {
      FinalElement(cfg, p, i);
    }
  }

  lemma ValuesAt(cfg: Config, p: nat, i: nat)
    requires ValidConfig(cfg) && p < |cfg.ops| && ValuesRight(cfg, p) && i < cfg.n
    ensures EarlyReach(cfg, i) ==> MixturesRight(cfg, p, i)
  {
  }

  lemma RegionsAt(cfg: Config, p: nat, w: World)
    requires ValidConfig(cfg) && p < |cfg.ops| && SameServerRegions(w.s.mem, cfg.mem)
    requires w.s.mem.start.bytes == BuffersAt(cfg, p).start
    ensures SameServerRegions(w.s.mem, MemoryAt(cfg, p, false)) && SameServerRegions(w.s.mem, MemoryAt(cfg, p, true))
    ensures MemoryAt(cfg, p, false).start.bytes == MemoryAt(cfg, p, true).start.bytes == w.s.mem.start.bytes
  {
    hide BuffersAt, Serialized, SketchBytes;
  }

  /** The sketch itself, once filled, has every element. */
  lemma FinalElement(cfg: Config, p: nat, i: nat)
    requires ValidConfig(cfg) && p < |cfg.ops| && i < cfg.n
    ensures ElementRight(cfg, p, true, cfg.mem.sketch.base, cfg.mem.sketch.rkey, i)
  {
    hide BuffersAt, Serialized, Le, SketchBytes, FromLe;
    SketchSlot(cfg.n, i);
    assert ElementAddress(cfg.mem.sketch.base, i) == cfg.mem.sketch.base + 4 * i;
  }

  /** In an ow_read the start buffer is what the earlier operations left. */
  lemma InOpStart(cfg: Config, p: nat, w: World)
    requires ValidConfig(cfg) && Reachable(cfg, w) && p < |cfg.ops| && w.c.ops == cfg.ops[p..]
    requires w.c.pc == Idle || (Current(w.c.pc).Some? && Current(w.c.pc).value.0.OwRead?)
    ensures w.s.mem.start.bytes == BuffersAt(cfg, p).start
  {
    hide Reachable, BuffersAt;
    BuffersAreAsExpected(cfg, w);
  }

  /** The adapter executes a request. */
  lemma SendKeepsEarly(cfg: Config, p: nat, w: World)
    requires ValidConfig(cfg) && Reachable(cfg, w) && p < |cfg.ops| && cfg.ops[p].OwRead? && ValuesRight(cfg, p)
    requires EarlyInv(cfg, p, w) && Next(cfg, w, ClientSend).Some?
    ensures EarlyInv(cfg, p, Next(cfg, w, ClientSend).value)
  {
    hide Reachable, Inv, Next, EarlyAt, Stage, Unflagged, ValuesRight;
    ReachableInv(cfg, w);
    EmptyQueue(cfg, w);
    OthersKeepPc(cfg, w, ClientSend);
    OthersKeepStage(cfg, w, ClientSend);
    StepCounts(cfg, w, ClientSend);
    SameStage(w, Next(cfg, w, ClientSend).value);
    if InOp(cfg, w, p) {
      CurrentIsHead(cfg, w);
      if w.c.io.qp.sq[0].Send? { EarlyMessage(cfg, p, w); } else { EarlyExecuted(cfg, p, w); }
    }
  }

  lemma SameStage(w: World, v: World)
    requires v.c.known == w.c.known && v.c.io.thread == w.c.io.thread
    ensures Stage(v.c.io, v.c.known) == Stage(w.c.io, w.c.known)
  {
  }

  lemma EarlyMessage(cfg: Config, p: nat, w: World)
    requires p < |cfg.ops| && EarlyInv(cfg, p, w) && InOp(cfg, w, p)
    requires w.c.io.qp.sq != [] && w.c.io.qp.sq[0].Send? && Next(cfg, w, ClientSend).Some?
    ensures var v := Next(cfg, w, ClientSend).value;
            EarlyAt(cfg, w.c.pc, Stage(w.c.io, w.c.known), w.c.wr, v.c.io.qp.sq, Unflagged(w.c), v.c.local)
  {
    hide UpTo, EarlyReach, ElementAddress, Stage, Unflagged, Deliver, RequestFrom;
    var sq := w.c.io.qp.sq;
    assert forall r :: r in sq[1..] ==> r in sq;
  }

  lemma EarlyExecuted(cfg: Config, p: nat, w: World)
    requires ValidConfig(cfg) && Reachable(cfg, w) && p < |cfg.ops| && ValuesRight(cfg, p)
    requires EarlyInv(cfg, p, w) && InOp(cfg, w, p) && Current(w.c.pc).value.0.OwRead?
    requires w.c.io.qp.sq != [] && !w.c.io.qp.sq[0].Send? && Next(cfg, w, ClientSend).Some?
    ensures var v := Next(cfg, w, ClientSend).value;
            EarlyAt(cfg, w.c.pc, Stage(w.c.io, w.c.known), w.c.wr, v.c.io.qp.sq, Unflagged(w.c), v.c.local)
  {
    hide Reachable, Inv, EarlyReach, ElementAddress, Stage, Unflagged, ReadInto, MayPost, Informed, Before, Fetch, Le;
    hide ValuesRight, SameSizes, SameServerRegions, MemInv, RequestFrom;
    ReachableInv(cfg, w);
    HeadIsCurrent(cfg, w);
    var sq := w.c.io.qp.sq;
    var (op, i) := Current(w.c.pc).value;
    var r := sq[0];
    assert r in sq && forall x :: x in sq[1..] ==> x in sq;
    ScatterIs(cfg, w);
    InvMemories(cfg, w);
    StrayRead(cfg, r.raddr, r.rkey, i, w.c.local, w.s.mem);
    ValueIsRight(cfg, p, w, r.raddr, r.rkey, i);
    StageZero(cfg, w, r.raddr, r.rkey, i);
    OneUp(w.c.local, Next(cfg, w, ClientSend).value.c.local, i);
  }

  lemma ScatterIs(cfg: Config, w: World)
    requires ValidConfig(cfg) && Reachable(cfg, w) && w.c.io.qp.sq != [] && !w.c.io.qp.sq[0].Send?
    requires Current(w.c.pc).Some? && Current(w.c.pc).value.0.OwRead?
    ensures w.c.io.qp.sq[0].Read?
    ensures w.c.io.qp.sq[0].scatter == [Sge(SketchBuf, 4 * Current(w.c.pc).value.1, 4)]
  {
    hide Inv, Informed, Before, MayAddress, MayKey;
    hide Reachable;
    ReachableInv(cfg, w);
    HeadIsCurrent(cfg, w);
  }

  /** What is requested before anything is stored lies at the unset address and key. */
  lemma StageZero(cfg: Config, w: World, addr: int, rkey: U32, i: nat)
    requires RequestFrom(cfg, Stage(w.c.io, w.c.known), addr, rkey, i) && Fetch(cfg.mem, addr, rkey, 4).Some?
    ensures Stage(w.c.io, w.c.known) == 0 ==> EarlyReach(cfg, i + 1)
  {
    hide Stage, Fetch, ElementAddress;
  }

  lemma OneUp(l: LocalMemory, l': LocalMemory, i: nat)
    requires UpTo(l, i) && 4 * i + 4 <= |l.sketch| && l'.sketch == Put(l.sketch, 4 * i, Le(4, i))
    ensures UpTo(l', i) && UpTo(l', i + 1)
  {
    hide Le;
    forall j | 0 <= j < i ensures l'.sketch[4 * j..4 * j + 4] == Le(4, j) {
      assert l'.sketch[4 * j..4 * j + 4] == l'.sketch[..4 * i][4 * j..4 * j + 4] == l.sketch[..4 * i][4 * j..4 * j + 4];
    }
  }

  /** The main thread reads the address, reads the key, posts, and sees the flag. */
  lemma FillKeepsEarly(cfg: Config, p: nat, w: World)
    requires ValidConfig(cfg) && Reachable(cfg, w) && p < |cfg.ops| && EarlyInv(cfg, p, w) && InOp(cfg, w, p)
    requires w.c.pc.Address? || w.c.pc.Key? || w.c.pc.Loop?
    requires Next(cfg, w, ClientMain).Some?
    ensures EarlyInv(cfg, p, Next(cfg, w, ClientMain).value)
  {
    hide Inv, UpTo, EarlyReach, ElementAddress, Unflagged, HostQueues, Reads;
    hide Reachable;
    ReachableInv(cfg, w);
    InvQueues(cfg, w);
    ToldIsStaged(cfg, w);
  }

  lemma PostKeepsEarly(cfg: Config, p: nat, w: World)
    requires ValidConfig(cfg) && Reachable(cfg, w) && p < |cfg.ops| && EarlyInv(cfg, p, w) && InOp(cfg, w, p)
    requires w.c.pc.Post? && w.c.pc.op.OwRead? && Next(cfg, w, ClientMain).Some?
    ensures EarlyInv(cfg, p, Next(cfg, w, ClientMain).value)
  {
    hide Reachable, Inv, UpTo, EarlyReach, ElementAddress, Unflagged, Next, HostQueues, PcInv, RequestFrom, Stage;
    ReachableInv(cfg, w);
    PostedIs(cfg, w);
    StepCounts(cfg, w, ClientMain);
    var v := Next(cfg, w, ClientMain).value;
    SameStage(w, v);
    var r := Request(w.c.known, w.c.wr, w.c.pc.op, w.c.pc.i);
    InvQueues(cfg, w);
    StartedInOp(w.c.pc);
    NoRequestYet(w.c.io);
    CountRequestsPush(w.c.io.qp.sq, r, KRead);
  }

  lemma WaitKeepsEarly(cfg: Config, p: nat, w: World)
    requires ValidConfig(cfg) && Reachable(cfg, w) && p < |cfg.ops| && EarlyInv(cfg, p, w) && InOp(cfg, w, p)
    requires w.c.pc.Count? || w.c.pc.Spin? || w.c.pc.Wait? || w.c.pc.Return?
    requires cfg.ops[p].OwRead? && Current(w.c.pc).value.0 == cfg.ops[p] && Next(cfg, w, ClientMain).Some?
    ensures EarlyInv(cfg, p, Next(cfg, w, ClientMain).value)
  {
    hide Inv, UpTo, EarlyReach, ElementAddress, HostQueues, RequestFrom, Stage, PcInv;
    hide Reachable;
    ReachableInv(cfg, w);
    InvQueues(cfg, w);
    var v := Next(cfg, w, ClientMain).value;
    assert v.c.io == w.c.io && v.c.known == w.c.known && v.c.local == w.c.local;
  }

  lemma CallKeepsEarly(cfg: Config, p: nat, w: World)
    requires ValidConfig(cfg) && Reachable(cfg, w) && p < |cfg.ops| && cfg.ops[p].OwRead? && !Current(w.c.pc).Some?
    requires Next(cfg, w, ClientMain).Some?
    ensures EarlyInv(cfg, p, Next(cfg, w, ClientMain).value)
  {
    hide Inv, ElementAddress, Unflagged, Stage, Encode;
    hide Reachable;
    ReachableInv(cfg, w);
  }

  lemma MainKeepsEarly(cfg: Config, p: nat, w: World)
    requires ValidConfig(cfg) && Reachable(cfg, w) && p < |cfg.ops| && cfg.ops[p].OwRead?
    requires EarlyInv(cfg, p, w) && Next(cfg, w, ClientMain).Some?
    ensures EarlyInv(cfg, p, Next(cfg, w, ClientMain).value)
  {
    hide Reachable, Inv, Next, EarlyInv;
    ReachableInv(cfg, w);
    if Current(w.c.pc).None? {
      CallKeepsEarly(cfg, p, w);
    } else if InOp(cfg, w, p) {
      CurrentIsHead(cfg, w);
      if w.c.pc.Post? {
        PostKeepsEarly(cfg, p, w);
      } else if w.c.pc.Loop? || w.c.pc.Address? || w.c.pc.Key? {
        FillKeepsEarly(cfg, p, w);
      } else {
        WaitKeepsEarly(cfg, p, w);
      }
    } else {
      ElsewhereKeepsEarly(cfg, p, w);
    }
  }

  /** An operation is entered from between operations only. */
  lemma ElsewhereKeepsEarly(cfg: Config, p: nat, w: World)
    requires p < |cfg.ops| && Current(w.c.pc).Some? && !InOp(cfg, w, p) && Next(cfg, w, ClientMain).Some?
    ensures EarlyInv(cfg, p, Next(cfg, w, ClientMain).value)
  {
    hide Next, EarlyAt;
    OpStepKeepsOps(cfg, w);
  }

  lemma EarlyKept(cfg: Config, p: nat, w: World, a: Agent)
    requires ValidConfig(cfg) && Reachable(cfg, w) && p < |cfg.ops| && cfg.ops[p].OwRead? && ValuesRight(cfg, p)
    requires EarlyInv(cfg, p, w) && Next(cfg, w, a).Some?
    ensures EarlyInv(cfg, p, Next(cfg, w, a).value)
  {
    hide Reachable, Next, ValuesRight, EarlyAt, Stage, Unflagged;
    if a == ClientMain {
      MainKeepsEarly(cfg, p, w);
    } else if a == ClientSend {
      SendKeepsEarly(cfg, p, w);
    } else if a == ClientCq {
      CqKeepsEarly(cfg, p, w);
    } else {
      OthersKeepPc(cfg, w, a);
      OthersKeepLocal(cfg, w, a);
      OthersKeepStage(cfg, w, a);
      StepCounts(cfg, w, a);
      SameStage(w, Next(cfg, w, a).value);
    }
  }

  lemma {:induction false} RunsKeepEarly(cfg: Config, p: nat, agents: seq<Agent>)
    requires ValidConfig(cfg) && p < |cfg.ops| && cfg.ops[p].OwRead? && ValuesRight(cfg, p) && Run(cfg, agents).Some?
    ensures EarlyInv(cfg, p, Run(cfg, agents).value)
  {
    hide Next, EarlyAt, Init, ValuesRight;
    if agents == [] {
      InitEarly(cfg, p);
    } else {
      var front := agents[..|agents| - 1];
      RunsKeepEarly(cfg, p, front);
      assert Reachable(cfg, Run(cfg, front).value);
      EarlyKept(cfg, p, Run(cfg, front).value, agents[|agents| - 1]);
    }
  }

  lemma InitEarly(cfg: Config, p: nat)
    requires p < |cfg.ops|
    ensures EarlyInv(cfg, p, Init(cfg))
  {
    hide Be;
  }

  // -------------------------------------------------------------------- runs that go wrong

  /** The server's main thread alone finishes its memory and posts the third advertisement. */
  lemma {:induction false} FillMemory(cfg: Config, w0: World) returns (w: World)
    requires ValidConfig(cfg) && Reachable(cfg, w0) && w0.s.sent.cls && AdvertsPosted(w0.s.pc) >= 2
    ensures Reachable(cfg, w) && w.c == w0.c && AdvertsPosted(w.s.pc) == 3
    decreases Measure(cfg, w0)
  {
    hide Next, Reachable, Measure;
    if AdvertsPosted(w0.s.pc) == 3 {
      w := w0;
    } else {
      ServerFills(cfg, w0);
      Advance(cfg, w0, ServerMain);
      w := FillMemory(cfg, Next(cfg, w0, ServerMain).value);
    }
  }

  lemma ServerFills(cfg: Config, w: World)
    requires ValidConfig(cfg) && Reachable(cfg, w) && w.s.sent.cls && AdvertsPosted(w.s.pc) == 2
    ensures Next(cfg, w, ServerMain).Some?
    ensures var v := Next(cfg, w, ServerMain).value; v.c == w.c && v.s.sent == w.s.sent && AdvertsPosted(v.s.pc) >= 2
  {
    hide Reachable, Next;
    ServerFillStep(cfg, w);
    Advance(cfg, w, ServerMain);
    NoErrors(cfg, Next(cfg, w, ServerMain).value);
  }

  lemma ServerFillStep(cfg: Config, w: World)
    requires w.s.sent.cls && AdvertsPosted(w.s.pc) == 2
    ensures Next(cfg, w, ServerMain).Some?
    ensures var v := Next(cfg, w, ServerMain).value;
            v.c == w.c && v.s.sent == w.s.sent && (v.s.pc.ServerExit? || AdvertsPosted(v.s.pc) >= 2)
  {
    hide Encode, AdvertOf, StoreAt, CopiedWord, Le, Be, Words, Header;
  }

  /** Held before its count, the main thread lets the others execute its read and come to rest. */
  ghost predicate Executing(w: World, sketch: seq<Byte>, r: WorkRequest, d: seq<Byte>, i: nat) {
    || (w.c.io.qp.sq == [r] && w.c.local.sketch == sketch)
    || (w.c.io.qp.sq == [] && Placed(sketch, w.c.local.sketch, i, d))
  }

  lemma OthersKeepFilled(cfg: Config, w: World, a: Agent)
    requires AdvertsPosted(w.s.pc) == 3 && a != ClientMain && Next(cfg, w, a).Some?
    requires a == ClientSend ==> w.c.io.qp.sq[0].Read?
    ensures var v := Next(cfg, w, a).value; v.s.mem == w.s.mem && AdvertsPosted(v.s.pc) == 3
  {
    hide Decode, FromBe, Encode, StoreAddress, StoreRest, SetFlag, CqLoop, AdvertOf, Le, Be, MarkSent, ReadInto;
  }

  lemma ExecutingKept(cfg: Config, w: World, a: Agent, sketch: seq<Byte>, addr: int, rkey: U32, d: seq<Byte>, i: nat)
    requires ValidConfig(cfg) && Reachable(cfg, w) && i < cfg.n && a != ClientMain && Next(cfg, w, a).Some?
    requires AdvertsPosted(w.s.pc) == 3 && Fetch(w.s.mem, addr, rkey, 4) == Some(d)
    requires Executing(w, sketch, Read(addr, rkey, [Sge(SketchBuf, 4 * i, 4)]), d, i)
    ensures var v := Next(cfg, w, a).value;
            && Executing(v, sketch, Read(addr, rkey, [Sge(SketchBuf, 4 * i, 4)]), d, i)
            && AdvertsPosted(v.s.pc) == 3 && v.s.mem == w.s.mem
  {
    hide Inv, Fetch, Next, ReadInto, SameSizes, SameServerRegions, MemInv;
    hide Reachable;
    ReachableInv(cfg, w);
    if a == ClientSend {
      EmptyQueue(cfg, w);
      InvMemories(cfg, w);
      StrayRead(cfg, addr, rkey, i, w.c.local, w.s.mem);
      ReadIsExecuted(cfg, w, addr, rkey, i);
    } else {
      OthersKeepLocal(cfg, w, a);
    }
    OthersKeepFilled(cfg, w, a);
  }

  lemma ReadIsExecuted(cfg: Config, w: World, addr: int, rkey: U32, i: nat)
    requires w.c.io.qp.sq == [Read(addr, rkey, [Sge(SketchBuf, 4 * i, 4)])] && Next(cfg, w, ClientSend).Some?
    ensures var v := Next(cfg, w, ClientSend).value;
            && v.c.io.qp.sq == []
            && ReadInto(w.c.local, w.s.mem, addr, rkey, [Sge(SketchBuf, 4 * i, 4)]) == Some(v.c.local)
  {
    hide ReadInto;
  }

  lemma {:induction false} LetExecute(cfg: Config, w0: World, sketch: seq<Byte>, addr: int, rkey: U32, d: seq<Byte>,
                                      i: nat) returns (w: World)
    requires ValidConfig(cfg) && Reachable(cfg, w0) && i < cfg.n && InOperation(w0.c.pc)
    requires AdvertsPosted(w0.s.pc) == 3 && Fetch(w0.s.mem, addr, rkey, 4) == Some(d)
    requires Executing(w0, sketch, Read(addr, rkey, [Sge(SketchBuf, 4 * i, 4)]), d, i)
    ensures Reachable(cfg, w) && w.c.pc == w0.c.pc && w.c.ops == w0.c.ops && w.c.io == StartIo()
    ensures Placed(sketch, w.c.local.sketch, i, d)
    decreases Measure(cfg, w0)
  {
    hide Next, Reachable, Measure, Inv, Fetch, Placed;
    ReachableInv(cfg, w0);
    if a: Agent :| a != ClientMain && Next(cfg, w0, a).Some? {
      Advance(cfg, w0, a);
      OthersKeepPc(cfg, w0, a);
      ExecutingKept(cfg, w0, a, sketch, addr, rkey, d, i);
      w := LetExecute(cfg, Next(cfg, w0, a).value, sketch, addr, rkey, d, i);
    } else {
      QueueIsEmpty(cfg, w0, addr, rkey, i);
      QuietTold(cfg, w0);
      w := w0;
    }
  }

  lemma QueueIsEmpty(cfg: Config, w: World, addr: int, rkey: U32, i: nat)
    requires ValidConfig(cfg) && Reachable(cfg, w) && i < cfg.n && Next(cfg, w, ClientSend).None?
    requires Fetch(w.s.mem, addr, rkey, 4).Some?
    ensures w.c.io.qp.sq != [Read(addr, rkey, [Sge(SketchBuf, 4 * i, 4)])]
  {
    hide Inv, ReadInto, Fetch, SameSizes, SameServerRegions, MemInv;
    hide Reachable;
    ReachableInv(cfg, w);
    InvMemories(cfg, w);
    SameFetch(w.s.mem, cfg.mem, addr, rkey, 4);
    StrayRead(cfg, addr, rkey, i, w.c.local, w.s.mem);
  }

  /** A request posted while the triple is being stored brings what the finished memory holds
      there, and ow_read goes on. */
  lemma TakePosted(cfg: Config, w0: World, op: Op, i: nat, addr: U64, rkey: U32) returns (w: World)
    requires ValidConfig(cfg) && PostedElement(cfg, w0, op, i, addr, rkey) && AdvertsPosted(w0.s.pc) == 3 && i < cfg.n
    requires ElementBytes(w0.s.mem, addr, rkey, i).Some?
    ensures AtElement(cfg, w, op, i + 1) && w.c.ops == w0.c.ops
    ensures Placed(w0.c.local.sketch, w.c.local.sketch, i, ElementBytes(w0.s.mem, addr, rkey, i).value)
  {
    hide Reachable, Inv, Fetch, ElementAddress;
    var d := ElementBytes(w0.s.mem, addr, rkey, i).value;
    w := LetExecute(cfg, w0, w0.c.local.sketch, ElementAddress(addr, i), rkey, d, i);
    ReachableInv(cfg, w);
    CountedEarly(cfg, w, op, i);
    w := NextElement(cfg, w, op, i);
  }

  /** At rest before its count, the read has been counted down and its flag is set. */
  lemma CountedEarly(cfg: Config, w: World, op: Op, i: nat)
    requires ValidConfig(cfg) && Reachable(cfg, w) && op.OwRead? && w.c.pc == Count(op, i) && w.c.io == StartIo()
    ensures w.c.progress.readComplete && w.c.progress.pendingReads == -1
  {
    hide Inv, HostQueues, PcInv;
    hide Reachable;
    ReachableInv(cfg, w);
    InvQueues(cfg, w);
    FreshChain();
  }

  /** The value an ow_read returns for element i. */
  lemma WrongWord(sketch: seq<Byte>, i: nat, d: seq<Byte>)
    requires 4 * i + 4 <= |sketch| && sketch[4 * i..4 * i + 4] == d && d != Le(4, i)
    ensures WordAt(sketch, 4 * i) != i
  {
    LeInverse(d);
  }

  /** In this state, if operation `p`, an ow_read, has returned, every slot has its element. */
  ghost predicate ReturnsSketch(cfg: Config, w: World, p: nat)
    requires p <= |cfg.ops|
  {
    w.c.pc.Return? && w.c.pc.op.OwRead? && w.c.ops == cfg.ops[p..] ==>
      forall k :: 0 <= k < cfg.n ==> 4 * k + 4 <= |w.c.local.sketch| && WordAt(w.c.local.sketch, 4 * k) == k
  }

  /** With element i misread, the ow_read still returns. */
  lemma ReturnWrong(cfg: Config, p: nat, w0: World, op: Op, i: nat, before: seq<Byte>, d: seq<Byte>) returns (w: World)
    requires ValidConfig(cfg) && p <= |cfg.ops| && i < cfg.n
    requires AtElement(cfg, w0, op, i + 1) && w0.c.ops == cfg.ops[p..]
    requires Placed(before, w0.c.local.sketch, i, d) && d != Le(4, i)
    ensures Reachable(cfg, w) && !ReturnsSketch(cfg, w, p)
  {
    hide Reachable, AtElement, Le, WordAt;
    PlacedKeeps(before, w0.c.local.sketch, i, d);
    assert op.OwRead? by { ElementIsRead(cfg, w0, op, i + 1); }
    w := FinishRead(cfg, w0, op, i + 1);
    var s0, s := w0.c.local.sketch, w.c.local.sketch;
    assert s[4 * i..4 * i + 4] == s[..4 * (i + 1)][4 * i..4 * i + 4] == s0[..4 * (i + 1)][4 * i..4 * i + 4] == d;
    WrongWord(s, i, d);
  }

  lemma ElementIsRead(cfg: Config, w: World, op: Op, i: nat)
    requires AtElement(cfg, w, op, i)
    ensures op.OwRead?
  {
  }

  /** Nothing stored yet, and the server's memory not begun or finished, as we like. */
  lemma EarlyCallIn(cfg: Config, p: nat, filled: bool) returns (w: World)
    requires ValidConfig(cfg) && p < |cfg.ops| && cfg.ops[p] == OwRead(false) && WayIsFree(cfg, p, true)
    ensures AtElement(cfg, w, OwRead(false), 0) && Untold(cfg, w) && w.c.ops == cfg.ops[p..]
    ensures w.s.mem == MemoryAt(cfg, p, filled)
  {
    hide Reachable, WayIsFree, Inv, MemoryAt, Mixed;
    w := EarlyCall(cfg, p);
    if filled { w := FillMemory(cfg, w); }
    ReachableInv(cfg, w);
    InOpStart(cfg, p, w);
    MemoryIsMixed(cfg, p, w);
  }

  /** Element i taken at the unset address and key, from a memory where it is wrong. */
  lemma UnsetWrong(cfg: Config, p: nat, filled: bool, i: nat) returns (w: World)
    requires ValidConfig(cfg) && p < |cfg.ops| && cfg.ops[p] == OwRead(false) && WayIsFree(cfg, p, true) && i < cfg.n
    requires EarlyReach(cfg, i) && Registered(cfg, cfg.unset.addr, cfg.unset.rkey, i)
    requires !ElementRight(cfg, p, filled, cfg.unset.addr, cfg.unset.rkey, i)
    ensures Reachable(cfg, w) && !ReturnsSketch(cfg, w, p)
  {
    hide Reachable, WayIsFree, MemoryAt, Registered, EarlyReach, ReturnsSketch, ElementBytes, Le, Placed;
    var op := OwRead(false);
    w := EarlyCallIn(cfg, p, filled);
    w := ReachElement(cfg, w, op, i);
    var before := w.c.local.sketch;
    w := TakeElement(cfg, w, op, i);
    w := ReturnWrong(cfg, p, w, op, i, before,
                     ElementBytes(MemoryAt(cfg, p, filled), cfg.unset.addr, cfg.unset.rkey, i).value);
  }

  /** Element i taken at a mixture of old and new, from the finished memory. */
  lemma MixtureWrong(cfg: Config, p: nat, newKey: bool, i: nat) returns (w: World)
    requires ValidConfig(cfg) && p < |cfg.ops| && cfg.ops[p] == OwRead(false) && WayIsFree(cfg, p, true) && i < cfg.n
    requires EarlyReach(cfg, i)
    requires var addr := if newKey then cfg.unset.addr else cfg.mem.sketch.base;
             var rkey := if newKey then cfg.mem.sketch.rkey else cfg.unset.rkey;
             Registered(cfg, addr, rkey, i) && !ElementRight(cfg, p, true, addr, rkey, i)
    ensures Reachable(cfg, w) && !ReturnsSketch(cfg, w, p)
  {
    hide Reachable, WayIsFree, MemoryAt, EarlyReach, ReturnsSketch, Le, Placed, Fetch, ElementAddress, Inv, Mixed;
    var op := OwRead(false);
    var addr := if newKey then cfg.unset.addr else cfg.mem.sketch.base;
    var rkey := if newKey then cfg.mem.sketch.rkey else cfg.unset.rkey;
    w := EarlyCallIn(cfg, p, false);
    w := ReachElement(cfg, w, op, i);
    if newKey { w := PostNewKey(cfg, w, op, i); } else { w := PostNewAddress(cfg, w, op, i); }
    var before := w.c.local.sketch;
    ReachableInv(cfg, w);
    InOpStart(cfg, p, w);
    MemoryIsMixed(cfg, p, w);
    SameFetch(w.s.mem, cfg.mem, ElementAddress(addr, i), rkey, 4);
    var d := ElementBytes(w.s.mem, addr, rkey, i).value;
    w := TakePosted(cfg, w, op, i, addr, rkey);
    w := ReturnWrong(cfg, p, w, op, i, before, d);
  }

  lemma EarlyWrong(cfg: Config, p: nat) returns (w: World)
    requires ValidConfig(cfg) && p < |cfg.ops| && cfg.ops[p] == OwRead(false) && WayIsFree(cfg, p, true)
    requires !ValuesRight(cfg, p)
    ensures Reachable(cfg, w) && !ReturnsSketch(cfg, w, p)
  {
    hide Reachable, WayIsFree, ElementRight, Registered, EarlyReach, ReturnsSketch;
    var i: nat :| i < cfg.n && EarlyReach(cfg, i) && !MixturesRight(cfg, p, i);
    var a, k := cfg.unset.addr, cfg.unset.rkey;
    if Registered(cfg, a, k, i) && !ElementRight(cfg, p, false, a, k, i) {
      w := UnsetWrong(cfg, p, false, i);
    } else if Registered(cfg, a, k, i) && !ElementRight(cfg, p, true, a, k, i) {
      w := UnsetWrong(cfg, p, true, i);
    } else if Registered(cfg, a, cfg.mem.sketch.rkey, i) && !ElementRight(cfg, p, true, a, cfg.mem.sketch.rkey, i) {
      w := MixtureWrong(cfg, p, true, i);
    } else {
      w := MixtureWrong(cfg, p, false, i);
    }
  }

  // ------------------------------------------------------------------------------ the theorem

  lemma ReturnedRight(cfg: Config, p: nat, w: World)
    requires ValidConfig(cfg) && Reachable(cfg, w) && p < |cfg.ops| && cfg.ops[p].OwRead? && ValuesRight(cfg, p)
    ensures ReturnsSketch(cfg, w, p)
  {
    hide ValuesRight, Run, WordAt, Le;
    var agents :| Run(cfg, agents) == Some(w);
    RunsKeepEarly(cfg, p, agents);
    if w.c.pc.Return? && w.c.ops == cfg.ops[p..] {
      forall k | 0 <= k < cfg.n ensures WordAt(w.c.local.sketch, 4 * k) == k { WordIs(w.c.local.sketch, k); }
    }
  }

  /** An ow_read called without waiting, as main calls it, returns the server's elements in every
      run if and only if an earlier operation had to wait for the sketch's address, or each
      element that can be requested before the triple is stored has its value at every mixture of
      address and key that the request can be built from - wherever that lies, before the server
      has touched its memory and when it has finished. */
  lemma EarlyOwReadIff(cfg: Config, p: nat)
    requires ValidConfig(cfg) && p < |cfg.ops| && cfg.ops[p] == OwRead(false) && WayIsFree(cfg, p, false)
    ensures (forall w :: Reachable(cfg, w) ==> ReturnsSketch(cfg, w, p)) <==> Delayed(cfg.ops, p) || ValuesRight(cfg, p)
  {
    hide Reachable, Delayed, WayIsFree, ReturnsSketch, ValuesRight;
    if Delayed(cfg.ops, p) {
      forall w | Reachable(cfg, w) ensures ReturnsSketch(cfg, w, p) { DelayedReturns(cfg, p, w); }
    } else if ValuesRight(cfg, p) {
      forall w | Reachable(cfg, w) ensures ReturnsSketch(cfg, w, p) { ReturnedRight(cfg, p, w); }
    } else {
      FreeAndFrozen(cfg, p);
      var w := EarlyWrong(cfg, p);
    }
  }

  /** Having the sketch's own address and key all along is not enough: ow_read may read it before
      the server has filled it. It is right in every run if and only if the sketch needed no filling. */
  lemma UnsetIsRightIff(cfg: Config, p: nat)
    requires ValidConfig(cfg) && p <= |cfg.ops| && UnsetIsRight(cfg)
    ensures ValuesRight(cfg, p) <==> cfg.mem.sketch.bytes == SketchBytes(cfg.n)
  {
    hide BuffersAt, Le, SketchBytes, Serialized, MixturesRight, Registered;
    forall i | 0 <= i < cfg.n
      ensures EarlyReach(cfg, i)
      ensures MixturesRight(cfg, p, i) <==> cfg.mem.sketch.bytes[4 * i..4 * i + 4] == Le(4, i)
    {
      forall j | 0 <= j < i ensures Registered(cfg, cfg.unset.addr, cfg.unset.rkey, j) { SketchRegistered(cfg, j); }
      SketchRegistered(cfg, i);
      SketchElement(cfg, p, i);
    }
    if ValuesRight(cfg, p) {
      assert forall i :: 0 <= i < cfg.n ==> MixturesRight(cfg, p, i);
      SameSlots(cfg.mem.sketch.bytes, cfg.n);
    } else {
      var i: nat :| i < cfg.n && EarlyReach(cfg, i) && !MixturesRight(cfg, p, i);
      SketchSlot(cfg.n, i);
    }
  }

  lemma SketchElement(cfg: Config, p: nat, i: nat)
    requires ValidConfig(cfg) && p <= |cfg.ops| && UnsetIsRight(cfg) && i < cfg.n
    requires Registered(cfg, cfg.mem.sketch.base, cfg.mem.sketch.rkey, i)
    ensures MixturesRight(cfg, p, i) <==> cfg.mem.sketch.bytes[4 * i..4 * i + 4] == Le(4, i)
  {
    hide BuffersAt, Le, SketchBytes, Serialized, Registered;
    SketchSlot(cfg.n, i);
    assert ElementAddress(cfg.mem.sketch.base, i) == cfg.mem.sketch.base + 4 * i;
  }

  lemma {:induction false} SameSlots(s: seq<Byte>, n: nat)
    requires |s| >= 4 * n && forall i :: 0 <= i < n ==> s[4 * i..4 * i + 4] == Le(4, i)
    ensures s[..4 * n] == SketchBytes(n)
    ensures |s| == 4 * n ==> s == SketchBytes(n)
  {
    hide Le;
    if n > 0 {
      SameSlots(s, n - 1);
      assert s[..4 * n] == s[..4 * (n - 1)] + s[4 * (n - 1)..4 * (n - 1) + 4];
    }
    if |s| == 4 * n { assert s[..4 * n] == s; }
  }

  lemma DelayedReturns(cfg: Config, p: nat, w: World)
    requires ValidConfig(cfg) && Reachable(cfg, w) && p < |cfg.ops| && Delayed(cfg.ops, p)
    ensures ReturnsSketch(cfg, w, p)
  {
    hide Reachable, Delayed;
    if w.c.pc.Return? && w.c.pc.op.OwRead? && w.c.ops == cfg.ops[p..] { OwReadCorrect(cfg, w); }
  }
}
