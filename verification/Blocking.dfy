/** Requests that can never be executed: the exact condition under which every run finishes, and
    what ow_read posts when its caller has not waited for an address. */
module Blocking {
  import opened Bytes
  import opened Verbs
  import opened Rendezvous
  import opened Invariants
  import opened Preservation
  import opened Termination
  import opened Guarantees
  import opened Frames
  import opened Witnesses
  import opened Program
  import opened Schedules
  import opened Elements

  // ----------------------------------------------------------------- a request that blocks

  /** A read into, or write from, one local range that is too short, or a read of remote memory
      that is not registered. */
  ghost predicate Unexecutable(cfg: Config, r: WorkRequest) {
    match r
    case Send(_, _) => false
    case Read(raddr, rkey, scatter) =>
      |scatter| == 1 && (!SgeFits(cfg.local, scatter[0]) || Fetch(cfg.mem, raddr, rkey, scatter[0].len).None?)
    case Write(_, _, source) => !SgeFits(cfg.local, source)
  }

  ghost predicate Blocked(cfg: Config, w: World) {
    w.c.io.qp.sq != [] && Unexecutable(cfg, w.c.io.qp.sq[0])
  }

  /** Sizes, places and keys decide, and those never change. */
  lemma BlockedHasNoStep(cfg: Config, w: World)
    requires ValidConfig(cfg) && Reachable(cfg, w) && Blocked(cfg, w)
    ensures Next(cfg, w, ClientSend).None?
  {
    hide Inv, ReadInto, Fetch, MemInv;
    hide Reachable;
    ReachableInv(cfg, w);
    InvMemories(cfg, w);
    var r := w.c.io.qp.sq[0];
    if r.Read? {
      var g := r.scatter[0];
      assert r.scatter == [g];
      OneRange(w.c.local, w.s.mem, r.raddr, r.rkey, g);
      SameFetch(w.s.mem, cfg.mem, r.raddr, r.rkey, g.len);
    }
  }

  lemma SameFetch(m: ServerMemory, m0: ServerMemory, addr: int, rkey: U32, len: nat)
    requires SameServerRegions(m, m0)
    ensures Fetch(m, addr, rkey, len).Some? <==> Fetch(m0, addr, rkey, len).Some?
  {
  }

  /** Nobody else takes a request from the send queue. */
  lemma OthersKeepQueue(cfg: Config, w: World, a: Agent)
    requires a != ClientSend && !w.c.pc.Setup? && Next(cfg, w, a).Some?
    ensures w.c.io.qp.sq <= Next(cfg, w, a).value.c.io.qp.sq
  {
    hide ServerStep, ServerCqStep, ReadInto, WriteFrom, Request, Encode, Decode, FromBe, StoreAddress;
    hide StoreRest, SetFlag, CqLoop;
  }

  lemma BlockedKept(cfg: Config, w: World, a: Agent)
    requires ValidConfig(cfg) && Reachable(cfg, w) && Blocked(cfg, w) && Next(cfg, w, a).Some?
    ensures Blocked(cfg, Next(cfg, w, a).value)
  {
    hide Inv, Next, Reachable, Unexecutable;
    ReachableInv(cfg, w);
    BlockedHasNoStep(cfg, w);
    SetupIsEmpty(cfg, w);
    OthersKeepQueue(cfg, w, a);
  }

  lemma SetupIsEmpty(cfg: Config, w: World)
    requires ValidConfig(cfg) && Reachable(cfg, w) && w.c.io.qp.sq != []
    ensures !w.c.pc.Setup?
  {
    hide Inv;
    hide Reachable;
    ReachableInv(cfg, w);
    InvQueues(cfg, w);
  }

  /** A blocked state leads to one where nobody can step and not all is done. */
  lemma {:induction false} BlockedGetsStuck(cfg: Config, w0: World) returns (w: World)
    requires ValidConfig(cfg) && Reachable(cfg, w0) && Blocked(cfg, w0)
    ensures Reachable(cfg, w) && Stuck(cfg, w) && !Final(w)
    decreases Measure(cfg, w0)
  {
    hide Next, Reachable, Measure, Unexecutable;
    if a: Agent :| Next(cfg, w0, a).Some? {
      Advance(cfg, w0, a);
      BlockedKept(cfg, w0, a);
      w := BlockedGetsStuck(cfg, Next(cfg, w0, a).value);
    } else {
      w := w0;
    }
  }

  // ------------------------------------------------------- an ow_read that did not wait

  /** Nothing of the sketch's triple has been stored. */
  ghost predicate Untold(cfg: Config, w: World) {
    Stage(w.c.io, w.c.known) == 0 && w.c.known.sketchInfo == cfg.unset
  }

  /** The call of an ow_read that nobody delayed, before its address has arrived. */
  lemma EarlyCall(cfg: Config, p: nat) returns (w: World)
    requires ValidConfig(cfg) && p < |cfg.ops| && cfg.ops[p] == OwRead(false) && WayIsFree(cfg, p, true)
    ensures AtElement(cfg, w, OwRead(false), 0) && Untold(cfg, w) && w.c.ops == cfg.ops[p..]
    ensures w.s.pc == CopyClass(0) && w.s.sent.cls
  {
    hide Reachable, WayIsFree, MayCall;
    w := ReachCall(cfg, p, true);
    assert MayCall(w.c.known, OwRead(false)) by { NeedsNothing(w.c.known); }
    w := CallOwRead(cfg, w, OwRead(false));
  }

  lemma NeedsNothing(known: Known)
    ensures MayCall(known, OwRead(false))
  {
  }

  /** What the main thread has posted: one read of element i at this address and key. */
  ghost predicate PostedElement(cfg: Config, w: World, op: Op, i: nat, addr: U64, rkey: U32) {
    && Reachable(cfg, w) && op.OwRead? && w.c.pc == Count(op, i)
    && w.c.io.qp.sq == [Read(ElementAddress(addr, i), rkey, [Sge(SketchBuf, 4 * i, 4)])]
  }

  /** Address and key read before anything is stored. */
  lemma PostUnset(cfg: Config, w0: World, op: Op, i: nat) returns (w: World)
    requires ValidConfig(cfg) && AtElement(cfg, w0, op, i) && i < cfg.n && Untold(cfg, w0)
    ensures PostedElement(cfg, w, op, i, cfg.unset.addr, cfg.unset.rkey) && w.c.ops == w0.c.ops
  {
    hide Reachable, ElementAddress;
    w := FillElement(cfg, w0, op, i);
    w := PostRead(cfg, w, op, i);
  }

  /** The last two steps of a turn that has read its address. */
  lemma ReadKeyAndPost(cfg: Config, w0: World, op: Op, i: nat) returns (w: World)
    requires ValidConfig(cfg) && Reachable(cfg, w0) && op.OwRead? && w0.c.pc == Key(op, i) && w0.c.io.qp.sq == []
    ensures Reachable(cfg, w) && w.c.pc == Count(op, i)
    ensures w.c.io.qp.sq == [Read(w0.c.wr.addr, w0.c.known.sketchInfo.rkey, [Sge(SketchBuf, 4 * i, 4)])]
    ensures w.c.ops == w0.c.ops && w.c.local == w0.c.local && w.c.known == w0.c.known && w.s == w0.s
    ensures w.c.io.thread == w0.c.io.thread
  {
    hide Reachable, ElementAddress;
    w := Extend(cfg, w0, ClientMain);
    NoErrors(cfg, w);
    w := PostRead(cfg, w, op, i);
  }

  /** The address read just after it is stored, the key just before. */
  lemma PostNewAddress(cfg: Config, w0: World, op: Op, i: nat) returns (w: World)
    requires ValidConfig(cfg) && AtElement(cfg, w0, op, i) && i < cfg.n && Untold(cfg, w0)
    ensures PostedElement(cfg, w, op, i, cfg.mem.sketch.base, cfg.unset.rkey) && w.c.ops == w0.c.ops
    ensures w.c.local == w0.c.local && AdvertsPosted(w.s.pc) == 3
  {
    hide Reachable, ElementAddress, Inv, Stage;
    w := Extend(cfg, w0, ClientMain);
    w := RevealTo(cfg, w, 1);
    ReachableInv(cfg, w);
    ToldIsStaged(cfg, w);
    w := Extend(cfg, w, ClientMain);
    w := ReadKeyAndPost(cfg, w, op, i);
  }

  /** The address read just before the triple is stored, the key just after. */
  lemma PostNewKey(cfg: Config, w0: World, op: Op, i: nat) returns (w: World)
    requires ValidConfig(cfg) && AtElement(cfg, w0, op, i) && i < cfg.n && Untold(cfg, w0)
    ensures PostedElement(cfg, w, op, i, cfg.unset.addr, cfg.mem.sketch.rkey) && w.c.ops == w0.c.ops
    ensures w.c.local == w0.c.local && AdvertsPosted(w.s.pc) == 3
  {
    hide Reachable, ElementAddress, Inv, Stage;
    w := Extend(cfg, w0, ClientMain);
    w := Extend(cfg, w, ClientMain);
    w := RevealTo(cfg, w, 2);
    ReachableInv(cfg, w);
    ToldIsStaged(cfg, w);
    w := ReadKeyAndPost(cfg, w, op, i);
  }

  // ----------------------------------------------------------------- when every run finishes

  /** Up to element i, what lies at the unset address and key is registered. */
  ghost predicate EarlyReach(cfg: Config, i: nat) {
    forall j :: 0 <= j < i ==> Registered(cfg, cfg.unset.addr, cfg.unset.rkey, j)
  }

  /** ow_read gets to element i with nothing of the triple stored. */
  lemma ReachElement(cfg: Config, w0: World, op: Op, i: nat) returns (w: World)
    requires ValidConfig(cfg) && AtElement(cfg, w0, op, 0) && Untold(cfg, w0) && i <= cfg.n && EarlyReach(cfg, i)
    ensures AtElement(cfg, w, op, i) && Untold(cfg, w) && w.c.ops == w0.c.ops && w.s == w0.s
    ensures |w.c.local.sketch| == |w0.c.local.sketch|
  {
    hide Reachable, Registered;
    w := TakeElements(cfg, w0, op, 0, i);
  }

  lemma {:induction false} FindUnregistered(cfg: Config, i: nat) returns (k: nat)
    requires i < cfg.n && !MixturesRegistered(cfg, i)
    ensures k < cfg.n && !MixturesRegistered(cfg, k) && EarlyReach(cfg, k)
  {
    hide Registered;
    if j: nat :| j < i && !MixturesRegistered(cfg, j) {
      k := FindUnregistered(cfg, j);
    } else {
      forall j | 0 <= j < i ensures Registered(cfg, cfg.unset.addr, cfg.unset.rkey, j) {
        assert MixturesRegistered(cfg, j);
      }
      k := i;
    }
  }

  lemma {:induction false} FindBlocked(cfg: Config, i: nat) returns (p: nat)
    requires i < |cfg.ops| && !Executable(cfg, i)
    ensures p < |cfg.ops| && !Executable(cfg, p) && WayIsFree(cfg, p, false)
  {
    hide Executable;
    if j: nat :| j < i && !Executable(cfg, j) {
      p := FindBlocked(cfg, j);
    } else {
      p := i;
    }
  }

  /** rdma_read and rdma_write post a local range as long as the server's start buffer. */
  lemma StartBlocks(cfg: Config, p: nat) returns (w: World)
    requires ValidConfig(cfg) && p < |cfg.ops| && (cfg.ops[p].RdmaRead? || cfg.ops[p].RdmaWrite?)
    requires !StartFits(cfg) && WayIsFree(cfg, p, false)
    ensures Reachable(cfg, w) && Blocked(cfg, w)
  {
    hide Reachable, WayIsFree, Inv, SameServerRegions;
    w := ReachCall(cfg, p, false);
    ReachableInv(cfg, w);
    TriplesAreExact(cfg, w);
    MessageFits(cfg, w);
    w := Extend(cfg, w, ClientMain);
    w := Extend(cfg, w, ClientMain);
  }

  /** An ow_read that nobody delayed stops at the first element with a mixture that is not
      registered: the scheduler can make it post that mixture. */
  lemma StrayBlocks(cfg: Config, p: nat) returns (w: World)
    requires ValidConfig(cfg) && p < |cfg.ops| && cfg.ops[p] == OwRead(false)
    requires !UnsetRegistered(cfg) && WayIsFree(cfg, p, true)
    ensures Reachable(cfg, w) && Blocked(cfg, w)
  {
    hide Reachable, WayIsFree, Fetch, ElementAddress, Untold;
    var op := OwRead(false);
    var i: nat :| i < cfg.n && !MixturesRegistered(cfg, i);
    var k := FindUnregistered(cfg, i);
    w := EarlyCall(cfg, p);
    w := ReachElement(cfg, w, op, k);
    if !Registered(cfg, cfg.unset.addr, cfg.unset.rkey, k) {
      w := PostUnset(cfg, w, op, k);
    } else if !Registered(cfg, cfg.unset.addr, cfg.mem.sketch.rkey, k) {
      w := PostNewKey(cfg, w, op, k);
    } else {
      w := PostNewAddress(cfg, w, op, k);
    }
  }

  lemma ReachBlocked(cfg: Config, p: nat) returns (w: World)
    requires ValidConfig(cfg) && p < |cfg.ops| && !Executable(cfg, p) && WayIsFree(cfg, p, false)
    ensures Reachable(cfg, w) && Blocked(cfg, w)
  {
    hide Reachable, Blocked, UnsetRegistered;
    if cfg.ops[p].OwRead? { w := StrayBlocks(cfg, p); } else { w := StartBlocks(cfg, p); }
  }

  /** The system always comes to rest with everything done if and only if every operation of the
      program can be executed: no rdma_read or rdma_write with a start buffer longer than the
      client's rdma buffer, and no ow_read that posts, before or while its triple is stored,
      requests for memory that is not registered. */
  lemma FinishesIff(cfg: Config)
    requires ValidConfig(cfg)
    ensures (forall w :: Reachable(cfg, w) && Stuck(cfg, w) ==> Final(w)) <==> Completable(cfg)
  {
    hide Reachable, Stuck, Final, Executable, UnsetRegistered;
    if Completable(cfg) {
      forall w | Reachable(cfg, w) && Stuck(cfg, w) ensures Final(w) { DeadlockFree(cfg, w); }
    } else {
      var i: nat :| i < |cfg.ops| && !Executable(cfg, i);
      var p := FindBlocked(cfg, i);
      var w := ReachBlocked(cfg, p);
      var v := BlockedGetsStuck(cfg, w);
    }
  }

  // ------------------------------------------------------------------ what early calls read

  /** `r` reads element i of the server's sketch into element i of the client's. */
  predicate NamesElement(cfg: Config, r: WorkRequest, i: nat) {
    r == Read(cfg.mem.sketch.base + 4 * i, cfg.mem.sketch.rkey, [Sge(SketchBuf, 4 * i, 4)])
  }

  /** sketch_info happened to hold the sketch's address and key before they arrived. */
  predicate UnsetIsRight(cfg: Config) {
    cfg.unset.addr == cfg.mem.sketch.base && cfg.unset.rkey == cfg.mem.sketch.rkey
  }

  /** A read in the send queue of an ow_read names its element if the ow_read was informed, or
      its fields were right all along. */
  lemma RequestsAreRight(cfg: Config, w: World, r: WorkRequest)
    requires ValidConfig(cfg) && Reachable(cfg, w) && Current(w.c.pc).Some? && Current(w.c.pc).value.0.OwRead?
    requires r in w.c.io.qp.sq && !r.Send?
    requires Informed(cfg, w.c.pc, w.c.ops) || UnsetIsRight(cfg)
    ensures NamesElement(cfg, r, Current(w.c.pc).value.1)
  {
    hide Reachable, Inv, Informed;
    ReachableInv(cfg, w);
    InvRequests(cfg, w, r);
  }

  lemma InvRequests(cfg: Config, w: World, r: WorkRequest)
    requires ValidConfig(cfg) && Reachable(cfg, w) && r in w.c.io.qp.sq && !r.Send? && Current(w.c.pc).Some?
    ensures var (op, i) := Current(w.c.pc).value;
            && MayPost(cfg, Informed(cfg, w.c.pc, w.c.ops), op, i, r)
            && (op.OwRead? ==> i < cfg.n)
  {
    hide ConnInv, HostQueues, FirstMessage, SendCounts, OnlyAdvert, AdvertCounts, AdvertContents, MemInv, Encode;
    hide Informed, DataInv, Schedule, SameSizes, MayPost, Addressed;
    hide Reachable;
    ReachableInv(cfg, w);
    PositiveChain(w.c.io, r);
  }

  lemma PositiveChain(io: Io, r: WorkRequest)
    requires r in io.qp.sq && !r.Send?
    ensures Chain(io.qp, io.cq, io.thread, KRead) + Chain(io.qp, io.cq, io.thread, KWrite) > 0
  {
    if CountRequests(io.qp.sq, KRead) + CountRequests(io.qp.sq, KWrite) == 0 { NoRequest(io.qp.sq); }
  }

  /** In this state, what operation `p` has posted names its element. */
  ghost predicate PostsRight(cfg: Config, w: World, p: nat)
    requires p <= |cfg.ops|
  {
    w.c.ops == cfg.ops[p..] && Current(w.c.pc).Some? ==>
      forall r :: r in w.c.io.qp.sq && !r.Send? ==> NamesElement(cfg, r, Current(w.c.pc).value.1)
  }

  /** Every request that an ow_read called without waiting posts names its element of the
      server's sketch, in every run, if and only if an earlier operation had to wait for the
      address or the client's fields happened to hold it. */
  lemma EarlyRequestsIff(cfg: Config, p: nat)
    requires ValidConfig(cfg) && p < |cfg.ops| && cfg.ops[p] == OwRead(false) && cfg.n > 0 && WayIsFree(cfg, p, false)
    ensures (forall w :: Reachable(cfg, w) ==> PostsRight(cfg, w, p)) <==> Delayed(cfg.ops, p) || UnsetIsRight(cfg)
  {
    hide Reachable, Delayed, WayIsFree;
    if Delayed(cfg.ops, p) || UnsetIsRight(cfg) {
      forall w | Reachable(cfg, w) ensures PostsRight(cfg, w, p) {
        if w.c.ops == cfg.ops[p..] && Current(w.c.pc).Some? {
          CurrentIsHead(cfg, w);
          forall r | r in w.c.io.qp.sq && !r.Send? ensures NamesElement(cfg, r, Current(w.c.pc).value.1) {
            RequestsAreRight(cfg, w, r);
          }
        }
      }
    } else {
      FreeAndFrozen(cfg, p);
      var w := EarlyCall(cfg, p);
      w := PostUnset(cfg, w, OwRead(false), 0);
      assert w.c.io.qp.sq[0] in w.c.io.qp.sq;
      assert !NamesElement(cfg, w.c.io.qp.sq[0], 0);
    }
  }

  lemma FreeAndFrozen(cfg: Config, p: nat)
    requires WayIsFree(cfg, p, false) && !Delayed(cfg.ops, p)
    ensures WayIsFree(cfg, p, true)
  {
  }
}
