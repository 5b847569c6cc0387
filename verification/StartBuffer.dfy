/** What the client's rdma buffer and the server's start buffer hold before each operation: the
    program alone decides, whatever the schedule. */
module StartBuffer {
  import opened Bytes
  import opened Verbs
  import opened Rendezvous
  import opened Invariants
  import opened Preservation
  import opened Guarantees
  import opened Frames

  datatype Buffers = Buffers(rdma: seq<Byte>, start: seq<Byte>)

  /** What rdma_read and rdma_write do to them; an operation that does not fit never returns. */
  function After(b: Buffers, op: Op, message: seq<Byte>): Buffers {
    if op.RdmaRead? && |b.start| <= |b.rdma| then b.(rdma := Put(b.rdma, 0, b.start))
    else if op.RdmaWrite? && |message| <= |b.rdma| then
      var rdma := Put(b.rdma, 0, message);
      Buffers(rdma, if |b.start| <= |rdma| then rdma[..|b.start|] else b.start)
    else b
  }

  /** Before operation `p`. */
  function BuffersAt(cfg: Config, p: nat): (b: Buffers)
    requires p <= |cfg.ops|
    ensures |b.rdma| == |cfg.local.rdma| && |b.start| == |cfg.mem.start.bytes|
  {
    if p == 0 then Buffers(cfg.local.rdma, cfg.mem.start.bytes)
    else After(BuffersAt(cfg, p - 1), cfg.ops[p - 1], cfg.message)
  }

  /** The current operation's request has been posted and executed. */
  predicate Done(c: Client) {
    && (c.pc.Count? || c.pc.Spin? || c.pc.Wait? || c.pc.Return?)
    && CountRequests(c.io.qp.sq, KRead) == 0 && CountRequests(c.io.qp.sq, KWrite) == 0
  }

  lemma OneMore(cfg: Config, p: nat)
    requires p < |cfg.ops|
    ensures BuffersAt(cfg, p + 1) == After(BuffersAt(cfg, p), cfg.ops[p], cfg.message)
  {
  }

  /** What one more operation does, case by case. */
  lemma AfterOne(cfg: Config, p: nat)
    requires p < |cfg.ops|
    ensures var b, c, op := BuffersAt(cfg, p), BuffersAt(cfg, p + 1), cfg.ops[p];
            && (!op.RdmaRead? && !op.RdmaWrite? ==> c == b)
            && (op.RdmaRead? && |b.start| <= |b.rdma| ==> c.start == b.start && c.rdma == Put(b.rdma, 0, b.start))
            && (op.RdmaWrite? && |cfg.message| <= |b.rdma| ==>
                  && c.rdma == Put(b.rdma, 0, cfg.message)
                  && (|b.start| <= |b.rdma| ==> c.start == c.rdma[..|b.start|]))
  {
    hide BuffersAt, Put;
    OneMore(cfg, p);
  }

  /** How far the current operation is with the two buffers: rdma_write fills the client's before
      it posts, and either request changes one of them when it is executed. */
  datatype Phase = NotYet | Filled | Executed

  function PhaseOf(c: Client): Phase {
    if Current(c.pc).None? then NotYet
    else
      var op := Current(c.pc).value.0;
      if !op.RdmaRead? && !op.RdmaWrite? then NotYet
      else if Done(c) then Phase.Executed
      else if op.RdmaWrite? then Filled
      else NotYet
  }

  function Expected(cfg: Config, p: nat, phase: Phase): Buffers
    requires p <= |cfg.ops| && (phase != NotYet ==> p < |cfg.ops|)
  {
    match phase
    case NotYet => BuffersAt(cfg, p)
    case Filled => BuffersAt(cfg, p).(rdma := BuffersAt(cfg, p + 1).rdma)
    case Executed => BuffersAt(cfg, p + 1)
  }

  ghost predicate AsExpected(cfg: Config, w: World) {
    var p, phase := Returned(cfg.ops, w.c.ops), PhaseOf(w.c);
    && |w.c.ops| <= |cfg.ops| && (phase != NotYet ==> p < |cfg.ops|)
    && Buffers(w.c.local.rdma, w.s.mem.start.bytes) == Expected(cfg, p, phase)
  }

  lemma OthersKeepStart(cfg: Config, w: World, a: Agent)
    requires a != ClientMain && a != ClientSend && Next(cfg, w, a).Some?
    ensures var v := Next(cfg, w, a).value;
            v.c.local == w.c.local && v.c.io.qp.sq == w.c.io.qp.sq && v.s.mem.start == w.s.mem.start
  {
    hide MarkSent, Decode, FromBe, Encode, StoreAddress, StoreRest, SetFlag, CqLoop, AdvertOf, Le, Be;
  }

  /** The operation the client is in is the program's. */
  lemma CurrentIs(cfg: Config, w: World)
    requires ValidConfig(cfg) && Reachable(cfg, w) && Current(w.c.pc).Some?
    ensures var p := Returned(cfg.ops, w.c.ops); p < |cfg.ops| && cfg.ops[p] == Current(w.c.pc).value.0
    ensures |w.c.ops| <= |cfg.ops| && w.c.ops != [] && Returned(cfg.ops, w.c.ops[1..]) == Returned(cfg.ops, w.c.ops) + 1
    ensures |cfg.message| <= |w.c.local.rdma|
  {
    hide Inv, MemInv, DataInv, HostQueues, Reads;
    hide Reachable;
    ReachableInv(cfg, w);
    InvQueues(cfg, w);
    InvData(cfg, w);
    assert w.c.ops[0] == cfg.ops[Returned(cfg.ops, w.c.ops)];
  }

  /** What the request at the head does to the two buffers. */
  lemma ExecutedStart(cfg: Config, w: World)
    requires ValidConfig(cfg) && Reachable(cfg, w) && w.c.io.qp.sq != [] && !w.c.io.qp.sq[0].Send?
    requires Next(cfg, w, ClientSend).Some? && Current(w.c.pc).Some?
    ensures var v := Next(cfg, w, ClientSend).value; var op := Current(w.c.pc).value.0;
            var l, m := w.c.local.rdma, w.s.mem.start.bytes;
            && (op.RdmaRead? ==> |m| <= |l| && v.c.local.rdma == Put(l, 0, m) && v.s.mem.start.bytes == m)
            && (op.RdmaWrite? ==> |m| <= |l| && v.c.local.rdma == l && v.s.mem.start.bytes == l[..|m|])
            && (!op.RdmaRead? && !op.RdmaWrite? ==> v.c.local.rdma == l && v.s.mem.start.bytes == m)
  {
    hide Inv, ReadInto, WriteFrom, Informed, MemInv, SameSizes, SameServerRegions, Before, Fetch;
    hide Reachable;
    ReachableInv(cfg, w);
    HeadIsCurrent(cfg, w);
    InvMemories(cfg, w);
    Sizes(cfg, w);
    var (op, i) := Current(w.c.pc).value;
    var r := w.c.io.qp.sq[0];
    match op
    case RdmaRead => StartReadLands(cfg, w.c.local, w.s.mem);
    case RdmaWrite => WriteLands(cfg, w.c.local, w.s.mem);
    case ReadClass(_) => ClassReadLands(cfg, op, w.c.local, w.s.mem);
    case OwRead(_) => StrayRead(cfg, r.raddr, r.rkey, i, w.c.local, w.s.mem);
  }

  lemma Sizes(cfg: Config, w: World)
    requires SameSizes(w.c.local, cfg.local) && SameServerRegions(w.s.mem, cfg.mem)
    ensures |w.c.local.rdma| == |cfg.local.rdma| && |w.s.mem.start.bytes| == |cfg.mem.start.bytes|
  {
  }

  /** A message of the client's own changes nothing of this. */
  lemma MessageKeepsPhase(cfg: Config, w: World)
    requires w.c.io.qp.sq != [] && w.c.io.qp.sq[0].Send? && Next(cfg, w, ClientSend).Some?
    ensures var v := Next(cfg, w, ClientSend).value;
            && PhaseOf(v.c) == PhaseOf(w.c) && v.c.ops == w.c.ops
            && v.c.local == w.c.local && v.s.mem == w.s.mem
  {
    hide Deliver;
  }

  lemma RequestMovesPhase(cfg: Config, w: World)
    requires ValidConfig(cfg) && Reachable(cfg, w) && w.c.io.qp.sq != [] && !w.c.io.qp.sq[0].Send?
    requires Next(cfg, w, ClientSend).Some? && Current(w.c.pc).Some?
    ensures var v := Next(cfg, w, ClientSend).value; var op := Current(w.c.pc).value.0;
            && PhaseOf(w.c) == (if op.RdmaWrite? then Filled else NotYet)
            && PhaseOf(v.c) == (if op.RdmaRead? || op.RdmaWrite? then Phase.Executed else NotYet)
            && v.c.ops == w.c.ops
  {
    hide Inv, ReadInto, WriteFrom, MayPost, Informed, Before;
    hide Reachable;
    ReachableInv(cfg, w);
    HeadIsCurrent(cfg, w);
    var sq := w.c.io.qp.sq;
    assert CountRequests(sq, RequestKind(sq[0])) == 1 + CountRequests(sq[1..], RequestKind(sq[0]));
  }

  lemma SendKeepsStart(cfg: Config, w: World)
    requires ValidConfig(cfg) && Reachable(cfg, w) && AsExpected(cfg, w) && Next(cfg, w, ClientSend).Some?
    ensures AsExpected(cfg, Next(cfg, w, ClientSend).value)
  {
    hide Inv, Next, BuffersAt, PhaseOf, MayPost, Informed, Before, Put, After;
    hide Reachable;
    ReachableInv(cfg, w);
    EmptyQueue(cfg, w);
    if w.c.io.qp.sq[0].Send? {
      MessageKeepsPhase(cfg, w);
    } else {
      HeadIsCurrent(cfg, w);
      CurrentIs(cfg, w);
      ExecutedStart(cfg, w);
      RequestMovesPhase(cfg, w);
      AfterOne(cfg, Returned(cfg.ops, w.c.ops));
    }
  }

  lemma EmptyQueue(cfg: Config, w: World)
    requires Next(cfg, w, ClientSend).Some?
    ensures w.c.io.qp.sq != []
  {
  }

  lemma CallKeepsStart(cfg: Config, w: World)
    requires ValidConfig(cfg) && Reachable(cfg, w) && AsExpected(cfg, w) && w.c.pc == Idle
    requires Next(cfg, w, ClientMain).Some?
    ensures AsExpected(cfg, Next(cfg, w, ClientMain).value)
  {
    hide Inv, BuffersAt, MemInv, Next, Put, After, PhaseOf;
    hide Reachable;
    ReachableInv(cfg, w);
    CallPhase(cfg, w);
    Position(cfg, w);
    AfterOne(cfg, Returned(cfg.ops, w.c.ops));
  }

  lemma CallPhase(cfg: Config, w: World)
    requires ValidConfig(cfg) && Reachable(cfg, w) && w.c.pc == Idle && Next(cfg, w, ClientMain).Some?
    ensures var v := Next(cfg, w, ClientMain).value;
            && w.c.ops != [] && v.c.ops == w.c.ops && v.s == w.s && PhaseOf(w.c) == NotYet
            && (if w.c.ops[0].RdmaWrite? then
                  && PhaseOf(v.c) == Filled && |cfg.message| <= |w.c.local.rdma|
                  && v.c.local.rdma == Put(w.c.local.rdma, 0, cfg.message)
                else PhaseOf(v.c) == NotYet && v.c.local == w.c.local)
  {
    hide Inv, HostQueues, Encode, MemInv, DataInv, Reads, SameServerRegions;
    hide Reachable;
    ReachableInv(cfg, w);
    InvQueues(cfg, w);
    InvMemories(cfg, w);
  }

  lemma PostKeepsStart(cfg: Config, w: World)
    requires ValidConfig(cfg) && Reachable(cfg, w) && AsExpected(cfg, w) && w.c.pc.Post?
    ensures Next(cfg, w, ClientMain).Some? ==> AsExpected(cfg, Next(cfg, w, ClientMain).value)
  {
    hide Inv, BuffersAt, HostQueues, Encode, Request, PcInv, Reads, OpStep;
    hide Reachable;
    ReachableInv(cfg, w);
    InvQueues(cfg, w);
    CurrentIs(cfg, w);
    PostedIs(cfg, w);
    var r := Request(w.c.known, w.c.wr, w.c.pc.op, w.c.pc.i);
    RequestKinds(w.c.known, w.c.wr, w.c.pc.op, w.c.pc.i);
    CountRequestsPush(w.c.io.qp.sq, r, RequestKind(r));
  }

  lemma PostedIs(cfg: Config, w: World)
    requires ValidConfig(cfg) && Reachable(cfg, w) && w.c.pc.Post?
    ensures Next(cfg, w, ClientMain) == Some(w.(c := Posted(w.c)))
  {
    hide Inv, HostQueues, Reads, PcInv, OpStep, Posted, Request;
    hide Reachable;
    ReachableInv(cfg, w);
    InvQueues(cfg, w);
    StartedInOp(w.c.pc);
    PostSucceeds(cfg, w.c);
  }

  lemma StartedInOp(pc: ClientPc)
    ensures pc.Post? ==> ClientStarted(pc)
  {
  }

  /** Nothing is outstanding once an operation returns. */
  lemma ReturnKeepsStart(cfg: Config, w: World)
    requires ValidConfig(cfg) && Reachable(cfg, w) && AsExpected(cfg, w) && w.c.pc.Return?
    ensures Next(cfg, w, ClientMain).Some? ==> AsExpected(cfg, Next(cfg, w, ClientMain).value)
  {
    hide Inv, BuffersAt, HostQueues, Encode, PcInv;
    hide Reachable;
    ReachableInv(cfg, w);
    InvQueues(cfg, w);
    CurrentIs(cfg, w);
    AfterOne(cfg, Returned(cfg.ops, w.c.ops));
  }

  lemma TurnKeepsPhase(cfg: Config, w: World)
    requires ValidConfig(cfg) && Reachable(cfg, w) && Next(cfg, w, ClientMain).Some?
    requires w.c.pc.Loop? || w.c.pc.Address? || w.c.pc.Key?
    ensures var v := Next(cfg, w, ClientMain).value;
            PhaseOf(v.c) == PhaseOf(w.c) && v.c.ops == w.c.ops && v.c.local == w.c.local && v.s == w.s
  {
    hide Inv, HostQueues, Reads, ElementAddress;
    hide Reachable;
    ReachableInv(cfg, w);
    InvQueues(cfg, w);
  }

  /** From the count to the return the phase stays: nothing is outstanding when a wait ends. */
  lemma WaitKeepsPhase(cfg: Config, w: World)
    requires ValidConfig(cfg) && Reachable(cfg, w) && Next(cfg, w, ClientMain).Some?
    requires w.c.pc.Count? || w.c.pc.Spin? || w.c.pc.Wait?
    ensures var v := Next(cfg, w, ClientMain).value;
            PhaseOf(v.c) == PhaseOf(w.c) && v.c.ops == w.c.ops && v.c.local == w.c.local && v.s == w.s
  {
    hide Inv, HostQueues;
    hide Reachable;
    ReachableInv(cfg, w);
    InvQueues(cfg, w);
  }

  lemma TurnKeepsStart(cfg: Config, w: World)
    requires ValidConfig(cfg) && Reachable(cfg, w) && AsExpected(cfg, w)
    requires w.c.pc.Loop? || w.c.pc.Address? || w.c.pc.Key? || w.c.pc.Count? || w.c.pc.Spin? || w.c.pc.Wait?
    ensures Next(cfg, w, ClientMain).Some? ==> AsExpected(cfg, Next(cfg, w, ClientMain).value)
  {
    hide Inv, BuffersAt, Next, PhaseOf;
    hide Reachable;
    ReachableInv(cfg, w);
    if Next(cfg, w, ClientMain).Some? {
      if w.c.pc.Loop? || w.c.pc.Address? || w.c.pc.Key? { TurnKeepsPhase(cfg, w); } else { WaitKeepsPhase(cfg, w); }
    }
  }

  lemma BeforeOpKeepsStart(cfg: Config, w: World)
    requires AsExpected(cfg, w) && !InOperation(w.c.pc) && Next(cfg, w, ClientMain).Some?
    ensures AsExpected(cfg, Next(cfg, w, ClientMain).value)
  {
    hide BuffersAt, Encode;
  }

  lemma MainKeepsStart(cfg: Config, w: World)
    requires ValidConfig(cfg) && Reachable(cfg, w) && AsExpected(cfg, w) && Next(cfg, w, ClientMain).Some?
    ensures AsExpected(cfg, Next(cfg, w, ClientMain).value)
  {
    hide Inv, AsExpected, Next;
    hide Reachable;
    ReachableInv(cfg, w);
    match w.c.pc
    case Idle => CallKeepsStart(cfg, w);
    case Post(_, _) => PostKeepsStart(cfg, w);
    case Return(_) => ReturnKeepsStart(cfg, w);
    case Loop(_, _) => TurnKeepsStart(cfg, w);
    case Address(_, _) => TurnKeepsStart(cfg, w);
    case Key(_, _) => TurnKeepsStart(cfg, w);
    case Count(_, _) => TurnKeepsStart(cfg, w);
    case Spin(_, _) => TurnKeepsStart(cfg, w);
    case Wait(_) => TurnKeepsStart(cfg, w);
    case _ => BeforeOpKeepsStart(cfg, w);
  }

  lemma StartKept(cfg: Config, w: World, a: Agent)
    requires ValidConfig(cfg) && Reachable(cfg, w) && AsExpected(cfg, w) && Next(cfg, w, a).Some?
    ensures AsExpected(cfg, Next(cfg, w, a).value)
  {
    hide Inv, Next, BuffersAt;
    hide Reachable;
    ReachableInv(cfg, w);
    if a == ClientMain {
      MainKeepsStart(cfg, w);
    } else if a == ClientSend {
      SendKeepsStart(cfg, w);
    } else {
      OthersKeepPc(cfg, w, a);
      OthersKeepStart(cfg, w, a);
    }
  }

  lemma {:induction false} RunsAsExpected(cfg: Config, agents: seq<Agent>)
    requires ValidConfig(cfg) && Run(cfg, agents).Some?
    ensures AsExpected(cfg, Run(cfg, agents).value)
  {
    hide Next, AsExpected, Init, Inv;
    if agents == [] {
      InitAsExpected(cfg);
    } else {
      var front := agents[..|agents| - 1];
      RunsAsExpected(cfg, front);
      assert Reachable(cfg, Run(cfg, front).value);
      StartKept(cfg, Run(cfg, front).value, agents[|agents| - 1]);
    }
  }

  lemma InitAsExpected(cfg: Config)
    ensures AsExpected(cfg, Init(cfg))
  {
    hide Be;
  }

  /** In every reachable state both buffers hold what the operations so far have put there. */
  lemma BuffersAreAsExpected(cfg: Config, w: World)
    requires ValidConfig(cfg) && Reachable(cfg, w)
    ensures AsExpected(cfg, w)
  {
    hide Run, AsExpected;
    var agents :| Run(cfg, agents) == Some(w);
    RunsAsExpected(cfg, agents);
  }

  lemma {:induction false} OnlyReads(cfg: Config, p: nat)
    requires p <= |cfg.ops| && |cfg.mem.start.bytes| <= |cfg.local.rdma|
    requires forall j :: 0 <= j < p ==> !cfg.ops[j].RdmaWrite?
    ensures BuffersAt(cfg, p).start == cfg.mem.start.bytes
    ensures if exists j :: 0 <= j < p && cfg.ops[j].RdmaRead? then
              BuffersAt(cfg, p).rdma == Put(cfg.local.rdma, 0, cfg.mem.start.bytes)
            else BuffersAt(cfg, p).rdma == cfg.local.rdma
  {
    if p > 0 {
      hide BuffersAt, Put;
      OnlyReads(cfg, p - 1);
      AfterOne(cfg, p - 1);
      PutAgain(cfg.local.rdma, cfg.mem.start.bytes);
      assert cfg.ops[p - 1].RdmaRead? ==> exists j :: 0 <= j < p && cfg.ops[j].RdmaRead?;
    }
  }

  lemma PutAgain(b: seq<Byte>, d: seq<Byte>)
    requires |d| <= |b|
    ensures Put(Put(b, 0, d), 0, d) == Put(b, 0, d)
  {
  }

  /** A program without rdma_write leaves the server's start buffer alone, and once one of its
      rdma_reads has returned the client's buffer holds it, with the rest as it was. */
  lemma WithoutWrites(cfg: Config, w: World, j: nat)
    requires ValidConfig(cfg) && Reachable(cfg, w) && |cfg.mem.start.bytes| <= |cfg.local.rdma|
    requires forall i :: 0 <= i < |cfg.ops| ==> !cfg.ops[i].RdmaWrite?
    ensures w.s.mem.start == cfg.mem.start
    ensures j < |cfg.ops| && cfg.ops[j].RdmaRead? && |w.c.ops| + j < |cfg.ops| ==>
              w.c.local.rdma == Put(cfg.local.rdma, 0, cfg.mem.start.bytes)
  {
    hide Reachable, BuffersAt, Put, Inv, MemInv, PhaseOf;
    BuffersAreAsExpected(cfg, w);
    ReachableInv(cfg, w);
    InvMemories(cfg, w);
    var p := Returned(cfg.ops, w.c.ops);
    OnlyReads(cfg, p);
    if p < |cfg.ops| { OnlyReads(cfg, p + 1); }
  }
}
