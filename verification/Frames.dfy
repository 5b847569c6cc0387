/** What stays as it is: which bytes of either host's memory a step can change, and how long what
    an operation has read stays in its buffers. */
module Frames {
  import opened Bytes
  import opened Verbs
  import opened ClassTransfer
  import opened Rendezvous
  import opened Invariants
  import opened Preservation
  import opened Guarantees

  // ---------------------------------------------------------------------------- one step

  /** Some entry of the scatter list covers byte `x` of buffer `b`. */
  ghost predicate Names(gs: seq<Sge>, b: Buffer, x: nat) {
    exists k :: 0 <= k < |gs| && gs[k].buf == b && gs[k].off <= x < gs[k].off + gs[k].len
  }

  /** Byte `x` of buffer `b`, and the buffer's length, are the same in both memories. */
  predicate SameByte(l: LocalMemory, l': LocalMemory, b: Buffer, x: nat) {
    |l'.Get(b)| == |l.Get(b)| && (x < |l.Get(b)| ==> l'.Get(b)[x] == l.Get(b)[x])
  }

  /** A remote read writes what its scatter list names and nothing else. */
  lemma {:induction false} ScatterFrame(l: LocalMemory, gs: seq<Sge>, d: seq<Byte>, b: Buffer, x: nat)
    requires |d| == TotalLength(gs) && Scatter(l, gs, d).Some?
    ensures !Names(gs, b, x) ==> SameByte(l, Scatter(l, gs, d).value, b, x)
    ensures |Scatter(l, gs, d).value.Get(b)| == |l.Get(b)|
    decreases |gs|
  {
    if gs != [] {
      var g := gs[0];
      var l1 := l.Set(g.buf, Put(l.Get(g.buf), g.off, d[..g.len]));
      ScatterFrame(l1, gs[1..], d[g.len..], b, x);
      SetFrame(l, g, d[..g.len], b, x);
      if !Names(gs, b, x) {
        assert gs[0].buf == b ==> !(gs[0].off <= x < gs[0].off + gs[0].len);
        forall k | 0 <= k < |gs[1..]|
          ensures !(gs[1..][k].buf == b && gs[1..][k].off <= x < gs[1..][k].off + gs[1..][k].len)
        {
          assert gs[1..][k] == gs[k + 1];
        }
      }
    }
  }

  lemma SetFrame(l: LocalMemory, g: Sge, d: seq<Byte>, b: Buffer, x: nat)
    requires SgeFits(l, g) && |d| == g.len
    ensures var l1 := l.Set(g.buf, Put(l.Get(g.buf), g.off, d));
            |l1.Get(b)| == |l.Get(b)| && (g.buf != b || !(g.off <= x < g.off + g.len) ==> SameByte(l, l1, b, x))
  {
  }

  /** The one request, or the one call, that may write byte `x` of the client's buffer `b`. */
  ghost predicate MayWrite(cfg: Config, w: World, a: Agent, b: Buffer, x: nat) {
    || (a == ClientSend && w.c.io.qp.sq != [] && w.c.io.qp.sq[0].Read? && Names(w.c.io.qp.sq[0].scatter, b, x))
    || (a == ClientMain && w.c.pc == Idle && w.c.ops != [] && w.c.ops[0].RdmaWrite?
        && b == RdmaBuf && x < |cfg.message|)
  }

  /** No step changes a byte of a client buffer but the execution of a read that names it, or
      rdma_write's copying of its message. */
  lemma StepFrame(cfg: Config, w: World, a: Agent, b: Buffer, x: nat)
    requires Next(cfg, w, a).Some? && !MayWrite(cfg, w, a, b, x)
    ensures SameByte(w.c.local, Next(cfg, w, a).value.c.local, b, x)
  {
    hide Next;
    match a
    case ClientSend => SendFrame(cfg, w, b, x);
    case ClientMain => MainFrame(cfg, w, b, x);
    case _ => OtherFrame(cfg, w, a);
  }

  lemma SendFrame(cfg: Config, w: World, b: Buffer, x: nat)
    requires Next(cfg, w, ClientSend).Some? && !MayWrite(cfg, w, ClientSend, b, x)
    ensures SameByte(w.c.local, Next(cfg, w, ClientSend).value.c.local, b, x)
  {
    hide Executed, Deliver, WriteFrom, Scatter, Fetch, Names;
    var r := w.c.io.qp.sq[0];
    if r.Read? {
      var d := Fetch(w.s.mem, r.raddr, r.rkey, TotalLength(r.scatter)).value;
      ScatterFrame(w.c.local, r.scatter, d, b, x);
    }
  }

  lemma MainFrame(cfg: Config, w: World, b: Buffer, x: nat)
    requires Next(cfg, w, ClientMain).Some? && !MayWrite(cfg, w, ClientMain, b, x)
    ensures SameByte(w.c.local, Next(cfg, w, ClientMain).value.c.local, b, x)
  {
    hide Request, Encode, ElementAddress;
  }

  lemma OtherFrame(cfg: Config, w: World, a: Agent)
    requires a != ClientMain && a != ClientSend && Next(cfg, w, a).Some?
    ensures Next(cfg, w, a).value.c.local == w.c.local
  {
    hide ServerStep, ServerCqStep, Decode, FromBe, Encode, StoreAddress, StoreRest, SetFlag, CqLoop;
  }

  /** Nor a byte of the server's memory but an rdma_write into the start buffer, the copy of one
      word of the class, or the store of one sketch element. */
  lemma ServerFrame(cfg: Config, w: World, a: Agent, x: nat)
    requires Next(cfg, w, a).Some?
    ensures var m, m' := w.s.mem, Next(cfg, w, a).value.s.mem;
            && SameRegion(m'.start, m.start) && SameRegion(m'.cls, m.cls) && SameRegion(m'.sketch, m.sketch)
            && (x < |m.start.bytes| && m'.start.bytes[x] != m.start.bytes[x] ==>
                  && a == ClientSend && w.c.io.qp.sq[0].Write?
                  && w.c.io.qp.sq[0].raddr <= m.start.base + x < w.c.io.qp.sq[0].raddr + w.c.io.qp.sq[0].source.len)
            && (x < |m.cls.bytes| && m'.cls.bytes[x] != m.cls.bytes[x] ==>
                  a == ServerMain && w.s.pc.CopyClass? && 4 * w.s.pc.j <= x < 4 * w.s.pc.j + 4)
            && (x < |m.sketch.bytes| && m'.sketch.bytes[x] != m.sketch.bytes[x] ==>
                  a == ServerMain && w.s.pc.FillSketch? && 4 * w.s.pc.j <= x < 4 * w.s.pc.j + 4)
  {
    hide Next;
    match a
    case ClientSend => WriteFrame(cfg, w, x);
    case ServerMain => StoreFrame(cfg, w, x);
    case _ => OtherServerFrame(cfg, w, a);
  }

  lemma WriteFrame(cfg: Config, w: World, x: nat)
    requires Next(cfg, w, ClientSend).Some?
    ensures var m, m' := w.s.mem, Next(cfg, w, ClientSend).value.s.mem;
            && m'.cls == m.cls && m'.sketch == m.sketch && SameRegion(m'.start, m.start)
            && (x < |m.start.bytes| && m'.start.bytes[x] != m.start.bytes[x] ==>
                  && w.c.io.qp.sq[0].Write?
                  && w.c.io.qp.sq[0].raddr <= m.start.base + x < w.c.io.qp.sq[0].raddr + w.c.io.qp.sq[0].source.len)
  {
    hide Executed, Deliver, ReadInto;
  }

  lemma StoreFrame(cfg: Config, w: World, x: nat)
    requires Next(cfg, w, ServerMain).Some?
    ensures var m, m' := w.s.mem, Next(cfg, w, ServerMain).value.s.mem;
            && m'.start == m.start && SameRegion(m'.cls, m.cls) && SameRegion(m'.sketch, m.sketch)
            && (x < |m.cls.bytes| && m'.cls.bytes[x] != m.cls.bytes[x] ==>
                  w.s.pc.CopyClass? && 4 * w.s.pc.j <= x < 4 * w.s.pc.j + 4)
            && (x < |m.sketch.bytes| && m'.sketch.bytes[x] != m.sketch.bytes[x] ==>
                  w.s.pc.FillSketch? && 4 * w.s.pc.j <= x < 4 * w.s.pc.j + 4)
  {
    hide Encode, AdvertOf, CopiedWord, Le, Be;
  }

  lemma OtherServerFrame(cfg: Config, w: World, a: Agent)
    requires a != ServerMain && a != ClientSend && Next(cfg, w, a).Some?
    ensures Next(cfg, w, a).value.s.mem == w.s.mem
  {
    hide StartStep, OpStep, ClientCqStep, Decode, FromBe, MarkSent, CqLoop;
  }

  /** The other agents never touch the main thread's position, program or work request. */
  lemma OthersKeepPc(cfg: Config, w: World, a: Agent)
    requires a != ClientMain && Next(cfg, w, a).Some?
    ensures var v := Next(cfg, w, a).value; v.c.pc == w.c.pc && v.c.ops == w.c.ops && v.c.wr == w.c.wr
  {
    hide ServerStep, ServerCqStep, AckStep, ReadInto, WriteFrom, LoopStep, StoreAddress, StoreRest, SetFlag, Decode;
    hide FromBe, PostRecv;
    hide Executed, Deliver, ServerCmEvent;
  }

  // ---------------------------------------------------------------------- the other fields

  /** Who changes the client's fields, and at which statement: its CM thread the state, its
      receive handler the triples and their flags, main the work request, and the two completion
      flags and the counter as each completion and each call requires. */
  ghost predicate ClientChanges(w: World, a: Agent, v: World) {
    var c, d := w.c, v.c;
    && (d.state != c.state ==> a == ClientCm)
    && ((d.pc, d.ops) != (c.pc, c.ops) ==> a == ClientMain)
    && (d.io.thread != c.io.thread ==> a == ClientCq || (a == ClientMain && c.pc == Setup))
    && (d.known != c.known ==>
          && a == ClientCq
          && ((c.io.thread.Handle? && c.io.thread.wc.RecvDone?) || c.io.thread.AddressStored? || c.io.thread.Stored?))
    && (d.wr != c.wr ==> a == ClientMain && (c.pc.Address? || c.pc.Key?))
    && (d.progress.readComplete != c.progress.readComplete ==>
          if d.progress.readComplete then a == ClientCq && c.io.thread == Handle(ReadDone)
          else a == ClientMain && (c.pc.Loop? || (d.pc.Post? && (d.pc.op.RdmaRead? || d.pc.op.ReadClass?))))
    && (d.progress.writeComplete != c.progress.writeComplete ==>
          if d.progress.writeComplete then a == ClientCq && c.io.thread == Handle(WriteDone)
          else a == ClientMain && d.pc.Post? && d.pc.op.RdmaWrite?)
    && (d.progress.pendingReads != c.progress.pendingReads ==>
          || (a == ClientCq && c.io.thread == Decrement && d.progress.pendingReads == c.progress.pendingReads - 1)
          || (a == ClientMain && c.pc.Count? && d.progress.pendingReads == c.progress.pendingReads + 1)
          || (a == ClientMain && c.pc == Idle && d.pc.Loop? && d.progress.pendingReads == 0))
    && (d.sendBuf != c.sendBuf ==> a == ClientMain && c.pc == FillSend)
    && (d.recvBuf != c.recvBuf ==> a == ServerSend && d.recvBuf == w.s.sendBuf)
  }

  /** And the server's. */
  ghost predicate ServerChanges(w: World, a: Agent, v: World) {
    var s, t := w.s, v.s;
    && (t.state != s.state ==> a == ServerCm)
    && (t.pc != s.pc ==> a == ServerMain)
    && (t.io.thread != s.io.thread ==> a == ServerCq || (a == ServerMain && s.pc == ServerSetup))
    && (t.peer != s.peer ==>
          a == ServerCq && ((s.io.thread.Handle? && s.io.thread.wc.RecvDone?) || s.io.thread.Stored?))
    && (t.sent != s.sent ==> a == ServerCq && s.io.thread.Handle? && s.io.thread.wc.SendDone?)
    && (t.sendBuf != s.sendBuf ==> a == ServerMain && s.pc.Fill?)
    && (t.recvBuf != s.recvBuf ==> a == ClientSend && t.recvBuf == w.c.sendBuf)
  }

  lemma MainChanges(cfg: Config, w: World)
    requires Next(cfg, w, ClientMain).Some?
    ensures ClientChanges(w, ClientMain, Next(cfg, w, ClientMain).value)
    ensures Next(cfg, w, ClientMain).value.s == w.s
  {
    hide Request, Encode, ElementAddress, Put;
  }

  lemma CqChanges(cfg: Config, w: World)
    requires Next(cfg, w, ClientCq).Some?
    ensures ClientChanges(w, ClientCq, Next(cfg, w, ClientCq).value)
    ensures Next(cfg, w, ClientCq).value.s == w.s
  {
    hide Decode, FromBe, StoreAddress, StoreRest, SetFlag;
  }

  lemma AdapterChanges(cfg: Config, w: World, a: Agent)
    requires (a == ClientSend || a == ServerSend || a == ClientAck || a == ServerAck) && Next(cfg, w, a).Some?
    ensures ClientChanges(w, a, Next(cfg, w, a).value) && ServerChanges(w, a, Next(cfg, w, a).value)
  {
    hide ReadInto, WriteFrom, AddCompletion;
  }

  lemma CmChanges(cfg: Config, w: World, a: Agent)
    requires (a == ClientCm || a == ServerCm || a == CmReport) && Next(cfg, w, a).Some?
    ensures ClientChanges(w, a, Next(cfg, w, a).value) && ServerChanges(w, a, Next(cfg, w, a).value)
  {
  }

  lemma ServerThreadChanges(cfg: Config, w: World, a: Agent)
    requires (a == ServerMain || a == ServerCq) && Next(cfg, w, a).Some?
    ensures ServerChanges(w, a, Next(cfg, w, a).value) && Next(cfg, w, a).value.c == w.c
  {
    hide Decode, Encode, AdvertOf, Be, Le, MarkSent, CopiedWord, StoreAt;
  }

  /** Each field of the two hosts has one thread, or adapter, that changes it. */
  lemma OwnFields(cfg: Config, w: World, a: Agent)
    requires Next(cfg, w, a).Some?
    ensures ClientChanges(w, a, Next(cfg, w, a).value) && ServerChanges(w, a, Next(cfg, w, a).value)
  {
    hide Next;
    match a
    case ClientMain => MainChanges(cfg, w);
    case ClientCq => CqChanges(cfg, w);
    case ServerMain => ServerThreadChanges(cfg, w, a);
    case ServerCq => ServerThreadChanges(cfg, w, a);
    case ClientCm => CmChanges(cfg, w, a);
    case ServerCm => CmChanges(cfg, w, a);
    case CmReport => CmChanges(cfg, w, a);
    case _ => AdapterChanges(cfg, w, a);
  }

  // ------------------------------------------------------------------------- one operation

  /** The bytes of the client's memory that an operation may write. */
  predicate Touches(cfg: Config, op: Op, b: Buffer, x: nat) {
    match op
    case RdmaRead => b == RdmaBuf && x < |cfg.mem.start.bytes|
    case RdmaWrite => b == RdmaBuf && x < |cfg.message|
    case ReadClass(_) => (b == ClassRecvData && x < 32) || (b == ClassRecvBuf && x < 400)
    case OwRead(_) => b == SketchBuf && x < 4 * cfg.n
  }

  /** The buffers in which it may write anything. */
  predicate Writes(op: Op, b: Buffer) {
    match op
    case RdmaRead => b == RdmaBuf
    case RdmaWrite => b == RdmaBuf
    case ReadClass(_) => b == ClassRecvData || b == ClassRecvBuf
    case OwRead(_) => b == SketchBuf
  }

  /** Operations before this one have returned. */
  function Begun(cfg: Config, w: World): nat { Returned(cfg.ops, w.c.ops) + Bit(w.c.pc.Return?) }

  /** Operations before this one have been called. */
  function Called(cfg: Config, w: World): nat { Returned(cfg.ops, w.c.ops) + Bit(Current(w.c.pc).Some?) }

  /** A change belongs to the operation the client is in, or is just calling. */
  lemma ChangeIsTouch(cfg: Config, w: World, a: Agent, b: Buffer, x: nat)
    requires ValidConfig(cfg) && Reachable(cfg, w) && Next(cfg, w, a).Some?
    ensures var v, p := Next(cfg, w, a).value, Returned(cfg.ops, w.c.ops);
            SameByte(w.c.local, v.c.local, b, x)
            || (p < |cfg.ops| && Touches(cfg, cfg.ops[p], b, x) && !w.c.pc.Return? && p < Called(cfg, v))
  {
    hide Next, Reachable, Inv, Names, MayPost, Informed, Before, Touches;
    if MayWrite(cfg, w, a, b, x) {
      ReachableInv(cfg, w);
      if a == ClientSend {
        HeadIsCurrent(cfg, w);
        HeadTouches(cfg, w, b, x);
        OthersKeepPc(cfg, w, ClientSend);
      } else {
        CallTouches(cfg, w, b, x);
      }
    } else {
      StepFrame(cfg, w, a, b, x);
    }
  }

  lemma Position(cfg: Config, w: World)
    requires ValidConfig(cfg) && Reachable(cfg, w) && w.c.ops != []
    ensures |w.c.ops| <= |cfg.ops| && Returned(cfg.ops, w.c.ops) < |cfg.ops|
    ensures cfg.ops[Returned(cfg.ops, w.c.ops)] == w.c.ops[0]
  {
    hide Reachable, Inv, MemInv, DataInv, PcInv, SameSizes, Delayed;
    ReachableInv(cfg, w);
    InvData(cfg, w);
    assert w.c.ops[0] == cfg.ops[Returned(cfg.ops, w.c.ops)];
  }

  lemma CurrentIsHead(cfg: Config, w: World)
    requires ValidConfig(cfg) && Reachable(cfg, w) && Current(w.c.pc).Some?
    ensures w.c.ops != [] && w.c.ops[0] == Current(w.c.pc).value.0
  {
    hide Reachable, Inv, HostQueues, Reads;
    ReachableInv(cfg, w);
    InvQueues(cfg, w);
  }

  lemma HeadTouches(cfg: Config, w: World, b: Buffer, x: nat)
    requires ValidConfig(cfg) && Reachable(cfg, w) && w.c.io.qp.sq != [] && w.c.io.qp.sq[0].Read?
    requires Names(w.c.io.qp.sq[0].scatter, b, x)
    ensures var p := Returned(cfg.ops, w.c.ops);
            && p < |cfg.ops| && Touches(cfg, cfg.ops[p], b, x) && !w.c.pc.Return? && Current(w.c.pc).Some?
  {
    hide Reachable, Inv, Informed, Before, MayAddress, MayKey;
    ReachableInv(cfg, w);
    HeadIsCurrent(cfg, w);
    CurrentIsHead(cfg, w);
    Position(cfg, w);
  }

  lemma CallTouches(cfg: Config, w: World, b: Buffer, x: nat)
    requires ValidConfig(cfg) && Reachable(cfg, w) && Next(cfg, w, ClientMain).Some?
    requires MayWrite(cfg, w, ClientMain, b, x)
    ensures var v, p := Next(cfg, w, ClientMain).value, Returned(cfg.ops, w.c.ops);
            p < |cfg.ops| && Touches(cfg, cfg.ops[p], b, x) && p < Called(cfg, v)
  {
    hide Reachable, Request, Encode;
    Position(cfg, w);
    MessageFits(cfg, w);
  }

  lemma MessageFits(cfg: Config, w: World)
    requires ValidConfig(cfg) && Reachable(cfg, w)
    ensures |cfg.message| <= |w.c.local.rdma|
  {
    hide Reachable, Inv, MemInv;
    ReachableInv(cfg, w);
    InvMemories(cfg, w);
  }

  // ---------------------------------------------------------------------------- whole runs

  /** Operations are called and return in order. */
  lemma PositionsGrow(cfg: Config, w: World, a: Agent)
    requires ValidConfig(cfg) && Reachable(cfg, w) && Next(cfg, w, a).Some?
    ensures var v := Next(cfg, w, a).value;
            Begun(cfg, w) <= Begun(cfg, v) && Called(cfg, w) <= Called(cfg, v)
  {
    hide Next, Reachable;
    if a == ClientMain {
      if Current(w.c.pc).Some? {
        CurrentIsHead(cfg, w);
        Position(cfg, w);
        OpGrows(cfg, w);
      } else {
        StartGrows(cfg, w);
      }
    } else {
      OthersKeepPc(cfg, w, a);
    }
  }

  lemma OpGrows(cfg: Config, w: World)
    requires ValidConfig(cfg) && Reachable(cfg, w) && Current(w.c.pc).Some? && Next(cfg, w, ClientMain).Some?
    requires w.c.ops != [] && |w.c.ops| <= |cfg.ops|
    ensures var v := Next(cfg, w, ClientMain).value;
            Begun(cfg, w) <= Begun(cfg, v) && Called(cfg, w) <= Called(cfg, v)
  {
    hide Reachable, Inv, Request, ElementAddress, HostQueues;
    ReachableInv(cfg, w);
    InvQueues(cfg, w);
    if w.c.pc.Post? { PostSucceeds(cfg, w.c); }
  }

  lemma StartGrows(cfg: Config, w: World)
    requires Current(w.c.pc).None? && Next(cfg, w, ClientMain).Some?
    ensures var v := Next(cfg, w, ClientMain).value;
            Begun(cfg, w) <= Begun(cfg, v) && Called(cfg, w) <= Called(cfg, v)
  {
    hide Request, Encode;
  }

  /** A byte of the client's memory stays as it is through any part of any run in which no
      operation that touches it is called. */
  lemma {:induction false} RunFrame(cfg: Config, early: seq<Agent>, late: seq<Agent>, b: Buffer, x: nat)
    requires ValidConfig(cfg) && early <= late && Run(cfg, late).Some? && Run(cfg, early).Some?
    requires forall j :: Begun(cfg, Run(cfg, early).value) <= j < Called(cfg, Run(cfg, late).value) && j < |cfg.ops| ==>
                           !Touches(cfg, cfg.ops[j], b, x)
    ensures SameByte(Run(cfg, early).value.c.local, Run(cfg, late).value.c.local, b, x)
    ensures Begun(cfg, Run(cfg, early).value) <= Begun(cfg, Run(cfg, late).value)
    decreases |late|
  {
    hide Next, Begun, Called, Touches, SameByte;
    if early == late {
      SameAsItself(Run(cfg, early).value.c.local, b, x);
    } else {
      var front := late[..|late| - 1];
      var a := late[|late| - 1];
      assert early <= front;
      var w, v := Run(cfg, front).value, Run(cfg, late).value;
      assert Reachable(cfg, w);
      PositionsGrow(cfg, w, a);
      RunFrame(cfg, early, front, b, x);
      ChangeIsTouch(cfg, w, a, b, x);
      BegunIs(cfg, w);
      SameBytes(Run(cfg, early).value.c.local, w.c.local, v.c.local, b, x);
    }
  }

  lemma SameAsItself(l: LocalMemory, b: Buffer, x: nat)
    ensures SameByte(l, l, b, x)
  {
  }

  lemma SameBytes(l0: LocalMemory, l1: LocalMemory, l2: LocalMemory, b: Buffer, x: nat)
    requires SameByte(l0, l1, b, x)
    ensures SameByte(l1, l2, b, x) ==> SameByte(l0, l2, b, x)
  {
  }

  lemma BegunIs(cfg: Config, w: World)
    ensures !w.c.pc.Return? ==> Begun(cfg, w) == Returned(cfg.ops, w.c.ops)
  {
  }

  /** What an operation has read stays: a buffer keeps its contents, from the return of one
      operation on, until an operation that writes into it is called. */
  lemma BufferStays(cfg: Config, early: seq<Agent>, late: seq<Agent>, b: Buffer)
    requires ValidConfig(cfg) && early <= late && Run(cfg, late).Some? && Run(cfg, early).Some?
    requires forall j :: Begun(cfg, Run(cfg, early).value) <= j < Called(cfg, Run(cfg, late).value) && j < |cfg.ops| ==>
                           !Writes(cfg.ops[j], b)
    ensures Run(cfg, late).value.c.local.Get(b) == Run(cfg, early).value.c.local.Get(b)
  {
    hide Run, Begun, Called;
    var l, l' := Run(cfg, early).value.c.local, Run(cfg, late).value.c.local;
    RunFrame(cfg, early, late, b, 0);
    forall x | 0 <= x < |l.Get(b)| ensures l'.Get(b)[x] == l.Get(b)[x] { RunFrame(cfg, early, late, b, x); }
  }

  /** So the object a read_class has built is still the same until the next read_class, whatever
      other operations do in between. */
  lemma ObjectStays(cfg: Config, early: seq<Agent>, late: seq<Agent>)
    requires ValidConfig(cfg) && early <= late && Run(cfg, late).Some? && Run(cfg, early).Some?
    requires forall j :: Begun(cfg, Run(cfg, early).value) <= j < Called(cfg, Run(cfg, late).value) && j < |cfg.ops| ==>
                           !cfg.ops[j].ReadClass?
    requires |Run(cfg, early).value.c.local.classData| >= HEADER_SIZE
    ensures var l, l' := Run(cfg, early).value.c.local, Run(cfg, late).value.c.local;
            && |l'.classData| >= HEADER_SIZE
            && Reconstruct(l'.classData, l'.classBuf) == Reconstruct(l.classData, l.classBuf)
  {
    hide Run, Begun, Called;
    BufferStays(cfg, early, late, ClassRecvData);
    BufferStays(cfg, early, late, ClassRecvBuf);
  }
}
