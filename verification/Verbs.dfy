/** The verbs layer as the two programs see it: work requests, completions,
    the completion queue with its one-shot event, and registered memory. */
module Verbs {
  import opened Bytes

  const SQ_DEPTH: nat := 16            // max_send_wr; the CQ holds twice as many entries
  const CQ_DEPTH: nat := 2 * SQ_DEPTH
  const MAX_RECV_WR: nat := 2

  // ---------------------------------------------------------------- registered memory

  /** A registered region: virtual base address, remote key, and the bytes in it. */
  datatype Region = Region(base: U64, rkey: U32, bytes: seq<Byte>)

  predicate InRegion(r: Region, addr: int, len: nat) {
    r.base <= addr && addr + len <= r.base + |r.bytes|
  }

  /** The three regions a server advertises. */
  datatype ServerMemory = ServerMemory(start: Region, cls: Region, sketch: Region)

  function Slice(r: Region, addr: int, len: nat): (s: Option<seq<Byte>>)
    ensures s.Some? <==> InRegion(r, addr, len)
    ensures s.Some? ==> |s.value| == len
  {
    if InRegion(r, addr, len) then Some(r.bytes[addr - r.base..addr - r.base + len]) else None
  }

  /** What the adapter answers to a remote read: the bytes, or None for an access error. */
  function Fetch(m: ServerMemory, addr: int, rkey: U32, len: nat): (r: Option<seq<Byte>>)
    ensures r.Some? ==> |r.value| == len
  {
    if rkey == m.start.rkey then Slice(m.start, addr, len)
    else if rkey == m.cls.rkey then Slice(m.cls, addr, len)
    else if rkey == m.sketch.rkey then Slice(m.sketch, addr, len)
    else None
  }

  /** A remote write; the clients of this server only ever target its start buffer. */
  function Store(m: ServerMemory, addr: int, rkey: U32, d: seq<Byte>): Option<ServerMemory> {
    if rkey == m.start.rkey && InRegion(m.start, addr, |d|)
    then Some(m.(start := m.start.(bytes := Put(m.start.bytes, addr - m.start.base, d))))
    else None
  }

  /** The client's registered receive areas, and scatter entries pointing into them. */
  datatype Buffer = RdmaBuf | ClassRecvData | ClassRecvBuf | SketchBuf
  datatype LocalMemory = LocalMemory(rdma: seq<Byte>, classData: seq<Byte>, classBuf: seq<Byte>, sketch: seq<Byte>)
  {
    function Get(b: Buffer): seq<Byte> {
      match b
      case RdmaBuf => rdma
      case ClassRecvData => classData
      case ClassRecvBuf => classBuf
      case SketchBuf => sketch
    }

    function Set(b: Buffer, v: seq<Byte>): LocalMemory {
      match b
      case RdmaBuf => this.(rdma := v)
      case ClassRecvData => this.(classData := v)
      case ClassRecvBuf => this.(classBuf := v)
      case SketchBuf => this.(sketch := v)
    }
  }
  datatype Sge = Sge(buf: Buffer, off: nat, len: nat)

  predicate SgeFits(l: LocalMemory, g: Sge) {
    g.off + g.len <= |l.Get(g.buf)|
  }

  function TotalLength(gs: seq<Sge>): nat {
    if gs == [] then 0 else gs[0].len + TotalLength(gs[1..])
  }

  /** Distribute `d` over the scatter list in order; None if an entry leaves its region. */
  function Scatter(l: LocalMemory, gs: seq<Sge>, d: seq<Byte>): Option<LocalMemory>
    requires |d| == TotalLength(gs)
    decreases |gs|
  {
    if gs == [] then Some(l)
    else if !SgeFits(l, gs[0]) then None
    else Scatter(l.Set(gs[0].buf, Put(l.Get(gs[0].buf), gs[0].off, d[..gs[0].len])), gs[1..], d[gs[0].len..])
  }

  /** A remote read into a scatter list: None if any range is not registered. */
  function ReadInto(l: LocalMemory, m: ServerMemory, addr: int, rkey: U32, gs: seq<Sge>): Option<LocalMemory> {
    match Fetch(m, addr, rkey, TotalLength(gs))
    case None => None
    case Some(d) => Scatter(l, gs, d)
  }

  /** A remote write from one local range. */
  function WriteFrom(l: LocalMemory, m: ServerMemory, addr: int, rkey: U32, g: Sge): Option<ServerMemory> {
    if !SgeFits(l, g) then None else Store(m, addr, rkey, l.Get(g.buf)[g.off..g.off + g.len])
  }

  // ------------------------------------------------- work requests and completions

  /** `imm` holds the four immediate bytes in network order, or [] without an immediate. */
  datatype WorkRequest =
    | Send(wrId: U32, imm: seq<Byte>)
    | Read(raddr: int, rkey: U32, scatter: seq<Sge>)
    | Write(raddr: int, rkey: U32, source: Sge)

  datatype Completion =
    | SendDone(wrId: U32)
    | RecvDone(byteLen: nat, imm: seq<Byte>)
    | ReadDone
    | WriteDone

  datatype Kind = KSend | KRecv | KRead | KWrite

  function RequestKind(r: WorkRequest): Kind {
    match r
    case Send(_, _) => KSend
    case Read(_, _, _) => KRead
    case Write(_, _, _) => KWrite
  }

  function CompletionKind(c: Completion): Kind {
    match c
    case SendDone(_) => KSend
    case RecvDone(_, _) => KRecv
    case ReadDone => KRead
    case WriteDone => KWrite
  }

  function CountRequests(q: seq<WorkRequest>, k: Kind): nat {
    if q == [] then 0 else (if RequestKind(q[0]) == k then 1 else 0) + CountRequests(q[1..], k)
  }

  function CountCompletions(q: seq<Completion>, k: Kind): nat {
    if q == [] then 0 else (if CompletionKind(q[0]) == k then 1 else 0) + CountCompletions(q[1..], k)
  }

  lemma {:induction false} CountRequestsPush(q: seq<WorkRequest>, r: WorkRequest, k: Kind)
    ensures CountRequests(q + [r], k) == CountRequests(q, k) + (if RequestKind(r) == k then 1 else 0)
  {
    if q == [] {
    } else {
      assert (q + [r])[1..] == q[1..] + [r];
      CountRequestsPush(q[1..], r, k);
    }
  }

  lemma {:induction false} CountCompletionsPush(q: seq<Completion>, c: Completion, k: Kind)
    ensures CountCompletions(q + [c], k) == CountCompletions(q, k) + (if CompletionKind(c) == k then 1 else 0)
  {
    if q == [] {
    } else {
      assert (q + [c])[1..] == q[1..] + [c];
      CountCompletionsPush(q[1..], c, k);
    }
  }

  lemma {:induction false} CountRequestsNone(q: seq<WorkRequest>, k: Kind)
    requires CountRequests(q, k) == 0
    ensures forall r :: r in q ==> RequestKind(r) != k
  {
    if q != [] { CountRequestsNone(q[1..], k); }
  }

  lemma {:induction false} CountCompletionsNone(q: seq<Completion>, k: Kind)
    requires CountCompletions(q, k) == 0
    ensures forall c :: c in q ==> CompletionKind(c) != k
  {
    if q != [] { CountCompletionsNone(q[1..], k); }
  }

  lemma {:induction false} CountAllSends(q: seq<WorkRequest>)
    requires forall r :: r in q ==> r.Send?
    ensures CountRequests(q, KSend) == |q|
  {
    if q != [] {
      assert q[0] in q;
      CountAllSends(q[1..]);
    }
  }

  lemma {:induction false} CountAllSendsDone(q: seq<Completion>)
    requires forall c :: c in q ==> c.SendDone?
    ensures CountCompletions(q, KSend) == |q|
  {
    if q != [] {
      assert q[0] in q;
      CountAllSendsDone(q[1..]);
    }
  }

  lemma {:induction false} CountRequestsTotal(q: seq<WorkRequest>)
    ensures |q| == CountRequests(q, KSend) + CountRequests(q, KRead) + CountRequests(q, KWrite)
    ensures CountRequests(q, KRecv) == 0
  {
    if q != [] { CountRequestsTotal(q[1..]); }
  }

  lemma {:induction false} CountCompletionsTotal(q: seq<Completion>)
    ensures |q| == CountCompletions(q, KSend) + CountCompletions(q, KRecv)
                   + CountCompletions(q, KRead) + CountCompletions(q, KWrite)
  {
    if q != [] { CountCompletionsTotal(q[1..]); }
  }

  // ---------------------------------------------------------- queue pair, completion queue

  /** `recvs` posted receives; `sq` requests not yet executed; `acked` requests executed,
      their completions not yet generated. Both lists are in posting order. */
  datatype QueuePair = QueuePair(recvs: nat, sq: seq<WorkRequest>, acked: seq<Completion>)
  {
    function Outstanding(): nat { |sq| + |acked| }
  }

  /** `armed`: notification requested; `events`: events waiting on the channel. */
  datatype CompletionQueue = CompletionQueue(armed: bool, events: nat, queue: seq<Completion>)

  const NO_QP := QueuePair(0, [], [])
  const NO_CQ := CompletionQueue(false, 0, [])

  /** An entry is added: it consumes the armed state and produces one event. */
  function AddCompletion(cq: CompletionQueue, c: Completion): CompletionQueue {
    CompletionQueue(false, if cq.armed then cq.events + 1 else cq.events, cq.queue + [c])
  }

  // ------------------------------------------------------- the completion thread's loop

  /** Where a CQ thread stands. `AddressStored`, `Stored`, `Repost` and `Decrement` are the later
      statements of the handlers that take more than one step. */
  datatype CqPc =
    | NotStarted
    | Waiting                     // in ibv_get_cq_event
    | GotEvent                    // before ibv_req_notify_cq
    | Draining                    // before ibv_poll_cq
    | Handle(wc: Completion)
    | AddressStored(imm: seq<Byte>)   // of a triple, the length and key not yet
    | Stored(imm: seq<Byte>)      // triple stored, flag not yet set
    | Repost                      // flag set, receive not yet posted again
    | Decrement                   // read flag set, counter not yet decremented
    | Acking                      // before ibv_ack_cq_events
    | CqExit                      // exit(1)

  /** The loop around the handlers, the same text on both hosts. */
  function CqLoop(cq: CompletionQueue, pc: CqPc): Option<(CompletionQueue, CqPc)> {
    match pc
    case Waiting => if cq.events > 0 then Some((cq.(events := cq.events - 1), GotEvent)) else None
    case GotEvent => Some((cq.(armed := true), Draining))
    case Draining =>
      if cq.queue == [] then Some((cq, Acking))
      else Some((cq.(queue := cq.queue[1..]), Handle(cq.queue[0])))
    case Acking => Some((cq, Waiting))
    case _ => None
  }

  /** The notification token: armed, an event, or a thread about to re-arm - exactly one. */
  predicate OneToken(cq: CompletionQueue, pc: CqPc) {
    (if cq.armed then 1 else 0) + cq.events + (if pc.GotEvent? then 1 else 0) == 1
  }

  /** An armed queue whose thread has finished draining is empty. */
  predicate DrainedBeforeWait(cq: CompletionQueue, pc: CqPc) {
    cq.armed && (pc.Acking? || pc.Waiting?) ==> cq.queue == []
  }

  predicate CqInv(cq: CompletionQueue, pc: CqPc) {
    if pc.NotStarted? then cq == NO_CQ
    else !pc.CqExit? && OneToken(cq, pc) && DrainedBeforeWait(cq, pc)
  }

  lemma AddCompletionKeeps(cq: CompletionQueue, pc: CqPc, c: Completion)
    requires CqInv(cq, pc) && !pc.NotStarted?
    ensures CqInv(AddCompletion(cq, c), pc)
  {}

  // ------------------------------------------------------------- conservation along a QP

  /** Work of kind `k` that is queued, executed, completed or being handled. */
  function Chain(qp: QueuePair, cq: CompletionQueue, pc: CqPc, k: Kind): nat {
    CountRequests(qp.sq, k) + CountCompletions(qp.acked, k) + CountCompletions(cq.queue, k)
    + (if pc.Handle? && CompletionKind(pc.wc) == k then 1 else 0)
  }
}
