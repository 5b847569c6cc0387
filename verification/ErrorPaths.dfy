/** What the programs do on the paths that no run of a valid configuration takes: messages of the
    wrong length, without an immediate or with an unknown one, a full send queue, calls that come
    too early. */
module ErrorPaths {
  import opened Bytes
  import opened Verbs
  import opened Rendezvous

  /** A CQ thread that finds a message of any length but 16 bytes ends its process: it never steps
      again, and has stored nothing. */
  lemma WrongLengthEnds(c: Client, s: Server, len: nat, imm: seq<Byte>)
    requires len != 16 && c.io.thread == s.io.thread == Handle(RecvDone(len, imm))
    ensures var c', s' := ClientCqStep(c).value, ServerCqStep(s).value;
            && c' == c.(io := c.io.(thread := CqExit)) && ClientCqStep(c').None?
            && s' == s.(io := s.io.(thread := CqExit)) && ServerCqStep(s').None?
  {
  }

  /** On the client a message without an immediate is ignored, and its receive is not posted again:
      with the one receive spent, nothing can be delivered any more. */
  lemma NoImmediateIsIgnored(c: Client)
    requires c.io.thread == Handle(RecvDone(16, [])) && |c.recvBuf| == 16
    ensures ClientCqStep(c) == Some(c.(io := c.io.(thread := Draining)))
    ensures c.io.qp.recvs == 0 ==> !CanReceive(ClientCqStep(c).value.io)
  {
  }

  /** Steps of the client's CQ thread. */
  function CqSteps(c: Client, k: nat): Option<Client>
    decreases k
  {
    if k == 0 then Some(c)
    else match ClientCqStep(c)
      case Some(c') => CqSteps(c', k - 1)
      case None => None
  }

  /** A message with an unknown immediate stores nothing and sets no flag, but its receive is
      posted again, if the queue of two has room. */
  lemma UnknownImmediateIsDropped(c: Client, imm: seq<Byte>)
    requires c.io.thread == Handle(RecvDone(16, imm)) && |c.recvBuf| == 16 && imm != []
    requires FromBe(imm) != 1122 && FromBe(imm) != 1123 && FromBe(imm) != 1124
    ensures CqSteps(c, 4)
            == Some(if c.io.qp.recvs < 2 then Reposted(c) else c.(io := c.io.(thread := Draining)))
  {
    hide FromBe, Decode;
    var c1 := ClientCqStep(c).value;
    assert c1 == c.(io := c.io.(thread := AddressStored(imm)));
    var c2 := ClientCqStep(c1).value;
    assert c2 == c.(io := c.io.(thread := Stored(imm)));
    var c3 := ClientCqStep(c2).value;
    assert c3 == c.(io := c.io.(thread := Repost));
    var c4 := ClientCqStep(c3).value;
    assert c4.io == (if c.io.qp.recvs < 2 then Reposted(c) else c.(io := c.io.(thread := Draining))).io;
    assert CqSteps(c, 4) == CqSteps(c1, 3) == CqSteps(c2, 2) == CqSteps(c3, 1) == CqSteps(c4, 0);
  }

  /** A known one stores its triple, sets its flag and reposts, and touches no other triple or flag. */
  lemma KnownImmediateIsStored(c: Client, imm: seq<Byte>, t: Triple)
    requires c.io.thread == Handle(RecvDone(16, imm)) && c.recvBuf == Encode(t) && imm != [] && c.io.qp.recvs < 2
    ensures FromBe(imm) == 1122 ==>
              CqSteps(c, 4) == Some(Reposted(c).(known := c.known.(remote := t, getRdmaAddr := true)))
    ensures FromBe(imm) == 1123 ==>
              CqSteps(c, 4) == Some(Reposted(c).(known := c.known.(classInfo := t, getClassAddr := true)))
    ensures FromBe(imm) == 1124 ==>
              CqSteps(c, 4) == Some(Reposted(c).(known := c.known.(sketchInfo := t, getSketchAddr := true)))
  {
    hide FromBe, Decode, Encode;
    WireRoundTrip(t, c.recvBuf);
    var c1 := ClientCqStep(c).value;
    var c2 := ClientCqStep(c1).value;
    var c3 := ClientCqStep(c2).value;
    assert c3.io == c.io.(thread := Repost);
    assert CqSteps(c, 4) == CqSteps(c1, 3) == CqSteps(c2, 2) == CqSteps(c3, 1);
    assert ClientCqStep(c3) == Some(Reposted(c).(known := c3.known));
    assert CqSteps(c3, 1) == Some(Reposted(c).(known := c3.known));
  }

  function Reposted(c: Client): Client {
    c.(io := c.io.(thread := Draining, qp := c.io.qp.(recvs := c.io.qp.recvs + 1)))
  }

  /** rdma_read before its address has arrived, rdma_write with a message longer than its buffer,
      and any post on top of sixteen outstanding requests end the process. */
  lemma FailingCallsEnd(cfg: Config, c: Client, r: WorkRequest, next: ClientPc)
    ensures !c.known.getRdmaAddr ==> Call(cfg, c, RdmaRead) == c.(pc := Exit)
    ensures |cfg.message| > |c.local.rdma| ==> Call(cfg, c, RdmaWrite) == c.(pc := Exit)
    ensures if c.io.qp.Outstanding() < 16 then PostRequest(c, r, next).io.qp.sq == c.io.qp.sq + [r]
            else PostRequest(c, r, next) == c.(pc := Exit)
    ensures c.pc == Exit ==> forall w: World :: w.c == c ==> Next(cfg, w, ClientMain).None?
  {
  }

  /** With 32 completions in its queue a host gets no message and no completion until one is polled;
      with fewer it does. */
  lemma FullQueueWaits(io: Io)
    ensures CanReceive(io) <==> io.qp.recvs > 0 && |io.cq.queue| < 32
    ensures AckStep(io).Some? <==> io.qp.acked != [] && |io.cq.queue| < 32
  {
  }
}
