/** The two programs as objects: their fields, and the code each thread runs on them, one
    step at a time. Every method is proved equal to the step function of its thread. */
module Hosts {
  import opened Bytes
  import opened Verbs
  import opened ClassTransfer
  import opened Rendezvous

  /** A host's verbs objects and its CQ thread's position, with the loop both CQ threads share
      and what the adapter does to them. */
  class HostIo {
    var qp: QueuePair
    var cq: CompletionQueue
    var thread: CqPc

    function View(): Io
      reads this
    {
      Io(qp, cq, thread)
    }

    constructor ()
      ensures View() == NO_IO
    {
      qp, cq, thread := NO_QP, NO_CQ, NotStarted;
    }

    /** start() creates the CQ and arms it, posts the receive and starts the CQ thread. */
    method Start()
      modifies this
      ensures View() == StartIo()
    {
      cq := CompletionQueue(true, 0, []);
      qp := QueuePair(1, [], []);
      thread := Waiting;
    }

    /** The loop around the handlers: wait, arm, poll, acknowledge. */
    method EventLoop() returns (moved: bool)
      modifies this`cq, this`thread
      ensures moved == LoopStep(old(View())).Some?
      ensures View() == if moved then LoopStep(old(View())).value else old(View())
    {
      moved := true;
      match thread {
        case Waiting =>
          if cq.events == 0 { return false; }
          cq := cq.(events := cq.events - 1);
          thread := GotEvent;
        case GotEvent =>
          cq := cq.(armed := true);
          thread := Draining;
        case Draining =>
          if cq.queue == [] {
            thread := Acking;
          } else {
            thread := Handle(cq.queue[0]);
            cq := cq.(queue := cq.queue[1..]);
          }
        case Acking => thread := Waiting;
        case _ => return false;
      }
    }

    /** ibv_post_send; it fails on a full queue. */
    method Post(r: WorkRequest) returns (ok: bool)
      modifies this`qp
      ensures ok == (old(qp).Outstanding() < SQ_DEPTH)
      ensures View() == if ok then PostSend(old(View()), r) else old(View())
    {
      ok := qp.Outstanding() < SQ_DEPTH;
      if ok { qp := qp.(sq := qp.sq + [r]); }
    }

    /** The head of the send queue has been executed. */
    method Execute(c: Completion)
      requires qp.sq != []
      modifies this`qp
      ensures View() == Executed(old(View()), c)
    {
      qp := qp.(sq := qp.sq[1..], acked := qp.acked + [c]);
    }

    /** A message of `len` bytes has taken a posted receive. */
    method Arrive(len: nat, imm: seq<Byte>)
      requires qp.recvs > 0
      modifies this`qp, this`cq
      ensures View() == Deliver(old(View()), len, imm)
    {
      qp := qp.(recvs := qp.recvs - 1);
      cq := AddCompletion(cq, RecvDone(len, imm));
    }

    /** The oldest executed request completes, if the completion queue has room. */
    method Acknowledge() returns (moved: bool)
      modifies this`qp, this`cq
      ensures moved == AckStep(old(View())).Some?
      ensures View() == if moved then AckStep(old(View())).value else old(View())
    {
      moved := qp.acked != [] && |cq.queue| < CQ_DEPTH;
      if moved {
        cq := AddCompletion(cq, qp.acked[0]);
        qp := qp.(acked := qp.acked[1..]);
      }
    }
  }

  class SimpleClient {
    var state: ClientState
    var cmEvents: seq<CmEvent>
    var pc: ClientPc
    var ops: seq<Op>
    var getRdmaAddr: bool
    var getClassAddr: bool
    var getSketchAddr: bool
    var readComplete: bool
    var writeComplete: bool
    var pendingReads: int
    var remote: Triple
    var classInfo: Triple
    var sketchInfo: Triple
    var wr: Target
    var sendBuf: seq<Byte>
    var recvBuf: seq<Byte>
    const io: HostIo
    var local: LocalMemory

    function View(): Client
      reads this, io
    {
      Client(state, cmEvents, pc, ops,
             Known(getRdmaAddr, getClassAddr, getSketchAddr, remote, classInfo, sketchInfo), wr,
             Progress(readComplete, writeComplete, pendingReads),
             sendBuf, recvBuf, io.View(), local)
    }

    constructor (cfg: Config)
      ensures View() == InitClient(cfg) && fresh(io)
    {
      state, cmEvents, pc, ops := INIT, [], Resolving, cfg.ops;
      getRdmaAddr, getClassAddr, getSketchAddr := false, false, false;
      readComplete, writeComplete, pendingReads := false, false, 0;
      remote, classInfo, sketchInfo := NO_TRIPLE, NO_TRIPLE, cfg.unset;
      wr := NO_TARGET;
      sendBuf, recvBuf := BLANK, BLANK;
      io := new HostIo();
      local := cfg.local;
    }

    /** cm_thread, one event; `route` reports that it asked for the route. */
    method CmThread() returns (moved: bool, route: bool)
      modifies this`state, this`cmEvents
      ensures moved == (old(cmEvents) != [])
      ensures if moved then (View(), route) == ClientCmEvent(old(View())) else View() == old(View()) && !route
    {
      if cmEvents == [] { return false, false; }
      moved, route := true, false;
      var event := cmEvents[0];
      cmEvents := cmEvents[1..];
      match event {
        case EvAddrResolved =>
          route := true;
          state := ADDR_RESOLVED;
        case EvRouteResolved => state := ROUTE_RESOLVED;
        case EvEstablished => state := CONNECTED;
        case _ =>
      }
    }

    /** recv_handler's first steps: check the length, store the triple's address by immediate. */
    method RecvHandler(byteLen: nat, imm: seq<Byte>)
      modifies this`remote, this`classInfo, this`sketchInfo, io`thread
      ensures View() == ClientHandle(old(View()), RecvDone(byteLen, imm))
    {
      hide Decode, FromBe;
      if byteLen != INFO_SIZE || |recvBuf| != INFO_SIZE {
        io.thread := CqExit;
      } else if imm == [] {
        io.thread := Draining;
      } else {
        var addr := Decode(recvBuf).addr;
        var code := FromBe(imm);
        if code == RDMA_IMM {
          remote := remote.(addr := addr);
        } else if code == CLASS_IMM {
          classInfo := classInfo.(addr := addr);
        } else if code == SKETCH_IMM {
          sketchInfo := sketchInfo.(addr := addr);
        }
        io.thread := AddressStored(imm);
      }
    }

    /** Its next ones, up to the flag: the length and the key. */
    method StoreLengthAndKey(imm: seq<Byte>)
      modifies this`remote, this`classInfo, this`sketchInfo, io`thread
      ensures View() == ClientStoreRest(old(View()), imm)
    {
      hide Decode, FromBe;
      if |recvBuf| != INFO_SIZE {
        io.thread := CqExit;
      } else {
        var t := Decode(recvBuf);
        var code := FromBe(imm);
        if code == RDMA_IMM {
          remote := remote.(len := t.len, rkey := t.rkey);
        } else if code == CLASS_IMM {
          classInfo := classInfo.(len := t.len, rkey := t.rkey);
        } else if code == SKETCH_IMM {
          sketchInfo := sketchInfo.(len := t.len, rkey := t.rkey);
        }
        io.thread := Stored(imm);
      }
    }

    /** The switch of cq_thread on a completion's opcode. */
    method Dispatch(wc: Completion)
      modifies this`remote, this`classInfo, this`sketchInfo, io`thread, this`readComplete, this`writeComplete
      ensures View() == ClientHandle(old(View()), wc)
    {
      match wc {
        case SendDone(_) => io.thread := Draining;
        case RecvDone(byteLen, imm) => RecvHandler(byteLen, imm);
        case ReadDone =>
          readComplete := true;
          io.thread := Decrement;
        case WriteDone =>
          writeComplete := true;
          io.thread := Draining;
      }
    }

    method RaiseFlag(code: nat)
      modifies this`getRdmaAddr, this`getClassAddr, this`getSketchAddr
      ensures View() == old(View()).(known := SetFlag(old(View()).known, code))
    {
      if code == RDMA_IMM {
        getRdmaAddr := true;
      } else if code == CLASS_IMM {
        getClassAddr := true;
      } else if code == SKETCH_IMM {
        getSketchAddr := true;
      }
    }

    /** cq_thread, one step. */
    method CqThread() returns (moved: bool)
      modifies this, io
      ensures moved == ClientCqStep(old(View())).Some?
      ensures View() == if moved then ClientCqStep(old(View())).value else old(View())
    {
      hide ClientHandle, ClientStoreRest, SetFlag, FromBe, CqLoop;
      moved := true;
      match io.thread {
        case Handle(wc) => Dispatch(wc);
        case AddressStored(imm) => StoreLengthAndKey(imm);
        case Stored(imm) =>
          RaiseFlag(FromBe(imm));
          io.thread := Repost;
        case Repost =>
          io.qp := PostRecv(io.qp);
          io.thread := Draining;
        case Decrement =>
          pendingReads := pendingReads - 1;
          io.thread := Draining;
        case _ => moved := io.EventLoop();
      }
    }

    /** ibv_post_send and the check of its result. */
    method PostOrExit(r: WorkRequest, next: ClientPc)
      modifies io`qp, this`pc
      ensures View() == PostRequest(old(View()), r, next)
    {
      var ok := io.Post(r);
      pc := if ok then next else Exit;
    }

    /** A message arrives in the receive buffer. */
    method Receive(message: seq<Byte>, imm: seq<Byte>)
      requires io.qp.recvs > 0
      modifies this`recvBuf, io`qp, io`cq
      ensures View() == old(View()).(recvBuf := message, io := Deliver(old(View()).io, |message|, imm))
    {
      recvBuf := message;
      io.Arrive(|message|, imm);
    }
  }

  class SimpleServer {
    var state: ServerState
    var cmEvents: seq<CmEvent>
    var pc: ServerPc
    var getRemoteAddr: bool
    var rdmaSent: bool
    var classSent: bool
    var sketchSent: bool
    var remote: Triple
    var sendBuf: seq<Byte>
    var recvBuf: seq<Byte>
    const io: HostIo
    var mem: ServerMemory

    function View(): Server
      reads this, io
    {
      Server(state, cmEvents, pc, Peer(getRemoteAddr, remote), Sent(rdmaSent, classSent, sketchSent),
             sendBuf, recvBuf, io.View(), mem)
    }

    constructor (cfg: Config)
      ensures View() == InitServer(cfg) && fresh(io)
    {
      state, cmEvents, pc := SERVER_INIT, [], Listening;
      getRemoteAddr, rdmaSent, classSent, sketchSent := false, false, false, false;
      remote := NO_TRIPLE;
      sendBuf, recvBuf := BLANK, BLANK;
      io := new HostIo();
      mem := cfg.mem;
    }

    /** cm_thread, one event. */
    method CmThread() returns (moved: bool)
      modifies this`state, this`cmEvents
      ensures moved == (old(cmEvents) != [])
      ensures View() == if moved then ServerCmEvent(old(View())) else old(View())
    {
      if cmEvents == [] { return false; }
      moved := true;
      var event := cmEvents[0];
      cmEvents := cmEvents[1..];
      match event {
        case EvConnectRequest => state := REQUEST_GET;
        case EvConnectResponse => state := SERVER_CONNECTED;
        case EvEstablished => state := SERVER_CONNECTED;
        case _ =>
      }
    }

    /** server_recv_handler up to the flag, and the flags of the three sends. */
    method Dispatch(wc: Completion)
      modifies this`remote, io`thread, this`rdmaSent, this`classSent, this`sketchSent
      ensures View() == ServerHandle(old(View()), wc)
    {
      match wc {
        case RecvDone(byteLen, imm) =>
          if byteLen != INFO_SIZE || |recvBuf| != INFO_SIZE {
            io.thread := CqExit;
          } else {
            remote := Decode(recvBuf);
            io.thread := Stored(imm);
          }
        case SendDone(wrId) =>
          if wrId == 0 {
            rdmaSent := true;
          } else if wrId == CLASS_IMM {
            classSent := true;
          } else if wrId == SKETCH_IMM {
            sketchSent := true;
          }
          io.thread := Draining;
        case _ => io.thread := Draining;
      }
    }

    /** cq_thread, one step. */
    method CqThread() returns (moved: bool)
      modifies this, io
      ensures moved == ServerCqStep(old(View())).Some?
      ensures View() == if moved then ServerCqStep(old(View())).value else old(View())
    {
      moved := true;
      match io.thread {
        case Handle(wc) => Dispatch(wc);
        case Stored(_) =>
          getRemoteAddr := true;
          io.thread := Draining;
        case _ => moved := io.EventLoop();
      }
    }

    /** The main thread, one step: start(), init_class_recv and init_sketch_rdma; `accept`
        reports the call of rdma_accept. */
    method MainThread(cfg: Config) returns (moved: bool, accept: bool)
      modifies this, io
      ensures moved == ServerStep(cfg, old(View())).Some?
      ensures View() == if moved then ServerStep(cfg, old(View())).value else old(View())
      ensures accept == (moved && old(pc).Accepting?)
    {
      hide Encode, Be, Header, Words, AdvertOf, StoreAt, Le;
      moved, accept := true, false;
      match pc {
        case Fill(k) => FillSendBuf(cfg, k);
        case FillSketch(j) => StoreElement(cfg, j);
        case PostAdvert(k) =>
          var next := if k == 1 then ServerPc.CopyClass(0) else WaitSent(k);
          PostOrExit(Send(WrId(k), Be(4, Immediate(k))), next);
        case CopyClass(j) => CopyWord(cfg, j);
        case WaitSent(k) =>
          if !SentFlag(Sent(rdmaSent, classSent, sketchSent), k) { return false, false; }
          pc := if k == 2 then Done else Fill(k + 1);
        case Done => return false, false;
        case ServerExit => return false, false;
        case _ => moved, accept := Connect(cfg);
      }
    }

    /** start() up to the wait for the client's triple. */
    method Connect(cfg: Config) returns (moved: bool, accept: bool)
      requires pc.Listening? || pc.ServerSetup? || pc.Accepting? || pc.WaitState? || pc.WaitRemote?
      modifies this`pc, io
      ensures moved == ServerStep(cfg, old(View())).Some?
      ensures View() == if moved then ServerStep(cfg, old(View())).value else old(View())
      ensures accept == (moved && old(pc).Accepting?)
    {
      hide Encode, Be, Header, Words, AdvertOf, StoreAt, Le;
      moved, accept := true, false;
      match pc {
        case Listening =>
          if state != REQUEST_GET { return false, false; }
          pc := ServerSetup;
        case ServerSetup =>
          io.Start();
          pc := Accepting;
        case Accepting =>
          accept := true;
          pc := WaitState;
        case WaitState =>
          if ServerCode(state) != ClientCode(CONNECTED) { return false, false; }
          pc := WaitRemote;
        case WaitRemote =>
          if !getRemoteAddr { return false, false; }
          pc := Fill(0);
      }
    }

    /** One word of the two memcpy calls of init_class_recv, or their end. */
    method CopyWord(cfg: Config, j: nat)
      requires pc == ServerPc.CopyClass(j)
      modifies this`mem, this`pc
      ensures ServerStep(cfg, old(View())) == Some(View())
    {
      hide CopiedWord;
      if !WellFormed(cfg.obj) || |mem.cls.bytes| < 4 * CopiedWords(cfg.obj) {
        pc := ServerExit;
      } else if j < CopiedWords(cfg.obj) {
        mem := mem.(cls := StoreAt(mem.cls, 4 * j, CopiedWord(cfg.obj, j)));
        pc := ServerPc.CopyClass(j + 1);
      } else {
        pc := WaitSent(1);
      }
    }

    /** send_buf's three fields for advertisement `k`. */
    method FillSendBuf(cfg: Config, k: Index)
      requires pc == Fill(k)
      modifies this`sendBuf, this`pc
      ensures ServerStep(cfg, old(View())) == Some(View())
    {
      if |mem.start.bytes| >= TWO_32 || cfg.n >= TWO_32 {
        pc := ServerExit;
      } else {
        sendBuf := Encode(AdvertOf(mem, cfg.n, k));
        pc := if k == 2 then FillSketch(0) else PostAdvert(k);
      }
    }

    /** One turn of the loop that fills the sketch. */
    method StoreElement(cfg: Config, j: nat)
      requires pc == FillSketch(j)
      modifies this`mem, this`pc
      ensures ServerStep(cfg, old(View())) == Some(View())
    {
      if j >= cfg.n {
        pc := PostAdvert(2);
      } else if 4 * j + 4 > |mem.sketch.bytes| {
        pc := ServerExit;
      } else {
        mem := mem.(sketch := StoreAt(mem.sketch, 4 * j, Le(4, j)));
        pc := FillSketch(j + 1);
      }
    }

    /** ibv_post_send and the check of its result. */
    method PostOrExit(r: WorkRequest, next: ServerPc)
      modifies io`qp, this`pc
      ensures View() == if old(io.qp).Outstanding() >= SQ_DEPTH then old(View()).(pc := ServerExit)
                        else old(View()).(io := PostSend(old(View()).io, r), pc := next)
    {
      var ok := io.Post(r);
      pc := if ok then next else ServerExit;
    }

    /** A message arrives in the receive buffer. */
    method Receive(message: seq<Byte>, imm: seq<Byte>)
      requires io.qp.recvs > 0
      modifies this`recvBuf, io`qp, io`cq
      ensures View() == old(View()).(recvBuf := message, io := Deliver(old(View()).io, |message|, imm))
    {
      recvBuf := message;
      io.Arrive(|message|, imm);
    }
  }
}
