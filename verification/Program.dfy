/** The client's main thread as sequential code - start(), the four operations and a program
    of them - running against every schedule of the other threads, the server and the adapters.
    Spin loops are loops here too; they end because every other agent's step decreases the
    measure and somebody else can always step. */
module Program {
  import opened Bytes
  import opened Verbs
  import opened ClassTransfer
  import opened Rendezvous
  import opened Invariants
  import opened Preservation
  import opened Termination
  import opened Guarantees
  import opened Frames
  import opened Hosts

  // ---------------------------------------------------------------- facts about one step

  lemma Advance(cfg: Config, w: World, a: Agent)
    requires ValidConfig(cfg) && Reachable(cfg, w) && Next(cfg, w, a).Some?
    ensures Reachable(cfg, Next(cfg, w, a).value)
    ensures 0 <= Measure(cfg, Next(cfg, w, a).value) < Measure(cfg, w)
  {
    hide Inv, Next, Run, Measure;
    ReachableInv(cfg, w);
    StepDecreases(cfg, w, a);
    var agents :| Run(cfg, agents) == Some(w);
    RunSnoc(cfg, agents, a);
  }

  /** While the main thread spins, somebody else can step. */
  lemma SomebodyElseCanStep(cfg: Config, w: World)
    requires ValidConfig(cfg) && Completable(cfg) && Reachable(cfg, w)
    requires Next(cfg, w, ClientMain).None? && !Final(w)
    ensures exists a: Agent :: a != ClientMain && Next(cfg, w, a).Some?
  {
    hide Next, Final, Reachable, Completable;
    DeadlockFree(cfg, w);
  }

  /** Where the main thread's loops turn without effect. */
  predicate Spins(w: World) {
    match w.c.pc
    case Resolving => w.c.state != ROUTE_RESOLVED
    case WaitConnected => w.c.state != CONNECTED
    case WaitRdmaAddr => !w.c.known.getRdmaAddr
    case Idle => w.c.ops != [] && !MayCall(w.c.known, w.c.ops[0])
    case Spin(op, _) => if op.RdmaWrite? then !w.c.progress.writeComplete else !w.c.progress.readComplete
    case Wait(_) => w.c.progress.pendingReads > 0
    case _ => false
  }

  lemma SpinningIsNoStep(cfg: Config, w: World)
    requires Spins(w)
    ensures Next(cfg, w, ClientMain).None? && !Final(w)
  {
    hide Request, Encode, IoIdle;
  }

  /** The main thread's step, for a position in start() and for one in an operation. */
  lemma NextInStart(cfg: Config, w: World)
    requires StartStep(cfg, w.c).Some?
    ensures Next(cfg, w, ClientMain)
            == Some(w.(c := StartStep(cfg, w.c).value, work := if w.c.pc.Connecting? then ConnectReq else w.work))
  {
    hide StartStep, OpStep;
  }

  lemma NextInOp(cfg: Config, w: World)
    requires InOperation(w.c.pc) && OpStep(cfg, w.c).Some?
    ensures Next(cfg, w, ClientMain) == Some(w.(c := OpStep(cfg, w.c).value))
  {
    hide OpStep;
  }

  /** `op` is done with every buffer it does not write. */
  ghost predicate KeptBut(op: Op, l: LocalMemory, l': LocalMemory) {
    forall b: Buffer :: !Writes(op, b) ==> l'.Get(b) == l.Get(b)
  }

  lemma OnlyIts(op: Op, l: LocalMemory, l': LocalMemory)
    requires KeptBut(op, l, l')
    ensures op.RdmaRead? || op.RdmaWrite? ==> l' == l.(rdma := l'.rdma)
    ensures op.ReadClass? ==> l' == l.(classData := l'.classData, classBuf := l'.classBuf)
    ensures op.OwRead? ==> l' == l.(sketch := l'.sketch)
  {
    if Writes(op, RdmaBuf) {
      assert l'.Get(ClassRecvData) == l.Get(ClassRecvData) && l'.Get(ClassRecvBuf) == l.Get(ClassRecvBuf);
      assert l'.Get(SketchBuf) == l.Get(SketchBuf);
    } else {
      assert l'.Get(RdmaBuf) == l.Get(RdmaBuf);
      if Writes(op, SketchBuf) {
        assert l'.Get(ClassRecvData) == l.Get(ClassRecvData) && l'.Get(ClassRecvBuf) == l.Get(ClassRecvBuf);
      } else {
        assert l'.Get(SketchBuf) == l.Get(SketchBuf);
      }
    }
  }

  /** While the main thread stands at `pc`, the others leave alone what its operation does not write. */
  ghost predicate Undisturbed(pc: ClientPc, l: LocalMemory, l': LocalMemory) {
    if Current(pc).None? || pc.Return? then l' == l else KeptBut(Current(pc).value.0, l, l')
  }

  lemma OthersUndisturbed(cfg: Config, w: World, a: Agent)
    requires ValidConfig(cfg) && Reachable(cfg, w) && a != ClientMain && Next(cfg, w, a).Some?
    ensures Undisturbed(w.c.pc, w.c.local, Next(cfg, w, a).value.c.local)
  {
    hide Next, Reachable, Writes, Touches, Called;
    var v := Next(cfg, w, a).value;
    OthersKeepPc(cfg, w, a);
    if Current(w.c.pc).Some? {
      CurrentIsHead(cfg, w);
      Position(cfg, w);
    }
    forall b: Buffer | Current(w.c.pc).None? || w.c.pc.Return? || !Writes(Current(w.c.pc).value.0, b)
      ensures v.c.local.Get(b) == w.c.local.Get(b)
    {
      forall x: nat ensures SameByte(w.c.local, v.c.local, b, x) {
        ChangeIsTouch(cfg, w, a, b, x);
        NotCalled(cfg, v);
        if w.c.ops != [] { TouchIsWrite(cfg, w.c.ops[0], b, x); }
      }
      SameBuffer(w.c.local, v.c.local, b);
    }
    SameBuffers(w.c.local, v.c.local);
  }

  lemma NotCalled(cfg: Config, w: World)
    ensures Current(w.c.pc).None? ==> Called(cfg, w) == Returned(cfg.ops, w.c.ops)
  {
  }

  lemma TouchIsWrite(cfg: Config, op: Op, b: Buffer, x: nat)
    ensures Touches(cfg, op, b, x) ==> Writes(op, b)
  {
  }

  lemma SameBuffer(l: LocalMemory, l': LocalMemory, b: Buffer)
    requires forall x: nat :: SameByte(l, l', b, x)
    ensures l'.Get(b) == l.Get(b)
  {
    assert SameByte(l, l', b, 0);
    forall x | 0 <= x < |l.Get(b)| ensures l'.Get(b)[x] == l.Get(b)[x] { assert SameByte(l, l', b, x); }
  }

  lemma SameBuffers(l: LocalMemory, l': LocalMemory)
    ensures (forall b: Buffer :: l'.Get(b) == l.Get(b)) ==> l' == l
  {
    if forall b: Buffer :: l'.Get(b) == l.Get(b) {
      assert l'.Get(RdmaBuf) == l.Get(RdmaBuf) && l'.Get(ClassRecvData) == l.Get(ClassRecvData);
      assert l'.Get(ClassRecvBuf) == l.Get(ClassRecvBuf) && l'.Get(SketchBuf) == l.Get(SketchBuf);
    }
  }

  class Session {
    const cfg: Config
    const client: SimpleClient
    const server: SimpleServer
    var work: CmWork

    function View(): World
      reads this, client, server, client.io, server.io
    {
      World(client.View(), server.View(), work)
    }

    /** What never changes: a program that can be completed, and two hosts. */
    ghost predicate Sound() {
      ValidConfig(cfg) && Completable(cfg) && client.io != server.io
    }

    ghost predicate Valid()
      reads this, client, server, client.io, server.io
    {
      Sound() && Reachable(cfg, View())
    }

    constructor (cfg: Config)
      requires ValidConfig(cfg) && Completable(cfg)
      ensures this.cfg == cfg && View() == Init(cfg) && Valid()
      ensures fresh(client) && fresh(server) && fresh(client.io) && fresh(server.io)
    {
      this.cfg := cfg;
      client := new SimpleClient(cfg);
      server := new SimpleServer(cfg);
      work := ResolveAddr;
      new;
      hide ValidConfig, Completable, InitClient, InitServer;
      assert Run(cfg, []) == Some(Init(cfg));
    }

    // ------------------------------------------------------------------- the other agents

    /** The client's adapter executes the head of the send queue. */
    method ClientAdapter() returns (moved: bool)
      requires client.io != server.io
      modifies client, server, client.io, server.io
      ensures moved == ClientSendStep(old(View())).Some?
      ensures View() == if moved then ClientSendStep(old(View())).value else old(View())
    {
      hide ReadInto, WriteFrom, Executed, Deliver;
      moved := false;
      if client.io.qp.sq != [] {
        match client.io.qp.sq[0] {
          case Send(wrId, imm) =>
            if CanReceive(server.io.View()) {
              server.Receive(client.sendBuf, imm);
              client.io.Execute(SendDone(wrId));
              moved := true;
            }
          case Read(raddr, rkey, scatter) =>
            var l := ReadInto(client.local, server.mem, raddr, rkey, scatter);
            if l.Some? {
              client.local := l.value;
              client.io.Execute(ReadDone);
              moved := true;
            }
          case Write(raddr, rkey, g) =>
            var m := WriteFrom(client.local, server.mem, raddr, rkey, g);
            if m.Some? {
              server.mem := m.value;
              client.io.Execute(WriteDone);
              moved := true;
            }
        }
      }
    }

    /** The server's adapter sends the head of its send queue. */
    method ServerAdapter() returns (moved: bool)
      requires client.io != server.io
      modifies client, server, client.io, server.io
      ensures moved == ServerSendStep(old(View())).Some?
      ensures View() == if moved then ServerSendStep(old(View())).value else old(View())
    {
      hide Executed, Deliver;
      moved := server.io.qp.sq != [] && server.io.qp.sq[0].Send? && CanReceive(client.io.View());
      if moved {
        var r := server.io.qp.sq[0];
        client.Receive(server.sendBuf, r.imm);
        server.io.Execute(SendDone(r.wrId));
      }
    }

    /** The connection manager reports. */
    method Report() returns (moved: bool)
      requires client.io != server.io
      modifies this`work, client`cmEvents, server`cmEvents
      ensures moved == CmReportStep(old(View())).Some?
      ensures View() == if moved then CmReportStep(old(View())).value else old(View())
    {
      moved := true;
      match work {
        case NoWork => return false;
        case ResolveAddr =>
          client.cmEvents := client.cmEvents + [EvAddrResolved];
          work := NoWork;
        case ResolveRoute =>
          client.cmEvents := client.cmEvents + [EvRouteResolved];
          work := NoWork;
        case ConnectReq =>
          server.cmEvents := server.cmEvents + [EvConnectRequest];
          work := NoWork;
        case AcceptReq =>
          client.cmEvents := client.cmEvents + [EvEstablished];
          work := ReadyToUse;
        case ReadyToUse =>
          server.cmEvents := server.cmEvents + [EvEstablished];
          work := NoWork;
      }
    }

    /** A step of any agent but the client's main thread, if it has one. */
    method Step(a: Agent) returns (moved: bool)
      requires client.io != server.io
      requires a != ClientMain
      modifies this, client, server, client.io, server.io
      ensures moved == Next(cfg, old(View()), a).Some?
      ensures View() == if moved then Next(cfg, old(View()), a).value else old(View())
    {
      hide ClientSendStep, ServerSendStep, CmReportStep, ClientCqStep, ServerCqStep, ServerStep, AckStep;
      hide ClientCmEvent, ServerCmEvent;
      match a {
        case ClientCm =>
          var route;
          moved, route := client.CmThread();
          if route { work := ResolveRoute; }
        case ClientCq => moved := client.CqThread();
        case ClientSend => moved := ClientAdapter();
        case ClientAck => moved := client.io.Acknowledge();
        case ServerMain =>
          var accept;
          moved, accept := server.MainThread(cfg);
          if accept { work := AcceptReq; }
        case ServerCm => moved := server.CmThread();
        case ServerCq => moved := server.CqThread();
        case ServerSend => moved := ServerAdapter();
        case ServerAck => moved := server.io.Acknowledge();
        case CmReport => moved := Report();
      }
    }

    // ------------------------------------------------------------------------ scheduling

    /** The main thread's own step, just taken on the fields. */
    lemma Stepped(w: World)
      requires Sound() && Reachable(cfg, w) && Next(cfg, w, ClientMain) == Some(View())
      ensures Valid() && Measure(cfg, View()) < Measure(cfg, w)
    {
      hide Next, Reachable, Measure;
      Advance(cfg, w, ClientMain);
    }

    /** Between two statements of the main thread: any number of steps of any other agents. */
    method Yield()
      requires Valid()
      modifies this, client, server, client.io, server.io
      ensures Valid() && client.pc == old(client.pc) && client.ops == old(client.ops)
      ensures Measure(cfg, View()) <= old(Measure(cfg, View()))
      ensures Undisturbed(client.pc, old(client.local), client.local)
    {
      hide Next, Reachable, Measure;
      while *
        invariant Valid() && client.pc == old(client.pc) && client.ops == old(client.ops)
        invariant Undisturbed(client.pc, old(client.local), client.local)
        invariant Measure(cfg, View()) <= old(Measure(cfg, View()))
        decreases Measure(cfg, View())
      {
        var a: Agent := *;
        if a == ClientMain { break; }
        ghost var w := View();
        var moved := Step(a);
        if !moved { break; }
        Advance(cfg, w, a);
        OthersKeepPc(cfg, w, a);
        OthersUndisturbed(cfg, w, a);
      }
    }

    /** One turn of a spin loop: some other agent steps. Which one is up to the scheduler; that it
        lets one step at all is assumed. */
    method Spin()
      requires Valid() && Spins(View())
      modifies this, client, server, client.io, server.io
      ensures Valid() && client.pc == old(client.pc) && client.ops == old(client.ops)
      ensures 0 <= Measure(cfg, View()) < old(Measure(cfg, View()))
      ensures Undisturbed(client.pc, old(client.local), client.local)
    {
      hide Next, Reachable, Measure, Final;
      SpinningIsNoStep(cfg, View());
      SomebodyElseCanStep(cfg, View());
      var a: Agent :| a != ClientMain && Next(cfg, View(), a).Some?;
      ghost var w := View();
      var moved := Step(a);
      Advance(cfg, w, a);
      OthersKeepPc(cfg, w, a);
      OthersUndisturbed(cfg, w, a);
    }

    // ----------------------------------------------------------------------------- start()

    /** start() returns, for every schedule, with the connection up and the first triple known. */
    method Start()
      requires Valid() && client.pc == Resolving
      modifies this, client, server, client.io, server.io
      ensures Valid() && client.pc == Idle && client.ops == old(client.ops)
      ensures client.state == CONNECTED && client.getRdmaAddr
      ensures client.local == old(client.local)
    {
      hide Reachable, Measure, Next, OpStep, StartStep, Sound;
      BindAddr();
      SetUp();
      AwaitConnected();
      SendTriple();
      AwaitFirst();
      Started();
    }

    /** while (state != CONNECTED) */
    method AwaitConnected()
      requires Valid() && client.pc == WaitConnected
      modifies this, client, server, client.io, server.io
      ensures Valid() && client.pc == WaitConnected && client.ops == old(client.ops) && client.state == CONNECTED
      ensures client.local == old(client.local)
    {
      hide Reachable, Measure, Next, OpStep, StartStep, Sound;
      while client.state != CONNECTED
        invariant Valid() && client.pc == WaitConnected && client.ops == old(client.ops)
        invariant client.local == old(client.local)
        decreases Measure(cfg, View())
      {
        Spin();
      }
    }

    /** while (GET_RDMA_ADDR == false) */
    method AwaitFirst()
      requires Valid() && client.pc == WaitRdmaAddr
      modifies this, client, server, client.io, server.io
      ensures Valid() && client.pc == WaitRdmaAddr && client.ops == old(client.ops) && client.getRdmaAddr
      ensures client.local == old(client.local)
    {
      hide Reachable, Measure, Next, OpStep, StartStep, Sound;
      while !client.getRdmaAddr
        invariant Valid() && client.pc == WaitRdmaAddr && client.ops == old(client.ops)
        invariant client.local == old(client.local)
        decreases Measure(cfg, View())
      {
        Spin();
      }
    }

    /** bindaddr(): the route is resolved. */
    method BindAddr()
      requires Valid() && client.pc == Resolving
      modifies this, client, server, client.io, server.io
      ensures Valid() && client.pc == Resolving && client.ops == old(client.ops) && client.state == ROUTE_RESOLVED
      ensures client.local == old(client.local)
    {
      hide Reachable, Measure, Next, OpStep, StartStep;
      while client.state != ROUTE_RESOLVED
        invariant Valid() && client.pc == Resolving && client.ops == old(client.ops)
        invariant client.local == old(client.local)
        decreases Measure(cfg, View())
      {
        Spin();
      }
    }

    /** start()'s statement of this position has just been executed on the fields. */
    lemma SteppedStart(w: World)
      requires Sound() && Reachable(cfg, w)
      requires StartStep(cfg, w.c) == Some(client.View()) && server.View() == w.s
      requires work == if w.c.pc.Connecting? then ConnectReq else w.work
      ensures Valid() && Measure(cfg, View()) < Measure(cfg, w)
    {
      hide Next, Reachable, Measure, StartStep;
      NextInStart(cfg, w);
      Stepped(w);
    }

    /** start() is left. */
    method Started()
      requires Valid() && client.pc == WaitRdmaAddr && client.getRdmaAddr
      modifies client`pc
      ensures Valid() && client.pc == Idle && client.state == CONNECTED
    {
      hide Reachable, Measure, Next, Encode;
      ghost var w := View();
      client.pc := Idle;
      SteppedStart(w);
      ConnectedFrom(cfg, View());
    }

    /** The completion queue, the queue pair, the first receive, the CQ thread; then connect. */
    method SetUp()
      requires Valid() && client.pc == Resolving && client.state == ROUTE_RESOLVED
      modifies this, client, server, client.io, server.io
      ensures Valid() && client.pc == WaitConnected && client.ops == old(client.ops)
      ensures client.local == old(client.local)
    {
      hide Reachable, Measure, Next, Encode;
      ghost var w := View();
      client.pc := Setup;
      SteppedStart(w);
      Yield();
      w := View();
      client.io.Start();
      client.pc := Connecting;
      SteppedStart(w);
      Yield();
      w := View();
      work := ConnectReq;
      client.pc := WaitConnected;
      SteppedStart(w);
    }

    /** send_buf is filled with the client's own triple and posted. */
    method SendTriple()
      requires Valid() && client.pc == WaitConnected && client.state == CONNECTED
      modifies this, client, server, client.io, server.io
      ensures Valid() && client.pc == WaitRdmaAddr && client.ops == old(client.ops)
      ensures client.local == old(client.local)
    {
      hide Reachable, Measure, Next, Encode, StartStep;
      FillTriple();
      Yield();
      PostTriple();
    }

    method FillTriple()
      requires Valid() && client.pc == WaitConnected && client.state == CONNECTED
      modifies this, client, server, client.io, server.io
      ensures Valid() && client.pc.PostTriple? && client.ops == old(client.ops)
      ensures client.local == old(client.local)
    {
      hide Reachable, Measure, Next, Encode, View, Sound;
      NoteConnected();
      Yield();
      FillBuffer();
    }

    method FillBuffer()
      requires Valid() && client.pc == FillSend
      modifies client`sendBuf, client`pc
      ensures Valid() && client.pc.PostTriple?
    {
      hide Reachable, Measure, Next, Encode;
      ghost var w := View();
      client.sendBuf := Encode(cfg.clientStart);
      client.pc := ClientPc.PostTriple;
      SteppedStart(w);
    }

    method NoteConnected()
      requires Valid() && client.pc == WaitConnected && client.state == CONNECTED
      modifies client`pc
      ensures Valid() && client.pc == FillSend
    {
      hide Reachable, Measure, Next, Encode;
      ghost var w := View();
      client.pc := FillSend;
      SteppedStart(w);
    }

    method PostTriple()
      requires Valid() && client.pc.PostTriple?
      modifies client, client.io
      ensures Valid() && client.pc == WaitRdmaAddr && client.ops == old(client.ops)
      ensures client.local == old(client.local)
    {
      hide Reachable, Measure, Next, Encode;
      ghost var w := View();
      client.PostOrExit(Send(0, []), WaitRdmaAddr);
      SteppedStart(w);
      NoErrors(cfg, View());
    }

    // ------------------------------------------------------------------------ operations

    /** An operation's statement has just been executed on the fields. */
    lemma SteppedOp(w: World)
      requires Sound() && Reachable(cfg, w) && InOperation(w.c.pc)
      requires OpStep(cfg, w.c) == Some(client.View()) && server.View() == w.s && work == w.work
      ensures Valid() && Measure(cfg, View()) < Measure(cfg, w)
      ensures !client.pc.Exit?
    {
      hide Next, Reachable, Measure, OpStep;
      NextInOp(cfg, w);
      Stepped(w);
      NoErrors(cfg, View());
    }

    /** ibv_post_send of the current operation's request. */
    method PostCurrent(op: Op, i: nat)
      requires Valid() && client.pc == Post(op, i)
      modifies client, client.io
      ensures Valid() && client.pc == (if op.RdmaWrite? then ClientPc.Spin(op, i) else Count(op, i))
      ensures client.ops == old(client.ops)
      ensures client.local == old(client.local)
    {
      hide Reachable, Measure, Request;
      ghost var w := View();
      var next := if op.RdmaWrite? then ClientPc.Spin(op, i) else Count(op, i);
      client.PostOrExit(Request(client.View().known, client.wr, op, i), next);
      SteppedOp(w);
    }

    /** pendingReads++ */
    method CountRead(op: Op, i: nat)
      requires Valid() && client.pc == Count(op, i)
      modifies client, client.io
      ensures Valid() && client.pc == (if op.OwRead? then ClientPc.Spin(op, i) else Wait(op))
      ensures client.ops == old(client.ops)
      ensures client.local == old(client.local)
    {
      hide Reachable, Measure, Request;
      ghost var w := View();
      client.pendingReads := client.pendingReads + 1;
      client.pc := if op.OwRead? then ClientPc.Spin(op, i) else Wait(op);
      SteppedOp(w);
    }

    /** A read is posted, then counted. */
    method PostAndCount(op: Op, i: nat)
      requires Valid() && client.pc == Post(op, i) && !op.RdmaWrite?
      modifies this, client, server, client.io, server.io
      ensures Valid() && client.pc == (if op.OwRead? then ClientPc.Spin(op, i) else Wait(op))
      ensures client.ops == old(client.ops) && KeptBut(op, old(client.local), client.local)
    {
      hide Reachable, Measure, OpStep, Sound, View, Writes;
      Yield();
      PostCurrent(op, i);
      Yield();
      CountRead(op, i);
    }

    /** while (pendingReads > 0) */
    method AwaitReads(op: Op)
      requires Valid() && client.pc == Wait(op)
      modifies this, client, server, client.io, server.io
      ensures Valid() && client.pc == Return(op) && client.ops == old(client.ops)
      ensures KeptBut(op, old(client.local), client.local)
    {
      hide Reachable, Measure, OpStep;
      while client.pendingReads > 0
        invariant Valid() && client.pc == Wait(op) && client.ops == old(client.ops)
        invariant KeptBut(op, old(client.local), client.local)
        decreases Measure(cfg, View())
      {
        Spin();
      }
      Waited(op);
    }

    method Waited(op: Op)
      requires Valid() && client.pc == Wait(op) && client.pendingReads <= 0
      modifies client`pc
      ensures Valid() && client.pc == Return(op)
    {
      hide Reachable, Measure, Request;
      ghost var w := View();
      client.pc := Return(op);
      SteppedOp(w);
    }

    /** The operation returns to main. */
    method Leave(op: Op)
      requires Valid() && client.pc == Return(op) && client.ops != []
      modifies client`pc, client`ops
      ensures Valid() && client.pc == Idle && client.ops == old(client.ops)[1..]
    {
      hide Reachable, Measure, Request;
      ghost var w := View();
      client.ops := client.ops[1..];
      client.pc := Idle;
      SteppedOp(w);
    }

    /** Main is about to call `op`. */
    ghost predicate Calls(op: Op)
      reads this, client, server, client.io, server.io
    {
      Valid() && client.pc == Idle && client.ops != [] && client.ops[0] == op
    }

    method RdmaRead()
      requires Calls(Op.RdmaRead)
      modifies this, client, server, client.io, server.io
      ensures Valid() && client.pc == Idle && client.ops == old(client.ops)[1..]
      ensures |server.mem.start.bytes| <= |client.local.rdma|
      ensures client.local.rdma[..|server.mem.start.bytes|] == server.mem.start.bytes
      ensures client.local == old(client.local).(rdma := client.local.rdma)
    {
      hide Reachable, Measure, OpStep;
      ReadAndWait(Op.RdmaRead);
      RdmaReadCorrect(cfg, View());
      OnlyIts(Op.RdmaRead, old(client.local), client.local);
      Leave(Op.RdmaRead);
    }

    /** rdma_read and read_class up to their return: post, count, wait. */
    method ReadAndWait(op: Op)
      requires Calls(op) && (op.RdmaRead? || op.ReadClass?) && MayCall(client.View().known, op)
      modifies this, client, server, client.io, server.io
      ensures Valid() && client.pc == Return(op) && client.ops == old(client.ops)
      ensures KeptBut(op, old(client.local), client.local)
    {
      hide Reachable, Measure, OpStep, MayCall, Sound, Writes;
      BeginRead(op);
      PostAndCount(op, 0);
      AwaitReads(op);
    }

    /** rdma_read and read_class up to ibv_post_send. */
    method BeginRead(op: Op)
      requires Calls(op) && (op.RdmaRead? || op.ReadClass?) && MayCall(client.View().known, op)
      modifies client, client.io
      ensures Valid() && client.pc == Post(op, 0) && client.ops == old(client.ops)
      ensures client.local == old(client.local)
    {
      hide Reachable, Measure, Request;
      IdleHasAddress(cfg, View());
      ghost var w := View();
      client.readComplete := false;
      client.pc := Post(op, 0);
      SteppedOp(w);
    }

    method RdmaWrite()
      requires Calls(Op.RdmaWrite)
      modifies this, client, server, client.io, server.io
      ensures Valid() && client.pc == Idle && client.ops == old(client.ops)[1..]
      ensures |server.mem.start.bytes| <= |client.local.rdma|
      ensures client.local.rdma[..|server.mem.start.bytes|] == server.mem.start.bytes
      ensures forall i :: 0 <= i < |cfg.message| && i < |server.mem.start.bytes| ==>
                server.mem.start.bytes[i] == cfg.message[i]
      ensures client.local == old(client.local).(rdma := client.local.rdma)
    {
      hide Reachable, Measure, OpStep;
      WriteAndWait();
      RdmaWriteCorrect(cfg, View());
      OnlyIts(Op.RdmaWrite, old(client.local), client.local);
      Leave(Op.RdmaWrite);
    }

    /** rdma_write up to its return: copy, post, wait. */
    method WriteAndWait()
      requires Calls(Op.RdmaWrite)
      modifies this, client, server, client.io, server.io
      ensures Valid() && client.pc == Return(Op.RdmaWrite) && client.ops == old(client.ops)
      ensures KeptBut(Op.RdmaWrite, old(client.local), client.local)
    {
      hide Reachable, Measure, OpStep, Sound;
      BeginWrite();
      Yield();
      PostCurrent(Op.RdmaWrite, 0);
      AwaitWrite();
    }

    /** while (RDMA_WRITE_COMPLETE == false) */
    method AwaitWrite()
      requires Valid() && client.pc == ClientPc.Spin(Op.RdmaWrite, 0)
      modifies this, client, server, client.io, server.io
      ensures Valid() && client.pc == Return(Op.RdmaWrite) && client.ops == old(client.ops)
      ensures KeptBut(Op.RdmaWrite, old(client.local), client.local)
    {
      hide Reachable, Measure, OpStep, Sound;
      while !client.writeComplete
        invariant Valid() && client.pc == ClientPc.Spin(Op.RdmaWrite, 0) && client.ops == old(client.ops)
        invariant KeptBut(Op.RdmaWrite, old(client.local), client.local)
        decreases Measure(cfg, View())
      {
        Spin();
      }
      Written();
    }

    /** The flag is cleared and the message copied. */
    method BeginWrite()
      requires Calls(Op.RdmaWrite)
      modifies client, client.io
      ensures Valid() && client.pc == Post(Op.RdmaWrite, 0) && client.ops == old(client.ops)
      ensures KeptBut(Op.RdmaWrite, old(client.local), client.local)
    {
      hide Reachable, Measure, Request;
      IdleHasAddress(cfg, View());
      ghost var w := View();
      client.writeComplete := false;
      client.local := client.local.(rdma := Put(client.local.rdma, 0, cfg.message));
      client.pc := Post(Op.RdmaWrite, 0);
      SteppedOp(w);
    }

    method Written()
      requires Valid() && client.pc == ClientPc.Spin(Op.RdmaWrite, 0) && client.writeComplete
      modifies client`pc
      ensures Valid() && client.pc == Return(Op.RdmaWrite)
    {
      hide Reachable, Measure, Request;
      ghost var w := View();
      client.pc := Return(Op.RdmaWrite);
      SteppedOp(w);
    }

    /** read_class, and the object its caller sees. If it, or an operation before it, waited for
        GET_SKETCH_ADDR, that has the server's words, and is the server's in full exactly when the
        data buffer already had the elements beyond the first 100. Otherwise its words are the
        server's up to some word, and from there what was in the server's buffer before. */
    method ReadClass(waitSketch: bool) returns (r: ClassTransfer.Received)
      requires Calls(Op.ReadClass(waitSketch)) && client.getClassAddr && (waitSketch ==> client.getSketchAddr)
      modifies this, client, server, client.io, server.io
      ensures Valid() && client.pc == Idle && client.ops == old(client.ops)[1..]
      ensures waitSketch || Delayed(cfg.ops, Returned(cfg.ops, old(client.ops))) ==>
                && r.size == cfg.obj.size && r.a == cfg.obj.a && r.b == cfg.obj.b
                && (Agrees(r, cfg.obj) <==> TailHolds(cfg.local.classBuf, cfg.obj))
      ensures !waitSketch && !Delayed(cfg.ops, Returned(cfg.ops, old(client.ops))) ==>
                exists j :: 0 <= j <= CopiedWords(cfg.obj) && SeesFirst(cfg, client.local, j)
      ensures |client.local.classData| >= HEADER_SIZE
      ensures r == Reconstruct(client.local.classData, client.local.classBuf)
      ensures client.local
              == old(client.local).(classData := client.local.classData, classBuf := client.local.classBuf)
    {
      hide Reachable, Measure, OpStep, Agrees, TailHolds, SeesFirst, Delayed, Completable;
      var op := Op.ReadClass(waitSketch);
      ReadAndWait(op);
      ClassBuffers(cfg, View());
      if Informed(cfg, client.pc, client.ops) { ReadClassCorrect(cfg, View()); } else { ReadClassWords(cfg, View()); }
      r := Reconstruct(client.local.classData, client.local.classBuf);
      OnlyIts(op, old(client.local), client.local);
      Leave(op);
    }

    /** ow_read: for every schedule it returns; and if it, or an operation before it, waited for
        GET_SKETCH_ADDR, every slot then holds the server's element. */
    method OwRead(waitSketch: bool)
      requires Calls(Op.OwRead(waitSketch)) && (waitSketch ==> client.getSketchAddr)
      modifies this, client, server, client.io, server.io
      ensures Valid() && client.pc == Idle && client.ops == old(client.ops)[1..]
      ensures waitSketch || Delayed(cfg.ops, Returned(cfg.ops, old(client.ops))) ==>
                && client.local.sketch == server.mem.sketch.bytes
                && forall k :: 0 <= k < cfg.n ==>
                     4 * k + 4 <= |client.local.sketch| && WordAt(client.local.sketch, 4 * k) == k
      ensures client.local == old(client.local).(sketch := client.local.sketch)
    {
      hide Reachable, Measure, OpStep, Delayed, Completable;
      var op := Op.OwRead(waitSketch);
      ReadAllElements(op);
      if Informed(cfg, client.pc, client.ops) { OwReadCorrect(cfg, View()); }
      OnlyIts(op, old(client.local), client.local);
      Leave(op);
    }

    /** ow_read up to its return: the loop and the final wait. */
    method ReadAllElements(op: Op)
      requires op.OwRead? && Calls(op) && MayCall(client.View().known, op)
      modifies this, client, server, client.io, server.io
      ensures Valid() && client.pc == Return(op) && client.ops == old(client.ops)
      ensures KeptBut(op, old(client.local), client.local)
    {
      hide Reachable, Measure, OpStep, Sound, MayCall;
      BeginSketch(op);
      ReadLoop(op);
      AwaitReads(op);
    }

    /** for (i = 0; i < data_size; i++) */
    method ReadLoop(op: Op)
      requires op.OwRead? && Valid() && client.pc == Loop(op, 0)
      modifies this, client, server, client.io, server.io
      ensures Valid() && client.pc == Wait(op) && client.ops == old(client.ops)
      ensures KeptBut(op, old(client.local), client.local)
    {
      hide Reachable, Measure, Sound, View;
      var i := 0;
      while i < cfg.n
        invariant i <= cfg.n && Valid() && client.pc == Loop(op, i) && client.ops == old(client.ops)
        invariant KeptBut(op, old(client.local), client.local)
      {
        ReadElement(op, i);
        i := i + 1;
      }
      EndLoop(op, i);
    }

    /** pendingReads = 0 */
    method BeginSketch(op: Op)
      requires op.OwRead? && Calls(op) && MayCall(client.View().known, op)
      modifies client, client.io
      ensures Valid() && client.pc == Loop(op, 0) && client.ops == old(client.ops)
      ensures client.local == old(client.local)
    {
      hide Reachable, Measure, Request;
      ghost var w := View();
      client.pendingReads := 0;
      client.pc := Loop(op, 0);
      SteppedOp(w);
    }

    /** One turn: clear the flag, post element i's read, count it, wait for the flag. */
    method ReadElement(op: Op, i: nat)
      requires op.OwRead? && Valid() && client.pc == Loop(op, i) && i < cfg.n
      modifies this, client, server, client.io, server.io
      ensures Valid() && client.pc == Loop(op, i + 1) && client.ops == old(client.ops)
      ensures KeptBut(op, old(client.local), client.local)
    {
      hide Reachable, Measure, OpStep;
      PostElement(op, i);
      while !client.readComplete
        invariant Valid() && client.pc == ClientPc.Spin(op, i) && client.ops == old(client.ops)
        invariant KeptBut(op, old(client.local), client.local)
        decreases Measure(cfg, View())
      {
        Spin();
      }
      NextElement(op, i);
    }

    method PostElement(op: Op, i: nat)
      requires op.OwRead? && Valid() && client.pc == Loop(op, i) && i < cfg.n
      modifies this, client, server, client.io, server.io
      ensures Valid() && client.pc == ClientPc.Spin(op, i) && client.ops == old(client.ops)
      ensures KeptBut(op, old(client.local), client.local)
    {
      hide Reachable, Measure, OpStep, Sound, View, Writes;
      Yield();
      ClearReadFlag(op, i);
      Yield();
      FillTarget(op, i);
      PostAndCount(op, i);
    }

    method ClearReadFlag(op: Op, i: nat)
      requires op.OwRead? && Valid() && client.pc == Loop(op, i) && i < cfg.n
      modifies client, client.io
      ensures Valid() && client.pc == Address(op, i) && client.ops == old(client.ops)
      ensures client.local == old(client.local)
    {
      hide Reachable, Measure, Request;
      ghost var w := View();
      client.readComplete := false;
      client.pc := Address(op, i);
      SteppedOp(w);
    }

    /** The element's address, then the key, go into the work request. */
    method FillTarget(op: Op, i: nat)
      requires op.OwRead? && Valid() && client.pc == Address(op, i)
      modifies this, client, server, client.io, server.io
      ensures Valid() && client.pc == Post(op, i) && client.ops == old(client.ops)
      ensures KeptBut(op, old(client.local), client.local)
    {
      hide Reachable, Measure, Request, Sound;
      ReadAddress(op, i);
      Yield();
      ReadKey(op, i);
    }

    method ReadAddress(op: Op, i: nat)
      requires op.OwRead? && Valid() && client.pc == Address(op, i)
      modifies client
      ensures Valid() && client.pc == Key(op, i) && client.ops == old(client.ops)
      ensures client.local == old(client.local)
    {
      hide Reachable, Measure, Request, Sound;
      ghost var w := View();
      client.wr := client.wr.(addr := ElementAddress(client.sketchInfo.addr, i));
      client.pc := Key(op, i);
      SteppedOp(w);
    }

    method ReadKey(op: Op, i: nat)
      requires op.OwRead? && Valid() && client.pc == Key(op, i)
      modifies client
      ensures Valid() && client.pc == Post(op, i) && client.ops == old(client.ops)
      ensures client.local == old(client.local)
    {
      hide Reachable, Measure, Request, Sound;
      ghost var w := View();
      client.wr := client.wr.(rkey := client.sketchInfo.rkey);
      client.pc := Post(op, i);
      SteppedOp(w);
    }

    method NextElement(op: Op, i: nat)
      requires op.OwRead? && Valid() && client.pc == ClientPc.Spin(op, i) && client.readComplete
      modifies client`pc
      ensures Valid() && client.pc == Loop(op, i + 1)
    {
      hide Reachable, Measure, Request;
      ghost var w := View();
      client.pc := Loop(op, i + 1);
      SteppedOp(w);
    }

    method EndLoop(op: Op, i: nat)
      requires op.OwRead? && Valid() && client.pc == Loop(op, i) && i >= cfg.n
      modifies client`pc
      ensures Valid() && client.pc == Wait(op)
    {
      hide Reachable, Measure, Request;
      ghost var w := View();
      client.pc := Wait(op);
      SteppedOp(w);
    }

    // ---------------------------------------------------------------------- the whole run

    /** The client's main: start(), then every operation of the program, each once what it needs
        has arrived; and then, main being idle, the rest of the system comes to its final state. */
    method RunProgram()
      requires Valid() && client.pc == Resolving
      modifies this, client, server, client.io, server.io
      ensures Valid() && Final(View())
    {
      hide Reachable, Measure, OpStep, StartStep, Next;
      Start();
      while client.ops != []
        invariant Valid() && client.pc == Idle
        decreases |client.ops|
      {
        Yield();
        RunNext();
      }
      while !Final(View())
        invariant Valid() && client.pc == Idle && client.ops == []
        decreases Measure(cfg, View())
      {
        Settle();
      }
    }

    /** Wait until the next operation may be called, and call it. */
    method RunNext()
      requires Valid() && client.pc == Idle && client.ops != []
      modifies this, client, server, client.io, server.io
      ensures Valid() && client.pc == Idle && client.ops == old(client.ops)[1..]
    {
      hide Reachable, Measure, OpStep, StartStep, Next;
      while !MayCall(client.View().known, client.ops[0])
        invariant Valid() && client.pc == Idle && client.ops == old(client.ops)
        decreases Measure(cfg, View())
      {
        Spin();
      }
      match client.ops[0] {
        case RdmaRead => RdmaRead();
        case RdmaWrite => RdmaWrite();
        case ReadClass(waitSketch) => var _ := ReadClass(waitSketch);
        case OwRead(waitSketch) => OwRead(waitSketch);
      }
    }

    /** One step of the others while main is idle for good. */
    method Settle()
      requires Valid() && client.pc == Idle && client.ops == [] && !Final(View())
      modifies this, client, server, client.io, server.io
      ensures Valid() && client.pc == Idle && client.ops == []
      ensures 0 <= Measure(cfg, View()) < old(Measure(cfg, View()))
    {
      hide Next, Reachable, Measure, Final;
      IdleIsNoStep(cfg, View());
      SomebodyElseCanStep(cfg, View());
      var a: Agent :| a != ClientMain && Next(cfg, View(), a).Some?;
      ghost var w := View();
      var moved := Step(a);
      Advance(cfg, w, a);
      OthersKeepPc(cfg, w, a);
    }
  }

  lemma IdleIsNoStep(cfg: Config, w: World)
    requires w.c.pc == Idle && w.c.ops == []
    ensures Next(cfg, w, ClientMain).None?
  {
    hide Request, Encode;
  }

  lemma IdleHasAddress(cfg: Config, w: World)
    requires ValidConfig(cfg) && Reachable(cfg, w) && w.c.pc == Idle
    ensures w.c.known.getRdmaAddr && |cfg.message| <= |w.c.local.rdma|
  {
    hide Inv, Reachable, MemInv, DataInv;
    ReachableInv(cfg, w);
    InvData(cfg, w);
  }

  lemma ClassBuffers(cfg: Config, w: World)
    requires ValidConfig(cfg) && Reachable(cfg, w)
    ensures |w.c.local.classData| >= HEADER_SIZE
  {
    hide Inv, Reachable, MemInv, DataInv;
    ReachableInv(cfg, w);
    InvData(cfg, w);
  }

  lemma ConnectedFrom(cfg: Config, w: World)
    requires ValidConfig(cfg) && Reachable(cfg, w) && w.c.pc == Idle
    ensures w.c.state == CONNECTED
  {
    hide Inv, Reachable;
    ReachableInv(cfg, w);
    InvConn(cfg, w);
  }
}
