/** Requests, completions and messages stay in order: nothing on the way from ibv_post_send to
    ibv_poll_cq is lost, doubled or overtaken. */
module Order {
  import opened Bytes
  import opened Verbs
  import opened Rendezvous
  import opened Invariants
  import opened Guarantees
  import opened Termination
  import opened Frames

  datatype Host = OnClient | OnServer

  function Other(h: Host): Host { if h == OnClient then OnServer else OnClient }
  function IoOf(w: World, h: Host): Io { if h == OnClient then w.c.io else w.s.io }
  function MainOf(h: Host): Agent { if h == OnClient then ClientMain else ServerMain }
  function CqOf(h: Host): Agent { if h == OnClient then ClientCq else ServerCq }
  function SendOf(h: Host): Agent { if h == OnClient then ClientSend else ServerSend }
  function AckOf(h: Host): Agent { if h == OnClient then ClientAck else ServerAck }

  /** The completion a request must end in. */
  function Answer(r: WorkRequest): Completion {
    match r
    case Send(wrId, _) => SendDone(wrId)
    case Read(_, _, _) => ReadDone
    case Write(_, _, _) => WriteDone
  }

  function Answers(rs: seq<WorkRequest>): seq<Completion> {
    if rs == [] then [] else [Answer(rs[0])] + Answers(rs[1..])
  }

  /** The completions of a host's own requests, in order; and the immediates of the messages it
      received. */
  function Replies(cs: seq<Completion>): seq<Completion> {
    if cs == [] then [] else (if cs[0].RecvDone? then [] else [cs[0]]) + Replies(cs[1..])
  }
  function Messages(cs: seq<Completion>): seq<seq<Byte>> {
    if cs == [] then [] else (if cs[0].RecvDone? then [cs[0].imm] else []) + Messages(cs[1..])
  }

  /** The immediates of the sends among some requests. */
  function Sends(rs: seq<WorkRequest>): seq<seq<Byte>> {
    if rs == [] then [] else (if rs[0].Send? then [rs[0].imm] else []) + Sends(rs[1..])
  }

  // ---------------------------------------------------------------------- what a run has done

  /** What a step of main has added to its host's send queue. */
  function NewRequests(w: World, a: Agent, v: World, h: Host): seq<WorkRequest> {
    var sq, sq' := IoOf(w, h).qp.sq, IoOf(v, h).qp.sq;
    if a == MainOf(h) && |sq| < |sq'| then sq'[|sq|..] else []
  }

  /** What a step of the CQ thread has polled. */
  function NewPolls(w: World, a: Agent, v: World, h: Host): seq<Completion> {
    var pc, pc' := IoOf(w, h).thread, IoOf(v, h).thread;
    if a == CqOf(h) && pc.Draining? && pc'.Handle? then [pc'.wc] else []
  }

  /** Everything a host has posted in a run, and everything it has polled. */
  function Posted(cfg: Config, agents: seq<Agent>, h: Host): seq<WorkRequest>
    requires Run(cfg, agents).Some?
  {
    if agents == [] then []
    else
      var front, a := agents[..|agents| - 1], agents[|agents| - 1];
      Posted(cfg, front, h) + NewRequests(Run(cfg, front).value, a, Run(cfg, agents).value, h)
  }

  function Polled(cfg: Config, agents: seq<Agent>, h: Host): seq<Completion>
    requires Run(cfg, agents).Some?
  {
    if agents == [] then []
    else
      var front, a := agents[..|agents| - 1], agents[|agents| - 1];
      Polled(cfg, front, h) + NewPolls(Run(cfg, front).value, a, Run(cfg, agents).value, h)
  }

  /** What is between post and poll: completions queued, completions to come, requests. */
  function Pipe(io: Io): seq<Completion> {
    Replies(io.cq.queue) + (io.qp.acked + Answers(io.qp.sq))
  }

  /** And between one host's post and the other's poll: messages received, sends not yet executed. */
  function Channel(from: Io, to: Io): seq<seq<Byte>> {
    Messages(to.cq.queue) + Sends(from.qp.sq)
  }

  // ------------------------------------------------------------------------------- one step

  lemma SplitFirst<T>(a: seq<T>, b: seq<T>)
    requires a != []
    ensures a == [a[0]] + a[1..] && a + b == [a[0]] + (a[1..] + b)
  {
  }

  lemma Joined<T>(a: seq<T>, b: seq<T>, c: seq<T>)
    ensures a + (b + c) == a + b + c
  {
  }

  lemma AnswersFirst(r: WorkRequest, rest: seq<WorkRequest>)
    ensures Answers([r] + rest) == [Answer(r)] + Answers(rest)
  {
    assert ([r] + rest)[1..] == rest;
  }

  lemma {:induction false} AnswersConcat(a: seq<WorkRequest>, b: seq<WorkRequest>)
    ensures Answers(a + b) == Answers(a) + Answers(b)
  {
    if a == [] {
      assert a + b == b;
    } else {
      hide Answers;
      var r, rest := a[0], a[1..];
      AnswersConcat(rest, b);
      SplitFirst(a, b);
      AnswersFirst(r, rest);
      AnswersFirst(r, rest + b);
      Joined([Answer(r)], Answers(rest), Answers(b));
    }
  }

  lemma SendsFirst(r: WorkRequest, rest: seq<WorkRequest>)
    ensures Sends([r] + rest) == (if r.Send? then [r.imm] else []) + Sends(rest)
  {
    assert ([r] + rest)[1..] == rest;
  }

  lemma {:induction false} SendsConcat(a: seq<WorkRequest>, b: seq<WorkRequest>)
    ensures Sends(a + b) == Sends(a) + Sends(b)
  {
    if a == [] {
      assert a + b == b;
    } else {
      hide Sends;
      var r, rest := a[0], a[1..];
      SendsConcat(rest, b);
      SplitFirst(a, b);
      SendsFirst(r, rest);
      SendsFirst(r, rest + b);
      Joined(if r.Send? then [r.imm] else [], Sends(rest), Sends(b));
    }
  }

  lemma RepliesFirst(c: Completion, rest: seq<Completion>)
    ensures Replies([c] + rest) == (if c.RecvDone? then [] else [c]) + Replies(rest)
  {
    assert ([c] + rest)[1..] == rest;
  }

  lemma {:induction false} RepliesConcat(a: seq<Completion>, b: seq<Completion>)
    ensures Replies(a + b) == Replies(a) + Replies(b)
  {
    if a == [] {
      assert a + b == b;
    } else {
      hide Replies;
      var c, rest := a[0], a[1..];
      RepliesConcat(rest, b);
      SplitFirst(a, b);
      RepliesFirst(c, rest);
      RepliesFirst(c, rest + b);
      Joined(if c.RecvDone? then [] else [c], Replies(rest), Replies(b));
    }
  }

  lemma MessagesFirst(c: Completion, rest: seq<Completion>)
    ensures Messages([c] + rest) == (if c.RecvDone? then [c.imm] else []) + Messages(rest)
  {
    assert ([c] + rest)[1..] == rest;
  }

  lemma {:induction false} MessagesConcat(a: seq<Completion>, b: seq<Completion>)
    ensures Messages(a + b) == Messages(a) + Messages(b)
  {
    if a == [] {
      assert a + b == b;
    } else {
      hide Messages;
      var c, rest := a[0], a[1..];
      MessagesConcat(rest, b);
      SplitFirst(a, b);
      MessagesFirst(c, rest);
      MessagesFirst(c, rest + b);
      Joined(if c.RecvDone? then [c.imm] else [], Messages(rest), Messages(b));
    }
  }

  /** `d` is posted and `p` polled as `io` becomes `io'`, in order. */
  ghost predicate Flows(io: Io, io': Io, d: seq<WorkRequest>, p: seq<Completion>) {
    Replies(p) + Pipe(io') == Pipe(io) + Answers(d)
  }

  lemma PostFlows(io: Io, r: WorkRequest)
    ensures Flows(io, PostSend(io, r), [r], [])
    ensures Sends(PostSend(io, r).qp.sq) == Sends(io.qp.sq) + Sends([r])
  {
    AnswersConcat(io.qp.sq, [r]);
    SendsConcat(io.qp.sq, [r]);
  }

  lemma ExecuteFlows(io: Io)
    requires io.qp.sq != []
    ensures Flows(io, Executed(io, Answer(io.qp.sq[0])), [], [])
    ensures Sends(io.qp.sq) == (if io.qp.sq[0].Send? then [io.qp.sq[0].imm] else []) + Sends(io.qp.sq[1..])
  {
  }

  lemma AckFlows(io: Io)
    requires AckStep(io).Some? && !io.qp.acked[0].RecvDone?
    ensures Flows(io, AckStep(io).value, [], [])
    ensures Messages(AckStep(io).value.cq.queue) == Messages(io.cq.queue)
  {
    var c := io.qp.acked[0];
    RepliesConcat(io.cq.queue, [c]);
    MessagesConcat(io.cq.queue, [c]);
    assert io.qp.acked == [c] + io.qp.acked[1..];
    assert Replies([c]) == [c] && Messages([c]) == [];
  }

  lemma ArriveFlows(io: Io, len: nat, imm: seq<Byte>)
    requires io.qp.recvs > 0
    ensures Flows(io, Deliver(io, len, imm), [], [])
    ensures Messages(Deliver(io, len, imm).cq.queue) == Messages(io.cq.queue) + [imm]
  {
    var c := RecvDone(len, imm);
    RepliesConcat(io.cq.queue, [c]);
    MessagesConcat(io.cq.queue, [c]);
    assert Replies([c]) == [] && Messages([c]) == [imm];
  }

  lemma LoopFlows(io: Io)
    requires LoopStep(io).Some?
    ensures var io' := LoopStep(io).value;
            var p := if io.thread.Draining? && io'.thread.Handle? then [io'.thread.wc] else [];
            && Flows(io, io', [], p) && io'.qp == io.qp
            && Messages(p) + Messages(io'.cq.queue) == Messages(io.cq.queue)
  {
    var q := io.cq.queue;
    if io.thread.Draining? && q != [] {
      RepliesConcat([q[0]], q[1..]);
      MessagesConcat([q[0]], q[1..]);
      assert q == [q[0]] + q[1..];
    }
  }

  lemma Nothing()
    ensures Answers([]) == [] && Sends([]) == [] && Replies([]) == [] && Messages([]) == []
  {
  }

  /** Nothing enters or leaves. */
  lemma StillFlows(io: Io, io': Io)
    requires io'.qp.sq == io.qp.sq && io'.qp.acked == io.qp.acked && io'.cq.queue == io.cq.queue
    ensures Flows(io, io', [], []) && Messages(io'.cq.queue) == Messages(io.cq.queue)
  {
  }

  /** Each step moves what is in a host's pipe, and what is on its way to it from its peer, forward
      and in order. */
  ghost predicate InStep(w: World, a: Agent, v: World, h: Host) {
    && Flows(IoOf(w, h), IoOf(v, h), NewRequests(w, a, v, h), NewPolls(w, a, v, h))
    && Messages(NewPolls(w, a, v, h)) + Channel(IoOf(v, Other(h)), IoOf(v, h))
       == Channel(IoOf(w, Other(h)), IoOf(w, h)) + Sends(NewRequests(w, a, v, Other(h)))
  }

  /** What main does to its host: nothing, a post, or the start. */
  ghost predicate MainMoves(io: Io, io': Io) {
    || io' == io
    || (exists r :: io' == PostSend(io, r))
    || (io.qp == NO_QP && io.cq == NO_CQ && io' == StartIo())
  }

  lemma ClientMainMoves(cfg: Config, w: World)
    requires ValidConfig(cfg) && Reachable(cfg, w) && Next(cfg, w, ClientMain).Some?
    ensures var v := Next(cfg, w, ClientMain).value; v.s.io == w.s.io && MainMoves(w.c.io, v.c.io)
  {
    hide Reachable, Inv, Reads, PcInv, Request, Encode, Put, ElementAddress;
    ReachableInv(cfg, w);
    InvQueues(cfg, w);
  }

  lemma ServerMainMoves(cfg: Config, w: World)
    requires ValidConfig(cfg) && Reachable(cfg, w) && Next(cfg, w, ServerMain).Some?
    ensures var v := Next(cfg, w, ServerMain).value; v.c.io == w.c.io && MainMoves(w.s.io, v.s.io)
  {
    hide Reachable, Inv, Reads, PcInv, Encode, AdvertOf, Be, Le, StoreAt;
    ReachableInv(cfg, w);
    InvQueues(cfg, w);
  }

  lemma MainFlows(w: World, v: World, h: Host, g: Host)
    requires IoOf(v, Other(h)) == IoOf(w, Other(h)) && MainMoves(IoOf(w, h), IoOf(v, h))
    ensures InStep(w, MainOf(h), v, g)
  {
    hide Flows, Answers, Sends, Replies, Messages;
    Nothing();
    var io, io' := IoOf(w, h), IoOf(v, h);
    StillFlows(IoOf(w, Other(h)), IoOf(w, Other(h)));
    if r :| io' == PostSend(io, r) {
      assert NewRequests(w, MainOf(h), v, h) == [r];
      PostFlows(io, r);
    } else {
      StillFlows(io, io');
    }
  }

  lemma CqFlows(w: World, v: World, h: Host, g: Host)
    requires IoOf(v, Other(h)) == IoOf(w, Other(h))
    requires LoopStep(IoOf(w, h)) == Some(IoOf(v, h))
             || (!IoOf(w, h).thread.Draining? && IoOf(v, h).cq == IoOf(w, h).cq
                 && IoOf(v, h).qp.sq == IoOf(w, h).qp.sq && IoOf(v, h).qp.acked == IoOf(w, h).qp.acked)
    ensures InStep(w, CqOf(h), v, g)
  {
    hide LoopStep, Flows, Answers, Sends, Replies, Messages;
    Nothing();
    StillFlows(IoOf(w, Other(h)), IoOf(w, Other(h)));
    if LoopStep(IoOf(w, h)) == Some(IoOf(v, h)) {
      LoopFlows(IoOf(w, h));
    } else {
      StillFlows(IoOf(w, h), IoOf(v, h));
    }
  }

  lemma AckStepFlows(w: World, v: World, h: Host, g: Host)
    requires IoOf(v, Other(h)) == IoOf(w, Other(h))
    requires AckStep(IoOf(w, h)) == Some(IoOf(v, h)) && !IoOf(w, h).qp.acked[0].RecvDone?
    ensures InStep(w, AckOf(h), v, g)
  {
    hide AddCompletion, Flows, Answers, Sends, Replies, Messages;
    Nothing();
    StillFlows(IoOf(w, Other(h)), IoOf(w, Other(h)));
    AckFlows(IoOf(w, h));
  }

  /** What an adapter's turn does to its own host, and to the other. */
  ghost predicate Transfers(io: Io, io': Io, peer: Io, peer': Io) {
    && io.qp.sq != [] && io' == Executed(io, Answer(io.qp.sq[0]))
    && (match io.qp.sq[0]
        case Send(_, imm) => peer.qp.recvs > 0 && exists len: nat :: peer' == Deliver(peer, len, imm)
        case _ => peer' == peer)
  }

  lemma SendFlows(w: World, v: World, h: Host, g: Host)
    requires Transfers(IoOf(w, h), IoOf(v, h), IoOf(w, Other(h)), IoOf(v, Other(h)))
    ensures InStep(w, SendOf(h), v, g)
  {
    hide Flows, Answers, Sends, Replies, Messages;
    Nothing();
    var io, peer := IoOf(w, h), IoOf(w, Other(h));
    ExecuteFlows(io);
    match io.qp.sq[0] {
      case Send(_, imm) =>
        var len: nat :| IoOf(v, Other(h)) == Deliver(peer, len, imm);
        ArriveFlows(peer, len, imm);
      case _ => StillFlows(peer, peer);
    }
  }

  lemma AdapterMoves(cfg: Config, w: World, h: Host)
    requires Next(cfg, w, SendOf(h)).Some?
    ensures var v := Next(cfg, w, SendOf(h)).value;
            Transfers(IoOf(w, h), IoOf(v, h), IoOf(w, Other(h)), IoOf(v, Other(h)))
  {
    hide ReadInto, WriteFrom, Executed, Deliver;
    var v := Next(cfg, w, SendOf(h)).value;
    var r, len := IoOf(w, h).qp.sq[0], if h == OnClient then |w.c.sendBuf| else |w.s.sendBuf|;
    assert r.Send? ==> IoOf(v, Other(h)) == Deliver(IoOf(w, Other(h)), len, r.imm);
  }

  lemma CqMoves(cfg: Config, w: World, h: Host)
    requires Next(cfg, w, CqOf(h)).Some?
    ensures var v := Next(cfg, w, CqOf(h)).value; var io, io' := IoOf(w, h), IoOf(v, h);
            && IoOf(v, Other(h)) == IoOf(w, Other(h))
            && (LoopStep(io) == Some(io')
                || (!io.thread.Draining? && io'.cq == io.cq && io'.qp.sq == io.qp.sq && io'.qp.acked == io.qp.acked))
  {
    hide Decode, FromBe, StoreAddress, StoreRest, SetFlag, MarkSent, CqLoop;
  }

  lemma AckMovesOne(cfg: Config, w: World, h: Host)
    requires ValidConfig(cfg) && Reachable(cfg, w) && Next(cfg, w, AckOf(h)).Some?
    ensures var v := Next(cfg, w, AckOf(h)).value;
            && IoOf(v, Other(h)) == IoOf(w, Other(h)) && AckStep(IoOf(w, h)) == Some(IoOf(v, h))
            && !IoOf(w, h).qp.acked[0].RecvDone?
  {
    hide Reachable, Inv, Reads, PcInv;
    ReachableInv(cfg, w);
    InvQueues(cfg, w);
    assert IoOf(w, h).qp.acked[0] in IoOf(w, h).qp.acked;
  }

  lemma CmKeepsIo(cfg: Config, w: World, a: Agent)
    requires (a == ClientCm || a == ServerCm || a == CmReport) && Next(cfg, w, a).Some?
    ensures var v := Next(cfg, w, a).value; v.c.io == w.c.io && v.s.io == w.s.io
  {
  }

  lemma CmFlows(w: World, a: Agent, v: World, g: Host)
    requires (a == ClientCm || a == ServerCm || a == CmReport) && v.c.io == w.c.io && v.s.io == w.s.io
    ensures InStep(w, a, v, g)
  {
    hide Flows, Answers, Sends, Replies, Messages;
    Nothing();
    StillFlows(w.c.io, w.c.io);
    StillFlows(w.s.io, w.s.io);
  }

  lemma StepInOrder(cfg: Config, w: World, a: Agent, g: Host)
    requires ValidConfig(cfg) && Reachable(cfg, w) && Next(cfg, w, a).Some?
    ensures InStep(w, a, Next(cfg, w, a).value, g)
  {
    hide Reachable, Next, InStep, MainMoves, Transfers, LoopStep, AckStep;
    var v := Next(cfg, w, a).value;
    match a
    case ClientMain => ClientMainMoves(cfg, w); MainFlows(w, v, OnClient, g);
    case ServerMain => ServerMainMoves(cfg, w); MainFlows(w, v, OnServer, g);
    case ClientCq => CqMoves(cfg, w, OnClient); CqFlows(w, v, OnClient, g);
    case ServerCq => CqMoves(cfg, w, OnServer); CqFlows(w, v, OnServer, g);
    case ClientSend => AdapterMoves(cfg, w, OnClient); SendFlows(w, v, OnClient, g);
    case ServerSend => AdapterMoves(cfg, w, OnServer); SendFlows(w, v, OnServer, g);
    case ClientAck => AckMovesOne(cfg, w, OnClient); AckStepFlows(w, v, OnClient, g);
    case ServerAck => AckMovesOne(cfg, w, OnServer); AckStepFlows(w, v, OnServer, g);
    case _ => CmKeepsIo(cfg, w, a); CmFlows(w, a, v, g);
  }

  // ---------------------------------------------------------------------------- whole runs

  /** On either host, what has been polled, is queued, or is still to come is exactly the answers to
      the requests posted, in the order of posting; and what has been received, is queued or is still
      to be sent by the peer is exactly the peer's messages, in their order. */
  lemma {:induction false} InOrder(cfg: Config, agents: seq<Agent>, h: Host)
    requires ValidConfig(cfg) && Run(cfg, agents).Some?
    ensures var w := Run(cfg, agents).value;
            && Replies(Polled(cfg, agents, h)) + Pipe(IoOf(w, h)) == Answers(Posted(cfg, agents, h))
            && Messages(Polled(cfg, agents, h)) + Channel(IoOf(w, Other(h)), IoOf(w, h))
               == Sends(Posted(cfg, agents, Other(h)))
  {
    hide Next, Init, InStep, Pipe, Channel, Answers, Sends, Replies, Messages, NewRequests, NewPolls;
    if agents == [] {
      StartsEmpty(cfg, h);
    } else {
      var front, a := agents[..|agents| - 1], agents[|agents| - 1];
      var w, v := Run(cfg, front).value, Run(cfg, agents).value;
      InOrder(cfg, front, h);
      assert Reachable(cfg, w);
      StepInOrder(cfg, w, a, h);
      Extends(w, a, v, h, Posted(cfg, front, h), Posted(cfg, front, Other(h)), Polled(cfg, front, h));
    }
  }

  lemma StartsEmpty(cfg: Config, h: Host)
    ensures Replies([]) + Pipe(IoOf(Init(cfg), h)) == Answers([])
    ensures Messages([]) + Channel(IoOf(Init(cfg), Other(h)), IoOf(Init(cfg), h)) == Sends([])
  {
    hide Be;
  }

  lemma Extends(w: World, a: Agent, v: World, h: Host, posted: seq<WorkRequest>, others: seq<WorkRequest>,
                polled: seq<Completion>)
    requires InStep(w, a, v, h)
    requires Replies(polled) + Pipe(IoOf(w, h)) == Answers(posted)
    requires Messages(polled) + Channel(IoOf(w, Other(h)), IoOf(w, h)) == Sends(others)
    ensures Replies(polled + NewPolls(w, a, v, h)) + Pipe(IoOf(v, h)) == Answers(posted + NewRequests(w, a, v, h))
    ensures Messages(polled + NewPolls(w, a, v, h)) + Channel(IoOf(v, Other(h)), IoOf(v, h))
            == Sends(others + NewRequests(w, a, v, Other(h)))
  {
    hide Pipe, Channel, Answers, Sends, Replies, Messages, NewRequests, NewPolls;
    RepliesConcat(polled, NewPolls(w, a, v, h));
    MessagesConcat(polled, NewPolls(w, a, v, h));
    AnswersConcat(posted, NewRequests(w, a, v, h));
    SendsConcat(others, NewRequests(w, a, v, Other(h)));
    Along(Replies(polled), Pipe(IoOf(w, h)), Replies(NewPolls(w, a, v, h)), Pipe(IoOf(v, h)),
          Answers(NewRequests(w, a, v, h)));
    Along(Messages(polled), Channel(IoOf(w, Other(h)), IoOf(w, h)), Messages(NewPolls(w, a, v, h)),
          Channel(IoOf(v, Other(h)), IoOf(v, h)), Sends(NewRequests(w, a, v, Other(h))));
  }

  lemma Along<T>(out: seq<T>, pipe: seq<T>, more: seq<T>, pipe': seq<T>, added: seq<T>)
    requires more + pipe' == pipe + added
    ensures out + more + pipe' == out + pipe + added
  {
    assert out + more + pipe' == out + (more + pipe') == out + (pipe + added);
  }

  /** So in a finished run each host has polled exactly one completion for each request it posted,
      in the order of posting, and received its peer's messages in theirs. */
  lemma FinishedInOrder(cfg: Config, agents: seq<Agent>, h: Host)
    requires ValidConfig(cfg) && Run(cfg, agents).Some? && Final(Run(cfg, agents).value)
    ensures Replies(Polled(cfg, agents, h)) == Answers(Posted(cfg, agents, h))
    ensures Messages(Polled(cfg, agents, h)) == Sends(Posted(cfg, agents, Other(h)))
  {
    hide Run, Posted, Polled;
    InOrder(cfg, agents, h);
  }

  // ------------------------------------------------------------------------ the advertisements

  /** The immediates of the three advertisements, 1122, 1123 and 1124, as they are on the wire. */
  const ADVERTISEMENTS: seq<seq<Byte>> := [[0, 0, 4, 98], [0, 0, 4, 99], [0, 0, 4, 100]]

  lemma ServerPosts(cfg: Config, w: World)
    requires ValidConfig(cfg) && Reachable(cfg, w) && Next(cfg, w, ServerMain).Some?
    ensures PostsNext(w, Next(cfg, w, ServerMain).value)
  {
    hide Next, Reachable, Inv, HostQueues, Reads, PcInv, PostsNext;
    ReachableInv(cfg, w);
    InvQueues(cfg, w);
    if w.s.pc == ServerSetup { StartQueue(w); }
    ReachesNext(cfg, w, ServerMain);
    NoErrors(cfg, Next(cfg, w, ServerMain).value);
    MainPostsNext(cfg, w);
  }

  /** Main goes one advertisement further exactly when it posts one. */
  ghost predicate PostsNext(w: World, v: World) {
    && Sends(NewRequests(w, ServerMain, v, OnServer))
       == (if w.s.pc.PostAdvert? then [Be(4, Immediate(w.s.pc.k))] else [])
    && AdvertsPosted(v.s.pc) == AdvertsPosted(w.s.pc) + (if w.s.pc.PostAdvert? then 1 else 0)
  }

  lemma MainPostsNext(cfg: Config, w: World)
    requires Next(cfg, w, ServerMain).Some? && Next(cfg, w, ServerMain).value.s.pc != ServerExit
    requires w.s.pc == ServerSetup ==> w.s.io.qp.sq == []
    ensures PostsNext(w, Next(cfg, w, ServerMain).value)
  {
    hide Encode, AdvertOf, Be, Le, StoreAt, Sends;
    Nothing();
    if w.s.pc.PostAdvert? {
      var v, r := Next(cfg, w, ServerMain).value, Send(WrId(w.s.pc.k), Be(4, Immediate(w.s.pc.k)));
      assert v.s.io == PostSend(w.s.io, r);
      assert NewRequests(w, ServerMain, v, OnServer) == [r];
      SendsFirst(r, []);
      assert [r] + [] == [r];
    }
  }

  lemma ReachesNext(cfg: Config, w: World, a: Agent)
    requires Reachable(cfg, w) && Next(cfg, w, a).Some?
    ensures Reachable(cfg, Next(cfg, w, a).value)
  {
    hide Next, Run;
    var agents :| Run(cfg, agents) == Some(w);
    RunSnoc(cfg, agents, a);
  }

  lemma StartQueue(w: World)
    requires HostQueues(ServerStarted(w.s.pc), w.s.io) && w.s.pc == ServerSetup
    ensures w.s.io.qp.sq == []
  {
  }

  lemma OthersPostNothing(cfg: Config, w: World, a: Agent)
    requires a != ServerMain && Next(cfg, w, a).Some?
    ensures var v := Next(cfg, w, a).value; v.s.pc == w.s.pc && NewRequests(w, a, v, OnServer) == []
  {
    hide Next;
    OwnFields(cfg, w, a);
  }

  lemma NextImmediate(k: Index)
    ensures ADVERTISEMENTS[..k + 1] == ADVERTISEMENTS[..k] + [Be(4, Immediate(k))]
  {
    WordBytesAre(1122); WordBytesAre(1123); WordBytesAre(1124);
  }

  lemma {:induction false} AdvertsPostedInOrder(cfg: Config, agents: seq<Agent>)
    requires ValidConfig(cfg) && Run(cfg, agents).Some?
    ensures Sends(Posted(cfg, agents, OnServer)) == ADVERTISEMENTS[..AdvertsPosted(Run(cfg, agents).value.s.pc)]
  {
    hide Next, Sends, NewRequests, AdvertsPosted, Be;
    Nothing();
    if agents == [] {
      NoneAdvertised(cfg);
    } else {
      var front, a := agents[..|agents| - 1], agents[|agents| - 1];
      var w, v := Run(cfg, front).value, Run(cfg, agents).value;
      AdvertsPostedInOrder(cfg, front);
      assert Reachable(cfg, w);
      SendsConcat(Posted(cfg, front, OnServer), NewRequests(w, a, v, OnServer));
      if a == ServerMain {
        ServerPosts(cfg, w);
        if w.s.pc.PostAdvert? { NextImmediate(w.s.pc.k); PostedBefore(w.s.pc); }
      } else {
        OthersPostNothing(cfg, w, a);
      }
    }
  }

  lemma PostedBefore(pc: ServerPc)
    ensures pc.PostAdvert? ==> AdvertsPosted(pc) == pc.k
  {
  }

  lemma NoneAdvertised(cfg: Config)
    ensures AdvertsPosted(Init(cfg).s.pc) == 0
  {
    hide Be;
  }

  /** What the client has polled of the server's messages, and what is on its way, are the first of
      the three advertisements in their order, as many as the server has posted. */
  lemma AdvertsArriveInOrder(cfg: Config, agents: seq<Agent>)
    requires ValidConfig(cfg) && Run(cfg, agents).Some?
    ensures var w := Run(cfg, agents).value;
            Messages(Polled(cfg, agents, OnClient)) + Channel(w.s.io, w.c.io)
            == ADVERTISEMENTS[..AdvertsPosted(w.s.pc)]
  {
    hide Run, Polled, Posted, Messages, Channel, Sends, AdvertsPosted;
    InOrder(cfg, agents, OnClient);
    AdvertsPostedInOrder(cfg, agents);
  }
}
