/** A run, step by step, from start-up to the second advertisement: GET_CLASS_ADDR can be seen
    before the server has copied the class. */
module Witnesses {
  import opened Bytes
  import opened Verbs
  import opened Rendezvous
  import opened Preservation
  import opened Guarantees

  lemma Extend(cfg: Config, w: World, a: Agent) returns (v: World)
    requires Reachable(cfg, w) && Next(cfg, w, a).Some?
    ensures v == Next(cfg, w, a).value && Reachable(cfg, v)
  {
    hide Next, Run;
    var agents :| Run(cfg, agents) == Some(w);
    RunSnoc(cfg, agents, a);
    v := Next(cfg, w, a).value;
  }

  lemma InitReachable(cfg: Config)
    ensures Reachable(cfg, Init(cfg))
  {
    hide Init;
    assert Run(cfg, []) == Some(Init(cfg));
  }

  /** The route is resolved and the client has asked to connect. */
  function AtConnect(cfg: Config): World {
    World(InitClient(cfg).(state := ROUTE_RESOLVED, pc := WaitConnected, io := StartIo()), InitServer(cfg), ConnectReq)
  }

  lemma ReachConnect(cfg: Config) returns (w: World)
    ensures Reachable(cfg, w) && w == AtConnect(cfg)
  {
    hide Be;
    InitReachable(cfg);
    w := Extend(cfg, Init(cfg), CmReport);
    w := Extend(cfg, w, ClientCm);
    w := Extend(cfg, w, CmReport);
    w := Extend(cfg, w, ClientCm);
    w := Extend(cfg, w, ClientMain);
    w := Extend(cfg, w, ClientMain);
    w := Extend(cfg, w, ClientMain);
  }

  /** Both hosts know they are connected; neither has sent. */
  function AtConnected(cfg: Config): World {
    World(InitClient(cfg).(state := CONNECTED, pc := WaitConnected, io := StartIo()),
          InitServer(cfg).(state := SERVER_CONNECTED, pc := WaitState, io := StartIo()), NoWork)
  }

  lemma ReachConnected(cfg: Config) returns (w: World)
    ensures Reachable(cfg, w) && w == AtConnected(cfg)
  {
    hide Be, Reachable;
    w := ReachConnect(cfg);
    w := Extend(cfg, w, CmReport);
    w := Extend(cfg, w, ServerCm);
    w := Extend(cfg, w, ServerMain);
    w := Extend(cfg, w, ServerMain);
    w := Extend(cfg, w, ServerMain);
    w := Extend(cfg, w, CmReport);
    w := Extend(cfg, w, CmReport);
    w := Extend(cfg, w, ClientCm);
    w := Extend(cfg, w, ServerCm);
  }

  /** The client's triple is in the server's receive buffer. */
  function AtSent(cfg: Config): World {
    var w := AtConnected(cfg);
    w.(c := w.c.(pc := WaitRdmaAddr, sendBuf := Encode(cfg.clientStart),
                 io := Io(QueuePair(1, [], [SendDone(0)]), CompletionQueue(true, 0, []), Waiting)),
       s := w.s.(recvBuf := Encode(cfg.clientStart),
                 io := Io(QueuePair(0, [], []), CompletionQueue(false, 1, [RecvDone(INFO_SIZE, [])]), Waiting)))
  }

  lemma ReachSent(cfg: Config) returns (w: World)
    ensures Reachable(cfg, w) && w == AtSent(cfg)
  {
    hide Be, Encode, Reachable;
    w := ReachConnected(cfg);
    w := Extend(cfg, w, ClientMain);
    w := Extend(cfg, w, ClientMain);
    w := Extend(cfg, w, ClientMain);
    w := Extend(cfg, w, ClientSend);
  }

  /** The server has the client's triple and is about to send its first. */
  function AtTriple(cfg: Config): World {
    var w := AtSent(cfg);
    w.(s := w.s.(pc := Fill(0), peer := Peer(true, cfg.clientStart),
                 io := Io(QueuePair(0, [], []), CompletionQueue(true, 0, []), Draining)))
  }

  lemma ReachTriple(cfg: Config) returns (w: World)
    ensures Reachable(cfg, w) && w == AtTriple(cfg)
  {
    hide Be, Encode, Decode, Reachable;
    w := ReachSent(cfg);
    WireRoundTrip(cfg.clientStart, Encode(cfg.clientStart));
    w := Extend(cfg, w, ServerCq);
    w := Extend(cfg, w, ServerCq);
    w := Extend(cfg, w, ServerCq);
    w := Extend(cfg, w, ServerCq);
    w := Extend(cfg, w, ServerCq);
    w := Extend(cfg, w, ServerMain);
    w := Extend(cfg, w, ServerMain);
  }

  /** The first advertisement has been delivered and stored. */
  function AtFirst(cfg: Config): World
    requires |cfg.mem.start.bytes| < TWO_32 && cfg.n < TWO_32
  {
    var w := AtTriple(cfg);
    var t := AdvertOf(cfg.mem, cfg.n, 0);
    w.(s := w.s.(pc := WaitSent(0), sendBuf := Encode(t),
                 io := Io(QueuePair(0, [], [SendDone(0)]), CompletionQueue(true, 0, []), Draining)),
       c := w.c.(recvBuf := Encode(t), known := w.c.known.(getRdmaAddr := true, remote := t),
                 io := Io(QueuePair(1, [], [SendDone(0)]), CompletionQueue(true, 0, []), Draining)))
  }

  /** The first advertisement is in the client's receive buffer. */
  lemma FirstArrives(cfg: Config) returns (w: World)
    requires ValidConfig(cfg)
    ensures Reachable(cfg, w)
    ensures var v := AtFirst(cfg);
            w == v.(c := AtTriple(cfg).c.(recvBuf := v.s.sendBuf,
                         io := Io(QueuePair(0, [], [SendDone(0)]),
                                  CompletionQueue(false, 1, [RecvDone(INFO_SIZE, Be(4, RDMA_IMM))]), Waiting)))
  {
    hide Be, FromBe, Encode, Decode, Reachable, AdvertOf;
    w := ReachTriple(cfg);
    w := Extend(cfg, w, ServerMain);
    w := Extend(cfg, w, ServerMain);
    w := Extend(cfg, w, ServerSend);
  }

  lemma ReachFirst(cfg: Config) returns (w: World)
    requires ValidConfig(cfg)
    ensures Reachable(cfg, w) && w == AtFirst(cfg)
  {
    hide Be, FromBe, Encode, Decode, Reachable, AdvertOf;
    w := FirstArrives(cfg);
    var t := AdvertOf(cfg.mem, cfg.n, 0);
    WireRoundTrip(t, Encode(t));
    ImmediateRoundTrip(0);
    w := Extend(cfg, w, ClientCq);
    w := Extend(cfg, w, ClientCq);
    w := Extend(cfg, w, ClientCq);
    w := Extend(cfg, w, ClientCq);
    w := Extend(cfg, w, ClientCq);
    w := Extend(cfg, w, ClientCq);
    w := Extend(cfg, w, ClientCq);
  }

  /** The class advertisement has been delivered and stored; the class has not been copied. */
  function AtSecond(cfg: Config): World
    requires |cfg.mem.start.bytes| < TWO_32 && cfg.n < TWO_32
  {
    var w := AtFirst(cfg);
    var t := AdvertOf(cfg.mem, cfg.n, 1);
    w.(s := w.s.(pc := CopyClass(0), sendBuf := Encode(t), sent := Sent(true, false, false),
                 io := Io(QueuePair(0, [], [SendDone(CLASS_IMM)]), CompletionQueue(false, 1, []), Draining)),
       c := w.c.(pc := Idle, recvBuf := Encode(t), known := w.c.known.(getClassAddr := true, classInfo := t),
                 io := Io(QueuePair(1, [], [SendDone(0)]), CompletionQueue(false, 1, []), Draining)))
  }

  /** The first advertisement is acknowledged, the second about to be posted. */
  lemma SecondPosted(cfg: Config) returns (w: World)
    requires ValidConfig(cfg)
    ensures Reachable(cfg, w)
    ensures var v := AtSecond(cfg);
            w == World(AtFirst(cfg).c,
                       v.s.(pc := PostAdvert(1),
                            io := Io(QueuePair(0, [], []), CompletionQueue(false, 1, []), Draining)),
                       NoWork)
  {
    hide Be, FromBe, Encode, Decode, Reachable, AdvertOf;
    w := ReachFirst(cfg);
    w := Extend(cfg, w, ServerAck);
    w := Extend(cfg, w, ServerCq);
    w := Extend(cfg, w, ServerCq);
    w := Extend(cfg, w, ServerMain);
    w := Extend(cfg, w, ServerMain);
  }

  lemma SecondArrives(cfg: Config, w0: World) returns (w: World)
    requires ValidConfig(cfg) && Reachable(cfg, w0)
    requires var v := AtSecond(cfg);
             w0 == v.(c := AtFirst(cfg).c.(recvBuf := Encode(AdvertOf(cfg.mem, cfg.n, 1)),
                          io := Io(QueuePair(0, [], [SendDone(0)]),
                                   CompletionQueue(false, 1, [RecvDone(INFO_SIZE, Be(4, CLASS_IMM))]), Draining)))
    ensures Reachable(cfg, w) && w == AtSecond(cfg)
  {
    hide Be, FromBe, Encode, Decode, Reachable, AdvertOf;
    var t := AdvertOf(cfg.mem, cfg.n, 1);
    WireRoundTrip(t, Encode(t));
    ImmediateRoundTrip(1);
    w := Extend(cfg, w0, ClientCq);
    w := Extend(cfg, w, ClientCq);
    w := Extend(cfg, w, ClientCq);
    w := Extend(cfg, w, ClientCq);
    w := Extend(cfg, w, ClientCq);
    w := Extend(cfg, w, ClientMain);
  }

  lemma ReachSecond(cfg: Config) returns (w: World)
    requires ValidConfig(cfg)
    ensures Reachable(cfg, w) && w == AtSecond(cfg)
  {
    hide Be, FromBe, Encode, Decode, Reachable, AdvertOf;
    w := SecondPosted(cfg);
    w := Extend(cfg, w, ServerMain);
    w := Extend(cfg, w, ServerSend);
    w := SecondArrives(cfg, w);
  }

  /** GET_CLASS_ADDR does not imply that the class is in server memory: in every configuration
      some run shows it set with nothing copied. */
  lemma ClassFlagIsEarly(cfg: Config)
    requires ValidConfig(cfg)
    ensures exists w :: Reachable(cfg, w) && w.c.known.getClassAddr && w.s.mem == cfg.mem
  {
    hide Reachable, Encode, AdvertOf;
    var w := ReachSecond(cfg);
  }
}
