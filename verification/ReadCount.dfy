/** How many reads a run posts: the program says, not the schedule. */
module ReadCount {
  import opened Bytes
  import opened Rendezvous
  import opened Invariants
  import opened Preservation
  import opened Termination
  import opened Guarantees
  import opened Frames

  /** The reads an operation posts in all: ow_read one for each element. */
  function ReadsOf(n: nat, op: Op): nat {
    match op
    case RdmaRead => 1
    case RdmaWrite => 0
    case ReadClass(_) => 1
    case OwRead(_) => n
  }

  /** The first `p` operations together. */
  function ReadsBefore(n: nat, ops: seq<Op>, p: nat): nat
    requires p <= |ops|
  {
    if p == 0 then 0 else ReadsBefore(n, ops, p - 1) + ReadsOf(n, ops[p - 1])
  }

  /** What the current operation has posted so far. */
  function SoFar(n: nat, pc: ClientPc): nat {
    match pc
    case Loop(_, i) => i
    case Address(_, i) => i
    case Key(_, i) => i
    case Post(op, i) => if op.OwRead? then i else 0
    case Count(op, i) => if op.OwRead? then i + 1 else ReadsOf(n, op)
    case Spin(op, i) => if op.OwRead? then i + 1 else ReadsOf(n, op)
    case Wait(op) => ReadsOf(n, op)
    case Return(op) => ReadsOf(n, op)
    case _ => 0
  }

  function PostedReads(cfg: Config, w: World): nat
    requires |w.c.ops| <= |cfg.ops|
  {
    ReadsBefore(cfg.n, cfg.ops, Returned(cfg.ops, w.c.ops)) + SoFar(cfg.n, w.c.pc)
  }

  lemma MainPosts(cfg: Config, w: World)
    requires ValidConfig(cfg) && Reachable(cfg, w) && Next(cfg, w, ClientMain).Some? && InOperation(w.c.pc)
    requires |w.c.ops| <= |cfg.ops| && (w.c.ops != [] ==> cfg.ops[Returned(cfg.ops, w.c.ops)] == w.c.ops[0])
    ensures var v := Next(cfg, w, ClientMain).value;
            && |v.c.ops| <= |cfg.ops|
            && PostedReads(cfg, v) == PostedReads(cfg, w) + Bit(Happens(ReadPosted, w, ClientMain))
  {
    hide Reachable, Inv, HostQueues, Reads, Request, ElementAddress, ReadsBefore, Put, MayCall, PostRequest;
    ReachableInv(cfg, w);
    InvQueues(cfg, w);
    if w.c.pc.Post? { NotFull(cfg, w); }
    if w.c.pc.Return? { OneMoreOp(cfg.n, cfg.ops, Returned(cfg.ops, w.c.ops)); }
  }

  lemma NotFull(cfg: Config, w: World)
    requires ValidConfig(cfg) && Reachable(cfg, w) && w.c.pc.Post?
    ensures OpStep(cfg, w.c) == Some(Posted(w.c))
  {
    hide Reachable, Inv, HostQueues, Reads, PcInv, OpStep;
    ReachableInv(cfg, w);
    InvQueues(cfg, w);
    PostSucceeds(cfg, w.c);
  }

  lemma OneMoreOp(n: nat, ops: seq<Op>, p: nat)
    requires p < |ops|
    ensures ReadsBefore(n, ops, p + 1) == ReadsBefore(n, ops, p) + ReadsOf(n, ops[p])
  {
  }

  lemma StartPosts(cfg: Config, w: World)
    requires Next(cfg, w, ClientMain).Some? && !InOperation(w.c.pc) && |w.c.ops| <= |cfg.ops|
    ensures var v := Next(cfg, w, ClientMain).value;
            && v.c.ops == w.c.ops && SoFar(cfg.n, v.c.pc) == SoFar(cfg.n, w.c.pc) == 0
            && !Happens(ReadPosted, w, ClientMain)
  {
    hide Encode;
  }

  lemma StepPosts(cfg: Config, w: World, a: Agent)
    requires ValidConfig(cfg) && Reachable(cfg, w) && Next(cfg, w, a).Some? && |w.c.ops| <= |cfg.ops|
    ensures var v := Next(cfg, w, a).value;
            |v.c.ops| <= |cfg.ops| && PostedReads(cfg, v) == PostedReads(cfg, w) + Bit(Happens(ReadPosted, w, a))
  {
    hide Reachable, Next, ReadsBefore, SoFar;
    if a != ClientMain {
      OthersKeepPc(cfg, w, a);
    } else if InOperation(w.c.pc) {
      if w.c.ops != [] { Position(cfg, w); }
      MainPosts(cfg, w);
    } else {
      StartPosts(cfg, w);
    }
  }

  /** In every run the reads posted are those of the operations that have returned and of the
      current one so far. */
  lemma {:induction false} ReadsAreTheProgram(cfg: Config, agents: seq<Agent>)
    requires ValidConfig(cfg) && Run(cfg, agents).Some?
    ensures |Run(cfg, agents).value.c.ops| <= |cfg.ops|
    ensures Times(cfg, agents, ReadPosted) == PostedReads(cfg, Run(cfg, agents).value)
  {
    hide Next, PostedReads, Happens;
    if agents == [] {
      NothingPosted(cfg);
    } else {
      var front := agents[..|agents| - 1];
      ReadsAreTheProgram(cfg, front);
      assert Reachable(cfg, Run(cfg, front).value);
      StepPosts(cfg, Run(cfg, front).value, agents[|agents| - 1]);
    }
  }

  lemma NothingPosted(cfg: Config)
    ensures |Init(cfg).c.ops| <= |cfg.ops| && PostedReads(cfg, Init(cfg)) == 0
  {
    hide Encode;
  }

  /** A finished run has posted every read of the program, and each has been polled, counted and
      counted down. */
  lemma FinishedReads(cfg: Config, agents: seq<Agent>)
    requires ValidConfig(cfg) && Run(cfg, agents).Some? && Final(Run(cfg, agents).value)
    ensures Times(cfg, agents, ReadPosted) == ReadsBefore(cfg.n, cfg.ops, |cfg.ops|)
    ensures Times(cfg, agents, ReadPolled) == Times(cfg, agents, ReadPosted)
    ensures Times(cfg, agents, ReadCounted) == Times(cfg, agents, ReadDecremented)
  {
    hide Run, Times, ReadsBefore, Reachable, Unflagged;
    var w := Run(cfg, agents).value;
    ReadsAreTheProgram(cfg, agents);
    Conservation(cfg, agents);
    assert Reachable(cfg, w) by { IsReachable(cfg, agents); }
    PendingReadsRange(cfg, w);
  }

  lemma IsReachable(cfg: Config, agents: seq<Agent>)
    requires Run(cfg, agents).Some?
    ensures Reachable(cfg, Run(cfg, agents).value)
  {
    hide Run;
  }
}
