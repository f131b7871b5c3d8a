/** A whole cluster: every node's memory and disk, and a network that may lose, repeat, delay and
    reorder. A run is any sequence of steps of any nodes, including crashes between cycles. */
module RaftCluster {
  import opened Types
  import opened Quorum
  import opened RaftLog
  import opened RaftNode
  import opened RaftDriver

  /** `net` holds everything ever sent; a message that is never delivered is lost. `peak` is history:
      the highest commit index any node has held so far. It is noted with each read that begins, and
      nothing else depends on it. */
  datatype Cluster = Cluster(mem: map<NodeId, Raft>, disk: map<NodeId, Disk>, net: set<Packet>, peak: nat)

  datatype Action =
    | Ticks(n: NodeId, draw: nat)
    | Delivery(p: Packet, draw: nat)
    | Proposal(n: NodeId, data: Bytes)
    | Read(n: NodeId)
    | Transfer(n: NodeId, target: NodeId)
    | Resign(n: NodeId)
    | Work(n: NodeId, keep: nat)
    | Crash(n: NodeId)

  function Actor(a: Action): NodeId {
    if a.Delivery? then a.p.dst else a.n
  }

  predicate Enabled(s: Cluster, a: Action) {
    && Actor(a) in s.mem && Actor(a) in s.disk
    && (a.Delivery? ==> a.p in s.net)
  }

  /** What an input makes of the node that takes it. */
  function Handle(env: Env, s: Cluster, m: Raft, a: Action): Raft {
    match a
    case Ticks(_, draw) => Tick(env, m, draw)
    case Delivery(p, draw) => Step(env, m, p.src, p.msg, draw)
    case Proposal(_, data) => Propose(env, m, data)
    case Read(_) => ReadIndex(env, m, s.peak)
    case Transfer(_, target) => TransferLeadership(env, m, target)
    case Resign(_) => StepDown(m)
    case _ => m
  }

  function Moved(s: Cluster, n: NodeId, m: Raft): Cluster {
    s.(mem := s.mem[n := m], peak := Max(s.peak, m.commit))
  }

  function Next(env: Env, s: Cluster, a: Action): Cluster
    requires Enabled(s, a)
  {
    var n := Actor(a);
    match a
    case Work(_, keep) =>
      (match Cycle(env, s.mem[n], s.disk[n], keep)
       case None => s
       case Some(c) => Moved(s, n, c.m).(disk := s.disk[n := c.d], net := s.net + set p | p in c.sent))
    case Crash(_) => Moved(s, n, Restart(env, n, s.disk[n]))
    case _ => Moved(s, n, Handle(env, s, s.mem[n], a))
  }

  /** The entries a step hands to the state machine. */
  function HandedOut(env: Env, s: Cluster, a: Action): seq<Entry>
    requires Enabled(s, a)
  {
    if !a.Work? then []
    else match Cycle(env, s.mem[a.n], s.disk[a.n], a.keep)
      case None => []
      case Some(c) => c.committed
  }

  /** The reads a step answers. */
  function Answers(env: Env, s: Cluster, a: Action): seq<ReadState>
    requires Enabled(s, a)
  {
    if !a.Work? then []
    else match Cycle(env, s.mem[a.n], s.disk[a.n], a.keep)
      case None => []
      case Some(c) => c.confirmed
  }

  /** Every node of the configuration, started on a blank disk. */
  function Initial(env: Env): Cluster {
    Cluster(map n | n in env.cfg.AllNodes() :: Restart(env, n, BlankDisk()),
            map n | n in env.cfg.AllNodes() :: BlankDisk(), {}, 0)
  }

  ghost predicate StepAt(env: Env, ss: seq<Cluster>, acts: seq<Action>, i: nat) {
    i < |acts| && i + 1 < |ss| && Enabled(ss[i], acts[i]) && ss[i + 1] == Next(env, ss[i], acts[i])
  }

  ghost predicate IsRun(env: Env, ss: seq<Cluster>, acts: seq<Action>) {
    && |ss| == |acts| + 1 && ss[0] == Initial(env)
    && forall i {:trigger StepAt(env, ss, acts, i)} :: 0 <= i < |acts| ==> StepAt(env, ss, acts, i)
  }
}
