/** What can be traced back along a run: every command in a log to a proposal made before, and every
    answered read to the moment it began. */
module RaftTrace {
  import opened Types
  import opened Quorum
  import opened RaftLog
  import opened RaftNode
  import opened RaftDriver
  import opened RaftFrame
  import opened RaftHistory
  import opened RaftInvariant
  import opened RaftReady
  import opened RaftCluster
  import opened RaftSafety
  import opened RaftTheorems

  ghost function Proposals(acts: seq<Action>): set<Bytes> {
    set a | a in acts && a.Proposal? :: a.data
  }

  lemma ProposalsGrow(acts: seq<Action>, k: nat)
    requires k < |acts|
    ensures Proposals(acts[..k]) <= Proposals(acts[..k + 1])
    ensures acts[k].Proposal? ==> acts[k].data in Proposals(acts[..k + 1])
  {
    assert acts[..k + 1] == acts[..k] + [acts[k]];
    assert acts[k] in acts[..k + 1];
  }

  // ---- a cycle -----------------------------------------------------------------------------------

  /** A cycle applies exactly up to the commit index it started with. */
  lemma CycleApplies(env: Env, m: Raft, d: Disk, keep: nat)
    requires Watermarked(m, d) && VoteSaved(m, d) && m.log.base <= m.applied <= m.commit <= |m.log.full|
    requires Indexed(m.log.full)
    ensures Cycle(env, m, d, keep).Some?
    ensures var c := Cycle(env, m, d, keep).value;
            && c.m.applied == m.commit && c.m.log.full == m.log.full && c.m.out.snapshot == None
            && c.committed == m.log.full[m.applied..m.commit] && c.sent == m.out.messages
            && c.confirmed == m.out.confirmed
            && m.commit <= c.m.commit
  {
    hide Advance, Flush, Mirrors, TakeReady, ShipSnapshots, Housekeep, Watermarked, VoteSaved, Indexed, Cycle,
         RaftDriver.Settled;
    FlushMirrors(m, d);
    var (m1, d1) := Flush(m, d).value;
    var ready := TakeReady(m).1;
    ReadyCommitted(m);
    TakeReadyFrame(m);
    AdvanceApplies(env, m, m1);
    AdvanceSettles(env, m, d, m1, d1);
    AdvancedShape(env, m1, ready, d1);
    AdvanceReads(env, m1, ready);
    TakeReadyReads(m);
    var m2 := Advance(env, m1, ready);
    ShipFrame(m2);
    CycleIs(env, m, d, keep, m1, d1);
    HousekeepChoices(env, Cycled(ShipSnapshots(m2), d1, m.out.messages, ready.committed, m.out.confirmed), keep);
  }

  lemma AdvancedShape(env: Env, m: Raft, ready: Ready, d: Disk)
    requires RaftDriver.Settled(Advance(env, m, ready), d)
    ensures Advance(env, m, ready).log == m.log && Advance(env, m, ready).out.snapshot == None
  {
    hide Advance, Mirrors;
    AdvanceFrame(env, m, ready);
  }

  lemma AdvanceReads(env: Env, m: Raft, ready: Ready)
    ensures var m' := Advance(env, m, ready);
            m'.waiting == m.waiting && m'.readCtx == m.readCtx && m'.out == m.out && m.commit <= m'.commit
  {
    hide AdvanceIfLeader, CountOwn;
    var m1 := NoteSaved(m, ready);
    CountOwnReads(m1);
    AdvanceIfReads(env, CountOwn(m1));
  }

  lemma CountOwnReads(m: Raft)
    ensures var m' := CountOwn(m);
            m'.waiting == m.waiting && m'.readCtx == m.readCtx && m'.out == m.out && m'.commit == m.commit
  {
  }

  lemma AdvanceIfReads(env: Env, m: Raft)
    ensures var m' := AdvanceIfLeader(env, m);
            m'.waiting == m.waiting && m'.readCtx == m.readCtx && m'.out == m.out && m.commit <= m'.commit
  {
    hide QuorumIndex;
  }

  /** A cycle ships prefixes of the log. */
  lemma {:induction false} ShipSourced(known: set<Bytes>, m: Raft, peers: seq<NodeId>, image: Image)
    requires QueueSourced(known, m.out.messages) && Sourced(known, image.prefix)
    ensures QueueSourced(known, SendSnapshots(m, peers, image).out.messages)
    decreases |peers|
  {
    hide Sourced;
    if peers != [] { ShipSourced(known, SendSnapshot(m, peers[0], image), peers[1..], image); }
  }

  lemma ShippedSourced(known: set<Bytes>, m: Raft)
    requires QueueSourced(known, m.out.messages) && Sourced(known, m.log.full)
    ensures QueueSourced(known, ShipSnapshots(m).out.messages)
  {
    if m.role == Leader && SnapshotAtApplied(m).Some? {
      ShipSourced(known, m, Ascending(NeedSnapshot(m)), SnapshotAtApplied(m).value);
    }
  }

  /** What a cycle leaves in the node's queue comes from its log, and its reads are those it had. */
  lemma CycleGoes(known: set<Bytes>, env: Env, m: Raft, d: Disk, keep: nat)
    requires Watermarked(m, d) && VoteSaved(m, d) && m.log.base <= m.applied <= m.commit <= |m.log.full|
    requires Indexed(m.log.full)
    requires NodeSourced(known, m)
    ensures Cycle(env, m, d, keep).Some?
    ensures var c := Cycle(env, m, d, keep).value;
            && NodeSourced(known, c.m) && QueueSourced(known, c.sent) && Sourced(known, RecoveredLog(c.d).full)
            && c.m.readCtx == m.readCtx && InHand(c.m) <= InHand(m)
  {
    hide Advance, Flush, Mirrors, TakeReady, ShipSnapshots, Housekeep, Watermarked, VoteSaved, Indexed, Cycle,
         RaftDriver.Settled, Sourced, QueueSourced, RecoveredLog;
    CycleApplies(env, m, d, keep);
    CycleMirrors(env, m, d, keep);
    FlushMirrors(m, d);
    var (m1, d1) := Flush(m, d).value;
    var ready := TakeReady(m).1;
    TakeReadyFrame(m);
    TakeReadyReads(m);
    AdvanceReads(env, m1, ready);
    AdvanceSettles(env, m, d, m1, d1);
    AdvancedShape(env, m1, ready, d1);
    AdvanceApplies(env, m, m1);
    var m2 := Advance(env, m1, ready);
    NothingQueued(known);
    ShippedSourced(known, m2);
    ShipFrame(m2);
    CycleIs(env, m, d, keep, m1, d1);
    HousekeepChoices(env, Cycled(ShipSnapshots(m2), d1, m.out.messages, ready.committed, m.out.confirmed), keep);
  }

  lemma TakeReadyReads(m: Raft)
    ensures var m' := TakeReady(m).0; m'.waiting == m.waiting && m'.readCtx == m.readCtx && m'.out == EmptyOutbox()
    ensures m.commit <= |m.log.full| ==> TakeReady(m).0.commit == m.commit
  {
  }

  lemma NothingQueued(known: set<Bytes>)
    ensures QueueSourced(known, EmptyOutbox().messages)
  {
  }

  // ---- commands --------------------------------------------------------------------------------------

  ghost predicate ClusterSourced(known: set<Bytes>, s: Cluster) {
    && (forall n :: n in s.mem ==> NodeSourced(known, s.mem[n]))
    && (forall n :: n in s.disk ==> Sourced(known, RecoveredLog(s.disk[n]).full))
    && (forall p :: p in s.net ==> BodySourced(known, p.msg.body))
  }

  lemma SourcedMore(known: set<Bytes>, more: set<Bytes>, s: Cluster)
    requires ClusterSourced(known, s) && known <= more
    ensures ClusterSourced(more, s)
  {
    hide RecoveredLog;
    forall p | p in s.net
      ensures BodySourced(more, p.msg.body)
    {
      assert BodySourced(known, p.msg.body);
    }
    forall n | n in s.mem
      ensures NodeSourced(more, s.mem[n])
    {
      NodeSourcedMore(known, more, s.mem[n]);
    }
  }

  lemma NodeSourcedMore(known: set<Bytes>, more: set<Bytes>, m: Raft)
    requires NodeSourced(known, m) && known <= more
    ensures NodeSourced(more, m)
  {
    forall p | p in m.out.messages
      ensures BodySourced(more, p.msg.body)
    {
      assert BodySourced(known, p.msg.body);
    }
  }

  /** An input other than a read. */
  ghost predicate IsInput(a: Action) {
    !a.Read? && !a.Work? && !a.Crash?
  }

  lemma HandleGoes(known: set<Bytes>, env: Env, s: Cluster, m: Raft, a: Action)
    requires IsInput(a) && (a.Proposal? ==> a.data in known) && (a.Delivery? ==> BodySourced(known, a.p.msg.body))
    ensures Frames(known, m, Handle(env, s, m, a))
    ensures !(a.Delivery? && a.p.msg.body.AppendReq?) ==> m.commit <= Handle(env, s, m, a).commit
  {
    hide Tick, Step, Propose, TransferLeadership, StepDown, Frames, BodySourced;
    match a {
      case Ticks(_, draw) => TickGoes(known, env, m, draw);
      case Delivery(p, draw) => StepGoes(known, env, m, p.src, p.msg, draw);
      case Proposal(_, data) => ProposeGoes(known, env, m, data);
      case Transfer(_, target) => TransferGoes(known, env, m, target);
      case Resign(_) => TransferGoes(known, env, m, 0);
    }
  }

  lemma RestartSourced(known: set<Bytes>, env: Env, n: NodeId, d: Disk)
    requires Sourced(known, RecoveredLog(d).full)
    ensures NodeSourced(known, Restart(env, n, d)) && InHand(Restart(env, n, d)) == {}
  {
    hide Sourced, RecoveredLog;
    NothingQueued(known);
    hide QueueSourced;
    assert ReadsOf([], []) == {};
  }

  /** What a node's memory and disk always are to each other. */
  ghost predicate Level(m: Raft, d: Disk) {
    && Watermarked(m, d) && VoteSaved(m, d)
    && m.log.base <= m.applied <= m.commit <= |m.log.full| && Indexed(m.log.full)
  }

  /** The node that moves. */
  lemma MoverSourced(known: set<Bytes>, env: Env, s: Cluster, a: Action)
    requires Enabled(s, a) && Level(s.mem[Actor(a)], s.disk[Actor(a)])
    requires ClusterSourced(known, s) && (a.Proposal? ==> a.data in known)
    ensures var n, s' := Actor(a), Next(env, s, a);
            n in s'.mem && n in s'.disk && NodeSourced(known, s'.mem[n])
            && Sourced(known, RecoveredLog(s'.disk[n]).full)
    ensures a.Work? ==> Cycle(env, s.mem[a.n], s.disk[a.n], a.keep).Some?
                        && QueueSourced(known, Cycle(env, s.mem[a.n], s.disk[a.n], a.keep).value.sent)
  {
    hide Cycle, Handle, Restart, RecoveredLog, NodeSourced, Sourced, QueueSourced, BodySourced, Watermarked, VoteSaved,
         Indexed;
    var n := Actor(a);
    match a {
      case Work(_, keep) => CycleGoes(known, env, s.mem[n], s.disk[n], keep);
      case Crash(_) => RestartSourced(known, env, n, s.disk[n]);
      case Read(_) => ReadIndexGoes(known, env, s.mem[n], s.peak); HandleRead(env, s, s.mem[n], a);
      case _ => HandleGoes(known, env, s, s.mem[n], a);
    }
  }

  lemma HandleRead(env: Env, s: Cluster, m: Raft, a: Action)
    requires a.Read?
    ensures Handle(env, s, m, a) == ReadIndex(env, m, s.peak)
  {
  }

  lemma StepSourced(known: set<Bytes>, env: Env, s: Cluster, a: Action)
    requires Enabled(s, a) && Level(s.mem[Actor(a)], s.disk[Actor(a)])
    requires ClusterSourced(known, s) && (a.Proposal? ==> a.data in known)
    ensures ClusterSourced(known, Next(env, s, a))
  {
    hide Level, Cycle, Handle, Restart, RecoveredLog, NodeSourced, Sourced, BodySourced;
    MoverSourced(known, env, s, a);
  }

  lemma ActorLevel(env: Env, h: History, s: Cluster, a: Action)
    requires Inv(env, h, s) && Enabled(s, a)
    ensures Level(s.mem[Actor(a)], s.disk[Actor(a)])
  {
    hide Inv, Good, Watermarked, VoteSaved, Indexed;
    NodeOf(env, h, s, Actor(a));
    GoodParts(env, h, Actor(a), s.mem[Actor(a)], s.disk[Actor(a)]);
  }

  /** Every command any node holds, has stored, has sent or has taken over was proposed before. */
  lemma {:induction false} CommandsWereProposed(env: Env, ss: seq<Cluster>, acts: seq<Action>, i: nat)
    requires IsRun(env, ss, acts) && i < |ss|
    ensures |ss| == |acts| + 1 && ClusterSourced(Proposals(acts[..i]), ss[i])
  {
    hide *;
    RunStarts(env, ss, acts);
    if i == 0 {
      InitialSourced(env, Proposals(acts[..0]));
    } else {
      var k := i - 1;
      CommandsWereProposed(env, ss, acts, k);
      RunStep(env, ss, acts, k);
      StepIs(env, ss, acts, k);
      var h, _ := TwoMoments(env, ss, acts, k, k);
      ProposalsGrow(acts, k);
      SourcedMore(Proposals(acts[..k]), Proposals(acts[..i]), ss[k]);
      ActorLevel(env, h, ss[k], acts[k]);
      StepSourced(Proposals(acts[..i]), env, ss[k], acts[k]);
    }
  }

  lemma StepIs(env: Env, ss: seq<Cluster>, acts: seq<Action>, i: nat)
    requires StepAt(env, ss, acts, i)
    ensures i < |acts| && i + 1 < |ss| && Enabled(ss[i], acts[i]) && ss[i + 1] == Next(env, ss[i], acts[i])
  {
    hide Next;
  }

  lemma RunStarts(env: Env, ss: seq<Cluster>, acts: seq<Action>)
    requires IsRun(env, ss, acts)
    ensures |ss| == |acts| + 1 && ss[0] == Initial(env)
  {
  }

  lemma InitialSourced(env: Env, known: set<Bytes>)
    ensures ClusterSourced(known, Initial(env))
  {
    assert RecoveredLog(BlankDisk()).full == [];
    forall n | n in env.cfg.AllNodes()
      ensures NodeSourced(known, Restart(env, n, BlankDisk()))
    {
      RestartSourced(known, env, n, BlankDisk());
    }
  }

  /** A command in a log at some moment was proposed at an earlier step. */
  lemma WasProposed(env: Env, ss: seq<Cluster>, acts: seq<Action>, i: nat, n: NodeId, e: Entry)
    requires IsRun(env, ss, acts) && i < |ss| && n in ss[i].mem && e in ss[i].mem[n].log.full && e.kind.Normal?
    ensures exists p :: 0 <= p < i && p < |acts| && acts[p].Proposal? && acts[p].data == e.kind.data
  {
    hide IsRun;
    CommandsWereProposed(env, ss, acts, i);
    assert NodeSourced(Proposals(acts[..i]), ss[i].mem[n]);
    var a :| a in acts[..i] && a.Proposal? && a.data == e.kind.data;
    var p :| 0 <= p < i && acts[..i][p] == a;
    assert acts[p] == a;
  }

  // ---- reads -----------------------------------------------------------------------------------------------

  /** Reads in hand are numbered up to the node's counter. */
  ghost predicate Numbered(m: Raft) {
    forall r :: r in InHand(m) ==> r.0 <= m.readCtx
  }

  /** What a step may make of the reads a node has in hand. */
  ghost predicate ReadsMove(m: Raft, m': Raft, a: Action, n: NodeId, peak: nat) {
    if a == Crash(n) then InHand(m') == {}
    else if a == Read(n) && m.role == Leader && m.committedOwn
    then m'.readCtx == m.readCtx + 1 && InHand(m') <= InHand(m) + {(m.readCtx + 1, peak)}
    else m'.readCtx == m.readCtx && InHand(m') <= InHand(m)
  }

  lemma OtherStays(env: Env, s: Cluster, a: Action, n: NodeId)
    requires Enabled(s, a) && n in s.mem && n != Actor(a)
    ensures n in Next(env, s, a).mem && Next(env, s, a).mem[n] == s.mem[n]
  {
    hide Cycle, Handle, Restart;
  }

  /** What the acting node becomes. */
  lemma MoverBecomes(env: Env, s: Cluster, a: Action)
    requires Enabled(s, a) && (a.Work? ==> Cycle(env, s.mem[a.n], s.disk[a.n], a.keep).Some?)
    ensures var n := Actor(a);
            && n in Next(env, s, a).mem
            && Next(env, s, a).mem[n] == match a
                                         case Work(_, keep) => Cycle(env, s.mem[n], s.disk[n], keep).value.m
                                         case Crash(_) => Restart(env, n, s.disk[n])
                                         case _ => Handle(env, s, s.mem[n], a)
  {
    hide Cycle, Handle, Restart;
  }

  lemma ActorReads(known: set<Bytes>, env: Env, s: Cluster, a: Action)
    requires Enabled(s, a)
    requires var n := Actor(a);
             var m, d := s.mem[n], s.disk[n];
             && Watermarked(m, d) && VoteSaved(m, d) && m.log.base <= m.applied <= m.commit <= |m.log.full|
             && Indexed(m.log.full)
             && NodeSourced(known, m) && Sourced(known, RecoveredLog(d).full)
    requires (a.Proposal? ==> a.data in known) && (a.Delivery? ==> BodySourced(known, a.p.msg.body))
    ensures Actor(a) in Next(env, s, a).mem
    ensures ReadsMove(s.mem[Actor(a)], Next(env, s, a).mem[Actor(a)], a, Actor(a), s.peak)
  {
    hide Next, Cycle, Handle, Restart, RecoveredLog, NodeSourced, Sourced, InHand, Watermarked, VoteSaved, Indexed,
         BodySourced, ReadsMove, Frames, ReadIndex, Calm, QueueSourced;
    var n := Actor(a);
    match a {
      case Work(_, keep) =>
        CycleGoes(known, env, s.mem[n], s.disk[n], keep);
        ReadsStay(s.mem[n], Cycle(env, s.mem[n], s.disk[n], keep).value.m, a, n, s.peak);
      case Crash(_) =>
        RestartSourced(known, env, n, s.disk[n]);
        ReadsGone(s.mem[n], Restart(env, n, s.disk[n]), n, s.peak);
      case Read(_) =>
        HandleRead(env, s, s.mem[n], a);
        ReadIndexMoves(env, s.mem[n], n, s.peak);
      case _ =>
        HandleGoes(known, env, s, s.mem[n], a);
        GoesReads(known, s.mem[n], Handle(env, s, s.mem[n], a));
        ReadsStay(s.mem[n], Handle(env, s, s.mem[n], a), a, n, s.peak);
    }
    MoverBecomes(env, s, a);
  }

  lemma ReadsStay(m: Raft, m': Raft, a: Action, n: NodeId, peak: nat)
    requires !a.Crash? && !a.Read? && m'.readCtx == m.readCtx && InHand(m') <= InHand(m)
    ensures ReadsMove(m, m', a, n, peak)
  {
  }

  lemma ReadsGone(m: Raft, m': Raft, n: NodeId, peak: nat)
    requires InHand(m') == {}
    ensures ReadsMove(m, m', Crash(n), n, peak)
  {
  }

  lemma ReadIndexMoves(env: Env, m: Raft, n: NodeId, peak: nat)
    ensures ReadsMove(m, ReadIndex(env, m, peak), Read(n), n, peak)
  {
    hide ReadIndex;
    ReadIndexGoes({}, env, m, peak);
  }

  lemma GoesReads(known: set<Bytes>, m: Raft, m': Raft)
    requires Frames(known, m, m')
    ensures m'.readCtx == m.readCtx && InHand(m') <= InHand(m)
  {
  }

  lemma MoverReads(env: Env, ss: seq<Cluster>, acts: seq<Action>, i: nat, n: NodeId)
    requires IsRun(env, ss, acts) && i < |acts| && StepAt(env, ss, acts, i) && n in ss[i].mem && n in ss[i + 1].mem
    ensures ReadsMove(ss[i].mem[n], ss[i + 1].mem[n], acts[i], n, ss[i].peak)
  {
    hide *;
    StepIs(env, ss, acts, i);
    IsEnabled(ss[i], acts[i]);
    if Actor(acts[i]) == n {
      var h, _ := TwoMoments(env, ss, acts, i, i);
      NodeOf(env, h, ss[i], n);
      GoodParts(env, h, n, ss[i].mem[n], ss[i].disk[n]);
      KnownBefore(env, ss, acts, i);
      ActorReads(Proposals(acts[..i + 1]), env, ss[i], acts[i]);
    } else {
      OtherStays(env, ss[i], acts[i], n);
      ElsewhereReads(ss[i].mem[n], acts[i], n, ss[i].peak);
    }
  }

  lemma IsEnabled(s: Cluster, a: Action)
    requires Enabled(s, a)
    ensures Actor(a) in s.mem && Actor(a) in s.disk && (a.Delivery? ==> a.p in s.net)
  {
  }

  lemma ElsewhereReads(m: Raft, a: Action, n: NodeId, peak: nat)
    requires Actor(a) != n
    ensures ReadsMove(m, m, a, n, peak)
  {
  }

  /** Everything before a step is known after it, and so is what the step proposes. */
  lemma KnownBefore(env: Env, ss: seq<Cluster>, acts: seq<Action>, i: nat)
    requires IsRun(env, ss, acts) && i < |acts| && i < |ss|
    ensures var known, s := Proposals(acts[..i + 1]), ss[i];
            && (forall n :: n in s.mem ==> NodeSourced(known, s.mem[n]))
            && (forall n :: n in s.disk ==> Sourced(known, RecoveredLog(s.disk[n]).full))
            && (forall p :: p in s.net ==> BodySourced(known, p.msg.body))
            && (acts[i].Proposal? ==> acts[i].data in known)
  {
    hide IsRun, NodeSourced, Sourced, RecoveredLog, BodySourced, Proposals;
    CommandsWereProposed(env, ss, acts, i);
    ProposalsGrow(acts, i);
    SourcedMore(Proposals(acts[..i]), Proposals(acts[..i + 1]), ss[i]);
  }

  lemma {:induction false} ReadsNumbered(env: Env, ss: seq<Cluster>, acts: seq<Action>, i: nat, n: NodeId)
    requires IsRun(env, ss, acts) && i < |ss| && n in env.cfg.AllNodes()
    ensures n in ss[i].mem && Numbered(ss[i].mem[n])
  {
    hide IsRun, Inv, Remembers, InHand, Next;
    AllThere(env, ss, acts, i, n);
    RunStarts(env, ss, acts);
    if i == 0 {
      RestartReads(env, n);
    } else {
      ReadsNumbered(env, ss, acts, i - 1, n);
      RunStep(env, ss, acts, i - 1);
      MoverReads(env, ss, acts, i - 1, n);
    }
  }

  lemma RestartReads(env: Env, n: NodeId)
    requires n in env.cfg.AllNodes()
    ensures n in Initial(env).mem && InHand(Initial(env).mem[n]) == {}
  {
    assert ReadsOf([], []) == {};
  }

  lemma AllThere(env: Env, ss: seq<Cluster>, acts: seq<Action>, i: nat, n: NodeId)
    requires IsRun(env, ss, acts) && i < |ss|
    ensures n in env.cfg.AllNodes() <==> n in ss[i].mem
  {
    hide IsRun, HistOk, NodeInv, Remembers;
    var h, _ := TwoMoments(env, ss, acts, i, i);
    assert Inv(env, h, ss[i]);
  }

  /** The read begun at step `p` by `n`, up to moment `j`: whatever `n` has in hand under its number
      has its floor. */
  lemma {:induction false} ReadKeepsFloor(env: Env, ss: seq<Cluster>, acts: seq<Action>, p: nat, j: nat, n: NodeId)
    requires IsRun(env, ss, acts) && p < j < |ss| && p < |acts| && acts[p] == Read(n) && n in ss[p].mem
    requires ss[p].mem[n].role == Leader && ss[p].mem[n].committedOwn
    requires (forall i :: p < i < j && i < |acts| ==> acts[i] != Crash(n))
    ensures n in ss[j].mem && ss[j].mem[n].readCtx > ss[p].mem[n].readCtx
    ensures forall r :: r in InHand(ss[j].mem[n]) && r.0 == ss[p].mem[n].readCtx + 1 ==> r.1 == ss[p].peak
    decreases j
  {
    hide IsRun, Inv, Remembers, InHand, Next;
    AllThere(env, ss, acts, p, n);
    AllThere(env, ss, acts, j, n);
    AllThere(env, ss, acts, j - 1, n);
    RunStarts(env, ss, acts);
    RunStep(env, ss, acts, j - 1);
    MoverReads(env, ss, acts, j - 1, n);
    if j == p + 1 {
      ReadsNumbered(env, ss, acts, p, n);
    } else {
      ReadKeepsFloor(env, ss, acts, p, j - 1, n);
    }
  }

  /** An answer with the number of the read begun at step `p` has that read's floor: the highest commit
      index any node had held by then. */
  lemma AnswerHasFloor(env: Env, ss: seq<Cluster>, acts: seq<Action>, p: nat, j: nat, n: NodeId, r: ReadState)
    requires IsRun(env, ss, acts) && p < j < |acts| && StepAt(env, ss, acts, j) && acts[p] == Read(n) && n in ss[p].mem
    requires ss[p].mem[n].role == Leader && ss[p].mem[n].committedOwn && (forall i :: p < i < j ==> acts[i] != Crash(n))
    requires Actor(acts[j]) == n && r in Answers(env, ss[j], acts[j]) && r.ctx == ss[p].mem[n].readCtx + 1
    ensures r.floor == ss[p].peak
  {
    hide IsRun, Inv, Remembers, Good, HistOk, Cycle, Watermarked, VoteSaved, Indexed;
    ReadKeepsFloor(env, ss, acts, p, j, n);
    var h, _ := TwoMoments(env, ss, acts, j, j);
    NodeOf(env, h, ss[j], n);
    GoodParts(env, h, n, ss[j].mem[n], ss[j].disk[n]);
    CycleApplies(env, ss[j].mem[n], ss[j].disk[n], acts[j].keep);
    assert r in ss[j].mem[n].out.confirmed;
    assert (r.ctx, r.floor) in InHand(ss[j].mem[n]);
  }

  // ---- the commit index ------------------------------------------------------------------------------------

  lemma ActorClimbs(known: set<Bytes>, env: Env, h: History, s: Cluster, a: Action)
    requires Inv(env, h, s) && Enabled(s, a) && !a.Crash?
    requires NodeSourced(known, s.mem[Actor(a)]) && (a.Proposal? ==> a.data in known)
    requires a.Delivery? ==> BodySourced(known, a.p.msg.body)
    ensures Actor(a) in Next(env, s, a).mem && s.mem[Actor(a)].commit <= Next(env, s, a).mem[Actor(a)].commit
  {
    hide Inv, Good, HistOk, Cycle, Handle, Watermarked, VoteSaved, Indexed, NodeSourced, BodySourced, Next,
         CommittedStays, Frames, Step, ReadIndex, InHand, Calm;
    var n := Actor(a);
    NodeOf(env, h, s, n);
    GoodParts(env, h, n, s.mem[n], s.disk[n]);
    if a.Work? {
      CycleApplies(env, s.mem[n], s.disk[n], a.keep);
    } else if a.Read? {
      HandleRead(env, s, s.mem[n], a);
      ReadIndexGoes(known, env, s.mem[n], s.peak);
    } else if a.Delivery? && a.p.msg.body.AppendReq? {
      HandleDelivery(env, s, s.mem[n], a);
      AppendIsSafe(env, h, n, s.mem[n], s.disk[n], a.p, a.draw);
    } else {
      HandleGoes(known, env, s, s.mem[n], a);
    }
    MoverBecomes(env, s, a);
  }

  lemma HandleDelivery(env: Env, s: Cluster, m: Raft, a: Action)
    requires a.Delivery?
    ensures Handle(env, s, m, a) == Step(env, m, a.p.src, a.p.msg, a.draw)
  {
    hide Step;
  }

  /** Whatever happens to a node short of a crash, its commit index does not fall, stays within its log,
      and the entries it covers stay what they are. */
  lemma CommitNeverFalls(env: Env, ss: seq<Cluster>, acts: seq<Action>, i: nat, n: NodeId)
    requires IsRun(env, ss, acts) && i < |acts| && StepAt(env, ss, acts, i) && n in ss[i].mem && acts[i] != Crash(n)
    ensures n in ss[i + 1].mem && CommittedStays(ss[i].mem[n], ss[i + 1].mem[n])
  {
    hide *;
    CrashActs(acts[i]);
    StepIs(env, ss, acts, i);
    IsEnabled(ss[i], acts[i]);
    RunStarts(env, ss, acts);
    var h, h' := TwoMoments(env, ss, acts, i, i + 1);
    if Actor(acts[i]) == n {
      KnownBefore(env, ss, acts, i);
      ActorClimbs(Proposals(acts[..i + 1]), env, h, ss[i], acts[i]);
    } else {
      OtherStays(env, ss[i], acts[i], n);
    }
    CommittedPrefixesAgree(env, ss, acts, i, i + 1, n, n, ss[i].mem[n].commit);
    NodeOf(env, h', ss[i + 1], n);
    GoodParts(env, h', n, ss[i + 1].mem[n], ss[i + 1].disk[n]);
    StaysWhen(ss[i].mem[n], ss[i + 1].mem[n]);
  }

  lemma CrashActs(a: Action)
    ensures a.Crash? ==> a == Crash(Actor(a))
  {
  }

  lemma StaysWhen(m: Raft, m': Raft)
    requires m.commit <= m'.commit && m.commit <= |m.log.full| && m'.commit <= |m'.log.full|
    requires m'.log.full[..m.commit] == m.log.full[..m.commit]
    ensures CommittedStays(m, m')
  {
  }
}
