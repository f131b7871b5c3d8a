/** Safety of every run of a cluster: Election Safety, Leader Completeness, State Machine Safety, Log
    Matching, truthful replication progress and ReadIndex safety. */
module RaftSafety {
  import opened Types
  import opened Quorum
  import opened RaftLog
  import opened RaftNode
  import opened RaftDriver
  import opened RaftWatermark
  import opened RaftHistory
  import opened RaftGrowth
  import opened RaftInvariant
  import opened RaftSteps
  import opened RaftReplication
  import opened RaftHandlers
  import opened RaftReads
  import opened RaftInputs
  import opened RaftCycle
  import opened RaftReady
  import opened RaftCrash
  import opened RaftCluster

  ghost predicate Good(env: Env, h: History, n: NodeId, m: Raft, d: Disk) {
    NodeOk(env, h, n, m, StoredOf(d)) && Tidy(m, d) && Readable(d)
  }

  ghost predicate NodeInv(env: Env, h: History, s: Cluster, n: NodeId) {
    n in s.mem && n in s.disk && Good(env, h, n, s.mem[n], s.disk[n])
  }

  ghost predicate Inv(env: Env, h: History, s: Cluster) {
    && s.mem.Keys == env.cfg.AllNodes() && s.disk.Keys == env.cfg.AllNodes()
    && HistOk(env, h) && h.net == s.net && (forall p :: p in s.net ==> p.src in s.mem)
    && (forall n :: n in s.mem ==> NodeInv(env, h, s, n))
    && (forall n :: n in s.mem ==> s.mem[n].commit <= s.peak) && Reached(h, s.peak)
  }

  ghost predicate ReachedAt(h: History, k: nat, t: nat) {
    t in h.led && k <= h.led[t].commit
  }

  /** Some leader has committed this far. */
  ghost predicate Reached(h: History, k: nat) {
    k == 0 || exists t :: ReachedAt(h, k, t)
  }

  /** What later histories keep: every leadership, except one no disk holds, which only a node that
      is a quorum by itself can have. */
  ghost predicate Remembers(env: Env, h: History, h': History) {
    forall t :: t in h.led ==>
      || (t in h'.led && LeadGrows(h.led[t], h'.led[t]))
      || (!h.led[t].durable && HasQuorum(env.cfg, {h.led[t].leader}))
  }

  lemma RemembersTwice(env: Env, h: History, h1: History, h2: History)
    requires Remembers(env, h, h1) && Remembers(env, h1, h2)
    ensures Remembers(env, h, h2)
  {
    forall t | t in h.led
      ensures || (t in h2.led && LeadGrows(h.led[t], h2.led[t]))
              || (!h.led[t].durable && HasQuorum(env.cfg, {h.led[t].leader}))
    {
      if t in h1.led && LeadGrows(h.led[t], h1.led[t]) && t in h2.led && LeadGrows(h1.led[t], h2.led[t]) {
        assert h2.led[t].log[..|h1.led[t].log|][..|h.led[t].log|] == h2.led[t].log[..|h.led[t].log|];
      }
    }
  }

  lemma RemembersItself(env: Env, h: History)
    ensures Remembers(env, h, h)
  {
    Still(h, 0);
  }

  // ---- the initial state ------------------------------------------------------------------

  ghost function NoHistory(): History {
    History(map[], {}, {}, map[])
  }

  lemma InitialNode(env: Env, n: NodeId)
    ensures Good(env, NoHistory(), n, Restart(env, n, BlankDisk()), BlankDisk())
  {
    var m, st := Restart(env, n, BlankDisk()), StoredOf(BlankDisk());
    assert m.log.full == [] && st.log == [];
    assert forall a :: !Pledged(m, a);
  }

  lemma InitialInv(env: Env)
    ensures Inv(env, NoHistory(), Initial(env))
  {
    var h, s := NoHistory(), Initial(env);
    hide Good;
    forall n | n in s.mem
      ensures NodeInv(env, h, s, n)
    {
      InitialNode(env, n);
    }
  }

  // ---- one step -----------------------------------------------------------------------------

  /** A read that began is no business of this node's: it is of another leader's term, and if this
      node counts as past that term, its disk is. */
  ghost predicate Unasked(h: History, h': History, v: NodeId, m: Raft, d: Disk) {
    forall k :: k in h'.asked && k !in h.asked ==>
      (m.role == Leader ==> k.0 != m.term) && (v in h'.asked[k] ==> k.0 < d.hard.term)
  }

  ghost predicate OthersUnasked(h: History, h': History, s: Cluster, n: NodeId) {
    forall v :: v in s.mem && v in s.disk && v != n ==> Unasked(h, h', v, s.mem[v], s.disk[v])
  }

  lemma OtherGood(env: Env, h: History, h': History, n: NodeId, v: NodeId, m: Raft, d: Disk)
    requires HistOk(env, h) && Good(env, h, v, m, d) && Grows(h, h') && AddedBy(h, h', n) && v != n
    requires Unasked(h, h', v, m, d)
    ensures Good(env, h', v, m, d)
  {
    hide HistOk, NodeOk, Tidy, Readable, Grows, AddedBy;
    OthersKeep(env, h, h', n, v, m, StoredOf(d));
  }

  lemma NewPackets(h: History, h': History, s: Cluster, s': Cluster, n: NodeId)
    requires AddedBy(h, h', n) && h.net == s.net && h'.net == s'.net && n in s.mem
    requires forall p :: p in s.net ==> p.src in s.mem
    requires s.mem.Keys <= s'.mem.Keys
    ensures forall p :: p in s'.net ==> p.src in s'.mem
  {
  }

  /** How far the cluster has come is never forgotten. */
  lemma ReachedStays(env: Env, h: History, h': History, k: nat)
    requires HistOk(env, h) && Remembers(env, h, h') && Reached(h, k)
    ensures Reached(h', k)
  {
    hide HistOk, HasQuorum;
    if k > 0 {
      var t: nat :| ReachedAt(h, k, t);
      LeadElected(env, h, t);
      assert LeadGrows(h.led[t], h'.led[t]);
      assert ReachedAt(h', k, t);
    }
  }

  lemma CommitReached(env: Env, h: History, n: NodeId, m: Raft, d: Disk)
    requires Good(env, h, n, m, d)
    ensures Reached(h, m.commit)
  {
    hide Good;
    CommitKnown(env, h, n, m, d);
    if m.commit > 0 {
      var t: nat :| EvidenceAt(h, m.log.full, m.commit, m.term, t);
      assert ReachedAt(h, m.commit, t);
    }
  }

  /** The whole cluster after a step of `n` that only adds to the history. */
  lemma StepInv(env: Env, h: History, h': History, s: Cluster, s': Cluster, n: NodeId, m': Raft, d': Disk)
    requires Inv(env, h, s) && n in s.mem && HistOk(env, h') && h'.net == s'.net
    requires Grows(h, h') && AddedBy(h, h', n) && OthersUnasked(h, h', s, n)
    requires s'.mem == s.mem[n := m'] && s'.disk == s.disk[n := d'] && Good(env, h', n, m', d')
    requires s'.peak == Max(s.peak, m'.commit)
    ensures Inv(env, h', s') && Remembers(env, h, h')
  {
    hide HistOk, Good, Grows, AddedBy, Unasked, Remembers, Reached;
    GrowsRemembers(env, h, h');
    ReachedStays(env, h, h', s.peak);
    CommitReached(env, h', n, m', d');
    NewPackets(h, h', s, s', n);
    forall v | v in s'.mem
      ensures NodeInv(env, h', s', v)
    {
      if v != n {
        assert NodeInv(env, h, s, v);
        OtherGood(env, h, h', n, v, s.mem[v], s.disk[v]);
      }
    }
  }

  lemma GrowsRemembers(env: Env, h: History, h': History)
    requires Grows(h, h')
    ensures Remembers(env, h, h')
  {
  }

  lemma NodeOf(env: Env, h: History, s: Cluster, n: NodeId)
    requires Inv(env, h, s) && n in s.mem
    ensures n in s.disk && Good(env, h, n, s.mem[n], s.disk[n]) && HistOk(env, h) && h.net == s.net
  {
    hide HistOk, Good;
    assert NodeInv(env, h, s, n);
  }

  /** Messages in flight are well formed for whoever they reach. */
  lemma ArrivesWellFormed(env: Env, h: History, n: NodeId, m: Raft, st: Stored, p: Packet)
    requires LeadsOk(env, h) && NetOk(h) && LogsOk(h, n, m, st) && CommitOk(h, m, st) && p in h.net
    ensures WellFormed(m, p.msg)
  {
    assert Truthful(h, p);
    if FromLeader(p) { assert LeadShape(h, p.msg.term); }
    if p.msg.body.SnapshotReq? {
      var image := p.msg.body.snapshot.prefix;
      if |image| > m.commit && TermAt(m.log, |image|) == Some(LastTermOf(image)) {
        RootedPrefix(h, h.led[p.msg.term].log, |image|);
        LogMatching(h, m.log.full, image, |image| - 1);
        assert image[..|image|] == image;
      }
    }
  }

  /** Nodes whose disks are already past a term. */
  ghost function PastTerm(s: Cluster, t: nat): set<NodeId> {
    set v | v in s.mem && v in s.disk && s.disk[v].hard.term > t
  }

  lemma CommitKnown(env: Env, h: History, n: NodeId, m: Raft, d: Disk)
    requires Good(env, h, n, m, d)
    ensures Evidence(h, m.log.full, m.commit, m.term) && m.commit <= |m.log.full|
    ensures LeaderOk(h, n, m)
  {
    assert CommitOk(h, m, StoredOf(d));
  }

  lemma SentIsStored(env: Env, h: History, v: NodeId, m: Raft, d: Disk, p: Packet)
    requires Good(env, h, v, m, d) && p in h.net && p.src == v && !p.msg.IsPreVote()
    ensures p.msg.term <= d.hard.term
  {
    assert OutboxOk(h, v, m, StoredOf(d));
  }

  lemma LedIsStored(env: Env, h: History, v: NodeId, m: Raft, d: Disk, t: nat)
    requires Good(env, h, v, m, d) && t in h.led && h.led[t].leader == v
    ensures h.led[t].durable <==> t <= d.hard.term
  {
    assert OwnLeads(h, v, m, StoredOf(d));
  }

  lemma LeadElected(env: Env, h: History, t: nat)
    requires HistOk(env, h) && t in h.led
    ensures Elected(env, h, t) && CommitBacked(env, h, t)
  {
    assert LeadsOk(env, h) && ElectionsOk(env, h);
  }

  lemma SenderKnown(env: Env, h: History, s: Cluster, p: Packet)
    requires Inv(env, h, s) && p in h.net
    ensures p.src in s.mem
  {
    hide HistOk, Good;
  }

  lemma LeaderKnown(env: Env, h: History, s: Cluster, t: nat)
    requires Inv(env, h, s) && t in h.led
    ensures h.led[t].leader in s.mem
  {
    hide Good;
    LeadElected(env, h, t);
  }

  /** A voter of a leader whose term is on disk has that term on its own disk. */
  lemma VoterPast(env: Env, h: History, s: Cluster, t: nat, v: NodeId)
    requires Inv(env, h, s) && t in h.led && h.led[t].durable && Supported(h, t, v)
    ensures v in s.mem && v in s.disk && s.disk[v].hard.term >= t
  {
    hide HistOk, Good, Inv, Ballot;
    if v == h.led[t].leader {
      LeaderKnown(env, h, s, t);
      NodeOf(env, h, s, v);
      LedIsStored(env, h, v, s.mem[v], s.disk[v], t);
    } else {
      var p :| GrantFor(h, p, t, v) && Ballot(h, t, v, p.origin);
      SenderKnown(env, h, s, p);
      NodeOf(env, h, s, v);
      SentIsStored(env, h, v, s.mem[v], s.disk[v], p);
    }
  }

  lemma VotersPast(env: Env, h: History, s: Cluster, t: nat)
    requires Inv(env, h, s) && HistOk(env, h) && t in h.led && h.led[t].commit > 0
    ensures HasQuorum(env.cfg, h.led[t].voters)
    ensures forall v :: v in h.led[t].voters ==> v in s.mem && v in s.disk && s.disk[v].hard.term >= t
  {
    hide HistOk, Inv, Supported, HasQuorum;
    LeadElected(env, h, t);
    forall v | v in h.led[t].voters
      ensures v in s.mem && v in s.disk && s.disk[v].hard.term >= t
    {
      VoterPast(env, h, s, t, v);
    }
  }

  /** How far the cluster has come, and a leader's commit index: that is as high, or a quorum's disks
      have moved past its term. */
  lemma LeaderIsCurrent(env: Env, h: History, s: Cluster, n: NodeId, k: nat)
    requires Inv(env, h, s) && n in s.mem && s.mem[n].role == Leader && s.mem[n].committedOwn && Reached(h, k)
    ensures k <= s.mem[n].commit || HasQuorum(env.cfg, PastTerm(s, s.mem[n].term))
  {
    hide HistOk, Good, LeaderOk, Inv, HasQuorum;
    NodeOf(env, h, s, n);
    CommitKnown(env, h, n, s.mem[n], s.disk[n]);
    if k > 0 {
      var t: nat :| ReachedAt(h, k, t);
      if t <= s.mem[n].term {
        PastIsCommitted(env, h, n, s.mem[n], t, k);
      } else {
        VotersPast(env, h, s, t);
        QuorumGrows(env.cfg, h.led[t].voters, PastTerm(s, s.mem[n].term));
      }
    }
  }

  // ---- each kind of step ---------------------------------------------------------------------

  /** What an input that takes no Ready cycle leaves of its node. */
  ghost predicate Takes(env: Env, h: History, h': History, n: NodeId, m': Raft, d: Disk) {
    Moves(h, h', n) && HistOk(env, h') && Good(env, h', n, m', d)
  }

  lemma TickTakes(env: Env, h: History, n: NodeId, m: Raft, d: Disk, draw: nat) returns (h': History)
    requires HistOk(env, h) && Good(env, h, n, m, d)
    ensures Takes(env, h, h', n, Tick(env, m, draw), d)
  {
    hide HistOk, NodeOk, Tidy, Readable, StoredOf, Moves, Tick;
    NodeIsNamed(env, h, n, m, StoredOf(d));
    h' := TickKeeps(env, h, n, m, StoredOf(d), draw);
    TickTidy(env, m, d, draw);
  }

  lemma ProposeTakes(env: Env, h: History, n: NodeId, m: Raft, d: Disk, data: Bytes) returns (h': History)
    requires HistOk(env, h) && Good(env, h, n, m, d)
    ensures Takes(env, h, h', n, Propose(env, m, data), d)
  {
    hide HistOk, NodeOk, Tidy, Readable, StoredOf, Moves, Propose;
    NodeIsNamed(env, h, n, m, StoredOf(d));
    h' := ProposeKeeps(env, h, n, m, StoredOf(d), data);
    ProposeTidy(env, m, d, data);
  }

  lemma DeliveryTakes(env: Env, h: History, n: NodeId, m: Raft, d: Disk, p: Packet, draw: nat) returns (h': History)
    requires HistOk(env, h) && Good(env, h, n, m, d) && p in h.net && p.dst == n
    ensures Takes(env, h, h', n, Step(env, m, p.src, p.msg, draw), d)
  {
    ArrivesWellFormed(env, h, n, m, StoredOf(d), p);
    hide HistOk, NodeOk, Tidy, Readable, StoredOf, Moves, Step, WellFormed;
    h' := StepKeeps(env, h, n, m, StoredOf(d), p, draw);
    StepTidy(env, m, d, p.src, p.msg, draw);
  }

  lemma TransferTakes(env: Env, h: History, n: NodeId, m: Raft, d: Disk, target: NodeId)
    requires HistOk(env, h) && Good(env, h, n, m, d)
    ensures Takes(env, h, h, n, TransferLeadership(env, m, target), d) && Takes(env, h, h, n, StepDown(m), d)
  {
    hide HistOk, NodeOk, Tidy, Readable, StoredOf, Moves, TransferLeadership, StepDown;
    Still(h, n);
    NodeIsNamed(env, h, n, m, StoredOf(d));
    TransferKeeps(env, h, n, m, StoredOf(d), target);
    StepDownKeeps(env, h, n, m, StoredOf(d));
    TransferUntouched(env, m, target);
    UntouchedTidy(m, TransferLeadership(env, m, target), d);
    UntouchedTidy(m, StepDown(m), d);
  }

  lemma HandleTakes(env: Env, h: History, s: Cluster, a: Action) returns (h': History)
    requires Inv(env, h, s) && Enabled(s, a) && !a.Work? && !a.Crash? && !a.Read?
    ensures Takes(env, h, h', Actor(a), Handle(env, s, s.mem[Actor(a)], a), s.disk[Actor(a)])
  {
    hide Inv, HistOk, Good, Takes, Tick, Step, Propose, TransferLeadership, StepDown;
    var n := Actor(a);
    NodeOf(env, h, s, n);
    var m, d := s.mem[n], s.disk[n];
    match a {
      case Ticks(_, draw) => h' := TickTakes(env, h, n, m, d, draw);
      case Delivery(p, draw) => h' := DeliveryTakes(env, h, n, m, d, p, draw);
      case Proposal(_, data) => h' := ProposeTakes(env, h, n, m, d, data);
      case Transfer(_, target) => TransferTakes(env, h, n, m, d, target); h' := h;
      case Resign(_) => TransferTakes(env, h, n, m, d, 0); h' := h;
    }
  }

  lemma InputGoes(env: Env, h: History, s: Cluster, a: Action) returns (h': History)
    requires Inv(env, h, s) && Enabled(s, a) && !a.Work? && !a.Crash? && !a.Read?
    ensures Inv(env, h', Next(env, s, a)) && Remembers(env, h, h')
  {
    hide Inv, HistOk, Good, Handle, Grows, AddedBy, Remembers;
    var n := Actor(a);
    NodeOf(env, h, s, n);
    h' := HandleTakes(env, h, s, a);
    assert s.disk == s.disk[n := s.disk[n]];
    StepInv(env, h, h', s, Next(env, s, a), n, Handle(env, s, s.mem[n], a), s.disk[n]);
  }

  // ---- reads -------------------------------------------------------------------------------------

  lemma ReadIsCurrent(env: Env, h: History, s: Cluster, n: NodeId)
    requires Inv(env, h, s) && n in s.mem
    ensures s.mem[n].role == Leader && s.mem[n].committedOwn ==>
              s.mem[n].commit >= s.peak || HasQuorum(env.cfg, PastTerm(s, s.mem[n].term))
  {
    hide HasQuorum, HistOk, NodeInv;
    if s.mem[n].role == Leader && s.mem[n].committedOwn { LeaderIsCurrent(env, h, s, n, s.peak); }
  }

  lemma TermsInOrder(env: Env, h: History, n: NodeId, m: Raft, d: Disk)
    requires Good(env, h, n, m, d)
    ensures d.hard.term <= m.term && m.id == n
    ensures m.role == Leader ==> m.term in h.led && h.led[m.term].leader == n
  {
    assert LogsOk(h, n, m, StoredOf(d)) && LeaderOk(h, n, m);
  }

  ghost predicate AskedOnly(h: History, h': History, m: Raft, past: set<NodeId>) {
    forall k :: k in h'.asked && k !in h.asked ==> m.role == Leader && k.0 == m.term && h'.asked[k] == past
  }

  /** No two leaders share a term, so a read concerns no other leader. */
  lemma ReadersApart(env: Env, h: History, h': History, s: Cluster, n: NodeId)
    requires Inv(env, h, s) && n in s.mem && AskedOnly(h, h', s.mem[n], PastTerm(s, s.mem[n].term))
    ensures OthersUnasked(h, h', s, n)
  {
    hide HistOk, Good, Inv;
    NodeOf(env, h, s, n);
    TermsInOrder(env, h, n, s.mem[n], s.disk[n]);
    forall v | v in s.mem && v in s.disk && v != n
      ensures Unasked(h, h', v, s.mem[v], s.disk[v])
    {
      NodeOf(env, h, s, v);
      TermsInOrder(env, h, v, s.mem[v], s.disk[v]);
    }
  }

  lemma ReadTakes(env: Env, h: History, n: NodeId, m: Raft, d: Disk, floor: nat,
                  past: set<NodeId>) returns (h': History)
    requires HistOk(env, h) && Good(env, h, n, m, d) && n !in past
    requires m.role == Leader && m.committedOwn ==> m.commit >= floor || HasQuorum(env.cfg, past)
    ensures Grows(h, h') && AddedBy(h, h', n) && h'.net == h.net && HistOk(env, h')
    ensures Good(env, h', n, ReadIndex(env, m, floor), d) && AskedOnly(h, h', m, past)
  {
    hide HistOk, NodeOk, Tidy, Readable, StoredOf, ReadIndex, HasQuorum, Grows, AddedBy;
    NodeIsNamed(env, h, n, m, StoredOf(d));
    h' := ReadIndexKeeps(env, h, n, m, StoredOf(d), floor, past);
    ReadIndexUntouched(env, m, floor);
    UntouchedTidy(m, ReadIndex(env, m, floor), d);
  }

  /** Beginning a read. */
  lemma ReadGoes(env: Env, h: History, s: Cluster, a: Action) returns (h': History)
    requires Inv(env, h, s) && Enabled(s, a) && a.Read?
    ensures Inv(env, h', Next(env, s, a)) && Remembers(env, h, h')
  {
    hide Inv, HistOk, Good, ReadIndex, HasQuorum, Grows, AddedBy, Remembers, AskedOnly, OthersUnasked;
    var n := a.n;
    NodeOf(env, h, s, n);
    TermsInOrder(env, h, n, s.mem[n], s.disk[n]);
    ReadIsCurrent(env, h, s, n);
    h' := ReadTakes(env, h, n, s.mem[n], s.disk[n], s.peak, PastTerm(s, s.mem[n].term));
    ReadersApart(env, h, h', s, n);
    assert s.disk == s.disk[n := s.disk[n]];
    StepInv(env, h, h', s, Next(env, s, a), n, ReadIndex(env, s.mem[n], s.peak), s.disk[n]);
  }

  // ---- a Ready cycle ---------------------------------------------------------------------------------

  lemma CycleTakes(env: Env, h: History, n: NodeId, m: Raft, d: Disk, keep: nat) returns (h': History)
    requires HistOk(env, h) && Good(env, h, n, m, d)
    ensures Cycle(env, m, d, keep).Some?
    ensures var c := Cycle(env, m, d, keep).value;
            && Cycles(h, h', n, c.sent) && HistOk(env, h') && Good(env, h', n, c.m, c.d)
            && m.applied <= m.commit <= |m.log.full| && c.committed == m.log.full[m.applied..m.commit]
            && c.confirmed == m.out.confirmed
  {
    LogInBounds(env, h, n, m, StoredOf(d));
    hide HistOk, NodeOk, Tidy, StoredOf, Cycle, Cycles, Mirrors, RecoveredLog, Readable;
    h' := CycleKeeps(env, h, n, m, d, keep);
    TidyParts(m, d);
    CycleMirrors(env, m, d, keep);
    MirrorReadable(Cycle(env, m, d, keep).value.m.log, Cycle(env, m, d, keep).value.d);
  }

  lemma TidyParts(m: Raft, d: Disk)
    requires Tidy(m, d)
    ensures Watermarked(m, d) && VoteSaved(m, d)
  {
  }

  lemma WorkGoes(env: Env, h: History, s: Cluster, a: Action) returns (h': History)
    requires Inv(env, h, s) && Enabled(s, a) && a.Work?
    ensures Inv(env, h', Next(env, s, a)) && Remembers(env, h, h')
    ensures var m := s.mem[a.n];
            && m.applied <= m.commit <= |m.log.full| && HandedOut(env, s, a) == m.log.full[m.applied..m.commit]
            && Answers(env, s, a) == m.out.confirmed
  {
    hide Inv, HistOk, Good, Cycle, Grows, AddedBy, Remembers;
    var n := a.n;
    NodeOf(env, h, s, n);
    h' := CycleTakes(env, h, n, s.mem[n], s.disk[n], a.keep);
    var c := Cycle(env, s.mem[n], s.disk[n], a.keep).value;
    StepInv(env, h, h', s, Next(env, s, a), n, c.m, c.d);
  }

  // ---- a crash ---------------------------------------------------------------------------------

  lemma RestartRebuilds(env: Env, h: History, n: NodeId, m: Raft, d: Disk)
    requires NodeOk(env, h, n, m, StoredOf(d))
    ensures Rebuilt(Restart(env, n, d), n, StoredOf(d))
  {
    assert CommitOk(h, m, StoredOf(d));
  }

  /** A vote answers a request, which was sent after the candidate's term was stored. */
  lemma NoUnwrittenVote(env: Env, h: History, n: NodeId, m: Raft, d: Disk, t: nat, v: NodeId)
    requires HistOk(env, h) && Good(env, h, n, m, d) && Supported(h, t, v) && h.led[t].leader == n && v != n
    ensures t <= d.hard.term
  {
    hide Good;
    var p :| GrantFor(h, p, t, v) && Ballot(h, t, v, p.origin);
    assert NetOk(h) && Truthful(h, p);
    var r :| r in h.net && r.src == n && r.msg.term == t && r.msg.body.VoteReq?;
    SentIsStored(env, h, n, m, d, r);
  }

  /** Only a node that needs nobody's vote can lead before its term is on disk. */
  lemma UnwrittenLead(env: Env, h: History, s: Cluster, t: nat)
    requires Inv(env, h, s) && t in h.led && !h.led[t].durable
    ensures HasQuorum(env.cfg, {h.led[t].leader})
  {
    hide Inv, HistOk, Good, HasQuorum, Supported;
    var n := h.led[t].leader;
    LeaderKnown(env, h, s, t);
    NodeOf(env, h, s, n);
    LeadElected(env, h, t);
    LedIsStored(env, h, n, s.mem[n], s.disk[n], t);
    forall v | v in h.led[t].voters
      ensures v == n
    {
      if v != n { NoUnwrittenVote(env, h, n, s.mem[n], s.disk[n], t, v); }
    }
    QuorumGrows(env.cfg, h.led[t].voters, {n});
  }

  lemma ForgetRemembers(env: Env, h: History, s: Cluster, n: NodeId)
    requires Inv(env, h, s)
    ensures Remembers(env, h, Forget(h, n))
  {
    hide Inv, HasQuorum;
    var h' := Forget(h, n);
    forall t | t in h.led
      ensures || (t in h'.led && LeadGrows(h.led[t], h'.led[t]))
              || (!h.led[t].durable && HasQuorum(env.cfg, {h.led[t].leader}))
    {
      if Survives(h, n, t) {
        assert h'.led[t].log[..|h.led[t].log|] == h.led[t].log;
      } else {
        UnwrittenLead(env, h, s, t);
      }
    }
  }

  lemma OtherAfterCrash(env: Env, h: History, n: NodeId, v: NodeId, m: Raft, d: Disk)
    requires HistOk(env, h) && Good(env, h, v, m, d) && v != n
    ensures Good(env, Forget(h, n), v, m, d)
  {
    hide HistOk, NodeOk, Tidy, Readable, StoredOf;
    OthersSurvive(env, h, n, v, m, StoredOf(d));
  }

  lemma CrashTakes(env: Env, h: History, n: NodeId, m: Raft, d: Disk)
    requires HistOk(env, h) && Good(env, h, n, m, d)
    ensures HistOk(env, Forget(h, n)) && Good(env, Forget(h, n), n, Restart(env, n, d), d)
  {
    hide HistOk, NodeOk, Tidy, Mirrors, Forget, Readable, StoredOf, Restart, Rebuilt, RecoveredLog;
    RestartRebuilds(env, h, n, m, d);
    ReadableMirrors(d);
    RestartKeeps(env, h, n, m, Restart(env, n, d), StoredOf(d));
    RestartTidy(env, n, d, RecoveredLog(d));
  }

  lemma CrashGoes(env: Env, h: History, s: Cluster, a: Action)
    requires Inv(env, h, s) && Enabled(s, a) && a.Crash?
    ensures Inv(env, Forget(h, a.n), Next(env, s, a)) && Remembers(env, h, Forget(h, a.n))
  {
    hide HistOk, Good, Restart, Remembers, Reached;
    var n, h', s' := a.n, Forget(h, a.n), Next(env, s, a);
    ForgetRemembers(env, h, s, n);
    NodeOf(env, h, s, n);
    CrashTakes(env, h, n, s.mem[n], s.disk[n]);
    ReachedStays(env, h, h', s.peak);
    CommitReached(env, h', n, s'.mem[n], s.disk[n]);
    forall v | v in s'.mem
      ensures NodeInv(env, h', s', v)
    {
      assert NodeInv(env, h, s, v);
      if v != n { OtherAfterCrash(env, h, n, v, s.mem[v], s.disk[v]); }
    }
  }

  /** Every step keeps the invariant and remembers what must be remembered. */
  lemma NextKeeps(env: Env, h: History, s: Cluster, a: Action) returns (h': History)
    requires Inv(env, h, s) && Enabled(s, a)
    ensures Inv(env, h', Next(env, s, a)) && Remembers(env, h, h')
  {
    hide Inv, Next, Remembers;
    match a {
      case Read(_) => h' := ReadGoes(env, h, s, a);
      case Work(_, _) => h' := WorkGoes(env, h, s, a);
      case Crash(n) => CrashGoes(env, h, s, a); h' := Forget(h, n);
      case _ => h' := InputGoes(env, h, s, a);
    }
  }

  lemma GoodParts(env: Env, h: History, n: NodeId, m: Raft, d: Disk)
    requires Good(env, h, n, m, d)
    ensures m.log.base <= m.applied <= m.commit <= |m.log.full| && Indexed(m.log.full)
    ensures Watermarked(m, d) && VoteSaved(m, d)
  {
    LogInBounds(env, h, n, m, StoredOf(d));
  }
}
