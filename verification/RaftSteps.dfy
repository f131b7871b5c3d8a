/** The pieces every transition is made of keep the invariant of the node that takes them. */
module RaftSteps {
  import opened Types
  import opened Quorum
  import opened RaftLog
  import opened RaftNode
  import opened RaftHistory
  import opened RaftGrowth
  import opened RaftInvariant

  // ---- bookkeeping ----------------------------------------------------------------------

  ghost predicate SameMatched(m: Raft, m': Raft) {
    && m'.progress.Keys == m.progress.Keys
    && (forall id :: id in m.progress ==> m'.progress[id].matched == m.progress[id].matched)
    && (m.id in m.progress ==> m'.progress[m.id].pendingSnapshot == m.progress[m.id].pendingSnapshot)
  }

  /** Only clocks, hints, watermarks and replication progress differ. */
  ghost predicate Settles(m: Raft, m': Raft) {
    && m'.id == m.id && m'.term == m.term && m'.vote == m.vote && m'.log == m.log && m'.commit == m.commit
    && m'.applied == m.applied && m'.persisted == m.persisted && m'.role == m.role && m'.votes == m.votes
    && m'.waiting == m.waiting && m'.readCtx == m.readCtx && m'.committedOwn == m.committedOwn
    && m'.out.messages == m.out.messages && m'.out.confirmed == m.out.confirmed
  }

  ghost predicate Quiet(m: Raft, m': Raft) {
    Settles(m, m') && SameMatched(m, m')
  }

  lemma AcksUnmoved(h: History, n: NodeId, m: Raft, m': Raft)
    requires MemoryKeepsAcks(h, n, m) && GrantsKeepAcks(h, n, m) && LeadsKeepAcks(h, n, m)
    requires m'.out.messages == m.out.messages && m'.log.full == m.log.full && m.term <= m'.term
    ensures MemoryKeepsAcks(h, n, m') && GrantsKeepAcks(h, n, m') && LeadsKeepAcks(h, n, m')
  {
    forall a | Owes(h, n, m', a)
      ensures a.term <= m'.term && Kept(h, m'.log.full, a, m'.term + 1)
      ensures forall g :: g in m'.out.messages && IsGrant(g) && a.term < g.msg.term ==>
                Kept(h, g.origin, a, g.msg.term + 1)
    {
      assert Owes(h, n, m, a);
      assert Kept(h, m.log.full, a, m.term + 1);
    }
    forall a: Ack, t | a.node == n && Pledged(m', a) && t in h.led && h.led[t].leader == n && a.term < t
      ensures Kept(h, ElectedLog(h.led[t]), a, t)
    {
      assert Pledged(m, a);
    }
  }

  lemma QuietKeeps(env: Env, h: History, n: NodeId, m: Raft, m': Raft, st: Stored)
    requires NodeOk(env, h, n, m, st) && Quiet(m, m')
    ensures NodeOk(env, h, n, m', st)
  {
    SettleKeeps(env, h, n, m, m', st);
  }

  /** Replication progress may change to anything the followers have acknowledged. */
  lemma SettleKeeps(env: Env, h: History, n: NodeId, m: Raft, m': Raft, st: Stored)
    requires NodeOk(env, h, n, m, st) && Settles(m, m') && ProgressOk(h, n, m')
    ensures NodeOk(env, h, n, m', st)
  {
    AcksUnmoved(h, n, m, m');
    SettleRoles(env, h, n, m, m', st);
    SettleRest(env, h, n, m, m', st);
  }

  lemma SettleRoles(env: Env, h: History, n: NodeId, m: Raft, m': Raft, st: Stored)
    requires LogsOk(h, n, m, st) && LeaderOk(h, n, m) && CandidateOk(env, h, n, m, st) && OwnLeads(h, n, m, st)
    requires VotesOk(h, n, m, st) && Settles(m, m')
    ensures LogsOk(h, n, m', st) && LeaderOk(h, n, m') && CandidateOk(env, h, n, m', st) && OwnLeads(h, n, m', st)
    ensures VotesOk(h, n, m', st)
  {
    if m.role == Candidate {
      forall v | v in m'.votes && m'.votes[v] && v != n
        ensures VoteSeen(h, n, m', v)
      {
        assert VoteSeen(h, n, m, v);
      }
      forall p
        ensures AsksFor(p, n, m) ==> AsksFor(p, n, m')
      {
      }
    }
  }

  lemma SettleRest(env: Env, h: History, n: NodeId, m: Raft, m': Raft, st: Stored)
    requires m.id == n
    requires CommitOk(h, m, st) && PersistedOk(env, h, n, m, st)
    requires OutboxOk(h, n, m, st) && ReadsOk(env, h, n, m, st) && Settles(m, m')
    ensures CommitOk(h, m', st) && PersistedOk(env, h, n, m', st)
    ensures OutboxOk(h, n, m', st) && ReadsOk(env, h, n, m', st)
  {
    forall p
      ensures QueuedOk(h, n, m, st, p) ==> QueuedOk(h, n, m', st, p)
    {
    }
    forall r
      ensures ReadOk(env, h, m, r) ==> ReadOk(env, h, m', r)
    {
    }
  }

  // ---- queueing a message -------------------------------------------------------------------

  ghost function Queued(m: Raft, p: Packet): Raft {
    m.(out := m.out.(messages := m.out.messages + [p]))
  }

  lemma QueueRoles(env: Env, h: History, n: NodeId, m: Raft, st: Stored, p: Packet)
    requires LogsOk(h, n, m, st) && LeaderOk(h, n, m) && CandidateOk(env, h, n, m, st) && OwnLeads(h, n, m, st)
    requires VotesOk(h, n, m, st)
    requires m.role == Candidate ==> AsksFor(p, n, m)
    requires IsGrant(p) ==> p.msg.term == m.term && m.vote == Some(p.dst) && p.dst != n
    ensures var m' := Queued(m, p);
            && LogsOk(h, n, m', st) && LeaderOk(h, n, m') && CandidateOk(env, h, n, m', st) && OwnLeads(h, n, m', st)
            && VotesOk(h, n, m', st)
  {
    var m' := Queued(m, p);
    if m.role == Candidate {
      forall v | v in m'.votes && m'.votes[v] && v != n
        ensures VoteSeen(h, n, m', v)
      {
        assert VoteSeen(h, n, m, v);
      }
      forall q
        ensures AsksFor(q, n, m) ==> AsksFor(q, n, m')
      {
      }
    }
  }

  lemma QueueRest(env: Env, h: History, n: NodeId, m: Raft, st: Stored, p: Packet)
    requires CommitOk(h, m, st) && ProgressOk(h, n, m) && PersistedOk(env, h, n, m, st)
    requires OutboxOk(h, n, m, st) && ReadsOk(env, h, n, m, st) && QueuedOk(h, n, m, st, p)
    ensures var m' := Queued(m, p);
            && CommitOk(h, m', st) && ProgressOk(h, n, m') && PersistedOk(env, h, n, m', st)
            && OutboxOk(h, n, m', st) && ReadsOk(env, h, n, m', st)
  {
    var m' := Queued(m, p);
    forall q
      ensures QueuedOk(h, n, m, st, q) ==> QueuedOk(h, n, m', st, q)
    {
    }
    forall r
      ensures ReadOk(env, h, m, r) ==> ReadOk(env, h, m', r)
    {
    }
  }

  lemma QueueAcks(h: History, n: NodeId, m: Raft, st: Stored, p: Packet)
    requires MemoryKeepsAcks(h, n, m) && GrantsKeepAcks(h, n, m) && LeadsKeepAcks(h, n, m)
    requires OwnLeads(h, n, m, st) && OutboxOk(h, n, m, st)
    requires IsGrant(p) ==> p.msg.term == m.term && p.origin == m.log.full
    requires IsAck(p) ==> p.msg.term == m.term && HoldsAck(h, m.log.full, Ack(n, m.term, AckIndex(p)))
    ensures var m' := Queued(m, p); MemoryKeepsAcks(h, n, m') && GrantsKeepAcks(h, n, m') && LeadsKeepAcks(h, n, m')
  {
    var m' := Queued(m, p);
    forall a | Owes(h, n, m', a)
      ensures a.term <= m'.term && Kept(h, m'.log.full, a, m'.term + 1)
      ensures forall g :: g in m'.out.messages && IsGrant(g) && a.term < g.msg.term ==>
                Kept(h, g.origin, a, g.msg.term + 1)
    {
      if !Owes(h, n, m, a) {
        HoldsLess(h, m.log.full, Ack(n, m.term, AckIndex(p)), a);
        assert forall g :: g in m.out.messages && IsGrant(g) ==> QueuedOk(h, n, m, st, g);
      }
    }
    forall a: Ack, t | a.node == n && Pledged(m', a) && t in h.led && h.led[t].leader == n && a.term < t
      ensures Kept(h, ElectedLog(h.led[t]), a, t)
    {
      assert t <= m.term;
      assert Pledged(m, a);
    }
  }

  /** Queueing a truthful message: a vote must be the one just cast, an acknowledgement must reach
      no further than the logs agree, a request for votes must describe the candidate's log. */
  lemma QueueKeeps(env: Env, h: History, n: NodeId, m: Raft, st: Stored, p: Packet)
    requires NodeOk(env, h, n, m, st) && QueuedOk(h, n, m, st, p)
    requires m.role == Candidate ==> AsksFor(p, n, m)
    requires IsGrant(p) ==> p.msg.term == m.term && m.vote == Some(p.dst) && p.origin == m.log.full
    requires IsAck(p) ==> p.msg.term == m.term && HoldsAck(h, m.log.full, Ack(n, m.term, AckIndex(p)))
    ensures NodeOk(env, h, n, Queued(m, p), st)
  {
    QueueRoles(env, h, n, m, st, p);
    QueueRest(env, h, n, m, st, p);
    QueueAcks(h, n, m, st, p);
  }

  lemma HoldsLess(h: History, s: seq<Entry>, a: Ack, b: Ack)
    requires HoldsAck(h, s, a) && b.term == a.term && b.index <= a.index
    ensures HoldsAck(h, s, b)
  {
    var l := h.led[a.term].log;
    assert s[..a.index][..b.index] == s[..b.index];
    assert l[..a.index][..b.index] == l[..b.index];
  }

  // ---- changes of role --------------------------------------------------------------------------

  lemma FollowerKeeps(env: Env, h: History, n: NodeId, m: Raft, st: Stored, term: nat, leader: Option<NodeId>)
    requires NodeOk(env, h, n, m, st)
    ensures NodeOk(env, h, n, BecomeFollower(m, term, leader), st)
  {
    var m' := BecomeFollower(m, term, leader);
    AcksUnmoved(h, n, m, m');
    FollowerRest(env, h, n, m, m', st);
  }

  /** A node that gives up its role keeps its log, its votes and its messages. */
  lemma FollowerRest(env: Env, h: History, n: NodeId, m: Raft, m': Raft, st: Stored)
    requires LogsOk(h, n, m, st) && OwnLeads(h, n, m, st) && VotesOk(h, n, m, st)
    requires CommitOk(h, m, st) && PersistedOk(env, h, n, m, st) && OutboxOk(h, n, m, st) && ReadsOk(env, h, n, m, st)
    requires m'.id == n && m.term <= m'.term && (m'.term == m.term ==> m'.vote == m.vote)
    requires m'.log == m.log && m'.commit == m.commit && m'.applied == m.applied && m'.persisted == m.persisted
    requires m'.role == Follower && m'.progress == map[] && m'.waiting == [] && m'.out == m.out
    ensures LogsOk(h, n, m', st) && LeaderOk(h, n, m') && CandidateOk(env, h, n, m', st) && OwnLeads(h, n, m', st)
    ensures VotesOk(h, n, m', st) && CommitOk(h, m', st) && ProgressOk(h, n, m')
    ensures PersistedOk(env, h, n, m', st) && OutboxOk(h, n, m', st) && ReadsOk(env, h, n, m', st)
  {
    forall p
      ensures QueuedOk(h, n, m, st, p) ==> QueuedOk(h, n, m', st, p)
    {
    }
    assert Evidence(h, m'.log.full, m'.commit, m'.term) by {
      EvidenceLater(h, m.log.full, m.commit, m.term, m'.term);
    }
  }

  lemma EvidenceLater(h: History, s: seq<Entry>, k: nat, bound: nat, bound': nat)
    requires Evidence(h, s, k, bound) && bound <= bound'
    ensures Evidence(h, s, k, bound')
  {
    if k > 0 {
      var t :| EvidenceAt(h, s, k, bound, t);
      assert EvidenceAt(h, s, k, bound', t);
    }
  }

  /** Standing for election: a new term that no message of this node has carried yet. */
  lemma StandKeeps(env: Env, h: History, n: NodeId, m: Raft, st: Stored, draw: nat)
    requires NodeOk(env, h, n, m, st) && m.role != Leader && env.cfg.IsVoter(n)
    ensures NodeOk(env, h, n, Stand(env, m, draw), st)
  {
    var m' := Stand(env, m, draw);
    AcksUnmoved(h, n, m, m');
    StandRest(env, h, n, m, m', st);
  }

  lemma StandRest(env: Env, h: History, n: NodeId, m: Raft, m': Raft, st: Stored)
    requires LogsOk(h, n, m, st) && OwnLeads(h, n, m, st) && VotesOk(h, n, m, st) && ProgressOk(h, n, m)
    requires CommitOk(h, m, st) && PersistedOk(env, h, n, m, st) && OutboxOk(h, n, m, st) && ReadsOk(env, h, n, m, st)
    requires m.role != Leader && env.cfg.IsVoter(n)
    requires m'.id == n && m'.term == m.term + 1 && m'.vote == Some(n) && m'.votes == map[n := true]
    requires m'.log == m.log && m'.commit == m.commit && m'.applied == m.applied && m'.persisted == m.persisted
    requires m'.role == Candidate && m'.progress == m.progress && m'.waiting == m.waiting && m'.out == m.out
    ensures LogsOk(h, n, m', st) && LeaderOk(h, n, m') && CandidateOk(env, h, n, m', st) && OwnLeads(h, n, m', st)
    ensures VotesOk(h, n, m', st) && CommitOk(h, m', st) && ProgressOk(h, n, m')
    ensures PersistedOk(env, h, n, m', st) && OutboxOk(h, n, m', st) && ReadsOk(env, h, n, m', st)
  {
    forall p
      ensures QueuedOk(h, n, m, st, p) ==> QueuedOk(h, n, m', st, p) && AsksFor(p, n, m')
    {
    }
    forall p | p in h.net
      ensures AsksFor(p, n, m')
    {
    }
    EvidenceLater(h, m.log.full, m.commit, m.term, m'.term);
  }

  lemma GrantKeeps(env: Env, h: History, n: NodeId, m: Raft, st: Stored, from: NodeId)
    requires NodeOk(env, h, n, m, st) && CanVote(m, from)
    ensures NodeOk(env, h, n, Grant(m, from), st)
  {
    var m' := Grant(m, from);
    AcksUnmoved(h, n, m, m');
    assert OwnLeads(h, n, m, st) && VotesOk(h, n, m, st) && CandidateOk(env, h, n, m, st);
    forall p
      ensures QueuedOk(h, n, m, st, p) ==> QueuedOk(h, n, m', st, p)
      ensures AsksFor(p, n, m) ==> AsksFor(p, n, m')
    {
    }
    forall v
      ensures VoteSeen(h, n, m, v) ==> VoteSeen(h, n, m', v)
    {
    }
    forall r
      ensures ReadOk(env, h, m, r) ==> ReadOk(env, h, m', r)
    {
    }
  }
}
