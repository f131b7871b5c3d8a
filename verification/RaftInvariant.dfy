/** What every step keeps of one node, given the history of the cluster. */
module RaftInvariant {
  import opened Types
  import opened Quorum
  import opened RaftLog
  import opened RaftNode
  import opened RaftHistory
  import opened RaftGrowth

  /** What a restart would read back: the stored vote and commit index, the whole durable log, and
      the index its snapshot covers. */
  datatype Stored = Stored(term: nat, vote: Option<NodeId>, commit: nat, log: seq<Entry>, snap: nat)

  ghost predicate LogsOk(h: History, n: NodeId, m: Raft, st: Stored) {
    && m.id == n
    && Rooted(h, m.log.full) && Indexed(m.log.full) && Owned(h, n, m.log.full) && TermsUpTo(m.log.full, m.term)
    && Rooted(h, st.log) && Indexed(st.log) && Settled(h, st.log) && TermsUpTo(st.log, st.term)
    && st.term <= m.term
    && (st.term == m.term && st.vote.Some? ==> m.vote == st.vote)
  }

  /** A leader's log is the log its term is led with. */
  ghost predicate LeaderOk(h: History, n: NodeId, m: Raft) {
    m.role == Leader ==>
      && m.term in h.led && h.led[m.term].leader == n
      && h.led[m.term].log == m.log.full
      && h.led[m.term].commit <= m.commit
      && (m.committedOwn ==> h.led[m.term].commit > 0)
  }

  /** The vote a candidate counts was sent to it, by a voter whose log is no more up to date. */
  ghost predicate VoteSeen(h: History, n: NodeId, m: Raft, v: NodeId) {
    exists p :: p in h.net && IsGrant(p) && p.src == v && p.dst == n && p.msg.term == m.term
             && UpToDate(p.origin, LastTerm(m.log), LastIndex(m.log))
  }

  ghost predicate AsksFor(p: Packet, n: NodeId, m: Raft) {
    p.src == n && p.msg.body.VoteReq? && p.msg.term == m.term ==>
      p.msg.body.lastIndex == LastIndex(m.log) && p.msg.body.lastTerm == LastTerm(m.log)
  }

  ghost predicate CandidateOk(env: Env, h: History, n: NodeId, m: Raft, st: Stored) {
    && (m.role == PreCandidate ==> env.cfg.IsVoter(n))
    && (m.role == Candidate ==>
          && env.cfg.IsVoter(n) && m.vote == Some(n) && m.term > 0
          && (st.term == m.term ==> st.vote == Some(n))
          && (forall v :: v in m.votes && m.votes[v] && v != n ==> VoteSeen(h, n, m, v))
          && (forall p :: p in h.net ==> AsksFor(p, n, m))
          && (forall p :: p in m.out.messages ==> AsksFor(p, n, m)))
  }

  /** This node's own leaderships lie in its past, and it voted for itself in each. */
  ghost predicate OwnLeads(h: History, n: NodeId, m: Raft, st: Stored) {
    forall t :: t in h.led && h.led[t].leader == n ==>
      && t <= m.term
      && (t == m.term ==> m.role != Candidate && m.vote == Some(n))
      && (h.led[t].durable <==> t <= st.term)
      && (t == st.term ==> st.vote == Some(n))
  }

  ghost predicate GivenBy(p: Packet, term: nat, vote: Option<NodeId>) {
    p.msg.term < term || (p.msg.term == term && vote == Some(p.dst))
  }

  ghost predicate VotesOk(h: History, n: NodeId, m: Raft, st: Stored) {
    && (forall p :: p in h.net && IsGrant(p) && p.src == n ==>
          GivenBy(p, m.term, m.vote) && GivenBy(p, st.term, st.vote))
    && (forall p :: p in m.out.messages && IsGrant(p) ==>
          GivenBy(p, m.term, m.vote) && (p.msg.term in h.led ==> h.led[p.msg.term].leader != n))
    && (forall p, q ::
          p in m.out.messages && q in m.out.messages && IsGrant(p) && IsGrant(q) && p.msg.term == q.msg.term
          ==> p.dst == q.dst)
    && (forall p, q ::
          p in m.out.messages && q in h.net && IsGrant(p) && IsGrant(q) && q.src == n && p.msg.term == q.msg.term
          ==> p.dst == q.dst)
  }

  /** An acknowledgement this node has queued but not yet sent. */
  ghost predicate Pledged(m: Raft, a: Ack) {
    exists p :: p in m.out.messages && IsAck(p) && p.msg.term == a.term && a.index <= AckIndex(p)
  }

  ghost predicate Owes(h: History, n: NodeId, m: Raft, a: Ack) {
    a.node == n && (a in h.acks || Pledged(m, a))
  }

  ghost predicate DiskKeepsAcks(h: History, n: NodeId, st: Stored) {
    forall a :: a in h.acks && a.node == n ==> a.term <= st.term && Kept(h, st.log, a, st.term + 1)
  }

  ghost predicate MemoryKeepsAcks(h: History, n: NodeId, m: Raft) {
    forall a :: Owes(h, n, m, a) ==> a.term <= m.term && Kept(h, m.log.full, a, m.term + 1)
  }

  ghost predicate GrantsKeepAcks(h: History, n: NodeId, m: Raft) {
    forall a, g :: Owes(h, n, m, a) && g in m.out.messages && IsGrant(g) && a.term < g.msg.term ==>
      Kept(h, g.origin, a, g.msg.term + 1)
  }

  ghost predicate LeadsKeepAcks(h: History, n: NodeId, m: Raft) {
    forall a: Ack, t :: a.node == n && Pledged(m, a) && t in h.led && h.led[t].leader == n && a.term < t ==>
      Kept(h, ElectedLog(h.led[t]), a, t)
  }

  ghost predicate CommitOk(h: History, m: Raft, st: Stored) {
    && m.log.base <= m.applied <= m.commit <= |m.log.full|
    && Evidence(h, m.log.full, m.commit, m.term)
    && st.commit <= m.commit && st.snap <= m.commit
    && st.commit <= |st.log| && st.snap <= |st.log|
    && Evidence(h, st.log, Max(st.commit, st.snap), st.term)
  }

  /** What a leader believes a follower holds, the follower has acknowledged. */
  ghost predicate ProgressOk(h: History, n: NodeId, m: Raft) {
    && (m.role != Leader ==> m.progress == map[] && m.waiting == [])
    && (forall id :: id in m.progress && id != n && m.progress[id].matched > 0 ==>
          Ack(id, m.term, m.progress[id].matched) in h.acks)
    && (n in m.progress ==> m.progress[n].pendingSnapshot == 0)
  }

  /** What a node counts for itself, its disk holds. */
  ghost predicate PersistedOk(env: Env, h: History, n: NodeId, m: Raft, st: Stored) {
    && (m.role == Leader ==>
          m.term in h.led && (m.persisted <= h.led[m.term].start || Ack(n, m.term, m.persisted) in h.acks))
    && (m.role == Candidate ==>
          m.persisted <= |m.log.full| || (st.term < m.term && !HasQuorum(env.cfg, {n})))
    && (HasQuorum(env.cfg, {n}) ==> m.persisted <= |m.log.full|)
  }

  ghost predicate QueuedOk(h: History, n: NodeId, m: Raft, st: Stored, p: Packet) {
    && p.src == n && p.dst != n && Truthful(h, p)
    && (!p.msg.IsPreVote() ==> st.term <= p.msg.term <= m.term)
    && (IsGrant(p) ==> Owned(h, n, p.origin))
  }

  ghost predicate OutboxOk(h: History, n: NodeId, m: Raft, st: Stored) {
    && (forall p :: p in m.out.messages ==> QueuedOk(h, n, m, st, p))
    && (forall p :: p in h.net && p.src == n && !p.msg.IsPreVote() ==> p.msg.term <= st.term)
  }

  /** A pending read is at least as new as every commit its cluster knew of when it began, or a
      quorum had already moved past its leader's term and will never confirm it. */
  ghost predicate ReadOk(env: Env, h: History, m: Raft, r: PendingRead) {
    && 0 < r.ctx <= m.readCtx && r.index <= m.commit
    && (m.term, r.ctx) in h.asked
    && r.acks !! h.asked[(m.term, r.ctx)]
    && (r.index >= r.floor || HasQuorum(env.cfg, h.asked[(m.term, r.ctx)]))
  }

  ghost predicate ReadsOk(env: Env, h: History, n: NodeId, m: Raft, st: Stored) {
    && (forall r :: r in m.waiting ==> ReadOk(env, h, m, r))
    && (forall r :: r in m.out.confirmed ==> r.floor <= r.index <= m.commit)
    && (m.role == Leader ==> forall k :: k in h.asked && k.0 == m.term ==> k.1 <= m.readCtx)
    && (forall k :: k in h.asked && n in h.asked[k] ==> k.0 < st.term)
  }

  ghost predicate NodeOk(env: Env, h: History, n: NodeId, m: Raft, st: Stored) {
    && LogsOk(h, n, m, st) && LeaderOk(h, n, m) && CandidateOk(env, h, n, m, st) && OwnLeads(h, n, m, st)
    && VotesOk(h, n, m, st)
    && DiskKeepsAcks(h, n, st) && MemoryKeepsAcks(h, n, m) && GrantsKeepAcks(h, n, m) && LeadsKeepAcks(h, n, m)
    && CommitOk(h, m, st) && ProgressOk(h, n, m) && PersistedOk(env, h, n, m, st)
    && OutboxOk(h, n, m, st) && ReadsOk(env, h, n, m, st)
  }

  // ---- a step of one node leaves the others as they were -----------------------------------

  /** Only facts about node `n` were added. */
  ghost predicate AddedBy(h: History, h': History, n: NodeId) {
    && (forall t :: t in h'.led && (t !in h.led || h'.led[t] != h.led[t]) ==> h'.led[t].leader == n)
    && (forall p :: p in h'.net && p !in h.net ==> p.src == n)
    && (forall a :: a in h'.acks && a !in h.acks ==> a.node == n)
  }

  lemma LogsGrow(h: History, h': History, n: NodeId, m: Raft, st: Stored)
    requires Grows(h, h') && LogsOk(h, n, m, st)
    ensures LogsOk(h', n, m, st)
  {
    RootedGrows(h, h', m.log.full);
    OwnedGrows(h, h', n, m.log.full);
    RootedGrows(h, h', st.log);
    SettledGrows(h, h', st.log);
  }

  lemma MemoryAcksGrow(h: History, h': History, n: NodeId, m: Raft)
    requires Grows(h, h') && MemoryKeepsAcks(h, n, m)
    requires forall a :: a in h'.acks && a.node == n ==> a in h.acks
    ensures MemoryKeepsAcks(h', n, m)
  {
    forall a | Owes(h', n, m, a)
      ensures a.term <= m.term && Kept(h', m.log.full, a, m.term + 1)
    {
      assert Owes(h, n, m, a);
      KeptGrows(h, h', m.log.full, a, m.term + 1);
    }
  }

  lemma DiskAcksGrow(h: History, h': History, n: NodeId, st: Stored)
    requires Grows(h, h') && DiskKeepsAcks(h, n, st)
    requires forall a :: a in h'.acks && a.node == n ==> a in h.acks
    ensures DiskKeepsAcks(h', n, st)
  {
    forall a | a in h'.acks && a.node == n
      ensures a.term <= st.term && Kept(h', st.log, a, st.term + 1)
    {
      KeptGrows(h, h', st.log, a, st.term + 1);
    }
  }

  lemma GrantAcksGrow(h: History, h': History, n: NodeId, m: Raft)
    requires Grows(h, h') && GrantsKeepAcks(h, n, m)
    requires forall a :: a in h'.acks && a.node == n ==> a in h.acks
    ensures GrantsKeepAcks(h', n, m)
  {
    forall a, g | Owes(h', n, m, a) && g in m.out.messages && IsGrant(g) && a.term < g.msg.term
      ensures Kept(h', g.origin, a, g.msg.term + 1)
    {
      assert Owes(h, n, m, a);
      KeptGrows(h, h', g.origin, a, g.msg.term + 1);
    }
  }

  /** No leadership of `n` was added, and those it had were elected with the same logs. */
  lemma LeadAcksGrow(h: History, h': History, n: NodeId, m: Raft)
    requires Grows(h, h') && LeadsKeepAcks(h, n, m)
    requires forall t :: t in h.led ==> h.led[t].start <= |h.led[t].log|
    requires forall t :: t in h'.led && h'.led[t].leader == n ==> t in h.led
    ensures LeadsKeepAcks(h', n, m)
  {
    forall a: Ack, t | a.node == n && Pledged(m, a) && t in h'.led && h'.led[t].leader == n && a.term < t
      ensures Kept(h', ElectedLog(h'.led[t]), a, t)
    {
      assert LeadGrows(h.led[t], h'.led[t]);
      PrefixOfGrown(h, h', t, h.led[t].start);
      KeptGrows(h, h', ElectedLog(h.led[t]), a, t);
    }
  }

  lemma OutboxGrows(h: History, h': History, n: NodeId, m: Raft, st: Stored)
    requires Grows(h, h') && OutboxOk(h, n, m, st)
    requires forall p :: p in h'.net && p.src == n ==> p in h.net
    ensures OutboxOk(h', n, m, st)
  {
    forall p | p in m.out.messages
      ensures QueuedOk(h', n, m, st, p)
    {
      assert QueuedOk(h, n, m, st, p);
      TruthfulGrows(h, h', p);
      if IsGrant(p) { OwnedGrows(h, h', n, p.origin); }
    }
  }

  lemma CommitGrows(h: History, h': History, m: Raft, st: Stored)
    requires Grows(h, h') && CommitOk(h, m, st)
    ensures CommitOk(h', m, st)
  {
    EvidenceGrows(h, h', m.log.full, m.log.full, m.commit, m.term, m.term);
    EvidenceGrows(h, h', st.log, st.log, Max(st.commit, st.snap), st.term, st.term);
  }

  /** Votes, candidacy and progress rest on facts that only another step of `v` can disturb. */
  lemma RolesGrow(env: Env, h: History, h': History, n: NodeId, v: NodeId, m: Raft, st: Stored)
    requires Grows(h, h') && AddedBy(h, h', n) && v != n
    requires LeaderOk(h, v, m) && CandidateOk(env, h, v, m, st) && OwnLeads(h, v, m, st)
    ensures LeaderOk(h', v, m) && CandidateOk(env, h', v, m, st) && OwnLeads(h', v, m, st)
  {
    if m.role == Candidate {
      forall w | w in m.votes && m.votes[w] && w != v
        ensures VoteSeen(h', v, m, w)
      {
        assert VoteSeen(h, v, m, w);
      }
      forall p | p in h'.net
        ensures AsksFor(p, v, m)
      {
        assert p in h.net ==> AsksFor(p, v, m);
      }
    }
  }

  lemma VotesGrow(env: Env, h: History, h': History, n: NodeId, v: NodeId, m: Raft, st: Stored)
    requires Grows(h, h') && AddedBy(h, h', n) && v != n && VotesOk(h, v, m, st)
    ensures VotesOk(h', v, m, st)
  {
  }

  lemma RestGrows(env: Env, h: History, h': History, n: NodeId, v: NodeId, m: Raft, st: Stored)
    requires Grows(h, h') && AddedBy(h, h', n) && v != n
    requires LeaderOk(h, v, m) && ProgressOk(h, v, m) && PersistedOk(env, h, v, m, st) && ReadsOk(env, h, v, m, st)
    requires forall k :: k in h'.asked && k !in h.asked ==>
               (m.role == Leader ==> k.0 != m.term) && (v in h'.asked[k] ==> k.0 < st.term)
    ensures ProgressOk(h', v, m) && PersistedOk(env, h', v, m, st) && ReadsOk(env, h', v, m, st)
  {
  }

  /** The invariant of a node survives any step of another. */
  lemma OthersKeep(env: Env, h: History, h': History, n: NodeId, v: NodeId, m: Raft, st: Stored)
    requires HistOk(env, h) && Grows(h, h') && AddedBy(h, h', n) && v != n && NodeOk(env, h, v, m, st)
    requires forall k :: k in h'.asked && k !in h.asked ==>
               (m.role == Leader ==> k.0 != m.term) && (v in h'.asked[k] ==> k.0 < st.term)
    ensures NodeOk(env, h', v, m, st)
  {
    assert forall t :: t in h.led ==> LeadShape(h, t);
    LogsGrow(h, h', v, m, st);
    RolesGrow(env, h, h', n, v, m, st);
    VotesGrow(env, h, h', n, v, m, st);
    MemoryAcksGrow(h, h', v, m);
    DiskAcksGrow(h, h', v, st);
    GrantAcksGrow(h, h', v, m);
    LeadAcksGrow(h, h', v, m);
    OutboxGrows(h, h', v, m, st);
    CommitGrows(h, h', m, st);
    RestGrows(env, h, h', n, v, m, st);
  }
}
