/** A follower accepts entries, a snapshot or a commit index from the leader of its term. */
module RaftReplication {
  import opened Types
  import opened Quorum
  import opened RaftLog
  import opened RaftNode
  import opened RaftHistory
  import opened RaftGrowth
  import opened RaftInvariant
  import opened RaftSteps

  // ---- what the leader of this term holds -----------------------------------------------------

  /** Leader Completeness, from a node's point of view: the leader of any term from the node's on
      holds everything the node knows to be committed. */
  lemma LeaderHolds(env: Env, h: History, s: seq<Entry>, k: nat, bound: nat, t: nat)
    requires LeadsOk(env, h) && AcksOk(h) && ElectionsOk(env, h)
    requires Evidence(h, s, k, bound) && t in h.led && bound <= t && k <= |s|
    ensures k <= |h.led[t].log| && s[..k] == h.led[t].log[..k]
  {
    if k > 0 {
      var u :| EvidenceAt(h, s, k, bound, u);
      hide LeadsOk, AcksOk, ElectionsOk;
      LeaderCompleteness(env, h, u, t);
      var c := h.led[u].commit;
      assert h.led[t].log[..c][..k] == h.led[t].log[..k];
      assert h.led[u].log[..c][..k] == h.led[u].log[..k];
    }
  }

  /** Everything in the log of a leader on disk is known to some disk. */
  lemma LeaderLogSettled(env: Env, h: History, t: nat)
    requires LeadShape(h, t) && DurableDown(h) && h.led[t].durable
    ensures Settled(h, h.led[t].log)
  {
    var l := h.led[t];
    forall i | 0 <= i < |l.log|
      ensures SettledAt(h, l.log, i)
    {
      assert OwnedAt(h, l.leader, l.log, i);
      assert l.log[i].term <= t;
    }
  }

  /** The facts about a prefix of a leader's log that a follower's log needs. */
  lemma LeaderPrefix(env: Env, h: History, n: NodeId, t: nat, k: nat)
    requires LeadShape(h, t) && DurableDown(h) && h.led[t].durable && k <= |h.led[t].log|
    ensures var s := h.led[t].log[..k];
            Rooted(h, s) && Indexed(s) && Owned(h, n, s) && TermsUpTo(s, t)
  {
    var l, s := h.led[t].log, h.led[t].log[..k];
    RootedPrefix(h, l, k);
    LeaderLogSettled(env, h, t);
    forall i | 0 <= i < k
      ensures OwnedAt(h, n, s, i)
    {
      assert SettledAt(h, l, i);
    }
  }

  /** Two rooted logs: equal terms at a position mean equal entries there. */
  lemma RootedDecide(h: History, x: seq<Entry>, y: seq<Entry>)
    requires Rooted(h, x) && Rooted(h, y)
    ensures TermsDecide(x, y)
  {
    forall j | 0 <= j < |x| && j < |y| && x[j].term == y[j].term
      ensures x[j] == y[j]
    {
      LogMatching(h, x, y, j);
      assert x[..j + 1][j] == y[..j + 1][j];
    }
  }

  lemma AgreeBelow(h: History, x: seq<Entry>, y: seq<Entry>, prev: nat)
    requires Rooted(h, x) && Rooted(h, y) && prev <= |x| && prev <= |y| && TermOf(x, prev) == TermOf(y, prev)
    ensures x[..prev] == y[..prev]
  {
    if prev > 0 { LogMatching(h, x, y, prev - 1); }
  }

  // ---- adopting a log -------------------------------------------------------------------------------

  /** `x` became `r` under the leader of term `t`: what `r` lost of `x`, that leader's log contradicts,
      and below `k` the new log is the leader's. */
  ghost predicate Adopted(h: History, t: nat, x: seq<Entry>, k: nat, r: seq<Entry>) {
    && t in h.led && k <= |h.led[t].log| && k <= |r| && r[..k] == h.led[t].log[..k]
    && forall i {:trigger x[..i]} :: 0 <= i <= |x| ==>
         (i <= |r| && r[..i] == x[..i]) || Differs(h.led[t].log, x, i)
  }

  lemma MergedAdopted(h: History, t: nat, x: seq<Entry>, k: nat, r: seq<Entry>)
    requires t in h.led && k <= |h.led[t].log| && Merged(x, h.led[t].log, k, r)
    ensures Adopted(h, t, x, k, r)
  {
    var y := h.led[t].log;
    forall i | 0 <= i <= |x|
      ensures (i <= |r| && r[..i] == x[..i]) || Differs(y, x, i)
    {
      if r == y[..k] && !Differs(y, x, i) {
        assert forall j :: 0 <= j < i && j < |y| ==> y[j] == x[j];
      }
    }
  }

  /** Every promise survives adopting the leader's log. */
  lemma KeptAdopted(h: History, t: nat, x: seq<Entry>, k: nat, r: seq<Entry>, a: Ack)
    requires Adopted(h, t, x, k, r) && Kept(h, x, a, t + 1) && a.term <= t && h.led[t].durable
    ensures Kept(h, r, a, t + 1)
  {
    if HoldsAck(h, x, a) {
      assert x[..a.index] == x[..a.index];
      if !(a.index <= |r| && r[..a.index] == x[..a.index]) {
        var l := h.led[a.term].log;
        var j :| 0 <= j < a.index && j < |h.led[t].log| && j < |x| && h.led[t].log[j] != x[j];
        assert x[..a.index][j] == l[..a.index][j];
        assert l[j] == x[j];
        assert SupersededBy(h, a, t);
      }
    }
  }

  /** What is committed at this node survives adopting the leader's log. */
  lemma CommittedSurvives(env: Env, h: History, t: nat, x: seq<Entry>, k: nat, r: seq<Entry>, c: nat)
    requires LeadsOk(env, h) && AcksOk(h) && ElectionsOk(env, h)
    requires Adopted(h, t, x, k, r) && c <= |x| && Evidence(h, x, c, t)
    ensures c <= |r| && r[..c] == x[..c]
  {
    hide LeadsOk, AcksOk, ElectionsOk;
    LeaderHolds(env, h, x, c, t, t);
    assert x[..c] == x[..c];
    NotDifferent(h.led[t].log, x, c);
  }

  lemma NotDifferent(a: seq<Entry>, b: seq<Entry>, c: nat)
    requires c <= |a| && c <= |b| && a[..c] == b[..c]
    ensures !Differs(a, b, c)
  {
    forall j | 0 <= j < c
      ensures a[j] == b[j]
    {
      assert a[..c][j] == b[..c][j];
    }
  }

  lemma EvidencePrefix(h: History, s: seq<Entry>, k: nat, r: seq<Entry>, c: nat, bound: nat)
    requires Evidence(h, s, k, bound) && c <= k && c <= |r| && (k > 0 ==> k <= |s|) && c <= |s| && r[..c] == s[..c]
    ensures Evidence(h, r, c, bound)
  {
    if c > 0 {
      var t :| EvidenceAt(h, s, k, bound, t);
      assert s[..k][..c] == s[..c];
      assert h.led[t].log[..k][..c] == h.led[t].log[..c];
      assert EvidenceAt(h, r, c, bound, t);
    }
  }

  // ---- the node after adopting ----------------------------------------------------------------------------

  lemma AdoptedAcks(h: History, n: NodeId, m: Raft, m': Raft, k: nat)
    requires Adopted(h, m.term, m.log.full, k, m'.log.full) && h.led[m.term].durable
    requires m'.out.messages == m.out.messages && m'.term == m.term
    requires MemoryKeepsAcks(h, n, m) && GrantsKeepAcks(h, n, m) && LeadsKeepAcks(h, n, m)
    ensures MemoryKeepsAcks(h, n, m') && GrantsKeepAcks(h, n, m') && LeadsKeepAcks(h, n, m')
  {
    forall a | Owes(h, n, m', a)
      ensures a.term <= m'.term && Kept(h, m'.log.full, a, m'.term + 1)
      ensures forall g :: g in m'.out.messages && IsGrant(g) && a.term < g.msg.term ==>
                Kept(h, g.origin, a, g.msg.term + 1)
    {
      assert Owes(h, n, m, a);
      KeptAdopted(h, m.term, m.log.full, k, m'.log.full, a);
    }
    forall a
      ensures Pledged(m', a) ==> Pledged(m, a)
    {
    }
  }

  /** A follower whose log and commit index move to what the leader of its term holds. */
  ghost predicate Follows(h: History, n: NodeId, m: Raft, m': Raft) {
    && m'.id == n && m'.term == m.term && m'.vote == m.vote && m.role == Follower && m'.role == Follower
    && m'.progress == m.progress && m'.waiting == m.waiting && m'.persisted == m.persisted
    && m'.out.messages == m.out.messages && m'.out.confirmed == m.out.confirmed
    && m.commit <= m'.commit <= |m'.log.full| && m.applied <= m'.applied <= m'.commit && m'.log.base <= m'.applied
    && Rooted(h, m'.log.full) && Indexed(m'.log.full) && Owned(h, n, m'.log.full) && TermsUpTo(m'.log.full, m'.term)
    && Evidence(h, m'.log.full, m'.commit, m'.term)
  }

  lemma FollowsRest(env: Env, h: History, n: NodeId, m: Raft, m': Raft, st: Stored)
    requires Follows(h, n, m, m') && (HasQuorum(env.cfg, {n}) ==> m'.persisted <= |m'.log.full|)
    requires LogsOk(h, n, m, st) && LeaderOk(h, n, m) && CandidateOk(env, h, n, m, st) && OwnLeads(h, n, m, st)
    requires VotesOk(h, n, m, st) && CommitOk(h, m, st) && ProgressOk(h, n, m) && OutboxOk(h, n, m, st)
    requires ReadsOk(env, h, n, m, st)
    ensures LogsOk(h, n, m', st) && LeaderOk(h, n, m') && CandidateOk(env, h, n, m', st) && OwnLeads(h, n, m', st)
    ensures VotesOk(h, n, m', st) && CommitOk(h, m', st) && ProgressOk(h, n, m') && OutboxOk(h, n, m', st)
    ensures ReadsOk(env, h, n, m', st) && PersistedOk(env, h, n, m', st)
  {
    forall p
      ensures QueuedOk(h, n, m, st, p) ==> QueuedOk(h, n, m', st, p)
    {
    }
  }

  /** A node that hears from another as its leader cannot be a quorum by itself. */
  lemma NotAlone(env: Env, h: History, n: NodeId, t: nat)
    requires t in h.led && Elected(env, h, t) && h.led[t].leader != n
    ensures !HasQuorum(env.cfg, {n})
  {
    if HasQuorum(env.cfg, {n}) { SoleVoter(env.cfg, n, h.led[t].leader); }
  }

  // ---- entries -----------------------------------------------------------------------------------------------

  /** An append from the leader of this node's term, delivered to a follower. */
  ghost predicate AppendArrives(h: History, n: NodeId, m: Raft, p: Packet) {
    && p in h.net && p.dst == n && p.msg.term == m.term && p.msg.body.AppendReq? && m.role == Follower
    && m.log.base <= p.msg.body.prevIndex && TermAt(m.log, p.msg.body.prevIndex) == Some(p.msg.body.prevTerm)
  }

  /** A consistent append leaves the leader's log below the last new index. */
  lemma AppendAdopts(env: Env, h: History, n: NodeId, m: Raft, st: Stored, p: Packet)
    requires LeadsOk(env, h) && NetOk(h) && LogsOk(h, n, m, st) && AppendArrives(h, n, m, p)
    ensures var b := p.msg.body;
            var k := LastNew(b.prevIndex, b.entries);
            && k == b.prevIndex + |b.entries|
            && Adopted(h, m.term, m.log.full, k, Merge(m.log, b.entries).full)
            && Merge(m.log, b.entries).base == m.log.base
            && (Merge(m.log, b.entries).full == m.log.full || Merge(m.log, b.entries).full == h.led[m.term].log[..k])
  {
    var t, x, prev := m.term, m.log.full, p.msg.body.prevIndex;
    assert Truthful(h, p) && LeadShape(h, t);
    var y, k := h.led[t].log, prev + |p.msg.body.entries|;
    AgreeBelow(h, x, y, prev);
    RootedDecide(h, x, y);
    MergeResult(m.log, y, prev, k);
    MergedAdopted(h, t, x, k, Merge(m.log, y[prev..k]).full);
  }

  lemma AcceptShape(m: Raft, prev: nat, entries: seq<Entry>, leaderCommit: nat)
    ensures var m' := Accept(m, prev, entries, leaderCommit);
            && m'.log == Merge(m.log, entries)
            && m'.commit == Min(Max(m.commit, Min(leaderCommit, LastNew(prev, entries))), |m'.log.full|)
            && m' == m.(log := m'.log, commit := m'.commit, dirtyFrom := m'.dirtyFrom, hardDirty := m'.hardDirty)
  {
    var a := MergeEntries(m, entries);
    assert a == m.(log := Merge(m.log, entries), dirtyFrom := a.dirtyFrom);
    hide Merge, MergeEntries;
    var b := RaiseCommit(a, Min(leaderCommit, LastNew(prev, entries)));
    assert b == a.(commit := b.commit, hardDirty := b.hardDirty);
  }

  /** Leader Completeness at work: a consistent append neither truncates at or below the commit index
      nor makes the commit index fall back to the end of the log. */
  lemma AppendKeepsCommitted(env: Env, h: History, n: NodeId, m: Raft, st: Stored, p: Packet)
    requires LeadsOk(env, h) && AcksOk(h) && ElectionsOk(env, h) && NetOk(h)
    requires LogsOk(h, n, m, st) && CommitOk(h, m, st) && AppendArrives(h, n, m, p)
    ensures var b := p.msg.body;
            var m' := Accept(m, b.prevIndex, b.entries, b.commit);
            && m.commit <= |m'.log.full| && m'.log.full[..m.commit] == m.log.full[..m.commit]
            && m'.commit == Max(m.commit, Min(b.commit, LastNew(b.prevIndex, b.entries)))
  {
    var b := p.msg.body;
    assert m.commit <= |m.log.full| && Evidence(h, m.log.full, m.commit, m.term);
    hide LeadsOk, AcksOk, ElectionsOk, NetOk, LogsOk, CommitOk, Accept, Merge, Evidence;
    AppendAdopts(env, h, n, m, st, p);
    AcceptShape(m, b.prevIndex, b.entries, b.commit);
    CommittedSurvives(env, h, m.term, m.log.full, LastNew(b.prevIndex, b.entries), Merge(m.log, b.entries).full,
                      m.commit);
  }

  lemma Arrived(env: Env, h: History, p: Packet, t: nat)
    requires HistOk(env, h) && p in h.net
    ensures Truthful(h, p) && Backed(h, p) && (t in h.led ==> LeadShape(h, t))
  {
    hide Truthful, Backed, LeadShape, CommitBacked, AcksOk, ElectionsOk, GrantsAgree, GrantsKept, DurableDown, AskedOk;
  }

  lemma AcceptFollows(env: Env, h: History, n: NodeId, m: Raft, st: Stored, p: Packet)
    requires HistOk(env, h) && LogsOk(h, n, m, st) && CommitOk(h, m, st) && AppendArrives(h, n, m, p)
    ensures var b := p.msg.body;
            var m' := Accept(m, b.prevIndex, b.entries, b.commit);
            && Follows(h, n, m, m') && h.led[m.term].durable
            && HoldsAck(h, m'.log.full, Ack(n, m.term, LastNew(b.prevIndex, b.entries)))
  {
    hide LeadsOk, AcksOk, ElectionsOk, NetOk, GrantsAgree, GrantsKept, AskedOk, Accept, Merge;
    var b, t := p.msg.body, m.term;
    var m', k := Accept(m, b.prevIndex, b.entries, b.commit), LastNew(b.prevIndex, b.entries);
    Arrived(env, h, p, t);
    hide LeadShape, Backed;
    AppendAdopts(env, h, n, m, st, p);
    AppendKeepsCommitted(env, h, n, m, st, p);
    AcceptShape(m, b.prevIndex, b.entries, b.commit);
    LeaderPrefix(env, h, n, t, k);
    AcceptEvidence(h, m, m', b.commit, k);
  }

  lemma AcceptEvidence(h: History, m: Raft, m': Raft, leaderCommit: nat, k: nat)
    requires m.term in h.led && k <= |h.led[m.term].log| && k <= |m'.log.full|
    requires m'.log.full[..k] == h.led[m.term].log[..k]
    requires m.commit <= |m.log.full| && m.commit <= |m'.log.full| && m'.log.full[..m.commit] == m.log.full[..m.commit]
    requires Evidence(h, m.log.full, m.commit, m.term) && Evidence(h, h.led[m.term].log, leaderCommit, m.term)
    requires m'.commit == Max(m.commit, Min(leaderCommit, k))
    ensures Evidence(h, m'.log.full, m'.commit, m.term)
  {
    if m'.commit == m.commit {
      EvidencePrefix(h, m.log.full, m.commit, m'.log.full, m.commit, m.term);
    } else {
      var c, l := m'.commit, h.led[m.term].log;
      assert m'.log.full[..c] == m'.log.full[..k][..c] == l[..k][..c] == l[..c];
      EvidencePrefix(h, l, leaderCommit, m'.log.full, c, m.term);
    }
  }

  lemma AcceptKeeps(env: Env, h: History, n: NodeId, m: Raft, st: Stored, p: Packet)
    requires HistOk(env, h) && NodeOk(env, h, n, m, st) && AppendArrives(h, n, m, p)
    ensures var b := p.msg.body;
            var m' := Accept(m, b.prevIndex, b.entries, b.commit);
            && NodeOk(env, h, n, m', st) && m'.role == Follower
            && HoldsAck(h, m'.log.full, Ack(n, m.term, LastNew(b.prevIndex, b.entries)))
  {
    var b := p.msg.body;
    var m', k := Accept(m, b.prevIndex, b.entries, b.commit), LastNew(b.prevIndex, b.entries);
    hide LogsOk, LeaderOk, CandidateOk, OwnLeads, VotesOk, DiskKeepsAcks, MemoryKeepsAcks, GrantsKeepAcks,
         LeadsKeepAcks;
    hide CommitOk, ProgressOk, PersistedOk, OutboxOk, ReadsOk, Adopted, HoldsAck, Accept, Merge;
    hide LeadsOk, AcksOk, ElectionsOk, NetOk, GrantsAgree, GrantsKept, DurableDown, AskedOk;
    AcceptFollows(env, h, n, m, st, p);
    AppendAdopts(env, h, n, m, st, p);
    AcceptShape(m, b.prevIndex, b.entries, b.commit);
    LeaderElsewhere(env, h, n, m, p);
    AdoptedAcks(h, n, m, m', k);
    FollowsRest(env, h, n, m, m', st);
  }

  /** A message only a leader sends shows that this node is no quorum by itself. */
  lemma LeaderElsewhere(env: Env, h: History, n: NodeId, m: Raft, p: Packet)
    requires ElectionsOk(env, h) && NetOk(h) && p in h.net && p.dst == n && FromLeader(p)
    ensures !HasQuorum(env.cfg, {n})
  {
    assert Truthful(h, p) && Backed(h, p) && Elected(env, h, p.msg.term);
    NotAlone(env, h, n, p.msg.term);
  }

  // ---- snapshots ------------------------------------------------------------------------------------------------

  /** A snapshot this node does not cover yet, from the leader of its term. */
  ghost predicate SnapshotArrives(h: History, n: NodeId, m: Raft, p: Packet) {
    && p in h.net && p.dst == n && p.msg.term == m.term && p.msg.body.SnapshotReq? && m.role == Follower
    && |p.msg.body.snapshot.prefix| > m.commit
  }

  /** Replacing a log that is shorter than the leader's prefix, or differs from it at its end. */
  lemma ReplacedAdopted(h: History, t: nat, x: seq<Entry>, k: nat)
    requires t in h.led && 0 < k <= |h.led[t].log| && (|x| < k || x[k - 1] != h.led[t].log[k - 1])
    ensures Adopted(h, t, x, k, h.led[t].log[..k])
  {
    var y := h.led[t].log;
    forall i | 0 <= i <= |x|
      ensures (i <= k && y[..k][..i] == x[..i]) || Differs(y, x, i)
    {
      if !Differs(y, x, i) {
        assert forall j :: 0 <= j < i && j < |y| ==> y[j] == x[j];
      }
    }
  }

  lemma SnapshotImage(env: Env, h: History, p: Packet)
    requires LeadsOk(env, h) && NetOk(h) && p in h.net && p.msg.body.SnapshotReq?
    ensures p.msg.term in h.led && Rooted(h, h.led[p.msg.term].log)
    ensures var image := p.msg.body.snapshot.prefix;
            |image| <= |h.led[p.msg.term].log| && image == h.led[p.msg.term].log[..|image|]
  {
    assert Truthful(h, p) && LeadShape(h, p.msg.term);
  }

  lemma InstallAdopts(env: Env, h: History, n: NodeId, m: Raft, st: Stored, p: Packet)
    requires LeadsOk(env, h) && NetOk(h) && LogsOk(h, n, m, st) && CommitOk(h, m, st) && SnapshotArrives(h, n, m, p)
    ensures var image := p.msg.body.snapshot.prefix;
            var r := InstallSnapshot(m.log, image);
            && Adopted(h, m.term, m.log.full, |image|, r.full) && r.base == |image|
            && (r.full == m.log.full || r.full == h.led[m.term].log[..|image|])
            && r.full[..|image|] == image
  {
    var t, x, image := m.term, m.log.full, p.msg.body.snapshot.prefix;
    SnapshotImage(env, h, p);
    hide LeadsOk, NetOk, Rooted, Adopted;
    var y, k := h.led[t].log, |image|;
    assert y[..k][k - 1] == y[k - 1];
    if TermAt(m.log, k) == Some(LastTermOf(image)) {
      LogMatching(h, x, y, k - 1);
    } else {
      ReplacedAdopted(h, t, x, k);
    }
  }

  lemma InstallFollows(env: Env, h: History, n: NodeId, m: Raft, st: Stored, p: Packet)
    requires HistOk(env, h) && LogsOk(h, n, m, st) && CommitOk(h, m, st) && SnapshotArrives(h, n, m, p)
    ensures var image := p.msg.body.snapshot;
            var m' := Install(m, image);
            && Follows(h, n, m, m') && h.led[m.term].durable
            && HoldsAck(h, m'.log.full, Ack(n, m.term, |image.prefix|))
  {
    hide LeadsOk, AcksOk, ElectionsOk, NetOk, GrantsAgree, GrantsKept, AskedOk, InstallSnapshot;
    var image, t := p.msg.body.snapshot, m.term;
    var m', k := Install(m, image), |image.prefix|;
    Arrived(env, h, p, t);
    hide LeadShape, Backed;
    InstallAdopts(env, h, n, m, st, p);
    LeaderPrefix(env, h, n, t, k);
    assert image.prefix[..k] == image.prefix;
    EvidencePrefix(h, image.prefix, k, m'.log.full, k, t);
  }

  lemma InstallKeeps(env: Env, h: History, n: NodeId, m: Raft, st: Stored, p: Packet)
    requires HistOk(env, h) && NodeOk(env, h, n, m, st) && SnapshotArrives(h, n, m, p)
    ensures var image := p.msg.body.snapshot;
            var m' := Install(m, image);
            && NodeOk(env, h, n, m', st) && m'.role == Follower
            && HoldsAck(h, m'.log.full, Ack(n, m.term, |image.prefix|))
  {
    var image := p.msg.body.snapshot;
    hide LogsOk, LeaderOk, CandidateOk, OwnLeads, VotesOk, DiskKeepsAcks, MemoryKeepsAcks, GrantsKeepAcks,
         LeadsKeepAcks;
    hide CommitOk, ProgressOk, PersistedOk, OutboxOk, ReadsOk, Adopted, HoldsAck, InstallSnapshot;
    hide LeadsOk, AcksOk, ElectionsOk, NetOk, GrantsAgree, GrantsKept, DurableDown, AskedOk;
    InstallFollows(env, h, n, m, st, p);
    InstallAdopts(env, h, n, m, st, p);
    LeaderElsewhere(env, h, n, m, p);
    AdoptedAcks(h, n, m, Install(m, image), |image.prefix|);
    FollowsRest(env, h, n, m, Install(m, image), st);
  }

  // ---- answers from what is already committed ---------------------------------------------------------------------

  /** A node may acknowledge its own commit index, or anything below it, to the leader of its term. */
  lemma CommittedIsHeld(env: Env, h: History, n: NodeId, m: Raft, st: Stored, k: nat)
    requires LeadsOk(env, h) && AcksOk(h) && ElectionsOk(env, h) && CommitOk(h, m, st)
    requires m.term in h.led && k <= m.commit
    ensures HoldsAck(h, m.log.full, Ack(n, m.term, k))
  {
    hide LeadsOk, AcksOk, ElectionsOk;
    LeaderHolds(env, h, m.log.full, m.commit, m.term, m.term);
    HoldsLess(h, m.log.full, Ack(n, m.term, m.commit), Ack(n, m.term, k));
  }

  /** The cap on a heartbeat's commit index is sound: the follower holds the leader's entries there. */
  lemma LearnKeeps(env: Env, h: History, n: NodeId, m: Raft, st: Stored, p: Packet)
    requires HistOk(env, h) && NodeOk(env, h, n, m, st) && m.role == Follower
    requires p in h.net && p.dst == n && p.msg.term == m.term && p.msg.body.HeartbeatReq?
    ensures NodeOk(env, h, n, LearnCommit(m, p.msg.body.commit), st)
  {
    var c, m' := p.msg.body.commit, LearnCommit(m, p.msg.body.commit);
    if m'.commit > m.commit {
      LearnEvidence(h, n, m, p);
      AcksUnmoved(h, n, m, m');
      hide LogsOk, LeaderOk, CandidateOk, OwnLeads, VotesOk, DiskKeepsAcks, MemoryKeepsAcks, GrantsKeepAcks,
           LeadsKeepAcks;
      hide CommitOk, ProgressOk, OutboxOk, ReadsOk, HistOk, Follows;
      FollowsRest(env, h, n, m, m', st);
    }
  }

  lemma LearnEvidence(h: History, n: NodeId, m: Raft, p: Packet)
    requires NetOk(h) && MemoryKeepsAcks(h, n, m)
    requires p in h.net && p.dst == n && p.msg.term == m.term && p.msg.body.HeartbeatReq? && p.msg.body.commit > 0
    ensures var c := p.msg.body.commit; c <= |m.log.full| && Evidence(h, m.log.full, c, m.term)
  {
    var c, a := p.msg.body.commit, Ack(n, m.term, p.msg.body.commit);
    assert Truthful(h, p);
    assert Owes(h, n, m, a);
    assert HoldsAck(h, m.log.full, a);
    EvidencePrefix(h, h.led[m.term].log, c, m.log.full, c, m.term);
  }

}
