/** Winning an election, leading, and declaring entries committed: the steps that add to the
    record of leaderships. */
module RaftLeadership {
  import opened Types
  import opened Quorum
  import opened RaftLog
  import opened RaftNode
  import opened RaftHistory
  import opened RaftGrowth
  import opened RaftInvariant
  import opened RaftSteps

  // ---- elections ---------------------------------------------------------------------------

  /** A vote a candidate may count: the request it answers described the log the candidate has. */
  lemma GrantIsSeen(env: Env, h: History, n: NodeId, m: Raft, st: Stored, p: Packet)
    requires NetOk(h) && CandidateOk(env, h, n, m, st) && m.role == Candidate
    requires p in h.net && IsGrant(p) && p.dst == n && p.msg.term == m.term
    ensures VoteSeen(h, n, m, p.src)
  {
    assert Requested(h, p);
    var r :| r in h.net && r.src == p.dst && r.msg.term == p.msg.term && r.msg.body.VoteReq?
           && UpToDate(p.origin, r.msg.body.lastTerm, r.msg.body.lastIndex);
    assert AsksFor(r, n, m);
  }

  lemma RecordVoteKeeps(env: Env, h: History, n: NodeId, m: Raft, st: Stored, votes: map<NodeId, bool>)
    requires NodeOk(env, h, n, m, st)
    requires m.role == Candidate ==> forall v :: v in votes && votes[v] && v != n ==> VoteSeen(h, n, m, v)
    ensures NodeOk(env, h, n, m.(votes := votes), st)
  {
    var m' := m.(votes := votes);
    AcksUnmoved(h, n, m, m');
    SettleRest(env, h, n, m, m'.(votes := m.votes), st);
    forall p
      ensures QueuedOk(h, n, m, st, p) ==> QueuedOk(h, n, m', st, p)
      ensures AsksFor(p, n, m) ==> AsksFor(p, n, m')
    {
    }
    forall v
      ensures VoteSeen(h, n, m, v) ==> VoteSeen(h, n, m', v)
    {
    }
    forall r
      ensures ReadOk(env, h, m, r) ==> ReadOk(env, h, m', r)
    {
    }
  }

  /** Election Safety: a candidate with a quorum of votes is the first leader of its term. */
  lemma FirstLeaderOfTerm(env: Env, h: History, n: NodeId, m: Raft, st: Stored)
    requires ElectionsOk(env, h) && NetOk(h) && GrantsAgree(h)
    requires CandidateOk(env, h, n, m, st) && VotesOk(h, n, m, st) && OwnLeads(h, n, m, st)
    requires m.role == Candidate && Tally(env, m)
    ensures m.term !in h.led
  {
    var t := m.term;
    if t in h.led {
      assert Elected(env, h, t);
      QuorumsIntersect(env.cfg, Granted(m), h.led[t].voters);
      var v :| v in Granted(m) && v in h.led[t].voters;
      VotedOnce(env, h, n, m, st, v);
    }
  }

  /** A voter both elections share chose the same leader in both. */
  lemma VotedOnce(env: Env, h: History, n: NodeId, m: Raft, st: Stored, v: NodeId)
    requires GrantsAgree(h) && CandidateOk(env, h, n, m, st) && VotesOk(h, n, m, st)
    requires m.role == Candidate && v in Granted(m) && Supported(h, m.term, v)
    ensures h.led[m.term].leader == n
  {
    var t := m.term;
    if v != n {
      assert VoteSeen(h, n, m, v);
      var q :| q in h.net && IsGrant(q) && q.src == v && q.dst == n && q.msg.term == t;
    }
    if v != h.led[t].leader {
      var p :| GrantFor(h, p, t, v) && Ballot(h, t, v, p.origin);
    }
  }

  ghost function OwnEntry(m: Raft, kind: EntryKind): Entry {
    Entry(m.term, |m.log.full| + 1, kind)
  }

  /** The history once `n` leads its term. */
  ghost function WithLead(h: History, m: Raft, st: Stored): History {
    h.(led := h.led[m.term :=
      Lead(m.id, Granted(m), |m.log.full|, m.log.full + [OwnEntry(m, Noop)], 0, st.term == m.term)])
  }

  lemma WithLeadGrows(h: History, m: Raft, st: Stored)
    requires m.term !in h.led
    ensures Grows(h, WithLead(h, m, st)) && AddedBy(h, WithLead(h, m, st), m.id)
  {
    forall t | t in h.led
      ensures LeadGrows(h.led[t], WithLead(h, m, st).led[t])
    {
      assert h.led[t].log[..|h.led[t].log|] == h.led[t].log;
    }
  }

  /** The log a leader extends with an entry of its own term stays rooted. */
  lemma OwnEntryRooted(h: History, h': History, n: NodeId, s: seq<Entry>, e: Entry)
    requires Grows(h, h') && Rooted(h, s) && Owned(h, n, s) && Indexed(s)
    requires e.term in h'.led && h'.led[e.term].log == s + [e] && h'.led[e.term].leader == n && e.index == |s| + 1
    ensures Rooted(h', s + [e]) && Owned(h', n, s + [e]) && Indexed(s + [e])
  {
    RootedGrows(h, h', s);
    OwnedGrows(h, h', n, s);
    var x := s + [e];
    forall i | 0 <= i < |x|
      ensures RootedAt(h', x, i) && OwnedAt(h', n, x, i)
    {
      if i < |s| {
        assert RootedAt(h', s, i) && OwnedAt(h', n, s, i);
        assert x[..i + 1] == s[..i + 1];
      }
    }
  }

  /** A ballot for a brand-new leader: nothing of its own term can have superseded anything yet. */
  lemma KeptBelow(h: History, s: seq<Entry>, a: Ack, t: nat)
    requires Kept(h, s, a, t + 1) && t !in h.led
    ensures Kept(h, s, a, t)
  {
    if !HoldsAck(h, s, a) {
      var w: nat :| w < t + 1 && SupersededBy(h, a, w);
      assert w != t;
    }
  }

  lemma NewBallot(h: History, h': History, t: nat, v: NodeId, s: seq<Entry>, c: seq<Entry>)
    requires Grows(h, h') && h'.acks == h.acks && t !in h.led && t in h'.led
    requires Rooted(h, s) && ElectedLog(h'.led[t]) == c && h'.led[t].start == |c| && UpToDate(s, LastTermOf(c), |c|)
    requires forall a :: a in h.acks && a.node == v && a.term < t ==> Kept(h, s, a, t + 1)
    ensures Ballot(h', t, v, s)
  {
    RootedGrows(h, h', s);
    forall a | a in h'.acks && a.node == v && a.term < t
      ensures Kept(h', s, a, t)
    {
      KeptBelow(h, s, a, t);
      KeptGrows(h, h', s, a, t);
    }
  }

  lemma NewLeadElected(env: Env, h: History, n: NodeId, m: Raft, st: Stored)
    requires NetOk(h) && GrantsKept(h) && LogsOk(h, n, m, st) && CandidateOk(env, h, n, m, st)
    requires MemoryKeepsAcks(h, n, m) && m.role == Candidate && Tally(env, m) && m.term !in h.led
    ensures Elected(env, WithLead(h, m, st), m.term)
  {
    var h', t, c := WithLead(h, m, st), m.term, m.log.full;
    WithLeadGrows(h, m, st);
    assert ElectedLog(h'.led[t]) == c;
    forall v | v in h'.led[t].voters
      ensures Supported(h', t, v)
    {
      if v == n {
        assert forall a :: a in h.acks && a.node == n ==> Owes(h, n, m, a);
        NewBallot(h, h', t, n, c, c);
      } else {
        assert VoteSeen(h, n, m, v);
        var p :| p in h.net && IsGrant(p) && p.src == v && p.dst == n && p.msg.term == m.term
               && UpToDate(p.origin, LastTerm(m.log), LastIndex(m.log));
        assert Truthful(h, p);
        NewBallot(h, h', t, v, p.origin, c);
        assert GrantFor(h', p, t, v);
      }
    }
  }

  lemma NewLeadShape(env: Env, h: History, n: NodeId, m: Raft, st: Stored)
    requires LogsOk(h, n, m, st) && m.term > 0 && m.term !in h.led
    ensures LeadShape(WithLead(h, m, st), m.term)
  {
    var h', s := WithLead(h, m, st), m.log.full;
    WithLeadGrows(h, m, st);
    OwnEntryRooted(h, h', n, s, OwnEntry(m, Noop));
    forall i | 0 <= i < |s|
      ensures s[i].term < m.term
    {
      assert RootedAt(h, s, i);
    }
  }

  /** The unchanged part of the record after a step that adds no acknowledgement and no message. */
  lemma RecordGrows(env: Env, h: History, h': History, t: nat)
    requires HistOk(env, h) && Grows(h, h') && h'.acks == h.acks && h'.net == h.net
    requires forall u :: u in h'.led && u != t ==> u in h.led && h'.led[u] == h.led[u]
    requires LeadShape(h', t) && CommitBacked(env, h', t) && Elected(env, h', t)
    ensures LeadsOk(env, h') && AcksOk(h') && ElectionsOk(env, h') && NetOk(h') && GrantsKept(h')
  {
    forall u | u in h'.led
      ensures LeadShape(h', u) && CommitBacked(env, h', u) && Elected(env, h', u)
    {
      if u != t {
        assert LeadShape(h, u) && CommitBacked(env, h, u) && Elected(env, h, u);
        LeadShapeGrows(h, h', u);
        CommitBackedGrows(env, h, h', u);
        ElectedGrows(env, h, h', u);
      }
    }
    forall p | p in h'.net
      ensures Truthful(h', p) && Backed(h', p)
    {
      TruthfulGrows(h, h', p);
      BackedGrows(h, h', p);
    }
    forall p, a | p in h'.net && IsGrant(p) && a in h'.acks && a.node == p.src && a.term < p.msg.term
      ensures Kept(h', p.origin, a, p.msg.term + 1)
    {
      KeptGrows(h, h', p.origin, a, p.msg.term + 1);
    }
    AcksGrow(h, h');
  }

  lemma AcksGrow(h: History, h': History)
    requires Grows(h, h') && AcksOk(h) && h'.acks == h.acks
    ensures AcksOk(h')
  {
    forall a | a in h'.acks
      ensures a.term in h'.led && h'.led[a.term].durable && a.index <= |h'.led[a.term].log|
    {
      assert LeadGrows(h.led[a.term], h'.led[a.term]);
    }
  }

  lemma NewLeadOrdered(env: Env, h: History, n: NodeId, m: Raft, st: Stored)
    requires GrantsAgree(h) && DurableDown(h) && AskedOk(h) && NetOk(h)
    requires OwnLeads(h, n, m, st) && VotesOk(h, n, m, st) && m.vote == Some(n) && m.id == n && m.term !in h.led
    ensures GrantsAgree(WithLead(h, m, st)) && DurableDown(WithLead(h, m, st)) && AskedOk(WithLead(h, m, st))
  {
    var h' := WithLead(h, m, st);
    forall p | p in h'.net && IsGrant(p) && p.msg.term in h'.led
      ensures h'.led[p.msg.term].leader != p.src
    {
      assert Backed(h, p);
    }
  }

  /** Becoming leader keeps the record consistent. */
  lemma NewLeadRecorded(env: Env, h: History, n: NodeId, m: Raft, st: Stored)
    requires HistOk(env, h) && NodeOk(env, h, n, m, st) && m.role == Candidate && Tally(env, m) && m.term > 0
    ensures m.term !in h.led && HistOk(env, WithLead(h, m, st))
  {
    FirstLeaderOfTerm(env, h, n, m, st);
    WithLeadGrows(h, m, st);
    NewLeadShape(env, h, n, m, st);
    NewLeadElected(env, h, n, m, st);
    NewLeadOrdered(env, h, n, m, st);
    hide LeadsOk, AcksOk, ElectionsOk, NetOk, GrantsAgree, GrantsKept, DurableDown, AskedOk;
    hide LeadShape, Elected, Grows;
    RecordGrows(env, h, WithLead(h, m, st), m.term);
  }

  // ---- a leader extends its log ---------------------------------------------------------------

  lemma KeptLonger(h: History, s: seq<Entry>, e: Entry, a: Ack, bound: nat)
    requires Kept(h, s, a, bound)
    ensures Kept(h, s + [e], a, bound)
  {
    if HoldsAck(h, s, a) {
      assert (s + [e])[..a.index] == s[..a.index];
    }
  }

  /** `m'` is `m` with one entry of its own term more, and nothing else its promises rest on changed. */
  ghost predicate Extended(h: History, h': History, n: NodeId, m: Raft, m': Raft, e: Entry) {
    && Grows(h, h') && h'.acks == h.acks && h'.net == h.net && h'.asked == h.asked
    && m'.id == n && m'.term == m.term && m'.vote == m.vote && m'.out == m.out
    && m'.commit == m.commit && m'.applied == m.applied && m'.persisted == m.persisted
    && m'.log.base == m.log.base && m'.log.full == m.log.full + [e]
    && e.term == m.term && e.index == |m.log.full| + 1
    && m.term in h'.led && h'.led[m.term].log == m'.log.full && h'.led[m.term].leader == n
  }

  lemma ExtendedAcks(h: History, h': History, n: NodeId, m: Raft, m': Raft, st: Stored, e: Entry)
    requires Extended(h, h', n, m, m', e)
    requires MemoryKeepsAcks(h, n, m) && GrantsKeepAcks(h, n, m) && DiskKeepsAcks(h, n, st)
    ensures MemoryKeepsAcks(h', n, m') && GrantsKeepAcks(h', n, m') && DiskKeepsAcks(h', n, st)
  {
    forall a | Owes(h', n, m', a)
      ensures a.term <= m'.term && Kept(h', m'.log.full, a, m'.term + 1)
    {
      assert Owes(h, n, m, a);
      KeptGrows(h, h', m.log.full, a, m.term + 1);
      KeptLonger(h', m.log.full, e, a, m.term + 1);
    }
    forall a, g | Owes(h', n, m', a) && g in m'.out.messages && IsGrant(g) && a.term < g.msg.term
      ensures Kept(h', g.origin, a, g.msg.term + 1)
    {
      assert Owes(h, n, m, a);
      KeptGrows(h, h', g.origin, a, g.msg.term + 1);
    }
    DiskAcksGrow(h, h', n, st);
  }

  lemma ExtendedLogs(h: History, h': History, n: NodeId, m: Raft, m': Raft, st: Stored, e: Entry)
    requires Extended(h, h', n, m, m', e)
    requires LogsOk(h, n, m, st) && CommitOk(h, m, st) && OutboxOk(h, n, m, st)
    ensures LogsOk(h', n, m', st) && CommitOk(h', m', st) && OutboxOk(h', n, m', st)
  {
    OwnEntryRooted(h, h', n, m.log.full, e);
    RootedGrows(h, h', st.log);
    SettledGrows(h, h', st.log);
    assert m'.log.full[..m.commit] == m.log.full[..m.commit];
    EvidenceGrows(h, h', m.log.full, m'.log.full, m.commit, m.term, m.term);
    EvidenceGrows(h, h', st.log, st.log, Max(st.commit, st.snap), st.term, st.term);
    OutboxGrows(h, h', n, m, st);
    forall p
      ensures QueuedOk(h', n, m, st, p) ==> QueuedOk(h', n, m', st, p)
    {
    }
  }

  /** The durable index of a candidate that wins does not reach past its log. */
  lemma WinnerPersisted(env: Env, h: History, n: NodeId, m: Raft, st: Stored)
    requires NetOk(h) && CandidateOk(env, h, n, m, st) && PersistedOk(env, h, n, m, st) && OutboxOk(h, n, m, st)
    requires m.role == Candidate && Tally(env, m)
    ensures m.persisted <= |m.log.full|
  {
    if forall v :: v in Granted(m) ==> v == n {
      QuorumGrows(env.cfg, Granted(m), {n});
    } else {
      var v :| v in Granted(m) && v != n;
      assert VoteSeen(h, n, m, v);
      var p :| p in h.net && IsGrant(p) && p.src == v && p.dst == n && p.msg.term == m.term;
      assert Requested(h, p);
    }
  }

  /** Becoming leader, no-op included, keeps the node's invariant. */
  lemma LeaderKeeps(env: Env, h: History, n: NodeId, m: Raft, st: Stored)
    requires HistOk(env, h) && NodeOk(env, h, n, m, st) && m.role == Candidate && Tally(env, m) && m.term !in h.led
    ensures NodeOk(env, WithLead(h, m, st), n, AppendOwn(TakeLeadership(env, m), Noop), st)
  {
    var h', m', e := WithLead(h, m, st), AppendOwn(TakeLeadership(env, m), Noop), OwnEntry(m, Noop);
    WithLeadGrows(h, m, st);
    assert Extended(h, h', n, m, m', e);
    ExtendedAcks(h, h', n, m, m', st, e);
    ExtendedLogs(h, h', n, m, m', st, e);
    WinnerPersisted(env, h, n, m, st);
    NewLeaderRoles(env, h, n, m, st);
    NewLeaderLeadAcks(h, n, m, m', st);
  }

  lemma NewLeaderLeadAcks(h: History, n: NodeId, m: Raft, m': Raft, st: Stored)
    requires MemoryKeepsAcks(h, n, m) && LeadsKeepAcks(h, n, m) && m.id == n && m.term !in h.led
    requires forall t :: t in h.led ==> LeadShape(h, t)
    requires m'.out == m.out
    ensures LeadsKeepAcks(WithLead(h, m, st), n, m')
  {
    var h' := WithLead(h, m, st);
    WithLeadGrows(h, m, st);
    assert ElectedLog(h'.led[m.term]) == m.log.full;
    forall a: Ack, t | a.node == n && Pledged(m', a) && t in h'.led && h'.led[t].leader == n && a.term < t
      ensures Kept(h', ElectedLog(h'.led[t]), a, t)
    {
      assert Pledged(m, a);
      if t == m.term {
        assert Owes(h, n, m, a);
        KeptBelow(h, m.log.full, a, t);
        KeptGrows(h, h', m.log.full, a, t);
      } else {
        KeptGrows(h, h', ElectedLog(h.led[t]), a, t);
      }
    }
  }

  lemma NewLeaderRoles(env: Env, h: History, n: NodeId, m: Raft, st: Stored)
    requires m.id == n && m.role == Candidate && m.term !in h.led && st.term <= m.term
    requires CandidateOk(env, h, n, m, st) && OwnLeads(h, n, m, st) && VotesOk(h, n, m, st) && OutboxOk(h, n, m, st)
    ensures var h' := WithLead(h, m, st);
            var m' := AppendOwn(TakeLeadership(env, m), Noop);
            LeaderOk(h', n, m') && CandidateOk(env, h', n, m', st) && OwnLeads(h', n, m', st) && VotesOk(h', n, m', st)
  {
    assert forall p :: p in m.out.messages ==> QueuedOk(h, n, m, st, p);
  }

  // ---- a leader proposes ------------------------------------------------------------------------

  ghost function WithEntry(h: History, m: Raft, kind: EntryKind): History
    requires m.term in h.led
  {
    h.(led := h.led[m.term := h.led[m.term].(log := m.log.full + [OwnEntry(m, kind)])])
  }

  lemma WithEntryGrows(h: History, n: NodeId, m: Raft, kind: EntryKind)
    requires LeaderOk(h, n, m) && m.role == Leader
    ensures Grows(h, WithEntry(h, m, kind)) && AddedBy(h, WithEntry(h, m, kind), n)
  {
    var h' := WithEntry(h, m, kind);
    forall t | t in h.led
      ensures LeadGrows(h.led[t], h'.led[t])
    {
      assert h'.led[t].log[..|h.led[t].log|] == h.led[t].log;
    }
  }

  /** Updating a leadership in place disturbs none of the orderings between leaderships. */
  lemma OrderKept(h: History, h': History)
    requires GrantsAgree(h) && DurableDown(h) && AskedOk(h)
    requires h'.net == h.net && h'.asked == h.asked && h'.led.Keys == h.led.Keys
    requires forall t :: t in h.led ==> h'.led[t].leader == h.led[t].leader && h'.led[t].durable == h.led[t].durable
    ensures GrantsAgree(h') && DurableDown(h') && AskedOk(h')
  {
  }

  /** A proposal keeps the record consistent. */
  lemma ProposalRecorded(env: Env, h: History, n: NodeId, m: Raft, st: Stored, kind: EntryKind)
    requires HistOk(env, h) && LogsOk(h, n, m, st) && LeaderOk(h, n, m) && m.role == Leader
    ensures HistOk(env, WithEntry(h, m, kind))
  {
    hide LeadsOk, AcksOk, ElectionsOk, NetOk, GrantsAgree, GrantsKept, DurableDown, AskedOk;
    var h', t, e := WithEntry(h, m, kind), m.term, OwnEntry(m, kind);
    LedParts(env, h, t);
    WithEntryGrows(h, n, m, kind);
    OwnEntryRooted(h, h', n, m.log.full, e);
    CommitBackedGrows(env, h, h', t);
    ElectedGrows(env, h, h', t);
    assert LeadShape(h', t);
    OrderKept(h, h');
    hide LeadShape, Elected, CommitBacked, Grows;
    RecordGrows(env, h, h', t);
  }

  lemma ProposalExtends(h: History, n: NodeId, m: Raft, kind: EntryKind)
    requires m.id == n && LeaderOk(h, n, m) && m.role == Leader
    ensures Extended(h, WithEntry(h, m, kind), n, m, AppendOwn(m, kind), OwnEntry(m, kind))
  {
    WithEntryGrows(h, n, m, kind);
  }

  lemma LeadShapes(env: Env, h: History)
    requires LeadsOk(env, h)
    ensures forall t :: t in h.led ==> LeadShape(h, t)
  {
  }

  lemma ProposalKeeps(env: Env, h: History, n: NodeId, m: Raft, st: Stored, kind: EntryKind)
    requires HistOk(env, h) && NodeOk(env, h, n, m, st) && m.id == n && m.role == Leader
    ensures m.term in h.led && NodeOk(env, WithEntry(h, m, kind), n, AppendOwn(m, kind), st)
  {
    assert LeaderOk(h, n, m);
    hide LogsOk, LeaderOk, CandidateOk, OwnLeads, VotesOk, DiskKeepsAcks, MemoryKeepsAcks, GrantsKeepAcks,
         LeadsKeepAcks;
    hide CommitOk, ProgressOk, PersistedOk, OutboxOk, ReadsOk, Extended, Grows;
    hide LeadsOk, AcksOk, ElectionsOk, NetOk, GrantsAgree, GrantsKept, DurableDown, AskedOk, LeadShape, AppendOwn;
    var h', m', e := WithEntry(h, m, kind), AppendOwn(m, kind), OwnEntry(m, kind);
    WithEntryGrows(h, n, m, kind);
    ProposalExtends(h, n, m, kind);
    ExtendedAcks(h, h', n, m, m', st, e);
    ExtendedLogs(h, h', n, m, m', st, e);
    LeadShapes(env, h);
    ProposalLeadAcks(h, n, m, kind);
    ProposerRoles(env, h, n, m, st, kind);
  }

  lemma ProposalLeadAcks(h: History, n: NodeId, m: Raft, kind: EntryKind)
    requires LeaderOk(h, n, m) && m.role == Leader && LeadsKeepAcks(h, n, m)
    requires forall t :: t in h.led ==> LeadShape(h, t)
    ensures LeadsKeepAcks(WithEntry(h, m, kind), n, AppendOwn(m, kind))
  {
    WithEntryGrows(h, n, m, kind);
    LeadAcksGrow(h, WithEntry(h, m, kind), n, m);
    SameOutLeadAcks(WithEntry(h, m, kind), n, m, AppendOwn(m, kind));
  }

  lemma SameOutLeadAcks(h: History, n: NodeId, m: Raft, m': Raft)
    requires LeadsKeepAcks(h, n, m) && m'.out == m.out
    ensures LeadsKeepAcks(h, n, m')
  {
    forall a
      ensures Pledged(m', a) ==> Pledged(m, a)
    {
    }
  }

  lemma ProposerRoles(env: Env, h: History, n: NodeId, m: Raft, st: Stored, kind: EntryKind)
    requires m.id == n && m.role == Leader && LeaderOk(h, n, m) && CandidateOk(env, h, n, m, st)
    requires OwnLeads(h, n, m, st) && VotesOk(h, n, m, st) && ProgressOk(h, n, m) && PersistedOk(env, h, n, m, st)
    requires ReadsOk(env, h, n, m, st)
    ensures var h' := WithEntry(h, m, kind);
            var m' := AppendOwn(m, kind);
            && LeaderOk(h', n, m') && CandidateOk(env, h', n, m', st) && OwnLeads(h', n, m', st)
            && VotesOk(h', n, m', st)
            && ProgressOk(h', n, m') && PersistedOk(env, h', n, m', st) && ReadsOk(env, h', n, m', st)
  {
    var h', m' := WithEntry(h, m, kind), AppendOwn(m, kind);
    forall r
      ensures ReadOk(env, h, m, r) ==> ReadOk(env, h', m', r)
    {
    }
  }

  // ---- a leader declares entries committed ----------------------------------------------------------

  ghost function WithCommit(h: History, m: Raft, k: nat): History
    requires m.term in h.led
  {
    h.(led := h.led[m.term := h.led[m.term].(commit := k)])
  }

  lemma WithCommitGrows(h: History, n: NodeId, m: Raft, k: nat)
    requires LeaderOk(h, n, m) && m.role == Leader && m.commit <= k
    ensures Grows(h, WithCommit(h, m, k)) && AddedBy(h, WithCommit(h, m, k), n)
  {
    var h' := WithCommit(h, m, k);
    forall t | t in h.led
      ensures LeadGrows(h.led[t], h'.led[t])
    {
      assert h'.led[t].log[..|h.led[t].log|] == h.led[t].log;
    }
  }

  /** What a leader counts as matched has been acknowledged. */
  lemma MatchedAcked(env: Env, h: History, n: NodeId, m: Raft, st: Stored, id: NodeId, k: nat)
    requires AcksOk(h) && m.id == n && m.role == Leader
    requires ProgressOk(h, n, m) && PersistedOk(env, h, n, m, st)
    requires 0 < k <= MatchedBy(m)(id) && m.term in h.led && h.led[m.term].start < k
    ensures Ack(id, m.term, k) in h.acks
  {
    var reached := Ack(id, m.term, MatchedBy(m)(id));
    assert reached in h.acks;
  }

  ghost function Matching(env: Env, m: Raft, k: nat): set<NodeId> {
    set id | id in env.cfg.voters + env.cfg.outgoing && MatchedBy(m)(id) >= k
  }

  /** The index a leader advances to is acknowledged, durably, by a quorum. */
  lemma AdvanceAcknowledged(env: Env, h: History, n: NodeId, m: Raft, st: Stored, k: nat)
    requires AcksOk(h) && m.id == n && m.role == Leader && LeaderOk(h, n, m) && LeadShape(h, m.term)
    requires ProgressOk(h, n, m) && PersistedOk(env, h, n, m, st)
    requires 0 < k <= |m.log.full| && m.log.full[k - 1].term == m.term && HasQuorum(env.cfg, Matching(env, m, k))
    ensures k > h.led[m.term].start && HasQuorum(env.cfg, Ackers(h, m.term, k)) && h.led[m.term].durable
  {
    var t, votes := m.term, Matching(env, m, k);
    assert k > h.led[t].start;
    forall id | id in votes
      ensures id in Ackers(h, t, k)
    {
      MatchedAcked(env, h, n, m, st, id, k);
      assert Ack(id, t, k) in h.acks;
    }
    QuorumGrows(env.cfg, votes, Ackers(h, t, k));
    QuorumsIntersect(env.cfg, votes, votes);
  }

  lemma AdvanceQuorum(env: Env, m: Raft, k: nat)
    requires 0 < k <= QuorumIndex(env.cfg, MatchedBy(m))
    ensures HasQuorum(env.cfg, Matching(env, m, k))
  {
    QuorumIndexDecides(env.cfg, MatchedBy(m), k, Matching(env, m, k));
  }

  lemma LedParts(env: Env, h: History, t: nat)
    requires HistOk(env, h) && t in h.led
    ensures LeadShape(h, t) && Elected(env, h, t) && CommitBacked(env, h, t)
  {
    hide LeadShape, Elected, CommitBacked, AcksOk, NetOk, GrantsAgree, GrantsKept, DurableDown, AskedOk;
  }

  /** Declaring a commit index keeps the record consistent. */
  lemma CommitRecorded(env: Env, h: History, n: NodeId, m: Raft, st: Stored, k: nat)
    requires HistOk(env, h) && LeaderOk(h, n, m) && m.role == Leader && m.commit <= k <= |m.log.full|
    requires k > h.led[m.term].start && HasQuorum(env.cfg, Ackers(h, m.term, k)) && h.led[m.term].durable
    ensures HistOk(env, WithCommit(h, m, k))
  {
    hide LeadsOk, AcksOk, ElectionsOk, NetOk, GrantsAgree, GrantsKept, DurableDown, AskedOk;
    var h', t := WithCommit(h, m, k), m.term;
    LedParts(env, h, t);
    WithCommitGrows(h, n, m, k);
    OrderKept(h, h');
    hide LeadShape, Elected, Grows;
    LeadShapeGrows(h, h', t);
    ElectedGrows(env, h, h', t);
    assert Ackers(h', t, k) == Ackers(h, t, k);
    assert CommitBacked(env, h', t);
    hide CommitBacked;
    RecordGrows(env, h, h', t);
  }

  lemma CommitAcks(h: History, h': History, n: NodeId, m: Raft, m': Raft, st: Stored)
    requires Grows(h, h') && h'.acks == h.acks && AddedBy(h, h', n) && h'.led.Keys == h.led.Keys
    requires forall t :: t in h.led ==> LeadShape(h, t)
    requires m'.log == m.log && m'.out == m.out && m'.term == m.term
    requires MemoryKeepsAcks(h, n, m) && GrantsKeepAcks(h, n, m) && DiskKeepsAcks(h, n, st) && LeadsKeepAcks(h, n, m)
    ensures MemoryKeepsAcks(h', n, m') && GrantsKeepAcks(h', n, m') && DiskKeepsAcks(h', n, st)
    ensures LeadsKeepAcks(h', n, m')
  {
    MemoryAcksGrow(h, h', n, m);
    GrantAcksGrow(h, h', n, m);
    DiskAcksGrow(h, h', n, st);
    LeadAcksGrow(h, h', n, m);
    AcksUnmoved(h', n, m, m');
  }

  lemma CommitKeeps(env: Env, h: History, n: NodeId, m: Raft, m': Raft, st: Stored, k: nat)
    requires HistOk(env, h) && NodeOk(env, h, n, m, st) && m.role == Leader && m.commit < k <= |m.log.full|
    requires m' == m.(commit := k, committedOwn := true, hardDirty := true, clock := m'.clock)
    ensures NodeOk(env, WithCommit(h, m, k), n, m', st)
  {
    var h' := WithCommit(h, m, k);
    WithCommitGrows(h, n, m, k);
    assert forall t :: t in h.led ==> LeadShape(h, t);
    CommitAcks(h, h', n, m, m', st);
    LogsGrow(h, h', n, m, st);
    OutboxGrows(h, h', n, m, st);
    CommitterRest(env, h, n, m, m', st, k);
  }

  lemma CommitterRest(env: Env, h: History, n: NodeId, m: Raft, m': Raft, st: Stored, k: nat)
    requires m.id == n && m.role == Leader && m.commit < k <= |m.log.full|
    requires m' == m.(commit := k, committedOwn := true, hardDirty := true, clock := m'.clock)
    requires LeaderOk(h, n, m) && LogsOk(WithCommit(h, m, k), n, m, st) && OutboxOk(WithCommit(h, m, k), n, m, st)
    requires CandidateOk(env, h, n, m, st) && OwnLeads(h, n, m, st) && VotesOk(h, n, m, st)
    requires CommitOk(h, m, st) && ProgressOk(h, n, m) && PersistedOk(env, h, n, m, st) && ReadsOk(env, h, n, m, st)
    ensures var h' := WithCommit(h, m, k);
            && LogsOk(h', n, m', st) && OutboxOk(h', n, m', st)
            && LeaderOk(h', n, m') && CandidateOk(env, h', n, m', st) && OwnLeads(h', n, m', st)
            && VotesOk(h', n, m', st)
            && CommitOk(h', m', st) && ProgressOk(h', n, m') && PersistedOk(env, h', n, m', st)
            && ReadsOk(env, h', n, m', st)
  {
    var h' := WithCommit(h, m, k);
    CommitterQueue(h', n, m, m', st);
    CommitterReads(env, h, n, m, m', st, k);
    CommitterCommit(h, n, m, m', st, k);
    hide OutboxOk, ReadsOk, CommitOk;
  }

  lemma CommitterCommit(h: History, n: NodeId, m: Raft, m': Raft, st: Stored, k: nat)
    requires m.id == n && m.role == Leader && m.commit < k <= |m.log.full|
    requires m' == m.(commit := k, committedOwn := true, hardDirty := true, clock := m'.clock)
    requires LeaderOk(h, n, m) && CommitOk(h, m, st)
    ensures CommitOk(WithCommit(h, m, k), m', st)
  {
    var h' := WithCommit(h, m, k);
    WithCommitGrows(h, n, m, k);
    assert EvidenceAt(h', m'.log.full, k, m.term, m.term);
    EvidenceGrows(h, h', st.log, st.log, Max(st.commit, st.snap), st.term, st.term);
  }

  lemma CommitterQueue(h: History, n: NodeId, m: Raft, m': Raft, st: Stored)
    requires m.commit <= m'.commit
    requires m' == m.(commit := m'.commit, committedOwn := true, hardDirty := true, clock := m'.clock)
    requires OutboxOk(h, n, m, st)
    ensures OutboxOk(h, n, m', st)
  {
    forall p
      ensures QueuedOk(h, n, m, st, p) ==> QueuedOk(h, n, m', st, p)
    {
    }
  }

  lemma CommitterReads(env: Env, h: History, n: NodeId, m: Raft, m': Raft, st: Stored, k: nat)
    requires m.role == Leader && m.commit < k <= |m.log.full| && LeaderOk(h, n, m) && ReadsOk(env, h, n, m, st)
    requires m' == m.(commit := k, committedOwn := true, hardDirty := true, clock := m'.clock)
    ensures ReadsOk(env, WithCommit(h, m, k), n, m', st)
  {
    forall r
      ensures ReadOk(env, h, m, r) ==> ReadOk(env, WithCommit(h, m, k), m', r)
    {
    }
  }
}
