/** A crash: a node loses its memory, and the history forgets the leaderships that only that memory
    knew of. Nothing any other node holds, and nothing ever sent, can depend on them. */
module RaftCrash {
  import opened Types
  import opened Quorum
  import opened RaftLog
  import opened RaftNode
  import opened RaftHistory
  import opened RaftGrowth
  import opened RaftInvariant
  import opened RaftLeadership
  import opened RaftHandlers

  ghost predicate Survives(h: History, n: NodeId, t: nat) {
    t in h.led && (h.led[t].leader != n || h.led[t].durable)
  }

  ghost function Forget(h: History, n: NodeId): History {
    h.(led := map t | t in h.led && Survives(h, n, t) :: h.led[t])
  }

  lemma RootedSurvives(h: History, n: NodeId, s: seq<Entry>)
    requires Rooted(h, s) && forall i :: 0 <= i < |s| ==> Survives(h, n, s[i].term)
    ensures Rooted(Forget(h, n), s)
  {
    forall i | 0 <= i < |s|
      ensures RootedAt(Forget(h, n), s, i)
    {
      assert RootedAt(h, s, i);
    }
  }

  lemma SettledSurvives(h: History, n: NodeId, s: seq<Entry>)
    requires RaftHistory.Settled(h, s)
    ensures RaftHistory.Settled(Forget(h, n), s) && forall i :: 0 <= i < |s| ==> Survives(h, n, s[i].term)
  {
    forall i | 0 <= i < |s|
      ensures SettledAt(Forget(h, n), s, i) && Survives(h, n, s[i].term)
    {
      assert SettledAt(h, s, i);
    }
  }

  lemma OwnedSurvives(h: History, n: NodeId, v: NodeId, s: seq<Entry>)
    requires Owned(h, v, s) && v != n
    ensures Owned(Forget(h, n), v, s) && forall i :: 0 <= i < |s| ==> Survives(h, n, s[i].term)
  {
    forall i | 0 <= i < |s|
      ensures OwnedAt(Forget(h, n), v, s, i) && Survives(h, n, s[i].term)
    {
      assert OwnedAt(h, v, s, i);
    }
  }

  lemma KeptSurvives(h: History, n: NodeId, s: seq<Entry>, a: Ack, bound: nat)
    requires Kept(h, s, a, bound) && a.term in h.led && h.led[a.term].durable
    ensures Kept(Forget(h, n), s, a, bound)
  {
    var h' := Forget(h, n);
    if !HoldsAck(h, s, a) {
      var w: nat :| w < bound && SupersededBy(h, a, w);
      assert SupersededBy(h', a, w);
    }
  }

  /** A commitment is only ever declared by a leader whose term is on disk. */
  lemma EvidenceSurvives(env: Env, h: History, n: NodeId, s: seq<Entry>, k: nat, bound: nat)
    requires LeadsOk(env, h) && Evidence(h, s, k, bound)
    ensures Evidence(Forget(h, n), s, k, bound)
  {
    if k > 0 {
      var t :| EvidenceAt(h, s, k, bound, t);
      assert CommitBacked(env, h, t);
      assert EvidenceAt(Forget(h, n), s, k, bound, t);
    }
  }

  lemma TruthSurvives(env: Env, h: History, n: NodeId, p: Packet)
    requires LeadsOk(env, h) && Truthful(h, p)
    requires FromLeader(p) ==> Survives(h, n, p.msg.term)
    requires IsGrant(p) ==> Rooted(Forget(h, n), p.origin)
    ensures Truthful(Forget(h, n), p)
  {
    var t := p.msg.term;
    match p.msg.body {
      case AppendReq(_, _, _, commit) => EvidenceSurvives(env, h, n, h.led[t].log, commit, t);
      case SnapshotReq(image) => EvidenceSurvives(env, h, n, image.prefix, |image.prefix|, t);
      case HeartbeatReq(commit, _) => EvidenceSurvives(env, h, n, h.led[t].log, commit, t);
      case VoteResp(granted) => assert granted ==> Requested(h, p);
      case _ =>
    }
  }

  // ---- the history ------------------------------------------------------------------------

  /** A surviving leadership rests only on surviving ones. */
  lemma LeadSurvives(env: Env, h: History, n: NodeId, t: nat)
    requires DurableDown(h) && LeadShape(h, t) && Survives(h, n, t)
    ensures LeadShape(Forget(h, n), t)
  {
    var l, h' := h.led[t], Forget(h, n);
    forall i | 0 <= i < |l.log|
      ensures Survives(h, n, l.log[i].term) && OwnedAt(h', l.leader, l.log, i)
    {
      assert OwnedAt(h, l.leader, l.log, i);
    }
    RootedSurvives(h, n, l.log);
  }

  lemma BackedSurvives(env: Env, h: History, n: NodeId, t: nat)
    requires CommitBacked(env, h, t) && Survives(h, n, t)
    ensures CommitBacked(env, Forget(h, n), t)
  {
    assert Ackers(Forget(h, n), t, h.led[t].commit) == Ackers(h, t, h.led[t].commit);
  }

  lemma BallotSurvives(h: History, n: NodeId, t: nat, v: NodeId, s: seq<Entry>)
    requires AcksOk(h) && Ballot(h, t, v, s) && Survives(h, n, t) && Rooted(Forget(h, n), s)
    ensures Ballot(Forget(h, n), t, v, s)
  {
    forall a | a in h.acks && a.node == v && a.term < t
      ensures Kept(Forget(h, n), s, a, t)
    {
      KeptSurvives(h, n, s, a, t);
    }
  }

  lemma ElectedSurvives(env: Env, h: History, n: NodeId, t: nat)
    requires AcksOk(h) && NetOk(h) && Elected(env, h, t) && Survives(h, n, t)
    requires LeadShape(h, t) && LeadShape(Forget(h, n), t)
    ensures Elected(env, Forget(h, n), t)
  {
    var h' := Forget(h, n);
    forall v | v in h'.led[t].voters
      ensures Supported(h', t, v)
    {
      assert Supported(h, t, v);
      if v == h.led[t].leader {
        RootedPrefix(h', h.led[t].log, h.led[t].start);
        BallotSurvives(h, n, t, v, ElectedLog(h.led[t]));
      } else {
        var p :| GrantFor(h, p, t, v) && Ballot(h, t, v, p.origin);
        assert Backed(h, p);
        SettledSurvives(h, n, p.origin);
        RootedSurvives(h, n, p.origin);
        BallotSurvives(h, n, t, v, p.origin);
        assert GrantFor(h', p, t, v);
      }
    }
  }

  lemma LeadsSurvive(env: Env, h: History, n: NodeId)
    requires LeadsOk(env, h) && AcksOk(h) && ElectionsOk(env, h) && NetOk(h) && DurableDown(h)
    ensures LeadsOk(env, Forget(h, n)) && ElectionsOk(env, Forget(h, n))
  {
    var h' := Forget(h, n);
    hide AcksOk, NetOk, DurableDown, LeadShape, CommitBacked, Elected;
    forall t | t in h'.led
      ensures LeadShape(h', t) && CommitBacked(env, h', t) && Elected(env, h', t)
    {
      assert LeadShape(h, t) && CommitBacked(env, h, t) && Elected(env, h, t) && Survives(h, n, t);
      LeadSurvives(env, h, n, t);
      BackedSurvives(env, h, n, t);
      ElectedSurvives(env, h, n, t);
    }
  }

  lemma NetSurvives(env: Env, h: History, n: NodeId)
    requires LeadsOk(env, h) && NetOk(h)
    ensures NetOk(Forget(h, n))
  {
    var h' := Forget(h, n);
    hide LeadsOk;
    forall p | p in h'.net
      ensures Truthful(h', p) && Backed(h', p)
    {
      assert Truthful(h, p) && Backed(h, p);
      if IsGrant(p) {
        SettledSurvives(h, n, p.origin);
        RootedSurvives(h, n, p.origin);
      }
      TruthSurvives(env, h, n, p);
    }
  }

  lemma OrderSurvives(h: History, n: NodeId)
    requires GrantsAgree(h) && DurableDown(h) && AskedOk(h) && AcksOk(h)
    ensures var h' := Forget(h, n); GrantsAgree(h') && DurableDown(h') && AskedOk(h') && AcksOk(h')
  {
  }

  lemma GrantsSurvive(h: History, n: NodeId)
    requires AcksOk(h) && GrantsKept(h)
    ensures GrantsKept(Forget(h, n))
  {
    var h' := Forget(h, n);
    forall p, a | p in h'.net && IsGrant(p) && a in h'.acks && a.node == p.src && a.term < p.msg.term
      ensures Kept(h', p.origin, a, p.msg.term + 1)
    {
      KeptSurvives(h, n, p.origin, a, p.msg.term + 1);
    }
  }

  lemma HistorySurvives(env: Env, h: History, n: NodeId)
    requires HistOk(env, h)
    ensures HistOk(env, Forget(h, n))
  {
    hide LeadsOk, AcksOk, ElectionsOk, NetOk, GrantsAgree, GrantsKept, DurableDown, AskedOk, Forget;
    LeadsSurvive(env, h, n);
    NetSurvives(env, h, n);
    OrderSurvives(h, n);
    GrantsSurvive(h, n);
  }

  // ---- the other nodes -------------------------------------------------------------------------

  lemma LogsSurvive(h: History, n: NodeId, v: NodeId, m: Raft, st: Stored)
    requires LogsOk(h, v, m, st) && v != n
    ensures LogsOk(Forget(h, n), v, m, st)
  {
    OwnedSurvives(h, n, v, m.log.full);
    RootedSurvives(h, n, m.log.full);
    SettledSurvives(h, n, st.log);
    RootedSurvives(h, n, st.log);
  }

  lemma RolesSurvive(env: Env, h: History, n: NodeId, v: NodeId, m: Raft, st: Stored)
    requires v != n && LeaderOk(h, v, m) && CandidateOk(env, h, v, m, st) && OwnLeads(h, v, m, st)
    requires VotesOk(h, v, m, st)
    ensures var h' := Forget(h, n);
            LeaderOk(h', v, m) && CandidateOk(env, h', v, m, st) && OwnLeads(h', v, m, st) && VotesOk(h', v, m, st)
  {
    var h' := Forget(h, n);
    forall w
      ensures VoteSeen(h, v, m, w) ==> VoteSeen(h', v, m, w)
    {
    }
  }

  /** An acknowledgement a node owes is of a leadership that is on disk. */
  lemma OwedIsDurable(h: History, v: NodeId, m: Raft, st: Stored, a: Ack)
    requires AcksOk(h) && OutboxOk(h, v, m, st) && Owes(h, v, m, a)
    ensures a.term in h.led && h.led[a.term].durable
  {
    if a !in h.acks {
      var p :| p in m.out.messages && IsAck(p) && p.msg.term == a.term && a.index <= AckIndex(p);
      assert QueuedOk(h, v, m, st, p) && Truthful(h, p);
    }
  }

  lemma AcksSurvive(h: History, n: NodeId, v: NodeId, m: Raft, st: Stored)
    requires AcksOk(h) && OutboxOk(h, v, m, st)
    requires DiskKeepsAcks(h, v, st) && MemoryKeepsAcks(h, v, m) && GrantsKeepAcks(h, v, m) && LeadsKeepAcks(h, v, m)
    ensures var h' := Forget(h, n);
            DiskKeepsAcks(h', v, st) && MemoryKeepsAcks(h', v, m) && GrantsKeepAcks(h', v, m) && LeadsKeepAcks(h', v, m)
  {
    var h' := Forget(h, n);
    forall a | Owes(h', v, m, a)
      ensures a.term <= m.term && Kept(h', m.log.full, a, m.term + 1)
      ensures forall g :: g in m.out.messages && IsGrant(g) && a.term < g.msg.term ==>
                Kept(h', g.origin, a, g.msg.term + 1)
      ensures forall t :: Pledged(m, a) && t in h'.led && h'.led[t].leader == v && a.term < t ==>
                Kept(h', ElectedLog(h'.led[t]), a, t)
      ensures a in h.acks ==> Kept(h', st.log, a, st.term + 1)
    {
      assert Owes(h, v, m, a);
      OwedIsDurable(h, v, m, st, a);
      OwedSurvives(h, n, v, m, st, a);
    }
    forall a: Ack | a.node == v && Pledged(m, a)
      ensures Owes(h', v, m, a)
    {
    }
    forall a | a in h.acks && a.node == v
      ensures Owes(h', v, m, a)
    {
    }
  }

  lemma OwedSurvives(h: History, n: NodeId, v: NodeId, m: Raft, st: Stored, a: Ack)
    requires Owes(h, v, m, a) && a.term in h.led && h.led[a.term].durable
    requires DiskKeepsAcks(h, v, st) && MemoryKeepsAcks(h, v, m) && GrantsKeepAcks(h, v, m) && LeadsKeepAcks(h, v, m)
    ensures var h' := Forget(h, n);
            && Kept(h', m.log.full, a, m.term + 1)
            && (forall g :: g in m.out.messages && IsGrant(g) && a.term < g.msg.term ==>
                  Kept(h', g.origin, a, g.msg.term + 1))
            && (forall t :: Pledged(m, a) && t in h'.led && h'.led[t].leader == v && a.term < t ==>
                  Kept(h', ElectedLog(h'.led[t]), a, t))
            && (a in h.acks ==> Kept(h', st.log, a, st.term + 1))
  {
    var h' := Forget(h, n);
    KeptSurvives(h, n, m.log.full, a, m.term + 1);
    if a in h.acks { KeptSurvives(h, n, st.log, a, st.term + 1); }
    forall g | g in m.out.messages && IsGrant(g) && a.term < g.msg.term
      ensures Kept(h', g.origin, a, g.msg.term + 1)
    {
      KeptSurvives(h, n, g.origin, a, g.msg.term + 1);
    }
    forall t | Pledged(m, a) && t in h'.led && h'.led[t].leader == v && a.term < t
      ensures Kept(h', ElectedLog(h'.led[t]), a, t)
    {
      KeptSurvives(h, n, ElectedLog(h.led[t]), a, t);
    }
  }

  lemma OutboxSurvives(env: Env, h: History, n: NodeId, v: NodeId, m: Raft, st: Stored)
    requires LeadsOk(env, h) && OutboxOk(h, v, m, st) && v != n
    ensures OutboxOk(Forget(h, n), v, m, st)
  {
    var h' := Forget(h, n);
    hide LeadsOk;
    forall p | p in m.out.messages
      ensures QueuedOk(h', v, m, st, p)
    {
      assert QueuedOk(h, v, m, st, p);
      if IsGrant(p) {
        OwnedSurvives(h, n, v, p.origin);
        RootedSurvives(h, n, p.origin);
      }
      TruthSurvives(env, h, n, p);
    }
  }

  lemma RestSurvives(env: Env, h: History, n: NodeId, v: NodeId, m: Raft, st: Stored)
    requires LeadsOk(env, h) && v != n && LeaderOk(h, v, m) && CommitOk(h, m, st)
    requires ProgressOk(h, v, m) && PersistedOk(env, h, v, m, st) && ReadsOk(env, h, v, m, st)
    ensures var h' := Forget(h, n);
            CommitOk(h', m, st) && ProgressOk(h', v, m) && PersistedOk(env, h', v, m, st) && ReadsOk(env, h', v, m, st)
  {
    var h' := Forget(h, n);
    EvidenceSurvives(env, h, n, m.log.full, m.commit, m.term);
    EvidenceSurvives(env, h, n, st.log, Max(st.commit, st.snap), st.term);
    forall r
      ensures ReadOk(env, h, m, r) ==> ReadOk(env, h', m, r)
    {
    }
  }

  /** The other nodes do not notice. */
  lemma OthersSurvive(env: Env, h: History, n: NodeId, v: NodeId, m: Raft, st: Stored)
    requires HistOk(env, h) && NodeOk(env, h, v, m, st) && v != n
    ensures NodeOk(env, Forget(h, n), v, m, st)
  {
    hide LeadsOk, AcksOk, ElectionsOk, NetOk, GrantsAgree, GrantsKept, DurableDown, AskedOk, Forget;
    hide LogsOk, LeaderOk, CandidateOk, OwnLeads, VotesOk, DiskKeepsAcks, MemoryKeepsAcks, GrantsKeepAcks,
         LeadsKeepAcks;
    hide CommitOk, ProgressOk, PersistedOk, OutboxOk, ReadsOk;
    LogsSurvive(h, n, v, m, st);
    RolesSurvive(env, h, n, v, m, st);
    AcksSurvive(h, n, v, m, st);
    OutboxSurvives(env, h, n, v, m, st);
    RestSurvives(env, h, n, v, m, st);
  }

  // ---- the node itself ----------------------------------------------------------------------------

  /** A node rebuilt from its disk: nobody's leader, with nothing to say. */
  ghost predicate Rebuilt(m': Raft, n: NodeId, st: Stored) {
    && m'.id == n && m'.term == st.term && m'.vote == st.vote && m'.log.full == st.log && m'.log.base == st.snap
    && m'.commit == Max(st.commit, st.snap) && m'.applied == st.snap && m'.persisted == |st.log|
    && m'.role == Follower && m'.progress == map[] && m'.waiting == [] && m'.out == EmptyOutbox()
  }

  lemma RebuiltRoles(env: Env, h: History, n: NodeId, m: Raft, m': Raft, st: Stored)
    requires LogsOk(h, n, m, st) && OwnLeads(h, n, m, st) && VotesOk(h, n, m, st) && Rebuilt(m', n, st)
    ensures var h' := Forget(h, n);
            && LogsOk(h', n, m', st) && LeaderOk(h', n, m') && CandidateOk(env, h', n, m', st)
            && OwnLeads(h', n, m', st)
            && VotesOk(h', n, m', st)
  {
    var h' := Forget(h, n);
    SettledSurvives(h, n, st.log);
    RootedSurvives(h, n, st.log);
    assert Owned(h', n, st.log) by {
      forall i | 0 <= i < |st.log|
        ensures OwnedAt(h', n, st.log, i)
      {
        assert SettledAt(h', st.log, i);
      }
    }
  }

  lemma RebuiltAcks(h: History, n: NodeId, m: Raft, m': Raft, st: Stored)
    requires AcksOk(h) && DiskKeepsAcks(h, n, st) && Rebuilt(m', n, st)
    ensures var h' := Forget(h, n);
            DiskKeepsAcks(h', n, st) && MemoryKeepsAcks(h', n, m') && GrantsKeepAcks(h', n, m')
            && LeadsKeepAcks(h', n, m')
  {
    var h' := Forget(h, n);
    forall a | a in h.acks && a.node == n
      ensures Kept(h', st.log, a, st.term + 1)
    {
      KeptSurvives(h, n, st.log, a, st.term + 1);
    }
    assert forall a :: !Pledged(m', a);
  }

  lemma RebuiltRest(env: Env, h: History, n: NodeId, m: Raft, m': Raft, st: Stored)
    requires LeadsOk(env, h) && CommitOk(h, m, st) && OutboxOk(h, n, m, st) && ReadsOk(env, h, n, m, st)
    requires Rebuilt(m', n, st)
    ensures var h' := Forget(h, n);
            && CommitOk(h', m', st) && ProgressOk(h', n, m') && PersistedOk(env, h', n, m', st)
            && OutboxOk(h', n, m', st)
            && ReadsOk(env, h', n, m', st)
  {
    EvidenceSurvives(env, h, n, st.log, Max(st.commit, st.snap), st.term);
  }

  /** A restart keeps the invariant: whatever a node had told anyone is on its disk. */
  lemma RestartKeeps(env: Env, h: History, n: NodeId, m: Raft, m': Raft, st: Stored)
    requires Safe(env, h, n, m, st) && Rebuilt(m', n, st)
    ensures Safe(env, Forget(h, n), n, m', st)
  {
    HistorySurvives(env, h, n);
    hide LeadsOk, AcksOk, ElectionsOk, NetOk, GrantsAgree, GrantsKept, DurableDown, AskedOk, Forget, Rebuilt;
    hide LogsOk, LeaderOk, CandidateOk, OwnLeads, VotesOk, DiskKeepsAcks, MemoryKeepsAcks, GrantsKeepAcks,
         LeadsKeepAcks;
    hide CommitOk, ProgressOk, PersistedOk, OutboxOk, ReadsOk;
    RebuiltRoles(env, h, n, m, m', st);
    RebuiltAcks(h, n, m, m', st);
    RebuiltRest(env, h, n, m, m', st);
  }
}
