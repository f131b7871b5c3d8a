/** What a Ready cycle adds to the history: the node's term, vote and log reach its disk, and only
    then are its messages sent. */
module RaftCycle {
  import opened Types
  import opened Quorum
  import opened RaftLog
  import opened RaftNode
  import opened RaftHistory
  import opened RaftGrowth
  import opened RaftInvariant
  import opened RaftSteps
  import opened RaftLeadership
  import opened RaftReplication
  import opened RaftHandlers

  ghost function PledgedAcks(n: NodeId, m: Raft): set<Ack> {
    set p, i | p in m.out.messages && IsAck(p) && 0 <= i <= AckIndex(p) :: Ack(n, p.msg.term, i)
  }

  /** A leader's own disk is a vote for what it holds. */
  ghost function OwnAcks(n: NodeId, m: Raft): set<Ack> {
    if m.role == Leader then set i | 0 <= i <= |m.log.full| :: Ack(n, m.term, i) else {}
  }

  ghost function Durably(led: map<nat, Lead>, n: NodeId): map<nat, Lead> {
    map t | t in led :: if led[t].leader == n then led[t].(durable := true) else led[t]
  }

  ghost function Synced(h: History, n: NodeId, m: Raft): History {
    History(Durably(h.led, n), h.net + (set p | p in m.out.messages), h.acks + PledgedAcks(n, m) + OwnAcks(n, m),
            h.asked)
  }

  /** The node once its state is on disk and its messages are away. */
  ghost predicate Flushed(m: Raft, m': Raft) {
    m' == m.(out := EmptyOutbox(), persisted := |m.log.full|,
             dirtyFrom := m'.dirtyFrom, hardDirty := m'.hardDirty, savedHard := m'.savedHard)
  }

  /** Its disk then. */
  ghost predicate Saved(m: Raft, st: Stored, st': Stored) {
    && st'.term == m.term && st'.vote == m.vote && st'.log == m.log.full && st'.snap == m.log.base
    && (st'.commit == m.commit || st'.commit == st.commit)
  }

  lemma SyncedGrows(h: History, n: NodeId, m: Raft, st: Stored)
    requires OutboxOk(h, n, m, st)
    ensures Grows(h, Synced(h, n, m)) && AddedBy(h, Synced(h, n, m), n)
  {
    var h' := Synced(h, n, m);
    forall t | t in h.led
      ensures LeadGrows(h.led[t], h'.led[t])
    {
      assert h'.led[t].log[..|h.led[t].log|] == h.led[t].log;
    }
    assert forall p :: p in m.out.messages ==> QueuedOk(h, n, m, st, p);
  }

  /** Every acknowledgement of `n`'s in the new history was owed, or is a leader's own. */
  lemma NewAck(h: History, n: NodeId, m: Raft, a: Ack)
    requires a in Synced(h, n, m).acks && a.node == n
    ensures Owes(h, n, m, a) || (m.role == Leader && a.term == m.term && a.index <= |m.log.full|)
  {
    if a in PledgedAcks(n, m) {
      var p, i :| p in m.out.messages && IsAck(p) && 0 <= i <= AckIndex(p) && a == Ack(n, p.msg.term, i);
      assert Pledged(m, a);
    }
  }

  /** A new acknowledgement is of a term the disk had not passed. */
  lemma NewAckIsLate(h: History, n: NodeId, m: Raft, st: Stored, a: Ack)
    requires LogsOk(h, n, m, st) && OutboxOk(h, n, m, st) && a in Synced(h, n, m).acks && a !in h.acks
    ensures a.node == n && st.term <= a.term
  {
    if a in PledgedAcks(n, m) {
      var p, i :| p in m.out.messages && IsAck(p) && 0 <= i <= AckIndex(p) && a == Ack(n, p.msg.term, i);
      assert QueuedOk(h, n, m, st, p);
    }
  }

  /** What was the node's own is now settled. */
  lemma OwnedSettles(h: History, n: NodeId, m: Raft, s: seq<Entry>)
    requires Owned(h, n, s)
    ensures Settled(Synced(h, n, m), s)
  {
    var h' := Synced(h, n, m);
    forall i | 0 <= i < |s|
      ensures SettledAt(h', s, i)
    {
      assert OwnedAt(h, n, s, i);
    }
  }

  lemma SyncedLeads(env: Env, h: History, n: NodeId, m: Raft, st: Stored)
    requires LeadsOk(env, h) && OutboxOk(h, n, m, st)
    ensures LeadsOk(env, Synced(h, n, m))
  {
    var h' := Synced(h, n, m);
    SyncedGrows(h, n, m, st);
    forall t | t in h'.led
      ensures LeadShape(h', t) && CommitBacked(env, h', t)
    {
      assert LeadShape(h, t) && CommitBacked(env, h, t);
      LeadShapeGrows(h, h', t);
      CommitBackedGrows(env, h, h', t);
    }
  }

  lemma SyncedAckHolds(h: History, n: NodeId, m: Raft, st: Stored, a: Ack)
    requires AcksOk(h) && OutboxOk(h, n, m, st) && LeaderOk(h, n, m) && a in Synced(h, n, m).acks
    ensures var led := Synced(h, n, m).led; a.term in led && led[a.term].durable && a.index <= |led[a.term].log|
  {
    if a in PledgedAcks(n, m) {
      var p, i :| p in m.out.messages && IsAck(p) && 0 <= i <= AckIndex(p) && a == Ack(n, p.msg.term, i);
      assert QueuedOk(h, n, m, st, p) && Truthful(h, p);
    }
  }

  lemma SyncedAcksOk(h: History, n: NodeId, m: Raft, st: Stored)
    requires AcksOk(h) && OutboxOk(h, n, m, st) && LeaderOk(h, n, m)
    ensures AcksOk(Synced(h, n, m))
  {
    var h' := Synced(h, n, m);
    forall a | a in h'.acks
      ensures a.term in h'.led && h'.led[a.term].durable && a.index <= |h'.led[a.term].log|
      ensures forall j :: 0 <= j <= a.index ==> Ack(a.node, a.term, j) in h'.acks
    {
      SyncedAckHolds(h, n, m, st, a);
      if a in PledgedAcks(n, m) {
        var p, i :| p in m.out.messages && IsAck(p) && 0 <= i <= AckIndex(p) && a == Ack(n, p.msg.term, i);
        assert forall j :: 0 <= j <= a.index ==> Ack(n, p.msg.term, j) in PledgedAcks(n, m);
      }
    }
  }

  /** Votes already cast were for terms no new acknowledgement precedes, and a leader's own ballot
      already allowed for what it had pledged. */
  lemma SyncedSupport(h: History, n: NodeId, m: Raft, st: Stored, t: nat, v: NodeId)
    requires LogsOk(h, n, m, st) && OutboxOk(h, n, m, st) && LeadsKeepAcks(h, n, m) && OwnLeads(h, n, m, st)
    requires Supported(h, t, v) && LeadShape(h, t)
    ensures Supported(Synced(h, n, m), t, v)
  {
    var h' := Synced(h, n, m);
    SyncedGrows(h, n, m, st);
    PrefixOfGrown(h, h', t, h.led[t].start);
    if v == h.led[t].leader {
      forall a | a in h'.acks && a.node == v && a.term < t
        ensures a in h.acks || Kept(h', ElectedLog(h.led[t]), a, t)
      {
        if a !in h.acks {
          NewAckIsLate(h, n, m, st, a);
          NewAck(h, n, m, a);
          assert Pledged(m, a);
          KeptGrows(h, h', ElectedLog(h.led[t]), a, t);
        }
      }
      BallotGrows(h, h', t, v, ElectedLog(h.led[t]));
    } else {
      var p :| GrantFor(h, p, t, v) && Ballot(h, t, v, p.origin);
      forall a | a in h'.acks && a.node == v && a.term < t
        ensures a in h.acks
      {
        if a !in h.acks { NewAckIsLate(h, n, m, st, a); }
      }
      BallotGrows(h, h', t, v, p.origin);
      assert GrantFor(h', p, t, v);
    }
  }

  lemma SyncedElections(env: Env, h: History, n: NodeId, m: Raft, st: Stored)
    requires LeadsOk(env, h) && ElectionsOk(env, h)
    requires LogsOk(h, n, m, st) && OutboxOk(h, n, m, st) && LeadsKeepAcks(h, n, m) && OwnLeads(h, n, m, st)
    ensures ElectionsOk(env, Synced(h, n, m))
  {
    var h' := Synced(h, n, m);
    hide LogsOk, OutboxOk, LeadsKeepAcks, OwnLeads, Supported, HasQuorum, LeadShape;
    forall t | t in h'.led
      ensures Elected(env, h', t)
    {
      assert Elected(env, h, t) && LeadShape(h, t);
      forall v | v in h'.led[t].voters
        ensures Supported(h', t, v)
      {
        SyncedSupport(h, n, m, st, t, v);
      }
    }
  }

  lemma SentIsBacked(h: History, n: NodeId, m: Raft, st: Stored, p: Packet)
    requires OutboxOk(h, n, m, st) && p in m.out.messages
    ensures Truthful(Synced(h, n, m), p) && Backed(Synced(h, n, m), p)
  {
    var h' := Synced(h, n, m);
    assert QueuedOk(h, n, m, st, p);
    SyncedGrows(h, n, m, st);
    TruthfulGrows(h, h', p);
    if IsGrant(p) { OwnedSettles(h, n, m, p.origin); }
    if IsAck(p) { assert Ack(n, p.msg.term, AckIndex(p)) in PledgedAcks(n, m); }
  }

  lemma SyncedNet(h: History, n: NodeId, m: Raft, st: Stored)
    requires NetOk(h) && OutboxOk(h, n, m, st)
    ensures NetOk(Synced(h, n, m))
  {
    var h' := Synced(h, n, m);
    SyncedGrows(h, n, m, st);
    hide Grows, OutboxOk;
    forall p | p in h'.net
      ensures Truthful(h', p) && Backed(h', p)
    {
      if p in m.out.messages {
        SentIsBacked(h, n, m, st, p);
      } else {
        TruthfulGrows(h, h', p);
        BackedGrows(h, h', p);
      }
    }
  }

  lemma SyncedGrants(h: History, n: NodeId, m: Raft, st: Stored)
    requires GrantsAgree(h) && VotesOk(h, n, m, st) && OutboxOk(h, n, m, st)
    ensures GrantsAgree(Synced(h, n, m))
  {
    assert forall p :: p in m.out.messages ==> QueuedOk(h, n, m, st, p);
  }

  lemma SyncedGrantsKept(h: History, n: NodeId, m: Raft, st: Stored)
    requires GrantsKept(h) && GrantsKeepAcks(h, n, m) && LogsOk(h, n, m, st) && OutboxOk(h, n, m, st)
    ensures GrantsKept(Synced(h, n, m))
  {
    var h' := Synced(h, n, m);
    SyncedGrows(h, n, m, st);
    forall p, a | p in h'.net && IsGrant(p) && a in h'.acks && a.node == p.src && a.term < p.msg.term
      ensures Kept(h', p.origin, a, p.msg.term + 1)
    {
      if p in m.out.messages {
        assert QueuedOk(h, n, m, st, p);
        NewAck(h, n, m, a);
      } else if a !in h.acks {
        NewAckIsLate(h, n, m, st, a);
      }
      KeptGrows(h, h', p.origin, a, p.msg.term + 1);
    }
  }

  lemma SyncedOrder(h: History, n: NodeId, m: Raft)
    requires DurableDown(h) && AskedOk(h)
    ensures DurableDown(Synced(h, n, m)) && AskedOk(Synced(h, n, m))
  {
  }

  lemma SyncedRecorded(env: Env, h: History, n: NodeId, m: Raft, st: Stored)
    requires HistOk(env, h) && NodeOk(env, h, n, m, st)
    ensures HistOk(env, Synced(h, n, m))
  {
    hide LeadsOk, AcksOk, ElectionsOk, NetOk, GrantsAgree, GrantsKept, DurableDown, AskedOk, Synced;
    hide LogsOk, LeaderOk, OwnLeads, VotesOk, GrantsKeepAcks, LeadsKeepAcks, OutboxOk;
    SyncedLeads(env, h, n, m, st);
    SyncedAcksOk(h, n, m, st);
    SyncedElections(env, h, n, m, st);
    SyncedNet(h, n, m, st);
    SyncedGrants(h, n, m, st);
    SyncedGrantsKept(h, n, m, st);
    SyncedOrder(h, n, m);
  }

  // ---- the node afterwards --------------------------------------------------------------------------

  lemma FlushedLogs(h: History, n: NodeId, m: Raft, m': Raft, st: Stored, st': Stored)
    requires LogsOk(h, n, m, st) && OutboxOk(h, n, m, st) && Flushed(m, m') && Saved(m, st, st')
    ensures LogsOk(Synced(h, n, m), n, m', st')
  {
    var h' := Synced(h, n, m);
    SyncedGrows(h, n, m, st);
    RootedGrows(h, h', m.log.full);
    OwnedGrows(h, h', n, m.log.full);
    OwnedSettles(h, n, m, m.log.full);
  }

  lemma FlushedRoles(env: Env, h: History, n: NodeId, m: Raft, m': Raft, st: Stored, st': Stored)
    requires m.id == n && OutboxOk(h, n, m, st) && Flushed(m, m') && Saved(m, st, st')
    requires LeaderOk(h, n, m) && CandidateOk(env, h, n, m, st) && OwnLeads(h, n, m, st)
    ensures var h' := Synced(h, n, m);
            LeaderOk(h', n, m') && CandidateOk(env, h', n, m', st') && OwnLeads(h', n, m', st')
  {
    var h' := Synced(h, n, m);
    if m.role == Candidate {
      forall v | v in m'.votes && m'.votes[v] && v != n
        ensures VoteSeen(h', n, m', v)
      {
        assert VoteSeen(h, n, m, v);
      }
      forall p | p in h'.net
        ensures AsksFor(p, n, m')
      {
        assert AsksFor(p, n, m);
      }
    }
  }

  lemma FlushedAcks(h: History, n: NodeId, m: Raft, m': Raft, st: Stored, st': Stored)
    requires m.id == n && OutboxOk(h, n, m, st) && Flushed(m, m') && Saved(m, st, st')
    requires LeaderOk(h, n, m) && MemoryKeepsAcks(h, n, m)
    ensures var h' := Synced(h, n, m);
            DiskKeepsAcks(h', n, st') && MemoryKeepsAcks(h', n, m') && GrantsKeepAcks(h', n, m')
            && LeadsKeepAcks(h', n, m')
  {
    var h' := Synced(h, n, m);
    SyncedGrows(h, n, m, st);
    forall a | a in h'.acks && a.node == n
      ensures a.term <= m.term && Kept(h', m.log.full, a, m.term + 1)
    {
      NewAck(h, n, m, a);
      if Owes(h, n, m, a) {
        KeptGrows(h, h', m.log.full, a, m.term + 1);
      } else {
        assert HoldsAck(h', m.log.full, a);
      }
    }
    assert forall a :: !Pledged(m', a);
  }

  lemma FlushedCommit(h: History, n: NodeId, m: Raft, m': Raft, st: Stored, st': Stored)
    requires CommitOk(h, m, st) && OutboxOk(h, n, m, st) && Flushed(m, m') && Saved(m, st, st')
    ensures CommitOk(Synced(h, n, m), m', st')
  {
    var h' := Synced(h, n, m);
    SyncedGrows(h, n, m, st);
    EvidenceGrows(h, h', m.log.full, m.log.full, m.commit, m.term, m.term);
    EvidencePrefix(h', m.log.full, m.commit, m.log.full, Max(st'.commit, st'.snap), m.term);
  }

  lemma FlushedRest(env: Env, h: History, n: NodeId, m: Raft, m': Raft, st: Stored, st': Stored)
    requires m.id == n && st.term <= m.term && OutboxOk(h, n, m, st) && Flushed(m, m') && Saved(m, st, st')
    requires LeaderOk(h, n, m) && ProgressOk(h, n, m) && PersistedOk(env, h, n, m, st) && ReadsOk(env, h, n, m, st)
    ensures var h' := Synced(h, n, m);
            ProgressOk(h', n, m') && PersistedOk(env, h', n, m', st') && OutboxOk(h', n, m', st')
            && ReadsOk(env, h', n, m', st')
  {
    var h' := Synced(h, n, m);
    assert forall p :: p in m.out.messages ==> QueuedOk(h, n, m, st, p);
    if m.role == Leader { assert Ack(n, m.term, |m.log.full|) in OwnAcks(n, m); }
    forall r
      ensures ReadOk(env, h, m, r) ==> ReadOk(env, h', m', r)
    {
    }
  }

  /** A cycle's write and send. */
  lemma FlushKeeps(env: Env, h: History, n: NodeId, m: Raft, m': Raft, st: Stored, st': Stored)
    requires Safe(env, h, n, m, st) && Flushed(m, m') && Saved(m, st, st')
    ensures Grows(h, Synced(h, n, m)) && AddedBy(h, Synced(h, n, m), n)
    ensures Safe(env, Synced(h, n, m), n, m', st')
  {
    assert m.id == n && st.term <= m.term by { assert LogsOk(h, n, m, st); }
    hide HistOk, LogsOk, LeaderOk, CandidateOk, OwnLeads, VotesOk, DiskKeepsAcks, MemoryKeepsAcks, GrantsKeepAcks,
         LeadsKeepAcks;
    hide CommitOk, ProgressOk, PersistedOk, OutboxOk, ReadsOk, Grows, AddedBy, Flushed, Saved, Synced;
    SyncedGrows(h, n, m, st);
    SyncedRecorded(env, h, n, m, st);
    FlushedLogs(h, n, m, m', st, st');
    FlushedRoles(env, h, n, m, m', st, st');
    FlushedAcks(h, n, m, m', st, st');
    FlushedCommit(h, n, m, m', st, st');
    FlushedRest(env, h, n, m, m', st, st');
  }
}
