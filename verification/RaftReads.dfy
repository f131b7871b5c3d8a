/** Linearizable reads (crates/chronolog/src/raft.rs:573-622, 1366-1392): a read that is answered is
    at least as new as every commit any node knew of when it began. */
module RaftReads {
  import opened Types
  import opened Quorum
  import opened RaftLog
  import opened RaftNode
  import opened RaftHistory
  import opened RaftGrowth
  import opened RaftInvariant
  import opened RaftSteps
  import opened RaftLeadership
  import opened RaftReplication
  import opened RaftHandlers

  // ---- why a leader's commit index is recent enough -----------------------------------------------

  /** A leader that has committed in its own term has committed everything its predecessors did. */
  lemma PastIsCommitted(env: Env, h: History, n: NodeId, m: Raft, t: nat, k: nat)
    requires HistOk(env, h) && LeaderOk(h, n, m) && m.role == Leader && m.committedOwn
    requires t in h.led && t <= m.term && k <= h.led[t].commit
    ensures k <= m.commit
  {
    hide HistOk, LeadShape, Extends, HasQuorum;
    var u := m.term;
    if t < u && k > 0 {
      HistParts(env, h, t, u);
      LeaderCompleteness(env, h, t, u);
      EarlierPart(env, h, t, u);
    }
  }

  lemma HistParts(env: Env, h: History, t: nat, u: nat)
    requires HistOk(env, h) && t in h.led && u in h.led
    ensures LeadsOk(env, h) && AcksOk(h) && ElectionsOk(env, h) && LeadShape(h, t) && LeadShape(h, u)
    ensures CommitBacked(env, h, u)
  {
    hide LeadShape, CommitBacked, AcksOk, ElectionsOk;
  }

  /** What an earlier leader committed lies below where a later one starts. */
  lemma EarlierPart(env: Env, h: History, t: nat, u: nat)
    requires LeadShape(h, t) && LeadShape(h, u) && t < u && Extends(h, t, h.led[t].commit, u)
    ensures h.led[t].commit <= h.led[u].start
  {
    hide Rooted, Owned, Indexed;
    var c := h.led[t].commit;
    if c > 0 {
      assert h.led[u].log[..c][c - 1] == h.led[t].log[..c][c - 1];
      assert h.led[u].log[c - 1].term <= t;
    }
  }

  // ---- beginning a read ---------------------------------------------------------------------------

  ghost function AskedWith(h: History, t: nat, ctx: nat, passed: set<NodeId>): History {
    h.(asked := h.asked[(t, ctx) := passed])
  }

  lemma AskGrows(h: History, n: NodeId, t: nat, ctx: nat, passed: set<NodeId>)
    requires (t, ctx) !in h.asked
    ensures Grows(h, AskedWith(h, t, ctx, passed)) && AddedBy(h, AskedWith(h, t, ctx, passed), n)
  {
    Still(h, n);
  }

  lemma AskOrdered(h: History, t: nat, ctx: nat, passed: set<NodeId>)
    requires GrantsAgree(h) && DurableDown(h) && AskedOk(h) && t in h.led && h.led[t].durable
    ensures var h' := AskedWith(h, t, ctx, passed); GrantsAgree(h') && DurableDown(h') && AskedOk(h')
  {
  }

  lemma AskLed(env: Env, h: History, t: nat, ctx: nat, passed: set<NodeId>)
    requires LeadsOk(env, h) && ElectionsOk(env, h) && (t, ctx) !in h.asked && t in h.led
    ensures var h' := AskedWith(h, t, ctx, passed); LeadShape(h', t) && CommitBacked(env, h', t) && Elected(env, h', t)
  {
    var h' := AskedWith(h, t, ctx, passed);
    AskGrows(h, 0, t, ctx, passed);
    assert LeadShape(h, t) && CommitBacked(env, h, t) && Elected(env, h, t);
    hide LeadsOk, ElectionsOk, Grows, Elected, CommitBacked;
    LeadShapeGrows(h, h', t);
    CommitBackedGrows(env, h, h', t);
    ElectedGrows(env, h, h', t);
  }

  lemma AskRecorded(env: Env, h: History, t: nat, ctx: nat, passed: set<NodeId>)
    requires HistOk(env, h) && (t, ctx) !in h.asked && t in h.led && h.led[t].durable
    ensures HistOk(env, AskedWith(h, t, ctx, passed))
  {
    hide LeadsOk, AcksOk, ElectionsOk, NetOk, GrantsKept, LeadShape, Elected, CommitBacked, Grows, GrantsAgree,
         DurableDown, AskedOk;
    AskGrows(h, 0, t, ctx, passed);
    AskLed(env, h, t, ctx, passed);
    AskOrdered(h, t, ctx, passed);
    RecordGrows(env, h, AskedWith(h, t, ctx, passed), t);
  }

  /** Only the reads in progress differ. */
  ghost predicate OnlyReads(m: Raft, m': Raft) {
    m' == m.(readCtx := m'.readCtx, waiting := m'.waiting, out := m.out.(confirmed := m'.out.confirmed),
             clock := m'.clock)
  }

  lemma OnlyReadsRoles(env: Env, h: History, n: NodeId, m: Raft, m': Raft, st: Stored)
    requires LogsOk(h, n, m, st) && LeaderOk(h, n, m) && CandidateOk(env, h, n, m, st) && OwnLeads(h, n, m, st)
    requires VotesOk(h, n, m, st) && CommitOk(h, m, st) && PersistedOk(env, h, n, m, st) && OutboxOk(h, n, m, st)
    requires ProgressOk(h, n, m) && m.role == Leader && OnlyReads(m, m')
    ensures LogsOk(h, n, m', st) && LeaderOk(h, n, m') && CandidateOk(env, h, n, m', st) && OwnLeads(h, n, m', st)
    ensures VotesOk(h, n, m', st) && CommitOk(h, m', st) && PersistedOk(env, h, n, m', st) && OutboxOk(h, n, m', st)
    ensures ProgressOk(h, n, m')
  {
    forall p
      ensures QueuedOk(h, n, m, st, p) ==> QueuedOk(h, n, m', st, p)
    {
    }
  }

  lemma OnlyReadsKeeps(env: Env, h: History, n: NodeId, m: Raft, m': Raft, st: Stored)
    requires NodeOk(env, h, n, m, st) && m.role == Leader && OnlyReads(m, m') && ReadsOk(env, h, n, m', st)
    ensures NodeOk(env, h, n, m', st)
  {
    AcksUnmoved(h, n, m, m');
    OnlyReadsRoles(env, h, n, m, m', st);
  }

  /** The node that begins a read, seen from the history that records it. */
  lemma AskerGrows(env: Env, h: History, n: NodeId, m: Raft, st: Stored, ctx: nat, passed: set<NodeId>)
    requires HistOk(env, h) && NodeOk(env, h, n, m, st) && m.role == Leader && (m.term, ctx) !in h.asked
    ensures var h' := AskedWith(h, m.term, ctx, passed);
            && LogsOk(h', n, m, st) && LeaderOk(h', n, m) && CandidateOk(env, h', n, m, st) && OwnLeads(h', n, m, st)
            && VotesOk(h', n, m, st) && MemoryKeepsAcks(h', n, m) && DiskKeepsAcks(h', n, st)
            && GrantsKeepAcks(h', n, m)
            && LeadsKeepAcks(h', n, m) && OutboxOk(h', n, m, st) && CommitOk(h', m, st)
            && ProgressOk(h', n, m) && PersistedOk(env, h', n, m, st)
  {
    hide Grows, LogsOk, CandidateOk, VotesOk, MemoryKeepsAcks, DiskKeepsAcks, GrantsKeepAcks;
    hide LeadsKeepAcks, OutboxOk, CommitOk, OwnLeads, AcksOk, ElectionsOk, NetOk, GrantsAgree, GrantsKept, AskedOk;
    var h', v := AskedWith(h, m.term, ctx, passed), n + 1;
    AskGrows(h, v, m.term, ctx, passed);
    LeadShapes(env, h);
    assert forall t :: t in h.led ==> h.led[t].start <= |h.led[t].log|;
    hide HistOk, LeadShape;
    LogsGrow(h, h', n, m, st);
    RolesGrow(env, h, h', v, n, m, st);
    VotesGrow(env, h, h', v, n, m, st);
    MemoryAcksGrow(h, h', n, m);
    DiskAcksGrow(h, h', n, st);
    GrantAcksGrow(h, h', n, m);
    LeadAcksGrow(h, h', n, m);
    OutboxGrows(h, h', n, m, st);
    CommitGrows(h, h', m, st);
  }

  lemma WaitingReads(env: Env, h: History, n: NodeId, m: Raft, st: Stored, floor: nat, passed: set<NodeId>)
    requires ReadsOk(env, h, n, m, st) && m.id == n && m.role == Leader && n !in passed
    requires m.commit >= floor || HasQuorum(env.cfg, passed)
    ensures (m.term, m.readCtx + 1) !in h.asked
    ensures ReadsOk(env, AskedWith(h, m.term, m.readCtx + 1, passed), n, Waiting(m, floor), st)
  {
    var h', m' := AskedWith(h, m.term, m.readCtx + 1, passed), Waiting(m, floor);
    forall r
      ensures ReadOk(env, h, m, r) ==> ReadOk(env, h', m', r)
    {
    }
    assert ReadOk(env, h', m', m'.waiting[|m.waiting|]);
  }

  lemma WaitingKeeps(env: Env, h: History, n: NodeId, m: Raft, st: Stored, floor: nat, passed: set<NodeId>)
    requires HistOk(env, h) && NodeOk(env, h, n, m, st) && m.role == Leader && n !in passed
    requires m.commit >= floor || HasQuorum(env.cfg, passed)
    ensures (m.term, m.readCtx + 1) !in h.asked
    ensures NodeOk(env, AskedWith(h, m.term, m.readCtx + 1, passed), n, Waiting(m, floor), st)
  {
    var h', m' := AskedWith(h, m.term, m.readCtx + 1, passed), Waiting(m, floor);
    assert ReadsOk(env, h, n, m, st) && m.id == n by { assert LogsOk(h, n, m, st); }
    hide HistOk, AskedWith, LogsOk, LeaderOk, CandidateOk, OwnLeads, VotesOk, DiskKeepsAcks, MemoryKeepsAcks,
         GrantsKeepAcks;
    hide LeadsKeepAcks, CommitOk, ProgressOk, PersistedOk, OutboxOk, ReadsOk, HasQuorum;
    WaitingReads(env, h, n, m, st, floor, passed);
    AskerGrows(env, h, n, m, st, m.readCtx + 1, passed);
    AcksUnmoved(h', n, m, m');
    OnlyReadsRoles(env, h', n, m, m', st);
  }

  // ---- asking the peers ------------------------------------------------------------------------------

  /** The commit index a heartbeat carries is one its receiver has acknowledged. */
  lemma HeartbeatIsQueued(env: Env, h: History, n: NodeId, m: Raft, st: Stored, peer: NodeId, ctx: nat)
    requires AcksOk(h) && LogsOk(h, n, m, st) && LeaderOk(h, n, m) && CommitOk(h, m, st) && ProgressOk(h, n, m)
    requires m.role == Leader && peer != n && ctx > 0 && (m.term, ctx) in h.asked
    ensures var matched := if peer in m.progress then m.progress[peer].matched else 0;
            QueuedOk(h, n, m, st,
                     Packet(n, peer, Message(m.term, HeartbeatReq(Min(m.commit, matched), ctx)), m.log.full))
  {
    var matched := if peer in m.progress then m.progress[peer].matched else 0;
    var c := Min(m.commit, matched);
    EvidencePrefix(h, m.log.full, m.commit, m.log.full, c, m.term);
    if c > 0 { assert Ack(peer, m.term, matched) in h.acks; }
  }

  lemma {:induction false} HeartbeatsKeep(env: Env, h: History, n: NodeId, m: Raft, st: Stored, peers: seq<NodeId>,
                                          ctx: nat)
    requires AcksOk(h) && NodeOk(env, h, n, m, st) && m.id == n && m.role == Leader && ctx > 0
    requires (m.term, ctx) in h.asked
    ensures NodeOk(env, h, n, SendHeartbeats(m, peers, ctx), st)
    decreases |peers|
  {
    if peers != [] {
      var to := peers[0];
      if to != n {
        var matched := if to in m.progress then m.progress[to].matched else 0;
        var p := Packet(n, to, Message(m.term, HeartbeatReq(Min(m.commit, matched), ctx)), m.log.full);
        HeartbeatIsQueued(env, h, n, m, st, to, ctx);
        hide AcksOk, NodeOk, QueuedOk;
        QueueKeeps(env, h, n, m, st, p);
        HeartbeatsKeep(env, h, n, Queued(m, p), st, peers[1..], ctx);
      } else {
        HeartbeatsKeep(env, h, n, m, st, peers[1..], ctx);
      }
    }
  }

  /** A read asked of a node that can answer alone is answered at once. */
  lemma AloneKeeps(env: Env, h: History, n: NodeId, m: Raft, st: Stored, floor: nat, passed: set<NodeId>)
    requires NodeOk(env, h, n, m, st) && m.role == Leader && HasQuorum(env.cfg, {n}) && n !in passed
    requires m.commit >= floor || HasQuorum(env.cfg, passed)
    ensures NodeOk(env, h, n, Answered(m, floor), st)
  {
    if HasQuorum(env.cfg, passed) { QuorumsIntersect(env.cfg, {n}, passed); }
    var m' := Answered(m, floor);
    assert ReadsOk(env, h, n, m, st);
    forall r
      ensures ReadOk(env, h, m, r) ==> ReadOk(env, h, m', r)
    {
    }
    hide NodeOk, HasQuorum;
    OnlyReadsKeeps(env, h, n, m, m', st);
  }

  lemma LeadsDurably(env: Env, h: History, n: NodeId, m: Raft)
    requires HistOk(env, h) && LeaderOk(h, n, m) && m.role == Leader && m.committedOwn
    ensures m.term in h.led && h.led[m.term].durable
  {
    assert CommitBacked(env, h, m.term);
  }

  lemma PeersAskedKeep(env: Env, h: History, n: NodeId, m: Raft, st: Stored, floor: nat, passed: set<NodeId>)
    requires Safe(env, h, n, m, st) && m.id == n && n !in passed && m.role == Leader && m.committedOwn
    requires m.commit >= floor || HasQuorum(env.cfg, passed)
    ensures (m.term, m.readCtx + 1) !in h.asked
    ensures Safe(env, AskedWith(h, m.term, m.readCtx + 1, passed), n,
                 SendHeartbeats(Waiting(m, floor), Ascending(env.cfg.AllNodes()), m.readCtx + 1), st)
  {
    hide HasQuorum, SendHeartbeats;
    LeadsDurably(env, h, n, m);
    hide NodeOk;
    WaitingKeeps(env, h, n, m, st, floor, passed);
    hide LeadsOk, ElectionsOk, NetOk, GrantsAgree, DurableDown, GrantsKept, AskedOk, AcksOk;
    AskRecorded(env, h, m.term, m.readCtx + 1, passed);
    HeartbeatsKeep(env, AskedWith(h, m.term, m.readCtx + 1, passed), n, Waiting(m, floor), st,
                   Ascending(env.cfg.AllNodes()), m.readCtx + 1);
  }

  /** Beginning a read: `passed` are the nodes whose disks are already at a later term. */
  lemma ReadIndexKeeps(env: Env, h: History, n: NodeId, m: Raft, st: Stored, floor: nat, passed: set<NodeId>)
    returns (h': History)
    requires Safe(env, h, n, m, st) && m.id == n && n !in passed
    requires m.role == Leader && m.committedOwn ==> m.commit >= floor || HasQuorum(env.cfg, passed)
    ensures Grows(h, h') && AddedBy(h, h', n) && h'.led == h.led && h'.net == h.net && h'.acks == h.acks
    ensures Safe(env, h', n, ReadIndex(env, m, floor), st)
    ensures forall k :: k in h'.asked && k !in h.asked ==> m.role == Leader && k.0 == m.term && h'.asked[k] == passed
  {
    hide NodeOk, HistOk, HasQuorum, SendHeartbeats, Grows, AddedBy, Waiting, Answered, Ascending;
    Still(h, n);
    h' := h;
    if m.role == Leader && m.committedOwn {
      if HasQuorum(env.cfg, {n}) {
        AloneKeeps(env, h, n, m, st, floor, passed);
      } else {
        PeersAskedKeep(env, h, n, m, st, floor, passed);
        h' := AskedWith(h, m.term, m.readCtx + 1, passed);
        AskGrows(h, n, m.term, m.readCtx + 1, passed);
      }
    }
  }

  // ---- completing a read ----------------------------------------------------------------------------------

  /** One more acknowledgement from a node that had not moved past the term. */
  lemma {:induction false} AckReadsKeep(env: Env, h: History, m: Raft, pending: seq<PendingRead>, from: NodeId,
                                        ctx: nat)
    requires forall r :: r in pending ==> ReadOk(env, h, m, r)
    requires ctx > 0 && (m.term, ctx) in h.asked && from !in h.asked[(m.term, ctx)]
    ensures forall r :: r in AckReads(pending, from, ctx) ==> ReadOk(env, h, m, r)
  {
    if pending != [] {
      AckReadsKeep(env, h, m, pending[1..], from, ctx);
      assert ReadOk(env, h, m, pending[0]);
      assert ReadOk(env, h, m, AckRead(pending[0], from, ctx));
    }
  }

  /** ReadIndex safety: a read a quorum has confirmed is at least as new as its floor. */
  lemma {:induction false} CompletedIsFresh(env: Env, h: History, m: Raft, pending: seq<PendingRead>, ctx: nat)
    requires forall r :: r in pending ==> ReadOk(env, h, m, r)
    ensures forall r :: r in Completed(env, pending, ctx) ==> r.floor <= r.index <= m.commit
  {
    if pending != [] {
      CompletedIsFresh(env, h, m, pending[1..], ctx);
      var r := pending[0];
      assert ReadOk(env, h, m, r);
      if HasQuorum(env.cfg, r.acks) && HasQuorum(env.cfg, h.asked[(m.term, r.ctx)]) {
        QuorumsIntersect(env.cfg, r.acks, h.asked[(m.term, r.ctx)]);
      }
    }
  }

  lemma {:induction false} RetainSome(pending: seq<PendingRead>, done: set<nat>)
    ensures forall r :: r in Retain(pending, done) ==> r in pending
  {
    if pending != [] { RetainSome(pending[1..], done); }
  }

  /** The waiting reads after a reply from `from`, and those it releases. */
  lemma ReplyReads(env: Env, h: History, n: NodeId, m: Raft, m': Raft, st: Stored, from: NodeId, ctx: nat,
                   done: set<nat>)
    requires ReadsOk(env, h, n, m, st)
    requires ctx > 0 && (m.term, ctx) in h.asked && from !in h.asked[(m.term, ctx)]
    requires OnlyReads(m, m') && m'.readCtx == m.readCtx
    requires var acked := AckReads(m.waiting, from, ctx);
             (m'.waiting == acked && m'.out.confirmed == m.out.confirmed)
             || (m'.waiting == Retain(acked, done) && m'.out.confirmed == m.out.confirmed + Completed(env, acked, ctx))
    ensures ReadsOk(env, h, n, m', st)
  {
    var acked := AckReads(m.waiting, from, ctx);
    AckReadsKeep(env, h, m, m.waiting, from, ctx);
    CompletedIsFresh(env, h, m, acked, ctx);
    RetainSome(acked, done);
    forall r
      ensures ReadOk(env, h, m, r) ==> ReadOk(env, h, m', r)
    {
    }
  }

  lemma ReplyKeeps(env: Env, h: History, n: NodeId, m: Raft, st: Stored, from: NodeId, ctx: nat)
    requires NodeOk(env, h, n, m, st) && m.role == Leader
    requires ctx > 0 && (m.term, ctx) in h.asked && from !in h.asked[(m.term, ctx)]
    ensures var acked := AckReads(m.waiting, from, ctx);
            var completed := Completed(env, acked, ctx);
            NodeOk(env, h, n, if completed == [] then m.(waiting := acked)
                              else m.(waiting := Retain(acked, set r | r in completed :: r.ctx),
                                      out := m.out.(confirmed := m.out.confirmed + completed),
                                      clock := m.clock.(contact := 0)), st)
  {
    assert ReadsOk(env, h, n, m, st);
    hide NodeOk, ReadsOk, AckReads, Completed, Retain;
    var acked := AckReads(m.waiting, from, ctx);
    var completed := Completed(env, acked, ctx);
    var done := set r | r in completed :: r.ctx;
    var m' := if completed == [] then m.(waiting := acked)
              else m.(waiting := Retain(acked, done), out := m.out.(confirmed := m.out.confirmed + completed),
                      clock := m.clock.(contact := 0));
    ReplyReads(env, h, n, m, m', st, from, ctx, done);
    OnlyReadsKeeps(env, h, n, m, m', st);
  }

  lemma HeartbeatRespKeeps(env: Env, h: History, n: NodeId, m: Raft, st: Stored, p: Packet)
    requires NetOk(h) && NodeOk(env, h, n, m, st) && Arrives(h, n, m, p) && p.msg.body.HeartbeatResp?
    ensures NodeOk(env, h, n, HandleHeartbeatResp(env, m, p.src, p.msg.body.ctx), st)
  {
    hide NodeOk, AckReads, Completed, Retain;
    if m.role == Leader {
      assert Truthful(h, p);
      hide NetOk;
      var m1 := if p.src in m.progress
                then m.(progress := m.progress[p.src := m.progress[p.src].(active := true)]) else m;
      QuietKeeps(env, h, n, m, m1, st);
      ReplyKeeps(env, h, n, m1, st, p.src, p.msg.body.ctx);
    }
  }
}
