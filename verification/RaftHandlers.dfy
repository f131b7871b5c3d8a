/** Every transition of a node keeps its invariant and the history's. */
module RaftHandlers {
  import opened Types
  import opened Quorum
  import opened RaftLog
  import opened RaftNode
  import opened RaftHistory
  import opened RaftGrowth
  import opened RaftInvariant
  import opened RaftSteps
  import opened RaftLeadership
  import opened RaftReplication

  ghost predicate Safe(env: Env, h: History, n: NodeId, m: Raft, st: Stored) {
    HistOk(env, h) && NodeOk(env, h, n, m, st)
  }

  /** Between two Ready cycles a node can only add leaderships of its own. */
  ghost predicate Moves(h: History, h': History, n: NodeId) {
    Grows(h, h') && AddedBy(h, h', n) && h'.net == h.net && h'.acks == h.acks && h'.asked == h.asked
  }

  lemma Still(h: History, n: NodeId)
    ensures Moves(h, h, n)
  {
    forall t | t in h.led
      ensures LeadGrows(h.led[t], h.led[t])
    {
      assert h.led[t].log[..|h.led[t].log|] == h.led[t].log;
    }
  }

  // ---- messages that promise nothing --------------------------------------------------------------

  predicate Plain(body: Body<Image>) {
    body.PreVoteReq? || body.PreVoteResp? || (body.VoteResp? && !body.granted) || (body.AppendResp? && !body.success)
  }

  lemma PlainKeeps(env: Env, h: History, n: NodeId, m: Raft, st: Stored, to: NodeId, term: nat, body: Body<Image>)
    requires NodeOk(env, h, n, m, st) && to != n && Plain(body)
    requires body.PreVoteReq? || body.PreVoteResp? || term == m.term
    ensures NodeOk(env, h, n, Enqueue(m, to, term, body), st)
  {
    var p := Packet(m.id, to, Message(term, body), m.log.full);
    assert LogsOk(h, n, m, st);
    QueueKeeps(env, h, n, m, st, p);
  }

  /** Polls and requests for votes describe the sender's log. */
  lemma {:induction false} CanvassKeeps(env: Env, h: History, n: NodeId, m: Raft, st: Stored, peers: seq<NodeId>,
                                        term: nat, body: Body<Image>)
    requires NodeOk(env, h, n, m, st)
    requires || body.PreVoteReq?
             || (body == VoteReq(LastIndex(m.log), LastTerm(m.log)) && term == m.term)
    ensures NodeOk(env, h, n, EnqueueAll(m, peers, term, body), st)
    decreases |peers|
  {
    if peers != [] {
      var to := peers[0];
      if to != m.id {
        var p := Packet(m.id, to, Message(term, body), m.log.full);
        assert LogsOk(h, n, m, st);
        QueueKeeps(env, h, n, m, st, p);
        CanvassKeeps(env, h, n, Queued(m, p), st, peers[1..], term, body);
      } else {
        CanvassKeeps(env, h, n, m, st, peers[1..], term, body);
      }
    }
  }

  // ---- a leader's messages ---------------------------------------------------------------------------

  lemma AppendForIsSlice(env: Env, m: Raft, next: nat)
    requires FirstIndex(m.log) <= next && next - 1 <= |m.log.full|
    ensures IsSlice(m, AppendFor(env, m, next))
  {
  }

  /** A slice of the sender's log, with what the sender knows to be committed. */
  ghost predicate IsSlice(m: Raft, b: Body<Image>) {
    && b.AppendReq? && b.prevIndex + |b.entries| <= |m.log.full| && m.log.base <= b.prevIndex && b.commit == m.commit
    && b.prevTerm == TermOf(m.log.full, b.prevIndex)
    && b.entries == m.log.full[b.prevIndex..b.prevIndex + |b.entries|]
  }

  lemma AppendIsQueued(h: History, n: NodeId, m: Raft, st: Stored, peer: NodeId, b: Body<Image>)
    requires LogsOk(h, n, m, st) && LeaderOk(h, n, m) && CommitOk(h, m, st) && m.role == Leader && peer != n
    requires IsSlice(m, b)
    ensures QueuedOk(h, n, m, st, Packet(n, peer, Message(m.term, b), m.log.full))
  {
  }

  lemma SendAppendKeeps(env: Env, h: History, n: NodeId, m: Raft, st: Stored, peer: NodeId)
    requires NodeOk(env, h, n, m, st) && m.id == n && m.role == Leader && peer != n
    ensures NodeOk(env, h, n, SendAppendTo(env, m, peer), st)
    ensures SendAppendTo(env, m, peer).role == Leader && SendAppendTo(env, m, peer).id == n
  {
    hide LogsOk, LeaderOk, CandidateOk, OwnLeads, VotesOk, DiskKeepsAcks, MemoryKeepsAcks, GrantsKeepAcks,
         LeadsKeepAcks;
    hide CommitOk, ProgressOk, PersistedOk, OutboxOk, ReadsOk, QueuedOk, AppendFor, IsSlice;
    if peer in m.progress {
      var p := m.progress[peer];
      if !(p.state == Snapshotting && p.pendingSnapshot > 0) {
        if FirstIndex(m.log) <= p.next && p.next - 1 <= |m.log.full| {
          AppendForIsSlice(env, m, p.next);
          AppendIsQueued(h, n, m, st, peer, AppendFor(env, m, p.next));
          QueueKeeps(env, h, n, m, st, Packet(n, peer, Message(m.term, AppendFor(env, m, p.next)), m.log.full));
        } else {
          QuietKeeps(env, h, n, m, SendAppendTo(env, m, peer), st);
        }
      }
    }
  }

  lemma {:induction false} SendAppendsKeep(env: Env, h: History, n: NodeId, m: Raft, st: Stored, peers: seq<NodeId>)
    requires NodeOk(env, h, n, m, st) && m.id == n && m.role == Leader
    ensures NodeOk(env, h, n, SendAppends(env, m, peers), st) && SendAppends(env, m, peers).role == Leader
    ensures SendAppends(env, m, peers).id == n
    decreases |peers|
  {
    if peers != [] {
      hide NodeOk, SendAppendTo;
      if peers[0] != n { SendAppendKeeps(env, h, n, m, st, peers[0]); }
      SendAppendsKeep(env, h, n, if peers[0] == n then m else SendAppendTo(env, m, peers[0]), st, peers[1..]);
    }
  }

  lemma {:induction false} ResendKeeps(env: Env, h: History, n: NodeId, m: Raft, st: Stored, peers: seq<NodeId>)
    requires NodeOk(env, h, n, m, st) && m.id == n && n !in peers && (peers != [] ==> m.role == Leader)
    ensures NodeOk(env, h, n, SendAppendsAll(env, m, peers), st)
    decreases |peers|
  {
    if peers != [] {
      hide NodeOk, SendAppendTo;
      SendAppendKeeps(env, h, n, m, st, peers[0]);
      ResendKeeps(env, h, n, SendAppendTo(env, m, peers[0]), st, peers[1..]);
    }
  }

  lemma BroadcastKeeps(env: Env, h: History, n: NodeId, m: Raft, st: Stored)
    requires NodeOk(env, h, n, m, st) && m.id == n && m.role == Leader
    ensures NodeOk(env, h, n, BroadcastAppend(env, m), st) && BroadcastAppend(env, m).role == Leader
    ensures BroadcastAppend(env, m).id == n
  {
    hide NodeOk, SendAppends;
    SendAppendsKeep(env, h, n, m, st, Ascending(env.cfg.AllNodes()));
  }

  // ---- elections -------------------------------------------------------------------------------------------

  lemma WinKeeps(env: Env, h: History, n: NodeId, m: Raft, st: Stored) returns (h': History)
    requires Safe(env, h, n, m, st) && m.id == n && m.role == Candidate && Tally(env, m) && m.term > 0
    ensures Moves(h, h', n) && Safe(env, h', n, BecomeLeader(env, m), st)
  {
    h' := WithLead(h, m, st);
    hide NodeOk, HistOk, BroadcastAppend, AppendOwn, TakeLeadership;
    NewLeadRecorded(env, h, n, m, st);
    WithLeadGrows(h, m, st);
    LeaderKeeps(env, h, n, m, st);
    var m' := AppendOwn(TakeLeadership(env, m), Noop);
    LeaderRole(env, m);
    BroadcastKeeps(env, h', n, m', st);
  }

  lemma LeaderRole(env: Env, m: Raft)
    ensures var m' := AppendOwn(TakeLeadership(env, m), Noop); m'.role == Leader && m'.id == m.id
  {
  }

  lemma CampaignKeeps(env: Env, h: History, n: NodeId, m: Raft, st: Stored, draw: nat) returns (h': History)
    requires Safe(env, h, n, m, st) && m.id == n && m.role != Leader && env.cfg.IsVoter(n)
    ensures Moves(h, h', n) && Safe(env, h', n, Campaign(env, m, draw), st)
  {
    Still(h, n);
    h' := h;
    StandKeeps(env, h, n, m, st, draw);
    var m' := Stand(env, m, draw);
    if Tally(env, m') {
      hide NodeOk, HistOk, BecomeLeader;
      h' := WinKeeps(env, h, n, m', st);
    } else {
      hide NodeOk, HistOk, EnqueueAll;
      CanvassKeeps(env, h, n, m', st, Ascending(env.cfg.AllNodes()), m'.term,
                   VoteReq(LastIndex(m'.log), LastTerm(m'.log)));
    }
  }

  lemma PreCampaignKeeps(env: Env, h: History, n: NodeId, m: Raft, st: Stored, draw: nat) returns (h': History)
    requires Safe(env, h, n, m, st) && m.id == n && m.role != Leader && env.cfg.IsVoter(n)
    ensures Moves(h, h', n) && Safe(env, h', n, PreCampaign(env, m, draw), st)
  {
    hide NodeOk, HistOk, Campaign, EnqueueAll, Moves, HasQuorum, Ascending;
    Still(h, n);
    h' := h;
    var m' := NewTimeout(env, m, draw).(role := PreCandidate, votes := map[m.id := true]);
    PollKeeps(env, h, n, m, m', st);
    if Tally(env, m') {
      h' := CampaignKeeps(env, h, n, m', st, draw);
    } else {
      CanvassKeeps(env, h, n, m', st, Ascending(env.cfg.AllNodes()), m'.term + 1,
                   PreVoteReq(LastIndex(m'.log), LastTerm(m'.log)));
    }
  }

  /** Taking a role that neither leads nor stands. */
  lemma PollKeeps(env: Env, h: History, n: NodeId, m: Raft, m': Raft, st: Stored)
    requires NodeOk(env, h, n, m, st) && m.role != Leader
    requires m' == m.(role := m'.role, votes := m'.votes, clock := m'.clock)
    requires m'.role == Follower || (m'.role == PreCandidate && env.cfg.IsVoter(n))
    ensures NodeOk(env, h, n, m', st)
  {
    AcksUnmoved(h, n, m, m');
    PollRest(env, h, n, m, m', st);
  }

  lemma PollRest(env: Env, h: History, n: NodeId, m: Raft, m': Raft, st: Stored)
    requires m.role != Leader && m' == m.(role := m'.role, votes := m'.votes, clock := m'.clock)
    requires m'.role == Follower || (m'.role == PreCandidate && env.cfg.IsVoter(n))
    requires LogsOk(h, n, m, st) && OwnLeads(h, n, m, st) && VotesOk(h, n, m, st) && ProgressOk(h, n, m)
    requires CommitOk(h, m, st) && PersistedOk(env, h, n, m, st) && OutboxOk(h, n, m, st) && ReadsOk(env, h, n, m, st)
    ensures LogsOk(h, n, m', st) && LeaderOk(h, n, m') && CandidateOk(env, h, n, m', st) && OwnLeads(h, n, m', st)
    ensures VotesOk(h, n, m', st) && CommitOk(h, m', st) && ProgressOk(h, n, m')
    ensures PersistedOk(env, h, n, m', st) && OutboxOk(h, n, m', st) && ReadsOk(env, h, n, m', st)
  {
    forall p
      ensures QueuedOk(h, n, m, st, p) ==> QueuedOk(h, n, m', st, p)
    {
    }
  }

  lemma StartElectionKeeps(env: Env, h: History, n: NodeId, m: Raft, st: Stored, draw: nat) returns (h': History)
    requires Safe(env, h, n, m, st) && m.id == n && m.role != Leader && env.cfg.IsVoter(n)
    ensures Moves(h, h', n) && Safe(env, h', n, StartElection(env, m, draw), st)
  {
    hide Safe, Moves, Campaign, PreCampaign;
    if env.opts.preVote {
      h' := PreCampaignKeeps(env, h, n, m, st, draw);
    } else {
      h' := CampaignKeeps(env, h, n, m, st, draw);
    }
  }

  // ---- the clock -----------------------------------------------------------------------------------------------

  lemma CheckQuorumKeeps(env: Env, h: History, n: NodeId, m: Raft, st: Stored)
    requires NodeOk(env, h, n, m, st) && m.id == n
    ensures NodeOk(env, h, n, CheckQuorum(env, m), st) && CheckQuorum(env, m).id == n
  {
    hide NodeOk, HasQuorum, BecomeFollower;
    var m1 := m.(progress := map id | id in m.progress :: m.progress[id].(active := false));
    QuietKeeps(env, h, n, m, m1, st);
    QuietKeeps(env, h, n, m1, m1.(clock := m1.clock.(contact := 0)), st);
    FollowerKeeps(env, h, n, m1, st, m1.term, None);
    FollowerNamed(m1);
  }

  lemma FollowerNamed(m: Raft)
    ensures BecomeFollower(m, m.term, None).id == m.id
  {
  }

  lemma ExpireKeeps(env: Env, h: History, n: NodeId, m: Raft, st: Stored)
    requires NodeOk(env, h, n, m, st) && m.id == n
    ensures NodeOk(env, h, n, ExpirePendingSnapshots(env, m), st)
  {
    hide *;
    var m1 := m.(progress := AgedProgress(env, m));
    OwnNeedsNone(env, h, n, m, st);
    AgedIsQuiet(env, m);
    QuietKeeps(env, h, n, m, m1, st);
    LateOnes(env, n, m);
    ResendKeeps(env, h, n, m1, st, Ascending(Late(env, m)));
    ExpireIs(env, m);
  }

  ghost function AgedProgress(env: Env, m: Raft): map<NodeId, Progress> {
    map id | id in m.progress :: Aged(env, m.progress[id])
  }

  ghost function Late(env: Env, m: Raft): set<NodeId> {
    set id | id in m.progress && Expired(env, m.progress[id])
  }

  lemma ExpireIs(env: Env, m: Raft)
    ensures ExpirePendingSnapshots(env, m)
         == SendAppendsAll(env, m.(progress := AgedProgress(env, m)), Ascending(Late(env, m)))
  {
    hide SendAppendsAll, Ascending;
  }

  /** A node has no snapshot in flight to itself, and only a leader has any. */
  lemma OwnNeedsNone(env: Env, h: History, n: NodeId, m: Raft, st: Stored)
    requires NodeOk(env, h, n, m, st)
    ensures (n in m.progress ==> m.progress[n].pendingSnapshot == 0) && (m.role != Leader ==> m.progress == map[])
  {
    assert ProgressOk(h, n, m);
  }

  lemma AgedIsQuiet(env: Env, m: Raft)
    requires m.id in m.progress ==> m.progress[m.id].pendingSnapshot == 0
    ensures Quiet(m, m.(progress := AgedProgress(env, m)))
  {
  }

  lemma LateOnes(env: Env, n: NodeId, m: Raft)
    requires (n in m.progress ==> m.progress[n].pendingSnapshot == 0) && (m.role != Leader ==> m.progress == map[])
    ensures n !in Ascending(Late(env, m)) && (Ascending(Late(env, m)) != [] ==> m.role == Leader)
  {
    var ids := Ascending(Late(env, m));
    if ids != [] { assert ids[0] in ids && ids[0] in m.progress; }
  }

  lemma ClockKeeps(env: Env, h: History, n: NodeId, m: Raft, st: Stored, clock: Clock)
    requires NodeOk(env, h, n, m, st)
    ensures NodeOk(env, h, n, m.(clock := clock), st)
  {
    hide NodeOk;
    QuietKeeps(env, h, n, m, m.(clock := clock), st);
  }

  lemma LeaderTickKeeps(env: Env, h: History, n: NodeId, m: Raft, st: Stored)
    requires NodeOk(env, h, n, m, st) && m.id == n && m.role == Leader
    ensures NodeOk(env, h, n, LeaderTick(env, m), st)
  {
    hide NodeOk, BroadcastAppend, CheckQuorum, ExpirePendingSnapshots;
    var m1 := m.(clock := m.clock.(heartbeat := m.clock.heartbeat + 1, contact := m.clock.contact + 1));
    ClockKeeps(env, h, n, m, st, m1.clock);
    var m1' := m1.(clock := m1.clock.(heartbeat := 0));
    ClockKeeps(env, h, n, m1, st, m1'.clock);
    BroadcastKeeps(env, h, n, m1', st);
    var m2 := if m1.clock.heartbeat >= env.opts.heartbeatTicks then BroadcastAppend(env, m1') else m1;
    var m2' := m2.(clock := m2.clock.(election := 0));
    ClockKeeps(env, h, n, m2, st, m2'.clock);
    CheckQuorumKeeps(env, h, n, m2', st);
    var m3 := if m2.clock.election >= env.opts.electionTicks then CheckQuorum(env, m2') else m2;
    ExpireKeeps(env, h, n, m3, st);
  }

  lemma TickKeeps(env: Env, h: History, n: NodeId, m: Raft, st: Stored, draw: nat) returns (h': History)
    requires Safe(env, h, n, m, st) && m.id == n
    ensures Moves(h, h', n) && Safe(env, h', n, Tick(env, m, draw), st)
  {
    Still(h, n);
    h' := h;
    hide NodeOk, HistOk, LeaderTick, StartElection;
    var m1 := m.(clock := m.clock.(election := m.clock.election + 1));
    QuietKeeps(env, h, n, m, m1, st);
    if m1.role == Leader {
      LeaderTickKeeps(env, h, n, m1, st);
    } else if Promotable(env, m1) && m1.clock.election >= m1.clock.timeout {
      h' := StartElectionKeeps(env, h, n, m1, st, draw);
    }
  }

  // ---- client inputs --------------------------------------------------------------------------------------------

  lemma ProposeKeeps(env: Env, h: History, n: NodeId, m: Raft, st: Stored, data: Bytes) returns (h': History)
    requires Safe(env, h, n, m, st) && m.id == n
    ensures Moves(h, h', n) && Safe(env, h', n, Propose(env, m, data), st)
  {
    Still(h, n);
    h' := h;
    if m.role == Leader {
      assert LogsOk(h, n, m, st) && LeaderOk(h, n, m);
      h' := WithEntry(h, m, Normal(data));
      ProposalRecorded(env, h, n, m, st, Normal(data));
      ProposalKeeps(env, h, n, m, st, Normal(data));
      WithEntryGrows(h, n, m, Normal(data));
      hide NodeOk, HistOk, BroadcastAppend;
      BroadcastKeeps(env, h', n, AppendOwn(m, Normal(data)), st);
    }
  }

  lemma TransferKeeps(env: Env, h: History, n: NodeId, m: Raft, st: Stored, target: NodeId)
    requires NodeOk(env, h, n, m, st) && m.id == n
    ensures NodeOk(env, h, n, TransferLeadership(env, m, target), st)
  {
    if m.role == Leader && target != n {
      assert LogsOk(h, n, m, st) && LeaderOk(h, n, m);
      QueueKeeps(env, h, n, m, st, Packet(n, target, Message(m.term, TimeoutNow), m.log.full));
    }
  }

  // ---- elections: messages ------------------------------------------------------------------------------------------

  /** A packet addressed to this node, at its term. */
  ghost predicate Arrives(h: History, n: NodeId, m: Raft, p: Packet) {
    p in h.net && p.dst == n && p.src != n && p.msg.term == m.term
  }

  lemma VoteReqKeeps(env: Env, h: History, n: NodeId, m: Raft, st: Stored, p: Packet)
    requires NodeOk(env, h, n, m, st) && m.id == n && Arrives(h, n, m, p) && p.msg.body.VoteReq?
    ensures NodeOk(env, h, n, HandleVoteReq(m, p.src, p.msg.body.lastIndex, p.msg.body.lastTerm), st)
  {
    var b := p.msg.body;
    if CanVote(m, p.src) && UpToDate(m.log.full, b.lastTerm, b.lastIndex) {
      var m1, q := Grant(m, p.src), Packet(n, p.src, Message(m.term, VoteResp(true)), m.log.full);
      GrantKeeps(env, h, n, m, st, p.src);
      assert LogsOk(h, n, m1, st);
      assert Requested(h, q);
      hide NodeOk, Requested;
      QueueKeeps(env, h, n, m1, st, q);
    } else {
      PlainKeeps(env, h, n, m, st, p.src, m.term, VoteResp(false));
    }
  }

  lemma VoteRespKeeps(env: Env, h: History, n: NodeId, m: Raft, st: Stored, p: Packet) returns (h': History)
    requires Safe(env, h, n, m, st) && m.id == n && Arrives(h, n, m, p) && p.msg.body.VoteResp?
    ensures Moves(h, h', n) && Safe(env, h', n, HandleVoteResp(env, m, p.src, p.msg.body.granted), st)
  {
    hide Moves, HasQuorum, VoteSeen, BecomeLeader, BecomeFollower;
    Still(h, n);
    h' := h;
    if m.role == Candidate {
      var m1 := m.(votes := m.votes[p.src := p.msg.body.granted]);
      assert CandidateOk(env, h, n, m, st);
      if p.msg.body.granted { GrantIsSeen(env, h, n, m, st, p); }
      hide NodeOk, HistOk;
      RecordVoteKeeps(env, h, n, m, st, m1.votes);
      if Tally(env, m1) {
        h' := WinKeeps(env, h, n, m1, st);
      } else if Lost(env, m1) {
        FollowerKeeps(env, h, n, m1, st, m1.term, None);
      }
    }
  }

  lemma PollsAsVoter(env: Env, h: History, n: NodeId, m: Raft, st: Stored)
    requires NodeOk(env, h, n, m, st)
    ensures m.role == PreCandidate ==> env.cfg.IsVoter(n)
  {
    assert CandidateOk(env, h, n, m, st);
  }

  lemma PreVoteRespKeeps(env: Env, h: History, n: NodeId, m: Raft, st: Stored, from: NodeId, term: nat, granted: bool,
                         draw: nat) returns (h': History)
    requires Safe(env, h, n, m, st) && m.id == n
    ensures Moves(h, h', n) && Safe(env, h', n, HandlePreVoteResp(env, m, from, term, granted, draw), st)
  {
    hide NodeOk, HistOk, Campaign, BecomeFollower, Moves, Tally, Lost, VoteSeen;
    Still(h, n);
    h' := h;
    if m.role == PreCandidate {
      if !granted && term > m.term + 1 {
        FollowerKeeps(env, h, n, m, st, term, None);
      } else {
        h' := PollCounted(env, h, n, m, st, m.votes[from := granted], draw);
      }
    }
  }

  lemma PollCounted(env: Env, h: History, n: NodeId, m: Raft, st: Stored, votes: map<NodeId, bool>, draw: nat)
    returns (h': History)
    requires Safe(env, h, n, m, st) && m.id == n && m.role == PreCandidate
    ensures var m1 := m.(votes := votes);
            && Moves(h, h', n)
            && Safe(env, h', n, if Tally(env, m1) then Campaign(env, m1, draw)
                                else if Lost(env, m1) then m1.(role := Follower) else m1, st)
  {
    hide NodeOk, HistOk, Campaign, Moves, Tally, Lost, VoteSeen;
    PollsAsVoter(env, h, n, m, st);
    Still(h, n);
    h' := h;
    var m1 := m.(votes := votes);
    RecordVoteKeeps(env, h, n, m, st, votes);
    if Tally(env, m1) {
      h' := CampaignKeeps(env, h, n, m1, st, draw);
    } else if Lost(env, m1) {
      PollKeeps(env, h, n, m1, m1.(role := Follower), st);
    }
  }

  /** Only another node can ask a node to take over, so never a leader of the same term. */
  lemma TimeoutNowFindsNoLeader(env: Env, h: History, n: NodeId, m: Raft, st: Stored, p: Packet)
    requires NetOk(h) && LeaderOk(h, n, m) && Arrives(h, n, m, p) && p.msg.body.TimeoutNow?
    ensures m.role != Leader
  {
    assert Truthful(h, p);
  }

  lemma TimeoutNowKeeps(env: Env, h: History, n: NodeId, m: Raft, st: Stored, p: Packet,
                        draw: nat) returns (h': History)
    requires Safe(env, h, n, m, st) && m.id == n && Arrives(h, n, m, p) && p.msg.body.TimeoutNow?
    ensures Moves(h, h', n) && Safe(env, h', n, if Promotable(env, m) then Campaign(env, m, draw) else m, st)
  {
    Still(h, n);
    h' := h;
    TimeoutNowFindsNoLeader(env, h, n, m, st, p);
    if Promotable(env, m) {
      hide NodeOk, HistOk, Campaign;
      h' := CampaignKeeps(env, h, n, m, st, draw);
    }
  }

  // ---- replication: messages ------------------------------------------------------------------------------

  lemma DeferKeeps(env: Env, h: History, n: NodeId, m: Raft, st: Stored, from: NodeId)
    requires NodeOk(env, h, n, m, st) && m.id == n
    ensures NodeOk(env, h, n, Defer(m, from), st)
    ensures var m' := Defer(m, from); m'.role == Follower && m'.id == n && m'.term == m.term
  {
    hide NodeOk;
    var m1 := if m.role != Follower then BecomeFollower(m, m.term, Some(from)) else m;
    FollowerKeeps(env, h, n, m, st, m.term, Some(from));
    QuietKeeps(env, h, n, m1, m1.(leader := Some(from), clock := m1.clock.(election := 0)), st);
  }

  /** Queueing an acknowledgement of the leader of this term. */
  lemma AckKeeps(env: Env, h: History, n: NodeId, m: Raft, st: Stored, to: NodeId, body: Body<Image>)
    requires NodeOk(env, h, n, m, st) && m.id == n && to != n && m.term in h.led && h.led[m.term].durable
    requires (body.AppendResp? && body.success) || (body.SnapshotResp? && body.success)
    requires HoldsAck(h, m.log.full, Ack(n, m.term, if body.AppendResp? then body.matchIndex else body.index))
    ensures NodeOk(env, h, n, Send(m, to, body), st)
  {
    assert LogsOk(h, n, m, st);
    QueueKeeps(env, h, n, m, st, Packet(n, to, Message(m.term, body), m.log.full));
  }

  lemma LeaderMessage(env: Env, h: History, p: Packet)
    requires NetOk(h) && p in h.net && FromLeader(p)
    ensures p.msg.term in h.led && h.led[p.msg.term].durable && h.led[p.msg.term].leader == p.src && p.src != p.dst
  {
    assert Truthful(h, p) && Backed(h, p);
  }

  /** Answering from a committed index, whatever the leader sent. */
  lemma CommittedAckKeeps(env: Env, h: History, n: NodeId, m: Raft, st: Stored, p: Packet, body: Body<Image>)
    requires Safe(env, h, n, m, st) && m.id == n && Arrives(h, n, m, p) && FromLeader(p)
    requires || (body.AppendResp? && body.success && body.matchIndex <= m.commit)
             || (body.SnapshotResp? && body.success && body.index <= m.commit)
    ensures NodeOk(env, h, n, Send(m, p.src, body), st)
  {
    LeaderMessage(env, h, p);
    CommittedIsHeld(env, h, n, m, st, if body.AppendResp? then body.matchIndex else body.index);
    hide NodeOk, HistOk, HoldsAck;
    AckKeeps(env, h, n, m, st, p.src, body);
  }

  lemma AcceptAckKeeps(env: Env, h: History, n: NodeId, m: Raft, st: Stored, p: Packet)
    requires Safe(env, h, n, m, st) && m.id == n && p.src != n && AppendArrives(h, n, m, p)
    ensures var b := p.msg.body;
            NodeOk(env, h, n, Send(Accept(m, b.prevIndex, b.entries, b.commit), p.src,
                                   AppendResp(true, LastNew(b.prevIndex, b.entries), 0, 0)), st)
  {
    var b := p.msg.body;
    LeaderMessage(env, h, p);
    hide NodeOk, HistOk, HoldsAck, Accept;
    AcceptKeeps(env, h, n, m, st, p);
    AcceptShape(m, b.prevIndex, b.entries, b.commit);
    AckKeeps(env, h, n, Accept(m, b.prevIndex, b.entries, b.commit), st, p.src,
             AppendResp(true, LastNew(b.prevIndex, b.entries), 0, 0));
  }

  lemma RejectKeeps(env: Env, h: History, n: NodeId, m: Raft, st: Stored, to: NodeId, i: nat, t: nat)
    requires NodeOk(env, h, n, m, st) && m.id == n && to != n
    ensures NodeOk(env, h, n, Send(m, to, AppendResp(false, 0, i, t)), st)
  {
    hide NodeOk;
    PlainKeeps(env, h, n, m, st, to, m.term, AppendResp(false, 0, i, t));
  }

  lemma BaseCommitted(env: Env, h: History, n: NodeId, m: Raft, st: Stored)
    requires NodeOk(env, h, n, m, st)
    ensures m.log.base <= m.commit
  {
  }

  lemma AppendKeeps(env: Env, h: History, n: NodeId, m: Raft, st: Stored, p: Packet)
    requires Safe(env, h, n, m, st) && m.id == n && Arrives(h, n, m, p) && p.msg.body.AppendReq?
    ensures var b := p.msg.body;
            NodeOk(env, h, n, HandleAppend(m, p.src, b.prevIndex, b.prevTerm, b.entries, b.commit), st)
  {
    hide NodeOk, HistOk, Defer, Accept, FindConflictByTerm, Send;
    var b, m1 := p.msg.body, Defer(m, p.src);
    DeferKeeps(env, h, n, m, st, p.src);
    if b.prevIndex < m1.log.base {
      BaseCommitted(env, h, n, m1, st);
      CommittedAckKeeps(env, h, n, m1, st, p, AppendResp(true, m1.log.base, 0, 0));
    } else if TermAt(m1.log, b.prevIndex).None? {
      RejectKeeps(env, h, n, m1, st, p.src, LastIndex(m1.log) + 1, 0);
    } else {
      var t := TermAt(m1.log, b.prevIndex).value;
      if t == b.prevTerm {
        AcceptAckKeeps(env, h, n, m1, st, p);
      } else {
        RejectKeeps(env, h, n, m1, st, p.src, FindConflictByTerm(m1.log, b.prevIndex, t), t);
      }
    }
  }

  lemma SnapshotKeeps(env: Env, h: History, n: NodeId, m: Raft, st: Stored, p: Packet)
    requires Safe(env, h, n, m, st) && m.id == n && Arrives(h, n, m, p) && p.msg.body.SnapshotReq?
    ensures NodeOk(env, h, n, HandleSnapshot(m, p.src, p.msg.body.snapshot), st)
  {
    var image, m1 := p.msg.body.snapshot, Defer(m, p.src);
    hide NodeOk, HoldsAck, Defer, Send;
    DeferKeeps(env, h, n, m, st, p.src);
    LeaderMessage(env, h, p);
    if |image.prefix| <= m1.commit {
      CommittedAckKeeps(env, h, n, m1, st, p, SnapshotResp(true, m1.commit));
    } else {
      InstallKeeps(env, h, n, m1, st, p);
      AckKeeps(env, h, n, Install(m1, image), st, p.src, SnapshotResp(true, |image.prefix|));
    }
  }

  lemma HeartbeatKeeps(env: Env, h: History, n: NodeId, m: Raft, st: Stored, p: Packet)
    requires Safe(env, h, n, m, st) && m.id == n && Arrives(h, n, m, p) && p.msg.body.HeartbeatReq?
    ensures NodeOk(env, h, n, HandleHeartbeat(m, p.src, p.msg.body.commit, p.msg.body.ctx), st)
  {
    var b, m1 := p.msg.body, Defer(m, p.src);
    DeferKeeps(env, h, n, m, st, p.src);
    LearnKeeps(env, h, n, m1, st, p);
    var m2 := LearnCommit(m1, b.commit);
    HeartbeatAnswer(env, h, n, m2, st, p);
  }

  /** A node still at the leader's term is none of those that had already passed it. */
  lemma HeartbeatAnswer(env: Env, h: History, n: NodeId, m: Raft, st: Stored, p: Packet)
    requires NetOk(h) && NodeOk(env, h, n, m, st) && m.id == n && Arrives(h, n, m, p) && p.msg.body.HeartbeatReq?
    ensures NodeOk(env, h, n, Send(m, p.src, HeartbeatResp(p.msg.body.ctx)), st)
  {
    assert Truthful(h, p) && ReadsOk(env, h, n, m, st) && LogsOk(h, n, m, st);
    QueueKeeps(env, h, n, m, st, Packet(n, p.src, Message(m.term, HeartbeatResp(p.msg.body.ctx)), m.log.full));
  }

  // ---- a leader hears back ------------------------------------------------------------------------------------------

  /** Advancing either does nothing or moves to an index of this term that a quorum has reached. */
  lemma AdvanceMoves(env: Env, m: Raft)
    ensures var m', k := MaybeAdvanceCommit(env, m), QuorumIndex(env.cfg, MatchedBy(m));
            m' == m || (&& m' == m.(commit := k, committedOwn := true, hardDirty := true,
                                    clock := m.clock.(contact := 0))
                        && k > m.commit && TermAt(m.log, k) == Some(m.term)
                        && HasQuorum(env.cfg, Matching(env, m, k)))
  {
    var k := QuorumIndex(env.cfg, MatchedBy(m));
    if k > m.commit { AdvanceQuorum(env, m, k); }
  }

  lemma AdvanceKeeps(env: Env, h: History, n: NodeId, m: Raft, st: Stored) returns (h': History)
    requires Safe(env, h, n, m, st) && m.id == n && m.role == Leader
    ensures Moves(h, h', n) && Safe(env, h', n, MaybeAdvanceCommit(env, m), st)
    ensures MaybeAdvanceCommit(env, m).role == Leader && MaybeAdvanceCommit(env, m).id == n
  {
    hide NodeOk, HistOk, CommitBacked, MaybeAdvanceCommit, HasQuorum, Matching, Ackers, LeaderOk, Grows, AddedBy;
    Still(h, n);
    h' := h;
    AdvanceMoves(env, m);
    var m', k := MaybeAdvanceCommit(env, m), QuorumIndex(env.cfg, MatchedBy(m));
    if m' != m {
      AdvanceAllowed(env, h, n, m, st, k);
      LeaderInTerm(h, n, m);
      h' := WithCommit(h, m, k);
      WithCommitGrows(h, n, m, k);
      CommitRecorded(env, h, n, m, st, k);
      CommitKeeps(env, h, n, m, m', st, k);
    }
  }

  lemma LeaderInTerm(h: History, n: NodeId, m: Raft)
    requires LeaderOk(h, n, m) && m.role == Leader
    ensures m.term in h.led
  {
  }

  lemma AdvanceAllowed(env: Env, h: History, n: NodeId, m: Raft, st: Stored, k: nat)
    requires Safe(env, h, n, m, st) && m.id == n && m.role == Leader
    requires k > m.commit && TermAt(m.log, k) == Some(m.term) && HasQuorum(env.cfg, Matching(env, m, k))
    ensures LeaderOk(h, n, m) && k <= |m.log.full|
    ensures k > h.led[m.term].start && HasQuorum(env.cfg, Ackers(h, m.term, k)) && h.led[m.term].durable
  {
    assert LeaderOk(h, n, m) && LeadShape(h, m.term) && AcksOk(h) && ProgressOk(h, n, m)
           && PersistedOk(env, h, n, m, st);
    hide NodeOk, HistOk, LeadShape, AcksOk, ProgressOk, PersistedOk, HasQuorum, Ackers, Matching;
    AdvanceAcknowledged(env, h, n, m, st, k);
  }

  /** Recording an acknowledgement that arrived. */
  lemma MatchedKeeps(env: Env, h: History, n: NodeId, m: Raft, st: Stored, from: NodeId, p: Progress)
    requires NodeOk(env, h, n, m, st) && m.id == n && m.role == Leader && from != n && from in m.progress
    requires p.matched > 0 ==> Ack(from, m.term, p.matched) in h.acks
    ensures NodeOk(env, h, n, m.(progress := m.progress[from := p]), st)
  {
    assert ProgressOk(h, n, m);
    SettleKeeps(env, h, n, m, m.(progress := m.progress[from := p]), st);
  }

  lemma MatchedWasAcked(env: Env, h: History, n: NodeId, m: Raft, st: Stored, id: NodeId)
    requires NodeOk(env, h, n, m, st) && id in m.progress && id != n
    ensures m.progress[id].matched > 0 ==> Ack(id, m.term, m.progress[id].matched) in h.acks
  {
    assert ProgressOk(h, n, m);
  }

  /** An acknowledgement moves a follower's progress, and perhaps the commit index. */
  lemma AckedKeeps(env: Env, h: History, n: NodeId, m: Raft, st: Stored, from: NodeId,
                   q: Progress) returns (h': History)
    requires Safe(env, h, n, m, st) && m.id == n && m.role == Leader && from != n && from in m.progress
    requires q.matched > 0 ==> Ack(from, m.term, q.matched) in h.acks
    ensures var m' := MaybeAdvanceCommit(env, m.(progress := m.progress[from := q]));
            Moves(h, h', n) && Safe(env, h', n, m', st) && m'.role == Leader && m'.id == n
  {
    hide NodeOk, HistOk, MaybeAdvanceCommit, Moves;
    MatchedKeeps(env, h, n, m, st, from, q);
    h' := AdvanceKeeps(env, h, n, m.(progress := m.progress[from := q]), st);
  }

  lemma AckArrived(h: History, p: Packet)
    requires NetOk(h) && p in h.net && IsAck(p)
    ensures Ack(p.src, p.msg.term, AckIndex(p)) in h.acks
  {
    assert Backed(h, p);
  }

  lemma AppendAckKeeps(env: Env, h: History, n: NodeId, m: Raft, st: Stored, p: Packet) returns (h': History)
    requires Safe(env, h, n, m, st) && m.id == n && Arrives(h, n, m, p) && p.msg.body.AppendResp? && p.msg.body.success
    requires m.role == Leader && p.src in m.progress
    ensures Moves(h, h', n)
    ensures var b := p.msg.body;
            Safe(env, h', n, HandleAppendResp(env, m, p.src, b.success, b.matchIndex, b.conflictIndex, b.conflictTerm),
                 st)
  {
    hide NodeOk, SendAppendTo, MaybeAdvanceCommit, Moves, NetOk;
    var from, q := p.src, Acknowledged(m.progress[p.src].(active := true), p.msg.body.matchIndex);
    AckArrived(h, p);
    MatchedWasAcked(env, h, n, m, st, from);
    h' := AckedKeeps(env, h, n, m, st, from, q);
    SendAppendKeeps(env, h', n, MaybeAdvanceCommit(env, m.(progress := m.progress[from := q])), st, from);
  }

  lemma AppendRespKeeps(env: Env, h: History, n: NodeId, m: Raft, st: Stored, p: Packet) returns (h': History)
    requires Safe(env, h, n, m, st) && m.id == n && Arrives(h, n, m, p) && p.msg.body.AppendResp?
    ensures Moves(h, h', n)
    ensures var b := p.msg.body;
            Safe(env, h', n, HandleAppendResp(env, m, p.src, b.success, b.matchIndex, b.conflictIndex, b.conflictTerm),
                 st)
  {
    hide NodeOk, HistOk, SendAppendTo, MaybeAdvanceCommit, FindConflictByTerm, Moves;
    Still(h, n);
    h' := h;
    if m.role == Leader && p.src in m.progress {
      var b, from := p.msg.body, p.src;
      if b.success {
        h' := AppendAckKeeps(env, h, n, m, st, p);
      } else {
        MatchedWasAcked(env, h, n, m, st, from);
        var next := if b.conflictTerm > 0 then FindConflictByTerm(m.log, b.conflictIndex, b.conflictTerm) + 1
                    else Max(b.conflictIndex, 1);
        var q := m.progress[from].(active := true);
        var q' := q.(next := Min(Max(next, q.matched + 1), LastIndex(m.log) + 1), state := Probe);
        MatchedKeeps(env, h, n, m, st, from, q');
        SendAppendKeeps(env, h, n, m.(progress := m.progress[from := q']), st, from);
      }
    }
  }

  lemma SnapshotRespKeeps(env: Env, h: History, n: NodeId, m: Raft, st: Stored, p: Packet) returns (h': History)
    requires Safe(env, h, n, m, st) && m.id == n && Arrives(h, n, m, p) && p.msg.body.SnapshotResp?
    ensures Moves(h, h', n)
    ensures Safe(env, h', n, HandleSnapshotResp(env, m, p.src, p.msg.body.success, p.msg.body.index), st)
  {
    hide NodeOk, MaybeAdvanceCommit, Moves, NetOk;
    Still(h, n);
    h' := h;
    if m.role == Leader && p.src in m.progress {
      var b, from := p.msg.body, p.src;
      MatchedWasAcked(env, h, n, m, st, from);
      var q := m.progress[from].(active := true, pendingSnapshot := 0, age := 0, state := Probe);
      if b.success {
        AckArrived(h, p);
        var matched := Max(q.matched, b.index);
        h' := AckedKeeps(env, h, n, m, st, from, q.(matched := matched, next := matched + 1));
      } else {
        MatchedKeeps(env, h, n, m, st, from, q);
      }
    }
  }
}
