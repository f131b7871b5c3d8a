/** What an input can change of a node beyond its role: which commands it holds, what it has applied,
    and which reads it has in hand (crates/chronolog/src/raft.rs:447-708). */
module RaftFrame {
  import opened Types
  import opened Quorum
  import opened RaftLog
  import opened RaftNode
  import opened RaftDriver

  // ---- where commands come from ----------------------------------------------------------------

  /** Every command among the entries is one of `known`. */
  ghost predicate Sourced(known: set<Bytes>, entries: seq<Entry>) {
    forall e :: e in entries && e.kind.Normal? ==> e.kind.data in known
  }

  ghost predicate BodySourced(known: set<Bytes>, body: Body<Image>) {
    match body
    case AppendReq(_, _, entries, _) => Sourced(known, entries)
    case SnapshotReq(image) => Sourced(known, image.prefix)
    case _ => true
  }

  ghost predicate QueueSourced(known: set<Bytes>, queue: seq<Packet>) {
    forall p :: p in queue ==> BodySourced(known, p.msg.body)
  }

  /** Everything a node holds, has queued or has taken over. */
  ghost predicate NodeSourced(known: set<Bytes>, m: Raft) {
    && Sourced(known, m.log.full) && QueueSourced(known, m.out.messages)
    && (m.out.snapshot.Some? ==> Sourced(known, m.out.snapshot.value.prefix))
  }

  // ---- reads in hand ----------------------------------------------------------------------------

  ghost function ReadsOf(waiting: seq<PendingRead>, confirmed: seq<ReadState>): set<(nat, nat)> {
    (set r | r in waiting :: (r.ctx, r.floor)) + (set r | r in confirmed :: (r.ctx, r.floor))
  }

  /** The reads a node has begun and not answered, each with its floor. */
  ghost function InHand(m: Raft): set<(nat, nat)> {
    ReadsOf(m.waiting, m.out.confirmed)
  }

  // ---- what an input does -----------------------------------------------------------------------

  /** Nothing was applied and no snapshot was taken over. */
  ghost predicate Calm(m: Raft, m': Raft) {
    m'.applied == m.applied && m'.out.snapshot == m.out.snapshot
  }

  /** A snapshot was taken over, and is waiting for the next cycle. */
  ghost predicate TookOver(m: Raft) {
    m.out.snapshot.Some? && m.applied == |m.out.snapshot.value.prefix|
  }

  /** An input invents no command, begins no read, and applies nothing but a snapshot. */
  ghost predicate Frames(known: set<Bytes>, m: Raft, m': Raft) {
    && (NodeSourced(known, m) ==> NodeSourced(known, m'))
    && m'.readCtx == m.readCtx && InHand(m') <= InHand(m)
    && (Calm(m, m') || TookOver(m'))
  }

  /** Nor does it lower the commit index. */
  ghost predicate Goes(known: set<Bytes>, m: Raft, m': Raft) {
    Frames(known, m, m') && m.commit <= m'.commit
  }

  lemma GoesOn(known: set<Bytes>, m: Raft, m1: Raft, m2: Raft)
    requires Frames(known, m, m1) && Frames(known, m1, m2)
    ensures Frames(known, m, m2) && (m.commit <= m1.commit <= m2.commit ==> Goes(known, m, m2))
  {
    hide NodeSourced, InHand;
  }

  /** Only the role, the clock, the votes, the progress records and the like are new. */
  lemma SameGoes(known: set<Bytes>, m: Raft, m': Raft)
    requires m'.log == m.log && m'.out == m.out && m'.applied == m.applied && m'.readCtx == m.readCtx
    requires (m'.waiting == m.waiting || m'.waiting == []) && m.commit <= m'.commit
    ensures Goes(known, m, m')
  {
  }

  lemma EnqueueGoes(known: set<Bytes>, m: Raft, to: NodeId, term: nat, body: Body<Image>)
    requires NodeSourced(known, m) ==> BodySourced(known, body)
    ensures Goes(known, m, Enqueue(m, to, term, body))
  {
    hide BodySourced, Sourced;
  }

  lemma {:induction false} EnqueueAllGoes(known: set<Bytes>, m: Raft, peers: seq<NodeId>, term: nat, body: Body<Image>)
    requires BodySourced(known, body)
    ensures Goes(known, m, EnqueueAll(m, peers, term, body))
    decreases |peers|
  {
    hide Frames, Enqueue;
    if peers == [] {
      SameGoes(known, m, m);
    } else {
      SameGoes(known, m, m);
      EnqueueGoes(known, m, peers[0], term, body);
      var m1 := if peers[0] == m.id then m else Enqueue(m, peers[0], term, body);
      EnqueueAllGoes(known, m1, peers[1..], term, body);
      GoesOn(known, m, m1, EnqueueAll(m1, peers[1..], term, body));
    }
  }

  /** An append carries entries of the log. */
  lemma AppendSourced(known: set<Bytes>, env: Env, m: Raft, next: nat)
    requires 0 < next && next - 1 <= |m.log.full| && Sourced(known, m.log.full)
    ensures BodySourced(known, AppendFor(env, m, next))
  {
    hide ByteCut;
  }

  lemma SendAppendGoes(known: set<Bytes>, env: Env, m: Raft, peer: NodeId)
    ensures Goes(known, m, SendAppendTo(env, m, peer))
  {
    hide AppendFor, Frames, Enqueue;
    SameGoes(known, m, m);
    if peer in m.progress {
      var p := m.progress[peer];
      SameGoes(known, m, m.(progress := m.progress[peer := p.(state := Snapshotting)]));
      if FirstIndex(m.log) <= p.next && p.next - 1 <= |m.log.full| {
        if Sourced(known, m.log.full) { AppendSourced(known, env, m, p.next); }
        EnqueueGoes(known, m, peer, m.term, AppendFor(env, m, p.next));
      }
    }
  }

  lemma {:induction false} SendAppendsGoes(known: set<Bytes>, env: Env, m: Raft, peers: seq<NodeId>)
    ensures Goes(known, m, SendAppends(env, m, peers))
    decreases |peers|
  {
    hide Frames, SendAppendTo;
    SameGoes(known, m, m);
    if peers != [] {
      SendAppendGoes(known, env, m, peers[0]);
      var m1 := if peers[0] == m.id then m else SendAppendTo(env, m, peers[0]);
      SendAppendsGoes(known, env, m1, peers[1..]);
      GoesOn(known, m, m1, SendAppends(env, m1, peers[1..]));
    }
  }

  lemma {:induction false} ResendGoes(known: set<Bytes>, env: Env, m: Raft, peers: seq<NodeId>)
    ensures Goes(known, m, SendAppendsAll(env, m, peers))
    decreases |peers|
  {
    hide Frames, SendAppendTo;
    SameGoes(known, m, m);
    if peers != [] {
      SendAppendGoes(known, env, m, peers[0]);
      var m1 := SendAppendTo(env, m, peers[0]);
      ResendGoes(known, env, m1, peers[1..]);
      GoesOn(known, m, m1, SendAppendsAll(env, m1, peers[1..]));
    }
  }

  lemma {:induction false} HeartbeatsGo(known: set<Bytes>, m: Raft, peers: seq<NodeId>, ctx: nat)
    ensures Goes(known, m, SendHeartbeats(m, peers, ctx))
    decreases |peers|
  {
    hide Frames, Enqueue;
    SameGoes(known, m, m);
    if peers != [] {
      var matched := if peers[0] in m.progress then m.progress[peers[0]].matched else 0;
      var body := HeartbeatReq(Min(m.commit, matched), ctx);
      EnqueueGoes(known, m, peers[0], m.term, body);
      var m1 := if peers[0] == m.id then m else Send(m, peers[0], body);
      HeartbeatsGo(known, m1, peers[1..], ctx);
      GoesOn(known, m, m1, SendHeartbeats(m1, peers[1..], ctx));
    }
  }

  lemma BroadcastGoes(known: set<Bytes>, env: Env, m: Raft)
    ensures Goes(known, m, BroadcastAppend(env, m))
  {
    SendAppendsGoes(known, env, m, Ascending(env.cfg.AllNodes()));
  }

  lemma AppendOwnGoes(known: set<Bytes>, m: Raft, kind: EntryKind)
    requires kind.Normal? ==> kind.data in known
    ensures Goes(known, m, AppendOwn(m, kind))
  {
    hide BodySourced;
  }

  lemma BecomeLeaderGoes(known: set<Bytes>, env: Env, m: Raft)
    ensures Goes(known, m, BecomeLeader(env, m))
  {
    hide BroadcastAppend, Frames, AppendOwn;
    var m1 := TakeLeadership(env, m);
    SameGoes(known, m, m1);
    AppendOwnGoes(known, m1, Noop);
    BroadcastGoes(known, env, AppendOwn(m1, Noop));
    GoesOn(known, m, m1, AppendOwn(m1, Noop));
    GoesOn(known, m, AppendOwn(m1, Noop), BecomeLeader(env, m));
  }

  lemma CampaignGoes(known: set<Bytes>, env: Env, m: Raft, draw: nat)
    ensures Goes(known, m, Campaign(env, m, draw))
  {
    hide BecomeLeader, EnqueueAll, Tally, Frames;
    var m1 := Stand(env, m, draw);
    SameGoes(known, m, m1);
    BecomeLeaderGoes(known, env, m1);
    EnqueueAllGoes(known, m1, Ascending(env.cfg.AllNodes()), m1.term, VoteReq(LastIndex(m1.log), LastTerm(m1.log)));
    GoesOn(known, m, m1, Campaign(env, m, draw));
  }

  lemma PreCampaignGoes(known: set<Bytes>, env: Env, m: Raft, draw: nat)
    ensures Goes(known, m, PreCampaign(env, m, draw))
  {
    hide Campaign, EnqueueAll, Tally, Frames;
    var m1 := NewTimeout(env, m, draw).(role := PreCandidate, votes := map[m.id := true]);
    SameGoes(known, m, m1);
    CampaignGoes(known, env, m1, draw);
    EnqueueAllGoes(known, m1, Ascending(env.cfg.AllNodes()), m1.term + 1,
                   PreVoteReq(LastIndex(m1.log), LastTerm(m1.log)));
    GoesOn(known, m, m1, PreCampaign(env, m, draw));
  }

  lemma CheckQuorumGoes(known: set<Bytes>, env: Env, m: Raft)
    ensures Goes(known, m, CheckQuorum(env, m))
  {
    hide HasQuorum, Frames;
    SameGoes(known, m, CheckQuorum(env, m));
  }

  lemma ExpireGoes(known: set<Bytes>, env: Env, m: Raft)
    ensures Goes(known, m, ExpirePendingSnapshots(env, m))
  {
    hide SendAppendsAll, Frames;
    var retry := set id | id in m.progress && Expired(env, m.progress[id]);
    var m1 := m.(progress := map id | id in m.progress :: Aged(env, m.progress[id]));
    SameGoes(known, m, m1);
    ResendGoes(known, env, m1, Ascending(retry));
    GoesOn(known, m, m1, SendAppendsAll(env, m1, Ascending(retry)));
  }

  lemma LeaderTickGoes(known: set<Bytes>, env: Env, m: Raft)
    ensures Goes(known, m, LeaderTick(env, m))
  {
    hide BroadcastAppend, CheckQuorum, ExpirePendingSnapshots, Frames;
    var m1 := m.(clock := m.clock.(heartbeat := m.clock.heartbeat + 1, contact := m.clock.contact + 1));
    var beat := m1.(clock := m1.clock.(heartbeat := 0));
    var m2 := if m1.clock.heartbeat >= env.opts.heartbeatTicks then BroadcastAppend(env, beat) else m1;
    SameGoes(known, m, m1);
    SameGoes(known, m, beat);
    BroadcastGoes(known, env, beat);
    GoesOn(known, m, beat, BroadcastAppend(env, beat));
    var reset := m2.(clock := m2.clock.(election := 0));
    var m3 := if m2.clock.election >= env.opts.electionTicks then CheckQuorum(env, reset) else m2;
    SameGoes(known, m2, reset);
    GoesOn(known, m, m2, reset);
    CheckQuorumGoes(known, env, reset);
    GoesOn(known, m, reset, CheckQuorum(env, reset));
    ExpireGoes(known, env, m3);
    GoesOn(known, m, m3, ExpirePendingSnapshots(env, m3));
  }

  lemma TickGoes(known: set<Bytes>, env: Env, m: Raft, draw: nat)
    ensures Goes(known, m, Tick(env, m, draw))
  {
    hide LeaderTick, PreCampaign, Campaign, Promotable, Frames;
    var m1 := m.(clock := m.clock.(election := m.clock.election + 1));
    SameGoes(known, m, m1);
    LeaderTickGoes(known, env, m1);
    PreCampaignGoes(known, env, m1, draw);
    CampaignGoes(known, env, m1, draw);
    SameGoes(known, m1, m1);
    GoesOn(known, m, m1, Tick(env, m, draw));
  }

  lemma ProposeGoes(known: set<Bytes>, env: Env, m: Raft, data: Bytes)
    requires data in known
    ensures Goes(known, m, Propose(env, m, data))
  {
    hide BroadcastAppend, Frames, AppendOwn;
    SameGoes(known, m, m);
    var m1 := AppendOwn(m, Normal(data));
    AppendOwnGoes(known, m, Normal(data));
    BroadcastGoes(known, env, m1);
    GoesOn(known, m, m1, BroadcastAppend(env, m1));
  }

  lemma AdvanceCommitGoes(known: set<Bytes>, env: Env, m: Raft)
    ensures Goes(known, m, MaybeAdvanceCommit(env, m))
  {
    hide QuorumIndex, Frames;
    SameGoes(known, m, MaybeAdvanceCommit(env, m));
  }

  lemma AppendRespGoes(known: set<Bytes>, env: Env, m: Raft, from: NodeId, success: bool, matchIndex: nat, ci: nat,
                       ct: nat)
    ensures Goes(known, m, HandleAppendResp(env, m, from, success, matchIndex, ci, ct))
  {
    hide MaybeAdvanceCommit, SendAppendTo, FindConflictByTerm, Frames;
    SameGoes(known, m, m);
    if m.role == Leader && from in m.progress {
      var p := m.progress[from].(active := true);
      if success {
        var m1 := m.(progress := m.progress[from := Acknowledged(p, matchIndex)]);
        SameGoes(known, m, m1);
        AdvanceCommitGoes(known, env, m1);
        var m2 := MaybeAdvanceCommit(env, m1);
        GoesOn(known, m, m1, m2);
        SendAppendGoes(known, env, m2, from);
        GoesOn(known, m, m2, SendAppendTo(env, m2, from));
      } else {
        var next := if ct > 0 then FindConflictByTerm(m.log, ci, ct) + 1 else Max(ci, 1);
        var p1 := p.(next := Min(Max(next, p.matched + 1), LastIndex(m.log) + 1), state := Probe);
        var m1 := m.(progress := m.progress[from := p1]);
        SameGoes(known, m, m1);
        SendAppendGoes(known, env, m1, from);
        GoesOn(known, m, m1, SendAppendTo(env, m1, from));
      }
    }
  }

  lemma DeferGoes(known: set<Bytes>, m: Raft, from: NodeId)
    ensures Goes(known, m, Defer(m, from))
  {
    hide Frames;
    SameGoes(known, m, Defer(m, from));
  }

  /** Merging takes nothing but what is held or was sent. */
  lemma {:induction false} MergeSourced(known: set<Bytes>, l: Log, entries: seq<Entry>, k: nat)
    requires k <= |entries| && Sourced(known, l.full) && Sourced(known, entries)
    ensures Sourced(known, MergeFrom(l, entries, k).full)
    decreases |entries| - k
  {
    hide TermAt;
    if k < |entries| { MergeSourced(known, l, entries, k + 1); }
  }

  lemma AcceptGoes(known: set<Bytes>, m: Raft, prev: nat, entries: seq<Entry>, commit: nat)
    requires Sourced(known, entries)
    ensures Frames(known, m, Accept(m, prev, entries, commit))
  {
    hide MergeFrom, Sourced, Accept;
    if Sourced(known, m.log.full) { MergeSourced(known, m.log, entries, 0); }
    AcceptIs(m, prev, entries, commit);
  }

  lemma AcceptIs(m: Raft, prev: nat, entries: seq<Entry>, commit: nat)
    ensures var m' := Accept(m, prev, entries, commit);
            m' == m.(log := Merge(m.log, entries), dirtyFrom := m'.dirtyFrom, commit := m'.commit,
                     hardDirty := m'.hardDirty)
  {
    hide Merge;
    var m1 := MergeEntries(m, entries);
    assert m1 == m.(log := Merge(m.log, entries), dirtyFrom := m1.dirtyFrom);
    hide MergeEntries, RaiseCommit, ClampCommit;
    CommitMoves(m1, Min(commit, LastNew(prev, entries)));
  }

  lemma CommitMoves(m: Raft, commit: nat)
    ensures var m' := ClampCommit(RaiseCommit(m, commit)); m' == m.(commit := m'.commit, hardDirty := m'.hardDirty)
  {
  }

  lemma AppendGoes(known: set<Bytes>, m: Raft, from: NodeId, prev: nat, prevTerm: nat, entries: seq<Entry>, commit: nat)
    requires Sourced(known, entries)
    ensures Frames(known, m, HandleAppend(m, from, prev, prevTerm, entries, commit))
  {
    hide Defer, Accept, FindConflictByTerm, TermAt, Frames, Enqueue, Sourced;
    var m1 := Defer(m, from);
    DeferGoes(known, m, from);
    var m2 := Accept(m1, prev, entries, commit);
    AcceptGoes(known, m1, prev, entries, commit);
    GoesOn(known, m, m1, m2);
    var answer := if prev < m1.log.base then AppendResp(true, m1.log.base, 0, 0)
                  else match TermAt(m1.log, prev)
                    case Some(t) => AppendResp(false, 0, FindConflictByTerm(m1.log, prev, t), t)
                    case None => AppendResp(false, 0, LastIndex(m1.log) + 1, 0);
    EnqueueGoes(known, m1, from, m1.term, answer);
    GoesOn(known, m, m1, Enqueue(m1, from, m1.term, answer));
    var yes := AppendResp(true, LastNew(prev, entries), 0, 0);
    EnqueueGoes(known, m2, from, m2.term, yes);
    GoesOn(known, m, m2, Enqueue(m2, from, m2.term, yes));
  }

  lemma InstallGoes(known: set<Bytes>, m: Raft, image: Image)
    requires Sourced(known, image.prefix)
    ensures Goes(known, m, Install(m, image))
  {
    hide TermAt, Sourced;
  }

  lemma SnapshotGoes(known: set<Bytes>, m: Raft, from: NodeId, image: Image)
    requires Sourced(known, image.prefix)
    ensures Goes(known, m, HandleSnapshot(m, from, image))
  {
    hide Install, Frames, Enqueue, Defer, Sourced;
    var m1 := Defer(m, from);
    DeferGoes(known, m, from);
    EnqueueGoes(known, m1, from, m1.term, SnapshotResp(true, m1.commit));
    GoesOn(known, m, m1, Enqueue(m1, from, m1.term, SnapshotResp(true, m1.commit)));
    var m2 := Install(m1, image);
    InstallGoes(known, m1, image);
    GoesOn(known, m, m1, m2);
    EnqueueGoes(known, m2, from, m2.term, SnapshotResp(true, |image.prefix|));
    GoesOn(known, m, m2, Enqueue(m2, from, m2.term, SnapshotResp(true, |image.prefix|)));
  }

  lemma VotesGo(known: set<Bytes>, env: Env, m: Raft, from: NodeId, term: nat, granted: bool, draw: nat)
    ensures Goes(known, m, HandlePreVoteResp(env, m, from, term, granted, draw))
    ensures Goes(known, m, HandleVoteResp(env, m, from, granted))
  {
    hide Campaign, BecomeLeader, Tally, Lost, Frames;
    SameGoes(known, m, m);
    SameGoes(known, m, BecomeFollower(m, term, None));
    var m1 := m.(votes := m.votes[from := granted]);
    SameGoes(known, m, m1);
    SameGoes(known, m, m1.(role := Follower));
    SameGoes(known, m, BecomeFollower(m1, m1.term, None));
    CampaignGoes(known, env, m1, draw);
    GoesOn(known, m, m1, Campaign(env, m1, draw));
    BecomeLeaderGoes(known, env, m1);
    GoesOn(known, m, m1, BecomeLeader(env, m1));
  }

  lemma AnswersGo(known: set<Bytes>, env: Env, m: Raft, from: NodeId, term: nat, i: nat, t: nat)
    ensures Goes(known, m, HandlePreVoteReq(env, m, from, term, i, t)) && Goes(known, m, HandleVoteReq(m, from, i, t))
  {
    hide UpToDate, Frames, Enqueue;
    var believes := m.leader.Some? && m.clock.election < env.opts.electionTicks;
    EnqueueGoes(known, m, from, term, PreVoteResp(term > m.term && UpToDate(m.log.full, t, i) && !believes));
    EnqueueGoes(known, m, from, m.term, VoteResp(false));
    var m1 := Grant(m, from);
    SameGoes(known, m, m1);
    EnqueueGoes(known, m1, from, m1.term, VoteResp(true));
    GoesOn(known, m, m1, Enqueue(m1, from, m1.term, VoteResp(true)));
  }

  lemma SnapshotRespGoes(known: set<Bytes>, env: Env, m: Raft, from: NodeId, success: bool, index: nat)
    ensures Goes(known, m, HandleSnapshotResp(env, m, from, success, index))
  {
    hide MaybeAdvanceCommit, Frames;
    SameGoes(known, m, m);
    if m.role == Leader && from in m.progress {
      var p := m.progress[from].(active := true, pendingSnapshot := 0, age := 0, state := Probe);
      SameGoes(known, m, m.(progress := m.progress[from := p]));
      var matched := Max(p.matched, index);
      var m1 := m.(progress := m.progress[from := p.(matched := matched, next := matched + 1)]);
      SameGoes(known, m, m1);
      AdvanceCommitGoes(known, env, m1);
      GoesOn(known, m, m1, MaybeAdvanceCommit(env, m1));
    }
  }

  lemma HeartbeatGoes(known: set<Bytes>, m: Raft, from: NodeId, commit: nat, ctx: nat)
    ensures Goes(known, m, HandleHeartbeat(m, from, commit, ctx))
  {
    hide Frames, Enqueue, Defer;
    var m1 := Defer(m, from);
    DeferGoes(known, m, from);
    var m2 := LearnCommit(m1, commit);
    SameGoes(known, m1, m2);
    GoesOn(known, m, m1, m2);
    EnqueueGoes(known, m2, from, m2.term, HeartbeatResp(ctx));
    GoesOn(known, m, m2, Enqueue(m2, from, m2.term, HeartbeatResp(ctx)));
  }

  lemma {:induction false} AckReadsSame(pending: seq<PendingRead>, from: NodeId, ctx: nat)
    ensures ReadsOf(AckReads(pending, from, ctx), []) <= ReadsOf(pending, [])
  {
    if pending != [] {
      AckReadsSame(pending[1..], from, ctx);
      assert pending == [pending[0]] + pending[1..];
    }
  }

  lemma {:induction false} CompletedAmong(env: Env, pending: seq<PendingRead>, ctx: nat)
    ensures ReadsOf([], Completed(env, pending, ctx)) <= ReadsOf(pending, [])
  {
    hide HasQuorum;
    if pending != [] {
      CompletedAmong(env, pending[1..], ctx);
      assert pending == [pending[0]] + pending[1..];
    }
  }

  lemma {:induction false} RetainAmong(pending: seq<PendingRead>, done: set<nat>)
    ensures ReadsOf(Retain(pending, done), []) <= ReadsOf(pending, [])
  {
    if pending != [] {
      RetainAmong(pending[1..], done);
      assert pending == [pending[0]] + pending[1..];
    }
  }

  lemma ReadsJoin(w: seq<PendingRead>, c: seq<ReadState>, d: seq<ReadState>)
    ensures ReadsOf(w, c + d) == ReadsOf(w, []) + ReadsOf([], c) + ReadsOf([], d)
    ensures ReadsOf(w, c) == ReadsOf(w, []) + ReadsOf([], c)
  {
  }

  lemma HeartbeatRespGoes(known: set<Bytes>, env: Env, m: Raft, from: NodeId, ctx: nat)
    ensures Goes(known, m, HandleHeartbeatResp(env, m, from, ctx))
  {
    hide AckReads, Completed, Retain, ReadsOf, QueueSourced, Sourced;
    if m.role == Leader {
      var acked := AckReads(m.waiting, from, ctx);
      var completed := Completed(env, acked, ctx);
      var left := Retain(acked, set r | r in completed :: r.ctx);
      AckReadsSame(m.waiting, from, ctx);
      CompletedAmong(env, acked, ctx);
      RetainAmong(acked, set r | r in completed :: r.ctx);
      ReadsJoin(m.waiting, m.out.confirmed, completed);
      ReadsJoin(acked, m.out.confirmed, completed);
      ReadsJoin(left, m.out.confirmed, completed);
    }
  }

  lemma DispatchGoes(known: set<Bytes>, env: Env, m: Raft, from: NodeId, msg: Message<Image>, draw: nat)
    requires BodySourced(known, msg.body)
    ensures Frames(known, m, Dispatch(env, m, from, msg, draw))
    ensures !msg.body.AppendReq? ==> m.commit <= Dispatch(env, m, from, msg, draw).commit
  {
    hide Campaign, HandleAppend, HandleAppendResp, HandleSnapshot, HandlePreVoteResp, HandleVoteResp, HandlePreVoteReq,
         HandleVoteReq, HandleSnapshotResp, HandleHeartbeat, HandleHeartbeatResp, Promotable, Frames, Sourced;
    match msg.body {
      case PreVoteReq(i, t) => AnswersGo(known, env, m, from, msg.term, i, t);
      case VoteReq(i, t) => AnswersGo(known, env, m, from, msg.term, i, t);
      case SnapshotResp(success, i) => SnapshotRespGoes(known, env, m, from, success, i);
      case HeartbeatReq(commit, ctx) => HeartbeatGoes(known, m, from, commit, ctx);
      case HeartbeatResp(ctx) => HeartbeatRespGoes(known, env, m, from, ctx);
      case PreVoteResp(granted) => VotesGo(known, env, m, from, msg.term, granted, draw);
      case VoteResp(granted) => VotesGo(known, env, m, from, msg.term, granted, draw);
      case AppendReq(prev, prevTerm, entries, commit) => AppendGoes(known, m, from, prev, prevTerm, entries, commit);
      case AppendResp(success, matchIndex, ci, ct) => AppendRespGoes(known, env, m, from, success, matchIndex, ci, ct);
      case SnapshotReq(image) => SnapshotGoes(known, m, from, image);
      case TimeoutNow => CampaignGoes(known, env, m, draw); SameGoes(known, m, m);
    }
  }

  lemma StepGoes(known: set<Bytes>, env: Env, m: Raft, from: NodeId, msg: Message<Image>, draw: nat)
    requires BodySourced(known, msg.body)
    ensures Frames(known, m, Step(env, m, from, msg, draw))
    ensures !msg.body.AppendReq? ==> m.commit <= Step(env, m, from, msg, draw).commit
  {
    hide Dispatch, Frames, Enqueue, BodySourced;
    var m1 := ObserveTerm(m, from, msg);
    SameGoes(known, m, m1);
    DispatchGoes(known, env, m1, from, msg, draw);
    GoesOn(known, m, m1, Dispatch(env, m1, from, msg, draw));
    StaleGoes(known, m1, from, msg.body);
    GoesOn(known, m, m1, AnswerStale(m1, from, msg.body));
  }

  lemma StaleGoes(known: set<Bytes>, m: Raft, from: NodeId, body: Body<Image>)
    ensures Goes(known, m, AnswerStale(m, from, body))
  {
    hide Frames, Enqueue;
    SameGoes(known, m, m);
    EnqueueGoes(known, m, from, m.term, AppendResp(false, 0, 0, 0));
    EnqueueGoes(known, m, from, m.term, PreVoteResp(false));
  }

  lemma TransferGoes(known: set<Bytes>, env: Env, m: Raft, target: NodeId)
    ensures Goes(known, m, TransferLeadership(env, m, target)) && Goes(known, m, StepDown(m))
  {
    hide Frames, Enqueue;
    SameGoes(known, m, m);
    SameGoes(known, m, StepDown(m));
    EnqueueGoes(known, m, target, m.term, TimeoutNow);
  }

  // ---- reads and cycles ---------------------------------------------------------------------------

  /** Beginning a read adds that read and nothing else. */
  lemma ReadIndexGoes(known: set<Bytes>, env: Env, m: Raft, floor: nat)
    ensures var m' := ReadIndex(env, m, floor);
            && (NodeSourced(known, m) ==> NodeSourced(known, m')) && Calm(m, m') && m.commit <= m'.commit
            && (if m.role == Leader && m.committedOwn
                then m'.readCtx == m.readCtx + 1 && InHand(m') <= InHand(m) + {(m.readCtx + 1, floor)}
                else m' == m)
  {
    hide HasQuorum, SendHeartbeats, Sourced, QueueSourced;
    if m.role == Leader && m.committedOwn {
      var m1 := Waiting(m, floor);
      HeartbeatsGo(known, m1, Ascending(env.cfg.AllNodes()), m.readCtx + 1);
      HeartbeatsCalm(m1, Ascending(env.cfg.AllNodes()), m.readCtx + 1);
    }
  }

  lemma {:induction false} HeartbeatsCalm(m: Raft, peers: seq<NodeId>, ctx: nat)
    ensures Calm(m, SendHeartbeats(m, peers, ctx))
    decreases |peers|
  {
    if peers != [] {
      var matched := if peers[0] in m.progress then m.progress[peers[0]].matched else 0;
      HeartbeatsCalm(if peers[0] == m.id then m else Send(m, peers[0], HeartbeatReq(Min(m.commit, matched), ctx)),
                     peers[1..], ctx);
    }
  }
}
