/** The dirty watermark of a node covers every difference between its log and its disk, whatever
    inputs it takes (crates/chronolog/src/raft.rs:713-722, 795-800, 1172-1177, 1303-1315). Nothing
    here depends on the messages being true; they only have to be well formed. */
module RaftWatermark {
  import opened Types
  import opened Quorum
  import opened RaftLog
  import opened RaftNode
  import opened RaftDriver

  /** The next cycle will write everything the disk lacks. */
  ghost predicate Tidy(m: Raft, d: Disk) {
    Watermarked(m, d) && VoteSaved(m, d)
  }

  /** The log and its watermark are the same, and a change of term or vote is flagged. */
  ghost predicate Untouched(m: Raft, m': Raft) {
    && m'.id == m.id && m'.log == m.log && m'.dirtyFrom == m.dirtyFrom && m'.out.snapshot == m.out.snapshot
    && m'.savedHard == m.savedHard && (m.hardDirty ==> m'.hardDirty)
    && (!m'.hardDirty ==> m'.term == m.term && m'.vote == m.vote)
  }

  lemma UntouchedTidy(m: Raft, m': Raft, d: Disk)
    requires Tidy(m, d) && Untouched(m, m')
    ensures Tidy(m', d)
  {
  }

  // ---- sending ------------------------------------------------------------------------

  lemma UntouchedTwice(m: Raft, m1: Raft, m2: Raft)
    requires Untouched(m, m1) && Untouched(m1, m2)
    ensures Untouched(m, m2)
  {
  }

  lemma EnqueueUntouched(m: Raft, to: NodeId, term: nat, body: Body<Image>)
    ensures Untouched(m, m) && Untouched(m, Enqueue(m, to, term, body))
  {
  }

  lemma {:induction false} EnqueueAllUntouched(m: Raft, peers: seq<NodeId>, term: nat, body: Body<Image>)
    ensures Untouched(m, EnqueueAll(m, peers, term, body))
    decreases |peers|
  {
    hide Untouched, Enqueue;
    EnqueueUntouched(m, 0, term, body);
    if peers != [] {
      var m1 := if peers[0] == m.id then m else Enqueue(m, peers[0], term, body);
      EnqueueUntouched(m, peers[0], term, body);
      EnqueueAllUntouched(m1, peers[1..], term, body);
      UntouchedTwice(m, m1, EnqueueAll(m, peers, term, body));
    }
  }

  lemma SendAppendUntouched(env: Env, m: Raft, peer: NodeId)
    ensures Untouched(m, SendAppendTo(env, m, peer))
  {
  }

  lemma {:induction false} SendAppendsUntouched(env: Env, m: Raft, peers: seq<NodeId>)
    ensures Untouched(m, SendAppends(env, m, peers))
    decreases |peers|
  {
    if peers != [] {
      SendAppendUntouched(env, m, peers[0]);
      hide SendAppendTo;
      SendAppendsUntouched(env, if peers[0] == m.id then m else SendAppendTo(env, m, peers[0]), peers[1..]);
    }
  }

  lemma {:induction false} ResendUntouched(env: Env, m: Raft, peers: seq<NodeId>)
    ensures Untouched(m, SendAppendsAll(env, m, peers))
    decreases |peers|
  {
    if peers != [] {
      SendAppendUntouched(env, m, peers[0]);
      hide SendAppendTo;
      ResendUntouched(env, SendAppendTo(env, m, peers[0]), peers[1..]);
    }
  }

  lemma {:induction false} HeartbeatsUntouched(m: Raft, peers: seq<NodeId>, ctx: nat)
    ensures Untouched(m, SendHeartbeats(m, peers, ctx))
    decreases |peers|
  {
    if peers != [] {
      var matched := if peers[0] in m.progress then m.progress[peers[0]].matched else 0;
      HeartbeatsUntouched(if peers[0] == m.id then m else Send(m, peers[0], HeartbeatReq(Min(m.commit, matched), ctx)),
                          peers[1..], ctx);
    }
  }

  // ---- growing the log -------------------------------------------------------------------

  /** Agreement with the disk below a position survives any change of the log above it. */
  lemma AgreeLess(w: Wal, full: seq<Entry>, full': seq<Entry>, lo: nat, hi: nat, hi': nat)
    requires AgreeOn(w, full, lo, hi) && lo <= hi' <= hi && hi' <= |full'| && full'[..hi'] == full[..hi']
    ensures AgreeOn(w, full', lo, hi')
  {
    assert full'[lo..hi'] == full'[..hi'][lo..] == full[..hi'][lo..] == full[lo..hi][..hi' - lo];
    assert w.entries[lo + 1 - w.first..hi' + 1 - w.first]
        == w.entries[lo + 1 - w.first..hi + 1 - w.first][..hi' - lo];
  }

  /** How far the disk is known to agree with the log. */
  ghost function Level(m: Raft): int {
    if m.dirtyFrom.Some? then m.dirtyFrom.value - 1 else |m.log.full|
  }

  lemma RewriteAgrees(m: Raft, d: Disk, full: seq<Entry>, prev: nat)
    requires Watermarked(m, d) && m.log.base <= prev <= |m.log.full| && prev <= |full|
    requires full[..prev] == m.log.full[..prev]
    ensures full[..m.log.base] == m.log.full[..m.log.base]
    ensures m.out.snapshot == None ==> AgreeOn(d.wal, full, m.log.base, if Level(m) < prev then Level(m) else prev)
  {
    var k, base := if Level(m) < prev then Level(m) else prev, m.log.base;
    assert full[..base] == full[..prev][..base] == m.log.full[..base];
    assert full[..k] == full[..prev][..k] == m.log.full[..k];
    if m.out.snapshot.None? { AgreeLess(d.wal, m.log.full, full, base, Level(m), k); }
  }

  /** Rewriting the log above `prev` and marking it. */
  lemma RewriteTidy(m: Raft, d: Disk, full: seq<Entry>, prev: nat)
    requires Tidy(m, d) && m.log.base <= prev <= |m.log.full| && prev <= |full| && Indexed(full)
    requires full[..prev] == m.log.full[..prev]
    ensures Tidy(MarkDirty(m.(log := m.log.(full := full)), prev + 1), d)
  {
    hide AgreeOn;
    RewriteAgrees(m, d, full, prev);
  }

  lemma AppendOwnTidy(m: Raft, d: Disk, kind: EntryKind)
    requires Tidy(m, d)
    ensures Tidy(AppendOwn(m, kind), d) && AppendOwn(m, kind).id == m.id
  {
    var full := m.log.full + [Entry(m.term, |m.log.full| + 1, kind)];
    assert full[..|m.log.full|] == m.log.full[..|m.log.full|];
    RewriteTidy(m, d, full, |m.log.full|);
  }

  // ---- elections ------------------------------------------------------------------------------

  lemma BecomeLeaderTidy(env: Env, m: Raft, d: Disk)
    requires Tidy(m, d)
    ensures Tidy(BecomeLeader(env, m), d)
  {
    var m1 := TakeLeadership(env, m);
    UntouchedTidy(m, m1, d);
    AppendOwnTidy(m1, d, Noop);
    hide Tidy, AppendOwn;
    var m2 := AppendOwn(m1, Noop);
    SendAppendsUntouched(env, m2, Ascending(env.cfg.AllNodes()));
    UntouchedTidy(m2, BroadcastAppend(env, m2), d);
  }

  lemma CampaignTidy(env: Env, m: Raft, d: Disk, draw: nat)
    requires Tidy(m, d)
    ensures Tidy(Campaign(env, m, draw), d)
  {
    var m1 := Stand(env, m, draw);
    UntouchedTidy(m, m1, d);
    hide Tidy, BecomeLeader;
    if Tally(env, m1) {
      BecomeLeaderTidy(env, m1, d);
    } else {
      var body: Body<Image> := VoteReq(LastIndex(m1.log), LastTerm(m1.log));
      EnqueueAllUntouched(m1, Ascending(env.cfg.AllNodes()), m1.term, body);
      UntouchedTidy(m1, EnqueueAll(m1, Ascending(env.cfg.AllNodes()), m1.term, body), d);
    }
  }

  lemma PreCampaignTidy(env: Env, m: Raft, d: Disk, draw: nat)
    requires Tidy(m, d)
    ensures Tidy(PreCampaign(env, m, draw), d)
  {
    hide Tidy, Campaign, EnqueueAll, HasQuorum;
    var m1 := NewTimeout(env, m, draw).(role := PreCandidate, votes := map[m.id := true]);
    UntouchedTidy(m, m1, d);
    if Tally(env, m1) {
      CampaignTidy(env, m1, d, draw);
    } else {
      var body: Body<Image> := PreVoteReq(LastIndex(m1.log), LastTerm(m1.log));
      EnqueueAllUntouched(m1, Ascending(env.cfg.AllNodes()), m1.term + 1, body);
      UntouchedTidy(m1, EnqueueAll(m1, Ascending(env.cfg.AllNodes()), m1.term + 1, body), d);
    }
  }

  lemma StartElectionTidy(env: Env, m: Raft, d: Disk, draw: nat)
    requires Tidy(m, d)
    ensures Tidy(StartElection(env, m, draw), d)
  {
    hide Tidy, Campaign, PreCampaign;
    PreCampaignTidy(env, m, d, draw);
    CampaignTidy(env, m, d, draw);
  }

  // ---- the clock ---------------------------------------------------------------------------------

  lemma CheckQuorumUntouched(env: Env, m: Raft)
    ensures Untouched(m, CheckQuorum(env, m))
  {
  }

  lemma ExpireUntouched(env: Env, m: Raft)
    ensures Untouched(m, ExpirePendingSnapshots(env, m))
  {
    var retry := set id | id in m.progress && Expired(env, m.progress[id]);
    var m1 := m.(progress := map id | id in m.progress :: Aged(env, m.progress[id]));
    ResendUntouched(env, m1, Ascending(retry));
  }

  lemma LeaderTickUntouched(env: Env, m: Raft)
    ensures Untouched(m, LeaderTick(env, m))
  {
    hide CheckQuorum, ExpirePendingSnapshots, SendAppends;
    var m1 := m.(clock := m.clock.(heartbeat := m.clock.heartbeat + 1, contact := m.clock.contact + 1));
    var m1' := m1.(clock := m1.clock.(heartbeat := 0));
    SendAppendsUntouched(env, m1', Ascending(env.cfg.AllNodes()));
    var m2 := if m1.clock.heartbeat >= env.opts.heartbeatTicks then BroadcastAppend(env, m1') else m1;
    CheckQuorumUntouched(env, m2.(clock := m2.clock.(election := 0)));
    var m3 := if m2.clock.election >= env.opts.electionTicks
              then CheckQuorum(env, m2.(clock := m2.clock.(election := 0))) else m2;
    ExpireUntouched(env, m3);
  }

  lemma TickTidy(env: Env, m: Raft, d: Disk, draw: nat)
    requires Tidy(m, d)
    ensures Tidy(Tick(env, m, draw), d)
  {
    hide Tidy, LeaderTick, StartElection;
    var m1 := m.(clock := m.clock.(election := m.clock.election + 1));
    UntouchedTidy(m, m1, d);
    if m1.role == Leader {
      LeaderTickUntouched(env, m1);
      UntouchedTidy(m1, LeaderTick(env, m1), d);
    } else if Promotable(env, m1) && m1.clock.election >= m1.clock.timeout {
      StartElectionTidy(env, m1, d, draw);
    }
  }

  // ---- client inputs -------------------------------------------------------------------------------

  lemma ProposeTidy(env: Env, m: Raft, d: Disk, data: Bytes)
    requires Tidy(m, d)
    ensures Tidy(Propose(env, m, data), d)
  {
    AppendOwnTidy(m, d, Normal(data));
    hide Tidy, AppendOwn;
    var m1 := AppendOwn(m, Normal(data));
    SendAppendsUntouched(env, m1, Ascending(env.cfg.AllNodes()));
    UntouchedTidy(m1, BroadcastAppend(env, m1), d);
  }

  lemma ReadIndexUntouched(env: Env, m: Raft, floor: nat)
    ensures Untouched(m, ReadIndex(env, m, floor))
  {
    hide SendHeartbeats, HasQuorum, Ascending;
    HeartbeatsUntouched(Waiting(m, floor), Ascending(env.cfg.AllNodes()), m.readCtx + 1);
  }

  lemma TransferUntouched(env: Env, m: Raft, target: NodeId)
    ensures Untouched(m, TransferLeadership(env, m, target)) && Untouched(m, StepDown(m))
  {
  }

  // ---- messages ----------------------------------------------------------------------------------------

  ghost predicate Follow(prev: nat, entries: seq<Entry>) {
    forall i :: 0 <= i < |entries| ==> entries[i].index == prev + 1 + i
  }

  /** Merging leaves everything up to `prev` alone and keeps the log contiguous. */
  lemma {:induction false} MergeFromAbove(l: Log, prev: nat, entries: seq<Entry>, i: nat)
    requires l.base <= prev && i <= |entries| && prev + i <= |l.full| && Indexed(l.full) && Follow(prev, entries)
    ensures var r := MergeFrom(l, entries, i);
            r.base == l.base && prev <= |r.full| && Indexed(r.full) && r.full[..prev] == l.full[..prev]
    decreases |entries| - i
  {
    if i < |entries| {
      var e := entries[i];
      if e.index <= |l.full| && l.full[prev + i].term == e.term {
        MergeFromAbove(l, prev, entries, i + 1);
      } else {
        var kept := l.full[..prev + i];
        assert (kept + entries[i..])[..prev] == l.full[..prev];
      }
    }
  }

  lemma MergeTidy(m: Raft, d: Disk, prev: nat, entries: seq<Entry>)
    requires Tidy(m, d) && m.log.base <= prev <= |m.log.full| && Follow(prev, entries)
    ensures Tidy(MergeEntries(m, entries), d)
  {
    assert Indexed(m.log.full);
    hide Tidy, MergeFrom, Indexed;
    MergeFromAbove(m.log, prev, entries, 0);
    if entries == [] {
    } else {
      RewriteTidy(m, d, Merge(m.log, entries).full, prev);
    }
  }

  lemma AcceptTidy(m: Raft, d: Disk, prev: nat, entries: seq<Entry>, commit: nat)
    requires Tidy(m, d) && m.log.base <= prev <= |m.log.full| && Follow(prev, entries)
    ensures Tidy(Accept(m, prev, entries, commit), d)
  {
    hide Tidy, MergeEntries;
    MergeTidy(m, d, prev, entries);
    UntouchedTidy(MergeEntries(m, entries), Accept(m, prev, entries, commit), d);
  }

  /** A snapshot beyond the log's base that agrees with the log wherever their terms do. */
  ghost predicate Fits(log: Log, image: seq<Entry>) {
    && log.base < |image| && Indexed(image)
    && (TermAt(log, |image|) == Some(LastTermOf(image)) ==> |image| <= |log.full| && log.full[..|image|] == image)
  }

  ghost predicate WellFormed(m: Raft, msg: Message<Image>) {
    match msg.body
    case AppendReq(prev, _, entries, _) => Follow(prev, entries)
    case SnapshotReq(image) => |image.prefix| > m.commit ==> Fits(m.log, image.prefix)
    case _ => true
  }

  lemma DeferUntouched(m: Raft, from: NodeId)
    ensures Untouched(m, Defer(m, from)) && Defer(m, from).commit == m.commit
  {
  }

  lemma AppendTidy(m: Raft, d: Disk, from: NodeId, prev: nat, prevTerm: nat, entries: seq<Entry>, commit: nat)
    requires Tidy(m, d) && Follow(prev, entries)
    ensures Tidy(HandleAppend(m, from, prev, prevTerm, entries, commit), d)
  {
    hide Tidy, Defer, Accept, FindConflictByTerm;
    DeferUntouched(m, from);
    var m1, m' := Defer(m, from), HandleAppend(m, from, prev, prevTerm, entries, commit);
    UntouchedTidy(m, m1, d);
    if m1.log.base <= prev && TermAt(m1.log, prev) == Some(prevTerm) {
      AcceptTidy(m1, d, prev, entries, commit);
      UntouchedTidy(Accept(m1, prev, entries, commit), m', d);
    } else {
      UntouchedTidy(m1, m', d);
    }
  }

  lemma SnapshotTidy(m: Raft, d: Disk, from: NodeId, image: Image)
    requires Tidy(m, d) && (|image.prefix| > m.commit ==> Fits(m.log, image.prefix))
    ensures Tidy(HandleSnapshot(m, from, image), d)
  {
    DeferUntouched(m, from);
    var m1, m' := Defer(m, from), HandleSnapshot(m, from, image);
    UntouchedTidy(m, m1, d);
    hide Tidy, Defer;
    if |image.prefix| > m1.commit {
      UntouchedTidy(Install(m1, image), m', d);
    } else {
      UntouchedTidy(m1, m', d);
    }
  }

  lemma AdvanceUntouched(env: Env, m: Raft)
    ensures Untouched(m, MaybeAdvanceCommit(env, m))
  {
  }

  lemma AppendRespUntouched(env: Env, m: Raft, from: NodeId, success: bool, matchIndex: nat, ci: nat, ct: nat)
    ensures Untouched(m, HandleAppendResp(env, m, from, success, matchIndex, ci, ct))
  {
    hide SendAppendTo, MaybeAdvanceCommit, FindConflictByTerm;
    if m.role == Leader && from in m.progress {
      var p := m.progress[from].(active := true);
      if success {
        var m1 := m.(progress := m.progress[from := Acknowledged(p, matchIndex)]);
        AdvanceUntouched(env, m1);
        SendAppendUntouched(env, MaybeAdvanceCommit(env, m1), from);
      } else {
        var next := if ct > 0 then FindConflictByTerm(m.log, ci, ct) + 1 else Max(ci, 1);
        var p := p.(next := Min(Max(next, p.matched + 1), LastIndex(m.log) + 1), state := Probe);
        SendAppendUntouched(env, m.(progress := m.progress[from := p]), from);
      }
    }
  }

  lemma SnapshotRespUntouched(env: Env, m: Raft, from: NodeId, success: bool, index: nat)
    ensures Untouched(m, HandleSnapshotResp(env, m, from, success, index))
  {
    hide MaybeAdvanceCommit;
    if m.role == Leader && from in m.progress {
      var p := m.progress[from].(active := true, pendingSnapshot := 0, age := 0, state := Probe);
      var matched := Max(p.matched, index);
      AdvanceUntouched(env, m.(progress := m.progress[from := p.(matched := matched, next := matched + 1)]));
    }
  }

  lemma HeartbeatRespUntouched(env: Env, m: Raft, from: NodeId, ctx: nat)
    ensures Untouched(m, HandleHeartbeatResp(env, m, from, ctx))
  {
    hide AckReads, Completed, Retain;
  }

  lemma HeartbeatUntouched(m: Raft, from: NodeId, commit: nat, ctx: nat)
    ensures Untouched(m, HandleHeartbeat(m, from, commit, ctx))
  {
    hide Defer;
    DeferUntouched(m, from);
  }

  lemma VoteReqUntouched(m: Raft, from: NodeId, lastIndex: nat, lastTerm: nat)
    ensures Untouched(m, HandleVoteReq(m, from, lastIndex, lastTerm))
  {
  }

  lemma VoteRespTidy(env: Env, m: Raft, d: Disk, from: NodeId, granted: bool)
    requires Tidy(m, d)
    ensures Tidy(HandleVoteResp(env, m, from, granted), d)
  {
    var m1, m' := m.(votes := m.votes[from := granted]), HandleVoteResp(env, m, from, granted);
    UntouchedTidy(m, m1, d);
    hide Tidy, BecomeLeader;
    if m.role == Candidate && Tally(env, m1) {
      BecomeLeaderTidy(env, m1, d);
    } else {
      UntouchedTidy(m, m', d);
    }
  }

  lemma PreVoteRespTidy(env: Env, m: Raft, d: Disk, from: NodeId, term: nat, granted: bool, draw: nat)
    requires Tidy(m, d)
    ensures Tidy(HandlePreVoteResp(env, m, from, term, granted, draw), d)
  {
    var m1, m' := m.(votes := m.votes[from := granted]), HandlePreVoteResp(env, m, from, term, granted, draw);
    UntouchedTidy(m, m1, d);
    hide Tidy, Campaign;
    if m.role == PreCandidate && (granted || term <= m.term + 1) && Tally(env, m1) {
      CampaignTidy(env, m1, d, draw);
    } else {
      UntouchedTidy(m, m', d);
    }
  }

  lemma DispatchTidy(env: Env, m: Raft, d: Disk, from: NodeId, msg: Message<Image>, draw: nat)
    requires Tidy(m, d) && WellFormed(m, msg)
    ensures Tidy(Dispatch(env, m, from, msg, draw), d)
  {
    hide Tidy, Untouched, Campaign, HandleAppend, HandleSnapshot, HandleVoteResp, HandlePreVoteResp, HandleAppendResp,
         HandleSnapshotResp;
    hide HandleHeartbeat, HandleHeartbeatResp, HandleVoteReq, Enqueue, UpToDate;
    var m' := Dispatch(env, m, from, msg, draw);
    match msg.body {
      case PreVoteReq(lastIndex, lastTerm) =>
        var believes := m.leader.Some? && m.clock.election < env.opts.electionTicks;
        EnqueueUntouched(m, from, msg.term,
                         PreVoteResp(msg.term > m.term && UpToDate(m.log.full, lastTerm, lastIndex) && !believes));
        UntouchedTidy(m, m', d);
      case PreVoteResp(granted) => PreVoteRespTidy(env, m, d, from, msg.term, granted, draw);
      case VoteReq(lastIndex, lastTerm) =>
        VoteReqUntouched(m, from, lastIndex, lastTerm);
        UntouchedTidy(m, m', d);
      case VoteResp(granted) => VoteRespTidy(env, m, d, from, granted);
      case AppendReq(prev, prevTerm, entries, commit) => AppendTidy(m, d, from, prev, prevTerm, entries, commit);
      case AppendResp(success, matchIndex, ci, ct) =>
        AppendRespUntouched(env, m, from, success, matchIndex, ci, ct);
        UntouchedTidy(m, m', d);
      case SnapshotReq(image) => SnapshotTidy(m, d, from, image);
      case SnapshotResp(success, index) =>
        SnapshotRespUntouched(env, m, from, success, index);
        UntouchedTidy(m, m', d);
      case HeartbeatReq(commit, ctx) =>
        HeartbeatUntouched(m, from, commit, ctx);
        UntouchedTidy(m, m', d);
      case HeartbeatResp(ctx) =>
        HeartbeatRespUntouched(env, m, from, ctx);
        UntouchedTidy(m, m', d);
      case TimeoutNow => CampaignTidy(env, m, d, draw);
    }
  }

  lemma ObserveUntouched(m: Raft, from: NodeId, msg: Message<Image>)
    ensures Untouched(m, ObserveTerm(m, from, msg)) && ObserveTerm(m, from, msg).commit == m.commit
    ensures Untouched(m, AnswerStale(m, from, msg.body))
  {
  }

  /** Any well-formed message, true or not. */
  lemma StepTidy(env: Env, m: Raft, d: Disk, from: NodeId, msg: Message<Image>, draw: nat)
    requires Tidy(m, d) && WellFormed(m, msg)
    ensures Tidy(Step(env, m, from, msg, draw), d)
  {
    ObserveUntouched(m, from, msg);
    var m1 := ObserveTerm(m, from, msg);
    ObserveUntouched(m1, from, msg);
    assert WellFormed(m1, msg);
    hide Tidy, ObserveTerm, AnswerStale, Dispatch, WellFormed;
    UntouchedTidy(m, m1, d);
    if msg.term < m1.term {
      UntouchedTidy(m1, AnswerStale(m1, from, msg.body), d);
    } else {
      DispatchTidy(env, m1, d, from, msg, draw);
    }
  }

  /** A node rebuilt from a disk that holds a contiguous log is level with it. */
  lemma RestartTidy(env: Env, id: NodeId, d: Disk, log: Log)
    requires Mirrors(log, d)
    ensures Tidy(Restart(env, id, d), d) && Restart(env, id, d).log == log
  {
    MirrorRecovers(log, d);
    AgreeInFull(d.wal, log.full, log.base);
  }

  lemma AgreeInFull(w: Wal, full: seq<Entry>, base: nat)
    requires base <= |full| && w.first - 1 <= base && WalLast(w) == |full|
    requires w.entries[base + 1 - w.first..] == full[base..]
    ensures AgreeOn(w, full, base, |full|)
  {
    assert full[base..|full|] == full[base..];
    assert w.entries[base + 1 - w.first..|full| + 1 - w.first] == w.entries[base + 1 - w.first..];
  }
}
