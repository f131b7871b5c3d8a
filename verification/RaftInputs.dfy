/** Every input a node can take, and in particular every message that can reach it, keeps the
    invariant. */
module RaftInputs {
  import opened Types
  import opened Quorum
  import opened RaftLog
  import opened RaftNode
  import opened RaftHistory
  import opened RaftGrowth
  import opened RaftInvariant
  import opened RaftSteps
  import opened RaftLeadership
  import opened RaftReplication
  import opened RaftHandlers
  import opened RaftReads

  /** A message in flight to `n`. */
  ghost predicate Delivers(h: History, n: NodeId, p: Packet) {
    p in h.net && p.dst == n
  }

  lemma NotOwnMessage(h: History, n: NodeId, p: Packet)
    requires NetOk(h) && Delivers(h, n, p)
    ensures p.src != n
  {
    assert Backed(h, p);
  }

  lemma NodeIsNamed(env: Env, h: History, n: NodeId, m: Raft, st: Stored)
    requires NodeOk(env, h, n, m, st)
    ensures m.id == n
  {
    assert LogsOk(h, n, m, st);
  }

  lemma ObserveKeeps(env: Env, h: History, n: NodeId, m: Raft, st: Stored, p: Packet)
    requires NodeOk(env, h, n, m, st)
    ensures NodeOk(env, h, n, ObserveTerm(m, p.src, p.msg), st)
    ensures p.msg.term > ObserveTerm(m, p.src, p.msg).term ==> p.msg.IsPreVote()
  {
    hide NodeOk;
    FollowerKeeps(env, h, n, m, st, p.msg.term,
                  if p.msg.body.VoteReq? || p.msg.body.VoteResp? then None else Some(p.src));
  }

  lemma StaleKeeps(env: Env, h: History, n: NodeId, m: Raft, st: Stored, from: NodeId, body: Body<Image>)
    requires NodeOk(env, h, n, m, st) && m.id == n && from != n
    ensures NodeOk(env, h, n, AnswerStale(m, from, body), st)
  {
    hide NodeOk;
    PlainKeeps(env, h, n, m, st, from, m.term, AppendResp(false, 0, 0, 0));
    PlainKeeps(env, h, n, m, st, from, m.term, PreVoteResp(false));
  }

  lemma PreVoteReqKeeps(env: Env, h: History, n: NodeId, m: Raft, st: Stored, p: Packet)
    requires NodeOk(env, h, n, m, st) && m.id == n && p.src != n && p.msg.body.PreVoteReq?
    ensures NodeOk(env, h, n, HandlePreVoteReq(env, m, p.src, p.msg.term, p.msg.body.lastIndex, p.msg.body.lastTerm),
                   st)
  {
    hide NodeOk;
    var believes := m.leader.Some? && m.clock.election < env.opts.electionTicks;
    var granted := p.msg.term > m.term && UpToDate(m.log.full, p.msg.body.lastTerm, p.msg.body.lastIndex) && !believes;
    PlainKeeps(env, h, n, m, st, p.src, p.msg.term, PreVoteResp(granted));
  }

  lemma DispatchKeeps(env: Env, h: History, n: NodeId, m: Raft, st: Stored, p: Packet, draw: nat) returns (h': History)
    requires Safe(env, h, n, m, st) && m.id == n && p.src != n && Delivers(h, n, p)
    requires p.msg.IsPreVote() || p.msg.term == m.term
    ensures Moves(h, h', n) && Safe(env, h', n, Dispatch(env, m, p.src, p.msg, draw), st)
  {
    hide Moves, NodeOk, LeadsOk, AcksOk, ElectionsOk, NetOk, GrantsAgree, GrantsKept, DurableDown, AskedOk;
    hide HandlePreVoteReq, HandlePreVoteResp, HandleVoteReq, HandleVoteResp, HandleAppend, HandleAppendResp;
    hide HandleSnapshot, HandleSnapshotResp, HandleHeartbeat, HandleHeartbeatResp, Campaign;
    Still(h, n);
    h' := h;
    match p.msg.body {
      case PreVoteReq(_, _) => PreVoteReqKeeps(env, h, n, m, st, p);
      case PreVoteResp(granted) => h' := PreVoteRespKeeps(env, h, n, m, st, p.src, p.msg.term, granted, draw);
      case VoteReq(_, _) => VoteReqKeeps(env, h, n, m, st, p);
      case VoteResp(_) => h' := VoteRespKeeps(env, h, n, m, st, p);
      case AppendReq(_, _, _, _) => AppendKeeps(env, h, n, m, st, p);
      case AppendResp(_, _, _, _) => h' := AppendRespKeeps(env, h, n, m, st, p);
      case SnapshotReq(_) => SnapshotKeeps(env, h, n, m, st, p);
      case SnapshotResp(_, _) => h' := SnapshotRespKeeps(env, h, n, m, st, p);
      case HeartbeatReq(_, _) => HeartbeatKeeps(env, h, n, m, st, p);
      case HeartbeatResp(_) => HeartbeatRespKeeps(env, h, n, m, st, p);
      case TimeoutNow => h' := TimeoutNowKeeps(env, h, n, m, st, p, draw);
    }
  }

  /** Any message from the network. */
  lemma StepKeeps(env: Env, h: History, n: NodeId, m: Raft, st: Stored, p: Packet, draw: nat) returns (h': History)
    requires Safe(env, h, n, m, st) && Delivers(h, n, p)
    ensures Moves(h, h', n) && Safe(env, h', n, Step(env, m, p.src, p.msg, draw), st)
  {
    hide Moves, NodeOk, LeadsOk, AcksOk, ElectionsOk, GrantsAgree, GrantsKept, DurableDown, AskedOk;
    NotOwnMessage(h, n, p);
    hide NetOk, ObserveTerm, Dispatch, AnswerStale;
    Still(h, n);
    h' := h;
    ObserveKeeps(env, h, n, m, st, p);
    var m1 := ObserveTerm(m, p.src, p.msg);
    NodeIsNamed(env, h, n, m1, st);
    if p.msg.term < m1.term {
      StaleKeeps(env, h, n, m1, st, p.src, p.msg.body);
    } else {
      h' := DispatchKeeps(env, h, n, m1, st, p, draw);
    }
  }

  lemma StepDownKeeps(env: Env, h: History, n: NodeId, m: Raft, st: Stored)
    requires NodeOk(env, h, n, m, st)
    ensures NodeOk(env, h, n, StepDown(m), st)
  {
    hide NodeOk;
    FollowerKeeps(env, h, n, m, st, m.term, None);
  }
}
