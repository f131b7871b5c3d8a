/** The Raft state machine as the object it is (crates/chronolog/src/raft.rs), over the log it really
    keeps: a `CompactedLog`, from which compacted entries are gone. `State()` reads the object as the
    node of `RaftNode`, with its whole past restored, and every transition is proved to have exactly
    the effect of the function the protocol proofs are about. */
module RaftMachine {
  import opened Types
  import opened Quorum
  import opened RaftLog
  import opened EntryCodec
  import opened RaftNode
  import C = CompactLog

  // The sections of the original's struct.

  datatype Stable = Stable(term: nat, vote: Option<NodeId>)

  datatype Volatile = Volatile(commit: nat, applied: nat, persisted: nat, role: Role, leader: Option<NodeId>)

  datatype Election = Election(votes: map<NodeId, bool>, elapsed: nat, heartbeat: nat, timeout: nat)

  datatype Leading = Leading(
    progress: map<NodeId, Progress>, waiting: seq<PendingRead>, readCtx: nat, contact: nat, committedOwn: bool)

  /** A snapshot as it is sent and stored. `image` is history: the prefix of the log it stands for, of
      which it names the last index and term. */
  datatype Parcel = Parcel(snapshot: Snapshot, ghost image: Image)

  type Carried = p: Parcel |
      p.snapshot.lastIndex == |p.image.prefix| && p.snapshot.lastTerm == LastTermOf(p.image.prefix)
    ghost witness Parcel(Snapshot(0, 0, Config({}, {}, {}), []), Image([]))

  /** A message as the specification has it. */
  ghost function Meant(body: Body<Carried>): Body<Image> {
    match body
    case PreVoteReq(lastIndex, lastTerm) => PreVoteReq(lastIndex, lastTerm)
    case PreVoteResp(granted) => PreVoteResp(granted)
    case VoteReq(lastIndex, lastTerm) => VoteReq(lastIndex, lastTerm)
    case VoteResp(granted) => VoteResp(granted)
    case AppendReq(prev, prevTerm, entries, commit) => AppendReq(prev, prevTerm, entries, commit)
    case AppendResp(success, matchIndex, conflictIndex, conflictTerm) =>
      AppendResp(success, matchIndex, conflictIndex, conflictTerm)
    case SnapshotReq(c) => SnapshotReq(c.image)
    case SnapshotResp(success, index) => SnapshotResp(success, index)
    case HeartbeatReq(commit, ctx) => HeartbeatReq(commit, ctx)
    case HeartbeatResp(ctx) => HeartbeatResp(ctx)
    case TimeoutNow => TimeoutNow
  }

  ghost function Sense(msg: Message<Carried>): Message<Image> {
    Message(msg.term, Meant(msg.body))
  }

  ghost function ImageOf(c: Option<Carried>): Option<Image> {
    if c.Some? then Some(c.value.image) else None
  }

  /** A queued message. `origin` is history: the whole log when it was queued. */
  datatype Envelope = Envelope(to: NodeId, msg: Message<Carried>, ghost origin: seq<Entry>)

  datatype Outputs = Outputs(
    queue: seq<Envelope>, snapshot: Option<Carried>, confirmed: seq<ReadState>,
    hardDirty: bool, savedHard: HardState, dirtyFrom: Option<nat>)

  /** One more message in a queue. */
  ghost predicate Queued(before: seq<Envelope>, after: seq<Envelope>, body: Body<Carried>) {
    |after| == |before| + 1 && after[..|before|] == before && after[|before|].msg.body == body
  }

  /** What the driver is handed. */
  datatype Work = Work(
    hard: Option<HardState>,
    entries: seq<Entry>,
    snapshot: Option<Carried>,
    messages: seq<(NodeId, Message<Carried>)>,
    committed: seq<Entry>,
    confirmed: seq<ReadState>)

  /** It is the `Ready` of the specification, but for the history its messages carry there. */
  ghost predicate Delivers(w: Work, r: Ready) {
    && w.hard == r.hard && w.entries == r.entries && ImageOf(w.snapshot) == r.snapshot && w.committed == r.committed
    && w.confirmed == r.confirmed && |w.messages| == |r.messages|
    && forall i :: 0 <= i < |w.messages| ==>
         w.messages[i].0 == r.messages[i].dst && Sense(w.messages[i].1) == r.messages[i].msg
  }

  ghost function Packets(id: NodeId, queue: seq<Envelope>): (r: seq<Packet>)
    ensures |r| == |queue|
    ensures forall i :: 0 <= i < |queue| ==> r[i] == Packet(id, queue[i].to, Sense(queue[i].msg), queue[i].origin)
  {
    seq(|queue|, i requires 0 <= i < |queue| => Packet(id, queue[i].to, Sense(queue[i].msg), queue[i].origin))
  }

  ghost function Joined(id: NodeId, log: Log, s: Stable, v: Volatile, e: Election, l: Leading, o: Outputs): Raft {
    Raft(id, s.term, s.vote, log, v.commit, v.applied, v.persisted, v.role, v.leader, e.votes, l.progress, l.waiting,
         l.readCtx, l.committedOwn, Outbox(Packets(id, o.queue), ImageOf(o.snapshot), o.confirmed), o.hardDirty,
         o.savedHard, o.dirtyFrom, Clock(e.elapsed, e.heartbeat, e.timeout, l.contact))
  }

  /** The indices in a message follow one another, as the log demands. */
  ghost predicate Shaped(body: Body<Image>) {
    match body
    case AppendReq(prev, _, entries, _) => C.Continues(entries, prev)
    case SnapshotReq(image) => Indexed(image.prefix)
    case _ => true
  }

  /** Equal claims have equal quorums. */
  lemma SameQuorum(cfg: Config, f: NodeId -> nat, g: NodeId -> nat)
    requires forall n :: f(n) == g(n)
    ensures QuorumIndex(cfg, f) == QuorumIndex(cfg, g)
  {
    SameMatched(Ascending(cfg.voters), f, g);
    SameMatched(Ascending(cfg.outgoing), f, g);
  }

  lemma {:induction false} SameMatched(ids: seq<NodeId>, f: NodeId -> nat, g: NodeId -> nat)
    requires forall n :: f(n) == g(n)
    ensures MatchedOf(ids, f) == MatchedOf(ids, g)
  {
    if ids != [] { SameMatched(ids[1..], f, g); }
  }

  class Machine {
    const env: Env
    const id: NodeId
    const log: C.CompactedLog
    var stable: Stable
    var vol: Volatile
    var poll: Election
    var lead: Leading
    var todo: Outputs

    ghost predicate Valid()
      reads log
    {
      log.Valid()
    }

    ghost function State(): Raft
      reads this, log
    {
      Joined(id, log.Whole(), stable, vol, poll, lead, todo)
    }

    constructor (env: Env, id: NodeId)
      ensures Valid() && fresh(log) && State() == Fresh(env, id) && this.env == env
    {
      this.env, this.id := env, id;
      log := new C.CompactedLog(env.cfg);
      stable, vol := Stable(0, None), Volatile(0, 0, 0, Follower, None);
      poll, lead := Election(map[], 0, 0, env.opts.electionTicks), Leading(map[], [], 0, 0, false);
      todo := Outputs([], None, [], false, HardState(0, None, 0), None);
    }

    /** Rebuild after a restart, clamping the recovered commit index to the log. */
    constructor Restore(env: Env, id: NodeId, hard: HardState, recovered: C.CompactedLog)
      requires recovered.Valid()
      ensures Valid() && log == recovered && this.env == env
      ensures State() == Restored(env, id, hard, recovered.Whole())
    {
      this.env, this.id, log := env, id, recovered;
      var last := recovered.LastIndex();
      var base := recovered.snapshotIndex;
      var commit := Max(Min(hard.commit, last), base);
      stable := Stable(hard.term, hard.vote);
      vol := Volatile(commit, base, last, Follower, None);
      poll, lead := Election(map[], 0, 0, env.opts.electionTicks), Leading(map[], [], 0, 0, false);
      todo := Outputs([], None, [], false, HardState(hard.term, hard.vote, commit), None);
    }

    // ---- small pieces -----------------------------------------------------------------------

    lemma Fields()
      ensures State().id == id && State().commit == vol.commit && State().progress == lead.progress
      ensures State().clock == Clock(poll.elapsed, poll.heartbeat, poll.timeout, lead.contact)
    {
    }

    method Enqueue(to: NodeId, at: nat, body: Body<Carried>)
      modifies this`todo
      ensures State() == RaftNode.Enqueue(old(State()), to, at, Meant(body))
      ensures Queued(old(todo.queue), todo.queue, body)
    {
      todo := todo.(queue := todo.queue + [Envelope(to, Message(at, body), log.Whole().full)]);
    }

    method Send(to: NodeId, body: Body<Carried>)
      modifies this`todo
      ensures State() == RaftNode.Send(old(State()), to, Meant(body))
      ensures Queued(old(todo.queue), todo.queue, body)
    {
      Enqueue(to, stable.term, body);
    }

    /** The same message to every other node. */
    method EnqueueAll(at: nat, body: Body<Carried>)
      modifies this`todo
      ensures State() == RaftNode.EnqueueAll(old(State()), Ascending(env.cfg.AllNodes()), at, Meant(body))
    {
      hide Ascending, RaftNode.Enqueue, Meant, Joined;
      var peers := Ascending(env.cfg.AllNodes());
      assert peers[0..] == peers;
      for i := 0 to |peers|
        invariant RaftNode.EnqueueAll(old(State()), peers, at, Meant(body))
               == RaftNode.EnqueueAll(State(), peers[i..], at, Meant(body))
      {
        assert peers[i..][1..] == peers[i + 1..];
        Fields();
        if peers[i] != id { Enqueue(peers[i], at, body); }
      }
    }

    method MarkDirty(index: nat)
      modifies this`todo
      ensures State() == RaftNode.MarkDirty(old(State()), index)
    {
      todo := todo.(dirtyFrom := if todo.dirtyFrom.Some? then Some(Min(todo.dirtyFrom.value, index)) else Some(index));
    }

    method AppendToOwnLog(kind: EntryKind)
      requires Valid()
      modifies this`todo, log
      ensures Valid() && State() == AppendOwn(old(State()), kind)
    {
      var last := log.LastIndex();
      MarkDirty(last + 1);
      log.Append([Entry(stable.term, last + 1, kind)]);
    }

    // ---- replication ------------------------------------------------------------------------

    /** The entries from `next` on, as many as the limits allow. */
    method AppendFrom(next: nat) returns (body: Body<Carried>)
      requires Valid() && FirstIndex(log.Whole()) <= next && next - 1 <= LastIndex(log.Whole())
      ensures Meant(body) == AppendFor(env, State(), next)
    {
      hide ByteCut, Slice;
      var last := log.LastIndex();
      var entries := log.Slice(next, Min(next + env.opts.maxEntries, last + 1));
      var cut := FitBudget(entries, env.opts.maxBytes);
      var t := log.TermAt(next - 1);
      body := AppendReq(next - 1, t.value, entries[..cut], vol.commit);
    }

    method SendAppendTo(peer: NodeId)
      requires Valid()
      modifies this`todo, this`lead
      ensures State() == RaftNode.SendAppendTo(env, old(State()), peer)
    {
      hide AppendFor, RaftNode.Send;
      if peer !in lead.progress {
        return;
      }
      var p := lead.progress[peer];
      if p.state == Snapshotting && p.pendingSnapshot > 0 {
        return;
      }
      var last := log.LastIndex();
      if p.next <= log.snapshotIndex || p.next - 1 > last {
        lead := lead.(progress := lead.progress[peer := p.(state := Snapshotting)]);
        return;
      }
      var body := AppendFrom(p.next);
      Send(peer, body);
    }

    method BroadcastAppend()
      requires Valid()
      modifies this`todo, this`lead
      ensures State() == RaftNode.BroadcastAppend(env, old(State()))
    {
      hide Ascending, RaftNode.SendAppendTo, Joined;
      var peers := Ascending(env.cfg.AllNodes());
      assert peers[0..] == peers;
      for i := 0 to |peers|
        invariant SendAppends(env, old(State()), peers) == SendAppends(env, State(), peers[i..])
      {
        assert peers[i..][1..] == peers[i + 1..];
        Fields();
        if peers[i] != id { SendAppendTo(peers[i]); }
      }
    }

    /** Advance through what a quorum holds durably, but only at an entry of the current term. */
    method MaybeAdvanceCommit()
      requires Valid()
      modifies this`vol, this`lead, this`todo
      ensures State() == RaftNode.MaybeAdvanceCommit(env, old(State())) && todo.queue == old(todo.queue)
    {
      hide QuorumIndex;
      var own, progress := vol.persisted, lead.progress;
      var claims := (n: NodeId) => if n == id then own else if n in progress then progress[n].matched else 0;
      SameQuorum(env.cfg, claims, MatchedBy(State()));
      var candidate := QuorumIndex(env.cfg, claims);
      var t := log.TermAt(candidate);
      if candidate <= vol.commit || t != Some(stable.term) {
        return;
      }
      vol := vol.(commit := candidate);
      lead := lead.(committedOwn := true, contact := 0);
      todo := todo.(hardDirty := true);
    }

    // ---- role transitions -------------------------------------------------------------------

    method BecomeFollower(at: nat, of: Option<NodeId>)
      modifies this
      ensures State() == RaftNode.BecomeFollower(old(State()), at, of)
    {
      if at > stable.term {
        stable := stable.(term := at, vote := None);
        todo := todo.(hardDirty := true);
      }
      vol := vol.(role := Follower, leader := of);
      poll := poll.(elapsed := 0, votes := map[]);
      lead := lead.(progress := map[], waiting := [], committedOwn := false);
    }

    /** Keep what is known of members, start afresh with new ones, and count this node as durable. */
    method ResetProgress()
      requires Valid()
      modifies this`lead
      ensures State() == RaftNode.ResetProgress(env, old(State()))
    {
      var last := log.LastIndex();
      var members, before := env.cfg.AllNodes(), lead.progress;
      var progress := map n | n in members :: if n in before then before[n] else NewProgress(last + 1);
      if id in progress {
        var own := progress[id].(matched := vol.persisted, next := vol.persisted + 1, state := Replicate,
                                 active := true);
        progress := progress[id := own];
      }
      lead := lead.(progress := progress);
      assert progress == RaftNode.ResetProgress(env, old(State())).progress;
    }

    method BecomeLeader()
      requires Valid()
      modifies this, log
      ensures Valid() && State() == RaftNode.BecomeLeader(env, old(State()))
    {
      hide RaftNode.BroadcastAppend, RaftNode.ResetProgress, AppendOwn;
      vol := vol.(role := Leader, leader := Some(id));
      poll := poll.(heartbeat := 0, elapsed := 0);
      lead := lead.(contact := 0, committedOwn := false, waiting := []);
      ResetProgress();
      AppendToOwnLog(Noop);
      BroadcastAppend();
    }

    method DrawTimeout(draw: nat)
      modifies this`poll
      ensures State() == NewTimeout(env, old(State()), draw)
    {
      var timeout := env.opts.electionTicks + draw % Max(env.opts.electionTicks, 1);
      poll := poll.(timeout := timeout, elapsed := 0, votes := map[]);
    }

    /** Take up the next term and vote for oneself. */
    method Stand(draw: nat)
      modifies this
      ensures State() == RaftNode.Stand(env, old(State()), draw)
    {
      DrawTimeout(draw);
      vol := vol.(role := Candidate, leader := None);
      stable := stable.(term := stable.term + 1, vote := Some(id));
      todo := todo.(hardDirty := true);
      poll := poll.(votes := map[id := true]);
    }

    /** Those who said yes are a quorum. */
    method Won() returns (yes: bool)
      ensures yes == Tally(env, State())
    {
      hide HasQuorum;
      var votes := poll.votes;
      var granted := set v | v in votes && votes[v];
      assert granted == Granted(State());
      yes := HasQuorum(env.cfg, granted);
    }

    /** Those who said no are one. */
    method Beaten() returns (yes: bool)
      ensures yes == Lost(env, State())
    {
      hide HasQuorum;
      var votes := poll.votes;
      var refused := set v | v in votes && !votes[v];
      assert refused == Refused(State());
      yes := HasQuorum(env.cfg, refused);
    }

    /** A real election. */
    method Campaign(draw: nat)
      requires Valid()
      modifies this, log
      ensures Valid() && State() == RaftNode.Campaign(env, old(State()), draw)
    {
      hide RaftNode.BecomeLeader, RaftNode.EnqueueAll, RaftNode.Stand, Tally, Packets, LastTermOf;
      Stand(draw);
      var won := Won();
      if won {
        BecomeLeader();
      } else {
        var index := log.LastIndex();
        var term := log.LastTerm();
        EnqueueAll(stable.term, VoteReq(index, term));
      }
    }

    /** Ask for support without taking up the next term. */
    method OpenPoll(draw: nat)
      modifies this`poll, this`vol
      ensures State() == NewTimeout(env, old(State()), draw).(role := PreCandidate, votes := map[id := true])
    {
      DrawTimeout(draw);
      vol := vol.(role := PreCandidate);
      poll := poll.(votes := map[id := true]);
    }

    /** A poll at the next term, which is not adopted. */
    method PreCampaign(draw: nat)
      requires Valid()
      modifies this, log
      ensures Valid() && State() == RaftNode.PreCampaign(env, old(State()), draw)
    {
      hide RaftNode.Campaign, RaftNode.EnqueueAll, NewTimeout, Tally, Packets, LastTermOf;
      OpenPoll(draw);
      var won := Won();
      if won {
        Campaign(draw);
      } else {
        var index := log.LastIndex();
        var term := log.LastTerm();
        EnqueueAll(stable.term + 1, PreVoteReq(index, term));
      }
    }

    // ---- the clock --------------------------------------------------------------------------

    /** A leader that has not heard from a quorum stands down. */
    method CheckQuorum()
      modifies this
      ensures State() == RaftNode.CheckQuorum(env, old(State()))
    {
      hide RaftNode.BecomeFollower, HasQuorum;
      var progress := lead.progress;
      var active := set n | n in progress && (progress[n].active || n == id);
      lead := lead.(progress := map n | n in progress :: progress[n].(active := false));
      if HasQuorum(env.cfg, active) {
        lead := lead.(contact := 0);
      } else {
        BecomeFollower(stable.term, None);
      }
    }

    /** Give up on snapshots that were never acknowledged, so that they are sent again. */
    method ExpirePendingSnapshots()
      requires Valid()
      modifies this`todo, this`lead
      ensures State() == RaftNode.ExpirePendingSnapshots(env, old(State()))
    {
      hide RaftNode.SendAppendTo, Ascending, Aged, Expired;
      var progress := lead.progress;
      var late := Ascending(set n | n in progress && Expired(env, progress[n]));
      lead := lead.(progress := map n | n in progress :: Aged(env, progress[n]));
      ghost var before := State();
      assert late[0..] == late;
      for i := 0 to |late|
        invariant SendAppendsAll(env, before, late) == SendAppendsAll(env, State(), late[i..])
      {
        assert late[i..][1..] == late[i + 1..];
        SendAppendTo(late[i]);
      }
    }

    method LeaderTick()
      requires Valid()
      modifies this
      ensures State() == RaftNode.LeaderTick(env, old(State()))
    {
      hide RaftNode.BroadcastAppend, RaftNode.CheckQuorum, RaftNode.ExpirePendingSnapshots, Joined;
      Fields();
      SetClocks(poll.heartbeat + 1, poll.elapsed, lead.contact + 1);
      Fields();
      if poll.heartbeat >= env.opts.heartbeatTicks {
        SetClocks(0, poll.elapsed, lead.contact);
        BroadcastAppend();
      }
      Fields();
      if poll.elapsed >= env.opts.electionTicks {
        SetClocks(poll.heartbeat, 0, lead.contact);
        CheckQuorum();
      }
      ExpirePendingSnapshots();
    }

    method SetClocks(heartbeat: nat, elapsed: nat, contact: nat)
      modifies this`poll, this`lead
      ensures State() == old(State()).(clock := Clock(elapsed, heartbeat, old(State()).clock.timeout, contact))
      ensures poll.elapsed == elapsed && poll.heartbeat == heartbeat && lead.contact == contact
    {
      poll, lead := poll.(heartbeat := heartbeat, elapsed := elapsed), lead.(contact := contact);
    }

    method Tick(draw: nat)
      requires Valid()
      modifies this, log
      ensures Valid() && State() == RaftNode.Tick(env, old(State()), draw)
    {
      hide RaftNode.LeaderTick, RaftNode.PreCampaign, RaftNode.Campaign;
      poll := poll.(elapsed := poll.elapsed + 1);
      if vol.role == Leader {
        LeaderTick();
      } else if env.cfg.IsVoter(id) && poll.elapsed >= poll.timeout {
        if env.opts.preVote { PreCampaign(draw); } else { Campaign(draw); }
      }
    }

    // ---- client inputs ----------------------------------------------------------------------

    method Propose(data: Bytes) returns (index: Option<nat>)
      requires Valid()
      modifies this, log
      ensures Valid() && State() == RaftNode.Propose(env, old(State()), data)
      ensures index == if old(vol).role == Leader then Some(LastIndex(old(log.Whole())) + 1) else None
    {
      hide RaftNode.BroadcastAppend, AppendOwn;
      if vol.role != Leader {
        return None;
      }
      var last := log.LastIndex();
      index := Some(last + 1);
      AppendToOwnLog(Normal(data));
      BroadcastAppend();
    }

    /** Begin a linearizable read; `floor` is history. */
    method ReadIndex(floor: nat) returns (ctx: Option<nat>)
      modifies this
      ensures State() == RaftNode.ReadIndex(env, old(State()), floor)
      ensures ctx == if old(vol).role == Leader && old(lead).committedOwn then Some(old(lead).readCtx + 1) else None
    {
      hide HasQuorum, Ascending, RaftNode.SendHeartbeats;
      if vol.role != Leader || !lead.committedOwn {
        return None;
      }
      var number := lead.readCtx + 1;
      ctx := Some(number);
      if HasQuorum(env.cfg, {id}) {
        lead := lead.(readCtx := number);
        todo := todo.(confirmed := todo.confirmed + [ReadState(number, vol.commit, floor)]);
        return;
      }
      lead := lead.(readCtx := number, waiting := lead.waiting + [PendingRead(number, vol.commit, {id}, floor)]);
      SendHeartbeats(number);
    }

    /** No follower is told to commit past what it is known to share. */
    method SendHeartbeats(ctx: nat)
      modifies this`todo
      ensures State() == RaftNode.SendHeartbeats(old(State()), Ascending(env.cfg.AllNodes()), ctx)
    {
      hide Ascending, RaftNode.Send, Joined;
      var peers := Ascending(env.cfg.AllNodes());
      assert peers[0..] == peers;
      for i := 0 to |peers|
        invariant RaftNode.SendHeartbeats(old(State()), peers, ctx) == RaftNode.SendHeartbeats(State(), peers[i..], ctx)
      {
        assert peers[i..][1..] == peers[i + 1..];
        Fields();
        if peers[i] != id { SendHeartbeat(peers[i], ctx); }
      }
    }

    method SendHeartbeat(peer: NodeId, ctx: nat)
      modifies this`todo
      ensures var m := old(State());
              var matched := if peer in m.progress then m.progress[peer].matched else 0;
              State() == RaftNode.Send(m, peer, HeartbeatReq(Min(m.commit, matched), ctx))
    {
      hide RaftNode.Send, Packets;
      var matched := if peer in lead.progress then lead.progress[peer].matched else 0;
      Send(peer, HeartbeatReq(Min(vol.commit, matched), ctx));
    }

    method TransferLeadership(target: NodeId) returns (sent: bool)
      modifies this`todo
      ensures State() == RaftNode.TransferLeadership(env, old(State()), target)
      ensures sent == (vol.role == Leader && target != id && env.cfg.IsVoter(target))
    {
      sent := vol.role == Leader && target != id && env.cfg.IsVoter(target);
      if sent { Send(target, TimeoutNow); }
    }

    method StepDown()
      modifies this
      ensures State() == RaftNode.StepDown(old(State()))
    {
      hide RaftNode.BecomeFollower;
      if vol.role == Leader { BecomeFollower(stable.term, None); }
    }

    // ---- elections --------------------------------------------------------------------------

    /** Section 5.4.1 of the Raft paper, asked of the log that is kept. */
    method IsUpToDate(lastIndex: nat, lastTerm: nat) returns (yes: bool)
      requires Valid()
      ensures yes == UpToDate(log.Whole().full, lastTerm, lastIndex)
    {
      var index := log.LastIndex();
      var term := log.LastTerm();
      yes := lastTerm > term || (lastTerm == term && lastIndex >= index);
    }

    method HandlePreVoteReq(from: NodeId, pollTerm: nat, lastIndex: nat, lastTerm: nat)
      requires Valid()
      modifies this`todo
      ensures State() == RaftNode.HandlePreVoteReq(env, old(State()), from, pollTerm, lastIndex, lastTerm)
    {
      var believes := vol.leader.Some? && poll.elapsed < env.opts.electionTicks;
      var upToDate := IsUpToDate(lastIndex, lastTerm);
      var granted := pollTerm > stable.term && upToDate && !believes;
      Enqueue(from, pollTerm, PreVoteResp(granted));
    }

    method HandlePreVoteResp(from: NodeId, at: nat, granted: bool, draw: nat)
      requires Valid()
      modifies this, log
      ensures Valid() && State() == RaftNode.HandlePreVoteResp(env, old(State()), from, at, granted, draw)
    {
      hide RaftNode.BecomeFollower, RaftNode.Campaign, Tally, Lost;
      if vol.role != PreCandidate {
        return;
      }
      if !granted && at > stable.term + 1 {
        BecomeFollower(at, None);
        return;
      }
      poll := poll.(votes := poll.votes[from := granted]);
      var won := Won();
      var beaten := Beaten();
      if won {
        Campaign(draw);
      } else if beaten {
        vol := vol.(role := Follower);
      }
    }

    method HandleVoteReq(from: NodeId, lastIndex: nat, lastTerm: nat)
      requires Valid()
      modifies this
      ensures State() == RaftNode.HandleVoteReq(old(State()), from, lastIndex, lastTerm)
    {
      hide UpToDate;
      var canVote := stable.vote == None || stable.vote == Some(from);
      var upToDate := IsUpToDate(lastIndex, lastTerm);
      var granted := canVote && upToDate;
      if granted {
        stable := stable.(vote := Some(from));
        todo := todo.(hardDirty := true);
        poll := poll.(elapsed := 0);
      }
      Send(from, VoteResp(granted));
    }

    method HandleVoteResp(from: NodeId, granted: bool)
      requires Valid()
      modifies this, log
      ensures Valid() && State() == RaftNode.HandleVoteResp(env, old(State()), from, granted)
    {
      hide RaftNode.BecomeFollower, RaftNode.BecomeLeader, Tally, Lost;
      if vol.role != Candidate {
        return;
      }
      poll := poll.(votes := poll.votes[from := granted]);
      var won := Won();
      var beaten := Beaten();
      if won {
        BecomeLeader();
      } else if beaten {
        BecomeFollower(stable.term, None);
      }
    }

    // ---- replication handlers ---------------------------------------------------------------

    method Defer(from: NodeId)
      modifies this
      ensures State() == RaftNode.Defer(old(State()), from)
    {
      hide RaftNode.BecomeFollower;
      if vol.role != Follower { BecomeFollower(stable.term, Some(from)); }
      vol := vol.(leader := Some(from));
      poll := poll.(elapsed := 0);
    }

    /** Take over a consistent batch; never commit past what is held, and never keep such an index. */
    method Accept(prev: nat, entries: seq<Entry>, leaderCommit: nat) returns (lastNew: nat)
      requires Valid() && C.Continues(entries, prev) && log.snapshotIndex <= prev <= LastIndex(log.Whole())
      modifies this, log
      ensures Valid() && lastNew == LastNew(prev, entries)
      ensures State() == RaftNode.Accept(old(State()), prev, entries, leaderCommit)
    {
      hide Merge;
      lastNew := log.Merge(prev, entries);
      var last := log.LastIndex();
      if entries != [] { MarkDirty(entries[0].index); }
      if Min(leaderCommit, lastNew) > vol.commit {
        vol := vol.(commit := Min(leaderCommit, lastNew));
        todo := todo.(hardDirty := true);
      }
      if vol.commit > last {
        vol := vol.(commit := last);
        todo := todo.(hardDirty := true);
      }
    }

    method HandleAppend(from: NodeId, prev: nat, prevTerm: nat, entries: seq<Entry>, leaderCommit: nat)
      requires Valid() && C.Continues(entries, prev)
      modifies this, log
      ensures Valid() && State() == RaftNode.HandleAppend(old(State()), from, prev, prevTerm, entries, leaderCommit)
    {
      hide RaftNode.Defer, RaftNode.Accept, FindConflictByTerm, RaftNode.Send;
      Defer(from);
      if prev < log.snapshotIndex {
        Send(from, AppendResp(true, log.snapshotIndex, 0, 0));
        return;
      }
      var t := log.TermAt(prev);
      if t == None {
        var last := log.LastIndex();
        Send(from, AppendResp(false, 0, last + 1, 0));
      } else if t.value != prevTerm {
        var conflict := log.FindConflictByTerm(prev, t.value);
        Send(from, AppendResp(false, 0, conflict, t.value));
      } else {
        var lastNew := Accept(prev, entries, leaderCommit);
        Send(from, AppendResp(true, lastNew, 0, 0));
      }
    }

    method HandleAppendResp(from: NodeId, success: bool, matchIndex: nat, conflictIndex: nat, conflictTerm: nat)
      requires Valid()
      modifies this
      ensures State()
           == RaftNode.HandleAppendResp(env, old(State()), from, success, matchIndex, conflictIndex, conflictTerm)
    {
      hide RaftNode.MaybeAdvanceCommit, RaftNode.SendAppendTo, FindConflictByTerm;
      if vol.role != Leader || from !in lead.progress {
        return;
      }
      var last := log.LastIndex();
      var p := lead.progress[from].(active := true);
      if success {
        if matchIndex >= p.matched {
          p := p.(matched := matchIndex, next := matchIndex + 1, state := Replicate, pendingSnapshot := 0, age := 0);
        }
        lead := lead.(progress := lead.progress[from := p]);
        MaybeAdvanceCommit();
        if p.matched < last { SendAppendTo(from); }
        return;
      }
      var next := Max(conflictIndex, 1);
      if conflictTerm > 0 {
        next := log.FindConflictByTerm(conflictIndex, conflictTerm);
        next := next + 1;
      }
      p := p.(next := Min(Max(next, p.matched + 1), last + 1), state := Probe);
      lead := lead.(progress := lead.progress[from := p]);
      SendAppendTo(from);
    }

    method HandleSnapshot(from: NodeId, c: Carried)
      requires Valid() && Indexed(c.image.prefix)
      modifies this, log
      ensures Valid() && State() == RaftNode.HandleSnapshot(old(State()), from, c.image)
    {
      hide RaftNode.Defer, InstallSnapshot, RaftNode.Send;
      Defer(from);
      var index := c.snapshot.lastIndex;
      if index <= vol.commit {
        Send(from, SnapshotResp(true, vol.commit));
        return;
      }
      log.InstallSnapshot(index, c.snapshot.lastTerm, c.snapshot.config, c.image.prefix);
      var last := log.LastIndex();
      vol := vol.(commit := Max(vol.commit, index), applied := index);
      todo := todo.(hardDirty := true, dirtyFrom := if last > index then Some(index + 1) else None,
                    snapshot := Some(c));
      Send(from, SnapshotResp(true, index));
    }

    method HandleSnapshotResp(from: NodeId, success: bool, index: nat)
      requires Valid()
      modifies this
      ensures State() == RaftNode.HandleSnapshotResp(env, old(State()), from, success, index)
    {
      hide RaftNode.MaybeAdvanceCommit;
      if vol.role != Leader || from !in lead.progress {
        return;
      }
      var p := lead.progress[from].(active := true, pendingSnapshot := 0, age := 0, state := Probe);
      if success {
        var matched := Max(p.matched, index);
        lead := lead.(progress := lead.progress[from := p.(matched := matched, next := matched + 1)]);
        MaybeAdvanceCommit();
      } else {
        lead := lead.(progress := lead.progress[from := p]);
      }
    }

    method HandleHeartbeat(from: NodeId, leaderCommit: nat, ctx: nat)
      requires Valid()
      modifies this
      ensures State() == RaftNode.HandleHeartbeat(old(State()), from, leaderCommit, ctx)
    {
      hide RaftNode.Defer, RaftNode.Send;
      Defer(from);
      var last := log.LastIndex();
      var safe := Min(leaderCommit, last);
      if safe > vol.commit {
        vol := vol.(commit := safe);
        todo := todo.(hardDirty := true);
      }
      Send(from, HeartbeatResp(ctx));
    }

    /** One reply may complete several reads; those leave the queue in order. */
    method HandleHeartbeatResp(from: NodeId, ctx: nat)
      modifies this
      ensures State() == RaftNode.HandleHeartbeatResp(env, old(State()), from, ctx)
    {
      hide HasQuorum, AckReads, Completed, Retain;
      if vol.role != Leader {
        return;
      }
      if from in lead.progress {
        lead := lead.(progress := lead.progress[from := lead.progress[from].(active := true)]);
      }
      var acked, completed := CollectAcks(env, lead.waiting, from, ctx);
      if completed == [] {
        lead := lead.(waiting := acked);
        return;
      }
      var left := DropDone(acked, set r | r in completed :: r.ctx);
      lead := lead.(waiting := left, contact := 0);
      todo := todo.(confirmed := todo.confirmed + completed);
    }

    // ---- any message ------------------------------------------------------------------------

    method Dispatch(from: NodeId, msg: Message<Carried>, draw: nat)
      requires Valid() && Shaped(Meant(msg.body))
      modifies this, log
      ensures Valid() && State() == RaftNode.Dispatch(env, old(State()), from, Sense(msg), draw)
    {
      hide RaftNode.HandlePreVoteReq, RaftNode.HandlePreVoteResp, RaftNode.HandleVoteReq, RaftNode.HandleVoteResp,
           RaftNode.HandleAppend, RaftNode.HandleAppendResp, RaftNode.HandleSnapshot, RaftNode.HandleSnapshotResp,
           RaftNode.HandleHeartbeat, RaftNode.HandleHeartbeatResp, RaftNode.Campaign;
      match msg.body {
        case PreVoteReq(lastIndex, lastTerm) => HandlePreVoteReq(from, msg.term, lastIndex, lastTerm);
        case PreVoteResp(granted) => HandlePreVoteResp(from, msg.term, granted, draw);
        case VoteReq(lastIndex, lastTerm) => HandleVoteReq(from, lastIndex, lastTerm);
        case VoteResp(granted) => HandleVoteResp(from, granted);
        case AppendReq(prev, prevTerm, entries, leaderCommit) =>
          HandleAppend(from, prev, prevTerm, entries, leaderCommit);
        case AppendResp(success, matchIndex, conflictIndex, conflictTerm) =>
          HandleAppendResp(from, success, matchIndex, conflictIndex, conflictTerm);
        case SnapshotReq(c) => HandleSnapshot(from, c);
        case SnapshotResp(success, index) => HandleSnapshotResp(from, success, index);
        case HeartbeatReq(leaderCommit, ctx) => HandleHeartbeat(from, leaderCommit, ctx);
        case HeartbeatResp(ctx) => HandleHeartbeatResp(from, ctx);
        case TimeoutNow => if env.cfg.IsVoter(id) { Campaign(draw); }
      }
    }

    /** The term rule, then the message. */
    method Step(from: NodeId, msg: Message<Carried>, draw: nat)
      requires Valid() && Shaped(Meant(msg.body))
      modifies this, log
      ensures Valid() && State() == RaftNode.Step(env, old(State()), from, Sense(msg), draw)
    {
      hide RaftNode.BecomeFollower, RaftNode.Dispatch, RaftNode.Send;
      if msg.term > stable.term && !msg.IsPreVote() {
        BecomeFollower(msg.term, if msg.body.VoteReq? || msg.body.VoteResp? then None else Some(from));
      }
      if msg.term >= stable.term {
        Dispatch(from, msg, draw);
      } else if msg.body.AppendReq? || msg.body.HeartbeatReq? {
        Send(from, AppendResp(false, 0, 0, 0));
      } else if msg.body.PreVoteReq? {
        Send(from, PreVoteResp(false));
      }
    }

    // ---- the driver's half ------------------------------------------------------------------

    /** What must be written again: everything from the watermark on. */
    method Unwritten() returns (dirty: Option<nat>, entries: seq<Entry>)
      requires Valid()
      ensures dirty == TakeReady(State()).0.dirtyFrom && entries == TakeReady(State()).1.entries
    {
      hide Slice, Packets;
      dirty, entries := todo.dirtyFrom, [];
      if dirty.Some? {
        dirty := Some(Max(dirty.value, log.snapshotIndex + 1));
        var last := log.LastIndex();
        entries := log.Slice(dirty.value, last + 1);
      }
    }

    /** What the driver has to do, gathered and forgotten here. */
    method Ready() returns (ready: Work)
      requires Valid()
      modifies this
      ensures State() == TakeReady(old(State())).0 && Delivers(ready, TakeReady(old(State())).1) && todo.queue == []
    {
      hide Slice, LastTermOf, Meant;
      var last := log.LastIndex();
      var dirty, entries := Unwritten();
      var hard: Option<HardState> := None;
      if todo.hardDirty && (stable.term != todo.savedHard.term || stable.vote != todo.savedHard.vote) {
        hard := Some(HardState(stable.term, stable.vote, vol.commit));
      }
      var queue, snapshot, confirmed := todo.queue, todo.snapshot, todo.confirmed;
      todo := todo.(queue := [], snapshot := None, confirmed := [], dirtyFrom := dirty, hardDirty := false);
      vol := vol.(commit := Min(vol.commit, last), persisted := Min(vol.persisted, last));
      var committed: seq<Entry> := [];
      if vol.commit > vol.applied {
        committed := log.Slice(vol.applied + 1, vol.commit + 1);
      }
      var messages := seq(|queue|, i requires 0 <= i < |queue| => (queue[i].to, queue[i].msg));
      ready := Work(hard, entries, snapshot, messages, committed, confirmed);
    }

    /** Where the durable log must be cut before what is new is written. */
    method TruncateTo() returns (from: Option<nat>)
      ensures from == State().dirtyFrom
    {
      from := todo.dirtyFrom;
    }

    /** Whether enough has been applied since the last snapshot. */
    method IsSnapshotDue() returns (yes: bool)
      ensures yes == ShouldSnapshot(env, State())
    {
      var applied, base := vol.applied, log.snapshotIndex;
      yes := (if applied < base then 0 else applied - base) >= env.opts.snapshotInterval;
    }

    method SetPersisted(index: nat)
      requires Valid()
      modifies this`vol
      ensures State() == RaftNode.SetPersisted(old(State()), index)
    {
      var last := log.LastIndex();
      vol := vol.(persisted := Min(index, last));
    }

    /** This node's own progress is what its disk holds. */
    method CountOwn()
      modifies this`lead
      ensures State() == RaftNode.CountOwn(old(State()))
    {
      if id in lead.progress {
        var own := lead.progress[id].(matched := vol.persisted, next := vol.persisted + 1);
        lead := lead.(progress := lead.progress[id := own]);
      }
    }

    method AdvanceWhenLeading()
      requires Valid()
      modifies this`vol, this`lead, this`todo
      ensures State() == AdvanceIfLeader(env, old(State())) && todo.queue == old(todo.queue)
    {
      hide RaftNode.MaybeAdvanceCommit;
      if vol.role == Leader { MaybeAdvanceCommit(); }
    }

    /** Acknowledge that what was handed over has been processed. */
    method Advance(ready: Work, ghost spec: RaftNode.Ready)
      requires Valid() && Delivers(ready, spec)
      modifies this
      ensures State() == RaftNode.Advance(env, old(State()), spec) && todo.queue == old(todo.queue)
    {
      hide AdvanceIfLeader, RaftNode.CountOwn;
      if ready.hard.Some? { todo := todo.(savedHard := ready.hard.value); }
      CountOwn();
      AdvanceWhenLeading();
      if ready.committed != [] { vol := vol.(applied := ready.committed[|ready.committed| - 1].index); }
      todo := todo.(dirtyFrom := None);
    }

    /** The boundary at the applied index with the bytes of the state machine. */
    method SnapshotOf(data: Bytes) returns (c: Option<Carried>)
      requires Valid()
      ensures ImageOf(c) == SnapshotAtApplied(State())
      ensures c.Some? ==> c.value.snapshot.data == data && c.value.snapshot.config == env.cfg
    {
      var t := log.TermAt(vol.applied);
      var last := log.LastIndex();
      if t == None || vol.applied > last {
        return None;
      }
      ghost var image := Image(log.Whole().full[..vol.applied]);
      c := Some(Parcel(Snapshot(vol.applied, t.value, env.cfg, data), image));
    }

    method SendSnapshot(peer: NodeId, c: Carried)
      modifies this`todo, this`lead
      ensures State() == RaftNode.SendSnapshot(old(State()), peer, c.image)
      ensures Queued(old(todo.queue), todo.queue, SnapshotReq(c))
    {
      if peer in lead.progress {
        var p := lead.progress[peer].(pendingSnapshot := c.snapshot.lastIndex, age := 0, state := Snapshotting);
        lead := lead.(progress := lead.progress[peer := p]);
      }
      Send(peer, SnapshotReq(c));
    }

    /** Ship a snapshot to every follower that needs one. */
    method ShipSnapshots(c: Option<Carried>)
      requires ImageOf(c) == SnapshotAtApplied(State())
      modifies this`todo, this`lead
      ensures State() == RaftNode.ShipSnapshots(old(State()))
      ensures forall e :: e in todo.queue && e !in old(todo.queue) ==> c.Some? && e.msg.body == SnapshotReq(c.value)
    {
      hide Ascending, NeedSnapshot, SendSnapshots;
      if vol.role != Leader {
        return;
      }
      if c.Some? {
        var progress := lead.progress;
        var behind := set n |
          n in progress && n != id && progress[n].state == Snapshotting && progress[n].pendingSnapshot == 0;
        WhoIsBehind(State(), behind);
        ShipTo(Ascending(behind), c.value);
      }
    }

    method ShipTo(needy: seq<NodeId>, c: Carried)
      modifies this`todo, this`lead
      ensures State() == SendSnapshots(old(State()), needy, c.image)
      ensures forall e :: e in todo.queue && e !in old(todo.queue) ==> e.msg.body == SnapshotReq(c)
    {
      hide RaftNode.SendSnapshot, Joined;
      assert needy[0..] == needy;
      for i := 0 to |needy|
        invariant SendSnapshots(old(State()), needy, c.image) == SendSnapshots(State(), needy[i..], c.image)
        invariant forall e :: e in todo.queue && e !in old(todo.queue) ==> e.msg.body == SnapshotReq(c)
      {
        assert needy[i..][1..] == needy[i + 1..];
        ghost var before := todo.queue;
        SendSnapshot(needy[i], c);
        assert todo.queue == before + [todo.queue[|before|]];
      }
    }

    method Compact(c: Carried)
      requires Valid()
      requires |c.image.prefix| > log.snapshotIndex ==>
                 TermAt(log.Whole(), |c.image.prefix|) == Some(LastTermOf(c.image.prefix))
      modifies log
      ensures Valid() && State() == RaftNode.Compact(old(State()), c.image)
    {
      log.CompactThrough(c.snapshot.lastIndex, c.snapshot.lastTerm, c.snapshot.config);
    }
  }

  lemma WhoIsBehind(m: Raft, behind: set<NodeId>)
    requires forall n :: n in behind <==>
               n in m.progress && n != m.id && m.progress[n].state == Snapshotting && m.progress[n].pendingSnapshot == 0
    ensures behind == NeedSnapshot(m)
  {
  }

  /** Cut a batch to the byte budget; one entry always goes. */
  method FitBudget(entries: seq<Entry>, budget: nat) returns (cut: nat)
    ensures cut == ByteCut(entries, 0, 0, budget)
    ensures cut <= |entries| && (entries != [] ==> cut > 0)
  {
    hide EntryBytes;
    var bytes: nat := 0;
    for i := 0 to |entries|
      invariant ByteCut(entries, 0, 0, budget) == ByteCut(entries, i, bytes, budget)
    {
      bytes := bytes + |EntryBytes(entries[i])|;
      if bytes > budget && i > 0 {
        return i;
      }
    }
    cut := |entries|;
  }

  /** The loop over the waiting reads: note the acknowledgement, collect what it completes. */
  method CollectAcks(env: Env, waiting: seq<PendingRead>, from: NodeId, ctx: nat)
    returns (acked: seq<PendingRead>, completed: seq<ReadState>)
    ensures acked == AckReads(waiting, from, ctx) && completed == Completed(env, acked, ctx)
  {
    hide HasQuorum;
    acked, completed := [], [];
    assert waiting[0..] == waiting;
    for i := 0 to |waiting|
      invariant AckReads(waiting, from, ctx) == acked + AckReads(waiting[i..], from, ctx)
      invariant Completed(env, AckReads(waiting, from, ctx), ctx)
             == completed + Completed(env, AckReads(waiting[i..], from, ctx), ctx)
    {
      var r := AckRead(waiting[i], from, ctx);
      assert waiting[i..][0] == waiting[i] && waiting[i..][1..] == waiting[i + 1..];
      var rest := AckReads(waiting[i + 1..], from, ctx);
      assert ([r] + rest)[1..] == rest;
      assert acked + ([r] + rest) == (acked + [r]) + rest;
      acked := acked + [r];
      if (r.ctx == ctx || ctx == 0) && HasQuorum(env.cfg, r.acks) {
        var one := [ReadState(r.ctx, r.index, r.floor)];
        assert completed + (one + Completed(env, rest, ctx)) == (completed + one) + Completed(env, rest, ctx);
        completed := completed + one;
      }
    }
    assert waiting[|waiting|..] == [] && acked + [] == acked && completed + [] == completed;
  }

  method DropDone(acked: seq<PendingRead>, done: set<nat>) returns (left: seq<PendingRead>)
    ensures left == Retain(acked, done)
  {
    left := [];
    assert acked[0..] == acked;
    for i := 0 to |acked|
      invariant Retain(acked, done) == left + Retain(acked[i..], done)
    {
      assert acked[i..][0] == acked[i] && acked[i..][1..] == acked[i + 1..];
      if acked[i].ctx !in done {
        var rest := Retain(acked[i + 1..], done);
        assert left + ([acked[i]] + rest) == (left + [acked[i]]) + rest;
        left := left + [acked[i]];
      }
    }
    assert acked[|acked|..] == [] && left + [] == left;
  }
}
