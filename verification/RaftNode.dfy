/** One Raft node as a value, and every transition of crates/chronolog/src/raft.rs as a function
    on that value. `RaftMachine` holds the same transitions as updates of an object. */
module RaftNode {
  import opened Types
  import opened Quorum
  import opened RaftLog
  import opened EntryCodec

  datatype Options = Options(
    electionTicks: nat, heartbeatTicks: nat, maxEntries: nat, maxBytes: nat,
    preVote: bool, snapshotInterval: nat)

  /** What every node of one cluster shares. */
  datatype Env = Env(cfg: Config, opts: Options)

  datatype Role = Follower | PreCandidate | Candidate | Leader

  datatype ProgressState = Probe | Replicate | Snapshotting

  datatype Progress = Progress(
    next: nat, matched: nat, state: ProgressState, pendingSnapshot: nat, age: nat, active: bool)

  /** A snapshot, represented by the log prefix whose state-machine image it carries. */
  datatype Image = Image(prefix: seq<Entry>)

  /** A message in flight. `origin` is history: the sender's log when the message was queued. No
      transition reads it. */
  datatype Packet = Packet(src: NodeId, dst: NodeId, msg: Message<Image>, origin: seq<Entry>)

  /** A read waiting for leadership to be confirmed. `floor` is history: the highest commit index any
      node held when the read began. No transition reads it. */
  datatype PendingRead = PendingRead(ctx: nat, index: nat, acks: set<NodeId>, floor: nat)

  datatype ReadState = ReadState(ctx: nat, index: nat, floor: nat)

  /** Work queued for the driver since the last `Ready`. */
  datatype Outbox = Outbox(messages: seq<Packet>, snapshot: Option<Image>, confirmed: seq<ReadState>)

  datatype Clock = Clock(election: nat, heartbeat: nat, timeout: nat, contact: nat)

  datatype Raft = Raft(
    id: NodeId,
    term: nat,
    vote: Option<NodeId>,
    log: Log,
    commit: nat,
    applied: nat,
    persisted: nat,
    role: Role,
    leader: Option<NodeId>,
    votes: map<NodeId, bool>,
    progress: map<NodeId, Progress>,
    waiting: seq<PendingRead>,
    readCtx: nat,
    committedOwn: bool,
    out: Outbox,
    hardDirty: bool,
    savedHard: HardState,
    dirtyFrom: Option<nat>,
    clock: Clock)

  datatype Ready = Ready(
    hard: Option<HardState>,
    entries: seq<Entry>,
    snapshot: Option<Image>,
    messages: seq<Packet>,
    committed: seq<Entry>,
    confirmed: seq<ReadState>)

  function EmptyOutbox(): Outbox {
    Outbox([], None, [])
  }

  function Fresh(env: Env, id: NodeId): Raft {
    Raft(id, 0, None, Log([], 0), 0, 0, 0, Follower, None, map[], map[], [], 0, false,
         EmptyOutbox(), false, HardState(0, None, 0), None, Clock(0, 0, env.opts.electionTicks, 0))
  }

  // ---- small pieces ----------------------------------------------------------------

  function Enqueue(m: Raft, to: NodeId, term: nat, body: Body<Image>): Raft {
    m.(out := m.out.(messages := m.out.messages + [Packet(m.id, to, Message(term, body), m.log.full)]))
  }

  function Send(m: Raft, to: NodeId, body: Body<Image>): Raft {
    Enqueue(m, to, m.term, body)
  }

  /** Queue one message for every peer of a list but this node. */
  function EnqueueAll(m: Raft, peers: seq<NodeId>, term: nat, body: Body<Image>): Raft
    decreases |peers|
  {
    if peers == [] then m
    else EnqueueAll(if peers[0] == m.id then m else Enqueue(m, peers[0], term, body), peers[1..], term, body)
  }

  function MarkDirty(m: Raft, index: nat): Raft {
    m.(dirtyFrom := match m.dirtyFrom
                    case Some(existing) => Some(Min(existing, index))
                    case None => Some(index))
  }

  function AppendOwn(m: Raft, kind: EntryKind): Raft {
    var index := LastIndex(m.log) + 1;
    var m := MarkDirty(m, index);
    m.(log := Append(m.log, [Entry(m.term, index, kind)]))
  }

  function HardStateOf(m: Raft): HardState {
    HardState(m.term, m.vote, m.commit)
  }

  predicate Promotable(env: Env, m: Raft) {
    env.cfg.IsVoter(m.id)
  }

  function Granted(m: Raft): set<NodeId> {
    set v | v in m.votes && m.votes[v]
  }

  function Refused(m: Raft): set<NodeId> {
    set v | v in m.votes && !m.votes[v]
  }

  predicate Tally(env: Env, m: Raft) {
    HasQuorum(env.cfg, Granted(m))
  }

  predicate Lost(env: Env, m: Raft) {
    HasQuorum(env.cfg, Refused(m))
  }

  // ---- replication -----------------------------------------------------------------

  /** How many entries fit the byte budget; the first always does. */
  function ByteCut(entries: seq<Entry>, i: nat, bytes: nat, budget: nat): (cut: nat)
    requires i <= |entries|
    ensures cut <= |entries|
    decreases |entries| - i
  {
    if i == |entries| then i
    else if bytes + |EntryBytes(entries[i])| > budget && i > 0 then i
    else ByteCut(entries, i + 1, bytes + |EntryBytes(entries[i])|, budget)
  }

  function AppendFor(env: Env, m: Raft, next: nat): Body<Image>
    requires 0 < next && next - 1 <= |m.log.full|
  {
    var to := Min(next + env.opts.maxEntries, LastIndex(m.log) + 1);
    var slice := Slice(m.log, next, to);
    AppendReq(next - 1, TermOf(m.log.full, next - 1), slice[..ByteCut(slice, 0, 0, env.opts.maxBytes)], m.commit)
  }

  function SendAppendTo(env: Env, m: Raft, peer: NodeId): Raft {
    if peer !in m.progress then m
    else
      var p := m.progress[peer];
      if p.state == Snapshotting && p.pendingSnapshot > 0 then m
      else if FirstIndex(m.log) <= p.next && p.next - 1 <= |m.log.full|
      then Send(m, peer, AppendFor(env, m, p.next))
      else m.(progress := m.progress[peer := p.(state := Snapshotting)])
  }

  function SendAppends(env: Env, m: Raft, peers: seq<NodeId>): Raft
    decreases |peers|
  {
    if peers == [] then m
    else SendAppends(env, if peers[0] == m.id then m else SendAppendTo(env, m, peers[0]), peers[1..])
  }

  function BroadcastAppend(env: Env, m: Raft): Raft {
    SendAppends(env, m, Ascending(env.cfg.AllNodes()))
  }

  /** The durable index of this node and the acknowledged index of every other. */
  function MatchedBy(m: Raft): NodeId -> nat {
    (id: NodeId) =>
      if id == m.id then m.persisted else if id in m.progress then m.progress[id].matched else 0
  }

  /** Section 5.4.2 of the Raft paper: advance only through an entry of the current term. */
  function MaybeAdvanceCommit(env: Env, m: Raft): Raft {
    var candidate := QuorumIndex(env.cfg, MatchedBy(m));
    if candidate <= m.commit || TermAt(m.log, candidate) != Some(m.term) then m
    else m.(commit := candidate, committedOwn := true, hardDirty := true, clock := m.clock.(contact := 0))
  }

  // ---- role transitions ------------------------------------------------------------

  function BecomeFollower(m: Raft, term: nat, leader: Option<NodeId>): Raft {
    var m := if term > m.term then m.(term := term, vote := None, hardDirty := true) else m;
    m.(role := Follower, leader := leader, clock := m.clock.(election := 0), votes := map[],
       progress := map[], waiting := [], committedOwn := false)
  }

  function NewProgress(next: nat): Progress {
    Progress(next, 0, Probe, 0, 0, false)
  }

  function ResetProgress(env: Env, m: Raft): Raft {
    var next := LastIndex(m.log) + 1;
    m.(progress := map id | id in env.cfg.AllNodes() ::
         var p := if id in m.progress then m.progress[id] else NewProgress(next);
         if id == m.id then p.(matched := m.persisted, next := m.persisted + 1, state := Replicate, active := true)
         else p)
  }

  /** Role and progress of a new leader, before it appends its no-op. */
  function TakeLeadership(env: Env, m: Raft): Raft {
    ResetProgress(env,
      m.(role := Leader, leader := Some(m.id), clock := m.clock.(heartbeat := 0, election := 0, contact := 0),
         committedOwn := false, waiting := []))
  }

  function BecomeLeader(env: Env, m: Raft): Raft {
    BroadcastAppend(env, AppendOwn(TakeLeadership(env, m), Noop))
  }

  function NewTimeout(env: Env, m: Raft, draw: nat): Raft {
    m.(clock := m.clock.(timeout := env.opts.electionTicks + draw % Max(env.opts.electionTicks, 1), election := 0),
       votes := map[])
  }

  /** A candidate of the next term that has voted for itself. */
  function Stand(env: Env, m: Raft, draw: nat): Raft {
    var m := NewTimeout(env, m, draw);
    m.(role := Candidate, term := m.term + 1, vote := Some(m.id), leader := None, hardDirty := true,
       votes := map[m.id := true])
  }

  function Campaign(env: Env, m: Raft, draw: nat): Raft {
    var m := Stand(env, m, draw);
    if Tally(env, m) then BecomeLeader(env, m)
    else EnqueueAll(m, Ascending(env.cfg.AllNodes()), m.term, VoteReq(LastIndex(m.log), LastTerm(m.log)))
  }

  /** Poll for support at the next term without adopting it. */
  function PreCampaign(env: Env, m: Raft, draw: nat): Raft {
    var m := NewTimeout(env, m, draw).(role := PreCandidate, votes := map[m.id := true]);
    if Tally(env, m) then Campaign(env, m, draw)
    else EnqueueAll(m, Ascending(env.cfg.AllNodes()), m.term + 1, PreVoteReq(LastIndex(m.log), LastTerm(m.log)))
  }

  function StartElection(env: Env, m: Raft, draw: nat): Raft {
    if env.opts.preVote then PreCampaign(env, m, draw) else Campaign(env, m, draw)
  }

  // ---- the clock -------------------------------------------------------------------

  function CheckQuorum(env: Env, m: Raft): Raft {
    var active := set id | id in m.progress && (m.progress[id].active || id == m.id);
    var m := m.(progress := map id | id in m.progress :: m.progress[id].(active := false));
    if HasQuorum(env.cfg, active) then m.(clock := m.clock.(contact := 0))
    else BecomeFollower(m, m.term, None)
  }

  predicate Expired(env: Env, p: Progress) {
    p.pendingSnapshot != 0 && p.age + 1 > Max(env.opts.electionTicks, 1)
  }

  function Aged(env: Env, p: Progress): Progress {
    if p.pendingSnapshot == 0 then p
    else if Expired(env, p) then p.(pendingSnapshot := 0, age := 0, state := Probe)
    else p.(age := p.age + 1)
  }

  function SendAppendsAll(env: Env, m: Raft, peers: seq<NodeId>): Raft
    decreases |peers|
  {
    if peers == [] then m else SendAppendsAll(env, SendAppendTo(env, m, peers[0]), peers[1..])
  }

  function ExpirePendingSnapshots(env: Env, m: Raft): Raft {
    var retry := set id | id in m.progress && Expired(env, m.progress[id]);
    var m := m.(progress := map id | id in m.progress :: Aged(env, m.progress[id]));
    SendAppendsAll(env, m, Ascending(retry))
  }

  function LeaderTick(env: Env, m: Raft): Raft {
    var m := m.(clock := m.clock.(heartbeat := m.clock.heartbeat + 1, contact := m.clock.contact + 1));
    var m := if m.clock.heartbeat >= env.opts.heartbeatTicks
             then BroadcastAppend(env, m.(clock := m.clock.(heartbeat := 0))) else m;
    var m := if m.clock.election >= env.opts.electionTicks
             then CheckQuorum(env, m.(clock := m.clock.(election := 0))) else m;
    ExpirePendingSnapshots(env, m)
  }

  function Tick(env: Env, m: Raft, draw: nat): Raft {
    var m := m.(clock := m.clock.(election := m.clock.election + 1));
    if m.role == Leader then LeaderTick(env, m)
    else if Promotable(env, m) && m.clock.election >= m.clock.timeout then StartElection(env, m, draw)
    else m
  }

  // ---- client inputs ---------------------------------------------------------------

  function Propose(env: Env, m: Raft, data: Bytes): Raft {
    if m.role != Leader then m else BroadcastAppend(env, AppendOwn(m, Normal(data)))
  }

  function SendHeartbeats(m: Raft, peers: seq<NodeId>, ctx: nat): Raft
    decreases |peers|
  {
    if peers == [] then m
    else
      var matched := if peers[0] in m.progress then m.progress[peers[0]].matched else 0;
      SendHeartbeats(if peers[0] == m.id then m else Send(m, peers[0], HeartbeatReq(Min(m.commit, matched), ctx)),
                     peers[1..], ctx)
  }

  /** A leader that can answer alone answers at once. */
  function Answered(m: Raft, floor: nat): Raft {
    m.(readCtx := m.readCtx + 1,
       out := m.out.(confirmed := m.out.confirmed + [ReadState(m.readCtx + 1, m.commit, floor)]))
  }

  /** A leader that has noted a read and not yet asked its peers. */
  function Waiting(m: Raft, floor: nat): Raft {
    m.(readCtx := m.readCtx + 1, waiting := m.waiting + [PendingRead(m.readCtx + 1, m.commit, {m.id}, floor)])
  }

  /** Begin a linearizable read; the cluster supplies the history argument `floor`. */
  function ReadIndex(env: Env, m: Raft, floor: nat): Raft {
    if m.role != Leader || !m.committedOwn then m
    else if HasQuorum(env.cfg, {m.id}) then Answered(m, floor)
    else SendHeartbeats(Waiting(m, floor), Ascending(env.cfg.AllNodes()), m.readCtx + 1)
  }

  function TransferLeadership(env: Env, m: Raft, target: NodeId): Raft {
    if m.role != Leader || target == m.id || !env.cfg.IsVoter(target) then m
    else Send(m, target, TimeoutNow)
  }

  function StepDown(m: Raft): Raft {
    if m.role == Leader then BecomeFollower(m, m.term, None) else m
  }

  // ---- elections -------------------------------------------------------------------

  function HandlePreVoteReq(env: Env, m: Raft, from: NodeId, pollTerm: nat, lastIndex: nat, lastTerm: nat): Raft {
    var believes := m.leader.Some? && m.clock.election < env.opts.electionTicks;
    var granted := pollTerm > m.term && UpToDate(m.log.full, lastTerm, lastIndex) && !believes;
    Enqueue(m, from, pollTerm, PreVoteResp(granted))
  }

  function HandlePreVoteResp(env: Env, m: Raft, from: NodeId, term: nat, granted: bool, draw: nat): Raft {
    if m.role != PreCandidate then m
    else if !granted && term > m.term + 1 then BecomeFollower(m, term, None)
    else
      var m := m.(votes := m.votes[from := granted]);
      if Tally(env, m) then Campaign(env, m, draw)
      else if Lost(env, m) then m.(role := Follower)
      else m
  }

  predicate CanVote(m: Raft, from: NodeId) {
    m.vote == None || m.vote == Some(from)
  }

  function Grant(m: Raft, from: NodeId): Raft {
    m.(vote := Some(from), hardDirty := true, clock := m.clock.(election := 0))
  }

  function HandleVoteReq(m: Raft, from: NodeId, lastIndex: nat, lastTerm: nat): Raft {
    if CanVote(m, from) && UpToDate(m.log.full, lastTerm, lastIndex)
    then Send(Grant(m, from), from, VoteResp(true))
    else Send(m, from, VoteResp(false))
  }

  function HandleVoteResp(env: Env, m: Raft, from: NodeId, granted: bool): Raft {
    if m.role != Candidate then m
    else
      var m := m.(votes := m.votes[from := granted]);
      if Tally(env, m) then BecomeLeader(env, m)
      else if Lost(env, m) then BecomeFollower(m, m.term, None)
      else m
  }

  // ---- replication handlers ----------------------------------------------------------

  /** A live leader at this term: follow it, and wait for it afresh. */
  function Defer(m: Raft, from: NodeId): Raft {
    var m := if m.role != Follower then BecomeFollower(m, m.term, Some(from)) else m;
    m.(leader := Some(from), clock := m.clock.(election := 0))
  }

  function RaiseCommit(m: Raft, commit: nat): Raft {
    if commit > m.commit then m.(commit := commit, hardDirty := true) else m
  }

  function ClampCommit(m: Raft): Raft {
    if m.commit > LastIndex(m.log) then m.(commit := LastIndex(m.log), hardDirty := true) else m
  }

  function MergeEntries(m: Raft, entries: seq<Entry>): Raft {
    var m := m.(log := Merge(m.log, entries));
    if entries == [] then m else MarkDirty(m, entries[0].index)
  }

  /** The log, commit index and watermark after accepting a consistent append. */
  function Accept(m: Raft, prev: nat, entries: seq<Entry>, leaderCommit: nat): Raft {
    ClampCommit(RaiseCommit(MergeEntries(m, entries), Min(leaderCommit, LastNew(prev, entries))))
  }

  function HandleAppend(m: Raft, from: NodeId, prev: nat, prevTerm: nat, entries: seq<Entry>, commit: nat): Raft {
    var m := Defer(m, from);
    if prev < m.log.base then Send(m, from, AppendResp(true, m.log.base, 0, 0))
    else match TermAt(m.log, prev)
      case Some(t) =>
        if t == prevTerm then
          Send(Accept(m, prev, entries, commit), from, AppendResp(true, LastNew(prev, entries), 0, 0))
        else Send(m, from, AppendResp(false, 0, FindConflictByTerm(m.log, prev, t), t))
      case None => Send(m, from, AppendResp(false, 0, LastIndex(m.log) + 1, 0))
  }

  function Acknowledged(p: Progress, matchIndex: nat): Progress {
    if matchIndex >= p.matched
    then p.(matched := matchIndex, next := matchIndex + 1, state := Replicate, pendingSnapshot := 0, age := 0)
    else p
  }

  function HandleAppendResp(env: Env, m: Raft, from: NodeId, success: bool, matchIndex: nat,
                            conflictIndex: nat, conflictTerm: nat): Raft {
    if m.role != Leader || from !in m.progress then m
    else
      var last := LastIndex(m.log);
      var p := m.progress[from].(active := true);
      if success then
        var p := Acknowledged(p, matchIndex);
        var m := MaybeAdvanceCommit(env, m.(progress := m.progress[from := p]));
        if p.matched < last then SendAppendTo(env, m, from) else m
      else
        var next := if conflictTerm > 0 then FindConflictByTerm(m.log, conflictIndex, conflictTerm) + 1
                    else Max(conflictIndex, 1);
        var p := p.(next := Min(Max(next, p.matched + 1), last + 1), state := Probe);
        SendAppendTo(env, m.(progress := m.progress[from := p]), from)
  }

  /** The node after replacing or compacting its log with a snapshot it does not cover yet. */
  function Install(m: Raft, image: Image): Raft {
    var index := |image.prefix|;
    var m := m.(log := InstallSnapshot(m.log, image.prefix), commit := Max(m.commit, index), applied := index,
                hardDirty := true);
    m.(dirtyFrom := if LastIndex(m.log) > index then Some(index + 1) else None,
       out := m.out.(snapshot := Some(image)))
  }

  function HandleSnapshot(m: Raft, from: NodeId, image: Image): Raft {
    var m := Defer(m, from);
    if |image.prefix| <= m.commit then Send(m, from, SnapshotResp(true, m.commit))
    else Send(Install(m, image), from, SnapshotResp(true, |image.prefix|))
  }

  function HandleSnapshotResp(env: Env, m: Raft, from: NodeId, success: bool, index: nat): Raft {
    if m.role != Leader || from !in m.progress then m
    else
      var p := m.progress[from].(active := true, pendingSnapshot := 0, age := 0, state := Probe);
      if success then
        var matched := Max(p.matched, index);
        MaybeAdvanceCommit(env, m.(progress := m.progress[from := p.(matched := matched, next := matched + 1)]))
      else m.(progress := m.progress[from := p])
  }

  function LearnCommit(m: Raft, commit: nat): Raft {
    RaiseCommit(m, Min(commit, LastIndex(m.log)))
  }

  function HandleHeartbeat(m: Raft, from: NodeId, commit: nat, ctx: nat): Raft {
    Send(LearnCommit(Defer(m, from), commit), from, HeartbeatResp(ctx))
  }

  function AckRead(r: PendingRead, from: NodeId, ctx: nat): PendingRead {
    if r.ctx == ctx || ctx == 0 then r.(acks := r.acks + {from}) else r
  }

  function AckReads(pending: seq<PendingRead>, from: NodeId, ctx: nat): (r: seq<PendingRead>) {
    if pending == [] then [] else [AckRead(pending[0], from, ctx)] + AckReads(pending[1..], from, ctx)
  }

  /** The reads a reply completes, in order. */
  function Completed(env: Env, pending: seq<PendingRead>, ctx: nat): (r: seq<ReadState>) {
    if pending == [] then []
    else
      var rest := Completed(env, pending[1..], ctx);
      if (pending[0].ctx == ctx || ctx == 0) && HasQuorum(env.cfg, pending[0].acks)
      then [ReadState(pending[0].ctx, pending[0].index, pending[0].floor)] + rest
      else rest
  }

  function Retain(pending: seq<PendingRead>, done: set<nat>): (r: seq<PendingRead>) {
    if pending == [] then []
    else if pending[0].ctx in done then Retain(pending[1..], done)
    else [pending[0]] + Retain(pending[1..], done)
  }

  function HandleHeartbeatResp(env: Env, m: Raft, from: NodeId, ctx: nat): Raft {
    if m.role != Leader then m
    else
      var m := if from in m.progress
               then m.(progress := m.progress[from := m.progress[from].(active := true)]) else m;
      var acked := AckReads(m.waiting, from, ctx);
      var completed := Completed(env, acked, ctx);
      if completed == [] then m.(waiting := acked)
      else m.(waiting := Retain(acked, set r | r in completed :: r.ctx),
              out := m.out.(confirmed := m.out.confirmed + completed),
              clock := m.clock.(contact := 0))
  }

  // ---- any message -------------------------------------------------------------------

  /** The term rule: anything newer that is not a poll makes this node a follower. */
  function ObserveTerm(m: Raft, from: NodeId, msg: Message<Image>): Raft {
    if msg.term > m.term && !msg.IsPreVote() then
      BecomeFollower(m, msg.term, if msg.body.VoteReq? || msg.body.VoteResp? then None else Some(from))
    else m
  }

  function AnswerStale(m: Raft, from: NodeId, body: Body<Image>): Raft {
    if body.AppendReq? || body.HeartbeatReq? then Send(m, from, AppendResp(false, 0, 0, 0))
    else if body.PreVoteReq? then Send(m, from, PreVoteResp(false))
    else m
  }

  function Dispatch(env: Env, m: Raft, from: NodeId, msg: Message<Image>, draw: nat): Raft {
    match msg.body
    case PreVoteReq(lastIndex, lastTerm) => HandlePreVoteReq(env, m, from, msg.term, lastIndex, lastTerm)
    case PreVoteResp(granted) => HandlePreVoteResp(env, m, from, msg.term, granted, draw)
    case VoteReq(lastIndex, lastTerm) => HandleVoteReq(m, from, lastIndex, lastTerm)
    case VoteResp(granted) => HandleVoteResp(env, m, from, granted)
    case AppendReq(prev, prevTerm, entries, commit) => HandleAppend(m, from, prev, prevTerm, entries, commit)
    case AppendResp(success, matchIndex, conflictIndex, conflictTerm) =>
      HandleAppendResp(env, m, from, success, matchIndex, conflictIndex, conflictTerm)
    case SnapshotReq(image) => HandleSnapshot(m, from, image)
    case SnapshotResp(success, index) => HandleSnapshotResp(env, m, from, success, index)
    case HeartbeatReq(commit, ctx) => HandleHeartbeat(m, from, commit, ctx)
    case HeartbeatResp(ctx) => HandleHeartbeatResp(env, m, from, ctx)
    case TimeoutNow => if Promotable(env, m) then Campaign(env, m, draw) else m
  }

  function Step(env: Env, m: Raft, from: NodeId, msg: Message<Image>, draw: nat): Raft {
    var m := ObserveTerm(m, from, msg);
    if msg.term < m.term then AnswerStale(m, from, msg.body) else Dispatch(env, m, from, msg, draw)
  }

  // ---- the driver's half ---------------------------------------------------------------

  function TakeReady(m: Raft): (Raft, Ready) {
    var dirty := if m.dirtyFrom.Some? then Some(Max(m.dirtyFrom.value, FirstIndex(m.log))) else None;
    var entries := if dirty.Some? then EntriesFrom(m.log, dirty.value) else [];
    var hs := HardStateOf(m);
    var hard := if m.hardDirty && (hs.term != m.savedHard.term || hs.vote != m.savedHard.vote)
                then Some(hs) else None;
    var commit := Min(m.commit, LastIndex(m.log));
    var committed := if commit > m.applied then Slice(m.log, m.applied + 1, commit + 1) else [];
    (m.(out := EmptyOutbox(), dirtyFrom := dirty, hardDirty := false, commit := commit,
        persisted := Min(m.persisted, LastIndex(m.log))),
     Ready(hard, entries, m.out.snapshot, m.out.messages, committed, m.out.confirmed))
  }

  function SetPersisted(m: Raft, index: nat): Raft {
    m.(persisted := Min(index, LastIndex(m.log)))
  }

  function NoteSaved(m: Raft, ready: Ready): Raft {
    if ready.hard.Some? then m.(savedHard := ready.hard.value) else m
  }

  /** A leader's own durable index counts towards its quorum. */
  function CountOwn(m: Raft): Raft {
    if m.id in m.progress
    then m.(progress := m.progress[m.id := m.progress[m.id].(matched := m.persisted, next := m.persisted + 1)])
    else m
  }

  function AdvanceIfLeader(env: Env, m: Raft): Raft {
    if m.role == Leader then MaybeAdvanceCommit(env, m) else m
  }

  function NoteApplied(m: Raft, committed: seq<Entry>): Raft {
    if committed != [] then m.(applied := committed[|committed| - 1].index) else m
  }

  function Advance(env: Env, m: Raft, ready: Ready): Raft {
    NoteApplied(AdvanceIfLeader(env, CountOwn(NoteSaved(m, ready))), ready.committed).(dirtyFrom := None)
  }

  /** The snapshot boundary at the applied index, if the log still knows its term. */
  function SnapshotAtApplied(m: Raft): Option<Image> {
    if TermAt(m.log, m.applied).Some? && m.applied <= |m.log.full| then Some(Image(m.log.full[..m.applied])) else None
  }

  function SendSnapshot(m: Raft, peer: NodeId, image: Image): Raft {
    var m := if peer in m.progress
             then m.(progress := m.progress[peer := m.progress[peer].(
                       pendingSnapshot := |image.prefix|, age := 0, state := Snapshotting)])
             else m;
    Send(m, peer, SnapshotReq(image))
  }

  function SendSnapshots(m: Raft, peers: seq<NodeId>, image: Image): Raft
    decreases |peers|
  {
    if peers == [] then m else SendSnapshots(SendSnapshot(m, peers[0], image), peers[1..], image)
  }

  function NeedSnapshot(m: Raft): set<NodeId> {
    set id |
      id in m.progress && id != m.id && m.progress[id].state == Snapshotting && m.progress[id].pendingSnapshot == 0
  }

  /** A snapshot for every follower whose next entry has been compacted away. */
  function ShipSnapshots(m: Raft): Raft {
    if m.role != Leader then m
    else match SnapshotAtApplied(m)
      case Some(image) => SendSnapshots(m, Ascending(NeedSnapshot(m)), image)
      case None => m
  }

  predicate ShouldSnapshot(env: Env, m: Raft) {
    (if m.applied < m.log.base then 0 else m.applied - m.log.base) >= env.opts.snapshotInterval
  }

  function Compact(m: Raft, image: Image): Raft {
    m.(log := CompactThrough(m.log, |image.prefix|))
  }

  /** The node that starts again from a hard state and a log. */
  function Restored(env: Env, id: NodeId, hard: HardState, log: Log): Raft {
    var commit := Max(Min(hard.commit, LastIndex(log)), log.base);
    Fresh(env, id).(
      term := hard.term, vote := hard.vote, log := log, commit := commit, applied := log.base,
      persisted := LastIndex(log), savedHard := HardState(hard.term, hard.vote, commit))
  }
}
