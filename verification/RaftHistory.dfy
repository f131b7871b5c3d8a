/** What has happened in a cluster so far, and what its past implies.

    A `History` only grows, except that a crash forgets leaderships nobody has heard of. It is the
    part of the safety argument that no single node can see: who led which term and with what log,
    every message sent, and every acknowledgement made durable. Leader Completeness (section 5.4 of
    the Raft paper) is a consequence of a consistent history alone. */
module RaftHistory {
  import opened Types
  import opened Quorum
  import opened RaftLog
  import opened RaftNode

  /** The leadership of one term: the log it was elected with is `log[..start]`, `commit` is the
      highest index its leader has declared committed, and `durable` says the term has reached the
      leader's disk. */
  datatype Lead = Lead(leader: NodeId, voters: set<NodeId>, start: nat, log: seq<Entry>, commit: nat, durable: bool)

  /** `node` has told the leader of `term`, durably, that it holds its log through `index`. */
  datatype Ack = Ack(node: NodeId, term: nat, index: nat)

  /** `asked` maps the term and context of each linearizable read to the nodes whose durable term
      had already passed that term when the read began. */
  datatype History = History(
    led: map<nat, Lead>, net: set<Packet>, acks: set<Ack>, asked: map<(nat, nat), set<NodeId>>)

  // ---- logs -----------------------------------------------------------------------

  /** The prefix of `s` ending at position `i` is the prefix of the log of the leader that made
      entry `i`. */
  ghost predicate RootedAt(h: History, s: seq<Entry>, i: int) {
    && 0 <= i < |s|
    && s[i].term in h.led
    && i < |h.led[s[i].term].log|
    && h.led[s[i].term].log[..i + 1] == s[..i + 1]
  }

  ghost predicate Rooted(h: History, s: seq<Entry>) {
    forall i {:trigger RootedAt(h, s, i)} :: 0 <= i < |s| ==> RootedAt(h, s, i)
  }

  /** The leadership entry `i` of `s` rests on is known to a disk, or is `n`'s own. */
  ghost predicate OwnedAt(h: History, n: NodeId, s: seq<Entry>, i: int) {
    && 0 <= i < |s| && s[i].term in h.led
    && (h.led[s[i].term].durable || h.led[s[i].term].leader == n)
  }

  ghost predicate Owned(h: History, n: NodeId, s: seq<Entry>) {
    forall i {:trigger OwnedAt(h, n, s, i)} :: 0 <= i < |s| ==> OwnedAt(h, n, s, i)
  }

  ghost predicate SettledAt(h: History, s: seq<Entry>, i: int) {
    0 <= i < |s| && s[i].term in h.led && h.led[s[i].term].durable
  }

  ghost predicate Settled(h: History, s: seq<Entry>) {
    forall i {:trigger SettledAt(h, s, i)} :: 0 <= i < |s| ==> SettledAt(h, s, i)
  }

  ghost predicate TermsUpTo(s: seq<Entry>, term: nat) {
    forall i {:trigger s[i]} :: 0 <= i < |s| ==> s[i].term <= term
  }

  // ---- acknowledgements ----------------------------------------------------------------

  ghost predicate Differs(a: seq<Entry>, b: seq<Entry>, i: nat) {
    exists j :: 0 <= j < i && j < |a| && j < |b| && a[j] != b[j]
  }

  /** A log still holds what was acknowledged. */
  ghost predicate HoldsAck(h: History, s: seq<Entry>, a: Ack) {
    a.term in h.led && a.index <= |s| && a.index <= |h.led[a.term].log| && s[..a.index] == h.led[a.term].log[..a.index]
  }

  ghost predicate SupersededBy(h: History, a: Ack, w: nat) {
    a.term in h.led && a.term < w && w in h.led && h.led[w].durable
    && Differs(h.led[w].log, h.led[a.term].log, a.index)
  }

  /** The acknowledgement survives in `s`, or a leader of a later term below `bound` disagrees with
      what was acknowledged. */
  ghost predicate Kept(h: History, s: seq<Entry>, a: Ack, bound: nat) {
    HoldsAck(h, s, a) || exists w: nat :: w < bound && SupersededBy(h, a, w)
  }

  ghost function Ackers(h: History, term: nat, index: nat): set<NodeId> {
    set a | a in h.acks && a.term == term && a.index == index :: a.node
  }

  // ---- evidence of commitment ------------------------------------------------------------

  ghost predicate EvidenceAt(h: History, s: seq<Entry>, k: nat, bound: nat, t: nat) {
    t <= bound && t in h.led && k <= h.led[t].commit && k <= |s| && k <= |h.led[t].log| && s[..k] == h.led[t].log[..k]
  }

  /** The first `k` entries of `s` were declared committed by a leader of a term up to `bound`. */
  ghost predicate Evidence(h: History, s: seq<Entry>, k: nat, bound: nat) {
    k == 0 || exists t :: EvidenceAt(h, s, k, bound, t)
  }

  // ---- packets ------------------------------------------------------------------------------

  predicate IsGrant(p: Packet) {
    p.msg.body.VoteResp? && p.msg.body.granted
  }

  predicate IsAck(p: Packet) {
    || (p.msg.body.AppendResp? && p.msg.body.success)
    || (p.msg.body.SnapshotResp? && p.msg.body.success)
  }

  function AckIndex(p: Packet): nat
    requires IsAck(p)
  {
    if p.msg.body.AppendResp? then p.msg.body.matchIndex else p.msg.body.index
  }

  /** A candidate of the grant's term asked for it, with a log at least as up to date as the voter's. */
  ghost predicate Requested(h: History, p: Packet) {
    exists r :: r in h.net && r.src == p.dst && r.msg.term == p.msg.term && r.msg.body.VoteReq?
             && UpToDate(p.origin, r.msg.body.lastTerm, r.msg.body.lastIndex)
  }

  /** What a message asserts, given who sent it and at what term. */
  ghost predicate Truthful(h: History, p: Packet) {
    var t := p.msg.term;
    match p.msg.body
    case VoteResp(granted) => granted ==> Requested(h, p) && Rooted(h, p.origin) && Indexed(p.origin)
    case AppendReq(prev, prevTerm, entries, commit) =>
      && t in h.led && h.led[t].leader == p.src
      && prev + |entries| <= |h.led[t].log|
      && prevTerm == TermOf(h.led[t].log, prev)
      && entries == h.led[t].log[prev..prev + |entries|]
      && Evidence(h, h.led[t].log, commit, t)
    case AppendResp(success, index, _, _) =>
      success ==> t in h.led && h.led[t].durable && index <= |h.led[t].log|
    case SnapshotReq(image) =>
      && t in h.led && h.led[t].leader == p.src
      && |image.prefix| <= |h.led[t].log| && image.prefix == h.led[t].log[..|image.prefix|]
      && Evidence(h, image.prefix, |image.prefix|, t)
    case SnapshotResp(success, index) =>
      success ==> t in h.led && h.led[t].durable && index <= |h.led[t].log|
    case HeartbeatReq(commit, ctx) =>
      && t in h.led && h.led[t].leader == p.src
      && ctx > 0 && (t, ctx) in h.asked
      && Evidence(h, h.led[t].log, commit, t)
      && (commit > 0 ==> Ack(p.dst, t, commit) in h.acks)
    case HeartbeatResp(ctx) => ctx > 0 && (t, ctx) in h.asked && p.src !in h.asked[(t, ctx)]
    case TimeoutNow => t in h.led && h.led[t].leader == p.src
    case PreVoteReq(_, _) => true
    case PreVoteResp(_) => true
    case VoteReq(_, _) => true
  }

  predicate FromLeader(p: Packet) {
    p.msg.body.AppendReq? || p.msg.body.SnapshotReq? || p.msg.body.HeartbeatReq? || p.msg.body.TimeoutNow?
  }

  /** What being sent adds: the sender's claims are backed by its disk. */
  ghost predicate Backed(h: History, p: Packet) {
    && p.src != p.dst
    && (FromLeader(p) ==> p.msg.term in h.led && h.led[p.msg.term].durable)
    && (IsAck(p) ==> Ack(p.src, p.msg.term, AckIndex(p)) in h.acks)
    && (IsGrant(p) ==> Settled(h, p.origin))
  }

  // ---- leaderships ------------------------------------------------------------------------------

  function ElectedLog(l: Lead): seq<Entry> {
    if l.start <= |l.log| then l.log[..l.start] else []
  }

  /** A voter's log when it supported the leader of term `t`: no more up to date than the leader's,
      and holding all the voter had acknowledged to earlier leaders that none since has contradicted. */
  ghost predicate Ballot(h: History, t: nat, v: NodeId, s: seq<Entry>) {
    && t in h.led && Rooted(h, s)
    && UpToDate(s, LastTermOf(ElectedLog(h.led[t])), h.led[t].start)
    && forall a :: a in h.acks && a.node == v && a.term < t ==> Kept(h, s, a, t)
  }

  ghost predicate GrantFor(h: History, p: Packet, t: nat, v: NodeId) {
    t in h.led && p in h.net && IsGrant(p) && p.src == v && p.dst == h.led[t].leader && p.msg.term == t
  }

  ghost predicate Supported(h: History, t: nat, v: NodeId) {
    t in h.led &&
    if v == h.led[t].leader then Ballot(h, t, v, ElectedLog(h.led[t]))
    else exists p :: GrantFor(h, p, t, v) && Ballot(h, t, v, p.origin)
  }

  /** Entries before the election are of earlier terms, the rest are the leader's own. */
  ghost predicate LeadShape(h: History, t: nat) {
    t in h.led &&
    var l := h.led[t];
    && t > 0 && l.start < |l.log| && Indexed(l.log)
    && (forall i {:trigger l.log[i]} :: 0 <= i < |l.log| ==>
          (if i < l.start then l.log[i].term < t else l.log[i].term == t))
    && Rooted(h, l.log) && Owned(h, l.leader, l.log)
    && l.commit <= |l.log|
  }

  ghost predicate Elected(env: Env, h: History, t: nat) {
    && t in h.led
    && env.cfg.IsVoter(h.led[t].leader)
    && HasQuorum(env.cfg, h.led[t].voters)
    && forall v :: v in h.led[t].voters ==> Supported(h, t, v)
  }

  /** A declared commit index is backed by a quorum of durable acknowledgements of an entry of the
      leader's own term. */
  ghost predicate CommitBacked(env: Env, h: History, t: nat) {
    t in h.led && (h.led[t].commit > 0 ==>
      && h.led[t].commit > h.led[t].start && h.led[t].durable
      && HasQuorum(env.cfg, Ackers(h, t, h.led[t].commit)))
  }

  ghost predicate LeadsOk(env: Env, h: History) {
    && (forall t :: t in h.led ==> LeadShape(h, t))
    && (forall t :: t in h.led ==> CommitBacked(env, h, t))
  }

  ghost predicate AcksOk(h: History) {
    && (forall a :: a in h.acks ==> a.term in h.led && h.led[a.term].durable && a.index <= |h.led[a.term].log|)
    && (forall a, j :: a in h.acks && 0 <= j <= a.index ==> Ack(a.node, a.term, j) in h.acks)
  }

  ghost predicate NetOk(h: History) {
    forall p :: p in h.net ==> Truthful(h, p) && Backed(h, p)
  }

  /** No node votes twice in one term; the leader of a term voted for itself. */
  ghost predicate GrantsAgree(h: History) {
    && (forall p, q ::
          p in h.net && q in h.net && IsGrant(p) && IsGrant(q) && p.src == q.src && p.msg.term == q.msg.term
          ==> p.dst == q.dst)
    && (forall p :: p in h.net && IsGrant(p) && p.msg.term in h.led ==> h.led[p.msg.term].leader != p.src)
  }

  /** Once a leadership is on its leader's disk, so are that node's earlier ones. */
  ghost predicate DurableDown(h: History) {
    forall t, u ::
      t in h.led && u in h.led && u < t && h.led[t].durable && h.led[u].leader == h.led[t].leader ==> h.led[u].durable
  }

  ghost predicate ElectionsOk(env: Env, h: History) {
    forall t :: t in h.led ==> Elected(env, h, t)
  }

  ghost predicate AskedOk(h: History) {
    forall k :: k in h.asked ==> k.0 in h.led && h.led[k.0].durable
  }

  /** A voter's log, when it voted, held all it had acknowledged to earlier leaders that no leader
      up to then had contradicted. */
  ghost predicate GrantsKept(h: History) {
    forall p, a :: p in h.net && IsGrant(p) && a in h.acks && a.node == p.src && a.term < p.msg.term ==>
      Kept(h, p.origin, a, p.msg.term + 1)
  }

  ghost predicate HistOk(env: Env, h: History) {
    && LeadsOk(env, h) && AcksOk(h) && ElectionsOk(env, h)
    && NetOk(h) && GrantsAgree(h) && GrantsKept(h) && DurableDown(h) && AskedOk(h)
  }

  // ---- Log Matching ------------------------------------------------------------------------------

  /** Log Matching: two rooted logs that agree in term at a position agree on everything below it. */
  lemma LogMatching(h: History, x: seq<Entry>, y: seq<Entry>, i: nat)
    requires Rooted(h, x) && Rooted(h, y) && i < |x| && i < |y| && x[i].term == y[i].term
    ensures x[..i + 1] == y[..i + 1]
  {
    assert RootedAt(h, x, i) && RootedAt(h, y, i);
  }

  lemma RootedPrefix(h: History, s: seq<Entry>, k: nat)
    requires Rooted(h, s) && k <= |s|
    ensures Rooted(h, s[..k])
  {
    forall i | 0 <= i < k
      ensures RootedAt(h, s[..k], i)
    {
      assert RootedAt(h, s, i);
      assert s[..k][..i + 1] == s[..i + 1];
    }
  }

  /** Terms never decrease along a rooted log. */
  lemma TermsAscend(env: Env, h: History, s: seq<Entry>, i: nat, j: nat)
    requires LeadsOk(env, h) && Rooted(h, s) && i <= j < |s|
    ensures s[i].term <= s[j].term
  {
    assert RootedAt(h, s, j);
    var l := h.led[s[j].term];
    assert LeadShape(h, s[j].term);
    assert l.log[..j + 1][i] == s[..j + 1][i];
    assert l.log[i] == s[i];
  }

  // ---- Leader Completeness --------------------------------------------------------------------------

  /** The leader of `u` holds the first `k` entries of the leader of `t`. */
  ghost predicate Extends(h: History, t: nat, k: nat, u: nat) {
    t in h.led && u in h.led && k <= |h.led[t].log| && k <= |h.led[u].log| && h.led[u].log[..k] == h.led[t].log[..k]
  }

  lemma NoDifference(h: History, t: nat, k: nat, u: nat)
    requires Extends(h, t, k, u)
    ensures !Differs(h.led[u].log, h.led[t].log, k)
  {
    forall j | 0 <= j < k
      ensures h.led[u].log[j] == h.led[t].log[j]
    {
      assert h.led[u].log[..k][j] == h.led[t].log[..k][j];
    }
  }

  /** Two rooted logs with the same last term: the shorter's last position carries it in both. */
  lemma LastEntryTerm(env: Env, h: History, x: seq<Entry>, c: seq<Entry>)
    requires LeadsOk(env, h) && Rooted(h, x) && Rooted(h, c) && 0 < |x| <= |c|
    requires LastTermOf(x) == LastTermOf(c)
    ensures c[|x| - 1].term == x[|x| - 1].term
  {
    assert RootedAt(h, c, |c| - 1) && RootedAt(h, x, |x| - 1);
    var l := h.led[LastTermOf(c)].log;
    assert l[..|c|][|x| - 1] == c[..|c|][|x| - 1];
    assert l[..|x|][|x| - 1] == x[..|x|][|x| - 1];
  }

  /** Case one: the voter's log ends in the same term as the leader's, and is no longer. */
  lemma SameTermHolds(env: Env, h: History, x: seq<Entry>, c: seq<Entry>)
    requires LeadsOk(env, h) && Rooted(h, x) && Rooted(h, c) && 0 < |x| <= |c| && LastTermOf(x) == LastTermOf(c)
    ensures c[..|x|] == x
  {
    LastEntryTerm(env, h, x, c);
    LogMatching(h, x, c, |x| - 1);
    assert x[..|x|] == x;
  }

  /** Case two: the leader's log ends in a later term, whose leader held the committed prefix. */
  lemma LaterTermHolds(env: Env, h: History, t: nat, k: nat, c: seq<Entry>)
    requires LeadsOk(env, h) && Rooted(h, c) && LastTermOf(c) > t && Extends(h, t, k, LastTermOf(c))
    ensures k <= |c| && c[..k] == h.led[t].log[..k]
  {
    var last, n := LastTermOf(c), |c|;
    assert RootedAt(h, c, n - 1) && LeadShape(h, t);
    var l := h.led[last].log;
    assert c[..n] == c;
    if k >= n {
      assert l[..k][n - 1] == h.led[t].log[..k][n - 1];
      assert l[..n][n - 1] == c[n - 1];
    }
    assert c[..k] == l[..n][..k] == l[..k];
  }

  /** The log `c` a leader was elected with, being at least as up to date as a voter's log `x`,
      holds the committed prefix `x[..k]`. */
  lemma UpToDateHolds(env: Env, h: History, t: nat, k: nat, x: seq<Entry>, c: seq<Entry>)
    requires LeadsOk(env, h) && t in h.led && h.led[t].start < k <= |h.led[t].log|
    requires Rooted(h, x) && Rooted(h, c) && k <= |x| && x[..k] == h.led[t].log[..k]
    requires UpToDate(x, LastTermOf(c), |c|)
    requires LastTermOf(c) > t ==> Extends(h, t, k, LastTermOf(c))
    ensures k <= |c| && c[..k] == h.led[t].log[..k]
  {
    assert LeadShape(h, t);
    assert x[k - 1] == x[..k][k - 1] == h.led[t].log[k - 1];
    TermsAscend(env, h, x, k - 1, |x| - 1);
    if LastTermOf(c) == LastTermOf(x) {
      SameTermHolds(env, h, x, c);
      assert c[..k] == c[..|x|][..k] == x[..k];
    } else {
      LaterTermHolds(env, h, t, k, c);
    }
  }

  /** Leader Completeness: what the leader of one term declared committed is in the log of the
      leader of every later term. */
  lemma {:induction false} LeaderCompleteness(env: Env, h: History, t: nat, u: nat)
    requires LeadsOk(env, h) && AcksOk(h) && ElectionsOk(env, h)
    requires t in h.led && u in h.led && t <= u
    ensures Extends(h, t, h.led[t].commit, u)
    decreases u, 1
  {
    assert LeadShape(h, t) && CommitBacked(env, h, t);
    if t < u && h.led[t].commit > 0 {
      var a := SharedVoter(env, h, t, u);
      var x := BallotOf(h, u, a.node);
      BallotHoldsCommit(env, h, t, u, a, x);
      ElectedLogHolds(env, h, t, u, a.node, x);
    }
  }

  /** Some voter of `u` had acknowledged what the leader of `t` committed. */
  lemma SharedVoter(env: Env, h: History, t: nat, u: nat) returns (a: Ack)
    requires t in h.led && u in h.led && CommitBacked(env, h, t) && h.led[t].commit > 0 && Elected(env, h, u)
    ensures a in h.acks && a.term == t && a.index == h.led[t].commit && Supported(h, u, a.node)
  {
    var k := h.led[t].commit;
    QuorumsIntersect(env.cfg, Ackers(h, t, k), h.led[u].voters);
    var v :| v in Ackers(h, t, k) && v in h.led[u].voters;
    a :| a in h.acks && a.term == t && a.index == k && a.node == v;
  }

  lemma BallotOf(h: History, u: nat, v: NodeId) returns (x: seq<Entry>)
    requires Supported(h, u, v)
    ensures Ballot(h, u, v, x)
  {
    if v == h.led[u].leader {
      x := ElectedLog(h.led[u]);
    } else {
      var p :| GrantFor(h, p, u, v) && Ballot(h, u, v, p.origin);
      x := p.origin;
    }
  }

  /** No leader before `u` contradicts the commitment, so the ballot still held it. */
  lemma {:induction false} BallotHoldsCommit(env: Env, h: History, t: nat, u: nat, a: Ack, x: seq<Entry>)
    requires LeadsOk(env, h) && AcksOk(h) && ElectionsOk(env, h)
    requires t in h.led && u in h.led && t < u
    requires a in h.acks && a.term == t && a.index == h.led[t].commit && Ballot(h, u, a.node, x)
    ensures HoldsAck(h, x, a)
    decreases u, 0
  {
    hide LeadsOk, AcksOk, ElectionsOk;
    if !HoldsAck(h, x, a) {
      assert Kept(h, x, a, u);
      var w: nat :| w < u && SupersededBy(h, a, w);
      LeaderCompleteness(env, h, t, w);
      NoDifference(h, t, a.index, w);
    }
  }

  lemma {:induction false} ElectedLogHolds(env: Env, h: History, t: nat, u: nat, v: NodeId, x: seq<Entry>)
    requires LeadsOk(env, h) && AcksOk(h) && ElectionsOk(env, h)
    requires t in h.led && u in h.led && t < u && h.led[t].commit > 0
    requires Ballot(h, u, v, x) && h.led[t].commit <= |x| && h.led[t].commit <= |h.led[t].log|
    requires x[..h.led[t].commit] == h.led[t].log[..h.led[t].commit]
    ensures Extends(h, t, h.led[t].commit, u)
    decreases u, 0
  {
    var k, c := h.led[t].commit, ElectedLog(h.led[u]);
    assert LeadShape(h, u) && CommitBacked(env, h, t);
    RootedPrefix(h, h.led[u].log, h.led[u].start);
    var last := LastTermOf(c);
    if last > t {
      assert RootedAt(h, c, |c| - 1);
      LeaderCompleteness(env, h, t, last);
    }
    UpToDateHolds(env, h, t, k, x, c);
    assert h.led[u].log[..h.led[u].start][..k] == h.led[u].log[..k];
  }
}
