/** What every run of a cluster guarantees, stated only in terms of the nodes, their disks, and what
    they hand out. */
module RaftTheorems {
  import opened Types
  import opened Quorum
  import opened RaftLog
  import opened RaftNode
  import opened RaftDriver
  import opened RaftHistory
  import opened RaftGrowth
  import opened RaftInvariant
  import opened RaftSteps
  import opened RaftReplication
  import opened RaftWatermark
  import opened RaftHandlers
  import opened RaftInputs
  import opened RaftReady
  import opened RaftCluster
  import opened RaftSafety

  // ---- a history for every moment of a run ---------------------------------------------

  ghost predicate InvAt(env: Env, hs: seq<History>, ss: seq<Cluster>, i: nat) {
    i < |hs| && i < |ss| && Inv(env, hs[i], ss[i])
  }

  ghost predicate RemembersAt(env: Env, hs: seq<History>, i: nat, j: nat) {
    i < |hs| && j < |hs| && Remembers(env, hs[i], hs[j])
  }

  ghost predicate Chronicle(env: Env, hs: seq<History>, ss: seq<Cluster>) {
    && |hs| == |ss|
    && (forall i {:trigger InvAt(env, hs, ss, i)} :: 0 <= i < |ss| ==> InvAt(env, hs, ss, i))
    && (forall i, j {:trigger RemembersAt(env, hs, i, j)} :: 0 <= i <= j < |ss| ==> RemembersAt(env, hs, i, j))
  }

  lemma ShorterRun(env: Env, ss: seq<Cluster>, acts: seq<Action>)
    requires IsRun(env, ss, acts) && |acts| > 0
    ensures IsRun(env, ss[..|acts|], acts[..|acts| - 1])
  {
    hide Initial, Next;
    var k := |acts| - 1;
    forall i | 0 <= i < k
      ensures StepAt(env, ss[..|acts|], acts[..k], i)
    {
      assert StepAt(env, ss, acts, i);
    }
  }

  lemma {:induction false} RunHistories(env: Env, ss: seq<Cluster>, acts: seq<Action>) returns (hs: seq<History>)
    requires IsRun(env, ss, acts)
    ensures Chronicle(env, hs, ss)
    decreases |acts|
  {
    hide Inv, Remembers, Next, Initial;
    if acts == [] {
      InitialInv(env);
      hs := [NoHistory()];
      RemembersItself(env, hs[0]);
    } else {
      var k := |acts| - 1;
      ShorterRun(env, ss, acts);
      var hs1 := RunHistories(env, ss[..|acts|], acts[..k]);
      assert StepAt(env, ss, acts, k) && InvAt(env, hs1, ss[..|acts|], k);
      var h := NextKeeps(env, hs1[k], ss[k], acts[k]);
      hs := hs1 + [h];
      LongerChronicle(env, hs1, ss[..|acts|], h, ss[|acts|]);
      assert ss == ss[..|acts|] + [ss[|acts|]];
    }
  }

  lemma LongerChronicle(env: Env, hs: seq<History>, ss: seq<Cluster>, h: History, s: Cluster)
    requires Chronicle(env, hs, ss) && |ss| > 0 && Inv(env, h, s) && Remembers(env, hs[|hs| - 1], h)
    ensures Chronicle(env, hs + [h], ss + [s])
  {
    hide Inv, Remembers;
    var hs', ss', k := hs + [h], ss + [s], |hs|;
    forall i | 0 <= i < |ss'|
      ensures InvAt(env, hs', ss', i)
    {
      if i < k { assert InvAt(env, hs, ss, i); }
    }
    RemembersItself(env, h);
    forall i, j | 0 <= i <= j < |ss'|
      ensures RemembersAt(env, hs', i, j)
    {
      if j < k {
        assert RemembersAt(env, hs, i, j);
      } else if i < k {
        assert RemembersAt(env, hs, i, k - 1);
        RemembersTwice(env, hs[i], hs[k - 1], h);
      }
    }
  }

  /** The histories at two moments of a run. */
  lemma TwoMoments(env: Env, ss: seq<Cluster>, acts: seq<Action>, i: nat, j: nat) returns (h: History, h': History)
    requires IsRun(env, ss, acts) && i <= j < |ss|
    ensures Inv(env, h, ss[i]) && Inv(env, h', ss[j]) && Remembers(env, h, h')
  {
    hide Inv, Remembers, IsRun;
    var hs := RunHistories(env, ss, acts);
    assert InvAt(env, hs, ss, i) && InvAt(env, hs, ss, j) && RemembersAt(env, hs, i, j);
    h, h' := hs[i], hs[j];
  }

  // ---- Election Safety -------------------------------------------------------------------------

  lemma SameLeader(env: Env, h: History, h': History, s: Cluster, s': Cluster, a: NodeId, b: NodeId)
    requires Inv(env, h, s) && Inv(env, h', s') && Remembers(env, h, h')
    requires a in s.mem && b in s'.mem && s.mem[a].role == Leader && s'.mem[b].role == Leader
    requires s.mem[a].term == s'.mem[b].term
    ensures a == b
  {
    hide Inv, HistOk, Good, HasQuorum;
    var t := s.mem[a].term;
    NodeOf(env, h, s, a);
    NodeOf(env, h', s', b);
    TermsInOrder(env, h, a, s.mem[a], s.disk[a]);
    TermsInOrder(env, h', b, s'.mem[b], s'.disk[b]);
    if !(t in h'.led && LeadGrows(h.led[t], h'.led[t])) {
      LeadElected(env, h', t);
      SoleVoter(env.cfg, a, b);
    }
  }

  /** Election Safety: over a whole run, crashes and restarts included, a term has one leader. */
  lemma ElectionSafety(env: Env, ss: seq<Cluster>, acts: seq<Action>, i: nat, j: nat, a: NodeId, b: NodeId)
    requires IsRun(env, ss, acts) && i < |ss| && j < |ss| && a in ss[i].mem && b in ss[j].mem
    requires ss[i].mem[a].role == Leader && ss[j].mem[b].role == Leader && ss[i].mem[a].term == ss[j].mem[b].term
    ensures a == b
  {
    hide Inv, Remembers, IsRun;
    if i <= j {
      var h, h' := TwoMoments(env, ss, acts, i, j);
      SameLeader(env, h, h', ss[i], ss[j], a, b);
    } else {
      var h', h := TwoMoments(env, ss, acts, j, i);
      SameLeader(env, h', h, ss[j], ss[i], b, a);
    }
  }

  // ---- Leader Completeness and State Machine Safety ------------------------------------------------

  /** Evidence of a commitment outlives any crash. */
  lemma EvidenceRemembered(env: Env, h: History, h': History, s: seq<Entry>, k: nat, bound: nat)
    requires HistOk(env, h) && Remembers(env, h, h') && Evidence(h, s, k, bound)
    ensures Evidence(h', s, k, bound)
  {
    if k > 0 {
      var t: nat :| EvidenceAt(h, s, k, bound, t);
      LeadElected(env, h, t);
      hide HistOk, HasQuorum;
      assert LeadGrows(h.led[t], h'.led[t]);
      var l, l' := h.led[t].log, h'.led[t].log;
      assert l'[..|l|][..k] == l'[..k];
      assert EvidenceAt(h', s, k, bound, t);
    }
  }

  /** The leaders of two commitments agree as far as either of the two is known. */
  lemma LeadersAgree(env: Env, h: History, t: nat, u: nat, k: nat)
    requires HistOk(env, h) && t in h.led && u in h.led && k <= h.led[t].commit && k <= h.led[u].commit
    ensures k <= |h.led[t].log| && k <= |h.led[u].log| && h.led[t].log[..k] == h.led[u].log[..k]
  {
    Elections(env, h);
    hide HistOk, LeadsOk, AcksOk, ElectionsOk;
    var lo, hi := Min(t, u), Max(t, u);
    LeaderCompleteness(env, h, lo, hi);
    var c, x, y := h.led[lo].commit, h.led[lo].log, h.led[hi].log;
    assert x[..c][..k] == x[..k] && y[..c][..k] == y[..k];
  }

  /** Two commitments agree wherever both reach. */
  lemma EvidenceAgrees(env: Env, h: History, x: seq<Entry>, k: nat, v: nat, y: seq<Entry>, j: nat, w: nat)
    requires HistOk(env, h) && Evidence(h, x, k, v) && Evidence(h, y, j, w) && k <= j <= |y| && k <= |x|
    ensures x[..k] == y[..k]
  {
    hide HistOk;
    if k > 0 {
      var t: nat :| EvidenceAt(h, x, k, v, t);
      var u: nat :| EvidenceAt(h, y, j, w, u);
      LeadersAgree(env, h, t, u, k);
      assert y[..j][..k] == y[..k] && h.led[u].log[..j][..k] == h.led[u].log[..k];
    }
  }

  /** Two nodes, at two moments: the shorter of their committed prefixes is a prefix of the other. */
  lemma CommitsAgree(env: Env, h: History, h': History, s: Cluster, s': Cluster, a: NodeId, b: NodeId, k: nat)
    requires Inv(env, h, s) && Inv(env, h', s') && Remembers(env, h, h') && a in s.mem && b in s'.mem
    requires k <= s.mem[a].commit && k <= s'.mem[b].commit
    ensures k <= |s.mem[a].log.full| && k <= |s'.mem[b].log.full| && s.mem[a].log.full[..k] == s'.mem[b].log.full[..k]
  {
    hide Inv, HistOk, Good, Remembers, Evidence, LeaderOk;
    NodeOf(env, h, s, a);
    NodeOf(env, h', s', b);
    CommitKnown(env, h, a, s.mem[a], s.disk[a]);
    CommitKnown(env, h', b, s'.mem[b], s'.disk[b]);
    var x, y := s.mem[a], s'.mem[b];
    EvidenceRemembered(env, h, h', x.log.full, x.commit, x.term);
    EvidencePrefix(h', x.log.full, x.commit, x.log.full, k, x.term);
    EvidenceAgrees(env, h', x.log.full, k, x.term, y.log.full, y.commit, y.term);
  }

  /** State Machine Safety, on logs: no two nodes ever disagree about a committed prefix. */
  lemma CommittedPrefixesAgree(env: Env, ss: seq<Cluster>, acts: seq<Action>, i: nat, j: nat, a: NodeId, b: NodeId,
                               k: nat)
    requires IsRun(env, ss, acts) && i < |ss| && j < |ss| && a in ss[i].mem && b in ss[j].mem
    requires k <= ss[i].mem[a].commit && k <= ss[j].mem[b].commit
    ensures k <= |ss[i].mem[a].log.full| && k <= |ss[j].mem[b].log.full|
    ensures ss[i].mem[a].log.full[..k] == ss[j].mem[b].log.full[..k]
  {
    hide Inv, Remembers, IsRun;
    if i <= j {
      var h, h' := TwoMoments(env, ss, acts, i, j);
      CommitsAgree(env, h, h', ss[i], ss[j], a, b, k);
    } else {
      var h', h := TwoMoments(env, ss, acts, j, i);
      CommitsAgree(env, h', h, ss[j], ss[i], b, a, k);
    }
  }

  lemma EntryOfSlice(full: seq<Entry>, lo: nat, hi: nat, e: Entry)
    requires Indexed(full) && lo <= hi <= |full| && e in full[lo..hi]
    ensures 0 < e.index <= hi && full[e.index - 1] == e
  {
  }

  lemma HandedIsCommitted(env: Env, h: History, s: Cluster, a: Action, e: Entry)
    requires Inv(env, h, s) && Enabled(s, a) && e in HandedOut(env, s, a)
    ensures var m := s.mem[Actor(a)];
            0 < e.index <= m.commit <= |m.log.full| && m.log.full[e.index - 1] == e
  {
    assert a.Work?;
    hide Inv, Remembers, Next, Good, HistOk, HandedOut, Answers, Indexed;
    NodeOf(env, h, s, a.n);
    IndexedLog(env, h, a.n, s.mem[a.n], s.disk[a.n]);
    var _ := WorkGoes(env, h, s, a);
    EntryOfSlice(s.mem[a.n].log.full, s.mem[a.n].applied, s.mem[a.n].commit, e);
  }

  /** What a step hands to the state machine is a stretch of its node's committed prefix. */
  lemma HandedOutIsCommitted(env: Env, ss: seq<Cluster>, acts: seq<Action>, i: nat, e: Entry)
    requires IsRun(env, ss, acts) && i < |acts| && StepAt(env, ss, acts, i) && e in HandedOut(env, ss[i], acts[i])
    ensures var n := Actor(acts[i]);
            && n in ss[i].mem && 0 < e.index <= ss[i].mem[n].commit <= |ss[i].mem[n].log.full|
            && ss[i].mem[n].log.full[e.index - 1] == e
  {
    hide Inv, Remembers, IsRun, Next, HandedOut;
    var h, _ := TwoMoments(env, ss, acts, i, i);
    HandedIsCommitted(env, h, ss[i], acts[i], e);
  }

  lemma IndexedLog(env: Env, h: History, n: NodeId, m: Raft, d: Disk)
    requires Good(env, h, n, m, d)
    ensures Indexed(m.log.full)
  {
    assert LogsOk(h, n, m, StoredOf(d));
  }

  /** State Machine Safety: no two steps of a run, of any nodes, hand different entries to the state
      machine at the same index. */
  lemma StateMachineSafety(env: Env, ss: seq<Cluster>, acts: seq<Action>, i: nat, j: nat, e: Entry, f: Entry)
    requires IsRun(env, ss, acts) && i < |acts| && j < |acts| && StepAt(env, ss, acts, i) && StepAt(env, ss, acts, j)
    requires e in HandedOut(env, ss[i], acts[i]) && f in HandedOut(env, ss[j], acts[j]) && e.index == f.index
    ensures e == f
  {
    hide IsRun, Next, HandedOut;
    HandedOutIsCommitted(env, ss, acts, i, e);
    HandedOutIsCommitted(env, ss, acts, j, f);
    var a, b, k := Actor(acts[i]), Actor(acts[j]), e.index;
    CommittedPrefixesAgree(env, ss, acts, i, j, a, b, k);
    assert ss[i].mem[a].log.full[..k][k - 1] == ss[j].mem[b].log.full[..k][k - 1];
  }

  /** Leader Completeness: a leader holds everything any node had committed before, at its term or an
      earlier one. */
  lemma LeadersAreComplete(env: Env, ss: seq<Cluster>, acts: seq<Action>, i: nat, j: nat, a: NodeId, b: NodeId)
    requires IsRun(env, ss, acts) && i <= j < |ss| && a in ss[i].mem && b in ss[j].mem
    requires ss[j].mem[b].role == Leader && ss[i].mem[a].term <= ss[j].mem[b].term
    ensures var k := ss[i].mem[a].commit;
            && k <= |ss[i].mem[a].log.full| && k <= |ss[j].mem[b].log.full|
            && ss[i].mem[a].log.full[..k] == ss[j].mem[b].log.full[..k]
  {
    hide Inv, Remembers, IsRun, Good, HistOk, Evidence;
    var h, h' := TwoMoments(env, ss, acts, i, j);
    NodeOf(env, h, ss[i], a);
    NodeOf(env, h', ss[j], b);
    var x, y := ss[i].mem[a], ss[j].mem[b];
    CommitKnown(env, h, a, x, ss[i].disk[a]);
    CommitKnown(env, h', b, y, ss[j].disk[b]);
    EvidenceRemembered(env, h, h', x.log.full, x.commit, x.term);
    Elections(env, h');
    LeaderHolds(env, h', x.log.full, x.commit, x.term, y.term);
  }

  lemma Elections(env: Env, h: History)
    requires HistOk(env, h)
    ensures LeadsOk(env, h) && AcksOk(h) && ElectionsOk(env, h)
  {
  }

  // ---- Log Matching and replication progress ---------------------------------------------------------

  /** Log Matching: two nodes' logs, in memory or on disk, that carry the same term at an index are
      the same up to it. */
  lemma LogsMatch(env: Env, ss: seq<Cluster>, acts: seq<Action>, i: nat, a: NodeId, b: NodeId, k: nat)
    requires IsRun(env, ss, acts) && i < |ss| && a in ss[i].mem && b in ss[i].mem && b in ss[i].disk
    ensures var x, y := ss[i].mem[a].log.full, ss[i].mem[b].log.full;
            k < |x| && k < |y| && x[k].term == y[k].term ==> x[..k + 1] == y[..k + 1]
    ensures var x, y := ss[i].mem[a].log.full, RecoveredLog(ss[i].disk[b]).full;
            k < |x| && k < |y| && x[k].term == y[k].term ==> x[..k + 1] == y[..k + 1]
  {
    hide Inv, Remembers, IsRun, Good, HistOk, RecoveredLog, Rooted;
    var h, _ := TwoMoments(env, ss, acts, i, i);
    NodeOf(env, h, ss[i], a);
    NodeOf(env, h, ss[i], b);
    RootedLogs(env, h, a, ss[i].mem[a], ss[i].disk[a]);
    RootedLogs(env, h, b, ss[i].mem[b], ss[i].disk[b]);
    var x, y, z := ss[i].mem[a].log.full, ss[i].mem[b].log.full, RecoveredLog(ss[i].disk[b]).full;
    if k < |x| && k < |y| && x[k].term == y[k].term { LogMatching(h, x, y, k); }
    if k < |x| && k < |z| && x[k].term == z[k].term { LogMatching(h, x, z, k); }
  }

  lemma RootedLogs(env: Env, h: History, n: NodeId, m: Raft, d: Disk)
    requires Good(env, h, n, m, d)
    ensures Rooted(h, m.log.full) && Rooted(h, RecoveredLog(d).full)
  {
    assert LogsOk(h, n, m, StoredOf(d));
  }

  /** A leader's record of a follower is true of the follower's disk, unless that has moved to a later
      term, and of its memory, unless that has. */
  lemma MatchedIsTrue(env: Env, ss: seq<Cluster>, acts: seq<Action>, i: nat, a: NodeId, b: NodeId)
    requires IsRun(env, ss, acts) && i < |ss| && a in ss[i].mem && b in ss[i].mem && b in ss[i].disk && a != b
    requires ss[i].mem[a].role == Leader && b in ss[i].mem[a].progress
    ensures var k, x, y := ss[i].mem[a].progress[b].matched, ss[i].mem[a].log.full, ss[i].mem[b].log.full;
            ss[i].mem[b].term <= ss[i].mem[a].term ==> k <= |x| && k <= |y| && x[..k] == y[..k]
    ensures var k, x, y := ss[i].mem[a].progress[b].matched, ss[i].mem[a].log.full, RecoveredLog(ss[i].disk[b]).full;
            ss[i].disk[b].hard.term <= ss[i].mem[a].term ==> k <= |x| && k <= |y| && x[..k] == y[..k]
  {
    hide Inv, Remembers, IsRun, Good, HistOk, RecoveredLog;
    var h, _ := TwoMoments(env, ss, acts, i, i);
    NodeOf(env, h, ss[i], a);
    NodeOf(env, h, ss[i], b);
    MatchedHolds(env, h, a, ss[i].mem[a], ss[i].disk[a], b, ss[i].mem[b], ss[i].disk[b]);
  }

  lemma MatchedHolds(env: Env, h: History, a: NodeId, m: Raft, da: Disk, b: NodeId, mb: Raft, db: Disk)
    requires Good(env, h, a, m, da) && Good(env, h, b, mb, db) && a != b && m.role == Leader && b in m.progress
    ensures var k, x, y := m.progress[b].matched, m.log.full, mb.log.full;
            mb.term <= m.term ==> k <= |x| && k <= |y| && x[..k] == y[..k]
    ensures var k, x, y := m.progress[b].matched, m.log.full, RecoveredLog(db).full;
            db.hard.term <= m.term ==> k <= |x| && k <= |y| && x[..k] == y[..k]
  {
    var k := m.progress[b].matched;
    assert ProgressOk(h, a, m) && LeaderOk(h, a, m) && DiskKeepsAcks(h, b, StoredOf(db)) && MemoryKeepsAcks(h, b, mb);
    hide Good, NodeOk;
    if k > 0 {
      var ack := Ack(b, m.term, k);
      assert ack in h.acks && Kept(h, StoredOf(db).log, ack, db.hard.term + 1);
      assert Owes(h, b, mb, ack) && Kept(h, mb.log.full, ack, mb.term + 1);
    }
  }

  // ---- ReadIndex -------------------------------------------------------------------------------------

  /** The peak noted with a read is no lower than any commit index any node has held up to then. */
  lemma {:induction false} PeakCovers(env: Env, ss: seq<Cluster>, acts: seq<Action>, i: nat, j: nat, n: NodeId)
    requires IsRun(env, ss, acts) && i <= j < |ss| && n in ss[i].mem
    ensures ss[i].mem[n].commit <= ss[j].peak
  {
    hide IsRun, Remembers, Good, HistOk, Cycle, Handle, Restart;
    if i == j {
      var h, _ := TwoMoments(env, ss, acts, i, j);
      assert Inv(env, h, ss[j]);
    } else {
      PeakCovers(env, ss, acts, i, j - 1, n);
      RunStep(env, ss, acts, j - 1);
    }
  }

  lemma RunStep(env: Env, ss: seq<Cluster>, acts: seq<Action>, i: nat)
    requires IsRun(env, ss, acts) && i + 1 < |ss|
    ensures StepAt(env, ss, acts, i)
  {
    hide Initial, Next;
  }

  /** ReadIndex safety: a read that is answered carries an index no lower than its floor, the highest
      commit index any node of the cluster had ever held when it began, and no higher than the
      answering node's own. */
  lemma ReadsAreFresh(env: Env, ss: seq<Cluster>, acts: seq<Action>, i: nat, r: ReadState)
    requires IsRun(env, ss, acts) && i < |acts| && StepAt(env, ss, acts, i) && r in Answers(env, ss[i], acts[i])
    ensures Actor(acts[i]) in ss[i].mem && r.floor <= r.index <= ss[i].mem[Actor(acts[i])].commit
  {
    hide Inv, Remembers, IsRun, Next;
    var h, _ := TwoMoments(env, ss, acts, i, i);
    var a := acts[i];
    var _ := WorkGoes(env, h, ss[i], a);
    NodeOf(env, h, ss[i], a.n);
    ConfirmedIsFresh(env, h, a.n, ss[i].mem[a.n], ss[i].disk[a.n]);
  }

  lemma ConfirmedIsFresh(env: Env, h: History, n: NodeId, m: Raft, d: Disk)
    requires Good(env, h, n, m, d)
    ensures forall r :: r in m.out.confirmed ==> r.floor <= r.index <= m.commit
  {
    assert ReadsOk(env, h, n, m, StoredOf(d));
  }

  // ---- the clamps and the disk ----------------------------------------------------------------------------

  /** The clamps never fire: an append that is delivered, whatever the sender's term and whatever the
      receiver's role, neither lowers the commit index nor touches an entry at or below it. */
  lemma ClampsNeverFire(env: Env, ss: seq<Cluster>, acts: seq<Action>, i: nat, p: Packet, draw: nat)
    requires IsRun(env, ss, acts) && i < |ss| && p in ss[i].net && p.dst in ss[i].mem && p.msg.body.AppendReq?
    ensures var m, b := ss[i].mem[p.dst], p.msg.body;
            var m' := Step(env, m, p.src, p.msg, draw);
            && CommittedStays(m, m')
            && m'.commit in {m.commit, Max(m.commit, Min(b.commit, LastNew(b.prevIndex, b.entries)))}
  {
    hide *;
    var h, _ := TwoMoments(env, ss, acts, i, i);
    NodeOf(env, h, ss[i], p.dst);
    AppendIsSafe(env, h, p.dst, ss[i].mem[p.dst], ss[i].disk[p.dst], p, draw);
  }

  /** What was committed still is, and is still there. */
  ghost predicate CommittedStays(m: Raft, m': Raft) {
    && m.commit <= m'.commit && m.commit <= |m.log.full| && m'.commit <= |m'.log.full|
    && m'.log.full[..m.commit] == m.log.full[..m.commit]
  }

  lemma AppendIsSafe(env: Env, h: History, n: NodeId, m: Raft, d: Disk, p: Packet, draw: nat)
    requires HistOk(env, h) && Good(env, h, n, m, d) && p in h.net && p.dst == n && p.msg.body.AppendReq?
    ensures var b := p.msg.body;
            var m' := Step(env, m, p.src, p.msg, draw);
            && CommittedStays(m, m')
            && m'.commit in {m.commit, Max(m.commit, Min(b.commit, LastNew(b.prevIndex, b.entries)))}
  {
    hide HistOk, NodeOk, Tidy, Readable, StoredOf, Accept, CommittedStays, TermAt, Defer, Step, ObserveTerm,
         DeferredBy;
    var b, m1, m2, m' := p.msg.body, ObserveTerm(m, p.src, p.msg), DeferredBy(m, p), Step(env, m, p.src, p.msg, draw);
    CommittedThere(env, h, n, m, d);
    StepOfAppend(env, m, p, draw);
    if Accepts(m, p) {
      ObserveKeeps(env, h, n, m, StoredOf(d), p);
      NodeIsNamed(env, h, n, m1, StoredOf(d));
      DeferKeeps(env, h, n, m1, StoredOf(d), p.src);
      DeferredIs(m, p);
      AcceptIsSafe(env, h, n, m2, d, p);
      SameCommitted(m, m2, Accept(m2, b.prevIndex, b.entries, b.commit), m');
    } else {
      SameCommitted(m, m, m, m');
    }
  }

  /** The receiver of an append after the term rule and after deferring to the sender. */
  function DeferredBy(m: Raft, p: Packet): Raft {
    Defer(ObserveTerm(m, p.src, p.msg), p.src)
  }

  /** It takes the entries over. */
  predicate Accepts(m: Raft, p: Packet)
    requires p.msg.body.AppendReq?
  {
    var b, m2 := p.msg.body, DeferredBy(m, p);
    p.msg.term >= m2.term && m2.log.base <= b.prevIndex && TermAt(m2.log, b.prevIndex) == Some(b.prevTerm)
  }

  lemma DeferredIs(m: Raft, p: Packet)
    requires p.msg.body.AppendReq?
    ensures var m1, m2 := ObserveTerm(m, p.src, p.msg), DeferredBy(m, p);
            && m2 == Defer(m1, p.src) && m2.commit == m.commit && m2.log == m.log
            && m2.term == m1.term == Max(m.term, p.msg.term)
  {
  }

  lemma StepOfAppend(env: Env, m: Raft, p: Packet, draw: nat)
    requires p.msg.body.AppendReq?
    ensures var b, m' := p.msg.body, Step(env, m, p.src, p.msg, draw);
            if Accepts(m, p)
            then m'.commit == Accept(DeferredBy(m, p), b.prevIndex, b.entries, b.commit).commit
                 && m'.log == Accept(DeferredBy(m, p), b.prevIndex, b.entries, b.commit).log
            else m'.commit == m.commit && m'.log == m.log
  {
    hide Accept, BecomeFollower, TermAt, Defer, HandleAppend;
    DeferredIs(m, p);
    HandleOfAppend(ObserveTerm(m, p.src, p.msg), p);
  }

  lemma HandleOfAppend(m: Raft, p: Packet)
    requires p.msg.body.AppendReq?
    ensures var b := p.msg.body;
            var m2, m' := Defer(m, p.src), HandleAppend(m, p.src, b.prevIndex, b.prevTerm, b.entries, b.commit);
            if m2.log.base <= b.prevIndex && TermAt(m2.log, b.prevIndex) == Some(b.prevTerm)
            then m'.commit == Accept(m2, b.prevIndex, b.entries, b.commit).commit
                 && m'.log == Accept(m2, b.prevIndex, b.entries, b.commit).log
            else m'.commit == m2.commit && m'.log == m2.log
  {
    hide Accept, TermAt, FindConflictByTerm, Defer;
  }

  lemma CommittedThere(env: Env, h: History, n: NodeId, m: Raft, d: Disk)
    requires Good(env, h, n, m, d)
    ensures CommittedStays(m, m)
  {
    LogInBounds(env, h, n, m, StoredOf(d));
  }

  lemma SameCommitted(m: Raft, m1: Raft, m2: Raft, m3: Raft)
    requires m1.commit == m.commit && m1.log == m.log && CommittedStays(m1, m2) && m3.commit == m2.commit
    requires m3.log == m2.log
    ensures CommittedStays(m, m3)
  {
  }

  lemma AcceptIsSafe(env: Env, h: History, n: NodeId, m: Raft, d: Disk, p: Packet)
    requires HistOk(env, h) && NodeOk(env, h, n, m, StoredOf(d)) && AppendArrives(h, n, m, p)
    ensures var b := p.msg.body;
            var m' := Accept(m, b.prevIndex, b.entries, b.commit);
            CommittedStays(m, m') && m'.commit == Max(m.commit, Min(b.commit, LastNew(b.prevIndex, b.entries)))
  {
    assert LogsOk(h, n, m, StoredOf(d)) && CommitOk(h, m, StoredOf(d));
    hide StoredOf, LogsOk, CommitOk, HasQuorum;
    AppendKeepsCommitted(env, h, n, m, StoredOf(d), p);
    LogInBounds(env, h, n, m, StoredOf(d));
    ClampedWithin(m, p.msg.body.prevIndex, p.msg.body.entries, p.msg.body.commit);
  }

  lemma ClampedWithin(m: Raft, prev: nat, entries: seq<Entry>, commit: nat)
    ensures Accept(m, prev, entries, commit).commit <= |Accept(m, prev, entries, commit).log.full|
  {
    hide Merge;
  }

  /** A Ready cycle never stops the driver, and when it ends a restart would read back the node's
      term, vote and whole log. */
  lemma CyclesMirror(env: Env, ss: seq<Cluster>, acts: seq<Action>, i: nat)
    requires IsRun(env, ss, acts) && i < |acts| && StepAt(env, ss, acts, i) && acts[i].Work?
    ensures var n, s' := acts[i].n, ss[i + 1];
            && Cycle(env, ss[i].mem[n], ss[i].disk[n], acts[i].keep).Some?
            && RecoveredLog(s'.disk[n]) == s'.mem[n].log
            && s'.disk[n].hard.term == s'.mem[n].term && s'.disk[n].hard.vote == s'.mem[n].vote
  {
    hide Inv, Remembers, IsRun, Good, HistOk;
    var n := acts[i].n;
    var h, _ := TwoMoments(env, ss, acts, i, i);
    NodeOf(env, h, ss[i], n);
    GoodParts(env, h, n, ss[i].mem[n], ss[i].disk[n]);
    hide Cycle, RecoveredLog, Watermarked, VoteSaved;
    CycleMirrors(env, ss[i].mem[n], ss[i].disk[n], acts[i].keep);
  }
}
