/** A whole Ready cycle of the driver, against the history of the cluster. */
module RaftReady {
  import opened Types
  import opened Quorum
  import opened RaftLog
  import opened RaftNode
  import opened RaftDriver
  import opened RaftWatermark
  import opened RaftHistory
  import opened RaftGrowth
  import opened RaftInvariant
  import opened RaftSteps
  import opened RaftReplication
  import opened RaftHandlers
  import opened RaftCycle

  /** What a restart would read from a disk. */
  ghost function StoredOf(d: Disk): Stored {
    Stored(d.hard.term, d.hard.vote, d.hard.commit, RecoveredLog(d).full, |d.snapshot|)
  }

  lemma LogInBounds(env: Env, h: History, n: NodeId, m: Raft, st: Stored)
    requires NodeOk(env, h, n, m, st)
    ensures m.log.base <= m.applied <= m.commit <= |m.log.full| && Indexed(m.log.full)
  {
    assert CommitOk(h, m, st) && LogsOk(h, n, m, st);
  }

  lemma FlushSafe(env: Env, h: History, n: NodeId, m: Raft, d: Disk, m1: Raft, d1: Disk)
    requires Safe(env, h, n, m, StoredOf(d)) && Tidy(m, d) && Flush(m, d) == Some((m1, d1))
    ensures Grows(h, Synced(h, n, m)) && AddedBy(h, Synced(h, n, m), n)
    ensures Safe(env, Synced(h, n, m), n, m1, StoredOf(d1))
    ensures Flushed(m, m1)
  {
    LogInBounds(env, h, n, m, StoredOf(d));
    hide NodeOk, HistOk, Watermarked, VoteSaved, Flush, Grows, AddedBy, Mirrors, Synced;
    FlushMirrors(m, d);
    MirrorRecovers(m.log, d1);
    hide RecoveredLog;
    hide TakeReady, Flushed;
    FlushKeeps(env, h, n, m, m1, StoredOf(d), StoredOf(d1));
  }

  // ---- advancing ------------------------------------------------------------------------

  lemma AppliedKeeps(env: Env, h: History, n: NodeId, m: Raft, st: Stored, k: nat)
    requires NodeOk(env, h, n, m, st) && m.log.base <= k <= m.commit
    ensures NodeOk(env, h, n, m.(applied := k), st)
  {
    var m' := m.(applied := k);
    AcksUnmoved(h, n, m, m');
    AppliedRest(env, h, n, m, m', st);
  }

  lemma AppliedRest(env: Env, h: History, n: NodeId, m: Raft, m': Raft, st: Stored)
    requires m' == m.(applied := m'.applied) && m.log.base <= m'.applied <= m.commit
    requires LogsOk(h, n, m, st) && LeaderOk(h, n, m) && CandidateOk(env, h, n, m, st) && OwnLeads(h, n, m, st)
    requires VotesOk(h, n, m, st) && CommitOk(h, m, st) && ProgressOk(h, n, m) && PersistedOk(env, h, n, m, st)
    requires OutboxOk(h, n, m, st) && ReadsOk(env, h, n, m, st)
    ensures LogsOk(h, n, m', st) && LeaderOk(h, n, m') && CandidateOk(env, h, n, m', st) && OwnLeads(h, n, m', st)
    ensures VotesOk(h, n, m', st) && CommitOk(h, m', st) && ProgressOk(h, n, m') && PersistedOk(env, h, n, m', st)
    ensures OutboxOk(h, n, m', st) && ReadsOk(env, h, n, m', st)
  {
    forall p
      ensures QueuedOk(h, n, m, st, p) ==> QueuedOk(h, n, m', st, p)
      ensures AsksFor(p, n, m) ==> AsksFor(p, n, m')
    {
    }
    forall v
      ensures VoteSeen(h, n, m, v) ==> VoteSeen(h, n, m', v)
    {
    }
    forall r
      ensures ReadOk(env, h, m, r) ==> ReadOk(env, h, m', r)
    {
    }
  }

  lemma CountOwnKeeps(env: Env, h: History, n: NodeId, m: Raft, st: Stored)
    requires NodeOk(env, h, n, m, st) && m.id == n
    ensures NodeOk(env, h, n, CountOwn(m), st) && CountOwn(m).id == n
  {
    assert ProgressOk(h, n, m);
    SettleKeeps(env, h, n, m, CountOwn(m), st);
  }

  lemma AdvanceIfLeaderKeeps(env: Env, h: History, n: NodeId, m: Raft, st: Stored) returns (h': History)
    requires Safe(env, h, n, m, st) && m.id == n
    ensures Moves(h, h', n) && Safe(env, h', n, AdvanceIfLeader(env, m), st)
    ensures AdvanceIfLeader(env, m).commit >= m.commit && AdvanceIfLeader(env, m).log == m.log
  {
    hide NodeOk, HistOk, Moves;
    Still(h, n);
    h' := h;
    AdvanceMoves(env, m);
    if m.role == Leader { h' := AdvanceKeeps(env, h, n, m, st); }
  }

  /** `Raft::advance` after a flush, with what the `Ready` handed out applied. */
  lemma AdvanceReadyKeeps(env: Env, h: History, n: NodeId, m: Raft, st: Stored, ready: Ready) returns (h': History)
    requires Safe(env, h, n, m, st) && m.id == n
    requires ready.committed != [] ==> m.log.base <= ready.committed[|ready.committed| - 1].index <= m.commit
    ensures Moves(h, h', n) && Safe(env, h', n, Advance(env, m, ready), st)
  {
    hide NodeOk, HistOk, Moves, AdvanceIfLeader, CountOwn;
    var m1 := NoteSaved(m, ready);
    QuietKeeps(env, h, n, m, m1, st);
    CountOwnKeeps(env, h, n, m1, st);
    CountOwnLog(m1);
    var m2 := CountOwn(m1);
    h' := AdvanceIfLeaderKeeps(env, h, n, m2, st);
    NoteAppliedKeeps(env, h', n, AdvanceIfLeader(env, m2), st, ready.committed);
  }

  lemma CountOwnLog(m: Raft)
    ensures CountOwn(m).log == m.log && CountOwn(m).commit == m.commit
  {
  }

  lemma NoteAppliedKeeps(env: Env, h: History, n: NodeId, m: Raft, st: Stored, committed: seq<Entry>)
    requires NodeOk(env, h, n, m, st)
    requires committed != [] ==> m.log.base <= committed[|committed| - 1].index <= m.commit
    ensures NodeOk(env, h, n, NoteApplied(m, committed).(dirtyFrom := None), st)
  {
    hide NodeOk;
    var m' := NoteApplied(m, committed);
    if committed != [] { AppliedKeeps(env, h, n, m, st, committed[|committed| - 1].index); }
    QuietKeeps(env, h, n, m', m'.(dirtyFrom := None), st);
  }

  // ---- shipping snapshots --------------------------------------------------------------------

  /** A snapshot of an applied prefix is evidence of its own commitment. */
  lemma SnapshotIsQueued(h: History, n: NodeId, m: Raft, st: Stored, peer: NodeId, k: nat)
    requires LogsOk(h, n, m, st) && LeaderOk(h, n, m) && CommitOk(h, m, st) && m.role == Leader && peer != n
    requires k <= m.commit
    ensures QueuedOk(h, n, m, st, Packet(n, peer, Message(m.term, SnapshotReq(Image(m.log.full[..k]))), m.log.full))
  {
    var prefix := m.log.full[..k];
    assert prefix[..k] == m.log.full[..k];
    EvidencePrefix(h, m.log.full, m.commit, prefix, k, m.term);
  }

  lemma SendSnapshotKeeps(env: Env, h: History, n: NodeId, m: Raft, st: Stored, peer: NodeId, k: nat)
    requires NodeOk(env, h, n, m, st) && m.id == n && m.role == Leader && peer != n && k <= m.commit
    requires k <= |m.log.full|
    ensures NodeOk(env, h, n, SendSnapshot(m, peer, Image(m.log.full[..k])), st)
    ensures var m' := SendSnapshot(m, peer, Image(m.log.full[..k]));
            m'.id == n && m'.role == Leader && m'.commit == m.commit && m'.log == m.log
  {
    hide LogsOk, LeaderOk, CandidateOk, OwnLeads, VotesOk, DiskKeepsAcks, MemoryKeepsAcks, GrantsKeepAcks,
         LeadsKeepAcks;
    hide CommitOk, ProgressOk, PersistedOk, OutboxOk, ReadsOk, QueuedOk;
    var image := Image(m.log.full[..k]);
    var m1 := if peer in m.progress
              then m.(progress := m.progress[peer := m.progress[peer].(
                        pendingSnapshot := |image.prefix|, age := 0, state := Snapshotting)])
              else m;
    QuietKeeps(env, h, n, m, m1, st);
    SnapshotIsQueued(h, n, m1, st, peer, k);
    QueueKeeps(env, h, n, m1, st, Packet(n, peer, Message(m.term, SnapshotReq(image)), m.log.full));
  }

  lemma {:induction false} SendSnapshotsKeep(env: Env, h: History, n: NodeId, m: Raft, st: Stored, peers: seq<NodeId>,
                                             k: nat)
    requires NodeOk(env, h, n, m, st) && m.id == n && m.role == Leader && n !in peers && k <= m.commit
    requires k <= |m.log.full|
    ensures NodeOk(env, h, n, SendSnapshots(m, peers, Image(m.log.full[..k])), st)
    decreases |peers|
  {
    if peers != [] {
      hide NodeOk, SendSnapshot;
      var image := Image(m.log.full[..k]);
      SendSnapshotKeeps(env, h, n, m, st, peers[0], k);
      SendSnapshotsKeep(env, h, n, SendSnapshot(m, peers[0], image), st, peers[1..], k);
    }
  }

  lemma ShipKeeps(env: Env, h: History, n: NodeId, m: Raft, st: Stored)
    requires NodeOk(env, h, n, m, st) && m.id == n && m.applied <= m.commit && m.applied <= |m.log.full|
    ensures NodeOk(env, h, n, ShipSnapshots(m), st)
  {
    hide NodeOk, SendSnapshots, Ascending;
    if m.role == Leader && SnapshotAtApplied(m).Some? {
      SendSnapshotsKeep(env, h, n, m, st, Ascending(NeedSnapshot(m)), m.applied);
    }
  }

  // ---- compaction -------------------------------------------------------------------------------

  /** Compacting behind a stored snapshot of the applied prefix. */
  lemma CompactKeeps(env: Env, h: History, n: NodeId, m: Raft, m': Raft, st: Stored, st': Stored)
    requires NodeOk(env, h, n, m, st) && m.log.base <= m.applied
    requires m' == m.(log := m.log.(base := m.applied)) && st' == st.(snap := m.applied) && st.log == m.log.full
    requires st.term == m.term
    ensures NodeOk(env, h, n, m', st')
  {
    AcksUnmoved(h, n, m, m');
    CompactRest(env, h, n, m, m', st, st');
  }

  lemma CompactRest(env: Env, h: History, n: NodeId, m: Raft, m': Raft, st: Stored, st': Stored)
    requires m' == m.(log := m.log.(base := m.applied)) && st' == st.(snap := m.applied) && st.log == m.log.full
    requires st.term == m.term
    requires LogsOk(h, n, m, st) && LeaderOk(h, n, m) && CandidateOk(env, h, n, m, st) && OwnLeads(h, n, m, st)
    requires VotesOk(h, n, m, st) && CommitOk(h, m, st) && ProgressOk(h, n, m) && PersistedOk(env, h, n, m, st)
    requires OutboxOk(h, n, m, st) && ReadsOk(env, h, n, m, st) && DiskKeepsAcks(h, n, st)
    ensures LogsOk(h, n, m', st') && LeaderOk(h, n, m') && CandidateOk(env, h, n, m', st') && OwnLeads(h, n, m', st')
    ensures VotesOk(h, n, m', st') && CommitOk(h, m', st') && ProgressOk(h, n, m') && PersistedOk(env, h, n, m', st')
    ensures OutboxOk(h, n, m', st') && ReadsOk(env, h, n, m', st') && DiskKeepsAcks(h, n, st')
  {
    EvidencePrefix(h, m.log.full, m.commit, st.log, Max(st.commit, m.applied), m.term);
    forall p
      ensures QueuedOk(h, n, m, st, p) ==> QueuedOk(h, n, m', st', p)
      ensures AsksFor(p, n, m) ==> AsksFor(p, n, m')
    {
    }
    forall v
      ensures VoteSeen(h, n, m, v) ==> VoteSeen(h, n, m', v)
    {
    }
    forall r
      ensures ReadOk(env, h, m, r) ==> ReadOk(env, h, m', r)
    {
    }
  }

  lemma HousekeepChoices(env: Env, c: Cycled, keep: nat)
    requires c.m.applied <= |c.m.log.full|
    ensures var c' := Housekeep(env, c, keep);
            || c' == c
            || (&& c'.m == c.m.(log := c.m.log.(base := c.m.applied)) && c.m.log.base <= c.m.applied
                && c'.d.hard == c.d.hard && |c'.d.snapshot| == c.m.applied)
    ensures var c' := Housekeep(env, c, keep);
            c'.sent == c.sent && c'.committed == c.committed && c'.confirmed == c.confirmed
  {
  }

  // ---- the whole cycle ------------------------------------------------------------------------------

  /** The history after a cycle of `n`'s, and what the cycle handed out. */
  ghost predicate Cycles(h: History, h': History, n: NodeId, sent: seq<Packet>) {
    && Grows(h, h') && AddedBy(h, h', n) && h'.asked == h.asked
    && h'.net == h.net + (set p | p in sent)
  }

  lemma CyclesThenMoves(h: History, h1: History, h2: History, n: NodeId, sent: seq<Packet>)
    requires Cycles(h, h1, n, sent) && Moves(h1, h2, n)
    ensures Cycles(h, h2, n, sent)
  {
    forall t | t in h.led
      ensures t in h2.led && LeadGrows(h.led[t], h2.led[t])
    {
      assert LeadGrows(h.led[t], h1.led[t]) && LeadGrows(h1.led[t], h2.led[t]);
      assert h2.led[t].log[..|h1.led[t].log|][..|h.led[t].log|] == h2.led[t].log[..|h.led[t].log|];
    }
  }

  lemma SyncedCycles(h: History, n: NodeId, m: Raft)
    requires Grows(h, Synced(h, n, m)) && AddedBy(h, Synced(h, n, m), n)
    ensures Cycles(h, Synced(h, n, m), n, m.out.messages)
  {
  }

  /** The last entry a cycle hands out is the committed one. */
  lemma LastCommitted(m: Raft)
    requires m.log.base <= m.applied <= m.commit <= |m.log.full| && Indexed(m.log.full)
    ensures var committed := TakeReady(m).1.committed;
            committed != [] ==> m.log.base <= committed[|committed| - 1].index <= m.commit
  {
    hide TakeReady;
    ReadyCommitted(m);
  }

  /** Flush, advance and ship, before the housekeeping. */
  lemma AdvancedKeeps(env: Env, h: History, n: NodeId, m: Raft, d: Disk, m1: Raft, d1: Disk) returns (h': History)
    requires Safe(env, h, n, m, StoredOf(d)) && Tidy(m, d) && Flush(m, d) == Some((m1, d1))
    ensures Cycles(h, h', n, m.out.messages)
    ensures Safe(env, h', n, Advance(env, m1, TakeReady(m).1), StoredOf(d1))
  {
    hide NodeOk, HistOk, Tidy, Flush, Cycles, Moves, Advance, TakeReady, Synced, Grows, AddedBy, StoredOf, Flushed,
         Indexed;
    LogInBounds(env, h, n, m, StoredOf(d));
    LastCommitted(m);
    FlushSafe(env, h, n, m, d, m1, d1);
    FlushedSame(m, m1);
    SyncedCycles(h, n, m);
    var h1 := Synced(h, n, m);
    NodeIdIs(env, h1, n, m1, StoredOf(d1));
    h' := AdvanceReadyKeeps(env, h1, n, m1, StoredOf(d1), TakeReady(m).1);
    CyclesThenMoves(h, h1, h', n, m.out.messages);
  }

  lemma FlushedSame(m: Raft, m1: Raft)
    requires Flushed(m, m1)
    ensures m1.log == m.log && m1.commit == m.commit
  {
  }

  lemma NodeIdIs(env: Env, h: History, n: NodeId, m: Raft, st: Stored)
    requires NodeOk(env, h, n, m, st)
    ensures m.id == n
  {
    assert LogsOk(h, n, m, st);
  }

  lemma ShippedSettles(m: Raft, d: Disk)
    requires RaftDriver.Settled(m, d)
    ensures RaftDriver.Settled(ShipSnapshots(m), d)
  {
    hide ShipSnapshots, Mirrors;
    ShipFrame(m);
  }

  lemma CycleIs(env: Env, m: Raft, d: Disk, keep: nat, m1: Raft, d1: Disk)
    requires Flush(m, d) == Some((m1, d1))
    ensures var ready := TakeReady(m).1;
            var m2 := ShipSnapshots(Advance(env, m1, ready));
            Cycle(env, m, d, keep)
            == Some(Housekeep(env, Cycled(m2, d1, m.out.messages, ready.committed, m.out.confirmed), keep))
  {
    hide Flush, Housekeep, ShipSnapshots, Advance;
  }

  /** A Ready cycle keeps the invariant, hands out exactly the entries between what was applied and
      what was committed, and sends exactly what was queued. */
  lemma CycleKeeps(env: Env, h: History, n: NodeId, m: Raft, d: Disk, keep: nat) returns (h': History)
    requires Safe(env, h, n, m, StoredOf(d)) && Tidy(m, d)
    ensures Cycle(env, m, d, keep).Some?
    ensures var c := Cycle(env, m, d, keep).value;
            && Cycles(h, h', n, c.sent) && Safe(env, h', n, c.m, StoredOf(c.d)) && Tidy(c.m, c.d)
            && m.applied <= m.commit <= |m.log.full| && c.committed == m.log.full[m.applied..m.commit]
            && c.confirmed == m.out.confirmed
  {
    LogInBounds(env, h, n, m, StoredOf(d));
    ReadyCommitted(m);
    FlushMirrors(m, d);
    var (m1, d1) := Flush(m, d).value;
    assert Watermarked(m, d) && VoteSaved(m, d);
    hide NodeOk, HistOk, Tidy, Watermarked, VoteSaved, Flush, Cycles, RaftDriver.Settled, Advance, TakeReady, Cycle,
         Housekeep, ShipSnapshots, StoredOf;
    h' := AdvancedKeeps(env, h, n, m, d, m1, d1);
    AdvanceSettles(env, m, d, m1, d1);
    CycleIs(env, m, d, keep, m1, d1);
    var ready := TakeReady(m).1;
    var m2 := Advance(env, m1, ready);
    LogInBounds(env, h', n, m2, StoredOf(d1));
    NodeIdIs(env, h', n, m2, StoredOf(d1));
    ShipKeeps(env, h', n, m2, StoredOf(d1));
    ShippedSettles(m2, d1);
    var c := Cycled(ShipSnapshots(m2), d1, m.out.messages, ready.committed, m.out.confirmed);
    LogInBounds(env, h', n, c.m, StoredOf(d1));
    HousekeepChoices(env, c, keep);
    HousekeepSettles(env, c, keep);
    var c' := Housekeep(env, c, keep);
    SettledStored(c.m, c.d);
    SettledStored(c'.m, c'.d);
    if c' != c { CompactKeeps(env, h', n, c.m, c'.m, StoredOf(c.d), StoredOf(c'.d)); }
    SettledIsTidy(c'.m, c'.d);
  }

  lemma SettledStored(m: Raft, d: Disk)
    requires RaftDriver.Settled(m, d)
    ensures StoredOf(d) == Stored(m.term, m.vote, d.hard.commit, m.log.full, |d.snapshot|)
  {
    hide Mirrors, RecoveredLog;
    MirrorRecovers(m.log, d);
  }

  lemma SettledIsTidy(m: Raft, d: Disk)
    requires RaftDriver.Settled(m, d)
    ensures Tidy(m, d)
  {
  }
}
