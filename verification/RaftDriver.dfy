/** The driver's Ready cycle over an abstract disk (crates/chronolog/src/node.rs:431-547, 594-675).

    The durable log is a plain indexed sequence here; `SegmentedWal` shows that the segmented files
    implement it. A cycle is one atomic step. */
module RaftDriver {
  import opened Types
  import opened Quorum
  import opened RaftLog
  import opened RaftNode

  /** A durable log holding the entries from index `first` on. */
  datatype Wal = Wal(first: nat, entries: seq<Entry>)

  /** What survives a crash. `snapshot` is the prefix the stored snapshot covers, empty if none. */
  datatype Disk = Disk(hard: HardState, snapshot: seq<Entry>, wal: Wal)

  ghost predicate WalOk(w: Wal) {
    w.first >= 1 && forall i :: 0 <= i < |w.entries| ==> w.entries[i].index == w.first + i
  }

  function WalLast(w: Wal): int {
    w.first + |w.entries| - 1
  }

  function WalReset(index: nat): Wal {
    Wal(index + 1, [])
  }

  function WalTruncate(w: Wal, from: nat): Wal {
    if from > WalLast(w) then w
    else if from <= w.first then WalReset(if from == 0 then 0 else from - 1)
    else w.(entries := w.entries[..from - w.first])
  }

  /** Appending refuses a batch that does not continue the log; the driver then stops. */
  function WalAppend(w: Wal, batch: seq<Entry>): Option<Wal> {
    if forall i :: 0 <= i < |batch| ==> batch[i].index == WalLast(w) + 1 + i
    then Some(w.(entries := w.entries + batch)) else None
  }

  /** Compaction drops whole segments below `through`, leaving the log to start at `keep`. */
  function WalCompact(w: Wal, through: nat, keep: nat): Wal {
    if w.first <= keep <= through && keep <= WalLast(w) + 1 then Wal(keep, w.entries[keep - w.first..]) else w
  }

  function Persist(d: Disk, ready: Ready, truncateTo: Option<nat>): Option<Disk> {
    var d := if truncateTo.Some? then d.(wal := WalTruncate(d.wal, truncateTo.value)) else d;
    var d := match ready.snapshot
             case Some(image) => d.(snapshot := image.prefix, wal := WalReset(|image.prefix|))
             case None => d;
    var d := if ready.hard.Some? then d.(hard := ready.hard.value) else d;
    match WalAppend(d.wal, ready.entries)
    case Some(w) => Some(d.(wal := w))
    case None => None
  }

  /** Bring the log on disk level with memory: start it again if it does not fit, then write what it lacks. */
  function Reconcile(d: Disk, log: Log): Option<Disk> {
    if WalLast(d.wal) == LastIndex(log) && WalLast(d.wal) + 1 >= FirstIndex(log) then Some(d)
    else
      var w := if WalLast(d.wal) > LastIndex(log) || WalLast(d.wal) + 1 < FirstIndex(log)
               then WalReset(log.base) else d.wal;
      var from := WalLast(w) + 1;
      match WalAppend(w, EntriesFrom(log, from))
      case Some(w) => Some(d.(wal := w))
      case None => None
  }

  predicate SafeToCompact(image: Image, m: Raft, d: Disk) {
    |image.prefix| > m.log.base && |image.prefix| <= WalLast(d.wal)
  }

  /** Everything one cycle produces. */
  datatype Cycled = Cycled(
    m: Raft, d: Disk, sent: seq<Packet>, committed: seq<Entry>, confirmed: seq<ReadState>)

  /** Take a snapshot at the applied index and compact behind it, if it is time to. */
  function Housekeep(env: Env, c: Cycled, keep: nat): Cycled {
    if !ShouldSnapshot(env, c.m) then c
    else match SnapshotAtApplied(c.m)
      case None => c
      case Some(image) =>
        if !SafeToCompact(image, c.m, c.d) then c
        else c.(m := Compact(c.m, image),
                d := c.d.(snapshot := image.prefix, wal := WalCompact(c.d.wal, |image.prefix|, keep)))
  }

  /** Persist and reconcile, then learn from the durable log what is durable. */
  function Flush(m: Raft, d: Disk): Option<(Raft, Disk)> {
    var (m1, ready) := TakeReady(m);
    match Persist(d, ready, m.dirtyFrom)
    case None => None
    case Some(d1) =>
      match Reconcile(d1, m1.log)
      case None => None
      case Some(d2) => Some((SetPersisted(m1, if WalLast(d2.wal) < 0 then 0 else WalLast(d2.wal)), d2))
  }

  /** One Ready cycle: flush, send, apply, advance, and then the housekeeping. `None` is a driver
      that stopped. */
  function Cycle(env: Env, m: Raft, d: Disk, keep: nat): Option<Cycled> {
    match Flush(m, d)
    case None => None
    case Some((m1, d1)) =>
      var ready := TakeReady(m).1;
      var m2 := ShipSnapshots(Advance(env, m1, ready));
      Some(Housekeep(env, Cycled(m2, d1, ready.messages, ready.committed, ready.confirmed), keep))
  }

  /** The entries of a list above an index. */
  function AboveIndex(entries: seq<Entry>, k: nat): seq<Entry> {
    if entries == [] then []
    else if entries[0].index > k then [entries[0]] + AboveIndex(entries[1..], k)
    else AboveIndex(entries[1..], k)
  }

  /** The log recovery hands to `Raft::restore`. */
  function RecoveredLog(d: Disk): Log {
    Log(d.snapshot + AboveIndex(d.wal.entries, |d.snapshot|), |d.snapshot|)
  }

  function Restart(env: Env, id: NodeId, d: Disk): Raft {
    Restored(env, id, d.hard, RecoveredLog(d))
  }

  function BlankDisk(): Disk {
    Disk(HardState(0, None, 0), [], Wal(1, []))
  }

  // ---- the durable log mirrors memory ---------------------------------------------------

  /** The durable log and a full log agree on the indices in `(lo, hi]`. */
  ghost predicate AgreeOn(w: Wal, full: seq<Entry>, lo: int, hi: int) {
    && 0 <= lo <= hi && w.first - 1 <= lo && hi <= WalLast(w) && hi <= |full|
    && full[lo..hi] == w.entries[lo + 1 - w.first..hi + 1 - w.first]
  }

  /** The watermark covers every difference between the durable log and the in-memory one. */
  ghost predicate Watermarked(m: Raft, d: Disk) {
    && WalOk(d.wal) && Indexed(m.log.full) && m.log.base <= |m.log.full|
    && (m.dirtyFrom.Some? ==> m.log.base < m.dirtyFrom.value <= |m.log.full| + 1)
    && match m.out.snapshot
       case None =>
         && d.snapshot == m.log.full[..m.log.base]
         && d.wal.first - 1 <= m.log.base <= WalLast(d.wal)
         && (match m.dirtyFrom
             case None => WalLast(d.wal) == |m.log.full| && AgreeOn(d.wal, m.log.full, m.log.base, |m.log.full|)
             case Some(k) => AgreeOn(d.wal, m.log.full, m.log.base, k - 1))
       case Some(image) =>
         && image.prefix == m.log.full[..m.log.base]
         && (match m.dirtyFrom
             case None => |m.log.full| == m.log.base
             case Some(k) => k == m.log.base + 1)
  }

  /** What the node remembers of its stored vote is what the disk holds. */
  ghost predicate VoteSaved(m: Raft, d: Disk) {
    && m.savedHard.term == d.hard.term && m.savedHard.vote == d.hard.vote
    && (!m.hardDirty ==> m.term == d.hard.term && m.vote == d.hard.vote)
  }

  /** The disk holds exactly the in-memory log: the snapshot is its compacted prefix, and the
      durable entries above it are the in-memory ones. */
  ghost predicate Mirrors(log: Log, d: Disk) {
    && WalOk(d.wal) && Indexed(log.full) && log.base <= |log.full|
    && d.snapshot == log.full[..log.base]
    && d.wal.first - 1 <= log.base && WalLast(d.wal) == |log.full|
    && d.wal.entries[log.base + 1 - d.wal.first..] == log.full[log.base..]
  }

  lemma AgreeToTheEnd(w: Wal, full: seq<Entry>, base: nat)
    requires AgreeOn(w, full, base, |full|) && WalLast(w) == |full|
    ensures w.entries[base + 1 - w.first..] == full[base..]
  {
    assert full[base..|full|] == full[base..];
    assert w.entries[base + 1 - w.first..|full| + 1 - w.first] == w.entries[base + 1 - w.first..];
  }

  /** Cutting the durable log at a watermark keeps what lies below it. */
  lemma TruncateKeeps(w: Wal, full: seq<Entry>, base: nat, k: nat)
    requires WalOk(w) && w.first - 1 <= base < k && AgreeOn(w, full, base, k - 1)
    ensures var t := WalTruncate(w, k);
            WalOk(t) && WalLast(t) == k - 1 && AgreeOn(t, full, base, k - 1)
  {
    var t := WalTruncate(w, k);
    if k <= WalLast(w) && k > w.first {
      var lo, hi := base + 1 - w.first, k - w.first;
      assert t.entries[lo..hi] == w.entries[lo..hi];
    }
  }

  /** Appending the in-memory suffix to a durable log that ends where it starts completes it. */
  lemma AppendCompletes(t: Wal, full: seq<Entry>, base: nat, k: nat)
    requires WalOk(t) && Indexed(full) && base <= k <= |full| && WalLast(t) == k && AgreeOn(t, full, base, k)
    ensures var a := Wal(t.first, t.entries + full[k..]);
            WalAppend(t, full[k..]) == Some(a)
            && WalOk(a) && WalLast(a) == |full| && AgreeOn(a, full, base, |full|)
  {
    var a, lo := Wal(t.first, t.entries + full[k..]), base + 1 - t.first;
    assert t.entries[lo..k + 1 - t.first] == t.entries[lo..];
    assert a.entries[lo..|full| + 1 - t.first] == t.entries[lo..] + full[k..];
    assert full[base..|full|] == full[base..k] + full[k..];
  }

  /** What persisting leaves of the durable log, and that it ends where memory does. */
  lemma PersistedWal(m: Raft, d: Disk, ready: Ready)
    requires Watermarked(m, d) && m.out.snapshot == None && ready.snapshot == None
    requires ready.entries == if m.dirtyFrom.Some? then m.log.full[m.dirtyFrom.value - 1..] else []
    ensures var d' := Persist(d, ready, m.dirtyFrom);
            && d'.Some? && d'.value.snapshot == d.snapshot && WalOk(d'.value.wal)
            && d'.value.wal.first - 1 <= m.log.base && WalLast(d'.value.wal) == |m.log.full|
            && AgreeOn(d'.value.wal, m.log.full, m.log.base, |m.log.full|)
  {
    if m.dirtyFrom.Some? {
      var k := m.dirtyFrom.value;
      TruncateKeeps(d.wal, m.log.full, m.log.base, k);
      AppendCompletes(WalTruncate(d.wal, k), m.log.full, m.log.base, k - 1);
    } else {
      assert d.wal.entries + [] == d.wal.entries;
    }
  }

  lemma PersistInPlace(m: Raft, d: Disk, ready: Ready)
    requires Watermarked(m, d) && m.out.snapshot == None && ready.snapshot == None
    requires ready.entries == if m.dirtyFrom.Some? then m.log.full[m.dirtyFrom.value - 1..] else []
    ensures Persist(d, ready, m.dirtyFrom).Some?
    ensures Mirrors(m.log, Persist(d, ready, m.dirtyFrom).value)
  {
    hide Persist, AgreeOn, WalOk;
    PersistedWal(m, d, ready);
    AgreeToTheEnd(Persist(d, ready, m.dirtyFrom).value.wal, m.log.full, m.log.base);
  }

  lemma ResetThenAppend(full: seq<Entry>, base: nat)
    requires Indexed(full) && base <= |full|
    ensures var a := Wal(base + 1, full[base..]);
            WalAppend(WalReset(base), full[base..]) == Some(a)
            && WalOk(a) && WalLast(a) == |full| && AgreeOn(a, full, base, |full|)
  {
    assert [] + full[base..] == full[base..];
  }

  lemma PersistAfterSnapshot(m: Raft, d: Disk, ready: Ready)
    requires Watermarked(m, d) && m.out.snapshot.Some? && ready.snapshot == m.out.snapshot
    requires ready.entries == if m.dirtyFrom.Some? then m.log.full[m.dirtyFrom.value - 1..] else []
    ensures Persist(d, ready, m.dirtyFrom).Some?
    ensures Mirrors(m.log, Persist(d, ready, m.dirtyFrom).value)
  {
    ResetThenAppend(m.log.full, m.log.base);
    assert ready.entries == m.log.full[m.log.base..];
  }

  lemma {:induction false} NoneAbove(entries: seq<Entry>, k: nat)
    requires forall i :: 0 <= i < |entries| ==> entries[i].index > k
    ensures AboveIndex(entries, k) == entries
  {
    if entries != [] { NoneAbove(entries[1..], k); }
  }

  lemma {:induction false} AboveIsSuffix(w: Wal, k: nat)
    requires WalOk(w) && w.first - 1 <= k <= WalLast(w)
    ensures AboveIndex(w.entries, k) == w.entries[k + 1 - w.first..]
    decreases |w.entries|
  {
    if w.entries != [] && w.first <= k {
      AboveIsSuffix(Wal(w.first + 1, w.entries[1..]), k);
    } else {
      NoneAbove(w.entries, k);
    }
  }

  /** A restart reads back exactly the mirrored log. */
  lemma MirrorRecovers(log: Log, d: Disk)
    requires Mirrors(log, d)
    ensures RecoveredLog(d) == log
  {
    AboveIsSuffix(d.wal, log.base);
    assert log.full[..log.base] + log.full[log.base..] == log.full;
  }

  /** What recovery reads from a disk is all the disk holds: the log goes on where the snapshot ends. */
  ghost predicate Readable(d: Disk) {
    WalOk(d.wal) && Indexed(d.snapshot) && d.wal.first - 1 <= |d.snapshot| <= WalLast(d.wal)
  }

  lemma MirrorReadable(log: Log, d: Disk)
    requires Mirrors(log, d)
    ensures Readable(d)
  {
  }

  lemma ReadableMirrors(d: Disk)
    requires Readable(d)
    ensures Mirrors(RecoveredLog(d), d)
  {
    AboveIsSuffix(d.wal, |d.snapshot|);
  }

  // ---- a cycle always succeeds and leaves a mirror --------------------------------------------------

  lemma FlushMirrors(m: Raft, d: Disk)
    requires Watermarked(m, d) && VoteSaved(m, d)
    ensures Flush(m, d).Some?
    ensures var (m', d') := Flush(m, d).value;
            && Mirrors(m.log, d')
            && m' == TakeReady(m).0.(persisted := |m.log.full|)
            && d'.hard.term == m.term && d'.hard.vote == m.vote
            && d'.hard == (if TakeReady(m).1.hard.Some? then HardStateOf(m) else d.hard)
  {
    if m.out.snapshot.None? {
      PersistInPlace(m, d, TakeReady(m).1);
    } else {
      PersistAfterSnapshot(m, d, TakeReady(m).1);
    }
  }

  /** What the mirror needs between a flush and the next input. */
  ghost predicate Settled(m: Raft, d: Disk) {
    && Mirrors(m.log, d) && m.dirtyFrom == None && m.out.snapshot == None
    && m.savedHard.term == d.hard.term && m.savedHard.vote == d.hard.vote
    && m.term == d.hard.term && m.vote == d.hard.vote
  }

  /** The parts of a node the mirror depends on, and what it has applied. */
  ghost predicate SameStored(m: Raft, m': Raft) {
    m'.log == m.log && m'.term == m.term && m'.vote == m.vote && m'.out == m.out && m'.savedHard == m.savedHard
  }

  lemma AdvanceCommitFrame(env: Env, m: Raft)
    ensures SameStored(m, AdvanceIfLeader(env, m)) && AdvanceIfLeader(env, m).applied == m.applied
  {
  }

  lemma CountOwnFrame(m: Raft)
    ensures SameStored(m, CountOwn(m)) && CountOwn(m).applied == m.applied
  {
  }

  lemma AdvanceFrame(env: Env, m: Raft, ready: Ready)
    ensures var m' := Advance(env, m, ready);
            && SameStored(NoteSaved(m, ready), m') && m'.dirtyFrom == None
            && m'.applied == NoteApplied(m, ready.committed).applied
  {
    var m1 := NoteSaved(m, ready);
    CountOwnFrame(m1);
    AdvanceCommitFrame(env, CountOwn(m1));
    hide AdvanceIfLeader, CountOwn;
  }

  lemma ReadyCommitted(m: Raft)
    requires m.log.base <= m.applied <= m.commit <= |m.log.full|
    ensures TakeReady(m).1.committed == m.log.full[m.applied..m.commit]
  {
  }

  lemma TakeReadyFrame(m: Raft)
    ensures var (m', ready) := TakeReady(m);
            && m'.log == m.log && m'.term == m.term && m'.vote == m.vote && m'.applied == m.applied
            && m'.out == EmptyOutbox() && m'.savedHard == m.savedHard
            && (ready.hard.Some? ==> ready.hard.value == HardStateOf(m))
  {
  }

  lemma AdvanceSettles(env: Env, m: Raft, d: Disk, m1: Raft, d1: Disk)
    requires Watermarked(m, d) && VoteSaved(m, d) && Flush(m, d) == Some((m1, d1))
    ensures Settled(Advance(env, m1, TakeReady(m).1), d1)
  {
    hide Flush, Watermarked, Mirrors, Advance, TakeReady;
    FlushMirrors(m, d);
    TakeReadyFrame(m);
    AdvanceFrame(env, m1, TakeReady(m).1);
  }

  /** After advancing, everything committed when the cycle began is applied. */
  lemma AdvanceApplies(env: Env, m: Raft, m1: Raft)
    requires m.log.base <= m.applied <= m.commit <= |m.log.full| && Indexed(m.log.full) && m1.applied == m.applied
    ensures Advance(env, m1, TakeReady(m).1).applied == m.commit
  {
    hide Advance, TakeReady;
    AdvanceFrame(env, m1, TakeReady(m).1);
    ReadyCommitted(m);
  }

  lemma {:induction false} SendSnapshotsFrame(m: Raft, peers: seq<NodeId>, image: Image)
    ensures var m' := SendSnapshots(m, peers, image);
            m' == m.(progress := m'.progress, out := m.out.(messages := m'.out.messages))
    decreases |peers|
  {
    if peers != [] { SendSnapshotsFrame(SendSnapshot(m, peers[0], image), peers[1..], image); }
  }

  /** Compaction behind a durable snapshot keeps the mirror. */
  lemma HousekeepSettles(env: Env, c: Cycled, keep: nat)
    requires Settled(c.m, c.d) && c.m.applied <= |c.m.log.full|
    ensures var c' := Housekeep(env, c, keep); Settled(c'.m, c'.d)
  {
    var c' := Housekeep(env, c, keep);
    if c' != c {
      CompactMirrors(c.m.log, c.d, c.m.applied, keep);
    }
  }

  lemma CompactMirrors(log: Log, d: Disk, k: nat, keep: nat)
    requires Mirrors(log, d) && log.base < k <= |log.full|
    ensures Mirrors(CompactThrough(log, k), d.(snapshot := log.full[..k], wal := WalCompact(d.wal, k, keep)))
  {
    var w, w', full := d.wal, WalCompact(d.wal, k, keep), log.full;
    assert full[k..] == full[log.base..][k - log.base..];
    assert w.entries[k + 1 - w.first..] == w.entries[log.base + 1 - w.first..][k - log.base..];
    assert w'.entries[k + 1 - w'.first..] == w.entries[k + 1 - w.first..];
  }

  lemma ShipFrame(m: Raft)
    ensures var m' := ShipSnapshots(m); m' == m.(progress := m'.progress, out := m.out.(messages := m'.out.messages))
  {
    if m.role == Leader && SnapshotAtApplied(m).Some? {
      SendSnapshotsFrame(m, Ascending(NeedSnapshot(m)), SnapshotAtApplied(m).value);
    }
  }

  /** The durable log mirrors memory: a cycle never stops the driver, and when it ends the disk
      holds the node's term and vote and a log that reads back as the in-memory one. */
  lemma CycleMirrors(env: Env, m: Raft, d: Disk, keep: nat)
    requires Watermarked(m, d) && VoteSaved(m, d) && m.log.base <= m.applied <= m.commit <= |m.log.full|
    ensures Cycle(env, m, d, keep).Some?
    ensures var c := Cycle(env, m, d, keep).value; Settled(c.m, c.d) && RecoveredLog(c.d) == c.m.log
  {
    hide Advance, Flush, Mirrors, TakeReady, ShipSnapshots, Housekeep, RecoveredLog;
    FlushMirrors(m, d);
    var (m1, d1) := Flush(m, d).value;
    var ready := TakeReady(m).1;
    AdvanceSettles(env, m, d, m1, d1);
    TakeReadyFrame(m);
    AdvanceApplies(env, m, m1);
    hide Watermarked;
    var m2 := Advance(env, m1, ready);
    AdvanceFrame(env, m1, ready);
    ShipFrame(m2);
    var c := Cycled(ShipSnapshots(m2), d1, ready.messages, ready.committed, ready.confirmed);
    HousekeepSettles(env, c, keep);
    MirrorRecovers(Housekeep(env, c, keep).m.log, Housekeep(env, c, keep).d);
  }
}
