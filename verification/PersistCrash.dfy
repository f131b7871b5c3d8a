/** What the atomicity of a cycle stands for. Persisting first cuts the durable log at the watermark,
    durably, and then writes it again (crates/chronolog/src/node.rs:644-672); a crash between the two
    finds the log cut. */
module PersistCrash {
  import opened Types
  import opened RaftLog
  import opened RaftNode
  import opened RaftDriver

  /** The disk between the cut and the rest of `Persist`. */
  function AfterCut(d: Disk, from: nat): Disk {
    d.(wal := WalTruncate(d.wal, from))
  }

  /** A crash right after the cut brings back the log below the watermark, and no more. */
  lemma CutRecovers(log: Log, d: Disk, k: nat)
    requires Mirrors(log, d) && log.base < k <= |log.full| + 1
    ensures RecoveredLog(AfterCut(d, k)) == log.(full := log.full[..k - 1])
  {
    hide RecoveredLog, WalTruncate, WalOk, Indexed;
    var full', t := log.full[..k - 1], WalTruncate(d.wal, k);
    MirrorAgrees(log, d, k - 1);
    TruncateKeeps(d.wal, log.full, log.base, k);
    assert full'[log.base..] == log.full[log.base..k - 1] && full'[..log.base] == log.full[..log.base];
    var lo := log.base + 1 - t.first;
    assert t.entries[lo..] == t.entries[lo..k - t.first];
    ShorterIndexed(log.full, k - 1);
    MirrorRecovers(log.(full := full'), AfterCut(d, k));
  }

  lemma ShorterIndexed(s: seq<Entry>, n: nat)
    requires Indexed(s) && n <= |s|
    ensures Indexed(s[..n])
  {
  }

  lemma MirrorAgrees(log: Log, d: Disk, hi: nat)
    requires Mirrors(log, d) && log.base <= hi <= |log.full|
    ensures AgreeOn(d.wal, log.full, log.base, hi)
  {
    hide WalOk, Indexed;
    var w, lo, n := d.wal, log.base + 1 - d.wal.first, hi - log.base;
    assert log.full[log.base..hi] == log.full[log.base..][..n];
    assert w.entries[lo..hi + 1 - w.first] == w.entries[lo..][..n];
  }

  /** So the cut loses nothing exactly when the watermark lies beyond the durable log. */
  lemma CutIsHarmless(log: Log, d: Disk, k: nat)
    requires Mirrors(log, d) && log.base < k <= |log.full| + 1
    ensures RecoveredLog(AfterCut(d, k)) == RecoveredLog(d) <==> k > WalLast(d.wal)
  {
    hide RecoveredLog;
    CutRecovers(log, d, k);
    MirrorRecovers(log, d);
    if k == |log.full| + 1 { assert log.full[..k - 1] == log.full; }
  }

  /** A leader need only send entries again that a follower holds, has stored and has acknowledged:
      the follower's log stays as it is, yet the next cycle cuts the durable copy back to where the
      message starts. */
  lemma ResentAppend(m: Raft, d: Disk, from: NodeId, prev: nat, j: nat, commit: nat)
    requires RaftDriver.Settled(m, d) && m.log.base <= prev < j <= |m.log.full|
    ensures var m' := HandleAppend(m, from, prev, TermOf(m.log.full, prev), m.log.full[prev..j], commit);
            && m'.log == m.log && m'.dirtyFrom == Some(prev + 1)
            && RecoveredLog(AfterCut(d, prev + 1)).full == m.log.full[..prev]
  {
    hide RecoveredLog;
    var full, entries := m.log.full, m.log.full[prev..j];
    MergeResult(m.log, full, prev, j);
    CutRecovers(m.log, d, prev + 1);
    DeferKeepsLog(m, from);
    hide Merge, Defer, Mirrors;
    var m1 := Defer(m, from);
    assert TermAt(m1.log, prev) == Some(TermOf(full, prev));
    assert MergeEntries(m1, entries).log == m.log && MergeEntries(m1, entries).dirtyFrom == Some(prev + 1);
  }

  // ---- a snapshot saved, the log not yet restarted -----------------------------------------------------

  /** The disk once a snapshot is saved and before the log is restarted behind it; what is below the
      watermark has been cut by then (crates/chronolog/src/node.rs:644-663). */
  function AfterSave(m: Raft, d: Disk, image: Image): Disk {
    (if m.dirtyFrom.Some? then AfterCut(d, m.dirtyFrom.value) else d).(snapshot := image.prefix)
  }

  lemma {:induction false} NoneBeyond(w: Wal, k: nat)
    requires WalOk(w)
    ensures AboveIndex(w.entries, k) == [] <==> WalLast(w) <= k || w.entries == []
    decreases |w.entries|
  {
    if w.entries != [] { NoneBeyond(Wal(w.first + 1, w.entries[1..]), k); }
  }

  lemma CutEndsBelow(w: Wal, k: nat)
    requires WalOk(w) && k > 0
    ensures var t := WalTruncate(w, k); WalOk(t) && (t.entries == [] || WalLast(t) < k)
  {
  }

  /** A crash there brings back the snapshot with whatever the old log holds beyond it. That is the
      snapshot alone exactly when there is a watermark, or the durable log holds nothing beyond. */
  lemma SavedNotReset(m: Raft, d: Disk)
    requires Watermarked(m, d) && m.out.snapshot.Some?
    ensures var image := m.out.snapshot.value;
            RecoveredLog(AfterSave(m, d, image)).full == image.prefix <==>
              m.dirtyFrom.Some? || d.wal.entries == [] || WalLast(d.wal) <= |image.prefix|
  {
    var image := m.out.snapshot.value;
    var d' := AfterSave(m, d, image);
    if m.dirtyFrom.Some? { CutEndsBelow(d.wal, m.dirtyFrom.value); }
    NoneBeyond(d'.wal, |image.prefix|);
    Nothing(image.prefix, AboveIndex(d'.wal.entries, |image.prefix|));
  }

  lemma Nothing(a: seq<Entry>, b: seq<Entry>)
    ensures a + b == a <==> b == []
  {
    if b != [] { assert |a + b| > |a|; }
  }

  /** For a snapshot that reaches a node level with its disk: it does no harm exactly when the log holds
      the snapshot's last entry or ends at or below it. */
  lemma SaveIsHarmless(m: Raft, d: Disk, from: NodeId, image: Image)
    requires RaftDriver.Settled(m, d) && |image.prefix| > m.commit && m.log.base <= m.commit
    ensures var m' := HandleSnapshot(m, from, image);
            RecoveredLog(AfterSave(m', d, image)).full == image.prefix <==>
              TermAt(m.log, |image.prefix|) == Some(LastTermOf(image.prefix)) || |m.log.full| <= |image.prefix|
  {
    var m' := HandleSnapshot(m, from, image);
    InstallsOver(m, from, image);
    hide HandleSnapshot;
    var d' := AfterSave(m', d, image);
    if m'.dirtyFrom.Some? { CutEndsBelow(d.wal, m'.dirtyFrom.value); }
    NoneBeyond(d'.wal, |image.prefix|);
    Nothing(image.prefix, AboveIndex(d'.wal.entries, |image.prefix|));
  }

  lemma InstallsOver(m: Raft, from: NodeId, image: Image)
    requires |image.prefix| > m.commit && m.log.base <= m.commit
    ensures var held := TermAt(m.log, |image.prefix|) == Some(LastTermOf(image.prefix));
            HandleSnapshot(m, from, image).dirtyFrom
            == if held && |m.log.full| > |image.prefix| then Some(|image.prefix| + 1) else None
  {
    DeferKeepsLog(m, from);
    hide Defer;
  }

  /** Otherwise the snapshot comes back with the tail of the log it replaced: neither the old log nor the
      new one, ending in the old term. */
  lemma StaleTail(m: Raft, d: Disk, from: NodeId, image: Image)
    requires RaftDriver.Settled(m, d) && m.log.base <= m.commit < |image.prefix| < |m.log.full|
    requires m.log.full[|image.prefix| - 1].term != LastTermOf(image.prefix)
    ensures var m', full := HandleSnapshot(m, from, image), m.log.full;
            var found := RecoveredLog(AfterSave(m', d, image)).full;
            && found == image.prefix + full[|image.prefix|..] && found != full && found != m'.log.full
            && LastTermOf(found) == LastTermOf(full)
  {
    var k := |image.prefix|;
    InstallsOver(m, from, image);
    ReplacesLog(m, from, image);
    MirrorTail(m.log, d, k);
    hide HandleSnapshot, AboveIndex, Mirrors;
    var found := image.prefix + m.log.full[k..];
    assert found[k - 1] == image.prefix[k - 1] && |found| == |m.log.full|;
  }

  lemma MirrorTail(log: Log, d: Disk, k: nat)
    requires Mirrors(log, d) && log.base <= k <= |log.full|
    ensures AboveIndex(d.wal.entries, k) == log.full[k..]
  {
    AboveIsSuffix(d.wal, k);
    hide WalOk, AboveIndex, Indexed;
    var w, base := d.wal, log.base;
    assert w.entries[k + 1 - w.first..] == w.entries[base + 1 - w.first..][k - base..];
    assert log.full[k..] == log.full[base..][k - base..];
  }

  lemma ReplacesLog(m: Raft, from: NodeId, image: Image)
    requires m.log.base <= m.commit < |image.prefix| < |m.log.full|
    requires m.log.full[|image.prefix| - 1].term != LastTermOf(image.prefix)
    ensures HandleSnapshot(m, from, image).log.full == image.prefix
  {
    DeferKeepsLog(m, from);
    hide Defer;
  }

  lemma DeferKeepsLog(m: Raft, from: NodeId)
    ensures Defer(m, from).log == m.log && Defer(m, from).dirtyFrom == m.dirtyFrom && Defer(m, from).commit == m.commit
  {
  }
}
