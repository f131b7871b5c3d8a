/** The log as the node holds it in memory (crates/chronolog/src/log.rs): a snapshot point and the
    entries above it. It answers every question as `RaftLog.Log` does, which still has the prefix
    that was compacted away. */
module CompactLog {
  import opened Types
  import opened Quorum
  import opened RaftLog

  // ---- configurations -------------------------------------------------------------------------

  /** A configuration with the changes of some entries replayed on top. */
  function Replay(cfg: Config, entries: seq<Entry>): Config {
    if entries == [] then cfg
    else
      var before, e := Replay(cfg, entries[..|entries| - 1]), entries[|entries| - 1];
      if e.kind.ConfigEntry? then ApplyChange(before, e.kind.change) else before
  }

  lemma {:induction false} ReplaySplit(cfg: Config, a: seq<Entry>, b: seq<Entry>)
    ensures Replay(cfg, a + b) == Replay(Replay(cfg, a), b)
  {
    if b == [] {
      assert a + b == a;
    } else {
      var n := |b| - 1;
      ReplaySplit(cfg, a, b[..n]);
      assert (a + b)[..|a + b| - 1] == a + b[..n];
    }
  }

  /** Forgetting a prefix is invisible exactly when the snapshot carries that prefix's configuration. */
  lemma CompactedConfig(boot: Config, full: seq<Entry>, base: nat)
    requires base <= |full|
    ensures Replay(Replay(boot, full[..base]), full[base..]) == Replay(boot, full)
  {
    ReplaySplit(boot, full[..base], full[base..]);
    assert full[..base] + full[base..] == full;
  }

  // ---- the configuration a snapshot records -----------------------------------------------------

  /** The last configuration change of some entries enters joint consensus, and is the only one of
      them that does. */
  predicate LoneEntry(entries: seq<Entry>) {
    entries != [] &&
    var rest, e := entries[..|entries| - 1], entries[|entries| - 1];
    if !e.kind.ConfigEntry? then LoneEntry(rest) else e.kind.change.EnterJoint? && !Enters(rest)
  }

  /** Some change among the entries enters joint consensus. */
  predicate Enters(entries: seq<Entry>) {
    entries != [] &&
    var e := entries[|entries| - 1];
    (e.kind.ConfigEntry? && e.kind.change.EnterJoint?) || Enters(entries[..|entries| - 1])
  }

  predicate Quiet(entries: seq<Entry>) {
    entries == [] || (!entries[|entries| - 1].kind.ConfigEntry? && Quiet(entries[..|entries| - 1]))
  }

  /** Entering joint consensus fixes the voters; without it they stay. */
  lemma {:induction false} ReplayVoters(a: Config, b: Config, entries: seq<Entry>)
    ensures var x, y := Replay(a, entries), Replay(b, entries);
            if Enters(entries) then x.voters == y.voters && x.learners == y.learners
            else x.voters == a.voters && x.learners == a.learners && y.voters == b.voters && y.learners == b.learners
  {
    if entries != [] { ReplayVoters(a, b, entries[..|entries| - 1]); }
  }

  /** The outgoing half depends on where the replay starts only if the last change is a lone entry
      into joint consensus, or there is no change at all. */
  lemma {:induction false} ReplayOutgoing(a: Config, b: Config, entries: seq<Entry>)
    ensures var x, y := Replay(a, entries), Replay(b, entries);
            && (LoneEntry(entries) ==> x.outgoing == a.voters && y.outgoing == b.voters)
            && (Quiet(entries) ==> x == a && y == b)
            && (!LoneEntry(entries) && !Quiet(entries) ==> x.outgoing == y.outgoing)
  {
    if entries != [] {
      var rest := entries[..|entries| - 1];
      ReplayOutgoing(a, b, rest);
      ReplayVoters(a, b, rest);
    }
  }

  /** A snapshot at the applied index records the configuration at the end of the log, so the
      entries `rest` between the two are replayed on top of it once more. That changes nothing
      unless the last change among them enters joint consensus, is the only one that does, and
      really replaced the voters: then the outgoing half is forgotten. */
  lemma SnapshotConfig(boot: Config, full: seq<Entry>, applied: nat)
    requires applied <= |full|
    ensures var now, rest := Replay(boot, full), full[applied..];
            Replay(now, rest) == now <==> !(LoneEntry(rest) && now.outgoing != now.voters)
  {
    var now, rest := Replay(boot, full), full[applied..];
    var cfg := Replay(boot, full[..applied]);
    CompactedConfig(boot, full, applied);
    ReplayVoters(cfg, now, rest);
    ReplayOutgoing(cfg, now, rest);
  }

  /** The failing case, concretely: three voters are being replaced by three others, and a snapshot
      is taken before the change is applied. The old majority is no longer asked. */
  lemma OldMajorityForgotten()
    ensures var boot := Config({1, 2, 3}, {}, {});
            var full := [Entry(1, 1, Noop), Entry(1, 2, ConfigEntry(EnterJoint({4, 5, 6}, {})))];
            var now := Replay(boot, full);
            && !HasQuorum(now, {4, 5, 6})
            && HasQuorum(Replay(now, full[1..]), {4, 5, 6})
  {
    var boot := Config({1, 2, 3}, {}, {});
    var full := [Entry(1, 1, Noop), Entry(1, 2, ConfigEntry(EnterJoint({4, 5, 6}, {})))];
    assert full[..1] == [full[0]] && full[..1][..0] == [];
    assert Replay(boot, full[..1]) == boot;
    assert Replay(boot, full) == Config({4, 5, 6}, {1, 2, 3}, {});
    assert full[1..][..0] == [];
    var now := Replay(boot, full);
    assert Replay(now, full[1..]) == Config({4, 5, 6}, {4, 5, 6}, {});
    assert {1, 2, 3} * {4, 5, 6} == {} && {4, 5, 6} * {4, 5, 6} == {4, 5, 6};
  }

  /** The configuration a restart without a snapshot works out: the log is replayed from nothing, and
      only if that yields no voters from the bootstrap configuration. */
  function RestoredConfig(boot: Config, entries: seq<Entry>): Config {
    var own := Replay(Config({}, {}, {}), entries);
    if own.voters == {} then Replay(boot, entries) else own
  }

  /** It is the configuration the node had, unless the last change in the log enters joint consensus
      and is the only one that does: then the bootstrap voters, who must still agree, are forgotten. */
  lemma RestartConfig(boot: Config, entries: seq<Entry>)
    ensures RestoredConfig(boot, entries) == Replay(boot, entries)
       <==> !(LoneEntry(entries) && Replay(boot, entries).voters != {} && boot.voters != {})
  {
    ReplayVoters(Config({}, {}, {}), boot, entries);
    ReplayOutgoing(Config({}, {}, {}), boot, entries);
    LoneEnters(entries);
    QuietStays(entries);
  }

  lemma {:induction false} LoneEnters(entries: seq<Entry>)
    ensures LoneEntry(entries) ==> Enters(entries)
  {
    if entries != [] { LoneEnters(entries[..|entries| - 1]); }
  }

  lemma {:induction false} QuietStays(entries: seq<Entry>)
    ensures Quiet(entries) ==> !Enters(entries)
  {
    if entries != [] { QuietStays(entries[..|entries| - 1]); }
  }

  // ---- the log ------------------------------------------------------------------------------------

  /** Entries numbered on from an index. */
  ghost predicate Continues(entries: seq<Entry>, after: nat) {
    forall i :: 0 <= i < |entries| ==> entries[i].index == after + 1 + i
  }

  lemma SliceAbove(dropped: seq<Entry>, entries: seq<Entry>, lo: nat, hi: nat)
    requires lo <= hi <= |entries|
    ensures (dropped + entries)[|dropped| + lo..|dropped| + hi] == entries[lo..hi]
  {
  }

  class CompactedLog {
    var snapshotIndex: nat
    var snapshotTerm: nat
    var snapshotConfig: Config
    var entries: seq<Entry>
    /** What compaction has dropped. */
    ghost var dropped: seq<Entry>

    ghost predicate Valid()
      reads this
    {
      && |dropped| == snapshotIndex && Indexed(dropped) && snapshotTerm == LastTermOf(dropped)
      && Continues(entries, snapshotIndex)
    }

    /** The log with its whole past. */
    ghost function Whole(): Log
      reads this
    {
      Log(dropped + entries, snapshotIndex)
    }

    /** What recovery read: the boundary of the stored snapshot and the entries above it. */
    constructor Restore(index: nat, term: nat, config: Config, above: seq<Entry>, ghost covered: seq<Entry>)
      requires |covered| == index && Indexed(covered) && term == LastTermOf(covered) && Continues(above, index)
      ensures Valid() && Whole() == Log(covered + above, index) && snapshotConfig == config
    {
      snapshotIndex, snapshotTerm, snapshotConfig, entries, dropped := index, term, config, above, covered;
    }

    /** A log that starts from a known membership and nothing else. */
    constructor (config: Config)
      ensures Valid() && Whole() == Log([], 0) && snapshotConfig == config
    {
      snapshotIndex, snapshotTerm, snapshotConfig, entries, dropped := 0, 0, config, [], [];
    }

    method LastIndex() returns (i: nat)
      requires Valid()
      ensures i == RaftLog.LastIndex(Whole())
    {
      i := if entries != [] then entries[|entries| - 1].index else snapshotIndex;
    }

    method LastTerm() returns (t: nat)
      requires Valid()
      ensures t == RaftLog.LastTerm(Whole())
    {
      t := if entries != [] then entries[|entries| - 1].term else snapshotTerm;
    }

    /** Where an entry is kept, if it is. */
    method Slot(index: nat) returns (slot: Option<nat>)
      requires Valid()
      ensures slot == if snapshotIndex < index <= snapshotIndex + |entries|
                      then Some(index - snapshotIndex - 1) else None
    {
      var last := LastIndex();
      slot := if index <= snapshotIndex || index > last then None else Some(index - snapshotIndex - 1);
    }

    method TermAt(index: nat) returns (t: Option<nat>)
      requires Valid()
      ensures t == RaftLog.TermAt(Whole(), index)
    {
      if index == 0 {
        return Some(0);
      }
      if index == snapshotIndex {
        return Some(snapshotTerm);
      }
      var slot := Slot(index);
      t := if slot.Some? then Some(entries[slot.value].term) else None;
    }

    method Slice(from: nat, to: nat) returns (r: seq<Entry>)
      requires Valid()
      ensures r == RaftLog.Slice(Whole(), from, to)
    {
      var last := LastIndex();
      var lo := Slot(Max(from, snapshotIndex + 1));
      if lo == None {
        return [];
      }
      var hi := |entries|;
      if to <= last {
        var slot := Slot(to);
        if slot == None {
          return [];
        }
        hi := slot.value;
      }
      r := if lo.value >= hi then [] else entries[lo.value..hi];
      if lo.value < hi { SliceAbove(dropped, entries, lo.value, hi); }
    }

    /** Append entries one by one. */
    method Append(batch: seq<Entry>)
      requires Valid() && Continues(batch, RaftLog.LastIndex(Whole()))
      modifies this`entries
      ensures Valid() && Whole() == RaftLog.Append(old(Whole()), batch)
    {
      for i := 0 to |batch|
        invariant Valid() && entries == old(entries) + batch[..i]
      {
        assert old(entries) + batch[..i + 1] == (old(entries) + batch[..i]) + [batch[i]];
        entries := entries + [batch[i]];
      }
      assert batch[..|batch|] == batch;
    }

    method TruncateFrom(from: nat)
      requires Valid()
      modifies this`entries
      ensures Valid() && Whole() == RaftLog.TruncateFrom(old(Whole()), from)
    {
      var slot := Slot(from);
      if slot.Some? {
        entries := entries[..slot.value];
      } else if from <= snapshotIndex {
        entries := [];
      }
    }

    /** Merge what a leader sent: skip what is already here, cut at the first conflict. */
    method Merge(prev: nat, batch: seq<Entry>) returns (lastNew: nat)
      requires Valid() && Continues(batch, prev) && snapshotIndex <= prev <= RaftLog.LastIndex(Whole())
      modifies this`entries
      ensures Valid() && Whole() == RaftLog.Merge(old(Whole()), batch) && lastNew == LastNew(prev, batch)
    {
      lastNew := LastNew(prev, batch);
      for i := 0 to |batch|
        invariant Valid() && Whole() == old(Whole()) && prev + i <= RaftLog.LastIndex(Whole())
        invariant RaftLog.Merge(Whole(), batch) == MergeFrom(Whole(), batch, i)
      {
        var t := TermAt(batch[i].index);
        if t != Some(batch[i].term) {
          if t.Some? { TruncateFrom(batch[i].index); }
          Append(batch[i..]);
          return;
        }
      }
    }

    /** Discard what a snapshot covers. */
    method CompactThrough(through: nat, term: nat, config: Config)
      requires Valid() && (snapshotIndex < through ==> RaftLog.TermAt(Whole(), through) == Some(term))
      modifies this
      ensures Valid() && Whole() == RaftLog.CompactThrough(old(Whole()), through)
      ensures snapshotConfig == if through <= old(snapshotIndex) then old(snapshotConfig) else config
    {
      if through <= snapshotIndex {
        return;
      }
      var last := LastIndex();
      var keepFrom := Min(through, last);
      var drop := Min(keepFrom - snapshotIndex, |entries|);
      assert Whole().full == (dropped + entries[..drop]) + entries[drop..];
      dropped, entries := dropped + entries[..drop], entries[drop..];
      snapshotIndex, snapshotTerm, snapshotConfig := keepFrom, term, config;
    }

    /** Start over from a snapshot of `image`; if its last entry is held already, only compact. */
    method InstallSnapshot(lastIndex: nat, lastTerm: nat, config: Config, ghost image: seq<Entry>)
      requires Valid() && Indexed(image) && lastIndex == |image| && lastTerm == LastTermOf(image)
      modifies this
      ensures Valid() && Whole() == RaftLog.InstallSnapshot(old(Whole()), image)
    {
      var t := TermAt(lastIndex);
      if t == Some(lastTerm) {
        CompactThrough(lastIndex, lastTerm, config);
        return;
      }
      snapshotIndex, snapshotTerm, snapshotConfig, entries, dropped := lastIndex, lastTerm, config, [], image;
      assert dropped + entries == image;
    }

    /** The membership after every change the log still holds. */
    method CurrentConfig() returns (cfg: Config)
      ensures cfg == Replay(snapshotConfig, entries)
    {
      cfg := snapshotConfig;
      for i := 0 to |entries|
        invariant cfg == Replay(snapshotConfig, entries[..i])
      {
        assert entries[..i + 1][..i] == entries[..i];
        if entries[i].kind.ConfigEntry? { cfg := ApplyChange(cfg, entries[i].kind.change); }
      }
      assert entries[..|entries|] == entries;
    }

    /** Walk down to the last entry whose term is not above `term`. */
    method FindConflictByTerm(index: nat, term: nat) returns (i: nat)
      requires Valid()
      ensures i == RaftLog.FindConflictByTerm(Whole(), index, term)
      ensures i > snapshotIndex ==> i <= RaftLog.LastIndex(Whole()) && Whole().full[i - 1].term <= term
      ensures forall j :: i <= j < Min(index, RaftLog.LastIndex(Whole())) ==> Whole().full[j].term > term
    {
      var last := LastIndex();
      i := Min(index, last);
      while i > snapshotIndex
        invariant i <= Min(index, last)
        invariant WalkDown(Whole(), Min(index, last), term) == WalkDown(Whole(), i, term)
        invariant forall j :: i <= j < Min(index, last) ==> Whole().full[j].term > term
      {
        var t := TermAt(i);
        if t.value <= term {
          return;
        }
        i := i - 1;
      }
    }
  }
}
