/** The segmented write-ahead log (crates/chronolog/src/wal.rs:107-130, 330-488, 536-684) behaves as
    one plain indexed sequence, and every state it can be in survives power loss. */
module SegmentedWal {
  import opened Types
  import opened EntryCodec
  import opened Codec
  import opened DiskFile
  import opened WalRecord
  import opened WalCrash
  import D = RaftDriver

  /** One segment file and what is kept in memory about it. `last` is `first - 1` when empty. */
  datatype Segment = Segment(first: nat, last: nat, size: nat, offsets: seq<nat>, dirty: bool, file: FileState)

  function EmptySegment(first: nat): Segment
    requires first > 0
  {
    Segment(first, first - 1, 0, [], false, TruncateTo(NewFile(), 0))
  }

  /** Segment `s` holds the entries `es`, the first `k` of them durably. */
  ghost predicate Holds(s: Segment, es: seq<Entry>, k: nat) {
    && s.first > 0 && s.last == s.first + |es| - 1 && InSequence(es, s.first)
    && s.size == |Records(es)| && s.file.view == Records(es)
    && |s.offsets| == |es| && (forall j :: 0 <= j < |es| ==> s.offsets[j] == |Records(es[..j])|)
    && Stored(s.file, es, k) && (!s.dirty ==> k == |es|)
  }

  ghost predicate HoldsAt(segments: seq<Segment>, cs: seq<seq<Entry>>, ks: seq<nat>, i: nat) {
    i < |segments| && i < |cs| && i < |ks| && Holds(segments[i], cs[i], ks[i])
  }

  /** A segment that is not the last holds something and the next starts behind it. */
  ghost predicate Linked(segments: seq<Segment>, cs: seq<seq<Entry>>, i: nat) {
    i + 1 < |segments| && i < |cs| && cs[i] != [] && segments[i + 1].first == segments[i].last + 1
  }

  /** Segments that follow one another, none but the last empty. */
  ghost predicate Chain(segments: seq<Segment>, cs: seq<seq<Entry>>, ks: seq<nat>) {
    && |segments| == |cs| == |ks| && |segments| > 0
    && (forall i {:trigger HoldsAt(segments, cs, ks, i)} :: 0 <= i < |segments| ==> HoldsAt(segments, cs, ks, i))
    && (forall i {:trigger Linked(segments, cs, i)} :: 0 <= i < |segments| - 1 ==> Linked(segments, cs, i))
  }

  lemma {:induction false} ConcatOn(cs: seq<seq<Entry>>, es: seq<Entry>)
    ensures Concat(cs + [es]) == Concat(cs) + es
  {
    if cs == [] {
      assert cs + [es] == [es] && [es][1..] == [];
    } else {
      ConcatOn(cs[1..], es);
      assert (cs + [es])[1..] == cs[1..] + [es];
      assert cs[0] + (Concat(cs[1..]) + es) == (cs[0] + Concat(cs[1..])) + es;
    }
  }

  lemma {:induction false} ConcatCut(cs: seq<seq<Entry>>, i: nat)
    requires i <= |cs|
    ensures Concat(cs) == Concat(cs[..i]) + Concat(cs[i..])
    decreases |cs|
  {
    if i == |cs| {
      assert cs[..i] == cs;
    } else if cs != [] {
      var n := |cs| - 1;
      ConcatCut(cs[..n], i);
      assert cs == cs[..n] + [cs[n]] && cs[..n][..i] == cs[..i] && cs[i..] == cs[..n][i..] + [cs[n]];
      ConcatOn(cs[..n], cs[n]);
      ConcatOn(cs[..n][i..], cs[n]);
    }
  }

  lemma ConcatAt(cs: seq<seq<Entry>>, i: nat)
    requires i < |cs|
    ensures Concat(cs) == Concat(cs[..i]) + cs[i] + Concat(cs[i + 1..])
  {
    ConcatCut(cs, i);
    assert cs[i..][1..] == cs[i + 1..];
  }

  /** A segment starts where those before it end. */
  lemma {:induction false} Starts(segments: seq<Segment>, cs: seq<seq<Entry>>, ks: seq<nat>, i: nat)
    requires Chain(segments, cs, ks) && i < |segments|
    ensures segments[i].first == segments[0].first + |Concat(cs[..i])|
  {
    hide Holds;
    if i > 0 {
      Starts(segments, cs, ks, i - 1);
      assert HoldsAt(segments, cs, ks, i - 1) && Linked(segments, cs, i - 1);
      HoldsLast(segments[i - 1], cs[i - 1], ks[i - 1]);
      assert cs[..i] == cs[..i - 1] + [cs[i - 1]];
      ConcatOn(cs[..i - 1], cs[i - 1]);
    }
  }

  lemma HoldsLast(s: Segment, es: seq<Entry>, k: nat)
    requires Holds(s, es, k)
    ensures s.first > 0 && s.last == s.first + |es| - 1 && InSequence(es, s.first) && k <= |es|
  {
  }

  /** The last segment ends where the whole log does. */
  lemma Ends(segments: seq<Segment>, cs: seq<seq<Entry>>, ks: seq<nat>)
    requires Chain(segments, cs, ks)
    ensures segments[|segments| - 1].last == segments[0].first + |Concat(cs)| - 1
    ensures segments[0].first > 0
  {
    hide Holds;
    var n := |segments| - 1;
    Starts(segments, cs, ks, n);
    assert HoldsAt(segments, cs, ks, n) && HoldsAt(segments, cs, ks, 0);
    HoldsLast(segments[n], cs[n], ks[n]);
    HoldsLast(segments[0], cs[0], ks[0]);
    ConcatAt(cs, n);
    assert cs[n + 1..] == [];
  }

  /** The entries of the whole log are numbered on from its start. */
  lemma {:induction false} ChainInSequence(segments: seq<Segment>, cs: seq<seq<Entry>>, ks: seq<nat>, n: nat)
    requires Chain(segments, cs, ks) && n <= |cs|
    ensures InSequence(Concat(cs[..n]), segments[0].first)
  {
    hide Holds;
    if n > 0 {
      ChainInSequence(segments, cs, ks, n - 1);
      Starts(segments, cs, ks, n - 1);
      assert HoldsAt(segments, cs, ks, n - 1);
      HoldsLast(segments[n - 1], cs[n - 1], ks[n - 1]);
      assert cs[..n] == cs[..n - 1] + [cs[n - 1]];
      ConcatOn(cs[..n - 1], cs[n - 1]);
    }
  }

  // ---- one segment changes ------------------------------------------------------------------

  lemma FreshHolds(first: nat)
    requires first > 0
    ensures Holds(EmptySegment(first), [], 0) && EmptySegment(first).first == first
  {
  }

  /** A segment is named by its first index, and the one opened behind a full one starts where that ends.
      So no two share a file if and only if the size at which one is full is not zero. */
  lemma NamesDistinct(segmentBytes: nat)
    ensures segmentBytes > 0 <==>
              forall s, es, k :: Holds(s, es, k) && s.size >= segmentBytes ==> s.last + 1 != s.first
  {
    if segmentBytes == 0 {
      FreshHolds(1);
      assert Holds(EmptySegment(1), [], 0) && EmptySegment(1).last + 1 == EmptySegment(1).first;
    }
  }

  function Written(s: Segment, e: Entry): Segment {
    s.(dirty := true, file := WriteAt(s.file, s.size, Record(e)), offsets := s.offsets + [s.size],
       size := s.size + |Record(e)|, last := e.index)
  }

  lemma RecordsOn(es: seq<Entry>, e: Entry)
    ensures Records(es + [e]) == Records(es) + Record(e)
  {
    assert (es + [e])[..|es|] == es;
  }

  lemma WritesOn(offset: nat, es: seq<Entry>, e: Entry)
    ensures Writes(offset, es + [e]) == Writes(offset, es) + [Write(offset + |Records(es)|, Record(e))]
  {
    hide Record, Records;
    assert (es + [e])[..|es|] == es;
  }

  lemma StoredOn(f: FileState, es: seq<Entry>, k: nat, e: Entry)
    requires Stored(f, es, k)
    ensures Stored(WriteAt(f, |Records(es)|, Record(e)), es + [e], k)
  {
    hide Record, Records, Writes, Splice;
    var w := Write(|Records(es)|, Record(e));
    assert (es + [e])[..k] == es[..k] && (es + [e])[k..] == es[k..] + [e];
    RecordsSplit(es, k);
    if f.pending == Writes(|f.durable|, es[k..]) {
      WritesOn(|f.durable|, es[k..], e);
    } else {
      WritesOn(0, es, e);
      assert [Truncate(0)] + (Writes(0, es) + [w]) == ([Truncate(0)] + Writes(0, es)) + [w];
    }
  }

  /** Appending one record to a segment. */
  lemma WriteHolds(s: Segment, es: seq<Entry>, k: nat, e: Entry)
    requires Holds(s, es, k) && e.index == s.last + 1
    ensures Holds(Written(s, e), es + [e], k)
  {
    hide Record;
    StoredOn(s.file, es, k, e);
    hide Stored;
    RecordsOn(es, e);
    SpliceEnd(Records(es), Record(e));
    forall j | 0 <= j < |es + [e]|
      ensures Written(s, e).offsets[j] == |Records((es + [e])[..j])|
    {
      assert (es + [e])[..j] == es[..j];
      if j == |es| { assert es[..j] == es; }
    }
  }

  /** Syncing a segment makes all of it durable. */
  lemma SyncHolds(s: Segment, es: seq<Entry>, k: nat)
    requires Holds(s, es, k)
    ensures Holds(s.(file := Fsync(s.file), dirty := false), es, |es|)
  {
    hide Record;
    StoredWhole(s.file, es, k);
    assert es[..|es|] == es && es[|es|..] == [];
  }

  function CutAt(s: Segment, keep: nat): Segment
    requires keep < |s.offsets| && s.first > 0
  {
    var cut := s.offsets[keep];
    s.(file := Fsync(TruncateTo(s.file, cut)), offsets := s.offsets[..keep], size := cut,
       last := if keep == 0 then s.first - 1 else s.first + keep - 1, dirty := false)
  }

  lemma CutFile(f: FileState, es: seq<Entry>, k: nat, keep: nat)
    requires Stored(f, es, k) && f.view == Records(es) && keep <= |es|
    ensures var f' := Fsync(TruncateTo(f, |Records(es[..keep])|));
            f'.view == Records(es[..keep]) && Stored(f', es[..keep], keep)
  {
    hide Record, Records, Writes;
    var cut := |Records(es[..keep])|;
    StoredWhole(f, es, k);
    OneMore(f.durable, f.pending, Truncate(cut));
    RecordsSplit(es, keep);
    assert Cut(Records(es), cut) == Records(es[..keep]);
    assert es[..keep][..keep] == es[..keep] && es[..keep][keep..] == [];
    NoneWritten(|Records(es[..keep])|);
  }

  lemma NoneWritten(offset: nat)
    ensures Writes(offset, []) == []
  {
  }

  /** Cutting a segment back to its first `keep` entries, durably. */
  lemma CutHolds(s: Segment, es: seq<Entry>, k: nat, keep: nat)
    requires Holds(s, es, k) && keep < |es|
    ensures Holds(CutAt(s, keep), es[..keep], keep)
  {
    hide Record, Records, Stored, Fsync, TruncateTo;
    CutFile(s.file, es, k, keep);
    CutOffsets(s, es, keep);
    assert InSequence(es[..keep], s.first);
  }

  lemma CutOffsets(s: Segment, es: seq<Entry>, keep: nat)
    requires keep < |es| == |s.offsets| && forall j :: 0 <= j < |es| ==> s.offsets[j] == |Records(es[..j])|
    ensures forall j :: 0 <= j < keep ==> s.offsets[..keep][j] == |Records(es[..keep][..j])|
  {
    hide Records;
    forall j | 0 <= j < keep
      ensures s.offsets[..keep][j] == |Records(es[..keep][..j])|
    {
      assert es[..keep][..j] == es[..j];
    }
  }

  // ---- the chain changes ----------------------------------------------------------------------

  lemma ChainWithLast(segments: seq<Segment>, cs: seq<seq<Entry>>, ks: seq<nat>, s: Segment, es: seq<Entry>, k: nat)
    requires Chain(segments, cs, ks) && Holds(s, es, k) && s.first == segments[|segments| - 1].first
    ensures var n := |segments| - 1;
            Chain(segments[n := s], cs[n := es], ks[n := k]) && Concat(cs[n := es]) == Concat(cs[..n]) + es
  {
    hide Holds;
    var n := |segments| - 1;
    var segments', cs', ks' := segments[n := s], cs[n := es], ks[n := k];
    forall i | 0 <= i <= n
      ensures HoldsAt(segments', cs', ks', i)
    {
      assert HoldsAt(segments, cs, ks, i);
    }
    forall i | 0 <= i < n
      ensures Linked(segments', cs', i)
    {
      assert Linked(segments, cs, i);
    }
    assert cs[n := es] == cs[..n] + [es];
    ConcatOn(cs[..n], es);
  }

  lemma ChainOn(segments: seq<Segment>, cs: seq<seq<Entry>>, ks: seq<nat>, s: Segment, es: seq<Entry>, k: nat)
    requires Chain(segments, cs, ks) && cs[|cs| - 1] != [] && Holds(s, es, k)
    requires s.first == segments[|segments| - 1].last + 1
    ensures Chain(segments + [s], cs + [es], ks + [k])
  {
    hide Holds;
    var segments', cs', ks' := segments + [s], cs + [es], ks + [k];
    forall i | 0 <= i < |segments'|
      ensures HoldsAt(segments', cs', ks', i)
    {
      if i < |segments| { assert HoldsAt(segments, cs, ks, i); }
    }
    forall i | 0 <= i < |segments'| - 1
      ensures Linked(segments', cs', i)
    {
      if i < |segments| - 1 { assert Linked(segments, cs, i); }
    }
  }

  lemma ChainPush(segments: seq<Segment>, cs: seq<seq<Entry>>, ks: seq<nat>)
    requires Chain(segments, cs, ks) && cs[|cs| - 1] != []
    ensures var s := EmptySegment(segments[|segments| - 1].last + 1);
            Chain(segments + [s], cs + [[]], ks + [0]) && Concat(cs + [[]]) == Concat(cs)
  {
    hide Holds, EmptySegment, Concat;
    FreshHolds(segments[|segments| - 1].last + 1);
    ChainOn(segments, cs, ks, EmptySegment(segments[|segments| - 1].last + 1), [], 0);
    ConcatOn(cs, []);
  }

  lemma ChainCut(segments: seq<Segment>, cs: seq<seq<Entry>>, ks: seq<nat>, i: nat, j: nat)
    requires Chain(segments, cs, ks) && i < j <= |segments|
    ensures Chain(segments[i..j], cs[i..j], ks[i..j])
  {
    hide Holds;
    var segments', cs', ks' := segments[i..j], cs[i..j], ks[i..j];
    forall k | 0 <= k < j - i
      ensures HoldsAt(segments', cs', ks', k)
    {
      assert HoldsAt(segments, cs, ks, i + k);
    }
    forall k | 0 <= k < j - i - 1
      ensures Linked(segments', cs', k)
    {
      assert Linked(segments, cs, i + k);
    }
  }

  /** The durable prefix, seen from the last segment. */
  lemma {:induction false} DurableLast(cs: seq<seq<Entry>>, ks: seq<nat>)
    requires |cs| == |ks| && cs != [] && forall i :: 0 <= i < |cs| ==> ks[i] <= |cs[i]|
    ensures var n := |cs| - 1;
            var d := DurablePrefix(cs[..n], ks[..n]);
            && d <= |Concat(cs[..n])|
            && DurablePrefix(cs, ks) == if d == |Concat(cs[..n])| then d + ks[n] else d
    decreases |cs|
  {
    var n := |cs| - 1;
    if n > 0 {
      DurableLast(cs[1..], ks[1..]);
      assert cs[1..][..n - 1] == cs[..n][1..] && ks[1..][..n - 1] == ks[..n][1..];
    }
  }

  lemma ChainKept(segments: seq<Segment>, cs: seq<seq<Entry>>, ks: seq<nat>)
    requires Chain(segments, cs, ks)
    ensures forall i :: 0 <= i < |cs| ==> ks[i] <= |cs[i]|
  {
    hide Holds;
    forall i | 0 <= i < |cs|
      ensures ks[i] <= |cs[i]|
    {
      assert HoldsAt(segments, cs, ks, i);
      HoldsLast(segments[i], cs[i], ks[i]);
    }
  }

  /** Changing the last segment loses nothing durable but what it cuts off. */
  lemma DurableWithLast(cs: seq<seq<Entry>>, ks: seq<nat>, es: seq<Entry>, k: nat)
    requires |cs| == |ks| && cs != [] && (forall i :: 0 <= i < |cs| ==> ks[i] <= |cs[i]|) && k <= |es|
    requires k == |es| || k >= ks[|cs| - 1]
    ensures var n := |cs| - 1;
            DurablePrefix(cs[n := es], ks[n := k]) >= Min(DurablePrefix(cs, ks), |Concat(cs[..n])| + |es|)
  {
    var n := |cs| - 1;
    DurableLast(cs, ks);
    DurableLast(cs[n := es], ks[n := k]);
    assert cs[n := es][..n] == cs[..n] && ks[n := k][..n] == ks[..n];
  }

  lemma DurablePush(cs: seq<seq<Entry>>, ks: seq<nat>)
    requires |cs| == |ks| && (forall i :: 0 <= i < |cs| ==> ks[i] <= |cs[i]|)
    ensures DurablePrefix(cs + [[]], ks + [0]) == DurablePrefix(cs, ks)
  {
    DurableLast(cs + [[]], ks + [0]);
    assert (cs + [[]])[..|cs|] == cs && (ks + [0])[..|cs|] == ks;
  }

  lemma DurablePop(cs: seq<seq<Entry>>, ks: seq<nat>)
    requires |cs| == |ks| && cs != [] && (forall i :: 0 <= i < |cs| ==> ks[i] <= |cs[i]|)
    ensures var n := |cs| - 1;
            DurablePrefix(cs[..n], ks[..n]) >= Min(DurablePrefix(cs, ks), |Concat(cs[..n])|)
  {
    DurableLast(cs, ks);
  }

  lemma {:induction false} DurableDrop(cs: seq<seq<Entry>>, ks: seq<nat>, i: nat)
    requires |cs| == |ks| && i <= |cs|
    ensures DurablePrefix(cs[i..], ks[i..]) + |Concat(cs[..i])| >= DurablePrefix(cs, ks)
    decreases i
  {
    if i > 0 {
      DurableDrop(cs[1..], ks[1..], i - 1);
      assert cs[1..][i - 1..] == cs[i..] && ks[1..][i - 1..] == ks[i..];
      assert cs[..i][1..] == cs[1..][..i - 1];
    }
  }

  lemma {:induction false} AllDurable(cs: seq<seq<Entry>>, ks: seq<nat>)
    requires |cs| == |ks| && forall i :: 0 <= i < |cs| ==> ks[i] == |cs[i]|
    ensures DurablePrefix(cs, ks) == |Concat(cs)|
    decreases |cs|
  {
    if cs != [] { AllDurable(cs[1..], ks[1..]); }
  }

  lemma {:induction false} DurableAnchors(cs: seq<seq<Entry>>, ks: seq<nat>)
    requires |cs| == |ks| && DurablePrefix(cs, ks) > 0
    ensures Anchored(cs, ks)
    decreases |cs|
  {
    if cs[0] == [] { DurableAnchors(cs[1..], ks[1..]); }
  }

  // ---- the log ------------------------------------------------------------------------------------

  function TotalSize(segments: seq<Segment>): nat {
    if segments == [] then 0 else TotalSize(segments[..|segments| - 1]) + segments[|segments| - 1].size
  }

  class Wal {
    const segmentBytes: nat
    const slackBytes: nat
    var segments: seq<Segment>
    /** What each segment holds, and how much of it durably. */
    ghost var contents: seq<seq<Entry>>
    ghost var kept: seq<nat>
    /** How many entries the last completed sync covered. */
    ghost var synced: nat

    ghost predicate Valid()
      reads this
    {
      segmentBytes > 0 && |segments| > 0 && Chain(segments, contents, kept) && synced <= DurablePrefix(contents, kept)
    }

    ghost function Entries(): seq<Entry>
      reads this
    {
      Concat(contents)
    }

    /** The plain indexed sequence this log implements. */
    ghost function Contents(): D.Wal
      requires |segments| > 0
      reads this
    {
      D.Wal(segments[0].first, Entries())
    }

    constructor (first: nat, segmentBytes: nat, slackBytes: nat)
      requires first > 0 && segmentBytes > 0
      ensures Valid() && Contents() == D.WalReset(first - 1) && synced == 0
      ensures this.segmentBytes == segmentBytes && this.slackBytes == slackBytes
    {
      this.segmentBytes, this.slackBytes := segmentBytes, slackBytes;
      segments, contents, kept, synced := [EmptySegment(first)], [[]], [0], 0;
      new;
      FreshChain(first);
    }

    /** Go on with segments that were found on disk, whatever they are. */
    constructor Resume(segments: seq<Segment>, segmentBytes: nat, slackBytes: nat, ghost cs: seq<seq<Entry>>,
                       ghost ks: seq<nat>)
      requires segmentBytes > 0 && |cs| == |ks|
      ensures this.segments == segments && contents == cs && kept == ks && synced == DurablePrefix(cs, ks)
      ensures this.segmentBytes == segmentBytes && this.slackBytes == slackBytes
      ensures Chain(segments, cs, ks) ==> Valid()
    {
      this.segmentBytes, this.slackBytes := segmentBytes, slackBytes;
      this.segments, contents, kept, synced := segments, cs, ks, DurablePrefix(cs, ks);
    }

    method FirstIndex() returns (i: nat)
      requires Valid()
      ensures i == Contents().first
    {
      i := segments[0].first;
    }

    method LastIndex() returns (i: nat)
      requires Valid()
      ensures i == D.WalLast(Contents())
    {
      Ends(segments, contents, kept);
      i := segments[|segments| - 1].last;
    }

    /** Open a new active segment behind a full one. */
    method Roll()
      requires Valid() && segments[|segments| - 1].size > 0
      modifies this
      ensures Valid() && synced == old(synced) && Contents() == old(Contents())
    {
      hide Holds, EmptySegment, DurablePrefix, Concat;
      var top := |segments| - 1;
      assert HoldsAt(segments, contents, kept, top);
      FullIsNotEmpty(segments[top], contents[top], kept[top]);
      ChainKept(segments, contents, kept);
      ChainPush(segments, contents, kept);
      DurablePush(contents, kept);
      segments := segments + [EmptySegment(segments[top].last + 1)];
      contents, kept := contents + [[]], kept + [0];
    }

    /** Write one record into the active segment. */
    method WriteRecord(e: Entry)
      requires Valid() && e.index == D.WalLast(Contents()) + 1
      modifies this
      ensures Valid() && synced == old(synced)
      ensures Contents() == D.Wal(old(Contents()).first, old(Entries()) + [e])
    {
      hide Holds, Written, Record, DurablePrefix, Concat;
      var top := |segments| - 1;
      assert HoldsAt(segments, contents, kept, top);
      Ends(segments, contents, kept);
      ghost var more := contents[top] + [e];
      AppendLast(segments, contents, kept, e);
      segments := segments[top := Written(segments[top], e)];
      contents := contents[top := more];
    }

    method AppendOne(e: Entry)
      requires Valid() && e.index == D.WalLast(Contents()) + 1
      modifies this
      ensures Valid() && synced == old(synced)
      ensures Contents() == D.Wal(old(Contents()).first, old(Entries()) + [e])
    {
      if segments[|segments| - 1].size >= segmentBytes {
        Roll();
      }
      WriteRecord(e);
    }
  
    /** Append a batch, or change nothing if it does not continue the log. */
    method Append(batch: seq<Entry>) returns (ok: bool)
      requires Valid()
      modifies this
      ensures Valid() && synced == old(synced)
      ensures match D.WalAppend(old(Contents()), batch)
              case Some(w) => ok && Contents() == w
              case None => !ok && Contents() == old(Contents())
    {
      hide Chain, DurablePrefix, Concat;
      ghost var before := Contents();
      SyncedWithin();
      var rollbackTo := LastIndex();
      for i := 0 to |batch|
        invariant Valid() && synced == old(synced)
        invariant Contents() == D.Wal(before.first, before.entries + batch[..i])
        invariant forall j :: 0 <= j < i ==> batch[j].index == D.WalLast(before) + 1 + j
      {
        var last := LastIndex();
        if batch[i].index != last + 1 {
          TruncateFrom(rollbackTo + 1);
          assert (before.entries + batch[..i])[..|before.entries|] == before.entries;
          return false;
        }
        AppendOne(batch[i]);
        assert before.entries + batch[..i + 1] == (before.entries + batch[..i]) + [batch[i]];
      }
      assert batch[..|batch|] == batch;
      ok := true;
    }

    lemma SyncedWithin()
      requires Valid()
      ensures synced <= |Entries()|
    {
      ChainKept(segments, contents, kept);
      DurableBound(contents, kept);
    }

    /** Drop the last of several segments. */
    method Pop()
      requires Valid() && |segments| > 1
      modifies this
      ensures Valid() && |segments| == old(|segments|) - 1 && segments == old(segments)[..|segments|]
      ensures Contents().first == old(Contents()).first && Entries() <= old(Entries())
      ensures synced == Min(old(synced), |Entries()|)
      ensures D.WalLast(Contents()) == old(segments)[|segments|].first - 1
    {
      hide Holds, DurablePrefix, Concat;
      var top := |segments| - 1;
      ChainKept(segments, contents, kept);
      Starts(segments, contents, kept, top);
      ChainCut(segments, contents, kept, 0, top);
      DurablePop(contents, kept);
      ConcatCut(contents, top);
      segments, contents, kept := segments[..top], contents[..top], kept[..top];
      synced := Min(synced, |Entries()|);
    }
  
    /** Cut the last segment back to end just before `from`. */
    method CutLast(from: nat)
      requires Valid() && segments[|segments| - 1].first <= from <= segments[|segments| - 1].last
      modifies this
      ensures Valid() && Contents().first == old(Contents()).first && D.WalLast(Contents()) == from - 1
      ensures Entries() <= old(Entries()) && synced == Min(old(synced), |Entries()|)
    {
      hide Holds, DurablePrefix, Concat, CutAt;
      var top := |segments| - 1;
      assert HoldsAt(segments, contents, kept, top);
      HoldsOffsets(segments[top], contents[top], kept[top]);
      var keep := from - segments[top].first;
      ghost var es := contents[top][..keep];
      CutChain(segments, contents, kept, keep);
      segments := segments[top := CutAt(segments[top], keep)];
      contents, kept := contents[top := es], kept[top := keep];
      synced := Min(synced, |Entries()|);
      Ends(segments, contents, kept);
    }

    /** Discard the whole log and restart it behind `index`. */
    method ResetTo(index: nat)
      requires Valid()
      modifies this
      ensures Valid() && Contents() == D.WalReset(index) && synced == 0
    {
      FreshChain(index + 1);
      segments, contents, kept, synced := [EmptySegment(index + 1)], [[]], [0], 0;
    }

    /** Drop every entry from `from` on. */
    method TruncateFrom(from: nat)
      requires Valid()
      modifies this
      ensures Valid() && Contents() == D.WalTruncate(old(Contents()), from)
      ensures synced == Min(old(synced), |Entries()|)
    {
      hide Chain, DurablePrefix, Concat;
      SyncedWithin();
      var last := LastIndex();
      if from > last {
        return;
      }
      if from <= segments[0].first {
        ResetTo(if from == 0 then 0 else from - 1);
        return;
      }
      while segments[|segments| - 1].first >= from && |segments| > 1
        invariant Valid() && |segments| > 0 && segments[0].first < from && Contents().first == old(Contents()).first
        invariant Entries() <= old(Entries()) && synced == Min(old(synced), |Entries()|)
        invariant D.WalLast(Contents()) >= from - 1
        decreases |segments|
      {
        Pop();
      }
      Ends(segments, contents, kept);
      if from <= segments[|segments| - 1].last {
        CutLast(from);
      }
      assert Entries() == old(Entries())[..from - old(Contents()).first];
    }

    /** Make durable what was appended: only segments marked dirty need it. */
    method Sync()
      requires Valid()
      modifies this
      ensures Valid() && Contents() == old(Contents()) && synced == |Entries()|
    {
      hide Holds, DurablePrefix, Concat;
      for i := 0 to |segments|
        invariant Valid() && |segments| == old(|segments|) && contents == old(contents) && synced == old(synced)
        invariant segments[0].first == old(segments[0].first)
        invariant forall j :: 0 <= j < i ==> kept[j] == |contents[j]|
      {
        assert HoldsAt(segments, contents, kept, i);
        if segments[i].dirty {
          SyncChain(segments, contents, kept, i);
          segments := segments[i := segments[i].(file := Fsync(segments[i].file), dirty := false)];
          kept := kept[i := |contents[i]|];
        } else {
          CleanIsKept(segments[i], contents[i], kept[i]);
        }
      }
      AllDurable(contents, kept);
      synced := |Entries()|;
    }
  
    /** Delete whole segments that end before `through`, keeping some slack. */
    method CompactThrough(through: nat)
      requires Valid()
      modifies this
      ensures Valid() && D.WalLast(Contents()) == old(D.WalLast(Contents()))
      ensures Contents() == D.WalCompact(old(Contents()), through, Contents().first)
      ensures old(synced) == |old(Entries())| ==> synced == |Entries()|
    {
      hide Holds, DurablePrefix, Concat, TotalSize;
      var total := TotalSize(segments);
      var keepFrom, freed, i := 0, 0, 0;
      while i + 1 < |segments|
        invariant 0 <= keepFrom < |segments| && 0 <= i < |segments|
        invariant keepFrom > 0 ==> segments[keepFrom - 1].last < through
      {
        var seg := segments[i];
        if seg.last >= through || total < freed + seg.size + slackBytes {
          break;
        }
        freed, keepFrom, i := freed + seg.size, i + 1, i + 1;
      }
      CompactChain(segments, contents, kept, keepFrom, through);
      SyncedWithin();
      ghost var gone := |Concat(contents[..keepFrom])|;
      ConcatCut(contents, keepFrom);
      Ends(segments, contents, kept);
      Starts(segments, contents, kept, keepFrom);
      synced := if synced < gone then 0 else synced - gone;
      segments, contents, kept := segments[keepFrom..], contents[keepFrom..], kept[keepFrom..];
    }

    /** Read one entry back off its segment. Nothing was checked when it was written, so what comes back
        is the entry exactly when its record is no longer than the limit. */
    method ReadEntry(index: nat) returns (r: Option<Entry>)
      requires Valid()
      ensures Contents().first <= index <= D.WalLast(Contents()) ==>
                ReadsBack(Entries()[index - Contents().first], r)
      ensures !(Contents().first <= index <= D.WalLast(Contents())) ==> r == None
    {
      hide Holds, DurablePrefix, Concat, ReadRecord, ReadsBack;
      Ends(segments, contents, kept);
      for i := 0 to |segments|
        invariant forall j :: 0 <= j < i ==> !(segments[j].first <= index <= segments[j].last)
      {
        if segments[i].first <= index <= segments[i].last {
          assert HoldsAt(segments, contents, kept, i);
          HoldsOffsets(segments[i], contents[i], kept[i]);
          var slot := index - segments[i].first;
          ReadSlot(segments[i], contents[i], kept[i], slot);
          SlotIsEntry(segments, contents, kept, i, slot);
          var at := segments[i].offsets[slot];
          var got := ReadRecord(segments[i].file.view[at..]);
          return if got.Read? then Some(got.entry) else None;
        }
      }
      NowhereHeld(segments, contents, kept, index);
      r := None;
    }
  }

  lemma AppendLast(segments: seq<Segment>, cs: seq<seq<Entry>>, ks: seq<nat>, e: Entry)
    requires Chain(segments, cs, ks) && e.index == segments[|segments| - 1].last + 1
    ensures var n := |segments| - 1;
            && Chain(segments[n := Written(segments[n], e)], cs[n := cs[n] + [e]], ks)
            && Concat(cs[n := cs[n] + [e]]) == Concat(cs) + [e]
            && DurablePrefix(cs[n := cs[n] + [e]], ks) >= DurablePrefix(cs, ks)
            && segments[n := Written(segments[n], e)][0].first == segments[0].first
  {
    hide Holds, Written, Record, DurablePrefix;
    var n := |segments| - 1;
    assert HoldsAt(segments, cs, ks, n);
    ChainKept(segments, cs, ks);
    WriteHolds(segments[n], cs[n], ks[n], e);
    WrittenFirst(segments[n], e);
    ChainWithLast(segments, cs, ks, Written(segments[n], e), cs[n] + [e], ks[n]);
    assert ks[n := ks[n]] == ks;
    DurableWithLast(cs, ks, cs[n] + [e], ks[n]);
    DurableBound(cs, ks);
    ConcatAt(cs, n);
    assert cs[n + 1..] == [];
    assert Concat(cs[..n]) + (cs[n] + [e]) == (Concat(cs[..n]) + cs[n]) + [e];
  }

  lemma FreshChain(first: nat)
    requires first > 0
    ensures Chain([EmptySegment(first)], [[]], [0]) && Concat([[]]) == [] && EmptySegment(first).first == first
  {
    FreshHolds(first);
    var cs: seq<seq<Entry>> := [[]];
    assert HoldsAt([EmptySegment(first)], cs, [0], 0);
    assert cs[1..] == [];
  }

  lemma FullIsNotEmpty(s: Segment, es: seq<Entry>, k: nat)
    requires Holds(s, es, k) && s.size > 0
    ensures es != []
  {
  }

  lemma WrittenFirst(s: Segment, e: Entry)
    ensures Written(s, e).first == s.first
  {
  }

  lemma {:induction false} DurableBound(cs: seq<seq<Entry>>, ks: seq<nat>)
    requires |cs| == |ks| && forall i :: 0 <= i < |cs| ==> ks[i] <= |cs[i]|
    ensures DurablePrefix(cs, ks) <= |Concat(cs)|
    decreases |cs|
  {
    if cs != [] { DurableBound(cs[1..], ks[1..]); }
  }

  lemma HoldsOffsets(s: Segment, es: seq<Entry>, k: nat)
    requires Holds(s, es, k)
    ensures |s.offsets| == |es| && s.first > 0 && s.last == s.first + |es| - 1
  {
  }

  lemma CleanIsKept(s: Segment, es: seq<Entry>, k: nat)
    requires Holds(s, es, k) && !s.dirty
    ensures k == |es|
  {
  }

  lemma CutShape(s: Segment, keep: nat)
    requires keep < |s.offsets| && s.first > 0
    ensures CutAt(s, keep).first == s.first
  {
  }

  lemma CutChain(segments: seq<Segment>, cs: seq<seq<Entry>>, ks: seq<nat>, keep: nat)
    requires Chain(segments, cs, ks) && keep < |cs[|cs| - 1]|
    requires |segments[|segments| - 1].offsets| == |cs[|cs| - 1]| && segments[|segments| - 1].first > 0
    ensures var n := |segments| - 1;
            var cs' := cs[n := cs[n][..keep]];
            && Chain(segments[n := CutAt(segments[n], keep)], cs', ks[n := keep])
            && Concat(cs') <= Concat(cs)
            && DurablePrefix(cs', ks[n := keep]) >= Min(DurablePrefix(cs, ks), |Concat(cs')|)
            && segments[n := CutAt(segments[n], keep)][0].first == segments[0].first
            && segments[n := CutAt(segments[n], keep)][n].last == segments[n].first + keep - 1
  {
    hide Holds, CutAt, DurablePrefix;
    var n := |segments| - 1;
    assert HoldsAt(segments, cs, ks, n);
    ChainKept(segments, cs, ks);
    CutHolds(segments[n], cs[n], ks[n], keep);
    CutShape(segments[n], keep);
    HoldsLast(CutAt(segments[n], keep), cs[n][..keep], keep);
    ChainWithLast(segments, cs, ks, CutAt(segments[n], keep), cs[n][..keep], keep);
    DurableWithLast(cs, ks, cs[n][..keep], keep);
    ConcatAt(cs, n);
    assert cs[n + 1..] == [];
    assert Concat(cs) == (Concat(cs[..n]) + cs[n][..keep]) + cs[n][keep..];
  }

  /** Syncing one segment only adds to what is durable. */
  lemma SyncChain(segments: seq<Segment>, cs: seq<seq<Entry>>, ks: seq<nat>, i: nat)
    requires Chain(segments, cs, ks) && i < |segments|
    ensures var s := segments[i].(file := Fsync(segments[i].file), dirty := false);
            && Chain(segments[i := s], cs, ks[i := |cs[i]|])
            && DurablePrefix(cs, ks[i := |cs[i]|]) >= DurablePrefix(cs, ks)
  {
    hide Holds;
    var s := segments[i].(file := Fsync(segments[i].file), dirty := false);
    assert HoldsAt(segments, cs, ks, i);
    SyncHolds(segments[i], cs[i], ks[i]);
    var segments', ks' := segments[i := s], ks[i := |cs[i]|];
    forall j | 0 <= j < |segments|
      ensures HoldsAt(segments', cs, ks', j)
    {
      assert HoldsAt(segments, cs, ks, j);
    }
    forall j | 0 <= j < |segments| - 1
      ensures Linked(segments', cs, j)
    {
      assert Linked(segments, cs, j);
    }
    ChainKept(segments, cs, ks);
    DurableUp(cs, ks, i);
  }

  lemma {:induction false} DurableUp(cs: seq<seq<Entry>>, ks: seq<nat>, i: nat)
    requires |cs| == |ks| && i < |cs| && ks[i] <= |cs[i]|
    ensures DurablePrefix(cs, ks[i := |cs[i]|]) >= DurablePrefix(cs, ks)
    decreases |cs|
  {
    if i > 0 {
      DurableUp(cs[1..], ks[1..], i - 1);
      assert ks[i := |cs[i]|][1..] == ks[1..][i - 1 := |cs[i]|];
    } else {
      assert ks[0 := |cs[0]|][1..] == ks[1..];
    }
  }

  lemma CompactChain(segments: seq<Segment>, cs: seq<seq<Entry>>, ks: seq<nat>, i: nat, through: nat)
    requires Chain(segments, cs, ks) && i < |segments| && (i > 0 ==> segments[i - 1].last < through)
    ensures Chain(segments[i..], cs[i..], ks[i..])
    ensures DurablePrefix(cs[i..], ks[i..]) + |Concat(cs[..i])| >= DurablePrefix(cs, ks)
    ensures D.Wal(segments[i].first, Concat(cs[i..]))
         == D.WalCompact(D.Wal(segments[0].first, Concat(cs)), through, segments[i].first)
  {
    hide Holds, DurablePrefix, Concat;
    ChainCut(segments, cs, ks, i, |segments|);
    assert segments[i..|segments|] == segments[i..] && cs[i..|segments|] == cs[i..] && ks[i..|segments|] == ks[i..];
    DurableDrop(cs, ks, i);
    Starts(segments, cs, ks, i);
    Ends(segments, cs, ks);
    ConcatCut(cs, i);
    if i > 0 {
      assert Linked(segments, cs, i - 1);
      assert Concat(cs)[|Concat(cs[..i])|..] == Concat(cs[i..]);
    } else {
      NothingBefore(cs);
    }
  }

  lemma NothingBefore(cs: seq<seq<Entry>>)
    ensures Concat(cs[..0]) == [] && cs[0..] == cs
  {
  }

  /** `r` is what reading `e` back should give: `e`, unless its record is longer than the limit. */
  ghost predicate ReadsBack(e: Entry, r: Option<Entry>) {
    EntryFits(e) && |EntryBytes(e)| < U32 ==> (r == Some(e) <==> Storable(e))
  }

  /** The record at a slot's offset is that slot's entry, if it is not too long. */
  lemma ReadSlot(s: Segment, es: seq<Entry>, k: nat, slot: nat)
    requires Holds(s, es, k) && slot < |es|
    ensures |s.offsets| == |es| && s.offsets[slot] <= |s.file.view|
    ensures var r := ReadRecord(s.file.view[s.offsets[slot]..]);
            ReadsBack(es[slot], if r.Read? then Some(r.entry) else None)
  {
    hide Record, ReadRecord, Stored, Records, EntryFits, EntryBytes;
    RecordsSplit(es, slot);
    RecordsFirst(es[slot..]);
    var e, rest := es[slot], Records(es[slot..][1..]);
    assert s.file.view[s.offsets[slot]..] == Record(e) + rest;
    if EntryFits(e) && |EntryBytes(e)| < U32 {
      if |EntryBytes(e)| <= MAX_RECORD { RecordReads(e, rest); } else { LongRecord(e, rest); }
    }
  }

  lemma SlotIsEntry(segments: seq<Segment>, cs: seq<seq<Entry>>, ks: seq<nat>, i: nat, slot: nat)
    requires Chain(segments, cs, ks) && i < |segments| && slot < |cs[i]|
    ensures var p := segments[i].first + slot - segments[0].first; 0 <= p < |Concat(cs)| && Concat(cs)[p] == cs[i][slot]
  {
    hide Holds, Concat;
    Starts(segments, cs, ks, i);
    ConcatAt(cs, i);
  }

  /** An index no segment holds lies outside the log. */
  lemma {:induction false} NowhereHeld(segments: seq<Segment>, cs: seq<seq<Entry>>, ks: seq<nat>, index: nat)
    requires Chain(segments, cs, ks)
    requires forall j :: 0 <= j < |segments| ==> !(segments[j].first <= index <= segments[j].last)
    ensures !(segments[0].first <= index <= segments[0].first + |Concat(cs)| - 1)
    decreases |segments|
  {
    hide Holds, Concat;
    Ends(segments, cs, ks);
    var n := |segments| - 1;
    if n > 0 {
      ChainCut(segments, cs, ks, 0, n);
      NowhereHeld(segments[..n], cs[..n], ks[..n], index);
      Ends(segments[..n], cs[..n], ks[..n]);
      assert Linked(segments, cs, n - 1);
    }
  }
}
