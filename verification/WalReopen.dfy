/** Opening the log again (crates/chronolog/src/wal.rs:193-328): the segments found on disk are read
    back, the torn one is cut, and what results is a valid log that holds exactly what was recovered,
    so that nothing is lost over any number of crashes. */
module WalReopen {
  import opened Types
  import opened EntryCodec
  import opened Codec
  import opened DiskFile
  import opened WalRecord
  import opened WalCrash
  import opened SegmentedWal

  // ---- the segments that are kept --------------------------------------------------------------

  function Offsets(es: seq<Entry>): seq<nat> {
    if es == [] then [] else Offsets(es[..|es| - 1]) + [|Records(es[..|es| - 1])|]
  }

  lemma {:induction false} OffsetsAre(es: seq<Entry>)
    ensures |Offsets(es)| == |es| && forall j :: 0 <= j < |es| ==> Offsets(es)[j] == |Records(es[..j])|
  {
    hide Records;
    if es != [] {
      var n := |es| - 1;
      OffsetsAre(es[..n]);
      forall j | 0 <= j < |es|
        ensures Offsets(es)[j] == |Records(es[..j])|
      {
        if j < n { assert es[..n][..j] == es[..j]; }
      }
    }
  }

  /** A file as found, cut back durably to the last record that verified. */
  function Repaired(bytes: Bytes, s: Scanned): FileState {
    var whole := FileState(bytes, bytes, []);
    if s.tail == Clean then whole else Fsync(TruncateTo(whole, s.valid))
  }

  function LastOf(first: nat, es: seq<Entry>): nat {
    if es != [] then es[|es| - 1].index else if first == 0 then 0 else first - 1
  }

  function Reopened(f: Found): Segment {
    var s := Scan(f.bytes, f.first);
    Segment(f.first, LastOf(f.first, s.entries), s.valid, Offsets(s.entries), false, Repaired(f.bytes, s))
  }

  /** The segments recovery keeps; the rest are removed. */
  function Kept(files: seq<Found>, got: seq<Entry>, clean: bool): seq<Segment>
    decreases |files|
  {
    if files == [] || !clean then []
    else if got != [] && files[0].first != got[|got| - 1].index + 1 then []
    else
      var s := Scan(files[0].bytes, files[0].first);
      [Reopened(files[0])] + Kept(files[1..], got + s.entries, s.tail == Clean)
  }

  /** One segment's offsets are rebuilt with a running total. */
  method Rebuild(f: Found) returns (seg: Segment, s: Scanned)
    ensures s == Scan(f.bytes, f.first) && seg == Reopened(f)
  {
    s := ScanSegment(f.bytes, f.first);
    hide Scan, Record;
    var es := s.entries;
    var offsets: seq<nat>, running: nat := [], 0;
    for i := 0 to |es|
      invariant offsets == Offsets(es[..i]) && running == |Records(es[..i])|
    {
      assert es[..i + 1][..i] == es[..i] && es[..i + 1][i] == es[i];
      offsets := offsets + [running];
      running := running + |Record(es[i])|;
    }
    assert es[..|es|] == es;
    seg := Segment(f.first, LastOf(f.first, es), s.valid, offsets, false, Repaired(f.bytes, s));
  }

  /** The loop over the segment files, in index order. `last` is the snapshot's index, or zero. */
  method Open(files: seq<Found>, last: nat) returns (segments: seq<Segment>, entries: seq<Entry>)
    ensures entries == Recover(files, [], true)
    ensures segments == if Kept(files, [], true) == [] then [EmptySegment(last + 1)] else Kept(files, [], true)
  {
    hide *;
    segments, entries := [], [];
    var clean := true;
    assert files[0..] == files && [] + Kept(files, [], true) == Kept(files, [], true);
    for i := 0 to |files|
      invariant Recover(files, [], true) == Recover(files[i..], entries, clean)
      invariant Kept(files, [], true) == segments + Kept(files[i..], entries, clean)
    {
      assert files[i..][0] == files[i] && files[i..][1..] == files[i + 1..];
      if !clean {
        NothingAfter(files[i..], entries, false);
        NothingAfter(files[i + 1..], entries, false);
      } else if entries != [] && files[i].first != entries[|entries| - 1].index + 1 {
        NothingAfter(files[i..], entries, true);
        NothingAfter(files[i + 1..], entries, false);
        clean := false;
      } else {
        KeptStep(files[i..], entries, files[i].first);
        RecoverStep(files[i..], entries, files[i].first);
        var seg, s := Rebuild(files[i]);
        ghost var rest := Kept(files[i + 1..], entries + s.entries, s.tail == Clean);
        assert segments + ([seg] + rest) == (segments + [seg]) + rest;
        segments, entries, clean := segments + [seg], entries + s.entries, s.tail == Clean;
      }
    }
    NoFiles(entries, clean);
    assert files[|files|..] == [] && segments + [] == segments;
    if segments == [] {
      segments := [EmptySegment(last + 1)];
    }
  }

  /** Behind a break nothing is read and nothing is kept. */
  lemma NothingAfter(files: seq<Found>, got: seq<Entry>, clean: bool)
    requires !clean || (files != [] && got != [] && files[0].first != got[|got| - 1].index + 1)
    ensures Recover(files, got, clean) == got && Kept(files, got, clean) == []
  {
  }

  // ---- what was a log is a log again --------------------------------------------------------------

  lemma {:induction false} CleanIsWhole(b: Bytes, wanted: nat)
    ensures Scan(b, wanted).tail == Clean ==> Scan(b, wanted).valid == |b|
    decreases |b|
  {
    hide ReadRecord;
    if b != [] && ReadRecord(b).Read? && ReadRecord(b).entry.index == wanted {
      ScanStep(b, wanted);
      CleanIsWhole(ReadRecord(b).rest, wanted + 1);
    } else if b != [] {
      ScanStops(b, wanted);
      StopIsDirty(b);
    }
  }

  lemma StopIsDirty(b: Bytes)
    ensures ReadRecord(b).Stop? ==> ReadRecord(b).why != Clean
  {
  }

  lemma RepairedIs(b: Bytes, first: nat, es: seq<Entry>)
    requires ScanIs(b, first, es)
    ensures Repaired(b, Scan(b, first)) == FileState(Records(es), Records(es), [])
  {
    hide Scan, Records;
    CleanIsWhole(b, first);
    var s := Scan(b, first);
    assert b[..|b|] == b;
    OneMore(b, [], Truncate(s.valid));
    assert [] + [Truncate(s.valid)] == [Truncate(s.valid)];
  }

  /** A file that reads as `es` becomes a segment that holds `es`, all of it durable. */
  lemma ReopenedHolds(f: Found, es: seq<Entry>)
    requires ScanIs(f.bytes, f.first, es) && Numbered(es, f.first) && f.first > 0
    ensures Holds(Reopened(f), es, |es|) && Reopened(f).first == f.first
  {
    hide Scan, Records, Record, Storable;
    RepairedIs(f.bytes, f.first, es);
    OffsetsAre(es);
    hide Offsets;
    assert es[..|es|] == es && es[|es|..] == [];
    NoneWritten(|Records(es)|);
  }

  function Lengths(cs: seq<seq<Entry>>): (r: seq<nat>)
    ensures |r| == |cs| && forall i :: 0 <= i < |cs| ==> r[i] == |cs[i]|
  {
    seq(|cs|, i requires 0 <= i < |cs| => |cs[i]|)
  }

  ghost function FilesOf(segments: seq<Segment>): (fs: seq<FileState>)
    ensures |fs| == |segments| && forall i :: 0 <= i < |fs| ==> fs[i] == segments[i].file
  {
    seq(|segments|, i requires 0 <= i < |segments| => segments[i].file)
  }

  /** Every entry can be read back, and damage to its record is noticed. */
  ghost predicate AllDetect(cs: seq<seq<Entry>>) {
    forall i :: 0 <= i < |cs| ==> Detects(cs[i]) && AllStorable(cs[i])
  }

  lemma AlwaysChain(s: Segment, es: seq<Entry>)
    requires Holds(s, es, |es|)
    ensures Chain([s], [es], Lengths([es])) && Concat([es]) == es
  {
    hide Holds;
    assert HoldsAt([s], [es], Lengths([es]), 0);
    assert [es][1..] == [];
  }

  lemma ChainBefore(s: Segment, es: seq<Entry>, segments: seq<Segment>, cs: seq<seq<Entry>>)
    requires Holds(s, es, |es|) && es != [] && Chain(segments, cs, Lengths(cs)) && segments[0].first == s.last + 1
    ensures Chain([s] + segments, [es] + cs, Lengths([es] + cs)) && Concat([es] + cs) == es + Concat(cs)
  {
    hide Holds;
    var segments', cs' := [s] + segments, [es] + cs;
    var ks' := Lengths(cs');
    forall i | 0 <= i < |segments'|
      ensures HoldsAt(segments', cs', ks', i)
    {
      if i > 0 { assert HoldsAt(segments, cs, Lengths(cs), i - 1); }
    }
    forall i | 0 <= i < |segments'| - 1
      ensures Linked(segments', cs', i)
    {
      if i > 0 { assert Linked(segments, cs, i - 1); }
    }
    assert cs'[1..] == cs;
  }

  lemma {:induction false} ChainLaid(segments: seq<Segment>, cs: seq<seq<Entry>>, ks: seq<nat>)
    requires Chain(segments, cs, ks) && AllDetect(cs)
    ensures Laid(FilesOf(segments), cs, ks, segments[0].first)
    decreases |segments|
  {
    hide Holds, Detects, Laid, AllStorable;
    assert HoldsAt(segments, cs, ks, 0);
    if |segments| > 1 {
      ChainRest(segments, cs, ks);
      ChainLaid(segments[1..], cs[1..], ks[1..]);
      assert FilesOf(segments)[1..] == FilesOf(segments[1..]);
    } else {
      NothingLaid(segments[0].last + 1);
      assert FilesOf(segments)[1..] == [] && cs[1..] == [] && ks[1..] == [];
    }
    FirstLaid(segments[0], FilesOf(segments), cs, ks);
  }

  lemma NothingLaid(first: nat)
    ensures Laid([], [], [], first)
  {
  }

  lemma NumberedOf(es: seq<Entry>, first: nat)
    ensures InSequence(es, first) && AllStorable(es) ==> Numbered(es, first)
  {
    hide Storable;
  }

  lemma FirstLaid(s: Segment, fs: seq<FileState>, cs: seq<seq<Entry>>, ks: seq<nat>)
    requires |fs| == |cs| == |ks| > 0 && fs[0] == s.file && Holds(s, cs[0], ks[0]) && Detects(cs[0])
    requires AllStorable(cs[0])
    requires Laid(fs[1..], cs[1..], ks[1..], s.last + 1)
    ensures Laid(fs, cs, ks, s.first)
  {
    hide Stored, AllStorable, InSequence, Numbered, Detects, Records;
    NumberedOf(cs[0], s.first);
  }

  lemma ChainRest(segments: seq<Segment>, cs: seq<seq<Entry>>, ks: seq<nat>)
    requires Chain(segments, cs, ks) && |segments| > 1
    ensures Chain(segments[1..], cs[1..], ks[1..]) && cs[0] != [] && segments[1].first == segments[0].last + 1
  {
    hide Holds;
    var n := |segments|;
    ChainCut(segments, cs, ks, 1, n);
    assert segments[1..n] == segments[1..] && cs[1..n] == cs[1..] && ks[1..n] == ks[1..];
    assert Linked(segments, cs, 0);
  }

  /** The first segment that is left comes back as a segment holding a prefix of what it held. */
  lemma FirstReopened(segments: seq<Segment>, cs: seq<seq<Entry>>, ks: seq<nat>, fates: seq<seq<Fate>>) returns (r: nat)
    requires Chain(segments, cs, ks) && AllDetect(cs) && FatesFor(FilesOf(segments), fates)
    ensures |fates| == |segments| && ks[0] <= |cs[0]| && FatesFor(FilesOf(segments)[1..], fates[1..])
    ensures var first := segments[0].first;
            var files := AfterLoss(FilesOf(segments), cs, fates, first);
            && files != [] && files[0].first == first && ks[0] <= r <= |cs[0]|
            && files[1..] == AfterLoss(FilesOf(segments)[1..], cs[1..], fates[1..], first + |cs[0]|)
            && Scan(files[0].bytes, first).entries == cs[0][..r]
            && Holds(Reopened(files[0]), cs[0][..r], r) && Reopened(files[0]).first == first
            && Numbered(cs[0], first) && segments[0].last + 1 == first + |cs[0]|
  {
    hide Holds, Laid, AfterLoss, Scan, FatesFor, ScanIs, Reopened, Detects, Storable;
    ChainLaid(segments, cs, ks);
    assert HoldsAt(segments, cs, ks, 0);
    HoldsLast(segments[0], cs[0], ks[0]);
    r := LaidFirst(FilesOf(segments), cs, ks, segments[0].first, fates);
    ReopenedHolds(AfterLoss(FilesOf(segments), cs, fates, segments[0].first)[0], cs[0][..r]);
  }

  /** Recovery and the segments it keeps agree, segment by segment. */
  lemma {:induction false} KeptChain(segments: seq<Segment>, cs: seq<seq<Entry>>, ks: seq<nat>, fates: seq<seq<Fate>>,
                                     got: seq<Entry>) returns (cs': seq<seq<Entry>>)
    requires Chain(segments, cs, ks) && AllDetect(cs) && FatesFor(FilesOf(segments), fates)
    requires got != [] ==> got[|got| - 1].index + 1 == segments[0].first
    requires got != [] || ks[0] > 0 || |segments| == 1
    ensures var files := AfterLoss(FilesOf(segments), cs, fates, segments[0].first);
            var kept := Kept(files, got, true);
            && Chain(kept, cs', Lengths(cs')) && kept[0].first == segments[0].first
            && Recover(files, got, true) == got + Concat(cs')
    decreases |segments|
  {
    hide *;
    ChainShape(segments, cs, ks);
    var first := segments[0].first;
    var files := AfterLoss(FilesOf(segments), cs, fates, first);
    var r := FirstReopened(segments, cs, ks, fates);
    var es, clean := cs[0][..r], Scan(files[0].bytes, first).tail == Clean;
    KeptStep(files, got, first);
    RecoverStep(files, got, first);
    assert [Reopened(files[0])] + [] == [Reopened(files[0])];
    if |segments| == 1 {
      cs' := [es];
      NothingMore(segments, cs, fates, first + |cs[0]|);
      NoFiles(got + es, clean);
      AlwaysChain(Reopened(files[0]), es);
    } else {
      ChainRest(segments, cs, ks);
      LastRead(got, cs[0], r, first);
      if clean && r == |cs[0]| {
        DetectRest(cs);
        assert FilesOf(segments)[1..] == FilesOf(segments[1..]) && es == cs[0];
        var more := KeptChain(segments[1..], cs[1..], ks[1..], fates[1..], got + es);
        HoldsLast(Reopened(files[0]), es, r);
        ChainBefore(Reopened(files[0]), es, Kept(files[1..], got + es, clean), more);
        cs' := [es] + more;
        assert (got + es) + Concat(more) == got + (es + Concat(more));
      } else {
        cs' := [es];
        ChainLaid(segments, cs, ks);
        KeptStops(files[1..], got + es, clean, FilesOf(segments), cs, ks, first, fates, r);
        AlwaysChain(Reopened(files[0]), es);
      }
    }
  }

  lemma ChainShape(segments: seq<Segment>, cs: seq<seq<Entry>>, ks: seq<nat>)
    requires Chain(segments, cs, ks)
    ensures |segments| == |cs| == |ks| > 0
  {
  }

  lemma DetectRest(cs: seq<seq<Entry>>)
    requires AllDetect(cs) && cs != []
    ensures AllDetect(cs[1..])
  {
    hide Detects, AllStorable;
  }

  lemma NothingMore(segments: seq<Segment>, cs: seq<seq<Entry>>, fates: seq<seq<Fate>>, next: nat)
    requires |segments| == |cs| == |fates| == 1 && FatesFor(FilesOf(segments)[1..], fates[1..])
    ensures AfterLoss(FilesOf(segments)[1..], cs[1..], fates[1..], next) == []
  {
  }

  lemma NoFiles(got: seq<Entry>, clean: bool)
    ensures Kept([], got, clean) == [] && Recover([], got, clean) == got
  {
  }

  lemma KeptStep(files: seq<Found>, got: seq<Entry>, first: nat)
    requires files != [] && files[0].first == first && (got == [] || got[|got| - 1].index + 1 == first)
    ensures var s := Scan(files[0].bytes, first);
            Kept(files, got, true) == [Reopened(files[0])] + Kept(files[1..], got + s.entries, s.tail == Clean)
  {
  }

  lemma KeptStops(files: seq<Found>, got: seq<Entry>, clean: bool, fs: seq<FileState>, cs: seq<seq<Entry>>,
                  ks: seq<nat>,
                  first: nat, fates: seq<seq<Fate>>, r: nat)
    requires Laid(fs, cs, ks, first) && cs != [] && FatesFor(fs, fates) && FatesFor(fs[1..], fates[1..])
    requires files == AfterLoss(fs[1..], cs[1..], fates[1..], first + |cs[0]|)
    requires got != [] && got[|got| - 1].index + 1 == first + r && (!clean || r < |cs[0]|)
    ensures Recover(files, got, clean) == got && Kept(files, got, clean) == []
  {
    if cs[1..] != [] { assert files[0].first == first + |cs[0]|; }
  }

  /** The whole story of a crash. Power is lost at any moment, with any fate for what was not synced;
      the log is opened again. What results is a log in its own right, all of it durable, that starts
      where the old one did and holds a prefix of its entries with everything synced among them. */
  lemma CrashAndReopen(segments: seq<Segment>, cs: seq<seq<Entry>>, ks: seq<nat>, fates: seq<seq<Fate>>)
    returns (cs': seq<seq<Entry>>)
    requires Chain(segments, cs, ks) && AllDetect(cs) && FatesFor(FilesOf(segments), fates)
    requires DurablePrefix(cs, ks) > 0 || |segments| == 1
    ensures var files := AfterLoss(FilesOf(segments), cs, fates, segments[0].first);
            var kept := Kept(files, [], true);
            && Chain(kept, cs', Lengths(cs')) && kept[0].first == segments[0].first
            && Concat(cs') == Recover(files, [], true) && Concat(cs') <= Concat(cs)
            && DurablePrefix(cs, ks) <= |Concat(cs')| == DurablePrefix(cs', Lengths(cs'))
  {
    hide Holds, AfterLoss, Concat, Recover, Kept, AllDetect, DurablePrefix, FatesFor;
    SyncedFirst(segments, cs, ks);
    cs' := KeptChain(segments, cs, ks, fates, []);
    assert [] + Concat(cs') == Concat(cs');
    ChainLaid(segments, cs, ks);
    var r := CrashRecovery(FilesOf(segments), cs, ks, segments[0].first, fates);
    AllDurable(cs', Lengths(cs'));
  }

  lemma SyncedFirst(segments: seq<Segment>, cs: seq<seq<Entry>>, ks: seq<nat>)
    requires Chain(segments, cs, ks) && (DurablePrefix(cs, ks) > 0 || |segments| == 1)
    ensures (ks[0] > 0 || |segments| == 1) && Anchored(cs, ks)
  {
    hide Holds;
    if |segments| > 1 { assert Linked(segments, cs, 0); } else { assert cs[1..] == []; }
  }

  // ---- the exact condition ------------------------------------------------------------------------------

  /** What recovery keeps is a log in its own right: it holds what was recovered, which is a prefix of what
      was there with everything durable in it. */
  ghost predicate ReopensWell(segments: seq<Segment>, cs: seq<seq<Entry>>, ks: seq<nat>, fates: seq<seq<Fate>>)
    requires |segments| == |cs| == |ks| > 0 && FatesFor(FilesOf(segments), fates)
  {
    var files := AfterLoss(FilesOf(segments), cs, fates, segments[0].first);
    exists cs' :: Replaces(Kept(files, [], true), cs', segments[0].first, Recover(files, [], true), cs, ks)
  }

  ghost predicate Replaces(kept: seq<Segment>, cs': seq<seq<Entry>>, first: nat, recovered: seq<Entry>,
                           cs: seq<seq<Entry>>, ks: seq<nat>)
    requires |cs| == |ks|
  {
    && Chain(kept, cs', Lengths(cs')) && kept[0].first == first && Concat(cs') == recovered
    && recovered <= Concat(cs) && DurablePrefix(cs, ks) <= |recovered|
  }

  /** Segments that make up no log, whatever they might be taken to hold. */
  ghost predicate NoLog(segments: seq<Segment>) {
    forall cs, ks :: !Chain(segments, cs, ks)
  }

  /** Of several segments the first is not empty. */
  lemma FirstHoldsSome(segments: seq<Segment>, cs: seq<seq<Entry>>, ks: seq<nat>)
    requires Chain(segments, cs, ks) && |segments| > 1
    ensures segments[0].first <= segments[0].last
  {
    hide Numbered, Stored, Records;
    assert HoldsAt(segments, cs, ks, 0) && Linked(segments, cs, 0);
  }

  lemma EmptyFirst(segments: seq<Segment>)
    requires |segments| > 1 && segments[0].last + 1 == segments[0].first
    ensures NoLog(segments)
  {
    hide Holds;
    forall cs, ks
      ensures !Chain(segments, cs, ks)
    {
      if Chain(segments, cs, ks) { FirstHoldsSome(segments, cs, ks); }
    }
  }

  /** The first segment reads as nothing, so the next is kept behind it wherever it starts. */
  lemma KeptPair(files: seq<Found>)
    requires |files| > 1 && files[0].first > 0 && Scan(files[0].bytes, files[0].first) == Scanned([], Clean, 0)
    ensures var kept := Kept(files, [], true);
            |kept| > 1 && kept[0].last + 1 == kept[0].first && kept[1] == Reopened(files[1])
  {
    hide Scan;
    var none: seq<Entry> := [];
    assert none + none == none;
  }

  /** Lose what was written to the first segment, and keep the rest. */
  lemma FirstLost(segments: seq<Segment>, cs: seq<seq<Entry>>, ks: seq<nat>) returns (fates: seq<seq<Fate>>)
    requires Chain(segments, cs, ks) && ks[0] == 0 && |segments| > 1
    ensures |segments| == |cs| && FatesFor(FilesOf(segments), fates)
    ensures var files := AfterLoss(FilesOf(segments), cs, fates, segments[0].first);
            && |files| > 1 && files[0].first == segments[0].first > 0
            && Scan(files[0].bytes, files[0].first) == Scanned([], Clean, 0)
  {
    var fs, first := FilesOf(segments), segments[0].first;
    assert HoldsAt(segments, cs, ks, 0);
    hide Scan, PowerLoss, Chain;
    LostWhole(fs[0], cs[0], first);
    AllKeptPossible(fs[1..]);
    var lost := Same(|fs[0].pending|, Lost);
    fates := [lost] + AllKept(fs[1..]);
    hide FatesFor, Stored;
    FatesCons(fs, lost, AllKept(fs[1..]));
    assert fates[0] == lost;
  }

  /** Otherwise, for some power loss, what recovery keeps is no log at all. */
  lemma ReopenFails(segments: seq<Segment>, cs: seq<seq<Entry>>, ks: seq<nat>) returns (fates: seq<seq<Fate>>)
    requires Chain(segments, cs, ks) && DurablePrefix(cs, ks) == 0 && |segments| > 1
    ensures |segments| == |cs| && FatesFor(FilesOf(segments), fates)
    ensures var files := AfterLoss(FilesOf(segments), cs, fates, segments[0].first);
            NoLog(Kept(files, [], true))
  {
    hide Holds, AfterLoss, Kept, FatesFor, Scan;
    NoneDurable(segments, cs, ks);
    fates := FirstLost(segments, cs, ks);
    var files := AfterLoss(FilesOf(segments), cs, fates, segments[0].first);
    KeptPair(files);
    EmptyFirst(Kept(files, [], true));
  }

  lemma NotReopened(segments: seq<Segment>, cs: seq<seq<Entry>>, ks: seq<nat>, fates: seq<seq<Fate>>)
    requires |segments| == |cs| == |ks| > 0 && FatesFor(FilesOf(segments), fates)
    requires var files := AfterLoss(FilesOf(segments), cs, fates, segments[0].first);
             NoLog(Kept(files, [], true))
    ensures !ReopensWell(segments, cs, ks, fates)
  {
    hide Holds, AfterLoss, Concat, Recover, Kept, DurablePrefix, FatesFor;
    var files := AfterLoss(FilesOf(segments), cs, fates, segments[0].first);
    var kept, recovered := Kept(files, [], true), Recover(files, [], true);
    forall cs'
      ensures !Replaces(kept, cs', segments[0].first, recovered, cs, ks)
    {
      assert !Chain(kept, cs', Lengths(cs'));
    }
  }

  lemma IsReopened(segments: seq<Segment>, cs: seq<seq<Entry>>, ks: seq<nat>, fates: seq<seq<Fate>>)
    requires Chain(segments, cs, ks) && AllDetect(cs) && FatesFor(FilesOf(segments), fates)
    requires DurablePrefix(cs, ks) > 0 || |segments| == 1
    ensures |segments| == |cs| == |ks| > 0 && ReopensWell(segments, cs, ks, fates)
  {
    ChainShape(segments, cs, ks);
    hide Chain, AfterLoss, Concat, Recover, Kept, AllDetect, DurablePrefix, FatesFor;
    var cs' := CrashAndReopen(segments, cs, ks, fates);
    var files := AfterLoss(FilesOf(segments), cs, fates, segments[0].first);
    assert Replaces(Kept(files, [], true), cs', segments[0].first, Recover(files, [], true), cs, ks);
  }

  lemma NoneDurable(segments: seq<Segment>, cs: seq<seq<Entry>>, ks: seq<nat>)
    requires Chain(segments, cs, ks) && DurablePrefix(cs, ks) == 0 && |segments| > 1
    ensures ks[0] == 0
  {
    hide Holds;
    assert Linked(segments, cs, 0);
  }

  /** The exact condition for reopening, which can be read off the log before the crash: something is
      durable at its front, or there is one segment only. It asks more than `Anchored`, under which the
      entries that are read back are right but what the log goes on with may not be. */
  lemma ReopenCondition(segments: seq<Segment>, cs: seq<seq<Entry>>, ks: seq<nat>)
    requires Chain(segments, cs, ks) && AllDetect(cs)
    ensures |segments| == |cs| == |ks| > 0
    ensures DurablePrefix(cs, ks) > 0 || |segments| == 1 <==>
              forall fates :: FatesFor(FilesOf(segments), fates) ==> ReopensWell(segments, cs, ks, fates)
  {
    ChainShape(segments, cs, ks);
    hide Chain, AfterLoss, Concat, Recover, Kept, AllDetect, DurablePrefix, FatesFor, ReopensWell;
    if DurablePrefix(cs, ks) > 0 || |segments| == 1 {
      forall fates | FatesFor(FilesOf(segments), fates)
        ensures ReopensWell(segments, cs, ks, fates)
      {
        IsReopened(segments, cs, ks, fates);
      }
    } else {
      var fates := ReopenFails(segments, cs, ks);
      NotReopened(segments, cs, ks, fates);
    }
  }

  /** A log between two segments: the first is written and not synced, the second has just been opened. */
  lemma LostBetweenSegments(first: nat, e: Entry)
    requires first > 0 && e.index == first
    ensures var segments := [Written(EmptySegment(first), e), EmptySegment(first + 1)];
            var fates := [[Lost, Lost], [Lost]];
            && Chain(segments, [[e], []], [0, 0]) && Anchored([[e], []], [0, 0])
            && FatesFor(FilesOf(segments), fates)
            && var files := AfterLoss(FilesOf(segments), [[e], []], fates, first);
               var kept := Kept(files, [], true);
               && Recover(files, [], true) == [] && |kept| == 2 && kept[1].last == first
               && NoLog(kept)
  {
    hide Chain, Written, Kept, Recover, AfterLoss, FatesFor;
    PairIsChain(first, e);
    LostFiles([Written(EmptySegment(first), e), EmptySegment(first + 1)], e, first, [[Lost, Lost], [Lost]]);
    BothEmpty(first);
    EmptyFirst(Kept([Found(first, []), Found(first + 1, [])], [], true));
  }

  lemma PairIsChain(first: nat, e: Entry)
    requires first > 0 && e.index == first
    ensures Chain([Written(EmptySegment(first), e), EmptySegment(first + 1)], [[e], []], [0, 0])
    ensures Anchored([[e], []], [0, 0])
  {
    var a, b := Written(EmptySegment(first), e), EmptySegment(first + 1);
    var cs: seq<seq<Entry>> := [[e], []];
    hide Record, Holds;
    FreshHolds(first);
    FreshHolds(first + 1);
    WriteHolds(EmptySegment(first), [], 0, e);
    assert [] + [e] == [e];
    assert HoldsAt([a, b], cs, [0, 0], 0) && HoldsAt([a, b], cs, [0, 0], 1) && Linked([a, b], cs, 0);
    EmptyBehind(e);
  }

  lemma EmptyBehind(e: Entry)
    ensures Anchored([[e], []], [0, 0])
  {
    var cs: seq<seq<Entry>> := [[e], []];
    assert cs[1..] == [[]] && cs[1..][1..] == [];
  }

  lemma LostFiles(segments: seq<Segment>, e: Entry, first: nat, fates: seq<seq<Fate>>)
    requires first > 0 && segments == [Written(EmptySegment(first), e), EmptySegment(first + 1)]
    requires fates == [[Lost, Lost], [Lost]]
    ensures FatesFor(FilesOf(segments), fates)
    ensures AfterLoss(FilesOf(segments), [[e], []], fates, first) == [Found(first, []), Found(first + 1, [])]
  {
    var fs := FilesOf(segments);
    assert Same(2, Lost) == [Lost, Lost] && Same(1, Lost) == [Lost];
    NothingLeft(fs[0], fates[0]);
    NothingLeft(fs[1], fates[1]);
    hide PowerLoss, Written, EmptySegment, AllPossible;
    TwoFound(fs, [[e], []], fates, first);
  }

  lemma TwoFound(fs: seq<FileState>, cs: seq<seq<Entry>>, fates: seq<seq<Fate>>, first: nat)
    requires |fs| == |cs| == |fates| == 2 && |cs[0]| == 1
    requires AllPossible(fs[0].pending, fates[0]) && AllPossible(fs[1].pending, fates[1])
    ensures FatesFor(fs, fates)
    ensures AfterLoss(fs, cs, fates, first)
         == [Found(first, PowerLoss(fs[0], fates[0]).view), Found(first + 1, PowerLoss(fs[1], fates[1]).view)]
  {
    hide PowerLoss;
    assert cs[1..][1..] == [];
    assert AfterLoss(fs[1..][1..], cs[1..][1..], fates[1..][1..], first + 1 + |cs[1]|) == [];
    assert AfterLoss(fs[1..], cs[1..], fates[1..], first + 1) == [Found(first + 1, PowerLoss(fs[1], fates[1]).view)];
  }

  lemma NothingLeft(f: FileState, fates: seq<Fate>)
    requires f.durable == [] && fates == Same(|f.pending|, Lost)
    ensures AllPossible(f.pending, fates) && PowerLoss(f, fates).view == []
  {
    LoseAll([], f.pending);
  }

  lemma BothEmpty(first: nat)
    requires first > 0
    ensures var files := [Found(first, []), Found(first + 1, [])];
            var kept := Kept(files, [], true);
            && Recover(files, [], true) == [] && |kept| == 2
            && kept[0].last + 1 == kept[0].first && kept[1].last == first
  {
    var files := [Found(first, []), Found(first + 1, [])];
    ScanNothing(first);
    ScanNothing(first + 1);
    hide Scan;
    KeptStep(files, [], first);
    RecoverStep(files, [], first);
    var none: seq<Entry> := [];
    assert files[1..] == [files[1]] && [files[1]][1..] == [] && none + none == none;
    KeptStep(files[1..], [], first + 1);
    RecoverStep(files[1..], [], first + 1);
    NoFiles([], true);
  }

  /** The same for the log as an object. Restarting from the files a power loss left of `before` goes on
      with what recovery kept; under the condition that is a valid log again, and nothing that a
      completed sync covered is missing from it. */
  method Restart(files: seq<Found>, last: nat, segmentBytes: nat, slackBytes: nat, ghost before: Wal,
                 ghost fates: seq<seq<Fate>>)
    returns (w: Wal, entries: seq<Entry>)
    requires segmentBytes > 0 && before.Valid() && AllDetect(before.contents)
    requires FatesFor(FilesOf(before.segments), fates)
    requires files == AfterLoss(FilesOf(before.segments), before.contents, fates, before.segments[0].first)
    ensures fresh(w) && entries == Recover(files, [], true) && w.segments == Kept(files, [], true)
    ensures DurablePrefix(before.contents, before.kept) > 0 || |before.segments| == 1 ==>
              && w.Valid() && w.Entries() == entries && w.Contents().first == before.Contents().first
              && entries <= before.Entries() && before.synced <= |entries| == w.synced
  {
    hide Holds, AfterLoss, Concat, Recover, Kept, AllDetect, DurablePrefix, FatesFor;
    ghost var cs: seq<seq<Entry>> := [];
    if DurablePrefix(before.contents, before.kept) > 0 || |before.segments| == 1 {
      cs := CrashAndReopen(before.segments, before.contents, before.kept, fates);
    }
    SomeKept(before.segments, before.contents, fates);
    var segments;
    segments, entries := Open(files, last);
    w := new Wal.Resume(segments, segmentBytes, slackBytes, cs, Lengths(cs));
  }

  lemma SomeKept(segments: seq<Segment>, cs: seq<seq<Entry>>, fates: seq<seq<Fate>>)
    requires |segments| == |cs| > 0 && FatesFor(FilesOf(segments), fates)
    ensures Kept(AfterLoss(FilesOf(segments), cs, fates, segments[0].first), [], true) != []
  {
    hide Scan, PowerLoss, Reopened;
  }
}
