/** Crash recovery of the write-ahead log: whatever power loss does to the writes that were not
    synced, recovery returns a contiguous prefix of what was appended that includes everything
    synced (crates/chronolog/src/wal.rs:217-295, 690-738).

    Checksums are idealised by an explicit hypothesis, `ChecksumDetects`: zero-filling the tail of a
    record yields the record itself or something whose checksum does not match. */
module WalCrash {
  import opened Types
  import opened Codec
  import opened Crc
  import opened EntryCodec
  import opened DiskFile
  import opened WalRecord

  // ---- torn records ------------------------------------------------------------------

  /** The first bytes of a record, the rest of its place filled with zeros. */
  function TornImage(r: Bytes, keep: nat): (b: Bytes)
    requires keep <= |r|
    ensures |b| == |r|
  {
    r[..keep] + Zeros(|r| - keep)
  }

  /** A plausible length and a matching checksum. */
  ghost predicate Believable(b: Bytes) {
    |b| >= HEADER && 0 < HeaderLength(b) <= MAX_RECORD && Verifies(b)
  }

  ghost predicate ChecksumDetects(e: Entry) {
    forall keep {:trigger TornImage(Record(e), keep)} ::
      0 <= keep <= |Record(e)| && TornImage(Record(e), keep) != Record(e) ==> !Believable(TornImage(Record(e), keep))
  }

  lemma {:induction false} ZeroTailIsLess(b: Bytes, keep: nat)
    requires keep <= |b|
    ensures FromLittleEndian(TornImage(b, keep)) <= FromLittleEndian(b)
    decreases |b|
  {
    var t := TornImage(b, keep);
    if b != [] {
      if keep > 0 {
        ZeroTailIsLess(b[1..], keep - 1);
        assert t[1..] == TornImage(b[1..], keep - 1);
      } else {
        ZeroTailIsLess(b[1..], 0);
        assert t[1..] == TornImage(b[1..], 0);
      }
    }
  }

  /** A torn header never promises more than the record held. */
  lemma TornLength(r: Bytes, keep: nat)
    requires keep <= |r| && |r| >= HEADER
    ensures HeaderLength(TornImage(r, keep)) <= HeaderLength(r)
  {
    var k := if keep < 4 then keep else 4;
    ZeroTailIsLess(r[..4], k);
    assert TornImage(r, keep)[..4] == TornImage(r[..4], k);
  }

  lemma VerifiesWithin(b: Bytes, rest: Bytes)
    requires |b| >= HEADER && HEADER + HeaderLength(b) <= |b|
    ensures HeaderLength(b + rest) == HeaderLength(b) && (Verifies(b + rest) <==> Verifies(b))
  {
    var len := HeaderLength(b);
    assert (b + rest)[..4] == b[..4] && (b + rest)[4..8] == b[4..8];
    assert (b + rest)[HEADER..HEADER + len] == b[HEADER..HEADER + len];
  }

  lemma RecordLength(e: Entry)
    requires Storable(e)
    ensures HeaderLength(Record(e)) + HEADER == |Record(e)|
  {
    FramedHeader(EntryBytes(e), []);
    assert Framed(EntryBytes(e)) + [] == Framed(EntryBytes(e));
  }

  /** A torn record stops the scan, whatever follows it. */
  lemma TornStops(e: Entry, keep: nat, rest: Bytes)
    requires Storable(e) && ChecksumDetects(e) && keep <= |Record(e)| && TornImage(Record(e), keep) != Record(e)
    ensures ReadRecord(TornImage(Record(e), keep) + rest).Stop?
  {
    var b := TornImage(Record(e), keep);
    RecordLength(e);
    TornLength(Record(e), keep);
    hide Record, TornImage, HeaderLength, HeaderChecksum, ReadEntry;
    assert !Believable(b);
    VerifiesWithin(b, rest);
  }

  /** So does a record cut short by the end of the file. */
  lemma ShortStops(e: Entry, keep: nat)
    requires Storable(e) && 0 < keep < |Record(e)|
    ensures ReadRecord(Record(e)[..keep]).Stop?
  {
    var b := Record(e)[..keep];
    RecordLength(e);
    if keep >= HEADER { assert b[..4] == Record(e)[..4]; }
  }

  // ---- what is left of consecutive records ------------------------------------------------

  ghost predicate PartOf(r: Bytes, b: Bytes) {
    exists keep :: 0 <= keep <= |r| && b == r[..keep]
  }

  ghost predicate ImageOf(r: Bytes, b: Bytes) {
    exists keep {:trigger TornImage(r, keep)} :: 0 <= keep <= |r| && b == TornImage(r, keep)
  }

  /** What may be left of records written one after another: each is intact, torn or zeroed while a
      later one survives, and the last that survives may be cut short. */
  ghost predicate Damaged(es: seq<Entry>, b: Bytes)
    decreases |es|
  {
    if es == [] then b == []
    else
      var r := Record(es[0]);
      PartOf(r, b) || (|b| > |r| && ImageOf(r, b[..|r|]) && Damaged(es[1..], b[|r|..]))
  }

  lemma NothingLeft(es: seq<Entry>)
    ensures Damaged(es, [])
  {
    if es != [] { assert [] == Record(es[0])[..0]; }
  }

  lemma AllLeft(es: seq<Entry>)
    ensures Damaged(es, Records(es))
    decreases |es|
  {
    hide Record;
    if es != [] {
      var r, rest := Record(es[0]), Records(es[1..]);
      RecordsFirst(es);
      AllLeft(es[1..]);
      if rest == [] {
        assert Records(es) == r[..|r|];
      } else {
        assert Records(es)[..|r|] == r == TornImage(r, |r|) && Records(es)[|r|..] == rest;
      }
    }
  }

  lemma {:induction false} DamagedLength(es: seq<Entry>, b: Bytes)
    requires Damaged(es, b)
    ensures |b| <= |Records(es)|
    decreases |es|
  {
    hide Record;
    if es != [] {
      RecordsFirst(es);
      if !PartOf(Record(es[0]), b) { DamagedLength(es[1..], b[|Record(es[0])|..]); }
    }
  }

  /** Losing one more write leaves the same bytes. */
  lemma {:induction false} DamagedMore(es: seq<Entry>, b: Bytes, e: Entry)
    requires Damaged(es, b)
    ensures Damaged(es + [e], b)
    decreases |es|
  {
    hide Record;
    if es == [] {
      NothingLeft([e]);
      assert es + [e] == [e];
    } else if !PartOf(Record(es[0]), b) {
      DamagedMore(es[1..], b[|Record(es[0])|..], e);
      assert (es + [e])[1..] == es[1..] + [e];
    }
  }

  lemma SpliceSplit(head: Bytes, b: Bytes, offset: nat, data: Bytes)
    requires |b| <= offset
    ensures Splice(head + b, |head| + offset, data) == head + Splice(b, offset, data)
  {
  }

  /** Part of one more record lands behind what is left of the others. */
  lemma {:induction false} DamagedSplice(es: seq<Entry>, b: Bytes, e: Entry, keep: nat)
    requires Damaged(es, b) && 0 < keep <= |Record(e)|
    ensures Damaged(es + [e], Splice(b, |Records(es)|, Record(e)[..keep]))
    decreases |es|
  {
    hide Record, Splice, TornImage, ImageOf, Records;
    var data := Record(e)[..keep];
    if es == [] {
      SpliceNone(data);
      assert es + [e] == [e] && PartOf(Record(e), data);
      NothingBefore();
    } else {
      var r, off := Record(es[0]), |Records(es[1..])|;
      RecordsFirst(es);
      var b' := Splice(b, |r| + off, data);
      if PartOf(r, b) {
        var k :| 0 <= k <= |r| && b == r[..k];
        NothingLeft(es[1..]);
        DamagedSplice(es[1..], [], e, keep);
        SpliceOverPart(r, k, off, data);
        TornIsImage(r, k);
      } else {
        DamagedLength(es[1..], b[|r|..]);
        DamagedSplice(es[1..], b[|r|..], e, keep);
        SpliceSplit(b[..|r|], b[|r|..], off, data);
        assert b == b[..|r|] + b[|r|..];
        assert b'[..|r|] == b[..|r|] && b'[|r|..] == Splice(b[|r|..], off, data);
      }
      DamagedBehind(es, e, b');
    }
  }

  lemma SpliceNone(data: Bytes)
    ensures Splice([], 0, data) == data
  {
  }

  lemma NothingBefore()
    ensures Records([]) == []
  {
  }

  lemma TornIsImage(r: Bytes, k: nat)
    requires k <= |r|
    ensures ImageOf(r, TornImage(r, k))
  {
  }

  lemma DamagedBehind(es: seq<Entry>, e: Entry, b: Bytes)
    requires es != [] && |b| > |Record(es[0])| && ImageOf(Record(es[0]), b[..|Record(es[0])|])
    requires Damaged(es[1..] + [e], b[|Record(es[0])|..])
    ensures Damaged(es + [e], b)
  {
    hide Record, ImageOf;
    assert (es + [e])[1..] == es[1..] + [e];
  }

  lemma SpliceOverPart(r: Bytes, k: nat, off: nat, data: Bytes)
    requires k <= |r| && data != []
    ensures var b := Splice(r[..k], |r| + off, data);
            |b| > |r| && b[..|r|] == TornImage(r, k) && b[|r|..] == Splice([], off, data)
  {
  }

  // ---- what the scan makes of it ----------------------------------------------------------------

  ghost predicate Detects(es: seq<Entry>) {
    forall e :: e in es ==> ChecksumDetects(e)
  }

  /** A scan read exactly the records of these entries. */
  ghost predicate ScanIs(b: Bytes, first: nat, es: seq<Entry>) {
    var s := Scan(b, first); s.entries == es && s.valid == |Records(es)| && b[..s.valid] == Records(es)
  }

  lemma ScanIsNothing(b: Bytes, first: nat)
    requires Scan(b, first).entries == [] && Scan(b, first).valid == 0
    ensures ScanIs(b, first, [])
  {
  }

  lemma ScanIsOne(e: Entry, rest: Bytes, first: nat, more: seq<Entry>)
    requires Storable(e) && e.index == first && ScanIs(rest, first + 1, more)
    ensures ScanIs(Record(e) + rest, first, [e] + more)
  {
    hide Record, ReadRecord, Storable, Scan;
    var b := Record(e) + rest;
    RecordReads(e, rest);
    ScanStep(b, first);
    RecordsFirst([e] + more);
    assert ([e] + more)[1..] == more;
    var valid := Scan(rest, first + 1).valid;
    assert b[..|Record(e)| + valid] == Record(e) + rest[..valid];
  }

  lemma ScanImage(es: seq<Entry>, image: Bytes, rest: Bytes, first: nat, r1: nat) returns (r: nat)
    requires es != [] && Storable(es[0]) && es[0].index == first && ChecksumDetects(es[0])
    requires ImageOf(Record(es[0]), image) && r1 <= |es[1..]| && ScanIs(rest, first + 1, es[1..][..r1])
    ensures r <= |es| && ScanIs(image + rest, first, es[..r])
  {
    hide Record, ReadRecord, Storable, ChecksumDetects, TornImage, Scan, ScanIs;
    var e := es[0];
    var keep :| 0 <= keep <= |Record(e)| && image == TornImage(Record(e), keep);
    if image == Record(e) {
      ScanIsOne(e, rest, first, es[1..][..r1]);
      r := r1 + 1;
      assert es[..r] == [e] + es[1..][..r1];
    } else {
      TornStops(e, keep, rest);
      RecordReads(e, []);
      ScanStops(image + rest, first);
      r := 0;
      ScanIsNothing(image + rest, first);
      assert es[..0] == [];
    }
  }

  lemma DamagedFirst(es: seq<Entry>, b: Bytes)
    requires Damaged(es, b) && es != [] && !PartOf(Record(es[0]), b)
    ensures var n := |Record(es[0])|;
            n <= |b| && ImageOf(Record(es[0]), b[..n]) && Damaged(es[1..], b[n..]) && b == b[..n] + b[n..]
  {
  }

  /** The scan of what is left returns a prefix of what was written. */
  lemma {:induction false} ScanDamaged(es: seq<Entry>, b: Bytes, first: nat) returns (r: nat)
    requires Numbered(es, first) && Detects(es) && Damaged(es, b)
    ensures r <= |es| && ScanIs(b, first, es[..r])
    ensures es == [] ==> Scan(b, first).tail == Clean
    decreases |es|
  {
    hide Record, Storable, ChecksumDetects, Scan, PartOf, ImageOf, ScanIs;
    r := 0;
    if es == [] || b == [] {
      assert es == [] ==> b == [];
      ScanNothing(first);
      ScanIsNothing(b, first);
      assert es[..0] == [];
    } else if PartOf(Record(es[0]), b) {
      r := ScanPart(es, b, first);
    } else {
      DamagedFirst(es, b);
      hide Damaged;
      var n := |Record(es[0])|;
      var r1 := ScanDamaged(es[1..], b[n..], first + 1);
      r := ScanImage(es, b[..n], b[n..], first, r1);
    }
  }

  lemma ScanPart(es: seq<Entry>, b: Bytes, first: nat) returns (r: nat)
    requires es != [] && b != [] && Storable(es[0]) && es[0].index == first && PartOf(Record(es[0]), b)
    ensures r <= |es| && ScanIs(b, first, es[..r])
  {
    hide Record, ReadRecord, Storable, Scan, ScanIs;
    var e := es[0];
    var keep :| 0 <= keep <= |Record(e)| && b == Record(e)[..keep];
    if keep == |Record(e)| {
      assert b == Record(e) + [];
      ScanNothing(first + 1);
      ScanIsNothing([], first + 1);
      ScanIsOne(e, [], first, []);
      r := 1;
      assert es[..1] == [e] + [];
    } else {
      ShortStops(e, keep);
      ScanStops(b, first);
      ScanIsNothing(b, first);
      r := 0;
      assert es[..0] == [];
    }
  }

  // ---- one segment file ------------------------------------------------------------------------------

  /** The writes that put records one after another from an offset on. */
  function Writes(offset: nat, es: seq<Entry>): seq<PendingOp> {
    if es == [] then []
    else
      var n := |es| - 1;
      Writes(offset, es[..n]) + [Write(offset + |Records(es[..n])|, Record(es[n]))]
  }

  /** A segment whose first `k` entries are durable and whose others are still pending; a segment
      never synced also has its creating truncation pending. */
  ghost predicate Stored(f: FileState, es: seq<Entry>, k: nat) {
    && k <= |es| && f.durable == Records(es[..k])
    && (f.pending == Writes(|f.durable|, es[k..]) || (k == 0 && f.pending == [Truncate(0)] + Writes(0, es)))
  }

  lemma WritesCount(offset: nat, es: seq<Entry>)
    ensures |Writes(offset, es)| == |es|
  {
  }

  lemma LastWrite(d: Bytes, offset: nat, es: seq<Entry>, fates: seq<Fate>)
    requires es != [] && AllPossible(Writes(offset, es), fates)
    ensures var n := |es| - 1;
            var op := Write(offset + |Records(es[..n])|, Record(es[n]));
            && |fates| == |es| && AllPossible(Writes(offset, es[..n]), fates[..n]) && Possible(op, fates[n])
            && SufferAll(d, Writes(offset, es), fates)
               == Suffer(SufferAll(d, Writes(offset, es[..n]), fates[..n]), op, fates[n])
  {
    hide Record, Records;
    var n := |es| - 1;
    WritesCount(offset, es);
    WritesCount(offset, es[..n]);
    var ops := Writes(offset, es[..n]);
    assert Writes(offset, es)[..n] == ops;
    forall i | 0 <= i < n
      ensures Possible(ops[i], fates[..n][i])
    {
      assert ops[i] == Writes(offset, es)[i];
    }
    assert Possible(Writes(offset, es)[n], fates[n]);
  }

  lemma NoWrites(d: Bytes, es: seq<Entry>, fates: seq<Fate>)
    requires es == [] && AllPossible(Writes(|d|, es), fates)
    ensures SufferAll(d, Writes(|d|, es), fates) == d + [] && Damaged(es, [])
  {
  }

  /** What power loss leaves of the pending records. */
  lemma {:induction false} WritesDamaged(d: Bytes, es: seq<Entry>, fates: seq<Fate>) returns (b: Bytes)
    requires AllPossible(Writes(|d|, es), fates)
    ensures SufferAll(d, Writes(|d|, es), fates) == d + b && Damaged(es, b)
    decreases |es|
  {
    hide Record, Records, Writes, Damaged, SufferAll, Suffer, AllPossible, Possible;
    if es == [] {
      b := [];
      NoWrites(d, es, fates);
    } else {
      var n := |es| - 1;
      LastWrite(d, |d|, es, fates);
      var b0 := WritesDamaged(d, es[..n], fates[..n]);
      b := OneWriteDamaged(d, es[..n], b0, es[n], fates[n], es);
    }
  }

  lemma RecordNonEmpty(e: Entry)
    ensures |Record(e)| > 0
  {
  }

  lemma OneWriteDamaged(d: Bytes, es: seq<Entry>, b0: Bytes, e: Entry, fate: Fate, all: seq<Entry>) returns (b: Bytes)
    requires Damaged(es, b0) && Possible(Write(|d| + |Records(es)|, Record(e)), fate) && all == es + [e]
    ensures Suffer(d + b0, Write(|d| + |Records(es)|, Record(e)), fate) == d + b && Damaged(all, b)
  {
    RecordNonEmpty(e);
    hide Record, Damaged, Splice;
    DamagedLength(es, b0);
    var keep := match fate case Kept => |Record(e)| case Lost => 0 case Torn(k) => k;
    if keep == 0 {
      DamagedMore(es, b0, e);
      b := b0;
    } else {
      b := Splice(b0, |Records(es)|, Record(e)[..keep]);
      DamagedSplice(es, b0, e, keep);
      SpliceSplit(d, b0, |Records(es)|, Record(e)[..keep]);
      assert Record(e)[..|Record(e)|] == Record(e);
    }
  }

  lemma {:induction false} TruncateNothing(ops: seq<PendingOp>, fates: seq<Fate>)
    requires AllPossible([Truncate(0)] + ops, fates)
    ensures AllPossible(ops, fates[1..]) && SufferAll([], [Truncate(0)] + ops, fates) == SufferAll([], ops, fates[1..])
    decreases |ops|
  {
    var all := [Truncate(0)] + ops;
    forall i | 0 <= i < |ops|
      ensures Possible(ops[i], fates[1..][i])
    {
      assert all[i + 1] == ops[i];
    }
    if ops == [] {
      assert all[..0] == [] && fates[..0] == [];
      assert all[0] == Truncate(0);
    } else {
      var n := |ops| - 1;
      assert all[..|ops|] == [Truncate(0)] + ops[..n] && all[|ops|] == ops[n];
      assert AllPossible([Truncate(0)] + ops[..n], fates[..|ops|]);
      TruncateNothing(ops[..n], fates[..|ops|]);
      assert fates[..|ops|][1..] == fates[1..][..n];
    }
  }

  /** Power loss keeps every durable record of a segment and leaves the others in some disorder. */
  lemma SegmentSurvives(f: FileState, es: seq<Entry>, k: nat, fates: seq<Fate>) returns (b: Bytes)
    requires Stored(f, es, k) && AllPossible(f.pending, fates)
    ensures PowerLoss(f, fates).view == Records(es[..k]) + b && Damaged(es[k..], b)
  {
    hide Record, Damaged, Records, Writes;
    if f.pending == Writes(|f.durable|, es[k..]) {
      b := WritesDamaged(f.durable, es[k..], fates);
    } else {
      TruncateNothing(Writes(0, es), fates);
      assert es[..0] == [] && es[0..] == es;
      NoRecords();
      b := WritesDamaged([], es, fates[1..]);
    }
  }

  lemma NoRecords()
    ensures Records([]) == []
  {
  }

  /** Recovery of one segment: at least its durable entries, at most all of them. */
  lemma SegmentRecovers(f: FileState, es: seq<Entry>, k: nat, fates: seq<Fate>, first: nat) returns (r: nat)
    requires Stored(f, es, k) && AllPossible(f.pending, fates) && Numbered(es, first) && Detects(es)
    ensures k <= r <= |es| && ScanIs(PowerLoss(f, fates).view, first, es[..r])
    ensures k == |es| ==> Scan(PowerLoss(f, fates).view, first).tail == Clean
  {
    hide Record, Damaged, Records, Scan, PowerLoss, Stored, Storable, ChecksumDetects;
    assert k <= |es| by { StoredCount(f, es, k); }
    var b := SegmentSurvives(f, es, k, fates);
    var r1 := ScanDamaged(es[k..], b, first + k);
    ScanRecords(es[..k], b, first);
    r := k + r1;
    assert es[..k] + es[k..][..r1] == es[..r];
    RecordsSplit(es[..r], k);
    assert es[..r][..k] == es[..k] && es[..r][k..] == es[k..][..r1];
    var valid := Scan(b, first + k).valid;
    assert (Records(es[..k]) + b)[..|Records(es[..k])| + valid] == Records(es[..k]) + b[..valid];
  }

  lemma StoredCount(f: FileState, es: seq<Entry>, k: nat)
    requires Stored(f, es, k)
    ensures k <= |es|
  {
  }

  // ---- all segments --------------------------------------------------------------------------------------

  /** A segment file as recovery finds it. */
  datatype Found = Found(first: nat, bytes: Bytes)

  /** Replay segment files in order. A broken tail, or a gap after at least one entry, ends it. */
  function Recover(files: seq<Found>, got: seq<Entry>, clean: bool): seq<Entry>
    decreases |files|
  {
    if files == [] || !clean then got
    else if got != [] && files[0].first != got[|got| - 1].index + 1 then got
    else
      var s := Scan(files[0].bytes, files[0].first);
      Recover(files[1..], got + s.entries, s.tail == Clean)
  }

  function Concat(cs: seq<seq<Entry>>): seq<Entry> {
    if cs == [] then [] else cs[0] + Concat(cs[1..])
  }

  /** Segments that follow one another from index `first` on, each with its durable count. */
  ghost predicate Laid(fs: seq<FileState>, cs: seq<seq<Entry>>, ks: seq<nat>, first: nat)
    decreases |cs|
  {
    && |fs| == |cs| == |ks|
    && (cs != [] ==>
          && Stored(fs[0], cs[0], ks[0]) && Numbered(cs[0], first) && Detects(cs[0])
          && Laid(fs[1..], cs[1..], ks[1..], first + |cs[0]|))
  }

  /** How many entries are durable before the first that is not. */
  function DurablePrefix(cs: seq<seq<Entry>>, ks: seq<nat>): nat
    requires |cs| == |ks|
    decreases |cs|
  {
    if cs == [] then 0
    else if ks[0] >= |cs[0]| then |cs[0]| + DurablePrefix(cs[1..], ks[1..])
    else ks[0]
  }

  ghost predicate FatesFor(fs: seq<FileState>, fates: seq<seq<Fate>>) {
    |fates| == |fs| && forall i :: 0 <= i < |fs| ==> AllPossible(fs[i].pending, fates[i])
  }

  /** The segment files after power loss, named by their first index. */
  ghost function AfterLoss(fs: seq<FileState>, cs: seq<seq<Entry>>, fates: seq<seq<Fate>>, first: nat): seq<Found>
    requires |fs| == |cs| && FatesFor(fs, fates)
    decreases |cs|
  {
    if cs == [] then []
    else
      [Found(first, PowerLoss(fs[0], fates[0]).view)] + AfterLoss(fs[1..], cs[1..], fates[1..], first + |cs[0]|)
  }

  /** The first segment that holds anything has a durable entry, or holds everything. */
  ghost predicate Anchored(cs: seq<seq<Entry>>, ks: seq<nat>)
    requires |cs| == |ks|
    decreases |cs|
  {
    cs == [] || (if cs[0] == [] then Anchored(cs[1..], ks[1..]) else ks[0] > 0 || Concat(cs[1..]) == [])
  }

  lemma LaidFirst(fs: seq<FileState>, cs: seq<seq<Entry>>, ks: seq<nat>, first: nat,
                  fates: seq<seq<Fate>>) returns (r: nat)
    requires Laid(fs, cs, ks, first) && FatesFor(fs, fates) && cs != []
    ensures |fates| == |fs| && ks[0] <= |cs[0]| && FatesFor(fs[1..], fates[1..])
    ensures var files := AfterLoss(fs, cs, fates, first);
            && files != [] && files[0].first == first
            && files[1..] == AfterLoss(fs[1..], cs[1..], fates[1..], first + |cs[0]|)
            && ks[0] <= r <= |cs[0]| && Scan(files[0].bytes, first).entries == cs[0][..r]
            && ScanIs(files[0].bytes, first, cs[0][..r])
            && (ks[0] == |cs[0]| ==> Scan(files[0].bytes, first).tail == Clean)
  {
    hide Scan, PowerLoss, Stored, Numbered, Detects, Records;
    StoredCount(fs[0], cs[0], ks[0]);
    assert AllPossible(fs[0].pending, fates[0]);
    r := SegmentRecovers(fs[0], cs[0], ks[0], fates[0], first);
  }

  lemma LastIndex(es: seq<Entry>, r: nat, first: nat)
    requires Numbered(es, first) && 0 < r <= |es|
    ensures es[..r][r - 1].index == first + r - 1
  {
  }

  lemma RecoverStep(files: seq<Found>, got: seq<Entry>, first: nat)
    requires files != [] && files[0].first == first && (got == [] || got[|got| - 1].index + 1 == first)
    ensures var s := Scan(files[0].bytes, first);
            Recover(files, got, true) == Recover(files[1..], got + s.entries, s.tail == Clean)
  {
  }

  lemma ConcatTake(cs: seq<seq<Entry>>, got: seq<Entry>, r0: nat, r1: nat)
    requires cs != [] && r0 <= |cs[0]| && (r1 > 0 ==> r0 == |cs[0]|) && r1 <= |Concat(cs[1..])|
    ensures r0 + r1 <= |Concat(cs)| && (got + cs[0][..r0]) + Concat(cs[1..])[..r1] == got + Concat(cs)[..r0 + r1]
  {
    if r1 > 0 {
      assert Concat(cs)[..r0 + r1] == cs[0] + Concat(cs[1..])[..r1];
    } else {
      assert Concat(cs)[..r0] == cs[0][..r0];
    }
  }

  lemma LastRead(got: seq<Entry>, es: seq<Entry>, r: nat, first: nat)
    requires Numbered(es, first) && r <= |es| && (got + es[..r]) != []
    requires (got != [] ==> got[|got| - 1].index + 1 == first)
    ensures var all := got + es[..r]; all[|all| - 1].index + 1 == first + r
  {
    if r > 0 { LastIndex(es, r, first); }
  }

  /** Once something has been read, recovery goes on only while nothing is missing. */
  lemma {:induction false} RecoverOn(fs: seq<FileState>, cs: seq<seq<Entry>>, ks: seq<nat>, first: nat,
                                     fates: seq<seq<Fate>>, got: seq<Entry>) returns (r: nat)
    requires Laid(fs, cs, ks, first) && FatesFor(fs, fates) && got != [] && got[|got| - 1].index + 1 == first
    ensures DurablePrefix(cs, ks) <= r <= |Concat(cs)|
    ensures Recover(AfterLoss(fs, cs, fates, first), got, true) == got + Concat(cs)[..r]
    decreases |cs|
  {
    if cs == [] {
      r := 0;
    } else {
      r := RecoverFrom(fs, cs, ks, first, fates, got);
    }
  }

  lemma LaidRest(fs: seq<FileState>, cs: seq<seq<Entry>>, ks: seq<nat>, first: nat)
    requires Laid(fs, cs, ks, first) && cs != []
    ensures |fs| == |cs| == |ks| && Numbered(cs[0], first) && Laid(fs[1..], cs[1..], ks[1..], first + |cs[0]|)
  {
  }

  lemma DurableStep(cs: seq<seq<Entry>>, ks: seq<nat>)
    requires |cs| == |ks| && cs != [] && ks[0] <= |cs[0]|
    ensures ks[0] == |cs[0]| ==> DurablePrefix(cs, ks) == |cs[0]| + DurablePrefix(cs[1..], ks[1..])
    ensures ks[0] < |cs[0]| ==> DurablePrefix(cs, ks) == ks[0]
  {
  }

  /** The first segment of those left, read after something or leaving something read. */
  lemma {:induction false} RecoverFrom(fs: seq<FileState>, cs: seq<seq<Entry>>, ks: seq<nat>, first: nat,
                                       fates: seq<seq<Fate>>, got: seq<Entry>) returns (r: nat)
    requires Laid(fs, cs, ks, first) && FatesFor(fs, fates) && cs != []
    requires |ks| == |cs| == |fs| && (got != [] ==> got[|got| - 1].index + 1 == first)
    requires got != [] || ks[0] > 0
    ensures DurablePrefix(cs, ks) <= r <= |Concat(cs)|
    ensures Recover(AfterLoss(fs, cs, fates, first), got, true) == got + Concat(cs)[..r]
    decreases |cs|, 0
  {
    hide AfterLoss, Scan, ScanIs, FatesFor, Numbered, Recover, Concat, Laid, DurablePrefix;
    var files := AfterLoss(fs, cs, fates, first);
    LaidRest(fs, cs, ks, first);
    var r0 := LaidFirst(fs, cs, ks, first, fates);
    DurableStep(cs, ks);
    RecoverStep(files, got, first);
    var got', clean := got + cs[0][..r0], Scan(files[0].bytes, first).tail == Clean;
    LastRead(got, cs[0], r0, first);
    if r0 == |cs[0]| && clean {
      var r1 := RecoverOn(fs[1..], cs[1..], ks[1..], first + |cs[0]|, fates[1..], got');
      r := r0 + r1;
      ConcatTake(cs, got, r0, r1);
    } else {
      r := r0;
      RecoverStops(files[1..], got', clean, fs, cs, ks, first, fates, r0);
      ConcatTake(cs, got, r0, 0);
      assert Concat(cs[1..])[..0] == [] && got' + [] == got';
    }
  }

  /** After a break the next segment is not where the log would go on. */
  lemma RecoverStops(files: seq<Found>, got: seq<Entry>, clean: bool, fs: seq<FileState>, cs: seq<seq<Entry>>,
                     ks: seq<nat>,
                     first: nat, fates: seq<seq<Fate>>, r0: nat)
    requires Laid(fs, cs, ks, first) && cs != [] && FatesFor(fs, fates) && FatesFor(fs[1..], fates[1..])
    requires files == AfterLoss(fs[1..], cs[1..], fates[1..], first + |cs[0]|)
    requires got != [] && got[|got| - 1].index + 1 == first + r0 && (!clean || r0 < |cs[0]|)
    ensures Recover(files, got, clean) == got
  {
    if cs[1..] != [] { assert files[0].first == first + |cs[0]|; }
  }

  // ---- the theorem and its exact condition ------------------------------------------------------------------

  lemma {:induction false} EmptySegments(fs: seq<FileState>, cs: seq<seq<Entry>>, ks: seq<nat>, first: nat,
                                         fates: seq<seq<Fate>>, got: seq<Entry>, clean: bool)
    requires Laid(fs, cs, ks, first) && FatesFor(fs, fates) && Concat(cs) == []
    ensures Recover(AfterLoss(fs, cs, fates, first), got, clean) == got && DurablePrefix(cs, ks) == 0
    decreases |cs|
  {
    hide ScanIs;
    if cs != [] {
      var r := LaidFirst(fs, cs, ks, first, fates);
      assert cs[0] == [] && got + [] == got;
      EmptySegments(fs[1..], cs[1..], ks[1..], first + |cs[0]|, fates[1..], got, true);
    }
  }

  lemma DurableWithin(fs: seq<FileState>, cs: seq<seq<Entry>>, ks: seq<nat>, first: nat)
    requires Laid(fs, cs, ks, first) && cs != [] && Concat(cs[1..]) == []
    ensures ks[0] <= |cs[0]| && DurablePrefix(cs, ks) <= ks[0]
    decreases |cs|
  {
    StoredCount(fs[0], cs[0], ks[0]);
    NothingDurable(cs[1..], ks[1..]);
  }

  lemma {:induction false} NothingDurable(cs: seq<seq<Entry>>, ks: seq<nat>)
    requires |cs| == |ks| && Concat(cs) == []
    ensures DurablePrefix(cs, ks) == 0
    decreases |cs|
  {
    if cs != [] { NothingDurable(cs[1..], ks[1..]); }
  }

  /** Everything is in the first segment and none of it is durable. */
  lemma RecoverUnanchored(fs: seq<FileState>, cs: seq<seq<Entry>>, ks: seq<nat>, first: nat, fates: seq<seq<Fate>>)
    returns (r: nat)
    requires Laid(fs, cs, ks, first) && FatesFor(fs, fates) && cs != [] && |ks| == |cs| == |fs| && Concat(cs[1..]) == []
    ensures DurablePrefix(cs, ks) <= r <= |Concat(cs)|
    ensures Recover(AfterLoss(fs, cs, fates, first), [], true) == Concat(cs)[..r]
  {
    hide AfterLoss, Scan, ScanIs, FatesFor, Recover, Laid, DurablePrefix;
    LaidRest(fs, cs, ks, first);
    r := LaidFirst(fs, cs, ks, first, fates);
    DurableWithin(fs, cs, ks, first);
    var files := AfterLoss(fs, cs, fates, first);
    EmptySegments(fs[1..], cs[1..], ks[1..], first + |cs[0]|, fates[1..], cs[0][..r],
                  Scan(files[0].bytes, first).tail == Clean);
    RecoverStep(files, [], first);
    assert [] + cs[0][..r] == cs[0][..r] == Concat(cs)[..r];
  }

  /** An empty first segment changes nothing. */
  lemma SkipEmpty(fs: seq<FileState>, cs: seq<seq<Entry>>, ks: seq<nat>, first: nat, fates: seq<seq<Fate>>)
    requires Laid(fs, cs, ks, first) && FatesFor(fs, fates) && cs != [] && cs[0] == [] && |ks| == |cs| == |fs|
    ensures Laid(fs[1..], cs[1..], ks[1..], first) && FatesFor(fs[1..], fates[1..]) && Concat(cs) == Concat(cs[1..])
    ensures DurablePrefix(cs, ks) == DurablePrefix(cs[1..], ks[1..])
    ensures Recover(AfterLoss(fs, cs, fates, first), [], true)
         == Recover(AfterLoss(fs[1..], cs[1..], fates[1..], first), [], true)
  {
    hide AfterLoss, Scan, ScanIs, FatesFor, Recover, Laid, DurablePrefix;
    LaidRest(fs, cs, ks, first);
    var r := LaidFirst(fs, cs, ks, first, fates);
    DurableStep(cs, ks);
    RecoverStep(AfterLoss(fs, cs, fates, first), [], first);
    assert [] + cs[0][..r] == [];
  }

  /** Crash recovery: from an anchored log, every power loss leaves files from which
      recovery reads a contiguous prefix of the log, everything durable in it. */
  lemma {:induction false} CrashRecovery(fs: seq<FileState>, cs: seq<seq<Entry>>, ks: seq<nat>, first: nat,
                                         fates: seq<seq<Fate>>) returns (r: nat)
    requires |ks| == |cs| == |fs| && Laid(fs, cs, ks, first) && FatesFor(fs, fates) && Anchored(cs, ks)
    ensures DurablePrefix(cs, ks) <= r <= |Concat(cs)|
    ensures Recover(AfterLoss(fs, cs, fates, first), [], true) == Concat(cs)[..r]
    decreases |cs|
  {
    if cs == [] {
      r := 0;
    } else {
      hide AfterLoss, FatesFor, Recover, Laid, DurablePrefix;
      if cs[0] == [] {
        SkipEmpty(fs, cs, ks, first, fates);
        r := CrashRecovery(fs[1..], cs[1..], ks[1..], first, fates[1..]);
      } else if ks[0] > 0 {
        r := RecoverFrom(fs, cs, ks, first, fates, []);
        assert [] + Concat(cs)[..r] == Concat(cs)[..r];
      } else {
        r := RecoverUnanchored(fs, cs, ks, first, fates);
      }
    }
  }

  ghost predicate RecoversWell(fs: seq<FileState>, cs: seq<seq<Entry>>, ks: seq<nat>, first: nat, fates: seq<seq<Fate>>)
    requires |ks| == |cs| == |fs| && FatesFor(fs, fates)
  {
    exists r ::
      && DurablePrefix(cs, ks) <= r <= |Concat(cs)|
      && Recover(AfterLoss(fs, cs, fates, first), [], true) == Concat(cs)[..r]
  }

  ghost function Same(n: nat, fate: Fate): seq<Fate> {
    seq(n, _ => fate)
  }

  lemma {:induction false} LoseAll(buf: Bytes, ops: seq<PendingOp>)
    ensures AllPossible(ops, Same(|ops|, Lost)) && SufferAll(buf, ops, Same(|ops|, Lost)) == buf
  {
    if ops != [] {
      var n := |ops| - 1;
      LoseAll(buf, ops[..n]);
      assert Same(|ops|, Lost)[..n] == Same(n, Lost);
    }
  }

  lemma {:induction false} KeepAll(buf: Bytes, ops: seq<PendingOp>)
    ensures AllPossible(ops, Same(|ops|, Kept)) && SufferAll(buf, ops, Same(|ops|, Kept)) == PerformAll(buf, ops)
  {
    if ops != [] {
      var n := |ops| - 1;
      KeepAll(buf, ops[..n]);
      assert Same(|ops|, Kept)[..n] == Same(n, Kept);
    }
  }

  lemma SpliceEnd(buf: Bytes, data: Bytes)
    ensures Splice(buf, |buf|, data) == buf + data
  {
  }

  lemma {:induction false} WritesPerform(d: Bytes, es: seq<Entry>)
    ensures PerformAll(d, Writes(|d|, es)) == d + Records(es)
  {
    hide Record;
    if es != [] {
      var n := |es| - 1;
      WritesPerform(d, es[..n]);
      OneMore(d, Writes(|d|, es[..n]), Write(|d| + |Records(es[..n])|, Record(es[n])));
      SpliceEnd(d + Records(es[..n]), Record(es[n]));
      Regroup(d, Records(es[..n]), Record(es[n]));
    }
  }

  lemma {:induction false} PerformFirst(buf: Bytes, op: PendingOp, ops: seq<PendingOp>)
    ensures PerformAll(buf, [op] + ops) == PerformAll(Perform(buf, op), ops)
    decreases |ops|
  {
    hide Perform, PerformAll;
    NonePerformed(buf);
    NonePerformed(Perform(buf, op));
    if ops == [] {
      OneMore(buf, [], op);
      assert [op] + ops == [] + [op];
    } else {
      var n := |ops| - 1;
      PerformFirst(buf, op, ops[..n]);
      assert [op] + ops == ([op] + ops[..n]) + [ops[n]] && ops == ops[..n] + [ops[n]];
      OneMore(buf, [op] + ops[..n], ops[n]);
      OneMore(Perform(buf, op), ops[..n], ops[n]);
    }
  }

  lemma NonePerformed(buf: Bytes)
    ensures PerformAll(buf, []) == buf
  {
  }

  /** Written back whole, a segment holds all its records. */
  lemma StoredWhole(f: FileState, es: seq<Entry>, k: nat)
    requires Stored(f, es, k)
    ensures PerformAll(f.durable, f.pending) == Records(es)
  {
    hide Record;
    RecordsSplit(es, k);
    if f.pending == Writes(|f.durable|, es[k..]) {
      WritesPerform(f.durable, es[k..]);
    } else {
      PerformFirst([], Truncate(0), Writes(0, es));
      WritesPerform([], es);
      assert es[..0] == [];
    }
  }

  /** If every pending write lands, a segment recovers whole. */
  lemma KeptWhole(f: FileState, es: seq<Entry>, k: nat, first: nat)
    requires Stored(f, es, k) && Numbered(es, first)
    ensures var fates := Same(|f.pending|, Kept);
            && AllPossible(f.pending, fates)
            && Scan(PowerLoss(f, fates).view, first).entries == es
            && Scan(PowerLoss(f, fates).view, first).tail == Clean
  {
    hide Stored, Records, Scan, Numbered;
    KeepAll(f.durable, f.pending);
    StoredWhole(f, es, k);
    ScanRecords(es, [], first);
    assert Records(es) + [] == Records(es);
    ScanNothing(first + |es|);
  }

  /** If none does, a segment with nothing durable recovers empty, and cleanly. */
  lemma LostWhole(f: FileState, es: seq<Entry>, first: nat)
    requires Stored(f, es, 0)
    ensures var fates := Same(|f.pending|, Lost);
            && AllPossible(f.pending, fates)
            && Scan(PowerLoss(f, fates).view, first) == Scanned([], Clean, 0)
  {
    LoseAll(f.durable, f.pending);
    assert es[..0] == [];
  }

  ghost function AllKept(fs: seq<FileState>): seq<seq<Fate>> {
    seq(|fs|, i requires 0 <= i < |fs| => Same(|fs[i].pending|, Kept))
  }

  lemma AllKeptPossible(fs: seq<FileState>)
    ensures FatesFor(fs, AllKept(fs)) && (fs != [] ==> AllKept(fs)[1..] == AllKept(fs[1..]))
  {
    forall i | 0 <= i < |fs|
      ensures AllPossible(fs[i].pending, AllKept(fs)[i])
    {
      KeepAll([], fs[i].pending);
    }
  }

  lemma KeptFirst(fs: seq<FileState>, cs: seq<seq<Entry>>, ks: seq<nat>, first: nat)
    requires |ks| == |cs| == |fs| && Laid(fs, cs, ks, first) && cs != []
    ensures FatesFor(fs, AllKept(fs)) && FatesFor(fs[1..], AllKept(fs[1..]))
    ensures var files := AfterLoss(fs, cs, AllKept(fs), first);
            && files != [] && files[0].first == first
            && Scan(files[0].bytes, first).entries == cs[0] && Scan(files[0].bytes, first).tail == Clean
            && files[1..] == AfterLoss(fs[1..], cs[1..], AllKept(fs[1..]), first + |cs[0]|)
  {
    hide Scan, PowerLoss, Numbered, Stored;
    AllKeptPossible(fs);
    AllKeptPossible(fs[1..]);
    KeptWhole(fs[0], cs[0], ks[0], first);
  }

  lemma {:induction false} KeptRecovers(fs: seq<FileState>, cs: seq<seq<Entry>>, ks: seq<nat>, first: nat,
                                        got: seq<Entry>)
    requires |ks| == |cs| == |fs| && Laid(fs, cs, ks, first) && (got != [] ==> got[|got| - 1].index + 1 == first)
    ensures FatesFor(fs, AllKept(fs)) && Recover(AfterLoss(fs, cs, AllKept(fs), first), got, true) == got + Concat(cs)
    decreases |cs|
  {
    if cs == [] {
      AllKeptPossible(fs);
    } else {
      KeptOnward(fs, cs, ks, first, got);
    }
  }

  lemma {:induction false} KeptOnward(fs: seq<FileState>, cs: seq<seq<Entry>>, ks: seq<nat>, first: nat,
                                      got: seq<Entry>)
    requires |ks| == |cs| == |fs| && Laid(fs, cs, ks, first) && (got != [] ==> got[|got| - 1].index + 1 == first)
    requires cs != []
    ensures FatesFor(fs, AllKept(fs)) && Recover(AfterLoss(fs, cs, AllKept(fs), first), got, true) == got + Concat(cs)
    decreases |cs|, 0
  {
    hide AfterLoss, Recover, Laid, Scan, Numbered, FatesFor, AllKept;
    LaidRest(fs, cs, ks, first);
    KeptFirst(fs, cs, ks, first);
    RecoverStep(AfterLoss(fs, cs, AllKept(fs), first), got, first);
    assert cs[0][..|cs[0]|] == cs[0];
    if got + cs[0] != [] { LastRead(got, cs[0], |cs[0]|, first); }
    KeptRecovers(fs[1..], cs[1..], ks[1..], first + |cs[0]|, got + cs[0]);
    assert (got + cs[0]) + Concat(cs[1..]) == got + Concat(cs);
  }

  lemma {:induction false} FirstIndexOf(fs: seq<FileState>, cs: seq<seq<Entry>>, ks: seq<nat>, first: nat)
    requires Laid(fs, cs, ks, first) && Concat(cs) != []
    ensures Concat(cs)[0].index == first
    decreases |cs|
  {
    LaidRest(fs, cs, ks, first);
    if cs[0] == [] { FirstIndexOf(fs[1..], cs[1..], ks[1..], first); }
  }

  /** A log that recovers to its later segments alone has not recovered to a prefix. */
  lemma NotAPrefix(fs: seq<FileState>, cs: seq<seq<Entry>>, ks: seq<nat>, first: nat, fates: seq<seq<Fate>>)
    requires |ks| == |cs| == |fs| && Laid(fs, cs, ks, first) && cs != [] && cs[0] != [] && Concat(cs[1..]) != []
    requires FatesFor(fs, fates) && Recover(AfterLoss(fs, cs, fates, first), [], true) == Concat(cs[1..])
    ensures !RecoversWell(fs, cs, ks, first, fates)
  {
    hide Recover, AfterLoss, DurablePrefix, FatesFor, Laid, Concat;
    LaidRest(fs, cs, ks, first);
    ConcatSplit(cs);
    FirstIndexOf(fs[1..], cs[1..], ks[1..], first + |cs[0]|);
    FirstIndexOf(fs, cs, ks, first);
    DifferentStart(Concat(cs), Concat(cs[1..]));
  }

  lemma ConcatSplit(cs: seq<seq<Entry>>)
    requires cs != []
    ensures Concat(cs) == cs[0] + Concat(cs[1..])
  {
  }

  lemma DifferentStart(x: seq<Entry>, y: seq<Entry>)
    requires x != [] && y != [] && x[0] != y[0]
    ensures forall r :: 0 <= r <= |x| ==> x[..r] != y
  {
    forall r | 0 <= r <= |x|
      ensures x[..r] != y
    {
      if r > 0 { assert x[..r][0] == x[0]; }
    }
  }

  /** An unanchored log can recover to something it never was: the first segment is lost, the gap
      check is skipped because nothing has been read, and a later segment is taken for the start. */
  lemma {:induction false} GapAccepted(fs: seq<FileState>, cs: seq<seq<Entry>>, ks: seq<nat>, first: nat)
    returns (fates: seq<seq<Fate>>)
    requires |ks| == |cs| == |fs| && Laid(fs, cs, ks, first) && !Anchored(cs, ks)
    ensures FatesFor(fs, fates) && !RecoversWell(fs, cs, ks, first, fates)
    decreases |cs|
  {
    hide Recover, AfterLoss, DurablePrefix, FatesFor, Laid, Same, AllKept;
    LaidRest(fs, cs, ks, first);
    LoseAll([], fs[0].pending);
    if cs[0] == [] {
      var more := GapAccepted(fs[1..], cs[1..], ks[1..], first);
      fates := [Same(|fs[0].pending|, Lost)] + more;
      FatesCons(fs, Same(|fs[0].pending|, Lost), more);
      assert fates[1..] == more;
      SkipEmpty(fs, cs, ks, first, fates);
    } else {
      fates := [Same(|fs[0].pending|, Lost)] + AllKept(fs[1..]);
      KeptRecovers(fs[1..], cs[1..], ks[1..], first + |cs[0]|, []);
      LostFirst(fs, cs, ks, first, fates);
      NotAPrefix(fs, cs, ks, first, fates);
    }
  }

  lemma FatesCons(fs: seq<FileState>, fate: seq<Fate>, more: seq<seq<Fate>>)
    requires fs != [] && AllPossible(fs[0].pending, fate) && FatesFor(fs[1..], more)
    ensures FatesFor(fs, [fate] + more)
  {
    forall i | 0 <= i < |fs|
      ensures AllPossible(fs[i].pending, ([fate] + more)[i])
    {
      if i > 0 { assert AllPossible(fs[1..][i - 1].pending, more[i - 1]); }
    }
  }

  lemma LostFirst(fs: seq<FileState>, cs: seq<seq<Entry>>, ks: seq<nat>, first: nat, fates: seq<seq<Fate>>)
    requires |ks| == |cs| == |fs| && Laid(fs, cs, ks, first) && cs != [] && ks[0] == 0
    requires FatesFor(fs[1..], AllKept(fs[1..])) && fates == [Same(|fs[0].pending|, Lost)] + AllKept(fs[1..])
    requires Recover(AfterLoss(fs[1..], cs[1..], AllKept(fs[1..]), first + |cs[0]|), [], true) == [] + Concat(cs[1..])
    ensures FatesFor(fs, fates) && Recover(AfterLoss(fs, cs, fates, first), [], true) == Concat(cs[1..])
  {
    assert Stored(fs[0], cs[0], 0);
    LostWhole(fs[0], cs[0], first);
    FatesCons(fs, Same(|fs[0].pending|, Lost), AllKept(fs[1..]));
    assert fates[1..] == AllKept(fs[1..]);
    var files := AfterLoss(fs, cs, fates, first);
    assert files[0] == Found(first, PowerLoss(fs[0], Same(|fs[0].pending|, Lost)).view);
    assert files[1..] == AfterLoss(fs[1..], cs[1..], AllKept(fs[1..]), first + |cs[0]|);
    hide AfterLoss, Recover, Scan, PowerLoss;
    RecoverStep(files, [], first);
    assert [] + Concat(cs[1..]) == Concat(cs[1..]);
  }

  /** The exact condition for the entries that are read back, which can be read off the log before the
      crash. What the log may then go on with is the subject of `WalReopen.ReopenCondition`. */
  lemma RecoveryCondition(fs: seq<FileState>, cs: seq<seq<Entry>>, ks: seq<nat>, first: nat)
    requires |ks| == |cs| == |fs| && Laid(fs, cs, ks, first)
    ensures Anchored(cs, ks) <==> forall fates :: FatesFor(fs, fates) ==> RecoversWell(fs, cs, ks, first, fates)
  {
    hide Recover, AfterLoss, Laid, DurablePrefix;
    if Anchored(cs, ks) {
      forall fates | FatesFor(fs, fates)
        ensures RecoversWell(fs, cs, ks, first, fates)
      {
        var r := CrashRecovery(fs, cs, ks, first, fates);
      }
    } else {
      var fates := GapAccepted(fs, cs, ks, first);
    }
  }
}
