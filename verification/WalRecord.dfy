/** Records of the write-ahead log and the scan that recovers them
    (crates/chronolog/src/wal.rs:51-56, 180-186, 688-738). */
module WalRecord {
  import opened Types
  import opened Codec
  import opened Crc
  import opened EntryCodec
  import opened DiskFile

  const HEADER: nat := 8
  const MAX_RECORD: nat := 32 * 1024 * 1024

  /** Length, checksum, body. */
  function Framed(body: Bytes): (r: Bytes)
    ensures |r| == HEADER + |body|
  {
    WriteU32(|body|) + WriteU32(ChecksumOf(body)) + body
  }

  function Record(e: Entry): Bytes {
    Framed(EntryBytes(e))
  }

  /** An entry the log can hold: it encodes, and its record is not too long to be believed. */
  ghost predicate Storable(e: Entry) {
    EntryFits(e) && |EntryBytes(e)| <= MAX_RECORD
  }

  function Records(es: seq<Entry>): Bytes {
    if es == [] then [] else Records(es[..|es| - 1]) + Record(es[|es| - 1])
  }

  datatype Tail = Clean | ShortHeader | ShortBody | BadChecksum | Undecodable | IndexGap | BadLength

  // ---- reading one record -------------------------------------------------------------

  datatype ReadResult = Read(entry: Entry, rest: Bytes) | Stop(why: Tail)

  function HeaderLength(b: Bytes): nat
    requires |b| >= HEADER
  {
    FromLittleEndian(b[..4])
  }

  function HeaderChecksum(b: Bytes): nat
    requires |b| >= HEADER
  {
    FromLittleEndian(b[4..8])
  }

  predicate Verifies(b: Bytes) {
    && |b| >= HEADER && HEADER + HeaderLength(b) <= |b|
    && ChecksumOf(b[HEADER..HEADER + HeaderLength(b)]) == HeaderChecksum(b)
  }

  function ReadRecord(b: Bytes): ReadResult {
    if |b| < HEADER then Stop(ShortHeader)
    else
      var len := HeaderLength(b);
      if len == 0 || len > MAX_RECORD then Stop(Tail.BadLength)
      else if HEADER + len > |b| then Stop(ShortBody)
      else if !Verifies(b) then Stop(Tail.BadChecksum)
      else match ReadEntry(b[HEADER..HEADER + len])
        case Fail(_) => Stop(Undecodable)
        case Got(e, _) => Read(e, b[HEADER + len..])
  }

  datatype Scanned = Scanned(entries: seq<Entry>, tail: Tail, valid: nat)

  /** Every valid record of a buffer, up to the first that is not. */
  function Scan(b: Bytes, wanted: nat): (s: Scanned)
    ensures s.valid <= |b|
    decreases |b|
  {
    if b == [] then Scanned([], Clean, 0)
    else match ReadRecord(b)
      case Stop(why) => Scanned([], why, 0)
      case Read(e, rest) =>
        if e.index != wanted then Scanned([], IndexGap, 0)
        else
          var s := Scan(rest, wanted + 1);
          Scanned([e] + s.entries, s.tail, |b| - |rest| + s.valid)
  }

  lemma ReadTakes(b: Bytes)
    ensures var r := ReadRecord(b);
            r.Read? ==> |b| >= HEADER && HEADER + HeaderLength(b) <= |b| && r.rest == b[HEADER + HeaderLength(b)..]
  {
  }

  lemma ScanStep(b: Bytes, wanted: nat)
    requires b != [] && ReadRecord(b).Read? && ReadRecord(b).entry.index == wanted
    ensures var r := ReadRecord(b);
            var t := Scan(r.rest, wanted + 1);
            && |r.rest| < |b|
            && Scan(b, wanted) == Scanned([r.entry] + t.entries, t.tail, |b| - |r.rest| + t.valid)
  {
    hide ReadRecord, HeaderLength;
    ReadTakes(b);
  }

  lemma ScanStops(b: Bytes, wanted: nat)
    requires b != [] && (ReadRecord(b).Stop? || ReadRecord(b).entry.index != wanted)
    ensures Scan(b, wanted) == Scanned([], if ReadRecord(b).Stop? then ReadRecord(b).why else IndexGap, 0)
  {
    hide ReadRecord;
  }

  ghost predicate Reaches(buf: Bytes, first: nat, entries: seq<Entry>, pos: nat) {
    && pos <= |buf|
    && var rest := Scan(buf[pos..], first + |entries|);
       Scan(buf, first) == Scanned(entries + rest.entries, rest.tail, pos + rest.valid)
  }

  lemma ReachesNext(buf: Bytes, first: nat, entries: seq<Entry>, pos: nat, r: ReadResult)
    requires Reaches(buf, first, entries, pos) && pos < |buf|
    requires r == ReadRecord(buf[pos..]) && r.Read? && r.entry.index == first + |entries|
    ensures |buf[pos..]| >= HEADER > 0
    ensures pos + HEADER + HeaderLength(buf[pos..]) <= |buf|
    ensures Reaches(buf, first, entries + [r.entry], pos + HEADER + HeaderLength(buf[pos..]))
  {
    hide ReadRecord, HeaderLength, Scan;
    var b := buf[pos..];
    ReadTakes(b);
    ScanStep(b, first + |entries|);
    assert buf[pos + HEADER + HeaderLength(b)..] == r.rest;
    var more := Scan(r.rest, first + |entries| + 1).entries;
    assert entries + ([r.entry] + more) == (entries + [r.entry]) + more;
  }

  /** The loop over a buffer position. */
  method ScanSegment(buf: Bytes, first: nat) returns (s: Scanned)
    ensures s == Scan(buf, first)
  {
    hide *;
    var entries: seq<Entry>, pos: nat := [], 0;
    ReachesStart(buf, first);
    while pos < |buf|
      invariant pos <= |buf| && Reaches(buf, first, entries, pos)
      decreases |buf| - pos
    {
      var r := ReadRecord(buf[pos..]);
      if r.Stop? {
        ReachesStop(buf, first, entries, pos, r, r.why);
        return Scanned(entries, r.why, pos);
      }
      if r.entry.index != first + |entries| {
        ReachesStop(buf, first, entries, pos, r, IndexGap);
        return Scanned(entries, IndexGap, pos);
      }
      ReachesNext(buf, first, entries, pos, r);
      entries, pos := entries + [r.entry], pos + HEADER + HeaderLength(buf[pos..]);
    }
    ReachesEnd(buf, first, entries, pos);
    s := Scanned(entries, Clean, pos);
  }

  lemma ReachesStart(buf: Bytes, first: nat)
    ensures Reaches(buf, first, [], 0)
  {
    hide ReadRecord, Scan;
    assert buf[0..] == buf;
    assert [] + Scan(buf, first).entries == Scan(buf, first).entries;
  }

  lemma ReachesStop(buf: Bytes, first: nat, entries: seq<Entry>, pos: nat, r: ReadResult, why: Tail)
    requires Reaches(buf, first, entries, pos) && pos < |buf| && r == ReadRecord(buf[pos..])
    requires if r.Stop? then why == r.why else r.entry.index != first + |entries| && why == IndexGap
    ensures Scan(buf, first) == Scanned(entries, why, pos)
  {
    hide ReadRecord, Scan;
    ScanStops(buf[pos..], first + |entries|);
    assert entries + [] == entries;
  }

  lemma ReachesEnd(buf: Bytes, first: nat, entries: seq<Entry>, pos: nat)
    requires Reaches(buf, first, entries, pos) && pos == |buf|
    ensures Scan(buf, first) == Scanned(entries, Clean, pos)
  {
    hide ReadRecord, Scan;
    assert buf[pos..] == [] && entries + [] == entries;
    ScanNothing(first + |entries|);
  }

  lemma ScanNothing(wanted: nat)
    ensures Scan([], wanted) == Scanned([], Clean, 0)
  {
  }

  // ---- what was written is read back -------------------------------------------------------------

  lemma FramedHeader(body: Bytes, rest: Bytes)
    requires |body| <= MAX_RECORD
    ensures var b := Framed(body) + rest;
            && HeaderLength(b) == |body| && HeaderChecksum(b) == ChecksumOf(body)
            && b[HEADER..HEADER + |body|] == body && b[HEADER + |body|..] == rest && Verifies(b)
  {
    hide ChecksumOf;
    var b := Framed(body) + rest;
    HeaderReads(|body|);
    HeaderReads(ChecksumOf(body));
    assert b[..4] == WriteU32(|body|) && b[4..8] == WriteU32(ChecksumOf(body));
    assert b[HEADER..HEADER + |body|] == body;
  }

  lemma RecordReads(e: Entry, rest: Bytes)
    requires Storable(e)
    ensures ReadRecord(Record(e) + rest) == Read(e, rest) && |Record(e)| > HEADER
  {
    hide ChecksumOf, Framed, ReadEntry, PutEntry, HeaderLength, HeaderChecksum, Verifies;
    var body := EntryBytes(e);
    EntryAppends(e, []);
    EntryRoundTrip(e, []);
    FramedHeader(body, rest);
  }

  /** Appending checks nothing about length: a record reads back exactly when its body is no longer
      than the limit recovery believes. */
  lemma RecordReadable(e: Entry, rest: Bytes)
    requires EntryFits(e) && |EntryBytes(e)| < U32
    ensures ReadRecord(Record(e) + rest) == Read(e, rest) <==> |EntryBytes(e)| <= MAX_RECORD
  {
    if |EntryBytes(e)| <= MAX_RECORD { RecordReads(e, rest); } else { LongRecord(e, rest); }
  }

  lemma LongRecord(e: Entry, rest: Bytes)
    requires MAX_RECORD < |EntryBytes(e)| < U32
    ensures ReadRecord(Record(e) + rest) == Stop(Tail.BadLength)
  {
    HeaderReads(|EntryBytes(e)|);
    assert (Record(e) + rest)[..4] == WriteU32(|EntryBytes(e)|);
  }

  ghost predicate InSequence(es: seq<Entry>, first: nat) {
    forall i :: 0 <= i < |es| ==> es[i].index == first + i
  }

  ghost predicate AllStorable(es: seq<Entry>) {
    forall e :: e in es ==> Storable(e)
  }

  ghost predicate Numbered(es: seq<Entry>, first: nat) {
    forall i :: 0 <= i < |es| ==> es[i].index == first + i && Storable(es[i])
  }

  lemma {:induction false} RecordsSplit(es: seq<Entry>, k: nat)
    requires k <= |es|
    ensures Records(es) == Records(es[..k]) + Records(es[k..])
    decreases |es|
  {
    hide Record;
    var n := |es| - 1;
    if k == |es| {
      assert es[..k] == es;
    } else {
      RecordsSplit(es[..n], k);
      assert es[..n][..k] == es[..k] && es[k..][..n - k] == es[..n][k..] && es[k..][n - k] == es[n];
      Regroup(Records(es[..k]), Records(es[..n][k..]), Record(es[n]));
    }
  }

  lemma RecordsFirst(es: seq<Entry>)
    requires es != []
    ensures Records(es) == Record(es[0]) + Records(es[1..])
  {
    RecordsSplit(es, 1);
    assert es[..1] == [es[0]] && [es[0]][..0] == [];
    assert Records([es[0]]) == Record(es[0]);
  }

  /** Intact records scan back, and the scan goes on with whatever follows them. */
  lemma {:induction false} ScanRecords(es: seq<Entry>, rest: Bytes, first: nat)
    requires Numbered(es, first)
    ensures var s, t := Scan(Records(es) + rest, first), Scan(rest, first + |es|);
            s.entries == es + t.entries && s.tail == t.tail && s.valid == |Records(es)| + t.valid
    decreases |es|
  {
    hide Record, ReadRecord, Storable, Scan;
    if es == [] {
      assert Records(es) + rest == rest;
    } else {
      var e, more := es[0], Records(es[1..]) + rest;
      ScanRecords(es[1..], rest, first + 1);
      hide Records;
      RecordsFirst(es);
      Regroup(Record(e), Records(es[1..]), rest);
      RecordReads(e, more);
      ScanStep(Record(e) + more, first);
      assert es == [e] + es[1..];
    }
  }
}
