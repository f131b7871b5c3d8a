/** How entries, configurations and snapshots are encoded (crates/chronolog/src/types.rs:59-85,
    200-221, 257-286, 329-346). Each decoder consumes exactly what its encoder wrote, even with other
    bytes following, which is what lets them nest. */
module EntryCodec {
  import opened Types
  import opened Quorum
  import opened Codec

  datatype Snapshot = Snapshot(lastIndex: nat, lastTerm: nat, config: Config, data: Bytes)

  // ---- node sets -------------------------------------------------------------------

  ghost predicate NodesFit(s: set<NodeId>) {
    |s| < U32 && forall id :: id in s ==> id < U32
  }

  function PutNodes(s: set<NodeId>, rest: Bytes): Bytes {
    PutSeq(Ascending(s), PutU32, rest)
  }

  function ReadNodes(b: Bytes): (p: Parsed<set<NodeId>>) {
    var (ids, b) :- ReadSeq(b, ReadU32);
    Got(ToSet(ids), b)
  }

  function ToSet(ids: seq<NodeId>): set<NodeId> {
    set id | id in ids
  }

  lemma AscendingToSet(s: set<NodeId>)
    ensures ToSet(Ascending(s)) == s
  {
  }

  lemma NodesRoundTrip(s: set<NodeId>, rest: Bytes)
    requires NodesFit(s)
    ensures ReadNodes(PutNodes(s, rest)) == Got(s, rest)
  {
    hide ReadSeq, PutSeq, ToSet, Inverse, PutU32, ReadU32;
    AscendingToSet(s);
    var ids := Ascending(s);
    forall id | id in ids
      ensures Inverse(PutU32, ReadU32, id)
    {
      U32Inverse(id);
    }
    SeqRoundTrip(ids, PutU32, ReadU32, rest);
  }

  lemma NodesAppend(s: set<NodeId>, rest: Bytes)
    ensures PutNodes(s, rest) == PutNodes(s, []) + rest
  {
    forall id: nat
      ensures Appends(PutU32, id)
    {
    }
    SeqAppends(Ascending(s), PutU32, rest);
  }

  // ---- configurations -----------------------------------------------------------------

  ghost predicate ConfigFits(c: Config) {
    NodesFit(c.voters) && NodesFit(c.outgoing) && NodesFit(c.learners)
  }

  function PutConfig(c: Config, rest: Bytes): Bytes {
    PutNodes(c.voters, PutNodes(c.outgoing, PutNodes(c.learners, rest)))
  }

  function ReadConfig(b: Bytes): (p: Parsed<Config>) {
    var (voters, b) :- ReadNodes(b);
    var (outgoing, b) :- ReadNodes(b);
    var (learners, b) :- ReadNodes(b);
    Got(Config(voters, outgoing, learners), b)
  }

  lemma ConfigRoundTrip(c: Config, rest: Bytes)
    requires ConfigFits(c)
    ensures ReadConfig(PutConfig(c, rest)) == Got(c, rest)
  {
    hide PutNodes, ReadNodes;
    var learners := PutNodes(c.learners, rest);
    var outgoing := PutNodes(c.outgoing, learners);
    NodesRoundTrip(c.learners, rest);
    NodesRoundTrip(c.outgoing, learners);
    NodesRoundTrip(c.voters, outgoing);
  }

  // ---- configuration changes ----------------------------------------------------------------

  ghost predicate ChangeFits(c: ConfigChange) {
    c.EnterJoint? ==> NodesFit(c.incoming) && NodesFit(c.learners)
  }

  function PutChange(c: ConfigChange, rest: Bytes): Bytes {
    match c
    case EnterJoint(incoming, learners) => [0] + PutNodes(incoming, PutNodes(learners, rest))
    case LeaveJoint => [1] + rest
  }

  function ReadChange(b: Bytes): (p: Parsed<ConfigChange>) {
    var (tag, b) :- ReadU8(b);
    if tag == 0 then
      var (incoming, b) :- ReadNodes(b);
      var (learners, b) :- ReadNodes(b);
      Got(EnterJoint(incoming, learners), b)
    else if tag == 1 then Got(LeaveJoint, b)
    else Fail(BadTag(tag))
  }

  lemma ChangeRoundTrip(c: ConfigChange, rest: Bytes)
    requires ChangeFits(c)
    ensures ReadChange(PutChange(c, rest)) == Got(c, rest)
  {
    hide PutNodes, ReadNodes;
    match c {
      case EnterJoint(incoming, learners) =>
        var tail := PutNodes(learners, rest);
        NodesRoundTrip(learners, rest);
        NodesRoundTrip(incoming, tail);
        assert PutChange(c, rest)[1..] == PutNodes(incoming, tail);
      case LeaveJoint =>
        assert PutChange(c, rest)[1..] == rest;
    }
  }

  lemma ChangeAppends(c: ConfigChange, rest: Bytes)
    ensures PutChange(c, rest) == PutChange(c, []) + rest
  {
    hide PutNodes;
    if c.EnterJoint? {
      NodesAppend(c.learners, rest);
      NodesAppend(c.incoming, PutNodes(c.learners, rest));
      NodesAppend(c.incoming, PutNodes(c.learners, []));
    }
  }

  // ---- entries -----------------------------------------------------------------------------------

  ghost predicate EntryFits(e: Entry) {
    && e.term < U64 && e.index < U64
    && (e.kind.Normal? ==> |e.kind.data| < U32)
    && (e.kind.ConfigEntry? ==> ChangeFits(e.kind.change))
  }

  function PutKind(k: EntryKind, rest: Bytes): Bytes {
    match k
    case Normal(data) => [0] + PutBytes(data, rest)
    case ConfigEntry(change) => [1] + PutChange(change, rest)
    case Noop => [2] + rest
  }

  function ReadKind(b: Bytes): (p: Parsed<EntryKind>) {
    var (tag, b) :- ReadU8(b);
    if tag == 0 then
      var (data, b) :- ReadBytes(b);
      Got(Normal(data), b)
    else if tag == 1 then
      var (change, b) :- ReadChange(b);
      Got(ConfigEntry(change), b)
    else if tag == 2 then Got(Noop, b)
    else Fail(BadTag(tag))
  }

  function PutEntry(e: Entry, rest: Bytes): Bytes {
    WriteU64(e.term) + (WriteU64(e.index) + PutKind(e.kind, rest))
  }

  function ReadEntry(b: Bytes): (p: Parsed<Entry>) {
    var (term, b) :- ReadU64(b);
    var (index, b) :- ReadU64(b);
    var (kind, b) :- ReadKind(b);
    Got(Entry(term, index, kind), b)
  }

  /** `Entry::to_bytes`. */
  function EntryBytes(e: Entry): Bytes {
    PutEntry(e, [])
  }

  lemma KindRoundTrip(e: Entry, rest: Bytes)
    requires EntryFits(e)
    ensures ReadKind(PutKind(e.kind, rest)) == Got(e.kind, rest)
  {
    hide PutChange, ReadChange, ReadBytes, WriteBytes;
    var b := PutKind(e.kind, rest);
    match e.kind {
      case Normal(data) =>
        assert b[1..] == PutBytes(data, rest);
        BytesRoundTrip(data, rest);
      case ConfigEntry(change) =>
        assert b[1..] == PutChange(change, rest);
        ChangeRoundTrip(change, rest);
      case Noop =>
        assert b[1..] == rest;
    }
  }

  lemma EntryRoundTrip(e: Entry, rest: Bytes)
    requires EntryFits(e)
    ensures ReadEntry(PutEntry(e, rest)) == Got(e, rest)
  {
    hide PutKind, ReadKind, ReadU64, WriteU64;
    KindRoundTrip(e, rest);
    var kind := PutKind(e.kind, rest);
    U64RoundTrip(e.index, kind);
    U64RoundTrip(e.term, WriteU64(e.index) + kind);
  }

  lemma EntryInverse(e: Entry)
    requires EntryFits(e)
    ensures Inverse(PutEntry, ReadEntry, e)
  {
    forall rest
      ensures ReadEntry(PutEntry(e, rest)) == Got(e, rest) && |PutEntry(e, rest)| > |rest|
    {
      EntryRoundTrip(e, rest);
      EntryAppends(e, rest);
    }
  }

  /** An entry's bytes do not depend on what follows them. */
  lemma EntryAppends(e: Entry, rest: Bytes)
    ensures PutEntry(e, rest) == EntryBytes(e) + rest && |EntryBytes(e)| >= 17
  {
    if e.kind.ConfigEntry? { ChangeAppends(e.kind.change, rest); }
    KindAppends(e.kind, rest);
  }

  lemma KindAppends(k: EntryKind, rest: Bytes)
    ensures PutKind(k, rest) == PutKind(k, []) + rest && |PutKind(k, [])| >= 1
  {
    if k.ConfigEntry? { ChangeAppends(k.change, rest); }
  }

  // ---- snapshots ------------------------------------------------------------------------------------

  ghost predicate SnapshotFits(s: Snapshot) {
    s.lastIndex < U64 && s.lastTerm < U64 && ConfigFits(s.config) && |s.data| < U32
  }

  function PutSnapshot(s: Snapshot, rest: Bytes): Bytes {
    WriteU64(s.lastIndex) + (WriteU64(s.lastTerm) + PutConfig(s.config, PutBytes(s.data, rest)))
  }

  function ReadSnapshot(b: Bytes): (p: Parsed<Snapshot>) {
    var (lastIndex, b) :- ReadU64(b);
    var (lastTerm, b) :- ReadU64(b);
    var (config, b) :- ReadConfig(b);
    var (data, b) :- ReadBytes(b);
    Got(Snapshot(lastIndex, lastTerm, config, data), b)
  }

  lemma SnapshotRoundTrip(s: Snapshot, rest: Bytes)
    requires SnapshotFits(s)
    ensures ReadSnapshot(PutSnapshot(s, rest)) == Got(s, rest)
  {
    hide PutConfig, ReadConfig, ReadU64, WriteU64, ReadBytes, WriteBytes;
    BytesRoundTrip(s.data, rest);
    var data := PutBytes(s.data, rest);
    ConfigRoundTrip(s.config, data);
    var config := PutConfig(s.config, data);
    U64RoundTrip(s.lastTerm, config);
    U64RoundTrip(s.lastIndex, WriteU64(s.lastTerm) + config);
  }
}
