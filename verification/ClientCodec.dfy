/** Client requests and responses and their encodings (crates/chronolog/src/client.rs:22-238). */
module ClientCodec {
  import opened Types
  import opened Codec

  datatype ReadMode = Linearizable | Lease | Stale

  datatype Op =
    | Get(key: Bytes, mode: ReadMode)
    | Put(key: Bytes, value: Bytes)
    | Delete(key: Bytes)
    | Cas(key: Bytes, wanted: Option<Bytes>, swap: Option<Bytes>)
    | GetAt(key: Bytes, version: nat)

  datatype Request = Request(client: nat, seqNo: nat, op: Op)

  datatype Outcome =
    | Found(value: Option<Bytes>)
    | Applied(version: nat)
    | CasFailed(actual: Option<Bytes>)
    | NotLeader(hint: Option<NodeId>)
    | Unavailable

  datatype Response = Response(client: nat, seqNo: nat, outcome: Outcome)

  // ---- requests --------------------------------------------------------------------

  ghost predicate BytesFit(v: Option<Bytes>) {
    v.Some? ==> |v.value| < U32
  }

  ghost predicate OpFits(op: Op) {
    && |op.key| < U32
    && (op.Put? ==> |op.value| < U32)
    && (op.Cas? ==> BytesFit(op.wanted) && BytesFit(op.swap))
    && (op.GetAt? ==> op.version < U64)
  }

  ghost predicate RequestFits(r: Request) {
    r.client < U64 && r.seqNo < U64 && OpFits(r.op)
  }

  function ModeTag(m: ReadMode): Byte {
    match m case Linearizable => 0 case Lease => 1 case Stale => 2
  }

  function ReadReadMode(b: Bytes): (p: Parsed<ReadMode>) {
    var (tag, b) :- ReadU8(b);
    if tag == 0 then Got(Linearizable, b)
    else if tag == 1 then Got(Lease, b)
    else if tag == 2 then Got(Stale, b)
    else Fail(BadTag(tag))
  }

  function PutOp(op: Op, rest: Bytes): Bytes {
    match op
    case Get(key, mode) => [0] + PutBytes(key, [ModeTag(mode)] + rest)
    case Put(key, value) => [1] + PutBytes(key, PutBytes(value, rest))
    case Delete(key) => [2] + PutBytes(key, rest)
    case Cas(key, wanted, swap) => [3] + PutBytes(key, PutOpt(wanted, PutBytes, PutOpt(swap, PutBytes, rest)))
    case GetAt(key, version) => [4] + PutBytes(key, WriteU64(version) + rest)
  }

  function ReadOp(b: Bytes): (p: Parsed<Op>) {
    var (tag, b) :- ReadU8(b);
    if tag > 4 then Fail(BadTag(tag))
    else
      var (key, b) :- ReadBytes(b);
      if tag == 0 then
        var (mode, b) :- ReadReadMode(b);
        Got(Get(key, mode), b)
      else if tag == 1 then
        var (value, b) :- ReadBytes(b);
        Got(Put(key, value), b)
      else if tag == 2 then Got(Delete(key), b)
      else if tag == 3 then
        var (wanted, b) :- ReadOpt(b, ReadBytes);
        var (swap, b) :- ReadOpt(b, ReadBytes);
        Got(Cas(key, wanted, swap), b)
      else
        var (version, b) :- ReadU64(b);
        Got(GetAt(key, version), b)
  }

  function PutRequest(r: Request, rest: Bytes): Bytes {
    WriteU64(r.client) + (WriteU64(r.seqNo) + PutOp(r.op, rest))
  }

  function ReadRequest(b: Bytes): (p: Parsed<Request>) {
    var (client, b) :- ReadU64(b);
    var (seqNo, b) :- ReadU64(b);
    var (op, b) :- ReadOp(b);
    Got(Request(client, seqNo, op), b)
  }

  lemma OptBytesRoundTrip(v: Option<Bytes>, rest: Bytes)
    requires BytesFit(v)
    ensures ReadOpt(PutOpt(v, PutBytes, rest), ReadBytes) == Got(v, rest)
  {
    if v.Some? { BytesInverse(v.value); }
    OptRoundTrip(v, PutBytes, ReadBytes, rest);
  }

  /** What follows the key of an operation. */
  function OpTail(op: Op, rest: Bytes): Bytes {
    match op
    case Get(_, mode) => [ModeTag(mode)] + rest
    case Put(_, value) => PutBytes(value, rest)
    case Delete(_) => rest
    case Cas(_, wanted, swap) => PutOpt(wanted, PutBytes, PutOpt(swap, PutBytes, rest))
    case GetAt(_, version) => WriteU64(version) + rest
  }

  lemma OpRoundTrip(op: Op, rest: Bytes)
    requires OpFits(op)
    ensures ReadOp(PutOp(op, rest)) == Got(op, rest)
  {
    hide ReadBytes, PutBytes, ReadOpt, PutOpt, ReadU64, WriteU64;
    var b, tail := PutOp(op, rest), OpTail(op, rest);
    assert b[1..] == PutBytes(op.key, tail);
    PutBytesRoundTrip(op.key, tail);
    match op {
      case Get(_, mode) => assert tail[1..] == rest;
      case Put(_, value) => PutBytesRoundTrip(value, rest);
      case Delete(_) =>
      case Cas(_, wanted, swap) =>
        OptBytesRoundTrip(swap, rest);
        OptBytesRoundTrip(wanted, PutOpt(swap, PutBytes, rest));
      case GetAt(_, version) => U64RoundTrip(version, rest);
    }
  }

  lemma PutBytesRoundTrip(v: Bytes, rest: Bytes)
    requires |v| < U32
    ensures ReadBytes(PutBytes(v, rest)) == Got(v, rest)
  {
    BytesRoundTrip(v, rest);
  }

  /** Every request within the length limits decodes back to itself. */
  lemma RequestRoundTrip(r: Request, rest: Bytes)
    requires RequestFits(r)
    ensures ReadRequest(PutRequest(r, rest)) == Got(r, rest)
  {
    hide PutOp, ReadOp, ReadU64, WriteU64;
    OpRoundTrip(r.op, rest);
    var op := PutOp(r.op, rest);
    U64RoundTrip(r.seqNo, op);
    U64RoundTrip(r.client, WriteU64(r.seqNo) + op);
  }

  // ---- responses -------------------------------------------------------------------------

  ghost predicate OutcomeFits(o: Outcome) {
    match o
    case Found(v) => BytesFit(v)
    case Applied(version) => version < U64
    case CasFailed(v) => BytesFit(v)
    case NotLeader(hint) => hint.Some? ==> hint.value < U32
    case Unavailable => true
  }

  ghost predicate ResponseFits(r: Response) {
    r.client < U64 && r.seqNo < U64 && OutcomeFits(r.outcome)
  }

  function PutOutcome(o: Outcome, rest: Bytes): Bytes {
    match o
    case Found(v) => [0] + PutOpt(v, PutBytes, rest)
    case Applied(version) => [1] + (WriteU64(version) + rest)
    case CasFailed(v) => [2] + PutOpt(v, PutBytes, rest)
    case NotLeader(hint) => [3] + PutOpt(hint, PutU32, rest)
    case Unavailable => [4] + rest
  }

  function ReadOutcome(b: Bytes): (p: Parsed<Outcome>) {
    var (tag, b) :- ReadU8(b);
    if tag == 0 then
      var (v, b) :- ReadOpt(b, ReadBytes);
      Got(Found(v), b)
    else if tag == 1 then
      var (version, b) :- ReadU64(b);
      Got(Applied(version), b)
    else if tag == 2 then
      var (v, b) :- ReadOpt(b, ReadBytes);
      Got(CasFailed(v), b)
    else if tag == 3 then
      var (hint, b) :- ReadOpt(b, ReadU32);
      Got(NotLeader(hint), b)
    else if tag == 4 then Got(Unavailable, b)
    else Fail(BadTag(tag))
  }

  function PutResponse(r: Response, rest: Bytes): Bytes {
    WriteU64(r.client) + (WriteU64(r.seqNo) + PutOutcome(r.outcome, rest))
  }

  function ReadResponse(b: Bytes): (p: Parsed<Response>) {
    var (client, b) :- ReadU64(b);
    var (seqNo, b) :- ReadU64(b);
    var (outcome, b) :- ReadOutcome(b);
    Got(Response(client, seqNo, outcome), b)
  }

  lemma OutcomeRoundTrip(o: Outcome, rest: Bytes)
    requires OutcomeFits(o)
    ensures ReadOutcome(PutOutcome(o, rest)) == Got(o, rest)
  {
    hide ReadOpt, PutOpt, ReadU64, WriteU64;
    var b := PutOutcome(o, rest);
    match o {
      case Found(v) =>
        assert b[1..] == PutOpt(v, PutBytes, rest);
        OptBytesRoundTrip(v, rest);
      case Applied(version) =>
        assert b[1..] == WriteU64(version) + rest;
        U64RoundTrip(version, rest);
      case CasFailed(v) =>
        assert b[1..] == PutOpt(v, PutBytes, rest);
        OptBytesRoundTrip(v, rest);
      case NotLeader(hint) =>
        assert b[1..] == PutOpt(hint, PutU32, rest);
        HintRoundTrip(hint, rest);
      case Unavailable =>
        assert b[1..] == rest;
    }
  }

  lemma HintRoundTrip(hint: Option<NodeId>, rest: Bytes)
    requires hint.Some? ==> hint.value < U32
    ensures ReadOpt(PutOpt(hint, PutU32, rest), ReadU32) == Got(hint, rest)
  {
    if hint.Some? { U32Inverse(hint.value); }
    OptRoundTrip(hint, PutU32, ReadU32, rest);
  }

  /** Every response within the length limits decodes back to itself. */
  lemma ResponseRoundTrip(r: Response, rest: Bytes)
    requires ResponseFits(r)
    ensures ReadResponse(PutResponse(r, rest)) == Got(r, rest)
  {
    hide PutOutcome, ReadOutcome, ReadU64, WriteU64;
    OutcomeRoundTrip(r.outcome, rest);
    var outcome := PutOutcome(r.outcome, rest);
    U64RoundTrip(r.seqNo, outcome);
    U64RoundTrip(r.client, WriteU64(r.seqNo) + outcome);
  }
}
