/** The wire protocol: messages, framing and everything a peer can send
    (crates/chronolog/src/msg.rs:106-217, 289-425). */
module WireCodec {
  import opened Types
  import opened Codec
  import opened Crc
  import opened EntryCodec
  import ClientCodec

  type Msg = Message<Snapshot>

  // ---- Raft messages ----------------------------------------------------------------

  ghost predicate BodyFits(b: Body<Snapshot>) {
    match b
    case PreVoteReq(i, t) => i < U64 && t < U64
    case PreVoteResp(_) => true
    case VoteReq(i, t) => i < U64 && t < U64
    case VoteResp(_) => true
    case AppendReq(prev, prevTerm, entries, commit) =>
      prev < U64 && prevTerm < U64 && commit < U64 && |entries| < U32 && forall e :: e in entries ==> EntryFits(e)
    case AppendResp(_, m, ci, ct) => m < U64 && ci < U64 && ct < U64
    case SnapshotReq(s) => SnapshotFits(s)
    case SnapshotResp(_, i) => i < U64
    case HeartbeatReq(c, ctx) => c < U64 && ctx < U64
    case HeartbeatResp(ctx) => ctx < U64
    case TimeoutNow => true
  }

  function PutTwo(a: nat, b: nat, rest: Bytes): Bytes {
    WriteU64(a) + (WriteU64(b) + rest)
  }

  function ReadTwo(b: Bytes): (p: Parsed<(nat, nat)>) {
    var (x, b) :- ReadU64(b);
    var (y, b) :- ReadU64(b);
    Got((x, y), b)
  }

  lemma TwoRoundTrip(a: nat, b: nat, rest: Bytes)
    requires a < U64 && b < U64
    ensures ReadTwo(PutTwo(a, b, rest)) == Got((a, b), rest)
  {
    hide ReadU64, WriteU64;
    U64RoundTrip(b, rest);
    U64RoundTrip(a, WriteU64(b) + rest);
  }

  function PutBody(m: Body<Snapshot>, rest: Bytes): Bytes {
    match m
    case PreVoteReq(i, t) => [1] + PutTwo(i, t, rest)
    case PreVoteResp(granted) => [2] + (WriteBool(granted) + rest)
    case VoteReq(i, t) => [3] + PutTwo(i, t, rest)
    case VoteResp(granted) => [4] + (WriteBool(granted) + rest)
    case AppendReq(prev, prevTerm, entries, commit) =>
      [5] + PutTwo(prev, prevTerm, WriteU64(commit) + PutSeq(entries, PutEntry, rest))
    case AppendResp(success, m, ci, ct) => [6] + (WriteBool(success) + PutTwo(m, ci, WriteU64(ct) + rest))
    case SnapshotReq(s) => [7] + PutSnapshot(s, rest)
    case SnapshotResp(success, i) => [8] + (WriteBool(success) + (WriteU64(i) + rest))
    case HeartbeatReq(c, ctx) => [9] + PutTwo(c, ctx, rest)
    case HeartbeatResp(ctx) => [10] + (WriteU64(ctx) + rest)
    case TimeoutNow => [11] + rest
  }

  function ReadAppendReq(b: Bytes): (p: Parsed<Body<Snapshot>>) {
    var (prev, b) :- ReadTwo(b);
    var (commit, b) :- ReadU64(b);
    var (entries, b) :- ReadSeq(b, ReadEntry);
    Got(AppendReq(prev.0, prev.1, entries, commit), b)
  }

  function ReadAppendResp(b: Bytes): (p: Parsed<Body<Snapshot>>) {
    var (success, b) :- ReadBool(b);
    var (two, b) :- ReadTwo(b);
    var (ct, b) :- ReadU64(b);
    Got(AppendResp(success, two.0, two.1, ct), b)
  }

  function ReadSnapshotResp(b: Bytes): (p: Parsed<Body<Snapshot>>) {
    var (success, b) :- ReadBool(b);
    var (i, b) :- ReadU64(b);
    Got(SnapshotResp(success, i), b)
  }

  function ReadBody(b: Bytes): (p: Parsed<Body<Snapshot>>) {
    var (tag, b) :- ReadU8(b);
    match tag
    case 1 => var (two, b) :- ReadTwo(b); Got(PreVoteReq(two.0, two.1), b)
    case 2 => var (granted, b) :- ReadBool(b); Got(PreVoteResp(granted), b)
    case 3 => var (two, b) :- ReadTwo(b); Got(VoteReq(two.0, two.1), b)
    case 4 => var (granted, b) :- ReadBool(b); Got(VoteResp(granted), b)
    case 5 => ReadAppendReq(b)
    case 6 => ReadAppendResp(b)
    case 7 => var (s, b) :- ReadSnapshot(b); Got(SnapshotReq(s), b)
    case 8 => ReadSnapshotResp(b)
    case 9 => var (two, b) :- ReadTwo(b); Got(HeartbeatReq(two.0, two.1), b)
    case 10 => var (ctx, b) :- ReadU64(b); Got(HeartbeatResp(ctx), b)
    case 11 => Got(TimeoutNow, b)
    case _ => Fail(BadTag(tag))
  }

  lemma BoolRoundTrip(v: bool, rest: Bytes)
    ensures ReadBool(WriteBool(v) + rest) == Got(v, rest)
  {
    assert (WriteBool(v) + rest)[1..] == rest;
  }

  lemma AppendReqRoundTrip(m: Body<Snapshot>, rest: Bytes)
    requires m.AppendReq? && BodyFits(m)
    ensures ReadAppendReq(PutTwo(m.prevIndex, m.prevTerm, WriteU64(m.commit) + PutSeq(m.entries, PutEntry, rest)))
         == Got(m, rest)
  {
    forall e | e in m.entries
      ensures Inverse(PutEntry, ReadEntry, e)
    {
      EntryInverse(e);
    }
    hide PutTwo, ReadTwo, ReadU64, WriteU64, PutSeq, ReadSeq, Inverse;
    SeqRoundTrip(m.entries, PutEntry, ReadEntry, rest);
    var entries := PutSeq(m.entries, PutEntry, rest);
    U64RoundTrip(m.commit, entries);
    TwoRoundTrip(m.prevIndex, m.prevTerm, WriteU64(m.commit) + entries);
  }

  lemma AppendRespRoundTrip(m: Body<Snapshot>, rest: Bytes)
    requires m.AppendResp? && BodyFits(m)
    ensures var tail := PutTwo(m.matchIndex, m.conflictIndex, WriteU64(m.conflictTerm) + rest);
            ReadAppendResp(WriteBool(m.success) + tail) == Got(m, rest)
  {
    hide PutTwo, ReadTwo, ReadU64, WriteU64, ReadBool, WriteBool;
    U64RoundTrip(m.conflictTerm, rest);
    var tail := WriteU64(m.conflictTerm) + rest;
    TwoRoundTrip(m.matchIndex, m.conflictIndex, tail);
    BoolRoundTrip(m.success, PutTwo(m.matchIndex, m.conflictIndex, tail));
  }

  lemma SnapshotRespRoundTrip(m: Body<Snapshot>, rest: Bytes)
    requires m.SnapshotResp? && BodyFits(m)
    ensures ReadSnapshotResp(WriteBool(m.success) + (WriteU64(m.index) + rest)) == Got(m, rest)
  {
    hide ReadU64, WriteU64, ReadBool, WriteBool;
    U64RoundTrip(m.index, rest);
    BoolRoundTrip(m.success, WriteU64(m.index) + rest);
  }

  lemma BodyRoundTrip(m: Body<Snapshot>, rest: Bytes)
    requires BodyFits(m)
    ensures ReadBody(PutBody(m, rest)) == Got(m, rest)
  {
    hide PutTwo, ReadTwo, ReadU64, WriteU64, ReadBool, WriteBool, PutSeq, PutSnapshot, ReadSnapshot;
    hide ReadAppendReq, ReadAppendResp, ReadSnapshotResp;
    var b := PutBody(m, rest);
    match m {
      case PreVoteReq(i, t) => TwoRoundTrip(i, t, rest); assert b[1..] == PutTwo(i, t, rest);
      case PreVoteResp(granted) => BoolRoundTrip(granted, rest); assert b[1..] == WriteBool(granted) + rest;
      case VoteReq(i, t) => TwoRoundTrip(i, t, rest); assert b[1..] == PutTwo(i, t, rest);
      case VoteResp(granted) => BoolRoundTrip(granted, rest); assert b[1..] == WriteBool(granted) + rest;
      case AppendReq(prev, prevTerm, entries, commit) =>
        AppendReqRoundTrip(m, rest);
        assert b[1..] == PutTwo(prev, prevTerm, WriteU64(commit) + PutSeq(entries, PutEntry, rest));
      case AppendResp(success, i, ci, ct) =>
        AppendRespRoundTrip(m, rest);
        assert b[1..] == WriteBool(success) + PutTwo(i, ci, WriteU64(ct) + rest);
      case SnapshotReq(s) => SnapshotRoundTrip(s, rest); assert b[1..] == PutSnapshot(s, rest);
      case SnapshotResp(success, i) =>
        SnapshotRespRoundTrip(m, rest);
        assert b[1..] == WriteBool(success) + (WriteU64(i) + rest);
      case HeartbeatReq(c, ctx) => TwoRoundTrip(c, ctx, rest); assert b[1..] == PutTwo(c, ctx, rest);
      case HeartbeatResp(ctx) => U64RoundTrip(ctx, rest); assert b[1..] == WriteU64(ctx) + rest;
      case TimeoutNow => assert b[1..] == rest;
    }
  }

  ghost predicate MessageFits(m: Msg) {
    m.term < U64 && BodyFits(m.body)
  }

  function PutMessage(m: Msg, rest: Bytes): Bytes {
    WriteU64(m.term) + PutBody(m.body, rest)
  }

  function ReadMessage(b: Bytes): (p: Parsed<Msg>) {
    var (term, b) :- ReadU64(b);
    var (body, b) :- ReadBody(b);
    Got(Message(term, body), b)
  }

  lemma MessageRoundTrip(m: Msg, rest: Bytes)
    requires MessageFits(m)
    ensures ReadMessage(PutMessage(m, rest)) == Got(m, rest)
  {
    hide PutBody, ReadBody, ReadU64, WriteU64;
    BodyRoundTrip(m.body, rest);
    U64RoundTrip(m.term, PutBody(m.body, rest));
  }

  // ---- framing ----------------------------------------------------------------------------

  const PROTOCOL_VERSION: Byte := 1
  const MAX_FRAME: nat := 64 * 1024 * 1024

  function Frame(payload: Bytes): Bytes {
    [PROTOCOL_VERSION] + WriteU32(|payload|) + WriteU32(ChecksumOf(payload)) + payload
  }

  function Unframe(b: Bytes): (p: Parsed<Bytes>) {
    if |b| < 9 then Fail(Truncated)
    else if b[0] != PROTOCOL_VERSION then Fail(BadTag(b[0]))
    else
      var len, crc := FromLittleEndian(b[1..5]), FromLittleEndian(b[5..9]);
      if len > MAX_FRAME then Fail(BadLength(len))
      else if |b| < 9 + len then Fail(Truncated)
      else if ChecksumOf(b[9..9 + len]) != crc then Fail(BadChecksum(crc, ChecksumOf(b[9..9 + len])))
      else Got(b[9..9 + len], b[9 + len..])
  }

  lemma FrameHeader(payload: Bytes, rest: Bytes)
    requires |payload| < U32
    ensures var b := Frame(payload) + rest;
            && |Frame(payload)| == 9 + |payload| && b[0] == PROTOCOL_VERSION
            && FromLittleEndian(b[1..5]) == |payload| && FromLittleEndian(b[5..9]) == ChecksumOf(payload)
            && b[9..9 + |payload|] == payload && b[9 + |payload|..] == rest
  {
    hide ChecksumOf;
    var b := Frame(payload) + rest;
    HeaderReads(|payload|);
    HeaderReads(ChecksumOf(payload));
    assert b[1..5] == WriteU32(|payload|) && b[5..9] == WriteU32(ChecksumOf(payload));
  }

  /** Framing checks no length: a frame gives back its payload exactly when that is within the limit
      unframing believes. */
  lemma FrameRoundTrip(payload: Bytes, rest: Bytes)
    requires |payload| < U32
    ensures Unframe(Frame(payload) + rest)
         == if |payload| <= MAX_FRAME then Got(payload, rest) else Fail(BadLength(|payload|))
  {
    hide ChecksumOf;
    FrameHeader(payload, rest);
  }

  /** Every proper prefix of a frame is rejected. */
  lemma FramePrefixRejected(payload: Bytes, k: nat)
    requires |payload| < U32 && k < |Frame(payload)|
    ensures Unframe(Frame(payload)[..k])
         == if k < 9 || |payload| <= MAX_FRAME then Fail(Truncated) else Fail(BadLength(|payload|))
  {
    hide ChecksumOf;
    FrameHeader(payload, []);
    var f := Frame(payload);
    assert f + [] == f;
    if k >= 9 { assert f[..k][1..5] == f[1..5] && f[..k][5..9] == f[5..9]; }
  }

  // ---- everything a peer can send ----------------------------------------------------------------

  datatype AdminResult = Accepted(index: nat) | AdminNotLeader(hint: Option<NodeId>) | Rejected

  datatype Wire =
    | Raft(msg: Msg)
    | Client(request: ClientCodec.Request)
    | Reply(response: ClientCodec.Response)
    | Admin(change: ConfigChange)
    | AdminReply(result: AdminResult)

  ghost predicate WireFits(w: Wire) {
    && |WireBytes(w)| < U32
    && match w
       case Raft(m) => MessageFits(m)
       case Client(r) => ClientCodec.RequestFits(r)
       case Reply(r) => ClientCodec.ResponseFits(r)
       case Admin(c) => ChangeFits(c)
       case AdminReply(Accepted(i)) => i < U64
       case AdminReply(AdminNotLeader(hint)) => hint.Some? ==> hint.value < U32
       case AdminReply(Rejected) => true
  }

  function PutResult(r: AdminResult, rest: Bytes): Bytes {
    match r
    case Accepted(i) => [0] + (WriteU64(i) + rest)
    case AdminNotLeader(hint) => [1] + PutOpt(hint, PutU32, rest)
    case Rejected => [2] + rest
  }

  function ReadResult(b: Bytes): (p: Parsed<AdminResult>) {
    var (tag, b) :- ReadU8(b);
    match tag
    case 0 => var (i, b) :- ReadU64(b); Got(Accepted(i), b)
    case 1 => var (hint, b) :- ReadOpt(b, ReadU32); Got(AdminNotLeader(hint), b)
    case 2 => Got(Rejected, b)
    case _ => Fail(BadTag(tag))
  }

  function WireBytes(w: Wire): Bytes {
    match w
    case Raft(m) => [0] + PutMessage(m, [])
    case Client(r) => [1] + ClientCodec.PutRequest(r, [])
    case Reply(r) => [2] + ClientCodec.PutResponse(r, [])
    case Admin(c) => [3] + PutChange(c, [])
    case AdminReply(r) => [4] + PutResult(r, [])
  }

  function EncodeWire(w: Wire): Bytes {
    Frame(WireBytes(w))
  }

  function ReadWire(payload: Bytes): (p: Parsed<Wire>) {
    var (tag, b) :- ReadU8(payload);
    match tag
    case 0 => var (m, b) :- ReadMessage(b); Got(Raft(m), b)
    case 1 => var (r, b) :- ClientCodec.ReadRequest(b); Got(Client(r), b)
    case 2 => var (r, b) :- ClientCodec.ReadResponse(b); Got(Reply(r), b)
    case 3 => var (c, b) :- ReadChange(b); Got(Admin(c), b)
    case 4 => var (r, b) :- ReadResult(b); Got(AdminReply(r), b)
    case _ => Fail(BadTag(tag))
  }

  function DecodeWire(b: Bytes): (p: Parsed<Wire>) {
    var (payload, b) :- Unframe(b);
    ReadWire(payload)
  }

  lemma ResultRoundTrip(r: AdminResult)
    requires r.Accepted? ==> r.index < U64
    requires r.AdminNotLeader? && r.hint.Some? ==> r.hint.value < U32
    ensures ReadResult(PutResult(r, [])) == Got(r, [])
  {
    hide ReadU64, WriteU64, ReadOpt, PutOpt;
    var b := PutResult(r, []);
    match r {
      case Accepted(i) => U64RoundTrip(i, []); assert b[1..] == WriteU64(i) + [];
      case AdminNotLeader(hint) => ClientCodec.HintRoundTrip(hint, []); assert b[1..] == PutOpt(hint, PutU32, []);
      case Rejected => assert b[1..] == [];
    }
  }

  lemma WireBytesRoundTrip(w: Wire)
    requires WireFits(w)
    ensures ReadWire(WireBytes(w)) == Got(w, [])
  {
    hide PutMessage, ReadMessage, ClientCodec.PutRequest, ClientCodec.ReadRequest, ClientCodec.PutResponse;
    hide ClientCodec.ReadResponse, PutChange, ReadChange, PutResult, ReadResult;
    var b := WireBytes(w);
    match w {
      case Raft(m) => MessageRoundTrip(m, []); assert b[1..] == PutMessage(m, []);
      case Client(r) => ClientCodec.RequestRoundTrip(r, []); assert b[1..] == ClientCodec.PutRequest(r, []);
      case Reply(r) => ClientCodec.ResponseRoundTrip(r, []); assert b[1..] == ClientCodec.PutResponse(r, []);
      case Admin(c) => ChangeRoundTrip(c, []); assert b[1..] == PutChange(c, []);
      case AdminReply(r) => ResultRoundTrip(r); assert b[1..] == PutResult(r, []);
    }
  }

  /** What a node sends decodes back to itself exactly when it is within the limit, which the sender
      does not check, and no proper prefix of it decodes at all. */
  lemma WireRoundTrip(w: Wire)
    requires WireFits(w)
    ensures DecodeWire(EncodeWire(w)) == Got(w, []) <==> |WireBytes(w)| <= MAX_FRAME
    ensures forall k :: 0 <= k < |EncodeWire(w)| ==> DecodeWire(EncodeWire(w)[..k]).Fail?
  {
    hide Frame, Unframe, WireBytes, ReadWire;
    var f := EncodeWire(w);
    assert f + [] == f;
    FrameRoundTrip(WireBytes(w), []);
    WireBytesRoundTrip(w);
    forall k | 0 <= k < |f|
      ensures DecodeWire(f[..k]).Fail?
    {
      FramePrefixRejected(WireBytes(w), k);
    }
  }
}
