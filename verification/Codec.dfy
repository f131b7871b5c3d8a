/** The hand-written binary encoding (crates/chronolog/src/codec.rs:63-263): little-endian,
    fixed-width, every read bounds-checked.

    A decoder is a function from the bytes not yet consumed to a value and the bytes that remain. */
module Codec {
  import opened Types

  datatype DecodeError =
    | Truncated
    | BadTag(tag: Byte)
    | BadLength(len: nat)
    | BadChecksum(wanted: nat, actual: nat)

  /** A value and the bytes after it, or an error. `:-` takes the value or passes the error on. */
  datatype Parsed<+T> = Got(value: T, rest: Bytes) | Fail(error: DecodeError) {

    predicate IsFailure() {
      Fail?
    }

    function PropagateFailure<U>(): Parsed<U>
      requires IsFailure()
    {
      Fail(error)
    }

    function Extract(): (T, Bytes)
      requires !IsFailure()
    {
      (value, rest)
    }
  }

  const U32: nat := 0x1_0000_0000
  const U64: nat := 0x1_0000_0000_0000_0000

  // ---- little-endian numbers ---------------------------------------------------------

  function LittleEndian(v: nat, width: nat): (b: Bytes)
    ensures |b| == width
  {
    if width == 0 then [] else [v % 256] + LittleEndian(v / 256, width - 1)
  }

  function FromLittleEndian(b: Bytes): nat {
    if b == [] then 0 else b[0] + 256 * FromLittleEndian(b[1..])
  }

  ghost predicate FitsIn(v: nat, width: nat) {
    if width == 0 then v == 0 else FitsIn(v / 256, width - 1)
  }

  lemma {:induction false} LittleEndianRoundTrip(v: nat, width: nat)
    requires FitsIn(v, width)
    ensures FromLittleEndian(LittleEndian(v, width)) == v
  {
    if width > 0 {
      LittleEndianRoundTrip(v / 256, width - 1);
      assert LittleEndian(v, width)[1..] == LittleEndian(v / 256, width - 1);
    }
  }

  lemma FitsInHalf(v: nat)
    requires v < U32
    ensures FitsIn(v, 4)
  {
    assert v / 256 < 0x100_0000;
    assert v / 256 / 256 < 0x1_0000;
    assert v / 256 / 256 / 256 < 0x100;
    assert v / 256 / 256 / 256 / 256 == 0;
    assert FitsIn(v / 256 / 256 / 256 / 256, 0);
    assert FitsIn(v / 256 / 256 / 256, 1);
    assert FitsIn(v / 256 / 256, 2);
    assert FitsIn(v / 256, 3);
  }

  lemma FitsInWord(v: nat)
    requires v < U64
    ensures FitsIn(v, 8)
  {
    var a := v / 256;
    var b := a / 256;
    var c := b / 256;
    var d := c / 256;
    FitsInHalf(d);
    assert FitsIn(c, 5);
    assert FitsIn(b, 6);
    assert FitsIn(a, 7);
  }

  // ---- primitives ------------------------------------------------------------------------

  function ReadU8(b: Bytes): (p: Parsed<Byte>) {
    if b == [] then Fail(Truncated) else Got(b[0], b[1..])
  }

  function WriteU32(v: nat): Bytes {
    LittleEndian(v, 4)
  }

  function ReadU32(b: Bytes): (p: Parsed<nat>) {
    if |b| < 4 then Fail(Truncated) else Got(FromLittleEndian(b[..4]), b[4..])
  }

  function WriteU64(v: nat): Bytes {
    LittleEndian(v, 8)
  }

  function ReadU64(b: Bytes): (p: Parsed<nat>) {
    if |b| < 8 then Fail(Truncated) else Got(FromLittleEndian(b[..8]), b[8..])
  }

  function WriteBool(v: bool): Bytes {
    [if v then 1 else 0]
  }

  /** Only two bytes stand for a truth value. */
  function ReadBool(b: Bytes): (p: Parsed<bool>) {
    var (t, b) :- ReadU8(b);
    if t == 0 then Got(false, b) else if t == 1 then Got(true, b) else Fail(BadTag(t))
  }

  function WriteBytes(v: Bytes): Bytes {
    WriteU32(|v|) + v
  }

  function ReadBytes(b: Bytes): (p: Parsed<Bytes>) {
    var (n, b) :- ReadU32(b);
    if n > |b| then Fail(BadLength(n)) else Got(b[..n], b[n..])
  }

  lemma HeaderReads(v: nat)
    requires v < U32
    ensures FromLittleEndian(WriteU32(v)) == v
  {
    FitsInHalf(v);
    LittleEndianRoundTrip(v, 4);
  }

  lemma U32RoundTrip(v: nat, rest: Bytes)
    requires v < U32
    ensures ReadU32(WriteU32(v) + rest) == Got(v, rest)
  {
    FitsInHalf(v);
    LittleEndianRoundTrip(v, 4);
    assert (WriteU32(v) + rest)[..4] == WriteU32(v) && (WriteU32(v) + rest)[4..] == rest;
  }

  lemma U64RoundTrip(v: nat, rest: Bytes)
    requires v < U64
    ensures ReadU64(WriteU64(v) + rest) == Got(v, rest)
  {
    FitsInWord(v);
    LittleEndianRoundTrip(v, 8);
    assert (WriteU64(v) + rest)[..8] == WriteU64(v) && (WriteU64(v) + rest)[8..] == rest;
  }

  lemma BytesRoundTrip(v: Bytes, rest: Bytes)
    requires |v| < U32
    ensures ReadBytes(WriteBytes(v) + rest) == Got(v, rest)
  {
    assert WriteBytes(v) + rest == WriteU32(|v|) + (v + rest);
    U32RoundTrip(|v|, v + rest);
    assert (v + rest)[..|v|] == v && (v + rest)[|v|..] == rest;
  }

  // ---- encodings in front of other bytes ---------------------------------------------------------
  //
  // A composite is encoded by a function that puts its bytes in front of those that follow, so that
  // nested encodings compose without regrouping.

  type Onto<!T> = (T, Bytes) -> Bytes

  /** The decoder takes back exactly what the encoder put in front, whatever follows. */
  ghost predicate Inverse<T(!new)>(put: Onto<T>, get: Bytes -> Parsed<T>, x: T) {
    forall rest {:trigger put(x, rest)} :: get(put(x, rest)) == Got(x, rest) && |put(x, rest)| > |rest|
  }

  function PutU32(v: nat, rest: Bytes): Bytes {
    WriteU32(v) + rest
  }

  function PutBytes(v: Bytes, rest: Bytes): Bytes {
    WriteBytes(v) + rest
  }

  function PutOpt<T>(v: Option<T>, put: Onto<T>, rest: Bytes): Bytes {
    match v case None => [0] + rest case Some(x) => [1] + put(x, rest)
  }

  function ReadOpt<T>(b: Bytes, get: Bytes -> Parsed<T>): (p: Parsed<Option<T>>) {
    var (t, b) :- ReadU8(b);
    if t == 0 then Got(None, b)
    else if t == 1 then
      var (x, b) :- get(b);
      Got(Some(x), b)
    else Fail(BadTag(t))
  }

  function PutItems<T>(items: seq<T>, put: Onto<T>, rest: Bytes): Bytes {
    if items == [] then rest else put(items[0], PutItems(items[1..], put, rest))
  }

  function PutSeq<T>(items: seq<T>, put: Onto<T>, rest: Bytes): Bytes {
    WriteU32(|items|) + PutItems(items, put, rest)
  }

  function ReadItems<T>(b: Bytes, n: nat, get: Bytes -> Parsed<T>): (p: Parsed<seq<T>>)
    decreases n
  {
    if n == 0 then Got([], b)
    else
      var (x, b) :- get(b);
      var (xs, b) :- ReadItems(b, n - 1, get);
      Got([x] + xs, b)
  }

  /** A count larger than what is left to read cannot be true: no element is empty. */
  function ReadSeq<T>(b: Bytes, get: Bytes -> Parsed<T>): (p: Parsed<seq<T>>) {
    var (n, b) :- ReadU32(b);
    if n > |b| then Fail(BadLength(n)) else ReadItems(b, n, get)
  }

  lemma U32Inverse(v: nat)
    requires v < U32
    ensures Inverse(PutU32, ReadU32, v)
  {
    forall rest
      ensures ReadU32(PutU32(v, rest)) == Got(v, rest)
    {
      U32RoundTrip(v, rest);
    }
  }

  lemma BytesInverse(v: Bytes)
    requires |v| < U32
    ensures Inverse(PutBytes, ReadBytes, v)
  {
    forall rest
      ensures ReadBytes(PutBytes(v, rest)) == Got(v, rest)
    {
      BytesRoundTrip(v, rest);
    }
  }

  lemma OptRoundTrip<T(!new)>(v: Option<T>, put: Onto<T>, get: Bytes -> Parsed<T>, rest: Bytes)
    requires v.Some? ==> Inverse(put, get, v.value)
    ensures ReadOpt(PutOpt(v, put, rest), get) == Got(v, rest)
  {
    var b := PutOpt(v, put, rest);
    match v {
      case None => assert b[1..] == rest;
      case Some(x) =>
        assert b[1..] == put(x, rest);
        assert get(put(x, rest)) == Got(x, rest);
    }
  }

  lemma {:induction false} ItemsRoundTrip<T(!new)>(items: seq<T>, put: Onto<T>, get: Bytes -> Parsed<T>, rest: Bytes)
    requires forall x :: x in items ==> Inverse(put, get, x)
    ensures ReadItems(PutItems(items, put, rest), |items|, get) == Got(items, rest)
    ensures |PutItems(items, put, rest)| >= |items| + |rest|
    decreases |items|
  {
    if items != [] {
      var x, tail := items[0], items[1..];
      ItemsRoundTrip(tail, put, get, rest);
      assert Inverse(put, get, x);
      assert get(put(x, PutItems(tail, put, rest))) == Got(x, PutItems(tail, put, rest));
      assert [x] + tail == items;
    }
  }

  lemma SeqRoundTrip<T(!new)>(items: seq<T>, put: Onto<T>, get: Bytes -> Parsed<T>, rest: Bytes)
    requires |items| < U32 && forall x :: x in items ==> Inverse(put, get, x)
    ensures ReadSeq(PutSeq(items, put, rest), get) == Got(items, rest)
  {
    ItemsRoundTrip(items, put, get, rest);
    U32RoundTrip(|items|, PutItems(items, put, rest));
  }

  /** The bytes put in front do not depend on what follows. */
  ghost predicate Appends<T(!new)>(put: Onto<T>, x: T) {
    forall rest {:trigger put(x, rest)} :: put(x, rest) == put(x, []) + rest
  }

  lemma Regroup(a: Bytes, b: Bytes, c: Bytes)
    ensures a + (b + c) == (a + b) + c
  {
  }

  lemma {:induction false} ItemsAppend<T(!new)>(items: seq<T>, put: Onto<T>, rest: Bytes)
    requires forall x :: x in items ==> Appends(put, x)
    ensures PutItems(items, put, rest) == PutItems(items, put, []) + rest
    decreases |items|
  {
    if items != [] {
      var x, tail := items[0], PutItems(items[1..], put, []);
      ItemsAppend(items[1..], put, rest);
      assert Appends(put, x);
      Regroup(put(x, []), tail, rest);
      assert put(x, tail + rest) == put(x, []) + (tail + rest);
      assert put(x, tail) == put(x, []) + tail;
    }
  }

  lemma SeqAppends<T(!new)>(items: seq<T>, put: Onto<T>, rest: Bytes)
    requires forall x :: x in items ==> Appends(put, x)
    ensures PutSeq(items, put, rest) == PutSeq(items, put, []) + rest
  {
    ItemsAppend(items, put, rest);
  }
}
