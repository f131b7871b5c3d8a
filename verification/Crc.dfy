/** CRC32C (Castagnoli), as in appendix B.4 of RFC 3720 and crates/chronolog/src/codec.rs:265-319. */
module Crc {
  import opened Types

  type Word = bv32
  type Octets = seq<bv8>

  /** One step of reflected long division by the polynomial 0x82F63B78. */
  function Step(c: Word): Word {
    if c & 1 != 0 then 0x82F6_3B78 ^ (c >> 1) else c >> 1
  }

  function Steps(c: Word, n: nat): Word
    decreases n
  {
    if n == 0 then c else Steps(Step(c), n - 1)
  }

  function Step8(c: Word): Word {
    Steps(c, 8)
  }

  function WordOf(b: bv8): Word {
    b as Word
  }

  /** Divide one more byte into a register, bit by bit. */
  function Feed(register: Word, b: bv8): Word {
    Step8(register ^ WordOf(b))
  }

  /** Bit-by-bit division of a message, from a register. */
  function Divide(register: Word, data: Octets): Word
    decreases |data|
  {
    if data == [] then register else Divide(Feed(register, data[0]), data[1..])
  }

  function Flip(c: Word): Word {
    !c
  }

  /** The checksum of `data` continuing from the checksum `seed`. */
  function Update(seed: Word, data: Octets): Word {
    Flip(Divide(Flip(seed), data))
  }

  function Checksum(data: Octets): Word {
    Update(0, data)
  }

  /** The checksum of bytes kept as numbers, as a number. */
  function ChecksumOf(b: Bytes): (n: nat)
    ensures n < 0x1_0000_0000
  {
    Checksum(seq(|b|, i requires 0 <= i < |b| => b[i] as bv8)) as int
  }

  // ---- facts about words -------------------------------------------------------------

  function Xor(a: Word, b: Word): Word {
    a ^ b
  }

  lemma OddOdd(a: Word, b: Word)
    requires a & 1 != 0 && b & 1 != 0
    ensures (a ^ b) & 1 == 0 && (a ^ b) >> 1 == (0x82F6_3B78 ^ (a >> 1)) ^ (0x82F6_3B78 ^ (b >> 1))
  {
  }

  lemma OddEven(a: Word, b: Word)
    requires a & 1 != 0 && b & 1 == 0
    ensures (a ^ b) & 1 != 0 && 0x82F6_3B78 ^ ((a ^ b) >> 1) == (0x82F6_3B78 ^ (a >> 1)) ^ (b >> 1)
    ensures (b ^ a) & 1 != 0 && 0x82F6_3B78 ^ ((b ^ a) >> 1) == (b >> 1) ^ (0x82F6_3B78 ^ (a >> 1))
  {
  }

  lemma EvenEven(a: Word, b: Word)
    requires a & 1 == 0 && b & 1 == 0
    ensures (a ^ b) & 1 == 0 && (a ^ b) >> 1 == (a >> 1) ^ (b >> 1)
  {
  }

  lemma OddStep(a: Word)
    ensures a & 1 != 0 ==> Step(a) == 0x82F6_3B78 ^ (a >> 1)
    ensures a & 1 == 0 ==> Step(a) == a >> 1
  {
  }

  /** A step is linear over exclusive or. */
  lemma StepLinear(a: Word, b: Word)
    ensures Step(Xor(a, b)) == Xor(Step(a), Step(b))
  {
    hide Step;
    OddStep(a);
    OddStep(b);
    OddStep(a ^ b);
    if a & 1 != 0 {
      if b & 1 != 0 { OddOdd(a, b); } else { OddEven(a, b); }
    } else {
      if b & 1 != 0 { OddEven(b, a); } else { EvenEven(a, b); }
    }
  }

  /** The polynomial's top bit tells which way a step went, so a step loses nothing. */
  lemma StepInjectiveBits(a: Word, b: Word, x: Word)
    requires x == if a & 1 != 0 then 0x82F6_3B78 ^ (a >> 1) else a >> 1
    requires x == if b & 1 != 0 then 0x82F6_3B78 ^ (b >> 1) else b >> 1
    ensures a == b
  {
  }

  lemma StepInjective(a: Word, b: Word)
    requires Step(a) == Step(b)
    ensures a == b
  {
    StepInjectiveBits(a, b, Step(a));
  }

  lemma {:induction false} StepsLinear(a: Word, b: Word, n: nat)
    ensures Steps(Xor(a, b), n) == Xor(Steps(a, n), Steps(b, n))
    decreases n
  {
    hide Step, Xor;
    if n > 0 {
      StepLinear(a, b);
      StepsLinear(Step(a), Step(b), n - 1);
    }
  }

  lemma {:induction false} StepsInjective(a: Word, b: Word, n: nat)
    requires Steps(a, n) == Steps(b, n)
    ensures a == b
    decreases n
  {
    hide Step;
    if n > 0 {
      StepsInjective(Step(a), Step(b), n - 1);
      StepInjective(a, b);
    }
  }

  // ---- the table ------------------------------------------------------------------------

  predicate Halves(x: Word, y: Word) {
    x & 1 == 0 && y == x >> 1
  }

  lemma HighHalves(c: Word) returns (x1: Word, x2: Word, x3: Word, x4: Word, x5: Word, x6: Word, x7: Word)
    ensures Halves(c & 0xFFFF_FF00, x1) && Halves(x1, x2) && Halves(x2, x3) && Halves(x3, x4)
    ensures Halves(x4, x5) && Halves(x5, x6) && Halves(x6, x7) && Halves(x7, c >> 8)
  {
    x1 := (c & 0xFFFF_FF00) >> 1;
    x2 := x1 >> 1;
    x3 := x2 >> 1;
    x4 := x3 >> 1;
    x5 := x4 >> 1;
    x6 := x5 >> 1;
    x7 := x6 >> 1;
  }

  lemma EvenStep(x: Word, y: Word)
    requires Halves(x, y)
    ensures Step(x) == y
  {
  }

  /** While only zeros shift out, dividing is shifting. */
  lemma StepsAlong(x0: Word, x1: Word, x2: Word, x3: Word, x4: Word, x5: Word, x6: Word, x7: Word, x8: Word)
    requires Step(x0) == x1 && Step(x1) == x2 && Step(x2) == x3 && Step(x3) == x4
    requires Step(x4) == x5 && Step(x5) == x6 && Step(x6) == x7 && Step(x7) == x8
    ensures Steps(x0, 8) == x8
  {
    hide Step;
    assert Steps(x6, 2) == x8;
    assert Steps(x4, 4) == Steps(x5, 3);
    assert Steps(x2, 6) == Steps(x3, 5);
  }

  lemma HighSteps(c: Word)
    ensures Steps(c & 0xFFFF_FF00, 8) == c >> 8
  {
    hide Step, Steps, Halves;
    var x0 := c & 0xFFFF_FF00;
    var x1, x2, x3, x4, x5, x6, x7 := HighHalves(c);
    EvenStep(x0, x1);
    EvenStep(x1, x2);
    EvenStep(x2, x3);
    EvenStep(x3, x4);
    EvenStep(x4, x5);
    EvenStep(x5, x6);
    EvenStep(x6, x7);
    EvenStep(x7, c >> 8);
    StepsAlong(x0, x1, x2, x3, x4, x5, x6, x7, c >> 8);
  }

  lemma SplitWord(c: Word)
    ensures Xor(c & 0xFF, c & 0xFFFF_FF00) == c
  {
  }

  /** Eight steps at once: look up the low byte and shift in the rest. */
  lemma TableStep(c: Word)
    ensures Step8(c) == Xor(Step8(c & 0xFF), c >> 8)
  {
    SplitWord(c);
    HighSteps(c);
    hide Xor, Steps;
    StepsLinear(c & 0xFF, c & 0xFFFF_FF00, 8);
  }

  ghost predicate IsTable(t: seq<Word>) {
    |t| == 256 && forall i :: 0 <= i < 256 ==> t[i] == Step8(WordOf(i as bv8))
  }

  /** The remainder of every byte, worked out bit by bit. */
  method BuildTable() returns (t: seq<Word>)
    ensures IsTable(t)
  {
    hide Step, WordOf;
    t := [];
    for i := 0 to 256
      invariant |t| == i && forall j :: 0 <= j < i ==> t[j] == Step8(WordOf(j as bv8))
    {
      var c := WordOf(i as bv8);
      for k := 0 to 8
        invariant Steps(c, 8 - k) == Step8(WordOf(i as bv8))
      {
        OddStep(c);
        c := if c & 1 != 0 then 0x82F6_3B78 ^ (c >> 1) else c >> 1;
      }
      t := t + [c];
    }
  }

  function LowByte(c: Word): bv8 {
    (c & 0xFF) as bv8
  }

  lemma LowByteWord(c: Word)
    ensures WordOf(LowByte(c)) == c & 0xFF
  {
  }

  lemma OctetBack(x: bv8)
    ensures 0 <= (x as int) < 256 && (x as int) as bv8 == x
  {
  }

  lemma ByteIsLow(c: Word, b: bv8)
    ensures (c ^ WordOf(b)) >> 8 == c >> 8
  {
  }

  /** One byte by the table. */
  function TableFeed(t: seq<Word>, c: Word, b: bv8): Word
    requires |t| == 256
  {
    OctetBack(LowByte(c ^ WordOf(b)));
    t[LowByte(c ^ WordOf(b)) as int] ^ (c >> 8)
  }

  /** It is one byte bit by bit. */
  lemma TableByte(t: seq<Word>, c: Word, b: bv8)
    requires IsTable(t)
    ensures TableFeed(t, c, b) == Feed(c, b)
  {
    hide Step8, WordOf, LowByte;
    var x := c ^ WordOf(b);
    LowByteWord(x);
    OctetBack(LowByte(x));
    ByteIsLow(c, b);
    TableStep(x);
  }

  lemma {:induction false} DivideMore(register: Word, data: Octets, b: bv8)
    ensures Divide(register, data + [b]) == Feed(Divide(register, data), b)
    decreases |data|
  {
    hide Feed;
    if data != [] {
      assert (data + [b])[1..] == data[1..] + [b];
      DivideMore(Feed(register, data[0]), data[1..], b);
    } else {
      assert (data + [b])[1..] == [];
    }
  }

  /** The table-driven update computes bit-by-bit division. */
  method TableUpdate(seed: Word, data: Octets) returns (crc: Word)
    ensures crc == Update(seed, data)
  {
    hide Step8, Feed, TableFeed, Flip;
    var t := BuildTable();
    crc := Flip(seed);
    for i := 0 to |data|
      invariant crc == Divide(Flip(seed), data[..i])
    {
      TableByte(t, crc, data[i]);
      DivideMore(Flip(seed), data[..i], data[i]);
      assert data[..i + 1] == data[..i] + [data[i]];
      crc := TableFeed(t, crc, data[i]);
    }
    assert data[..|data|] == data;
    crc := Flip(crc);
  }

  // ---- pieces -----------------------------------------------------------------------------

  lemma {:induction false} DividePieces(register: Word, a: Octets, b: Octets)
    ensures Divide(register, a + b) == Divide(Divide(register, a), b)
    decreases |a|
  {
    hide Feed;
    if a == [] {
      assert a + b == b;
    } else {
      assert (a + b)[1..] == a[1..] + b;
      DividePieces(Feed(register, a[0]), a[1..], b);
    }
  }

  lemma FlipTwice(c: Word)
    ensures Flip(Flip(c)) == c
  {
  }

  /** Updating by pieces is updating by the whole, from any seed. */
  lemma UpdatePieces(seed: Word, a: Octets, b: Octets)
    ensures Update(Update(seed, a), b) == Update(seed, a + b)
  {
    hide Divide, Flip;
    FlipTwice(Divide(Flip(seed), a));
    DividePieces(Flip(seed), a, b);
  }

  // ---- detection ------------------------------------------------------------------------------

  lemma XorCancels(c: Word, d: Word, x: Word, y: Word)
    ensures c ^ x == d ^ x ==> c == d
    ensures c ^ x == c ^ y ==> x == y
  {
  }

  lemma FeedInjective(c: Word, d: Word, b: bv8)
    requires Feed(c, b) == Feed(d, b)
    ensures c == d
  {
    hide Steps, WordOf;
    StepsInjective(c ^ WordOf(b), d ^ WordOf(b), 8);
    XorCancels(c, d, WordOf(b), 0);
  }

  /** Different bytes leave different registers. */
  lemma FeedSeparates(c: Word, a: bv8, b: bv8)
    requires Feed(c, a) == Feed(c, b)
    ensures a == b
  {
    hide Steps, WordOf;
    StepsInjective(c ^ WordOf(a), c ^ WordOf(b), 8);
    XorCancels(c, 0, WordOf(a), WordOf(b));
    SameWord(a, b);
  }

  lemma SameWord(a: bv8, b: bv8)
    requires WordOf(a) == WordOf(b)
    ensures a == b
  {
  }

  /** Registers that differ still differ after the same bytes. */
  lemma {:induction false} DivideInjective(c: Word, d: Word, data: Octets)
    requires Divide(c, data) == Divide(d, data)
    ensures c == d
    decreases |data|
  {
    hide Feed;
    if data != [] {
      DivideInjective(Feed(c, data[0]), Feed(d, data[0]), data[1..]);
      FeedInjective(c, d, data[0]);
    }
  }

  /** Two messages of the same length that differ in exactly one byte have different checksums. */
  lemma OneByteDetected(pre: Octets, a: bv8, b: bv8, post: Octets)
    requires a != b
    ensures Checksum(pre + [a] + post) != Checksum(pre + [b] + post)
  {
    hide Divide, Feed, Flip;
    var c := Divide(Flip(0), pre);
    if Checksum(pre + [a] + post) == Checksum(pre + [b] + post) {
      FlipTwice(Divide(Flip(0), pre + [a] + post));
      FlipTwice(Divide(Flip(0), pre + [b] + post));
      DividePieces(Flip(0), pre + [a], post);
      DividePieces(Flip(0), pre + [b], post);
      DivideMore(Flip(0), pre, a);
      DivideMore(Flip(0), pre, b);
      DivideInjective(Feed(c, a), Feed(c, b), post);
      FeedSeparates(c, a, b);
    }
  }
}
