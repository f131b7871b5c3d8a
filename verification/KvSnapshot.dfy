/** Serializing the store for a snapshot and rebuilding it (crates/chronolog/src/kv.rs:173-253). It
    makes no difference whether any prefix of the log was replayed or came as a snapshot. */
module KvSnapshot {
  import opened Types
  import opened Quorum
  import opened Codec
  import opened ClientCodec
  import opened KvStore

  // ---- keys in order ------------------------------------------------------------------

  /** Lexicographic order on byte strings. */
  predicate Lex(a: Bytes, b: Bytes) {
    a == [] || (b != [] && (a[0] < b[0] || (a[0] == b[0] && Lex(a[1..], b[1..]))))
  }

  lemma {:induction false} LexTotal(a: Bytes, b: Bytes)
    ensures Lex(a, b) || Lex(b, a)
    ensures Lex(a, b) && Lex(b, a) ==> a == b
  {
    if a != [] && b != [] && a[0] == b[0] {
      LexTotal(a[1..], b[1..]);
      assert a == [a[0]] + a[1..] && b == [b[0]] + b[1..];
    }
  }

  lemma {:induction false} LexTransitive(a: Bytes, b: Bytes, c: Bytes)
    requires Lex(a, b) && Lex(b, c)
    ensures Lex(a, c)
  {
    if a != [] && a[0] == b[0] == c[0] { LexTransitive(a[1..], b[1..], c[1..]); }
  }

  predicate IsLeast(keys: set<Bytes>, k: Bytes) {
    k in keys && forall x :: x in keys ==> Lex(k, x)
  }

  lemma {:induction false} LeastExists(keys: set<Bytes>)
    requires keys != {}
    ensures exists k :: IsLeast(keys, k)
    decreases keys
  {
    var k :| k in keys;
    LexTotal(k, k);
    var rest := keys - {k};
    assert forall x :: x in keys ==> x == k || x in rest;
    if rest == {} {
      assert IsLeast(keys, k);
    } else {
      LeastExists(rest);
      var r :| IsLeast(rest, r);
      LexTotal(k, r);
      if Lex(k, r) {
        forall x | x in rest
          ensures Lex(k, x)
        {
          LexTransitive(k, r, x);
        }
        assert IsLeast(keys, k);
      } else {
        assert IsLeast(keys, r);
      }
    }
  }

  function Least(keys: set<Bytes>): (k: Bytes)
    requires keys != {}
    ensures IsLeast(keys, k)
  {
    LeastExists(keys);
    LeastUnique(keys);
    var k :| IsLeast(keys, k);
    k
  }

  lemma LeastUnique(keys: set<Bytes>)
    ensures forall j, k :: IsLeast(keys, j) && IsLeast(keys, k) ==> j == k
  {
    forall j, k | IsLeast(keys, j) && IsLeast(keys, k)
      ensures j == k
    {
      LexTotal(j, k);
    }
  }

  /** The keys of an ordered map, in iteration order. */
  function KeysInOrder(keys: set<Bytes>): (r: seq<Bytes>)
    ensures |r| == |keys| && (forall k :: k in r <==> k in keys)
    ensures forall i, j :: 0 <= i < j < |r| ==> r[i] != r[j]
    decreases keys
  {
    if keys == {} then [] else [Least(keys)] + KeysInOrder(keys - {Least(keys)})
  }

  // ---- maps as sequences of items -----------------------------------------------------------

  function Items<K, V>(m: map<K, V>, keys: seq<K>): seq<(K, V)>
    requires forall k :: k in keys ==> k in m
  {
    seq(|keys|, i requires 0 <= i < |keys| => (keys[i], m[keys[i]]))
  }

  /** Insert items one after another. */
  function FromItems<K, V>(items: seq<(K, V)>): map<K, V> {
    if items == [] then map[] else FromItems(items[..|items| - 1])[items[|items| - 1].0 := items[|items| - 1].1]
  }

  lemma {:induction false} FromItemsOf<K, V>(m: map<K, V>, keys: seq<K>)
    requires forall k :: k in keys ==> k in m
    ensures FromItems(Items(m, keys)) == map k | k in m && k in keys :: m[k]
  {
    if keys != [] {
      var n := |keys| - 1;
      FromItemsOf(m, keys[..n]);
      assert Items(m, keys)[..n] == Items(m, keys[..n]);
      assert keys == keys[..n] + [keys[n]];
    }
  }

  lemma ItemsRebuild<K, V>(m: map<K, V>, keys: seq<K>)
    requires forall k :: k in keys <==> k in m
    ensures FromItems(Items(m, keys)) == m
  {
    FromItemsOf(m, keys);
  }

  // ---- versions --------------------------------------------------------------------------------

  ghost predicate VersionFits(v: Version) {
    v.version < U64 && BytesFit(v.value)
  }

  function PutVersion(v: Version, rest: Bytes): Bytes {
    WriteU64(v.version) + PutOpt(v.value, PutBytes, rest)
  }

  function ReadVersion(b: Bytes): (p: Parsed<Version>) {
    var (version, b) :- ReadU64(b);
    var (value, b) :- ReadOpt(b, ReadBytes);
    Got(Version(version, value), b)
  }

  lemma VersionInverse(v: Version)
    requires VersionFits(v)
    ensures Inverse(PutVersion, ReadVersion, v)
  {
    forall rest
      ensures ReadVersion(PutVersion(v, rest)) == Got(v, rest) && |PutVersion(v, rest)| > |rest|
    {
      OptBytesRoundTrip(v.value, rest);
      U64RoundTrip(v.version, PutOpt(v.value, PutBytes, rest));
    }
  }

  // ---- one key and its versions ------------------------------------------------------------------------

  type Keyed = (Bytes, seq<Version>)

  ghost predicate KeyedFits(kv: Keyed) {
    |kv.0| < U32 && |kv.1| < U32 && forall v :: v in kv.1 ==> VersionFits(v)
  }

  function PutKeyed(kv: Keyed, rest: Bytes): Bytes {
    PutBytes(kv.0, PutSeq(kv.1, PutVersion, rest))
  }

  function ReadKeyed(b: Bytes): (p: Parsed<Keyed>) {
    var (key, b) :- ReadBytes(b);
    var (versions, b) :- ReadSeq(b, ReadVersion);
    Got((key, versions), b)
  }

  lemma KeyedInverse(kv: Keyed)
    requires KeyedFits(kv)
    ensures Inverse(PutKeyed, ReadKeyed, kv)
  {
    forall v | v in kv.1
      ensures Inverse(PutVersion, ReadVersion, v)
    {
      VersionInverse(v);
    }
    forall rest
      ensures ReadKeyed(PutKeyed(kv, rest)) == Got(kv, rest) && |PutKeyed(kv, rest)| > |rest|
    {
      KeyedRoundTrip(kv, rest);
    }
  }

  lemma KeyedRoundTrip(kv: Keyed, rest: Bytes)
    requires KeyedFits(kv) && forall v :: v in kv.1 ==> Inverse(PutVersion, ReadVersion, v)
    ensures ReadKeyed(PutKeyed(kv, rest)) == Got(kv, rest) && |PutKeyed(kv, rest)| > |rest|
  {
    SeqRoundTrip(kv.1, PutVersion, ReadVersion, rest);
    ItemsRoundTrip(kv.1, PutVersion, ReadVersion, rest);
    hide ReadSeq, ReadBytes, Inverse;
    PutBytesRoundTrip(kv.0, PutSeq(kv.1, PutVersion, rest));
  }

  // ---- sessions -------------------------------------------------------------------------------------------

  type Held = (nat, Session)

  function SessionBytes(held: Held): Bytes {
    PutResponse(Response(held.0, held.1.lastSeq, held.1.lastOutcome), [])
  }

  ghost predicate HeldFits(held: Held) {
    ResponseFits(Response(held.0, held.1.lastSeq, held.1.lastOutcome)) && |SessionBytes(held)| < U32
  }

  function PutHeld(held: Held, rest: Bytes): Bytes {
    WriteU64(held.0) + (WriteU64(held.1.lastSeq) + PutBytes(SessionBytes(held), rest))
  }

  function ReadHeld(b: Bytes): (p: Parsed<Held>) {
    var (id, b) :- ReadU64(b);
    var (lastSeq, b) :- ReadU64(b);
    var (bytes, b) :- ReadBytes(b);
    var (response, _) :- ReadResponse(bytes);
    Got((id, Session(lastSeq, response.outcome)), b)
  }

  lemma HeldInverse(held: Held)
    requires HeldFits(held)
    ensures Inverse(PutHeld, ReadHeld, held)
  {
    var bytes := SessionBytes(held);
    ResponseRoundTrip(Response(held.0, held.1.lastSeq, held.1.lastOutcome), []);
    forall rest
      ensures ReadHeld(PutHeld(held, rest)) == Got(held, rest) && |PutHeld(held, rest)| > |rest|
    {
      var tail := PutBytes(bytes, rest);
      PutBytesRoundTrip(bytes, rest);
      U64RoundTrip(held.1.lastSeq, tail);
      U64RoundTrip(held.0, WriteU64(held.1.lastSeq) + tail);
    }
  }

  // ---- the whole store ----------------------------------------------------------------------------------------

  ghost predicate StoreFits(s: Store) {
    && s.applied < U64 && |s.data| < U32 && |s.sessions| < U32
    && (forall k :: k in s.data ==> KeyedFits((k, s.data[k])))
    && (forall id :: id in s.sessions ==> HeldFits((id, s.sessions[id])))
  }

  function Snapshot(s: Store): Bytes {
    WriteU64(s.applied)
    + PutSeq(Items(s.data, KeysInOrder(s.data.Keys)), PutKeyed,
             PutSeq(Items(s.sessions, Ascending(s.sessions.Keys)), PutHeld, []))
  }

  function Restore(b: Bytes): (p: Parsed<Store>) {
    var (applied, b) :- ReadU64(b);
    var (data, b) :- ReadSeq(b, ReadKeyed);
    var (sessions, b) :- ReadSeq(b, ReadHeld);
    Got(Store(FromItems(data), FromItems(sessions), applied), b)
  }

  lemma DataRoundTrip(s: Store, rest: Bytes)
    requires StoreFits(s)
    ensures ReadSeq(PutSeq(Items(s.data, KeysInOrder(s.data.Keys)), PutKeyed, rest), ReadKeyed)
         == Got(Items(s.data, KeysInOrder(s.data.Keys)), rest)
  {
    hide Inverse, PutSeq, ReadSeq, KeyedFits;
    var items := Items(s.data, KeysInOrder(s.data.Keys));
    forall kv | kv in items
      ensures Inverse(PutKeyed, ReadKeyed, kv)
    {
      KeyedInverse(kv);
    }
    SeqRoundTrip(items, PutKeyed, ReadKeyed, rest);
  }

  lemma SessionsRoundTrip(s: Store, rest: Bytes)
    requires StoreFits(s)
    ensures ReadSeq(PutSeq(Items(s.sessions, Ascending(s.sessions.Keys)), PutHeld, rest), ReadHeld)
         == Got(Items(s.sessions, Ascending(s.sessions.Keys)), rest)
  {
    hide Inverse, PutSeq, ReadSeq, HeldFits;
    var items := Items(s.sessions, Ascending(s.sessions.Keys));
    forall held | held in items
      ensures Inverse(PutHeld, ReadHeld, held)
    {
      HeldInverse(held);
    }
    SeqRoundTrip(items, PutHeld, ReadHeld, rest);
  }

  /** Restoring a snapshot gives back the store, sessions and all. */
  lemma SnapshotRoundTrip(s: Store)
    requires StoreFits(s)
    ensures Restore(Snapshot(s)) == Got(s, [])
  {
    hide PutSeq, ReadSeq, ReadU64, WriteU64, Items, FromItems;
    var sessions := PutSeq(Items(s.sessions, Ascending(s.sessions.Keys)), PutHeld, []);
    SessionsRoundTrip(s, []);
    DataRoundTrip(s, sessions);
    U64RoundTrip(s.applied, PutSeq(Items(s.data, KeysInOrder(s.data.Keys)), PutKeyed, sessions));
    ItemsRebuild(s.data, KeysInOrder(s.data.Keys));
    ItemsRebuild(s.sessions, Ascending(s.sessions.Keys));
  }

  /** Resumable: a snapshot of any prefix plus the rest of the log gives the same store and the same
      outcomes as the whole log. */
  lemma Resumable(prefix: seq<Command>, suffix: seq<Command>)
    requires StoreFits(Replay(EmptyStore(), prefix))
    ensures var restored := Restore(Snapshot(Replay(EmptyStore(), prefix)));
            && restored.Got?
            && Replay(restored.value, suffix) == Replay(EmptyStore(), prefix + suffix)
            && Outcomes(EmptyStore(), prefix + suffix)
               == Outcomes(EmptyStore(), prefix) + Outcomes(restored.value, suffix)
  {
    hide Restore, Snapshot;
    SnapshotRoundTrip(Replay(EmptyStore(), prefix));
    ReplaySplit(EmptyStore(), prefix, suffix);
  }
}
