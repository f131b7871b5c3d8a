/** What clients did: every operation with its window and its answer, if it got one
    (crates/chrono-oracle/src/history.rs), and the register each key must behave like
    (crates/chrono-oracle/src/linearizability.rs:49-121). */
module ClientHistory {
  import opened Types

  type Key = Bytes
  type Value = Option<Bytes>

  datatype Op =
    | Read(key: Key)
    | Write(key: Key, data: Bytes)
    | Delete(key: Key)
    | Cas(key: Key, wanted: Value, swap: Value)

  datatype Ret = Observed(value: Value) | Done | CasFailed | Unknown

  datatype Event = Event(client: nat, op: Op, ret: Ret, invoked: nat, returned: nat) {

    predicate ConcurrentWith(other: Event) {
      invoked < other.returned && other.invoked < returned
    }
  }

  /** Apply an operation to a register; `None` if the observed result is inconsistent with it. */
  function Apply(v: Value, e: Event): Option<Value> {
    match (e.op, e.ret)
    case (Read(_), Observed(seen)) => if seen == v then Some(v) else None
    case (Write(_, data), Done) => Some(Some(data))
    case (Delete(_), Done) => Some(None)
    case (Cas(_, wanted, swap), Done) => if wanted == v then Some(swap) else None
    case (Cas(_, wanted, _), CasFailed) => if wanted == v then None else Some(v)
    case (Read(_), Unknown) => Some(v)
    case (Write(_, data), Unknown) => Some(Some(data))
    case (Delete(_), Unknown) => Some(None)
    case (Cas(_, wanted, swap), Unknown) => Some(if wanted == v then swap else v)
    case _ => None
  }

  /** An operation takes effect, or, if its client never learned the outcome, is discarded. */
  function Outcome(v: Value, e: Event, applied: bool): Option<Value> {
    if applied then Apply(v, e) else if e.ret.Unknown? then Some(v) else None
  }

  // ---- sorting by invocation --------------------------------------------------------

  predicate Before(a: Event, b: Event) {
    || a.invoked < b.invoked
    || (a.invoked == b.invoked && (a.returned < b.returned || (a.returned == b.returned && a.client <= b.client)))
  }

  function Insert(e: Event, s: seq<Event>): seq<Event> {
    if s == [] || !Before(s[0], e) then [e] + s else [s[0]] + Insert(e, s[1..])
  }

  /** A stable sort by invocation, return and client. */
  function Sorted(s: seq<Event>): seq<Event> {
    if s == [] then [] else Insert(s[|s| - 1], Sorted(s[..|s| - 1]))
  }

  ghost predicate Ordered(s: seq<Event>) {
    forall i, j :: 0 <= i < j < |s| ==> Before(s[i], s[j])
  }

  lemma {:induction false} InsertKeeps(e: Event, s: seq<Event>)
    ensures multiset(Insert(e, s)) == multiset(s) + multiset{e} && |Insert(e, s)| == |s| + 1
  {
    if s != [] {
      assert s == [s[0]] + s[1..];
      InsertKeeps(e, s[1..]);
    }
  }

  lemma {:induction false} InsertBelow(e: Event, s: seq<Event>, low: Event)
    requires Before(low, e) && forall i :: 0 <= i < |s| ==> Before(low, s[i])
    ensures forall i :: 0 <= i < |Insert(e, s)| ==> Before(low, Insert(e, s)[i])
  {
    if s != [] { InsertBelow(e, s[1..], low); }
  }

  lemma OrderedCons(x: Event, t: seq<Event>)
    requires Ordered(t) && forall i :: 0 <= i < |t| ==> Before(x, t[i])
    ensures Ordered([x] + t)
  {
  }

  lemma {:induction false} InsertSorts(e: Event, s: seq<Event>)
    requires Ordered(s)
    ensures Ordered(Insert(e, s))
  {
    if s == [] || !Before(s[0], e) {
      forall i | 0 <= i < |s|
        ensures Before(e, s[i])
      {
        assert i > 0 ==> Before(s[0], s[i]);
      }
      OrderedCons(e, s);
    } else {
      InsertSorts(e, s[1..]);
      InsertBelow(e, s[1..], s[0]);
      OrderedCons(s[0], Insert(e, s[1..]));
    }
  }

  lemma {:induction false} InsertLast(e: Event, s: seq<Event>)
    requires forall i :: 0 <= i < |s| ==> Before(s[i], e)
    ensures Insert(e, s) == s + [e]
  {
    if s != [] {
      InsertLast(e, s[1..]);
      assert s == [s[0]] + s[1..];
    }
  }

  /** Sorting a sorted history changes nothing. */
  lemma {:induction false} SortedStays(s: seq<Event>)
    requires Ordered(s)
    ensures Sorted(s) == s
  {
    if s != [] {
      var k := |s| - 1;
      SortedStays(s[..k]);
      InsertLast(s[k], s[..k]);
    }
  }

  /** Sorting yields a permutation in order of invocation. */
  lemma {:induction false} SortedSorts(s: seq<Event>)
    ensures Ordered(Sorted(s)) && multiset(Sorted(s)) == multiset(s) && |Sorted(s)| == |s|
  {
    if s != [] {
      var k := |s| - 1;
      SortedSorts(s[..k]);
      InsertSorts(s[k], Sorted(s[..k]));
      InsertKeeps(s[k], Sorted(s[..k]));
      assert s == s[..k] + [s[k]];
    }
  }

  // ---- one history per key -------------------------------------------------------------

  /** The events on one key, in the order they were recorded. */
  function OnKey(s: seq<Event>, k: Key): seq<Event> {
    if s == [] then []
    else if s[|s| - 1].op.key == k then OnKey(s[..|s| - 1], k) + [s[|s| - 1]]
    else OnKey(s[..|s| - 1], k)
  }

  function KeysOf(s: seq<Event>): set<Key> {
    set e | e in s :: e.op.key
  }

  /** Split into one sorted sub-history per key. */
  method ByKey(history: seq<Event>) returns (out: map<Key, seq<Event>>)
    ensures out.Keys == KeysOf(history)
    ensures forall k :: k in out ==> out[k] == Sorted(OnKey(history, k))
  {
    var raw: map<Key, seq<Event>> := map[];
    for i := 0 to |history|
      invariant raw.Keys == KeysOf(history[..i])
      invariant forall k :: k in raw ==> raw[k] == OnKey(history[..i], k)
    {
      var e := history[i];
      assert history[..i + 1][..i] == history[..i] && history[..i + 1] == history[..i] + [e];
      AbsentOnKey(history[..i], e.op.key);
      raw := raw[e.op.key := (if e.op.key in raw then raw[e.op.key] else []) + [e]];
    }
    assert history[..|history|] == history;
    out := map k | k in raw :: Sorted(raw[k]);
  }

  lemma {:induction false} AbsentOnKey(s: seq<Event>, k: Key)
    ensures k !in KeysOf(s) ==> OnKey(s, k) == []
  {
    if s != [] {
      var t := s[..|s| - 1];
      AbsentOnKey(t, k);
      assert s[|s| - 1] in s && forall e :: e in t ==> e in s;
    }
  }
}
