/** Linearizability of a whole history, and why it may be checked one key at a time
    (crates/chrono-oracle/src/history.rs:173-191, crates/chrono-oracle/src/linearizability.rs:244-253). */
module LinearPerKey {
  import opened Types
  import opened ClientHistory
  import opened LinearSearch

  /** An operation put in its place, with or without its effect. */
  datatype Placement = Placement(e: Event, applied: bool)

  function EventsOf(order: seq<Placement>): seq<Event> {
    if order == [] then [] else EventsOf(order[..|order| - 1]) + [order[|order| - 1].e]
  }

  function ValueAt(st: map<Key, Value>, k: Key): Value {
    if k in st then st[k] else None
  }

  /** The store after performing operations one at a time; `None` if some result does not fit. */
  function Run(order: seq<Placement>): Option<map<Key, Value>> {
    if order == [] then Some(map[])
    else
      var p := order[|order| - 1];
      match Run(order[..|order| - 1])
      case None => None
      case Some(st) =>
        match Outcome(ValueAt(st, p.e.op.key), p.e, p.applied)
        case None => None
        case Some(v) => Some(st[p.e.op.key := v])
  }

  /** No operation comes before one that had returned when it was invoked. */
  ghost predicate RealTime(order: seq<Placement>) {
    order == [] || (
      && RealTime(order[..|order| - 1])
      && forall p :: p in order[..|order| - 1] ==> p.e.invoked <= order[|order| - 1].e.returned)
  }

  ghost predicate Linearizes(history: seq<Event>, order: seq<Placement>) {
    multiset(EventsOf(order)) == multiset(history) && RealTime(order) && Run(order).Some?
  }

  ghost predicate HasLinearization(history: seq<Event>) {
    exists order :: Linearizes(history, order)
  }

  ghost predicate Windows(history: seq<Event>) {
    forall e :: e in history ==> e.invoked <= e.returned
  }

  // ---- projection ------------------------------------------------------------------------

  function Project(order: seq<Placement>, k: Key): seq<Placement> {
    if order == [] then []
    else
      var rest := Project(order[..|order| - 1], k);
      if order[|order| - 1].e.op.key == k then rest + [order[|order| - 1]] else rest
  }

  lemma {:induction false} ProjectEvents(order: seq<Placement>, k: Key)
    ensures EventsOf(Project(order, k)) == OnKey(EventsOf(order), k)
  {
    if order != [] {
      var rest, p := order[..|order| - 1], order[|order| - 1];
      ProjectEvents(rest, k);
      assert EventsOf(order)[..|EventsOf(order)| - 1] == EventsOf(rest);
      if p.e.op.key == k {
        assert (Project(rest, k) + [p])[..|Project(rest, k)|] == Project(rest, k);
      }
    }
  }

  lemma {:induction false} OnKeyCounts(s: seq<Event>, k: Key, e: Event)
    ensures multiset(OnKey(s, k))[e] == if e.op.key == k then multiset(s)[e] else 0
  {
    if s != [] {
      OnKeyCounts(s[..|s| - 1], k, e);
      assert s == s[..|s| - 1] + [s[|s| - 1]];
    }
  }

  lemma OnKeySame(s: seq<Event>, t: seq<Event>, k: Key)
    requires multiset(s) == multiset(t)
    ensures multiset(OnKey(s, k)) == multiset(OnKey(t, k))
  {
    forall e: Event
      ensures multiset(OnKey(s, k))[e] == multiset(OnKey(t, k))[e]
    {
      OnKeyCounts(s, k, e);
      OnKeyCounts(t, k, e);
    }
  }

  lemma {:induction false} ProjectSome(order: seq<Placement>, k: Key)
    ensures forall p :: p in Project(order, k) ==> p in order
  {
    if order != [] { ProjectSome(order[..|order| - 1], k); }
  }

  lemma {:induction false} ProjectRealTime(order: seq<Placement>, k: Key)
    requires RealTime(order)
    ensures RealTime(Project(order, k))
  {
    if order != [] {
      var rest, p := order[..|order| - 1], order[|order| - 1];
      ProjectRealTime(rest, k);
      ProjectSome(rest, k);
      if p.e.op.key == k {
        assert (Project(rest, k) + [p])[..|Project(rest, k)|] == Project(rest, k);
      }
    }
  }

  /** The store holds, at each key, what the operations on that key alone leave there. */
  lemma {:induction false} ProjectRuns(order: seq<Placement>, k: Key)
    requires Run(order).Some?
    ensures Run(Project(order, k)).Some?
    ensures ValueAt(Run(Project(order, k)).value, k) == ValueAt(Run(order).value, k)
  {
    if order != [] {
      var rest, p := order[..|order| - 1], order[|order| - 1];
      ProjectRuns(rest, k);
      if p.e.op.key == k {
        assert (Project(rest, k) + [p])[..|Project(rest, k)|] == Project(rest, k);
      }
    }
  }

  lemma ProjectOn(m: seq<Placement>, p: Placement, k: Key)
    ensures Project(m + [p], k) == Project(m, k) + if p.e.op.key == k then [p] else []
  {
    assert (m + [p])[..|m|] == m;
  }

  /** Operations on different keys commute: an order is legal once its projections are. */
  lemma {:induction false} KeysApart(order: seq<Placement>)
    requires forall k :: Run(Project(order, k)).Some?
    ensures Run(order).Some?
  {
    if order != [] {
      var rest, p := order[..|order| - 1], order[|order| - 1];
      assert order == rest + [p];
      forall k
        ensures Run(Project(rest, k)).Some?
      {
        ShorterRuns(rest, p, k);
      }
      KeysApart(rest);
      LastFits(rest, p);
    }
  }

  lemma ShorterRuns(rest: seq<Placement>, p: Placement, k: Key)
    requires Run(Project(rest + [p], k)).Some?
    ensures Run(Project(rest, k)).Some?
  {
    ProjectOn(rest, p, k);
    assert p.e.op.key == k ==> (Project(rest, k) + [p])[..|Project(rest, k)|] == Project(rest, k);
  }

  lemma LastFits(rest: seq<Placement>, p: Placement)
    requires Run(rest).Some? && Run(Project(rest + [p], p.e.op.key)).Some?
    ensures Run(rest + [p]).Some?
  {
    var k := p.e.op.key;
    ProjectOn(rest, p, k);
    ProjectRuns(rest, k);
    assert (Project(rest, k) + [p])[..|Project(rest, k)|] == Project(rest, k);
    assert (rest + [p])[..|rest|] == rest;
  }

  /** Each projection of a linearizable history is linearizable. */
  lemma KeyHasLinearization(history: seq<Event>, k: Key)
    requires HasLinearization(history)
    ensures HasLinearization(OnKey(history, k))
  {
    var order: seq<Placement> :| Linearizes(history, order);
    ProjectEvents(order, k);
    OnKeySame(EventsOf(order), history, k);
    ProjectRealTime(order, k);
    ProjectRuns(order, k);
    assert Linearizes(OnKey(history, k), Project(order, k));
  }

  // ---- merging --------------------------------------------------------------------------------

  /** The latest invocation in an order: an instant inside the window of its last operation. */
  function Latest(order: seq<Placement>): nat {
    if order == [] then 0 else Max(Latest(order[..|order| - 1]), order[|order| - 1].e.invoked)
  }

  lemma {:induction false} LatestBounds(order: seq<Placement>)
    ensures forall p :: p in order ==> p.e.invoked <= Latest(order)
  {
    if order != [] { LatestBounds(order[..|order| - 1]); }
  }

  lemma {:induction false} LatestAtMost(order: seq<Placement>, t: nat)
    requires forall p :: p in order ==> p.e.invoked <= t
    ensures Latest(order) <= t
  {
    if order != [] { LatestAtMost(order[..|order| - 1], t); }
  }

  /** Interleave two orders by the instants their operations can take effect at. */
  function Merge(a: seq<Placement>, b: seq<Placement>): seq<Placement>
    decreases |a| + |b|
  {
    if a == [] then b
    else if b == [] then a
    else if Latest(a) >= Latest(b) then Merge(a[..|a| - 1], b) + [a[|a| - 1]]
    else Merge(a, b[..|b| - 1]) + [b[|b| - 1]]
  }

  /** How often an order places an event. */
  function Times(order: seq<Placement>, x: Event): nat {
    if order == [] then 0 else Times(order[..|order| - 1], x) + if order[|order| - 1].e == x then 1 else 0
  }

  lemma {:induction false} TimesCounts(order: seq<Placement>, x: Event)
    ensures multiset(EventsOf(order))[x] == Times(order, x)
  {
    if order != [] { TimesCounts(order[..|order| - 1], x); }
  }

  lemma TimesOn(m: seq<Placement>, p: Placement, x: Event)
    ensures Times(m + [p], x) == Times(m, x) + if p.e == x then 1 else 0
  {
    assert (m + [p])[..|m|] == m;
  }

  lemma {:induction false} MergeTimes(a: seq<Placement>, b: seq<Placement>, x: Event)
    ensures Times(Merge(a, b), x) == Times(a, x) + Times(b, x)
    decreases |a| + |b|
  {
    if a != [] && b != [] {
      if Latest(a) >= Latest(b) {
        MergeTimes(a[..|a| - 1], b, x);
        TimesOn(Merge(a[..|a| - 1], b), a[|a| - 1], x);
      } else {
        MergeTimes(a, b[..|b| - 1], x);
        TimesOn(Merge(a, b[..|b| - 1]), b[|b| - 1], x);
      }
    }
  }

  lemma MergeEvents(a: seq<Placement>, b: seq<Placement>)
    ensures multiset(EventsOf(Merge(a, b))) == multiset(EventsOf(a)) + multiset(EventsOf(b))
  {
    hide EventsOf, Merge, Times;
    forall x: Event
      ensures multiset(EventsOf(Merge(a, b)))[x] == multiset(EventsOf(a))[x] + multiset(EventsOf(b))[x]
    {
      MergeTimes(a, b, x);
      TimesCounts(Merge(a, b), x);
      TimesCounts(a, x);
      TimesCounts(b, x);
    }
  }

  lemma {:induction false} MergeFrom(a: seq<Placement>, b: seq<Placement>)
    ensures forall p :: p in Merge(a, b) ==> p in a || p in b
    decreases |a| + |b|
  {
    if a != [] && b != [] {
      if Latest(a) >= Latest(b) {
        MergeFrom(a[..|a| - 1], b);
      } else {
        MergeFrom(a, b[..|b| - 1]);
      }
    }
  }

  /** The operation placed last has not returned before the latest invocation of either order. */
  lemma LastIsOpen(a: seq<Placement>, b: seq<Placement>)
    requires a != [] && RealTime(a) && a[|a| - 1].e.invoked <= a[|a| - 1].e.returned && Latest(a) >= Latest(b)
    ensures forall p :: p in a || p in b ==> p.e.invoked <= a[|a| - 1].e.returned
  {
    var rest, last := a[..|a| - 1], a[|a| - 1];
    assert forall p :: p in a ==> p in rest || p == last;
    LatestAtMost(a, last.e.returned);
    LatestBounds(b);
  }

  lemma Opened(m: seq<Placement>, p: Placement)
    requires RealTime(m) && forall q :: q in m ==> q.e.invoked <= p.e.returned
    ensures RealTime(m + [p])
  {
    assert (m + [p])[..|m|] == m;
  }

  lemma {:induction false} MergeRealTime(a: seq<Placement>, b: seq<Placement>)
    requires RealTime(a) && RealTime(b) && forall p :: p in a || p in b ==> p.e.invoked <= p.e.returned
    ensures RealTime(Merge(a, b))
    decreases |a| + |b|
  {
    if a != [] && b != [] {
      if Latest(a) >= Latest(b) {
        MergeRealTime(a[..|a| - 1], b);
        MergeFrom(a[..|a| - 1], b);
        LastIsOpen(a, b);
        Opened(Merge(a[..|a| - 1], b), a[|a| - 1]);
      } else {
        MergeRealTime(a, b[..|b| - 1]);
        MergeFrom(a, b[..|b| - 1]);
        LastIsOpen(b, a);
        Opened(Merge(a, b[..|b| - 1]), b[|b| - 1]);
      }
    }
  }

  ghost predicate Avoids(order: seq<Placement>, k: Key) {
    forall p :: p in order ==> p.e.op.key != k
  }

  lemma {:induction false} ProjectNothing(order: seq<Placement>, k: Key)
    requires Avoids(order, k)
    ensures Project(order, k) == []
  {
    if order != [] { ProjectNothing(order[..|order| - 1], k); }
  }

  /** Merging in operations on other keys leaves the projection alone. */
  lemma {:induction false} MergeProjects(a: seq<Placement>, b: seq<Placement>, k: Key)
    ensures Avoids(b, k) ==> Project(Merge(a, b), k) == Project(a, k)
    ensures Avoids(a, k) ==> Project(Merge(a, b), k) == Project(b, k)
    decreases |a| + |b|
  {
    if a == [] {
      if Avoids(b, k) { ProjectNothing(b, k); }
    } else if b == [] {
      if Avoids(a, k) { ProjectNothing(a, k); }
    } else if Latest(a) >= Latest(b) {
      var rest, p := a[..|a| - 1], a[|a| - 1];
      MergeProjects(rest, b, k);
      ProjectOn(Merge(rest, b), p, k);
    } else {
      var rest, p := b[..|b| - 1], b[|b| - 1];
      MergeProjects(a, rest, k);
      ProjectOn(Merge(a, rest), p, k);
    }
  }

  // ---- the composition theorem ---------------------------------------------------------------------

  /** The events on any of a set of keys. */
  function OnKeys(s: seq<Event>, keys: set<Key>): seq<Event> {
    if s == [] then []
    else
      var rest := OnKeys(s[..|s| - 1], keys);
      if s[|s| - 1].op.key in keys then rest + [s[|s| - 1]] else rest
  }

  lemma {:induction false} OnKeysSplit(s: seq<Event>, keys: set<Key>, k: Key)
    requires k !in keys
    ensures multiset(OnKeys(s, keys + {k})) == multiset(OnKeys(s, keys)) + multiset(OnKey(s, k))
  {
    if s != [] { OnKeysSplit(s[..|s| - 1], keys, k); }
  }

  lemma {:induction false} OnAllKeys(s: seq<Event>, keys: set<Key>)
    requires forall e :: e in s ==> e.op.key in keys
    ensures OnKeys(s, keys) == s
  {
    if s != [] { OnAllKeys(s[..|s| - 1], keys); }
  }

  lemma {:induction false} OnKeysFrom(s: seq<Event>, keys: set<Key>)
    ensures forall e :: e in OnKeys(s, keys) ==> e in s && e.op.key in keys
  {
    if s != [] { OnKeysFrom(s[..|s| - 1], keys); }
  }

  lemma {:induction false} OnKeyFrom(s: seq<Event>, k: Key)
    ensures forall e :: e in OnKey(s, k) ==> e in s && e.op.key == k
  {
    if s != [] { OnKeyFrom(s[..|s| - 1], k); }
  }

  lemma {:induction false} PlacedEvent(order: seq<Placement>, p: Placement)
    requires p in order
    ensures p.e in EventsOf(order)
  {
    if p != order[|order| - 1] { PlacedEvent(order[..|order| - 1], p); }
  }

  /** What a linearization of some events places are those events. */
  lemma PlacesOnly(history: seq<Event>, order: seq<Placement>, p: Placement)
    requires multiset(EventsOf(order)) == multiset(history) && p in order
    ensures p.e in history
  {
    PlacedEvent(order, p);
    assert p.e in multiset(EventsOf(order));
  }

  lemma NoEvents(history: seq<Event>)
    ensures OnKeys(history, {}) == [] && Linearizes([], [])
  {
    OnKeysFrom(history, {});
  }

  /** Linearizations key by key combine into one. */
  lemma {:induction false} CombineKeys(history: seq<Event>, keys: set<Key>) returns (order: seq<Placement>)
    requires Windows(history) && forall k :: k in keys ==> HasLinearization(OnKey(history, k))
    ensures multiset(EventsOf(order)) == multiset(OnKeys(history, keys)) && RealTime(order)
    ensures forall k :: Run(Project(order, k)).Some?
    decreases keys
  {
    if keys == {} {
      NoEvents(history);
      order := [];
    } else {
      var k :| k in keys;
      var rest := keys - {k};
      var a := CombineKeys(history, rest);
      var b :| Linearizes(OnKey(history, k), b);
      order := Merge(a, b);
      OnKeysSplit(history, rest, k);
      assert rest + {k} == keys;
      MergeEvents(a, b);
      MergedSides(history, rest, k, a, b);
      MergeRealTime(a, b);
      forall j
        ensures Run(Project(order, j)).Some?
      {
        MergeProjects(a, b, j);
        ProjectRuns(b, j);
      }
    }
  }

  lemma MergedSides(history: seq<Event>, rest: set<Key>, k: Key, a: seq<Placement>, b: seq<Placement>)
    requires Windows(history) && k !in rest
    requires multiset(EventsOf(a)) == multiset(OnKeys(history, rest))
    requires multiset(EventsOf(b)) == multiset(OnKey(history, k))
    ensures Avoids(a, k) && (forall j :: j != k ==> Avoids(b, j))
    ensures forall p :: p in a || p in b ==> p.e.invoked <= p.e.returned
  {
    OnKeysFrom(history, rest);
    OnKeyFrom(history, k);
    forall p | p in a
      ensures p.e in OnKeys(history, rest)
    {
      PlacesOnly(OnKeys(history, rest), a, p);
    }
    forall p | p in b
      ensures p.e in OnKey(history, k)
    {
      PlacesOnly(OnKey(history, k), b, p);
    }
  }

  /** Per-key decomposition is sound and complete: a history has a linearization exactly when its
      projection on every key has one. */
  lemma PerKey(history: seq<Event>)
    requires Windows(history)
    ensures HasLinearization(history) <==> forall k :: k in KeysOf(history) ==> HasLinearization(OnKey(history, k))
  {
    if HasLinearization(history) {
      forall k | k in KeysOf(history)
        ensures HasLinearization(OnKey(history, k))
      {
        KeyHasLinearization(history, k);
      }
    }
    if forall k :: k in KeysOf(history) ==> HasLinearization(OnKey(history, k)) {
      var order := CombineKeys(history, KeysOf(history));
      OnAllKeys(history, KeysOf(history));
      KeysApart(order);
      assert Linearizes(history, order);
    }
  }

  // ---- a real-time order is never called a violation --------------------------------------------

  /** How often an event is among the first `k` and not placed yet. */
  ghost function Left(events: seq<Event>, placed: set<nat>, k: nat, x: Event): nat
    requires k <= |events|
  {
    if k == 0 then 0
    else Left(events, placed, k - 1, x) + if k - 1 !in placed && events[k - 1] == x then 1 else 0
  }

  lemma {:induction false} LeftHas(events: seq<Event>, placed: set<nat>, k: nat, i: nat)
    requires i < k <= |events| && i !in placed
    ensures Left(events, placed, k, events[i]) > 0
  {
    if i < k - 1 { LeftHas(events, placed, k - 1, i); }
  }

  lemma {:induction false} LeftFinds(events: seq<Event>, placed: set<nat>, k: nat, x: Event) returns (i: nat)
    requires k <= |events| && Left(events, placed, k, x) > 0
    ensures i < k && i !in placed && events[i] == x
  {
    if k - 1 !in placed && events[k - 1] == x {
      i := k - 1;
    } else {
      i := LeftFinds(events, placed, k - 1, x);
    }
  }

  lemma {:induction false} LeftWithout(events: seq<Event>, placed: set<nat>, k: nat, i: nat, x: Event)
    requires k <= |events| && i !in placed
    ensures Left(events, placed, k, x) == Left(events, placed + {i}, k, x) + if i < k && events[i] == x then 1 else 0
  {
    if k > 0 { LeftWithout(events, placed, k - 1, i, x); }
  }

  lemma {:induction false} LeftAll(events: seq<Event>, k: nat, x: Event)
    requires k <= |events|
    ensures Left(events, {}, k, x) == multiset(events[..k])[x]
  {
    if k > 0 {
      LeftAll(events, k - 1, x);
      assert events[..k] == events[..k - 1] + [events[k - 1]];
    }
  }

  /** Exactly the operations of an order from `m` on are not placed yet. */
  ghost predicate ToCome(events: seq<Event>, placed: set<nat>, order: seq<Placement>, m: nat) {
    m <= |order| && forall x :: Left(events, placed, |events|, x) == Times(order[m..], x)
  }

  lemma {:induction false} InOrder(order: seq<Placement>, m: nat, p: Placement)
    requires RealTime(order) && m < |order| && p in order[m..] && order[m].e.invoked <= order[m].e.returned
    ensures order[m].e.invoked <= p.e.returned
  {
    var k := |order| - 1;
    if m < k {
      assert order[m] == order[..k][m] && order[m] in order[..k];
      if p != order[k] {
        assert order[m..] == order[..k][m..] + [order[k]];
        InOrder(order[..k], m, p);
      }
    }
  }

  lemma {:induction false} RunPrefix(order: seq<Placement>, m: nat)
    requires m <= |order| && Run(order).Some?
    ensures Run(order[..m]).Some?
  {
    if m < |order| {
      RunPrefix(order[..|order| - 1], m);
      assert order[..|order| - 1][..m] == order[..m];
    } else {
      assert order[..m] == order;
    }
  }

  lemma {:induction false} TimesFirst(order: seq<Placement>, x: Event)
    requires order != []
    ensures Times(order, x) == (if order[0].e == x then 1 else 0) + Times(order[1..], x)
  {
    var k := |order| - 1;
    if k > 0 {
      TimesFirst(order[..k], x);
      assert order[1..][..k - 1] == order[..k][1..];
    }
  }

  lemma {:induction false} EventPlaced(order: seq<Placement>, x: Event) returns (p: Placement)
    requires Times(order, x) > 0
    ensures p in order && p.e == x
  {
    var k := |order| - 1;
    if order[k].e == x {
      p := order[k];
    } else {
      p := EventPlaced(order[..k], x);
    }
  }

  /** The next operation of a real-time order is one the search allows. */
  lemma NextAllowed(events: seq<Event>, order: seq<Placement>, m: nat, placed: set<nat>) returns (i: nat)
    requires RealTime(order) && m < |order| && (forall p :: p in order ==> p.e.invoked <= p.e.returned)
    requires ToCome(events, placed, order, m)
    ensures Allowed(events, placed, i) && events[i] == order[m].e
  {
    TimesFirst(order[m..], order[m].e);
    i := LeftFinds(events, placed, |events|, order[m].e);
    var low := LowestFrom(|events|, placed, 0);
    LeftHas(events, placed, |events|, low);
    var p := EventPlaced(order[m..], events[low]);
    InOrder(order, m, p);
  }

  /** Following an order, the search keeps exactly the operations still to come unplaced. */
  ghost predicate Along(events: seq<Event>, order: seq<Placement>, m: nat, choices: seq<Choice>, placed: set<nat>,
                        k: Key) {
    && ToCome(events, placed, order, m) && Run(order[..m]).Some?
    && Leads(events, None, {}, choices, ValueAt(Run(order[..m]).value, k), placed)
  }

  lemma StillToCome(events: seq<Event>, placed: set<nat>, order: seq<Placement>, m: nat, i: nat)
    requires ToCome(events, placed, order, m) && m < |order| && i < |events| && i !in placed && events[i] == order[m].e
    ensures ToCome(events, placed + {i}, order, m + 1)
  {
    forall x
      ensures Left(events, placed + {i}, |events|, x) == Times(order[m + 1..], x)
    {
      LeftWithout(events, placed, |events|, i, x);
      TimesFirst(order[m..], x);
      assert order[m..][1..] == order[m + 1..];
    }
  }

  lemma RunStep(order: seq<Placement>, m: nat, k: Key)
    requires m < |order| && Run(order).Some? && order[m].e.op.key == k
    ensures Run(order[..m]).Some? && Run(order[..m + 1]).Some?
    ensures Outcome(ValueAt(Run(order[..m]).value, k), order[m].e, order[m].applied)
         == Some(ValueAt(Run(order[..m + 1]).value, k))
  {
    RunPrefix(order, m + 1);
    assert order[..m + 1][..m] == order[..m];
  }

  lemma AlongStep(events: seq<Event>, order: seq<Placement>, m: nat, choices: seq<Choice>, placed: set<nat>, k: Key)
    returns (choices': seq<Choice>, placed': set<nat>)
    requires Along(events, order, m, choices, placed, k) && m < |order|
    requires RealTime(order) && Run(order).Some?
    requires (forall p :: p in order ==> p.e.invoked <= p.e.returned && p.e.op.key == k)
    ensures Along(events, order, m + 1, choices', placed', k)
  {
    hide Leads, RealTime, Allowed, Run, ToCome;
    var i := NextAllowed(events, order, m, placed);
    StillToCome(events, placed, order, m, i);
    RunStep(order, m, k);
    var c := Choice(i, order[m].applied);
    choices', placed' := choices + [c], placed + {i};
    LeadsOn(events, None, {}, choices, ValueAt(Run(order[..m]).value, k), placed, c,
            ValueAt(Run(order[..m + 1]).value, k));
  }

  lemma AtFirst(events: seq<Event>, order: seq<Placement>)
    requires multiset(EventsOf(order)) == multiset(events)
    ensures ToCome(events, {}, order, 0)
  {
    forall x
      ensures Left(events, {}, |events|, x) == Times(order[0..], x)
    {
      LeftAll(events, |events|, x);
      TimesCounts(order, x);
      assert events[..|events|] == events && order[0..] == order;
    }
  }

  lemma AtLast(events: seq<Event>, placed: set<nat>, order: seq<Placement>)
    requires ToCome(events, placed, order, |order|)
    ensures Complete(events, placed)
  {
    forall i | 0 <= i < |events|
      ensures i in placed
    {
      if i !in placed { LeftHas(events, placed, |events|, i); }
    }
  }

  /** A linearization of one key's operations is an order the search accepts. */
  lemma LinearizationIsOrder(history: seq<Event>, k: Key)
    requires Windows(history) && (forall e :: e in history ==> e.op.key == k) && HasLinearization(history)
    ensures Orderable(Sorted(history))
  {
    var events := Sorted(history);
    SortedSorts(history);
    var order: seq<Placement> :| Linearizes(history, order);
    forall p | p in order
      ensures p.e in history
    {
      PlacesOnly(history, order, p);
    }
    var m, choices: seq<Choice>, placed: set<nat> := 0, [], {};
    AtFirst(events, order);
    while m < |order|
      invariant m <= |order| && Along(events, order, m, choices, placed, k)
      decreases |order| - m
    {
      choices, placed := AlongStep(events, order, m, choices, placed, k);
      m := m + 1;
    }
    AtLast(events, placed, order);
  }

  /** The search, key by key. A violation means that no order of the whole history
      respects real time and explains the results. */
  method Check(history: seq<Event>, maxStates: nat) returns (verdict: Verdict)
    ensures verdict.Linearizable? ==> forall k :: k in KeysOf(history) ==> Orderable(Sorted(OnKey(history, k)))
    ensures verdict.NotLinearizable? ==>
              exists k :: k in KeysOf(history) && !Orderable(Sorted(OnKey(history, k)))
                       && Explains(Sorted(OnKey(history, k)), verdict.violation)
    ensures verdict.NotLinearizable? && Windows(history) ==> !HasLinearization(history)
    ensures verdict.Inconclusive? ==>
              || verdict.explored > maxStates
              || exists k :: k in KeysOf(history) && WindowExceeded(Sorted(OnKey(history, k)))
  {
    var subs := ByKey(history);
    var todo := subs.Keys;
    while todo != {}
      invariant todo <= subs.Keys
      invariant forall k :: k in subs && k !in todo ==> Orderable(Sorted(OnKey(history, k)))
      decreases todo
    {
      hide Orderable, Explains, WindowExceeded, HasLinearization, Sorted, OnKey;
      var k :| k in todo;
      var one := CheckOneKey(subs[k], maxStates);
      SortedSorts(OnKey(history, k));
      SortedStays(Sorted(OnKey(history, k)));
      if !one.Linearizable? {
        if one.NotLinearizable? { ViolationIsReal(history, k); }
        return one;
      }
      todo := todo - {k};
    }
    verdict := Linearizable;
  }

  lemma ViolationIsReal(history: seq<Event>, k: Key)
    requires !Orderable(Sorted(OnKey(history, k)))
    ensures Windows(history) ==> !HasLinearization(history)
  {
    if Windows(history) && HasLinearization(history) {
      KeyHasLinearization(history, k);
      OnKeyFrom(history, k);
      LinearizationIsOrder(OnKey(history, k), k);
    }
  }
}
