/** Operations whose clients gave up. An unknown outcome may take effect long after the client stopped
    waiting, or never, but the checker confines it to the window that was recorded
    (crates/chrono-oracle/src/history.rs:66-83, crates/chrono-oracle/src/linearizability.rs:363-408).
    Here is exactly when that does no harm. */
module LinearGiveUp {
  import opened Types
  import opened ClientHistory
  import opened LinearSearch
  import opened LinearPerKey
  import opened LinearFrontier

  /** Operations placed in a given order, each with its effect. */
  function Applied(events: seq<Event>): (r: seq<Placement>)
    ensures |r| == |events| && forall i :: 0 <= i < |events| ==> r[i] == Placement(events[i], true)
  {
    seq(|events|, i requires 0 <= i < |events| => Placement(events[i], true))
  }

  lemma {:induction false} AppliedEvents(events: seq<Event>)
    ensures EventsOf(Applied(events)) == events
  {
    if events != [] {
      var n := |events| - 1;
      AppliedEvents(events[..n]);
      assert Applied(events)[..n] == Applied(events[..n]);
    }
  }

  /** Taking effect in this order explains every result. */
  ghost predicate Explained(events: seq<Event>) {
    Run(Applied(events)).Some?
  }

  // ---- an operation given up may be left out ---------------------------------------------------------

  ghost predicate SameValues(a: seq<Placement>, b: seq<Placement>) {
    Run(a).Some? && Run(b).Some? && forall k :: ValueAt(Run(a).value, k) == ValueAt(Run(b).value, k)
  }

  lemma RunOn(order: seq<Placement>, p: Placement)
    requires Run(order).Some?
    ensures var v := Outcome(ValueAt(Run(order).value, p.e.op.key), p.e, p.applied);
            Run(order + [p]) == if v.None? then None else Some(Run(order).value[p.e.op.key := v.value])
  {
    assert (order + [p])[..|order|] == order;
  }

  lemma UpdateSame(x: map<Key, Value>, y: map<Key, Value>, key: Key, v: Value, x': map<Key, Value>, y': map<Key, Value>)
    requires x' == x[key := v] && y' == y[key := v] && forall k :: ValueAt(x, k) == ValueAt(y, k)
    ensures forall k :: ValueAt(x', k) == ValueAt(y', k)
  {
    forall k
      ensures ValueAt(x', k) == ValueAt(y', k)
    {
      assert ValueAt(x, k) == ValueAt(y, k);
    }
  }

  lemma SameOn(a: seq<Placement>, b: seq<Placement>, p: Placement)
    requires SameValues(a, b) && Run(b + [p]).Some?
    ensures SameValues(a + [p], b + [p])
  {
    hide Run, ValueAt, Outcome;
    RunOn(a, p);
    RunOn(b, p);
    var key := p.e.op.key;
    var v := Outcome(ValueAt(Run(b).value, key), p.e, p.applied);
    assert ValueAt(Run(a).value, key) == ValueAt(Run(b).value, key);
    UpdateSame(Run(a).value, Run(b).value, key, v.value, Run(a + [p]).value, Run(b + [p]).value);
  }

  lemma SameWithout(a: seq<Placement>, e: Event)
    requires Run(a).Some? && e.ret.Unknown?
    ensures SameValues(a + [Placement(e, false)], a)
  {
    RunOn(a, Placement(e, false));
  }

  lemma RealTimeOn(order: seq<Placement>, p: Placement)
    ensures RealTime(order + [p]) <==> RealTime(order) && forall q :: q in order ==> q.e.invoked <= p.e.returned
  {
    assert (order + [p])[..|order|] == order;
  }

  lemma EventsOn(order: seq<Placement>, p: Placement)
    ensures EventsOf(order + [p]) == EventsOf(order) + [p.e]
  {
    assert (order + [p])[..|order|] == order;
  }

  /** It fits in somewhere, without its effect: before the first operation invoked after it was given up. */
  lemma {:induction false} InsertDiscarded(order: seq<Placement>, e: Event) returns (r: seq<Placement>)
    requires RealTime(order) && Run(order).Some? && e.ret.Unknown? && e.invoked <= e.returned
    requires forall p :: p in order ==> p.e.invoked <= p.e.returned
    ensures RealTime(r) && SameValues(r, order) && multiset(EventsOf(r)) == multiset(EventsOf(order)) + multiset{e}
    ensures forall p :: p in r ==> p in order || p == Placement(e, false)
    decreases |order|
  {
    hide Run, RealTime, EventsOf;
    var d := Placement(e, false);
    if forall p :: p in order ==> p.e.invoked <= e.returned {
      r := order + [d];
      SameWithout(order, e);
      RealTimeOn(order, d);
      EventsOn(order, d);
    } else {
      var init, last := order[..|order| - 1], order[|order| - 1];
      assert order == init + [last] && last in order;
      RunPrefix(order, |order| - 1);
      RealTimeOn(init, last);
      EventsOn(init, last);
      var r1 := InsertDiscarded(init, e);
      r := r1 + [last];
      SameOn(r1, init, last);
      EventsOn(r1, last);
      InTimeToo(init, r1, e, last, order);
      RealTimeOn(r1, last);
    }
  }

  lemma InTimeToo(init: seq<Placement>, r: seq<Placement>, e: Event, last: Placement, order: seq<Placement>)
    requires order == init + [last] && e.invoked <= e.returned && forall p :: p in order ==> p.e.invoked <= p.e.returned
    requires forall p :: p in init ==> p.e.invoked <= last.e.returned
    requires !forall p :: p in order ==> p.e.invoked <= e.returned
    requires forall p :: p in r ==> p in init || p == Placement(e, false)
    ensures forall p :: p in r ==> p.e.invoked <= last.e.returned
  {
    var q :| q in order && q.e.invoked > e.returned;
    assert last in order;
    if q != last {
      assert q in init;
    }
  }

  /** An operation that was given up never makes a history worse. */
  lemma DiscardOne(history: seq<Event>, e: Event)
    requires HasLinearization(history) && Windows(history) && e.ret.Unknown? && e.invoked <= e.returned
    ensures HasLinearization(history + [e])
  {
    var order: seq<Placement> :| Linearizes(history, order);
    forall p | p in order
      ensures p.e.invoked <= p.e.returned
    {
      PlacesOnly(history, order, p);
    }
    var r := InsertDiscarded(order, e);
    assert Linearizes(history + [e], r);
  }

  lemma {:induction false} DiscardAll(history: seq<Event>, lost: seq<Event>)
    requires HasLinearization(history) && Windows(history + lost) && forall e :: e in lost ==> e.ret.Unknown?
    ensures HasLinearization(history + lost)
    decreases |lost|
  {
    hide HasLinearization;
    if lost == [] {
      assert history + lost == history;
    } else {
      var n := |lost| - 1;
      assert forall e :: e in history + lost[..n] ==> e in history + lost;
      assert lost[n] in history + lost;
      DiscardAll(history, lost[..n]);
      DiscardOne(history + lost[..n], lost[n]);
      assert history + lost == (history + lost[..n]) + [lost[n]];
    }
  }

  // ---- the condition --------------------------------------------------------------------------------

  /** Of operations in the order they took effect: none that was given up did so after the effect of one
      invoked later than that, unless only others given up came after. */
  ghost predicate Punctual(times: seq<Event>, abandoned: set<nat>) {
    forall i, j, r: nat :: 0 <= i < j <= r < |times| && r !in abandoned ==> times[i].invoked <= times[j].returned
  }

  /** How many operations there are up to the last that was not given up. */
  lemma {:induction false} LastAnswered(abandoned: set<nat>, n: nat) returns (m: nat)
    ensures m <= n && (m > 0 ==> m - 1 !in abandoned) && forall i: nat :: m <= i < n ==> i in abandoned
  {
    if n == 0 || n - 1 !in abandoned {
      m := n;
    } else {
      m := LastAnswered(abandoned, n - 1);
    }
  }

  ghost predicate GivenUp(events: seq<Event>, abandoned: set<nat>) {
    forall i :: 0 <= i < |events| && i in abandoned ==> events[i].ret.Unknown?
  }

  /** Every operation whose outcome is unknown was given up. */
  ghost function Abandoned(events: seq<Event>): (r: set<nat>)
    ensures forall i: nat :: i in r <==> i < |events| && events[i].ret.Unknown?
  {
    set i: nat | i < |events| && events[i].ret.Unknown?
  }

  lemma AbandonedGivenUp(events: seq<Event>)
    ensures GivenUp(events, Abandoned(events))
  {
  }

  ghost predicate InTime(events: seq<Event>) {
    forall i, j :: 0 <= i < j < |events| ==> events[i].invoked <= events[j].returned
  }

  lemma {:induction false} PrefixInTime(events: seq<Event>)
    requires InTime(events)
    ensures RealTime(Applied(events))
  {
    if events != [] {
      var n := |events| - 1;
      PrefixInTime(events[..n]);
      assert Applied(events)[..n] == Applied(events[..n]);
    }
  }

  lemma InTimeIsLinearizable(events: seq<Event>)
    requires InTime(events)
    requires Explained(events)
    ensures HasLinearization(events)
  {
    PrefixInTime(events);
    AppliedEvents(events);
    assert Linearizes(events, Applied(events));
  }

  lemma ExplainedUpTo(events: seq<Event>, m: nat)
    requires Explained(events) && m <= |events|
    ensures Explained(events[..m])
  {
    RunPrefix(Applied(events), m);
    assert Applied(events)[..m] == Applied(events[..m]);
  }

  /** If it holds, what was recorded is linearizable, whatever it was. */
  lemma PunctualIsLinearizable(events: seq<Event>, abandoned: set<nat>)
    requires Windows(events) && GivenUp(events, abandoned) && Punctual(events, abandoned) && Explained(events)
    ensures HasLinearization(events)
  {
    hide *;
    var m := LastAnswered(abandoned, |events|);
    InTimeUpTo(events, abandoned, m);
    ExplainedUpTo(events, m);
    InTimeIsLinearizable(events[..m]);
    LostUnknown(events, abandoned, m);
    assert events == events[..m] + events[m..];
    DiscardAll(events[..m], events[m..]);
  }

  lemma InTimeUpTo(events: seq<Event>, abandoned: set<nat>, m: nat)
    requires m <= |events| && (m > 0 ==> m - 1 !in abandoned) && Punctual(events, abandoned)
    ensures InTime(events[..m])
  {
    forall i, j | 0 <= i < j < m
      ensures events[i].invoked <= events[j].returned
    {
      assert m - 1 !in abandoned;
    }
  }

  lemma LostUnknown(events: seq<Event>, abandoned: set<nat>, m: nat)
    requires m <= |events| && GivenUp(events, abandoned) && forall i: nat :: m <= i < |events| ==> i in abandoned
    ensures forall e :: e in events[m..] ==> e.ret.Unknown?
  {
  }

  // ---- it is needed ----------------------------------------------------------------------------------

  const ONE: Value := Some([1])
  const TWO: Value := Some([2])

  /** What operation `x` swaps for what: `i` puts in a value, `j` replaces it by another, and all others put
      in the other value where it already is. */
  function Wanted(i: nat, j: nat, x: nat): Value {
    if x == i then None else if x == j then ONE else TWO
  }

  function Swap(i: nat, j: nat, x: nat): Value {
    if x == i then ONE else TWO
  }

  /** Those up to `j` fail, except for `i`. */
  ghost function Unlucky(times: seq<Event>, abandoned: set<nat>, i: nat, j: nat): (r: seq<Event>)
    ensures |r| == |times|
  {
    seq(|times|, x requires 0 <= x < |times| =>
      times[x].(op := Cas([], Wanted(i, j, x), Swap(i, j, x)),
                ret := if x in abandoned then Unknown else if x == i || x > j then Done else CasFailed))
  }

  lemma {:induction false} UnluckyRuns(times: seq<Event>, abandoned: set<nat>, i: nat, j: nat, n: nat)
    requires i < j < |times| && j in abandoned && n <= |times|
    ensures var order := Applied(Unlucky(times, abandoned, i, j))[..n];
            Run(order).Some? && ValueAt(Run(order).value, []) == if n <= i then None else if n <= j then ONE else TWO
  {
    var all := Applied(Unlucky(times, abandoned, i, j));
    if n > 0 {
      UnluckyRuns(times, abandoned, i, j, n - 1);
      assert all[..n][..n - 1] == all[..n - 1] && all[..n][n - 1] == all[n - 1];
    }
  }

  /** The operations that may occur in an order of that history. */
  ghost predicate SwapsOnly(order: seq<Placement>, a: Event, b: Event) {
    forall p :: p in order ==> p.e == a || p.e == b || p.e.op == Cas([], TWO, TWO)
  }

  /** With `b` never behind `a`, the second value is never swapped in. */
  lemma {:induction false} NeverTwo(order: seq<Placement>, a: Event, b: Event)
    requires SwapsOnly(order, a, b) && RealTime(order) && b.returned < a.invoked
    requires a.op == Cas([], None, ONE) && b.op == Cas([], ONE, TWO) && b.ret == Unknown
    ensures Run(order).Some? ==> ValueAt(Run(order).value, []) in {None, ONE}
    ensures Run(order).Some? && (forall p :: p in order ==> p.e != a) ==> ValueAt(Run(order).value, []) == None
  {
    if order != [] {
      var n := |order| - 1;
      assert order[n] in order && forall p :: p in order[..n] ==> p in order;
      NeverTwo(order[..n], a, b);
    }
  }

  lemma FewerSwap(order: seq<Placement>, a: Event, b: Event, z: nat)
    requires SwapsOnly(order, a, b) && z <= |order|
    ensures SwapsOnly(order[..z], a, b)
  {
  }

  lemma TwoUnseen(before: seq<Placement>, p: Placement)
    requires Run(before).Some? ==> ValueAt(Run(before).value, []) in {None, ONE}
    requires p.e.op == Cas([], TWO, TWO) && p.e.ret == Done
    ensures Run(before + [p]).None?
  {
    assert (before + [p])[..|before|] == before;
  }

  lemma UnluckyStuck(order: seq<Placement>, a: Event, b: Event, r: Event)
    requires SwapsOnly(order, a, b) && RealTime(order) && b.returned < a.invoked
    requires a.op == Cas([], None, ONE) && b.op == Cas([], ONE, TWO) && b.ret == Unknown
    requires r in EventsOf(order) && r.op == Cas([], TWO, TWO) && r.ret == Done
    ensures Run(order).None?
  {
    hide *;
    var z := PositionOf(order, r);
    RealTimePrefix(order, z);
    FewerSwap(order, a, b, z);
    NeverTwo(order[..z], a, b);
    TwoUnseen(order[..z], order[z]);
    assert order[..z + 1] == order[..z] + [order[z]];
    StuckStays(order, z + 1);
  }

  lemma {:induction false} RealTimePrefix(order: seq<Placement>, z: nat)
    requires RealTime(order) && z <= |order|
    ensures RealTime(order[..z])
  {
    if z < |order| {
      var n := |order| - 1;
      RealTimePrefix(order[..n], z);
      assert order[..n][..z] == order[..z];
    } else {
      assert order[..z] == order;
    }
  }

  lemma UnluckyFails(times: seq<Event>, abandoned: set<nat>, i: nat, j: nat, r: nat, order: seq<Placement>)
    requires i < j < r < |times| && j in abandoned && r !in abandoned && times[j].returned < times[i].invoked
    ensures !Linearizes(Unlucky(times, abandoned, i, j), order)
  {
    hide RealTime, Run;
    var events := Unlucky(times, abandoned, i, j);
    if multiset(EventsOf(order)) == multiset(events) && RealTime(order) {
      forall p | p in order
        ensures p.e == events[i] || p.e == events[j] || p.e.op == Cas([], TWO, TWO)
      {
        PlacesOnly(events, order, p);
      }
      assert events[r] in events && events[r] in multiset(EventsOf(order));
      UnluckyStuck(order, events[i], events[j], events[r]);
    }
  }

  lemma NotPunctual(times: seq<Event>, abandoned: set<nat>, i: nat, j: nat, r: nat)
    requires i < j < r < |times| && j in abandoned && r !in abandoned && times[j].returned < times[i].invoked
    ensures exists events ::
              SameTimes(times, events) && GivenUp(events, abandoned) && Explained(events) && !HasLinearization(events)
              && AllOn(events, [])
  {
    hide Run, Linearizes;
    var events := Unlucky(times, abandoned, i, j);
    UnluckyRuns(times, abandoned, i, j, |times|);
    assert Applied(events)[..|times|] == Applied(events);
    forall order
      ensures !Linearizes(events, order)
    {
      UnluckyFails(times, abandoned, i, j, r, order);
    }
    assert SameTimes(times, events) && GivenUp(events, abandoned) && Explained(events) && !HasLinearization(events);
    assert AllOn(events, []);
  }

  ghost predicate Harmless(times: seq<Event>, abandoned: set<nat>) {
    forall events ::
      SameTimes(times, events) && GivenUp(events, abandoned) && Explained(events) ==> HasLinearization(events)
  }

  /** What was not given up took effect within its window. */
  ghost predicate OthersInTime(times: seq<Event>, abandoned: set<nat>) {
    forall i, j: nat :: 0 <= i < j < |times| && j !in abandoned ==> times[i].invoked <= times[j].returned
  }

  /** The exact condition. Take the windows of operations in the order they took effect, those answered
      doing so within their windows. Whatever was asked and answered, what was recorded is
      linearizable, if and only if those given up were punctual. */
  lemma GiveUpCondition(times: seq<Event>, abandoned: set<nat>)
    requires Windows(times) && OthersInTime(times, abandoned)
    ensures Punctual(times, abandoned) <==> Harmless(times, abandoned)
  {
    hide HasLinearization, Explained, Punctual, SameTimes, GivenUp;
    if Punctual(times, abandoned) {
      forall events | SameTimes(times, events) && GivenUp(events, abandoned) && Explained(events)
        ensures HasLinearization(events)
      {
        StillPunctual(times, events, abandoned);
        PunctualIsLinearizable(events, abandoned);
      }
    } else {
      var i, j, r := TooLate(times, abandoned);
      NotPunctual(times, abandoned, i, j, r);
    }
  }

  lemma StillPunctual(times: seq<Event>, events: seq<Event>, abandoned: set<nat>)
    requires SameTimes(times, events) && Windows(times) && Punctual(times, abandoned)
    ensures Windows(events) && Punctual(events, abandoned)
  {
    forall e: Event | e in events
      ensures e.invoked <= e.returned
    {
      var i :| 0 <= i < |events| && events[i] == e;
      assert times[i] in times;
    }
  }

  lemma TooLate(times: seq<Event>, abandoned: set<nat>) returns (i: nat, j: nat, r: nat)
    requires !Punctual(times, abandoned) && OthersInTime(times, abandoned)
    ensures i < j < r < |times| && r !in abandoned && j in abandoned && times[i].invoked > times[j].returned
  {
    i, j, r :| i < j <= r < |times| && r !in abandoned && times[i].invoked > times[j].returned;
  }

  // ---- and what the checker makes of it ------------------------------------------------------------------

  /** The search passes every key. */
  ghost predicate Passes(events: seq<Event>) {
    forall k :: k in KeysOf(events) ==> Orderable(Sorted(OnKey(events, k)))
  }

  ghost predicate NeverAccused(times: seq<Event>, abandoned: set<nat>) {
    forall events :: SameTimes(times, events) && GivenUp(events, abandoned) && Explained(events) ==> Passes(events)
  }

  lemma {:induction false} SameTimesInsert(e: Event, e': Event, s: seq<Event>, s': seq<Event>)
    requires SameTimes([e], [e']) && SameTimes(s, s')
    ensures SameTimes(Insert(e, s), Insert(e', s'))
  {
    assert SameTimes([e], [e']) ==> e.client == e'.client && e.invoked == e'.invoked && e.returned == e'.returned by {
      assert [e][0] == e && [e'][0] == e';
    }
    if s != [] {
      assert SameTimes(s[1..], s'[1..]);
      SameTimesInsert(e, e', s[1..], s'[1..]);
    }
  }

  lemma {:induction false} SameTimesSorted(times: seq<Event>, events: seq<Event>)
    requires SameTimes(times, events)
    ensures SameTimes(Sorted(times), Sorted(events))
  {
    if times != [] {
      var n := |times| - 1;
      SameTimesSorted(times[..n], events[..n]);
      SameTimesInsert(times[n], events[n], Sorted(times[..n]), Sorted(events[..n]));
    }
  }

  /** On one key, with nothing spanned, the search passes only what is linearizable. */
  lemma PassedIsLinearizable(times: seq<Event>, events: seq<Event>)
    requires SameTimes(times, events) && Windows(times) && !Spanned(Sorted(times)) && AllOn(events, [])
    requires Passes(events)
    ensures HasLinearization(events)
  {
    hide Orderable, HasLinearization, Spanned, Sorted;
    OnlyKey(events);
    SortedSorts(times);
    SortedSorts(events);
    SameTimesSorted(times, events);
    SortedFromEvents(times);
    SortedFromEvents(events);
    assert AllOn(Sorted(events), []);
    RightWhenUnspanned(Sorted(times), Sorted(events));
    SameLinearization(Sorted(events), events);
  }

  lemma SortedFromEvents(events: seq<Event>)
    ensures forall e :: e in Sorted(events) ==> e in events
  {
    SortedSorts(events);
    forall e | e in Sorted(events)
      ensures e in events
    {
      assert e in multiset(Sorted(events));
    }
  }

  lemma OnlyKey(events: seq<Event>)
    requires AllOn(events, []) && Passes(events)
    ensures Orderable(Sorted(events))
  {
    OnlyOnKey(events);
    if events == [] {
      assert Leads(events, None, {}, [], None, {});
    } else {
      assert events[0] in events && [] in KeysOf(events);
    }
  }

  lemma {:induction false} OnlyOnKey(events: seq<Event>)
    requires AllOn(events, [])
    ensures OnKey(events, []) == events
  {
    if events != [] {
      var n := |events| - 1;
      assert events[n] in events;
      OnlyOnKey(events[..n]);
    }
  }

  lemma SameLinearization(a: seq<Event>, b: seq<Event>)
    requires multiset(a) == multiset(b) && HasLinearization(a)
    ensures HasLinearization(b)
  {
    hide RealTime, Run, EventsOf;
    var order: seq<Placement> :| Linearizes(a, order);
    assert Linearizes(b, order);
  }

  /** The exact condition for the checker, where its frontier rule is exact: it accuses none of what may
      be recorded with these windows if and only if those given up were punctual. */
  lemma AccusationCondition(times: seq<Event>, abandoned: set<nat>)
    requires Windows(times) && OthersInTime(times, abandoned) && !Spanned(Sorted(times))
    ensures Punctual(times, abandoned) <==> NeverAccused(times, abandoned)
  {
    hide HasLinearization, Explained, Punctual, SameTimes, GivenUp, Passes, Spanned;
    if Punctual(times, abandoned) {
      GiveUpCondition(times, abandoned);
      forall events | SameTimes(times, events) && GivenUp(events, abandoned) && Explained(events)
        ensures Passes(events)
      {
        StillPunctual(times, events, abandoned);
        LinearizablePasses(events);
      }
    } else {
      var i, j, r := TooLate(times, abandoned);
      NotPunctual(times, abandoned, i, j, r);
      var events :| SameTimes(times, events) && GivenUp(events, abandoned) && Explained(events)
                    && !HasLinearization(events) && AllOn(events, []);
      if Passes(events) { PassedIsLinearizable(times, events); }
    }
  }

  lemma LinearizablePasses(events: seq<Event>)
    requires Windows(events) && HasLinearization(events)
    ensures Passes(events)
  {
    hide Orderable, HasLinearization;
    forall k | k in KeysOf(events)
      ensures Orderable(Sorted(OnKey(events, k)))
    {
      if !Orderable(Sorted(OnKey(events, k))) { ViolationIsReal(events, k); }
    }
  }

  // ---- the least of it ---------------------------------------------------------------------------------

  /** A write is given up; then one read finds nothing; then another finds what was written. */
  function WrittenLate(a: nat, b: nat, c: nat, d: nat, e: nat, f: nat): seq<Event> {
    [Event(1, Write([], [1]), Unknown, a, b), Event(2, Read([]), Observed(None), c, d),
     Event(2, Read([]), Observed(ONE), e, f)]
  }

  lemma {:induction false} NeverBoth(order: seq<Placement>, events: seq<Event>)
    requires |events| == 3 && forall p :: p in order ==> p.e in events
    requires events == WrittenLate(events[0].invoked, events[0].returned, events[1].invoked, events[1].returned,
                                   events[2].invoked, events[2].returned)
    requires events[0].returned < events[1].invoked && events[1].returned < events[2].invoked
    requires RealTime(order) && Run(order).Some?
    ensures (exists p :: p in order && p.e == events[1]) ==> ValueAt(Run(order).value, []) == None
    ensures !((exists p :: p in order && p.e == events[1]) && (exists p :: p in order && p.e == events[2]))
  {
    if order != [] {
      var n := |order| - 1;
      assert order[n] in order && forall p :: p in order[..n] ==> p in order;
      NeverBoth(order[..n], events);
      assert forall p :: p in order ==> p in order[..n] || p == order[n];
    }
  }

  /** The checker accuses every such history whose windows follow one another. */
  lemma WrittenLateIsAccused(a: nat, b: nat, c: nat, d: nat, e: nat, f: nat)
    requires a <= b < c <= d < e <= f
    ensures !HasLinearization(WrittenLate(a, b, c, d, e, f)) && !Passes(WrittenLate(a, b, c, d, e, f))
  {
    hide Run, RealTime, Orderable;
    var events := WrittenLate(a, b, c, d, e, f);
    forall order: seq<Placement>
      ensures !Linearizes(events, order)
    {
      if Linearizes(events, order) {
        forall p | p in order
          ensures p.e in events
        {
          PlacesOnly(events, order, p);
        }
        assert events[1] in events && events[1] in multiset(EventsOf(order));
        assert events[2] in events && events[2] in multiset(EventsOf(order));
        var x := PositionOf(order, events[1]);
        var y := PositionOf(order, events[2]);
        assert order[x] in order && order[y] in order;
        NeverBoth(order, events);
      }
    }
    if Passes(events) {
      SortedStays(events);
      PassedIsLinearizable(events, events);
    }
  }

  // ---- left open, an unknown outcome does no harm ------------------------------------------------------

  /** An operation that was given up, recorded as open until `horizon`. */
  function Open(e: Event, horizon: nat): Event {
    if e.ret.Unknown? then e.(returned := horizon) else e
  }

  function LeftOpen(events: seq<Event>, horizon: nat): (r: seq<Event>)
    ensures |r| == |events| && forall i :: 0 <= i < |events| ==> r[i] == Open(events[i], horizon)
  {
    seq(|events|, i requires 0 <= i < |events| => Open(events[i], horizon))
  }

  /** Those answered took effect within their windows. */
  ghost predicate AnsweredInTime(events: seq<Event>) {
    forall i, j :: 0 <= i < j < |events| && !events[j].ret.Unknown? ==> events[i].invoked <= events[j].returned
  }

  lemma {:induction false} LeftOpenRuns(events: seq<Event>, horizon: nat)
    ensures Run(Applied(LeftOpen(events, horizon))) == Run(Applied(events))
  {
    if events != [] {
      var n := |events| - 1;
      LeftOpenRuns(events[..n], horizon);
      assert Applied(events)[..n] == Applied(events[..n]);
      assert Applied(LeftOpen(events, horizon))[..n] == Applied(LeftOpen(events[..n], horizon));
    }
  }

  /** With unknown outcomes left open, and any that never took effect besides, what was recorded is
      linearizable. */
  lemma OpenEnded(events: seq<Event>, lost: seq<Event>, horizon: nat)
    requires Explained(events) && AnsweredInTime(events) && Windows(events + lost)
    requires (forall e :: e in lost ==> e.ret.Unknown?)
    requires forall e :: e in events + lost ==> e.invoked <= horizon
    ensures HasLinearization(LeftOpen(events + lost, horizon))
  {
    var a, b := LeftOpen(events, horizon), LeftOpen(lost, horizon);
    hide HasLinearization, Run, Windows, InTime, AnsweredInTime;
    LeftOpenRuns(events, horizon);
    assert forall e :: e in events ==> e in events + lost;
    OpenInTime(events, horizon);
    InTimeIsLinearizable(a);
    assert LeftOpen(events + lost, horizon) == a + b;
    LeftOpenWindows(events + lost, horizon);
    OpenUnknown(lost, horizon);
    DiscardAll(a, b);
  }

  lemma OpenUnknown(lost: seq<Event>, horizon: nat)
    requires forall e :: e in lost ==> e.ret.Unknown?
    ensures forall e :: e in LeftOpen(lost, horizon) ==> e.ret.Unknown?
  {
    forall e: Event | e in LeftOpen(lost, horizon)
      ensures e.ret.Unknown?
    {
      var i :| 0 <= i < |lost| && LeftOpen(lost, horizon)[i] == e;
      assert lost[i] in lost;
    }
  }

  lemma OpenInTime(events: seq<Event>, horizon: nat)
    requires AnsweredInTime(events) && forall e :: e in events ==> e.invoked <= horizon
    ensures InTime(LeftOpen(events, horizon))
  {
    var a := LeftOpen(events, horizon);
    forall i, j | 0 <= i < j < |a|
      ensures a[i].invoked <= a[j].returned
    {
      assert events[i] in events;
    }
  }

  lemma LeftOpenWindows(events: seq<Event>, horizon: nat)
    requires Windows(events) && forall e :: e in events ==> e.invoked <= horizon
    ensures Windows(LeftOpen(events, horizon))
  {
    forall e | e in LeftOpen(events, horizon)
      ensures e.invoked <= e.returned
    {
      var i :| 0 <= i < |events| && LeftOpen(events, horizon)[i] == e;
      assert events[i] in events;
    }
  }

  function Drop(s: seq<Event>, i: nat): seq<Event>
    requires i < |s|
  {
    s[..i] + s[i + 1..]
  }

  lemma Without(s: seq<Event>, i: nat)
    requires i < |s|
    ensures multiset(Drop(s, i)) == multiset(s) - multiset{s[i]} && |Drop(s, i)| == |s| - 1 && s[i] in multiset(s)
  {
    assert s == s[..i] + [s[i]] + s[i + 1..];
  }

  lemma OpenWithout(s: seq<Event>, i: nat, horizon: nat)
    requires i < |s|
    ensures multiset(LeftOpen(Drop(s, i), horizon)) == multiset(LeftOpen(s, horizon)) - multiset{Open(s[i], horizon)}
    ensures Open(s[i], horizon) in multiset(LeftOpen(s, horizon))
  {
    Without(LeftOpen(s, horizon), i);
    assert Drop(LeftOpen(s, horizon), i) == LeftOpen(Drop(s, i), horizon);
  }

  lemma SameWith(a: multiset<Event>, b: multiset<Event>, e: Event)
    requires a - multiset{e} == b - multiset{e} && e in a && e in b
    ensures a == b
  {
    assert (a - multiset{e}) + multiset{e} == a && (b - multiset{e}) + multiset{e} == b;
  }

  lemma Find(s: seq<Event>, e: Event) returns (i: nat)
    requires e in multiset(s)
    ensures i < |s| && s[i] == e
  {
    i :| i < |s| && s[i] == e;
  }

  /** Leaving outcomes open does not depend on the order in which they were recorded. */
  lemma {:induction false} LeftOpenSame(a: seq<Event>, b: seq<Event>, horizon: nat)
    requires multiset(a) == multiset(b)
    ensures multiset(LeftOpen(a, horizon)) == multiset(LeftOpen(b, horizon))
    decreases |a|
  {
    if a == [] {
      assert |b| == |multiset(b)| == 0;
    } else {
      hide Drop, LeftOpen, Open;
      Without(a, 0);
      var i := Find(b, a[0]);
      Without(b, i);
      OpenWithout(a, 0, horizon);
      OpenWithout(b, i, horizon);
      LeftOpenSame(Drop(a, 0), Drop(b, i), horizon);
      SameWith(multiset(LeftOpen(a, horizon)), multiset(LeftOpen(b, horizon)), Open(a[0], horizon));
    }
  }
}
