/** What a pass of the checker is worth. The search compares a candidate only with the lowest
    operation not placed yet (crates/chrono-oracle/src/linearizability.rs:363-388), so it may place an
    operation before another that had already returned. Here is exactly when that cannot happen. */
module LinearFrontier {
  import opened Types
  import opened ClientHistory
  import opened LinearSearch
  import opened LinearPerKey

  /** Operation `a` is still open when `c` is invoked, but `b`, invoked between them, has returned. */
  ghost predicate SpannedBy(events: seq<Event>, a: nat, b: nat, c: nat) {
    a < b < c < |events| && events[b].returned < events[c].invoked <= events[a].returned
  }

  ghost predicate Spanned(events: seq<Event>) {
    exists a, b, c :: SpannedBy(events, a, b, c)
  }

  // ---- without such a triple, a pass exhibits a linearization --------------------------------------

  function Placed(events: seq<Event>, order: seq<Choice>): (r: seq<Placement>)
    requires forall c :: c in order ==> c.i < |events|
    ensures |r| == |order|
  {
    if order == [] then [] else [Placement(events[order[0].i], order[0].applied)] + Placed(events, order[1..])
  }

  /** What is placed later was not placed before. */
  lemma {:induction false} LeadsFresh(events: seq<Event>, v: Value, placed: set<nat>, order: seq<Choice>, v': Value,
                                      placed': set<nat>)
    requires Leads(events, v, placed, order, v', placed')
    ensures forall c :: c in order ==> c.i < |events| && c.i !in placed
    decreases |order|
  {
    if order != [] {
      var c := order[0];
      LeadsFresh(events, Outcome(v, events[c.i], c.applied).value, placed + {c.i}, order[1..], v', placed');
      assert order == [c] + order[1..];
    }
  }

  lemma AllowedInTime(events: seq<Event>, placed: set<nat>, i: nat, j: nat)
    requires Ordered(events) && Windows(events) && !Spanned(events)
    requires Allowed(events, placed, i) && j < |events| && j !in placed
    ensures events[i].invoked <= events[j].returned
  {
    var low := LowestFrom(|events|, placed, 0);
    assert events[j] in events;
    if i < j {
      assert Before(events[i], events[j]);
    } else if low < j < i {
      assert !SpannedBy(events, low, j, i);
    }
  }

  /** Each operation was invoked before those placed after it returned. */
  ghost predicate Steady(order: seq<Placement>)
    decreases |order|
  {
    order != [] ==> (forall p :: p in order ==> order[0].e.invoked <= p.e.returned) && Steady(order[1..])
  }

  lemma {:induction false} PlacedFrom(events: seq<Event>, order: seq<Choice>, p: Placement)
    requires (forall c :: c in order ==> c.i < |events|) && p in Placed(events, order)
    ensures exists c :: c in order && p == Placement(events[c.i], c.applied)
    decreases |order|
  {
    if p == Placement(events[order[0].i], order[0].applied) {
      assert order[0] in order;
    } else {
      PlacedFrom(events, order[1..], p);
      var c :| c in order[1..] && p == Placement(events[c.i], c.applied);
      assert c in order;
    }
  }

  lemma {:induction false} LeadsSteady(events: seq<Event>, v: Value, placed: set<nat>, order: seq<Choice>, v': Value,
                                       placed': set<nat>)
    requires Ordered(events) && Windows(events) && !Spanned(events) && Leads(events, v, placed, order, v', placed')
    ensures (forall c :: c in order ==> c.i < |events|) && Steady(Placed(events, order))
    decreases |order|
  {
    hide Ordered, Windows, Spanned, Allowed;
    LeadsFresh(events, v, placed, order, v', placed');
    if order != [] {
      var c, all := order[0], Placed(events, order);
      LeadsSteady(events, Outcome(v, events[c.i], c.applied).value, placed + {c.i}, order[1..], v', placed');
      assert all[1..] == Placed(events, order[1..]);
      forall p | p in all
        ensures all[0].e.invoked <= p.e.returned
      {
        PlacedFrom(events, order, p);
        var d :| d in order && p == Placement(events[d.i], d.applied);
        AllowedInTime(events, placed, c.i, d.i);
      }
    }
  }

  lemma {:induction false} SteadyCut(order: seq<Placement>)
    requires Steady(order) && order != []
    ensures Steady(order[..|order| - 1])
    ensures forall p :: p in order[..|order| - 1] ==> p.e.invoked <= order[|order| - 1].e.returned
    decreases |order|
  {
    var n := |order| - 1;
    if n > 0 {
      SteadyCut(order[1..]);
      assert order[..n][1..] == order[1..][..n - 1] && order[1..][n - 1] == order[n];
      assert order[n] in order;
      forall p | p in order[..n]
        ensures p.e.invoked <= order[n].e.returned && order[0].e.invoked <= p.e.returned
      {
        assert p in order;
        if p != order[0] { assert p in order[1..][..n - 1]; }
      }
    }
  }

  lemma {:induction false} SteadyIsRealTime(order: seq<Placement>)
    requires Steady(order)
    ensures RealTime(order)
  {
    if order != [] {
      SteadyCut(order);
      SteadyIsRealTime(order[..|order| - 1]);
    }
  }

  /** An order the search follows is one the register can run. */
  lemma {:induction false} LeadsRuns(events: seq<Event>, k: Key, before: seq<Placement>, v: Value, placed: set<nat>,
                                     order: seq<Choice>, v': Value, placed': set<nat>)
    requires Leads(events, v, placed, order, v', placed') && (forall e :: e in events ==> e.op.key == k)
    requires Run(before).Some? && ValueAt(Run(before).value, k) == v
    ensures (forall c :: c in order ==> c.i < |events|) && Run(before + Placed(events, order)).Some?
    decreases |order|
  {
    hide Allowed;
    LeadsFresh(events, v, placed, order, v', placed');
    if order == [] {
      assert before + Placed(events, order) == before;
    } else {
      var c := order[0];
      var p := Placement(events[c.i], c.applied);
      assert events[c.i] in events && (before + [p])[..|before|] == before;
      LeadsRuns(events, k, before + [p], Outcome(v, events[c.i], c.applied).value, placed + {c.i}, order[1..], v',
                placed');
      assert (before + [p]) + Placed(events, order[1..]) == before + Placed(events, order);
    }
  }

  lemma {:induction false} NoneLeft(events: seq<Event>, placed: set<nat>, k: nat, x: Event)
    requires Complete(events, placed) && k <= |events|
    ensures Left(events, placed, k, x) == 0
  {
    if k > 0 { NoneLeft(events, placed, k - 1, x); }
  }

  lemma {:induction false} LeadsPlacesAll(events: seq<Event>, v: Value, placed: set<nat>, order: seq<Choice>, v': Value,
                                          placed': set<nat>, x: Event)
    requires Leads(events, v, placed, order, v', placed') && Complete(events, placed')
    ensures (forall c :: c in order ==> c.i < |events|)
    ensures Times(Placed(events, order), x) == Left(events, placed, |events|, x)
    decreases |order|
  {
    hide Allowed;
    LeadsFresh(events, v, placed, order, v', placed');
    if order == [] {
      NoneLeft(events, placed, |events|, x);
    } else {
      var c, all := order[0], Placed(events, order);
      LeadsPlacesAll(events, Outcome(v, events[c.i], c.applied).value, placed + {c.i}, order[1..], v', placed', x);
      LeftWithout(events, placed, |events|, c.i, x);
      TimesFirst(all, x);
      assert all[1..] == Placed(events, order[1..]);
    }
  }

  lemma OrderPlacesAll(events: seq<Event>, order: seq<Choice>, v: Value, placed: set<nat>)
    requires Leads(events, None, {}, order, v, placed) && Complete(events, placed)
    requires forall c :: c in order ==> c.i < |events|
    ensures multiset(EventsOf(Placed(events, order))) == multiset(events)
  {
    hide Leads;
    forall x: Event
      ensures multiset(EventsOf(Placed(events, order)))[x] == multiset(events)[x]
    {
      LeadsPlacesAll(events, None, {}, order, v, placed, x);
      LeftAll(events, |events|, x);
      TimesCounts(Placed(events, order), x);
      assert events[..|events|] == events;
    }
  }

  /** Where nothing is spanned, an order the search accepts is a linearization. */
  lemma OrderIsLinearization(events: seq<Event>, k: Key)
    requires Ordered(events) && Windows(events) && !Spanned(events) && (forall e :: e in events ==> e.op.key == k)
    requires Orderable(events)
    ensures HasLinearization(events)
  {
    hide Spanned, Ordered, Windows, Leads;
    var order, v, placed :| Leads(events, None, {}, order, v, placed) && Complete(events, placed);
    LeadsSteady(events, None, {}, order, v, placed);
    var all := Placed(events, order);
    SteadyIsRealTime(all);
    LeadsRuns(events, k, [], None, {}, order, v, placed);
    assert [] + all == all;
    hide Placed, RealTime, Run, EventsOf;
    OrderPlacesAll(events, order, v, placed);
    assert Linearizes(events, all);
  }

  // ---- with one, some history passes that has none --------------------------------------------------

  /** Two histories with the same clients and windows. */
  ghost predicate SameTimes(times: seq<Event>, events: seq<Event>) {
    |times| == |events| && forall i :: 0 <= i < |times| ==>
      times[i].client == events[i].client && times[i].invoked == events[i].invoked
      && times[i].returned == events[i].returned
  }

  /** The history that goes unnoticed: `b` writes, and `c`, after `b` has returned, reads nothing. */
  ghost function Unnoticed(times: seq<Event>, b: nat, c: nat): (r: seq<Event>)
    ensures |r| == |times|
  {
    seq(|times|, i requires 0 <= i < |times| =>
      times[i].(op := if i == b then Write([], []) else Read([]),
                ret := if i == b then Done else if i == c then Observed(None) else Unknown))
  }

  lemma LowestIs(n: nat, placed: set<nat>, x: nat)
    requires x < n && x !in placed && forall j :: 0 <= j < x ==> j in placed
    ensures LowestFrom(n, placed, 0) == x
  {
  }

  /** Going on in order of invocation, over operations whose results always fit. */
  lemma {:induction false} GoOn(events: seq<Event>, x: nat, c: nat, v: Value, placed: set<nat>, order: seq<Choice>)
    returns (order': seq<Choice>, v': Value, placed': set<nat>)
    requires x <= |events| && Windows(events) && Leads(events, None, {}, order, v, placed)
    requires forall j :: 0 <= j < |events| ==> (j in placed <==> j < x || j == c)
    requires forall j, w :: x <= j < |events| && j != c ==> Outcome(w, events[j], true).Some?
    ensures Leads(events, None, {}, order', v', placed') && Complete(events, placed')
    decreases |events| - x
  {
    if x == |events| {
      order', v', placed' := order, v, placed;
    } else if x == c {
      order', v', placed' := GoOn(events, x + 1, c, v, placed, order);
    } else {
      LowestIs(|events|, placed, x);
      assert events[x] in events;
      var w := Outcome(v, events[x], true).value;
      LeadsOn(events, None, {}, order, v, placed, Choice(x, true), w);
      order', v', placed' := GoOn(events, x + 1, c, w, placed + {x}, order + [Choice(x, true)]);
    }
  }

  /** The operations before the spanning one, in order; they read and write nothing. */
  lemma {:induction false} GoUpTo(events: seq<Event>, a: nat) returns (order: seq<Choice>, placed: set<nat>)
    requires a <= |events| && Windows(events) && forall j :: 0 <= j < a ==> Outcome(None, events[j], true) == Some(None)
    ensures Leads(events, None, {}, order, None, placed) && forall j :: j in placed <==> 0 <= j < a
  {
    if a == 0 {
      order, placed := [], {};
    } else {
      var o, p := GoUpTo(events, a - 1);
      LowestIs(|events|, p, a - 1);
      assert events[a - 1] in events;
      LeadsOn(events, None, {}, o, None, p, Choice(a - 1, true), None);
      order, placed := o + [Choice(a - 1, true)], p + {a - 1};
    }
  }

  lemma UnnoticedPasses(times: seq<Event>, a: nat, b: nat, c: nat)
    requires Windows(times) && SpannedBy(times, a, b, c)
    ensures Orderable(Unnoticed(times, b, c))
  {
    var events := Unnoticed(times, b, c);
    forall e | e in events
      ensures e.invoked <= e.returned
    {
      var i :| 0 <= i < |events| && events[i] == e;
      assert times[i] in times;
    }
    var order, placed := GoUpTo(events, a);
    LowestIs(|events|, placed, a);
    LeadsOn(events, None, {}, order, None, placed, Choice(c, true), None);
    var o, v, p := GoOn(events, a, c, None, placed + {c}, order + [Choice(c, true)]);
  }

  /** Once written, the value stays: everything else only reads. */
  lemma {:induction false} WriteStays(order: seq<Placement>, x: nat, written: Event)
    requires x < |order| && order[x].e == written && written.op == Write([], []) && written.ret == Done
    requires Run(order).Some?
    requires forall p :: p in order ==> p.e == written || p.e.op == Read([])
    ensures ValueAt(Run(order).value, []) == Some([])
  {
    var n := |order| - 1;
    assert order[n] in order;
    if x < n {
      assert order[..n][x] == order[x] && forall p :: p in order[..n] ==> p in order;
      WriteStays(order[..n], x, written);
    }
  }

  lemma {:induction false} RealTimeAt(order: seq<Placement>, x: nat, y: nat)
    requires RealTime(order) && x < y < |order|
    ensures order[x].e.invoked <= order[y].e.returned
  {
    var n := |order| - 1;
    if y < n {
      RealTimeAt(order[..n], x, y);
    } else {
      assert order[x] == order[..n][x] && order[x] in order[..n];
    }
  }

  lemma {:induction false} PositionOf(order: seq<Placement>, e: Event) returns (x: nat)
    requires e in EventsOf(order)
    ensures x < |order| && order[x].e == e
  {
    var n := |order| - 1;
    if order[n].e == e {
      x := n;
    } else {
      x := PositionOf(order[..n], e);
    }
  }

  lemma {:induction false} StuckStays(order: seq<Placement>, m: nat)
    requires m <= |order| && Run(order[..m]).None?
    ensures Run(order).None?
  {
    if m < |order| {
      var n := |order| - 1;
      assert order[..n][..m] == order[..m];
      StuckStays(order[..n], m);
    } else {
      assert order[..m] == order;
    }
  }

  /** Real time puts the write before the read, which therefore cannot have come back empty. */
  lemma ReadIsStuck(events: seq<Event>, b: nat, c: nat, order: seq<Placement>, x: nat, y: nat)
    requires b < |events| && c < |events| && RealTime(order) && (forall p :: p in order ==> p.e in events)
    requires x < |order| && y < |order| && order[x].e == events[b] && order[y].e == events[c]
    requires events[b].returned < events[c].invoked
    requires events[b].op == Write([], []) && events[b].ret == Done && events[c].op == Read([])
    requires events[c].ret == Observed(None)
    requires forall e :: e in events ==> e == events[b] || e.op == Read([])
    ensures Run(order).None?
  {
    hide RealTime, Run;
    if y < x { RealTimeAt(order, y, x); }
    var before := order[..y];
    if Run(before).Some? {
      assert before[x] == order[x] && forall p :: p in before ==> p in order;
      WriteStays(before, x, events[b]);
    }
    EmptyReadFails(before, order[y]);
    assert order[..y + 1] == before + [order[y]];
    StuckStays(order, y + 1);
  }

  lemma EmptyReadFails(before: seq<Placement>, p: Placement)
    requires p.e.op == Read([]) && p.e.ret == Observed(None)
    requires Run(before).Some? ==> ValueAt(Run(before).value, []) == Some([])
    ensures Run(before + [p]).None?
  {
    assert (before + [p])[..|before|] == before;
  }

  lemma NoOrderFor(times: seq<Event>, a: nat, b: nat, c: nat, order: seq<Placement>)
    requires SpannedBy(times, a, b, c)
    ensures !Linearizes(Unnoticed(times, b, c), order)
  {
    hide RealTime, Run;
    var events := Unnoticed(times, b, c);
    if multiset(EventsOf(order)) == multiset(events) && RealTime(order) {
      assert events[b] in events && events[c] in events;
      assert events[b] in multiset(EventsOf(order)) && events[c] in multiset(EventsOf(order));
      var x := PositionOf(order, events[b]);
      var y := PositionOf(order, events[c]);
      forall p | p in order
        ensures p.e in events
      {
        PlacesOnly(events, order, p);
      }
      ReadIsStuck(events, b, c, order, x, y);
    }
  }

  lemma SameTimesOrdered(times: seq<Event>, events: seq<Event>)
    requires SameTimes(times, events) && Ordered(times) && Windows(times)
    ensures Ordered(events) && Windows(events) && (Spanned(events) ==> Spanned(times))
  {
    forall e | e in events
      ensures e.invoked <= e.returned
    {
      var i :| 0 <= i < |events| && events[i] == e;
      assert times[i] in times;
    }
    forall i, j | 0 <= i < j < |events|
      ensures Before(events[i], events[j])
    {
      assert Before(times[i], times[j]);
    }
    if Spanned(events) {
      var a, b, c :| SpannedBy(events, a, b, c);
      assert SpannedBy(times, a, b, c);
    }
  }

  ghost predicate RuleIsRight(events: seq<Event>) {
    Orderable(events) <==> HasLinearization(events)
  }

  ghost predicate AllOn(events: seq<Event>, k: Key) {
    forall e :: e in events ==> e.op.key == k
  }

  ghost predicate OneKey(events: seq<Event>) {
    exists k :: AllOn(events, k)
  }

  /** The exact condition, on the times alone: with these windows the search is right about every
      history of one key, whatever was asked and answered, if and only if no operation spans two
      others that do not overlap. */
  lemma SearchIsRight(times: seq<Event>)
    requires Ordered(times) && Windows(times)
    ensures !Spanned(times) <==> forall events :: SameTimes(times, events) && OneKey(events) ==> RuleIsRight(events)
  {
    hide Orderable, HasLinearization;
    if !Spanned(times) {
      forall events | SameTimes(times, events) && OneKey(events)
        ensures RuleIsRight(events)
      {
        RightWhenUnspanned(times, events);
      }
    } else {
      var a, b, c :| SpannedBy(times, a, b, c);
      WrongWhenSpanned(times, a, b, c);
    }
  }

  lemma RightWhenUnspanned(times: seq<Event>, events: seq<Event>)
    requires Ordered(times) && Windows(times) && !Spanned(times) && SameTimes(times, events) && OneKey(events)
    ensures RuleIsRight(events)
  {
    hide Orderable, HasLinearization, Spanned, Ordered, SameTimes;
    SameTimesOrdered(times, events);
    var k :| AllOn(events, k);
    SortedStays(events);
    if Orderable(events) { OrderIsLinearization(events, k); }
    if HasLinearization(events) { LinearizationIsOrder(events, k); }
  }

  lemma WrongWhenSpanned(times: seq<Event>, a: nat, b: nat, c: nat)
    requires Ordered(times) && Windows(times) && SpannedBy(times, a, b, c)
    ensures exists events ::
              SameTimes(times, events) && OneKey(events) && Orderable(events) && !HasLinearization(events)
  {
    var events := Unnoticed(times, b, c);
    UnnoticedPasses(times, a, b, c);
    forall order
      ensures !Linearizes(events, order)
    {
      NoOrderFor(times, a, b, c, order);
    }
    assert AllOn(events, []);
    assert SameTimes(times, events) && OneKey(events);
  }

  /** One such history: while a slow read is open, a write completes and a later read misses it. */
  lemma MissedViolation()
    ensures var events := [Event(1, Read([]), Unknown, 0, 100), Event(2, Write([], []), Done, 1, 2),
                           Event(3, Read([]), Observed(None), 50, 60)];
            Orderable(events) && !HasLinearization(events)
  {
    var events := [Event(1, Read([]), Unknown, 0, 100), Event(2, Write([], []), Done, 1, 2),
                   Event(3, Read([]), Observed(None), 50, 60)];
    assert events == Unnoticed(events, 1, 2) && SpannedBy(events, 0, 1, 2);
    UnnoticedPasses(events, 0, 1, 2);
    forall order
      ensures !Linearizes(events, order)
    {
      NoOrderFor(events, 0, 1, 2, order);
    }
  }

  /** So a pass over a whole history is to be trusted if nothing is spanned on any key. */
  lemma PassIsReal(history: seq<Event>)
    requires Windows(history)
    requires forall k :: k in KeysOf(history) ==>
               Orderable(Sorted(OnKey(history, k))) && !Spanned(Sorted(OnKey(history, k)))
    ensures HasLinearization(history)
  {
    hide Orderable, Spanned;
    forall k | k in KeysOf(history)
      ensures HasLinearization(OnKey(history, k))
    {
      OnKeyFrom(history, k);
      var events := Sorted(OnKey(history, k));
      SortedSorts(OnKey(history, k));
      forall e | e in events
        ensures e in OnKey(history, k)
      {
        assert e in multiset(events);
      }
      OrderIsLinearization(events, k);
      var order: seq<Placement> :| Linearizes(events, order);
      assert Linearizes(OnKey(history, k), order);
    }
    PerKey(history);
  }
}
