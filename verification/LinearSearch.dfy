/** The memoised search of the linearizability checker
    (crates/chrono-oracle/src/linearizability.rs:255-486) decides exactly the naive one. */
module LinearSearch {
  import opened Types
  import opened ClientHistory

  // ---- the naive search: sets of placed operations ------------------------------------

  /** Place operation `i` next, with or without its effect. */
  datatype Choice = Choice(i: nat, applied: bool)

  /** The first operation from `k` on that is not placed. */
  function LowestFrom(n: nat, placed: set<nat>, k: nat): (low: nat)
    requires k <= n
    ensures k <= low <= n && (low < n ==> low !in placed) && forall j :: k <= j < low ==> j in placed
    decreases n - k
  {
    if k < n && k in placed then LowestFrom(n, placed, k + 1) else k
  }

  /** Nothing invoked after the lowest unplaced operation returned may go before it. */
  ghost predicate Allowed(events: seq<Event>, placed: set<nat>, i: nat) {
    var low := LowestFrom(|events|, placed, 0);
    i < |events| && i !in placed && low < |events| && events[i].invoked <= events[low].returned
  }

  /** Placing operations in a given order takes `(v, placed)` to `(v', placed')`. */
  ghost predicate Leads(events: seq<Event>, v: Value, placed: set<nat>, order: seq<Choice>, v': Value,
                        placed': set<nat>)
    decreases |order|
  {
    if order == [] then v' == v && placed' == placed
    else
      var c := order[0];
      && Allowed(events, placed, c.i) && Outcome(v, events[c.i], c.applied).Some?
      && Leads(events, Outcome(v, events[c.i], c.applied).value, placed + {c.i}, order[1..], v', placed')
  }

  ghost predicate Complete(events: seq<Event>, placed: set<nat>) {
    forall i :: 0 <= i < |events| ==> i in placed
  }

  /** Some order places every operation. */
  ghost predicate Orderable(events: seq<Event>) {
    exists order, v, placed :: Leads(events, None, {}, order, v, placed) && Complete(events, placed)
  }

  /** No order places everything up to and including operation `k`. */
  ghost predicate Blocked(events: seq<Event>, k: nat) {
    forall order, v, placed :: Leads(events, None, {}, order, v, placed) ==> exists j: nat :: j <= k && j !in placed
  }

  lemma {:induction false} LeadsOn(events: seq<Event>, v: Value, placed: set<nat>, order: seq<Choice>,
                                   v1: Value, placed1: set<nat>, c: Choice, v2: Value)
    requires Leads(events, v, placed, order, v1, placed1)
    requires Allowed(events, placed1, c.i) && Outcome(v1, events[c.i], c.applied) == Some(v2)
    ensures Leads(events, v, placed, order + [c], v2, placed1 + {c.i})
    decreases |order|
  {
    if order == [] {
      assert ([c])[1..] == [];
      assert order + [c] == [c];
    } else {
      var d := order[0];
      LeadsOn(events, Outcome(v, events[d.i], d.applied).value, placed + {d.i}, order[1..], v1, placed1, c, v2);
      assert (order + [c])[1..] == order[1..] + [c];
    }
  }

  // ---- the encoding: a frontier and a mask of the few ahead of it --------------------------

  const AHEAD: nat := 63

  /** Everything below `frontier` is placed, and so is `frontier + 1 + k` for every one bit `k` of
      the 64-bit mask `ahead`, which is kept as the set of its one bits. */
  datatype Node = Node(value: Value, frontier: nat, ahead: set<nat>)

  predicate InPlace(node: Node, i: nat) {
    i < node.frontier || (i > node.frontier && i - node.frontier - 1 in node.ahead)
  }

  ghost function PlacedBy(node: Node): set<nat> {
    set i | 0 <= i <= node.frontier + 64 && InPlace(node, i)
  }

  /** The mask needs only its low 63 bits, and names only operations that exist. */
  ghost predicate Valid(n: nat, node: Node) {
    && node.frontier <= n
    && (forall k :: k in node.ahead ==> k < AHEAD && node.frontier + 1 + k < n)
  }

  /** The trailing ones of a 64-bit word, from bit `k` on. */
  function OnesFrom(bits: set<nat>, k: nat): (t: nat)
    requires k <= 64
    ensures k <= t <= 64 && (t < 64 ==> t !in bits) && forall j :: k <= j < t ==> j in bits
    decreases 64 - k
  {
    if k < 64 && k in bits then OnesFrom(bits, k + 1) else k
  }

  function ShiftRight(bits: set<nat>, s: nat): set<nat> {
    set k | k in bits && k >= s :: k - s
  }

  /** Place the operation `offset` above the frontier, and move the frontier on to the next that
      is not placed. */
  function Place(node: Node, offset: nat, value: Value): Node {
    if offset == 0 then
      var t := OnesFrom(node.ahead, 0);
      Node(value, node.frontier + 1 + t, if t + 1 >= 64 then {} else ShiftRight(node.ahead, t + 1))
    else Node(value, node.frontier, node.ahead + {offset - 1})
  }

  lemma PlaceFrontier(n: nat, node: Node, value: Value)
    requires Valid(n, node) && node.frontier < n
    ensures var node' := Place(node, 0, value);
            Valid(n, node') && forall i: nat :: InPlace(node', i) <==> InPlace(node, i) || i == node.frontier
  {
    var node', f, t := Place(node, 0, value), node.frontier, OnesFrom(node.ahead, 0);
    if t > 0 { assert t - 1 in node.ahead; }
    forall i: nat
      ensures InPlace(node', i) <==> InPlace(node, i) || i == f
    {
      if f < i < f + 1 + t { assert i - f - 1 in node.ahead; }
      if i > f + 1 + t {
        if i - f - 1 in node.ahead { assert i - f - 1 - (t + 1) in node'.ahead; }
      }
    }
  }

  /** The encoded move is the move on sets. */
  lemma PlaceAdds(n: nat, node: Node, offset: nat, value: Value)
    requires Valid(n, node) && node.frontier + offset < n && offset <= AHEAD && !InPlace(node, node.frontier + offset)
    ensures var node' := Place(node, offset, value);
            Valid(n, node') && PlacedBy(node') == PlacedBy(node) + {node.frontier + offset}
  {
    var node' := Place(node, offset, value);
    if offset == 0 {
      PlaceFrontier(n, node, value);
    } else {
      assert offset - 1 !in node.ahead;
      assert forall i: nat :: InPlace(node', i) <==> InPlace(node, i) || i == node.frontier + offset;
    }
  }

  /** The frontier is the lowest unplaced operation. */
  lemma FrontierIsLowest(n: nat, node: Node)
    requires Valid(n, node)
    ensures LowestFrom(n, PlacedBy(node), 0) == node.frontier
  {
    var low := LowestFrom(n, PlacedBy(node), 0);
    assert forall i: nat :: i < node.frontier ==> InPlace(node, i) && i in PlacedBy(node);
    assert node.frontier !in PlacedBy(node);
  }

  // ---- moves ---------------------------------------------------------------------------------

  /** Cursor `c` stands for offset `c / 2` from the frontier; an odd cursor discards the effect. */
  ghost predicate MoveAt(events: seq<Event>, node: Node, c: nat) {
    var i := node.frontier + c / 2;
    && Allowed(events, PlacedBy(node), i)
    && Outcome(node.value, events[i], c % 2 == 0).Some?
    && (c % 2 == 1 ==> events[i].ret.Unknown?)
  }

  function Target(events: seq<Event>, node: Node, c: nat): Node
    requires node.frontier + c / 2 < |events|
  {
    var o := Outcome(node.value, events[node.frontier + c / 2], c % 2 == 0);
    Place(node, c / 2, if o.Some? then o.value else node.value)
  }

  /** The move at cursor `c`, if it is one and lies within the window, leads to a visited node. */
  ghost predicate Tried(events: seq<Event>, visited: set<Node>, node: Node, c: nat) {
    MoveAt(events, node, c) && c / 2 <= AHEAD ==> Target(events, node, c) in visited
  }

  ghost predicate TriedTo(events: seq<Event>, visited: set<Node>, node: Node, cursor: nat) {
    forall c {:trigger Tried(events, visited, node, c)} :: 0 <= c < cursor ==> Tried(events, visited, node, c)
  }

  /** Every move of the node is accounted for: it leads to a visited node, or the window cut it off
      and that was noted. */
  ghost predicate Closed(events: seq<Event>, visited: set<Node>, node: Node, cut: bool) {
    && node.frontier < |events|
    && (forall c {:trigger Tried(events, visited, node, c)} :: 0 <= c ==> Tried(events, visited, node, c))
    && (forall c: nat :: MoveAt(events, node, c) && c / 2 > AHEAD ==> cut)
  }

  /** Some operation beyond the window overlaps the operation it would have to precede. */
  ghost predicate WindowExceeded(events: seq<Event>) {
    exists f, i :: 0 <= f && f + AHEAD < i < |events| && events[i].invoked <= events[f].returned
  }

  // ---- why an exhausted search is a proof ---------------------------------------------------------

  ghost predicate AllClosed(events: seq<Event>, visited: set<Node>, root: Node) {
    forall node :: node in visited || node == root ==> Valid(|events|, node) && Closed(events, visited, node, false)
  }

  lemma MoveIsTried(events: seq<Event>, visited: set<Node>, root: Node, node: Node, ch: Choice) returns (next: Node)
    requires AllClosed(events, visited, root) && (node in visited || node == root)
    requires Allowed(events, PlacedBy(node), ch.i) && Outcome(node.value, events[ch.i], ch.applied).Some?
    ensures next in visited
    ensures next.value == Outcome(node.value, events[ch.i], ch.applied).value
    ensures PlacedBy(next) == PlacedBy(node) + {ch.i}
  {
    FrontierIsLowest(|events|, node);
    assert ch.i >= node.frontier;
    var offset := ch.i - node.frontier;
    var c := 2 * offset + if ch.applied then 0 else 1;
    assert c / 2 == offset && (c % 2 == 0 <==> ch.applied);
    assert MoveAt(events, node, c);
    assert Tried(events, visited, node, c);
    next := Target(events, node, c);
    PlaceAdds(|events|, node, offset, next.value);
  }

  /** From a closed set of nodes no order leaves it, so the deepest frontier blocks every order. */
  lemma {:induction false} ClosedBlocks(events: seq<Event>, visited: set<Node>, root: Node, k: nat, node: Node,
                                        order: seq<Choice>, v: Value, placed: set<nat>)
    requires AllClosed(events, visited, root) && (node in visited || node == root)
    requires root.frontier <= k && forall x :: x in visited ==> x.frontier <= k
    requires Leads(events, node.value, PlacedBy(node), order, v, placed)
    ensures exists j: nat :: j <= k && j !in placed
    decreases |order|
  {
    if order == [] {
      FrontierIsLowest(|events|, node);
      assert node.frontier !in placed;
    } else {
      var next := MoveIsTried(events, visited, root, node, order[0]);
      ClosedBlocks(events, visited, root, k, next, order[1..], v, placed);
    }
  }

  lemma BlockedIsNotOrderable(events: seq<Event>, k: nat)
    requires Blocked(events, k) && k < |events|
    ensures !Orderable(events)
  {
  }

  // ---- the search ------------------------------------------------------------------------------------

  datatype Frame = Frame(node: Node, cursor: nat, chose: Option<nat>)

  datatype Violation = Violation(culprit: Event, linearized: seq<Event>, value: Value, concurrent: seq<Event>)

  datatype Verdict =
    | Linearizable
    | NotLinearizable(violation: Violation)
    | Inconclusive(explored: nat)

  /** Beyond a cursor whose operation was invoked too late there are no more moves. */
  lemma LaterIsTooLate(events: seq<Event>, visited: set<Node>, node: Node, cursor: nat)
    requires Ordered(events) && Valid(|events|, node) && node.frontier < |events|
    requires node.frontier + cursor / 2 < |events| ==>
               events[node.frontier + cursor / 2].invoked > events[node.frontier].returned
    ensures forall c :: c >= cursor ==> !MoveAt(events, node, c)
  {
    FrontierIsLowest(|events|, node);
    forall c | c >= cursor
      ensures !MoveAt(events, node, c)
    {
      assert c / 2 >= cursor / 2;
    }
  }

  lemma ClosedNow(events: seq<Event>, visited: set<Node>, node: Node, cursor: nat, cut: bool)
    requires node.frontier < |events| && TriedTo(events, visited, node, cursor) && cursor <= 2 * (AHEAD + 1)
    requires (forall c :: c >= cursor ==> !MoveAt(events, node, c)) || (cut && cursor / 2 > AHEAD)
    ensures Closed(events, visited, node, cut)
  {
    forall c | 0 <= c
      ensures Tried(events, visited, node, c)
    {
      if c >= cursor && cut && cursor / 2 > AHEAD { assert c / 2 >= cursor / 2; }
    }
  }

  lemma TriedOne(events: seq<Event>, visited: set<Node>, node: Node, c: nat)
    requires TriedTo(events, visited, node, c) && Tried(events, visited, node, c)
    ensures TriedTo(events, visited, node, c + 1)
  {
  }

  /** A cursor on a placed operation, or one whose result does not fit, is no move. */
  lemma NoMove(events: seq<Event>, visited: set<Node>, node: Node, c: nat)
    requires Valid(|events|, node) && node.frontier + c / 2 < |events|
    requires || (c / 2 > 0 && c / 2 - 1 in node.ahead)
             || (c % 2 == 1 && !events[node.frontier + c / 2].ret.Unknown?)
             || (c % 2 == 0 && Apply(node.value, events[node.frontier + c / 2]).None?)
    ensures Tried(events, visited, node, c)
  {
    assert c / 2 > 0 && c / 2 - 1 in node.ahead ==> InPlace(node, node.frontier + c / 2);
  }

  lemma IsMove(events: seq<Event>, node: Node, c: nat)
    requires Valid(|events|, node) && node.frontier + c / 2 < |events|
    requires c / 2 == 0 || c / 2 - 1 !in node.ahead
    requires events[node.frontier + c / 2].invoked <= events[node.frontier].returned
    requires if c % 2 == 1 then events[node.frontier + c / 2].ret.Unknown?
             else Apply(node.value, events[node.frontier + c / 2]).Some?
    ensures MoveAt(events, node, c)
  {
    FrontierIsLowest(|events|, node);
  }

  /** Resume a frame's cursor: find its next move to a node not visited yet. If there is none the
      frame's node is closed. */
  method Resume(events: seq<Event>, frame: Frame, visited: set<Node>, wasCut: bool)
    returns (cursor: nat, found: Option<(Node, nat)>, cut: bool)
    requires Ordered(events) && Valid(|events|, frame.node) && frame.node.frontier < |events|
    requires TriedTo(events, visited, frame.node, frame.cursor) && frame.cursor <= 2 * (AHEAD + 1)
    ensures wasCut ==> cut
    ensures cut ==> wasCut || WindowExceeded(events)
    ensures found.None? ==> Closed(events, visited, frame.node, cut)
    ensures found.Some? ==>
      && frame.cursor < cursor && MoveAt(events, frame.node, cursor - 1) && (cursor - 1) / 2 <= AHEAD
      && found.value.1 == frame.node.frontier + (cursor - 1) / 2
      && found.value.0 == Target(events, frame.node, cursor - 1) && found.value.0 !in visited
      && TriedTo(events, visited + {found.value.0}, frame.node, cursor)
  {
    hide TriedTo, Tried, MoveAt, Closed, Valid, Ordered, PlacedBy, Place, Apply;
    var node, n := frame.node, |events|;
    cursor, cut := frame.cursor, wasCut;
    var horizon := events[node.frontier].returned;
    while cursor < 2 * (AHEAD + 2)
      invariant frame.cursor <= cursor <= 2 * (AHEAD + 1) && cut == wasCut
      invariant TriedTo(events, visited, node, cursor)
      decreases 2 * (AHEAD + 2) - cursor
    {
      var c, offset, skip := cursor, cursor / 2, cursor % 2 == 1;
      cursor := cursor + 1;
      var i := node.frontier + offset;
      if i >= n {
        LaterIsTooLate(events, visited, node, c);
        ClosedNow(events, visited, node, c, cut);
        return cursor, None, cut;
      }
      if offset > AHEAD {
        if events[i].invoked <= horizon {
          cut := true;
        } else {
          LaterIsTooLate(events, visited, node, c);
        }
        ClosedNow(events, visited, node, c, cut);
        return cursor, None, cut;
      }
      if offset > 0 && offset - 1 in node.ahead {
        NoMove(events, visited, node, c);
        TriedOne(events, visited, node, c);
        continue;
      }
      if events[i].invoked > horizon {
        LaterIsTooLate(events, visited, node, c);
        ClosedNow(events, visited, node, c, cut);
        return cursor, None, cut;
      }
      if skip && !events[i].ret.Unknown? {
        NoMove(events, visited, node, c);
        TriedOne(events, visited, node, c);
        continue;
      }
      var next := if skip then Some(node.value) else Apply(node.value, events[i]);
      if next.None? {
        NoMove(events, visited, node, c);
        TriedOne(events, visited, node, c);
        continue;
      }
      IsMove(events, node, c);
      var node' := Place(node, offset, next.value);
      assert node' == Target(events, node, c);
      if node' in visited {
        assert Tried(events, visited, node, c) by { AlreadyTried(events, visited, node, c); }
        TriedOne(events, visited, node, c);
        continue;
      }
      TriedMore(events, visited, node, c, node');
      return cursor, Some((node', i)), cut;
    }
    assert false;
  }

  lemma AlreadyTried(events: seq<Event>, visited: set<Node>, node: Node, c: nat)
    requires node.frontier + c / 2 < |events| && Target(events, node, c) in visited
    ensures Tried(events, visited, node, c)
  {
  }

  lemma TriedMore(events: seq<Event>, visited: set<Node>, node: Node, c: nat, node': Node)
    requires TriedTo(events, visited, node, c) && MoveAt(events, node, c) && Target(events, node, c) == node'
    ensures TriedTo(events, visited + {node'}, node, c + 1)
  {
    forall b | 0 <= b < c + 1
      ensures Tried(events, visited + {node'}, node, b)
    {
      if b < c { assert Tried(events, visited, node, b); }
    }
  }

  // ---- what the search maintains --------------------------------------------------------------------------

  const ROOT: Node := Node(None, 0, {})

  function IndicesOf(order: seq<Choice>): seq<nat> {
    seq(|order|, j requires 0 <= j < |order| => order[j].i)
  }

  function EventsAt(events: seq<Event>, order: seq<nat>): seq<Event> {
    seq(|order|, j requires 0 <= j < |order| =>
      if order[j] < |events| then events[order[j]] else Event(0, Read([]), Unknown, 0, 0))
  }

  /** The operations chosen along the stack. */
  function Chosen(stack: seq<Frame>): seq<nat> {
    if stack == [] then []
    else Chosen(stack[..|stack| - 1]) + match stack[|stack| - 1].chose case Some(i) => [i] case None => []
  }

  ghost predicate FrameOk(events: seq<Event>, visited: set<Node>, frame: Frame, path: seq<Choice>) {
    && Valid(|events|, frame.node) && frame.cursor <= 2 * (AHEAD + 1)
    && Leads(events, None, {}, path, frame.node.value, PlacedBy(frame.node))
    && TriedTo(events, visited, frame.node, frame.cursor)
  }

  ghost predicate OnStack(stack: seq<Frame>, node: Node) {
    exists j :: 0 <= j < |stack| && stack[j].node == node
  }

  ghost predicate NodeDone(events: seq<Event>, stack: seq<Frame>, visited: set<Node>, cut: bool, node: Node) {
    Valid(|events|, node) && (OnStack(stack, node) || Closed(events, visited, node, cut))
  }

  ghost predicate FramesOk(events: seq<Event>, stack: seq<Frame>, paths: seq<seq<Choice>>, visited: set<Node>) {
    && |paths| == |stack|
    && (forall j :: 0 <= j < |stack| ==> FrameOk(events, visited, stack[j], paths[j]))
    && (forall j :: 0 <= j < |stack| ==> IndicesOf(paths[j]) == Chosen(stack[..j + 1]))
  }

  ghost predicate NodesOk(events: seq<Event>, stack: seq<Frame>, visited: set<Node>, cut: bool) {
    forall node :: node in visited || node == ROOT ==> NodeDone(events, stack, visited, cut, node)
  }

  lemma ClosedStays(events: seq<Event>, visited: set<Node>, more: set<Node>, node: Node, cut: bool, cut': bool)
    requires Closed(events, visited, node, cut) && visited <= more && (cut ==> cut')
    ensures Closed(events, more, node, cut')
  {
    forall c | 0 <= c
      ensures Tried(events, more, node, c)
    {
      assert Tried(events, visited, node, c);
    }
  }

  lemma TriedStays(events: seq<Event>, visited: set<Node>, more: set<Node>, node: Node, cursor: nat)
    requires TriedTo(events, visited, node, cursor) && visited <= more
    ensures TriedTo(events, more, node, cursor)
  {
    forall c | 0 <= c < cursor
      ensures Tried(events, more, node, c)
    {
      assert Tried(events, visited, node, c);
    }
  }

  /** Popping a frame whose node is closed. */
  lemma PopKeeps(events: seq<Event>, stack: seq<Frame>, visited: set<Node>, cut: bool, cut': bool)
    requires stack != [] && NodesOk(events, stack, visited, cut) && (cut ==> cut')
    requires Closed(events, visited, stack[|stack| - 1].node, cut')
    ensures NodesOk(events, stack[..|stack| - 1], visited, cut')
  {
    hide Valid, Closed;
    var k := |stack| - 1;
    forall node | node in visited || node == ROOT
      ensures NodeDone(events, stack[..k], visited, cut', node)
    {
      assert NodeDone(events, stack, visited, cut, node);
      if OnStack(stack, node) {
        var j :| 0 <= j < |stack| && stack[j].node == node;
        if j < k { assert stack[..k][j].node == node; }
      } else {
        ClosedStays(events, visited, visited, node, cut, cut');
      }
    }
  }

  lemma PopFrames(events: seq<Event>, stack: seq<Frame>, paths: seq<seq<Choice>>, visited: set<Node>)
    requires stack != [] && FramesOk(events, stack, paths, visited)
    ensures FramesOk(events, stack[..|stack| - 1], paths[..|stack| - 1], visited)
  {
    hide FrameOk, Chosen, IndicesOf;
    var k := |stack| - 1;
    forall j | 0 <= j < k
      ensures IndicesOf(paths[..k][j]) == Chosen(stack[..k][..j + 1])
    {
      assert stack[..k][..j + 1] == stack[..j + 1];
    }
  }

  /** The stack after moving the top frame's cursor and pushing the node it found. */
  function Pushed(stack: seq<Frame>, cursor: nat, node: Node, i: nat): seq<Frame>
    requires stack != []
  {
    stack[|stack| - 1 := stack[|stack| - 1].(cursor := cursor)] + [Frame(node, 0, Some(i))]
  }

  lemma PushKeeps(events: seq<Event>, stack: seq<Frame>, visited: set<Node>, cut: bool, cut': bool,
                  cursor: nat, node': Node, i: nat)
    requires stack != [] && NodesOk(events, stack, visited, cut) && Valid(|events|, node') && (cut ==> cut')
    ensures NodesOk(events, Pushed(stack, cursor, node', i), visited + {node'}, cut')
  {
    hide Valid, Closed;
    var stack' := Pushed(stack, cursor, node', i);
    forall node | node in visited + {node'} || node == ROOT
      ensures NodeDone(events, stack', visited + {node'}, cut', node)
    {
      if node == node' {
        assert stack'[|stack|].node == node';
      } else {
        assert NodeDone(events, stack, visited, cut, node);
        if OnStack(stack, node) {
          var j :| 0 <= j < |stack| && stack[j].node == node;
          assert stack'[j].node == node;
        } else {
          ClosedStays(events, visited, visited + {node'}, node, cut, cut');
        }
      }
    }
  }

  lemma {:induction false} ChosenSame(s: seq<Frame>, t: seq<Frame>)
    requires |s| == |t| && forall j :: 0 <= j < |s| ==> s[j].chose == t[j].chose
    ensures Chosen(s) == Chosen(t)
  {
    if s != [] { ChosenSame(s[..|s| - 1], t[..|t| - 1]); }
  }

  lemma PushedFrame(events: seq<Event>, frame: Frame, path: seq<Choice>, visited: set<Node>, c: nat)
    requires FrameOk(events, visited, frame, path) && frame.node.frontier < |events|
    requires MoveAt(events, frame.node, c) && c / 2 <= AHEAD
    ensures var node' := Target(events, frame.node, c);
            FrameOk(events, visited + {node'}, Frame(node', 0, Some(frame.node.frontier + c / 2)),
                    path + [Choice(frame.node.frontier + c / 2, c % 2 == 0)])
  {
    var node, i := frame.node, frame.node.frontier + c / 2;
    var node' := Target(events, node, c);
    assert !InPlace(node, i) by { assert i <= node.frontier + 64; }
    PlaceAdds(|events|, node, c / 2, node'.value);
    LeadsOn(events, None, {}, path, node.value, PlacedBy(node), Choice(i, c % 2 == 0), node'.value);
  }

  lemma PushFrames(events: seq<Event>, stack: seq<Frame>, paths: seq<seq<Choice>>, visited: set<Node>,
                   cursor: nat, node': Node, i: nat, path': seq<Choice>)
    requires stack != [] && FramesOk(events, stack, paths, visited) && cursor <= 2 * (AHEAD + 1)
    requires TriedTo(events, visited + {node'}, stack[|stack| - 1].node, cursor)
    requires FrameOk(events, visited + {node'}, Frame(node', 0, Some(i)), path')
    requires IndicesOf(path') == IndicesOf(paths[|stack| - 1]) + [i]
    ensures FramesOk(events, Pushed(stack, cursor, node', i), paths + [path'], visited + {node'})
  {
    hide Valid, Leads, PlacedBy, IndicesOf;
    var stack', k := Pushed(stack, cursor, node', i), |stack|;
    forall j | 0 <= j <= k
      ensures FrameOk(events, visited + {node'}, stack'[j], (paths + [path'])[j])
      ensures IndicesOf((paths + [path'])[j]) == Chosen(stack'[..j + 1])
    {
      if j < k {
        assert FrameOk(events, visited, stack[j], paths[j]);
        TriedStays(events, visited, visited + {node'}, stack[j].node, stack[j].cursor);
        ChosenSame(stack[..j + 1], stack'[..j + 1]);
      } else {
        ChosenSame(stack, stack'[..k]);
        assert stack[..k] == stack && stack'[..k + 1][..k] == stack'[..k];
      }
    }
  }

  // ---- the verdict ---------------------------------------------------------------------------------------

  /** The culprit is an operation no order gets past, and the prefix reported is one that places
      everything before it and leaves the register at the reported value. */
  ghost predicate Explains(events: seq<Event>, w: Violation) {
    exists k: nat, order, placed ::
      && k < |events| && w.culprit == events[k] && Blocked(events, k)
      && Leads(events, None, {}, order, w.value, placed) && (forall j :: 0 <= j < k ==> j in placed)
      && w.linearized == EventsAt(events, IndicesOf(order))
  }

  /** The deepest frontier reached so far, and how. */
  ghost predicate Best(events: seq<Event>, visited: set<Node>, node: Node, path: seq<Choice>) {
    && (node in visited || node == ROOT) && Valid(|events|, node)
    && Leads(events, None, {}, path, node.value, PlacedBy(node))
    && (forall x :: x in visited ==> x.frontier <= node.frontier)
  }

  lemma Exhausted(events: seq<Event>, visited: set<Node>, best: Node, path: seq<Choice>)
    requires NodesOk(events, [], visited, false) && Best(events, visited, best, path)
    ensures best.frontier < |events| && Blocked(events, best.frontier) && !Orderable(events)
    ensures forall j :: 0 <= j < best.frontier ==> j in PlacedBy(best)
  {
    forall node | node in visited || node == ROOT
      ensures Valid(|events|, node) && Closed(events, visited, node, false)
    {
      assert NodeDone(events, [], visited, false, node);
    }
    assert PlacedBy(ROOT) == {};
    forall order, v, placed | Leads(events, None, {}, order, v, placed)
      ensures exists j: nat :: j <= best.frontier && j !in placed
    {
      ClosedBlocks(events, visited, ROOT, best.frontier, ROOT, order, v, placed);
    }
    BlockedIsNotOrderable(events, best.frontier);
    forall j | 0 <= j < best.frontier
      ensures j in PlacedBy(best)
    {
      assert InPlace(best, j);
    }
  }

  lemma Reached(events: seq<Event>, visited: set<Node>, frame: Frame, path: seq<Choice>)
    requires FrameOk(events, visited, frame, path) && frame.node.frontier == |events|
    ensures Orderable(events)
  {
    forall i | 0 <= i < |events|
      ensures i in PlacedBy(frame.node)
    {
      assert InPlace(frame.node, i);
    }
    assert Complete(events, PlacedBy(frame.node));
  }

  lemma StartOk(events: seq<Event>)
    ensures FramesOk(events, [Frame(ROOT, 0, None)], [[]], {}) && NodesOk(events, [Frame(ROOT, 0, None)], {}, false)
    ensures Best(events, {}, ROOT, [])
  {
    var stack := [Frame(ROOT, 0, None)];
    assert PlacedBy(ROOT) == {};
    assert stack[0].node == ROOT && OnStack(stack, ROOT);
    assert stack[..1] == stack && Chosen(stack) == [];
  }

  lemma BestMoves(events: seq<Event>, visited: set<Node>, best: Node, path: seq<Choice>, node': Node,
                  path': seq<Choice>)
    requires Best(events, visited, best, path) && Valid(|events|, node')
    requires Leads(events, None, {}, path', node'.value, PlacedBy(node'))
    ensures if node'.frontier > best.frontier then Best(events, visited + {node'}, node', path')
            else Best(events, visited + {node'}, best, path)
  {
  }

  /** Everything the loop keeps: `paths[j]` leads to frame `j` and `bestPath` to the deepest node. */
  ghost predicate Searching(events: seq<Event>, stack: seq<Frame>, paths: seq<seq<Choice>>, visited: set<Node>,
                            cut: bool,
                            best: Node, bestPath: seq<Choice>) {
    && FramesOk(events, stack, paths, visited) && NodesOk(events, stack, visited, cut)
    && Best(events, visited, best, bestPath) && (cut ==> WindowExceeded(events))
  }

  lemma TopFrame(events: seq<Event>, stack: seq<Frame>, paths: seq<seq<Choice>>, visited: set<Node>, cut: bool,
                 best: Node, bestPath: seq<Choice>)
    requires Searching(events, stack, paths, visited, cut, best, bestPath) && stack != []
    ensures |paths| == |stack| && FrameOk(events, visited, stack[|stack| - 1], paths[|stack| - 1])
    ensures var frame := stack[|stack| - 1];
            Valid(|events|, frame.node) && TriedTo(events, visited, frame.node, frame.cursor)
            && frame.cursor <= 2 * (AHEAD + 1)
    ensures Chosen(stack) == IndicesOf(paths[|stack| - 1])
  {
    assert stack[..|stack| - 1 + 1] == stack;
  }

  lemma PopStep(events: seq<Event>, stack: seq<Frame>, paths: seq<seq<Choice>>, visited: set<Node>, cut: bool,
                best: Node, bestPath: seq<Choice>, cut': bool)
    requires Searching(events, stack, paths, visited, cut, best, bestPath) && stack != []
    requires (cut ==> cut') && (cut' ==> cut || WindowExceeded(events))
    requires Closed(events, visited, stack[|stack| - 1].node, cut')
    ensures |paths| == |stack|
    ensures Searching(events, stack[..|stack| - 1], paths[..|stack| - 1], visited, cut', best, bestPath)
  {
    hide Best, Closed, WindowExceeded;
    PopKeeps(events, stack, visited, cut, cut');
    PopFrames(events, stack, paths, visited);
  }

  lemma PushStep(events: seq<Event>, stack: seq<Frame>, paths: seq<seq<Choice>>, visited: set<Node>, cut: bool,
                 best: Node, bestPath: seq<Choice>, cut': bool, cursor: nat, node': Node, i: nat, path': seq<Choice>)
    requires Searching(events, stack, paths, visited, cut, best, bestPath) && stack != [] && |paths| == |stack|
    requires (cut ==> cut') && (cut' ==> cut || WindowExceeded(events)) && cursor <= 2 * (AHEAD + 1)
    requires TriedTo(events, visited + {node'}, stack[|stack| - 1].node, cursor)
    requires FrameOk(events, visited + {node'}, Frame(node', 0, Some(i)), path')
    requires IndicesOf(path') == IndicesOf(paths[|stack| - 1]) + [i]
    ensures var deeper := node'.frontier > best.frontier;
            Searching(events, Pushed(stack, cursor, node', i), paths + [path'], visited + {node'}, cut',
                      if deeper then node' else best, if deeper then path' else bestPath)
  {
    hide WindowExceeded, NodesOk, FramesOk, Best, TriedTo, Leads, PlacedBy, Valid, Pushed, IndicesOf;
    PushKeeps(events, stack, visited, cut, cut', cursor, node', i);
    PushFrames(events, stack, paths, visited, cursor, node', i, path');
    BestMoves(events, visited, best, bestPath, node', path');
  }

  lemma Unlucky(events: seq<Event>, paths: seq<seq<Choice>>, visited: set<Node>, best: Node, bestPath: seq<Choice>,
                w: Violation)
    requires Searching(events, [], paths, visited, false, best, bestPath)
    requires best.frontier < |events| ==> w.culprit == events[best.frontier]
    requires w.value == best.value && w.linearized == EventsAt(events, IndicesOf(bestPath))
    ensures best.frontier < |events| && !Orderable(events) && Explains(events, w)
  {
    hide Blocked, Leads;
    Exhausted(events, visited, best, bestPath);
    assert Leads(events, None, {}, bestPath, w.value, PlacedBy(best));
  }

  lemma StartSearching(events: seq<Event>)
    ensures Searching(events, [Frame(ROOT, 0, None)], [[]], {}, false, ROOT, [])
  {
    StartOk(events);
  }

  /** Wing and Gong's search over one key's operations, in order of invocation. */
  method Search(events: seq<Event>, maxStates: nat) returns (verdict: Verdict)
    requires Ordered(events) && events != []
    ensures verdict.Linearizable? ==> Orderable(events)
    ensures verdict.NotLinearizable? ==> !Orderable(events) && Explains(events, verdict.violation)
    ensures verdict.Inconclusive? ==> verdict.explored > maxStates || WindowExceeded(events)
  {
    hide Searching, Orderable, Explains, WindowExceeded, Ordered, IndicesOf, EventsAt, Target, MoveAt, TriedTo, Closed;
    hide Leads, PlacedBy, Chosen, Filter, Pushed, FrameOk, Valid;
    var n := |events|;
    var visited: set<Node> := {};
    var explored, boundedOut := 0, false;
    var bestDepth, bestTrace: seq<nat>, bestModel: Value := 0, [], None;
    var stack := [Frame(ROOT, 0, None)];
    ghost var paths: seq<seq<Choice>> := [[]];
    ghost var best, bestPath: seq<Choice> := ROOT, [];
    StartSearching(events);
    NoIndices();
    while stack != []
      invariant explored <= maxStates
      invariant Searching(events, stack, paths, visited, boundedOut, best, bestPath)
      invariant bestDepth == best.frontier && bestModel == best.value && bestTrace == IndicesOf(bestPath)
      decreases maxStates - explored
    {
      explored := explored + 1;
      if explored > maxStates {
        return Inconclusive(explored);
      }
      var top := |stack| - 1;
      var frame := stack[top];
      TopFrame(events, stack, paths, visited, boundedOut, best, bestPath);
      if frame.node.frontier == n {
        Reached(events, visited, frame, paths[top]);
        return Linearizable;
      }
      WithinEvents(events, frame.node);
      var cursor, found, cut := Resume(events, frame, visited, boundedOut);
      if found.None? {
        PopStep(events, stack, paths, visited, boundedOut, best, bestPath, cut);
        stack, paths := stack[..top], paths[..top];
      } else {
        var (node', i) := found.value;
        ghost var path' := paths[top] + [Choice(i, (cursor - 1) % 2 == 0)];
        PushedFrame(events, frame, paths[top], visited, cursor - 1);
        IndicesGrow(paths[top], Choice(i, (cursor - 1) % 2 == 0));
        PushStep(events, stack, paths, visited, boundedOut, best, bestPath, cut, cursor, node', i, path');
        visited := visited + {node'};
        if node'.frontier > bestDepth {
          bestDepth, bestTrace, bestModel := node'.frontier, Chosen(stack) + [i], node'.value;
          best, bestPath := node', path';
        }
        stack, paths := Pushed(stack, cursor, node', i), paths + [path'];
      }
      boundedOut := cut;
    }
    if boundedOut {
      CutIsExcess(events, paths, visited, best, bestPath);
      return Inconclusive(explored);
    }
    var culprit := events[if bestDepth < n - 1 then bestDepth else n - 1];
    var violation := Violation(culprit, EventsAt(events, bestTrace), bestModel, Filter(events, culprit));
    Unlucky(events, paths, visited, best, bestPath, violation);
    verdict := NotLinearizable(violation);
  }

  lemma WithinEvents(events: seq<Event>, node: Node)
    requires Valid(|events|, node)
    ensures node.frontier <= |events|
  {
  }

  /** Check one key. A pass exhibits an order, a failure proves there is none and explains why, and
      giving up happens only for want of budget or window. */
  method CheckOneKey(history: seq<Event>, maxStates: nat) returns (verdict: Verdict)
    ensures verdict.Linearizable? ==> Orderable(Sorted(history))
    ensures verdict.NotLinearizable? ==> !Orderable(Sorted(history)) && Explains(Sorted(history), verdict.violation)
    ensures verdict.Inconclusive? ==> verdict.explored > maxStates || WindowExceeded(Sorted(history))
  {
    var events := Sorted(history);
    SortedSorts(history);
    if events == [] {
      assert Leads(events, None, {}, [], None, {}) && Complete(events, {});
      return Linearizable;
    }
    verdict := Search(events, maxStates);
  }

  lemma NoIndices()
    ensures IndicesOf([]) == []
  {
  }

  lemma CutIsExcess(events: seq<Event>, paths: seq<seq<Choice>>, visited: set<Node>, best: Node, bestPath: seq<Choice>)
    requires Searching(events, [], paths, visited, true, best, bestPath)
    ensures WindowExceeded(events)
  {
  }

  lemma IndicesGrow(path: seq<Choice>, c: Choice)
    ensures IndicesOf(path + [c]) == IndicesOf(path) + [c.i]
  {
  }

  /** The operations concurrent with the culprit. */
  function Filter(events: seq<Event>, culprit: Event): seq<Event> {
    if events == [] then []
    else
      var rest := Filter(events[..|events| - 1], culprit);
      var e := events[|events| - 1];
      if e.ConcurrentWith(culprit) && e != culprit then rest + [e] else rest
  }
}
