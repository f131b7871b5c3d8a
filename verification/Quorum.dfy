/** Majorities, simple and joint (crates/chronolog/src/types.rs, lines 148-198). */
module Quorum {
  import opened Types

  predicate Majority(group: set<NodeId>, votes: set<NodeId>) {
    group == {} || |group * votes| * 2 > |group|
  }

  /** Does `votes` decide? A joint configuration needs a majority of both halves. */
  predicate HasQuorum(cfg: Config, votes: set<NodeId>) {
    if cfg.voters == {} && cfg.outgoing == {} then false
    else Majority(cfg.voters, votes) && (!cfg.IsJoint() || Majority(cfg.outgoing, votes))
  }

  // ---- sets in iteration order ---------------------------------------------

  predicate IsSmallest(s: set<nat>, m: nat) {
    m in s && forall x :: x in s ==> m <= x
  }

  lemma {:induction false} SmallestExists(s: set<nat>)
    requires s != {}
    ensures exists m :: IsSmallest(s, m)
  {
    var m :| m in s;
    var rest := s - {m};
    if rest == {} {
      assert s == {m};
      assert IsSmallest(s, m);
    } else {
      SmallestExists(rest);
      var r :| IsSmallest(rest, r);
      assert forall x :: x in s ==> x == m || x in rest;
      assert IsSmallest(s, if r < m then r else m);
    }
  }

  function Smallest(s: set<nat>): (m: nat)
    requires s != {}
    ensures m in s && forall x :: x in s ==> m <= x
  {
    SmallestExists(s);
    var m :| IsSmallest(s, m);
    m
  }

  lemma AscendingCons(x: nat, s: seq<nat>)
    requires (forall i, j :: 0 <= i < j < |s| ==> s[i] < s[j]) && forall y :: y in s ==> x < y
    ensures var r := [x] + s;
            && (forall i, j :: 0 <= i < j < |r| ==> r[i] < r[j])
            && forall y :: y in r <==> y == x || y in s
  {
    var r := [x] + s;
    forall i, j | 0 <= i < j < |r|
      ensures r[i] < r[j]
    {
      assert r[j] == s[j - 1] && s[j - 1] in s;
    }
  }

  /** The elements of an ordered set, in the order an iterator yields them. */
  function Ascending(s: set<nat>): (r: seq<nat>)
    ensures |r| == |s|
    ensures forall x :: x in r <==> x in s
    ensures forall i, j :: 0 <= i < j < |r| ==> r[i] < r[j]
  {
    if s == {} then []
    else
      var least := Smallest(s);
      var rest := Ascending(s - {least});
      AscendingCons(least, rest);
      [least] + rest
  }

  // ---- the commit index a leader may claim ----------------------------------

  function InsertDescending(x: nat, s: seq<nat>): (r: seq<nat>)
    ensures |r| == |s| + 1
  {
    if s == [] || x >= s[0] then [x] + s else [s[0]] + InsertDescending(x, s[1..])
  }

  function SortDescending(s: seq<nat>): (r: seq<nat>)
    ensures |r| == |s|
  {
    if s == [] then [] else InsertDescending(s[0], SortDescending(s[1..]))
  }

  function MatchedOf(ids: seq<NodeId>, matched: NodeId -> nat): (r: seq<nat>)
    ensures |r| == |ids|
  {
    if ids == [] then [] else [matched(ids[0])] + MatchedOf(ids[1..], matched)
  }

  /** The highest index held by a majority of one non-empty group. */
  function QuorumOf(group: set<NodeId>, matched: NodeId -> nat): nat
    requires group != {}
  {
    SortDescending(MatchedOf(Ascending(group), matched))[|group| / 2]
  }

  function QuorumIndex(cfg: Config, matched: NodeId -> nat): nat {
    if cfg.voters != {} && cfg.outgoing != {} then
      var a, b := QuorumOf(cfg.voters, matched), QuorumOf(cfg.outgoing, matched);
      if a < b then a else b
    else if cfg.voters != {} then QuorumOf(cfg.voters, matched)
    else if cfg.outgoing != {} then QuorumOf(cfg.outgoing, matched)
    else 0
  }

  // ---- counting ---------------------------------------------------------------

  ghost function CountAtLeast(s: seq<nat>, i: nat): nat {
    if s == [] then 0 else (if s[0] >= i then 1 else 0) + CountAtLeast(s[1..], i)
  }

  ghost predicate Descending(s: seq<nat>) {
    forall a, b :: 0 <= a < b < |s| ==> s[a] >= s[b]
  }

  lemma {:induction false} InsertKeepsOrderAndCount(x: nat, s: seq<nat>, i: nat)
    requires Descending(s)
    ensures Descending(InsertDescending(x, s))
    ensures forall y :: y in InsertDescending(x, s) ==> y == x || y in s
    ensures CountAtLeast(InsertDescending(x, s), i) == CountAtLeast(s, i) + (if x >= i then 1 else 0)
  {
    assert forall y :: y in s ==> y <= s[0];
    if s == [] || x >= s[0] {
      assert ([x] + s)[1..] == s;
      DescendingCons(x, s);
    } else {
      assert Descending(s[1..]);
      hide Descending;
      InsertKeepsOrderAndCount(x, s[1..], i);
      var r := InsertDescending(x, s[1..]);
      assert ([s[0]] + r)[1..] == r;
      DescendingCons(s[0], r);
    }
  }

  lemma DescendingCons(x: nat, s: seq<nat>)
    requires Descending(s) && forall y :: y in s ==> y <= x
    ensures Descending([x] + s)
  {
    var r := [x] + s;
    forall i, j | 0 <= i < j < |r|
      ensures r[i] >= r[j]
    {
      assert r[j] == s[j - 1] && s[j - 1] in s;
    }
  }

  lemma {:induction false} SortKeepsOrderAndCount(s: seq<nat>, i: nat)
    ensures Descending(SortDescending(s))
    ensures CountAtLeast(SortDescending(s), i) == CountAtLeast(s, i)
  {
    if s != [] {
      SortKeepsOrderAndCount(s[1..], i);
      InsertKeepsOrderAndCount(s[0], SortDescending(s[1..]), i);
    }
  }

  lemma {:induction false} DescendingPosition(s: seq<nat>, k: nat, i: nat)
    requires Descending(s) && k < |s|
    ensures s[k] >= i <==> CountAtLeast(s, i) > k
  {
    CountBounded(s[1..], i);
    if k == 0 {
      if s[0] < i { NoneCounted(s, i); }
    } else {
      DescendingPosition(s[1..], k - 1, i);
      if s[0] < i { NoneCounted(s, i); }
    }
  }

  lemma {:induction false} CountBounded(s: seq<nat>, i: nat)
    ensures CountAtLeast(s, i) <= |s|
  {
    if s != [] { CountBounded(s[1..], i); }
  }

  lemma {:induction false} NoneCounted(s: seq<nat>, i: nat)
    requires forall k :: 0 <= k < |s| ==> s[k] < i
    ensures CountAtLeast(s, i) == 0
  {
    if s != [] { NoneCounted(s[1..], i); }
  }

  /** The members of `group` whose matched index reaches `i`. */
  ghost function Reaching(group: set<NodeId>, matched: NodeId -> nat, i: nat): set<NodeId> {
    set id | id in group && matched(id) >= i
  }

  lemma MatchedOfCons(m: NodeId, ids: seq<NodeId>, matched: NodeId -> nat, i: nat)
    ensures CountAtLeast(MatchedOf([m] + ids, matched), i)
         == (if matched(m) >= i then 1 else 0) + CountAtLeast(MatchedOf(ids, matched), i)
  {
    assert ([m] + ids)[1..] == ids;
    var rest := MatchedOf(ids, matched);
    assert ([matched(m)] + rest)[1..] == rest;
  }

  lemma ReachingCons(group: set<NodeId>, m: NodeId, matched: NodeId -> nat, i: nat)
    requires m in group
    ensures |Reaching(group, matched, i)| == |Reaching(group - {m}, matched, i)| + if matched(m) >= i then 1 else 0
  {
    assert Reaching(group, matched, i) == Reaching(group - {m}, matched, i) + if matched(m) >= i then {m} else {};
  }

  lemma {:induction false} CountIsReaching(ids: seq<NodeId>, group: set<NodeId>, matched: NodeId -> nat, i: nat)
    requires forall k, l :: 0 <= k < l < |ids| ==> ids[k] < ids[l]
    requires forall x :: x in ids <==> x in group
    ensures CountAtLeast(MatchedOf(ids, matched), i) == |Reaching(group, matched, i)|
  {
    if ids == [] {
      assert Reaching(group, matched, i) == {};
    } else {
      var m, tail, rest := ids[0], ids[1..], group - {ids[0]};
      assert ids == [m] + tail;
      CountIsReaching(tail, rest, matched, i);
      hide Reaching, CountAtLeast, MatchedOf;
      MatchedOfCons(m, tail, matched, i);
      ReachingCons(group, m, matched, i);
    }
  }

  lemma QuorumOfIsMajority(group: set<NodeId>, matched: NodeId -> nat, i: nat, votes: set<NodeId>)
    requires group != {}
    requires forall id :: id in group ==> (id in votes <==> matched(id) >= i)
    ensures i <= QuorumOf(group, matched) <==> Majority(group, votes)
  {
    var s := MatchedOf(Ascending(group), matched);
    SortKeepsOrderAndCount(s, i);
    DescendingPosition(SortDescending(s), |group| / 2, i);
    CountIsReaching(Ascending(group), group, matched, i);
    assert Reaching(group, matched, i) == group * votes;
  }

  /** `QuorumIndex` is the fast form of `HasQuorum`: an index above zero is at or below it exactly
      when the nodes that have reached the index form a quorum. */
  lemma QuorumIndexDecides(cfg: Config, matched: NodeId -> nat, i: nat, votes: set<NodeId>)
    requires i > 0
    requires forall id :: cfg.IsVoter(id) ==> (id in votes <==> matched(id) >= i)
    ensures i <= QuorumIndex(cfg, matched) <==> HasQuorum(cfg, votes)
  {
    if cfg.voters != {} { QuorumOfIsMajority(cfg.voters, matched, i, votes); }
    if cfg.outgoing != {} { QuorumOfIsMajority(cfg.outgoing, matched, i, votes); }
  }

  // ---- intersection -------------------------------------------------------------

  lemma MajoritiesIntersect(group: set<NodeId>, a: set<NodeId>, b: set<NodeId>)
    requires group != {} && Majority(group, a) && Majority(group, b)
    ensures exists id :: id in group && id in a && id in b
  {
    var x, y := group * a, group * b;
    if x * y == {} {
      assert |x + y| == |x| + |y|;
      SubsetSize(x + y, group);
    } else {
      var id :| id in x * y;
    }
  }

  lemma {:induction false} SubsetSize(a: set<NodeId>, b: set<NodeId>)
    requires a <= b
    ensures |a| <= |b|
    decreases |a|
  {
    if a != {} {
      var x :| x in a;
      SubsetSize(a - {x}, b - {x});
    }
  }

  /** Any two quorums of one configuration share a voter. */
  lemma QuorumsIntersect(cfg: Config, a: set<NodeId>, b: set<NodeId>)
    requires HasQuorum(cfg, a) && HasQuorum(cfg, b)
    ensures exists id :: cfg.IsVoter(id) && id in a && id in b
  {
    if cfg.voters != {} {
      MajoritiesIntersect(cfg.voters, a, b);
    } else {
      MajoritiesIntersect(cfg.outgoing, a, b);
    }
  }

  lemma QuorumGrows(cfg: Config, a: set<NodeId>, b: set<NodeId>)
    requires HasQuorum(cfg, a) && a <= b
    ensures HasQuorum(cfg, b)
  {
    SubsetSize(cfg.voters * a, cfg.voters * b);
    SubsetSize(cfg.outgoing * a, cfg.outgoing * b);
  }

  /** A node that is a quorum by itself is the only voter. */
  lemma SoleVoter(cfg: Config, n: NodeId, m: NodeId)
    requires HasQuorum(cfg, {n}) && cfg.IsVoter(m)
    ensures m == n
  {
    if m in cfg.voters { MajorityOfOne(cfg.voters, n, m); }
    if m in cfg.outgoing { MajorityOfOne(cfg.outgoing, n, m); }
  }

  lemma MajorityOfOne(group: set<NodeId>, n: NodeId, m: NodeId)
    requires m in group && Majority(group, {n})
    ensures m == n
  {
    SubsetSize(group * {n}, {n});
    if m != n {
      if n in group { SubsetSize({n, m}, group); }
    }
  }

  // ---- membership changes --------------------------------------------------------

  /** What a configuration entry does to the configuration (crates/chronolog/src/log.rs:289-302). */
  function ApplyChange(cfg: Config, change: ConfigChange): Config {
    match change
    case EnterJoint(incoming, learners) => Config(incoming, cfg.voters, learners)
    case LeaveJoint => cfg.(outgoing := {})
  }

  /** The guard of `propose_config` on the configuration (crates/chronolog/src/raft.rs:505-509). */
  predicate Admissible(cfg: Config, change: ConfigChange) {
    match change
    case EnterJoint(_, _) => !cfg.IsJoint()
    case LeaveJoint => cfg.IsJoint()
  }

  /** A chain of configurations, each reached from the one before by an admitted change. */
  ghost predicate ConfigRun(cfgs: seq<Config>, changes: seq<ConfigChange>) {
    && |cfgs| == |changes| + 1
    && forall i :: 0 <= i < |changes| ==>
         Admissible(cfgs[i], changes[i]) && cfgs[i + 1] == ApplyChange(cfgs[i], changes[i])
  }

  /** Along every run of admitted changes, a quorum of one configuration meets every quorum of the
      same configuration and of the next, so no two of them decide apart. */
  lemma QuorumsOverlapAlongRun(cfgs: seq<Config>, changes: seq<ConfigChange>, i: nat, a: set<NodeId>, b: set<NodeId>)
    requires ConfigRun(cfgs, changes) && i < |cfgs|
    requires HasQuorum(cfgs[i], a)
    requires HasQuorum(cfgs[i], b) || (i + 1 < |cfgs| && HasQuorum(cfgs[i + 1], b))
    ensures exists id :: cfgs[i].IsVoter(id) && id in a && id in b
  {
    if HasQuorum(cfgs[i], b) {
      QuorumsIntersect(cfgs[i], a, b);
    } else {
      assert cfgs[i + 1] == ApplyChange(cfgs[i], changes[i]);
      MajoritiesIntersect(cfgs[i].voters, a, b);
    }
  }
}
