/** Every choice of windows that can harm does so in some run of the cluster
    (crates/chrono-oracle/src/history.rs:66-83, crates/chrono-oracle/src/linearizability.rs:363-408).

    The run has one node, which is given one command after another and commits each with its next cycle.
    Between commands it waits, so that each takes effect at the time its window calls for. */
module GiveUpRuns {
  import opened Types
  import opened Codec
  import opened RaftLog
  import opened RaftNode
  import opened RaftDriver
  import opened RaftCluster
  import opened SoloRun
  import opened Replicas
  import opened Linearizable
  import C = ClientCodec
  import F = LinearFrontier
  import G = LinearGiveUp
  import H = ClientHistory
  import K = KvStore
  import L = LinearPerKey
  import Q = KvOracle

  // ---- a node that is given commands ------------------------------------------------------------------

  function LogOf(datas: seq<Bytes>): (r: seq<Entry>)
    ensures |r| == |datas| + 1 && r[0] == NOOP
    ensures forall k :: 0 < k < |r| ==> r[k] == Entry(1, k + 1, Normal(datas[k - 1]))
  {
    [NOOP] + seq(|datas|, k requires 0 <= k < |datas| => Entry(1, k + 2, Normal(datas[k])))
  }

  /** Everything stored and committed, all but the last applied. */
  function Rest(full: seq<Entry>): Cluster
    requires full != []
  {
    var m := Solo(full, |full|, |full| - 1, |full|, |full|, 0, [], true, VOTED, None);
    Cluster(map[1 := m], map[1 := Disk(VOTED, [], Wal(1, full))], {}, |full|)
  }

  /** The last entry just proposed. */
  function Busy(full: seq<Entry>): Cluster
    requires |full| > 1
  {
    var k := |full| - 1;
    var m := Solo(full, k, k - 1, k, k, 0, [], true, VOTED, Some(k + 1));
    Cluster(map[1 := m], map[1 := Disk(VOTED, [], Wal(1, full[..k]))], {}, k)
  }

  function Held(full: seq<Entry>, applied: nat): map<NodeId, K.Store>
    requires applied <= |full|
  {
    map[1 := StoreOf(full[..applied])]
  }

  lemma LogIndexed(datas: seq<Bytes>)
    ensures Indexed(LogOf(datas)) && LogOf(datas)[|datas|].term == 1
  {
  }

  lemma Waits(interval: nat, full: seq<Entry>)
    requires full != []
    ensures Enabled(Rest(full), Transfer(1, 1)) && Next(Lone(interval), Rest(full), Transfer(1, 1)) == Rest(full)
  {
    var m := Rest(full).mem[1];
    assert map[1 := m][1 := m] == map[1 := m];
  }

  lemma Takes(interval: nat, full: seq<Entry>, data: Bytes)
    requires full != []
    ensures var a := Proposal(1, data);
            && Enabled(Rest(full), a)
            && Next(Lone(interval), Rest(full), a) == Busy(full + [Entry(1, |full| + 1, Normal(data))])
  {
    hide Propose;
    Proposed(interval, full, |full| - 1, 0, data);
    var full' := full + [Entry(1, |full| + 1, Normal(data))];
    assert full'[..|full|] == full;
    assert map[1 := Rest(full).mem[1]][1 := Busy(full').mem[1]] == map[1 := Busy(full').mem[1]];
  }

  lemma Commits(interval: nat, full: seq<Entry>)
    requires |full| > 1 && Indexed(full) && full[|full| - 1].term == 1 && |full| <= interval
    ensures Enabled(Busy(full), Work(1, 0)) && Next(Lone(interval), Busy(full), Work(1, 0)) == Rest(full)
    ensures HandedOut(Lone(interval), Busy(full), Work(1, 0)) == full[|full| - 2..|full| - 1]
  {
    hide Cycle, Indexed;
    var k := |full| - 1;
    Worked(interval, full, k, k, k - 1, 0, [], VOTED);
    var s, s' := Busy(full), Rest(full);
    assert map[1 := s.mem[1]][1 := s'.mem[1]] == map[1 := s'.mem[1]];
    assert map[1 := s.disk[1]][1 := s'.disk[1]] == map[1 := s'.disk[1]];
    var sent: seq<Packet> := [];
    assert (set p | p in sent) == {};
  }

  // ---- its run -------------------------------------------------------------------------------------------

  function Then(t: Trace, a: Action, s: Cluster, stores: map<NodeId, K.Store>): Trace {
    t.(ss := t.ss + [s], acts := t.acts + [a], kvs := t.kvs + [stores])
  }

  /** The run has come this far, and the node rests with this log. */
  ghost predicate Resting(t: Trace, interval: nat, full: seq<Entry>) {
    && IsTrace(t) && t.env == Lone(interval) && full != [] && Ends(t, Rest(full), Held(full, |full| - 1))
  }

  ghost predicate Ends(t: Trace, s: Cluster, stores: map<NodeId, K.Store>) {
    |t.ss| == |t.kvs| == |t.acts| + 1 && t.ss[|t.acts|] == s && t.kvs[|t.acts|] == stores
  }

  lemma ThenIsTrace(t: Trace, s: Cluster, stores: map<NodeId, K.Store>, a: Action)
    requires IsTrace(t) && Ends(t, s, stores) && Enabled(s, a) && s.mem.Keys <= stores.Keys
    ensures IsTrace(Then(t, a, Next(t.env, s, a), NextStores(t.env, s, a, stores)))
  {
    hide Next, NextStores, Initial;
    var t' := Then(t, a, Next(t.env, s, a), NextStores(t.env, s, a, stores));
    forall i | 0 <= i < |t'.acts|
      ensures StepAt(t'.env, t'.ss, t'.acts, i) && StoresStep(t'.env, t'.ss, t'.acts, t'.kvs, i)
    {
      if i < |t.acts| { assert StepAt(t.env, t.ss, t.acts, i) && StoresStep(t.env, t.ss, t.acts, t.kvs, i); }
    }
  }

  /** `more` goes on where `t` ends, and proposes nothing before step `from`. */
  ghost predicate GoesOn(t: Trace, more: Trace, from: nat) {
    && t.ss <= more.ss && t.acts <= more.acts
    && forall p :: |t.acts| <= p < |more.acts| && p < from ==> !more.acts[p].Proposal?
  }

  lemma {:induction false} WaitFor(t: Trace, interval: nat, full: seq<Entry>, n: nat) returns (r: Trace)
    requires Resting(t, interval, full)
    ensures Resting(r, interval, full) && |r.acts| == |t.acts| + n && GoesOn(t, r, |r.acts|)
  {
    hide IsTrace, Rest, Held, Next, NextStores;
    if n == 0 {
      r := t;
    } else {
      var u := WaitFor(t, interval, full, n - 1);
      Waits(interval, full);
      WaitsStores(interval, full);
      ThenIsTrace(u, Rest(full), Held(full, |full| - 1), Transfer(1, 1));
      r := Then(u, Transfer(1, 1), Rest(full), Held(full, |full| - 1));
    }
  }

  lemma WaitsStores(interval: nat, full: seq<Entry>)
    requires full != [] && Enabled(Rest(full), Transfer(1, 1))
    ensures var stores := Held(full, |full| - 1);
            && Rest(full).mem.Keys <= stores.Keys
            && NextStores(Lone(interval), Rest(full), Transfer(1, 1), stores) == stores
  {
    hide StoreOf;
  }

  lemma TakesStores(interval: nat, full: seq<Entry>, data: Bytes)
    requires full != [] && Enabled(Rest(full), Proposal(1, data))
    ensures var stores := Held(full, |full| - 1);
            && Rest(full).mem.Keys <= stores.Keys
            && NextStores(Lone(interval), Rest(full), Proposal(1, data), stores) == stores
  {
    hide StoreOf;
  }

  lemma CommitsStores(interval: nat, full: seq<Entry>)
    requires |full| > 1 && Enabled(Busy(full), Work(1, 0))
    requires HandedOut(Lone(interval), Busy(full), Work(1, 0)) == full[|full| - 2..|full| - 1]
    ensures var stores := Held(full, |full| - 2);
            && Busy(full).mem.Keys <= stores.Keys
            && NextStores(Lone(interval), Busy(full), Work(1, 0), stores) == Held(full, |full| - 1)
  {
    hide StoreOf, HandedOut, Commands, K.Replay;
    StoreGoesOn(full, |full| - 2, |full| - 1);
  }

  /** One command: proposed, then committed. */
  lemma Serve(t: Trace, interval: nat, datas: seq<Bytes>, data: Bytes) returns (r: Trace)
    requires Resting(t, interval, LogOf(datas)) && |datas| + 2 <= interval
    ensures Resting(r, interval, LogOf(datas + [data])) && GoesOn(t, r, |t.acts|) && |r.acts| == |t.acts| + 2
    ensures r.acts[|t.acts|] == Proposal(1, data) && !r.acts[|t.acts| + 1].Proposal?
  {
    hide IsTrace, Rest, Busy, Held, Next, NextStores, LogOf;
    var full, full' := LogOf(datas), LogOf(datas + [data]);
    LongerLog(datas, data);
    LogIndexed(datas + [data]);
    hide Indexed;
    Takes(interval, full, data);
    TakesStores(interval, full, data);
    ThenIsTrace(t, Rest(full), Held(full, |full| - 1), Proposal(1, data));
    var u := Then(t, Proposal(1, data), Busy(full'), Held(full, |full| - 1));
    Commits(interval, full');
    HeldSame(full, full', |full| - 1);
    CommitsStores(interval, full');
    ThenIsTrace(u, Busy(full'), Held(full', |full'| - 2), Work(1, 0));
    r := Then(u, Work(1, 0), Rest(full'), Held(full', |full'| - 1));
  }

  lemma LongerLog(datas: seq<Bytes>, data: Bytes)
    ensures var full := LogOf(datas); LogOf(datas + [data]) == full + [Entry(1, |full| + 1, Normal(data))]
  {
  }

  lemma HeldSame(full: seq<Entry>, full': seq<Entry>, k: nat)
    requires k <= |full| <= |full'| && full'[..|full|] == full
    ensures Held(full, k) == Held(full', k)
  {
    hide StoreOf;
    assert full'[..k] == full'[..|full|][..k];
  }

  /** Elected, and nothing stored yet. */
  function Won(): Cluster {
    var m := Solo([NOOP], 0, 0, 0, 0, 0, [], true, HardState(0, None, 0), Some(1));
    Cluster(map[1 := m], map[1 := BlankDisk()], {}, 0)
  }

  lemma StartIsTrace(env: Env)
    ensures IsTrace(Trace(env, [Initial(env)], [], [NoStores(env)]))
  {
    hide Initial, NoStores;
  }

  lemma Opening(interval: nat) returns (t: Trace)
    requires interval > 1
    ensures Resting(t, interval, [NOOP]) && |t.acts| == 2 && forall p :: 0 <= p < 2 ==> !t.acts[p].Proposal?
  {
    hide IsTrace, Next, NextStores, NoStores, Initial, Rest, Won, Held;
    var env := Lone(interval);
    var t0 := Trace(env, [Initial(env)], [], [NoStores(env)]);
    StartIsTrace(env);
    FirstStep(interval);
    SecondStep(interval);
    ThenIsTrace(t0, Initial(env), NoStores(env), Ticks(1, 0));
    var t1 := Then(t0, Ticks(1, 0), Won(), NoStores(env));
    ThenIsTrace(t1, Won(), NoStores(env), Work(1, 0));
    t := Then(t1, Work(1, 0), Rest([NOOP]), NoStores(env));
  }

  lemma FirstStep(interval: nat)
    ensures var env := Lone(interval);
            && Enabled(Initial(env), Ticks(1, 0)) && Next(env, Initial(env), Ticks(1, 0)) == Won()
            && Initial(env).mem.Keys <= NoStores(env).Keys
            && NextStores(env, Initial(env), Ticks(1, 0), NoStores(env)) == NoStores(env)
            && NoStores(env) == Held([NOOP], 0)
  {
    hide Tick, AboveIndex, StoreOf, K.Replay;
    var env, s1 := Lone(interval), Won();
    Elected(interval);
    assert env.cfg.AllNodes() == {1};
    var m := Restart(env, 1, BlankDisk());
    assert Initial(env).mem == map[1 := m] && Initial(env).disk == map[1 := BlankDisk()];
    assert map[1 := m][1 := s1.mem[1]] == s1.mem;
    NothingStored(env);
  }

  lemma NothingStored(env: Env)
    requires env.cfg.AllNodes() == {1}
    ensures NoStores(env) == Held([NOOP], 0)
  {
    assert [NOOP][..0] == [];
  }

  lemma SecondStep(interval: nat)
    requires interval > 1
    ensures var env, s1 := Lone(interval), Won();
            && Enabled(s1, Work(1, 0)) && Next(env, s1, Work(1, 0)) == Rest([NOOP])
            && s1.mem.Keys <= Held([NOOP], 0).Keys
            && NextStores(env, s1, Work(1, 0), Held([NOOP], 0)) == Held([NOOP], 0)
  {
    hide Cycle, StoreOf;
    Worked(interval, [NOOP], 0, 0, 0, 0, [], HardState(0, None, 0));
    var s1, s' := Won(), Rest([NOOP]);
    assert [NOOP][..0] == [] && [NOOP][0..0] == [];
    assert map[1 := s1.mem[1]][1 := s'.mem[1]] == map[1 := s'.mem[1]];
    assert map[1 := s1.disk[1]][1 := s'.disk[1]] == map[1 := s'.disk[1]];
    var sent: seq<Packet> := [];
    assert (set p | p in sent) == {};
    StoreGoesOn([NOOP], 0, 0);
  }

  // ---- commands at given times ------------------------------------------------------------------------

  /** How many steps it takes to serve commands, none before its time. */
  function Len(starts: seq<nat>): nat {
    if starts == [] then 2 else Max(Len(starts[..|starts| - 1]), starts[|starts| - 1]) + 2
  }

  ghost predicate ProposedAt(data: Bytes, p: nat, datas: seq<Bytes>, starts: seq<nat>, y: nat) {
    y < |datas| && y < |starts| && data == datas[y] && starts[y] <= p
  }

  /** Whatever was proposed was one of the commands, no earlier than its time; and each was known to be
      committed as soon as it could be. */
  ghost predicate Served(t: Trace, datas: seq<Bytes>, starts: seq<nat>)
    requires |datas| == |starts|
  {
    && (forall p :: 0 <= p < |t.acts| && t.acts[p].Proposal? ==>
          exists y: nat :: ProposedAt(t.acts[p].data, p, datas, starts, y))
    && (forall y: nat :: y < |datas| ==> KnownInTime(t, starts, y))
  }

  ghost predicate KnownInTime(t: Trace, starts: seq<nat>, y: nat) {
    y < |starts| && Knows(t, Len(starts[..y + 1]), 1, y + 2)
  }

  lemma {:induction false} Build(interval: nat, datas: seq<Bytes>, starts: seq<nat>) returns (t: Trace)
    requires |datas| == |starts| && |datas| + 1 < interval
    ensures Resting(t, interval, LogOf(datas)) && |t.acts| == Len(starts) && Served(t, datas, starts)
    decreases |datas|
  {
    hide Resting, GoesOn, Served, LogOf;
    if datas == [] {
      t := Opening(interval);
      NoneServed(t);
    } else {
      var n := |datas| - 1;
      var u := Build(interval, datas[..n], starts[..n]);
      var w := WaitFor(u, interval, LogOf(datas[..n]), Max(|u.acts|, starts[n]) - |u.acts|);
      t := Serve(w, interval, datas[..n], datas[n]);
      assert datas[..n] + [datas[n]] == datas;
      OneMoreServed(u, w, t, interval, datas, starts);
    }
  }

  lemma NoneServed(t: Trace)
    requires forall p :: 0 <= p < |t.acts| ==> !t.acts[p].Proposal?
    ensures Served(t, [], []) && LogOf([]) == [NOOP]
  {
  }

  lemma OneMoreServed(u: Trace, w: Trace, t: Trace, interval: nat, datas: seq<Bytes>, starts: seq<nat>)
    requires |datas| == |starts| > 0
    requires var n := |datas| - 1;
             && Served(u, datas[..n], starts[..n]) && GoesOn(u, w, |w.acts|) && GoesOn(w, t, |w.acts|)
             && starts[n] <= |w.acts| && |t.acts| == |w.acts| + 2 == Len(starts)
             && t.acts[|w.acts|] == Proposal(1, datas[n]) && !t.acts[|w.acts| + 1].Proposal?
    requires Resting(t, interval, LogOf(datas))
    ensures Served(t, datas, starts)
  {
    hide IsTrace, LogOf, Len;
    var n := |datas| - 1;
    forall p | 0 <= p < |t.acts| && t.acts[p].Proposal?
      ensures exists y: nat :: ProposedAt(t.acts[p].data, p, datas, starts, y)
    {
      if p == |w.acts| {
        assert ProposedAt(t.acts[p].data, p, datas, starts, n);
      } else {
        assert t.acts[p] == u.acts[p];
        var y: nat :| ProposedAt(u.acts[p].data, p, datas[..n], starts[..n], y);
        assert ProposedAt(t.acts[p].data, p, datas, starts, y);
      }
    }
    forall y: nat | y < |datas|
      ensures KnownInTime(t, starts, y)
    {
      if y < n {
        assert starts[..n][..y + 1] == starts[..y + 1];
        assert KnownInTime(u, starts[..n], y);
      } else {
        assert starts[..y + 1] == starts;
      }
    }
  }

  lemma {:induction false} LenBound(starts: seq<nat>, y: nat)
    requires y < |starts| && forall a, b :: 0 <= a < b < |starts| ==> starts[a] <= starts[b]
    ensures Len(starts[..y + 1]) <= starts[y] + 2 * y + 4
  {
    assert starts[..y + 1][..y] == starts[..y];
    if y > 0 { LenBound(starts, y - 1); }
  }

  // ---- the commands ------------------------------------------------------------------------------------

  /** Each from a client of its own. */
  function Ask(i: nat, j: nat, x: nat): C.Request {
    C.Request(x, 1, C.Cas([], G.Wanted(i, j, x), G.Swap(i, j, x)))
  }

  function Asked(i: nat, j: nat, n: nat): (r: seq<Bytes>)
    ensures |r| == n && forall x :: 0 <= x < n ==> r[x] == C.PutRequest(Ask(i, j, x), [])
  {
    seq(n, x requires 0 <= x < n => C.PutRequest(Ask(i, j, x), []))
  }

  lemma AskDecodes(i: nat, j: nat, x: nat)
    requires x < U64
    ensures C.ReadRequest(C.PutRequest(Ask(i, j, x), [])) == Got(Ask(i, j, x), [])
  {
    hide C.PutRequest, C.ReadRequest;
    C.RequestRoundTrip(Ask(i, j, x), []);
  }

  /** What the register holds after the first `x` of them. */
  function Value(i: nat, j: nat, x: nat): H.Value {
    if x <= i then None else if x <= j then G.ONE else G.TWO
  }

  /** The store has served the first `x`. */
  ghost predicate ServedTo(store: K.Store, i: nat, j: nat, x: nat) {
    K.Lookup(store, []) == Value(i, j, x) && forall c :: c in store.sessions ==> c < x
  }

  lemma AskServed(store: K.Store, i: nat, j: nat, x: nat, index: nat)
    requires ServedTo(store, i, j, x) && i < j
    ensures K.IsNew(store, Ask(i, j, x)) && ServedTo(K.Apply(store, index, Ask(i, j, x)).0, i, j, x + 1)
    ensures var o := K.Apply(store, index, Ask(i, j, x)).1;
            Q.RetOf(o) == if x == i || x == j || x > j then H.Done else H.Ret.CasFailed
  {
    var s1 := store.(applied := Max(store.applied, index));
    assert K.Lookup(s1, []) == K.Lookup(store, []);
    Q.WriteShows(s1, [], G.Swap(i, j, x), index, []);
    hide K.Lookup, K.Newest;
    var o := K.Perform(s1, index, Ask(i, j, x).op);
    assert o.0.sessions == store.sessions && K.Lookup(o.0, []) == Value(i, j, x + 1);
    SessionsUnseen(o.0, x, K.Session(1, o.1));
  }

  lemma SessionsUnseen(s: K.Store, client: nat, session: K.Session)
    ensures K.Lookup(s.(sessions := s.sessions[client := session]), []) == K.Lookup(s, [])
  {
  }

  lemma NothingServed()
    ensures StoreOf([NOOP]) == K.EmptyStore()
  {
    var one := [NOOP];
    assert one[..|one| - 1] == [];
    assert Commands(one[..|one| - 1]) == [];
    assert Commands(one) == [];
  }

  lemma {:induction false} StoreAfter(i: nat, j: nat, n: nat, k: nat)
    requires i < j && n <= U64 && 0 < k <= n + 1
    ensures ServedTo(StoreOf(LogOf(Asked(i, j, n))[..k]), i, j, k - 1)
  {
    var log := LogOf(Asked(i, j, n));
    if k == 1 {
      assert log[..1] == [NOOP];
      NothingServed();
    } else {
      StoreAfter(i, j, n, k - 1);
      hide StoreOf, K.Apply, C.ReadRequest, C.PutRequest, ServedTo, Ask;
      StoreStep(log, k);
      AskDecodes(i, j, k - 2);
      AskServed(StoreOf(log[..k - 1]), i, j, k - 2, log[k - 1].index);
    }
  }

  /** So each takes effect, with the outcome one expects. */
  lemma AskEffective(i: nat, j: nat, n: nat, k: nat)
    requires i < j && n <= U64 && 1 < k <= n + 1
    ensures var log, x := LogOf(Asked(i, j, n)), k - 2;
            && Effective(log, k) && RequestAt(log, k) == Some(Ask(i, j, x))
            && Q.RetOf(OutcomeAt(log, k)) == if x == i || x == j || x > j then H.Done else H.Ret.CasFailed
  {
    var log := LogOf(Asked(i, j, n));
    hide StoreOf, K.Apply, C.ReadRequest, C.PutRequest, ServedTo, K.IsNew;
    StoreAfter(i, j, n, k - 1);
    AskDecodes(i, j, k - 2);
    AskServed(StoreOf(log[..k - 1]), i, j, k - 2, log[k - 1].index);
  }

  // ---- the windows ---------------------------------------------------------------------------------------

  /** The windows on a finer scale. An invocation and a return at one time come in this order. */
  function Stretch(e: H.Event, s: nat): H.Event {
    e.(invoked := s * (2 * e.invoked), returned := s * (2 * e.returned + 1))
  }

  function Stretched(times: seq<H.Event>, s: nat): (r: seq<H.Event>)
    ensures |r| == |times| && forall x :: 0 <= x < |times| ==> r[x] == Stretch(times[x], s)
  {
    seq(|times|, x requires 0 <= x < |times| => Stretch(times[x], s))
  }

  /** Two sets of windows that are alike in what came before what. */
  ghost predicate SameOrder(times: seq<H.Event>, events: seq<H.Event>) {
    |times| == |events| && forall a, b :: 0 <= a < |times| && 0 <= b < |times| ==> SameOrderAt(times, events, a, b)
  }

  ghost predicate SameOrderAt(times: seq<H.Event>, events: seq<H.Event>, a: nat, b: nat)
    requires |times| == |events| && a < |times| && b < |times|
  {
    && (events[a].invoked <= events[b].returned <==> times[a].invoked <= times[b].returned)
    && (events[a].invoked <= events[b].invoked <==> times[a].invoked <= times[b].invoked)
    && (events[a].returned <= events[b].returned <==> times[a].returned <= times[b].returned)
  }

  lemma Scaled(s: nat, a: nat, b: nat)
    requires s > 0
    ensures s * a <= s * b <==> a <= b
  {
    if a <= b { assert s * b == s * a + s * (b - a); } else { assert s * a == s * b + s * (a - b); }
  }

  lemma StretchOrder(times: seq<H.Event>, s: nat)
    requires s > 0
    ensures SameOrder(times, Stretched(times, s))
  {
    forall a, b | 0 <= a < |times| && 0 <= b < |times|
      ensures SameOrderAt(times, Stretched(times, s), a, b)
    {
      var x, y := times[a], times[b];
      Scaled(s, 2 * x.invoked, 2 * y.returned + 1);
      Scaled(s, 2 * x.invoked, 2 * y.invoked);
      Scaled(s, 2 * x.returned + 1, 2 * y.returned + 1);
    }
  }

  /** The latest invocation of the first `n` operations: the time the last of them takes effect. */
  function Latest(times: seq<H.Event>, n: nat): nat
    requires n <= |times|
  {
    if n == 0 then 0 else Max(Latest(times, n - 1), times[n - 1].invoked)
  }

  lemma {:induction false} LatestIs(times: seq<H.Event>, n: nat, bound: nat)
    requires n <= |times|
    ensures forall x :: 0 <= x < n ==> times[x].invoked <= Latest(times, n)
    ensures (forall x :: 0 <= x < n ==> times[x].invoked <= bound) ==> Latest(times, n) <= bound
  {
    if n > 0 { LatestIs(times, n - 1, bound); }
  }

  function Starts(times: seq<H.Event>, s: nat): (r: seq<nat>)
    ensures |r| == |times| && forall y :: 0 <= y < |times| ==> r[y] == s * (2 * Latest(times, y + 1))
  {
    seq(|times|, y requires 0 <= y < |times| => s * (2 * Latest(times, y + 1)))
  }

  lemma StartsClimb(times: seq<H.Event>, s: nat)
    requires s > 0
    ensures forall a, b :: 0 <= a < b < |times| ==> Starts(times, s)[a] <= Starts(times, s)[b]
  {
    forall a, b | 0 <= a < b < |times|
      ensures Starts(times, s)[a] <= Starts(times, s)[b]
    {
      LatestIs(times, a + 1, Latest(times, b + 1));
      LatestIs(times, b + 1, 0);
      hide Latest;
      Scaled(s, 2 * Latest(times, a + 1), 2 * Latest(times, b + 1));
    }
  }

  /** An operation that is answered takes effect before it returns. */
  lemma LatestInWindow(times: seq<H.Event>, abandoned: set<nat>, y: nat)
    requires y < |times| && L.Windows(times) && G.OthersInTime(times, abandoned)
    ensures times[y].invoked <= Latest(times, y + 1) && (y !in abandoned ==> Latest(times, y + 1) <= times[y].returned)
  {
    LatestIs(times, y + 1, times[y].returned);
    hide Latest;
    assert times[y] in times;
  }

  /** No command is given before its invocation, and one that is answered is committed before its return. */
  lemma InWindow(times: seq<H.Event>, abandoned: set<nat>, s: nat, y: nat)
    requires y < |times| && L.Windows(times) && G.OthersInTime(times, abandoned) && s >= 2 * |times| + 4
    ensures Stretch(times[y], s).invoked <= Starts(times, s)[y]
    ensures y !in abandoned ==> Len(Starts(times, s)[..y + 1]) <= Stretch(times[y], s).returned
  {
    hide Latest, Len, G.OthersInTime, L.Windows;
    StartsClimb(times, s);
    LenBound(Starts(times, s), y);
    LatestInWindow(times, abandoned, y);
    var at := Latest(times, y + 1);
    Scaled(s, 2 * times[y].invoked, 2 * at);
    Scaled(s, 2 * at + 1, 2 * times[y].returned + 1);
    assert s * (2 * at + 1) == s * (2 * at) + s;
  }

  // ---- what was recorded -----------------------------------------------------------------------------------

  /** A run that serves the commands of `i` and `j` at the times these windows call for. */
  ghost predicate Serves(t: Trace, times: seq<H.Event>, s: nat, i: nat, j: nat) {
    var datas := Asked(i, j, |times|);
    && i < j && |times| <= U64 && s >= 2 * |times| + 4
    && Resting(t, |times| + 2, LogOf(datas)) && Served(t, datas, Starts(times, s))
  }

  ghost function Given(times: seq<H.Event>, abandoned: set<nat>, s: nat, i: nat, j: nat): (r: seq<H.Event>)
    ensures |r| == |times|
  {
    G.Unlucky(Stretched(times, s), abandoned, i, j)
  }

  lemma DistinctAsks(i: nat, j: nat, n: nat, x: nat, y: nat)
    requires x < n <= U64 && y < n && Asked(i, j, n)[x] == Asked(i, j, n)[y]
    ensures x == y
  {
    hide C.PutRequest, C.ReadRequest;
    AskDecodes(i, j, x);
    AskDecodes(i, j, y);
  }

  /** The command was proposed in its window. */
  lemma ProposedInWindow(t: Trace, times: seq<H.Event>, abandoned: set<nat>, s: nat, i: nat, j: nat, x: nat, p: nat)
    requires Serves(t, times, s, i, j) && L.Windows(times) && G.OthersInTime(times, abandoned) && x < |times|
    requires p < |t.acts| && t.acts[p].Proposal? && t.acts[p].data == Asked(i, j, |times|)[x]
    ensures Stretch(times[x], s).invoked <= p
  {
    hide Resting, C.PutRequest, Len, L.Windows, G.OthersInTime;
    var datas, starts := Asked(i, j, |times|), Starts(times, s);
    var y: nat :| ProposedAt(t.acts[p].data, p, datas, starts, y);
    DistinctAsks(i, j, |times|, x, y);
    InWindow(times, abandoned, s, x);
  }

  /** What was asked and answered. */
  lemma AnswerRecorded(times: seq<H.Event>, abandoned: set<nat>, s: nat, i: nat, j: nat, k: nat)
    requires i < j && |times| <= U64 && j in abandoned && 1 < k <= |times| + 1
    ensures var log, e := LogOf(Asked(i, j, |times|)), Given(times, abandoned, s, i, j)[k - 2];
            && Effective(log, k) && Q.OpOf(RequestAt(log, k).value.op) == Some(e.op)
            && (e.ret == H.Unknown || e.ret == Q.RetOf(OutcomeAt(log, k)))
            && (e.ret == H.Unknown <==> k - 2 in abandoned)
  {
    hide Effective, OutcomeAt, RequestAt, LogOf, Asked, StoreOf, K.Apply, K.IsNew, Given, Stretched;
    AskEffective(i, j, |times|, k);
    GivenIs(times, abandoned, s, i, j, k - 2);
  }

  lemma GivenIs(times: seq<H.Event>, abandoned: set<nat>, s: nat, i: nat, j: nat, x: nat)
    requires x < |times|
    ensures var e, w := Given(times, abandoned, s, i, j)[x], Stretch(times[x], s);
            && e.invoked == w.invoked && e.returned == w.returned && Q.OpOf(Ask(i, j, x).op) == Some(e.op)
            && e.ret == if x in abandoned then H.Unknown else if x == i || x > j then H.Done else H.Ret.CasFailed
  {
  }

  lemma EndsInWindow(t: Trace, times: seq<H.Event>, abandoned: set<nat>, s: nat, i: nat, j: nat, x: nat)
    requires Serves(t, times, s, i, j) && L.Windows(times) && G.OthersInTime(times, abandoned) && x < |times|
    ensures var e := Given(times, abandoned, s, i, j)[x];
            && e.invoked == Stretch(times[x], s).invoked && e.invoked <= e.returned
            && (x !in abandoned ==> EndedBy(t, e, x + 2))
  {
    hide Resting, Len, LogOf, Asked, L.Windows, G.OthersInTime, Starts, Given;
    GivenIs(times, abandoned, s, i, j, x);
    InWindow(times, abandoned, s, x);
    Opens(times, x);
    Scaled(s, 2 * times[x].invoked, 2 * times[x].returned + 1);
    assert KnownInTime(t, Starts(times, s), x);
    hide Serves, Served;
  }

  lemma Opens(times: seq<H.Event>, x: nat)
    requires L.Windows(times) && x < |times|
    ensures times[x].invoked <= times[x].returned
  {
    assert times[x] in times;
  }

  lemma RecordsOne(t: Trace, times: seq<H.Event>, abandoned: set<nat>, s: nat, i: nat, j: nat, k: nat)
    requires Serves(t, times, s, i, j) && L.Windows(times) && G.OthersInTime(times, abandoned) && j in abandoned
    requires 1 < k <= |times| + 1
    ensures Records(t, LogOf(Asked(i, j, |times|)), k, Given(times, abandoned, s, i, j)[k - 2])
  {
    hide Resting, Served, Effective, OutcomeAt, RequestAt, EndedBy, Given, LogOf, Asked, L.Windows, G.OthersInTime,
         C.PutRequest, Stretch, Q.OpOf, Q.RetOf;
    var x, log, e := k - 2, LogOf(Asked(i, j, |times|)), Given(times, abandoned, s, i, j)[k - 2];
    AnswerRecorded(times, abandoned, s, i, j, k);
    EndsInWindow(t, times, abandoned, s, i, j, x);
    assert log[k - 1].kind.data == Asked(i, j, |times|)[x];
    hide Serves;
    forall p | 0 <= p < |t.acts| && t.acts[p].Proposal? && t.acts[p].data == log[k - 1].kind.data
      ensures e.invoked <= p
    {
      ProposedInWindow(t, times, abandoned, s, i, j, x, p);
    }
  }

  /** The first place is that of the entry every leader begins with. */
  ghost function Recording(events: seq<H.Event>): (r: seq<H.Event>)
    requires events != []
    ensures |r| == |events| + 1
  {
    [events[0]] + events
  }

  lemma AllRecorded(t: Trace, times: seq<H.Event>, abandoned: set<nat>, s: nat, i: nat, j: nat)
    requires Serves(t, times, s, i, j) && L.Windows(times) && G.OthersInTime(times, abandoned) && j in abandoned
    requires times != []
    ensures Recorded(t, LogOf(Asked(i, j, |times|)), Recording(Given(times, abandoned, s, i, j)), [])
  {
    hide Records, IsTrace, Resting, Served, L.Windows, G.OthersInTime, Given, Committed, Effective, Asked;
    var log, events := LogOf(Asked(i, j, |times|)), Given(times, abandoned, s, i, j);
    LogKnown(t, times, s, i, j);
    OnlyCommands(i, j, |times|);
    hide Serves;
    forall k | 0 < k <= |log| && Effective(log, k)
      ensures Records(t, log, k, Recording(events)[k - 1])
    {
      RecordsOne(t, times, abandoned, s, i, j, k);
    }
  }

  lemma LogKnown(t: Trace, times: seq<H.Event>, s: nat, i: nat, j: nat)
    requires Serves(t, times, s, i, j)
    ensures IsTrace(t) && Committed(t, LogOf(Asked(i, j, |times|)))
  {
    hide IsTrace, Served, Asked;
    var log := LogOf(Asked(i, j, |times|));
    assert log[..|log|] == log;
    assert KnownLog(t, log, |t.acts|, 1);
  }

  lemma {:induction false} EffectsInOrder(log: seq<Entry>, events: seq<H.Event>, k: nat)
    requires events != [] && |log| == |events| + 1 && 0 < k <= |log|
    requires forall x :: 0 < x <= |log| ==> (Effective(log, x) <==> x > 1)
    ensures Writes(log, Recording(events), k) == events[..k - 1] == Order(log, Recording(events), [], k)
  {
    hide Effective;
    assert H.Sorted(ReadsAt([], k)) == [] && H.Sorted(ReadsAt([], 0)) == [];
    if k == 1 {
      assert Order(log, Recording(events), [], 0) == [];
    } else {
      EffectsInOrder(log, events, k - 1);
      assert events[..k - 1] == events[..k - 2] + [events[k - 2]];
    }
  }

  lemma OnlyCommands(i: nat, j: nat, n: nat)
    requires i < j && n <= U64
    ensures var log := LogOf(Asked(i, j, n)); forall x :: 0 < x <= |log| ==> (Effective(log, x) <==> x > 1)
  {
    hide StoreOf, K.IsNew, C.ReadRequest;
    var log := LogOf(Asked(i, j, n));
    forall x | 0 < x <= |log|
      ensures Effective(log, x) <==> x > 1
    {
      if x > 1 { AskEffective(i, j, n, x); }
    }
  }

  // ---- the theorem ----------------------------------------------------------------------------------------

  /** Clients gave up on exactly these. */
  ghost predicate GaveUpOn(order: seq<H.Event>, abandoned: set<nat>) {
    forall x: nat :: x < |order| ==> (order[x].ret.Unknown? <==> x in abandoned)
  }

  /** A run, and what its clients recorded of it: these windows, up to scale, in this order of effect, and
      these given up. */
  ghost predicate Realises(times: seq<H.Event>, abandoned: set<nat>, t: Trace, log: seq<Entry>, writes: seq<H.Event>,
                           queries: seq<ReadRecord>, lost: seq<H.Event>, history: seq<H.Event>) {
    && Recorded(t, log, writes, queries) && Everything(history, log, writes, queries, lost)
    && SameOrder(times, EffectOrder(log, writes, queries)) && GaveUpOn(EffectOrder(log, writes, queries), abandoned)
  }

  lemma {:induction false} StretchInsert(e: H.Event, times: seq<H.Event>, s: nat)
    requires s > 0
    ensures H.Insert(Stretch(e, s), Stretched(times, s)) == Stretched(H.Insert(e, times), s)
  {
    if times != [] {
      var x := times[0];
      Scaled(s, 2 * x.invoked, 2 * e.invoked);
      Scaled(s, 2 * e.invoked, 2 * x.invoked);
      Scaled(s, 2 * x.returned + 1, 2 * e.returned + 1);
      Scaled(s, 2 * e.returned + 1, 2 * x.returned + 1);
      assert H.Before(x, e) <==> H.Before(Stretch(x, s), Stretch(e, s));
      assert Stretched(times, s)[1..] == Stretched(times[1..], s);
      StretchInsert(e, times[1..], s);
    }
  }

  lemma {:induction false} StretchSorted(times: seq<H.Event>, s: nat)
    requires s > 0
    ensures H.Sorted(Stretched(times, s)) == Stretched(H.Sorted(times), s)
  {
    if times != [] {
      var n := |times| - 1;
      StretchSorted(times[..n], s);
      assert Stretched(times, s)[..n] == Stretched(times[..n], s);
      StretchInsert(times[n], H.Sorted(times[..n]), s);
    }
  }

  lemma StretchSpans(times: seq<H.Event>, s: nat)
    requires s > 0 && F.Spanned(Stretched(times, s))
    ensures F.Spanned(times)
  {
    var a: nat, b: nat, c: nat :| F.SpannedBy(Stretched(times, s), a, b, c);
    StretchOrder(times, s);
    hide Stretched;
    assert SameOrderAt(times, Stretched(times, s), c, b) && SameOrderAt(times, Stretched(times, s), c, a);
    assert F.SpannedBy(times, a, b, c);
  }

  /** What was recorded has no linearization. */
  lemma GivenFails(times: seq<H.Event>, abandoned: set<nat>, s: nat, i: nat, j: nat, r: nat)
    requires s > 0 && j in abandoned && r !in abandoned
    requires i < j < r < |times| && times[j].returned < times[i].invoked
    ensures !L.HasLinearization(Given(times, abandoned, s, i, j))
  {
    var late := Stretched(times, s);
    StretchOrder(times, s);
    assert SameOrderAt(times, late, i, j);
    hide L.Linearizes, SameOrder, G.Unlucky, Stretched;
    forall order
      ensures !L.Linearizes(G.Unlucky(late, abandoned, i, j), order)
    {
      G.UnluckyFails(late, abandoned, i, j, r, order);
    }
  }

  /** And if nothing is spanned the search says so. */
  lemma GivenIsAccused(times: seq<H.Event>, abandoned: set<nat>, s: nat, i: nat, j: nat)
    requires L.Windows(times) && s > 0 && !F.Spanned(H.Sorted(times))
    requires !L.HasLinearization(Given(times, abandoned, s, i, j))
    ensures !G.Passes(Given(times, abandoned, s, i, j))
  {
    hide L.HasLinearization, F.Spanned, G.Passes, H.Sorted, L.Windows;
    var late, events := Stretched(times, s), Given(times, abandoned, s, i, j);
    StretchWindows(times, s);
    StretchSorted(times, s);
    if F.Spanned(H.Sorted(late)) { StretchSpans(H.Sorted(times), s); }
    if G.Passes(events) { G.PassedIsLinearizable(late, events); }
  }

  lemma StretchWindows(times: seq<H.Event>, s: nat)
    requires L.Windows(times) && s > 0
    ensures L.Windows(Stretched(times, s))
  {
    forall e | e in Stretched(times, s)
      ensures e.invoked <= e.returned
    {
      var x :| 0 <= x < |times| && Stretched(times, s)[x] == e;
      assert times[x] in times;
      Scaled(s, 2 * times[x].invoked, 2 * times[x].returned + 1);
    }
  }

  lemma GivenInOrder(times: seq<H.Event>, abandoned: set<nat>, s: nat, i: nat, j: nat)
    requires s > 0
    ensures SameOrder(times, Given(times, abandoned, s, i, j)) && GaveUpOn(Given(times, abandoned, s, i, j), abandoned)
  {
    var late, events := Stretched(times, s), Given(times, abandoned, s, i, j);
    StretchOrder(times, s);
    forall a, b | 0 <= a < |times| && 0 <= b < |times|
      ensures SameOrderAt(times, events, a, b)
    {
      assert SameOrderAt(times, late, a, b);
    }
  }

  /** For every choice of windows that is not punctual there is a run of which clients record just those
      windows, and the checker's own definition accuses it. */
  lemma UnpunctualRun(times: seq<H.Event>, abandoned: set<nat>)
    returns (t: Trace, log: seq<Entry>, writes: seq<H.Event>, history: seq<H.Event>)
    requires L.Windows(times) && G.OthersInTime(times, abandoned) && !G.Punctual(times, abandoned) && |times| <= U64
    ensures Realises(times, abandoned, t, log, writes, [], [], history) && !L.HasLinearization(history)
    ensures !F.Spanned(H.Sorted(times)) ==> !G.Passes(history)
  {
    hide *;
    var i, j, r := G.TooLate(times, abandoned);
    var n, s := |times|, 2 * |times| + 4;
    t := Build(n + 2, Asked(i, j, n), Starts(times, s));
    log, history := LogOf(Asked(i, j, n)), Given(times, abandoned, s, i, j);
    writes := Recording(history);
    ServesIs(t, times, s, i, j);
    AllRecorded(t, times, abandoned, s, i, j);
    GivenFails(times, abandoned, s, i, j, r);
    if !F.Spanned(H.Sorted(times)) { GivenIsAccused(times, abandoned, s, i, j); }
    GivenInOrder(times, abandoned, s, i, j);
    OnlyCommands(i, j, n);
    RealisesIs(times, abandoned, t, log, history);
  }

  lemma ServesIs(t: Trace, times: seq<H.Event>, s: nat, i: nat, j: nat)
    requires i < j && |times| <= U64 && s >= 2 * |times| + 4 && Resting(t, |times| + 2, LogOf(Asked(i, j, |times|)))
    requires Served(t, Asked(i, j, |times|), Starts(times, s))
    ensures Serves(t, times, s, i, j)
  {
    hide Resting, Served;
  }

  lemma RealisesIs(times: seq<H.Event>, abandoned: set<nat>, t: Trace, log: seq<Entry>, events: seq<H.Event>)
    requires events != [] && |log| == |events| + 1 && Recorded(t, log, Recording(events), [])
    requires forall x :: 0 < x <= |log| ==> (Effective(log, x) <==> x > 1)
    requires SameOrder(times, events) && GaveUpOn(events, abandoned)
    ensures Realises(times, abandoned, t, log, Recording(events), [], [], events)
  {
    hide Effective, Recorded, SameOrder, GaveUpOn, Writes, Order, Recording;
    EffectsInOrder(log, events, |log|);
    assert events[..|log| - 1] == events;
    assert ReadsUpTo([], |log|) == [];
  }

  /** In the order of effect, windows alike are as punctual. */
  lemma SamePunctual(times: seq<H.Event>, abandoned: set<nat>, order: seq<H.Event>)
    requires SameOrder(times, order) && GaveUpOn(order, abandoned) && G.Punctual(times, abandoned)
    ensures G.Punctual(order, G.Abandoned(order))
  {
    forall i, j, r: nat | 0 <= i < j <= r < |order| && r !in G.Abandoned(order)
      ensures order[i].invoked <= order[j].returned
    {
      assert SameOrderAt(times, order, i, j);
    }
  }

  /** The exact condition, over runs. Take windows in the order of effect, with those answered in time. No
      run of which these are recorded is without a linearization if and only if those given up were
      punctual; and where the search is exact, it accuses none if and only if they were. */
  lemma RunCondition(times: seq<H.Event>, abandoned: set<nat>)
    requires L.Windows(times) && G.OthersInTime(times, abandoned) && |times| <= U64
    ensures G.Punctual(times, abandoned) <==>
              forall t, log, writes, queries, lost, history ::
                Realises(times, abandoned, t, log, writes, queries, lost, history) ==> L.HasLinearization(history)
    ensures !F.Spanned(H.Sorted(times)) ==>
              (G.Punctual(times, abandoned) <==>
                 forall t, log, writes, queries, lost, history ::
                   Realises(times, abandoned, t, log, writes, queries, lost, history) ==> G.Passes(history))
  {
    hide *;
    if G.Punctual(times, abandoned) {
      forall t, log, writes, queries, lost, history
        | Realises(times, abandoned, t, log, writes, queries, lost, history)
        ensures L.HasLinearization(history) && G.Passes(history)
      {
        PunctualRun(times, abandoned, t, log, writes, queries, lost, history);
      }
    } else {
      var t, log, writes, history := UnpunctualRun(times, abandoned);
    }
  }

  lemma PunctualRun(times: seq<H.Event>, abandoned: set<nat>, t: Trace, log: seq<Entry>, writes: seq<H.Event>,
                    queries: seq<ReadRecord>, lost: seq<H.Event>, history: seq<H.Event>)
    requires Realises(times, abandoned, t, log, writes, queries, lost, history) && G.Punctual(times, abandoned)
    ensures L.HasLinearization(history) && G.Passes(history)
  {
    hide Recorded, Everything, EffectOrder, SameOrder, GaveUpOn, G.Punctual, L.HasLinearization, G.Passes, L.Windows;
    SamePunctual(times, abandoned, EffectOrder(log, writes, queries));
    PunctualRunsAreLinearizable(t, log, writes, queries, lost, history);
    EverythingIs(t, log, writes, queries, lost, history);
    G.LinearizablePasses(history);
  }
}
