/** The whole system: whatever a run of the cluster does, what its clients see is linearizable, in the
    sense of the checker that is run on recorded histories (crates/chrono-oracle/src/history.rs:20-96).

    Times are step numbers. A command's window opens no later than its first proposal; if it was
    answered, it closes no earlier than its commitment at some node. A client may give up at any time.
    A read's window contains the steps at which it began and was answered. */
module Linearizable {
  import opened Types
  import opened RaftLog
  import opened RaftNode
  import opened RaftCluster
  import opened RaftDriver
  import opened RaftHistory
  import opened RaftInvariant
  import opened RaftSafety
  import opened RaftTrace
  import opened Replicas
  import opened KvOracle
  import T = RaftTheorems
  import C = ClientCodec
  import K = KvStore
  import H = ClientHistory
  import L = LinearPerKey
  import S = LinearSearch
  import G = LinearGiveUp

  /** A run with the stores its nodes keep. */
  datatype Trace = Trace(env: Env, ss: seq<Cluster>, acts: seq<Action>, kvs: seq<map<NodeId, K.Store>>)

  ghost predicate IsTrace(t: Trace) {
    StoresRun(t.env, t.ss, t.acts, t.kvs)
  }

  /** At moment `j`, node `n` knows the first `k` entries to be committed. */
  ghost predicate Knows(t: Trace, j: nat, n: NodeId, k: nat) {
    j < |t.ss| && n in t.ss[j].mem && k <= t.ss[j].mem[n].commit
  }

  ghost predicate KnownLog(t: Trace, log: seq<Entry>, j: nat, n: NodeId) {
    Knows(t, j, n, |log|) && |log| <= |t.ss[j].mem[n].log.full| && log == t.ss[j].mem[n].log.full[..|log|]
  }

  /** A log some node knows to be committed at some moment. */
  ghost predicate Committed(t: Trace, log: seq<Entry>) {
    exists j: nat, n: NodeId :: KnownLog(t, log, j, n)
  }

  // ---- commands -----------------------------------------------------------------------------------

  function RequestAt(log: seq<Entry>, k: nat): Option<C.Request>
    requires 0 < k <= |log|
  {
    if !log[k - 1].kind.Normal? then None
    else match C.ReadRequest(log[k - 1].kind.data) case Fail(_) => None case Got(r, _) => Some(r)
  }

  /** The command at index `k` is not a duplicate, and is of a kind that clients record. */
  ghost predicate Effective(log: seq<Entry>, k: nat) {
    && 0 < k <= |log| && RequestAt(log, k).Some?
    && K.IsNew(StoreOf(log[..k - 1]), RequestAt(log, k).value) && OpOf(RequestAt(log, k).value.op).Some?
  }

  ghost function OutcomeAt(log: seq<Entry>, k: nat): C.Outcome
    requires Effective(log, k)
  {
    K.Apply(StoreOf(log[..k - 1]), log[k - 1].index, RequestAt(log, k).value).1
  }

  lemma StoreStep(log: seq<Entry>, k: nat)
    requires 0 < k <= |log|
    ensures StoreOf(log[..k]) == match RequestAt(log, k)
                                 case None => StoreOf(log[..k - 1])
                                 case Some(r) => K.Apply(StoreOf(log[..k - 1]), log[k - 1].index, r).0
  {
    hide K.Apply, C.ReadRequest;
    StoreGoesOn(log, k - 1, k);
    var one := log[k - 1..k];
    assert one[..0] == [] && Commands([]) == [];
    hide StoreOf;
    if RequestAt(log, k).Some? {
      var c := K.Command(log[k - 1].index, RequestAt(log, k).value);
      assert Commands(one) == [c] && [c][1..] == [];
    } else {
      assert Commands(one) == [];
    }
  }

  /** `e` is what a client records of the command at index `k`: what was asked, and either the outcome and
      a window around the time it took effect, or that it gave up, at any time. */
  ghost predicate Records(t: Trace, log: seq<Entry>, k: nat, e: H.Event) {
    && Effective(log, k) && OpOf(RequestAt(log, k).value.op) == Some(e.op)
    && (e.ret == H.Unknown || e.ret == RetOf(OutcomeAt(log, k))) && e.invoked <= e.returned
    && (forall p :: 0 <= p < |t.acts| && t.acts[p].Proposal? && t.acts[p].data == log[k - 1].kind.data ==>
          e.invoked <= p)
    && (e.ret != H.Unknown ==> EndedBy(t, e, k))
  }

  /** What the cycle of step `j` replies for the command at index `k`: the node's store, with the
      commands before it applied. */
  ghost function Reply(t: Trace, j: nat, k: nat, r: C.Request): C.Outcome
    requires j < |t.acts| && j < |t.ss| && j < |t.kvs| && Actor(t.acts[j]) in t.ss[j].mem
    requires Actor(t.acts[j]) in t.kvs[j]
    requires var m := t.ss[j].mem[Actor(t.acts[j])]; m.applied < k <= m.commit <= |m.log.full|
  {
    var n := Actor(t.acts[j]);
    var m := t.ss[j].mem[n];
    var before := K.Replay(Loaded(t.kvs[j][n], m), Commands(m.log.full[m.applied..k - 1]));
    K.Apply(before, m.log.full[k - 1].index, r).1
  }

  /** Whichever node replies, and in whichever cycle, its reply is the outcome the log determines. */
  lemma ReplyIsOutcome(t: Trace, log: seq<Entry>, j: nat, k: nat)
    requires IsTrace(t) && Committed(t, log) && Effective(log, k)
    requires j < |t.acts| && StepAt(t.env, t.ss, t.acts, j) && t.acts[j].Work?
    requires var n := t.acts[j].n;
             n in t.ss[j].mem && n in t.kvs[j] && t.ss[j].mem[n].applied < k <= t.ss[j].mem[n].commit
    ensures t.ss[j].mem[t.acts[j].n].commit <= |t.ss[j].mem[t.acts[j].n].log.full|
    ensures Reply(t, j, k, RequestAt(log, k).value) == OutcomeAt(log, k)
  {
    hide IsRun, Next, StoreOf, Commands, K.Replay, K.Apply, NextStores, Loaded, K.IsNew, C.ReadRequest;
    var n := t.acts[j].n;
    var m := t.ss[j].mem[n];
    LoadedAt(t, j, n);
    StoreGoesOn(m.log.full, m.applied, k - 1);
    var x: nat, v: NodeId :| KnownLog(t, log, x, v);
    T.CommittedPrefixesAgree(t.env, t.ss, t.acts, x, j, v, n, k);
    SamePrefix(log, t.ss[x].mem[v].log.full, m.log.full, k);
  }

  lemma SamePrefix(log: seq<Entry>, whole: seq<Entry>, full: seq<Entry>, k: nat)
    requires |log| <= |whole| && log == whole[..|log|] && 0 < k <= |log| && k <= |full| && whole[..k] == full[..k]
    ensures log[..k - 1] == full[..k - 1] && log[k - 1] == full[k - 1]
  {
    assert log[..k] == whole[..k];
    assert log[..k - 1] == log[..k][..k - 1] && full[..k - 1] == full[..k][..k - 1];
    assert log[k - 1] == log[..k][k - 1] && full[k - 1] == full[..k][k - 1];
  }

  lemma LoadedAt(t: Trace, j: nat, n: NodeId)
    requires IsTrace(t) && j < |t.ss| && n in t.ss[j].mem
    ensures n in t.kvs[j] && t.ss[j].mem[n].applied <= t.ss[j].mem[n].commit <= |t.ss[j].mem[n].log.full|
    ensures Loaded(t.kvs[j][n], t.ss[j].mem[n]) == StoreOf(t.ss[j].mem[n].log.full[..t.ss[j].mem[n].applied])
  {
    hide IsRun, Next, StoreOf, NextStores, Loaded, Watermarked, VoteSaved, Indexed, Inv, Remembers, Good, HistOk;
    var h, _ := T.TwoMoments(t.env, t.ss, t.acts, j, j);
    NodeOf(t.env, h, t.ss[j], n);
    GoodParts(t.env, h, n, t.ss[j].mem[n], t.ss[j].disk[n]);
    StoresAreCurrent(t.env, t.ss, t.acts, t.kvs, j);
    assert CurrentAt(t.ss[j], t.kvs[j], n);
    LoadedIs(t.ss[j].mem[n], t.ss[j].disk[n], t.kvs[j][n]);
  }

  // ---- reads -----------------------------------------------------------------------------------------

  /** A linearizable read that node `node` began at step `begun` and answered at step `answered`. */
  datatype ReadRecord = ReadRecord(
    node: NodeId, begun: nat, answered: nat, read: ReadState, prefix: nat, event: H.Event)

  ghost predicate Began(t: Trace, n: NodeId, p: nat) {
    && p < |t.acts| && p < |t.ss| && t.acts[p] == Read(n)
    && n in t.ss[p].mem && t.ss[p].mem[n].role == Leader && t.ss[p].mem[n].committedOwn
  }

  ghost predicate Answered(t: Trace, n: NodeId, j: nat, r: ReadState) {
    j < |t.acts| && StepAt(t.env, t.ss, t.acts, j) && Actor(t.acts[j]) == n && r in Answers(t.env, t.ss[j], t.acts[j])
  }

  ghost predicate RecordsRead(t: Trace, rd: ReadRecord) {
    && Began(t, rd.node, rd.begun) && Answered(t, rd.node, rd.answered, rd.read) && rd.begun < rd.answered
    && rd.read.ctx == t.ss[rd.begun].mem[rd.node].readCtx + 1
    && (forall i :: rd.begun < i < rd.answered ==> t.acts[i] != Crash(rd.node))
    && rd.node in t.ss[rd.answered].mem && rd.prefix == t.ss[rd.answered].mem[rd.node].commit
    && rd.answered + 1 < |t.kvs| && rd.node in t.kvs[rd.answered + 1]
    && rd.event.op.Read? && rd.event.ret == H.Observed(K.Lookup(t.kvs[rd.answered + 1][rd.node], rd.event.op.key))
    && rd.event.invoked <= rd.begun && rd.answered <= rd.event.returned
  }

  // ---- windows and commitment ----------------------------------------------------------------------------

  /** The operation was invoked before anyone knew index `k` to be committed. */
  ghost predicate BegunBy(t: Trace, e: H.Event, k: nat) {
    forall j: nat, n: NodeId :: Knows(t, j, n, k) ==> e.invoked <= j
  }

  /** Someone knew index `k` to be committed when the operation returned. */
  ghost predicate EndedBy(t: Trace, e: H.Event, k: nat) {
    exists j: nat, n: NodeId :: Knows(t, j, n, k) && j <= e.returned
  }

  lemma InTime(t: Trace, a: H.Event, b: H.Event, k: nat)
    requires BegunBy(t, a, k) && EndedBy(t, b, k)
    ensures a.invoked <= b.returned
  {
  }

  /** Whoever knows an index to be committed holds the same command there, so it was proposed before. */
  lemma CommandBegan(t: Trace, log: seq<Entry>, k: nat, e: H.Event, m: nat)
    requires IsTrace(t) && Committed(t, log) && Records(t, log, k, e) && k <= m
    ensures BegunBy(t, e, m)
  {
    hide IsRun, Effective, StoreOf, EndedBy, KnownLog, Knows, StoresRun;
    EffectiveIs(log, k);
    var x: nat, v: NodeId :| KnownLog(t, log, x, v);
    forall j: nat, n: NodeId | Knows(t, j, n, m)
      ensures e.invoked <= j
    {
      SameCommand(t, log, x, v, j, n, k, m);
    }
  }

  lemma SameCommand(t: Trace, log: seq<Entry>, x: nat, v: NodeId, j: nat, n: NodeId, k: nat, m: nat)
    requires IsTrace(t) && KnownLog(t, log, x, v) && Knows(t, j, n, m) && 0 < k <= |log| && k <= m
    requires log[k - 1].kind.Normal?
    ensures exists p :: 0 <= p < j && p < |t.acts| && t.acts[p].Proposal? && t.acts[p].data == log[k - 1].kind.data
  {
    hide IsRun;
    T.CommittedPrefixesAgree(t.env, t.ss, t.acts, x, j, v, n, k);
    var mine, theirs := t.ss[x].mem[v].log.full, t.ss[j].mem[n].log.full;
    assert mine[..k][k - 1] == theirs[..k][k - 1] && theirs[k - 1] in theirs;
    WasProposed(t.env, t.ss, t.acts, j, n, log[k - 1]);
  }

  lemma EffectiveIs(log: seq<Entry>, k: nat)
    requires Effective(log, k)
    ensures 0 < k <= |log| && log[k - 1].kind.Normal?
  {
  }

  /** A read that began after an index was known to be committed is answered from beyond it. */
  lemma ReadBegan(t: Trace, rd: ReadRecord, k: nat)
    requires IsTrace(t) && RecordsRead(t, rd) && rd.prefix < k
    ensures BegunBy(t, rd.event, k)
  {
    hide IsRun, Answers, Next, K.Lookup;
    forall j: nat, n: NodeId | Knows(t, j, n, k)
      ensures rd.event.invoked <= j
    {
      if j <= rd.begun {
        T.PeakCovers(t.env, t.ss, t.acts, j, rd.begun, n);
        AnswerHasFloor(t.env, t.ss, t.acts, rd.begun, rd.answered, rd.node, rd.read);
        T.ReadsAreFresh(t.env, t.ss, t.acts, rd.answered, rd.read);
      }
    }
  }

  lemma ReadEnded(t: Trace, rd: ReadRecord)
    requires IsTrace(t) && RecordsRead(t, rd)
    ensures EndedBy(t, rd.event, rd.prefix) && rd.event.invoked <= rd.event.returned
  {
    hide IsRun, Answers, Next, K.Lookup;
    assert Knows(t, rd.answered, rd.node, rd.prefix);
  }

  /** A read sees the store of its prefix. */
  lemma ReadSees(t: Trace, log: seq<Entry>, rd: ReadRecord)
    requires IsTrace(t) && Committed(t, log) && RecordsRead(t, rd) && rd.prefix <= |log|
    ensures rd.event.ret == H.Observed(K.Lookup(StoreOf(log[..rd.prefix]), rd.event.op.key))
  {
    hide IsRun, Answers, Next, StoreOf, K.Lookup, NextStores;
    var j, n := rd.answered, rd.node;
    var x: nat, v: NodeId :| KnownLog(t, log, x, v);
    NoAnswersElsewhere(t.env, t.ss[j], t.acts[j], rd.read);
    CycleLeaves(t.env, t.ss, t.acts, j);
    StoresAreCurrent(t.env, t.ss, t.acts, t.kvs, j + 1);
    assert CurrentAt(t.ss[j + 1], t.kvs[j + 1], n);
    AppliedIsCommitted(t.env, t.ss, t.acts, j + 1, n);
    T.CommittedPrefixesAgree(t.env, t.ss, t.acts, x, j + 1, v, n, rd.prefix);
    assert t.ss[x].mem[v].log.full[..|log|][..rd.prefix] == t.ss[x].mem[v].log.full[..rd.prefix];
  }

  // ---- the order ---------------------------------------------------------------------------------------------

  function ReadsAt(queries: seq<ReadRecord>, k: nat): seq<H.Event> {
    if queries == [] then []
    else
      var rest, rd := ReadsAt(queries[..|queries| - 1], k), queries[|queries| - 1];
      if rd.prefix == k then rest + [rd.event] else rest
  }

  function ReadsUpTo(queries: seq<ReadRecord>, k: nat): seq<H.Event> {
    if queries == [] then []
    else
      var rest, rd := ReadsUpTo(queries[..|queries| - 1], k), queries[|queries| - 1];
      if rd.prefix <= k then rest + [rd.event] else rest
  }

  /** The recorded commands of a log. */
  ghost function Writes(log: seq<Entry>, writes: seq<H.Event>, k: nat): seq<H.Event>
    requires k <= |log| == |writes|
  {
    if k == 0 then []
    else if Effective(log, k) then Writes(log, writes, k - 1) + [writes[k - 1]]
    else Writes(log, writes, k - 1)
  }

  ghost function Write(log: seq<Entry>, writes: seq<H.Event>, k: nat): seq<H.Event>
    requires 0 < k <= |log| == |writes|
  {
    if Effective(log, k) then [writes[k - 1]] else []
  }

  /** Commands in the order of the log, and behind each the reads that saw it last, as they came. */
  ghost function Order(log: seq<Entry>, writes: seq<H.Event>, queries: seq<ReadRecord>, k: nat): seq<H.Event>
    requires k <= |log| == |writes|
  {
    (if k == 0 then [] else Order(log, writes, queries, k - 1) + Write(log, writes, k)) + H.Sorted(ReadsAt(queries, k))
  }

  /** What clients recorded: an event for every command of the log that took effect, and some reads. */
  ghost predicate Recorded(t: Trace, log: seq<Entry>, writes: seq<H.Event>, queries: seq<ReadRecord>): (r: bool)
    ensures r ==> |writes| == |log|
  {
    && IsTrace(t) && Committed(t, log) && |writes| == |log|
    && (forall k :: 0 < k <= |log| && Effective(log, k) ==> Records(t, log, k, writes[k - 1]))
    && (forall rd :: rd in queries ==> RecordsRead(t, rd) && rd.prefix <= |log|)
  }

  // ---- it respects real time ------------------------------------------------------------------------------

  /** Operations, or with `closed` unset those that were answered, come behind none invoked after they
      returned. */
  ghost predicate Timely(order: seq<H.Event>, closed: bool) {
    forall i, j :: 0 <= i < j < |order| && (closed || order[j].ret != H.Unknown) ==>
        order[i].invoked <= order[j].returned
  }

  ghost predicate AllEndedBy(t: Trace, order: seq<H.Event>, k: nat, closed: bool) {
    forall e :: e in order && (closed || e.ret != H.Unknown) ==> EndedBy(t, e, k)
  }

  /** Clients gave up on a command only once it was known to be committed. */
  ghost predicate Closed(t: Trace, log: seq<Entry>, writes: seq<H.Event>) {
    |log| == |writes| && forall k :: 0 < k <= |log| && Effective(log, k) ==> EndedBy(t, writes[k - 1], k)
  }

  lemma {:induction false} ReadsAtFrom(queries: seq<ReadRecord>, k: nat, e: H.Event)
    requires e in ReadsAt(queries, k)
    ensures exists rd :: rd in queries && rd.prefix == k && rd.event == e
  {
    var n := |queries| - 1;
    if e in ReadsAt(queries[..n], k) {
      ReadsAtFrom(queries[..n], k, e);
    } else {
      assert queries[n] in queries;
    }
  }

  lemma SortedFrom(queries: seq<ReadRecord>, k: nat, e: H.Event)
    requires e in H.Sorted(ReadsAt(queries, k))
    ensures exists rd :: rd in queries && rd.prefix == k && rd.event == e
  {
    H.SortedSorts(ReadsAt(queries, k));
    assert e in multiset(H.Sorted(ReadsAt(queries, k)));
    ReadsAtFrom(queries, k, e);
  }

  ghost predicate AllBegunBy(t: Trace, order: seq<H.Event>, k: nat) {
    forall e :: e in order ==> BegunBy(t, e, k)
  }

  /** The reads of one prefix. */
  lemma ReadsInTime(t: Trace, log: seq<Entry>, writes: seq<H.Event>, queries: seq<ReadRecord>, k: nat, closed: bool)
    requires Recorded(t, log, writes, queries)
    ensures var order := H.Sorted(ReadsAt(queries, k));
            Timely(order, closed) && AllBegunBy(t, order, k + 1) && AllEndedBy(t, order, k, closed)
  {
    hide RecordsRead, Records, IsTrace, Committed, BegunBy, EndedBy, H.Sorted, ReadsAt;
    var es := H.Sorted(ReadsAt(queries, k));
    H.SortedSorts(ReadsAt(queries, k));
    forall e | e in es
      ensures e.invoked <= e.returned && EndedBy(t, e, k) && BegunBy(t, e, k + 1)
    {
      SortedFrom(queries, k, e);
      var rd :| rd in queries && rd.prefix == k && rd.event == e;
      ReadEnded(t, rd);
      ReadBegan(t, rd, k + 1);
    }
    SortedInTime(es);
  }

  lemma SortedInTime(es: seq<H.Event>)
    requires H.Ordered(es) && L.Windows(es)
    ensures Timely(es, true)
  {
    forall i, j | 0 <= i < j < |es|
      ensures es[i].invoked <= es[j].returned
    {
      assert H.Before(es[i], es[j]) && es[j] in es;
    }
  }

  /** The command of one index. */
  lemma WriteInTime(t: Trace, log: seq<Entry>, writes: seq<H.Event>, queries: seq<ReadRecord>, k: nat, closed: bool)
    requires Recorded(t, log, writes, queries) && 0 < k <= |log| && (closed ==> Closed(t, log, writes))
    ensures var order := Write(log, writes, k);
            Timely(order, closed) && AllBegunBy(t, order, k) && AllBegunBy(t, order, k + 1)
            && AllEndedBy(t, order, k, closed)
  {
    hide RecordsRead, IsTrace, Committed, BegunBy, EndedBy, Effective;
    if Effective(log, k) {
      CommandBegan(t, log, k, writes[k - 1], k);
      CommandBegan(t, log, k, writes[k - 1], k + 1);
    }
  }

  lemma JoinInTime(t: Trace, a: seq<H.Event>, b: seq<H.Event>, k: nat, closed: bool)
    requires Timely(a, closed) && Timely(b, closed) && AllBegunBy(t, a, k) && AllEndedBy(t, b, k, closed)
    ensures Timely(a + b, closed)
  {
    hide BegunBy, EndedBy;
    forall p, q | p in a && q in b && (closed || q.ret != H.Unknown)
      ensures p.invoked <= q.returned
    {
      InTime(t, p, q, k);
    }
  }

  lemma BegunSooner(t: Trace, order: seq<H.Event>, k: nat)
    requires AllBegunBy(t, order, k)
    ensures AllBegunBy(t, order, k + 1)
  {
    forall e | e in order
      ensures BegunBy(t, e, k + 1)
    {
      KnownSooner(t, e, k, k + 1);
    }
  }

  lemma KnownSooner(t: Trace, e: H.Event, k: nat, more: nat)
    requires BegunBy(t, e, k) && k <= more
    ensures BegunBy(t, e, more)
  {
    forall j: nat, n: NodeId | Knows(t, j, n, more)
      ensures e.invoked <= j
    {
      assert Knows(t, j, n, k);
    }
  }

  lemma {:induction false} OrderInTime(t: Trace, log: seq<Entry>, writes: seq<H.Event>, queries: seq<ReadRecord>,
                                       k: nat, closed: bool)
    requires Recorded(t, log, writes, queries) && k <= |log| && (closed ==> Closed(t, log, writes))
    ensures Timely(Order(log, writes, queries, k), closed) && AllBegunBy(t, Order(log, writes, queries, k), k + 1)
  {
    hide IsTrace, Committed, Records, RecordsRead, Effective, BegunBy, EndedBy, AllEndedBy, Timely, Closed, Write,
         H.Sorted, ReadsAt;
    ReadsInTime(t, log, writes, queries, k, closed);
    var r := H.Sorted(ReadsAt(queries, k));
    if k == 0 {
      assert [] + r == r;
    } else {
      var o, w := Order(log, writes, queries, k - 1), Write(log, writes, k);
      OrderInTime(t, log, writes, queries, k - 1, closed);
      WriteInTime(t, log, writes, queries, k, closed);
      JoinInTime(t, o, w, k, closed);
      JoinInTime(t, o + w, r, k, closed);
      BegunSooner(t, o, k);
    }
  }

  // ---- it explains the results -----------------------------------------------------------------------------

  /** The registers hold what the store does. */
  ghost predicate Shows(order: seq<H.Event>, store: K.Store) {
    && L.Run(G.Applied(order)).Some?
    && forall k :: L.ValueAt(L.Run(G.Applied(order)).value, k) == K.Lookup(store, k)
  }

  lemma RunOne(order: seq<H.Event>, e: H.Event, store: K.Store, store': K.Store)
    requires Shows(order, store) && H.Apply(K.Lookup(store, e.op.key), e) == Some(K.Lookup(store', e.op.key))
    requires forall k :: k != e.op.key ==> K.Lookup(store', k) == K.Lookup(store, k)
    ensures Shows(order + [e], store')
  {
    hide K.Lookup, H.Apply;
    assert G.Applied(order + [e])[..|order|] == G.Applied(order);
  }

  lemma {:induction false} RunReads(order: seq<H.Event>, es: seq<H.Event>, store: K.Store)
    requires Shows(order, store)
    requires forall e :: e in es ==> e.op.Read? && e.ret == H.Observed(K.Lookup(store, e.op.key))
    ensures Shows(order + es, store)
  {
    hide Shows, K.Lookup;
    if es == [] {
      assert order + es == order;
    } else {
      var n := |es| - 1;
      assert es[n] in es && forall e :: e in es[..n] ==> e in es;
      RunReads(order, es[..n], store);
      RunOne(order + es[..n], es[n], store, store);
      assert order + es == (order + es[..n]) + [es[n]];
    }
  }

  lemma RunWrite(t: Trace, log: seq<Entry>, writes: seq<H.Event>, k: nat, order: seq<H.Event>)
    requires 0 < k <= |log| == |writes| && Shows(order, StoreOf(log[..k - 1]))
    requires Effective(log, k) ==> Records(t, log, k, writes[k - 1])
    ensures Shows(order + Write(log, writes, k), StoreOf(log[..k]))
  {
    hide StoreOf, K.Apply, K.Lookup, H.Apply, EndedBy, C.ReadRequest;
    StoreStep(log, k);
    var store := StoreOf(log[..k - 1]);
    if Effective(log, k) {
      hide Shows;
      var e := writes[k - 1];
      ApplyIsRegister(store, log[k - 1].index, RequestAt(log, k).value, e);
      RunOne(order, e, store, StoreOf(log[..k]));
    } else {
      assert order + [] == order;
      if RequestAt(log, k).Some? {
        forall key
          ensures K.Lookup(StoreOf(log[..k]), key) == K.Lookup(store, key)
        {
          ApplyLeaves(store, log[k - 1].index, RequestAt(log, k).value, key);
        }
      }
    }
  }

  lemma ReadsSee(t: Trace, log: seq<Entry>, writes: seq<H.Event>, queries: seq<ReadRecord>, k: nat)
    requires Recorded(t, log, writes, queries) && k <= |log|
    ensures forall e :: e in H.Sorted(ReadsAt(queries, k)) ==>
              e.op.Read? && e.ret == H.Observed(K.Lookup(StoreOf(log[..k]), e.op.key))
  {
    hide IsTrace, Committed, Records, StoreOf, K.Lookup, H.Sorted, ReadsAt;
    forall e | e in H.Sorted(ReadsAt(queries, k))
      ensures e.op.Read? && e.ret == H.Observed(K.Lookup(StoreOf(log[..k]), e.op.key))
    {
      SortedFrom(queries, k, e);
      var rd :| rd in queries && rd.prefix == k && rd.event == e;
      ReadSees(t, log, rd);
    }
  }

  lemma {:induction false} OrderShows(t: Trace, log: seq<Entry>, writes: seq<H.Event>, queries: seq<ReadRecord>, k: nat)
    requires Recorded(t, log, writes, queries) && k <= |log|
    ensures Shows(Order(log, writes, queries, k), StoreOf(log[..k]))
  {
    hide Shows, StoreOf, Write, K.Lookup, H.Sorted, ReadsAt, Records, RecordsRead, Effective, IsTrace, Committed;
    ReadsSee(t, log, writes, queries, k);
    if k == 0 {
      NothingShows(log);
      RunReads([], H.Sorted(ReadsAt(queries, 0)), StoreOf(log[..0]));
      assert [] + H.Sorted(ReadsAt(queries, 0)) == H.Sorted(ReadsAt(queries, 0));
    } else {
      OrderShows(t, log, writes, queries, k - 1);
      RunWrite(t, log, writes, k, Order(log, writes, queries, k - 1));
      var o := Order(log, writes, queries, k - 1) + Write(log, writes, k);
      RunReads(o, H.Sorted(ReadsAt(queries, k)), StoreOf(log[..k]));
    }
  }

  lemma NothingShows(log: seq<Entry>)
    ensures Shows([], StoreOf(log[..0]))
  {
    assert log[..0] == [];
  }

  // ---- it places exactly what was recorded --------------------------------------------------------------------

  lemma {:induction false} ReadsSplit(queries: seq<ReadRecord>, k: nat)
    ensures multiset(ReadsUpTo(queries, k))
         == (if k == 0 then multiset{} else multiset(ReadsUpTo(queries, k - 1))) + multiset(ReadsAt(queries, k))
  {
    if queries != [] { ReadsSplit(queries[..|queries| - 1], k); }
  }

  lemma WritesOn(log: seq<Entry>, writes: seq<H.Event>, k: nat)
    requires 0 < k <= |log| == |writes|
    ensures Writes(log, writes, k) == Writes(log, writes, k - 1) + Write(log, writes, k)
  {
    hide Effective;
  }

  lemma {:induction false} OrderPlaces(log: seq<Entry>, writes: seq<H.Event>, queries: seq<ReadRecord>, k: nat)
    requires k <= |log| == |writes|
    ensures multiset(Order(log, writes, queries, k))
         == multiset(Writes(log, writes, k)) + multiset(ReadsUpTo(queries, k))
  {
    hide Effective, H.Sorted, ReadsAt, ReadsUpTo, Write;
    H.SortedSorts(ReadsAt(queries, k));
    ReadsSplit(queries, k);
    if k > 0 {
      OrderPlaces(log, writes, queries, k - 1);
      WritesOn(log, writes, k);
    }
  }

  lemma {:induction false} WritesFrom(log: seq<Entry>, writes: seq<H.Event>, k: nat, e: H.Event)
    requires k <= |log| == |writes| && e in Writes(log, writes, k)
    ensures exists i :: 0 < i <= k && Effective(log, i) && writes[i - 1] == e
  {
    hide Effective;
    if e in Writes(log, writes, k - 1) { WritesFrom(log, writes, k - 1, e); }
  }

  lemma {:induction false} ReadsUpToFrom(queries: seq<ReadRecord>, k: nat, e: H.Event)
    requires e in ReadsUpTo(queries, k)
    ensures exists rd :: rd in queries && rd.event == e
  {
    var n := |queries| - 1;
    if e in ReadsUpTo(queries[..n], k) {
      ReadsUpToFrom(queries[..n], k, e);
    } else {
      assert queries[n] in queries;
    }
  }

  lemma RecordedWindow(t: Trace, log: seq<Entry>, writes: seq<H.Event>, queries: seq<ReadRecord>, e: H.Event)
    requires Recorded(t, log, writes, queries) && (e in Writes(log, writes, |log|) || e in ReadsUpTo(queries, |log|))
    ensures e.invoked <= e.returned
  {
    hide Effective, IsTrace, Committed, EndedBy, RecordsRead, OutcomeAt;
    if e in Writes(log, writes, |log|) {
      WritesFrom(log, writes, |log|, e);
      var i :| 0 < i <= |log| && Effective(log, i) && writes[i - 1] == e;
      assert Records(t, log, i, writes[i - 1]);
    } else {
      ReadsUpToFrom(queries, |log|, e);
      var rd :| rd in queries && rd.event == e;
      ReadEnded(t, rd);
    }
  }

  // ---- the theorems ------------------------------------------------------------------------------------------

  /** The order in which what was recorded took effect. */
  ghost function EffectOrder(log: seq<Entry>, writes: seq<H.Event>, queries: seq<ReadRecord>): seq<H.Event>
    requires |log| == |writes|
  {
    Order(log, writes, queries, |log|)
  }

  /** What clients recorded in all: an event for every command that took effect, reads that were answered,
      and anything else that was given up. */
  ghost predicate Everything(history: seq<H.Event>, log: seq<Entry>, writes: seq<H.Event>, queries: seq<ReadRecord>,
                             lost: seq<H.Event>)
    requires |log| == |writes|
  {
    && multiset(history) == multiset(Writes(log, writes, |log|)) + multiset(ReadsUpTo(queries, |log|)) + multiset(lost)
    && forall e :: e in lost ==> e.ret == H.Unknown && e.invoked <= e.returned
  }

  /** The order of effect explains every answer, and everything answered took effect within its window. */
  lemma EffectOrderExplains(t: Trace, log: seq<Entry>, writes: seq<H.Event>, queries: seq<ReadRecord>)
    requires Recorded(t, log, writes, queries)
    ensures var order := EffectOrder(log, writes, queries);
            && G.Explained(order) && G.AnsweredInTime(order) && L.Windows(order)
            && multiset(order) == multiset(Writes(log, writes, |log|)) + multiset(ReadsUpTo(queries, |log|))
  {
    hide L.Run, Order, Writes, ReadsUpTo, Recorded;
    var order := Order(log, writes, queries, |log|);
    OrderInTime(t, log, writes, queries, |log|, false);
    OrderShows(t, log, writes, queries, |log|);
    OrderPlaces(log, writes, queries, |log|);
    forall e | e in order
      ensures e.invoked <= e.returned
    {
      assert e in multiset(order);
      RecordedWindow(t, log, writes, queries, e);
    }
  }

  lemma EverythingIs(t: Trace, log: seq<Entry>, writes: seq<H.Event>, queries: seq<ReadRecord>, lost: seq<H.Event>,
                     history: seq<H.Event>)
    requires Recorded(t, log, writes, queries) && Everything(history, log, writes, queries, lost)
    ensures var all := EffectOrder(log, writes, queries) + lost;
            multiset(history) == multiset(all) && L.Windows(all) && L.Windows(history)
  {
    hide Recorded, L.Run, G.Explained, G.AnsweredInTime, EffectOrder, Writes, ReadsUpTo;
    EffectOrderExplains(t, log, writes, queries);
    var all := EffectOrder(log, writes, queries) + lost;
    forall e | e in history
      ensures e in all
    {
      assert e in multiset(history);
    }
  }

  /** The theorem: leave what was given up open, as an operation that may yet take effect, and every
      history that clients can record of a run has a linearization. `horizon` is any time no operation
      was invoked after. */
  lemma RunsAreLinearizable(t: Trace, log: seq<Entry>, writes: seq<H.Event>, queries: seq<ReadRecord>,
                            lost: seq<H.Event>, history: seq<H.Event>, horizon: nat)
    requires Recorded(t, log, writes, queries) && Everything(history, log, writes, queries, lost)
    requires forall e :: e in history ==> e.invoked <= horizon
    ensures L.HasLinearization(G.LeftOpen(history, horizon))
  {
    hide *;
    var order := EffectOrder(log, writes, queries);
    EffectOrderExplains(t, log, writes, queries);
    EverythingIs(t, log, writes, queries, lost, history);
    forall e | e in order + lost
      ensures e.invoked <= horizon
    {
      assert e in multiset(order + lost);
    }
    LostIsUnknown(history, log, writes, queries, lost);
    G.OpenEnded(order, lost, horizon);
    G.LeftOpenSame(order + lost, history, horizon);
    G.SameLinearization(G.LeftOpen(order + lost, horizon), G.LeftOpen(history, horizon));
  }

  lemma LostIsUnknown(history: seq<H.Event>, log: seq<Entry>, writes: seq<H.Event>, queries: seq<ReadRecord>,
                      lost: seq<H.Event>)
    requires |log| == |writes| && Everything(history, log, writes, queries, lost)
    ensures forall e :: e in lost ==> e.ret.Unknown?
  {
  }

  /** As recorded, with the windows clients closed on giving up, it has one if those were punctual. */
  lemma PunctualRunsAreLinearizable(t: Trace, log: seq<Entry>, writes: seq<H.Event>, queries: seq<ReadRecord>,
                                    lost: seq<H.Event>, history: seq<H.Event>)
    requires Recorded(t, log, writes, queries) && Everything(history, log, writes, queries, lost)
    requires G.Punctual(EffectOrder(log, writes, queries), G.Abandoned(EffectOrder(log, writes, queries)))
    ensures L.HasLinearization(history)
  {
    hide *;
    var order := EffectOrder(log, writes, queries);
    EffectOrderExplains(t, log, writes, queries);
    EverythingIs(t, log, writes, queries, lost, history);
    assert forall e :: e in order ==> e in order + lost;
    G.AbandonedGivenUp(order);
    G.PunctualIsLinearizable(order, G.Abandoned(order));
    LostIsUnknown(history, log, writes, queries, lost);
    G.DiscardAll(order, lost);
    G.SameLinearization(order + lost, history);
  }

  /** In particular, if clients gave up on a command only once it was known to be committed. */
  lemma ClosedIsPunctual(t: Trace, log: seq<Entry>, writes: seq<H.Event>, queries: seq<ReadRecord>)
    requires Recorded(t, log, writes, queries) && Closed(t, log, writes)
    ensures G.Punctual(EffectOrder(log, writes, queries), G.Abandoned(EffectOrder(log, writes, queries)))
  {
    hide Recorded, Closed, Order;
    OrderInTime(t, log, writes, queries, |log|, true);
  }

  /** So the checker accuses no run with punctual clients. */
  method CheckRecorded(ghost t: Trace, ghost log: seq<Entry>, ghost writes: seq<H.Event>,
                       ghost queries: seq<ReadRecord>,
                       ghost lost: seq<H.Event>, history: seq<H.Event>, maxStates: nat) returns (verdict: S.Verdict)
    requires Recorded(t, log, writes, queries) && Everything(history, log, writes, queries, lost)
    ensures verdict.NotLinearizable? ==>
              !G.Punctual(EffectOrder(log, writes, queries), G.Abandoned(EffectOrder(log, writes, queries)))
  {
    verdict := L.Check(history, maxStates);
    EverythingIs(t, log, writes, queries, lost, history);
    if G.Punctual(EffectOrder(log, writes, queries), G.Abandoned(EffectOrder(log, writes, queries))) {
      PunctualRunsAreLinearizable(t, log, writes, queries, lost, history);
    }
  }

  /** And none at all if what was given up is left open. */
  method CheckLeftOpen(ghost t: Trace, ghost log: seq<Entry>, ghost writes: seq<H.Event>,
                       ghost queries: seq<ReadRecord>,
                       ghost lost: seq<H.Event>, history: seq<H.Event>, horizon: nat, maxStates: nat)
    returns (verdict: S.Verdict)
    requires Recorded(t, log, writes, queries) && Everything(history, log, writes, queries, lost)
    requires forall e :: e in history ==> e.invoked <= horizon
    ensures !verdict.NotLinearizable?
  {
    verdict := L.Check(G.LeftOpen(history, horizon), maxStates);
    RunsAreLinearizable(t, log, writes, queries, lost, history, horizon);
    EverythingIs(t, log, writes, queries, lost, history);
    G.LeftOpenWindows(history, horizon);
  }
}
