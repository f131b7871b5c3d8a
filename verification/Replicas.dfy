/** From logs to data: what the key-value store of every node holds over a run of the whole cluster
    (crates/chronolog/src/node.rs:278-281, 650-655, 677-718). Crashes, snapshots and all, a store is
    exactly the outcome of its node's applied prefix, so replicas that have applied equally much
    are equal. */
module Replicas {
  import opened Types
  import opened Quorum
  import opened RaftLog
  import opened RaftNode
  import opened RaftDriver
  import opened RaftHistory
  import opened RaftInvariant
  import opened RaftReady
  import opened RaftCluster
  import opened RaftSafety
  import opened RaftFrame
  import opened RaftTrace
  import T = RaftTheorems
  import C = ClientCodec
  import K = KvStore

  // ---- the store of a prefix ------------------------------------------------------------------

  /** The commands of some entries. Anything that is not a request that decodes is passed over. */
  function Commands(entries: seq<Entry>): seq<K.Command> {
    if entries == [] then []
    else
      var before, e := Commands(entries[..|entries| - 1]), entries[|entries| - 1];
      if !e.kind.Normal? then before
      else match C.ReadRequest(e.kind.data)
        case Fail(_) => before
        case Got(r, _) => before + [K.Command(e.index, r)]
  }

  lemma {:induction false} CommandsSplit(a: seq<Entry>, b: seq<Entry>)
    ensures Commands(a + b) == Commands(a) + Commands(b)
  {
    hide C.ReadRequest;
    if b == [] {
      assert a + b == a;
    } else {
      var n := |b| - 1;
      CommandsSplit(a, b[..n]);
      assert (a + b)[..|a + b| - 1] == a + b[..n];
    }
  }

  function StoreOf(prefix: seq<Entry>): K.Store {
    K.Replay(K.EmptyStore(), Commands(prefix))
  }

  lemma StoreGoesOn(full: seq<Entry>, i: nat, j: nat)
    requires i <= j <= |full|
    ensures K.Replay(StoreOf(full[..i]), Commands(full[i..j])) == StoreOf(full[..j])
  {
    hide Commands, K.Replay;
    CommandsSplit(full[..i], full[i..j]);
    assert full[..i] + full[i..j] == full[..j];
    K.ReplaySplit(K.EmptyStore(), Commands(full[..i]), Commands(full[i..j]));
  }

  // ---- the stores of a cluster -----------------------------------------------------------------

  /** A snapshot that was taken over replaces the store. */
  function Loaded(store: K.Store, m: Raft): K.Store {
    match m.out.snapshot case Some(image) => StoreOf(image.prefix) case None => store
  }

  /** What a cycle makes of a store: a snapshot is loaded, then what was committed is applied. */
  function Fed(store: K.Store, m: Raft, committed: seq<Entry>): K.Store {
    K.Replay(Loaded(store, m), Commands(committed))
  }

  /** A restart loads the stored snapshot. */
  function NextStores(env: Env, s: Cluster, a: Action, stores: map<NodeId, K.Store>): map<NodeId, K.Store>
    requires Enabled(s, a) && s.mem.Keys <= stores.Keys
  {
    var n := Actor(a);
    match a
    case Work(_, keep) => stores[n := Fed(stores[n], s.mem[n], HandedOut(env, s, a))]
    case Crash(_) => stores[n := StoreOf(s.disk[n].snapshot)]
    case _ => stores
  }

  function NoStores(env: Env): map<NodeId, K.Store> {
    map n | n in env.cfg.AllNodes() :: K.EmptyStore()
  }

  ghost predicate StoresStep(env: Env, ss: seq<Cluster>, acts: seq<Action>, kvs: seq<map<NodeId, K.Store>>, i: nat) {
    && i + 1 < |kvs| && StepAt(env, ss, acts, i) && ss[i].mem.Keys <= kvs[i].Keys
    && kvs[i + 1] == NextStores(env, ss[i], acts[i], kvs[i])
  }

  /** A run of the cluster together with the stores its nodes keep. */
  ghost predicate StoresRun(env: Env, ss: seq<Cluster>, acts: seq<Action>, kvs: seq<map<NodeId, K.Store>>) {
    && IsRun(env, ss, acts) && |kvs| == |ss|
    && kvs[0] == NoStores(env)
    && (forall i {:trigger StoresStep(env, ss, acts, kvs, i)} :: 0 <= i < |acts| ==> StoresStep(env, ss, acts, kvs, i))
  }

  // ---- the invariant ---------------------------------------------------------------------------------

  /** A node's store is the outcome of its applied prefix, unless a snapshot is waiting to replace it. */
  ghost predicate Current(m: Raft, store: K.Store) {
    && m.applied <= |m.log.full|
    && (if m.out.snapshot.Some? then TookOver(m) else store == StoreOf(m.log.full[..m.applied]))
  }

  ghost predicate CurrentAt(s: Cluster, stores: map<NodeId, K.Store>, n: NodeId) {
    n in s.mem && n in stores && Current(s.mem[n], stores[n])
  }

  ghost predicate AllCurrent(s: Cluster, stores: map<NodeId, K.Store>) {
    s.mem.Keys == stores.Keys && forall n :: n in s.mem ==> CurrentAt(s, stores, n)
  }

  /** A waiting snapshot is a prefix of the log. */
  lemma WaitingSnapshot(m: Raft, d: Disk)
    requires Watermarked(m, d) && TookOver(m)
    ensures m.applied <= |m.log.full| && m.out.snapshot.value.prefix == m.log.full[..m.applied]
  {
  }

  /** Once a waiting snapshot is loaded, the store is that of the applied prefix. */
  lemma LoadedIs(m: Raft, d: Disk, store: K.Store)
    requires Watermarked(m, d) && Current(m, store)
    ensures Loaded(store, m) == StoreOf(m.log.full[..m.applied])
  {
    hide Watermarked, StoreOf;
    if m.out.snapshot.Some? { WaitingSnapshot(m, d); }
  }

  lemma WorkCurrent(env: Env, m: Raft, d: Disk, keep: nat, store: K.Store)
    requires Watermarked(m, d) && VoteSaved(m, d) && m.log.base <= m.applied <= m.commit <= |m.log.full|
    requires Indexed(m.log.full)
    requires Current(m, store)
    ensures Cycle(env, m, d, keep).Some?
    ensures var c := Cycle(env, m, d, keep).value; Current(c.m, Fed(store, m, c.committed))
  {
    hide Watermarked, VoteSaved, Indexed, Cycle, StoreOf, Commands, K.Replay;
    CycleApplies(env, m, d, keep);
    LoadedIs(m, d, store);
    hide Loaded;
    StoreGoesOn(m.log.full, m.applied, m.commit);
  }

  lemma CrashCurrent(env: Env, n: NodeId, d: Disk)
    ensures Current(Restart(env, n, d), StoreOf(d.snapshot))
  {
    hide AboveIndex, StoreOf;
    var m := Restart(env, n, d);
    assert m.log.full[..m.applied] == d.snapshot;
  }

  /** One step keeps every store current. */
  lemma StepCurrent(env: Env, ss: seq<Cluster>, acts: seq<Action>, kvs: seq<map<NodeId, K.Store>>, i: nat)
    requires IsRun(env, ss, acts) && i < |acts| && StoresStep(env, ss, acts, kvs, i) && AllCurrent(ss[i], kvs[i])
    ensures AllCurrent(ss[i + 1], kvs[i + 1])
  {
    hide Inv, Remembers, IsRun, Good, HistOk, Cycle, Handle, Restart, StoreOf, Fed, Current, Watermarked, VoteSaved,
         Indexed;
    var s, s', a, n := ss[i], ss[i + 1], acts[i], Actor(acts[i]);
    var h, h' := T.TwoMoments(env, ss, acts, i, i + 1);
    NodeOf(env, h, s, n);
    GoodParts(env, h, n, s.mem[n], s.disk[n]);
    assert CurrentAt(s, kvs[i], n);
    match a {
      case Work(_, keep) => WorkCurrent(env, s.mem[n], s.disk[n], keep, kvs[i][n]);
      case Crash(_) => CrashCurrent(env, n, s.disk[n]);
      case _ => InputCurrent(env, ss, acts, i, h', kvs[i][n]);
    }
    assert CurrentAt(s', kvs[i + 1], n);
    forall v | v in s'.mem
      ensures CurrentAt(s', kvs[i + 1], v)
    {
      if v != n { assert CurrentAt(s, kvs[i], v); }
    }
  }

  lemma InputCurrent(env: Env, ss: seq<Cluster>, acts: seq<Action>, i: nat, h': History, store: K.Store)
    requires IsRun(env, ss, acts) && i < |acts| && StepAt(env, ss, acts, i) && !acts[i].Work? && !acts[i].Crash?
    requires Inv(env, h', ss[i + 1])
    requires var m := ss[i].mem[Actor(acts[i])]; Current(m, store) && m.applied <= m.commit
    ensures Actor(acts[i]) in ss[i + 1].mem && Current(ss[i + 1].mem[Actor(acts[i])], store)
  {
    hide Inv, Remembers, IsRun, Good, HistOk, Handle, StoreOf, Watermarked, VoteSaved, Indexed, NodeSourced, InHand,
         BodySourced, Sourced;
    var s, s', n, a := ss[i], ss[i + 1], Actor(acts[i]), acts[i];
    var m, m' := s.mem[n], s'.mem[n];
    var known := Proposals(acts[..i + 1]);
    KnownBefore(env, ss, acts, i);
    if a.Read? {
      ReadIndexGoes(known, env, m, s.peak);
      HandleRead(env, s, m, a);
    } else {
      HandleGoes(known, env, s, m, a);
    }
    NodeOf(env, h', s', n);
    GoodParts(env, h', n, m', s'.disk[n]);
    if Calm(m, m') { T.CommittedPrefixesAgree(env, ss, acts, i, i + 1, n, n, m.applied); }
  }

  lemma InitialCurrent(env: Env)
    ensures AllCurrent(Initial(env), NoStores(env))
  {
    var s, stores := Initial(env), NoStores(env);
    forall n | n in s.mem
      ensures CurrentAt(s, stores, n)
    {
      CrashCurrent(env, n, BlankDisk());
    }
  }

  /** At every moment of every run, the store of a node is the outcome of its applied prefix. */
  lemma {:induction false} StoresAreCurrent(env: Env, ss: seq<Cluster>, acts: seq<Action>,
                                            kvs: seq<map<NodeId, K.Store>>, i: nat)
    requires StoresRun(env, ss, acts, kvs) && i < |ss|
    ensures AllCurrent(ss[i], kvs[i])
  {
    hide IsRun, AllCurrent, Initial, NextStores, StepAt;
    RunStarts(env, ss, acts);
    if i == 0 {
      InitialCurrent(env);
    } else {
      StoresAreCurrent(env, ss, acts, kvs, i - 1);
      assert StoresStep(env, ss, acts, kvs, i - 1);
      StepCurrent(env, ss, acts, kvs, i - 1);
    }
  }

  /** Replicas agree: take any two nodes at any two moments of a run. If one has applied no more than
      the other, the other's store is its own with further commands applied; in particular, nodes
      that have applied equally much hold the same data. */
  lemma ReplicasAgree(env: Env, ss: seq<Cluster>, acts: seq<Action>, kvs: seq<map<NodeId, K.Store>>,
                      i: nat, j: nat, a: NodeId, b: NodeId) returns (more: seq<K.Command>)
    requires StoresRun(env, ss, acts, kvs) && i < |ss| && j < |ss| && a in ss[i].mem && b in ss[j].mem
    requires ss[i].mem[a].out.snapshot == None && ss[j].mem[b].out.snapshot == None
    requires ss[i].mem[a].applied <= ss[j].mem[b].applied
    ensures a in kvs[i] && b in kvs[j] && kvs[j][b] == K.Replay(kvs[i][a], more)
    ensures ss[i].mem[a].applied == ss[j].mem[b].applied ==> kvs[j][b] == kvs[i][a]
  {
    hide IsRun, Inv, Remembers, Good, HistOk, Indexed, Watermarked, VoteSaved;
    StoresAreCurrent(env, ss, acts, kvs, i);
    StoresAreCurrent(env, ss, acts, kvs, j);
    assert CurrentAt(ss[i], kvs[i], a) && CurrentAt(ss[j], kvs[j], b);
    var x, y := ss[i].mem[a], ss[j].mem[b];
    AppliedIsCommitted(env, ss, acts, i, a);
    AppliedIsCommitted(env, ss, acts, j, b);
    T.CommittedPrefixesAgree(env, ss, acts, i, j, a, b, x.applied);
    more := Commands(y.log.full[x.applied..y.applied]);
    StoreGoesOn(y.log.full, x.applied, y.applied);
  }

  lemma AppliedIsCommitted(env: Env, ss: seq<Cluster>, acts: seq<Action>, i: nat, n: NodeId)
    requires IsRun(env, ss, acts) && i < |ss| && n in ss[i].mem
    ensures ss[i].mem[n].applied <= ss[i].mem[n].commit
  {
    hide IsRun, Inv, Remembers, Good, HistOk;
    var h, _ := T.TwoMoments(env, ss, acts, i, i);
    NodeOf(env, h, ss[i], n);
    GoodParts(env, h, n, ss[i].mem[n], ss[i].disk[n]);
  }

  /** A cycle leaves its node with everything applied that was committed when it began. */
  lemma CycleLeaves(env: Env, ss: seq<Cluster>, acts: seq<Action>, i: nat)
    requires IsRun(env, ss, acts) && i < |acts| && StepAt(env, ss, acts, i) && acts[i].Work?
    ensures var n := acts[i].n;
            && n in ss[i].mem && n in ss[i + 1].mem
            && ss[i + 1].mem[n].applied == ss[i].mem[n].commit && ss[i + 1].mem[n].out.snapshot == None
  {
    hide IsRun, Inv, Remembers, Good, HistOk, Cycle, Indexed, Watermarked, VoteSaved;
    var n := acts[i].n;
    var h, _ := T.TwoMoments(env, ss, acts, i, i);
    NodeOf(env, h, ss[i], n);
    GoodParts(env, h, n, ss[i].mem[n], ss[i].disk[n]);
    CycleApplies(env, ss[i].mem[n], ss[i].disk[n], acts[i].keep);
  }

  /** Linearizable reads: the store a read is answered from is one that everything committed anywhere
      when the read began has been applied to. `r.floor` is the highest commit index in the cluster
      at that moment; `k` commits of any node `b`, at any moment, are the first part of the history
      of the answering store. */
  lemma ReadsSeeCommitted(env: Env, ss: seq<Cluster>, acts: seq<Action>, kvs: seq<map<NodeId, K.Store>>,
                          i: nat, r: ReadState, j: nat, b: NodeId, k: nat) returns (more: seq<K.Command>)
    requires StoresRun(env, ss, acts, kvs) && i < |acts| && StepAt(env, ss, acts, i)
    requires r in Answers(env, ss[i], acts[i])
    requires j < |ss| && b in ss[j].mem && k <= ss[j].mem[b].commit && k <= r.floor
    ensures var n := Actor(acts[i]);
            && k <= |ss[j].mem[b].log.full| && n in kvs[i + 1]
            && kvs[i + 1][n] == K.Replay(StoreOf(ss[j].mem[b].log.full[..k]), more)
  {
    hide IsRun, Answers, Next, StoreOf, Commands, K.Replay, NextStores;
    assert acts[i].Work? by { NoAnswersElsewhere(env, ss[i], acts[i], r); }
    var n := acts[i].n;
    T.ReadsAreFresh(env, ss, acts, i, r);
    CycleLeaves(env, ss, acts, i);
    RunStarts(env, ss, acts);
    StoresAreCurrent(env, ss, acts, kvs, i + 1);
    assert CurrentAt(ss[i + 1], kvs[i + 1], n);
    AppliedIsCommitted(env, ss, acts, i + 1, n);
    var y := ss[i + 1].mem[n];
    T.CommittedPrefixesAgree(env, ss, acts, j, i + 1, b, n, k);
    more := Commands(y.log.full[k..y.applied]);
    StoreGoesOn(y.log.full, k, y.applied);
  }

  lemma NoAnswersElsewhere(env: Env, s: Cluster, a: Action, r: ReadState)
    requires Enabled(s, a) && r in Answers(env, s, a)
    ensures a.Work?
  {
    hide Cycle;
  }
}
