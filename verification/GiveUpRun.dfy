/** A run of the cluster that the checker accuses, although it did everything right
    (crates/chrono-oracle/src/history.rs:66-83, crates/chrono-oracle/src/linearizability.rs:363-408).

    A client proposes a write and gives up. A read finds nothing, because the write is not yet
    committed; a later read finds it. The checker takes the write to have ended when its client gave
    up, before the first read began. */
module GiveUpRun {
  import opened Types
  import opened Quorum
  import opened RaftLog
  import opened RaftNode
  import opened RaftDriver
  import opened RaftCluster
  import opened SoloRun
  import opened Replicas
  import opened Linearizable
  import opened LinearGiveUp
  import C = ClientCodec
  import K = KvStore
  import H = ClientHistory
  import L = LinearPerKey

  const ENV: Env := Lone(100)
  const REQUEST: C.Request := C.Request(7, 1, C.Put([], [1]))

  function Written(): (e: Entry)
    ensures e.kind.Normal? && e == Entry(1, 2, e.kind)
  {
    Entry(1, 2, Normal(C.PutRequest(REQUEST, [])))
  }

  // ---- the node -------------------------------------------------------------------------------------

  function Node(i: nat): (m: Raft)
    ensures m.applied <= m.commit <= |m.log.full|
  {
    if i == 0 then Restart(ENV, 1, BlankDisk())
    else if i == 1 then Solo([NOOP], 0, 0, 0, 0, 0, [], true, HardState(0, None, 0), Some(1))
    else if i == 2 then Solo([NOOP], 1, 0, 1, 1, 0, [], true, VOTED, None)
    else if i == 3 then Solo([NOOP, Written()], 1, 0, 1, 1, 0, [], true, VOTED, Some(2))
    else if i == 4 then Solo([NOOP, Written()], 1, 0, 1, 1, 1, [ReadState(1, 1, 1)], true, VOTED, Some(2))
    else if i == 5 then Solo([NOOP, Written()], 2, 1, 2, 2, 1, [], true, VOTED, None)
    else if i == 6 then Solo([NOOP, Written()], 2, 1, 2, 2, 2, [ReadState(2, 2, 2)], true, VOTED, None)
    else Solo([NOOP, Written()], 2, 2, 2, 2, 2, [], false, VOTED, None)
  }

  function Stored(i: nat): Disk {
    if i < 2 then BlankDisk()
    else if i < 5 then Disk(VOTED, [], Wal(1, [NOOP]))
    else Disk(VOTED, [], Wal(1, [NOOP, Written()]))
  }

  lemma Asked()
    ensures ReadIndex(ENV, Node(3), 1) == Node(4) && ReadIndex(ENV, Node(5), 2) == Node(6)
  {
    hide Written;
    Alone(100, Node(3));
    Alone(100, Node(5));
  }

  lemma Cycles(i: nat)
    requires i in {1, 4, 6}
    ensures var m := Node(i);
            Cycle(ENV, m, Stored(i), 0)
            == Some(Cycled(Node(i + 1), Stored(i + 1), [], m.log.full[m.applied..m.commit], m.out.confirmed))
  {
    hide Written, Cycle;
    var m := Node(i);
    assert [NOOP, Written()][..1] == [NOOP] && [NOOP, Written()][..2] == [NOOP, Written()];
    var k := if i == 1 then 0 else if i == 4 then 1 else 2;
    Worked(100, m.log.full, k, m.commit, m.applied, m.readCtx, m.out.confirmed, m.savedHard);
  }

  // ---- the run -----------------------------------------------------------------------------------------

  function Act(i: nat): Action {
    if i == 0 then Ticks(1, 0)
    else if i == 2 then Proposal(1, Written().kind.data)
    else if i == 3 || i == 5 then Read(1)
    else Work(1, 0)
  }

  function Moment(i: nat): Cluster {
    Cluster(map[1 := Node(i)], map[1 := Stored(i)], {}, Node(i).commit)
  }

  function Held(i: nat): map<NodeId, K.Store>
    requires i <= 7
  {
    map[1 := StoreOf(Node(i).log.full[..Node(i).applied])]
  }

  function TheRun(): Trace {
    Trace(ENV, seq(8, i requires 0 <= i < 8 => Moment(i)), seq(7, i requires 0 <= i < 7 => Act(i)),
          seq(8, i requires 0 <= i < 8 => Held(i)))
  }

  lemma Began0()
    ensures Node(0).commit == 0 && Node(0).applied == 0 && Initial(ENV) == Moment(0)
  {
    hide AboveIndex;
    assert ENV.cfg.AllNodes() == {1};
  }

  lemma WorkSteps(i: nat)
    requires i in {1, 4, 6}
    ensures Enabled(Moment(i), Work(1, 0)) && Next(ENV, Moment(i), Work(1, 0)) == Moment(i + 1)
  {
    hide Cycle, Written;
    Cycles(i);
    assert map[1 := Node(i)][1 := Node(i + 1)] == map[1 := Node(i + 1)];
    assert map[1 := Stored(i)][1 := Stored(i + 1)] == map[1 := Stored(i + 1)];
    var c := Cycle(ENV, Node(i), Stored(i), 0).value;
    assert Moment(i).net + (set p | p in c.sent) == {};
  }

  lemma Steps(i: nat)
    requires i < 7
    ensures Enabled(Moment(i), Act(i)) && Next(ENV, Moment(i), Act(i)) == Moment(i + 1)
  {
    hide Cycle, Tick, Propose, ReadIndex, Written, Restart;
    if i in {1, 4, 6} {
      WorkSteps(i);
    } else {
      if i == 0 {
        Elected(100);
        Began0();
      } else if i == 2 {
        Proposed(100, [NOOP], 0, 0, Written().kind.data);
        assert [NOOP] + [Written()] == [NOOP, Written()];
      } else {
        Asked();
      }
      assert map[1 := Node(i)][1 := Node(i + 1)] == map[1 := Node(i + 1)];
    }
  }

  lemma IsARun()
    ensures IsTrace(TheRun())
  {
    var t := TheRun();
    assert forall i :: 0 <= i < 8 ==> t.ss[i] == Moment(i) && t.kvs[i] == Held(i);
    assert forall i :: 0 <= i < 7 ==> t.acts[i] == Act(i);
    hide TheRun, Moment, Next, Held, Act, Initial, NextStores;
    Began0();
    HeldAtFirst();
    forall i | 0 <= i < |t.acts|
      ensures StepAt(t.env, t.ss, t.acts, i) && StoresStep(t.env, t.ss, t.acts, t.kvs, i)
    {
      Steps(i);
      HeldNext(i);
    }
  }

  lemma HeldAtFirst()
    ensures Held(0) == NoStores(ENV)
  {
    Began0();
    hide Restart;
    assert ENV.cfg.AllNodes() == {1} && Node(0).log.full[..0] == [];
  }

  lemma HeldOn(i: nat)
    requires i in {1, 4, 6} && Enabled(Moment(i), Work(1, 0))
    ensures Held(i + 1) == NextStores(ENV, Moment(i), Work(1, 0), Held(i))
  {
    hide Cycle, Written, StoreOf, Commands, K.Replay, Stored;
    Cycles(i);
    StoreGoesOn(Node(i).log.full, Node(i).applied, Node(i).commit);
    assert Node(i + 1).log.full == Node(i).log.full && Node(i + 1).applied == Node(i).commit;
  }

  lemma HeldNext(i: nat)
    requires i < 7 && Enabled(Moment(i), Act(i))
    ensures Moment(i).mem.Keys <= Held(i).Keys && Held(i + 1) == NextStores(ENV, Moment(i), Act(i), Held(i))
  {
    hide Cycle, Written, Restart, StoreOf, Stored;
    Began0();
    if i in {1, 4, 6} {
      HeldOn(i);
    } else {
      assert Node(i).log.full[..0] == Node(i + 1).log.full[..0] == [];
    }
  }

  // ---- what was recorded -----------------------------------------------------------------------------------

  function TheLog(): seq<Entry> {
    [NOOP, Written()]
  }

  function TheHistory(): seq<H.Event> {
    WrittenLate(2, 2, 3, 4, 5, 6)
  }

  /** The write was proposed at step 2 and is committed after step 4. */
  function TheWrites(): seq<H.Event> {
    [TheHistory()[0], TheHistory()[0]]
  }

  function TheReads(): seq<ReadRecord> {
    [ReadRecord(1, 3, 4, ReadState(1, 1, 1), 1, TheHistory()[1]),
     ReadRecord(1, 5, 6, ReadState(2, 2, 2), 2, TheHistory()[2])]
  }

  lemma WriteEffective()
    ensures RequestAt(TheLog(), 2) == Some(REQUEST) && !Effective(TheLog(), 1) && Effective(TheLog(), 2)
    ensures StoreOf(TheLog()[..1]) == K.EmptyStore() && K.Lookup(StoreOf(TheLog()[..2]), []) == ONE
  {
    hide C.PutRequest, C.ReadRequest;
    C.RequestRoundTrip(REQUEST, []);
    assert TheLog()[..0] == [];
    StoreStep(TheLog(), 1);
    StoreStep(TheLog(), 2);
  }

  lemma WriteRecorded(t: Trace)
    requires t == TheRun()
    ensures Records(t, TheLog(), 2, TheWrites()[1]) && KnownLog(t, TheLog(), 5, 1)
  {
    hide C.PutRequest, C.ReadRequest, StoreOf;
    WriteEffective();
    assert t.ss[5] == Moment(5);
    assert TheLog()[..2] == TheLog();
    assert t.acts[0] == Act(0) && t.acts[1] == Act(1);
  }

  /** What moments, steps and stores of the run are. */
  lemma At(t: Trace, i: nat)
    requires t == TheRun() && i < 8
    ensures |t.ss| == |t.kvs| == 8 && |t.acts| == 7 && t.env == ENV
    ensures t.ss[i] == Moment(i) && t.kvs[i] == Held(i) && (i < 7 ==> t.acts[i] == Act(i))
  {
  }

  lemma ReadBegins(t: Trace, i: nat)
    requires t == TheRun() && i < 2
    ensures var rd := TheReads()[i];
            Began(t, 1, rd.begun) && rd.read.ctx == t.ss[rd.begun].mem[1].readCtx + 1
  {
    hide TheRun, Written;
    At(t, TheReads()[i].begun);
  }

  lemma ReadAnswered(t: Trace, i: nat)
    requires t == TheRun() && i < 2
    ensures var rd := TheReads()[i];
            Linearizable.Answered(t, 1, rd.answered, rd.read) && 1 in t.ss[rd.answered].mem
            && rd.prefix == t.ss[rd.answered].mem[1].commit
  {
    hide TheRun, Written, Cycle;
    var j := TheReads()[i].answered;
    At(t, j);
    At(t, j + 1);
    Steps(j);
    hide Next;
    Cycles(j);
  }

  lemma ReadFound(t: Trace, i: nat)
    requires t == TheRun() && i < 2
    ensures var rd := TheReads()[i];
            1 in t.kvs[rd.answered + 1] && rd.event.ret == H.Observed(K.Lookup(t.kvs[rd.answered + 1][1], []))
  {
    hide TheRun, Written, StoreOf;
    At(t, TheReads()[i].answered + 1);
    WriteEffective();
  }

  lemma ReadRecorded(t: Trace, i: nat)
    requires t == TheRun() && i < 2
    ensures RecordsRead(t, TheReads()[i])
  {
    hide TheRun, Began, Linearizable.Answered, Held, Moment, K.Lookup, Written;
    ReadBegins(t, i);
    ReadAnswered(t, i);
    ReadFound(t, i);
    At(t, TheReads()[i].answered + 1);
  }

  lemma AllRead()
    ensures ReadsUpTo(TheReads(), 2) == [TheHistory()[1], TheHistory()[2]]
  {
    var rds := TheReads();
    assert rds[..1] == [rds[0]] && rds[..1][..0] == [];
  }

  lemma AllRecorded()
    ensures Everything(TheHistory(), TheLog(), TheWrites(), TheReads(), [])
  {
    hide Effective, Written, ReadsUpTo;
    WriteEffective();
    AllRead();
    assert Writes(TheLog(), TheWrites(), 1) == [];
    assert TheHistory() == [TheHistory()[0]] + [TheHistory()[1], TheHistory()[2]];
  }

  /** A run, and what its clients recorded of it. The windows are those of a client that gave up as soon
      as it had asked; nothing else is amiss, and yet the history is accused. */
  lemma AccusedRun()
    ensures Recorded(TheRun(), TheLog(), TheWrites(), TheReads())
    ensures Everything(TheHistory(), TheLog(), TheWrites(), TheReads(), [])
    ensures !L.HasLinearization(TheHistory()) && !Passes(TheHistory())
  {
    hide IsTrace, Records, KnownLog, RecordsRead, Effective, L.HasLinearization, Passes, TheRun, Written, Everything;
    IsARun();
    WriteEffective();
    WriteRecorded(TheRun());
    ReadRecorded(TheRun(), 0);
    ReadRecorded(TheRun(), 1);
    AllRecorded();
    WrittenLateIsAccused(2, 2, 3, 4, 5, 6);
  }
}
