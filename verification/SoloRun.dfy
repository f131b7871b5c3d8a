/** A cluster of one node, step by step (crates/chronolog/src/raft.rs:447-493, 713-786): it elects itself,
    and from then on whatever it is given is committed by its next cycle. */
module SoloRun {
  import opened Types
  import opened Quorum
  import opened RaftLog
  import opened RaftNode
  import opened RaftDriver

  /** One voter, which takes a snapshot after so many entries. */
  function Lone(interval: nat): Env {
    Env(Config({1}, {}, {}), Options(1, 1, 64, 1024, false, interval))
  }

  const NOOP: Entry := Entry(1, 1, Noop)
  const VOTED: HardState := HardState(1, Some(1), 0)

  lemma Alone(interval: nat, m: Raft)
    requires m.id == 1
    ensures Ascending({1}) == [1] && Lone(interval).cfg.AllNodes() == {1}
    ensures HasQuorum(Lone(interval).cfg, {1}) && QuorumIndex(Lone(interval).cfg, MatchedBy(m)) == m.persisted
  {
    assert Smallest({1}) == 1 && {1} - {1} == {};
    assert {1} * {1} == {1};
    var matched := MatchedBy(m);
    assert MatchedOf([1], matched) == [m.persisted];
    assert SortDescending([m.persisted]) == [m.persisted];
  }

  /** The node as leader of its first term. */
  function Solo(full: seq<Entry>, commit: nat, applied: nat, persisted: nat, counted: nat, readCtx: nat,
                confirmed: seq<ReadState>, hardDirty: bool, saved: HardState, dirty: Option<nat>): Raft {
    Raft(1, 1, Some(1), Log(full, 0), commit, applied, persisted, Leader, Some(1), map[1 := true],
         map[1 := Progress(counted + 1, counted, Replicate, 0, 0, true)], [], readCtx, commit > 0,
         Outbox([], None, confirmed), hardDirty, saved, dirty, Clock(0, 0, 1, 0))
  }

  // ---- inputs --------------------------------------------------------------------------------------------

  lemma Elected(interval: nat)
    ensures Tick(Lone(interval), Restart(Lone(interval), 1, BlankDisk()), 0)
         == Solo([NOOP], 0, 0, 0, 0, 0, [], true, HardState(0, None, 0), Some(1))
  {
    var env := Lone(interval);
    var m0 := Restart(env, 1, BlankDisk());
    Alone(interval, m0);
    var m := Stand(env, m0.(clock := m0.clock.(election := 1)), 0);
    assert Granted(m) == {1};
    Alone(interval, Solo([NOOP], 0, 0, 0, 0, 0, [], true, HardState(0, None, 0), Some(1)));
  }

  /** With everything stored, a proposal makes the log one longer and dirty there. */
  lemma Proposed(interval: nat, full: seq<Entry>, applied: nat, readCtx: nat, data: Bytes)
    requires full != []
    ensures var e := Entry(1, |full| + 1, Normal(data));
            Propose(Lone(interval), Solo(full, |full|, applied, |full|, |full|, readCtx, [], true, VOTED, None), data)
            == Solo(full + [e], |full|, applied, |full|, |full|, readCtx, [], true, VOTED, Some(|full| + 1))
  {
    Alone(interval, Solo(full, |full|, applied, |full|, |full|, readCtx, [], true, VOTED, None));
  }

  // ---- the cycle -----------------------------------------------------------------------------------------

  lemma Stale(m: Raft, d: Disk, k: nat)
    requires m.log.base == 0 && Indexed(m.log.full) && k <= |m.log.full| && m.out.snapshot == None
    requires m.dirtyFrom == if k == |m.log.full| then None else Some(k + 1)
    requires d.snapshot == [] && d.wal == Wal(1, m.log.full[..k])
    ensures Watermarked(m, d)
  {
    assert AgreeOn(d.wal, m.log.full, 0, k);
  }

  lemma AllStored(log: Log, d: Disk)
    requires log.base == 0 && d.wal.first == 1 && d.snapshot == log.full[..log.base]
    requires d.wal.entries[log.base + 1 - d.wal.first..] == log.full[log.base..]
    ensures d == Disk(d.hard, [], Wal(1, log.full))
  {
    assert log.full[0..] == log.full && d.wal.entries[0..] == d.wal.entries;
  }

  lemma Flushed(m: Raft, d: Disk, k: nat)
    requires m.log.base == 0 && Indexed(m.log.full) && k <= |m.log.full| && m.out.snapshot == None
    requires m.dirtyFrom == if k == |m.log.full| then None else Some(k + 1)
    requires d.snapshot == [] && d.wal == Wal(1, m.log.full[..k]) && VoteSaved(m, d)
    ensures var hard := if TakeReady(m).1.hard.Some? then HardStateOf(m) else d.hard;
            Flush(m, d) == Some((TakeReady(m).0.(persisted := |m.log.full|), Disk(hard, [], Wal(1, m.log.full))))
  {
    hide Flush, TakeReady, Indexed, Watermarked, VoteSaved;
    Stale(m, d, k);
    FlushMirrors(m, d);
    AllStored(m.log, Flush(m, d).value.1);
  }

  /** What is stored is committed. */
  lemma Counted(interval: nat, full: seq<Entry>, commit: nat, applied: nat, counted: nat, readCtx: nat,
                saved: HardState, dirty: Option<nat>)
    requires full != [] && full[|full| - 1].term == 1 && commit <= |full|
    ensures var m := Solo(full, commit, applied, |full|, counted, readCtx, [], false, saved, dirty);
            AdvanceIfLeader(Lone(interval), CountOwn(m))
            == Solo(full, |full|, applied, |full|, |full|, readCtx, [], commit < |full|, saved, dirty)
  {
    Alone(interval, CountOwn(Solo(full, commit, applied, |full|, counted, readCtx, [], false, saved, dirty)));
    hide QuorumIndex, HasQuorum, MatchedBy;
  }

  /** And what was committed is applied. */
  lemma Advanced(interval: nat, full: seq<Entry>, commit: nat, applied: nat, persisted: nat, readCtx: nat,
                 confirmed: seq<ReadState>, hardDirty: bool, saved: HardState, dirty: Option<nat>)
    requires full != [] && Indexed(full) && full[|full| - 1].term == 1 && applied <= commit <= |full|
    ensures var m := Solo(full, commit, applied, persisted, persisted, readCtx, confirmed, hardDirty, saved, dirty);
            var ready := TakeReady(m).1;
            Advance(Lone(interval), TakeReady(m).0.(persisted := |full|), ready)
            == Solo(full, |full|, commit, |full|, |full|, readCtx, [], commit < |full|,
                    if ready.hard.Some? then HardStateOf(m) else saved, None)
  {
    hide AdvanceIfLeader, CountOwn, Slice;
    var m := Solo(full, commit, applied, persisted, persisted, readCtx, confirmed, hardDirty, saved, dirty);
    var (m1, ready) := (TakeReady(m).0.(persisted := |full|), TakeReady(m).1);
    ReadyCommitted(m);
    Counted(interval, full, commit, applied, persisted, readCtx, NoteSaved(m1, ready).savedHard, m1.dirtyFrom);
  }

  lemma Quiet(interval: nat, full: seq<Entry>, applied: nat, readCtx: nat, hardDirty: bool, saved: HardState, d: Disk,
              ready: Ready)
    requires applied < interval
    ensures var m := Solo(full, |full|, applied, |full|, |full|, readCtx, [], hardDirty, saved, None);
            var c := Cycled(ShipSnapshots(m), d, ready.messages, ready.committed, ready.confirmed);
            ShipSnapshots(m) == m && Housekeep(Lone(interval), c, 0) == c
  {
    var m := Solo(full, |full|, applied, |full|, |full|, readCtx, [], hardDirty, saved, None);
    assert NeedSnapshot(m) == {};
  }

  /** A cycle of the node with `k` entries stored and `commit` of them committed. */
  lemma Worked(interval: nat, full: seq<Entry>, k: nat, commit: nat, applied: nat, readCtx: nat,
               confirmed: seq<ReadState>, saved: HardState)
    requires full != [] && Indexed(full) && full[|full| - 1].term == 1 && k <= |full|
    requires applied <= commit <= |full| && commit < interval && saved in {VOTED, HardState(0, None, 0)}
    requires saved != VOTED ==> commit == 0
    ensures var dirty := if k == |full| then None else Some(k + 1);
            var m := Solo(full, commit, applied, k, k, readCtx, confirmed, true, saved, dirty);
            var m' := Solo(full, |full|, commit, |full|, |full|, readCtx, [], commit < |full|, VOTED, None);
            Cycle(Lone(interval), m, Disk(saved, [], Wal(1, full[..k])), 0)
            == Some(Cycled(m', Disk(VOTED, [], Wal(1, full)), [], full[applied..commit], confirmed))
  {
    hide Advance, Flush, ShipSnapshots, Housekeep, Indexed;
    var dirty := if k == |full| then None else Some(k + 1);
    var m, d := Solo(full, commit, applied, k, k, readCtx, confirmed, true, saved, dirty),
                Disk(saved, [], Wal(1, full[..k]));
    Flushed(m, d, k);
    Advanced(interval, full, commit, applied, k, readCtx, confirmed, true, saved, dirty);
    Quiet(interval, full, commit, readCtx, commit < |full|, VOTED, Disk(VOTED, [], Wal(1, full)), TakeReady(m).1);
    ReadyCommitted(m);
  }
}
