/** The driver of one node (crates/chronolog/src/node.rs:431-545, 577-700): a Raft machine and a store over
    the segmented log, the state file and the snapshot files. A cycle does exactly what
    `RaftDriver.Cycle` does to the abstract disk, and leaves everything it wrote synced; power loss
    between cycles, and recovery from whatever files it leaves, is exactly the cluster's crash. */
module NodeDriver {
  import opened Types
  import opened Codec
  import opened EntryCodec
  import opened RaftLog
  import opened RaftNode
  import opened WalRecord
  import opened DiskFile
  import C = WalCrash
  import D = RaftDriver
  import E = RaftTheorems
  import F = RaftSafety
  import G = CompactLog
  import H = RaftHistory
  import K = KvStore
  import L = RaftCluster
  import M = RaftMachine
  import N = KvSnapshot
  import O = WalReopen
  import Q = ClientCodec
  import R = Replicas
  import S = SegmentedWal
  import T = TwoSlot
  import V = RaftTrace

  /** The snapshot of a prefix: the store it leaves, encoded. */
  ghost function Stored(cfg: Config, prefix: seq<Entry>): Snapshot {
    Snapshot(|prefix|, LastTermOf(prefix), cfg, N.Snapshot(R.StoreOf(prefix)))
  }

  ghost predicate Covers(v: Option<Snapshot>, cfg: Config, prefix: seq<Entry>) {
    match v case None => prefix == [] case Some(s) => s == Stored(cfg, prefix)
  }

  /** A snapshot is that of the prefix it stands for. */
  ghost predicate Genuine(cfg: Config, c: M.Carried) {
    c.snapshot == Stored(cfg, c.image.prefix)
  }

  /** So is one that was received, if any, and its store can be decoded. */
  ghost predicate Faithful(cfg: Config, c: Option<M.Carried>) {
    c.Some? ==> Genuine(cfg, c.value) && N.StoreFits(R.StoreOf(c.value.image.prefix))
  }

  /** A snapshot of this image, saved as the next one, can be read back. */
  ghost predicate Savable(cfg: Config, number: nat, image: Option<Image>) {
    image.Some? ==> T.CanSave(number + 1, Stored(cfg, image.value.prefix))
  }

  ghost predicate HardFits(hard: Option<HardState>, number: nat) {
    hard.Some? ==> T.StateFits(hard.value) && number + 1 < U64
  }

  /** What is to be made durable can be read back. */
  ghost predicate Fits(ready: M.Work, cfg: Config, states: nat, snapshots: nat) {
    HardFits(ready.hard, states) && Savable(cfg, snapshots, M.ImageOf(ready.snapshot))
  }

  /** All snapshots in a queue carry these bytes. */
  ghost predicate Ships(queue: seq<M.Envelope>, data: Bytes) {
    forall e :: e in queue && e.msg.body.SnapshotReq? ==> e.msg.body.snapshot.snapshot.data == data
  }

  /** The image of what will be applied once a cycle has applied what is committed. */
  ghost function Due(m: Raft): Option<Image> {
    SnapshotAtApplied(NoteApplied(TakeReady(m).0, TakeReady(m).1.committed))
  }

  /** The loop that drops what the snapshot supersedes. */
  method KeepAbove(entries: seq<Entry>, k: nat) returns (r: seq<Entry>)
    ensures r == D.AboveIndex(entries, k)
    ensures forall e :: e in r <==> e in entries && e.index > k
  {
    r := [];
    assert entries[0..] == entries;
    for i := 0 to |entries|
      invariant D.AboveIndex(entries, k) == r + D.AboveIndex(entries[i..], k)
      invariant forall e :: e in r <==> e in entries[..i] && e.index > k
    {
      assert entries[i..][0] == entries[i] && entries[i..][1..] == entries[i + 1..];
      assert entries[..i + 1] == entries[..i] + [entries[i]];
      if entries[i].index > k {
        var rest := D.AboveIndex(entries[i + 1..], k);
        assert r + ([entries[i]] + rest) == (r + [entries[i]]) + rest;
        r := r + [entries[i]];
      }
    }
    assert entries[|entries|..] == [] && entries[..|entries|] == entries && r + [] == r;
  }

  /** The in-memory log, from the snapshot that was found and the entries above it. */
  method Recall(cfg: Config, found: Option<Snapshot>, entries: seq<Entry>,
                ghost d: D.Disk) returns (log: G.CompactedLog)
    requires Covers(found, cfg, d.snapshot) && D.Readable(d) && entries == d.wal.entries
    ensures fresh(log) && log.Valid() && log.Whole() == D.RecoveredLog(d)
  {
    hide D.AboveIndex, R.StoreOf, N.Snapshot;
    var index := if found.Some? then found.value.lastIndex else 0;
    var term := if found.Some? then found.value.lastTerm else 0;
    var above := KeepAbove(entries, index);
    AboveContinues(d);
    log := new G.CompactedLog.Restore(index, term, cfg, above, d.snapshot);
  }

  class Driver {
    const machine: M.Machine
    const store: K.KvStore
    const wal: S.Wal
    const states: T.StateFile
    const snapshots: T.SnapshotFiles
    /** What the stored snapshot covers. */
    ghost var snapshot: seq<Entry>
    /** Everything saved so far can be read back. */
    ghost var sound: bool

    ghost function Files(): set<object> {
      {states, states.file, snapshots, snapshots.first, snapshots.second}
    }

    ghost predicate Valid()
      reads this, machine.log, wal, Files()
    {
      && machine.Valid() && wal.Valid() && states.Settled() && snapshots.Settled()
      && states.file != snapshots.first && states.file != snapshots.second
      && (sound ==> states.Valid() && snapshots.Valid() && Covers(snapshots.value, machine.env.cfg, snapshot))
    }

    /** Nothing in the log is waiting for a sync. */
    ghost predicate Durable()
      reads this, wal
    {
      wal.synced == |wal.Entries()|
    }

    ghost function Disk(): D.Disk
      requires Valid()
      reads this, machine.log, wal, Files()
    {
      D.Disk(states.value, snapshot, wal.Contents())
    }

    lemma DiskIs()
      requires Valid()
      ensures Disk() == D.Disk(states.value, snapshot, wal.Contents())
    {
    }

    lemma Parts()
      requires Valid()
      ensures machine.Valid() && wal.Valid()
    {
    }

    /** Start from what recovery read: the log's entries, and from the other files what they hold. */
    constructor (env: Env, id: NodeId, wal: S.Wal, entries: seq<Entry>, states: T.StateFile, snapshots: T.SnapshotFiles,
                 ghost covered: seq<Entry>)
      requires wal.Valid() && entries == wal.Entries() && states.Valid() && snapshots.Valid()
      requires states.file != snapshots.first && states.file != snapshots.second
      requires Covers(snapshots.value, env.cfg, covered) && D.Readable(D.Disk(states.value, covered, wal.Contents()))
      ensures Valid() && sound && this.wal == wal && this.states == states && this.snapshots == snapshots
      ensures fresh(machine) && fresh(machine.log) && fresh(store) && machine.env == env && snapshot == covered
      ensures machine.State() == D.Restart(env, id, Disk())
      ensures N.StoreFits(R.StoreOf(covered)) ==> store.State() == R.StoreOf(covered)
    {
      hide S.Chain, C.DurablePrefix, C.Concat, T.HoldsState, T.HoldsSnapshot, N.Restore, R.StoreOf, N.StoreFits,
           N.Snapshot, D.RecoveredLog, D.Readable, M.Joined, RaftNode.Restored;
      BlankStore();
      ImageReads(env.cfg, covered);
      var hard := states.Latest();
      var found := snapshots.Latest();
      var log := Recall(env.cfg, found, entries, D.Disk(hard, covered, wal.Contents()));
      machine := new M.Machine.Restore(env, id, hard, log);
      store := new K.KvStore();
      this.wal, this.states, this.snapshots, snapshot, sound := wal, states, snapshots, covered, true;
      new;
      if found.Some? { Load(found.value.data); }
    }

    /** Replace the store by a snapshot's, if that decodes. */
    method Load(data: Bytes)
      modifies store
      ensures var got := N.Restore(data); store.State() == if got.Got? then got.value else old(store.State())
    {
      match N.Restore(data) {
        case Got(s, _) => store.Load(s);
        case Fail(_) =>
      }
    }

    /** Save a snapshot; whether it can be read back is not checked. */
    method Keep(c: M.Carried)
      requires Valid()
      modifies this, Files()
      ensures Valid() && snapshot == c.image.prefix && snapshots.value == Some(c.snapshot)
      ensures snapshots.number == old(snapshots.number) + 1 && unchanged(states)
      ensures sound == (old(sound) && T.CanSave(old(snapshots.number) + 1, c.snapshot) && Genuine(machine.env.cfg, c))
    {
      hide T.CanSave, Stored, T.HoldsState, T.HoldsSnapshot, SnapshotFits, T.SnapshotBody, S.Chain, C.DurablePrefix,
           C.Concat;
      sound := sound && T.CanSave(snapshots.number + 1, c.snapshot) && Genuine(machine.env.cfg, c);
      snapshots.Save(c.snapshot);
      snapshot := c.image.prefix;
    }

    /** Take over a snapshot that was received: on disk, and in the store. */
    method Install(c: M.Carried)
      requires Valid()
      modifies this, store, Files()
      ensures Valid() && snapshot == c.image.prefix
      ensures snapshots.number == old(snapshots.number) + 1 && unchanged(states)
      ensures sound == (old(sound) && T.CanSave(old(snapshots.number) + 1, c.snapshot) && Genuine(machine.env.cfg, c))
      ensures Faithful(machine.env.cfg, Some(c)) ==> store.State() == R.StoreOf(c.image.prefix)
    {
      hide S.Chain, C.DurablePrefix, C.Concat, T.HoldsState, T.HoldsSnapshot, N.Restore, R.StoreOf, N.StoreFits,
           T.CanSave, Stored, Covers;
      Keep(c);
      ImageReads(machine.env.cfg, c.image.prefix);
      Load(c.snapshot.data);
    }

    method SaveHard(v: HardState)
      requires Valid()
      modifies this, Files()
      ensures Valid() && states.value == v && snapshot == old(snapshot) && unchanged(snapshots)
      ensures sound == (old(sound) && HardFits(Some(v), old(states.number)))
    {
      hide T.HoldsState, T.HoldsSnapshot, T.StateFits, S.Chain, C.DurablePrefix, C.Concat, Stored;
      sound := sound && HardFits(Some(v), states.number);
      states.Save(v);
    }

    /** Append what there is, and sync. */
    method WriteLog(entries: seq<Entry>) returns (ok: bool)
      requires wal.Valid()
      modifies wal
      ensures wal.Valid()
      ensures match D.WalAppend(old(wal.Contents()), entries)
              case Some(w) => ok && Durable() && wal.Contents() == w
              case None => !ok
    {
      hide S.Chain, C.DurablePrefix, C.Concat, D.WalAppend;
      NothingToAppend(wal.Contents());
      if entries != [] {
        ok := wal.Append(entries);
        if !ok {
          return;
        }
      }
      wal.Sync();
      ok := true;
    }

    /** The snapshot and the hard state, the log restarted behind the former. */
    method SaveRest(ready: M.Work)
      requires Valid()
      modifies this, wal, store, Files()
      ensures Valid()
      ensures states.value == (if ready.hard.Some? then ready.hard.value else old(states.value))
      ensures match ready.snapshot
              case None =>
                && wal.Contents() == old(wal.Contents()) && snapshot == old(snapshot)
                && store.State() == old(store.State())
              case Some(c) =>
                && wal.Contents() == D.WalReset(|c.image.prefix|) && snapshot == c.image.prefix
                && (Faithful(machine.env.cfg, Some(c)) ==> store.State() == R.StoreOf(c.image.prefix))
      ensures old(sound) && Fits(ready, machine.env.cfg, old(states.number), old(snapshots.number)) ==>
                Faithful(machine.env.cfg, ready.snapshot) ==> sound
      ensures old(snapshots.number) <= snapshots.number <= old(snapshots.number) + 1
    {
      hide S.Chain, C.DurablePrefix, C.Concat, T.CanSave, HardFits, Stored, Covers, T.HoldsState, T.HoldsSnapshot,
           N.StoreFits, R.StoreOf, K.KvStore.State;
      if ready.snapshot.Some? {
        Install(ready.snapshot.value);
        wal.ResetTo(ready.snapshot.value.snapshot.lastIndex);
      }
      if ready.hard.Some? { SaveHard(ready.hard.value); }
    }

    /** Make everything in a `Ready` durable: the cut first, then the snapshot, the hard state and
        the entries, and one sync. */
    method Persist(ready: M.Work, truncateTo: Option<nat>, ghost spec: Ready) returns (ok: bool)
      requires Valid() && M.Delivers(ready, spec)
      modifies this, wal, store, Files()
      ensures Valid() && (ok && old(Durable()) ==> Durable())
      ensures match D.Persist(old(Disk()), spec, truncateTo) case Some(d) => ok && Disk() == d case None => !ok
      ensures old(sound) && Fits(ready, machine.env.cfg, old(states.number), old(snapshots.number)) ==>
                Faithful(machine.env.cfg, ready.snapshot) ==> sound
      ensures old(snapshots.number) <= snapshots.number <= old(snapshots.number) + 1
      ensures match ready.snapshot
              case None => store.State() == old(store.State())
              case Some(c) => Faithful(machine.env.cfg, Some(c)) ==> store.State() == R.StoreOf(c.image.prefix)
    {
      hide S.Chain, C.DurablePrefix, C.Concat, D.WalAppend, D.WalTruncate, Fits, Covers, T.HoldsState, T.HoldsSnapshot,
           Faithful, R.StoreOf, K.KvStore.State, M.Delivers;
      DeliversParts(ready, spec);
      if truncateTo.Some? {
        TruncateShortens(wal.Contents(), truncateTo.value);
        wal.TruncateFrom(truncateTo.value);
      }
      NothingToAppend(wal.Contents());
      if ready.hard == None && ready.entries == [] && ready.snapshot.None? {
        return true;
      }
      SaveRest(ready);
      ok := WriteLog(ready.entries);
    }

    /** Bring the log on disk level with memory: start it again if it does not fit, then write what it lacks. */
    method Reconcile() returns (ok: bool)
      requires Valid()
      modifies wal
      ensures Valid() && (ok && old(Durable()) ==> Durable())
      ensures match D.Reconcile(old(Disk()), machine.log.Whole()) case Some(d) => ok && Disk() == d case None => !ok
    {
      hide S.Chain, C.DurablePrefix, C.Concat, D.WalAppend, Slice, Covers, T.HoldsState, T.HoldsSnapshot;
      var wanted := machine.log.LastIndex();
      var base := machine.log.snapshotIndex;
      var last := wal.LastIndex();
      if last == wanted && last >= base {
        return true;
      }
      if last > wanted || last < base {
        wal.ResetTo(base);
        last := wal.LastIndex();
      }
      var missing := machine.log.Slice(last + 1, wanted + 1);
      NothingToAppend(wal.Contents());
      if missing == [] {
        return true;
      }
      ok := wal.Append(missing);
      if ok { wal.Sync(); }
    }

    /** Reconcile, and believe the log about what is durable. */
    method Settle() returns (ok: bool)
      requires Valid()
      modifies wal, machine
      ensures Valid() && (ok && old(Durable()) ==> Durable()) && machine.todo == old(machine.todo)
      ensures match D.Reconcile(old(Disk()), old(machine.State()).log)
              case Some(d) => ok && Disk() == d && machine.State() == SetPersisted(old(machine.State()), Durably(d.wal))
              case None => !ok
    {
      hide D.Reconcile, S.Chain, C.DurablePrefix, C.Concat, Covers, T.HoldsState, T.HoldsSnapshot, M.Joined;
      LogIs(machine);
      ok := Reconcile();
      if ok {
        Parts();
        var last := wal.LastIndex();
        machine.SetPersisted(last);
      }
    }

    /** Persist, reconcile, and believe the log about what is durable. */
    method Flush() returns (ok: bool, ready: M.Work)
      requires Valid()
      modifies this, wal, machine, store, Files()
      ensures Valid() && (ok && old(Durable()) ==> Durable()) && M.Delivers(ready, TakeReady(old(machine.State())).1)
      ensures match D.Flush(old(machine.State()), old(Disk()))
              case Some((m, d)) => ok && machine.State() == m && Disk() == d && machine.todo.queue == []
              case None => !ok
      ensures old(sound) && Fits(ready, machine.env.cfg, old(states.number), old(snapshots.number)) ==>
                Faithful(machine.env.cfg, ready.snapshot) ==> sound
      ensures old(snapshots.number) <= snapshots.number <= old(snapshots.number) + 1
      ensures match ready.snapshot
              case None => store.State() == old(store.State())
              case Some(c) => Faithful(machine.env.cfg, Some(c)) ==> store.State() == R.StoreOf(c.image.prefix)
    {
      hide D.Persist, D.Reconcile, D.Flush, SetPersisted, TakeReady, S.Chain, C.DurablePrefix, C.Concat, Fits, Covers,
           T.HoldsState, T.HoldsSnapshot, N.StoreFits, R.StoreOf, K.KvStore.State, M.Delivers, M.Joined, Driver.Valid,
           Driver.Disk;
      Parts();
      ghost var m, d := machine.State(), Disk();
      FlushIs(m, d);
      var truncateTo := machine.TruncateTo();
      ready := machine.Ready();
      ok := Persist(ready, truncateTo, TakeReady(m).1);
      if ok { ok := Settle(); }
    }

    /** Hand what is committed to the store. */
    method Apply(committed: seq<Entry>)
      modifies store
      ensures store.State() == K.Replay(old(store.State()), R.Commands(committed))
    {
      hide K.Apply, K.KvStore.State, Q.ReadRequest;
      for i := 0 to |committed|
        invariant store.State() == K.Replay(old(store.State()), R.Commands(committed[..i]))
      {
        var e := committed[i];
        assert committed[..i + 1] == committed[..i] + [e];
        R.CommandsSplit(committed[..i], [e]);
        OneCommand(e);
        K.ReplaySplit(old(store.State()), R.Commands(committed[..i]), R.Commands([e]));
        if e.kind.Normal? {
          match Q.ReadRequest(e.kind.data) {
            case Got(r, _) => var _ := store.ApplyCommand(e.index, r);
            case Fail(_) =>
          }
        }
      }
      assert committed[..|committed|] == committed;
    }

    /** Save a snapshot and drop what it covers, from memory and then from the log. */
    method CompactBehind(c: M.Carried) returns (ghost keep: nat)
      requires Valid() && SnapshotAtApplied(machine.State()) == Some(c.image)
      requires |c.image.prefix| > machine.log.snapshotIndex
      modifies this, wal, machine.log, Files()
      ensures Valid() && (old(Durable()) ==> Durable()) && snapshots.value == Some(c.snapshot)
      ensures machine.State() == Compact(old(machine.State()), c.image)
      ensures Disk() == D.Disk(old(states.value), c.image.prefix,
                               D.WalCompact(old(wal.Contents()), |c.image.prefix|, keep))
      ensures sound == (old(sound) && T.CanSave(old(snapshots.number) + 1, c.snapshot) && Genuine(machine.env.cfg, c))
    {
      hide S.Chain, C.DurablePrefix, C.Concat, Covers, T.HoldsState, T.HoldsSnapshot, Genuine, T.CanSave, Compact,
           M.Joined, D.WalCompact;
      LogIs(machine);
      Keep(c);
      machine.Compact(c);
      wal.CompactThrough(c.snapshot.lastIndex);
      keep := wal.Contents().first;
    }

    /** The store, encoded, at the applied index. */
    method OwnSnapshot() returns (c: Option<M.Carried>)
      requires machine.Valid()
      ensures M.ImageOf(c) == SnapshotAtApplied(machine.State())
      ensures c.Some? ==> c.value.snapshot.data == N.Snapshot(store.State())
      ensures c.Some? && store.State() == R.StoreOf(c.value.image.prefix) ==> Genuine(machine.env.cfg, c.value)
    {
      hide N.Snapshot, R.StoreOf, M.Joined, SnapshotAtApplied;
      c := machine.SnapshotOf(N.Snapshot(store.State()));
    }

    /** Enough has been applied, and the durable log reaches as far as the snapshot. */
    method TimeToCompact(c: Option<M.Carried>) returns (yes: bool)
      requires Valid()
      ensures yes == (ShouldSnapshot(machine.env, machine.State()) && c.Some?
                      && machine.State().log.base < |c.value.image.prefix| <= D.WalLast(Disk().wal))
    {
      hide S.Chain, C.DurablePrefix, C.Concat, Covers, T.HoldsState, T.HoldsSnapshot, M.Joined, ShouldSnapshot;
      var due := machine.IsSnapshotDue();
      var last := wal.LastIndex();
      LogIs(machine);
      yes := due && c.Some? && machine.log.snapshotIndex < c.value.snapshot.lastIndex <= last;
    }

    /** Take a snapshot of the store at the applied index and compact behind it, if it is time to and the
        durable log has got that far. */
    method Housekeep() returns (ghost keep: nat)
      requires Valid()
      modifies this, wal, machine.log, Files()
      ensures Valid() && (old(Durable()) ==> Durable())
      ensures Tidied(machine.env, old(machine.State()), old(Disk()), keep, machine.State(), Disk())
      ensures machine.log.snapshotIndex == old(machine.log.snapshotIndex)
              || (snapshots.value.Some? && snapshots.value.value.data == N.Snapshot(store.State()))
      ensures old(sound) && Savable(machine.env.cfg, old(snapshots.number), SnapshotAtApplied(old(machine.State()))) ==>
                Shows(old(machine.State()), store.State()) ==> sound
    {
      hide S.Chain, C.DurablePrefix, C.Concat, Covers, T.HoldsState, T.HoldsSnapshot, Genuine, T.CanSave, M.Joined,
           Compact, ShouldSnapshot, SnapshotAtApplied, D.WalCompact, N.Snapshot, R.StoreOf, K.KvStore.State,
           Driver.Disk, Driver.Valid, Tidied, Savable, Shows;
      keep := 0;
      Parts();
      ghost var m, d := machine.State(), Disk();
      var c := OwnSnapshot();
      var time := TimeToCompact(c);
      if time {
        OwnIsSavable(machine.env.cfg, snapshots.number, m, store.State(), c.value);
        DiskIs();
        LogIs(machine);
        keep := CompactBehind(c.value);
        KeptBehind(machine.env, m, d, keep, c.value.image);
      } else {
        KeptAsIs(machine.env, m, d, keep);
      }
    }

    /** Everything after the flush: apply, advance, ship snapshots and tidy up. */
    method Finish(ready: M.Work, ghost m: Raft) returns (ghost keep: nat)
      requires Valid() && M.Delivers(ready, TakeReady(m).1) && machine.todo.queue == []
      requires machine.State() == TakeReady(m).0.(persisted := machine.State().persisted)
      modifies this, wal, machine, machine.log, store, Files()
      ensures Valid() && (old(Durable()) ==> Durable())
      ensures Tidied(machine.env, Advanced(machine.env, old(machine.State()), m), old(Disk()), keep, machine.State(),
                     Disk())
      ensures store.State() == K.Replay(old(store.State()), R.Commands(ready.committed))
      ensures Ships(machine.todo.queue, N.Snapshot(store.State()))
      ensures machine.log.snapshotIndex == old(machine.log.snapshotIndex)
              || (snapshots.value.Some? && snapshots.value.value.data == N.Snapshot(store.State()))
      ensures old(sound) && Savable(machine.env.cfg, old(snapshots.number), Due(m)) ==>
                Shows(Advanced(machine.env, old(machine.State()), m), store.State()) ==> sound
    {
      hide TakeReady, ShipSnapshots, Advance, S.Chain, C.DurablePrefix, C.Concat, Covers, T.HoldsState,
           T.HoldsSnapshot, K.KvStore.State, M.Delivers, M.Joined, Due, Tidied, SnapshotAtApplied, Savable, R.Commands,
           K.Replay, Driver.Valid, Driver.Disk, N.Snapshot, Shows, Genuine, Advanced, R.StoreOf, Ships;
      DueAfter(machine.env, m, machine.State());
      Apply(ready.committed);
      Parts();
      AdvanceAndShip(ready, m);
      keep := Housekeep();
    }

    /** Advance, and ship the store to whoever needs it. */
    method AdvanceAndShip(ready: M.Work, ghost m: Raft)
      requires machine.Valid() && M.Delivers(ready, TakeReady(m).1) && machine.todo.queue == []
      modifies machine
      ensures machine.State() == Advanced(machine.env, old(machine.State()), m)
      ensures Ships(machine.todo.queue, N.Snapshot(store.State()))
    {
      hide TakeReady, ShipSnapshots, Advance, K.KvStore.State, M.Delivers, M.Joined, SnapshotAtApplied, N.Snapshot,
           Genuine;
      machine.Advance(ready, TakeReady(m).1);
      var c := OwnSnapshot();
      machine.ShipSnapshots(c);
    }

    /** One cycle. What it hands out is handed out only after everything is durable; what it saves and
        ships is its own store. */
    method Cycle() returns (ok: bool, ready: M.Work, ghost keep: nat)
      requires Valid()
      modifies this, wal, machine, machine.log, store, Files()
      ensures Valid() && (ok && old(Durable()) ==> Durable()) && M.Delivers(ready, TakeReady(old(machine.State())).1)
      ensures match D.Cycle(machine.env, old(machine.State()), old(Disk()), keep)
              case Some(c) => ok && c.m == machine.State() && c.d == Disk()
              case None => !ok
      ensures ok && Faithful(machine.env.cfg, ready.snapshot) ==>
                store.State() == R.Fed(old(store.State()), old(machine.State()), ready.committed)
      ensures ok ==> Ships(machine.todo.queue, N.Snapshot(store.State()))
      ensures ok && machine.log.snapshotIndex != old(machine.log.snapshotIndex) ==>
                snapshots.value.Some? && snapshots.value.value.data == N.Snapshot(store.State())
      ensures ok && V.Level(old(machine.State()), old(Disk())) && Faithful(machine.env.cfg, ready.snapshot) ==>
                R.Current(old(machine.State()), old(store.State())) ==>
                  && R.Current(machine.State(), store.State())
                  && (old(sound) && Fits(ready, machine.env.cfg, old(states.number), old(snapshots.number)) ==>
                        Savable(machine.env.cfg, old(snapshots.number), Due(old(machine.State()))) ==>
                          Savable(machine.env.cfg, old(snapshots.number) + 1, Due(old(machine.State()))) ==> sound)
    {
      hide D.Flush, D.Cycle, TakeReady, ShipSnapshots, Advance, S.Chain, C.DurablePrefix, C.Concat, Fits, Covers,
           T.HoldsState, T.HoldsSnapshot, N.StoreFits, R.StoreOf, K.KvStore.State, M.Delivers, M.Joined, Due, Tidied,
           Savable, R.Fed, R.Commands, K.Replay, Driver.Valid, Driver.Disk, N.Snapshot, Shows, Genuine, Faithful,
           Ships, V.Level, R.Current, Advanced;
      ghost var m, d := machine.State(), Disk();
      ok, ready := Flush();
      keep := 0;
      FlushKeeps(m, d);
      if ok {
        ghost var m1, d1 := machine.State(), Disk();
        keep := Finish(ready, m);
        CycleIs(machine.env, m, d, m1, d1, keep, machine.State(), Disk());
        FedIs(old(store.State()), m, ready);
        if V.Level(m, d) && R.Current(m, old(store.State())) && Faithful(machine.env.cfg, ready.snapshot) {
          StaysCurrent(machine.env, m, d, m1, keep, old(store.State()), ready);
        }
      } else {
        CycleStops(machine.env, m, d, keep);
      }
    }
  }

  // ---- what reaches the machine -------------------------------------------------------------------------

  lemma TruthIsShaped(env: Env, h: H.History, p: Packet)
    requires H.HistOk(env, h) && p in h.net
    ensures M.Shaped(p.msg.body)
  {
    hide H.AcksOk, H.ElectionsOk, H.GrantsAgree, H.GrantsKept, H.DurableDown, H.AskedOk, H.CommitBacked, H.Evidence;
    assert H.Truthful(h, p);
    if H.FromLeader(p) { assert H.LeadShape(h, p.msg.term); }
  }

  /** Along every run, whatever is in flight has the shape the machine demands of it. */
  lemma DeliveriesAreShaped(env: Env, ss: seq<L.Cluster>, acts: seq<L.Action>, i: nat, p: Packet)
    requires L.IsRun(env, ss, acts) && i < |ss| && p in ss[i].net
    ensures M.Shaped(p.msg.body)
  {
    hide L.IsRun, F.Remembers, F.NodeInv, F.Reached, H.HistOk;
    var h, _ := E.TwoMoments(env, ss, acts, i, i);
    TruthIsShaped(env, h, p);
  }

  // ---- power loss between cycles -----------------------------------------------------------------------

  /** `left` is what power loss may leave of a file. */
  ghost predicate Survives(file: SimFile, fates: seq<Fate>, left: Bytes)
    reads file
  {
    AllPossible(file.pending, fates) && left == SufferAll(file.durable, file.pending, fates)
  }

  lemma CleanSurvives(file: SimFile, fates: seq<Fate>, left: Bytes)
    requires file.Clean() && Survives(file, fates, left)
    ensures left == file.durable
  {
  }

  /** A log with more than one segment is not empty. */
  lemma SegmentsHold(segments: seq<S.Segment>, cs: seq<seq<Entry>>, ks: seq<nat>)
    requires S.Chain(segments, cs, ks)
    ensures C.Concat(cs) == [] ==> |segments| == 1
  {
    hide S.Holds;
    if |segments| > 1 { assert S.Linked(segments, cs, 0); }
  }

  /** The log comes back whole. */
  method ReopenLog(found: seq<C.Found>, last: nat, segmentBytes: nat, slackBytes: nat, ghost before: S.Wal,
                   ghost fates: seq<seq<Fate>>)
    returns (wal: S.Wal, entries: seq<Entry>)
    requires segmentBytes > 0 && before.Valid() && before.synced == |before.Entries()| && O.AllDetect(before.contents)
    requires C.FatesFor(O.FilesOf(before.segments), fates)
    requires found == C.AfterLoss(O.FilesOf(before.segments), before.contents, fates, before.segments[0].first)
    ensures fresh(wal) && wal.Valid() && wal.synced == |wal.Entries()|
    ensures wal.Contents() == before.Contents() && entries == wal.Entries()
  {
    hide S.Chain, C.DurablePrefix, C.Concat, O.AllDetect, C.FatesFor, C.AfterLoss;
    SegmentsHold(before.segments, before.contents, before.kept);
    wal, entries := O.Restart(found, last, segmentBytes, slackBytes, before, fates);
  }

  /** The state and snapshot files come back as they were. */
  method ReopenFiles(stateBytes: Bytes, firstBytes: Bytes, secondBytes: Bytes, ghost states: T.StateFile,
                     ghost snapshots: T.SnapshotFiles, ghost fates: (seq<Fate>, seq<Fate>, seq<Fate>))
    returns (states': T.StateFile, snapshots': T.SnapshotFiles)
    requires states.Valid() && snapshots.Valid() && Survives(states.file, fates.0, stateBytes)
    requires Survives(snapshots.first, fates.1, firstBytes) && Survives(snapshots.second, fates.2, secondBytes)
    ensures fresh(states') && fresh(states'.file) && fresh(snapshots') && fresh(snapshots'.first)
    ensures fresh(snapshots'.second)
    ensures states'.Valid() && snapshots'.Valid() && states'.value == states.value
    ensures snapshots'.value == snapshots.value
    ensures states'.file != snapshots'.first && states'.file != snapshots'.second
  {
    hide T.HoldsState, T.HoldsSnapshot, Survives;
    CleanSurvives(states.file, fates.0, stateBytes);
    CleanSurvives(snapshots.first, fates.1, firstBytes);
    CleanSurvives(snapshots.second, fates.2, secondBytes);
    var stateFile := new SimFile(stateBytes);
    var first := new SimFile(firstBytes);
    var second := new SimFile(secondBytes);
    states' := new T.StateFile(stateFile, states.number, states.value);
    snapshots' := new T.SnapshotFiles(first, second, snapshots.number, snapshots.value, snapshots.next);
  }

  /** Power is lost between cycles, with any fate for whatever was not synced, and the node starts again
      from what its files hold. The disk is the one it left, and the node is the one that a crash of the
      cluster makes of it. */
  method Reboot(env: Env, id: NodeId, stateBytes: Bytes, firstBytes: Bytes, secondBytes: Bytes, found: seq<C.Found>,
                segmentBytes: nat, slackBytes: nat, ghost before: Driver,
                ghost fates: (seq<Fate>, seq<Fate>, seq<Fate>), ghost logFates: seq<seq<Fate>>)
    returns (driver: Driver)
    requires before.Valid() && before.Durable() && before.sound && before.machine.env == env && segmentBytes > 0
    requires D.Readable(before.Disk()) && O.AllDetect(before.wal.contents)
    requires Survives(before.states.file, fates.0, stateBytes)
    requires Survives(before.snapshots.first, fates.1, firstBytes)
    requires Survives(before.snapshots.second, fates.2, secondBytes)
    requires C.FatesFor(O.FilesOf(before.wal.segments), logFates)
    requires found
          == C.AfterLoss(O.FilesOf(before.wal.segments), before.wal.contents, logFates, before.wal.segments[0].first)
    ensures fresh(driver) && driver.Valid() && driver.Durable() && driver.sound && driver.Disk() == before.Disk()
    ensures driver.machine.State() == D.Restart(env, id, before.Disk())
    ensures N.StoreFits(R.StoreOf(before.snapshot)) ==> driver.store.State() == R.StoreOf(before.snapshot)
  {
    hide S.Chain, C.DurablePrefix, C.Concat, O.AllDetect, C.FatesFor, C.AfterLoss, Survives, D.Readable, R.StoreOf,
         N.StoreFits, K.KvStore.State, M.Joined, T.HoldsState, T.HoldsSnapshot, Covers, D.Restart;
    var states, snapshots :=
      ReopenFiles(stateBytes, firstBytes, secondBytes, before.states, before.snapshots, fates);
    var latest := snapshots.Latest();
    var last := if latest.Some? then latest.value.lastIndex else 0;
    var wal, entries := ReopenLog(found, last, segmentBytes, slackBytes, before.wal, logFates);
    driver := new Driver(env, id, wal, entries, states, snapshots, before.snapshot);
  }

  /** The housekeeping of the specification, but for what a cycle hands out. */
  ghost predicate Tidied(env: Env, m: Raft, d: D.Disk, keep: nat, m': Raft, d': D.Disk) {
    var c := D.Housekeep(env, D.Cycled(m, d, [], [], []), keep); m' == c.m && d' == c.d
  }

  lemma LogIs(machine: M.Machine)
    ensures machine.State().log == machine.log.Whole() && machine.State().log.base == machine.log.snapshotIndex
  {
  }

  /** The durable index a log shows. */
  function Durably(w: D.Wal): nat {
    if D.WalLast(w) < 0 then 0 else D.WalLast(w)
  }

  lemma FlushIs(m: Raft, d: D.Disk)
    ensures D.Flush(m, d) ==
            match D.Persist(d, TakeReady(m).1, m.dirtyFrom)
            case None => None
            case Some(d1) =>
              match D.Reconcile(d1, TakeReady(m).0.log)
              case None => None
              case Some(d2) => Some((SetPersisted(TakeReady(m).0, Durably(d2.wal)), d2))
  {
    hide D.Persist, D.Reconcile, TakeReady;
  }

  lemma FlushKeeps(m: Raft, d: D.Disk)
    ensures D.Flush(m, d).Some? ==> var m1 := D.Flush(m, d).value.0; m1 == TakeReady(m).0.(persisted := m1.persisted)
  {
    hide D.Persist, D.Reconcile, TakeReady;
  }

  lemma DueAfter(env: Env, m: Raft, m1: Raft)
    requires m1 == TakeReady(m).0.(persisted := m1.persisted)
    ensures SnapshotAtApplied(Advanced(env, m1, m)) == Due(m)
    ensures SnapshotAtApplied(Advance(env, m1, TakeReady(m).1)) == Due(m)
  {
    hide TakeReady, Advance, ShipSnapshots;
    D.AdvanceFrame(env, m1, TakeReady(m).1);
    D.ShipFrame(Advance(env, m1, TakeReady(m).1));
  }

  /** The node once a cycle has advanced and shipped what it had to. */
  ghost function Advanced(env: Env, m1: Raft, m: Raft): Raft {
    ShipSnapshots(Advance(env, m1, TakeReady(m).1))
  }

  /** A store is the outcome of what has been applied. */
  ghost predicate Shows(m: Raft, store: K.Store) {
    m.applied <= |m.log.full| && store == R.StoreOf(m.log.full[..m.applied])
  }

  lemma OwnIsSavable(cfg: Config, number: nat, m: Raft, store: K.Store, c: M.Carried)
    requires SnapshotAtApplied(m) == Some(c.image) && (store == R.StoreOf(c.image.prefix) ==> Genuine(cfg, c))
    ensures Savable(cfg, number, SnapshotAtApplied(m)) && Shows(m, store) ==>
              T.CanSave(number + 1, c.snapshot) && Genuine(cfg, c)
  {
    hide R.StoreOf, T.CanSave, Stored;
  }

  lemma KeptAsIs(env: Env, m: Raft, d: D.Disk, keep: nat)
    requires var image := SnapshotAtApplied(m);
             !(ShouldSnapshot(env, m) && image.Some? && m.log.base < |image.value.prefix| <= D.WalLast(d.wal))
    ensures Tidied(env, m, d, keep, m, d)
  {
    hide ShouldSnapshot, SnapshotAtApplied;
  }

  lemma KeptBehind(env: Env, m: Raft, d: D.Disk, keep: nat, image: Image)
    requires ShouldSnapshot(env, m) && SnapshotAtApplied(m) == Some(image)
    requires m.log.base < |image.prefix| <= D.WalLast(d.wal)
    ensures Tidied(env, m, d, keep, Compact(m, image),
                   D.Disk(d.hard, image.prefix, D.WalCompact(d.wal, |image.prefix|, keep)))
  {
    hide ShouldSnapshot, SnapshotAtApplied, Compact, D.WalCompact;
  }

  /** A cycle keeps the store the outcome of what has been applied, before its housekeeping and after. */
  lemma StaysCurrent(env: Env, m: Raft, d: D.Disk, m1: Raft, keep: nat, store: K.Store, ready: M.Work)
    requires V.Level(m, d) && R.Current(m, store) && M.Delivers(ready, TakeReady(m).1)
    requires D.Flush(m, d).Some? && D.Flush(m, d).value.0 == m1
    ensures D.Cycle(env, m, d, keep).Some?
    ensures R.Current(D.Cycle(env, m, d, keep).value.m, R.Fed(store, m, ready.committed))
    ensures Shows(Advanced(env, m1, m), R.Fed(store, m, ready.committed))
  {
    hide D.Flush, ShipSnapshots, Advance, TakeReady, R.Fed, D.Housekeep, D.WalOk, D.Watermarked, D.VoteSaved, Indexed,
         R.StoreOf;
    R.WorkCurrent(env, m, d, keep, store);
    V.CycleApplies(env, m, d, keep);
    var d1, r := D.Flush(m, d).value.1, TakeReady(m).1;
    HousekeepSame(env, D.Cycled(Advanced(env, m1, m), d1, r.messages, r.committed, r.confirmed), keep);
  }

  lemma HousekeepSame(env: Env, c: D.Cycled, keep: nat)
    ensures var c' := D.Housekeep(env, c, keep);
            && c'.m.log.full == c.m.log.full && c'.m.applied == c.m.applied && c'.m.out == c.m.out
            && c'.committed == c.committed
  {
  }

  lemma CycleIs(env: Env, m: Raft, d: D.Disk, m1: Raft, d1: D.Disk, keep: nat, m': Raft, d': D.Disk)
    requires D.Flush(m, d) == Some((m1, d1))
    requires Tidied(env, Advanced(env, m1, m), d1, keep, m', d')
    ensures var c := D.Cycle(env, m, d, keep); c.Some? && c.value.m == m' && c.value.d == d'
  {
    hide D.Flush, Advance, ShipSnapshots, TakeReady;
  }

  lemma CycleStops(env: Env, m: Raft, d: D.Disk, keep: nat)
    requires D.Flush(m, d) == None
    ensures D.Cycle(env, m, d, keep) == None
  {
  }

  lemma DeliversParts(w: M.Work, r: Ready)
    requires M.Delivers(w, r)
    ensures w.hard == r.hard && w.entries == r.entries && M.ImageOf(w.snapshot) == r.snapshot
  {
  }

  lemma FedIs(before: K.Store, m: Raft, ready: M.Work)
    requires M.Delivers(ready, TakeReady(m).1)
    ensures var loaded := if ready.snapshot.Some? then R.StoreOf(ready.snapshot.value.image.prefix) else before;
            R.Fed(before, m, ready.committed) == K.Replay(loaded, R.Commands(ready.committed))
  {
  }

  lemma OneCommand(e: Entry)
    ensures R.Commands([e]) == if !e.kind.Normal? then []
                               else match Q.ReadRequest(e.kind.data)
                                    case Fail(_) => []
                                    case Got(r, _) => [K.Command(e.index, r)]
  {
    hide Q.ReadRequest;
    assert [e][..0] == [];
  }

  lemma AboveContinues(d: D.Disk)
    requires D.Readable(d)
    ensures G.Continues(D.AboveIndex(d.wal.entries, |d.snapshot|), |d.snapshot|)
  {
    D.AboveIsSuffix(d.wal, |d.snapshot|);
  }

  /** The store of an image comes back from its bytes. */
  lemma ImageReads(cfg: Config, prefix: seq<Entry>)
    ensures N.StoreFits(R.StoreOf(prefix)) ==> N.Restore(Stored(cfg, prefix).data) == Got(R.StoreOf(prefix), [])
  {
    hide N.StoreFits, N.Restore, N.Snapshot, R.StoreOf;
    if N.StoreFits(R.StoreOf(prefix)) { N.SnapshotRoundTrip(R.StoreOf(prefix)); }
  }

  lemma BlankStore()
    ensures R.StoreOf([]) == K.EmptyStore()
  {
  }

  lemma TruncateShortens(w: D.Wal, from: nat)
    ensures |D.WalTruncate(w, from).entries| <= |w.entries|
  {
  }

  lemma NothingToAppend(w: D.Wal)
    ensures D.WalAppend(w, []) == Some(w)
  {
    assert w.entries + [] == w.entries;
  }
}
