# Chronolog in Dafny

Chronolog is a Raft implementation written as a state machine that is fed inputs and hands out work
(`Ready`), with a segmented write-ahead log, a deduplicating multi-version key-value store, and a
linearizability checker for client histories. This project models these four and proves what they
promise. `dafny verify dfyconfig.toml` checks all of it.

## What is proved

**Consensus.** `RaftNode` holds every transition of the Raft state machine as a function on a node;
`RaftDriver` adds the driver's cycle over a disk; `RaftCluster` puts any number of nodes together, with
a network that may lose, repeat, delay and reorder messages, and crashes between cycles. A run is any
sequence of steps. `RaftTheorems` states, about the nodes and their disks alone, what every run
guarantees: one leader per term, no two nodes disagreeing about a committed entry, leaders that hold
everything committed, matching logs, truthful replication progress, reads no older than their
beginning, clamps that never fire, and a disk that mirrors memory. `Replicas` carries this on to the
data: the stores of all nodes are the outcomes of prefixes of one history of commands.
`Linearizable` brings everything together: whatever a run does, the history its clients record has a
linearization, by the very definition the checker works with, as long as an operation that a client gave
up on is left open. The checker does not leave it open; `LinearGiveUp` says exactly when that matters, and
`GiveUpRuns` that it then does in some run of the cluster.

The proof keeps a history of every leadership, acknowledgement and message. No transition reads it and
no theorem mentions it. A few records carry such history too: `Packet.origin`, `PendingRead.floor`,
`ReadState.floor`, `Cluster.peak`, `Parcel.image`, and the part of `Log.full` below `Log.base`.

`RaftMachine`, `CompactLog`, `SegmentedWal`, `TwoSlot` and `NodeDriver` are the same things as objects
that are updated in place, over what the program really keeps. The machine holds a compacted log, which
has forgotten what lies below its snapshot, and sends and takes snapshots as bytes; the driver holds that
machine, a store, a segmented log, a state file and two snapshot files, and saves and ships its own
store. Each method is proved to do what the function it stands for does to the whole log or to the
abstract disk, so a driver cycle over files is a cycle of the cluster theorems, and power loss between
cycles followed by recovery is a crash of theirs (`NodeDriver.Reboot`).

**Storage.** `DiskFile` is a file as durable bytes, visible bytes and pending operations; power loss
keeps, loses or tears each pending operation. `WalCrash` and `WalReopen` prove, each under its exact
condition, that recovery reads back a contiguous prefix with everything synced in it, and that what is
reopened is a valid log again. `TwoSlot` proves over every run of saves that hard state and snapshots,
which are written to two slots in turn, read back as the last value saved or one whose save was begun
later.

**Checking.** `LinearSearch` proves that the checker's memoised search, with its frontier and 64-bit
mask, decides exactly the naive search; `LinearPerKey` that checking key by key is sound and complete;
`LinearFrontier` when a pass can be trusted; `LinearGiveUp` when an accusation can.

**Data.** `KvStore`, `KvSnapshot`, `KvOracle` and `KvVersions`: requests take effect once, any prefix can
be replaced by its snapshot, each key is the register the checker takes it for, and old versions are
found for exactly as long as they are kept. `Codec`, `EntryCodec`, `ClientCodec`, `WireCodec` and `Crc`:
everything sent or stored within the limits decodes to itself, prefixes are rejected, and the
table-driven checksum is CRC32C as in appendix B.4 of RFC 3720.

## Where the code does less than it says

Six promises do not hold of the code as it stands. The model follows the code, and for each there is a
condition under which the promise holds, exact in both directions.

- A client that gives up records an unknown outcome, which a checker must be free to place anywhere or
  nowhere. The checker confines it to the window that ends when the client gave up. So a run that did
  everything right can be accused: a write is proposed and given up, a read finds nothing, and a later
  read finds the write (`GiveUpRun.AccusedRun`, and for all such windows
  `LinearGiveUp.WrittenLateIsAccused`). With given windows, everything that may be recorded is linearizable
  exactly when nothing given up took effect behind an operation that was invoked later than that, with an
  answer still to come (`LinearGiveUp.GiveUpCondition`); where the search itself is exact, it accuses
  nothing exactly then (`LinearGiveUp.AccusationCondition`). Both are exact for runs too: whichever windows
  violate the condition, some run is recorded with them and accused (`GiveUpRuns.RunCondition`). It is
  enough that clients give up on a command only once it is committed (`Linearizable.ClosedIsPunctual`).
- Recovery skips the check for a gap while it has read nothing, so a log none of whose first segment was
  ever synced can come back with a hole at its front (`WalCrash.GapAccepted`). The entries read back are
  right exactly when the first non-empty segment has a durable entry or holds everything
  (`WalCrash.RecoveryCondition`). Even then the log may go on with segments that make up none: between
  filling one segment and syncing it, with the next already opened, a crash can leave an empty segment and
  one that starts behind what was lost (`WalReopen.LostBetweenSegments`). What is reopened is a log exactly
  when something is durable at its front or there is one segment only (`WalReopen.ReopenCondition`).
- The checker compares a candidate only with the lowest operation not placed, so it can accept a history
  that has no linearization (`LinearFrontier.MissedViolation`). For given windows it cannot exactly when
  no operation spans two others that do not overlap (`LinearFrontier.SearchIsRight`).
- A snapshot records the configuration at the end of the log rather than at its own index, so compacting
  during a change of membership can forget the outgoing voters (`CompactLog.OldMajorityForgotten`);
  `CompactLog.SnapshotConfig` says exactly when. A restart without a snapshot can too, and
  `CompactLog.RestartConfig` says exactly when.
- Persisting cuts the durable log at the watermark before writing it again, also when a message only
  repeats entries that are already stored (`PersistCrash.ResentAppend`), so a crash inside a cycle can
  lose entries that were acknowledged. It loses nothing exactly when the watermark lies beyond the
  durable log (`PersistCrash.CutIsHarmless`). And a snapshot that replaces the log is saved before the log
  is restarted behind it, with no watermark to cut at; a crash between the two brings the snapshot back
  with the tail of the old log (`PersistCrash.StaleTail`). It does not exactly when the log held the
  snapshot's last entry or ended at or below it (`PersistCrash.SaveIsHarmless`). The cluster theorems treat
  a cycle as one step.
- None of appending, saving a snapshot and sending a message checks the length limit that reading back
  imposes; each reads back exactly within it (`WalRecord.RecordReadable`, `TwoSlot.SavedIsReadable`,
  `WireCodec.WireRoundTrip`). After a snapshot above it has been saved, another save cut short by power
  loss leaves no snapshot at all (`TwoSlot.LongSnapshotLosesAll`).

## What is taken for granted

- Checksums are idealised by hypotheses that appear in the statements: `WalCrash.ChecksumDetects` and
  `TwoSlot.MixDetected` say that what a torn write leaves is one of the intended contents or does not
  verify. `Crc.OneByteDetected` is what is proved of the checksum itself.
- A torn write may leave any proper prefix, which includes every tear at a sector boundary.
- Election randomness, client data, message delivery and the moment of every tick and crash are inputs
  that may take any value.
- The cluster theorems are about a configuration that is arbitrary, joint ones included, but fixed.
- In the cluster theorems a snapshot is represented by the prefix of the log whose store it carries. The
  machine and the driver handle its bytes; that a received snapshot is the encoding of that store is a
  hypothesis where it is needed, and that a sent one is, is proved.

## Model

| member | source | states |
|---|---|---|
| Linearizable.RunsAreLinearizable | crates/chrono-oracle/src/history.rs:66-83 | every history clients can record of a run, with all commands that took effect, any linearizable reads, and whatever else they gave up on, has a linearization in the checker's own sense once the windows of what was given up are left open |
| Linearizable.CheckLeftOpen | crates/chrono-oracle/src/linearizability.rs:245-253 | so the checker never reports a violation of such a history with those windows left open |
| Linearizable.PunctualRunsAreLinearizable | crates/chrono-oracle/src/history.rs:66-83 | as recorded, with the windows clients closed on giving up, it has one if those who gave up were punctual |
| Linearizable.ClosedIsPunctual | crates/chrono-oracle/src/history.rs:78-83 | they were if each gave up on a command that took effect only when someone knew it to be committed |
| Linearizable.CheckRecorded | crates/chrono-oracle/src/linearizability.rs:245-253 | the checker reports a violation of a history of a run, as recorded, only if someone who gave up was not punctual |
| Linearizable.EffectOrderExplains | crates/chronolog/src/node.rs:500-516 | commands in log order, each read behind the last command it saw: this order explains every answer, and everything answered took effect within its window |
| LinearGiveUp.GiveUpCondition | crates/chrono-oracle/src/history.rs:66-83 | for given windows in order of effect: whatever was asked and answered is linearizable as recorded if and only if nothing given up took effect behind an operation invoked after that, with an answer still to come |
| LinearGiveUp.AccusationCondition | crates/chrono-oracle/src/linearizability.rs:363-408 | where no operation spans two others that do not overlap, that is also exactly when the search accuses nothing recorded with these windows |
| LinearGiveUp.WrittenLateIsAccused | crates/chrono-oracle/src/linearizability.rs:363-408 | for all windows that follow one another: a write given up, a read that finds nothing and a read that finds the write have no linearization and do not pass |
| GiveUpRun.AccusedRun | crates/chrono-oracle/src/history.rs:78-83 | a run of the cluster, step by step, of which clients record exactly that |
| GiveUpRuns.RunCondition | crates/chrono-oracle/src/history.rs:66-83 | over all runs of the cluster: nothing recorded of a run with such windows, up to scale, in that order of effect and with those given up, is without a linearization if and only if those given up were punctual; and where the search is exact, it accuses none if and only if they were |
| GiveUpRuns.UnpunctualRun | crates/chrono-oracle/src/linearizability.rs:363-408 | for every choice of windows that is not punctual there is a run, built step by step, of which clients record just those windows and which has no linearization |
| LinearGiveUp.DiscardAll | crates/chrono-oracle/src/linearizability.rs:389-408 | adding operations that were given up never makes a linearizable history worse |
| LinearGiveUp.OpenEnded | crates/chrono-oracle/src/history.rs:66-70 | an order that explains every answer in time makes the history linearizable once what was given up is left open |
| Linearizable.ReplyIsOutcome | crates/chronolog/src/node.rs:677-718 | whichever node replies to a command, in whichever cycle, its reply is the outcome the log determines |
| Linearizable.CommandBegan | crates/chronolog/src/raft.rs:480-493 | a command was invoked before anyone knew its index to be committed |
| Linearizable.ReadBegan | crates/chronolog/src/raft.rs:573-622 | a read answered from a prefix was invoked before anyone knew more than the prefix to be committed |
| Linearizable.ReadSees | crates/chronolog/src/node.rs:503-516 | a read returns what the store of its prefix of the log holds |
| RaftTheorems.StateMachineSafety | crates/chronolog/src/raft.rs:713-767 | over every run, no two cycles of any nodes hand different entries to the state machine at the same index |
| RaftTheorems.CommittedPrefixesAgree | crates/chronolog/src/raft.rs:1511-1532 | at any two moments, any two nodes agree on every index both call committed |
| RaftTheorems.HandedOutIsCommitted | crates/chronolog/src/raft.rs:763-765 | whatever a cycle hands out is the entry its node holds at that index, at or below its commit index |
| RaftTheorems.LeadersAreComplete | crates/chronolog/src/raft.rs:1498-1532 | a leader holds everything any node had committed earlier in the run at its term or a lower one |
| RaftTheorems.ElectionSafety | crates/chronolog/src/raft.rs:1074-1106 | at most one node is ever leader of a term, over crashes and restarts |
| RaftTheorems.LogsMatch | crates/chronolog/src/log.rs:198-221 | logs in memory or on disk that carry the same term at an index are equal up to it |
| RaftTheorems.MatchedIsTrue | crates/chronolog/src/raft.rs:1215-1251 | the index a leader has recorded for a follower is one through which the follower's disk agrees with the leader's log, and its memory too, unless the follower has moved to a later term |
| RaftTheorems.ReadsAreFresh | crates/chronolog/src/raft.rs:573-622 | a released read carries an index at least as high as every commit index any node had ever held when it began, and no higher than its node's own |
| RaftTheorems.PeakCovers | crates/chronolog/src/raft.rs:573-584 | the floor noted with a read is no lower than any commit index any node has held up to then |
| RaftTheorems.ClampsNeverFire | crates/chronolog/src/raft.rs:1179-1202 | whichever append is delivered, to a node of whatever term and role, no entry at or below its commit index changes and that index does not fall |
| RaftTrace.CommitNeverFalls | crates/chronolog/src/raft.rs:1179-1202 | over every run, no step but a crash lowers a node's commit index or changes an entry at or below it |
| RaftTheorems.CyclesMirror | crates/chronolog/src/node.rs:431-492 | a cycle never stops the driver, and afterwards a restart would read back the node's term, vote and whole log |
| RaftTheorems.RunHistories | crates/chronolog/src/raft.rs:637-708 | every state of every run satisfies the cluster invariant, with histories that remember one another |
| RaftTrace.CommandsWereProposed | crates/chronolog/src/raft.rs:480-493 | every command a node holds, has stored, has sent or has taken over was proposed at an earlier step of the run |
| RaftTrace.AnswerHasFloor | crates/chronolog/src/raft.rs:573-622 | an answered read is the one begun under its number, with the floor noted then |
| RaftTrace.CycleApplies | crates/chronolog/src/raft.rs:763-786 | a cycle hands out exactly the entries between the applied and the commit index and leaves all of them applied |
| RaftFrame.StepGoes | crates/chronolog/src/raft.rs:637-708 | no message makes a node hold a command from nowhere, begin a read, or apply anything but a snapshot it takes over |
| RaftFrame.TickGoes | crates/chronolog/src/raft.rs:447-470 | nor does a tick |
| RaftFrame.ReadIndexGoes | crates/chronolog/src/raft.rs:573-622 | beginning a read adds that read and nothing else |
| Replicas.StoresAreCurrent | crates/chronolog/src/node.rs:677-718 | at every moment of every run, a node's store is the outcome of exactly its applied prefix, or a snapshot is waiting to replace it |
| Replicas.ReplicasAgree | crates/chronolog/src/node.rs:677-718 | of any two nodes at any two moments, the store that has applied more is the other's with further commands applied; equally much means equal |
| Replicas.ReadsSeeCommitted | crates/chronolog/src/node.rs:503-516 | a linearizable read is answered from a store to which everything committed anywhere when the read began has been applied |
| RaftSafety.NextKeeps | crates/chronolog/src/raft.rs:637-708 | every step of every node, including crashes, keeps the cluster invariant and remembers every leadership that a disk holds |
| RaftSafety.LeaderIsCurrent | crates/chronolog/src/raft.rs:573-584 | a leader that has committed in its own term knows every commit index, or a quorum of disks has moved past its term |
| RaftSafety.UnwrittenLead | crates/chronolog/src/raft.rs:882-892 | only a node that needs nobody's vote can lead a term its disk does not hold |
| RaftHistory.LogMatching | crates/chronolog/src/log.rs:198-221 | two logs built from what leaders wrote that agree in term at a position agree up to it |
| RaftHistory.LeaderCompleteness | crates/chronolog/src/raft.rs:1498-1532 | what the leader of one term committed is in the log of the leader of every later term |
| RaftHistory.UpToDateHolds | crates/chronolog/src/log.rs:160-168 | a log at least as up to date as a voter's holds every committed prefix the voter's holds |
| RaftLeadership.FirstLeaderOfTerm | crates/chronolog/src/raft.rs:1095-1106 | a candidate with a quorum of votes is the first leader of its term |
| RaftLeadership.AdvanceAcknowledged | crates/chronolog/src/raft.rs:1511-1532 | the index a leader advances to is one a quorum has stored |
| RaftLeadership.CommitRecorded | crates/chronolog/src/raft.rs:1511-1532 | advancing the commit index of a leader keeps the record of all leaderships consistent |
| RaftReplication.AppendKeepsCommitted | crates/chronolog/src/raft.rs:1172-1202 | merging an append that arrives truncates nothing at or below the commit index and leaves the log long enough for it |
| RaftReplication.LeaderHolds | crates/chronolog/src/raft.rs:1498-1532 | the leader of any term from a node's own on holds everything the node knows to be committed |
| RaftReplication.LearnKeeps | crates/chronolog/src/raft.rs:1347-1364 | a follower may commit what a heartbeat names, because the leader capped it to what the follower holds |
| RaftHandlers.TimeoutNowFindsNoLeader | crates/chronolog/src/raft.rs:699-707 | a request to campaign never reaches a leader of its own term |
| RaftReads.PastIsCommitted | crates/chronolog/src/raft.rs:577-581 | a leader that has committed in its own term has committed everything its predecessors did |
| RaftReads.ReadIndexKeeps | crates/chronolog/src/raft.rs:573-622 | beginning a read keeps the invariant, with the nodes that could contradict it accounted for |
| RaftReads.CompletedIsFresh | crates/chronolog/src/raft.rs:1373-1392 | a read a quorum has confirmed is at least as new as every commit index when it began |
| RaftReady.CycleKeeps | crates/chronolog/src/node.rs:431-545 | a cycle keeps the invariant, hands out exactly what was committed and not applied, and sends exactly what was queued |
| RaftCycle.FlushKeeps | crates/chronolog/src/node.rs:431-492 | storing a node's log and vote makes its acknowledgements and its votes true |
| RaftCrash.RestartKeeps | crates/chronolog/src/raft.rs:339-376 | a restarted node satisfies the invariant: whatever it had told anyone is on its disk |
| RaftCrash.OthersSurvive | crates/chronolog/src/raft.rs:339-376 | no other node depends on what a crash forgets |
| RaftWatermark.StepTidy | crates/chronolog/src/raft.rs:1172-1177 | whatever well-formed message arrives, true or not, the dirty watermark still covers every difference between log and disk |
| RaftWatermark.TickTidy | crates/chronolog/src/raft.rs:447-470 | so it does after a tick |
| RaftWatermark.ProposeTidy | crates/chronolog/src/raft.rs:480-493 | and after a proposal |
| RaftWatermark.RestartTidy | crates/chronolog/src/raft.rs:339-376 | and a node rebuilt from its disk starts with none |
| RaftDriver.CycleMirrors | crates/chronolog/src/node.rs:431-545 | from any state the watermark covers, a cycle succeeds and leaves a disk that mirrors the in-memory log, term and vote |
| RaftDriver.MirrorRecovers | crates/chronolog/src/wal.rs:297-301 | a restart from a mirroring disk reads back exactly the in-memory log |
| RaftDriver.FlushMirrors | crates/chronolog/src/node.rs:595-675 | persisting and reconciling make the durable log equal the in-memory one and store term and vote |
| PersistCrash.CutIsHarmless | crates/chronolog/src/node.rs:644-646 | a crash right after the watermark cut loses nothing if and only if the watermark lies beyond the durable log |
| PersistCrash.SavedNotReset | crates/chronolog/src/node.rs:650-663 | a crash after a snapshot is saved and before the log is restarted brings back the snapshot alone if and only if there was a watermark to cut at or the durable log holds nothing beyond it |
| PersistCrash.SaveIsHarmless | crates/chronolog/src/raft.rs:1289-1315 | for a snapshot that reaches a node level with its disk, that is if and only if the log holds the snapshot's last entry or ends at or below it |
| PersistCrash.StaleTail | crates/chronolog/src/node.rs:650-663 | otherwise the snapshot comes back with the tail of the log it replaced, which is neither the old log nor the new one and ends in the old term |
| PersistCrash.ResentAppend | crates/chronolog/src/raft.rs:1172-1177 | an append of entries already held and stored leaves the log alone but makes the next cycle cut the durable copy back to where the message starts |
| Quorum.QuorumIndexDecides | crates/chronolog/src/types.rs:174-198 | for every configuration and every matched map, an index above zero is at or below quorum_index exactly when the nodes that reached it form a quorum |
| Quorum.QuorumsIntersect | crates/chronolog/src/types.rs:150-166 | two quorums of one configuration, joint or not, share a voter |
| Quorum.SoleVoter | crates/chronolog/src/types.rs:150-166 | a node that is a quorum by itself is the only voter |
| Quorum.QuorumsOverlapAlongRun | crates/chronolog/src/raft.rs:500-519 | along every run of admitted changes, each quorum of a configuration meets every quorum of the same and of the next one |
| RaftMachine.Machine.Restore | crates/chronolog/src/raft.rs:339-376 | an object over the compacted log that recovery built is the node a restart makes, its commit index clamped between snapshot and log end |
| RaftMachine.Machine.Step | crates/chronolog/src/raft.rs:637-708 | for every message whose indices follow one another, as all in flight in a run do, the object over the compacted log does what the node of the protocol proofs does with its whole log |
| RaftMachine.Machine.Tick | crates/chronolog/src/raft.rs:447-470 | so it does for a tick, elections and expired snapshots included |
| RaftMachine.Machine.Propose | crates/chronolog/src/raft.rs:480-493 | and for a proposal, whose index it reports, or refuses |
| RaftMachine.Machine.ReadIndex | crates/chronolog/src/raft.rs:573-622 | and for the beginning of a read, whose number it reports, or refuses |
| RaftMachine.Machine.Ready | crates/chronolog/src/raft.rs:713-767 | it hands out what the node would: the suffix from the watermark, term and vote if changed, messages, newly committed entries and reads |
| RaftMachine.Machine.Advance | crates/chronolog/src/raft.rs:770-786 | and takes note of the same when that is done |
| RaftMachine.FitBudget | crates/chronolog/src/raft.rs:1459-1470 | cuts a batch where the byte budget is exceeded, never before its first entry |
| RaftMachine.CollectAcks | crates/chronolog/src/raft.rs:1373-1384 | which reads an acknowledgement completes, in order |
| RaftMachine.DropDone | crates/chronolog/src/raft.rs:1386-1387 | the reads still waiting, in order |
| RaftLog.MergeResult | crates/chronolog/src/log.rs:198-221 | merging a slice of a leader's log leaves the log alone if it holds the slice, and otherwise makes it exactly the leader's up to the slice's end |
| CompactLog.CompactedLog.Restore | crates/chronolog/src/log.rs:61-74 | the boundary of a snapshot and the entries above it stand for the whole log that was stored |
| CompactLog.CompactedLog.LastIndex | crates/chronolog/src/log.rs:80-85 | the last index of the whole log, compacted part included |
| CompactLog.CompactedLog.LastTerm | crates/chronolog/src/log.rs:87-92 | the last term likewise |
| CompactLog.CompactedLog.Slot | crates/chronolog/src/log.rs:110-115 | where an entry is kept, exactly for the indices above the snapshot |
| CompactLog.CompactedLog.TermAt | crates/chronolog/src/log.rs:126-134 | the term of an index, the sentinel and the snapshot point included, nothing below |
| CompactLog.CompactedLog.Slice | crates/chronolog/src/log.rs:137-155 | the entries of a range of the whole log that are still held |
| CompactLog.CompactedLog.Append | crates/chronolog/src/log.rs:171-180 | the whole log with the entries behind it |
| CompactLog.CompactedLog.TruncateFrom | crates/chronolog/src/log.rs:183-189 | the whole log cut at an index, never below the snapshot |
| CompactLog.CompactedLog.Merge | crates/chronolog/src/log.rs:198-221 | the whole log merged as in the model |
| CompactLog.CompactedLog.InstallSnapshot | crates/chronolog/src/log.rs:224-236 | the whole log replaced, or only compacted if it already holds the snapshot's last entry |
| CompactLog.CompactedLog.CompactThrough | crates/chronolog/src/log.rs:239-249 | the same whole log with more of it dropped |
| CompactLog.CompactedLog.CurrentConfig | crates/chronolog/src/log.rs:259-267 | the snapshot's configuration with the log's changes replayed in order |
| CompactLog.CompactedLog.FindConflictByTerm | crates/chronolog/src/log.rs:274-285 | the last index not above the given one whose term is not above the given one, or the snapshot point |
| CompactLog.CompactedConfig | crates/chronolog/src/log.rs:251-267 | with the configuration of the dropped prefix as its base, a compacted log implies the same configuration as the whole one |
| CompactLog.SnapshotConfig | crates/chronolog/src/raft.rs:804-819 | compacting behind a snapshot that records the configuration at the end of the log keeps the configuration, except exactly when a lone entry into joint consensus that changes the voters lies behind the applied index |
| CompactLog.OldMajorityForgotten | crates/chronolog/src/raft.rs:804-813 | a concrete log for which the old majority is no longer asked after such a compaction |
| CompactLog.RestartConfig | crates/chronolog/src/raft.rs:348-356 | a restart without a snapshot works out the node's configuration, except exactly when the only entry into joint consensus in the log is its last change |
| NodeDriver.Driver.constructor | crates/chronolog/src/node.rs:279-289 | a driver over files that hold a state, a snapshot and a log starts with the machine a restart makes of them, and with the snapshot's store |
| NodeDriver.Driver.Persist | crates/chronolog/src/node.rs:628-675 | what the log, the state file and the snapshot files hold becomes what the model says, everything synced, or the driver stops exactly when the model does |
| NodeDriver.Driver.Reconcile | crates/chronolog/src/node.rs:595-625 | the durable log is made to match the in-memory one as in the model, and synced |
| NodeDriver.Driver.Flush | crates/chronolog/src/node.rs:431-492 | persist, reconcile, and take the durable index from the log |
| NodeDriver.Driver.Apply | crates/chronolog/src/node.rs:677-718 | the store with the commands of what was committed applied, one by one |
| NodeDriver.Driver.Housekeep | crates/chronolog/src/node.rs:535-547 | a snapshot at the applied index and compaction behind it, never past the durable log; what is saved is the encoding of the driver's own store |
| NodeDriver.Driver.Cycle | crates/chronolog/src/node.rs:431-547 | one cycle over the files is one cycle of the model and feeds the store as the model does, and leaves nothing unsynced; every snapshot it saves or ships is the encoding of its own store; if the store was the outcome of what had been applied it still is, and then the files can be read back if what was saved is within the limits |
| NodeDriver.Driver.OwnSnapshot | crates/chronolog/src/node.rs:524-536 | the boundary of the applied index with the store encoded; if the store is the outcome of what was applied, that is the snapshot of this prefix |
| NodeDriver.DeliveriesAreShaped | crates/chronolog/src/log.rs:171-180 | along every run, whatever is in flight has the shape the machine demands of it |
| NodeDriver.Reboot | crates/chronolog/src/node.rs:266-289 | after any power loss between cycles, recovery from whatever the files hold gives a driver with the same disk, and the node and the store that a crash of the cluster makes of it |
| NodeDriver.ReopenLog | crates/chronolog/src/wal.rs:217-327 | a log that was all synced comes back whole |
| NodeDriver.ReopenFiles | crates/chronolog/src/wal.rs:193-215 | the state and the snapshot come back as they were |
| NodeDriver.KeepAbove | crates/chronolog/src/wal.rs:297-301 | exactly the entries above the snapshot, in order |
| WalCrash.CrashRecovery | crates/chronolog/src/wal.rs:232-295 | from an anchored log, every power loss leaves files that recover to a contiguous prefix of what was appended, with everything durable in it |
| WalCrash.RecoveryCondition | crates/chronolog/src/wal.rs:250-266 | the entries recovery reads back are right for every power loss if and only if the first non-empty segment has a durable entry or holds everything |
| WalCrash.GapAccepted | crates/chronolog/src/wal.rs:253-254 | otherwise there is a power loss after which recovery accepts a log with a hole at its front |
| WalCrash.SegmentRecovers | crates/chronolog/src/wal.rs:690-738 | whatever power loss does to one segment, the scan returns a prefix of its entries that includes the durable ones, and exactly their bytes verify |
| WalCrash.ScanDamaged | crates/chronolog/src/wal.rs:690-738 | a scan of intact, torn, zeroed and cut records returns a prefix of what was written |
| WalRecord.ScanSegment | crates/chronolog/src/wal.rs:690-738 | the loop over a buffer position returns what the recursive scan does: entries, reason and bytes that verified |
| WalRecord.RecordReads | crates/chronolog/src/wal.rs:180-186 | a record within the length limit reads back, whatever follows |
| WalRecord.RecordReadable | crates/chronolog/src/wal.rs:429-437 | appending checks no length, and a record reads back if and only if it is within the limit |
| WalRecord.ScanRecords | crates/chronolog/src/wal.rs:690-738 | intact records scan back in order and the scan goes on behind them |
| WalReopen.Open | crates/chronolog/src/wal.rs:217-327 | the loop over the files returns the recovered entries and the repaired segments |
| WalReopen.Rebuild | crates/chronolog/src/wal.rs:268-292 | a segment's offsets are rebuilt and its torn tail is cut, durably |
| WalReopen.ReopenCondition | crates/chronolog/src/wal.rs:217-327 | for every power loss the segments recovery keeps make up a valid log holding a prefix with everything durable in it, if and only if something is durable at the front of the log or it has one segment only |
| WalReopen.LostBetweenSegments | crates/chronolog/src/wal.rs:350-368 | with one segment written and not synced and the next just opened, the entries read back are right, yet what is kept makes up no log and claims an index that was lost |
| WalReopen.Restart | crates/chronolog/src/wal.rs:193-327 | the same for the log as an object: it goes on with what recovery kept, which under that condition is a valid log with nothing synced missing, so the guarantee holds over any number of crashes |
| SegmentedWal.Wal.constructor | crates/chronolog/src/wal.rs:350-368 | a new log is empty and starts at the given index |
| SegmentedWal.Wal.Resume | crates/chronolog/src/wal.rs:303-320 | a log goes on with the segments recovery kept, valid if they make up a log |
| SegmentedWal.Wal.FirstIndex | crates/chronolog/src/wal.rs:334-336 | the first index of the plain sequence |
| SegmentedWal.Wal.LastIndex | crates/chronolog/src/wal.rs:339-344 | the last index of the plain sequence |
| SegmentedWal.Wal.Roll | crates/chronolog/src/wal.rs:424-427 | a new segment behind a full one changes nothing in the sequence |
| SegmentedWal.Wal.WriteRecord | crates/chronolog/src/wal.rs:429-442 | the sequence with one more entry, its offset recorded |
| SegmentedWal.Wal.AppendOne | crates/chronolog/src/wal.rs:400-445 | the same, rolling first if the segment is full |
| SegmentedWal.Wal.Append | crates/chronolog/src/wal.rs:376-445 | the sequence with the batch behind it, or unchanged if the batch does not continue it |
| SegmentedWal.Wal.Pop | crates/chronolog/src/wal.rs:556-565 | dropping the last segment leaves a prefix that ends before it |
| SegmentedWal.Wal.CutLast | crates/chronolog/src/wal.rs:567-586 | cutting the last segment leaves a prefix that ends just before the index, durably |
| SegmentedWal.Wal.TruncateFrom | crates/chronolog/src/wal.rs:536-587 | the sequence cut at the index, and no synced entry below it lost |
| SegmentedWal.Wal.ResetTo | crates/chronolog/src/wal.rs:603-610 | an empty sequence behind the index |
| SegmentedWal.Wal.Sync | crates/chronolog/src/wal.rs:448-488 | the same sequence with all of it durable |
| SegmentedWal.Wal.CompactThrough | crates/chronolog/src/wal.rs:618-646 | whole segments below the index are dropped and nothing else changes |
| SegmentedWal.Wal.ReadEntry | crates/chronolog/src/wal.rs:650-676 | the entry at an index of the sequence exactly if its record is within the length limit, and nothing outside the sequence |
| SegmentedWal.NamesDistinct | crates/chronolog/src/wal.rs:424-427 | a segment opened behind a full one has a name of its own, always, if and only if the segment size is not zero |
| SegmentedWal.Ends | crates/chronolog/src/wal.rs:339-344 | the last segment's last index is where the whole sequence ends |
| SegmentedWal.ReadSlot | crates/chronolog/src/wal.rs:650-676 | the record at a slot's offset is that slot's entry, exactly if it is within the length limit |
| TwoSlot.StateSurvives | crates/chronolog/src/wal.rs:495-508 | whatever power loss does to a save of the hard state, the file holds the old value or the new one, and the new one if the write was kept |
| TwoSlot.StateRun | crates/chronolog/src/wal.rs:490-508 | over every run of saves, any of them cut short, what is read back is the last completed value or one whose save began later |
| TwoSlot.ChooseFinds | crates/chronolog/src/wal.rs:201-215 | recovery picks the current value and aims the next write at the other slot |
| TwoSlot.SlotsAfter | crates/chronolog/src/wal.rs:490-528 | a write to the next slot that reads as before, as intended or not at all leaves the old value or the new one current |
| TwoSlot.TornWrite | crates/chronolog/src/wal.rs:755-767 | a torn write leaves a slot that reads as before, as intended, or not at all |
| TwoSlot.FrameReads | crates/chronolog/src/wal.rs:180-186 | a frame reads back whatever follows it, exactly when its body is within the limit |
| TwoSlot.StateRoundTrip | crates/chronolog/src/wal.rs:495-505 | the stored hard state decodes to itself and always fits its slot |
| TwoSlot.ReadBack | crates/chronolog/src/wal.rs:740-776 | the loop over the two slots finds the best of them |
| TwoSlot.StateFile.constructor | crates/chronolog/src/wal.rs:740-776 | opening a file that holds a value, or nothing yet, finds it |
| TwoSlot.StateFile.Latest | crates/chronolog/src/wal.rs:740-776 | recovery returns the current value |
| TwoSlot.StateFile.Save | crates/chronolog/src/wal.rs:495-508 | a completed save makes its value current, whatever was in the slot |
| TwoSlot.StateFile.SaveCutShort | crates/chronolog/src/wal.rs:495-508 | a save cut short by power loss leaves the old value or the new one current |
| TwoSlot.SnapshotSurvives | crates/chronolog/src/wal.rs:511-528 | whatever power loss does to the truncation and the write of a snapshot, its file reads as before, as intended, or not at all |
| TwoSlot.SnapshotRun | crates/chronolog/src/wal.rs:511-528 | over every run of saves of snapshots within the limit, any of them cut short, what is read back is the last completed one or one whose save began later |
| TwoSlot.LongSnapshotLosesAll | crates/chronolog/src/wal.rs:511-528 | that the limit is kept is needed: after a save above it, one more save cut short leaves no snapshot at all |
| TwoSlot.SavedIsReadable | crates/chronolog/src/wal.rs:778-800 | a snapshot that was written whole can be read back if and only if it is within the length limit |
| TwoSlot.SnapshotFiles.constructor | crates/chronolog/src/wal.rs:201-215 | opening two files that hold a snapshot, or nothing yet, finds it and the slot it is not in |
| TwoSlot.SnapshotFiles.Latest | crates/chronolog/src/wal.rs:778-800 | recovery returns the current snapshot |
| TwoSlot.SnapshotFiles.Save | crates/chronolog/src/wal.rs:511-528 | a completed save within the limit makes its snapshot current and aims at the other slot; above it the old one is still what recovery finds |
| TwoSlot.SnapshotFiles.SaveCutShort | crates/chronolog/src/wal.rs:511-528 | a save cut short by power loss leaves the old snapshot or the new one current |
| DiskFile.StaysCoherent | crates/chrono-sim/src/kernel.rs:126-168 | what a process reads is what a complete write-back would store, after every write, truncation and sync |
| DiskFile.SimFile.Write | crates/chrono-sim/src/kernel.rs:848-943 | what is read shows the data where it was written, what was there elsewhere, and zeros in a gap; the platter does not change, and a complete write-back would still leave what is read |
| DiskFile.SimFile.SetLength | crates/chrono-sim/src/kernel.rs:996-1020 | what is read ends at the length, the platter does not change, and a complete write-back would still leave what is read |
| DiskFile.SimFile.Sync | crates/chrono-sim/src/kernel.rs:945-994 | draining what is pending, oldest first, leaves on the platter what is read |
| DiskFile.SimFile.LosePower | crates/chrono-sim/src/kernel.rs:1676-1778 | power loss performs each pending operation wholly, partly or not at all, in order, and reads then see only that |
| LinearSearch.CheckOneKey | crates/chrono-oracle/src/linearizability.rs:273-486 | a pass exhibits an order the naive search accepts, a failure proves there is none and explains it, and it gives up only for want of budget or window |
| LinearSearch.Search | crates/chrono-oracle/src/linearizability.rs:331-486 | the memoised search over frontiers and masks decides exactly the naive search over sets of placed operations |
| LinearSearch.Resume | crates/chrono-oracle/src/linearizability.rs:366-462 | a frame's next move leads to a node not seen before, or the node is exhausted |
| LinearSearch.PlaceAdds | crates/chrono-oracle/src/linearizability.rs:403-426 | a move on frontier and mask is the move on sets |
| LinearSearch.FrontierIsLowest | crates/chrono-oracle/src/linearizability.rs:255-272 | the frontier is the lowest operation not placed |
| LinearSearch.ClosedBlocks | crates/chrono-oracle/src/linearizability.rs:428-431 | no order leaves a set of exhausted nodes, so revisiting one cannot succeed and the deepest frontier blocks every order |
| LinearPerKey.PerKey | crates/chrono-oracle/src/history.rs:173-191 | a history has a real-time-respecting linearization if and only if its projection on every key has one |
| LinearPerKey.KeysApart | crates/chrono-oracle/src/history.rs:173-181 | operations on different keys commute: an order is legal once its projections are |
| LinearPerKey.LinearizationIsOrder | crates/chrono-oracle/src/linearizability.rs:363-388 | every linearization of one key's operations is an order the search accepts |
| LinearPerKey.Check | crates/chrono-oracle/src/linearizability.rs:245-253 | a failure means that the whole history has no linearization, and names a key and a culprit; a pass means every key has an accepted order |
| LinearPerKey.ViolationIsReal | crates/chrono-oracle/src/linearizability.rs:245-253 | a key without an accepted order leaves the whole history without a linearization |
| LinearFrontier.SearchIsRight | crates/chrono-oracle/src/linearizability.rs:363-388 | for given windows, acceptance and linearizability coincide for every history of one key if and only if no operation spans two others that do not overlap |
| LinearFrontier.MissedViolation | crates/chrono-oracle/src/linearizability.rs:363-388 | three operations that are accepted and have no linearization |
| LinearFrontier.PassIsReal | crates/chrono-oracle/src/linearizability.rs:245-253 | where nothing is spanned on any key, a pass means that the whole history has a linearization |
| LinearFrontier.OrderIsLinearization | crates/chrono-oracle/src/linearizability.rs:363-388 | where nothing is spanned, an accepted order of one key is a linearization |
| ClientHistory.SortedSorts | crates/chrono-oracle/src/history.rs:159-171 | sorting yields a permutation in order of invocation, return and client |
| ClientHistory.SortedStays | crates/chrono-oracle/src/history.rs:159-171 | sorting a sorted history changes nothing |
| ClientHistory.ByKey | crates/chrono-oracle/src/history.rs:182-191 | one sorted sub-history per key, each exactly the events on that key |
| KvStore.ExactlyOnce | crates/chronolog/src/kv.rs:119-140 | of any number of copies of a request in a log, at most one takes effect |
| KvStore.RetryAnswered | crates/chronolog/src/kv.rs:119-140 | a retry gets the first outcome and changes nothing but the applied index, whatever other clients do meanwhile |
| KvStore.ReplaySplit | crates/chronolog/src/kv.rs:119-171 | applying a log in two parts is applying the whole, with the same outcomes |
| KvStore.NewestAtIs | crates/chronolog/src/kv.rs:85-94 | a read at a version finds the last version not above it, or nothing if all are above |
| KvStore.KvStore.Get | crates/chronolog/src/kv.rs:80-83 | the newest version's value |
| KvStore.KvStore.GetAt | crates/chronolog/src/kv.rs:85-94 | the newest version at or below the one asked for |
| KvStore.KvStore.WriteVersion | crates/chronolog/src/kv.rs:103-117 | one more version of a key, the oldest dropped beyond the limit |
| KvStore.KvStore.ApplyCommand | crates/chronolog/src/kv.rs:119-171 | the store and the outcome the model gives, duplicates answered from the session table |
| KvOracle.ApplyIsRegister | crates/chronolog/src/kv.rs:119-171 | a new request is a step of its key's register as the checker specifies it, which explains the outcome, and leaves every other key alone |
| KvOracle.ApplyLeaves | crates/chronolog/src/kv.rs:119-140 | a duplicate, or a read at an old version, changes no key |
| KvVersions.ReadAtVersion | crates/chronolog/src/kv.rs:85-117 | a read at a version returns what was current then, exactly until the key has been written as often since as versions are kept, and then nothing |
| KvSnapshot.SnapshotRoundTrip | crates/chronolog/src/kv.rs:175-253 | restoring a snapshot gives back the store, all versions and sessions included |
| KvSnapshot.Resumable | crates/chronolog/src/kv.rs:175-253 | a snapshot of any prefix plus the rest of the log gives the same store and outcomes as the whole log |
| WireCodec.WireRoundTrip | crates/chronolog/src/msg.rs:356-425 | what a node sends decodes to itself if and only if it is within the frame limit, which sending does not check, and no proper prefix of it decodes |
| WireCodec.FramePrefixRejected | crates/chronolog/src/msg.rs:299-323 | every proper prefix of a frame is rejected |
| WireCodec.FrameRoundTrip | crates/chronolog/src/msg.rs:289-323 | a frame gives back its payload, or is rejected for its length, exactly by the limit |
| WireCodec.MessageRoundTrip | crates/chronolog/src/msg.rs:106-217 | every message within the limits decodes to itself |
| ClientCodec.RequestRoundTrip | crates/chronolog/src/client.rs:126-181 | every request within the limits decodes to itself |
| ClientCodec.ResponseRoundTrip | crates/chronolog/src/client.rs:185-238 | every response within the limits decodes to itself |
| EntryCodec.EntryRoundTrip | crates/chronolog/src/types.rs:59-85 | an entry decodes to itself and consumes exactly its bytes, whatever follows |
| EntryCodec.EntryAppends | crates/chronolog/src/types.rs:87-92 | an entry's bytes do not depend on what follows them |
| EntryCodec.ConfigRoundTrip | crates/chronolog/src/types.rs:200-221 | so does a configuration |
| EntryCodec.ChangeRoundTrip | crates/chronolog/src/types.rs:257-286 | so does a configuration change |
| EntryCodec.SnapshotRoundTrip | crates/chronolog/src/types.rs:329-346 | so does a snapshot |
| Codec.U32RoundTrip | crates/chronolog/src/codec.rs:88-91 | a 32-bit number decodes to itself with bytes following |
| Codec.U64RoundTrip | crates/chronolog/src/codec.rs:93-96 | so does a 64-bit number |
| Codec.BytesRoundTrip | crates/chronolog/src/codec.rs:221-229 | so does a length-prefixed byte string |
| Codec.OptRoundTrip | crates/chronolog/src/codec.rs:254-264 | so does an optional value whose own codec inverts |
| Codec.SeqRoundTrip | crates/chronolog/src/codec.rs:236-252 | so does a counted sequence of them |
| Crc.TableUpdate | crates/chronolog/src/codec.rs:312-319 | the table-driven loop computes bit-by-bit division for every seed and input |
| Crc.BuildTable | crates/chronolog/src/codec.rs:286-303 | each table entry is the remainder of its byte |
| Crc.UpdatePieces | crates/chronolog/src/codec.rs:306-319 | updating by pieces is updating by the whole, from any seed |
| Crc.OneByteDetected | crates/chronolog/src/codec.rs:286-319 | messages of equal length that differ in exactly one byte have different checksums |

## Left out

- Live membership changes in the cluster theorems: `propose_config` and `maybe_finish_config_change` are not actions of a run, because the two configuration findings above break the argument; quorum overlap along every run of admitted changes is proved instead.
- Crashes inside a cycle and the retry when the disk is full: a cycle is one step of the cluster, for the reason given above; a full disk takes a path on which the taken `Ready` is not regenerated.
- I/O errors, and the loss of a directory entry for a file that was just created.
- Liveness: that elections end, that conflict backtracking terminates, that pre-vote avoids disruption, and lease reads, which the program itself calls not linearizable.
- RaftMachine.Machine.Step: requires that the indices in an append follow one another, as the log's own debug assertion does, and that a snapshot names the last index and term of some prefix; in a run everything in flight does (`NodeDriver.DeliveriesAreShaped`). A message that does not, which decoding would accept, is not modelled.
- NodeDriver.Driver.Cycle: client requests, replies, metrics and the event channel are not modelled.
- NodeDriver.Reboot: power loss between cycles only; inside a cycle it is `PersistCrash` on the abstract disk, `TwoSlot` for the two kinds of save and `WalReopen` for the log, not composed into one statement.
- Linearizable.RunsAreLinearizable: a command that was answered from the session table is recorded once, under the entry that took effect.
- GiveUpRuns.RunCondition: for at most 2^64 operations, each from a client of its own, because client numbers have 64 bits.
- SegmentedWal.Wal.constructor: requires a positive segment size; with size zero two segments share a file (`SegmentedWal.NamesDistinct`), and what then becomes of it is not modelled.
- LinearPerKey.Check: keys are taken in any order rather than in byte order, and the widest concurrency is not reported with an inconclusive verdict.
- LinearSearch.Search: the 64-bit mask is the set of its one bits, and all bits used are proved to lie below 63.
- KvSnapshot.SnapshotRoundTrip: all encoders and decoders are functions on bytes; the program's writer and reader, which append to a buffer and move a cursor, are not modelled as objects.
- Byte order of node sets and maps is modelled, string formatting and statistics are not.
- The simulator beyond its disk (scheduling, network sampling, clocks, tracing), the invariant and liveness monitors, scenarios, the client library's retry loop, the real-I/O host, binaries and deployment files: they observe or drive the parts modelled here.
