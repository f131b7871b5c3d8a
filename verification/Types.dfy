/** The values Raft replicates and persists (crates/chronolog/src/types.rs). */
module Types {

  datatype Option<+T> = None | Some(value: T)

  type NodeId = nat
  type Byte = b: int | 0 <= b < 256
  type Bytes = seq<Byte>

  datatype ConfigChange =
    | EnterJoint(incoming: set<NodeId>, learners: set<NodeId>)
    | LeaveJoint

  datatype EntryKind =
    | Normal(data: Bytes)
    | ConfigEntry(change: ConfigChange)
    | Noop

  datatype Entry = Entry(term: nat, index: nat, kind: EntryKind)

  /** The membership of the cluster. `outgoing` is non-empty exactly in joint consensus. */
  datatype Config = Config(voters: set<NodeId>, outgoing: set<NodeId>, learners: set<NodeId>) {

    predicate IsJoint() {
      outgoing != {}
    }

    predicate IsVoter(id: NodeId) {
      id in voters || id in outgoing
    }

    function AllNodes(): set<NodeId> {
      voters + outgoing + learners
    }
  }

  datatype HardState = HardState(term: nat, vote: Option<NodeId>, commit: nat)

  /** What one node tells another; `S` is how a snapshot is represented (crates/chronolog/src/msg.rs:16-89). */
  datatype Body<S> =
    | PreVoteReq(lastIndex: nat, lastTerm: nat)
    | PreVoteResp(granted: bool)
    | VoteReq(lastIndex: nat, lastTerm: nat)
    | VoteResp(granted: bool)
    | AppendReq(prevIndex: nat, prevTerm: nat, entries: seq<Entry>, commit: nat)
    | AppendResp(success: bool, matchIndex: nat, conflictIndex: nat, conflictTerm: nat)
    | SnapshotReq(snapshot: S)
    | SnapshotResp(success: bool, index: nat)
    | HeartbeatReq(commit: nat, ctx: nat)
    | HeartbeatResp(ctx: nat)
    | TimeoutNow

  datatype Message<S> = Message(term: nat, body: Body<S>) {
    predicate IsPreVote() {
      body.PreVoteReq? || body.PreVoteResp?
    }
  }

  function Min(a: nat, b: nat): nat {
    if a < b then a else b
  }

  function Max(a: nat, b: nat): nat {
    if a < b then b else a
  }
}
