/** The key-value store that the log drives (crates/chronolog/src/kv.rs): every key with its versions, and
    for every client what it was last told, so that a request repeated takes effect once. */
module KvStore {
  import opened Types
  import opened Codec
  import opened ClientCodec

  /** What a key held from some index on; nothing, if it was deleted then. */
  datatype Version = Version(version: nat, value: Option<Bytes>)

  datatype Session = Session(lastSeq: nat, lastOutcome: Outcome)

  const KEEP_VERSIONS: nat := 16

  datatype Store = Store(data: map<Bytes, seq<Version>>, sessions: map<nat, Session>, applied: nat)

  function EmptyStore(): Store {
    Store(map[], map[], 0)
  }

  // ---- reading --------------------------------------------------------------------------

  function VersionsOf(s: Store, key: Bytes): seq<Version> {
    if key in s.data then s.data[key] else []
  }

  /** The current value of a key. */
  function Lookup(s: Store, key: Bytes): Option<Bytes> {
    var vs := VersionsOf(s, key);
    if vs == [] then None else vs[|vs| - 1].value
  }

  /** The newest version at or below `version`. */
  function NewestAt(vs: seq<Version>, version: nat): Option<Bytes> {
    if vs == [] then None
    else if vs[|vs| - 1].version <= version then vs[|vs| - 1].value
    else NewestAt(vs[..|vs| - 1], version)
  }

  /** What a read at a version finds: the last version not above it, or nothing if all are. */
  lemma {:induction false} NewestAtIs(vs: seq<Version>, version: nat) returns (i: nat)
    ensures i <= |vs| && forall j :: i <= j < |vs| ==> vs[j].version > version
    ensures if i == 0 then NewestAt(vs, version) == None
            else vs[i - 1].version <= version && NewestAt(vs, version) == vs[i - 1].value
  {
    if vs == [] || vs[|vs| - 1].version <= version {
      i := |vs|;
    } else {
      i := NewestAtIs(vs[..|vs| - 1], version);
    }
  }

  function LookupAt(s: Store, key: Bytes, version: nat): Option<Bytes> {
    NewestAt(VersionsOf(s, key), version)
  }

  // ---- applying -------------------------------------------------------------------------------

  function Newest(vs: seq<Version>): seq<Version> {
    if |vs| > KEEP_VERSIONS then vs[|vs| - KEEP_VERSIONS..] else vs
  }

  function Write(s: Store, key: Bytes, value: Option<Bytes>, version: nat): Store {
    s.(data := s.data[key := Newest(VersionsOf(s, key) + [Version(version, value)])])
  }

  /** Whether a request is new to the session table. */
  predicate IsNew(s: Store, r: Request) {
    r.client in s.sessions ==> r.seqNo > s.sessions[r.client].lastSeq
  }

  function Perform(s: Store, index: nat, op: Op): (Store, Outcome) {
    match op
    case Get(key, _) => (s, Found(Lookup(s, key)))
    case GetAt(key, version) => (s, Found(LookupAt(s, key, version)))
    case Put(key, value) => (Write(s, key, Some(value), index), Applied(index))
    case Delete(key) => (Write(s, key, None, index), Applied(index))
    case Cas(key, wanted, swap) =>
      if Lookup(s, key) == wanted then (Write(s, key, swap, index), Applied(index))
      else (s, CasFailed(Lookup(s, key)))
  }

  function Apply(s: Store, index: nat, r: Request): (Store, Outcome) {
    var s := s.(applied := Max(s.applied, index));
    if !IsNew(s, r) then
      (s, if r.seqNo == s.sessions[r.client].lastSeq then s.sessions[r.client].lastOutcome else Unavailable)
    else
      var (s, outcome) := Perform(s, index, r.op);
      (s.(sessions := s.sessions[r.client := Session(r.seqNo, outcome)]), outcome)
  }

  datatype Command = Command(index: nat, request: Request)

  /** The store after a log of commands. */
  function Replay(s: Store, log: seq<Command>): Store
    decreases |log|
  {
    if log == [] then s else Replay(Apply(s, log[0].index, log[0].request).0, log[1..])
  }

  /** The outcomes of a log of commands, in order. */
  function Outcomes(s: Store, log: seq<Command>): seq<Outcome>
    decreases |log|
  {
    if log == [] then []
    else
      var (s, o) := Apply(s, log[0].index, log[0].request);
      [o] + Outcomes(s, log[1..])
  }

  /** The command at position `i` of a log changes the store or is answered afresh. */
  ghost predicate TakesEffect(s: Store, log: seq<Command>, i: nat) {
    i < |log| && IsNew(Replay(s, log[..i]), log[i].request)
  }

  // ---- exactly once -------------------------------------------------------------------------------

  /** A client's last served sequence number. */
  ghost predicate Served(s: Store, client: nat, seqNo: nat) {
    client in s.sessions && s.sessions[client].lastSeq >= seqNo
  }

  lemma ApplyServes(s: Store, c: Command)
    ensures Served(Apply(s, c.index, c.request).0, c.request.client, c.request.seqNo)
    ensures forall client, seqNo :: Served(s, client, seqNo) ==> Served(Apply(s, c.index, c.request).0, client, seqNo)
  {
    PerformSessions(s.(applied := Max(s.applied, c.index)), c.index, c.request.op);
  }

  lemma PerformSessions(s: Store, index: nat, op: Op)
    ensures Perform(s, index, op).0.sessions == s.sessions && Perform(s, index, op).0.applied == s.applied
  {
  }

  lemma {:induction false} ReplayStays(s: Store, log: seq<Command>, client: nat, seqNo: nat)
    requires Served(s, client, seqNo)
    ensures Served(Replay(s, log), client, seqNo)
    decreases |log|
  {
    if log != [] {
      ApplyServes(s, log[0]);
      ReplayStays(Apply(s, log[0].index, log[0].request).0, log[1..], client, seqNo);
    }
  }

  lemma {:induction false} ReplaySplit(s: Store, a: seq<Command>, b: seq<Command>)
    ensures Replay(s, a + b) == Replay(Replay(s, a), b)
    ensures Outcomes(s, a + b) == Outcomes(s, a) + Outcomes(Replay(s, a), b)
    decreases |a|
  {
    hide Apply;
    if a == [] {
      assert a + b == b;
    } else {
      assert (a + b)[1..] == a[1..] + b;
      ReplaySplit(Apply(s, a[0].index, a[0].request).0, a[1..], b);
    }
  }

  /** Exactly once: of any number of copies of a request in a log, at most one takes effect. */
  lemma ExactlyOnce(s: Store, log: seq<Command>, i: nat, j: nat)
    requires i < j < |log| && TakesEffect(s, log, i)
    requires log[i].request.client == log[j].request.client && log[i].request.seqNo == log[j].request.seqNo
    ensures !TakesEffect(s, log, j)
  {
    var c, mid := log[i], log[i + 1..j];
    ReplaySplit(s, log[..i], [c] + mid);
    assert log[..j] == log[..i] + ([c] + mid);
    var s1 := Replay(s, log[..i]);
    assert ([c] + mid)[1..] == mid;
    ApplyServes(s1, c);
    ReplayStays(Apply(s1, c.index, c.request).0, mid, c.request.client, c.request.seqNo);
  }

  lemma {:induction false} SessionStays(s: Store, log: seq<Command>, client: nat)
    requires client in s.sessions
    requires forall c :: c in log && c.request.client == client ==> c.request.seqNo <= s.sessions[client].lastSeq
    ensures client in Replay(s, log).sessions && Replay(s, log).sessions[client] == s.sessions[client]
    decreases |log|
  {
    if log != [] {
      var c := log[0];
      PerformSessions(s.(applied := Max(s.applied, c.index)), c.index, c.request.op);
      SessionStays(Apply(s, c.index, c.request).0, log[1..], client);
    }
  }

  /** A retry is answered with the first outcome, and changes nothing but the applied index, for as
      long as the client has not moved on, whatever other clients do meanwhile. */
  lemma RetryAnswered(s: Store, first: Command, others: seq<Command>, retry: Command)
    requires IsNew(s, first.request) && retry.request == first.request
    requires forall c :: c in others && c.request.client == first.request.client ==>
               c.request.seqNo <= first.request.seqNo
    ensures var (s1, outcome) := Apply(s, first.index, first.request);
            var s2 := Replay(s1, others);
            Apply(s2, retry.index, retry.request) == (s2.(applied := Max(s2.applied, retry.index)), outcome)
  {
    var (s1, outcome) := Apply(s, first.index, first.request);
    PerformSessions(s.(applied := Max(s.applied, first.index)), first.index, first.request.op);
    SessionStays(s1, others, first.request.client);
  }

  // ---- the store as an object ------------------------------------------------------------------------

  class KvStore {
    var data: map<Bytes, seq<Version>>
    var sessions: map<nat, Session>
    var applied: nat

    function State(): Store
      reads this
    {
      Store(data, sessions, applied)
    }

    constructor ()
      ensures State() == EmptyStore()
    {
      data, sessions, applied := map[], map[], 0;
    }

    /** Take over what a snapshot held. */
    method Load(s: Store)
      modifies this
      ensures State() == s
    {
      data, sessions, applied := s.data, s.sessions, s.applied;
    }

    method Get(key: Bytes) returns (v: Option<Bytes>)
      ensures v == Lookup(State(), key)
    {
      if key !in data || data[key] == [] {
        return None;
      }
      v := data[key][|data[key]| - 1].value;
    }

    /** Scan the versions from the newest down. */
    method GetAt(key: Bytes, version: nat) returns (v: Option<Bytes>)
      ensures v == LookupAt(State(), key, version)
    {
      if key !in data {
        return None;
      }
      var vs := data[key];
      var i := |vs|;
      assert vs[..i] == vs;
      while i > 0
        invariant i <= |vs| && NewestAt(vs, version) == NewestAt(vs[..i], version)
      {
        if vs[i - 1].version <= version {
          return vs[i - 1].value;
        }
        i := i - 1;
        assert vs[..i + 1][..i] == vs[..i];
      }
      v := None;
    }

    method WriteVersion(key: Bytes, value: Option<Bytes>, version: nat)
      modifies this`data
      ensures State() == Write(old(State()), key, value, version)
    {
      var versions := (if key in data then data[key] else []) + [Version(version, value)];
      if |versions| > KEEP_VERSIONS {
        var excess := |versions| - KEEP_VERSIONS;
        versions := versions[excess..];
      }
      data := data[key := versions];
    }

    method ApplyCommand(index: nat, r: Request) returns (outcome: Outcome)
      modifies this
      ensures State() == Apply(old(State()), index, r).0 && outcome == Apply(old(State()), index, r).1
    {
      applied := Max(applied, index);
      if r.client in sessions {
        var session := sessions[r.client];
        if r.seqNo == session.lastSeq {
          return session.lastOutcome;
        }
        if r.seqNo < session.lastSeq {
          return Unavailable;
        }
      }
      match r.op {
        case Get(key, _) =>
          var v := Get(key);
          outcome := Found(v);
        case GetAt(key, version) =>
          var v := GetAt(key, version);
          outcome := Found(v);
        case Put(key, value) =>
          WriteVersion(key, Some(value), index);
          outcome := Applied(index);
        case Delete(key) =>
          WriteVersion(key, None, index);
          outcome := Applied(index);
        case Cas(key, wanted, swap) =>
          var actual := Get(key);
          if actual == wanted {
            WriteVersion(key, swap, index);
            outcome := Applied(index);
          } else {
            outcome := CasFailed(actual);
          }
      }
      sessions := sessions[r.client := Session(r.seqNo, outcome)];
    }
  }
}
