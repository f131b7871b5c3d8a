/** The store against the specification the linearizability checker uses: each key is a register
    (crates/chronolog/src/kv.rs:119-171, crates/chrono-oracle/src/linearizability.rs:49-121). */
module KvOracle {
  import opened Types
  import C = ClientCodec
  import K = KvStore
  import H = ClientHistory

  /** A request as the checker records it; reads at an old version are not recorded. */
  function OpOf(op: C.Op): Option<H.Op> {
    match op
    case Get(key, _) => Some(H.Read(key))
    case GetAt(_, _) => None
    case Put(key, value) => Some(H.Write(key, value))
    case Delete(key) => Some(H.Delete(key))
    case Cas(key, wanted, swap) => Some(H.Cas(key, wanted, swap))
  }

  function RetOf(outcome: C.Outcome): H.Ret {
    match outcome
    case Found(v) => H.Observed(v)
    case Applied(_) => H.Done
    case CasFailed(_) => H.Ret.CasFailed
    case _ => H.Unknown
  }

  lemma WriteShows(s: K.Store, key: Bytes, value: Option<Bytes>, version: nat, k: Bytes)
    ensures K.Lookup(K.Write(s, key, value, version), k) == if k == key then value else K.Lookup(s, k)
  {
  }

  lemma PerformShows(s: K.Store, index: nat, op: C.Op, k: Bytes)
    requires OpOf(op).Some? && k != OpOf(op).value.key
    ensures K.Lookup(K.Perform(s, index, op).0, k) == K.Lookup(s, k)
  {
    hide K.Write;
    match op {
      case Put(key, value) => WriteShows(s, key, Some(value), index, k);
      case Delete(key) => WriteShows(s, key, None, index, k);
      case Cas(key, _, swap) => WriteShows(s, key, swap, index, k);
      case _ =>
    }
  }

  /** Performing a request is a step of its key's register, and the register explains the outcome. */
  lemma PerformIsRegister(s: K.Store, index: nat, op: C.Op, e: H.Event)
    requires OpOf(op) == Some(e.op) && (e.ret == H.Unknown || e.ret == RetOf(K.Perform(s, index, op).1))
    ensures H.Apply(K.Lookup(s, e.op.key), e) == Some(K.Lookup(K.Perform(s, index, op).0, e.op.key))
  {
    hide K.Write, K.Lookup;
    match op {
      case Put(key, value) => WriteShows(s, key, Some(value), index, key);
      case Delete(key) => WriteShows(s, key, None, index, key);
      case Cas(key, _, swap) => WriteShows(s, key, swap, index, key);
      case _ =>
    }
  }

  /** So is a request that is new to the session table; one that is not changes no key. */
  lemma ApplyIsRegister(s: K.Store, index: nat, r: C.Request, e: H.Event)
    requires K.IsNew(s, r) && OpOf(r.op) == Some(e.op) && (e.ret == H.Unknown || e.ret == RetOf(K.Apply(s, index, r).1))
    ensures H.Apply(K.Lookup(s, e.op.key), e) == Some(K.Lookup(K.Apply(s, index, r).0, e.op.key))
    ensures forall k :: k != e.op.key ==> K.Lookup(K.Apply(s, index, r).0, k) == K.Lookup(s, k)
  {
    hide K.Perform;
    var s1 := s.(applied := Max(s.applied, index));
    PerformIsRegister(s1, index, r.op, e);
    forall k | k != e.op.key
      ensures K.Lookup(K.Apply(s, index, r).0, k) == K.Lookup(s, k)
    {
      PerformShows(s1, index, r.op, k);
    }
  }

  lemma ApplyLeaves(s: K.Store, index: nat, r: C.Request, k: Bytes)
    requires !K.IsNew(s, r) || OpOf(r.op) == None
    ensures K.Lookup(K.Apply(s, index, r).0, k) == K.Lookup(s, k)
  {
  }
}
