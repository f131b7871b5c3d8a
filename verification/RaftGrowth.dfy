/** A history only gains facts: everything the invariants say positively about it stays true as
    leaders extend their logs, messages are sent and acknowledgements become durable. */
module RaftGrowth {
  import opened Types
  import opened Quorum
  import opened RaftLog
  import opened RaftNode
  import opened RaftHistory

  ghost predicate LeadGrows(l: Lead, l': Lead) {
    && l'.leader == l.leader && l'.voters == l.voters && l'.start == l.start
    && |l.log| <= |l'.log| && l'.log[..|l.log|] == l.log
    && l.commit <= l'.commit && (l.durable ==> l'.durable)
  }

  ghost predicate Grows(h: History, h': History) {
    && (forall t :: t in h.led ==> t in h'.led && LeadGrows(h.led[t], h'.led[t]))
    && h.net <= h'.net && h.acks <= h'.acks
    && (forall k :: k in h.asked ==> k in h'.asked && h'.asked[k] == h.asked[k])
  }

  lemma PrefixOfGrown(h: History, h': History, t: nat, k: nat)
    requires Grows(h, h') && t in h.led && k <= |h.led[t].log|
    ensures k <= |h'.led[t].log| && h'.led[t].log[..k] == h.led[t].log[..k]
  {
    var l, l' := h.led[t].log, h'.led[t].log;
    assert l'[..|l|][..k] == l'[..k];
  }

  lemma RootedGrows(h: History, h': History, s: seq<Entry>)
    requires Grows(h, h') && Rooted(h, s)
    ensures Rooted(h', s)
  {
    forall i | 0 <= i < |s|
      ensures RootedAt(h', s, i)
    {
      assert RootedAt(h, s, i);
      PrefixOfGrown(h, h', s[i].term, i + 1);
    }
  }

  lemma OwnedGrows(h: History, h': History, n: NodeId, s: seq<Entry>)
    requires Grows(h, h') && Owned(h, n, s)
    ensures Owned(h', n, s)
  {
    forall i | 0 <= i < |s|
      ensures OwnedAt(h', n, s, i)
    {
      assert OwnedAt(h, n, s, i);
    }
  }

  lemma SettledGrows(h: History, h': History, s: seq<Entry>)
    requires Grows(h, h') && Settled(h, s)
    ensures Settled(h', s)
  {
    forall i | 0 <= i < |s|
      ensures SettledAt(h', s, i)
    {
      assert SettledAt(h, s, i);
    }
  }

  lemma KeptGrows(h: History, h': History, s: seq<Entry>, a: Ack, bound: nat)
    requires Grows(h, h') && Kept(h, s, a, bound)
    ensures Kept(h', s, a, bound)
  {
    if HoldsAck(h, s, a) {
      PrefixOfGrown(h, h', a.term, a.index);
    } else {
      var w: nat :| w < bound && SupersededBy(h, a, w);
      SupersededGrows(h, h', a, w);
    }
  }

  lemma SupersededGrows(h: History, h': History, a: Ack, w: nat)
    requires Grows(h, h') && SupersededBy(h, a, w)
    ensures SupersededBy(h', a, w)
  {
    var x, y := h.led[w].log, h.led[a.term].log;
    var j :| 0 <= j < a.index && j < |x| && j < |y| && x[j] != y[j];
    assert h'.led[w].log[..|x|][j] == h'.led[w].log[j];
    assert h'.led[a.term].log[..|y|][j] == h'.led[a.term].log[j];
  }

  lemma EvidenceGrows(h: History, h': History, s: seq<Entry>, s': seq<Entry>, k: nat, bound: nat, bound': nat)
    requires Grows(h, h') && Evidence(h, s, k, bound) && bound <= bound'
    requires k <= |s| ==> k <= |s'| && s'[..k] == s[..k]
    ensures Evidence(h', s', k, bound')
  {
    if k > 0 {
      var t :| EvidenceAt(h, s, k, bound, t);
      PrefixOfGrown(h, h', t, k);
      assert EvidenceAt(h', s', k, bound', t);
    }
  }

  lemma GrownEvidence(h: History, h': History, t: nat, k: nat)
    requires Grows(h, h') && t in h.led && Evidence(h, h.led[t].log, k, t)
    ensures Evidence(h', h'.led[t].log, k, t)
  {
    if k > 0 {
      var u :| EvidenceAt(h, h.led[t].log, k, t, u);
      PrefixOfGrown(h, h', t, k);
    }
    EvidenceGrows(h, h', h.led[t].log, h'.led[t].log, k, t, t);
  }

  lemma TruthfulGrows(h: History, h': History, p: Packet)
    requires Grows(h, h') && Truthful(h, p)
    ensures Truthful(h', p)
  {
    var t := p.msg.term;
    match p.msg.body {
      case VoteResp(granted) =>
        if granted { RootedGrows(h, h', p.origin); }
      case AppendReq(prev, prevTerm, entries, commit) =>
        GrownEvidence(h, h', t, commit);
        var l, l', k := h.led[t].log, h'.led[t].log, prev + |entries|;
        PrefixOfGrown(h, h', t, k);
        assert l'[prev..k] == l'[..k][prev..] == l[..k][prev..] == l[prev..k];
        PrefixOfGrown(h, h', t, prev);
        if prev > 0 { assert l'[..prev][prev - 1] == l[..prev][prev - 1]; }
      case SnapshotReq(image) =>
        EvidenceGrows(h, h', image.prefix, image.prefix, |image.prefix|, t, t);
        PrefixOfGrown(h, h', t, |image.prefix|);
      case HeartbeatReq(commit, ctx) =>
        GrownEvidence(h, h', t, commit);
      case _ =>
    }
  }

  lemma BackedGrows(h: History, h': History, p: Packet)
    requires Grows(h, h') && Backed(h, p)
    ensures Backed(h', p)
  {
    if IsGrant(p) { SettledGrows(h, h', p.origin); }
  }

  // ---- elections, while no acknowledgement is added ---------------------------------------

  lemma BallotGrows(h: History, h': History, t: nat, v: NodeId, s: seq<Entry>)
    requires Grows(h, h') && Ballot(h, t, v, s) && h.led[t].start <= |h.led[t].log|
    requires forall a :: a in h'.acks && a.node == v && a.term < t ==> a in h.acks || Kept(h', s, a, t)
    ensures Ballot(h', t, v, s)
  {
    RootedGrows(h, h', s);
    PrefixOfGrown(h, h', t, h.led[t].start);
    forall a | a in h'.acks && a.node == v && a.term < t
      ensures Kept(h', s, a, t)
    {
      if a in h.acks { KeptGrows(h, h', s, a, t); }
    }
  }

  lemma SupportedGrows(h: History, h': History, t: nat, v: NodeId)
    requires Grows(h, h') && Supported(h, t, v) && LeadShape(h, t)
    requires forall a :: a in h'.acks && a.node == v && a.term < t ==> a in h.acks
    ensures Supported(h', t, v)
  {
    PrefixOfGrown(h, h', t, h.led[t].start);
    if v == h.led[t].leader {
      BallotGrows(h, h', t, v, ElectedLog(h.led[t]));
    } else {
      var p :| GrantFor(h, p, t, v) && Ballot(h, t, v, p.origin);
      BallotGrows(h, h', t, v, p.origin);
      assert GrantFor(h', p, t, v);
    }
  }

  lemma ElectedGrows(env: Env, h: History, h': History, t: nat)
    requires Grows(h, h') && Elected(env, h, t) && LeadShape(h, t)
    requires forall v, a :: v in h.led[t].voters && a in h'.acks && a.node == v && a.term < t ==> a in h.acks
    ensures Elected(env, h', t)
  {
    forall v | v in h'.led[t].voters
      ensures Supported(h', t, v)
    {
      SupportedGrows(h, h', t, v);
    }
  }

  lemma LeadShapeGrows(h: History, h': History, t: nat)
    requires Grows(h, h') && LeadShape(h, t) && h'.led[t].log == h.led[t].log
    requires h'.led[t].commit <= |h.led[t].log|
    ensures LeadShape(h', t)
  {
    RootedGrows(h, h', h.led[t].log);
    OwnedGrows(h, h', h.led[t].leader, h.led[t].log);
  }

  lemma CommitBackedGrows(env: Env, h: History, h': History, t: nat)
    requires Grows(h, h') && CommitBacked(env, h, t) && h'.led[t].commit == h.led[t].commit
    ensures CommitBacked(env, h', t)
  {
    if h.led[t].commit > 0 {
      var k := h.led[t].commit;
      assert Ackers(h, t, k) <= Ackers(h', t, k);
      QuorumGrows(env.cfg, Ackers(h, t, k), Ackers(h', t, k));
    }
  }
}
