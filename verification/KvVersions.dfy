/** Reads at an old version (crates/chronolog/src/kv.rs:85-117): they find what was current then, for as
    long as the version is kept. */
module KvVersions {
  import opened Types
  import opened ClientCodec
  import opened KvStore

  /** The command writes the key. */
  ghost predicate Writes(s: Store, c: Command, key: Bytes) {
    && IsNew(s, c.request) && c.request.op.key == key
    && match c.request.op
       case Put(_, _) => true
       case Delete(_) => true
       case Cas(_, wanted, _) => Lookup(s, key) == wanted
       case _ => false
  }

  ghost function After(s: Store, c: Command): Store {
    Apply(s, c.index, c.request).0
  }

  /** How many commands of a log write the key. */
  ghost function WriteCount(s: Store, log: seq<Command>, key: Bytes): nat
    decreases |log|
  {
    if log == [] then 0 else (if Writes(s, log[0], key) then 1 else 0) + WriteCount(After(s, log[0]), log[1..], key)
  }

  ghost predicate Above(vs: seq<Version>, version: nat) {
    forall i :: 0 <= i < |vs| ==> vs[i].version > version
  }

  ghost predicate Below(vs: seq<Version>, version: nat) {
    forall i :: 0 <= i < |vs| ==> vs[i].version <= version
  }

  /** A command adds one version to the key it writes and leaves every other key alone. */
  lemma OneMore(s: Store, c: Command, key: Bytes) returns (x: Version)
    ensures x.version == c.index
    ensures VersionsOf(After(s, c), key)
         == if Writes(s, c, key) then Newest(VersionsOf(s, key) + [x]) else VersionsOf(s, key)
  {
    x := Version(c.index, match c.request.op
                          case Put(_, value) => Some(value)
                          case Cas(_, _, swap) => swap
                          case _ => None);
  }

  lemma NewestTwice(a: seq<Version>, b: seq<Version>)
    ensures Newest(Newest(a) + b) == Newest(a + b)
  {
    if |a| > KEEP_VERSIONS {
      var cut := |a| - KEEP_VERSIONS;
      assert a[cut..] + b == (a + b)[cut..];
      if |b| > 0 {
        assert Newest(a[cut..] + b) == (a[cut..] + b)[|b|..];
        assert (a + b)[cut..][|b|..] == (a + b)[cut + |b|..];
      }
    }
  }

  /** The versions of a key after more commands: those added last, up to the limit. */
  lemma {:induction false} VersionsAfter(s: Store, log: seq<Command>, key: Bytes,
                                         version: nat) returns (added: seq<Version>)
    requires (forall c :: c in log ==> c.index > version) && |VersionsOf(s, key)| <= KEEP_VERSIONS
    ensures |added| == WriteCount(s, log, key) && Above(added, version)
    ensures VersionsOf(Replay(s, log), key) == Newest(VersionsOf(s, key) + added)
    decreases |log|
  {
    hide Apply, IsNew, Lookup, Writes, VersionsOf, Newest;
    var vs := VersionsOf(s, key);
    NewestShort(vs);
    if log == [] {
      added := [];
      assert vs + [] == vs;
    } else {
      assert log[0] in log && forall c :: c in log[1..] ==> c in log;
      var x := OneMore(s, log[0], key);
      NewestShort(vs + [x]);
      var rest := VersionsAfter(After(s, log[0]), log[1..], key, version);
      if Writes(s, log[0], key) {
        added := [x] + rest;
        NewestTwice(vs + [x], rest);
        assert (vs + [x]) + rest == vs + added;
      } else {
        added := rest;
      }
    }
  }

  lemma NewestShort(a: seq<Version>)
    ensures |Newest(a)| <= KEEP_VERSIONS && (|a| <= KEEP_VERSIONS ==> Newest(a) == a)
  {
  }

  lemma {:induction false} VersionsBelow(s: Store, log: seq<Command>, key: Bytes, version: nat)
    requires (forall c :: c in log ==> c.index <= version) && |VersionsOf(s, key)| <= KEEP_VERSIONS
    requires Below(VersionsOf(s, key), version)
    ensures |VersionsOf(Replay(s, log), key)| <= KEEP_VERSIONS && Below(VersionsOf(Replay(s, log), key), version)
    decreases |log|
  {
    hide Apply, IsNew, Lookup, Writes;
    if log != [] {
      assert log[0] in log && forall c :: c in log[1..] ==> c in log;
      var x := OneMore(s, log[0], key);
      hide VersionsOf;
      VersionsBelow(After(s, log[0]), log[1..], key, version);
    }
  }

  lemma {:induction false} NothingBelow(vs: seq<Version>, version: nat)
    requires Above(vs, version)
    ensures NewestAt(vs, version) == None
  {
    if vs != [] { NothingBelow(vs[..|vs| - 1], version); }
  }

  /** Behind later versions the last one not above is still found. */
  lemma {:induction false} FoundBehind(earlier: seq<Version>, later: seq<Version>, version: nat)
    requires earlier != [] && earlier[|earlier| - 1].version <= version && Above(later, version)
    ensures NewestAt(earlier + later, version) == earlier[|earlier| - 1].value
  {
    if later == [] {
      assert earlier + later == earlier;
    } else {
      var n := |later| - 1;
      FoundBehind(earlier, later[..n], version);
      assert (earlier + later)[..|earlier + later| - 1] == earlier + later[..n];
    }
  }

  lemma CutRead(earlier: seq<Version>, later: seq<Version>, version: nat)
    requires |earlier| <= KEEP_VERSIONS && Below(earlier, version) && Above(later, version)
    ensures NewestAt(Newest(earlier + later), version)
         == if |later| >= KEEP_VERSIONS || earlier == [] then None else earlier[|earlier| - 1].value
  {
    var all := earlier + later;
    if |later| >= KEEP_VERSIONS || earlier == [] {
      var cut := if |all| > KEEP_VERSIONS then |all| - KEEP_VERSIONS else 0;
      assert Newest(all) == all[cut..];
      NothingBelow(Newest(all), version);
    } else {
      var cut := if |all| > KEEP_VERSIONS then |all| - KEEP_VERSIONS else 0;
      assert Newest(all) == earlier[cut..] + later;
      FoundBehind(earlier[cut..], later, version);
    }
  }

  /** A read at a version returns the value that was current when that version was the newest, exactly
      until the key has been written as often since as versions are kept; then it returns nothing. */
  lemma ReadAtVersion(log: seq<Command>, i: nat, key: Bytes, version: nat)
    requires i <= |log| && (forall c :: c in log[..i] ==> c.index <= version)
    requires (forall c :: c in log[i..] ==> c.index > version)
    ensures var before, now := Replay(EmptyStore(), log[..i]), Replay(EmptyStore(), log);
            LookupAt(now, key, version)
            == if WriteCount(before, log[i..], key) >= KEEP_VERSIONS then None else Lookup(before, key)
  {
    hide Apply, Replay, WriteCount;
    var before := Replay(EmptyStore(), log[..i]);
    VersionsBelow(EmptyStore(), log[..i], key, version);
    var added := VersionsAfter(before, log[i..], key, version);
    ReplaySplit(EmptyStore(), log[..i], log[i..]);
    assert log[..i] + log[i..] == log;
    CutRead(VersionsOf(before, key), added, version);
  }
}
