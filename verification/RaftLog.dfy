/** The in-memory log (crates/chronolog/src/log.rs), as a value.

    `full` keeps every entry from index 1 on; `base` is the snapshot index, and the code can only
    see entries above it and the term at it. Keeping the compacted prefix as history makes
    compaction invisible to the protocol proofs; `CompactLog` shows that a log which really drops
    the prefix answers every question the same way. */
module RaftLog {
  import opened Types

  datatype Log = Log(full: seq<Entry>, base: nat)

  /** Entry `i` of a log carries index `i + 1`. */
  ghost predicate Indexed(s: seq<Entry>) {
    forall i :: 0 <= i < |s| ==> s[i].index == i + 1
  }

  /** The term at a position of a full log; index 0 is the sentinel with term 0. */
  function TermOf(s: seq<Entry>, i: nat): nat
    requires i <= |s|
  {
    if i == 0 then 0 else s[i - 1].term
  }

  function LastTermOf(s: seq<Entry>): nat {
    TermOf(s, |s|)
  }

  function LastIndex(l: Log): nat {
    |l.full|
  }

  function FirstIndex(l: Log): nat {
    l.base + 1
  }

  function LastTerm(l: Log): nat {
    LastTermOf(l.full)
  }

  function TermAt(l: Log, index: nat): Option<nat> {
    if index == 0 then Some(0)
    else if l.base <= index <= |l.full| then Some(l.full[index - 1].term)
    else None
  }

  /** The entries that are kept from index `from` up to but not including `to`. */
  function Slice(l: Log, from: nat, to: nat): seq<Entry> {
    var lo := Max(from, FirstIndex(l)) - 1;
    var hi := if to > |l.full| then |l.full| else if to <= l.base then 0 else to - 1;
    if lo < hi then l.full[lo..hi] else []
  }

  function EntriesFrom(l: Log, from: nat): seq<Entry> {
    Slice(l, from, |l.full| + 1)
  }

  /** Section 5.4.1 of the Raft paper: a log ending in `term` and `index` is no older than `s`. */
  predicate UpToDate(s: seq<Entry>, term: nat, index: nat) {
    term > LastTermOf(s) || (term == LastTermOf(s) && index >= |s|)
  }

  function Append(l: Log, entries: seq<Entry>): Log {
    l.(full := l.full + entries)
  }

  function TruncateFrom(l: Log, from: nat): Log {
    if l.base < from <= |l.full| then l.(full := l.full[..from - 1])
    else if from <= l.base <= |l.full| then l.(full := l.full[..l.base])
    else l
  }

  /** The loop of `merge`, from entry `k` on. */
  function MergeFrom(l: Log, entries: seq<Entry>, k: nat): Log
    requires k <= |entries|
    decreases |entries| - k
  {
    if k == |entries| then l
    else match TermAt(l, entries[k].index)
      case Some(t) =>
        if t == entries[k].term then MergeFrom(l, entries, k + 1)
        else Append(TruncateFrom(l, entries[k].index), entries[k..])
      case None => Append(l, entries[k..])
  }

  function Merge(l: Log, entries: seq<Entry>): Log {
    MergeFrom(l, entries, 0)
  }

  /** The index `merge` reports as the last new one. */
  function LastNew(prev: nat, entries: seq<Entry>): nat {
    if entries == [] then prev else entries[|entries| - 1].index
  }

  function CompactThrough(l: Log, through: nat): Log {
    if through <= l.base then l else l.(base := Min(through, |l.full|))
  }

  /** Install a snapshot of the prefix `image`. */
  function InstallSnapshot(l: Log, image: seq<Entry>): Log {
    if TermAt(l, |image|) == Some(LastTermOf(image)) then CompactThrough(l, |image|)
    else Log(image, |image|)
  }

  /** Walk down from `i` to the first entry whose term is at most `term`. */
  function WalkDown(l: Log, i: nat, term: nat): nat {
    if i <= l.base then i
    else match TermAt(l, i)
      case Some(t) => if t <= term then i else WalkDown(l, i - 1, term)
      case None => i
  }

  function FindConflictByTerm(l: Log, index: nat, term: nat): nat {
    WalkDown(l, Min(index, |l.full|), term)
  }

  // ---- merge --------------------------------------------------------------------

  /** Two logs that carry the same term at a position carry the same entry there. */
  ghost predicate TermsDecide(x: seq<Entry>, y: seq<Entry>) {
    forall j :: 0 <= j < |x| && j < |y| && x[j].term == y[j].term ==> x[j] == y[j]
  }

  /** What merging the slice `y[prev..k]` of a leader's log `y` into `x` leaves: `x` untouched if it
      already holds the slice, otherwise exactly `y[..k]`, and then either `x` ran out or `x` and
      `y` carried different terms at some position below `k`. */
  ghost predicate Merged(x: seq<Entry>, y: seq<Entry>, k: nat, r: seq<Entry>)
    requires k <= |y|
  {
    || (k <= |x| && x[..k] == y[..k] && r == x)
    || (r == y[..k] && |x| < k && x == y[..|x|])
    || (r == y[..k] && exists j :: 0 <= j < k && j < |x| && x[j].term != y[j].term)
  }

  lemma {:induction false} MergeFromResult(l: Log, y: seq<Entry>, prev: nat, k: nat, entries: seq<Entry>, i: nat)
    requires l.base <= prev <= k <= |y| && entries == y[prev..k] && i <= |entries|
    requires Indexed(y) && Indexed(l.full) && TermsDecide(l.full, y)
    requires prev + i <= |l.full| && l.full[..prev + i] == y[..prev + i]
    ensures Merged(l.full, y, k, MergeFrom(l, entries, i).full)
    ensures MergeFrom(l, entries, i).base == l.base
    decreases |entries| - i
  {
    if i < |entries| {
      var e := entries[i];
      assert e == y[prev + i] && e.index == prev + i + 1;
      if e.index <= |l.full| && l.full[prev + i].term == e.term {
        assert l.full[prev + i] == y[prev + i];
        assert l.full[..prev + i + 1] == y[..prev + i + 1];
        MergeFromResult(l, y, prev, k, entries, i + 1);
      } else {
        assert y[..prev + i] + entries[i..] == y[..k];
      }
    }
  }

  lemma MergeResult(l: Log, y: seq<Entry>, prev: nat, k: nat)
    requires l.base <= prev <= |l.full| && prev <= k <= |y|
    requires Indexed(y) && Indexed(l.full) && TermsDecide(l.full, y)
    requires l.full[..prev] == y[..prev]
    ensures Merged(l.full, y, k, Merge(l, y[prev..k]).full)
    ensures Merge(l, y[prev..k]).base == l.base
    ensures LastNew(prev, y[prev..k]) == k
  {
    MergeFromResult(l, y, prev, k, y[prev..k], 0);
  }
}
