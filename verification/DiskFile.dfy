/** A file as a page cache over a platter (crates/chrono-sim/src/kernel.rs:126-168, 848-1020,
    1676-1778): what survives power loss, what reads see, and what is in between. */
module DiskFile {
  import opened Types

  datatype PendingOp = Write(offset: nat, data: Bytes) | Truncate(len: nat)

  datatype FileState = FileState(durable: Bytes, view: Bytes, pending: seq<PendingOp>)

  function Zeros(n: nat): (z: Bytes)
    ensures |z| == n && forall i :: 0 <= i < n ==> z[i] == 0
  {
    seq(n, _ => 0)
  }

  /** Overwrite part of a buffer, zero-filling any gap. */
  function Splice(buf: Bytes, offset: nat, data: Bytes): (r: Bytes)
    ensures |r| == if offset + |data| > |buf| then offset + |data| else |buf|
  {
    var head := if |buf| < offset then buf + Zeros(offset - |buf|) else buf[..offset];
    head + data + if offset + |data| < |buf| then buf[offset + |data|..] else []
  }

  function Cut(buf: Bytes, len: nat): Bytes {
    if len < |buf| then buf[..len] else buf
  }

  function Perform(buf: Bytes, op: PendingOp): Bytes {
    match op
    case Write(offset, data) => Splice(buf, offset, data)
    case Truncate(len) => Cut(buf, len)
  }

  function PerformAll(buf: Bytes, ops: seq<PendingOp>): Bytes {
    if ops == [] then buf else Perform(PerformAll(buf, ops[..|ops| - 1]), ops[|ops| - 1])
  }

  function NewFile(): FileState {
    FileState([], [], [])
  }

  function WriteAt(f: FileState, offset: nat, data: Bytes): FileState {
    f.(view := Splice(f.view, offset, data), pending := f.pending + [Write(offset, data)])
  }

  function TruncateTo(f: FileState, len: nat): FileState {
    f.(view := Cut(f.view, len), pending := f.pending + [Truncate(len)])
  }

  function Fsync(f: FileState): FileState {
    f.(durable := PerformAll(f.durable, f.pending), pending := [])
  }

  /** What the process sees is what a complete write-back would leave. */
  ghost predicate Coherent(f: FileState) {
    f.view == PerformAll(f.durable, f.pending)
  }

  lemma OneMore(buf: Bytes, ops: seq<PendingOp>, op: PendingOp)
    ensures PerformAll(buf, ops + [op]) == Perform(PerformAll(buf, ops), op)
  {
    assert (ops + [op])[..|ops|] == ops;
  }

  lemma StaysCoherent(f: FileState, offset: nat, data: Bytes, len: nat)
    requires Coherent(f)
    ensures Coherent(WriteAt(f, offset, data)) && Coherent(TruncateTo(f, len)) && Coherent(Fsync(f))
    ensures Fsync(f).durable == f.view && Fsync(f).view == f.view
  {
    OneMore(f.durable, f.pending, Write(offset, data));
    OneMore(f.durable, f.pending, Truncate(len));
  }

  // ---- power loss ----------------------------------------------------------------------

  /** What becomes of an operation that was not synced. The original tears writes at sector
      boundaries; any proper prefix is allowed here. */
  datatype Fate = Kept | Lost | Torn(keep: nat)

  ghost predicate Possible(op: PendingOp, fate: Fate) {
    fate.Torn? ==> op.Write? && fate.keep < |op.data|
  }

  /** Each operation meets its own fate, in order. A write torn to nothing is not made at all. */
  function Suffer(buf: Bytes, op: PendingOp, fate: Fate): Bytes
    requires Possible(op, fate)
  {
    match fate
    case Kept => Perform(buf, op)
    case Lost => buf
    case Torn(keep) => if keep == 0 then buf else Splice(buf, op.offset, op.data[..keep])
  }

  ghost predicate AllPossible(ops: seq<PendingOp>, fates: seq<Fate>) {
    |fates| == |ops| && forall i :: 0 <= i < |ops| ==> Possible(ops[i], fates[i])
  }

  function SufferAll(buf: Bytes, ops: seq<PendingOp>, fates: seq<Fate>): Bytes
    requires AllPossible(ops, fates)
  {
    if ops == [] then buf
    else Suffer(SufferAll(buf, ops[..|ops| - 1], fates[..|ops| - 1]), ops[|ops| - 1], fates[|ops| - 1])
  }

  /** After power loss there is only the platter. */
  function PowerLoss(f: FileState, fates: seq<Fate>): FileState
    requires AllPossible(f.pending, fates)
  {
    var survived := SufferAll(f.durable, f.pending, fates);
    FileState(survived, survived, [])
  }

  // ---- the file as an object --------------------------------------------------------------

  /** `after` is `before` with `data` laid over it at `offset`, and zeros in any gap. */
  ghost predicate Overlaid(before: Bytes, offset: nat, data: Bytes, after: Bytes) {
    && |after| == Max(|before|, offset + |data|) && after[offset..offset + |data|] == data
    && forall i :: 0 <= i < |after| && !(offset <= i < offset + |data|) ==>
        after[i] == if i < |before| then before[i] else 0
  }

  lemma SpliceOverlays(buf: Bytes, offset: nat, data: Bytes)
    ensures Overlaid(buf, offset, data, Splice(buf, offset, data))
  {
  }

  lemma OverlaidIsSplice(before: Bytes, offset: nat, data: Bytes, after: Bytes)
    requires Overlaid(before, offset, data, after)
    ensures after == Splice(before, offset, data)
  {
    var s := Splice(before, offset, data);
    SpliceOverlays(before, offset, data);
    hide Splice;
    forall i | 0 <= i < |after|
      ensures after[i] == s[i]
    {
      if offset <= i < offset + |data| {
        assert after[i] == after[offset..offset + |data|][i - offset] == s[offset..offset + |data|][i - offset];
      }
    }
  }

  /** What it holds is on the platter, in the cache, or on its way from one to the other. */
  class SimFile {
    var durable: Bytes
    var view: Bytes
    var pending: seq<PendingOp>

    ghost function State(): FileState
      reads this
    {
      FileState(durable, view, pending)
    }

    /** A complete write-back would leave what the process sees. */
    ghost predicate Valid()
      reads this
    {
      Coherent(State())
    }

    /** Nothing is waiting to be written back. */
    ghost predicate Clean()
      reads this
    {
      pending == [] && view == durable
    }

    /** A file as it is found on disk. */
    constructor (found: Bytes)
      ensures Valid() && Clean() && durable == found
    {
      durable, view, pending := found, found, [];
    }

    /** The process sees the data at once; the platter does not change. */
    method Write(offset: nat, data: Bytes)
      requires Valid()
      modifies this
      ensures Valid() && durable == old(durable) && Overlaid(old(view), offset, data, view)
      ensures pending == old(pending) + [PendingOp.Write(offset, data)]
    {
      StaysCoherent(State(), offset, data, 0);
      SpliceOverlays(view, offset, data);
      view := Splice(view, offset, data);
      pending := pending + [PendingOp.Write(offset, data)];
    }

    method SetLength(len: nat)
      requires Valid()
      modifies this
      ensures Valid() && durable == old(durable) && view == old(view)[..Min(len, |old(view)|)]
      ensures pending == old(pending) + [Truncate(len)]
    {
      StaysCoherent(State(), 0, [], len);
      view := Cut(view, len);
      pending := pending + [Truncate(len)];
    }

    /** Drain what was pending, oldest first. The platter then holds what the process sees. */
    method Sync()
      requires Valid()
      modifies this
      ensures Valid() && Clean() && view == old(view)
    {
      var ops := pending;
      for i := 0 to |ops|
        invariant view == old(view) && pending == old(pending)
        invariant durable == PerformAll(old(durable), ops[..i])
      {
        assert ops[..i + 1][..i] == ops[..i];
        durable := Perform(durable, ops[i]);
      }
      assert ops[..|ops|] == ops;
      pending := [];
    }

    /** The lights go out. */
    method LosePower(fates: seq<Fate>)
      requires AllPossible(pending, fates)
      modifies this
      ensures Valid() && Clean() && AllPossible(old(pending), fates)
      ensures durable == SufferAll(old(durable), old(pending), fates)
    {
      var ops := pending;
      pending := [];
      for i := 0 to |ops|
        invariant pending == []
        invariant durable == SufferAll(old(durable), ops[..i], fates[..i])
      {
        assert ops[..i + 1][..i] == ops[..i] && fates[..i + 1][..i] == fates[..i];
        durable := Suffer(durable, ops[i], fates[i]);
      }
      assert ops[..|ops|] == ops && fates[..|ops|] == fates;
      view := durable;
    }
  }
}
