/** Hard state and snapshots are written to two slots in turn (crates/chronolog/src/wal.rs:196-215,
    490-533, 740-800). Power may fail during any save; what is read afterwards is the last value
    whose save completed or the one that was being saved, never anything else.

    As for the log, checksums are idealised by an explicit hypothesis, `MixDetected`: what a torn
    write leaves in a slot either is one of the two frames involved or does not verify. */
module TwoSlot {
  import opened Types
  import opened Codec
  import opened Crc
  import opened EntryCodec
  import opened DiskFile
  import opened WalRecord

  // ---- one slot ----------------------------------------------------------------------------------

  /** A frame of plausible length whose checksum matches. */
  predicate Checks(b: Bytes, limit: nat) {
    |b| >= HEADER && 0 < HeaderLength(b) <= limit && Verifies(b)
  }

  function FrameIn(b: Bytes): Bytes
    requires |b| >= HEADER && HEADER + HeaderLength(b) <= |b|
  {
    b[..HEADER + HeaderLength(b)]
  }

  function BodyIn(b: Bytes, limit: nat): Option<Bytes> {
    if Checks(b, limit) then Some(FrameIn(b)[HEADER..]) else None
  }

  ghost predicate MixDetected(cell: Bytes, frame: Bytes, limit: nat) {
    forall keep {:trigger frame[..keep]} :: 0 < keep < |frame| ==>
      var mix := Splice(cell, 0, frame[..keep]);
      Checks(mix, limit) ==> FrameIn(mix) == frame || (Checks(cell, limit) && FrameIn(mix) == FrameIn(cell))
  }

  lemma SameFrame(a: Bytes, b: Bytes, limit: nat)
    requires Checks(a, limit) && HEADER + HeaderLength(a) <= |b| && b[..HEADER + HeaderLength(a)] == FrameIn(a)
    ensures Checks(b, limit) && FrameIn(b) == FrameIn(a)
  {
    var n := HEADER + HeaderLength(a);
    assert a[..4] == a[..n][..4] == b[..n][..4] == b[..4];
    assert a[4..8] == a[..n][4..8] == b[..n][4..8] == b[4..8];
    assert a[HEADER..n] == a[..n][HEADER..] == b[..n][HEADER..] == b[HEADER..n];
  }

  /** A frame reads back, whatever follows it, exactly when its body is not too long. */
  lemma FrameReads(body: Bytes, rest: Bytes, limit: nat)
    requires 0 < |body| < U32 && limit <= MAX_RECORD
    ensures BodyIn(Framed(body) + rest, limit) == if |body| <= limit then Some(body) else None
  {
    var b := Framed(body) + rest;
    if |body| <= limit {
      FramedHeader(body, rest);
      assert FrameIn(b)[HEADER..] == b[HEADER..HEADER + |body|];
    } else {
      HeaderReads(|body|);
      assert b[..4] == WriteU32(|body|);
    }
  }

  lemma ShortFrame(body: Bytes, keep: nat, limit: nat)
    requires |body| <= limit <= MAX_RECORD && keep < |Framed(body)|
    ensures BodyIn(Framed(body)[..keep], limit) == None
  {
    var b := Framed(body)[..keep];
    FramedHeader(body, []);
    assert Framed(body) + [] == Framed(body);
    if keep >= HEADER { assert b[..4] == Framed(body)[..4]; }
  }

  lemma SpliceFront(cell: Bytes, data: Bytes)
    ensures exists rest :: Splice(cell, 0, data) == data + rest
  {
    var rest := if |data| < |cell| then cell[|data|..] else [];
    assert Splice(cell, 0, data) == data + rest;
  }

  lemma WholeWrite(cell: Bytes, body: Bytes, limit: nat)
    requires 0 < |body| <= limit <= MAX_RECORD
    ensures BodyIn(Splice(cell, 0, Framed(body)), limit) == Some(body)
  {
    SpliceFront(cell, Framed(body));
    var rest :| Splice(cell, 0, Framed(body)) == Framed(body) + rest;
    FrameReads(body, rest, limit);
  }

  /** A torn write leaves a slot that reads as before, as intended, or not at all. */
  lemma TornWrite(cell: Bytes, body: Bytes, keep: nat, limit: nat)
    requires 0 < |body| <= limit <= MAX_RECORD && 0 < keep < |Framed(body)| && MixDetected(cell, Framed(body), limit)
    ensures BodyIn(Splice(cell, 0, Framed(body)[..keep]), limit) in {None, BodyIn(cell, limit), Some(body)}
  {
    var frame := Framed(body);
    var mix := Splice(cell, 0, frame[..keep]);
    FrameReads(body, [], limit);
    assert frame + [] == frame;
    hide Splice, Framed, Verifies, HeaderLength;
    if Checks(mix, limit) && FrameIn(mix) == frame {
      SameFrame(mix, frame, limit);
    }
  }

  // ---- two slots -----------------------------------------------------------------------------------

  datatype Saved<+V> = Saved(number: nat, value: V)

  /** The best value found so far and the slot the next one goes to. */
  datatype Choice<+V> = Choice(best: Saved<V>, next: nat)

  function Consider<V>(c: Choice<V>, found: Option<Saved<V>>, slot: nat): Choice<V>
    requires slot < 2
  {
    if found.Some? && found.value.number >= c.best.number then Choice(found.value, 1 - slot) else c
  }

  /** The slots are looked at in order; the highest sequence number wins. */
  function Choose<V>(r0: Option<Saved<V>>, r1: Option<Saved<V>>, none: V): Choice<V> {
    Consider(Consider(Choice(Saved(0, none), 0), r0, 0), r1, 1)
  }

  ghost predicate Older<V>(found: Option<Saved<V>>, n: nat) {
    found.Some? ==> found.value.number < n
  }

  /** The slots hold `n` and `v`, the current sequence number and value; `next` is the other slot.
      A sequence number of zero means that nothing was ever saved. */
  ghost predicate Slots<V>(r0: Option<Saved<V>>, r1: Option<Saved<V>>, n: nat, v: V, next: nat, none: V) {
    if n == 0 then r0 == None && r1 == None && v == none && next < 2
    else if next == 1 then r0 == Some(Saved(n, v)) && Older(r1, n)
    else next == 0 && r1 == Some(Saved(n, v)) && Older(r0, n)
  }

  lemma ChooseFinds<V>(r0: Option<Saved<V>>, r1: Option<Saved<V>>, n: nat, v: V, next: nat, none: V)
    requires Slots(r0, r1, n, v, next, none)
    ensures Choose(r0, r1, none) == Choice(Saved(n, v), if n == 0 then 0 else next)
  {
  }

  /** Whatever becomes of a write to the next slot, the slots hold the old value or the new one. */
  lemma SlotsAfter<V>(r0: Option<Saved<V>>, r1: Option<Saved<V>>, n: nat, v: V, next: nat, none: V, newer: V,
                      s0: Option<Saved<V>>, s1: Option<Saved<V>>)
    requires Slots(r0, r1, n, v, next, none)
    requires if next == 0 then s1 == r1 && s0 in {None, r0, Some(Saved(n + 1, newer))}
             else s0 == r0 && s1 in {None, r1, Some(Saved(n + 1, newer))}
    ensures Slots(s0, s1, n, v, next, none) || Slots(s0, s1, n + 1, newer, 1 - next, none)
    ensures (if next == 0 then s0 else s1) == Some(Saved(n + 1, newer)) ==> Slots(s0, s1, n + 1, newer, 1 - next, none)
  {
  }

  // ---- hard state: two regions of one file --------------------------------------------------------------

  const STATE_SLOT: nat := 4096
  const STATE_LIMIT: nat := 256
  const NO_STATE := HardState(0, None, 0)

  ghost predicate StateFits(v: HardState) {
    v.term < U64 && v.commit < U64 && (v.vote.Some? ==> v.vote.value < U32)
  }

  function StateBody(n: nat, v: HardState): Bytes {
    WriteU64(n) + (WriteU64(v.term) + (WriteU64(v.commit) + PutOpt(v.vote, PutU32, [])))
  }

  function ReadState(b: Bytes): Parsed<Saved<HardState>> {
    var (n, b) :- ReadU64(b);
    var (term, b) :- ReadU64(b);
    var (commit, b) :- ReadU64(b);
    var (vote, b) :- ReadOpt(b, ReadU32);
    Got(Saved(n, HardState(term, vote, commit)), b)
  }

  lemma StateRoundTrip(n: nat, v: HardState)
    requires StateFits(v) && n < U64
    ensures ReadState(StateBody(n, v)) == Got(Saved(n, v), []) && 0 < |StateBody(n, v)| <= STATE_LIMIT
  {
    hide ReadU64, WriteU64, ReadOpt, Inverse;
    if v.vote.Some? { U32Inverse(v.vote.value); }
    var vote := PutOpt(v.vote, PutU32, []);
    OptRoundTrip(v.vote, PutU32, ReadU32, []);
    U64RoundTrip(v.commit, vote);
    U64RoundTrip(v.term, WriteU64(v.commit) + vote);
    U64RoundTrip(n, WriteU64(v.term) + (WriteU64(v.commit) + vote));
    StateLength(n, v);
  }

  lemma StateLength(n: nat, v: HardState)
    ensures 0 < |StateBody(n, v)| <= STATE_LIMIT
  {
  }

  /** As much of the file as reading a slot can reach. */
  function Window(file: Bytes, at: nat): Bytes {
    if |file| <= at then []
    else if |file| <= at + HEADER + STATE_LIMIT then file[at..]
    else file[at..at + HEADER + STATE_LIMIT]
  }

  function StateIn(cell: Bytes): Option<Saved<HardState>> {
    match BodyIn(cell, STATE_LIMIT)
    case None => None
    case Some(body) => match ReadState(body) case Fail(_) => None case Got(s, _) => Some(s)
  }

  function SlotState(file: Bytes, slot: nat): Option<Saved<HardState>> {
    StateIn(Window(file, slot * STATE_SLOT))
  }

  function NextSlot(n: nat): nat {
    (n + 1) % 2
  }

  /** The file holds `v` under the number `n`. */
  ghost predicate HoldsState(file: Bytes, n: nat, v: HardState) {
    (file == [] || |file| >= STATE_SLOT) && Slots(SlotState(file, 0), SlotState(file, 1), n, v, NextSlot(n), NO_STATE)
  }

  /** What a write shows from its offset on. */
  lemma SpliceFrom(buf: Bytes, at: nat, data: Bytes)
    ensures |Splice(buf, at, data)| >= at
    ensures Splice(buf, at, data)[at..] == data + if at + |data| < |buf| then buf[at + |data|..] else []
  {
  }

  lemma OwnWindow(file: Bytes, at: nat, data: Bytes)
    requires |data| <= HEADER + STATE_LIMIT
    ensures Window(Splice(file, at, data), at) == Splice(Window(file, at), 0, data)
  {
    hide Splice, Window;
    var file', cell, reach := Splice(file, at, data), Window(file, at), HEADER + STATE_LIMIT;
    SpliceFrom(file, at, data);
    SpliceFrom(cell, 0, data);
    assert Splice(cell, 0, data)[0..] == Splice(cell, 0, data);
    WindowOf(file', at);
    WindowOf(file, at);
    if |file| > at + |data| {
      var tail := file[at + |data|..];
      assert file[at..][..Min(|file| - at, reach)][|data|..] == tail[..Min(|tail|, reach - |data|)];
      assert (data + tail)[..Min(|data + tail|, reach)] == data + tail[..Min(|tail|, reach - |data|)];
    }
  }

  lemma WindowOf(file: Bytes, at: nat)
    ensures if |file| < at then Window(file, at) == []
            else Window(file, at) == file[at..][..Min(|file| - at, HEADER + STATE_LIMIT)]
  {
  }

  /** A write to one slot does not show in the other. */
  lemma OtherWindow(file: Bytes, slot: nat, data: Bytes)
    requires slot < 2 && |data| <= HEADER + STATE_LIMIT && (|file| >= STATE_SLOT || (file == [] && slot == 1))
    ensures SlotState(Splice(file, slot * STATE_SLOT, data), 1 - slot) == SlotState(file, 1 - slot)
  {
    var file' := Splice(file, slot * STATE_SLOT, data);
    if file == [] {
      NothingInZeros(Window(file', 0));
    } else if slot == 0 {
      assert Window(file', STATE_SLOT) == Window(file, STATE_SLOT);
    } else {
      assert Window(file', 0) == Window(file, 0);
    }
  }

  lemma NothingInZeros(b: Bytes)
    requires forall i :: 0 <= i < |b| ==> b[i] == 0
    ensures StateIn(b) == None && StateIn([]) == None
  {
    if |b| >= HEADER {
      assert b[..4] == [0, 0, 0, 0];
      assert FromLittleEndian([0]) == 0 && FromLittleEndian([0, 0]) == 0 && FromLittleEndian([0, 0, 0]) == 0;
    }
  }

  /** Every fate of the write of a save. */
  function StateWrite(n: nat, v: HardState): PendingOp {
    Write(NextSlot(n) * STATE_SLOT, Framed(StateBody(n + 1, v)))
  }

  ghost predicate StateMixDetected(file: Bytes, n: nat, v: HardState) {
    MixDetected(Window(file, NextSlot(n) * STATE_SLOT), Framed(StateBody(n + 1, v)), STATE_LIMIT)
  }

  lemma StateOf(cell: Bytes, n: nat, v: HardState)
    requires StateFits(v) && n < U64 && BodyIn(cell, STATE_LIMIT) == Some(StateBody(n, v))
    ensures StateIn(cell) == Some(Saved(n, v))
  {
    hide ReadState, StateBody, BodyIn;
    StateRoundTrip(n, v);
  }

  /** What a save leaves in its own slot. */
  lemma OwnSlotAfter(file: Bytes, n: nat, v: HardState, fate: Fate)
    requires StateFits(v) && n + 1 < U64 && Possible(StateWrite(n, v), fate)
    requires (fate != Kept ==> StateMixDetected(file, n, v))
    ensures var s := SlotState(Suffer(file, StateWrite(n, v), fate), NextSlot(n));
            && s in {None, SlotState(file, NextSlot(n)), Some(Saved(n + 1, v))}
            && (fate == Kept ==> s == Some(Saved(n + 1, v)))
  {
    hide Checks, FrameIn, ReadState;
    var slot, body := NextSlot(n), StateBody(n + 1, v);
    var at, frame := slot * STATE_SLOT, Framed(body);
    var cell := Window(file, at);
    StateLength(n + 1, v);
    hide Window, Framed, Splice, BodyIn, StateBody, NextSlot, MixDetected;
    if fate == Kept {
      OwnWindow(file, at, frame);
      WholeWrite(cell, body, STATE_LIMIT);
      StateOf(Splice(cell, 0, frame), n + 1, v);
    } else if fate.Torn? && fate.keep > 0 {
      OwnWindow(file, at, frame[..fate.keep]);
      TornWrite(cell, body, fate.keep, STATE_LIMIT);
      var mix := Splice(cell, 0, frame[..fate.keep]);
      if BodyIn(mix, STATE_LIMIT) == Some(body) { StateOf(mix, n + 1, v); }
    }
  }

  /** A write leaves nothing or a prefix of its data. */
  lemma SufferPrefix(buf: Bytes, offset: nat, data: Bytes, fate: Fate) returns (keep: nat)
    requires Possible(Write(offset, data), fate)
    ensures keep <= |data|
    ensures var left := Suffer(buf, Write(offset, data), fate); left == buf || left == Splice(buf, offset, data[..keep])
  {
    keep := if fate.Torn? then fate.keep else |data|;
    assert data[..|data|] == data;
  }

  lemma SlotShape(n: nat, v: HardState)
    ensures NextSlot(n) < 2 && NextSlot(0) == 1 && NextSlot(n + 1) == 1 - NextSlot(n)
    ensures StateWrite(n, v) == Write(NextSlot(n) * STATE_SLOT, Framed(StateBody(n + 1, v)))
    ensures |Framed(StateBody(n + 1, v))| <= HEADER + STATE_LIMIT
  {
    StateLength(n + 1, v);
  }

  lemma OtherSlotAfter(file: Bytes, n: nat, v: HardState, fate: Fate)
    requires (file == [] ==> n == 0) && (file == [] || |file| >= STATE_SLOT) && Possible(StateWrite(n, v), fate)
    ensures NextSlot(n) < 2
    ensures var file' := Suffer(file, StateWrite(n, v), fate);
            SlotState(file', 1 - NextSlot(n)) == SlotState(file, 1 - NextSlot(n))
            && (file' == [] || |file'| >= STATE_SLOT)
  {
    hide *;
    SlotShape(n, v);
    var frame := Framed(StateBody(n + 1, v));
    var keep := SufferPrefix(file, NextSlot(n) * STATE_SLOT, frame, fate);
    OtherWindow(file, NextSlot(n), frame[..keep]);
  }

  lemma NothingSaved(n: nat, v: HardState)
    ensures HoldsState([], 0, NO_STATE) && (HoldsState([], n, v) ==> n == 0)
  {
    NothingInZeros([]);
  }

  /** A save of `newer` over `n` and `v`, with any fate: the file holds the old value or the new one,
      and the new one if the write was kept. */
  lemma StateSurvives(file: Bytes, n: nat, v: HardState, newer: HardState, fate: Fate)
    requires HoldsState(file, n, v) && StateFits(newer) && n + 1 < U64
    requires Possible(StateWrite(n, newer), fate) && (fate != Kept ==> StateMixDetected(file, n, newer))
    ensures var file' := Suffer(file, StateWrite(n, newer), fate);
            && (HoldsState(file', n, v) || HoldsState(file', n + 1, newer))
            && (fate == Kept ==> HoldsState(file', n + 1, newer))
  {
    hide SlotState, Suffer, StateWrite, StateMixDetected, StateFits, Possible, NextSlot, Slots;
    SlotShape(n, newer);
    NothingSaved(n, v);
    OwnSlotAfter(file, n, newer, fate);
    OtherSlotAfter(file, n, newer, fate);
    var file' := Suffer(file, StateWrite(n, newer), fate);
    SlotsAfter(SlotState(file, 0), SlotState(file, 1), n, v, NextSlot(n), NO_STATE, newer, SlotState(file', 0),
               SlotState(file', 1));
  }

  lemma StateFound(file: Bytes, n: nat, v: HardState)
    ensures HoldsState(file, n, v) ==> Found(file) == Saved(n, v)
  {
    hide SlotState;
    if HoldsState(file, n, v) { ChooseFinds(SlotState(file, 0), SlotState(file, 1), n, v, NextSlot(n), NO_STATE); }
  }

  ghost function Found(file: Bytes): Saved<HardState> {
    Choose(SlotState(file, 0), SlotState(file, 1), NO_STATE).best
  }

  /** A save and what became of its write; one that completed was synced, so its write was kept. */
  datatype SaveEvent = SaveEvent(value: HardState, fate: Fate)

  /** The file after some saves, the number read back from it each time. */
  ghost function Rerun(events: seq<SaveEvent>): Bytes {
    if events == [] then []
    else
      var e, file := events[|events| - 1], Rerun(events[..|events| - 1]);
      var op := StateWrite(Found(file).number, e.value);
      if Possible(op, e.fate) then Suffer(file, op, e.fate) else file
  }

  ghost predicate AllSound(events: seq<SaveEvent>) {
    events == [] ||
    (AllSound(events[..|events| - 1]) &&
     var e, file := events[|events| - 1], Rerun(events[..|events| - 1]);
     var n := Found(file).number;
     && StateFits(e.value) && n + 1 < U64 && Possible(StateWrite(n, e.value), e.fate)
     && (e.fate != Kept ==> StateMixDetected(file, n, e.value)))
  }

  /** `v` is the value of a save after which no save completed. */
  ghost predicate LastSaved(events: seq<SaveEvent>, v: HardState) {
    if events == [] then v == NO_STATE
    else
      var e := events[|events| - 1];
      v == e.value || (e.fate != Kept && LastSaved(events[..|events| - 1], v))
  }

  /** Over every run of saves, any of them cut short by power loss, what is read back is the last
      value whose save completed or one whose save was begun after that. */
  lemma {:induction false} StateRun(events: seq<SaveEvent>)
    requires AllSound(events)
    ensures var file := Rerun(events);
            HoldsState(file, Found(file).number, Found(file).value) && LastSaved(events, Found(file).value)
  {
    hide HoldsState, StateWrite, StateMixDetected, StateFits, Possible, Suffer, Found;
    if events == [] {
      NothingSaved(0, NO_STATE);
      StateFound([], 0, NO_STATE);
    } else {
      var rest, e := events[..|events| - 1], events[|events| - 1];
      StateRun(rest);
      var file := Rerun(rest);
      var n, v := Found(file).number, Found(file).value;
      StateSurvives(file, n, v, e.value, e.fate);
      StateFound(Rerun(events), n, v);
      StateFound(Rerun(events), n + 1, e.value);
    }
  }

  /** The loop over the two slots. */
  method ReadBack(bytes: Bytes) returns (best: Saved<HardState>)
    ensures best == Found(bytes)
  {
    hide SlotState;
    var start: Choice<HardState> := Choice(Saved(0, NO_STATE), 0);
    var choice := start;
    for slot := 0 to 2
      invariant choice == if slot == 0 then start
                          else if slot == 1 then Consider(start, SlotState(bytes, 0), 0)
                          else Choose(SlotState(bytes, 0), SlotState(bytes, 1), NO_STATE)
    {
      choice := Consider(choice, SlotState(bytes, slot), slot);
    }
    best := choice.best;
  }

  lemma OneFate(d: Bytes, op: PendingOp, fate: Fate)
    requires Possible(op, fate)
    ensures AllPossible([op], [fate]) && SufferAll(d, [op], [fate]) == Suffer(d, op, fate)
  {
    hide Suffer, Possible;
    assert [op][..0] == [] && [fate][..0] == [];
  }

  /** The state file and the number of the last save. */
  class StateFile {
    const file: SimFile
    var number: nat
    ghost var value: HardState

    /** The file is level with its disk. */
    ghost predicate Settled()
      reads this, file
    {
      file.Valid() && file.Clean()
    }

    ghost predicate Valid()
      reads this, file
    {
      Settled() && HoldsState(file.durable, number, value)
    }

    /** Open a file that holds a state, or nothing yet: recovery finds what it holds. */
    constructor (file: SimFile, ghost n: nat, ghost v: HardState)
      requires file.Valid() && file.Clean() && HoldsState(file.durable, n, v)
      ensures Valid() && this.file == file && number == n && value == v
    {
      StateFound(file.view, n, v);
      var best := ReadBack(file.view);
      this.file, number, value := file, best.number, best.value;
    }

    /** What recovery finds. */
    method Latest() returns (v: HardState)
      requires Valid()
      ensures v == value
    {
      hide HoldsState, Found;
      StateFound(file.view, number, value);
      var best := ReadBack(file.view);
      v := best.value;
    }

    /** Write to the inactive slot, then sync. */
    method Save(v: HardState)
      requires Settled()
      modifies this, file
      ensures Settled() && number == old(number) + 1 && value == v
      ensures old(Valid()) && StateFits(v) && number < U64 ==> Valid()
    {
      hide HoldsState, StateBody, Framed, Splice, StateFits, NextSlot;
      var at, frame := NextSlot(number) * STATE_SLOT, Framed(StateBody(number + 1, v));
      if Valid() && StateFits(v) && number + 1 < U64 { StateSurvives(file.durable, number, value, v, Kept); }
      file.Write(at, frame);
      OverlaidIsSplice(old(file.durable), at, frame, file.view);
      file.Sync();
      number, value := number + 1, v;
    }

    /** Power fails during a save, and the file is read again. */
    method SaveCutShort(v: HardState, fate: Fate)
      requires Valid() && StateFits(v) && number + 1 < U64 && StateMixDetected(file.durable, number, v)
      requires Possible(StateWrite(number, v), fate)
      modifies this, file
      ensures Valid()
      ensures (value == old(value) && number == old(number)) || (value == v && number == old(number) + 1)
    {
      hide HoldsState, Suffer, Found, StateMixDetected, StateFits, NextSlot, Possible, Framed, StateBody;
      StateSurvives(file.durable, number, value, v, fate);
      OneFate(file.durable, StateWrite(number, v), fate);
      file.Write(NextSlot(number) * STATE_SLOT, Framed(StateBody(number + 1, v)));
      file.LosePower([fate]);
      StateFound(file.durable, number, value);
      StateFound(file.durable, number + 1, v);
      var best := ReadBack(file.view);
      number, value := best.number, best.value;
    }
  }

  // ---- snapshots: two files ------------------------------------------------------------------------------

  function SnapshotBody(n: nat, s: Snapshot): Bytes {
    WriteU64(n) + PutSnapshot(s, [])
  }

  function ReadSaved(b: Bytes): Parsed<Saved<Option<Snapshot>>> {
    var (n, b) :- ReadU64(b);
    var (s, b) :- ReadSnapshot(b);
    Got(Saved(n, Some(s)), b)
  }

  /** What the snapshot file holds. */
  function SnapshotIn(file: Bytes): Option<Saved<Option<Snapshot>>> {
    match BodyIn(file, MAX_RECORD)
    case None => None
    case Some(body) => match ReadSaved(body) case Fail(_) => None case Got(s, _) => Some(s)
  }

  ghost predicate CanSave(n: nat, s: Snapshot) {
    n < U64 && SnapshotFits(s) && |SnapshotBody(n, s)| <= MAX_RECORD
  }

  lemma SnapshotOf(file: Bytes, n: nat, s: Snapshot)
    requires CanSave(n, s) && BodyIn(file, MAX_RECORD) == Some(SnapshotBody(n, s))
    ensures SnapshotIn(file) == Some(Saved(n, Some(s)))
  {
    hide ReadU64, WriteU64, PutSnapshot, ReadSnapshot, BodyIn;
    SnapshotRoundTrip(s, []);
    U64RoundTrip(n, PutSnapshot(s, []));
  }

  /** A snapshot that was written and synced can be read back exactly when it is not too long: the
      save itself checks nothing. */
  lemma SavedIsReadable(n: nat, s: Snapshot)
    requires n < U64 && SnapshotFits(s) && |SnapshotBody(n, s)| < U32
    ensures SnapshotIn(Framed(SnapshotBody(n, s))) == Some(Saved(n, Some(s))) <==> CanSave(n, s)
  {
    var body := SnapshotBody(n, s);
    SnapshotLength(n, s);
    hide Framed, BodyIn, SnapshotBody;
    FrameReads(body, [], MAX_RECORD);
    assert Framed(body) + [] == Framed(body);
    if |body| <= MAX_RECORD { SnapshotOf(Framed(body), n, s); }
  }

  lemma SnapshotLength(n: nat, s: Snapshot)
    ensures |SnapshotBody(n, s)| > 0
  {
    hide PutSnapshot;
  }

  /** The file is emptied, then written, then synced. */
  function SnapshotOps(n: nat, s: Snapshot): seq<PendingOp> {
    [Truncate(0), Write(0, Framed(SnapshotBody(n, s)))]
  }

  lemma TwoFates(d: Bytes, frame: Bytes, fates: seq<Fate>)
    requires AllPossible([Truncate(0), Write(0, frame)], fates)
    ensures |fates| == 2 && fates[0] in {Kept, Lost} && Possible(Write(0, frame), fates[1])
    ensures SufferAll(d, [Truncate(0), Write(0, frame)], fates)
         == Suffer(if fates[0] == Kept then [] else d, Write(0, frame), fates[1])
  {
    hide Splice;
    var ops := [Truncate(0), Write(0, frame)];
    assert Possible(ops[0], fates[0]) && Possible(ops[1], fates[1]);
    assert ops[..1] == [Truncate(0)] && ops[..1][..0] == [] && fates[..1][0] == fates[0];
    assert SufferAll(d, [], []) == d;
    assert SufferAll(d, ops[..1], fates[..1]) == Suffer(d, Truncate(0), fates[0]);
    assert Cut(d, 0) == [];
  }

  ghost predicate SnapshotMixDetected(file: Bytes, n: nat, s: Snapshot) {
    MixDetected(file, Framed(SnapshotBody(n, s)), MAX_RECORD)
  }

  /** Every fate of the truncation and of the write leaves a file that reads as before, as
      intended, or not at all. */
  lemma SnapshotSurvives(file: Bytes, n: nat, s: Snapshot, fates: seq<Fate>)
    requires CanSave(n, s) && AllPossible(SnapshotOps(n, s), fates)
    requires fates != [Kept, Kept] ==> SnapshotMixDetected(file, n, s)
    ensures var found := SnapshotIn(SufferAll(file, SnapshotOps(n, s), fates));
            && found in {None, SnapshotIn(file), Some(Saved(n, Some(s)))}
            && (fates == [Kept, Kept] ==> found == Some(Saved(n, Some(s))))
  {
    var body := SnapshotBody(n, s);
    var frame := Framed(body);
    SnapshotLength(n, s);
    TwoFates(file, frame, fates);
    hide SnapshotBody, Framed, BodyIn, Splice, MixDetected, SufferAll, ReadSaved;
    var cell := if fates[0] == Kept then [] else file;
    EmptyCell();
    match fates[1] {
      case Kept =>
        WholeWrite(cell, body, MAX_RECORD);
        SnapshotOf(Splice(cell, 0, frame), n, s);
      case Lost =>
      case Torn(keep) =>
        if keep > 0 {
          var mix := Splice(cell, 0, frame[..keep]);
          if fates[0] == Kept {
            SpliceNothing(frame[..keep]);
            ShortFrame(body, keep, MAX_RECORD);
          } else {
            TornWrite(cell, body, keep, MAX_RECORD);
            if BodyIn(mix, MAX_RECORD) == Some(body) { SnapshotOf(mix, n, s); }
          }
        }
    }
  }

  lemma EmptyCell()
    ensures BodyIn([], MAX_RECORD) == None
  {
  }

  lemma SpliceNothing(data: Bytes)
    ensures Splice([], 0, data) == data
  {
  }

  ghost predicate HoldsSnapshot(a: Bytes, b: Bytes, n: nat, v: Option<Snapshot>, next: nat) {
    Slots(SnapshotIn(a), SnapshotIn(b), n, v, next, None)
  }

  // ---- every run of saves ------------------------------------------------------------------------------------

  /** A save and what became of its truncation and its write. */
  datatype SnapshotEvent = SnapshotEvent(value: Snapshot, fates: seq<Fate>)

  datatype Pair = Pair(a: Bytes, b: Bytes)

  ghost function FoundIn(p: Pair): Choice<Option<Snapshot>> {
    Choose(SnapshotIn(p.a), SnapshotIn(p.b), None)
  }

  ghost function Target(p: Pair, next: nat): Bytes {
    if next == 0 then p.a else p.b
  }

  ghost function Replaced(p: Pair, next: nat, file: Bytes): Pair {
    if next == 0 then p.(a := file) else p.(b := file)
  }

  /** The files after a save, number and slot read back from them. */
  ghost function After(p: Pair, e: SnapshotEvent): Pair {
    var c := FoundIn(p);
    var ops := SnapshotOps(c.best.number + 1, e.value);
    if AllPossible(ops, e.fates) then Replaced(p, c.next, SufferAll(Target(p, c.next), ops, e.fates)) else p
  }

  /** The files after some saves, number and slot read back from them each time. */
  ghost function Resaved(events: seq<SnapshotEvent>): Pair {
    if events == [] then Pair([], [])
    else After(Resaved(events[..|events| - 1]), events[|events| - 1])
  }

  ghost predicate SaveSound(p: Pair, e: SnapshotEvent) {
    var c := FoundIn(p);
    var n := c.best.number + 1;
    && CanSave(n, e.value) && AllPossible(SnapshotOps(n, e.value), e.fates)
    && (e.fates != [Kept, Kept] ==> SnapshotMixDetected(Target(p, c.next), n, e.value))
  }

  ghost predicate AllSavesSound(events: seq<SnapshotEvent>) {
    events == [] || (
      AllSavesSound(events[..|events| - 1]) && SaveSound(Resaved(events[..|events| - 1]), events[|events| - 1]))
  }

  /** `v` is the snapshot of a save after which no save completed. */
  ghost predicate LastSnapshot(events: seq<SnapshotEvent>, v: Option<Snapshot>) {
    if events == [] then v == None
    else
      var e := events[|events| - 1];
      v == Some(e.value) || (e.fates != [Kept, Kept] && LastSnapshot(events[..|events| - 1], v))
  }

  ghost predicate FindsWhatItHolds(p: Pair) {
    var c := FoundIn(p);
    HoldsSnapshot(p.a, p.b, c.best.number, c.best.value, c.next)
  }

  lemma HeldIsFound(p: Pair, n: nat, v: Option<Snapshot>, next: nat)
    requires HoldsSnapshot(p.a, p.b, n, v, next)
    ensures FindsWhatItHolds(p) && FoundIn(p).best == Saved(n, v)
  {
    hide SnapshotIn;
    ChooseFinds(SnapshotIn(p.a), SnapshotIn(p.b), n, v, next, None);
  }

  /** One save, with any fates. */
  lemma SaveSurvives(p: Pair, e: SnapshotEvent)
    requires FindsWhatItHolds(p) && SaveSound(p, e)
    ensures var found := FoundIn(After(p, e)).best.value;
            && FindsWhatItHolds(After(p, e))
            && (found == Some(e.value) || (e.fates != [Kept, Kept] && found == FoundIn(p).best.value))
  {
    var c := FoundIn(p);
    var n := c.best.number;
    hide SnapshotIn, SnapshotOps, SufferAll, CanSave, SnapshotMixDetected, AllPossible;
    SnapshotSurvives(Target(p, c.next), n + 1, e.value, e.fates);
    var p' := After(p, e);
    SlotsAfter(SnapshotIn(p.a), SnapshotIn(p.b), n, c.best.value, c.next, None, Some(e.value),
               SnapshotIn(p'.a), SnapshotIn(p'.b));
    if HoldsSnapshot(p'.a, p'.b, n + 1, Some(e.value), 1 - c.next) {
      HeldIsFound(p', n + 1, Some(e.value), 1 - c.next);
    } else {
      HeldIsFound(p', n, c.best.value, c.next);
    }
  }

  /** Over every run of saves, any of them cut short by power loss, what is read back is the last
      snapshot whose save completed or one whose save was begun after that. */
  lemma {:induction false} SnapshotRun(events: seq<SnapshotEvent>)
    requires AllSavesSound(events)
    ensures FindsWhatItHolds(Resaved(events)) && LastSnapshot(events, FoundIn(Resaved(events)).best.value)
  {
    hide FoundIn, After, SaveSound, FindsWhatItHolds;
    if events == [] {
      EmptyCell();
      HeldIsFound(Pair([], []), 0, None, 0);
    } else {
      var rest, e := events[..|events| - 1], events[|events| - 1];
      SnapshotRun(rest);
      SaveSurvives(Resaved(rest), e);
    }
  }

  /** That each can be read back is needed. A snapshot above the limit is written and synced, and cannot
      be read; the next save then empties the only file that can, and may be cut short there. */
  lemma LongSnapshotLosesAll(p: Pair, n: nat, v: Option<Snapshot>, next: nat, long: Snapshot, s: Snapshot)
    requires next < 2 && HoldsSnapshot(p.a, p.b, n, v, next) && MAX_RECORD < |SnapshotBody(n + 1, long)| < U32
    ensures AllPossible(SnapshotOps(n + 2, s), [Kept, Lost])
    ensures var p1 := Replaced(p, next, Framed(SnapshotBody(n + 1, long)));
            var p2 := Replaced(p1, 1 - next, SufferAll(Target(p1, 1 - next), SnapshotOps(n + 2, s), [Kept, Lost]));
            FoundIn(p1).best == Saved(n, v) && FoundIn(p2).best == Saved(0, None)
  {
    hide SnapshotIn, SnapshotBody, Framed, Splice, SufferAll, FoundIn;
    var p1 := Replaced(p, next, Framed(SnapshotBody(n + 1, long)));
    LongIsUnreadable(n + 1, long);
    HeldIsFound(p1, n, v, next);
    EmptiedOnly(Target(p1, 1 - next), n + 2, s);
    NothingRead(Replaced(p1, 1 - next, []));
  }

  lemma EmptiedOnly(d: Bytes, n: nat, s: Snapshot)
    ensures AllPossible(SnapshotOps(n, s), [Kept, Lost]) && SufferAll(d, SnapshotOps(n, s), [Kept, Lost]) == []
  {
    hide SnapshotBody, Framed, Splice;
    assert AllPossible(SnapshotOps(n, s), [Kept, Lost]);
    TwoFates(d, Framed(SnapshotBody(n, s)), [Kept, Lost]);
  }

  lemma NothingRead(p: Pair)
    ensures (p.a == [] || SnapshotIn(p.a) == None) && (p.b == [] || SnapshotIn(p.b) == None) ==>
              FoundIn(p).best == Saved(0, None)
  {
    EmptyCell();
  }

  lemma LongIsUnreadable(n: nat, s: Snapshot)
    requires MAX_RECORD < |SnapshotBody(n, s)| < U32
    ensures SnapshotIn(Framed(SnapshotBody(n, s))) == None
  {
    var body := SnapshotBody(n, s);
    hide Framed, BodyIn, SnapshotBody;
    FrameReads(body, [], MAX_RECORD);
    assert Framed(body) + [] == Framed(body);
  }

  /** The two snapshot files, the slot to write next and the number of the last save. */
  class SnapshotFiles {
    const first: SimFile
    const second: SimFile
    var next: nat
    var number: nat
    ghost var value: Option<Snapshot>

    /** The files are level with their disk. */
    ghost predicate Settled()
      reads this, first, second
    {
      first != second && first.Valid() && first.Clean() && second.Valid() && second.Clean() && next < 2
    }

    ghost predicate Valid()
      reads this, first, second
    {
      Settled() && HoldsSnapshot(first.durable, second.durable, number, value, next)
    }

    /** Open two files that hold a snapshot, or nothing yet: recovery finds what they hold. */
    constructor (first: SimFile, second: SimFile, ghost n: nat, ghost v: Option<Snapshot>, ghost to: nat)
      requires first != second && first.Valid() && first.Clean() && second.Valid() && second.Clean()
      requires to < 2 && HoldsSnapshot(first.durable, second.durable, n, v, to)
      ensures Valid() && this.first == first && this.second == second && number == n && value == v
    {
      this.first, this.second, next, number, value := first, second, 0, 0, None;
      new;
      Recover(n, v, to);
    }

    /** The better of the two files, and the slot it did not come from. */
    method Recover(ghost n: nat, ghost v: Option<Snapshot>, ghost to: nat)
      requires Settled() && to < 2 && HoldsSnapshot(first.durable, second.durable, n, v, to)
      modifies this
      ensures Valid() && number == n && value == v
    {
      hide SnapshotIn;
      var choice: Choice<Option<Snapshot>> := Choice(Saved(0, None), 0);
      choice := Consider(choice, SnapshotIn(first.view), 0);
      choice := Consider(choice, SnapshotIn(second.view), 1);
      ChooseFinds(SnapshotIn(first.view), SnapshotIn(second.view), n, v, to, None);
      next, number, value := choice.next, choice.best.number, choice.best.value;
    }

    /** What recovery finds. */
    method Latest() returns (v: Option<Snapshot>)
      requires Valid()
      ensures v == value
    {
      hide SnapshotIn;
      var choice: Choice<Option<Snapshot>> := Choice(Saved(0, None), 0);
      choice := Consider(choice, SnapshotIn(first.view), 0);
      choice := Consider(choice, SnapshotIn(second.view), 1);
      ChooseFinds(SnapshotIn(first.view), SnapshotIn(second.view), number, value, next, None);
      v := choice.best.value;
    }

    /** Empty the other file, write it, sync it, and only then aim at the first again. If the snapshot
        is too long to be read back, nothing says so, and recovery would find the one before. */
    method Save(s: Snapshot)
      requires Settled()
      modifies this, first, second
      ensures Settled() && number == old(number) + 1 && next == 1 - old(next) && value == Some(s)
      ensures old(Valid()) && CanSave(number, s) ==> Valid()
      ensures old(Valid()) && SnapshotFits(s) && number < U64 && MAX_RECORD < |SnapshotBody(number, s)| < U32 ==>
                HoldsSnapshot(first.durable, second.durable, old(number), old(value), old(next))
    {
      hide SnapshotIn, CanSave, SnapshotBody, Framed, Splice, SnapshotFits, HoldsSnapshot;
      SaveLeaves(first.durable, second.durable, number, value, next, s);
      var target := if next == 0 then first else second;
      var frame := Framed(SnapshotBody(number + 1, s));
      target.SetLength(0);
      target.Write(0, frame);
      assert frame == target.view[0..|frame|] == target.view;
      target.Sync();
      next, number, value := 1 - next, number + 1, Some(s);
    }

    /** Power fails during a save, and the files are read again. */
    method SaveCutShort(s: Snapshot, fates: seq<Fate>)
      requires Valid() && CanSave(number + 1, s)
      requires SnapshotMixDetected(Target(Pair(first.durable, second.durable), next), number + 1, s)
      requires AllPossible(SnapshotOps(number + 1, s), fates)
      modifies this, first, second
      ensures Valid()
      ensures (value == old(value) && number == old(number)) || (value == Some(s) && number == old(number) + 1)
    {
      hide SnapshotIn, CanSave, SnapshotMixDetected, AllPossible, SufferAll, SnapshotBody, Framed;
      var target := if next == 0 then first else second;
      ghost var d, n := target.durable, number;
      ghost var r0, r1 := SnapshotIn(first.durable), SnapshotIn(second.durable);
      SnapshotSurvives(d, n + 1, s, fates);
      target.SetLength(0);
      target.Write(0, Framed(SnapshotBody(number + 1, s)));
      assert target.pending == SnapshotOps(n + 1, s);
      target.LosePower(fates);
      SlotsAfter(r0, r1, n, value, next, None, Some(s), SnapshotIn(first.durable), SnapshotIn(second.durable));
      ghost var same := HoldsSnapshot(first.durable, second.durable, n, value, next);
      Recover(if same then n else n + 1, if same then value else Some(s), if same then next else 1 - next);
    }
  }

  /** What the two files hold once the next has been written. */
  lemma SaveLeaves(a: Bytes, b: Bytes, n: nat, v: Option<Snapshot>, next: nat, s: Snapshot)
    requires next < 2
    ensures var p := Replaced(Pair(a, b), next, Framed(SnapshotBody(n + 1, s)));
            HoldsSnapshot(a, b, n, v, next) ==>
              && (CanSave(n + 1, s) ==> HoldsSnapshot(p.a, p.b, n + 1, Some(s), 1 - next))
              && (MAX_RECORD < |SnapshotBody(n + 1, s)| < U32 ==> HoldsSnapshot(p.a, p.b, n, v, next))
  {
    hide SnapshotIn, SnapshotBody, Framed, SnapshotFits;
    if CanSave(n + 1, s) { SavedIsReadable(n + 1, s); }
    if MAX_RECORD < |SnapshotBody(n + 1, s)| < U32 { LongIsUnreadable(n + 1, s); }
    hide CanSave;
    var p := Replaced(Pair(a, b), next, Framed(SnapshotBody(n + 1, s)));
    if HoldsSnapshot(a, b, n, v, next) && (CanSave(n + 1, s) || MAX_RECORD < |SnapshotBody(n + 1, s)| < U32) {
      SlotsAfter(SnapshotIn(a), SnapshotIn(b), n, v, next, None, Some(s), SnapshotIn(p.a), SnapshotIn(p.b));
    }
  }
}
