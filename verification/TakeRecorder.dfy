/**
  What the disk thread of the recorder does with one record at a time: the fields it alone owns,
  as a value (Take) with its specification, and as the object that updates them (TakeWriter).
 */
module TakeRecorder {

  /** The published state of the recorder (WriterState). */
  datatype Phase = Idle | Opening | Recording | Closing | Failed

  /** Which producer call queued a Finish; for rotate, with the state its caller could have seen. */
  datatype Origin = ByFinish | ByRotate(stateAtCall: Phase)

  /** One queue element. Sensor payloads are opaque; `origin` is history, no code reads it. */
  datatype Record =
    | Start(ticket: nat, dropsAtStart: nat)
    | Finish(ticket: nat, complete: bool, origin: Origin)
    | Raw(sequence: nat, payload: int)
    | Drive(tick: nat, payload: int)
    | Block(id: nat, payload: int)
  {
    predicate IsControl() { Start? || Finish? }
  }

  /** A take being written; `first` is the queue position of its Start. */
  datatype Take = Take(first: nat, dropsAtStart: nat,
                       rows: seq<Record>, packets: seq<Record>, blocks: seq<Record>,
                       lastPacket: nat, firstBlock: bool, lastBlock: nat)
  {
    /** One data record, with both duplicate suppressions. */
    function Write(r: Record): Take {
      match r
      case Raw(sequence, _) =>
        if sequence == lastPacket then this
        else this.(packets := packets + [r], lastPacket := sequence)
      case Drive(_, _) => this.(rows := rows + [r])
      case Block(id, _) =>
        if !firstBlock && id == lastBlock then this
        else this.(blocks := blocks + [r], firstBlock := false, lastBlock := id)
      case _ => this
    }

    /** Whether a Finish asking for `complete` may commit, given the drop counter it reads. */
    predicate Sealable(complete: bool, dropped: nat) {
      complete && dropped == dropsAtStart && |rows| > 0 && |packets| > 0
    }
  }

  function NewTake(first: nat, dropsAtStart: nat): Take {
    Take(first, dropsAtStart, [], [], [], 0, true, 0)
  }

  function WriteAll(t: Take, rs: seq<Record>): Take {
    if rs == [] then t else WriteAll(t, rs[..|rs| - 1]).Write(rs[|rs| - 1])
  }

  // ---- What a take should hold, said without the running fields ----

  /** Every drive row, in order. */
  function Drives(rs: seq<Record>): seq<Record> {
    if rs == [] then [] else
    var rest, last := Drives(rs[..|rs| - 1]), rs[|rs| - 1];
    if last.Drive? then rest + [last] else rest
  }

  /** Every raw packet, in order. */
  function Raws(rs: seq<Record>): seq<Record> {
    if rs == [] then [] else
    var rest, last := Raws(rs[..|rs| - 1]), rs[|rs| - 1];
    if last.Raw? then rest + [last] else rest
  }

  /** Sequence number of the last raw packet, 0 when there is none. */
  function LastSequence(rs: seq<Record>): nat {
    var raws := Raws(rs);
    if raws != [] && raws[|raws| - 1].Raw? then raws[|raws| - 1].sequence else 0
  }

  /** Raw packets that differ from the raw packet queued just before them. */
  function FreshPackets(rs: seq<Record>): seq<Record> {
    if rs == [] then [] else
    var before, last := rs[..|rs| - 1], rs[|rs| - 1];
    if last.Raw? && last.sequence != LastSequence(before)
    then FreshPackets(before) + [last] else FreshPackets(before)
  }

  function Blocks(rs: seq<Record>): seq<Record> {
    if rs == [] then [] else
    var rest, last := Blocks(rs[..|rs| - 1]), rs[|rs| - 1];
    if last.Block? then rest + [last] else rest
  }

  /** Blocks that differ from the block queued just before them. */
  function FreshBlocks(rs: seq<Record>): seq<Record> {
    if rs == [] then [] else
    var before, last := rs[..|rs| - 1], rs[|rs| - 1];
    var blocks := Blocks(before);
    if last.Block? && !(blocks != [] && blocks[|blocks| - 1].Block? && blocks[|blocks| - 1].id == last.id)
    then FreshBlocks(before) + [last] else FreshBlocks(before)
  }

  lemma {:induction false} RawsAreRaw(rs: seq<Record>)
    ensures forall r <- Raws(rs) :: r.Raw?
    ensures forall r <- Blocks(rs) :: r.Block?
  {
    if rs != [] { RawsAreRaw(rs[..|rs| - 1]); }
  }

  /** The running fields of the writer compute exactly those lists. */
  lemma {:induction false} TakeHoldsItsRecords(first: nat, drops: nat, rs: seq<Record>)
    ensures var t := WriteAll(NewTake(first, drops), rs);
      && t.first == first && t.dropsAtStart == drops
      && t.rows == Drives(rs) && t.packets == FreshPackets(rs) && t.blocks == FreshBlocks(rs)
      && t.lastPacket == LastSequence(rs)
      && (t.firstBlock <==> Blocks(rs) == [])
      && (!t.firstBlock ==> Blocks(rs)[|Blocks(rs)| - 1].Block? && t.lastBlock == Blocks(rs)[|Blocks(rs)| - 1].id)
  {
    if rs != [] {
      var before := rs[..|rs| - 1];
      TakeHoldsItsRecords(first, drops, before);
      RawsAreRaw(before);
      WriteHolds(WriteAll(NewTake(first, drops), before), rs);
    }
  }

  /** One more record, written to a take that holds those before it. */
  lemma WriteHolds(t: Take, rs: seq<Record>)
    requires rs != []
    requires var before := rs[..|rs| - 1];
      && t.rows == Drives(before) && t.packets == FreshPackets(before) && t.blocks == FreshBlocks(before)
      && t.lastPacket == LastSequence(before) && (t.firstBlock <==> Blocks(before) == [])
      && (forall r <- Blocks(before) :: r.Block?)
      && (!t.firstBlock ==> t.lastBlock == Blocks(before)[|Blocks(before)| - 1].id)
    ensures var u := t.Write(rs[|rs| - 1]);
      && u.first == t.first && u.dropsAtStart == t.dropsAtStart
      && u.rows == Drives(rs) && u.packets == FreshPackets(rs) && u.blocks == FreshBlocks(rs)
      && u.lastPacket == LastSequence(rs) && (u.firstBlock <==> Blocks(rs) == [])
      && (!u.firstBlock ==> Blocks(rs)[|Blocks(rs)| - 1].Block? && u.lastBlock == Blocks(rs)[|Blocks(rs)| - 1].id)
  {
    hide Drives, Raws, FreshPackets, Blocks, FreshBlocks, LastSequence;
    OneMoreDriveOrPacket(rs);
    OneMoreBlock(rs);
    var blocks := Blocks(rs[..|rs| - 1]);
    if blocks != [] { assert blocks[|blocks| - 1] in blocks; }
  }

  lemma OneMoreDriveOrPacket(rs: seq<Record>)
    requires rs != []
    ensures var before, last := rs[..|rs| - 1], rs[|rs| - 1];
      && Drives(rs) == (if last.Drive? then Drives(before) + [last] else Drives(before))
      && LastSequence(rs) == (if last.Raw? then last.sequence else LastSequence(before))
      && FreshPackets(rs) == (if last.Raw? && last.sequence != LastSequence(before) then FreshPackets(before) + [last] else FreshPackets(before))
  {}

  lemma OneMoreBlock(rs: seq<Record>)
    requires rs != []
    ensures var before, last := rs[..|rs| - 1], rs[|rs| - 1];
      var blocks := Blocks(before);
      && Blocks(rs) == (if last.Block? then blocks + [last] else blocks)
      && FreshBlocks(rs) ==
         if last.Block? && !(blocks != [] && blocks[|blocks| - 1].Block? && blocks[|blocks| - 1].id == last.id)
         then FreshBlocks(before) + [last] else FreshBlocks(before)
  {}

  /** Sequence number a packet must differ from: that of its predecessor, 0 for the first. */
  function Before(raws: seq<Record>, i: nat): nat
    requires i <= |raws|
  {
    if i > 0 && raws[i - 1].Raw? then raws[i - 1].sequence else 0
  }

  /** No two adjacent raw packets share a sequence, and none opens the list with 0. */
  ghost predicate RawsAdvance(rs: seq<Record>) {
    var raws := Raws(rs);
    forall i | 0 <= i < |raws| :: raws[i].Raw? && raws[i].sequence != Before(raws, i)
  }

  /** Then the suppression of duplicates removes nothing. */
  lemma {:induction false} AdvancingPacketsAreAllKept(rs: seq<Record>)
    requires RawsAdvance(rs)
    ensures FreshPackets(rs) == Raws(rs)
  {
    if rs != [] {
      var before := rs[..|rs| - 1];
      var raws, older := Raws(rs), Raws(before);
      forall i | 0 <= i < |older| ensures older[i].Raw? && older[i].sequence != Before(older, i) {
        assert raws[i] == older[i] && Before(raws, i) == Before(older, i);
      }
      AdvancingPacketsAreAllKept(before);
      if rs[|rs| - 1].Raw? { assert Before(raws, |older|) == LastSequence(before); }
    }
  }

  /** Id a block must differ from: that of its predecessor, -1 for the first. */
  function IdBefore(blocks: seq<Record>, i: nat): int
    requires i <= |blocks|
  {
    if i > 0 && blocks[i - 1].Block? then blocks[i - 1].id else -1
  }

  /** No two kept blocks side by side have the same id, and at any time the last one kept has the id seen last. */
  lemma {:induction false} OnlyRepeatedBlocksAreLeftOut(rs: seq<Record>)
    ensures var kept := FreshBlocks(rs);
      && (forall i | 0 <= i < |kept| :: kept[i].Block? && kept[i].id != IdBefore(kept, i))
      && IdBefore(kept, |kept|) == IdBefore(Blocks(rs), |Blocks(rs)|)
  {
    if rs != [] {
      var before := rs[..|rs| - 1];
      OnlyRepeatedBlocksAreLeftOut(before);
      RawsAreRaw(before);
      hide Blocks, FreshBlocks;
      OneMoreBlock(rs);
      var all, kept, older := Blocks(before), FreshBlocks(rs), FreshBlocks(before);
      if all != [] { assert all[|all| - 1] in all; }
      forall i | 0 <= i < |kept| ensures kept[i].Block? && kept[i].id != IdBefore(kept, i) {
        if i < |older| { assert kept[i] == older[i] && IdBefore(kept, i) == IdBefore(older, i); }
      }
    }
  }

  /** Likewise for packets, where the number before the first one counts as 0. */
  lemma {:induction false} OnlyRepeatedPacketsAreLeftOut(rs: seq<Record>)
    ensures var kept := FreshPackets(rs);
      && (forall i | 0 <= i < |kept| :: kept[i].Raw? && kept[i].sequence != Before(kept, i))
      && Before(kept, |kept|) == LastSequence(rs)
  {
    if rs != [] {
      var before := rs[..|rs| - 1];
      OnlyRepeatedPacketsAreLeftOut(before);
      hide Raws, FreshPackets, LastSequence;
      OneMoreDriveOrPacket(rs);
      var kept, older := FreshPackets(rs), FreshPackets(before);
      forall i | 0 <= i < |kept| ensures kept[i].Raw? && kept[i].sequence != Before(kept, i) {
        if i < |older| { assert kept[i] == older[i] && Before(kept, i) == Before(older, i); }
      }
    }
  }

  /** The writer thread's own fields, updated as the loop in `run` does. */
  class TakeWriter {
    var open: bool
    var first: nat
    var dropsAtStart: nat
    var rows: seq<Record>
    var packets: seq<Record>
    var blocks: seq<Record>
    var lastPacket: nat
    var firstBlock: bool
    var lastBlock: nat
    var saved: seq<Take>

    constructor ()
      ensures !open && saved == []
    {
      open, saved := false, [];
      first, dropsAtStart, rows, packets, blocks := 0, 0, [], [], [];
      lastPacket, firstBlock, lastBlock := 0, true, 0;
    }

    function Current(): Take
      reads this
    {
      Take(first, dropsAtStart, rows, packets, blocks, lastPacket, firstBlock, lastBlock)
    }

    /** A Start found at queue position `index`; an open take is first closed as incomplete. */
    method Begin(request: Record, index: nat, dropped: nat)
      requires request.Start?
      modifies this
      ensures open && Current() == NewTake(index, request.dropsAtStart) && saved == old(saved)
    {
      if open { Close(false, dropped); }
      open := true;
      first := index;
      rows, packets, blocks, lastPacket := [], [], [], 0;
      dropsAtStart := request.dropsAtStart;
      lastBlock, firstBlock := 0, true;
    }

    /** A data record; ignored when no take is open. */
    method WriteRecord(r: Record)
      requires !r.IsControl()
      modifies this
      ensures Current() == if old(open) then old(Current()).Write(r) else old(Current())
      ensures open == old(open) && saved == old(saved)
    {
      if !open { return; }
      match r
      case Raw(sequence, _) =>
        if sequence == lastPacket { return; }
        lastPacket := sequence;
        packets := packets + [r];
      case Drive(_, _) =>
        rows := rows + [r];
      case Block(id, _) =>
        if !firstBlock && id == lastBlock { return; }
        firstBlock := false;
        lastBlock := id;
        blocks := blocks + [r];
    }

    /** `dropped` is the counter value the close reads. */
    method Close(complete: bool, dropped: nat)
      modifies this
      ensures !open && Current() == old(Current())
      ensures saved == old(saved) +
        (if old(open) && complete && dropped == dropsAtStart && rows != [] && packets != [] then [old(Current())] else [])
    {
      if !open { return; }
      var whole := complete && dropped == dropsAtStart && |rows| > 0 && |packets| > 0;
      if whole { saved := saved + [Current()]; }
      open := false;
    }

    /** Any exception while a record is handled. */
    method Fail()
      modifies this`open
      ensures !open
    {
      open := false;
    }

    /** The records of one take, drained without an exception. */
    method Drain(records: seq<Record>)
      requires open && Current() == NewTake(first, dropsAtStart)
      requires forall r <- records :: !r.IsControl()
      modifies this
      ensures open && saved == old(saved) && first == old(first) && dropsAtStart == old(dropsAtStart)
      ensures rows == Drives(records) && packets == FreshPackets(records) && blocks == FreshBlocks(records)
    {
      var i := 0;
      while i < |records|
        invariant 0 <= i <= |records| && open && saved == old(saved)
        invariant Current() == WriteAll(old(Current()), records[..i])
      {
        WriteRecord(records[i]);
        assert records[..i + 1][..i] == records[..i];
        i := i + 1;
      }
      assert records[..i] == records;
      TakeHoldsItsRecords(old(first), old(dropsAtStart), records);
    }
  }
}
