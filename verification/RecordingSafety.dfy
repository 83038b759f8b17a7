/**
  Safety of the recorder over every interleaving: what a committed take holds, which pushes of its
  interval it can lack, and how full the queue can be when a control record does not fit.
 */
module RecordingSafety {
  import opened TakeRecorder
  import opened RecordingProtocol

  // ---- Ring occupancy ----

  function Controls(rs: seq<Record>): nat {
    if rs == [] then 0 else Controls(rs[..|rs| - 1]) + (if rs[|rs| - 1].IsControl() then 1 else 0)
  }

  lemma {:induction false} ControlsWithoutFirst(rs: seq<Record>)
    requires rs != []
    ensures Controls(rs) == (if rs[0].IsControl() then 1 else 0) + Controls(rs[1..])
  {
    if |rs| > 1 {
      ControlsWithoutFirst(rs[..|rs| - 1]);
      assert rs[..|rs| - 1][1..] == rs[1..][..|rs| - 2];
    } else {
      assert rs[..0] == [] && rs[1..] == [];
    }
  }

  /** Data never takes the reserved slots: occupancy is at most capacity - 4 + queued controls. */
  ghost predicate Roomy(s: Machine) {
    && s.capacity >= 16 && s.tail <= |s.log|
    && |s.log| - s.tail <= s.capacity - RESERVE + Controls(s.log[s.tail..])
    && (s.producer.Storing? ==> s.producer.seenTail <= s.tail)
    && ((s.producer.Queuing? || s.producer.Storing?) ==>
          (s.producer.next.Data? <==> !s.producer.record.IsControl()))
    && ((s.producer.Queuing? || s.producer.Storing?) && s.producer.next.Ended? ==> s.producer.next.begin.IsControl())
  }

  lemma RoomyAfterStored(s: Machine)
    requires Roomy(s) && s.producer.Storing?
    requires |s.log| - s.producer.seenTail < s.capacity - (if s.producer.next.Data? then RESERVE else 0)
    ensures Roomy(Stored(s))
  {
    var t := Stored(s);
    assert t.log[t.tail..][..|s.log| - s.tail] == s.log[s.tail..];
  }

  lemma RoomyAfterProduce(s: Machine)
    requires Roomy(s) && Enabled(s, Produce)
    ensures Roomy(ProducerStep(s))
  {
    hide Controls;
    if s.producer.Storing? {
      if |s.log| - s.producer.seenTail < s.capacity - (if s.producer.next.Data? then RESERVE else 0) {
        RoomyAfterStored(s);
      } else {
        assert NoRoom(s).log == s.log && NoRoom(s).tail == s.tail;
      }
    }
  }

  lemma RoomyAfterWork(s: Machine)
    requires Roomy(s) && Enabled(s, Work)
    ensures Roomy(WorkerStep(s))
  {}

  lemma RoomyAfterFetch(s: Machine)
    requires Roomy(s) && Enabled(s, Fetch)
    ensures Roomy(Apply(s, Fetch))
  {
    ControlsWithoutFirst(s.log[s.tail..]);
    assert s.log[s.tail..][1..] == s.log[s.tail + 1..];
  }

  lemma RoomyKept(s: Machine, a: Action)
    requires Roomy(s) && Enabled(s, a)
    ensures Roomy(Apply(s, a))
  {
    hide Controls;
    match a
    case Fetch => RoomyAfterFetch(s);
    case Work => RoomyAfterWork(s);
    case Produce => RoomyAfterProduce(s);
    case _ =>
  }

  /** A control record fails to fit only behind at least four other control records. */
  lemma ControlRefusedOnlyBehindFourControls(s: Machine)
    requires Roomy(s) && s.producer.Queuing? && s.producer.record.IsControl()
    requires |s.log| - s.tail >= s.capacity
    ensures Controls(s.log[s.tail..]) >= RESERVE
  {}

  // ---- The log and the writer ----

  ghost predicate OnlyData(log: seq<Record>, lo: int, hi: int) {
    forall k | 0 <= k < |log| && lo <= k < hi :: !log[k].IsControl()
  }

  ghost predicate Carries(s: Machine, r: Record) {
    r.Start? ==> r.dropsAtStart == s.dropped
  }

  /** Drop counters are recorded in order, and every Start carries the one at its queueing. */
  ghost predicate LogInv(s: Machine) {
    && s.tail <= |s.log| == |s.dropsAt|
    && (forall i, j | 0 <= i <= j < |s.dropsAt| :: s.dropsAt[i] <= s.dropsAt[j])
    && (forall i | 0 <= i < |s.dropsAt| :: s.dropsAt[i] <= s.dropped)
    && (forall i | 0 <= i < |s.log| && s.log[i].Start? :: s.log[i].dropsAtStart == s.dropsAt[i])
    && ((s.producer.Queuing? || s.producer.Storing?) ==>
          && Carries(s, s.producer.record)
          && (s.producer.next.Ended? ==> Carries(s, s.producer.next.begin) && s.producer.record.Finish?))
  }

  /** Up to where the open take has been written. */
  function Written(s: Machine): int {
    if s.worker.Holding? then s.worker.index
    else if s.worker.Sealing? || s.worker.Sealed? then s.tail - 1
    else s.tail
  }

  /** Take `t` is the Start at t.first and all records up to, not including, position `hi`. */
  ghost predicate WrittenFrom(log: seq<Record>, t: Take, hi: int) {
    && t.first < hi <= |log| && log[t.first].Start? && OnlyData(log, t.first + 1, hi)
    && t == WriteAll(NewTake(t.first, log[t.first].dropsAtStart), log[t.first + 1..hi])
  }

  /** What a committed take is: everything queued between its Start and Finish, nothing dropped. */
  ghost predicate Faithful(log: seq<Record>, dropsAt: seq<nat>, c: SavedTake) {
    && c.take.first < c.last < |log| == |dropsAt|
    && log[c.last].Finish? && log[c.last].complete
    && WrittenFrom(log, c.take, c.last)
    && dropsAt[c.take.first] == dropsAt[c.last]
    && c.take.rows != [] && c.take.packets != []
  }

  ghost predicate WriterInv(s: Machine) {
    && (s.worker.Holding? ==> s.worker.index == s.tail - 1 && 0 < s.tail <= |s.log| && s.worker.record == s.log[s.tail - 1])
    && (s.open ==> WrittenFrom(s.log, s.take, Written(s)))
    && (s.worker.Sealing? ==>
          && s.open && s.worker.index == s.tail - 1 && 0 < s.tail <= |s.log|
          && (s.worker.ok ==> Faithful(s.log, s.dropsAt, SavedTake(s.take, s.tail - 1))))
    && (s.worker.Sealed? ==> s.open && 0 < s.tail)
    && (forall i | 0 <= i < |s.saved| :: Faithful(s.log, s.dropsAt, s.saved[i]))
  }

  lemma LogInvAfterStored(s: Machine)
    requires LogInv(s) && s.producer.Storing?
    ensures LogInv(Stored(s))
  {}

  lemma LogInvAfterNoRoom(s: Machine)
    requires LogInv(s) && s.producer.Storing?
    ensures LogInv(NoRoom(s))
  {}

  lemma LogInvAfterProduce(s: Machine)
    requires LogInv(s) && Enabled(s, Produce)
    ensures LogInv(ProducerStep(s))
  {
    if s.producer.Storing? {
      LogInvAfterStored(s);
      LogInvAfterNoRoom(s);
    }
  }

  lemma LogInvAfterWork(s: Machine)
    requires LogInv(s) && Enabled(s, Work)
    ensures LogInv(WorkerStep(s))
  {
    hide LogInv, WorkerStep;
    WorkerOnlyReads(s);
    LogInvOfTheLog(s, WorkerStep(s));
  }

  lemma WorkerOnlyReads(s: Machine)
    requires Enabled(s, Work)
    ensures var t := WorkerStep(s);
      t.log == s.log && t.tail == s.tail && t.dropsAt == s.dropsAt && t.dropped == s.dropped && t.producer == s.producer
  {}

  lemma LogInvOfTheLog(s: Machine, t: Machine)
    requires LogInv(s)
    requires t.log == s.log && t.tail == s.tail && t.dropsAt == s.dropsAt && t.dropped == s.dropped && t.producer == s.producer
    ensures LogInv(t)
  {}

  lemma LogInvKept(s: Machine, a: Action)
    requires LogInv(s) && Enabled(s, a)
    ensures LogInv(Apply(s, a))
  {
    match a
    case Produce => LogInvAfterProduce(s);
    case Work => LogInvAfterWork(s);
    case _ =>
  }

  /** Queueing more records changes no committed or open take. */
  lemma WrittenFromGrows(log: seq<Record>, r: Record, t: Take, hi: int)
    requires WrittenFrom(log, t, hi)
    ensures WrittenFrom(log + [r], t, hi)
  {
    assert (log + [r])[t.first + 1..hi] == log[t.first + 1..hi];
  }

  lemma WriteOneMore(log: seq<Record>, t: Take, hi: int)
    requires WrittenFrom(log, t, hi) && hi < |log| && !log[hi].IsControl()
    ensures WrittenFrom(log, t.Write(log[hi]), hi + 1)
  {
    var rs := log[t.first + 1..hi + 1];
    assert rs[..|rs| - 1] == log[t.first + 1..hi];
    TakeHoldsItsRecords(t.first, log[t.first].dropsAtStart, rs);
  }

  lemma TakeIsMarkedByItsStart(log: seq<Record>, t: Take, hi: int)
    requires WrittenFrom(log, t, hi)
    ensures t.dropsAtStart == log[t.first].dropsAtStart
  {
    TakeHoldsItsRecords(t.first, log[t.first].dropsAtStart, log[t.first + 1..hi]);
  }

  /** A producer step appends at most one record and leaves the writer's fields alone. */
  lemma ProducerOnlyAppends(s: Machine)
    requires Enabled(s, Produce)
    ensures var t := ProducerStep(s);
      && ((t.log == s.log && t.dropsAt == s.dropsAt)
          || (s.producer.Storing? && t.log == s.log + [s.producer.record] && t.dropsAt == s.dropsAt + [s.dropped]))
      && t.tail == s.tail && t.worker == s.worker && t.open == s.open && t.take == s.take && t.saved == s.saved
  {}

  lemma WriterInvAfterProduce(s: Machine)
    requires LogInv(s) && WriterInv(s) && Enabled(s, Produce)
    ensures WriterInv(ProducerStep(s))
  {
    var t := ProducerStep(s);
    ProducerOnlyAppends(s);
    if t.log != s.log {
      var r := s.producer.record;
      if s.open { WrittenFromGrows(s.log, r, s.take, Written(s)); }
      forall i | 0 <= i < |s.saved| ensures Faithful(t.log, t.dropsAt, t.saved[i]) {
        WrittenFromGrows(s.log, r, s.saved[i].take, s.saved[i].last);
      }
    }
  }

  /** A Finish that may be sealed ends a take with nothing dropped since its Start. */
  lemma SealableIsFaithful(s: Machine)
    requires LogInv(s) && WriterInv(s) && s.open && s.worker.Holding? && s.worker.record.Finish?
    requires s.take.Sealable(s.worker.record.complete, s.dropped)
    ensures Faithful(s.log, s.dropsAt, SavedTake(s.take, s.worker.index))
  {
    TakeIsMarkedByItsStart(s.log, s.take, s.worker.index);
  }

  lemma WriterInvAfterRecord(s: Machine)
    requires LogInv(s) && WriterInv(s) && s.worker.Holding?
    ensures WriterInv(WorkerStep(s))
  {
    hide LogInv, Faithful;
    var r, index := s.worker.record, s.worker.index;
    if r.Start? {
      assert s.log[index + 1..s.tail] == [];
    } else if r.Finish? {
      if s.open && s.take.Sealable(r.complete, s.dropped) { SealableIsFaithful(s); }
    } else if s.open {
      WriteOneMore(s.log, s.take, index);
    }
  }

  lemma WriterInvAfterWork(s: Machine)
    requires LogInv(s) && WriterInv(s) && Enabled(s, Work)
    ensures WriterInv(WorkerStep(s))
  {
    hide LogInv, Faithful, WrittenFrom;
    if s.worker.Holding? { WriterInvAfterRecord(s); }
  }

  lemma WriterInvKept(s: Machine, a: Action)
    requires LogInv(s) && WriterInv(s) && Enabled(s, a)
    ensures WriterInv(Apply(s, a))
  {
    hide Faithful, WrittenFrom, LogInv;
    match a
    case Produce => WriterInvAfterProduce(s);
    case Work => WriterInvAfterWork(s);
    case _ =>
  }
}
