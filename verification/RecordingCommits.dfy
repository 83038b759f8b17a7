/**
  Which takes are committed, said in terms of the queue: in every run a take that the disk thread
  opened is saved when its Finish is handled without an exception, exactly if the Finish asks for it,
  nothing was dropped since its Start, and a drive row and a packet with a sequence were queued between.
 */
module RecordingCommits {
  import opened TakeRecorder
  import opened RecordingProtocol
  import opened RecordingSafety
  import RecordingTheorems

  ghost predicate HasDrive(rs: seq<Record>) { exists k :: 0 <= k < |rs| && rs[k].Drive? }

  ghost predicate HasPacket(rs: seq<Record>) { exists k :: 0 <= k < |rs| && rs[k].Raw? && rs[k].sequence != 0 }

  /** The Finish at `last` may commit the take that began at `first`. */
  ghost predicate Committable(s: Machine, first: nat, last: nat)
    requires first < last < |s.log| == |s.dropsAt|
  {
    && s.log[last].Finish? && s.log[last].complete && s.dropped == s.dropsAt[first]
    && HasDrive(s.log[first + 1..last]) && HasPacket(s.log[first + 1..last])
  }

  lemma {:induction false} DrivesIff(rs: seq<Record>)
    ensures Drives(rs) != [] <==> HasDrive(rs)
  {
    if rs != [] {
      var before, last := rs[..|rs| - 1], rs[|rs| - 1];
      DrivesIff(before);
      if HasDrive(before) {
        var k :| 0 <= k < |before| && before[k].Drive?;
        assert rs[k].Drive?;
      }
      if HasDrive(rs) && !last.Drive? {
        var k :| 0 <= k < |rs| && rs[k].Drive?;
        assert before[k].Drive?;
      }
      if last.Drive? { assert rs[|rs| - 1].Drive?; }
    }
  }

  lemma {:induction false} PacketsIff(rs: seq<Record>)
    ensures FreshPackets(rs) != [] <==> HasPacket(rs)
    ensures FreshPackets(rs) == [] ==> LastSequence(rs) == 0
  {
    hide Drives, Raws, FreshPackets, LastSequence;
    if rs == [] {
      NoPackets();
    } else {
      var before, last := rs[..|rs| - 1], rs[|rs| - 1];
      PacketsIff(before);
      OneMoreDriveOrPacket(rs);
      if HasPacket(before) {
        var k :| 0 <= k < |before| && before[k].Raw? && before[k].sequence != 0;
        assert rs[k].Raw? && rs[k].sequence != 0;
      }
      if HasPacket(rs) && !(last.Raw? && last.sequence != 0) {
        var k :| 0 <= k < |rs| && rs[k].Raw? && rs[k].sequence != 0;
        assert before[k].Raw? && before[k].sequence != 0;
      }
      if last.Raw? && last.sequence != 0 { assert rs[|rs| - 1].Raw? && rs[|rs| - 1].sequence != 0; }
    }
  }

  lemma NoPackets()
    ensures FreshPackets([]) == [] && LastSequence([]) == 0
  {}

  /** The take at the moment its Finish is taken out holds the records between, and may be sealed exactly then. */
  lemma SealableIff(s: Machine)
    requires RecordingTheorems.Inv(s) && s.open && s.worker.Holding? && s.worker.record.Finish?
    ensures s.take.first < s.worker.index < |s.log| == |s.dropsAt|
    ensures s.take.Sealable(s.worker.record.complete, s.dropped) <==> Committable(s, s.take.first, s.worker.index)
    ensures s.log[s.take.first].Start? && OnlyData(s.log, s.take.first + 1, s.worker.index)
    ensures HoldsRecords(s.take, s.log[s.take.first + 1..s.worker.index])
  {
    OpenTakeIsWritten(s);
    hide RecordingTheorems.Inv;
    var first, last := s.take.first, s.worker.index;
    var q := s.log[first + 1..last];
    TakeHoldsItsRecords(first, s.log[first].dropsAtStart, q);
    DrivesIff(q);
    PacketsIff(q);
  }

  /** Rows, packets and blocks of the records, with the two suppressions. */
  ghost predicate HoldsRecords(t: Take, rs: seq<Record>) {
    t.rows == Drives(rs) && t.packets == FreshPackets(rs) && t.blocks == FreshBlocks(rs)
  }

  lemma OpenTakeIsWritten(s: Machine)
    requires RecordingTheorems.Inv(s) && s.open && s.worker.Holding?
    ensures s.worker.index < |s.log| == |s.dropsAt| && s.worker.record == s.log[s.worker.index]
    ensures WrittenFrom(s.log, s.take, s.worker.index) && s.log[s.take.first].dropsAtStart == s.dropsAt[s.take.first]
  {}

  // ---- What is queued at all ----

  /**
    A record that the producer is about to store is queued exactly if, counting from the tail it read,
    fewer records than the ring holds are queued, data leaving four slots free; and only a data record
    that is not queued counts as dropped among pushes.
   */
  lemma QueuedIffRoom(s: Machine)
    requires Roomy(s) && s.producer.Storing?
    ensures var t := Apply(s, Produce);
      var limit := if s.producer.record.IsControl() then s.capacity else s.capacity - 4;
      && (t.log == s.log + [s.producer.record] <==> |s.log| - s.producer.seenTail < limit)
      && (t.log == s.log <==> |s.log| - s.producer.seenTail >= limit)
      && (t.log == s.log + [s.producer.record] ==> t.dropped == s.dropped)
      && (t.log == s.log && !s.producer.record.IsControl() ==> t.dropped == s.dropped + 1)
  {
    assert |s.log + [s.producer.record]| == |s.log| + 1;
  }

  // ---- The two steps of the disk thread ----

  /** Actions of the other thread. */
  predicate ByProducer(a: Action) { a.CallPush? || a.CallStart? || a.CallRotate? || a.CallFinish? || a == Produce }

  ghost predicate OnlyProducer(run: seq<Action>) { forall a <- run :: ByProducer(a) }

  lemma ProducerLeavesTheTake(s: Machine, a: Action)
    requires Enabled(s, a) && ByProducer(a)
    ensures var t := Apply(s, a);
      t.worker == s.worker && t.open == s.open && t.take == s.take && t.saved == s.saved
  {
    hide ProducerStep;
    if a == Produce { ProducerOnlyAppends(s); }
  }

  lemma {:induction false} ProducersLeaveTheTake(s: Machine, run: seq<Action>)
    requires Possible(s, run) && OnlyProducer(run)
    ensures var t := After(s, run);
      t.worker == s.worker && t.open == s.open && t.take == s.take && t.saved == s.saved
    decreases |run|
  {
    hide Apply, Enabled;
    if run != [] {
      var before, a := run[..|run| - 1], run[|run| - 1];
      assert a in run;
      ProducersLeaveTheTake(s, before);
      assert Enabled(After(s, before), a);
      ProducerLeavesTheTake(After(s, before), a);
    }
  }

  /** What handling the Finish adds to the committed takes. */
  function Added(s: Machine, commit: bool): seq<SavedTake>
    requires s.worker.Holding?
  {
    if commit then [SavedTake(s.take, s.worker.index)] else []
  }

  /**
    With a take open and its Finish taken out, the two steps that handle it, whatever the producer does
    in between, save exactly this take if it is committable, and nothing otherwise.
   */
  lemma FinishCommitsIff(s: Machine, run: seq<Action>)
    requires RecordingTheorems.Inv(s) && s.open && s.worker.Holding? && s.worker.record.Finish?
    requires Possible(Apply(s, Work), run) && OnlyProducer(run)
    ensures s.take.first < s.worker.index < |s.log| == |s.dropsAt|
    ensures var u := After(Apply(s, Work), run);
      && Enabled(u, Work) && Apply(u, Work).worker.Sealed?
      && Apply(u, Work).saved == s.saved + Added(s, Committable(s, s.take.first, s.worker.index))
  {
    SealableIff(s);
    hide RecordingTheorems.Inv, Committable;
    FinishIsSealing(s);
    ProducersLeaveTheTake(Apply(s, Work), run);
    SealingSaves(After(Apply(s, Work), run));
  }

  lemma FinishIsSealing(s: Machine)
    requires s.open && s.worker.Holding? && s.worker.record.Finish?
    ensures Enabled(s, Work)
    ensures Apply(s, Work) == s.(worker := Sealing(s.worker.record.ticket, s.worker.index, s.take.Sealable(s.worker.record.complete, s.dropped)))
  {}

  lemma SealingSaves(u: Machine)
    requires u.worker.Sealing?
    ensures Enabled(u, Work) && Apply(u, Work).worker.Sealed?
    ensures Apply(u, Work).saved == u.saved + if u.worker.ok then [SavedTake(u.take, u.worker.index)] else []
  {}

  // ---- From the Start on ----

  /** The take of the Start at `first` is open. */
  ghost predicate OpenSince(s: Machine, first: nat) { s.worker.Exited? || (s.open && s.take.first == first) }

  /** The disk thread has not gone past `last`. */
  predicate UpTo(s: Machine, last: nat) { s.tail <= last || (s.tail == last + 1 && s.worker.Holding?) }

  /** The disk thread is handling a control record behind `first`, or sealing. */
  predicate Busy(s: Machine, first: nat) { s.worker.Sealing? || s.worker.Sealed? || (s.worker.Holding? && s.worker.index <= first) }

  lemma HeldIsQueued(s: Machine)
    requires RecordingTheorems.Inv(s)
    ensures s.tail <= |s.log|
    ensures s.worker.Holding? ==> s.worker.index == s.tail - 1 && 0 < s.tail && s.worker.record == s.log[s.tail - 1]
  {}

  lemma DataInFront(log: seq<Record>, more: seq<Record>, lo: int, hi: int)
    requires log <= more && OnlyData(more, lo, hi)
    ensures OnlyData(log, lo, hi)
  {
    forall k | 0 <= k < |log| && lo <= k < hi ensures !log[k].IsControl() { assert log[k] == more[k]; }
  }

  lemma LogGrows(s: Machine, a: Action)
    requires Enabled(s, a)
    ensures s.log <= Apply(s, a).log
  {
    if a == Produce { ProducerOnlyAppends(s); }
  }

  lemma UpToBefore(s: Machine, a: Action, last: nat)
    requires Enabled(s, a) && UpTo(Apply(s, a), last)
    ensures UpTo(s, last)
  {
    if ByProducer(a) { ProducerLeavesTheTail(s, a); }
  }

  lemma ProducerLeavesTheTail(s: Machine, a: Action)
    requires Enabled(s, a) && ByProducer(a)
    ensures Apply(s, a).tail == s.tail && Apply(s, a).worker == s.worker
  {
    ProducerLeavesTheTake(s, a);
  }

  /** The disk thread handling a data record, or a start behind it. */
  lemma WorkLeavesOpen(s: Machine, first: nat, last: nat)
    requires Enabled(s, Work) && OpenSince(s, first) && !Busy(s, first)
    requires s.worker.Holding? ==> !s.worker.record.IsControl()
    ensures OpenSince(Apply(s, Work), first) && !Busy(Apply(s, Work), first)
  {}

  /** Up to the next control record, and without an exception, an open take stays open. */
  lemma StaysOpen(s: Machine, a: Action, first: nat, last: nat)
    requires RecordingTheorems.Inv(s) && Enabled(s, a) && a != Throw
    requires OnlyData(s.log, first + 1, last) && first < s.tail && UpTo(Apply(s, a), last)
    requires OpenSince(s, first) && !Busy(s, first)
    ensures OpenSince(Apply(s, a), first) && !Busy(Apply(s, a), first)
  {
    HeldIsQueued(s);
    hide RecordingTheorems.Inv, ProducerStep, WorkerStep;
    if ByProducer(a) {
      ProducerLeavesTheTake(s, a);
    } else if a == Work {
      WorkStopsHolding(s);
      WorkLeavesOpen(s, first, last);
    }
  }

  lemma WorkStopsHolding(s: Machine)
    requires Enabled(s, Work)
    ensures !Apply(s, Work).worker.Holding? && Apply(s, Work).tail == s.tail
  {}

  lemma {:induction false} StaysOpenOverRuns(s: Machine, run: seq<Action>, first: nat, last: nat)
    requires RecordingTheorems.Inv(s) && Possible(s, run) && Throw !in run
    requires OpenSince(s, first) && !Busy(s, first) && first < s.tail
    requires OnlyData(After(s, run).log, first + 1, last) && UpTo(After(s, run), last)
    ensures OpenSince(After(s, run), first) && !Busy(After(s, run), first)
    decreases |run|
  {
    hide RecordingTheorems.Inv, Apply, Enabled, OpenSince, UpTo, Busy, OnlyData;
    if run != [] {
      var before, a := run[..|run| - 1], run[|run| - 1];
      assert a in run;
      var t := After(s, before);
      InvAfter(s, before);
      TailGrows(s, before);
      LogGrows(t, a);
      DataInFront(t.log, After(s, run).log, first + 1, last);
      UpToBefore(t, a, last);
      StaysOpenOverRuns(s, before, first, last);
      StaysOpen(t, a, first, last);
    }
  }

  lemma {:induction false} InvAfter(s: Machine, run: seq<Action>)
    requires RecordingTheorems.Inv(s) && Possible(s, run)
    ensures RecordingTheorems.Inv(After(s, run))
    decreases |run|
  {
    hide RecordingTheorems.Inv, Apply, Enabled;
    if run != [] {
      InvAfter(s, run[..|run| - 1]);
      RecordingTheorems.InvKept(After(s, run[..|run| - 1]), run[|run| - 1]);
    }
  }

  lemma {:induction false} TailGrows(s: Machine, run: seq<Action>)
    requires Possible(s, run)
    ensures s.tail <= After(s, run).tail
    decreases |run|
  {
    hide Apply, Enabled;
    if run != [] {
      TailGrows(s, run[..|run| - 1]);
      TailNeverFalls(After(s, run[..|run| - 1]), run[|run| - 1]);
    }
  }

  lemma TailNeverFalls(s: Machine, a: Action)
    requires Enabled(s, a)
    ensures s.tail <= Apply(s, a).tail
  {}

  /** Handling a Start opens its take. */
  lemma StartOpens(s: Machine)
    requires RecordingTheorems.Inv(s) && s.worker.Holding? && s.worker.record.Start?
    ensures var t := Apply(s, Work);
      && RecordingTheorems.Inv(t) && OpenSince(t, s.worker.index) && t.open && !Busy(t, s.worker.index) && s.worker.index < t.tail
      && t.saved == s.saved
  {
    HeldIsQueued(s);
    RecordingTheorems.InvKept(s, Work);
    hide RecordingTheorems.Inv;
  }

  /** At `t` the take of the Start at `first` is open and its Finish taken out; at `u` both steps but the last are done. */
  ghost predicate CommitsIff(t: Machine, first: nat, u: Machine)
    requires t.worker.Holding?
  {
    && t.open && t.take.first == first < t.worker.index < |t.log| == |t.dropsAt|
    && HoldsRecords(t.take, t.log[first + 1..t.worker.index])
    && Enabled(u, Work)
    && Apply(u, Work).saved == t.saved + Added(t, Committable(t, first, t.worker.index))
  }

  lemma FromItsStart(s: Machine, taking: seq<Action>, sealing: seq<Action>)
    requires RecordingTheorems.Inv(s) && s.worker.Holding? && s.worker.record.Start?
    requires Possible(Apply(s, Work), taking) && Throw !in taking
    requires var t := After(Apply(s, Work), taking);
      && t.worker.Holding? && t.worker.record.Finish? && OnlyData(t.log, s.worker.index + 1, t.worker.index)
      && Possible(Apply(t, Work), sealing) && OnlyProducer(sealing)
    ensures var t := After(Apply(s, Work), taking);
      CommitsIff(t, s.worker.index, After(Apply(t, Work), sealing))
  {
    hide RecordingTheorems.Inv, Apply, Committable, OnlyData, Possible, After, HoldsRecords, Added;
    OpenAtItsFinish(s, taking);
    var t := After(Apply(s, Work), taking);
    SealableIff(t);
    FinishCommitsIff(t, sealing);
  }

  lemma OpenAtItsFinish(s: Machine, taking: seq<Action>)
    requires RecordingTheorems.Inv(s) && s.worker.Holding? && s.worker.record.Start?
    requires Possible(Apply(s, Work), taking) && Throw !in taking
    requires var t := After(Apply(s, Work), taking);
      t.worker.Holding? && OnlyData(t.log, s.worker.index + 1, t.worker.index)
    ensures var t := After(Apply(s, Work), taking);
      RecordingTheorems.Inv(t) && t.open && t.take.first == s.worker.index
  {
    hide RecordingTheorems.Inv, Apply, OnlyData, Possible, After;
    StartOpens(s);
    var t := After(Apply(s, Work), taking);
    InvAfter(Apply(s, Work), taking);
    HeldIsQueued(t);
    StaysOpenOverRuns(Apply(s, Work), taking, s.worker.index, t.worker.index);
  }

  /**
    In every run: from the step that handles a Start, over any run without an exception, to the moment
    the next control record, a Finish, is taken out, and on through the two steps that handle it. Exactly
    this take is saved if it is committable, and nothing otherwise.
   */
  lemma GoodTakeIsCommitted(capacity: nat, earlier: seq<Action>, taking: seq<Action>, sealing: seq<Action>)
    requires capacity >= 16 && Possible(Boot(capacity), earlier)
    requires After(Boot(capacity), earlier).worker.Holding? && After(Boot(capacity), earlier).worker.record.Start?
    requires Possible(Apply(After(Boot(capacity), earlier), Work), taking) && Throw !in taking
    requires var s := After(Boot(capacity), earlier);
      var t := After(Apply(s, Work), taking);
      && t.worker.Holding? && t.worker.record.Finish? && OnlyData(t.log, s.worker.index + 1, t.worker.index)
      && Possible(Apply(t, Work), sealing) && OnlyProducer(sealing)
    ensures var s := After(Boot(capacity), earlier);
      var t := After(Apply(s, Work), taking);
      CommitsIff(t, s.worker.index, After(Apply(t, Work), sealing))
  {
    hide RecordingTheorems.Inv, CommitsIff, Apply, OnlyData;
    RecordingTheorems.InvOverRuns(capacity, earlier);
    FromItsStart(After(Boot(capacity), earlier), taking, sealing);
  }
}
