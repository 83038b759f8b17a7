/** The results about the recorder, for every run of its two threads. */
module RecordingTheorems {
  import opened TakeRecorder
  import opened RecordingProtocol
  import opened RecordingSafety
  import opened RecordingPushes
  import opened RecordingState

  ghost predicate Inv(s: Machine) {
    && Roomy(s) && LogInv(s) && WriterInv(s)
    && CallsInv(s) && DropsInv(s) && SwapsInv(s) && RefusalsInv(s)
    && TicketInv(s) && PhaseInv(s)
  }

  lemma InvKept(s: Machine, a: Action)
    requires Inv(s) && Enabled(s, a)
    ensures Inv(Apply(s, a))
  {
    RoomyKept(s, a);
    LogInvKept(s, a);
    WriterInvKept(s, a);
    CallsInvKept(s, a);
    DropsInvKept(s, a);
    SwapsInvKept(s, a);
    RefusalsInvKept(s, a);
    RequestInvKept(s, a);
    TicketsInvKept(s, a);
    BusyInvKept(s, a);
    PhaseInvKept(s, a);
  }

  /** Every interleaving, exceptions included, keeps the invariant. */
  lemma {:induction false} InvOverRuns(capacity: nat, run: seq<Action>)
    requires capacity >= 16 && Possible(Boot(capacity), run)
    ensures Inv(After(Boot(capacity), run))
    decreases |run|
  {
    if run != [] {
      InvOverRuns(capacity, run[..|run| - 1]);
      InvKept(After(Boot(capacity), run[..|run| - 1]), run[|run| - 1]);
    }
  }

  /** Committed take `c` is everything queued between its Start and its Finish, in order. */
  ghost predicate HoldsItsInterval(s: Machine, c: SavedTake) {
    && c.take.first < c.last < |s.log|
    && s.log[c.take.first].Start? && s.log[c.last].Finish? && s.log[c.last].complete
    && OnlyData(s.log, c.take.first + 1, c.last)
    && (var queued := s.log[c.take.first + 1..c.last];
        && c.take.rows == Drives(queued) != []
        && c.take.packets == FreshPackets(queued) != []
        && c.take.blocks == FreshBlocks(queued))
    && (forall k | c.take.first < k < c.last :: Accounted(s.pushes, k))
  }

  /**
    Push call `p`, if made in the interval of `c`, is in the take exactly when it did not find the
    state Failed; and only a rotate called in Failed can commit a take that lacks one.
   */
  ghost predicate InTakeUnlessFailed(s: Machine, c: SavedTake, p: PushCall) {
    c.take.first < p.position <= c.last < |s.log| ==>
      && (p.accepted <==> p.seen != Failed)
      && (p.accepted ==> p.position < c.last && s.log[p.position] == p.record)
      && (!p.accepted ==> s.log[c.last].Finish? && s.log[c.last].origin == ByRotate(Failed))
  }

  lemma CommittedTakeIsLossless(capacity: nat, run: seq<Action>, n: nat)
    requires capacity >= 16 && Possible(Boot(capacity), run)
    requires n < |After(Boot(capacity), run).saved|
    ensures var s := After(Boot(capacity), run);
      && HoldsItsInterval(s, s.saved[n])
      && forall p <- s.pushes :: InTakeUnlessFailed(s, s.saved[n], p)
  {
    InvOverRuns(capacity, run);
    var s := After(Boot(capacity), run);
    TakeIsItsInterval(s, n);
    forall p <- s.pushes ensures InTakeUnlessFailed(s, s.saved[n], p) {
      if s.saved[n].take.first < p.position <= s.saved[n].last { CallInTake(s, n, p); }
    }
  }

  lemma SavedIsFaithful(s: Machine, n: nat)
    requires Inv(s) && n < |s.saved|
    ensures Faithful(s.log, s.dropsAt, s.saved[n])
    ensures forall k | s.saved[n].take.first < k < s.saved[n].last :: Accounted(s.pushes, k)
  {
    hide RefusalsInv, SwapsInv, DropsInv, TicketInv, PhaseInv, Roomy, LogInv, WriteAll, Accounted;
  }

  lemma TakeIsItsInterval(s: Machine, n: nat)
    requires Inv(s) && n < |s.saved|
    ensures HoldsItsInterval(s, s.saved[n])
  {
    hide Inv, WriteAll, Accounted;
    SavedIsFaithful(s, n);
    var first, last := s.saved[n].take.first, s.saved[n].last;
    TakeHoldsItsRecords(first, s.log[first].dropsAtStart, s.log[first + 1..last]);
  }

  lemma CallInTake(s: Machine, n: nat, c: PushCall)
    requires Inv(s) && n < |s.saved| && c in s.pushes
    requires s.saved[n].take.first < c.position <= s.saved[n].last
    ensures Faithful(s.log, s.dropsAt, s.saved[n])
    ensures c.accepted <==> c.seen != Failed
    ensures c.accepted ==> c.position < s.saved[n].last && s.log[c.position] == c.record
    ensures !c.accepted ==> s.log[s.saved[n].last].origin == ByRotate(Failed)
  {
    var first, last := s.saved[n].take.first, s.saved[n].last;
    var i :| 0 <= i < |s.pushes| && s.pushes[i] == c;
    assert Faithful(s.log, s.dropsAt, s.saved[n]);
    assert CallOk(s.log, c) && DropSeen(s.dropsAt, s.dropped, c);
    assert Interval(s, first, last) && RefusalExplained(s, first, last, s.pushes[i]);
  }

  /** So a caller that never rotates in Failed never commits a take with a missing push. */
  lemma NoRotateInFailedNoLoss(capacity: nat, run: seq<Action>, n: nat, i: nat)
    requires capacity >= 16 && Possible(Boot(capacity), run)
    requires forall k | 0 <= k < |run| && run[k] == CallRotate ::
               Possible(Boot(capacity), run[..k]) && After(Boot(capacity), run[..k]).phase != Failed
    requires n < |After(Boot(capacity), run).saved| && i < |After(Boot(capacity), run).pushes|
    ensures var s := After(Boot(capacity), run);
      s.saved[n].take.first < s.pushes[i].position <= s.saved[n].last ==> s.pushes[i].accepted
  {
    var s := After(Boot(capacity), run);
    CommittedTakeIsLossless(capacity, run, n);
    RotatesSawTheirState(capacity, run);
    assert InTakeUnlessFailed(s, s.saved[n], s.pushes[i]);
  }

  ghost predicate NoFailedRotate(s: Machine) {
    && (forall r <- s.log :: r.Finish? ==> r.origin != ByRotate(Failed))
    && (s.producer.Rotating? ==> s.producer.stateAtCall != Failed)
    && (s.producer.Queuing? || s.producer.Storing? ==>
          s.producer.record.Finish? ==> s.producer.record.origin != ByRotate(Failed))
    && ((s.producer.Queuing? || s.producer.Storing?) && s.producer.next.Ended? ==> !s.producer.next.begin.Finish?)
  }

  lemma NoFailedRotateKept(s: Machine, a: Action)
    requires NoFailedRotate(s) && Enabled(s, a) && (a == CallRotate ==> s.phase != Failed)
    ensures NoFailedRotate(Apply(s, a))
  {
    match a
    case Produce => NoFailedRotateAfterProduce(s);
    case Work => assert WorkerStep(s).log == s.log && WorkerStep(s).producer == s.producer;
    case _ =>
  }

  lemma NoFailedRotateAfterProduce(s: Machine)
    requires NoFailedRotate(s) && Enabled(s, Produce)
    ensures NoFailedRotate(ProducerStep(s))
  {}

  lemma {:induction false} RotatesSawTheirState(capacity: nat, run: seq<Action>)
    requires Possible(Boot(capacity), run)
    requires forall k | 0 <= k < |run| && run[k] == CallRotate ::
               Possible(Boot(capacity), run[..k]) && After(Boot(capacity), run[..k]).phase != Failed
    ensures NoFailedRotate(After(Boot(capacity), run))
    decreases |run|
  {
    if run != [] {
      var before := run[..|run| - 1];
      forall k | 0 <= k < |before| && before[k] == CallRotate
        ensures Possible(Boot(capacity), before[..k]) && After(Boot(capacity), before[..k]).phase != Failed
      { assert before[..k] == run[..k] && run[k] == CallRotate; }
      RotatesSawTheirState(capacity, before);
      NoFailedRotateKept(After(Boot(capacity), before), run[|run| - 1]);
    }
  }

  /** A control record is refused only behind four other control records still queued. */
  lemma ControlPushesFit(capacity: nat, run: seq<Action>)
    requires capacity >= 16 && Possible(Boot(capacity), run)
    requires var s := After(Boot(capacity), run); s.producer.Queuing? && s.producer.record.IsControl()
    ensures var s := After(Boot(capacity), run);
      |s.log| - s.tail >= s.capacity ==> Controls(s.log[s.tail..]) >= RESERVE
  {
    InvOverRuns(capacity, run);
    var s := After(Boot(capacity), run);
    if |s.log| - s.tail >= s.capacity { ControlRefusedOnlyBehindFourControls(s); }
  }

  /**
    When both threads are idle and, since the last request stored its state, none failed and nothing
    threw, the state is what that request asked for: whatever was still in flight when it was made, and
    whatever failed or threw before.
   */
  lemma QuietStateIsTheLastRequest(capacity: nat, run: seq<Action>)
    requires capacity >= 16 && Possible(Boot(capacity), run)
    requires var s := After(Boot(capacity), run);
      s.clean && s.producer.Ready? && s.worker.Waiting? && s.tail == |s.log|
    ensures After(Boot(capacity), run).phase == After(Boot(capacity), run).wanted
  {
    InvOverRuns(capacity, run);
  }
}
