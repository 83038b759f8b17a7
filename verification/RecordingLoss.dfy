/**
  A run that commits a take with a push missing: opening one take throws, so the state is Failed
  while the next take is already queued; its later push is refused uncounted, and rotate, which
  never looks at the state, still finishes it as complete.
 */
module RecordingLoss {
  import opened TakeRecorder
  import opened RecordingProtocol
  import opened RecordingState

  ghost predicate Reachable(s: Machine) {
    exists run :: Possible(Boot(16), run) && After(Boot(16), run) == s
  }

  lemma Reach(s: Machine, a: Action)
    requires Reachable(s) && Enabled(s, a)
    ensures Reachable(Apply(s, a))
  {
    var run :| Possible(Boot(16), run) && After(Boot(16), run) == s;
    assert (run + [a])[..|run + [a]| - 1] == run;
    assert Possible(Boot(16), run + [a]) && After(Boot(16), run + [a]) == Apply(s, a);
  }

  lemma ReachBoot()
    ensures Reachable(Boot(16))
  {
    assert Possible(Boot(16), []) && After(Boot(16), []) == Boot(16);
  }

  lemma ReachProduce(s: Machine)
    requires Reachable(s) && Enabled(s, Produce)
    ensures Reachable(ProducerStep(s))
  {
    hide Reachable, Possible, After;
    Reach(s, Produce);
  }

  /** What queueing one more record makes of `s`. */
  function Queued(s: Machine, r: Record): Machine {
    s.(log := s.log + [r], dropsAt := s.dropsAt + [s.dropped])
  }

  lemma ReachStored(s: Machine, r: Record, next: Call)
    requires Reachable(s) && s.producer == Queuing(r, next)
    requires s.tail <= |s.log| < s.tail + s.capacity - RESERVE
    ensures Reachable(Stored(s.(producer := Storing(r, s.tail, next))))
  {
    hide Reachable, Possible, After;
    ReachProduce(s);
    ReachProduce(s.(producer := Storing(r, s.tail, next)));
  }

  /** A whole call of start(), push() or finish() that the writer does not interrupt. */
  lemma ReachStart(s: Machine)
    requires Reachable(s) && s.producer.Ready? && (s.phase == Idle || s.phase == Closing)
    requires s.tail <= |s.log| < s.tail + s.capacity - RESERVE
    ensures Reachable(Queued(s, Start(s.ticket + 1, s.dropped)).(phase := Opening, wanted := Recording, clean := true, ticket := s.ticket + 1))
  {
    hide Reachable, Possible, After;
    Reach(s, CallStart);
    ReachProduce(s.(producer := Starting(s.phase)));
    var a := s.(phase := Opening, wanted := Recording, clean := true, producer := StartStored(s.phase));
    ReachProduce(a);
    ReachStored(ProducerStep(a), Start(s.ticket + 1, s.dropped), Began(s.phase));
  }

  lemma ReachFinish(s: Machine)
    requires Reachable(s) && s.producer.Ready? && (s.phase == Opening || s.phase == Recording)
    requires s.tail <= |s.log| < s.tail + s.capacity - RESERVE
    ensures Reachable(Queued(s, Finish(s.ticket + 1, true, ByFinish)).(phase := Closing, wanted := Idle, clean := true, ticket := s.ticket + 1))
  {
    hide Reachable, Possible, After;
    Reach(s, CallFinish(true));
    ReachProduce(s.(producer := Finishing(true)));
    var a := s.(phase := Closing, wanted := Idle, clean := true, producer := FinishStored(true));
    ReachProduce(a);
    ReachStored(ProducerStep(a), Finish(s.ticket + 1, true, ByFinish), Finished);
  }

  lemma ReachPush(s: Machine, r: Record)
    requires Reachable(s) && s.producer.Ready? && s.phase == Opening && !r.IsControl()
    requires s.tail <= |s.log| < s.tail + s.capacity - RESERVE
    ensures Reachable(Queued(s, r).(pushes := s.pushes + [PushCall(|s.log|, r, Opening, true, s.dropped)]))
  {
    hide Reachable, Possible, After;
    Reach(s, CallPush(r));
    ReachStored(s.(producer := Queuing(r, Data(Opening))), r, Data(Opening));
  }

  /** rotate() up to its queued Finish, then its Start. */
  lemma ReachRotateEnd(s: Machine)
    requires Reachable(s) && s.producer.Ready?
    requires s.tail <= |s.log| < s.tail + s.capacity - RESERVE
    ensures Reachable(RotateHalfway(s))
  {
    hide Reachable, Possible, After;
    Reach(s, CallRotate);
    var a := Apply(s, CallRotate);
    ReachProduce(a);
    var b := ProducerStep(a);
    ReachStored(b, b.producer.record, b.producer.next);
  }

  function RotateHalfway(s: Machine): Machine {
    Queued(s, Finish(s.ticket + 1, true, ByRotate(s.phase)))
      .(phase := Opening, wanted := Recording, clean := true, ticket := s.ticket + 2,
        producer := Queuing(Start(s.ticket + 2, s.dropped), Rotated))
  }

  lemma ReachRotate(s: Machine)
    requires Reachable(s) && s.producer.Ready?
    requires s.tail <= |s.log| && |s.log| + 1 < s.tail + s.capacity - RESERVE
    ensures Reachable(Queued(RotateHalfway(s), Start(s.ticket + 2, s.dropped)).(producer := Ready))
  {
    hide Reachable, Possible, After;
    ReachRotateEnd(s);
    ReachStored(RotateHalfway(s), Start(s.ticket + 2, s.dropped), Rotated);
  }

  /** Two takes requested back to back. */
  lemma TwoRequests() returns (s: Machine)
    ensures Reachable(s)
    ensures s == Machine(16, [Start(1, 0), Finish(2, true, ByFinish), Start(3, 0)], 0, Opening, 0, 3,
      Ready, Waiting, false, NewTake(0, 0), [], [0, 0, 0], [], Recording, true)
  {
    hide Reachable, Possible, After;
    s := Boot(16);
    ReachBoot();
    ReachStart(s);
    s := Queued(s, Start(1, 0)).(phase := Opening, wanted := Recording, clean := true, ticket := 1);
    ReachFinish(s);
    s := Queued(s, Finish(2, true, ByFinish)).(phase := Closing, wanted := Idle, clean := true, ticket := 2);
    ReachStart(s);
    s := Queued(s, Start(3, 0)).(phase := Opening, wanted := Recording, clean := true, ticket := 3);
  }

  /** The second take gets a packet and a row. */
  lemma TwoTakes() returns (s: Machine)
    ensures Reachable(s)
    ensures s == Machine(16,
      [Start(1, 0), Finish(2, true, ByFinish), Start(3, 0), Raw(1, 0), Drive(0, 0)], 0, Opening, 0, 3,
      Ready, Waiting, false, NewTake(0, 0), [], [0, 0, 0, 0, 0],
      [PushCall(3, Raw(1, 0), Opening, true, 0), PushCall(4, Drive(0, 0), Opening, true, 0)], Recording, true)
  {
    hide Reachable, Possible, After;
    s := TwoRequests();
    ReachPush(s, Raw(1, 0));
    s := Queued(s, Raw(1, 0)).(pushes := s.pushes + [PushCall(3, Raw(1, 0), Opening, true, 0)]);
    ReachPush(s, Drive(0, 0));
    s := Queued(s, Drive(0, 0)).(pushes := s.pushes + [PushCall(4, Drive(0, 0), Opening, true, 0)]);
  }

  /** Opening the first take throws, the second row finds Failed, then an IMU reset rotates. */
  lemma FailThenRotate(s: Machine) returns (t: Machine)
    requires Reachable(s) && s.producer.Ready? && s.worker.Waiting? && s.tail == 0 && 0 < |s.log| == 5 && s.log[0].Start?
    requires s.capacity == 16
    ensures Reachable(t)
    ensures t == Queued(Queued(s, Finish(s.ticket + 1, true, ByRotate(Failed))), Start(s.ticket + 2, s.dropped))
      .(tail := 1, open := false, clean := true, phase := Opening, wanted := Recording, ticket := s.ticket + 2,
        pushes := s.pushes + [PushCall(5, Drive(1, 0), Failed, false, s.dropped)])
  {
    hide Reachable, Possible, After;
    Reach(s, Fetch);
    t := Apply(s, Fetch);
    Reach(t, Throw);
    t := Apply(t, Throw);
    Reach(t, CallPush(Drive(1, 0)));
    t := Apply(t, CallPush(Drive(1, 0)));
    ReachRotate(t);
    t := Queued(Queued(t, Finish(s.ticket + 1, true, ByRotate(Failed))), Start(s.ticket + 2, s.dropped))
      .(phase := Opening, wanted := Recording, clean := true, ticket := s.ticket + 2);
  }

  /** The writer's next record, and its work up to waiting for the one after. */
  lemma DrainOne(s: Machine, steps: nat) returns (t: Machine)
    requires Reachable(s) && s.worker.Waiting? && s.tail < |s.log| && 1 <= steps <= 2
    requires steps == 2 ==> s.log[s.tail].IsControl() && (s.log[s.tail].Finish? ==> !s.open) && Ticket(s.log[s.tail]) != s.ticket
    requires steps == 1 ==> !s.log[s.tail].IsControl()
    ensures Reachable(t)
    ensures t == (if s.log[s.tail].Start? then s.(open := true, take := NewTake(s.tail, s.log[s.tail].dropsAtStart))
                  else if s.log[s.tail].Finish? || !s.open then s
                  else s.(take := s.take.Write(s.log[s.tail]))).(tail := s.tail + 1)
  {
    hide Reachable, Possible, After;
    Reach(s, Fetch);
    t := Apply(s, Fetch);
    Reach(t, Work);
    t := Apply(t, Work);
    if steps == 2 {
      Reach(t, Work);
      t := Apply(t, Work);
    }
  }

  lemma CommittedTakeCanLackARefusedPush() returns (s: Machine)
    ensures Reachable(s) && |s.saved| == 1 && |s.pushes| == 3
    ensures s.saved[0].take.first < s.pushes[2].position <= s.saved[0].last
    ensures !s.pushes[2].accepted && s.pushes[2].record == Drive(1, 0) && s.dropped == 0
  {
    hide Reachable, Possible, After;
    s := TwoTakes();
    s := FailThenRotate(s);
    s := DrainOne(s, 2);
    s := DrainOne(s, 2);
    s := DrainOne(s, 1);
    s := DrainOne(s, 1);
    Reach(s, Fetch);
    s := Apply(s, Fetch);
    Reach(s, Work);
    s := Apply(s, Work);
    Reach(s, Work);
    s := Apply(s, Work);
  }
}
