/**
  The two threads of the recorder as one machine. Every action is one atomic load, store or
  compare-and-swap of a variable both threads can see, together with the private work before it.
  The machine keeps as history what no code stores: every record ever queued, the drop counter at
  each queueing, and every push call with the state it read.
 */
module RecordingProtocol {
  import opened TakeRecorder

  const RESERVE := 4

  /** What the producer does once its record is queued, or found not to fit. */
  datatype Call =
    | Data(seen: Phase)
    | Began(before: Phase)
    | Ended(begin: Record)
    | Rotated
    | Finished

  datatype Producer =
    | Ready
    | Starting(before: Phase)
    | StartStored(before: Phase)
    | Finishing(complete: bool)
    | FinishStored(complete: bool)
    | Rotating(ticket: nat, stateAtCall: Phase)
    | Queuing(record: Record, next: Call)
    | Storing(record: Record, seenTail: nat, next: Call)
    | Abandoning

  datatype Worker =
    | Waiting
    | Holding(record: Record, index: nat)
    | Sealing(ticket: nat, index: nat, ok: bool)
    | Sealed(ticket: nat)
    | Announcing(ticket: nat, from: Phase, to: Phase)
    | Swapping(ticket: nat, from: Phase, to: Phase)
    | Exited

  /** One finished push call; `position` is the queue length it found, `drops` the counter after it. */
  datatype PushCall = PushCall(position: nat, record: Record, seen: Phase, accepted: bool, drops: nat)
  {
    predicate StateRefused() { !accepted && seen != Recording && seen != Opening }
    predicate QueueRefused() { !accepted && (seen == Recording || seen == Opening) }
  }

  datatype SavedTake = SavedTake(take: Take, last: nat)

  /**
    `wanted` is the state the last start, rotate or finish asked for, and `clean` says that since it stored
    that state no control record was refused and nothing threw.
   */
  datatype Machine = Machine(
    capacity: nat,
    log: seq<Record>, tail: nat, phase: Phase, dropped: nat, ticket: nat,
    producer: Producer,
    worker: Worker, open: bool, take: Take, saved: seq<SavedTake>,
    dropsAt: seq<nat>, pushes: seq<PushCall>, wanted: Phase, clean: bool)

  function Boot(capacity: nat): Machine {
    Machine(capacity, [], 0, Idle, 0, 0, Ready, Waiting, false, NewTake(0, 0), [], [], [], Idle, true)
  }

  datatype Action =
    | CallPush(record: Record) | CallStart | CallRotate | CallFinish(complete: bool)
    | Produce | Fetch | Work | Throw | Exit

  predicate Enabled(s: Machine, a: Action) {
    match a
    case CallPush(r) => s.producer.Ready? && !r.IsControl()
    case CallStart => s.producer.Ready?
    case CallRotate => s.producer.Ready?
    case CallFinish(_) => s.producer.Ready?
    case Produce => !s.producer.Ready?
    case Fetch => s.worker.Waiting? && s.tail < |s.log|
    case Work => !s.worker.Waiting? && !s.worker.Exited?
    case Throw => (s.worker.Holding? && (s.open || s.worker.record.Start?)) || s.worker.Sealing? || s.worker.Sealed?
    case Exit => s.worker.Waiting? && s.tail == |s.log| && s.producer.Ready?
  }

  function Apply(s: Machine, a: Action): Machine
    requires Enabled(s, a)
  {
    match a
    case CallPush(r) =>
      if s.phase == Recording || s.phase == Opening then s.(producer := Queuing(r, Data(s.phase)))
      else s.(pushes := s.pushes + [PushCall(|s.log|, r, s.phase, false, s.dropped)])
    case CallStart =>
      if s.phase == Idle || s.phase == Failed || s.phase == Closing then s.(producer := Starting(s.phase)) else s
    case CallRotate => s.(ticket := s.ticket + 2, producer := Rotating(s.ticket + 1, s.phase))
    case CallFinish(complete) =>
      if s.phase == Recording || s.phase == Opening then s.(producer := Finishing(complete)) else s
    case Produce => ProducerStep(s)
    case Fetch => s.(worker := Holding(s.log[s.tail], s.tail), tail := s.tail + 1)
    case Work => WorkerStep(s)
    case Throw => s.(worker := Waiting, open := false, phase := Failed, clean := false)
    case Exit => s.(worker := Exited, open := false)
  }

  function ProducerStep(s: Machine): Machine
    requires !s.producer.Ready?
  {
    match s.producer
    case Starting(before) => s.(phase := Opening, wanted := Recording, clean := true, producer := StartStored(before))
    case StartStored(before) =>
      s.(ticket := s.ticket + 1, producer := Queuing(Start(s.ticket + 1, s.dropped), Began(before)))
    case Finishing(complete) => s.(phase := Closing, wanted := Idle, clean := true, producer := FinishStored(complete))
    case FinishStored(complete) =>
      s.(ticket := s.ticket + 1, producer := Queuing(Finish(s.ticket + 1, complete, ByFinish), Finished))
    case Rotating(ticket, at) =>
      s.(phase := Opening, wanted := Recording, clean := true,
         producer := Queuing(Finish(ticket, true, ByRotate(at)), Ended(Start(ticket + 1, s.dropped))))
    case Queuing(r, next) => s.(producer := Storing(r, s.tail, next))
    case Storing(r, seen, next) =>
      if |s.log| - seen >= s.capacity - (if next.Data? then RESERVE else 0) then NoRoom(s) else Stored(s)
    case Abandoning => s.(phase := Failed, producer := Ready)
  }

  /** head.store: the record becomes visible to the writer. */
  function Stored(s: Machine): Machine
    requires s.producer.Storing?
  {
    var r, next := s.producer.record, s.producer.next;
    var queued := s.(log := s.log + [r], dropsAt := s.dropsAt + [s.dropped],
                     producer := if next.Ended? then Queuing(next.begin, Rotated) else Ready);
    if next.Data?
    then queued.(pushes := s.pushes + [PushCall(|s.log|, r, next.seen, true, s.dropped)])
    else queued
  }

  function NoRoom(s: Machine): Machine
    requires s.producer.Storing?
  {
    match s.producer.next
    case Data(seen) =>
      s.(dropped := s.dropped + 1, producer := Ready,
         pushes := s.pushes + [PushCall(|s.log|, s.producer.record, seen, false, s.dropped + 1)])
    case Began(before) => s.(phase := before, producer := Ready, clean := false)
    case Ended(_) => s.(dropped := s.dropped + 1, producer := Ready, clean := false)
    case Rotated => s.(dropped := s.dropped + 1, producer := Ready, clean := false)
    case Finished => s.(dropped := s.dropped + 1, producer := Abandoning, clean := false)
  }

  /** The writer's next step when nothing throws. */
  function WorkerStep(s: Machine): Machine
    requires !s.worker.Waiting? && !s.worker.Exited?
  {
    match s.worker
    case Holding(r, index) =>
      if r.Start? then
        s.(open := true, take := NewTake(index, r.dropsAtStart),
           worker := Announcing(r.ticket, Opening, Recording))
      else if r.Finish? then
        if s.open then s.(worker := Sealing(r.ticket, index, s.take.Sealable(r.complete, s.dropped)))
        else s.(worker := Announcing(r.ticket, Closing, Idle))
      else if s.open then s.(take := s.take.Write(r), worker := Waiting)
      else s.(worker := Waiting)
    case Sealing(ticket, index, ok) =>
      s.(worker := Sealed(ticket), saved := if ok then s.saved + [SavedTake(s.take, index)] else s.saved)
    case Sealed(ticket) => s.(open := false, worker := Announcing(ticket, Closing, Idle))
    case Announcing(ticket, from, to) =>
      s.(worker := if s.ticket == ticket then Swapping(ticket, from, to) else Waiting)
    case Swapping(_, from, to) =>
      s.(phase := if s.phase == from then to else s.phase, worker := Waiting)
  }

  // ---- Runs ----

  ghost predicate Possible(s: Machine, run: seq<Action>)
    decreases |run|, 0
  {
    run == [] || (Possible(s, run[..|run| - 1]) && Enabled(After(s, run[..|run| - 1]), run[|run| - 1]))
  }

  ghost function After(s: Machine, run: seq<Action>): Machine
    requires Possible(s, run)
    decreases |run|, 1
  {
    if run == [] then s else Apply(After(s, run[..|run| - 1]), run[|run| - 1])
  }
}
