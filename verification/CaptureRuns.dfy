/**
  The capture as the only caller of a recorder: its thread asks, the two threads of the recorder answer,
  in any interleaving.
 */
module CaptureRuns {
  import opened TakeRecorder
  import opened RecordingProtocol
  import opened RawCapture
  import RecordingTheorems

  /** Where the capture's thread is: in which call of the recorder, or between two of one sample. */
  datatype Doing =
    | Resting
    | Beginning(epoch: nat)
    | Turning(sequence: nat, epoch: nat)
    | Joining(sequence: nat)
    | Pushing(sequence: nat)
    | GivingUp
    | Ending
    | Elsewhere

  datatype Joint = Joint(m: Machine, c: Cap, doing: Doing)

  /** `Push` is for drive rows and blocks; `Go` makes the next call of a sample, `Run` is a step of the recorder. */
  datatype Event =
    | Begin(epoch: nat)
    | End(complete: bool)
    | Sample(sequence: nat, epoch: nat)
    | Push(record: Record)
    | Go
    | Run(a: Action)

  predicate Possible_(j: Joint, e: Event) {
    match e
    case Push(r) => j.doing.Resting? && j.m.producer.Ready? && (r.Drive? || r.Block?)
    case Go => (j.doing.Joining? || j.doing.GivingUp?) && j.m.producer.Ready?
    case Run(a) => (a == Produce || a == Fetch || a == Work || a == Throw || a == Exit) && Enabled(j.m, a)
    case _ => j.doing.Resting? && j.m.producer.Ready?
  }

  /** The call in progress is answered. */
  function Answered(j: Joint, ok: bool): Joint {
    match j.doing
    case Beginning(epoch) => j.(c := Begun(j.c, epoch, ok), doing := Resting)
    case Turning(sequence, epoch) =>
      var c := Turned(j.c, epoch, ok);
      j.(c := c, doing := if Wants(c, sequence, epoch) == Join then Joining(sequence) else Resting)
    case Pushing(sequence) => j.(c := Joined(j.c, sequence, ok), doing := if ok then Resting else GivingUp)
    case Ending => j.(doing := Resting)
    case Elsewhere => j.(c := j.c.(failed := j.c.failed || !ok), doing := Resting)
    case _ => j
  }

  /** A call is made; it may be refused at once, for the recorder's state. */
  function Called(j: Joint, a: Action, doing: Doing): Joint
    requires Enabled(j.m, a)
  {
    var m := Apply(j.m, a);
    var k := Joint(m, j.c, doing);
    if m.producer.Ready? then Answered(k, false) else k
  }

  /** A call that ends is answered with whether its last record was queued. */
  function Advanced(j: Joint, m: Machine): Joint {
    if !j.m.producer.Ready? && m.producer.Ready? then Answered(j.(m := m), |m.log| > |j.m.log|) else j.(m := m)
  }

  function Step(j: Joint, e: Event): Joint
    requires Possible_(j, e)
  {
    match e
    case Begin(epoch) => Called(j, CallStart, Beginning(epoch))
    case End(complete) => Called(j.(c := j.c.(recording := false)), CallFinish(complete), Ending)
    case Push(r) => Called(j, CallPush(r), Elsewhere)
    case Sample(sequence, epoch) =>
      (match Wants(j.c, sequence, epoch)
       case Nothing => j
       case Rotation => Called(j, CallRotate, Turning(sequence, epoch))
       case Join => j.(doing := Joining(sequence)))
    case Go =>
      if j.doing.Joining?
      then Called(j, CallPush(Raw(j.doing.sequence, j.c.epoch)), Pushing(j.doing.sequence))
      else Called(j, CallFinish(false), Ending)
    case Run(a) => Advanced(j, Apply(j.m, a))
  }

  ghost predicate Possible(j: Joint, run: seq<Event>)
    decreases |run|, 0
  {
    run == [] || (Possible(j, run[..|run| - 1]) && Possible_(After(j, run[..|run| - 1]), run[|run| - 1]))
  }

  ghost function After(j: Joint, run: seq<Event>): Joint
    requires Possible(j, run)
    decreases |run|, 1
  {
    if run == [] then j else Step(After(j, run[..|run| - 1]), run[|run| - 1])
  }

  function Boot(capacity: nat): Joint {
    Joint(RecordingProtocol.Boot(capacity), Cap(false, false, false, 0, 0), Resting)
  }

  // ---- What every run keeps ----

  /** The producer of the recorder is on its way with record `r`. */
  predicate Has(p: Producer, r: Record) { (p.Queuing? || p.Storing?) && p.record == r }

  /** Which records the producer can be on its way with. */
  ghost predicate Matching(j: Joint) {
    var p := j.m.producer;
    var busy := p.Queuing? || p.Storing?;
    match j.doing
    case Resting => p.Ready?
    case Joining(sequence) => p.Ready? && j.c.recording && sequence != j.c.lastRaw
    case GivingUp => p.Ready? && !j.c.recording
    case Pushing(sequence) => j.c.recording && sequence != j.c.lastRaw && Has(p, Raw(sequence, j.c.epoch)) && p.next.Data?
    case Elsewhere => busy && p.next.Data? && (p.record.Drive? || p.record.Block?)
    case Beginning(_) => p.Starting? || p.StartStored? || (busy && p.next.Began? && p.record.Start?)
    case Turning(_, _) =>
      j.c.recording &&
      (p.Rotating? || (busy && p.next.Ended? && p.record.Finish? && p.next.begin.Start?) || (busy && p.next.Rotated? && p.record.Start?))
    case Ending =>
      !j.c.recording &&
      (p.Finishing? || p.FinishStored? || p.Abandoning? || (busy && p.next.Finished? && p.record.Finish?))
  }

  /** All stretches are uniform, and the current one is the capture's, unless it is about to end. */
  ghost predicate Uniformly(log: seq<Record>, c: Cap, turning: bool) {
    && TakesUniform(log) && Uniform(Current(log))
    && (c.recording && !turning ==> InStep(Current(log), c.epoch, c.lastRaw))
  }

  ghost predicate Inv(j: Joint) {
    RecordingTheorems.Inv(j.m) && Matching(j) && Uniformly(j.m.log, j.c, j.doing.Turning?)
  }

  /** What the stretches need of the next record. */
  ghost predicate Fits(r: Record, c: Cap) {
    r.Raw? ==> c.recording && r.payload == c.epoch && r.sequence != c.lastRaw
  }

  lemma OneMoreRecord(log: seq<Record>, c: Cap, turning: bool, r: Record)
    requires Uniformly(log, c, turning) && Fits(r, c) && (turning ==> r.IsControl())
    ensures TakesUniform(log + [r]) && Uniform(Current(log + [r]))
    ensures Current(log + [r]) == if r.IsControl() then [] else Current(log) + [r]
    ensures !turning && c.recording && !r.IsControl() ==>
      InStep(Current(log + [r]), c.epoch, if r.Raw? then r.sequence else c.lastRaw)
  {
    hide TakesUniform, Uniform, InStep, Current;
    CurrentGrows(log, r);
    EmptyIsUniform();
    if !r.IsControl() { UniformGrows(Current(log), r, c.epoch, c.lastRaw); }
    TakesGrow(log, r);
  }

  lemma EmptyIsInStep(epoch: nat)
    ensures InStep([], epoch, 0)
  {}

  /** The disk thread changes neither the queue's history nor the producer. */
  lemma DiskLeavesTheLog(m: Machine, a: Action)
    requires Enabled(m, a) && (a == Fetch || a == Work || a == Throw || a == Exit)
    ensures Apply(m, a).log == m.log && Apply(m, a).producer == m.producer
  {}

  // ---- Steps of the producer ----

  lemma PrivateStepMatches(j: Joint)
    requires Matching(j) && !j.m.producer.Ready? && !j.m.producer.Storing?
    ensures ProducerStep(j.m).log == j.m.log && Matching(Advanced(j, ProducerStep(j.m)))
  {}

  lemma RefusedMatches(j: Joint)
    requires Matching(j) && j.m.producer.Storing?
    ensures NoRoom(j.m).log == j.m.log && Matching(Advanced(j, NoRoom(j.m)))
  {}

  lemma StoredMatches(j: Joint)
    requires Matching(j) && j.m.producer.Storing?
    ensures Matching(Advanced(j, Stored(j.m)))
  {}

  /** The record being stored is one the stretches can take. */
  lemma StoredFits(j: Joint)
    requires Matching(j) && j.m.producer.Storing?
    ensures Fits(j.m.producer.record, j.c) && (j.doing.Turning? ==> j.m.producer.record.IsControl())
  {}

  /** A refusal ends the recording or leaves the capture as it was. */
  lemma RefusalEndsOrLeaves(k: Joint)
    ensures var a := Answered(k, false);
      !a.c.recording || (a.c.(failed := true) == k.c.(failed := true) && a.doing.Turning? == k.doing.Turning?)
      || (a.c == k.c && !k.doing.Turning?)
  {}

  lemma RefusalKeepsStretches(k: Joint)
    requires Uniformly(k.m.log, k.c, k.doing.Turning?)
    ensures Uniformly(k.m.log, Answered(k, false).c, Answered(k, false).doing.Turning?)
  {
    hide TakesUniform, Uniform, InStep, Current, Answered;
    RefusalEndsOrLeaves(k);
  }

  /** A step that queues nothing can only end in a refusal. */
  lemma NothingQueued(j: Joint, m: Machine)
    requires Uniformly(j.m.log, j.c, j.doing.Turning?) && m.log == j.m.log
    ensures var k := Advanced(j, m); k.m == m && Uniformly(k.m.log, k.c, k.doing.Turning?)
  {
    hide Uniformly;
    RefusalKeepsStretches(j.(m := m));
  }

  /** The current stretch, once the last record of a call is queued. */
  ghost predicate Queued(c: Cap, doing: Doing, rs: seq<Record>) {
    match doing
    case Beginning(_) => rs == []
    case Turning(_, _) => rs == []
    case Pushing(sequence) => InStep(rs, c.epoch, sequence)
    case Elsewhere => c.recording ==> InStep(rs, c.epoch, c.lastRaw)
    case _ => !c.recording
  }

  lemma AnswerKeepsStretches(k: Joint)
    requires TakesUniform(k.m.log) && Uniform(Current(k.m.log)) && Queued(k.c, k.doing, Current(k.m.log))
    ensures Answered(k, true).m == k.m && Uniformly(k.m.log, Answered(k, true).c, Answered(k, true).doing.Turning?)
  {
    hide TakesUniform, Uniform, InStep, Current, Queued, Answered;
    AnswerInStep(k, Current(k.m.log));
  }

  /** A capture that goes on recording is in step with what its call queued. */
  lemma AnswerInStep(k: Joint, rs: seq<Record>)
    requires Queued(k.c, k.doing, rs)
    ensures var a := Answered(k, true);
      a.m == k.m && (a.c.recording && !a.doing.Turning? ==> InStep(rs, a.c.epoch, a.c.lastRaw))
  {
    hide InStep;
    match k.doing {
      case Beginning(epoch) => EmptyIsInStep(epoch);
      case Turning(_, epoch) => EmptyIsInStep(epoch);
      case _ =>
    }
  }

  lemma StoredIsQueued(j: Joint, rs: seq<Record>)
    requires Matching(j) && j.m.producer.Storing?
    requires var r := j.m.producer.record;
      && (r.IsControl() ==> rs == [])
      && (!j.doing.Turning? && j.c.recording && !r.IsControl() ==> InStep(rs, j.c.epoch, if r.Raw? then r.sequence else j.c.lastRaw))
    ensures Queued(j.c, j.doing, rs)
  {
    hide InStep;
  }

  lemma StoredKeepsStretches(j: Joint)
    requires Matching(j) && Uniformly(j.m.log, j.c, j.doing.Turning?) && j.m.producer.Storing?
    ensures var k := Advanced(j, Stored(j.m)); k.m == Stored(j.m) && Uniformly(k.m.log, k.c, k.doing.Turning?)
  {
    hide TakesUniform, Uniform, InStep, Current, Queued, Matching, Fits, Stored, Answered;
    var r := j.m.producer.record;
    StoredEnds(j);
    StoredFits(j);
    OneMoreRecord(j.m.log, j.c, j.doing.Turning?, r);
    StoredIsQueued(j, Current(j.m.log + [r]));
    AnswerKeepsStretches(j.(m := Stored(j.m)));
  }

  /** Only the first half of a rotation leaves the call open. */
  lemma StoredEnds(j: Joint)
    requires Matching(j) && j.m.producer.Storing?
    ensures Stored(j.m).log == j.m.log + [j.m.producer.record]
    ensures Stored(j.m).producer.Ready? || j.doing.Turning?
  {}

  /** What a step keeps besides the invariant of the recorder. */
  ghost predicate Kept(k: Joint) { Matching(k) && Uniformly(k.m.log, k.c, k.doing.Turning?) }

  lemma ProduceKeeps(j: Joint)
    requires Kept(j) && !j.m.producer.Ready?
    ensures Kept(Advanced(j, ProducerStep(j.m))) && Advanced(j, ProducerStep(j.m)).m == ProducerStep(j.m)
  {
    hide Matching, Uniformly, Advanced, Stored, NoRoom;
    if !j.m.producer.Storing? {
      PrivateStepMatches(j);
      NothingQueued(j, ProducerStep(j.m));
    } else if ProducerStep(j.m) == NoRoom(j.m) {
      RefusedMatches(j);
      NothingQueued(j, NoRoom(j.m));
    } else {
      StoredMatches(j);
      StoredKeepsStretches(j);
    }
  }

  // ---- Calls ----

  lemma CallQueuesNothing(m: Machine, a: Action)
    requires Enabled(m, a) && (a.CallPush? || a.CallStart? || a.CallRotate? || a.CallFinish?)
    ensures Apply(m, a).log == m.log
  {}

  lemma StretchesAllow(log: seq<Record>, c: Cap)
    requires Uniformly(log, c, false)
    ensures Uniformly(log, c.(recording := false), false) && Uniformly(log, c, true)
  {}

  lemma CalledKeepsStretches(j: Joint, a: Action, doing: Doing)
    requires Enabled(j.m, a) && (a.CallPush? || a.CallStart? || a.CallRotate? || a.CallFinish?)
    requires Uniformly(j.m.log, j.c, doing.Turning?)
    ensures var k := Called(j, a, doing);
      k.m == Apply(j.m, a) && Uniformly(k.m.log, k.c, k.doing.Turning?)
  {
    hide Uniformly, Apply;
    CallQueuesNothing(j.m, a);
    RefusalKeepsStretches(Joint(Apply(j.m, a), j.c, doing));
  }

  /** The call of the recorder an event makes. */
  function CallOf(j: Joint, e: Event): Action
    requires e.Go? ==> j.doing.Joining? || j.doing.GivingUp?
  {
    match e
    case Begin(_) => CallStart
    case End(complete) => CallFinish(complete)
    case Push(r) => CallPush(r)
    case Sample(_, _) => CallRotate
    case Go => if j.doing.Joining? then CallPush(Raw(j.doing.sequence, j.c.epoch)) else CallFinish(false)
    case Run(a) => a
  }

  predicate Silent(j: Joint, e: Event) { e.Sample? && Wants(j.c, e.sequence, e.epoch) != Rotation }

  lemma CallMatches(j: Joint, e: Event)
    requires Matching(j) && Possible_(j, e) && !e.Run?
    ensures Matching(Step(j, e))
  {}

  /** Outside a call the capture is not rotating, and its events are calls or nothing. */
  lemma CallIsApplied(j: Joint, e: Event)
    requires Matching(j) && Possible_(j, e) && !e.Run?
    ensures !j.doing.Turning?
    ensures if Silent(j, e) then Step(j, e).m == j.m else Enabled(j.m, CallOf(j, e)) && Step(j, e).m == Apply(j.m, CallOf(j, e))
  {
    hide Apply;
    AnsweringLeavesTheRecorder();
  }

  lemma AnsweringLeavesTheRecorder()
    ensures forall k: Joint, ok: bool :: Answered(k, ok).m == k.m
  {}

  lemma CallKeepsStretches(j: Joint, e: Event)
    requires Matching(j) && Uniformly(j.m.log, j.c, j.doing.Turning?) && Possible_(j, e) && !e.Run?
    ensures var k := Step(j, e); Uniformly(k.m.log, k.c, k.doing.Turning?)
  {
    hide Apply, Called, Uniformly, Enabled;
    CallIsApplied(j, e);
    StretchesAllow(j.m.log, j.c);
    match e {
      case Begin(epoch) => CalledKeepsStretches(j, CallStart, Beginning(epoch));
      case End(complete) => CalledKeepsStretches(j.(c := j.c.(recording := false)), CallFinish(complete), Ending);
      case Push(r) => CalledKeepsStretches(j, CallPush(r), Elsewhere);
      case Sample(sequence, epoch) =>
        if !Silent(j, e) { CalledKeepsStretches(j, CallRotate, Turning(sequence, epoch)); }
      case Go =>
        if j.doing.Joining? { CalledKeepsStretches(j, CallOf(j, e), Pushing(j.doing.sequence)); }
        else { CalledKeepsStretches(j, CallFinish(false), Ending); }
    }
  }

  // ---- Runs ----

  lemma InvKept(j: Joint, e: Event)
    requires Inv(j) && Possible_(j, e)
    ensures Inv(Step(j, e))
  {
    hide RecordingTheorems.Inv, Uniformly, Matching, Apply, Called, CallOf, Silent;
    if !e.Run? {
      CallMatches(j, e);
      CallIsApplied(j, e);
      CallKeepsStretches(j, e);
      if !Silent(j, e) { RecordingTheorems.InvKept(j.m, CallOf(j, e)); }
    } else {
      RecordingTheorems.InvKept(j.m, e.a);
      RunKeeps(j, e.a);
    }
  }

  lemma RunKeeps(j: Joint, a: Action)
    requires Kept(j) && Possible_(j, Run(a))
    ensures Kept(Advanced(j, Apply(j.m, a))) && Advanced(j, Apply(j.m, a)).m == Apply(j.m, a)
  {
    hide Uniformly, WorkerStep, ProducerStep;
    if a == Produce {
      ProduceKeeps(j);
    } else {
      DiskLeavesTheLog(j.m, a);
      SameProducer(j, Apply(j.m, a));
    }
  }

  lemma SameProducer(j: Joint, m: Machine)
    requires Matching(j) && m.producer == j.m.producer
    ensures Advanced(j, m) == j.(m := m) && Matching(j.(m := m))
  {}

  lemma BootInv(capacity: nat)
    requires capacity >= 16
    ensures Inv(Boot(capacity))
  {
    hide RecordingTheorems.Inv;
    assert RecordingProtocol.Possible(RecordingProtocol.Boot(capacity), []);
    RecordingTheorems.InvOverRuns(capacity, []);
    EmptyIsUniform();
  }

  lemma {:induction false} InvOverRuns(capacity: nat, run: seq<Event>)
    requires capacity >= 16 && Possible(Boot(capacity), run)
    ensures Inv(After(Boot(capacity), run))
    decreases |run|
  {
    hide Inv, Step;
    if run == [] {
      BootInv(capacity);
    } else {
      InvOverRuns(capacity, run[..|run| - 1]);
      InvKept(After(Boot(capacity), run[..|run| - 1]), run[|run| - 1]);
    }
  }

  /** Take `c` holds every packet queued in its interval, none suppressed, and all of one epoch. */
  ghost predicate OfOneEpoch(log: seq<Record>, c: SavedTake) {
    && c.take.first < c.last < |log|
    && c.take.packets == Raws(log[c.take.first + 1..c.last])
    && Uniform(log[c.take.first + 1..c.last])
  }

  /** In every run of a capture and its recorder, for every committed take. */
  lemma CommittedPacketsAreOfOneEpoch(capacity: nat, run: seq<Event>, n: nat)
    requires capacity >= 16 && Possible(Boot(capacity), run) && n < |After(Boot(capacity), run).m.saved|
    ensures OfOneEpoch(After(Boot(capacity), run).m.log, After(Boot(capacity), run).m.saved[n])
  {
    hide RecordingTheorems.Inv, Matching, TakesUniform, Uniform, Current, InStep, OfOneEpoch;
    InvOverRuns(capacity, run);
    UniformTake(After(Boot(capacity), run).m, n);
  }

  lemma UniformTake(s: Machine, n: nat)
    requires RecordingTheorems.Inv(s) && TakesUniform(s.log) && n < |s.saved|
    ensures OfOneEpoch(s.log, s.saved[n])
  {
    hide RecordingTheorems.Inv;
    RecordingTheorems.TakeIsItsInterval(s, n);
    var c := s.saved[n];
    assert TakesUniform(s.log) && s.log[c.take.first + 1 - 1].IsControl();
    AdvancingPacketsAreAllKept(s.log[c.take.first + 1..c.last]);
  }
}
