/**
  Which push calls a committed take can lack. A push is refused for one of two reasons: the queue is
  full, which the drop counter records, or the state it loads is neither Recording nor Opening, which
  nothing records.
 */
module RecordingPushes {
  import opened TakeRecorder
  import opened RecordingProtocol
  import opened RecordingSafety

  ghost predicate Taking(p: Phase) { p == Opening || p == Recording || p == Failed }

  /** Accepted calls and data records of the log are the same thing. */
  ghost predicate CallsInv(s: Machine) {
    && (forall i | 0 <= i < |s.pushes| :: CallOk(s.log, s.pushes[i]))
    && (forall k | 0 <= k < |s.log| :: s.log[k].IsControl() || Accounted(s.pushes, k))
    && ((s.producer.Queuing? || s.producer.Storing?) ==>
          && (s.producer.next.Data? <==> !s.producer.record.IsControl())
          && (s.producer.next.Data? ==> s.producer.next.seen == Recording || s.producer.next.seen == Opening)
          && (s.producer.next.Began? || s.producer.next.Rotated? ==> s.producer.record.Start?)
          && (s.producer.next.Ended? ==> s.producer.record.Finish? && s.producer.next.begin.Start?)
          && (s.producer.next.Finished? ==> s.producer.record.Finish? && s.producer.record.origin == ByFinish))
  }

  ghost predicate CallOk(log: seq<Record>, c: PushCall) {
    && c.position <= |log|
    && (c.accepted ==>
          && c.position < |log| && log[c.position] == c.record && !c.record.IsControl()
          && (c.seen == Recording || c.seen == Opening))
  }

  ghost predicate Accounted(pushes: seq<PushCall>, k: nat) {
    exists i :: 0 <= i < |pushes| && pushes[i].accepted && pushes[i].position == k
  }

  lemma CallsInvAfterStored(s: Machine)
    requires CallsInv(s) && s.producer.Storing?
    ensures CallsInv(Stored(s))
  {
    var t := Stored(s);
    forall k | 0 <= k < |t.log| ensures t.log[k].IsControl() || Accounted(t.pushes, k) {
      if k < |s.log| && !s.log[k].IsControl() {
        var i :| 0 <= i < |s.pushes| && s.pushes[i].accepted && s.pushes[i].position == k;
        assert t.pushes[i] == s.pushes[i];
      } else if k == |s.log| && !t.log[k].IsControl() {
        assert t.pushes[|s.pushes|].position == k;
      }
    }
    forall i | 0 <= i < |t.pushes| ensures CallOk(t.log, t.pushes[i]) {
      if i < |s.pushes| { assert CallOk(s.log, s.pushes[i]); }
    }
  }

  /** A refused call changes nothing that was accounted for. */
  lemma RefusalKeepsAccounts(s: Machine, c: PushCall, t: Machine)
    requires CallsInv(s) && CallOk(s.log, c) && t.log == s.log && t.pushes == s.pushes + [c]
    ensures forall i | 0 <= i < |t.pushes| :: CallOk(t.log, t.pushes[i])
    ensures forall k | 0 <= k < |t.log| :: t.log[k].IsControl() || Accounted(t.pushes, k)
  {
    forall k | 0 <= k < |t.log| ensures t.log[k].IsControl() || Accounted(t.pushes, k) {
      if !t.log[k].IsControl() {
        var i :| 0 <= i < |s.pushes| && s.pushes[i].accepted && s.pushes[i].position == k;
        assert t.pushes[i] == s.pushes[i];
      }
    }
  }

  lemma CallsInvAfterProduce(s: Machine)
    requires CallsInv(s) && Enabled(s, Produce)
    ensures CallsInv(ProducerStep(s))
  {
    if s.producer.Storing? {
      CallsInvAfterStored(s);
      if s.producer.next.Data? {
        var t := NoRoom(s);
        RefusalKeepsAccounts(s, t.pushes[|s.pushes|], t);
      }
    }
  }

  lemma CallsInvAfterWork(s: Machine)
    requires CallsInv(s) && Enabled(s, Work)
    ensures CallsInv(WorkerStep(s))
  {}

  lemma CallsInvKept(s: Machine, a: Action)
    requires CallsInv(s) && Enabled(s, a)
    ensures CallsInv(Apply(s, a))
  {
    match a
    case Produce => CallsInvAfterProduce(s);
    case Work => CallsInvAfterWork(s);
    case CallPush(_) =>
      var t := Apply(s, a);
      if t.pushes != s.pushes { RefusalKeepsAccounts(s, t.pushes[|s.pushes|], t); }
    case _ =>
  }

  /** A full queue shows: every record queued later carries a higher drop counter. */
  ghost predicate DropSeen(dropsAt: seq<nat>, dropped: nat, c: PushCall) {
    c.QueueRefused() ==>
      && c.drops <= dropped
      && (forall k | 0 <= k < |dropsAt| && k < c.position :: dropsAt[k] < c.drops)
      && (forall k | 0 <= k < |dropsAt| && c.position <= k :: c.drops <= dropsAt[k])
  }

  ghost predicate DropsInv(s: Machine) {
    forall i | 0 <= i < |s.pushes| :: DropSeen(s.dropsAt, s.dropped, s.pushes[i])
  }

  lemma DropsInvAfterStored(s: Machine)
    requires LogInv(s) && CallsInv(s) && DropsInv(s) && s.producer.Storing?
    ensures DropsInv(Stored(s))
  {
    var t := Stored(s);
    forall i | 0 <= i < |t.pushes| ensures DropSeen(t.dropsAt, t.dropped, t.pushes[i]) {
      if i < |s.pushes| {
        assert DropSeen(s.dropsAt, s.dropped, s.pushes[i]) && CallOk(s.log, s.pushes[i]);
      }
    }
  }

  lemma DropsInvAfterNoRoom(s: Machine)
    requires LogInv(s) && CallsInv(s) && DropsInv(s) && s.producer.Storing?
    ensures DropsInv(NoRoom(s))
  {
    var t := NoRoom(s);
    forall i | 0 <= i < |t.pushes| ensures DropSeen(t.dropsAt, t.dropped, t.pushes[i]) {
      if i < |s.pushes| { assert DropSeen(s.dropsAt, s.dropped, s.pushes[i]); }
    }
  }

  lemma DropsInvAfterWork(s: Machine)
    requires DropsInv(s) && Enabled(s, Work)
    ensures DropsInv(WorkerStep(s))
  {}

  lemma DropsInvKept(s: Machine, a: Action)
    requires LogInv(s) && CallsInv(s) && DropsInv(s) && Enabled(s, a)
    ensures DropsInv(Apply(s, a))
  {
    match a
    case Produce =>
      if s.producer.Storing? {
        DropsInvAfterStored(s);
        DropsInvAfterNoRoom(s);
      }
    case Work => DropsInvAfterWork(s);
    case CallPush(r) => DropsInvAfterCall(s, r);
    case _ =>
  }

  lemma DropsInvAfterCall(s: Machine, r: Record)
    requires LogInv(s) && DropsInv(s) && Enabled(s, CallPush(r))
    ensures DropsInv(Apply(s, CallPush(r)))
  {}

  // ---- Refusals by state ----

  /** The Start at `c` is the last control record queued, and nothing was dropped since. */
  ghost predicate LiveStart(s: Machine, c: nat) {
    && c < |s.log| == |s.dropsAt| && s.log[c].Start? && OnlyData(s.log, c + 1, |s.log|)
    && s.dropsAt[c] == s.dropped
  }

  ghost predicate Unrefused(pushes: seq<PushCall>, c: nat) {
    forall i | 0 <= i < |pushes| && pushes[i].position > c :: !pushes[i].StateRefused()
  }

  /** While the producer may still push into the take begun at `c`. */
  ghost predicate LiveInv(s: Machine, c: nat) {
    && (forall i | 0 <= i < |s.pushes| && s.pushes[i].position > c && s.pushes[i].StateRefused() ::
          s.pushes[i].seen == Failed)
    && match s.producer
       case Ready => Taking(s.phase) && (s.phase == Failed || Unrefused(s.pushes, c))
       case Starting(before) => before == Failed && s.phase == Failed
       case StartStored(before) => before == Failed
       case Finishing(_) => Unrefused(s.pushes, c)
       case FinishStored(_) => Unrefused(s.pushes, c)
       case Rotating(_, at) => at == Failed || Unrefused(s.pushes, c)
       case Queuing(r, next) => PendingInv(s, c, r, next)
       case Storing(r, _, next) => PendingInv(s, c, r, next)
       case Abandoning => true
  }

  ghost predicate PendingInv(s: Machine, c: nat, r: Record, next: Call) {
    match next
    case Data(_) => Taking(s.phase) && (s.phase == Failed || Unrefused(s.pushes, c))
    case Began(before) => before == Failed
    case Ended(_) => r.Finish? && (r.origin == ByRotate(Failed) || Unrefused(s.pushes, c))
    case Rotated => false
    case Finished => Unrefused(s.pushes, c)
  }

  /** From the store of Opening until the Start is queued. */
  ghost predicate StartPending(s: Machine) {
    s.producer.StartStored?
    || ((s.producer.Queuing? || s.producer.Storing?) &&
          (s.producer.next.Began? || s.producer.next.Ended? || s.producer.next.Rotated?))
  }

  /** The log positions `first` and `last` bound a take during which nothing was dropped. */
  ghost predicate Interval(s: Machine, first: nat, last: nat) {
    && first < last < |s.log| == |s.dropsAt| && s.log[first].Start? && s.log[last].Finish?
    && OnlyData(s.log, first + 1, last) && s.dropsAt[first] == s.dropsAt[last]
  }

  ghost predicate RefusalExplained(s: Machine, first: nat, last: nat, c: PushCall) {
    first < c.position <= last && c.StateRefused() ==>
      c.seen == Failed && last < |s.log| && s.log[last].Finish? && s.log[last].origin == ByRotate(Failed)
  }

  ghost predicate RefusalsInv(s: Machine) {
    && (StartPending(s) ==> Taking(s.phase))
    && (forall c | LiveStart(s, c) :: LiveInv(s, c))
    && (forall first, last, i | Interval(s, first, last) && 0 <= i < |s.pushes| ::
          RefusalExplained(s, first, last, s.pushes[i]))
  }

  /** The writer only ever swaps Opening for Recording and Closing for Idle. */
  ghost predicate SwapsInv(s: Machine) {
    s.worker.Announcing? || s.worker.Swapping? ==>
      (s.worker.from == Opening && s.worker.to == Recording) || (s.worker.from == Closing && s.worker.to == Idle)
  }

  lemma SwapsInvKept(s: Machine, a: Action)
    requires SwapsInv(s) && Enabled(s, a)
    ensures SwapsInv(Apply(s, a))
  {
    if a.Produce? { ProducerOnlyAppends(s); }
  }

  lemma LiveInvAfterStored(s: Machine, c: nat)
    requires LogInv(s) && CallsInv(s) && RefusalsInv(s) && s.producer.Storing?
    requires LiveStart(Stored(s), c)
    ensures LiveInv(Stored(s), c)
  {
    var t := Stored(s);
    if c < |s.log| {
      assert t.log[c] == s.log[c];
      assert !t.log[|s.log|].IsControl();
      assert OnlyData(s.log, c + 1, |s.log|) by {
        forall k | 0 <= k < |s.log| && c + 1 <= k ensures !s.log[k].IsControl() { assert t.log[k] == s.log[k]; }
      }
      assert LiveStart(s, c);
    } else {
      assert t.log[c] == s.producer.record;
      forall i | 0 <= i < |t.pushes| ensures t.pushes[i].position <= c {
        if i < |s.pushes| { assert CallOk(s.log, s.pushes[i]); }
      }
    }
  }

  lemma IntervalsAfterStored(s: Machine, first: nat, last: nat, i: nat)
    requires LogInv(s) && CallsInv(s) && RefusalsInv(s) && s.producer.Storing?
    requires Interval(Stored(s), first, last) && i < |Stored(s).pushes|
    ensures RefusalExplained(Stored(s), first, last, Stored(s).pushes[i])
  {
    var t := Stored(s);
    if i < |s.pushes| {
      assert CallOk(s.log, s.pushes[i]);
      assert forall k | 0 <= k < |s.log| :: t.log[k] == s.log[k];
      if last < |s.log| {
        assert Interval(s, first, last);
        assert RefusalExplained(s, first, last, s.pushes[i]);
      } else {
        assert LiveStart(s, first);
      }
    }
  }

  lemma RefusalsInvAfterStored(s: Machine)
    requires LogInv(s) && CallsInv(s) && RefusalsInv(s) && s.producer.Storing?
    ensures RefusalsInv(Stored(s))
  {
    var t := Stored(s);
    forall c | LiveStart(t, c) ensures LiveInv(t, c) { LiveInvAfterStored(s, c); }
    forall first, last, i | Interval(t, first, last) && 0 <= i < |t.pushes|
      ensures RefusalExplained(t, first, last, t.pushes[i])
    { IntervalsAfterStored(s, first, last, i); }
  }

  /** Steps that queue nothing keep every interval; `t` may add calls made at the queue's end. */
  lemma IntervalsKept(s: Machine, t: Machine)
    requires RefusalsInv(s)
    requires t.log == s.log && t.dropsAt == s.dropsAt
    requires t.pushes == s.pushes || (|t.pushes| == |s.pushes| + 1 && t.pushes[..|s.pushes|] == s.pushes
                                      && t.pushes[|s.pushes|].position == |s.log|)
    ensures forall first, last, i | Interval(t, first, last) && 0 <= i < |t.pushes| ::
              RefusalExplained(t, first, last, t.pushes[i])
  {
    forall first, last, i | Interval(t, first, last) && 0 <= i < |t.pushes|
      ensures RefusalExplained(t, first, last, t.pushes[i])
    {
      assert Interval(s, first, last);
      if i < |s.pushes| {
        assert t.pushes[i] == s.pushes[i];
        assert RefusalExplained(s, first, last, s.pushes[i]);
      }
    }
  }

  lemma RefusalsInvAfterNoRoom(s: Machine)
    requires LogInv(s) && CallsInv(s) && RefusalsInv(s) && s.producer.Storing?
    ensures RefusalsInv(NoRoom(s))
  {
    var t := NoRoom(s);
    forall c | LiveStart(t, c) ensures LiveInv(t, c) { assert LiveStart(s, c); }
    IntervalsKept(s, t);
  }

  lemma RefusalsInvAfterProduce(s: Machine)
    requires LogInv(s) && CallsInv(s) && RefusalsInv(s) && Enabled(s, Produce)
    ensures RefusalsInv(ProducerStep(s))
  {
    hide LogInv, CallsInv;
    if s.producer.Storing? {
      RefusalsInvAfterStored(s);
      RefusalsInvAfterNoRoom(s);
    } else {
      var t := ProducerStep(s);
      forall c | LiveStart(t, c) ensures LiveInv(t, c) { assert LiveStart(s, c); }
      IntervalsKept(s, t);
    }
  }

  /** Whatever the writer does to the state, Failed stays Failed and a taking state stays taking. */
  lemma RefusalsInvAfterWriter(s: Machine, t: Machine)
    requires RefusalsInv(s)
    requires t.log == s.log && t.dropsAt == s.dropsAt && t.dropped == s.dropped
    requires t.pushes == s.pushes && t.producer == s.producer
    requires t.phase == s.phase || t.phase == Failed || (s.phase == Opening && t.phase == Recording)
             || (s.phase == Closing && t.phase == Idle)
    ensures RefusalsInv(t)
  {
    forall c | LiveStart(t, c) ensures LiveInv(t, c) { assert LiveStart(s, c); }
    IntervalsKept(s, t);
  }

  lemma RefusalsInvAfterCall(s: Machine, a: Action)
    requires LogInv(s) && CallsInv(s) && RefusalsInv(s) && Enabled(s, a)
    requires a.CallPush? || a.CallStart? || a.CallRotate? || a.CallFinish?
    ensures RefusalsInv(Apply(s, a))
  {
    var t := Apply(s, a);
    forall c | LiveStart(t, c) ensures LiveInv(t, c) { assert LiveStart(s, c); }
    IntervalsKept(s, t);
  }

  lemma RefusalsInvKept(s: Machine, a: Action)
    requires LogInv(s) && CallsInv(s) && SwapsInv(s) && RefusalsInv(s) && Enabled(s, a)
    ensures RefusalsInv(Apply(s, a))
  {
    match a
    case Produce => RefusalsInvAfterProduce(s);
    case Work =>
      WorkerKeepsProducer(s);
      RefusalsInvAfterWriter(s, WorkerStep(s));
    case Fetch => RefusalsInvAfterWriter(s, Apply(s, a));
    case Throw => RefusalsInvAfterWriter(s, Apply(s, a));
    case Exit => RefusalsInvAfterWriter(s, Apply(s, a));
    case _ => RefusalsInvAfterCall(s, a);
  }

  lemma WorkerKeepsProducer(s: Machine)
    requires SwapsInv(s) && Enabled(s, Work)
    ensures var t := WorkerStep(s);
      && t.log == s.log && t.dropsAt == s.dropsAt && t.dropped == s.dropped
      && t.pushes == s.pushes && t.producer == s.producer
      && (t.phase == s.phase || (s.phase == Opening && t.phase == Recording) || (s.phase == Closing && t.phase == Idle))
  {}
}
