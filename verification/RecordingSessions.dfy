/**
  Whole recordings that nothing disturbs: from any quiet state a start, any data records and a finish
  can go through both threads one after the other, and the take is saved if it has a row and a packet.
 */
module RecordingSessions {
  import opened TakeRecorder
  import opened RecordingProtocol
  import RecordingTheorems
  import opened RecordingCommits

  /** `t` is reached by some run from `s`. */
  ghost predicate Leads(s: Machine, t: Machine) { exists run: seq<Action> :: Reaches(s, run, t) }

  ghost predicate Reaches(s: Machine, run: seq<Action>, t: Machine) { Possible(s, run) && After(s, run) == t }

  /** Both threads are idle and the queue is empty. */
  predicate Quiet(s: Machine) {
    s.producer.Ready? && s.worker.Waiting? && s.tail == |s.log| == |s.dropsAt| && s.capacity >= 16
  }

  lemma LeadsNowhere(s: Machine)
    ensures Leads(s, s)
  {
    assert Reaches(s, [], s);
  }

  lemma OneMore(s: Machine, t: Machine, a: Action)
    requires Leads(s, t) && Enabled(t, a)
    ensures Leads(s, Apply(t, a))
  {
    var run: seq<Action> :| Reaches(s, run, t);
    assert (run + [a])[..|run + [a]| - 1] == run;
    assert Reaches(s, run + [a], Apply(t, a));
  }

  lemma Then(s: Machine, t: Machine, a: Action, u: Machine)
    requires Leads(s, t) && Enabled(t, a) && Apply(t, a) == u
    ensures Leads(s, u)
  {
    OneMore(s, t, a);
  }

  /** A record goes into the empty queue and out again. */
  lemma GoesThrough(s: Machine, t: Machine) returns (u: Machine)
    requires Leads(s, t) && t.producer.Queuing? && !t.producer.next.Ended? && t.worker.Waiting?
    requires t.tail == |t.log| == |t.dropsAt| && t.capacity >= 16
    ensures Leads(s, u)
    ensures u == t.(log := t.log + [t.producer.record], dropsAt := t.dropsAt + [t.dropped], tail := t.tail + 1,
                    producer := Ready, worker := Holding(t.producer.record, t.tail),
                    pushes := u.pushes)
  {
    hide Leads;
    var storing := t.(producer := Storing(t.producer.record, t.tail, t.producer.next));
    Then(s, t, Produce, storing);
    OneMore(s, storing, Produce);
    var stored := Apply(storing, Produce);
    assert stored.log[stored.tail] == t.producer.record;
    OneMore(s, stored, Fetch);
    u := Apply(stored, Fetch);
  }

  /** The disk thread announces a transition that is still the latest one. */
  lemma Announces(s: Machine, t: Machine) returns (u: Machine)
    requires Leads(s, t) && t.worker.Announcing? && t.worker.ticket == t.ticket && t.phase == t.worker.from
    ensures Leads(s, u) && u == t.(phase := t.worker.to, worker := Waiting)
  {
    hide Leads;
    var swapping := t.(worker := Swapping(t.worker.ticket, t.worker.from, t.worker.to));
    Then(s, t, Work, swapping);
    OneMore(s, swapping, Work);
    u := Apply(swapping, Work);
  }

  /** What a call keeps besides its own effect. */
  predicate Goes(t: Machine, more: seq<Record>, u: Machine) {
    u.log == t.log + more && u.dropped == t.dropped && u.capacity == t.capacity && Quiet(u)
  }

  /** A start found not recording opens an empty take. */
  lemma Starts(s: Machine, t: Machine) returns (u: Machine)
    requires Leads(s, t) && Quiet(t) && t.phase != Recording && t.phase != Opening
    ensures Leads(s, u) && Goes(t, [Start(t.ticket + 1, t.dropped)], u)
    ensures u.phase == Recording && u.open && u.take == NewTake(|t.log|, t.dropped) && u.saved == t.saved && u.ticket == t.ticket + 1
  {
    hide Leads;
    var calling := t.(producer := Starting(t.phase));
    Then(s, t, CallStart, calling);
    var opening := calling.(phase := Opening, wanted := Recording, clean := true, producer := StartStored(t.phase));
    Then(s, calling, Produce, opening);
    var r := Start(t.ticket + 1, t.dropped);
    var queuing := opening.(ticket := t.ticket + 1, producer := Queuing(r, Began(t.phase)));
    Then(s, opening, Produce, queuing);
    var holding := GoesThrough(s, queuing);
    u := Opens(s, holding);
  }

  lemma Opens(s: Machine, t: Machine) returns (u: Machine)
    requires Leads(s, t) && t.worker.Holding? && t.worker.record.Start? && t.worker.record.ticket == t.ticket && t.phase == Opening
    ensures Leads(s, u)
    ensures u == t.(open := true, take := NewTake(t.worker.index, t.worker.record.dropsAtStart), phase := Recording, worker := Waiting)
  {
    hide Leads;
    var r := t.worker.record;
    var begun := t.(open := true, take := NewTake(t.worker.index, r.dropsAtStart), worker := Announcing(r.ticket, Opening, Recording));
    Then(s, t, Work, begun);
    u := Announces(s, begun);
  }

  /** A push of data found recording is queued and written. */
  lemma Writes(s: Machine, t: Machine, r: Record) returns (u: Machine)
    requires Leads(s, t) && Quiet(t) && t.phase == Recording && t.open && !r.IsControl()
    ensures Leads(s, u) && Goes(t, [r], u)
    ensures u.phase == Recording && u.open && u.take == t.take.Write(r) && u.saved == t.saved && u.ticket == t.ticket
  {
    hide Leads;
    var queuing := t.(producer := Queuing(r, Data(t.phase)));
    Then(s, t, CallPush(r), queuing);
    var holding := GoesThrough(s, queuing);
    OneMore(s, holding, Work);
    u := Apply(holding, Work);
  }

  /** What handling a Finish of the open take commits. */
  function Sealed(t: Machine, complete: bool): seq<SavedTake> {
    if t.take.Sealable(complete, t.dropped) then [SavedTake(t.take, |t.log|)] else []
  }

  lemma Seals(s: Machine, t: Machine) returns (u: Machine)
    requires Leads(s, t) && t.worker.Holding? && t.worker.record.Finish? && t.open
    ensures Leads(s, u)
    ensures u == t.(open := false, worker := Announcing(t.worker.record.ticket, Closing, Idle),
                    saved := t.saved + if t.take.Sealable(t.worker.record.complete, t.dropped) then [SavedTake(t.take, t.worker.index)] else [])
  {
    hide Leads;
    OneMore(s, t, Work);
    var sealing := Apply(t, Work);
    OneMore(s, sealing, Work);
    var sealed := Apply(sealing, Work);
    OneMore(s, sealed, Work);
    u := Apply(sealed, Work);
  }

  /** A finish found recording seals the take. */
  lemma Finishes(s: Machine, t: Machine, complete: bool) returns (u: Machine)
    requires Leads(s, t) && Quiet(t) && t.phase == Recording && t.open
    ensures Leads(s, u) && Goes(t, [Finish(t.ticket + 1, complete, ByFinish)], u)
    ensures u.phase == Idle && !u.open && u.saved == t.saved + Sealed(t, complete)
  {
    hide Leads;
    var calling := t.(producer := Finishing(complete));
    Then(s, t, CallFinish(complete), calling);
    var closing := calling.(phase := Closing, wanted := Idle, clean := true, producer := FinishStored(complete));
    Then(s, calling, Produce, closing);
    var queuing := closing.(ticket := t.ticket + 1, producer := Queuing(Finish(t.ticket + 1, complete, ByFinish), Finished));
    Then(s, closing, Produce, queuing);
    var holding := GoesThrough(s, queuing);
    var announcing := Seals(s, holding);
    u := Announces(s, announcing);
  }

  /** A rotate found recording queues its two records; here the first is taken out before the second goes in. */
  lemma RotateHalf(s: Machine, t: Machine) returns (u: Machine)
    requires Leads(s, t) && Quiet(t) && t.phase == Recording && t.open
    ensures Leads(s, u)
    ensures var finish, start := Finish(t.ticket + 1, true, ByRotate(Recording)), Start(t.ticket + 2, t.dropped);
      u == t.(ticket := t.ticket + 2, phase := Opening, wanted := Recording, clean := true, log := t.log + [finish],
              dropsAt := t.dropsAt + [t.dropped], tail := t.tail + 1,
              producer := Queuing(start, Rotated), worker := Holding(finish, t.tail))
  {
    hide Leads;
    var finish, start := Finish(t.ticket + 1, true, ByRotate(Recording)), Start(t.ticket + 2, t.dropped);
    var calling := t.(ticket := t.ticket + 2, producer := Rotating(t.ticket + 1, t.phase));
    Then(s, t, CallRotate, calling);
    var queuing := calling.(phase := Opening, wanted := Recording, clean := true, producer := Queuing(finish, Ended(start)));
    Then(s, calling, Produce, queuing);
    var storing := queuing.(producer := Storing(finish, t.tail, Ended(start)));
    Then(s, queuing, Produce, storing);
    var stored := storing.(log := t.log + [finish], dropsAt := t.dropsAt + [t.dropped], producer := Queuing(start, Rotated));
    Then(s, storing, Produce, stored);
    assert stored.log[stored.tail] == finish;
    u := stored.(worker := Holding(finish, t.tail), tail := t.tail + 1);
    Then(s, stored, Fetch, u);
  }

  /** An announcement that a later call overtook changes nothing. */
  lemma Overtaken(s: Machine, t: Machine) returns (u: Machine)
    requires Leads(s, t) && t.worker.Announcing? && t.worker.ticket != t.ticket
    ensures Leads(s, u) && u == t.(worker := Waiting)
  {
    hide Leads;
    u := t.(worker := Waiting);
    Then(s, t, Work, u);
  }

  /** It seals the take and opens the next one. */
  lemma Rotates(s: Machine, t: Machine) returns (u: Machine)
    requires Leads(s, t) && Quiet(t) && t.phase == Recording && t.open
    ensures Leads(s, u) && Goes(t, [Finish(t.ticket + 1, true, ByRotate(Recording)), Start(t.ticket + 2, t.dropped)], u)
    ensures u.phase == Recording && u.open && u.take == NewTake(|t.log| + 1, t.dropped) && u.saved == t.saved + Sealed(t, true)
  {
    hide Leads;
    var half := RotateHalf(s, t);
    var announcing := Seals(s, half);
    var stale := Overtaken(s, announcing);
    var opening := GoesThrough(s, stale);
    u := Opens(s, opening);
  }

  lemma {:induction false} WritesAll(s: Machine, t: Machine, records: seq<Record>) returns (u: Machine)
    requires Leads(s, t) && Quiet(t) && t.phase == Recording && t.open && forall r <- records :: !r.IsControl()
    ensures Leads(s, u) && Goes(t, records, u)
    ensures u.phase == Recording && u.open && u.take == WriteAll(t.take, records) && u.saved == t.saved && u.ticket == t.ticket
    decreases |records|
  {
    hide Leads;
    if records == [] {
      u := t;
    } else {
      var before, last := records[..|records| - 1], records[|records| - 1];
      var v := WritesAll(s, t, before);
      u := Writes(s, v, last);
      assert records == before + [last];
    }
  }

  /** Between the control records of one whole recording. */
  function Session(t: Machine, records: seq<Record>, complete: bool): seq<Record> {
    [Start(t.ticket + 1, t.dropped)] + records + [Finish(t.ticket + 2, complete, ByFinish)]
  }

  /** A take of `records`, as its Start and the two suppressions leave it. */
  predicate TakeOf(c: Take, first: nat, drops: nat, records: seq<Record>) {
    && c.first == first && c.dropsAtStart == drops
    && c.rows == Drives(records) && c.packets == FreshPackets(records) && c.blocks == FreshBlocks(records)
  }

  /** `u` is `t` with one more committed take, of exactly these records; or without, if it must not be committed. */
  ghost predicate SavedIff(t: Machine, u: Machine, first: nat, last: nat, records: seq<Record>, commit: bool) {
    if commit && HasDrive(records) && HasPacket(records) then
      && |u.saved| == |t.saved| + 1 && u.saved[..|t.saved|] == t.saved
      && u.saved[|t.saved|].last == last && TakeOf(u.saved[|t.saved|].take, first, t.dropped, records)
    else u.saved == t.saved
  }

  lemma SealedIff(t: Machine, u: Machine, v: Machine, first: nat, records: seq<Record>, complete: bool)
    requires t.open && t.take == WriteAll(NewTake(first, t.dropped), records)
    requires u.saved == t.saved + Sealed(t, complete) && v.saved == t.saved && v.dropped == t.dropped
    ensures SavedIff(v, u, first, |t.log|, records, complete)
  {
    TakeHoldsItsRecords(first, t.dropped, records);
    DrivesIff(records);
    PacketsIff(records);
  }

  /**
    A whole recording: in any state with both threads idle, an empty queue and no recording under way, however
    it was reached and whatever failed before, a start, any data records and a finish can be called and handled
    so that all of them are queued, none is dropped, the state is Idle again, and a take of exactly these
    records is committed if the finish asks for it and there is a drive row and a packet with a sequence.
   */
  lemma WholeRecording(s: Machine, records: seq<Record>, complete: bool) returns (u: Machine)
    requires Quiet(s) && s.phase != Recording && s.phase != Opening && forall r <- records :: !r.IsControl()
    ensures Leads(s, u) && Quiet(u) && u.phase == Idle && u.dropped == s.dropped
    ensures u.log == s.log + Session(s, records, complete)
    ensures SavedIff(s, u, |s.log|, |s.log| + 1 + |records|, records, complete)
  {
    hide Leads, SavedIff, WriteAll, Sealed;
    LeadsNowhere(s);
    var t := Starts(s, s);
    var v := WritesAll(s, t, records);
    u := Finishes(s, v, complete);
    SealedIff(v, u, s, |s.log|, records, complete);
    assert u.log == s.log + Session(s, records, complete);
  }

  /** And with a rotate found recording, the records before it and those after it become a take each. */
  lemma RotatedRecording(s: Machine, before: seq<Record>, after: seq<Record>) returns (m: Machine, u: Machine)
    requires Quiet(s) && s.phase != Recording && s.phase != Opening
    requires forall r <- before + after :: !r.IsControl()
    ensures Leads(s, u) && Quiet(u) && u.phase == Recording && u.open && u.dropped == s.dropped
    ensures |u.log| == |s.log| + |before| + |after| + 3 && u.log[..|s.log|] == s.log
    ensures u.log[|s.log| + 1..|s.log| + 1 + |before|] == before && u.log[|s.log| + 3 + |before|..] == after
    ensures SavedIff(s, m, |s.log|, |s.log| + 1 + |before|, before, true) && u.saved == m.saved
    ensures TakeOf(u.take, |s.log| + 2 + |before|, s.dropped, after)
  {
    hide Leads, SavedIff, WriteAll, Sealed;
    forall r | r in before || r in after ensures !r.IsControl() { assert r in before + after; }
    LeadsNowhere(s);
    var t := Starts(s, s);
    var v := WritesAll(s, t, before);
    m := Rotates(s, v);
    SealedIff(v, m, s, |s.log|, before, true);
    u := WritesAll(s, m, after);
    TakeHoldsItsRecords(|s.log| + 2 + |before|, s.dropped, after);
  }
}
