/**
  The published state of the recorder. Start can be called while an earlier Finish is still being
  written, and the writer's check of the transition number and its compare-and-swap are separate
  steps. Ticket numbers are the transition numbers of the requests.
 */
module RecordingState {
  import opened TakeRecorder
  import opened RecordingProtocol
  import opened RecordingSafety

  /** The state has been stored for a request whose last record is not queued yet. */
  predicate Requesting(p: Producer) {
    p.StartStored? || p.FinishStored? || p.Rotating? || ((p.Queuing? || p.Storing?) && !p.next.Data?)
  }

  function Ticket(r: Record): nat {
    match r
    case Start(t, _) => t
    case Finish(t, _, _) => t
    case _ => 0
  }

  /** Highest ticket that may already be in the queue. */
  function Issued(s: Machine): int {
    match s.producer
    case Rotating(_, _) => s.ticket - 2
    case Queuing(_, next) => if next.Data? then s.ticket else if next.Ended? then s.ticket - 2 else s.ticket - 1
    case Storing(_, _, next) => if next.Data? then s.ticket else if next.Ended? then s.ticket - 2 else s.ticket - 1
    case _ => s.ticket
  }

  /** Requests carry the tickets they drew, and the state they asked for is `wanted`. */
  ghost predicate RequestInv(s: Machine) {
    && (s.wanted == Recording || s.wanted == Idle)
    && match s.producer
       case StartStored(_) => s.wanted == Recording
       case FinishStored(_) => s.wanted == Idle
       case Rotating(ticket, _) => 1 <= ticket == s.ticket - 1
       case Queuing(r, next) => CarriesTicket(s, r, next)
       case Storing(r, _, next) => CarriesTicket(s, r, next)
       case _ => true
  }

  ghost predicate CarriesTicket(s: Machine, r: Record, next: Call) {
    (r.IsControl() ==> 1 <= Ticket(r)) &&
    match next
    case Data(_) => !r.IsControl()
    case Began(_) => r.Start? && Ticket(r) == s.ticket && s.wanted == Recording
    case Ended(begin) => r.Finish? && begin.Start? && Ticket(r) == s.ticket - 1 && Ticket(begin) == s.ticket && s.wanted == Recording
    case Rotated => r.Start? && Ticket(r) == s.ticket && s.wanted == Recording
    case Finished => r.Finish? && Ticket(r) == s.ticket && s.wanted == Idle
  }

  /** Tickets grow along the queue and are at least 1. */
  ghost predicate TicketsInv(s: Machine) {
    && (forall i | 0 <= i < |s.log| && s.log[i].IsControl() :: 1 <= Ticket(s.log[i]) <= Issued(s))
    && (forall i, j | 0 <= i < j < |s.log| && s.log[i].IsControl() && s.log[j].IsControl() ::
          Ticket(s.log[i]) < Ticket(s.log[j]))
  }

  /** The control record the writer is busy with, if any. */
  predicate BusyWith(w: Worker, ticket: nat) {
    match w
    case Holding(r, _) => r.IsControl() && Ticket(r) == ticket
    case Sealing(t, _, _) => t == ticket
    case Sealed(t) => t == ticket
    case Announcing(t, _, _) => t == ticket
    case Swapping(t, _, _) => t == ticket
    case _ => false
  }

  ghost predicate Came(s: Machine, ticket: nat, begun: bool) {
    exists k :: 0 <= k < s.tail <= |s.log| && s.log[k].IsControl() && Ticket(s.log[k]) == ticket && (s.log[k].Start? <==> begun)
  }

  /** Whatever the writer announces comes from a record it has taken out of the queue. */
  ghost predicate BusyInv(s: Machine) {
    && s.tail <= |s.log|
    && match s.worker
       case Holding(r, _) => r.IsControl() ==> Came(s, Ticket(r), r.Start?)
       case Sealing(t, _, _) => Came(s, t, false)
       case Sealed(t) => Came(s, t, false)
       case Announcing(t, from, to) => Announces(s, t, from, to)
       case Swapping(t, from, to) => Announces(s, t, from, to)
       case _ => true
  }

  ghost predicate Announces(s: Machine, ticket: nat, from: Phase, to: Phase) {
    || (from == Opening && to == Recording && Came(s, ticket, true))
    || (from == Closing && to == Idle && Came(s, ticket, false))
  }

  /** `c` is the request the current state answers. */
  ghost predicate Latest(s: Machine, c: nat) {
    && c < |s.log| && s.log[c].IsControl() && OnlyData(s.log, c + 1, |s.log|)
    && Ticket(s.log[c]) == s.ticket && (s.log[c].Start? <==> s.wanted == Recording)
  }

  ghost predicate NoRequestYet(s: Machine) {
    OnlyData(s.log, 0, |s.log|) && s.wanted == Idle && s.phase == Idle && s.ticket == 0
  }

  /** Once the writer is through with the latest request, the state is the wanted one. */
  ghost predicate Answered(s: Machine) {
    NoRequestYet(s) || exists c: nat :: Answers(s, c)
  }

  ghost predicate Answers(s: Machine, c: nat) {
    Latest(s, c) && (c < s.tail && !BusyWith(s.worker, s.ticket) ==> s.phase == s.wanted)
  }

  ghost predicate PhaseInv(s: Machine) {
    (s.producer.Abandoning? ==> !s.clean) &&
    (s.clean ==>
      && (s.wanted == Recording ==> s.phase == Opening || s.phase == Recording)
      && (s.wanted == Idle ==> s.phase == Closing || s.phase == Idle)
      && (!Requesting(s.producer) ==> Answered(s)))
  }

  ghost predicate TicketInv(s: Machine) { RequestInv(s) && TicketsInv(s) && BusyInv(s) }
  // ---- Preservation ----

  lemma RequestInvKept(s: Machine, a: Action)
    requires RequestInv(s) && Enabled(s, a)
    ensures RequestInv(Apply(s, a))
  {
    match a
    case Produce => RequestInvAfterProduce(s);
    case Work => RequestInvAfterWork(s);
    case _ =>
  }

  lemma RequestInvAfterProduce(s: Machine)
    requires RequestInv(s) && Enabled(s, Produce)
    ensures RequestInv(ProducerStep(s))
  {
    hide Stored, NoRoom;
    if s.producer.Storing? {
      RequestInvAfterStored(s);
      RequestInvAfterNoRoom(s);
    }
  }

  lemma RequestInvAfterStored(s: Machine)
    requires RequestInv(s) && s.producer.Storing?
    ensures RequestInv(Stored(s))
  {}

  lemma RequestInvAfterNoRoom(s: Machine)
    requires RequestInv(s) && s.producer.Storing?
    ensures RequestInv(NoRoom(s))
  {}

  lemma RequestInvAfterWork(s: Machine)
    requires RequestInv(s) && Enabled(s, Work)
    ensures RequestInv(WorkerStep(s))
  {}

  lemma TicketsInvAfterStored(s: Machine)
    requires RequestInv(s) && TicketsInv(s) && s.producer.Storing?
    ensures TicketsInv(Stored(s))
  {
    var t := Stored(s);
    forall i | 0 <= i < |t.log| && t.log[i].IsControl() ensures 1 <= Ticket(t.log[i]) <= Issued(t) {
      if i < |s.log| { assert t.log[i] == s.log[i]; }
    }
    forall i, j | 0 <= i < j < |t.log| && t.log[i].IsControl() && t.log[j].IsControl()
      ensures Ticket(t.log[i]) < Ticket(t.log[j])
    {
      assert t.log[i] == s.log[i];
      if j < |s.log| { assert t.log[j] == s.log[j]; }
    }
  }

  lemma TicketsInvAfterNoRoom(s: Machine)
    requires TicketsInv(s) && s.producer.Storing?
    ensures TicketsInv(NoRoom(s))
  {}

  lemma TicketsInvAfterProduce(s: Machine)
    requires RequestInv(s) && TicketsInv(s) && Enabled(s, Produce)
    ensures TicketsInv(ProducerStep(s))
  {
    hide RequestInv;
    if s.producer.Storing? {
      TicketsInvAfterStored(s);
      TicketsInvAfterNoRoom(s);
    }
  }

  lemma TicketsInvAfterWork(s: Machine)
    requires TicketsInv(s) && Enabled(s, Work)
    ensures TicketsInv(WorkerStep(s))
  {}

  lemma TicketsInvKept(s: Machine, a: Action)
    requires RequestInv(s) && TicketsInv(s) && Enabled(s, a)
    ensures TicketsInv(Apply(s, a))
  {
    match a
    case Produce => TicketsInvAfterProduce(s);
    case Work => TicketsInvAfterWork(s);
    case _ =>
  }

  /** Records already taken out stay where they are. */
  lemma CameStays(s: Machine, t: Machine, ticket: nat, begun: bool)
    requires Came(s, ticket, begun) && s.log <= t.log && s.tail <= t.tail <= |t.log|
    ensures Came(t, ticket, begun)
  {
    var k :| 0 <= k < s.tail && s.log[k].IsControl() && Ticket(s.log[k]) == ticket && (s.log[k].Start? <==> begun);
    assert t.log[k] == s.log[k];
  }

  lemma BusyInvAfterOthers(s: Machine, t: Machine)
    requires BusyInv(s) && t.worker == s.worker && s.log <= t.log && t.tail == s.tail
    ensures BusyInv(t)
  {
    match s.worker
    case Holding(r, _) => if r.IsControl() { CameStays(s, t, Ticket(r), r.Start?); }
    case Sealing(k, _, _) => CameStays(s, t, k, false);
    case Sealed(k) => CameStays(s, t, k, false);
    case Announcing(k, from, to) => CameStays(s, t, k, to == Recording);
    case Swapping(k, from, to) => CameStays(s, t, k, to == Recording);
    case _ =>
  }

  lemma BusyInvAfterWork(s: Machine)
    requires BusyInv(s) && Enabled(s, Work)
    ensures BusyInv(WorkerStep(s))
  {
    var t := WorkerStep(s);
    match s.worker
    case Holding(r, _) => if r.IsControl() { CameStays(s, t, Ticket(r), r.Start?); }
    case Sealing(k, _, _) => CameStays(s, t, k, false);
    case Sealed(k) => CameStays(s, t, k, false);
    case Announcing(k, from, to) => CameStays(s, t, k, to == Recording);
    case _ =>
  }

  lemma BusyInvKept(s: Machine, a: Action)
    requires BusyInv(s) && Enabled(s, a)
    ensures BusyInv(Apply(s, a))
  {
    match a
    case Work => BusyInvAfterWork(s);
    case Produce =>
      ProducerOnlyAppends(s);
      BusyInvAfterOthers(s, Apply(s, a));
    case Fetch =>
      var t := Apply(s, a);
      assert t.log[s.tail] == s.log[s.tail];
    case Throw =>
    case Exit =>
    case _ => BusyInvAfterOthers(s, Apply(s, a));
  }

  /** The request a ticket belongs to is unique. */
  lemma TicketNamesRequest(s: Machine, c: nat, begun: bool)
    requires TicketsInv(s) && Latest(s, c) && Came(s, s.ticket, begun)
    ensures begun <==> s.wanted == Recording
    ensures c < s.tail
  {
    var k :| 0 <= k < s.tail && s.log[k].IsControl() && Ticket(s.log[k]) == s.ticket && (s.log[k].Start? <==> begun);
    assert k == c;
  }

  lemma AnsweredAfterWork(s: Machine)
    requires TicketInv(s) && PhaseInv(s) && Enabled(s, Work) && s.clean && !Requesting(s.producer)
    ensures Answered(WorkerStep(s))
  {
    var t := WorkerStep(s);
    WorkerKeepsRequests(s);
    if NoRequestYet(s) {
      assert NoRequestYet(t);
    } else {
      var c: nat :| Answers(s, c);
      AnswersAfterWork(s, c);
    }
  }

  lemma AnswersAfterWork(s: Machine, c: nat)
    requires TicketInv(s) && PhaseInv(s) && Enabled(s, Work) && s.clean && Answers(s, c)
    ensures Answers(WorkerStep(s), c)
  {
    var t := WorkerStep(s);
    WorkerKeepsRequests(s);
    assert Latest(t, c);
    match s.worker
    case Swapping(ticket, from, to) =>
      if ticket == s.ticket { TicketNamesRequest(s, c, to == Recording); }
    case _ =>
  }

  lemma PhaseInvAfterWork(s: Machine)
    requires TicketInv(s) && PhaseInv(s) && Enabled(s, Work)
    ensures PhaseInv(WorkerStep(s))
  {
    WorkerKeepsRequests(s);
    if s.clean && !Requesting(s.producer) { AnsweredAfterWork(s); }
  }

  lemma WorkerKeepsRequests(s: Machine)
    requires BusyInv(s) && Enabled(s, Work)
    ensures var t := WorkerStep(s);
      && t.log == s.log && t.wanted == s.wanted && t.clean == s.clean && t.producer == s.producer && t.ticket == s.ticket
      && (t.phase == s.phase || (s.phase == Opening && t.phase == Recording) || (s.phase == Closing && t.phase == Idle))
  {}

  lemma PhaseInvAfterFetch(s: Machine)
    requires TicketInv(s) && PhaseInv(s) && Enabled(s, Fetch)
    ensures PhaseInv(Apply(s, Fetch))
  {
    var t := Apply(s, Fetch);
    if s.clean && !Requesting(s.producer) && !NoRequestYet(s) {
      var c: nat :| Answers(s, c);
      assert Answers(t, c);
      if c == s.tail { assert BusyWith(t.worker, t.ticket); }
    }
  }

  lemma PhaseInvAfterStored(s: Machine)
    requires TicketInv(s) && PhaseInv(s) && s.producer.Storing?
    ensures PhaseInv(Stored(s))
  {
    var t := Stored(s);
    if t.clean && !Requesting(t.producer) {
      if s.producer.next.Data? {
        assert !Requesting(s.producer);
        if NoRequestYet(s) { assert NoRequestYet(t); } else {
          var c: nat :| Answers(s, c);
          assert t.log[c] == s.log[c];
          assert Answers(t, c);
        }
      } else {
        assert t.log[|s.log|] == s.producer.record;
        assert Answers(t, |s.log|);
      }
    }
  }

  lemma PhaseInvAfterProduce(s: Machine)
    requires TicketInv(s) && PhaseInv(s) && Enabled(s, Produce)
    ensures PhaseInv(ProducerStep(s))
  {
    var t := ProducerStep(s);
    if s.producer.Storing? {
      PhaseInvAfterStored(s);
      if s.producer.next.Data? { PhaseInvUnmoved(s, NoRoom(s)); }
    } else if s.producer.Queuing? && s.producer.next.Data? {
      PhaseInvUnmoved(s, t);
    } else if s.producer.Abandoning? {
    }
  }

  /** Steps that touch neither queue, state nor tickets. */
  lemma PhaseInvUnmoved(s: Machine, t: Machine)
    requires PhaseInv(s) && !Requesting(s.producer) && (t.producer.Abandoning? ==> !t.clean)
    requires t.log == s.log && t.tail == s.tail && t.ticket == s.ticket && t.wanted == s.wanted
    requires t.phase == s.phase && t.clean == s.clean && t.worker == s.worker
    ensures PhaseInv(t)
  {
    if s.clean && !NoRequestYet(s) {
      var c: nat :| Answers(s, c);
      assert Answers(t, c);
    }
  }

  lemma PhaseInvKept(s: Machine, a: Action)
    requires TicketInv(s) && PhaseInv(s) && Enabled(s, a)
    ensures PhaseInv(Apply(s, a))
  {
    match a
    case Produce => PhaseInvAfterProduce(s);
    case Work => PhaseInvAfterWork(s);
    case Fetch => PhaseInvAfterFetch(s);
    case Throw =>
    case Exit =>
      var t := Apply(s, a);
      if s.clean && !NoRequestYet(s) {
        var c: nat :| Answers(s, c);
        assert Answers(t, c);
      }
    case CallRotate =>
    case _ => PhaseInvUnmoved(s, Apply(s, a));
  }
}
