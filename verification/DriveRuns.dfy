/** Runs of the producer, its link and the controller, with other clients on the same socket. */
module DriveRuns {
  import opened Arithmetic
  import opened Bytes
  import opened DriveChain
  import opened Safety
  import opened Wire
  import opened WireEncoder
  import L = ControlLoop
  import P = PlanSupervisor

  /**
    `packets` is the drive packet the controller took last, by its clock at `taken`, and behind it those on
    their way. `next` is the time of the last decision, `clock` that of the last call of the supervisor, and
    no event so far is later than `time`.
   */
  datatype Chain = Chain(s: P.State, link: Long, packets: seq<Flying>, taken: real, loop: L.Loop,
                         next: P.Clock, clock: P.Clock, time: real)
  {
    ghost predicate Sound() { P.Sound(s) && packets != [] }

    function Last(): Flying
      requires packets != []
    {
      packets[|packets| - 1]
    }
  }

  /** `at` is the clock of the controller's iteration, and `when` the time at which it does what it does. */
  datatype Event =
    | Offer(plan: Plan, now: P.Clock)
    | Decide(now: P.Clock, sent: P.Clock, flags: Word)
    | Arrive(at: real, when: real)
    | AskStatus(sent: P.Clock, at: real, when: real)
    | Beat(at: real, when: real)
    | Elsewhere(e: L.Event)

  function NextNumber(x: Chain): Long { (x.link + 1) % 0x1_0000_0000_0000_0000 }

  function Read(u: Setup, bytes: seq<Byte>, at: real): L.Message {
    match Decoded(u.c, bytes, at)
    case Some(p) => L.Decoded(p)
    case None => L.Undecodable
  }

  /** The encoder refuses what it cannot put into a packet. */
  function AfterArrival(u: Setup, ci: L.Slot, x: Chain, at: real, when: real): Chain
    requires |x.packets| > 1
  {
    var p := x.packets[1];
    if !GoodRows(CutOf(u.cast, p.plan).rows) then x else
    x.(packets := x.packets[1..], taken := at, time := when,
       loop := L.ServeMessage(u.c, x.loop, ci, Read(u, Packed(MessageOfPacket(u, p)), at), at, true))
  }

  function AfterStatus(u: Setup, ci: L.Slot, x: Chain, sent: P.Clock, at: real, when: real): Chain {
    var bytes := Packed(MessageOf(Status, 0, NextNumber(x), sent, None));
    x.(link := NextNumber(x), time := when, loop := L.ServeMessage(u.c, x.loop, ci, Read(u, bytes, at), at, true))
  }

  /** The producer's loop: decide, mark as sent, and put the packet on the link. */
  function AfterDecision(u: Setup, x: Chain, now: P.Clock, sent: P.Clock, flags: Word): Chain
    requires x.Sound()
  {
    var y := x.(s := P.AfterNext(u.s, x.s, now), next := now, clock := now, time := Seconds(now));
    if P.Decide(u.s, x.s, now) == P.Send then
      y.(s := P.AfterSent(y.s, now), link := NextNumber(x),
         packets := x.packets + [Flying(x.s.plan, now, sent, NextNumber(x), flags, now)])
    else
      y.(packets := x.packets[|x.packets| - 1 := x.Last().(vouched := now)])
  }

  function Step(u: Setup, ci: L.Slot, x: Chain, e: Event): Chain
    requires x.Sound()
  {
    match e
    case Offer(plan, now) => x.(s := P.AfterOffer(u.s, x.s, plan, now), clock := now, time := Seconds(now))
    case Decide(now, sent, flags) => AfterDecision(u, x, now, sent, flags)
    case Arrive(at, when) => if |x.packets| > 1 then AfterArrival(u, ci, x, at, when) else x
    case AskStatus(sent, at, when) => AfterStatus(u, ci, x, sent, at, when)
    case Beat(at, when) => x.(loop := L.Step(u.c, x.loop, L.Ticking(at, true)), time := when)
    case Elsewhere(o) => x.(loop := L.Step(u.c, x.loop, o))
  }

  lemma SoundKept(u: Setup, ci: L.Slot, x: Chain, e: Event)
    requires x.Sound()
    ensures Step(u, ci, x, e).Sound()
  {}

  function Run(u: Setup, ci: L.Slot, x: Chain, run: seq<Event>): (y: Chain)
    requires x.Sound()
    ensures y.Sound()
    decreases |run|
  {
    if run == [] then x else
    var before := Run(u, ci, x, run[..|run| - 1]);
    SoundKept(u, ci, before, run[|run| - 1]);
    Step(u, ci, before, run[|run| - 1])
  }

  // ---- What is asked of the producer, the link and the other clients ----

  /** No event is later than the next decision is due, or the arrival of the packet next in line. */
  ghost predicate Due(u: Setup, x: Chain, t: real) {
    && x.time <= t <= Seconds(x.next + u.poll)
    && (|x.packets| > 1 ==> t <= Seconds(x.packets[1].decided + u.transport))
  }

  /** The controller's clock is not ahead, and at most `skew` behind. */
  ghost predicate Reads(u: Setup, at: real, when: real) { when - Seconds(u.skew) <= at <= when }

  /** Another client connects, or says anything but an accepted Disarm or Estop. */
  ghost predicate Harmless(ci: L.Slot, l: L.Loop, e: L.Event) {
    || e.Connecting?
    || (e.Serving? && e.ci != ci && !(L.Accepted(l, e.ci, e.m) && (e.m.p.op == Disarm || e.m.p.op == Estop)))
  }

  /**
    The producer goes on with plans that are well made and not ahead, packets arrive in time, ticks are
    healthy, and nobody else interferes.
   */
  ghost predicate Punctual(u: Setup, ci: L.Slot, x: Chain, e: Event)
    requires x.Sound()
  {
    match e
    case Offer(plan, now) => Due(u, x, Seconds(now)) && WellMade(u, plan) && NotAhead(u, plan, now)
    case Decide(now, sent, flags) =>
      Due(u, x, Seconds(now)) && P.Decide(u.s, x.s, now) != P.Stop && now <= sent && flags < 8 && flags % 2 == 1 && Unwrapped(x)
    case Arrive(at, when) => |x.packets| > 1 && Due(u, x, when) && Seconds(x.packets[1].sent) <= when && Reads(u, at, when)
    case AskStatus(sent, at, when) =>
      |x.packets| == 1 && Due(u, x, when) && Seconds(sent) <= when <= Seconds(sent + u.transport) && Reads(u, at, when) && Unwrapped(x)
    case Beat(at, when) => Due(u, x, when) && Reads(u, at, when)
    case Elsewhere(o) => Harmless(ci, x.loop, o)
  }

  predicate Unwrapped(x: Chain) { x.link + 1 < 0x1_0000_0000_0000_0000 }

  ghost predicate AllPunctual(u: Setup, ci: L.Slot, x: Chain, run: seq<Event>)
    requires x.Sound()
    decreases |run|
  {
    run == [] ||
    var front := run[..|run| - 1];
    AllPunctual(u, ci, x, front) && Punctual(u, ci, Run(u, ci, x, front), run[|run| - 1])
  }

  // ---- What every such run keeps ----

  /** The packets are vouched for, each decided in time after the one before it. */
  ghost predicate Linked(u: Setup, packets: seq<Flying>) {
    && (forall i | 0 <= i < |packets| :: Vouched(u, packets[i]))
    && forall i | 0 < i < |packets| ::
         && packets[i].decided <= packets[i - 1].vouched + u.poll
         && packets[i].decided <= packets[i - 1].decided + u.s.renew + u.poll
         && packets[i - 1].sequence < packets[i].sequence
  }

  /** The newest packet is what the supervisor sent last. */
  ghost predicate UpToDate(u: Setup, x: Chain)
    requires x.Sound()
  {
    var p := x.Last();
    && p.decided == x.s.lastSent && p.sequence <= x.link && p.vouched == x.next
    && (!x.s.pending ==> p.plan == x.s.plan)
    && x.s.lastSent <= x.next <= x.clock && Seconds(x.clock) <= x.time
    && x.next <= x.s.lastSent + u.s.renew
    && !x.s.stopped
    && (!x.s.holding && x.s.plan.observation > 0 ==> P.GoodTimes(x.s.plan, x.clock) && WellMade(u, x.s.plan) && NotAhead(u, x.s.plan, x.clock))
  }

  /** The controller has the producer as owner and has seen none of the packets on their way. */
  ghost predicate Attached(ci: L.Slot, x: Chain)
    requires x.Sound()
  {
    var c := x.loop.clients[ci];
    && x.loop.owner == ci && c.connected
    && c.sequence <= x.link
    && (|x.packets| > 1 ==> c.sequence < x.packets[1].sequence)
  }

  ghost predicate Driven(u: Setup, x: Chain)
    requires x.Sound()
  {
    && Seconds(x.packets[0].sent) - Seconds(u.skew) <= x.taken
    && (Drives(u, x.loop.core, x.packets[0], x.taken) || (Ended(x.loop.core) && !u.Ample()))
  }

  ghost predicate Inv(u: Setup, ci: L.Slot, x: Chain) {
    x.Sound() && Linked(u, x.packets) && UpToDate(u, x) && Attached(ci, x) && Driven(u, x)
  }

  /** The packet taken last is vouched for up to `poll` and `transport` before any event to come. */
  lemma NeverLate(u: Setup, ci: L.Slot, x: Chain, t: real)
    requires Inv(u, ci, x) && Due(u, x, t)
    ensures t <= Seconds(x.packets[0].vouched + u.poll + u.transport)
    ensures t - x.taken <= Seconds(u.s.renew + u.poll + u.transport + u.skew)
  {
    hide Vouched, Drives, P.Sound;
    var p := x.packets[0];
    assert Vouched(u, p);
    DecidedBeforeTaken(u, x);
    if |x.packets| == 1 {
      assert p == x.Last();
    }
  }

  lemma DecidedBeforeTaken(u: Setup, x: Chain)
    requires x.Sound() && Linked(u, x.packets) && Driven(u, x)
    ensures Seconds(x.packets[0].decided) - Seconds(u.skew) <= x.taken
  {
    hide Drives, Fit;
    assert Vouched(u, x.packets[0]);
  }

  lemma OfferKeeps(u: Setup, ci: L.Slot, x: Chain, plan: Plan, now: P.Clock)
    requires Inv(u, ci, x) && Punctual(u, ci, x, Offer(plan, now))
    ensures Inv(u, ci, Step(u, ci, x, Offer(plan, now)))
  {
    hide Linked, Drives, Ended, WellMade;
  }

  // ---- A decision ----

  lemma DecisionIsFit(u: Setup, ci: L.Slot, x: Chain, now: P.Clock, sent: P.Clock, flags: Word)
    requires Inv(u, ci, x) && Punctual(u, ci, x, Decide(now, sent, flags))
    ensures x.clock <= now <= x.next + u.poll && Fit(u, x.s.plan, now)
    ensures P.Decide(u.s, x.s, now) != P.Send ==> now < x.s.lastSent + u.s.renew && !x.s.pending
  {
    hide Linked, Driven, Attached, WellMade;
    P.GoingOnIsFit(u.s, x.s, now);
  }

  lemma SendKeepsLinks(u: Setup, packets: seq<Flying>, p: Flying)
    requires packets != [] && Linked(u, packets) && Vouched(u, p)
    requires var q := packets[|packets| - 1];
      p.decided <= q.vouched + u.poll && p.decided <= q.decided + u.s.renew + u.poll && q.sequence < p.sequence
    ensures Linked(u, packets + [p])
  {
    hide Vouched;
  }

  lemma VouchingKeepsLinks(u: Setup, packets: seq<Flying>, now: P.Clock)
    requires packets != [] && Linked(u, packets)
    requires var q := packets[|packets| - 1]; Fit(u, q.plan, now) && q.vouched <= now
    ensures Linked(u, packets[|packets| - 1 := packets[|packets| - 1].(vouched := now)])
  {
    hide Fit;
    assert Vouched(u, packets[|packets| - 1]);
  }

  lemma SendKeeps(u: Setup, ci: L.Slot, x: Chain, now: P.Clock, sent: P.Clock, flags: Word)
    requires Inv(u, ci, x) && Punctual(u, ci, x, Decide(now, sent, flags))
    requires P.Decide(u.s, x.s, now) == P.Send
    ensures Inv(u, ci, AfterDecision(u, x, now, sent, flags))
  {
    hide Linked, Drives, Ended, WellMade, Fit;
    DecisionIsFit(u, ci, x, now, sent, flags);
    var p := Flying(x.s.plan, now, sent, NextNumber(x), flags, now);
    SendKeepsLinks(u, x.packets, p);
    assert x.packets[0] == (x.packets + [p])[0];
  }

  lemma WaitKeeps(u: Setup, ci: L.Slot, x: Chain, now: P.Clock, sent: P.Clock, flags: Word)
    requires Inv(u, ci, x) && Punctual(u, ci, x, Decide(now, sent, flags))
    requires P.Decide(u.s, x.s, now) != P.Send
    ensures Inv(u, ci, AfterDecision(u, x, now, sent, flags))
  {
    hide Linked, Ended, WellMade, Fit;
    DecisionIsFit(u, ci, x, now, sent, flags);
    VouchingKeepsLinks(u, x.packets, now);
  }

  // ---- The controller ----

  /** The owner's next packet reaches the core. */
  lemma OwnersPacket(u: Setup, ci: L.Slot, l: L.Loop, q: Packet, at: real)
    requires l.owner == ci && l.clients[ci].connected && l.clients[ci].sequence < q.sequence
    requires q.op == Drive || q.op == Status
    ensures var t := L.ServeMessage(u.c, l, ci, L.Decoded(q), at, true);
      && t.owner == ci && t.clients[ci].connected && t.clients[ci].sequence == q.sequence
      && t.core == if q.op == Drive then Receive(u.c, l.core, q, at, true) else l.core
  {
    hide Receive;
  }

  lemma DriveIsTaken(u: Setup, core: Core, p: Flying, at: real)
    requires p.flags % 2 == 1 && GoodRows(CutOf(u.cast, p.plan).rows) && (core.state == Armed || Ended(core))
    ensures var t := Receive(u.c, core, PacketAt(u, p, at), at, true);
      if core.state == Armed then Drives(u, t, p, at) else t == core
  {
    hide GoodRows, Steps, Value, Flat;
  }

  lemma PacketIsTaken(u: Setup, ci: L.Slot, l: L.Loop, p: Flying, at: real)
    requires u.Fitted() && Vouched(u, p) && OnTime(u, p, at)
    requires l.owner == ci && l.clients[ci].connected && l.clients[ci].sequence < p.sequence
    requires l.core.state == Armed || Ended(l.core)
    ensures GoodRows(CutOf(u.cast, p.plan).rows)
    ensures var t := L.ServeMessage(u.c, l, ci, Read(u, Packed(MessageOfPacket(u, p)), at), at, true);
      && t.owner == ci && t.clients[ci].connected && t.clients[ci].sequence == p.sequence
      && if l.core.state == Armed then Drives(u, t.core, p, at) else t.core == l.core
  {
    hide Fit, Decoded, L.ServeMessage, Packed, Receive, Drives, GoodRows;
    SentIsDecoded(u, p, at);
    OwnersPacket(u, ci, l, PacketAt(u, p, at), at);
    DriveIsTaken(u, l.core, p, at);
  }

  lemma ArriveKeeps(u: Setup, ci: L.Slot, x: Chain, at: real, when: real)
    requires u.Fitted() && Inv(u, ci, x) && Punctual(u, ci, x, Arrive(at, when))
    ensures Inv(u, ci, Step(u, ci, x, Arrive(at, when)))
  {
    hide Fit, P.Sound, Decoded, L.ServeMessage, Packed, GoodRows, Ended, Vouched, WellMade, Fit, P.GoodTimes, NotAhead;
    var p := x.packets[1];
    assert OnTime(u, p, at) by { assert Vouched(u, p); }
    assert x.loop.core.state == Armed || Ended(x.loop.core);
    PacketIsTaken(u, ci, x.loop, p, at);
    AfterTaking(u, x.packets);
    NextIsNewer(u, ci, x);
  }

  /** The packet behind the next one is newer, and so is whatever the link will send. */
  lemma NextIsNewer(u: Setup, ci: L.Slot, x: Chain)
    requires Inv(u, ci, x) && |x.packets| > 1
    ensures x.packets[1].sequence <= x.link && (|x.packets| > 2 ==> x.packets[1].sequence < x.packets[2].sequence)
  {
    hide Vouched, Driven, Attached;
    SequencesRise(u, x.packets, 1);
  }

  lemma {:induction false} SequencesRise(u: Setup, packets: seq<Flying>, i: nat)
    requires Linked(u, packets) && i < |packets|
    ensures packets[i].sequence <= packets[|packets| - 1].sequence
    decreases |packets| - i
  {
    hide Vouched;
    if i + 1 < |packets| {
      SequencesRise(u, packets, i + 1);
    }
  }

  lemma AfterTaking(u: Setup, packets: seq<Flying>)
    requires |packets| > 1 && Linked(u, packets)
    ensures Linked(u, packets[1..])
  {
    hide Vouched;
  }

  lemma StatusIsRead(u: Setup, number: Long, sent: P.Clock, at: real)
    requires u.Fitted() && Seconds(sent) - Seconds(u.skew) <= at <= Seconds(sent + u.transport)
    ensures var m := MessageOf(Status, 0, number, sent, None);
      Read(u, Packed(m), at) == L.Decoded(Meaning(m, at)) && Meaning(m, at).op == Status && Meaning(m, at).sequence == number
  {
    DecodedOfPacked(u.c, MessageOf(Status, 0, number, sent, None), at);
  }

  lemma StatusIsTaken(u: Setup, ci: L.Slot, l: L.Loop, number: Long, sent: P.Clock, at: real)
    requires u.Fitted() && Seconds(sent) - Seconds(u.skew) <= at <= Seconds(sent + u.transport)
    requires l.owner == ci && l.clients[ci].connected && l.clients[ci].sequence < number
    ensures var t := L.ServeMessage(u.c, l, ci, Read(u, Packed(MessageOf(Status, 0, number, sent, None)), at), at, true);
      t.owner == ci && t.clients[ci].connected && t.clients[ci].sequence == number && t.core == l.core
  {
    hide Read, Packed, Meaning, L.ServeMessage;
    StatusIsRead(u, number, sent, at);
    OwnersPacket(u, ci, l, Meaning(MessageOf(Status, 0, number, sent, None), at), at);
  }

  lemma StatusKeeps(u: Setup, ci: L.Slot, x: Chain, sent: P.Clock, at: real, when: real)
    requires u.Fitted() && Inv(u, ci, x) && Punctual(u, ci, x, AskStatus(sent, at, when))
    ensures Inv(u, ci, Step(u, ci, x, AskStatus(sent, at, when)))
  {
    hide Read, MessageOf, Packed, L.ServeMessage, Linked, Drives, Ended, WellMade;
    StatusIsTaken(u, ci, x.loop, NextNumber(x), sent, at);
  }

  lemma EndedStaysEnded(u: Setup, core: Core, at: real)
    requires u.Fitted() && Ended(core)
    ensures Ended(Tick(u.c, core, at, true).core)
  {}

  lemma BeatKeeps(u: Setup, ci: L.Slot, x: Chain, at: real, when: real)
    requires u.Fitted() && Inv(u, ci, x) && Punctual(u, ci, x, Beat(at, when))
    ensures Inv(u, ci, Step(u, ci, x, Beat(at, when)))
  {
    hide Tick, Drives, Ended, WellMade, Vouched, Exhausted;
    NeverLate(u, ci, x, when);
    assert Vouched(u, x.packets[0]);
    if Drives(u, x.loop.core, x.packets[0], x.taken) {
      TickKeepsDriving(u, x.loop.core, x.packets[0], x.taken, at);
    } else {
      EndedStaysEnded(u, x.loop.core, at);
    }
  }

  /** What others say changes neither the owner, nor its connection, nor the core. */
  lemma OthersAreHarmless(u: Setup, ci: L.Slot, l: L.Loop, e: L.Event)
    requires l.owner == ci && l.clients[ci].connected && Harmless(ci, l, e)
    ensures var t := L.Step(u.c, l, e);
      t.owner == ci && t.clients[ci] == l.clients[ci] && t.core == l.core
  {}

  lemma ElsewhereKeeps(u: Setup, ci: L.Slot, x: Chain, e: L.Event)
    requires Inv(u, ci, x) && Harmless(ci, x.loop, e)
    ensures Inv(u, ci, Step(u, ci, x, Elsewhere(e)))
  {
    hide Linked, Drives, Ended, L.Step, WellMade;
    OthersAreHarmless(u, ci, x.loop, e);
  }

  lemma InvKept(u: Setup, ci: L.Slot, x: Chain, e: Event)
    requires u.Fitted() && Inv(u, ci, x) && Punctual(u, ci, x, e)
    ensures Inv(u, ci, Step(u, ci, x, e))
  {
    assert x.Sound();
    hide Inv, Step, P.Sound;
    match e {
      case Offer(plan, now) => OfferKeeps(u, ci, x, plan, now);
      case Decide(now, sent, flags) =>
        if P.Decide(u.s, x.s, now) == P.Send { SendKeeps(u, ci, x, now, sent, flags); } else { WaitKeeps(u, ci, x, now, sent, flags); }
      case Arrive(at, when) => ArriveKeeps(u, ci, x, at, when);
      case AskStatus(sent, at, when) => StatusKeeps(u, ci, x, sent, at, when);
      case Beat(at, when) => BeatKeeps(u, ci, x, at, when);
      case Elsewhere(o) => ElsewhereKeeps(u, ci, x, o);
    }
  }

  lemma {:induction false} InvOverRuns(u: Setup, ci: L.Slot, x: Chain, run: seq<Event>)
    requires u.Fitted() && Inv(u, ci, x) && AllPunctual(u, ci, x, run)
    ensures Inv(u, ci, Run(u, ci, x, run))
    decreases |run|
  {
    assert x.Sound();
    hide Inv, Step, P.Sound;
    if run != [] {
      InvOverRuns(u, ci, x, run[..|run| - 1]);
      InvKept(u, ci, Run(u, ci, x, run[..|run| - 1]), run[|run| - 1]);
    }
  }

  // ---- Where a drive begins ----

  /** The armed core of the loop has just taken the packet the producer decided on last. */
  ghost predicate Engaged(u: Setup, ci: L.Slot, x: Chain) {
    && x.Sound() && !x.s.stopped && !x.s.pending
    && (!x.s.holding && x.s.plan.observation > 0 ==> P.GoodTimes(x.s.plan, x.clock) && WellMade(u, x.s.plan) && NotAhead(u, x.s.plan, x.clock))
    && x.packets == [Flying(x.s.plan, x.s.lastSent, x.Last().sent, x.link, x.Last().flags, x.s.lastSent)]
    && x.next == x.clock == x.s.lastSent && Vouched(u, x.Last())
    && OnTime(u, x.Last(), x.taken) && Seconds(x.Last().sent) <= x.time
    && x.loop.owner == ci && x.loop.clients[ci].connected && x.loop.clients[ci].sequence == x.link
    && Drives(u, x.loop.core, x.Last(), x.taken)
  }

  lemma EngagedIsInv(u: Setup, ci: L.Slot, x: Chain)
    requires Engaged(u, ci, x)
    ensures Inv(u, ci, x)
  {
    hide Drives, WellMade, Fit;
  }

  /** The first packet of a producer whose connection `ci` owns the armed loop `l`. */
  function FirstTaken(u: Setup, ci: L.Slot, l: L.Loop, s: P.State, link: Long, now: P.Clock, sent: P.Clock, flags: Word,
                      at: real, when: real): Chain
    requires P.Sound(s)
    requires GoodRows(CutOf(u.cast, s.plan).rows)
  {
    var number := (link + 1) % 0x1_0000_0000_0000_0000;
    var p := Flying(s.plan, now, sent, number, flags, now);
    Chain(P.AfterSent(P.AfterNext(u.s, s, now), now), number, [p], at,
          L.ServeMessage(u.c, l, ci, Read(u, Packed(MessageOfPacket(u, p)), at), at, true), now, now, when)
  }

  /** Whatever the producer did before: its first packet that an armed core takes from the owner engages the two. */
  lemma FirstPacketEngages(u: Setup, ci: L.Slot, l: L.Loop, run: seq<P.Event>, link: Long, now: P.Clock, sent: P.Clock, flags: Word,
                           at: real, when: real)
    requires u.Fitted() && P.InOrder(run, now)
    requires forall e <- run :: e.Offer? ==> WellMade(u, e.plan) && NotAhead(u, e.plan, e.now)
    requires P.Decide(u.s, P.Run(u.s, P.NothingYet, run), now) == P.Send
    requires now <= sent && Seconds(sent) <= when <= Seconds(now + u.transport) && Reads(u, at, when) && flags < 8 && flags % 2 == 1
    requires l.core.state == Armed && l.owner == ci && l.clients[ci].connected && l.clients[ci].sequence <= link
    requires link + 1 < 0x1_0000_0000_0000_0000
    ensures var s := P.Run(u.s, P.NothingYet, run);
      GoodRows(CutOf(u.cast, s.plan).rows) && Engaged(u, ci, FirstTaken(u, ci, l, s, link, now, sent, flags, at, when))
  {
    hide WellMade, Drives, L.ServeMessage, Read, Packed, GoodRows;
    var s := P.Run(u.s, P.NothingYet, run);
    DecidedIsFit(u, run, now);
    P.PlanFromTheRun(u.s, run, now);
    EarlierInOrder(run, now);
    var p := Flying(s.plan, now, sent, link + 1, flags, now);
    PacketIsTaken(u, ci, l, p, at);
  }

  // ---- Results ----

  /**
    As long as the producer goes on, its packets arrive in time by a clock at most `skew` behind, ticks are
    healthy, and others neither disarm nor stop: the
    producer owns an armed core that drives the packet taken last. With a margin short of `Ample` the one
    other way is a plan run out, after which the core decays for that reason.
   */
  lemma KeptUpStaysArmed(u: Setup, ci: L.Slot, x: Chain, run: seq<Event>)
    requires u.Fitted() && Engaged(u, ci, x) && AllPunctual(u, ci, x, run)
    ensures var y := Run(u, ci, x, run);
      && y.loop.owner == ci
      && (Drives(u, y.loop.core, y.packets[0], y.taken) || (Ended(y.loop.core) && !u.Ample()))
  {
    EngagedIsInv(u, ci, x);
    InvOverRuns(u, ci, x, run);
  }

  /** What any tick of such a run finds while the core is armed. */
  lemma NoTickFindsItLate(u: Setup, ci: L.Slot, x: Chain, run: seq<Event>, at: real, when: real)
    requires u.Fitted() && Engaged(u, ci, x) && AllPunctual(u, ci, x, run)
    requires Punctual(u, ci, Run(u, ci, x, run), Beat(at, when)) && Run(u, ci, x, run).loop.core.state == Armed
    ensures var core := Run(u, ci, x, run).loop.core;
      && !LeaseExpired(u.c, core, at) && !Stale(u.c, core, at)
      && (u.Ample() ==> !Exhausted(core.plan, at))
      && (!Exhausted(core.plan, at) ==> Tick(u.c, core, at, true).out == Evaluate(u.c, core.plan, at))
  {
    hide Stale, Exhausted, Evaluate, Tick, Engaged, AllPunctual, UpToDate, Attached, Vouched, Step, Run;
    EngagedIsInv(u, ci, x);
    InvOverRuns(u, ci, x, run);
    var y := Run(u, ci, x, run);
    NeverLate(u, ci, y, when);
    assert Vouched(u, y.packets[0]);
    StaysUsable(u, y.loop.core, y.packets[0], y.taken, at);
    TickKeepsDriving(u, y.loop.core, y.packets[0], y.taken, at);
  }

  /**
    Every renewal and observation age the producer accepts fits the controller's default limits, if a
    decision is at most 50 ms late on its way and the clock at most 10 ms behind; the defaults leave 100 ms.
   */
  lemma AcceptedSettingsFit(u: Setup)
    requires u.c.Valid() && Rounds(u.cast) && u.skew <= P.FUTURE_NS
    requires u.c.commandLease == 0.5 && u.c.maxPacketAge == 0.1 && u.c.maxObservationAge == 1.5
    requires u.s.renew <= 250000000 && u.s.maxAge <= 1450000000
    ensures u.poll + u.transport <= 50000000 ==> u.Fitted()
    ensures u.s.renew == 100000000 && u.s.maxAge == 1400000000 && u.poll + u.transport <= 100000000 ==> u.Fitted()
  {
    hide Rounds;
  }
}
