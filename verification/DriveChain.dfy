/**
  The producer and the controller together: two machines written apart, joined by the bytes of a
  packet and by inequalities between their settings.
 */
module DriveChain {
  import opened Arithmetic
  import opened Bytes
  import opened FloatCast
  import opened Safety
  import opened Wire
  import opened WireEncoder
  import L = ControlLoop
  import P = PlanSupervisor
  import PlanMargin

  /**
    The settings of both sides. Nanoseconds: the producer decides at least every `poll`, a packet is
    received within `transport` of its decision, the controller's clock, read once per iteration before
    anything is received, is at most `skew` behind, and the cast of a plan's rate to a float moves its
    end by at most `drift`.
   */
  datatype Setup = Setup(s: P.Config, c: Config, cast: real -> Word, poll: nat, transport: nat, skew: nat, drift: nat)
  {
    ghost predicate Fitted() {
      && c.Valid() && Rounds(cast)
      && skew <= P.FUTURE_NS && Seconds(transport) <= c.maxPacketAge
      && Seconds(s.renew + poll + transport + skew) <= c.commandLease
      && Seconds(s.maxAge + poll + transport) <= c.maxObservationAge
    }

    /** The margin also covers the way to the controller. */
    predicate Ample() { poll + transport + drift <= s.endMargin }

    /** How long after its end a plan can arrive. */
    function Overrun(): nat { if transport > s.endMargin then transport - s.endMargin else 0 }
  }

  /** Seconds from the first row to the last. */
  function Span(plan: Plan, rate: real): real
    requires rate > 0.0
  {
    (|plan.rows| - 1) as real / rate
  }

  /** In range before the cast and at a good rate after it, and no longer than the controller's horizon. */
  ghost predicate Shaped(u: Setup, plan: Plan) {
    && UnitRows(plan.rows) && plan.fps > 0.0 && GoodRate(u.cast(plan.fps))
    && Span(plan, Value(u.cast(plan.fps))) <= u.c.maxHorizon
  }

  /** Also not moved too far by the cast, and still within the horizon when it arrives. */
  ghost predicate WellMade(u: Setup, plan: Plan) {
    && Shaped(u, plan)
    && Abs(Span(plan, Value(u.cast(plan.fps))) - Span(plan, plan.fps)) <= Seconds(u.drift)
    && Span(plan, plan.fps) + Seconds(u.Overrun()) <= u.c.maxHorizon
  }

  /**
    Neither the first row nor the observation is further ahead than the controller allows by a clock that
    is `skew` behind. The supervisor itself would take them `skew` later.
   */
  predicate NotAhead(u: Setup, plan: Plan, now: P.Clock) {
    plan.t0 + u.skew <= now + P.FUTURE_NS && plan.observation + u.skew <= now + P.FUTURE_NS
  }

  /** What the producer may decide on. */
  ghost predicate Fit(u: Setup, plan: Plan, now: P.Clock) {
    plan == P.CenteredHold || (WellMade(u, plan) && P.Fit(u.s, plan, now) && NotAhead(u, plan, now))
  }

  lemma HoldIsShaped(u: Setup)
    requires u.Fitted()
    ensures Shaped(u, P.CenteredHold)
  {
    Landmarks();
    FloatsStay(u.cast, 0x41F0_0000);
  }

  /** In every run of the producer, what it decides to send is fit. */
  lemma DecidedIsFit(u: Setup, run: seq<P.Event>, decided: P.Clock)
    requires P.InOrder(run, decided)
    requires forall e <- run :: e.Offer? ==> WellMade(u, e.plan) && NotAhead(u, e.plan, e.now)
    requires P.Decide(u.s, P.Run(u.s, P.NothingYet, run), decided) == P.Send
    ensures Fit(u, P.Run(u.s, P.NothingYet, run).plan, decided)
  {
    hide WellMade;
    P.SentPlanIsFit(u.s, run, decided);
    EarlierInOrder(run, decided);
  }

  lemma {:induction false} EarlierInOrder(run: seq<P.Event>, now: P.Clock)
    requires P.InOrder(run, now)
    ensures forall e <- run :: e.now <= now
    decreases |run|
  {
    if run != [] { EarlierInOrder(run[..|run| - 1], run[|run| - 1].now); }
  }

  /** A plan fit at `now` ends later than the margin after it. */
  lemma EndsAfterTheMargin(s: P.Config, plan: Plan, now: P.Clock)
    requires P.Fit(s, plan, now)
    ensures Seconds(now + s.endMargin) < Seconds(plan.t0) + Span(plan, plan.fps)
  {
    P.EndIsClose(plan);
    PlanMargin.PerSecond((|plan.rows| - 1) as real, plan.fps);
  }

  // ---- One packet ----

  /**
    A packet on its way: what was decided when, and when it was stamped. `vouched` is history: the last
    decision that found its plan current and fit.
   */
  datatype Flying = Flying(plan: Plan, decided: P.Clock, sent: P.Clock, sequence: Long, flags: Word, vouched: P.Clock)

  ghost predicate Vouched(u: Setup, p: Flying) {
    && Fit(u, p.plan, p.decided) && Fit(u, p.plan, p.vouched)
    && p.decided <= p.sent && p.decided <= p.vouched
    && p.flags < 8 && p.flags % 2 == 1
  }

  /** The controller's clock at the iteration that receives the packet; it can be behind the stamp. */
  ghost predicate OnTime(u: Setup, p: Flying, at: real) {
    Seconds(p.sent) - Seconds(u.skew) <= at <= Seconds(p.decided + u.transport)
  }

  function MessageOfPacket(u: Setup, p: Flying): Message
    requires GoodRows(CutOf(u.cast, p.plan).rows)
  {
    MessageOf(Drive, p.flags, p.sequence, p.sent, Some(CutOf(u.cast, p.plan)))
  }

  /** What the controller reads out of the packet. */
  function PacketAt(u: Setup, p: Flying, at: real): Packet
    requires GoodRows(CutOf(u.cast, p.plan).rows)
  {
    Meaning(MessageOfPacket(u, p), at)
  }

  lemma VouchedIsTimely(u: Setup, p: Flying, at: real)
    requires u.Fitted() && Vouched(u, p) && OnTime(u, p, at)
    ensures GoodRows(CutOf(u.cast, p.plan).rows)
    ensures Admissible(u.c, MessageOfPacket(u, p), at)
  {
    hide Value, Finite, Flat, Rounds, UnitRows;
    HoldIsShaped(u);
    UnitRowsAreGood(u.cast, p.plan);
    var m := MessageOfPacket(u, p);
    assert m.Count() == |p.plan.rows|;
    if p.plan != P.CenteredHold {
      EndsAfterTheMargin(u.s, p.plan, p.decided);
    }
  }

  /**
    Whatever the producer decides to send, first time or renewal, the controller decodes as exactly
    that plan, provided it arrives in time.
   */
  lemma SentIsDecoded(u: Setup, p: Flying, at: real)
    requires u.Fitted() && Vouched(u, p) && OnTime(u, p, at)
    ensures GoodRows(CutOf(u.cast, p.plan).rows)
    ensures Decoded(u.c, Packed(MessageOfPacket(u, p)), at) == Some(PacketAt(u, p, at))
  {
    VouchedIsTimely(u, p, at);
    DecodedOfPacked(u.c, MessageOfPacket(u, p), at);
  }

  // ---- Plans ahead of time ----

  /** Packet `p` is decoded to its plan at every clock the controller can receive it by. */
  ghost predicate AlwaysDecoded(u: Setup, p: Flying)
    requires GoodRows(CutOf(u.cast, p.plan).rows)
  {
    forall at: real | OnTime(u, p, at) :: Decoded(u.c, Packed(MessageOfPacket(u, p)), at) == Some(PacketAt(u, p, at))
  }

  /** A packet received by a clock more than 10 ms before its first row or its observation is refused. */
  lemma AheadIsRefused(u: Setup, p: Flying, at: real)
    requires GoodRows(CutOf(u.cast, p.plan).rows) && p.plan.t0 > 0 && p.plan.observation > 0
    requires Seconds(p.plan.t0) - at > FUTURE || Seconds(p.plan.observation) - at > FUTURE
    ensures Decoded(u.c, Packed(MessageOfPacket(u, p)), at) == None
  {
    hide Value, Finite, Flat, GoodRows, GoodRate;
    DecodedOfPacked(u.c, MessageOfPacket(u, p), at);
  }

  /**
    Exactly which plans, among the well-made ones the supervisor finds fit, the controller decodes
    whenever the packet was stamped and whatever its clock then says.
   */
  lemma AlwaysDecodedIff(u: Setup, plan: Plan, decided: P.Clock, sequence: Long, flags: Word)
    requires u.Fitted() && WellMade(u, plan) && P.Fit(u.s, plan, decided) && flags < 8 && flags % 2 == 1
    ensures GoodRows(CutOf(u.cast, plan).rows)
    ensures NotAhead(u, plan, decided) <==>
      forall sent: P.Clock | decided <= sent :: AlwaysDecoded(u, Flying(plan, decided, sent, sequence, flags, decided))
  {
    hide WellMade, Rounds, Packed;
    assert UnitRows(plan.rows) by { UnitOfWellMade(u, plan); }
    UnitRowsAreGood(u.cast, plan);
    if NotAhead(u, plan, decided) {
      forall sent: P.Clock, at: real | decided <= sent && OnTime(u, Flying(plan, decided, sent, sequence, flags, decided), at)
        ensures var p := Flying(plan, decided, sent, sequence, flags, decided);
          Decoded(u.c, Packed(MessageOfPacket(u, p)), at) == Some(PacketAt(u, p, at))
      {
        SentIsDecoded(u, Flying(plan, decided, sent, sequence, flags, decided), at);
      }
    } else {
      var p, at := Flying(plan, decided, decided, sequence, flags, decided), Seconds(decided) - Seconds(u.skew);
      assert OnTime(u, p, at);
      AheadIsRefused(u, p, at);
    }
  }

  lemma UnitOfWellMade(u: Setup, plan: Plan)
    requires WellMade(u, plan)
    ensures UnitRows(plan.rows)
  {}

  /**
    Such a plan gets through: a new supervisor takes a row 10 ms ahead and decides to send it at once. By
    a clock that is behind at all the packet is fresh, and refused, which latches a fault of the owner's.
   */
  lemma AheadFaults(u: Setup, ci: L.Slot, l: L.Loop) returns (run: seq<P.Event>, p: Flying, at: real)
    requires u.Fitted() && 0 < u.skew && u.s.endMargin < P.FUTURE_NS
    requires l.owner == ci && l.clients[ci].connected
    ensures P.InOrder(run, p.decided) && P.Run(u.s, P.NothingYet, run).plan == p.plan
    ensures P.Decide(u.s, P.Run(u.s, P.NothingYet, run), p.decided) == P.Send
    ensures p.sent == p.decided && OnTime(u, p, at) && GoodRows(CutOf(u.cast, p.plan).rows)
    ensures Wire.Fresh(u.c, MessageOfPacket(u, p), at) && Decoded(u.c, Packed(MessageOfPacket(u, p)), at) == None
    ensures L.ServeMessage(u.c, l, ci, L.Undecodable, at, true).core.state == Fault
  {
    hide Rounds, Packed, Value, Finite;
    var now: P.Clock := 1000000000;
    var plan := Plan([Zero], 30.0, now + P.FUTURE_NS, now);
    run, at := [P.Offer(plan, now)], Seconds(now) - Seconds(u.skew);
    p := Flying(plan, now, now, 1, 1, now);
    assert run[..0] == [];
    assert P.Judge(u.s, P.NothingYet, plan, now) == P.Accepted;
    assert P.Run(u.s, P.NothingYet, run) == P.AfterOffer(u.s, P.NothingYet, plan, now);
    assert UnitRows(plan.rows);
    UnitRowsAreGood(u.cast, plan);
    AheadIsRefused(u, p, at);
  }

  // ---- One tick ----

  /** The armed core drives packet `p`, received at `at`. */
  ghost predicate Drives(u: Setup, core: Core, p: Flying, at: real) {
    && core.state == Armed && core.updated == at
    && GoodRows(CutOf(u.cast, p.plan).rows) && core.plan == PacketAt(u, p, at)
  }

  /**
    A tick up to `poll` and `transport` after the last decision that vouched for the plan does not find
    it stale, nor exhausted if the margin is ample.
   */
  lemma StaysUsable(u: Setup, core: Core, p: Flying, at: real, now: real)
    requires u.Fitted() && Vouched(u, p) && Drives(u, core, p, at)
    requires now <= Seconds(p.vouched + u.poll + u.transport)
    ensures !Stale(u.c, core, now)
    ensures u.Ample() ==> !Exhausted(core.plan, now)
  {
    hide Value, Finite, Flat, Rounds, UnitRows, GoodRows;
    HoldIsShaped(u);
    if p.plan != P.CenteredHold {
      EndsAfterTheMargin(u.s, p.plan, p.vouched);
    }
  }

  /** It drives on, unless the plan is exhausted; then it decays for that reason. */
  lemma TickKeepsDriving(u: Setup, core: Core, p: Flying, at: real, now: real)
    requires u.Fitted() && Vouched(u, p) && Drives(u, core, p, at)
    requires now <= Seconds(p.vouched + u.poll + u.transport) && now - at <= u.c.commandLease
    ensures var t := Tick(u.c, core, now, true);
      if Exhausted(core.plan, now) then Ended(t.core) && !u.Ample()
      else Drives(u, t.core, p, at) && t.out == Evaluate(u.c, core.plan, now)
  {
    StaysUsable(u, core, p, at, now);
  }

  /** Run down by an exhausted plan. */
  predicate Ended(core: Core) { (core.state == Decaying || core.state == Fault) && core.reason == ChunkExhausted }
}
