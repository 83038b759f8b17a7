/** What the control core promises over runs of packets and ticks. */
module ControlTheorems {
  import opened Arithmetic
  import opened Safety

  /** The loop ticks twice at one instant; the second tick changes nothing. */
  lemma TickIsIdempotent(cfg: Config, c: Core, now: real, healthy: bool)
    requires cfg.Valid()
    ensures var once := Tick(cfg, c, now, healthy);
      Tick(cfg, once.core, now, healthy) == once
  {
    var e := Expired(cfg, Checked(cfg, c, now, healthy), now);
    var once := Tick(cfg, c, now, healthy);
    if e.state == Decaying {
      assert Checked(cfg, e, now, healthy) == e;
      assert Expired(cfg, e, now) == e;
    } else if e.state == Armed {
      assert Checked(cfg, once.core, now, healthy) == once.core;
    }
  }

  // ---- Decay ----

  datatype Event =
    | Packets(p: Packet, now: real, healthy: bool)
    | Ticks(now: real, healthy: bool)
    | Faults(now: real, reason: Reason)

  function Step(cfg: Config, c: Core, e: Event): Core {
    match e
    case Packets(p, now, healthy) => Receive(cfg, c, p, now, healthy)
    case Ticks(now, healthy) => Tick(cfg, c, now, healthy).core
    case Faults(_, reason) => Faulted(c, reason)
  }

  function Run(cfg: Config, c: Core, run: seq<Event>): Core
    decreases |run|
  {
    if run == [] then c else Run(cfg, Step(cfg, c, run[0]), run[1..])
  }

  /** The commands of the ticks of a run, with the time of each. */
  function Outputs(cfg: Config, c: Core, run: seq<Event>): seq<(real, Commands)>
    decreases |run|
  {
    if run == [] then [] else
    var rest := Outputs(cfg, Step(cfg, c, run[0]), run[1..]);
    if run[0].Ticks? then [(run[0].now, Tick(cfg, c, run[0].now, run[0].healthy).out)] + rest else rest
  }

  ghost predicate InOrder(run: seq<Event>, from: real) {
    run == [] || (from <= run[0].now && InOrder(run[1..], run[0].now))
  }

  ghost predicate NoDisarm(run: seq<Event>) {
    forall e <- run :: e.Packets? ==> e.p.op != Disarm
  }

  /** Decaying since `start` from command `last`, or stopped for good. */
  ghost predicate Winding(c: Core, last: Commands, start: real) {
    (c.state == Decaying && c.decayFrom == last && c.decayStarted == start) || c.state == Fault
  }

  function Factor(cfg: Config, start: real, now: real): real {
    if cfg.decay > 0.0 then Clamp(1.0 - (now - start) / cfg.decay, 0.0, 1.0) else 0.0
  }

  /** The k-th output is `last` times a factor that starts at most `top` and never grows. */
  ghost predicate Fading(outs: seq<(real, Commands)>, last: Commands, top: real)
    decreases |outs|
  {
    outs == [] ||
    exists k: real :: 0.0 <= k <= top && outs[0].1 == Scaled(last, k) && Fading(outs[1..], last, k)
  }

  lemma FactorFalls(cfg: Config, start: real, a: real, b: real)
    requires cfg.Valid() && start <= a <= b
    ensures 0.0 <= Factor(cfg, start, b) <= Factor(cfg, start, a) <= 1.0
    ensures b >= start + cfg.decay ==> Factor(cfg, start, b) == 0.0
  {
    if cfg.decay > 0.0 {
      DivideOrder(a - start, b - start, cfg.decay);
      if b >= start + cfg.decay { DivideOrder(cfg.decay, b - start, cfg.decay); }
    }
  }

  lemma DivideOrder(a: real, b: real, d: real)
    requires a <= b && d > 0.0
    ensures a / d <= b / d
    ensures d / d == 1.0
  {}

  lemma ScaledByZero(c: Commands)
    ensures Scaled(c, 0.0) == Zero
  {
    forall j | 0 <= j < 6 ensures Scaled(c, 0.0)[j] == Zero[j] {}
  }

  lemma StoppedStaysStopped(cfg: Config, c: Core, e: Event)
    requires c.state == Fault && (e.Packets? ==> e.p.op != Disarm)
    ensures Step(cfg, c, e).state == Fault
    ensures e.Ticks? ==> Tick(cfg, c, e.now, e.healthy).out == Zero
  {}

  lemma DecayingStep(cfg: Config, c: Core, e: Event, last: Commands, start: real)
    requires c.state == Decaying && Winding(c, last, start) && (e.Packets? ==> e.p.op != Disarm)
    ensures Winding(Step(cfg, c, e), last, start)
    ensures e.Ticks? ==>
      var k := if e.healthy then Factor(cfg, start, e.now) else 0.0;
      && (Step(cfg, c, e).state == Fault <==> k == 0.0)
      && Tick(cfg, c, e.now, e.healthy).out == Scaled(last, k)
  {
    ScaledByZero(last);
    if e.Ticks? {
      assert Checked(cfg, c, e.now, e.healthy) == if e.healthy then c else Faulted(c, ImuUnhealthy);
    }
  }

  /**
    Once decaying, no packet but an explicit disarm changes anything: every later command is the last
    armed one times a factor that only falls, the pump is off, and from `decay` seconds on the command is
    zero and the first tick has stopped the machine for good.
   */
  lemma {:induction false} DecayOnlyFades(cfg: Config, c: Core, run: seq<Event>, last: Commands, start: real, now: real)
    requires cfg.Valid() && Winding(c, last, start) && start <= now && InOrder(run, now) && NoDisarm(run)
    ensures var top := if c.state == Fault then 0.0 else Factor(cfg, start, now);
      Fading(Outputs(cfg, c, run), last, top)
    ensures forall i | 0 <= i < |Outputs(cfg, c, run)| && Outputs(cfg, c, run)[i].0 >= start + cfg.decay ::
      Outputs(cfg, c, run)[i].1 == Zero
    ensures Winding(Run(cfg, c, run), last, start) && !Run(cfg, c, run).PumpOn()
    ensures (exists e <- run :: e.Ticks? && e.now >= start + cfg.decay) ==> Run(cfg, c, run).state == Fault
    decreases |run|
  {
    FactorFalls(cfg, start, now, now);
    OutputsEndInZero(cfg, c, run, last, start, now);
    if run != [] {
      var e, next := run[0], Step(cfg, c, run[0]);
      FactorFalls(cfg, start, now, e.now);
      if c.state == Fault { StoppedStaysStopped(cfg, c, e); ScaledByZero(last); } else { DecayingStep(cfg, c, e, last, start); }
      DecayOnlyFades(cfg, next, run[1..], last, start, e.now);
      FadingStep(cfg, c, run, last, start, now);
      forall x | x in run && x.Ticks? && x.now >= start + cfg.decay ensures Run(cfg, c, run).state == Fault {
        if x == e {
          FactorFalls(cfg, start, start, e.now);
          FaultIsFinal(cfg, next, run[1..]);
        } else {
          assert x in run[1..];
        }
      }
    }
  }

  lemma {:induction false} OutputsEndInZero(cfg: Config, c: Core, run: seq<Event>, last: Commands, start: real, now: real)
    requires cfg.Valid() && Winding(c, last, start) && start <= now && InOrder(run, now) && NoDisarm(run)
    ensures forall i | 0 <= i < |Outputs(cfg, c, run)| && Outputs(cfg, c, run)[i].0 >= start + cfg.decay ::
      Outputs(cfg, c, run)[i].1 == Zero
    decreases |run|
  {
    hide Tick, Receive, Factor;
    if run != [] {
      var e, next := run[0], Step(cfg, c, run[0]);
      FactorFalls(cfg, start, now, e.now);
      ScaledByZero(last);
      if c.state == Fault { StoppedStaysStopped(cfg, c, e); } else { DecayingStep(cfg, c, e, last, start); }
      OutputsEndInZero(cfg, next, run[1..], last, start, e.now);
    }
  }

  lemma FadingStep(cfg: Config, c: Core, run: seq<Event>, last: Commands, start: real, now: real)
    requires cfg.Valid() && Winding(c, last, start) && start <= now && InOrder(run, now) && NoDisarm(run) && run != []
    requires var n := Step(cfg, c, run[0]);
      Fading(Outputs(cfg, n, run[1..]), last, if n.state == Fault then 0.0 else Factor(cfg, start, run[0].now))
    ensures Fading(Outputs(cfg, c, run), last, if c.state == Fault then 0.0 else Factor(cfg, start, now))
  {
    var e, n := run[0], Step(cfg, c, run[0]);
    FactorFalls(cfg, start, now, e.now);
    ScaledByZero(last);
    var outs, rest := Outputs(cfg, c, run), Outputs(cfg, n, run[1..]);
    if c.state == Fault { StoppedStaysStopped(cfg, c, e); } else { DecayingStep(cfg, c, e, last, start); }
    var k := if n.state == Fault then 0.0 else Factor(cfg, start, e.now);
    if e.Ticks? {
      assert outs[0].1 == Scaled(last, k) && outs[1..] == rest;
    } else {
      FadingLoosens(outs, last, k, if c.state == Fault then 0.0 else Factor(cfg, start, now));
    }
  }

  lemma FadingLoosens(outs: seq<(real, Commands)>, last: Commands, k: real, top: real)
    requires Fading(outs, last, k) && k <= top
    ensures Fading(outs, last, top)
  {
    if outs != [] {
      var k' :| 0.0 <= k' <= k && outs[0].1 == Scaled(last, k') && Fading(outs[1..], last, k');
      assert k' <= top;
    }
  }

  lemma {:induction false} FaultIsFinal(cfg: Config, c: Core, run: seq<Event>)
    requires c.state == Fault && NoDisarm(run)
    ensures Run(cfg, c, run).state == Fault
    decreases |run|
  {
    if run != [] {
      StoppedStaysStopped(cfg, c, run[0]);
      FaultIsFinal(cfg, Step(cfg, c, run[0]), run[1..]);
    }
  }

  /** How decay begins: the tick that finds the lease or the chunk of an armed core run out. */
  lemma ExpiryStartsDecay(cfg: Config, c: Core, now: real)
    requires cfg.Valid() && c.state == Armed && !Stale(cfg, c, now)
    ensures LeaseExpired(cfg, c, now) || Exhausted(c.plan, now) <==> Tick(cfg, c, now, true).core.state != Armed
    ensures LeaseExpired(cfg, c, now) || Exhausted(c.plan, now) ==>
      Winding(Tick(cfg, c, now, true).core, c.previous, now) && !Tick(cfg, c, now, true).core.PumpOn()
  {}

  // ---- Arming ----

  /** A centered packet with deadman and arm set. */
  /** An event that keeps the hold begun at `start`, and does not end it yet. */
  ghost predicate KeepsHolding(cfg: Config, c: Core, e: Event, start: real) {
    match e
    case Packets(p, now, healthy) => ArmingPacket(p) && healthy && now - start < cfg.armDuration
    case Ticks(now, healthy) => healthy && now - c.updated <= cfg.commandLease
    case Faults(_, _) => false
  }

  ghost predicate AllKeepHolding(cfg: Config, c: Core, run: seq<Event>, start: real)
    decreases |run|
  {
    run == [] || (KeepsHolding(cfg, c, run[0], start) && AllKeepHolding(cfg, Step(cfg, c, run[0]), run[1..], start))
  }

  lemma HoldStep(cfg: Config, c: Core, e: Event, start: real)
    requires c.state == Arming && c.armStarted == start && KeepsHolding(cfg, c, e, start)
    ensures Step(cfg, c, e).state == Arming && Step(cfg, c, e).armStarted == start
  {}

  lemma {:induction false} HoldGoesOn(cfg: Config, c: Core, run: seq<Event>, start: real)
    requires c.state == Arming && c.armStarted == start && AllKeepHolding(cfg, c, run, start)
    ensures Run(cfg, c, run).state == Arming && Run(cfg, c, run).armStarted == start
    decreases |run|
  {
    hide Step, KeepsHolding;
    if run != [] {
      HoldStep(cfg, c, run[0], start);
      HoldGoesOn(cfg, Step(cfg, c, run[0]), run[1..], start);
    }
  }

  /**
    A hold arms: from Disarmed, an arming packet, any healthy ticks within the lease and further arming
    packets, and the first arming packet at least the arming time after the first one. The core then drives
    that packet's plan, with its pump.
   */
  lemma HoldArms(cfg: Config, c: Core, first: Packet, start: real, run: seq<Event>, last: Packet, now: real)
    requires cfg.Valid() && c.state == Disarmed && ArmingPacket(first) && ArmingPacket(last)
    requires AllKeepHolding(cfg, Receive(cfg, c, first, start, true), run, start) && now - start >= cfg.armDuration
    ensures Run(cfg, Receive(cfg, c, first, start, true), run).state == Arming
    ensures var t := Receive(cfg, Run(cfg, Receive(cfg, c, first, start, true), run), last, now, true);
      t.state == Armed && t.plan == last && t.updated == now && t.PumpOn() == last.pump
  {
    HoldGoesOn(cfg, Receive(cfg, c, first, start, true), run, start);
  }

  /** An armed core takes every healthy drive with the deadman set, centered or not, and lets go without it. */
  lemma ArmedTakesDrives(cfg: Config, c: Core, p: Packet, now: real)
    requires c.state == Armed && p.op == Drive
    ensures var t := Receive(cfg, c, p, now, true);
      if p.deadman then t.state == Armed && t.plan == p && t.updated == now && t.PumpOn() == p.pump
      else t.state == Disarmed && !t.PumpOn()
  {}

  /** While it decays the output goes down linearly from the last armed command to nothing at the decay time. */
  lemma DecayIsLinear(cfg: Config, c: Core, now: real, j: nat)
    requires c.state == Decaying && cfg.decay > 0.0 && 0.0 <= now - c.decayStarted <= cfg.decay && j < 6
    ensures Tick(cfg, c, now, true).out[j] * cfg.decay == c.decayFrom[j] * (cfg.decay - (now - c.decayStarted))
  {
    var e, d := now - c.decayStarted, cfg.decay;
    PartLeft(e, d);
    var k := DecayScale(cfg, c, now);
    assert k * d == d - e;
    assert Tick(cfg, c, now, true).out[j] == c.decayFrom[j] * k;
    assert c.decayFrom[j] * k * d == c.decayFrom[j] * (k * d);
  }

  lemma PartLeft(e: real, d: real)
    requires 0.0 <= e <= d && d > 0.0
    ensures Clamp(1.0 - e / d, 0.0, 1.0) * d == d - e
  {
    PartOfWhole(e, d);
    assert (1.0 - e / d) * d == d - e / d * d;
  }

  /** When a tick leaves the core armed, or arming. */
  lemma TickArmedIff(cfg: Config, c: Core, now: real, healthy: bool)
    ensures Tick(cfg, c, now, healthy).core.state == Armed <==>
      && c.state == Armed && healthy && now - c.updated <= cfg.commandLease
      && (c.plan.observation > 0.0 ==> now <= c.plan.observation + cfg.maxObservationAge)
      && (|c.plan.steps| > 1 && c.plan.fps > 0.0 ==> now <= c.plan.t0 + (|c.plan.steps| - 1) as real / c.plan.fps)
    ensures Tick(cfg, c, now, healthy).core.state == Arming <==>
      c.state == Arming && healthy && now - c.updated <= cfg.commandLease
  {}

  /** When a tick finds or makes a fault: an old observation, bad health while active, or a decay that is over. */
  lemma TickFaultIff(cfg: Config, c: Core, now: real, healthy: bool)
    ensures var t := Tick(cfg, c, now, healthy).core;
      t.state == Fault <==>
      || c.state == Fault
      || (c.state == Armed && c.plan.observation > 0.0 && now > c.plan.observation + cfg.maxObservationAge)
      || ((c.state == Armed || c.state == Arming || c.state == Decaying) && !healthy)
      || (c.state == Decaying && DecayScale(cfg, c, now) == 0.0)
      || (c.state == Armed && (LeaseExpired(cfg, c, now) || Exhausted(c.plan, now)) && cfg.decay <= 0.0)
  {
    if c.state == Armed && cfg.decay > 0.0 {
      assert 0.0 / cfg.decay == 0.0;
      assert DecayScale(cfg, Expired(cfg, c, now), now) != 0.0 || !(LeaseExpired(cfg, c, now) || Exhausted(c.plan, now));
    }
  }

  /** When a packet leaves the core armed. */
  lemma ReceiveArmedIff(cfg: Config, c: Core, p: Packet, now: real, healthy: bool)
    requires cfg.Valid()
    ensures Receive(cfg, c, p, now, healthy).state == Armed <==>
      || (c.state == Armed && (p.op == Status || (p.op == Drive && p.deadman && healthy)))
      || (c.state == Arming && p.op == Drive && p.deadman && healthy && p.arm && Centered(p) && now >= c.armStarted + cfg.armDuration)
  {}

  /** When a packet leaves it in Fault. */
  lemma ReceiveFaultIff(cfg: Config, c: Core, p: Packet, now: real, healthy: bool)
    ensures Receive(cfg, c, p, now, healthy).state == Fault <==>
      || p.op == Estop
      || (c.state == Fault && p.op != Disarm)
      || (c.state != Decaying && p.op == Drive && p.deadman && !healthy)
  {}

  // ---- Commands stay in range ----

  ghost predicate InRange(c: Commands) { forall j | 0 <= j < 6 :: -1.0 <= c[j] <= 1.0 }

  lemma Between(a: real, b: real, f: real)
    requires -1.0 <= a <= 1.0 && -1.0 <= b <= 1.0 && 0.0 <= f <= 1.0
    ensures -1.0 <= Mix(a, b, f) <= 1.0
  {
    NonNegative(b + 1.0, f);
    NonNegative(a + 1.0, 1.0 - f);
    NonNegative(1.0 - b, f);
    NonNegative(1.0 - a, 1.0 - f);
    assert (b + 1.0) * f + (a + 1.0) * (1.0 - f) == Mix(a, b, f) + 1.0;
    assert (1.0 - b) * f + (1.0 - a) * (1.0 - f) == 1.0 - Mix(a, b, f);
  }

  /** Interpolation never leaves [-1, 1], and disabled joints stay at zero. */
  lemma EvaluateStaysInRange(cfg: Config, plan: Packet, now: real)
    requires forall row <- plan.steps :: InRange(row)
    ensures InRange(Evaluate(cfg, plan, now))
    ensures !cfg.enableSlew ==> Evaluate(cfg, plan, now)[0] == 0.0
    ensures !cfg.enableTracks ==> Evaluate(cfg, plan, now)[4] == Evaluate(cfg, plan, now)[5] == 0.0
  {
    hide Mix, Position;
    if plan.steps != [] {
      var last, pos := |plan.steps| - 1, Position(plan, now);
      var i := pos.Floor;
      var next := if i + 1 < last then i + 1 else last;
      forall j | 0 <= j < 6 ensures -1.0 <= Evaluate(cfg, plan, now)[j] <= 1.0 {
        assert plan.steps[i] in plan.steps && plan.steps[next] in plan.steps;
        Between(plan.steps[i][j], plan.steps[next][j], pos - i as real);
      }
    }
  }

  /** At the time of row k the command is row k itself. */
  lemma EvaluateHitsRows(cfg: Config, plan: Packet, k: nat)
    requires k < |plan.steps| && plan.fps > 0.0 && cfg.enableSlew && cfg.enableTracks
    ensures Evaluate(cfg, plan, plan.t0 + k as real / plan.fps) == plan.steps[k]
  {
    hide Mix, Position;
    RowTime(plan, k);
    var out := Evaluate(cfg, plan, plan.t0 + k as real / plan.fps);
    forall j | 0 <= j < 6 ensures out[j] == plan.steps[k][j] {
      MixAtStart(plan.steps[k][j], plan.steps[if k + 1 < |plan.steps| - 1 then k + 1 else |plan.steps| - 1][j]);
    }
  }

  lemma RowTime(plan: Packet, k: nat)
    requires k < |plan.steps| && plan.fps > 0.0
    ensures Position(plan, plan.t0 + k as real / plan.fps) == k as real
  {
    hide Progress;
    RowsAfter(plan.t0, k as real, plan.fps);
  }

  lemma RowsAfter(t0: real, k: real, fps: real)
    requires fps > 0.0
    ensures Progress(t0, fps, t0 + k / fps) == k
  {
    var d := k / fps;
    assert d * fps == k;
    assert t0 + d - t0 == d;
  }

  lemma MixAtStart(a: real, b: real)
    ensures Mix(a, b, 0.0) == a
  {}
}
