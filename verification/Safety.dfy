/**
  The safety state machine between drive packets and valves: as functions on its state, which the
  results are about, and as the object the control loop updates. Times are seconds.
 */
module Safety {
  import opened Arithmetic

  datatype Config = Config(commandLease: real, armDuration: real, decay: real, deadline: real,
                           maxPacketAge: real, maxObservationAge: real, maxHorizon: real,
                           enableSlew: bool, enableTracks: bool)
  {
    /** The limits load_config enforces. */
    predicate Valid() {
      0.0 < commandLease <= 5.0 && armDuration >= 0.1 && 0.0 <= decay <= 1.0 &&
      maxPacketAge > 0.0 && maxObservationAge > 0.0 && 0.0 < maxHorizon <= 10.0
    }
  }

  datatype Operation = Drive | Disarm | Estop | Status

  /** Slew, boom, arm, bucket and the two tracks, each in [-1, 1]. */
  type Commands = c: seq<real> | |c| == 6 witness [0.0, 0.0, 0.0, 0.0, 0.0, 0.0]

  const Zero: Commands := [0.0, 0.0, 0.0, 0.0, 0.0, 0.0]

  datatype Packet = Packet(op: Operation, deadman: bool, arm: bool, pump: bool, sequence: nat,
                           sent: real, fps: real, t0: real, observation: real, steps: seq<Commands>)

  datatype State = Disarmed | Arming | Armed | Decaying | Fault

  datatype Reason =
    | Boot | ExplicitDisarm | EmergencyStop | ImuUnhealthy | CenteredArming | Ready | ObservationStale
    | ChunkExhausted | ProducerTimeout | Other(code: int)

  datatype Core = Core(state: State, reason: Reason, pump: bool,
                       armStarted: real, updated: real, decayStarted: real,
                       plan: Packet, previous: Commands, decayFrom: Commands)
  {
    predicate PumpOn() { state == Armed && pump }
  }

  const NoPlan := Packet(Status, false, false, false, 0, 0.0, 0.0, 0.0, 0.0, [])

  const PowerOn := Core(Disarmed, Boot, false, 0.0, 0.0, 0.0, NoPlan, Zero, Zero)

  function Halted(c: Core, state: State, reason: Reason): Core {
    c.(state := state, reason := reason, pump := false, previous := Zero, plan := c.plan.(steps := []))
  }

  function Faulted(c: Core, reason: Reason): Core { Halted(c, Fault, reason) }

  function Disarmed_(c: Core): Core { Halted(c, Disarmed, ExplicitDisarm) }

  /** A single step with every command within 0.01 of zero. */
  predicate Centered(p: Packet) {
    |p.steps| == 1 && forall j | 0 <= j < 6 :: Abs(p.steps[0][j]) <= 0.01
  }

  /** A centered drive that asks to arm. */
  ghost predicate ArmingPacket(p: Packet) { p.op == Drive && p.deadman && p.arm && Centered(p) }

  function Receive(cfg: Config, c: Core, p: Packet, now: real, healthy: bool): Core {
    if p.op == Disarm then Disarmed_(c)
    else if p.op == Estop then Faulted(c, EmergencyStop)
    else if p.op != Drive || c.state == Fault || c.state == Decaying then c
    else if !p.deadman then Disarmed_(c)
    else if !healthy then Faulted(c, ImuUnhealthy)
    else if c.state != Armed && (!p.arm || !Centered(p)) then Disarmed_(c)
    else
      var begun := if c.state == Armed || c.state == Arming then c
                   else c.(state := Arming, reason := CenteredArming, armStarted := now);
      var held := if begun.state == Arming && now - begun.armStarted >= cfg.armDuration
                  then begun.(state := Armed, reason := Ready) else begun;
      held.(plan := p, updated := now, pump := p.pump)
  }

  /** Time of the plan's last row. */
  function PlanEnd(p: Packet): real
    requires p.fps > 0.0
  {
    p.t0 + (|p.steps| - 1) as real / p.fps
  }

  predicate Exhausted(p: Packet, now: real) {
    |p.steps| > 1 && p.fps > 0.0 && now > PlanEnd(p)
  }

  predicate LeaseExpired(cfg: Config, c: Core, now: real) { now - c.updated > cfg.commandLease }

  predicate Stale(cfg: Config, c: Core, now: real) {
    c.plan.observation > 0.0 && now - c.plan.observation > cfg.maxObservationAge
  }

  function Progress(t0: real, fps: real, now: real): real { (now - t0) * fps }

  /** Where `now` falls among the rows, from 0 to the last. */
  function Position(plan: Packet, now: real): (pos: real)
    requires plan.steps != []
    ensures 0.0 <= pos <= (|plan.steps| - 1) as real
  {
    Clamp(Progress(plan.t0, plan.fps, now), 0.0, (|plan.steps| - 1) as real)
  }

  function Mix(a: real, b: real, f: real): real { a + (b - a) * f }

  /** Linear interpolation between the rows around `now`, disabled joints at zero. */
  function Evaluate(cfg: Config, plan: Packet, now: real): Commands {
    if plan.steps == [] then Zero else
    var last := |plan.steps| - 1;
    var pos := Position(plan, now);
    var i := pos.Floor;
    var next := if i + 1 < last then i + 1 else last;
    var a, b := plan.steps[i], plan.steps[next];
    seq(6, j requires 0 <= j < 6 =>
      if (j == 0 && !cfg.enableSlew) || (j >= 4 && !cfg.enableTracks) then 0.0
      else Mix(a[j], b[j], pos - i as real))
  }

  // ---- What the interpolation is ----

  /** The joint takes part: slew and the two tracks have to be enabled. */
  predicate Enabled(cfg: Config, j: nat) { !(j == 0 && !cfg.enableSlew) && !(j >= 4 && !cfg.enableTracks) }

  /** When row k is due. */
  function RowTime(plan: Packet, k: nat): real
    requires plan.fps > 0.0
  {
    plan.t0 + k as real / plan.fps
  }

  /** If `now` is the time of "row k + f", every joint is at (1 - f) of row k and f of the next. */
  predicate Weighted(cfg: Config, plan: Packet, now: real, k: nat, f: real, out: Commands)
    requires plan.fps > 0.0 && k + 1 < |plan.steps|
  {
    now == plan.t0 + (k as real + f) / plan.fps ==>
      forall j | 0 <= j < 6 && Enabled(cfg, j) :: out[j] == (1.0 - f) * plan.steps[k][j] + f * plan.steps[k + 1][j]
  }

  /** `out` lies on the straight line between rows k and k + 1, as far along it as `now` is between their times. */
  ghost predicate OnTheLine(cfg: Config, plan: Packet, now: real, k: nat, out: Commands)
    requires plan.fps > 0.0 && k + 1 < |plan.steps|
  {
    forall f: real | 0.0 <= f <= 1.0 :: Weighted(cfg, plan, now, k, f, out)
  }

  ghost predicate IsRow(cfg: Config, row: Commands, out: Commands) {
    forall j | 0 <= j < 6 && Enabled(cfg, j) :: out[j] == row[j]
  }

  /** The first row before its time, the last one from its time on, lines between, disabled joints at zero. */
  ghost predicate Follows(cfg: Config, plan: Packet, now: real, out: Commands)
    requires plan.fps > 0.0 && plan.steps != []
  {
    && (forall j | 0 <= j < 6 && !Enabled(cfg, j) :: out[j] == 0.0)
    && (now <= RowTime(plan, 0) ==> IsRow(cfg, plan.steps[0], out))
    && (now >= RowTime(plan, |plan.steps| - 1) ==> IsRow(cfg, plan.steps[|plan.steps| - 1], out))
    && (forall k: nat | k + 1 < |plan.steps| :: OnTheLine(cfg, plan, now, k, out))
  }

  lemma ProgressAt(t0: real, fps: real, x: real)
    requires fps > 0.0
    ensures Progress(t0, fps, t0 + x / fps) == x
  {
    var d := x / fps;
    assert d * fps == x;
    assert t0 + d - t0 == d;
  }

  lemma ProgressInOrder(t0: real, fps: real, a: real, b: real)
    requires fps > 0.0 && a <= b
    ensures Progress(t0, fps, a) <= Progress(t0, fps, b)
  {
    NonNegative(b - a, fps);
    assert (b - a) * fps == (b - t0) * fps - (a - t0) * fps;
  }

  lemma MixIsWeighted(a: real, b: real, f: real)
    ensures Mix(a, b, f) == (1.0 - f) * a + f * b
  {}

  /** Evaluate at position k + f, for f up to and with 1. */
  lemma EvaluateOnTheLine(cfg: Config, plan: Packet, now: real, k: nat, f: real, j: nat)
    requires plan.fps > 0.0 && k + 1 < |plan.steps| && 0.0 <= f <= 1.0 && j < 6 && Enabled(cfg, j)
    requires now == plan.t0 + (k as real + f) / plan.fps
    ensures Evaluate(cfg, plan, now)[j] == (1.0 - f) * plan.steps[k][j] + f * plan.steps[k + 1][j]
  {
    hide Mix, Progress;
    ProgressAt(plan.t0, plan.fps, k as real + f);
    var pos := Position(plan, now);
    assert pos == k as real + f;
    var a, b := plan.steps[k][j], plan.steps[k + 1][j];
    if f < 1.0 {
      assert pos.Floor == k;
      MixIsWeighted(a, b, f);
    } else {
      assert pos.Floor == k + 1;
      var next := if k + 2 < |plan.steps| - 1 then k + 2 else |plan.steps| - 1;
      MixIsWeighted(b, plan.steps[next][j], 0.0);
    }
  }

  lemma EvaluateWeighted(cfg: Config, plan: Packet, now: real, k: nat, f: real)
    requires plan.fps > 0.0 && k + 1 < |plan.steps| && 0.0 <= f <= 1.0
    ensures Weighted(cfg, plan, now, k, f, Evaluate(cfg, plan, now))
  {
    hide Evaluate;
    if now == plan.t0 + (k as real + f) / plan.fps {
      forall j | 0 <= j < 6 && Enabled(cfg, j)
        ensures Evaluate(cfg, plan, now)[j] == (1.0 - f) * plan.steps[k][j] + f * plan.steps[k + 1][j]
      {
        EvaluateOnTheLine(cfg, plan, now, k, f, j);
      }
    }
  }

  /** Evaluate does exactly that. */
  lemma EvaluateFollows(cfg: Config, plan: Packet, now: real)
    requires plan.fps > 0.0 && plan.steps != []
    ensures Follows(cfg, plan, now, Evaluate(cfg, plan, now))
  {
    hide Evaluate;
    var out := Evaluate(cfg, plan, now);
    forall k: nat | k + 1 < |plan.steps| ensures OnTheLine(cfg, plan, now, k, out) {
      forall f: real | 0.0 <= f <= 1.0 ensures Weighted(cfg, plan, now, k, f, out) { EvaluateWeighted(cfg, plan, now, k, f); }
    }
    DisabledAreZero(cfg, plan, now);
    EvaluateAtTheEnds(cfg, plan, now);
  }

  lemma DisabledAreZero(cfg: Config, plan: Packet, now: real)
    ensures forall j | 0 <= j < 6 && !Enabled(cfg, j) :: Evaluate(cfg, plan, now)[j] == 0.0
  {}

  lemma EvaluateAtTheEnds(cfg: Config, plan: Packet, now: real)
    requires plan.fps > 0.0 && plan.steps != []
    ensures now <= RowTime(plan, 0) ==> IsRow(cfg, plan.steps[0], Evaluate(cfg, plan, now))
    ensures now >= RowTime(plan, |plan.steps| - 1) ==> IsRow(cfg, plan.steps[|plan.steps| - 1], Evaluate(cfg, plan, now))
  {
    hide Mix, Progress;
    var last := |plan.steps| - 1;
    ProgressAt(plan.t0, plan.fps, 0.0);
    ProgressAt(plan.t0, plan.fps, last as real);
    if now <= RowTime(plan, 0) {
      ProgressInOrder(plan.t0, plan.fps, now, RowTime(plan, 0));
      AtARow(cfg, plan, now, 0);
    }
    if now >= RowTime(plan, last) {
      ProgressInOrder(plan.t0, plan.fps, RowTime(plan, last), now);
      AtARow(cfg, plan, now, last);
    }
  }

  lemma AtARow(cfg: Config, plan: Packet, now: real, k: nat)
    requires k < |plan.steps| && Position(plan, now) == k as real
    ensures IsRow(cfg, plan.steps[k], Evaluate(cfg, plan, now))
  {
    hide Mix, Position;
    var last := |plan.steps| - 1;
    var next := if k + 1 < last then k + 1 else last;
    forall j | 0 <= j < 6 && Enabled(cfg, j) ensures Evaluate(cfg, plan, now)[j] == plan.steps[k][j] {
      MixIsWeighted(plan.steps[k][j], plan.steps[next][j], 0.0);
    }
  }

  /** An armed core whose plan, lease and health are all right. */
  predicate Driving(cfg: Config, c: Core, now: real, healthy: bool) {
    && c.state == Armed && healthy && !Stale(cfg, c, now) && !LeaseExpired(cfg, c, now) && !Exhausted(c.plan, now)
    && c.plan.fps > 0.0 && c.plan.steps != []
  }

  function Scaled(c: Commands, k: real): Commands { seq(6, j requires 0 <= j < 6 => c[j] * k) }

  function DecayScale(cfg: Config, c: Core, now: real): real {
    if cfg.decay > 0.0 then Clamp(1.0 - (now - c.decayStarted) / cfg.decay, 0.0, 1.0) else 0.0
  }

  /** The checks a tick makes before it looks at the armed plan. */
  function Checked(cfg: Config, c: Core, now: real, healthy: bool): Core {
    var a := if c.state == Armed && Stale(cfg, c, now) then Faulted(c, ObservationStale) else c;
    var b := if (a.state == Armed || a.state == Arming || a.state == Decaying) && !healthy then Faulted(a, ImuUnhealthy) else a;
    if b.state == Arming && LeaseExpired(cfg, b, now) then Disarmed_(b) else b
  }

  /** An armed core whose lease or chunk ran out starts to decay from its last command. */
  function Expired(cfg: Config, c: Core, now: real): Core {
    if c.state == Armed && (LeaseExpired(cfg, c, now) || Exhausted(c.plan, now))
    then c.(decayFrom := c.previous, decayStarted := now, state := Decaying,
            reason := if Exhausted(c.plan, now) then ChunkExhausted else ProducerTimeout, pump := false)
    else c
  }

  datatype Ticked = Ticked(core: Core, out: Commands)

  function Tick(cfg: Config, c: Core, now: real, healthy: bool): Ticked {
    var e := Expired(cfg, Checked(cfg, c, now, healthy), now);
    if e.state == Armed then
      var out := Evaluate(cfg, e.plan, now);
      Ticked(e.(previous := out), out)
    else if e.state == Decaying then
      var k := DecayScale(cfg, e, now);
      if k == 0.0 then Ticked(Faulted(e, e.reason), Zero) else Ticked(e, Scaled(e.decayFrom, k))
    else Ticked(e, Zero)
  }

  // ---- The object ----

  class ControlCore {
    const cfg: Config
    var state: State
    var reason: Reason
    var pump: bool
    var armStarted: real
    var updated: real
    var decayStarted: real
    var plan: Packet
    var previous: Commands
    var decayFrom: Commands

    constructor (cfg: Config)
      ensures this.cfg == cfg && View() == PowerOn
    {
      this.cfg := cfg;
      state, reason, pump := Disarmed, Boot, false;
      armStarted, updated, decayStarted := 0.0, 0.0, 0.0;
      plan, previous, decayFrom := NoPlan, Zero, Zero;
    }

    function View(): Core
      reads this
    {
      Core(state, reason, pump, armStarted, updated, decayStarted, plan, previous, decayFrom)
    }

    method Halt(state: State, reason: Reason)
      modifies this
      ensures View() == Halted(old(View()), state, reason)
    {
      this.state := state;
      this.reason := reason;
      pump := false;
      previous := Zero;
      plan := plan.(steps := []);
    }

    method RaiseFault(reason: Reason)
      modifies this
      ensures View() == Faulted(old(View()), reason)
    {
      Halt(Fault, reason);
    }

    method DisarmNow()
      modifies this
      ensures View() == Disarmed_(old(View()))
    {
      Halt(Disarmed, ExplicitDisarm);
    }

    method IsCentered(p: Packet) returns (yes: bool)
      ensures yes == Centered(p)
    {
      if |p.steps| != 1 { return false; }
      var j := 0;
      while j < 6
        invariant 0 <= j <= 6
        invariant forall k | 0 <= k < j :: Abs(p.steps[0][k]) <= 0.01
      {
        if Abs(p.steps[0][j]) > 0.01 { return false; }
        j := j + 1;
      }
      return true;
    }

    method ReceivePacket(p: Packet, now: real, healthy: bool)
      modifies this
      ensures View() == Receive(cfg, old(View()), p, now, healthy)
    {
      if p.op == Disarm { DisarmNow(); return; }
      if p.op == Estop { RaiseFault(EmergencyStop); return; }
      if p.op != Drive || state == Fault || state == Decaying { return; }
      if !p.deadman { DisarmNow(); return; }
      if !healthy { RaiseFault(ImuUnhealthy); return; }
      if state != Armed {
        var centered := IsCentered(p);
        if !p.arm || !centered { DisarmNow(); return; }
        if state != Arming {
          state := Arming;
          reason := CenteredArming;
          armStarted := now;
        }
        if now - armStarted >= cfg.armDuration {
          state := Armed;
          reason := Ready;
        }
      }
      plan := p;
      updated := now;
      pump := p.pump;
    }

    method Scale(c: Commands, k: real) returns (out: Commands)
      ensures out == Scaled(c, k)
    {
      out := c;
      var j := 0;
      while j < 6
        invariant 0 <= j <= 6
        invariant forall i | 0 <= i < 6 :: out[i] == if i < j then Scaled(c, k)[i] else c[i]
      {
        out := out[j := out[j] * k];
        j := j + 1;
      }
    }

    method TickAt(now: real, healthy: bool) returns (out: Commands)
      modifies this
      ensures Ticked(View(), out) == Tick(cfg, old(View()), now, healthy)
      ensures Driving(cfg, old(View()), now, healthy) ==> Follows(cfg, old(plan), now, out)
    {
      assert Driving(cfg, View(), now, healthy) ==> Follows(cfg, plan, now, Evaluate(cfg, plan, now)) by {
        if Driving(cfg, View(), now, healthy) { EvaluateFollows(cfg, plan, now); }
      }
      hide Follows, Evaluate;
      if state == Armed && plan.observation > 0.0 && now - plan.observation > cfg.maxObservationAge {
        RaiseFault(ObservationStale);
      }
      if (state == Armed || state == Arming || state == Decaying) && !healthy { RaiseFault(ImuUnhealthy); }
      if state == Arming && now - updated > cfg.commandLease { DisarmNow(); }
      if state == Armed {
        var exhausted := Exhausted(plan, now);
        if !(now - updated > cfg.commandLease || exhausted) {
          previous := Evaluate(cfg, plan, now);
          return previous;
        }
        decayFrom := previous;
        decayStarted := now;
        state := Decaying;
        reason := if exhausted then ChunkExhausted else ProducerTimeout;
        pump := false;
      }
      if state == Decaying {
        var scale := DecayScale(cfg, View(), now);
        if scale == 0.0 {
          RaiseFault(reason);
          return Zero;
        }
        out := Scale(decayFrom, scale);
        return;
      }
      return Zero;
    }
  }
}
