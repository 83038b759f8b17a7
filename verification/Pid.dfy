/**
  The joint PID of the collector, with anti-windup and gain changes, and the reference controller it
  was ported from. Real arithmetic stands for doubles.
 */
module Pid {
  import opened Arithmetic

  datatype Gains = Gains(kp: real, ki: real, kd: real, tau: real)
  {
    predicate Valid() { kp >= 0.0 && ki >= 0.0 && kd >= 0.0 && tau >= 0.0 }
  }

  datatype Input = Input(setpoint: real, measured: real, dt: real, excitation: real,
                         blockedPositive: bool, blockedNegative: bool)

  datatype State = State(gains: Gains, integral: real, last: real, derivative: real, haveLast: bool)

  datatype Step = Step(state: State, output: real)

  function Period(dt: real): (t: real)
    ensures t >= 0.001
  {
    Max(dt, 0.001)
  }

  function RawDerivative(haveLast: bool, last: real, measured: real, dt: real): real
    requires dt > 0.0
  {
    if haveLast then -(measured - last) / dt else 0.0
  }

  function Filtered(tau: real, old_: real, raw: real, dt: real): real
    requires tau >= 0.0 && dt > 0.0
  {
    if tau == 0.0 then raw else old_ + dt / (tau + dt) * (raw - old_)
  }

  /** The stored integral is worth at most the output limit. */
  function Bounded(x: real, ki: real, limit: real): real {
    if ki != 0.0 then Clamp(x, -limit / ki, limit / ki) else x
  }

  /** The integral after an error has lasted for dt. */
  function Wound(integral: real, error: real, dt: real): real { integral + error * dt }

  function Combine(g: Gains, error: real, integral: real, derivative: real): real {
    g.kp * error + g.ki * integral + g.kd * derivative
  }

  /** Whether the integral may not move: saturated, out of headroom or blocked, in the error's direction. */
  predicate Hold(limit: real, error: real, unsaturated: real, output: real, i: Input) {
    || (error > 0.0 && (unsaturated > limit || output + i.excitation > 1.0 || i.blockedPositive))
    || (error < 0.0 && (unsaturated < -limit || output + i.excitation < -1.0 || i.blockedNegative))
  }

  function Compute(limit: real, s: State, i: Input): Step
    requires s.gains.Valid()
  {
    var dt, error := Period(i.dt), i.setpoint - i.measured;
    var derivative := Filtered(s.gains.tau, s.derivative, RawDerivative(s.haveLast, s.last, i.measured, dt), dt);
    var tentative := Bounded(Wound(s.integral, error, dt), s.gains.ki, limit);
    var unsaturated := Combine(s.gains, error, tentative, derivative);
    var output := Clamp(unsaturated, -limit, limit);
    Step(State(s.gains, if Hold(limit, error, unsaturated, output, i) then s.integral else tentative,
               i.measured, derivative, true), output)
  }

  function Contribution(ki: real, integral: real): real { ki * integral }

  /** The integral worth `c` under the gain `ki`. */
  function Carried(limit: real, c: real, ki: real): real
    requires ki != 0.0
  {
    Clamp(c / ki, -limit / ki, limit / ki)
  }

  function Configured(limit: real, s: State, g: Gains, preserve: bool): State {
    if preserve && g == s.gains then s
    else s.(gains := g,
            integral := if preserve && g.ki != 0.0 then Carried(limit, Contribution(s.gains.ki, s.integral), g.ki) else 0.0)
  }

  const Nothing := Gains(0.0, 0.0, 0.0, 0.0)

  function Cleared(s: State): State { State(s.gains, 0.0, 0.0, 0.0, false) }

  // ---- Bounds over runs ----

  ghost predicate Legal(limit: real) { 0.0 < limit <= 1.0 }

  ghost predicate Contained(limit: real, s: State) {
    s.gains.Valid() && (s.gains.ki != 0.0 ==> -limit / s.gains.ki <= s.integral <= limit / s.gains.ki)
  }

  datatype Event = Computing(i: Input) | Configuring(g: Gains, preserve: bool) | Resetting

  /** What the controller refuses it ignores: negative periods and negative gains. */
  function Next(limit: real, s: State, e: Event): State
    requires s.gains.Valid()
  {
    match e
    case Computing(i) => if i.dt < 0.0 then s else Compute(limit, s, i).state
    case Configuring(g, preserve) => if g.Valid() then Configured(limit, s, g, preserve) else s
    case Resetting => Cleared(s)
  }

  function Run(limit: real, s: State, run: seq<Event>): (t: State)
    requires s.gains.Valid()
    ensures t.gains.Valid()
    decreases |run|
  {
    if run == [] then s else Next(limit, Run(limit, s, run[..|run| - 1]), run[|run| - 1])
  }

  lemma QuotientIsPositive(limit: real, ki: real)
    requires limit > 0.0 && ki > 0.0
    ensures limit / ki > 0.0 && -limit / ki == -(limit / ki) < 0.0
  {}

  lemma ContainedKept(limit: real, s: State, e: Event)
    requires Legal(limit) && Contained(limit, s)
    ensures Contained(limit, Next(limit, s, e))
  {
    if s.gains.ki != 0.0 { QuotientIsPositive(limit, s.gains.ki); }
    match e
    case Computing(i) =>
    case Configuring(g, preserve) =>
      if g.Valid() && g.ki != 0.0 { QuotientIsPositive(limit, g.ki); }
    case Resetting =>
  }

  /**
    In every run of computations, gain changes and resets: the integral alone never asks for more
    than the limit, and neither does the output.
   */
  lemma {:induction false} ContainedOverRuns(limit: real, g: Gains, run: seq<Event>, i: Input)
    requires Legal(limit) && g.Valid()
    ensures var t := Run(limit, State(g, 0.0, 0.0, 0.0, false), run);
      Contained(limit, t) && -limit <= Compute(limit, t, i).output <= limit
    decreases |run|
  {
    var start := State(g, 0.0, 0.0, 0.0, false);
    if run == [] {
      if g.ki != 0.0 { QuotientIsPositive(limit, g.ki); }
    } else {
      ContainedOverRuns(limit, g, run[..|run| - 1], i);
      ContainedKept(limit, Run(limit, start, run[..|run| - 1]), run[|run| - 1]);
    }
  }

  // ---- Winding up ----

  /** What the controller would ask for with the error of this period added to the integral. */
  function Asked(limit: real, s: State, i: Input): real
    requires s.gains.Valid()
  {
    var dt := Period(i.dt);
    Combine(s.gains, i.setpoint - i.measured, Bounded(Wound(s.integral, i.setpoint - i.measured, dt), s.gains.ki, limit),
            Filtered(s.gains.tau, s.derivative, RawDerivative(s.haveLast, s.last, i.measured, dt), dt))
  }

  /**
    The integral follows the error, up to its bound, exactly unless the controller asks for more than its
    limit, the output and the excitation leave no headroom, or the joint is blocked, each on the side of the
    error. Then it stays as it is.
   */
  lemma IntegralHeldIff(limit: real, s: State, i: Input)
    requires Legal(limit) && Contained(limit, s) && i.dt >= 0.0
    ensures var error, c := i.setpoint - i.measured, Compute(limit, s, i);
      var heldUp := Asked(limit, s, i) > limit || c.output + i.excitation > 1.0 || i.blockedPositive;
      var heldDown := Asked(limit, s, i) < -limit || c.output + i.excitation < -1.0 || i.blockedNegative;
      c.state.integral ==
        if (error > 0.0 && heldUp) || (error < 0.0 && heldDown) then s.integral
        else Bounded(Wound(s.integral, error, Period(i.dt)), s.gains.ki, limit)
  {
    hide Combine, Filtered, RawDerivative, Bounded, Wound;
  }

  // ---- Gain changes ----

  lemma Worth(limit: real, ki: real, integral: real)
    requires ki > 0.0 && -limit / ki <= integral <= limit / ki
    ensures -limit <= ki * integral <= limit
  {
    assert limit / ki * ki == limit && -limit / ki * ki == -limit;
    assert (limit / ki - integral) * ki >= 0.0 && (integral - -limit / ki) * ki >= 0.0;
  }

  lemma Divided(limit: real, ki: real, c: real)
    requires ki > 0.0 && -limit <= c <= limit
    ensures -limit / ki <= c / ki <= limit / ki && ki * (c / ki) == c
  {
    assert (limit - c) / ki >= 0.0 && (c + limit) / ki >= 0.0;
    assert (limit - c) / ki == limit / ki - c / ki && (c + limit) / ki == c / ki + limit / ki;
  }

  /**
    A preserved gain change is bumpless, the integral part of the output staying what it was, exactly
    when the new integral gain is not zero or there was nothing to keep.
   */
  lemma BumplessIff(limit: real, s: State, g: Gains)
    requires Legal(limit) && Contained(limit, s) && g.Valid()
    ensures var t := Configured(limit, s, g, true);
      Contribution(g.ki, t.integral) == Contribution(s.gains.ki, s.integral) <==>
        g.ki != 0.0 || Contribution(s.gains.ki, s.integral) == 0.0
  {
    hide Contribution, Carried;
    ContributionFits(limit, s);
    KeptWorth(limit, Contribution(s.gains.ki, s.integral), g.ki);
    WorthNothing(s.integral);
    WorthNothing(0.0);
  }

  lemma WorthNothing(integral: real)
    ensures Contribution(0.0, integral) == 0.0
  {}

  lemma ContributionFits(limit: real, s: State)
    requires Legal(limit) && Contained(limit, s)
    ensures -limit <= Contribution(s.gains.ki, s.integral) <= limit
  {
    if s.gains.ki != 0.0 { Worth(limit, s.gains.ki, s.integral); }
  }

  lemma KeptWorth(limit: real, c: real, ki: real)
    requires limit > 0.0 && -limit <= c <= limit && ki >= 0.0
    ensures ki != 0.0 ==> Contribution(ki, Carried(limit, c, ki)) == c
  {
    if ki != 0.0 { Divided(limit, ki, c); }
  }

  // ---- The reference ----

  datatype Reach = Unlimited | Within(lo: real, hi: real)

  datatype RefState = RefState(integralSum: real, lastValue: Last, dFilt: real)

  datatype Last = NoneYet | Value(v: real)

  datatype RefStep = RefStep(state: RefState, output: real)

  /** The settings of a reference controller. */
  datatype Settings = Settings(kp: real, ki: real, kd: real, minOutput: real, maxOutput: real, tau: real, reach: Reach)

  /** Integral limits default to what the outputs and the integral gain allow. */
  function MakeSettings(kp: real, ki: real, kd: real, minOutput: real, maxOutput: real, tau: real): (p: Settings)
    ensures p.tau >= 0.0
  {
    Settings(kp, ki, kd, minOutput, maxOutput, Max(0.0, tau),
      if ki != 0.0 then Within(Min(minOutput / ki, maxOutput / ki), Max(minOutput / ki, maxOutput / ki)) else Unlimited)
  }

  function Reached(reach: Reach, x: real): real {
    if reach.Unlimited? then x else Max(reach.lo, Min(reach.hi, x))
  }

  function RefRaw(last: Last, value: real, t: real): real
    requires t > 0.0
  {
    if last.NoneYet? then 0.0 else -(value - last.v) / t
  }

  function RefFilter(tau: real, d: real, raw: real, t: real): real
    requires tau >= 0.0 && t > 0.0
  {
    if tau == 0.0 then raw else d + t / (tau + t) * (raw - d)
  }

  function RefSum(p: Settings, error: real, integral: real, d: real): real {
    p.kp * error + p.ki * integral + p.kd * d
  }

  function RefCompute(p: Settings, r: RefState, setpoint: real, value: real, dt: real): RefStep
    requires p.tau >= 0.0
  {
    var t, error := Max(dt, 0.001), setpoint - value;
    var d := RefFilter(p.tau, r.dFilt, RefRaw(r.lastValue, value, t), t);
    var tentative := Reached(p.reach, r.integralSum + error * t);
    var unsat := RefSum(p, error, tentative, d);
    var out := Max(p.minOutput, Min(p.maxOutput, unsat));
    var sameSign := (unsat > 0.0 && error > 0.0) || (unsat < 0.0 && error < 0.0);
    RefStep(RefState(if out != unsat && sameSign then r.integralSum else tentative, Value(value), d), out)
  }

  /** The same state in both controllers. */
  ghost predicate Same(s: State, r: RefState) {
    && s.integral == r.integralSum && s.derivative == r.dFilt
    && (if s.haveLast then r.lastValue == Value(s.last) else r.lastValue == NoneYet)
  }

  ghost predicate Plain(i: Input) { i.dt >= 0.0 && i.excitation == 0.0 && !i.blockedPositive && !i.blockedNegative }

  function SettingsFor(g: Gains, limit: real): Settings { MakeSettings(g.kp, g.ki, g.kd, -limit, limit, g.tau) }

  /** One step: same output, same state afterwards. The two anti-windup rules are the same rule. */
  lemma SameStep(limit: real, s: State, r: RefState, i: Input)
    requires Legal(limit) && s.gains.Valid() && Same(s, r) && Plain(i)
    ensures var c, f := Compute(limit, s, i), RefCompute(SettingsFor(s.gains, limit), r, i.setpoint, i.measured, i.dt);
      c.output == f.output && Same(c.state, f.state) && c.state.gains == s.gains
  {
    hide RefFilter, Filtered, RefSum, Combine, RawDerivative, RefRaw, Bounded, Reached;
    var dt, error := Period(i.dt), i.setpoint - i.measured;
    var raw := RawDerivative(s.haveLast, s.last, i.measured, dt);
    SameRaw(s, r, i.measured, dt);
    SameFilter(s.gains.tau, s.derivative, raw, dt);
    SameBounds(s.gains, limit, s.integral + error * dt);
    var tentative, d := Bounded(Wound(s.integral, error, dt), s.gains.ki, limit), Filtered(s.gains.tau, s.derivative, raw, dt);
    SameSum(s.gains, limit, error, tentative, d);
    SameDecision(limit, error, Combine(s.gains, error, tentative, d), i);
  }

  lemma SameRaw(s: State, r: RefState, measured: real, dt: real)
    requires Same(s, r) && dt > 0.0
    ensures RefRaw(r.lastValue, measured, dt) == RawDerivative(s.haveLast, s.last, measured, dt)
  {}

  lemma SameFilter(tau: real, d: real, raw: real, t: real)
    requires tau >= 0.0 && t > 0.0
    ensures RefFilter(tau, d, raw, t) == Filtered(tau, d, raw, t)
  {}

  lemma SameSum(g: Gains, limit: real, error: real, integral: real, d: real)
    requires g.Valid()
    ensures RefSum(SettingsFor(g, limit), error, integral, d) == Combine(g, error, integral, d)
  {}

  /** Saturated with the error pushing further in, in the reference's words. */
  lemma SameDecision(limit: real, error: real, unsat: real, i: Input)
    requires Legal(limit) && Plain(i)
    ensures var out := Clamp(unsat, -limit, limit);
      && out == Max(-limit, Min(limit, unsat))
      && (Hold(limit, error, unsat, out, i) <==>
          out != unsat && ((unsat > 0.0 && error > 0.0) || (unsat < 0.0 && error < 0.0)))
  {}

  lemma SameBounds(g: Gains, limit: real, x: real)
    requires Legal(limit) && g.Valid()
    ensures Reached(SettingsFor(g, limit).reach, x) == Bounded(x, g.ki, limit)
  {
    if g.ki != 0.0 { QuotientIsPositive(limit, g.ki); }
  }

  function Outputs(limit: real, s: State, inputs: seq<Input>): seq<real>
    requires s.gains.Valid()
    decreases |inputs|
  {
    if inputs == [] then [] else
    var c := Compute(limit, s, inputs[0]);
    [c.output] + Outputs(limit, c.state, inputs[1..])
  }

  function RefOutputs(p: Settings, r: RefState, inputs: seq<Input>): seq<real>
    requires p.tau >= 0.0
    decreases |inputs|
  {
    if inputs == [] then [] else
    var f := RefCompute(p, r, inputs[0].setpoint, inputs[0].measured, inputs[0].dt);
    [f.output] + RefOutputs(p, f.state, inputs[1..])
  }

  /** With no excitation, no blocks and symmetric limits the port and the reference never differ. */
  lemma {:induction false} SameOutputs(limit: real, s: State, r: RefState, inputs: seq<Input>)
    requires Legal(limit) && s.gains.Valid() && Same(s, r)
    requires forall k | 0 <= k < |inputs| :: Plain(inputs[k])
    ensures Outputs(limit, s, inputs) == RefOutputs(SettingsFor(s.gains, limit), r, inputs)
    decreases |inputs|
  {
    if inputs != [] {
      var i := inputs[0];
      SameStep(limit, s, r, i);
      var f := RefCompute(SettingsFor(s.gains, limit), r, i.setpoint, i.measured, i.dt);
      SameOutputs(limit, Compute(limit, s, i).state, f.state, inputs[1..]);
    }
  }
}

/** The two controllers as the objects they are. */
module PidObjects {
  import opened Arithmetic
  import opened Pid

  class Controller {
    const limit: real
    var gains: Gains
    var integral: real
    var last: real
    var derivative: real
    var haveLast: bool

    ghost function View(): State
      reads this
    {
      State(gains, integral, last, derivative, haveLast)
    }

    constructor (gains: Gains, limit: real)
      requires Legal(limit) && gains.Valid()
      ensures this.limit == limit && View() == State(gains, 0.0, 0.0, 0.0, false)
    {
      this.limit := limit;
      this.gains, integral, last, derivative, haveLast := gains, 0.0, 0.0, 0.0, false;
    }

    method Configure(g: Gains, preserve: bool) returns (ok: bool)
      requires gains.Valid()
      modifies this
      ensures ok == g.Valid() && View() == Next(limit, old(View()), Configuring(g, preserve))
    {
      if !(g.kp >= 0.0 && g.ki >= 0.0 && g.kd >= 0.0 && g.tau >= 0.0) { return false; }
      if preserve && g == gains { return true; }
      var contribution := Contribution(gains.ki, integral);
      gains := g;
      integral := if preserve && g.ki != 0.0 then Carried(limit, contribution, g.ki) else 0.0;
      return true;
    }

    method Reset()
      modifies this
      ensures View() == Cleared(old(View()))
    {
      integral, last, derivative, haveLast := 0.0, 0.0, 0.0, false;
    }

    method Update(i: Input) returns (ok: bool, output: real)
      requires gains.Valid()
      modifies this
      ensures ok == (i.dt >= 0.0)
      ensures ok ==> Step(View(), output) == Compute(limit, old(View()), i)
      ensures !ok ==> View() == old(View())
    {
      hide Filtered, Combine, RawDerivative, Bounded;
      if i.dt < 0.0 { return false, 0.0; }
      var dt := Period(i.dt);
      var error := i.setpoint - i.measured;
      var raw := RawDerivative(haveLast, last, i.measured, dt);
      derivative := Filtered(gains.tau, derivative, raw, dt);
      var tentative := Bounded(integral + error * dt, gains.ki, limit);
      var unsaturated := Combine(gains, error, tentative, derivative);
      output := Clamp(unsaturated, -limit, limit);
      var blocked :=
        (error > 0.0 && (unsaturated > limit || output + i.excitation > 1.0 || i.blockedPositive)) ||
        (error < 0.0 && (unsaturated < -limit || output + i.excitation < -1.0 || i.blockedNegative));
      if !blocked { integral := tentative; }
      last := i.measured;
      haveLast := true;
      return true, output;
    }
  }

  class PIDController {
    const settings: Settings
    var integralSum: real
    var lastValue: Last
    var dFilt: real

    ghost function View(): RefState
      reads this
    {
      RefState(integralSum, lastValue, dFilt)
    }

    constructor (kp: real, ki: real, kd: real, minOutput: real, maxOutput: real, tau: real)
      ensures settings == MakeSettings(kp, ki, kd, minOutput, maxOutput, tau)
      ensures View() == RefState(0.0, NoneYet, 0.0)
    {
      settings := MakeSettings(kp, ki, kd, minOutput, maxOutput, tau);
      integralSum, lastValue, dFilt := 0.0, NoneYet, 0.0;
    }

    method Update(setpoint: real, current: real, dt: real) returns (output: real)
      requires settings.tau >= 0.0
      modifies this
      ensures RefStep(View(), output) == RefCompute(settings, old(View()), setpoint, current, dt)
    {
      hide RefFilter, RefSum, RefRaw;
      var t := Max(dt, 0.001);
      var error := setpoint - current;
      dFilt := RefFilter(settings.tau, dFilt, RefRaw(lastValue, current, t), t);
      var tentative := Reached(settings.reach, integralSum + error * t);
      var unsat := RefSum(settings, error, tentative, dFilt);
      output := Max(settings.minOutput, Min(settings.maxOutput, unsat));
      var saturated := output != unsat;
      var sameSign := (unsat > 0.0 && error > 0.0) || (unsat < 0.0 && error < 0.0);
      if !(saturated && sameSign) { integralSum := tentative; }
      lastValue := Value(current);
    }
  }
}
