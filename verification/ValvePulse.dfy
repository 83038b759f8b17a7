/**
  From a command in [-1, 1] to a servo pulse: deadzone, power curve, deadband, ramp and dither, and
  the guarded form the collector uses. The power curve is any curve that keeps 0 and [0, 1], and the
  dither wave is a value in [-1, 1] given with each call.
 */
module ValvePulse {
  import opened Arithmetic

  datatype Valve = Valve(min: real, max: real, center: real, deadzone: real, deadbandPos: real, deadbandNeg: real,
                         direction: real, curve: real -> real,
                         dither: bool, taper: bool, ramp: bool, skipDeadband: bool,
                         ditherAmp: real, ditherHz: real, taperUs: real, rampLimit: real)
  {
    function High(): real { center + deadbandPos }

    function Low(): real { center - deadbandNeg }

    /** The limits the configuration is checked against, and what the curve has to be. */
    ghost predicate Valid() {
      && 0.0 < min < center < max && 0.0 <= deadzone < 1.0
      && deadbandPos >= 0.0 && deadbandNeg >= 0.0 && High() <= max && Low() >= min
      && (direction == 1.0 || direction == -1.0)
      && ditherAmp >= 0.0 && ditherHz >= 0.0 && taperUs >= 0.0 && rampLimit >= 0.0
      && curve(0.0) == 0.0
      && (forall x: real | 0.0 <= x <= 1.0 :: 0.0 <= curve(x) <= 1.0)
      && (forall x: real, y: real | 0.0 <= x <= y <= 1.0 :: curve(x) <= curve(y))
    }
  }

  datatype Ramp = Ramp(pulse: real, time: real, initialized: bool)

  const NoRamp := Ramp(0.0, 0.0, false)

  function Times(a: real, b: real): real { a * b }

  /** Size of the command after deadzone and curve. */
  function Effort(v: Valve, command: real): real
    requires v.deadzone < 1.0
  {
    var a := Abs(Clamp(command, -1.0, 1.0));
    v.curve(if a < v.deadzone then 0.0 else (a - v.deadzone) / (1.0 - v.deadzone))
  }

  /** The side of the center: positive, negative or zero. */
  function Side(v: Valve, command: real): real
    requires v.deadzone < 1.0
  {
    if command < 0.0 then -Effort(v, command) * v.direction else Effort(v, command) * v.direction
  }

  function Above(v: Valve, effort: real): real { v.High() + Times(effort, v.max - v.High()) }

  function Below(v: Valve, effort: real): real { v.Low() - Times(effort, v.Low() - v.min) }

  /** The pulse without ramp and dither. */
  function Target(v: Valve, command: real): real
    requires v.deadzone < 1.0
  {
    var side := Side(v, command);
    if side > 0.0 then Above(v, Effort(v, command))
    else if side < 0.0 then Below(v, Effort(v, command))
    else v.center
  }

  /** Where the ramp starts from: jumping over the deadband counts as no movement. */
  function RampStart(v: Valve, last: real, target: real): real {
    if !v.skipDeadband then last
    else if last == v.center && target != v.center then if target > v.center then v.High() else v.Low()
    else if last > v.center && target < v.center then v.Low()
    else if last < v.center && target > v.center then v.High()
    else last
  }

  function Toward(from: real, target: real, allowed: real): real { from + Clamp(target - from, -allowed, allowed) }

  function Allowed(v: Valve, state: Ramp, now: real): real { Times(v.rampLimit, Clamp(now - state.time, 0.0, 0.05)) }

  predicate Ramped(v: Valve, state: Ramp) { v.ramp && v.rampLimit > 0.0 && state.initialized }

  function Moved(v: Valve, target: real, side: real, state: Ramp, now: real): real {
    if !Ramped(v, state) then target else
    var p := Toward(RampStart(v, state.pulse, target), target, Allowed(v, state, now));
    if v.skipDeadband && side == 0.0 && v.Low() < p < v.High() then v.center else p
  }

  /** The pulse before dither; it is also what the ramp remembers. */
  function Base(v: Valve, command: real, now: real, state: Ramp): real
    requires v.deadzone < 1.0
  {
    Moved(v, Target(v, command), Side(v, command), state, now)
  }

  function Amplitude(v: Valve, pulse: real): real {
    if !v.taper then v.ditherAmp else
    var distance := if pulse > v.center then pulse - v.High() else v.Low() - pulse;
    v.ditherAmp * Clamp(distance / Max(v.taperUs, 0.000001), 0.0, 1.0)
  }

  function Dithered(v: Valve, base: real, wave: real): real {
    if !v.dither || v.ditherAmp == 0.0 || v.ditherHz == 0.0 || Abs(base - v.center) <= 0.000001 then base else
    var amp := Amplitude(v, base);
    var lo, hi := v.min + amp, v.max - amp;
    var middle := if lo > hi then (v.min + v.max) / 2.0 else Clamp(base, lo, hi);
    middle + Amplitude(v, middle) * wave
  }

  function Pulse(v: Valve, base: real, wave: real): real { Clamp(Dithered(v, base, wave), v.min, v.max) }

  /** The wave swings the pulse around its base by the amplitude, as far as the range allows. */
  lemma WaveSwings(v: Valve, base: real, wave: real)
    requires v.dither && v.ditherAmp > 0.0 && v.ditherHz > 0.0 && Abs(base - v.center) > 0.000001 && -1.0 <= wave <= 1.0
    requires v.min + Amplitude(v, base) <= base <= v.max - Amplitude(v, base)
    ensures Pulse(v, base, wave) == base + Amplitude(v, base) * wave
  {
    AmplitudeBounds(v, base);
    Swing(Amplitude(v, base), wave);
    FreeSwing(v, base, wave, Amplitude(v, base));
  }

  lemma FreeSwing(v: Valve, base: real, wave: real, amp: real)
    requires v.dither && v.ditherAmp > 0.0 && v.ditherHz > 0.0 && Abs(base - v.center) > 0.000001 && amp == Amplitude(v, base)
    requires v.min + amp <= base <= v.max - amp && -amp <= amp * wave <= amp
    ensures Pulse(v, base, wave) == base + amp * wave
  {
    hide Amplitude, Clamp;
    Unclamped(base, v.min + amp, v.max - amp);
    assert Dithered(v, base, wave) == base + amp * wave;
    Unclamped(base + amp * wave, v.min, v.max);
  }

  lemma Unclamped(x: real, lo: real, hi: real)
    requires lo <= x <= hi
    ensures Clamp(x, lo, hi) == x
  {}

  lemma Swing(amp: real, wave: real)
    requires amp >= 0.0 && -1.0 <= wave <= 1.0
    ensures -amp <= amp * wave <= amp
  {
    NonNegative(amp, 1.0 - wave);
    NonNegative(amp, 1.0 + wave);
  }

  lemma AmplitudeBounds(v: Valve, pulse: real)
    requires v.ditherAmp >= 0.0
    ensures 0.0 <= Amplitude(v, pulse) <= v.ditherAmp
  {
    var distance := if pulse > v.center then pulse - v.High() else v.Low() - pulse;
    var k := distance / Max(v.taperUs, 0.000001);
    NonNegative(v.ditherAmp, Clamp(k, 0.0, 1.0));
    NonNegative(v.ditherAmp, 1.0 - Clamp(k, 0.0, 1.0));
  }

  /** Without a taper the full amplitude; with one it grows from nothing at the deadband edge. */
  lemma AmplitudeInRange(v: Valve, pulse: real)
    requires v.Valid()
    ensures 0.0 <= Amplitude(v, pulse) <= v.ditherAmp
    ensures !v.taper ==> Amplitude(v, pulse) == v.ditherAmp
    ensures v.taper && v.Low() <= pulse <= v.High() ==> Amplitude(v, pulse) == 0.0
    ensures v.taper && v.taperUs > 0.000001 && (pulse >= v.High() + v.taperUs || pulse <= v.Low() - v.taperUs) && pulse != v.center ==>
      Amplitude(v, pulse) == v.ditherAmp
  {
    var distance := if pulse > v.center then pulse - v.High() else v.Low() - pulse;
    AmplitudeBounds(v, pulse);
    TaperShare(distance, Max(v.taperUs, 0.000001));
  }

  /** Within the taper it grows linearly with the distance from the deadband edge. */
  lemma AmplitudeIsLinear(v: Valve, pulse: real)
    requires v.Valid() && v.taper && v.taperUs > 0.000001 && pulse != v.center
    ensures v.High() <= pulse <= v.High() + v.taperUs ==> Amplitude(v, pulse) * v.taperUs == v.ditherAmp * (pulse - v.High())
    ensures v.Low() - v.taperUs <= pulse <= v.Low() ==> Amplitude(v, pulse) * v.taperUs == v.ditherAmp * (v.Low() - pulse)
  {
    var distance := if pulse > v.center then pulse - v.High() else v.Low() - pulse;
    if 0.0 <= distance <= v.taperUs { PartOfTaper(v.ditherAmp, distance, v.taperUs); }
    if v.Low() - v.taperUs <= pulse <= v.Low() { assert pulse < v.center; }
    hide Clamp;
  }

  lemma PartOfTaper(amp: real, distance: real, taper: real)
    requires 0.0 <= distance <= taper && taper > 0.0
    ensures amp * Clamp(distance / taper, 0.0, 1.0) * taper == amp * distance
  {
    PartOfWhole(distance, taper);
    assert amp * (distance / taper) * taper == amp * (distance / taper * taper);
  }

  lemma TaperShare(distance: real, taper: real)
    requires taper > 0.0
    ensures distance <= 0.0 ==> Clamp(distance / taper, 0.0, 1.0) == 0.0
    ensures distance >= taper ==> Clamp(distance / taper, 0.0, 1.0) == 1.0
  {
    var k := distance / taper;
    assert k * taper == distance && (k - 1.0) * taper == distance - taper;
  }

  // ---- Bounds ----

  lemma Portion(effort: real, width: real)
    requires 0.0 <= effort <= 1.0 && width >= 0.0
    ensures 0.0 <= Times(effort, width) <= width
  {
    NonNegative(effort, width);
    NonNegative(1.0 - effort, width);
    assert (1.0 - effort) * width == width - effort * width;
  }

  lemma ShareInUnit(a: real, zone: real)
    requires 0.0 <= zone < 1.0 && zone <= a <= 1.0
    ensures 0.0 <= (a - zone) / (1.0 - zone) <= 1.0
  {
    QuotientInUnit(a - zone, 1.0 - zone);
  }

  lemma QuotientInUnit(n: real, d: real)
    requires 0.0 <= n <= d && d > 0.0
    ensures 0.0 <= n / d <= 1.0
  {
    var q := n / d;
    assert q * d == n;
    assert (1.0 - q) * d == d - n;
  }

  lemma EffortInUnit(v: Valve, command: real)
    requires v.Valid()
    ensures 0.0 <= Effort(v, command) <= 1.0
  {
    var a := Abs(Clamp(command, -1.0, 1.0));
    if a >= v.deadzone { ShareInUnit(a, v.deadzone); }
  }

  lemma OutsideDeadband(v: Valve, effort: real)
    requires v.Valid() && 0.0 <= effort <= 1.0
    ensures v.High() <= Above(v, effort) <= v.max
    ensures v.min <= Below(v, effort) <= v.Low()
  {
    hide Times;
    Portion(effort, v.max - v.High());
    Portion(effort, v.Low() - v.min);
  }

  /** The target is in range, and outside the deadband on the side of the command. */
  lemma TargetInRange(v: Valve, command: real)
    requires v.Valid()
    ensures v.min <= Target(v, command) <= v.max
    ensures Side(v, command) > 0.0 ==> v.High() <= Target(v, command)
    ensures Side(v, command) < 0.0 ==> Target(v, command) <= v.Low()
  {
    hide Effort, Above, Below, Side;
    EffortInUnit(v, command);
    OutsideDeadband(v, Effort(v, command));
  }

  lemma EffortIsMonotone(v: Valve, a: real, b: real)
    requires v.Valid() && 0.0 <= a <= b
    ensures Effort(v, a) <= Effort(v, b)
  {
    var x, y := Clamp(a, -1.0, 1.0), Clamp(b, -1.0, 1.0);
    if x >= v.deadzone { ShareInUnit(x, v.deadzone); }
    if y >= v.deadzone { ShareInUnit(y, v.deadzone); }
    if x >= v.deadzone { SharesInOrder(x, y, v.deadzone); }
  }

  lemma SharesInOrder(x: real, y: real, zone: real)
    requires 0.0 <= zone < 1.0 && x <= y
    ensures (x - zone) / (1.0 - zone) <= (y - zone) / (1.0 - zone)
  {
    var k := 1.0 / (1.0 - zone);
    NonNegative(y - x, k);
  }

  lemma FurtherOut(v: Valve, e: real, f: real)
    requires v.Valid() && e <= f
    ensures Above(v, e) <= Above(v, f) && Below(v, e) >= Below(v, f)
  {
    hide Times;
    Wider(e, f, v.max - v.High());
    Wider(e, f, v.Low() - v.min);
  }

  lemma Wider(e: real, f: real, width: real)
    requires e <= f && width >= 0.0
    ensures Times(e, width) <= Times(f, width)
  {
    NonNegative(f - e, width);
    assert (f - e) * width == f * width - e * width;
  }

  /** For a command that is not negative, the side is the effort on the valve's own direction. */
  lemma SideOfPositive(v: Valve, command: real)
    requires v.Valid() && command >= 0.0
    ensures Side(v, command) == if v.direction == 1.0 then Effort(v, command) else -Effort(v, command)
  {
    hide Effort;
  }

  /** More command on a side never means a pulse nearer to the center. */
  lemma TargetIsMonotone(v: Valve, a: real, b: real)
    requires v.Valid() && 0.0 <= a <= b
    ensures v.direction == 1.0 ==> Target(v, a) <= Target(v, b)
    ensures v.direction == -1.0 ==> Target(v, a) >= Target(v, b)
  {
    hide Effort, Side, Above, Below;
    EffortInUnit(v, a);
    EffortInUnit(v, b);
    EffortIsMonotone(v, a, b);
    SideOfPositive(v, a);
    SideOfPositive(v, b);
    OutsideDeadband(v, Effort(v, b));
    FurtherOut(v, Effort(v, a), Effort(v, b));
  }

  /** What any power does: one stays one, and what is positive stays positive. */
  ghost predicate PowerLike(v: Valve) { v.curve(1.0) == 1.0 && forall x: real | 0.0 < x <= 1.0 :: v.curve(x) > 0.0 }

  lemma EffortIsZeroIff(v: Valve, command: real)
    requires v.Valid() && PowerLike(v)
    ensures Effort(v, command) == 0.0 <==> Abs(Clamp(command, -1.0, 1.0)) <= v.deadzone
    ensures Abs(command) >= 1.0 ==> Effort(v, command) == 1.0
  {
    var a := Abs(Clamp(command, -1.0, 1.0));
    EffortInUnit(v, command);
    if a >= v.deadzone {
      ShareInUnit(a, v.deadzone);
      ShareAtTheEnds(a, v.deadzone);
    }
  }

  lemma ShareAtTheEnds(a: real, zone: real)
    requires 0.0 <= zone < 1.0 && zone <= a
    ensures (a - zone) / (1.0 - zone) == 0.0 <==> a == zone
    ensures a == 1.0 ==> (a - zone) / (1.0 - zone) == 1.0
  {
    var d := 1.0 - zone;
    assert (a - zone) / d * d == a - zone;
    assert d / d == 1.0;
  }

  /** A command moves the valve exactly if it is beyond the deadzone, to the side of its direction. */
  lemma MovesIff(v: Valve, command: real)
    requires v.Valid() && PowerLike(v)
    ensures Target(v, command) != v.center <==> Abs(command) > v.deadzone
    ensures Abs(command) > v.deadzone ==> (Target(v, command) > v.center <==> command * v.direction > 0.0)
  {
    hide Above, Below, Effort;
    EffortInUnit(v, command);
    EffortIsZeroIff(v, command);
    BeyondTheCenter(v, Effort(v, command));
  }

  lemma BeyondTheCenter(v: Valve, effort: real)
    requires v.Valid() && 0.0 <= effort <= 1.0
    ensures effort > 0.0 ==> Above(v, effort) > v.center && Below(v, effort) < v.center
  {
    hide Times;
    OutsideDeadband(v, effort);
    if effort > 0.0 && v.deadbandPos == 0.0 { Positive(effort, v.max - v.High()); }
    if effort > 0.0 && v.deadbandNeg == 0.0 { Positive(effort, v.Low() - v.min); }
  }

  lemma Positive(a: real, b: real)
    requires a > 0.0 && b > 0.0
    ensures Times(a, b) > 0.0
  {}

  /** Full command is the end of the range on its side. */
  lemma FullCommandIsTheEnd(v: Valve, command: real)
    requires v.Valid() && PowerLike(v) && Abs(command) >= 1.0
    ensures Target(v, command) == if command * v.direction > 0.0 then v.max else v.min
  {
    hide Effort;
    EffortIsZeroIff(v, command);
  }

  /**
    Beyond the deadzone the command's share of the rest goes through the curve, and its value is the part of the
    way from the deadband edge to the end of the range.
   */
  lemma TargetIsOnTheCurve(v: Valve, command: real, share: real)
    requires v.Valid() && PowerLike(v) && v.deadzone < Abs(command) <= 1.0
    requires share * (1.0 - v.deadzone) == Abs(command) - v.deadzone
    ensures Target(v, command) ==
      if command * v.direction > 0.0 then v.High() + v.curve(share) * (v.max - v.High())
      else v.Low() - v.curve(share) * (v.Low() - v.min)
  {
    hide Effort;
    EffortIsCurve(v, command, share);
    EffortIsZeroIff(v, command);
    EffortInUnit(v, command);
  }

  lemma EffortIsCurve(v: Valve, command: real, share: real)
    requires v.deadzone < Abs(command) <= 1.0 && share * (1.0 - v.deadzone) == Abs(command) - v.deadzone
    ensures Effort(v, command) == v.curve(share)
  {
    ShareIsQuotient(Abs(command) - v.deadzone, 1.0 - v.deadzone, share);
  }

  lemma ShareIsQuotient(a: real, b: real, share: real)
    requires b > 0.0 && share * b == a
    ensures a / b == share
  {}

  /** The ramp goes for the target: it is there, or has gone all of the way allowed. */
  lemma RampGoesForTheTarget(v: Valve, command: real, now: real, state: Ramp)
    requires v.Valid() && Ramped(v, state) && !v.skipDeadband
    ensures var target, base, allowed := Target(v, command), Base(v, command, now, state), Allowed(v, state, now);
      if Abs(target - state.pulse) <= allowed then base == target
      else base == if target > state.pulse then state.pulse + allowed else state.pulse - allowed
  {
    hide Target, Allowed;
    AllowedIsPositive(v, state, now);
  }

  lemma StartInRange(v: Valve, last: real, target: real)
    requires v.Valid() && v.min <= last <= v.max
    ensures v.min <= RampStart(v, last, target) <= v.max
  {}

  ghost predicate Contained(v: Valve, state: Ramp) { state.initialized ==> v.min <= state.pulse <= v.max }

  lemma BaseInRange(v: Valve, command: real, now: real, state: Ramp)
    requires v.Valid() && Contained(v, state)
    ensures v.min <= Base(v, command, now, state) <= v.max
  {
    hide Target, Side, Allowed;
    TargetInRange(v, command);
    AllowedIsPositive(v, state, now);
    if state.initialized { StartInRange(v, state.pulse, Target(v, command)); }
  }

  lemma AllowedIsPositive(v: Valve, state: Ramp, now: real)
    requires v.rampLimit >= 0.0
    ensures Allowed(v, state, now) >= 0.0
  {
    NonNegative(v.rampLimit, Clamp(now - state.time, 0.0, 0.05));
  }

  // ---- Excess beyond the deadband ----

  function ExcessHigh(v: Valve, pulse: real): real { Max(pulse - v.High(), 0.0) }

  function ExcessLow(v: Valve, pulse: real): real { Max(v.Low() - pulse, 0.0) }

  /**
    One ramped call: beyond the deadband edge the pulse moves out by at most the ramp limit times the
    time passed, and never by more than 50 ms worth, on either side.
   */
  lemma ExcessGrowsSlowly(v: Valve, command: real, now: real, state: Ramp)
    requires v.Valid() && Ramped(v, state)
    ensures var base := Base(v, command, now, state);
      && ExcessHigh(v, base) <= ExcessHigh(v, state.pulse) + Allowed(v, state, now)
      && ExcessLow(v, base) <= ExcessLow(v, state.pulse) + Allowed(v, state, now)
  {
    hide Target, Side, Allowed;
    AllowedIsPositive(v, state, now);
  }

  lemma Slower(limit: real, t: real, u: real)
    requires limit >= 0.0 && t <= u
    ensures Times(limit, t) <= Times(limit, u)
  {
    Wider(t, u, limit);
  }

  lemma AllowedIsBounded(v: Valve, state: Ramp, now: real)
    requires v.rampLimit >= 0.0
    ensures Allowed(v, state, now) <= Times(v.rampLimit, 0.05)
    ensures now >= state.time ==> Allowed(v, state, now) <= Times(v.rampLimit, now - state.time)
  {
    hide Times;
    var t := Clamp(now - state.time, 0.0, 0.05);
    Slower(v.rampLimit, t, 0.05);
    if now >= state.time { Slower(v.rampLimit, t, now - state.time); }
  }

  // ---- Runs ----

  datatype Call = Call(command: real, now: real, wave: real)

  function After(v: Valve, state: Ramp, call: Call): Ramp
    requires v.deadzone < 1.0
  {
    Ramp(Base(v, call.command, call.now, state), call.now, true)
  }

  function Run(v: Valve, state: Ramp, calls: seq<Call>): Ramp
    requires v.deadzone < 1.0
    decreases |calls|
  {
    if calls == [] then state else After(v, Run(v, state, calls[..|calls| - 1]), calls[|calls| - 1])
  }

  /** The clock of the calls does not go back. */
  ghost predicate InOrder(calls: seq<Call>, from: real)
    decreases |calls|
  {
    calls == [] ||
    (var front := calls[..|calls| - 1];
     InOrder(front, from) && calls[|calls| - 1].now >= (if front == [] then from else front[|front| - 1].now))
  }

  /**
    At the end of a run the pulse is no further out on either side than it was at the start plus the
    ramp limit times the time the run took.
   */
  lemma {:induction false} RampedRunIsSlow(v: Valve, state: Ramp, calls: seq<Call>)
    requires v.Valid() && Ramped(v, state) && InOrder(calls, state.time)
    ensures var t := Run(v, state, calls);
      && t.initialized && t.time == (if calls == [] then state.time else calls[|calls| - 1].now)
      && ExcessHigh(v, t.pulse) <= ExcessHigh(v, state.pulse) + Times(v.rampLimit, t.time - state.time)
      && ExcessLow(v, t.pulse) <= ExcessLow(v, state.pulse) + Times(v.rampLimit, t.time - state.time)
    decreases |calls|
  {
    hide Base, Allowed, ExcessHigh, ExcessLow, Times;
    if calls == [] {
      NoTimeNoReach(v.rampLimit);
    } else {
      var before, call := Run(v, state, calls[..|calls| - 1]), calls[|calls| - 1];
      RampedRunIsSlow(v, state, calls[..|calls| - 1]);
      ExcessGrowsSlowly(v, call.command, call.now, before);
      AllowedIsBounded(v, before, call.now);
      TimesAdd(v.rampLimit, state.time, before.time, call.now);
    }
  }

  lemma NoTimeNoReach(limit: real)
    ensures Times(limit, 0.0) == 0.0
  {}

  lemma TimesAdd(limit: real, a: real, b: real, c: real)
    ensures Times(limit, b - a) + Times(limit, c - b) == Times(limit, c - a)
  {}

  lemma {:induction false} RunStaysContained(v: Valve, state: Ramp, calls: seq<Call>)
    requires v.Valid() && Contained(v, state)
    ensures Contained(v, Run(v, state, calls))
    decreases |calls|
  {
    if calls != [] {
      hide Base;
      var before, call := Run(v, state, calls[..|calls| - 1]), calls[|calls| - 1];
      RunStaysContained(v, state, calls[..|calls| - 1]);
      BaseInRange(v, call.command, call.now, before);
    }
  }

  // ---- The guarded form ----

  datatype Guarded = Guarded(state: Ramp, pulse: real)

  function GuardedPulse(v: Valve, call: Call, limited: bool, state: Ramp): Guarded
    requires v.deadzone < 1.0
  {
    if call.command == 0.0 then Guarded(Ramp(v.center, call.now, true), v.center) else
    var direction := call.command * v.direction;
    var old_ := if limited || (state.initialized && (state.pulse - v.center) * direction < 0.0) then NoRamp else state;
    var w := if limited then v.(ramp := false, dither := false) else v;
    var base := Base(w, call.command, call.now, old_);
    var pulse := Pulse(w, base, call.wave);
    Guarded(Ramp(base, call.now, true), if direction > 0.0 then Max(v.center, pulse) else Min(v.center, pulse))
  }

  /** Whatever the old ramp state and the dither, a guarded pulse is in range and on the command's side. */
  lemma GuardedNeverReverses(v: Valve, call: Call, limited: bool, state: Ramp)
    requires v.Valid()
    ensures var p := GuardedPulse(v, call, limited, state).pulse;
      && v.min <= p <= v.max
      && (call.command * v.direction > 0.0 ==> p >= v.center)
      && (call.command * v.direction < 0.0 ==> p <= v.center)
      && (call.command == 0.0 ==> p == v.center)
  {
    hide Base, Dithered;
    if call.command != 0.0 { NotZero(call.command, v.direction); }
  }

  lemma NotZero(command: real, direction: real)
    requires command != 0.0 && (direction == 1.0 || direction == -1.0)
    ensures command * direction != 0.0
  {}

  lemma SideFollowsCommand(v: Valve, command: real)
    requires v.Valid()
    ensures command * v.direction > 0.0 ==> Side(v, command) >= 0.0
    ensures command * v.direction < 0.0 ==> Side(v, command) <= 0.0
  {
    hide Effort;
    EffortInUnit(v, command);
  }

  /** A limited call jumps straight to its target: no ramp, no dither, no memory of the old state. */
  lemma LimitedIsTheTarget(v: Valve, call: Call, state: Ramp)
    requires v.Valid() && call.command != 0.0
    ensures GuardedPulse(v, call, true, state) == Guarded(Ramp(Target(v, call.command), call.now, true), Target(v, call.command))
  {
    hide Effort, Side, Above, Below;
    var w := v.(ramp := false, dither := false);
    NotZero(call.command, v.direction);
    SameTarget(v, call.command);
    SideFollowsCommand(v, call.command);
    TargetInRange(v, call.command);
    assert Base(w, call.command, call.now, NoRamp) == Target(w, call.command);
  }

  lemma SameTarget(v: Valve, command: real)
    requires v.Valid()
    ensures Target(v.(ramp := false, dither := false), command) == Target(v, command)
  {
    hide Times;
    assert Effort(v.(ramp := false, dither := false), command) == Effort(v, command);
  }
}

/** The calls as they are made, updating the ramp state in place. */
module ValveCalls {
  import opened Arithmetic
  import opened ValvePulse

  class RampState {
    var pulse: real
    var time: real
    var initialized: bool

    constructor ()
      ensures View() == NoRamp
    {
      pulse, time, initialized := 0.0, 0.0, false;
    }

    function View(): Ramp
      reads this
    {
      Ramp(pulse, time, initialized)
    }

    method Clear()
      modifies this
      ensures View() == NoRamp
    {
      pulse, time, initialized := 0.0, 0.0, false;
    }
  }

  method RampToward(v: Valve, target: real, side: real, now: real, state: RampState) returns (base: real)
    requires Ramped(v, state.View())
    ensures base == Moved(v, target, side, state.View(), now)
  {
    var last := state.pulse;
    if v.skipDeadband {
      if last == v.center && target != v.center {
        last := if target > v.center then v.center + v.deadbandPos else v.center - v.deadbandNeg;
      } else if last > v.center && target < v.center {
        last := v.center - v.deadbandNeg;
      } else if last < v.center && target > v.center {
        last := v.center + v.deadbandPos;
      }
    }
    var allowed := Allowed(v, state.View(), now);
    base := last + Clamp(target - last, -allowed, allowed);
    if v.skipDeadband && side == 0.0 && base > v.center - v.deadbandNeg && base < v.center + v.deadbandPos {
      base := v.center;
    }
  }

  method SendPulse(v: Valve, call: Call, state: RampState) returns (pulse: real)
    requires v.Valid()
    modifies state
    ensures state.View() == After(v, old(state.View()), call)
    ensures pulse == Pulse(v, state.pulse, call.wave)
    ensures v.min <= pulse <= v.max
  {
    hide Effort, Above, Below, Side, Dithered, Allowed;
    var side := Side(v, call.command);
    var base := v.center;
    if side > 0.0 {
      base := Above(v, Effort(v, call.command));
    } else if side < 0.0 {
      base := Below(v, Effort(v, call.command));
    }
    if v.ramp && v.rampLimit > 0.0 && state.initialized {
      base := RampToward(v, base, side, call.now, state);
    }
    state.pulse, state.time, state.initialized := base, call.now, true;
    return Clamp(Dithered(v, base, call.wave), v.min, v.max);
  }

  /** Commands the collector has already bounded by its joint guard. */
  method SendGuarded(v: Valve, call: Call, limited: bool, state: RampState) returns (pulse: real)
    requires v.Valid()
    modifies state
    ensures Guarded(state.View(), pulse) == GuardedPulse(v, call, limited, old(state.View()))
  {
    hide Base, Dithered;
    if call.command == 0.0 {
      state.pulse, state.time, state.initialized := v.center, call.now, true;
      return v.center;
    }
    var direction := call.command * v.direction;
    if limited || (state.initialized && (state.pulse - v.center) * direction < 0.0) { state.Clear(); }
    if limited {
      pulse := SendPulse(v.(ramp := false, dither := false), call, state);
    } else {
      pulse := SendPulse(v, call, state);
    }
    pulse := if direction > 0.0 then Max(v.center, pulse) else Min(v.center, pulse);
  }
}
