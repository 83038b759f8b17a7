/**
  The end of a control iteration: the commands of the last tick become valve pulses, or every valve is
  centered and its ramp restarted.
 */
module PulseOutput {
  import opened ValvePulse
  import Safety

  const CHANNELS := 16

  /** A valve with its output channel and the joint it follows; 6 and more means none. */
  datatype Output = Output(valve: Valve, channel: nat, joint: nat)

  ghost predicate Wired(outputs: seq<Output>, pump: nat) {
    && pump < CHANNELS
    && (forall i | 0 <= i < |outputs| :: outputs[i].valve.Valid() && outputs[i].channel < CHANNELS && outputs[i].channel != pump)
    && (forall i, j | 0 <= i < j < |outputs| :: outputs[i].channel != outputs[j].channel)
  }

  predicate Active(c: Safety.Core) { c.state == Safety.Armed || c.state == Safety.Decaying }

  function CommandFor(o: Output, out: Safety.Commands): real { if o.joint < 6 then out[o.joint] else 0.0 }

  datatype Sent = Sent(pulse: real, ramp: Ramp)

  function Driven(o: Output, c: Safety.Core, out: Safety.Commands, now: real, wave: real, ramp: Ramp): Sent
    requires o.valve.deadzone < 1.0
  {
    if Active(c) then
      var next := After(o.valve, ramp, Call(CommandFor(o, out), now, wave));
      Sent(Pulse(o.valve, next.pulse, wave), next)
    else Sent(o.valve.center, Ramp(o.valve.center, now, true))
  }

  datatype PumpLevels = PumpLevels(idle: real, run: real)

  /**
    All channels of one iteration. Unless the core is armed or decaying every valve is at its center,
    and unless it is armed the pump idles.
   */
  method WritePulses(outputs: seq<Output>, pumpChannel: nat, levels: PumpLevels, c: Safety.Core, out: Safety.Commands,
                     now: real, waves: seq<real>, ramps: array<Ramp>, pulses: array<real>)
    requires Wired(outputs, pumpChannel) && |waves| == |outputs| == ramps.Length && pulses.Length == CHANNELS
    modifies ramps, pulses
    ensures forall i | 0 <= i < |outputs| ::
      Sent(pulses[outputs[i].channel], ramps[i]) == Driven(outputs[i], c, out, now, waves[i], old(ramps[i]))
    ensures forall i | 0 <= i < |outputs| && !Active(c) :: pulses[outputs[i].channel] == outputs[i].valve.center
    ensures forall i | 0 <= i < |outputs| :: outputs[i].valve.min <= pulses[outputs[i].channel] <= outputs[i].valve.max
    ensures pulses[pumpChannel] == if c.PumpOn() then levels.run else levels.idle
    ensures c.state != Safety.Armed ==> pulses[pumpChannel] == levels.idle
    ensures forall k | 0 <= k < CHANNELS && k != pumpChannel && forall i | 0 <= i < |outputs| :: outputs[i].channel != k ::
      pulses[k] == old(pulses[k])
  {
    hide Base, Dithered;
    var i := 0;
    while i < |outputs|
      invariant 0 <= i <= |outputs|
      invariant forall k | 0 <= k < i ::
        Sent(pulses[outputs[k].channel], ramps[k]) == Driven(outputs[k], c, out, now, waves[k], old(ramps[k]))
      invariant forall k | i <= k < |outputs| :: ramps[k] == old(ramps[k])
      invariant forall k | 0 <= k < CHANNELS && forall j | 0 <= j < i :: outputs[j].channel != k :: pulses[k] == old(pulses[k])
    {
      var o := outputs[i];
      if Active(c) {
        var next := After(o.valve, ramps[i], Call(CommandFor(o, out), now, waves[i]));
        pulses[o.channel] := Pulse(o.valve, next.pulse, waves[i]);
        ramps[i] := next;
      } else {
        pulses[o.channel] := o.valve.center;
        ramps[i] := Ramp(o.valve.center, now, true);
      }
      i := i + 1;
    }
    pulses[pumpChannel] := if c.PumpOn() then levels.run else levels.idle;
  }
}
