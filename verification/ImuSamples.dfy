/** The sample frames of the IMU stream from the sender's side: what is put into one is what is delivered. */
module ImuSamples {
  import opened Bytes
  import opened ImuScanner
  import opened ImuParser
  import W = Wire

  /** Kind 1 or 4 and the floats of one to four sensors, sensor after sensor. */
  predicate Sendable(kind: Byte, ws: seq<Word>) {
    (kind == 1 || kind == 4) && 0 < |ws| <= SENSORS * Floats(kind) && |ws| % Floats(kind) == 0
  }

  function Count(kind: Byte, ws: seq<Word>): (n: Byte)
    requires Sendable(kind, ws)
    ensures 1 <= n <= SENSORS && n * Floats(kind) == |ws|
  {
    var n := |ws| / Floats(kind);
    assert n * Floats(kind) == |ws|;
    n
  }

  function Front(kind: Byte, ts: Word, ws: seq<Word>): (b: seq<Byte>)
    requires Sendable(kind, ws)
    ensures |b| == 8
  {
    [MARK0, MARK1, kind, Count(kind, ws)] + LE(ts, 4)
  }

  /** Marker, kind, count, stamp and floats, and the 16-bit sum of all but the marker. */
  function SampleBytes(kind: Byte, ts: Word, ws: seq<Word>): seq<Byte>
    requires Sendable(kind, ws)
  {
    var body := W.With(Front(kind, ts, ws), ws, |ws|);
    body + LE(Sum(body[2..]) % 0x1_0000, 2)
  }

  lemma {:induction false} WithGrows(front: seq<Byte>, ws: seq<Word>, k: nat, n: nat)
    requires k <= n <= |ws|
    ensures W.With(front, ws, k) <= W.With(front, ws, n)
    decreases n
  {
    if k < n { WithGrows(front, ws, k, n - 1); }
  }

  lemma FrontIsThere(kind: Byte, ts: Word, ws: seq<Word>)
    requires Sendable(kind, ws)
    ensures var f := SampleBytes(kind, ts, ws);
      |f| == 10 + 4 * |ws| && f[..8] == Front(kind, ts, ws)
  {
    WithGrows(Front(kind, ts, ws), ws, 0, |ws|);
  }

  /** The frame is one the scanner delivers and the parser takes for samples. */
  lemma SampleIsWellFormed(kind: Byte, ts: Word, ws: seq<Word>)
    requires Sendable(kind, ws)
    ensures var f := SampleBytes(kind, ts, ws);
      WellFormed(f) && SampleFrame(f) && f[2] == kind && f[3] == Count(kind, ws) && ImuParser.U32(f, 4) == ts
  {
    FrontIsThere(kind, ts, ws);
    var f := SampleBytes(kind, ts, ws);
    var body := W.With(Front(kind, ts, ws), ws, |ws|);
    var sum := Sum(body[2..]) % 0x1_0000;
    FieldSizes();
    FromLEOfLE(sum, 2);
    assert f[2..|f| - 2] == body[2..] && f[|f| - 2..] == LE(sum, 2);
    FromLEOfLE(ts, 4);
    assert f[..8][2] == kind && f[..8][3] == Count(kind, ws) && f[..8][0] == MARK0 && f[..8][1] == MARK1;
    assert f[4..8] == f[..8][4..] == LE(ts, 4);
  }

  /** Float k of the frame is the k-th float put in. */
  lemma FloatIsAt(kind: Byte, ts: Word, ws: seq<Word>, k: nat)
    requires Sendable(kind, ws) && k < |ws|
    ensures var f := SampleBytes(kind, ts, ws);
      8 + k * 4 + 4 <= |f| && ImuParser.U32(f, 8 + k * 4) == ws[k]
  {
    FrontIsThere(kind, ts, ws);
    FieldSizes();
    var f, front := SampleBytes(kind, ts, ws), Front(kind, ts, ws);
    WithGrows(front, ws, k + 1, |ws|);
    var body := W.With(front, ws, |ws|);
    assert W.With(front, ws, k + 1) <= body <= f;
    W.Slot(f, W.With(front, ws, k), ws[k], 4);
  }

  /** The floats of sensor s. */
  function Put(kind: Byte, ws: seq<Word>, s: nat): seq<Word>
    requires Sendable(kind, ws) && s < Count(kind, ws)
  {
    Within(s, Count(kind, ws), Floats(kind));
    ws[s * Floats(kind)..s * Floats(kind) + Floats(kind)]
  }

  lemma Within(s: nat, n: nat, floats: nat)
    requires s < n
    ensures 0 <= s * floats && s * floats + floats <= n * floats
  {
    assert (s + 1) * floats <= n * floats;
  }

  lemma SensorIsPut(kind: Byte, ts: Word, ws: seq<Word>, s: nat)
    requires Sendable(kind, ws) && s < Count(kind, ws)
    ensures SampleFrame(SampleBytes(kind, ts, ws)) && SampleBytes(kind, ts, ws)[3] == Count(kind, ws)
    ensures Sensor(SampleBytes(kind, ts, ws), s) == Put(kind, ws, s)
  {
    hide SampleBytes, W.With;
    SampleIsWellFormed(kind, ts, ws);
    var f, n := SampleBytes(kind, ts, ws), Floats(kind);
    Within(s, Count(kind, ws), n);
    forall j | 0 <= j < n ensures FloatAt(f, s, j) == Put(kind, ws, s)[j] { FloatIsAt(kind, ts, ws, s * n + j); }
  }

  /** The sample that is delivered: quaternion and rates of each sensor as they were put in. */
  ghost predicate Carries(sample: Sample, kind: Byte, ts: Word, ws: seq<Word>)
    requires Sendable(kind, ws)
  {
    && sample.valid && sample.raw == ts && sample.kind == kind && |sample.quats| == |sample.motion| == SENSORS
    && forall s | 0 <= s < SENSORS ::
         if s < Count(kind, ws) then
           && sample.quats[s] == Put(kind, ws, s)[..4]
           && |sample.motion[s]| == 6
           && forall j | 0 <= j < 6 :: sample.motion[s][j] == if j + 4 < Floats(kind) then Put(kind, ws, s)[j + 4] else 0
         else sample.quats[s] == [0, 0, 0, 0] && sample.motion[s] == [0, 0, 0, 0, 0, 0]
  }

  /** Every float is finite and every quaternion near length one. */
  ghost predicate Sane(kind: Byte, ws: seq<Word>)
    requires Sendable(kind, ws)
  {
    forall s | 0 <= s < Count(kind, ws) :: SensorGood(Put(kind, ws, s))
  }

  /** Microseconds since the last stamp, by 32-bit clocks. */
  function Passed(last: Word, ts: Word): nat { (ts - last) % WRAP }

  lemma PassedIsDelta(r: Receiver, ts: Word)
    ensures Delta(r, ts) == Passed(r.previousTs, ts)
  {}

  /**
    What is sent is delivered, once and as it was put in, exactly if all expected sensors are there and
    sane and the stamp is the first one, or 1 us to 1 s after the one before.
   */
  lemma SentIsDelivered(r: Receiver, expected: int, kind: Byte, ts: Word, ws: seq<Word>)
    requires Sendable(kind, ws)
    ensures WellFormed(SampleBytes(kind, ts, ws))
    ensures var t := ImuParser.Apply(r, expected, Frame(SampleBytes(kind, ts, ws)));
      if Count(kind, ws) == expected && Sane(kind, ws) && (!r.haveTs || 1 <= Passed(r.previousTs, ts) <= 1000000)
      then |t.delivered| == |r.delivered| + 1 && t.delivered[..|r.delivered|] == r.delivered
           && Carries(t.delivered[|r.delivered|], kind, ts, ws) && t.sample == t.delivered[|r.delivered|]
      else t.delivered == r.delivered && t.invalidFrames == r.invalidFrames + 1 && !t.sample.valid
  {
    hide SampleBytes, W.With, SensorGood, Sensor;
    SampleIsWellFormed(kind, ts, ws);
    PassedIsDelta(r, ts);
    var f := SampleBytes(kind, ts, ws);
    forall s | 0 <= s < Count(kind, ws) ensures Sensor(f, s) == Put(kind, ws, s) { SensorIsPut(kind, ts, ws, s); }
    assert ContentGood(f, expected) <==> Count(kind, ws) == expected && Sane(kind, ws);
  }

  // ---- What blocks and what clears ----

  /** A control message 5 to 8, or a status that misses a sensor or is not ready. */
  predicate Blocks(p: Piece, expected: int) {
    p.Frame? && WellFormed(p.f) && ((p.f[2] == 2 && 5 <= p.f[3] <= 8) || (p.f[2] == 5 && |p.f| > 8 && (p.f[3] != expected || p.f[8] % 2 == 0)))
  }

  /** A status with all expected sensors and the ready bit. */
  predicate Clears(p: Piece, expected: int) {
    p.Frame? && WellFormed(p.f) && p.f[2] == 5 && |p.f| > 8 && p.f[3] == expected && p.f[8] % 2 == 1
  }

  ghost predicate StillBlocks(pieces: seq<Piece>, expected: int, i: nat) {
    i < |pieces| && Blocks(pieces[i], expected) && forall j | i < j < |pieces| :: !Clears(pieces[j], expected)
  }

  lemma OneMoreBlocks(r: Receiver, expected: int, p: Piece)
    requires p.Frame? ==> WellFormed(p.f)
    ensures ImuParser.Apply(r, expected, p).blocked <==> Blocks(p, expected) || (r.blocked && !Clears(p, expected))
  {
    if p.Frame? && p.f[2] == 5 { assert |p.f| > 8; }
  }

  /** The firmware counts as blocked exactly if something blocked it and no ready status came since. */
  lemma {:induction false} BlockedIff(expected: int, pieces: seq<Piece>)
    requires Sound(pieces)
    ensures After(expected, pieces).blocked <==> exists i: nat :: StillBlocks(pieces, expected, i)
  {
    hide Blocks, Clears, ImuParser.Apply;
    if pieces != [] {
      var n := |pieces| - 1;
      var before, p := pieces[..n], pieces[n];
      assert p in pieces;
      assert Sound(before) by { forall q | q in before ensures q in pieces {} }
      BlockedIff(expected, before);
      OneMoreBlocks(After(expected, before), expected, p);
      if Blocks(p, expected) { assert StillBlocks(pieces, expected, n); }
      if After(expected, before).blocked && !Clears(p, expected) {
        var i: nat :| StillBlocks(before, expected, i);
        assert StillBlocks(pieces, expected, i);
      }
      if i: nat :| StillBlocks(pieces, expected, i) && i < n {
        assert StillBlocks(before, expected, i);
      }
    }
  }

  /** The sample a reader sees is good only while it is the last thing that was delivered. */
  lemma {:induction false} GoodSampleIsTheLast(expected: int, pieces: seq<Piece>)
    requires Sound(pieces)
    ensures var r := After(expected, pieces);
      r.sample.valid ==> r.delivered != [] && r.sample == r.delivered[|r.delivered| - 1] && r.sample.epoch == r.resets
  {
    hide ContentGood, Quats, Motion, Delta, Range;
    if pieces != [] { GoodSampleIsTheLast(expected, pieces[..|pieces| - 1]); }
  }
}
