/**
  The KVR1 packet between the drive producer and the controller: its bytes, the encoder that writes
  them field by field, and the decoder that checks and reads them.
 */
module Wire {
  import opened Arithmetic
  import opened Bytes
  import opened Safety

  const HEADER := 52
  const MAX_STEPS := 128

  type Half = x: nat | x < 0x1_0000
  type Long = x: nat | x < 0x1_0000_0000_0000_0000

  /** Six 4-byte floats per row, row after row. */
  type Values = v: seq<Word> | |v| % 6 == 0 && |v| < 6 * 0x1_0000_0000

  datatype Message = Message(op: Half, flags: Word, sequence: Long, sent: Long, fps: Word,
                             t0: Long, observation: Long, values: Values)
  {
    function Count(): nat { |values| / 6 }
  }

  const Magic: seq<Byte> := [75, 86, 82, 49]

  /** `front` with the first n of the words `ws` behind it. */
  function With(front: seq<Byte>, ws: seq<Word>, n: nat): (b: seq<Byte>)
    requires n <= |ws|
    ensures |b| == |front| + 4 * n
  {
    if n == 0 then front else With(front, ws, n - 1) + LE(ws[n - 1], 4)
  }

  function Front(m: Message): (b: seq<Byte>)
    ensures |b| == 28
  {
    Magic + LE(1, 2) + LE(m.op, 2) + LE(m.flags, 4) + LE(m.sequence, 8) + LE(m.sent, 8)
  }

  function Header(m: Message): (b: seq<Byte>)
    ensures |b| == HEADER
  {
    Front(m) + LE(m.Count(), 4) + LE(m.fps, 4) + LE(m.t0, 8) + LE(m.observation, 8)
  }

  /** The packet's bytes. */
  function Packed(m: Message): seq<Byte> { With(Header(m), m.values, |m.values|) }

  // ---- Reading a packet ----

  function Field(b: seq<Byte>, offset: nat, n: nat): nat
    requires offset + n <= |b|
  {
    FromLE(b[offset..offset + n])
  }

  lemma FieldFits(b: seq<Byte>, offset: nat, n: nat)
    requires offset + n <= |b|
    ensures Field(b, offset, n) < Pow256(n) && LE(Field(b, offset, n), n) == b[offset..offset + n]
  {
    LEOfFromLE(b[offset..offset + n]);
  }

  function U16(b: seq<Byte>, offset: nat): Half
    requires offset + 2 <= |b|
  {
    FieldFits(b, offset, 2); FieldSizes(); Field(b, offset, 2)
  }

  function U32(b: seq<Byte>, offset: nat): Word
    requires offset + 4 <= |b|
  {
    FieldFits(b, offset, 4); FieldSizes(); Field(b, offset, 4)
  }

  function U64(b: seq<Byte>, offset: nat): Long
    requires offset + 8 <= |b|
  {
    FieldFits(b, offset, 8); FieldSizes(); Field(b, offset, 8)
  }

  /** The n values behind the header. */
  function ValuesOf(b: seq<Byte>, n: nat): (ws: seq<Word>)
    requires |b| >= HEADER + 4 * n
    ensures |ws| == n
  {
    if n == 0 then [] else ValuesOf(b, n - 1) + [U32(b, HEADER + 4 * (n - 1))]
  }

  /** A version-1 packet, complete to the last row. */
  predicate Framed(b: seq<Byte>) {
    |b| >= HEADER && b[..4] == Magic && U16(b, 4) == 1 && |b| == HEADER + 24 * U32(b, 28)
  }

  function Unpacked(b: seq<Byte>): Message
    requires Framed(b)
  {
    Message(U16(b, 6), U32(b, 8), U64(b, 12), U64(b, 20), U32(b, 32), U64(b, 36), U64(b, 44),
            ValuesOf(b, 6 * U32(b, 28)))
  }

  /** A packet that starts with `p` and a number carries that number there. */
  lemma Slot(b: seq<Byte>, p: seq<Byte>, v: nat, n: nat)
    requires v < Pow256(n) && p + LE(v, n) <= b
    ensures p <= b && |p| + n <= |b| && Field(b, |p|, n) == v
  {
    assert b[..|p| + n] == p + LE(v, n);
    assert b[|p|..|p| + n] == b[..|p| + n][|p|..];
    FromLEOfLE(v, n);
  }

  lemma BackFields(m: Message, b: seq<Byte>)
    requires Header(m) <= b
    ensures Front(m) <= b
    ensures U32(b, 28) == m.Count() && U32(b, 32) == m.fps && U64(b, 36) == m.t0 && U64(b, 44) == m.observation
  {
    FieldSizes();
    var h1 := Front(m);
    var h2 := h1 + LE(m.Count(), 4);
    var h3 := h2 + LE(m.fps, 4);
    var h4 := h3 + LE(m.t0, 8);
    Slot(b, h4, m.observation, 8);
    Slot(b, h3, m.t0, 8);
    Slot(b, h2, m.fps, 4);
    Slot(b, h1, m.Count(), 4);
  }

  lemma FrontFields(m: Message, b: seq<Byte>)
    requires Front(m) <= b
    ensures b[..4] == Magic && U16(b, 4) == 1 && U16(b, 6) == m.op && U32(b, 8) == m.flags
    ensures U64(b, 12) == m.sequence && U64(b, 20) == m.sent
  {
    FieldSizes();
    var h2 := Magic + LE(1, 2);
    var h3 := h2 + LE(m.op, 2);
    var h4 := h3 + LE(m.flags, 4);
    var h5 := h4 + LE(m.sequence, 8);
    Slot(b, h5, m.sent, 8);
    Slot(b, h4, m.sequence, 8);
    Slot(b, h3, m.flags, 4);
    Slot(b, h2, m.op, 2);
    Slot(b, Magic, 1, 2);
  }

  lemma {:induction false} ValuesUnpack(b: seq<Byte>, front: seq<Byte>, ws: seq<Word>, n: nat)
    requires |front| == HEADER && n <= |ws| && With(front, ws, n) <= b
    ensures front <= b && ValuesOf(b, n) == ws[..n]
  {
    if n > 0 {
      FieldSizes();
      Slot(b, With(front, ws, n - 1), ws[n - 1], 4);
      ValuesUnpack(b, front, ws, n - 1);
    }
  }

  /** Reading back what was packed gives the message. */
  lemma UnpackedOfPacked(m: Message)
    ensures Framed(Packed(m)) && Unpacked(Packed(m)) == m
  {
    var b := Packed(m);
    ValuesUnpack(b, Header(m), m.values, |m.values|);
    BackFields(m, b);
    FrontFields(m, b);
    assert m.values[..|m.values|] == m.values;
  }

  lemma Grown(b: seq<Byte>, offset: nat, n: nat)
    requires offset + n <= |b|
    ensures b[..offset + n] == b[..offset] + LE(Field(b, offset, n), n)
  {
    FieldFits(b, offset, n);
  }

  ghost predicate Carries(b: seq<Byte>, all: seq<Word>) {
    |b| >= HEADER + 4 * |all| && forall k | 0 <= k < |all| :: all[k] == U32(b, HEADER + 4 * k)
  }

  lemma {:induction false} CarriesItsValues(b: seq<Byte>, n: nat)
    requires |b| >= HEADER + 4 * n
    ensures Carries(b, ValuesOf(b, n))
  {
    if n > 0 {
      CarriesItsValues(b, n - 1);
    }
  }

  lemma {:induction false} WithItsValues(b: seq<Byte>, all: seq<Word>, n: nat)
    requires Carries(b, all) && n <= |all|
    ensures With(b[..HEADER], all, n) == b[..HEADER + 4 * n]
  {
    if n > 0 {
      WithItsValues(b, all, n - 1);
      Grown(b, HEADER + 4 * (n - 1), 4);
    }
  }

  /** Packing what was read gives the bytes: a framed packet has no byte outside its message. */
  lemma PackedOfUnpacked(b: seq<Byte>)
    requires Framed(b)
    ensures Packed(Unpacked(b)) == b
  {
    HeaderOfUnpacked(b);
    var n := 6 * U32(b, 28);
    CarriesItsValues(b, n);
    WithItsValues(b, ValuesOf(b, n), n);
    assert b[..HEADER + 4 * n] == b;
  }

  lemma HeaderOfUnpacked(b: seq<Byte>)
    requires Framed(b)
    ensures Header(Unpacked(b)) == b[..HEADER]
  {
    var m := Unpacked(b);
    FrontOf(b, m);
    assert m.Count() == Field(b, 28, 4);
    HeaderOf(b, m);
  }

  lemma HeaderOf(b: seq<Byte>, m: Message)
    requires |b| >= HEADER && Front(m) == b[..28] && m.Count() == Field(b, 28, 4)
    requires m.fps == Field(b, 32, 4) && m.t0 == Field(b, 36, 8) && m.observation == Field(b, 44, 8)
    ensures Header(m) == b[..HEADER]
  {
    Grown(b, 28, 4);
    Grown(b, 32, 4);
    Grown(b, 36, 8);
    Grown(b, 44, 8);
  }

  lemma FrontOf(b: seq<Byte>, m: Message)
    requires |b| >= 28 && b[..4] == Magic && Field(b, 4, 2) == 1
    requires m.op == Field(b, 6, 2) && m.flags == Field(b, 8, 4)
    requires m.sequence == Field(b, 12, 8) && m.sent == Field(b, 20, 8)
    ensures Front(m) == b[..28]
  {
    Grown(b, 4, 2);
    Grown(b, 6, 2);
    Grown(b, 8, 4);
    Grown(b, 12, 8);
    Grown(b, 20, 8);
  }

  // ---- The checks ----

  const FUTURE := 0.01

  predicate InUnit(v: Word) { Finite(v) && Abs(Value(v)) <= 1.0 }

  predicate GoodRate(fps: Word) { Finite(fps) && 0.0 < Value(fps) <= 500.0 }

  /** A start time of zero means now. */
  function StartTime(t0: Long, now: real): real { if t0 == 0 then now else Seconds(t0) }

  predicate Fresh(cfg: Config, m: Message, now: real) {
    now - Seconds(m.sent) <= cfg.maxPacketAge && Seconds(m.sent) - now <= FUTURE
  }

  /** A single row may come without an observation. */
  predicate ObservationInTime(cfg: Config, m: Message, now: real) {
    (m.Count() == 1 && m.observation == 0) ||
    (m.observation > 0 && now - Seconds(m.observation) <= cfg.maxObservationAge && Seconds(m.observation) - now <= FUTURE)
  }

  predicate WithinHorizon(cfg: Config, m: Message, now: real)
    requires Value(m.fps) > 0.0
  {
    var t0 := StartTime(m.t0, now);
    t0 - now <= FUTURE && now - t0 <= cfg.maxHorizon && (m.Count() - 1) as real / Value(m.fps) <= cfg.maxHorizon
  }

  /** Everything the header has to satisfy. */
  predicate Timely(cfg: Config, m: Message, now: real) {
    && 1 <= m.op <= 4 && m.flags < 8 && Fresh(cfg, m, now)
    && (m.op != 1 ==> m.Count() == 0)
    && (m.op == 1 ==>
      && 1 <= m.Count() <= MAX_STEPS && GoodRate(m.fps)
      && ObservationInTime(cfg, m, now) && WithinHorizon(cfg, m, now))
  }

  predicate Admissible(cfg: Config, m: Message, now: real) {
    Timely(cfg, m, now) && forall v <- m.values :: InUnit(v)
  }

  function Op(code: Half): Operation
    requires 1 <= code <= 4
  {
    if code == 1 then Drive else if code == 2 then Disarm else if code == 3 then Estop else Status
  }

  function Numbers(row: seq<Word>): Commands
    requires |row| == 6
  {
    [Value(row[0]), Value(row[1]), Value(row[2]), Value(row[3]), Value(row[4]), Value(row[5])]
  }

  function Steps(values: Values): (s: seq<Commands>)
    ensures |s| == |values| / 6
  {
    seq(|values| / 6, r requires 0 <= r < |values| / 6 => Numbers(values[6 * r..6 * r + 6]))
  }

  /** The packet a message stands for; without rows the rate means nothing. */
  function Meaning(m: Message, now: real): Packet
    requires 1 <= m.op <= 4
  {
    Packet(Op(m.op), m.flags % 2 == 1, m.flags / 2 % 2 == 1, m.flags / 4 % 2 == 1, m.sequence,
           Seconds(m.sent), Value(m.fps), if m.op == 1 then StartTime(m.t0, now) else Seconds(m.t0),
           Seconds(m.observation), Steps(m.values))
  }

  datatype Option<T> = None | Some(value: T)

  function Decoded(cfg: Config, b: seq<Byte>, now: real): Option<Packet> {
    if Framed(b) && Admissible(cfg, Unpacked(b), now) then Some(Meaning(Unpacked(b), now)) else None
  }

  /** What is decoded is exactly what some admissible message was packed into. */
  lemma DecodedExactly(cfg: Config, b: seq<Byte>, now: real, p: Packet)
    ensures Decoded(cfg, b, now) == Some(p) <==>
      exists m: Message :: b == Packed(m) && Admissible(cfg, m, now) && p == Meaning(m, now)
  {
    if Framed(b) {
      PackedOfUnpacked(b);
    }
    forall m: Message | b == Packed(m) ensures Framed(b) && Unpacked(b) == m {
      UnpackedOfPacked(m);
    }
  }

  lemma DecodedOfPacked(cfg: Config, m: Message, now: real)
    ensures Decoded(cfg, Packed(m), now) == if Admissible(cfg, m, now) then Some(Meaning(m, now)) else None
  {
    UnpackedOfPacked(m);
  }

  /** Different messages have different bytes. */
  lemma PackedIsInjective(m: Message, n: Message)
    requires Packed(m) == Packed(n)
    ensures m == n
  {
    UnpackedOfPacked(m);
    UnpackedOfPacked(n);
  }

  /** The packet without its rows, and their number. */
  method ReadHeader(cfg: Config, b: seq<Byte>, now: real) returns (ok: bool, p: Packet, count: nat)
    ensures ok == (Framed(b) && Timely(cfg, Unpacked(b), now))
    ensures ok ==> p == Meaning(Unpacked(b), now).(steps := []) && count == U32(b, 28)
  {
    p, count := NoPlan, 0;
    if |b| < HEADER || b[..4] != Magic || U16(b, 4) != 1 { return false, p, 0; }
    var op := U16(b, 6);
    if op < 1 || op > 4 { return false, p, 0; }
    var flags, fps := U32(b, 8), U32(b, 32);
    count := U32(b, 28);
    p := Packet(Op(op), flags % 2 == 1, flags / 2 % 2 == 1, flags / 4 % 2 == 1, U64(b, 12), Seconds(U64(b, 20)),
                Value(fps), Seconds(U64(b, 36)), Seconds(U64(b, 44)), []);
    if flags >= 8 || now - p.sent > cfg.maxPacketAge || p.sent - now > FUTURE { return false, p, count; }
    if op != 1 { return count == 0 && |b| == HEADER, p, count; }
    if count < 1 || count > MAX_STEPS || |b| != HEADER + count * 24 || !Finite(fps) || p.fps <= 0.0 || p.fps > 500.0 {
      return false, p, count;
    }
    if (count > 1 || p.observation > 0.0) &&
      (p.observation <= 0.0 || now - p.observation > cfg.maxObservationAge || p.observation - now > FUTURE)
    {
      return false, p, count;
    }
    if p.t0 <= 0.0 { p := p.(t0 := now); }
    if p.t0 - now > FUTURE || now - p.t0 > cfg.maxHorizon || (count - 1) as real / p.fps > cfg.maxHorizon {
      return false, p, count;
    }
    return true, p, count;
  }

  method DecodePacket(cfg: Config, b: seq<Byte>, now: real) returns (ok: bool, p: Packet)
    ensures (if ok then Some(p) else None) == Decoded(cfg, b, now)
  {
    var count: nat;
    ok, p, count := ReadHeader(cfg, b, now);
    if !ok { return; }
    CarriesItsValues(b, 6 * count);
    var steps;
    ok, steps := ReadRows(b, count, Unpacked(b).values);
    p := p.(steps := steps);
  }

  method ReadRow(b: seq<Byte>, i: nat, ghost all: seq<Word>) returns (ok: bool, row: seq<Word>)
    requires Carries(b, all) && 6 * i + 6 <= |all|
    ensures ok <==> forall v <- all[6 * i..6 * i + 6] :: InUnit(v)
    ensures ok ==> row == all[6 * i..6 * i + 6]
  {
    row := [];
    var j := 0;
    while j < 6
      invariant 0 <= j <= 6 && row == all[6 * i..6 * i + j]
      invariant forall v <- row :: InUnit(v)
    {
      var v := U32(b, HEADER + i * 24 + j * 4);
      assert v == all[6 * i + j] == all[6 * i..6 * i + 6][j];
      if !Finite(v) || Abs(Value(v)) > 1.0 {
        assert v in all[6 * i..6 * i + 6] && !InUnit(v);
        return false, row;
      }
      row := row + [v];
      j := j + 1;
    }
    return true, row;
  }

  method ReadRows(b: seq<Byte>, count: nat, ghost all: Values) returns (ok: bool, steps: seq<Commands>)
    requires Carries(b, all) && |all| == 6 * count
    ensures ok <==> forall v <- all :: InUnit(v)
    ensures ok ==> steps == Steps(all)
  {
    hide Value, Exponent, U32;
    steps := [];
    var i := 0;
    while i < count
      invariant 0 <= i <= count && |steps| == i
      invariant forall k | 0 <= k < 6 * i :: InUnit(all[k])
      invariant forall r | 0 <= r < i :: steps[r] == Numbers(all[6 * r..6 * r + 6])
    {
      var row;
      ok, row := ReadRow(b, i, all);
      if !ok { return; }
      forall k | 6 * i <= k < 6 * i + 6 ensures InUnit(all[k]) { assert all[k] == row[k - 6 * i]; }
      steps := steps + [Numbers(row)];
      i := i + 1;
    }
    return true, steps;
  }
}
