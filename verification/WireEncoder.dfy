/** The producer's side of the KVR1 packet: its plan, and the encoder that writes it in place. */
module WireEncoder {
  import opened Arithmetic
  import opened Bytes
  import opened Safety
  import opened Wire

  type Row = r: seq<Word> | |r| == 6 witness [0, 0, 0, 0, 0, 0]

  /** The producer's plan, rate and rows in doubles. */
  datatype Plan = Plan(rows: seq<Commands>, fps: real, t0: Long, observation: Long)

  /** The same after the cast to 4-byte floats, as it goes on the wire. */
  datatype Cut = Cut(rows: seq<Row>, fps: Word, t0: Long, observation: Long)

  /** A cast to the nearest 4-byte float, for numbers far from the largest ones. */
  ghost predicate Rounds(cast: real -> Word) {
    forall x: real, w: Word | -1000.0 <= x <= 1000.0 && Finite(w) ::
      Finite(cast(x)) && Abs(Value(cast(x)) - x) <= Abs(Value(w) - x)
  }

  function CutRow(cast: real -> Word, row: Commands): Row {
    [cast(row[0]), cast(row[1]), cast(row[2]), cast(row[3]), cast(row[4]), cast(row[5])]
  }

  function CutOf(cast: real -> Word, plan: Plan): (c: Cut)
    ensures |c.rows| == |plan.rows|
  {
    Cut(seq(|plan.rows|, r requires 0 <= r < |plan.rows| => CutRow(cast, plan.rows[r])), cast(plan.fps), plan.t0, plan.observation)
  }

  function Flat(rows: seq<Row>): (v: seq<Word>)
    ensures |v| == 6 * |rows|
  {
    if rows == [] then [] else Flat(rows[..|rows| - 1]) + rows[|rows| - 1]
  }

  function Code(op: Operation): Half { if op == Drive then 1 else if op == Disarm then 2 else if op == Estop then 3 else 4 }

  predicate GoodRows(rows: seq<Row>) {
    1 <= |rows| <= MAX_STEPS && forall v <- Flat(rows) :: InUnit(v)
  }

  predicate Encodable(op: Operation, cut: Option<Cut>) {
    op == Drive ==> cut.Some? && GoodRows(cut.value.rows)
  }

  function MessageOf(op: Operation, flags: Word, sequence: Long, sent: Long, cut: Option<Cut>): Message
    requires Encodable(op, cut)
  {
    if op == Drive
    then Message(1, flags, sequence, sent, cut.value.fps, cut.value.t0, cut.value.observation, Flat(cut.value.rows))
    else Message(Code(op), flags, sequence, sent, 0, 0, 0, [])
  }

  function CutPlan(cast: real -> Word, plan: Option<Plan>): Option<Cut> {
    if plan.Some? then Some(CutOf(cast, plan.value)) else None
  }

  method Put(data: array<Byte>, offset: nat, value: nat, size: nat)
    requires offset + size <= data.Length
    modifies data
    ensures data[..offset + size] == old(data[..offset]) + LE(value, size)
    ensures data[offset + size..] == old(data[offset + size..])
  {
    var bytes := LE(value, size);
    var i := 0;
    while i < size
      invariant 0 <= i <= size
      invariant data[..offset] == old(data[..offset])
      invariant data[offset..offset + i] == bytes[..i]
      invariant data[offset + size..] == old(data[offset + size..])
    {
      data[offset + i] := bytes[i];
      i := i + 1;
    }
    assert data[..offset + size] == data[..offset] + data[offset..offset + size];
  }

  method PutHeader(data: array<Byte>, op: Half, flags: Word, sequence: Long, sent: Long, count: nat, fps: Word,
                   t0: Long, observation: Long, ghost m: Message)
    requires data.Length >= HEADER && count == m.Count()
    requires m == Message(op, flags, sequence, sent, fps, t0, observation, m.values)
    modifies data
    ensures data[..HEADER] == Header(m)
  {
    data[0], data[1], data[2], data[3] := 75, 86, 82, 49;
    assert data[..4] == Magic;
    Put(data, 4, 1, 2);
    Put(data, 6, op, 2);
    Put(data, 8, flags, 4);
    Put(data, 12, sequence, 8);
    Put(data, 20, sent, 8);
    Put(data, 28, count, 4);
    Put(data, 32, fps, 4);
    Put(data, 36, t0, 8);
    Put(data, 44, observation, 8);
  }

  lemma NoWords(front: seq<Byte>, ws: seq<Word>)
    ensures With(front, ws, 0) == front
  {}

  lemma OneMoreWord(front: seq<Byte>, ws: seq<Word>, n: nat)
    requires n < |ws|
    ensures With(front, ws, n + 1) == With(front, ws, n) + LE(ws[n], 4)
  {}

  /** Writes row `r` of all the words, unless a value is outside [-1, 1]. */
  method PutRow(data: array<Byte>, r: nat, cast: real -> Word, row: Commands, ghost header: seq<Byte>, ghost all: seq<Word>)
    returns (ok: bool)
    requires data.Length >= HEADER + 24 * (r + 1) && |header| == HEADER && |all| >= 6 * (r + 1)
    requires CutRow(cast, row) == all[6 * r..6 * r + 6]
    requires data[..HEADER + 24 * r] == With(header, all, 6 * r)
    modifies data
    ensures ok <==> forall v <- CutRow(cast, row) :: InUnit(v)
    ensures ok ==> data[..HEADER + 24 * (r + 1)] == With(header, all, 6 * (r + 1))
  {
    hide Value, Exponent, LE, With;
    ghost var words := CutRow(cast, row);
    var j := 0;
    while j < 6
      invariant 0 <= j <= 6
      invariant forall k | 0 <= k < j :: InUnit(words[k])
      invariant data[..HEADER + r * 24 + j * 4] == With(header, all, 6 * r + j)
    {
      var v := cast(row[j]);
      assert v == words[j] == all[6 * r + j];
      if !Finite(v) || Abs(Value(v)) > 1.0 { assert v in words && !InUnit(v); return false; }
      Put(data, HEADER + r * 24 + j * 4, v, 4);
      OneMoreWord(header, all, 6 * r + j);
      j := j + 1;
    }
    return true;
  }

  lemma {:induction false} FlatAt(rows: seq<Row>, r: nat)
    requires r < |rows|
    ensures Flat(rows)[6 * r..6 * r + 6] == rows[r]
  {
    var n := |rows| - 1;
    if r < n {
      FlatAt(rows[..n], r);
      assert Flat(rows)[..6 * n] == Flat(rows[..n]);
      assert Flat(rows)[6 * r..6 * r + 6] == Flat(rows)[..6 * n][6 * r..6 * r + 6];
    }
  }

  /** One packet; a drive needs 1 to 128 rows whose values are still in [-1, 1] after the cast. */
  method Encode(cast: real -> Word, op: Operation, flags: Word, sequence: Long, sent: Long, plan: Option<Plan>)
    returns (ok: bool, data: array<Byte>)
    ensures ok == Encodable(op, CutPlan(cast, plan))
    ensures ok ==> data[..] == Packed(MessageOf(op, flags, sequence, sent, CutPlan(cast, plan)))
  {
    hide Value, Exponent, LE, Header, CutRow, InUnit;
    var count := if op == Drive && plan.Some? then |plan.value.rows| else 0;
    if op == Drive && !(0 < count <= MAX_STEPS) { return false, new Byte[0]; }
    data := new Byte[HEADER + count * 24](_ => 0);
    if count == 0 {
      PutHeader(data, Code(op), flags, sequence, sent, 0, 0, 0, 0, MessageOf(op, flags, sequence, sent, CutPlan(cast, plan)));
      return true, data;
    }
    var p := plan.value;
    ghost var rows := CutOf(cast, p).rows;
    ghost var m := Message(1, flags, sequence, sent, cast(p.fps), p.t0, p.observation, Flat(rows));
    PutHeader(data, 1, flags, sequence, sent, count, cast(p.fps), p.t0, p.observation, m);
    ok := PutRows(data, cast, p.rows, rows, Header(m));
  }

  method PutRows(data: array<Byte>, cast: real -> Word, plain: seq<Commands>, ghost rows: seq<Row>, ghost header: seq<Byte>)
    returns (ok: bool)
    requires |rows| == |plain| && forall r | 0 <= r < |rows| :: rows[r] == CutRow(cast, plain[r])
    requires |header| == HEADER && data.Length == HEADER + |rows| * 24 && data[..HEADER] == header
    modifies data
    ensures ok <==> forall v <- Flat(rows) :: InUnit(v)
    ensures ok ==> data[..] == With(header, Flat(rows), |Flat(rows)|)
  {
    hide Value, Exponent, LE, CutRow, With, InUnit, Flat;
    var r := 0;
    ghost var all := Flat(rows);
    NoWords(header, all);
    while r < |plain|
      invariant 0 <= r <= |plain|
      invariant data[..HEADER + 24 * r] == With(header, all, 6 * r)
      invariant forall k | 0 <= k < 6 * r :: InUnit(all[k])
    {
      FlatAt(rows, r);
      ok := PutRow(data, r, cast, plain[r], header, all);
      if !ok {
        ghost var v :| v in rows[r] && !InUnit(v);
        assert v in all[6 * r..6 * r + 6];
        return;
      }
      forall k | 6 * r <= k < 6 * r + 6 ensures InUnit(all[k]) { assert all[k] == rows[r][k - 6 * r]; }
      r := r + 1;
    }
    assert data[..HEADER + 24 * r] == data[..];
    return true;
  }
}
