/** What a cast from double to the nearest 4-byte float does to the numbers of a plan. */
module FloatCast {
  import opened Arithmetic
  import opened Bytes
  import opened Wire
  import opened WireEncoder
  import Safety

  lemma SmallPowers()
    ensures Pow2(-19) * 524288.0 == 1.0 && Pow2(-23) * 8388608.0 == 1.0
  {
    assert Pow2(-5) * 32.0 == 1.0;
    assert Pow2(-10) * 1024.0 == 1.0;
    assert Pow2(-15) * 32768.0 == 1.0;
  }

  /** Three numbers that are floats themselves. */
  lemma Landmarks()
    ensures Finite(0x41F0_0000) && Value(0x41F0_0000) == 30.0
    ensures Finite(0x3F80_0000) && Value(0x3F80_0000) == 1.0
    ensures Finite(0xBF80_0000) && Value(0xBF80_0000) == -1.0
  {
    var thirty: Word, one: Word, minus: Word := 0x41F0_0000, 0x3F80_0000, 0xBF80_0000;
    assert Exponent(thirty) == 131 && thirty % 0x80_0000 == 0x70_0000;
    assert Exponent(one) == 127 && one % 0x80_0000 == 0;
    assert Exponent(minus) == 127 && minus % 0x80_0000 == 0;
    SmallPowers();
    assert 15728640.0 * Pow2(-19) == 30.0;
  }

  /** A float casts to its own value. */
  lemma FloatsStay(cast: real -> Word, w: Word)
    requires Rounds(cast) && Finite(w) && -1000.0 <= Value(w) <= 1000.0
    ensures Finite(cast(Value(w))) && Value(cast(Value(w))) == Value(w)
  {
    hide Value, Finite;
    assert Abs(Value(cast(Value(w))) - Value(w)) <= Abs(Value(w) - Value(w));
  }

  /** A number in [-1, 1] stays in it. */
  lemma UnitStays(cast: real -> Word, x: real)
    requires Rounds(cast) && -1.0 <= x <= 1.0
    ensures InUnit(cast(x))
  {
    Landmarks();
    hide Value, Finite;
    assert Abs(Value(cast(x)) - x) <= Abs(Value(0x3F80_0000) - x);
    assert Abs(Value(cast(x)) - x) <= Abs(Value(0xBF80_0000) - x);
  }

  ghost predicate UnitRows(rows: seq<Safety.Commands>) {
    1 <= |rows| <= MAX_STEPS && forall r, j | 0 <= r < |rows| && 0 <= j < 6 :: -1.0 <= rows[r][j] <= 1.0
  }

  lemma {:induction false} CutStaysGood(rows: seq<Row>)
    requires forall r, j | 0 <= r < |rows| && 0 <= j < 6 :: InUnit(rows[r][j])
    ensures forall v <- Flat(rows) :: InUnit(v)
  {
    hide InUnit;
    if rows != [] {
      var n := |rows| - 1;
      CutStaysGood(rows[..n]);
      forall v | v in rows[n] ensures InUnit(v) {
        var j :| 0 <= j < 6 && rows[n][j] == v;
      }
    }
  }

  /** Rows in [-1, 1] can be encoded. */
  lemma UnitRowsAreGood(cast: real -> Word, plan: Plan)
    requires Rounds(cast) && UnitRows(plan.rows)
    ensures GoodRows(CutOf(cast, plan).rows)
  {
    var rows := CutOf(cast, plan).rows;
    forall r, j | 0 <= r < |rows| && 0 <= j < 6 ensures InUnit(rows[r][j]) {
      assert rows[r] == CutRow(cast, plan.rows[r]);
      UnitStays(cast, plan.rows[r][j]);
    }
    CutStaysGood(rows);
  }

  // ---- Such a cast exists ----

  /** The first nearest of the finite words below n. */
  ghost function Nearest(x: real, n: nat): Word
    requires 0 < n <= 0x1_0000_0000
  {
    if n == 1 then 0 else
    var b := Nearest(x, n - 1);
    if Finite(n - 1) && Abs(Value(n - 1) - x) < Abs(Value(b) - x) then n - 1 else b
  }

  lemma {:induction false} NearestIsNearest(x: real, n: nat, w: Word)
    requires 0 < n <= 0x1_0000_0000
    ensures Finite(Nearest(x, n)) && (w < n && Finite(w) ==> Abs(Value(Nearest(x, n)) - x) <= Abs(Value(w) - x))
  {
    hide Value;
    if n == 1 {
      assert Exponent(0) == 0;
    } else {
      NearestIsNearest(x, n - 1, w);
    }
  }

  lemma SomeCastRounds() returns (cast: real -> Word)
    ensures Rounds(cast)
  {
    hide Nearest, Value, Finite;
    var all: nat := 0x1_0000_0000;
    cast := x => Nearest(x, all);
    forall x: real, w: Word | -1000.0 <= x <= 1000.0 && Finite(w)
      ensures Finite(cast(x)) && Abs(Value(cast(x)) - x) <= Abs(Value(w) - x)
    {
      NearestIsNearest(x, all, w);
    }
  }
}
