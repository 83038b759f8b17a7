/** Remainders, and the small real and integer functions the models share. */
module Arithmetic {

  lemma Scale(k: int, d: int)
    requires d >= 0
    ensures k >= 1 ==> k * d >= d
    ensures k <= -1 ==> k * d <= -d
  {}

  lemma UniqueRemainder(x: int, d: nat, q: int, m: nat)
    requires d > 0 && x == q * d + m && m < d
    ensures x % d == m && x / d == q
  {
    var q', m' := x / d, x % d;
    assert x == q' * d + m';
    assert (q - q') * d == m' - m;
    Scale(q - q', d);
  }

  lemma RemainderOfSum(q: int, d: nat, m: int)
    requires d > 0
    ensures (q * d + m) % d == m % d
  {
    var a := m / d;
    assert q * d + m == (q + a) * d + m % d;
    UniqueRemainder(q * d + m, d, q + a, m % d);
  }

  /** Numbers less than `d` apart have different remainders. */
  lemma CloseNumbersDiffer(a: int, b: int, d: nat)
    requires b < a < b + d
    ensures a % d != b % d
  {
    var q := a / d - b / d;
    assert a - b == q * d + (a % d - b % d);
    Scale(q, d);
  }

  // ---- Integers ----

  lemma TimesInOrder(a: int, b: int, k: int)
    requires a <= b && k >= 0
    ensures a * k <= b * k
  {}

  lemma Distribute(c: int, a: int, b: int)
    ensures c * (a + b) == c * a + c * b
  {}

  // ---- Reals ----

  function Abs(x: real): real { if x < 0.0 then -x else x }

  function Max(a: real, b: real): real { if a >= b then a else b }

  function Min(a: real, b: real): real { if a <= b then a else b }

  function Clamp(x: real, lo: real, hi: real): (r: real)
    ensures lo <= hi ==> lo <= r <= hi
  {
    if x < lo then lo else if x > hi then hi else x
  }

  function Ceil(x: real): int { -(-x).Floor }

  function Seconds(ns: nat): real { ns as real / 1000000000.0 }

  lemma NonNegative(a: real, b: real)
    requires a >= 0.0 && b >= 0.0
    ensures a * b >= 0.0
  {}

  lemma QuotientsInOrder(a: real, b: real, d: real)
    requires d > 0.0 && a <= b
    ensures a / d <= b / d
    ensures b / d - a / d == (b - a) / d
  {
    assert (b - a) / d >= 0.0;
  }

  /** A part of a whole. */
  lemma PartOfWhole(a: real, b: real)
    requires 0.0 <= a <= b && b > 0.0
    ensures 0.0 <= a / b <= 1.0 && a / b * b == a
  {
    QuotientsInOrder(0.0, a, b);
    QuotientsInOrder(a, b, b);
    assert b / b == 1.0 && 0.0 / b == 0.0;
  }
}
