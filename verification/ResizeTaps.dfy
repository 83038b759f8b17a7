/**
  Weights of the fixed-point bilinear resampler: for each output position a run of input positions
  and their shares of 2^22. Real arithmetic stands for double arithmetic.
 */
module ResizeTaps {
  import opened Arithmetic

  const ONE := 0x40_0000
  const HALF := 0x20_0000

  /** Conversion to an integer, towards zero. */
  function Trunc(x: real): int { if x < 0.0 then -(-x).Floor else x.Floor }

  /** Distance from the center in units of the support. */
  function Offset(at: int, center: real, support: real): real
    requires support > 0.0
  {
    (at as real - center + 0.5) * (1.0 / support)
  }

  function Hat(at: int, center: real, support: real): (w: real)
    requires support > 0.0
    ensures w >= 0.0
  {
    var d := Abs(Offset(at, center, support));
    if d < 1.0 then 1.0 - d else 0.0
  }

  datatype Axis = Axis(size: nat, outSize: nat)
  {
    ghost predicate Valid() { size > 0 && outSize > 0 }

    function Scale(): real
      requires Valid()
    {
      size as real / outSize as real
    }

    function Support(): real
      requires Valid()
    {
      Max(Scale(), 1.0)
    }

    function Ksize(): int
      requires Valid()
    {
      Ceil(Support()) * 2 + 1
    }

    function Center(xx: nat): real
      requires Valid()
    {
      (xx as real + 0.5) * Scale()
    }

    function First(xx: nat): nat
      requires Valid()
    {
      var x := Trunc(Center(xx) - Support() + 0.5);
      if x > 0 then x else 0
    }

    function End(xx: nat): int
      requires Valid()
    {
      var end := Trunc(Center(xx) + Support() + 0.5);
      if end < size then end else size
    }

    function Count(xx: nat): nat
      requires Valid() && xx < outSize
    {
      RunFits(xx); End(xx) - First(xx)
    }

    /** The tent over the output position, at input position First + x. */
    function Tent(xx: nat, x: nat): (w: real)
      requires Valid()
      ensures w >= 0.0
    {
      Hat(x + First(xx), Center(xx), Support())
    }

    function Tents(xx: nat): (w: seq<real>)
      requires Valid() && xx < outSize
      ensures |w| == Count(xx)
    {
      seq(Count(xx), x requires x >= 0 => Tent(xx, x))
    }

    /** The output position lies over the input. */
    lemma CenterInside(xx: nat)
      requires Valid() && xx < outSize
      ensures 0.0 < Center(xx) < size as real
    {
      var s, o, k := size as real, outSize as real, xx as real + 0.5;
      CrossTimes(k, s, o);
    }

    /** The run is inside the input, no longer than the padded row, and holds the nearest position. */
    lemma RunFits(xx: nat)
      requires Valid() && xx < outSize
      ensures 0 < End(xx) - First(xx) <= Ksize() && End(xx) <= size
      ensures First(xx) <= Center(xx).Floor < End(xx)
    {
      CenterInside(xx);
    }

    lemma NearestIsHeavy(xx: nat)
      requires Valid() && xx < outSize
      ensures First(xx) <= Center(xx).Floor && Tent(xx, Center(xx).Floor - First(xx)) >= 0.5
    {
      RunFits(xx);
      NearestHat(Center(xx), Support());
    }

    /** Weights never sum to nothing. */
    lemma TentsArePositive(xx: nat)
      requires Valid() && xx < outSize
      ensures Count(xx) > 0 && Sum(Tents(xx)) >= 0.5
    {
      RunFits(xx);
      NearestIsHeavy(xx);
      SumCovers(Tents(xx), Center(xx).Floor - First(xx));
    }
  }

  /** The run leaves out no position of the input with any weight. */
  lemma RunHasAllTheWeight(a: Axis, xx: nat, at: nat)
    requires a.Valid() && xx < a.outSize && at < a.size && !(a.First(xx) <= at < a.End(xx))
    ensures Hat(at, a.Center(xx), a.Support()) == 0.0
  {
    a.CenterInside(xx);
    OutsideTheRun(a.Center(xx), a.Support(), at, a.size);
    FarHat(at, a.Center(xx), a.Support());
  }

  lemma OutsideTheRun(center: real, support: real, at: nat, size: nat)
    requires support >= 1.0 && 0.0 < center < size as real && at < size
    requires var first, end := Trunc(center - support + 0.5), Trunc(center + support + 0.5);
      !((if first > 0 then first else 0) <= at < if end < size then end else size)
    ensures at as real - center + 0.5 <= -support || at as real - center + 0.5 >= support
  {}

  lemma FarHat(at: int, center: real, support: real)
    requires support >= 1.0 && (at as real - center + 0.5 <= -support || at as real - center + 0.5 >= support)
    ensures Hat(at, center, support) == 0.0
  {
    var x, k := at as real - center + 0.5, 1.0 / support;
    assert support * k == 1.0 && Offset(at, center, support) == x * k;
    if x >= support {
      NonNegative(x - support, k);
      assert (x - support) * k == x * k - support * k;
    } else {
      NonNegative(-support - x, k);
      assert (-support - x) * k == -(support * k) - x * k;
    }
  }

  /** The weights are linear in the distance: between two neighbours of an enlargement they share the whole. */
  lemma NeighboursShare(at: int, center: real, f: real)
    requires center == at as real + 0.5 + f && 0.0 <= f <= 1.0
    ensures Hat(at, center, 1.0) == 1.0 - f && Hat(at + 1, center, 1.0) == f
  {
    assert 1.0 / 1.0 == 1.0;
  }

  /** In a shrink a position weighs the less the further it is from the center, linearly down to nothing at the support. */
  lemma HatIsLinear(at: int, center: real, support: real)
    requires support >= 1.0 && -support <= at as real - center + 0.5 <= support
    ensures Hat(at, center, support) * support == support - Abs(at as real - center + 0.5)
  {
    var x, k := at as real - center + 0.5, 1.0 / support;
    assert support * k == 1.0;
    assert x * k * support == x;
    NonNegative(support - x, k);
    NonNegative(support + x, k);
  }

  lemma CrossTimes(k: real, s: real, o: real)
    requires 0.0 < k < o && s > 0.0
    ensures 0.0 < k * (s / o) < s
  {
    var q := s / o;
    assert q * o == s && q > 0.0;
    assert (o - k) * q == s - k * q;
    assert (o - k) * q > 0.0 && k * q > 0.0;
  }

  lemma Inverse(x: real)
    requires x >= 1.0
    ensures 0.0 < 1.0 / x <= 1.0
  {}

  lemma NearestOffset(center: real, support: real)
    requires support >= 1.0
    ensures -0.5 <= Offset(center.Floor, center, support) <= 0.5
  {
    Inverse(support);
    Shrinks(center.Floor as real - center + 0.5, 1.0 / support);
  }

  lemma NearestHat(center: real, support: real)
    requires support >= 1.0
    ensures Hat(center.Floor, center, support) >= 0.5
  {
    hide Offset;
    NearestOffset(center, support);
  }

  lemma Shrinks(x: real, k: real)
    requires 0.0 < k <= 1.0 && -0.5 <= x <= 0.5
    ensures -0.5 <= x * k <= 0.5
  {
    NonNegative(0.5 - x, k);
    NonNegative(x + 0.5, k);
    assert (0.5 - x) * k == 0.5 * k - x * k && (x + 0.5) * k == x * k + 0.5 * k;
  }

  function Sum(s: seq<real>): real {
    if s == [] then 0.0 else Sum(s[..|s| - 1]) + s[|s| - 1]
  }

  lemma {:induction false} SumCovers(s: seq<real>, i: nat)
    requires i < |s| && forall k | 0 <= k < |s| :: s[k] >= 0.0
    ensures Sum(s) >= s[i]
  {
    var front := s[..|s| - 1];
    if i < |front| {
      SumCovers(front, i);
    } else if front != [] {
      SumCovers(front, 0);
    }
  }

  // ---- Fixed point ----

  function Fixed(v: real): int { if v < 0.0 then Trunc(-0.5 + v * ONE as real) else Trunc(0.5 + v * ONE as real) }

  function Share(w: real, ww: real): real { if ww != 0.0 then w / ww else w }

  function Weights(tents: seq<real>, ww: real): (k: seq<int>)
    ensures |k| == |tents|
  {
    seq(|tents|, x requires 0 <= x < |tents| => Fixed(Share(tents[x], ww)))
  }

  function Total(k: seq<int>): int {
    if k == [] then 0 else Total(k[..|k| - 1]) + k[|k| - 1]
  }

  lemma FixedIsClose(v: real)
    requires v >= 0.0
    ensures Fixed(v) >= 0 && -0.5 <= Fixed(v) as real - v * ONE as real <= 0.5
  {}

  /** A share of 2^22. */
  function Portion(w: real, ww: real): real
    requires ww > 0.0
  {
    w / ww * ONE as real
  }

  lemma PortionsAdd(a: real, b: real, ww: real)
    requires ww > 0.0
    ensures Portion(a, ww) + Portion(b, ww) == Portion(a + b, ww)
  {
    assert a / ww + b / ww == (a + b) / ww;
  }

  lemma ShareIsClose(w: real, ww: real)
    requires w >= 0.0 && ww > 0.0
    ensures Fixed(Share(w, ww)) >= 0 && -0.5 <= Fixed(Share(w, ww)) as real - Portion(w, ww) <= 0.5
  {
    assert w / ww >= 0.0;
    FixedIsClose(w / ww);
  }

  lemma {:induction false} TotalIsClose(tents: seq<real>, ww: real)
    requires ww > 0.0 && forall k | 0 <= k < |tents| :: tents[k] >= 0.0
    ensures forall k | 0 <= k < |tents| :: Weights(tents, ww)[k] >= 0
    ensures var off := Total(Weights(tents, ww)) as real - Portion(Sum(tents), ww);
      -(|tents| as real) <= 2.0 * off <= |tents| as real
  {
    if tents != [] {
      var n := |tents| - 1;
      TotalIsClose(tents[..n], ww);
      WeightsPrefix(tents, ww, n);
      LastWeight(tents, ww, n);
      PortionsAdd(Sum(tents[..n]), tents[n], ww);
    }
  }

  lemma WeightsPrefix(tents: seq<real>, ww: real, n: nat)
    requires n <= |tents|
    ensures Weights(tents, ww)[..n] == Weights(tents[..n], ww)
  {}

  lemma LastWeight(tents: seq<real>, ww: real, n: nat)
    requires ww > 0.0 && |tents| == n + 1 && tents[n] >= 0.0
    ensures var last := Weights(tents, ww)[n];
      last >= 0 && -0.5 <= last as real - Portion(tents[n], ww) <= 0.5
  {
    ShareIsClose(tents[n], ww);
  }

  /** Weights are non-negative and sum to 2^22 within half a unit for each. */
  ghost predicate Balanced(k: seq<int>) {
    (forall x | 0 <= x < |k| :: k[x] >= 0) && -|k| <= 2 * (Total(k) - ONE) <= |k|
  }

  lemma WholePortion(ww: real)
    requires ww > 0.0
    ensures Portion(ww, ww) == ONE as real
  {}

  lemma WeightsAreBalanced(a: Axis, xx: nat)
    requires a.Valid() && xx < a.outSize
    ensures Balanced(Weights(a.Tents(xx), Sum(a.Tents(xx))))
  {
    a.TentsArePositive(xx);
    var tents := a.Tents(xx);
    TotalIsClose(tents, Sum(tents));
    WholePortion(Sum(tents));
  }

  /** How far input position `at` is from output position `xx`, both taken at their middles. */
  function Distance(a: Axis, xx: nat, at: int): real
    requires a.Valid()
  {
    Abs(at as real + 0.5 - (xx as real + 0.5) * (a.size as real / a.outSize as real))
  }

  /** Every fixed-point weight is, within half a unit, the share of 2^22 that its distance gives it. */
  lemma WeightIsItsShare(a: Axis, xx: nat, x: nat)
    requires a.Valid() && xx < a.outSize && x < a.Count(xx)
    ensures Sum(a.Tents(xx)) >= 0.5
    ensures var ww, d, support := Sum(a.Tents(xx)), Distance(a, xx, a.First(xx) + x), Max(a.size as real / a.outSize as real, 1.0);
      && a.Tents(xx)[x] == (if d < support then 1.0 - d / support else 0.0)
      && -0.5 <= Weights(a.Tents(xx), ww)[x] as real - a.Tents(xx)[x] / ww * ONE as real <= 0.5
  {
    a.TentsArePositive(xx);
    hide Fixed, Sum, Trunc, Axis.First, Axis.Count;
    var tents := a.Tents(xx);
    var ww := Sum(tents);
    ShareIsClose(tents[x], ww);
    assert Weights(tents, ww)[x] == Fixed(Share(tents[x], ww));
    TentOfDistance(a, xx, x);
  }

  lemma TentOfDistance(a: Axis, xx: nat, x: nat)
    requires a.Valid() && xx < a.outSize && x < a.Count(xx)
    ensures var d, support := Distance(a, xx, a.First(xx) + x), Max(a.size as real / a.outSize as real, 1.0);
      a.Tents(xx)[x] == if d < support then 1.0 - d / support else 0.0
  {
    hide Hat, Axis.First, Axis.Count;
    TentByDistance(x + a.First(xx), a.Center(xx), a.Support());
  }

  lemma TentByDistance(at: int, center: real, support: real)
    requires support >= 1.0
    ensures var d := Abs(at as real + 0.5 - center);
      Hat(at, center, support) == if d < support then 1.0 - d / support else 0.0
  {
    var x, k := at as real - center + 0.5, 1.0 / support;
    var d := Abs(x);
    assert support * k == 1.0 && d / support == d * k && Abs(x * k) == d * k;
    if d < support { assert (support - d) * k > 0.0; } else { NonNegative(d - support, k); }
    assert (support - d) * k == support * k - d * k && (d - support) * k == d * k - support * k;
  }

  /** The input run of one output position. */
  datatype Run = Run(first: nat, weights: seq<int>)

  function RunAt(a: Axis, xx: nat): (r: Run)
    requires a.Valid() && xx < a.outSize
    ensures |r.weights| == a.Count(xx)
  {
    Run(a.First(xx), Weights(a.Tents(xx), Sum(a.Tents(xx))))
  }

  function RunsOf(a: Axis): (r: seq<Run>)
    requires a.Valid()
    ensures |r| == a.outSize
  {
    seq(a.outSize, xx requires 0 <= xx < a.outSize => RunAt(a, xx))
  }

  method TentRow(a: Axis, xx: nat) returns (w: seq<real>, ww: real)
    requires a.Valid() && xx < a.outSize
    ensures w == a.Tents(xx) && ww == Sum(w)
  {
    w, ww := [], 0.0;
    while |w| < a.Count(xx)
      invariant |w| <= a.Count(xx) && w == a.Tents(xx)[..|w|] && ww == Sum(w)
    {
      var tent := a.Tent(xx, |w|);
      assert (w + [tent])[..|w|] == w;
      w := w + [tent];
      ww := ww + tent;
    }
  }

  method OneWeight(tents: seq<real>, ww: real, x: nat) returns (k: int)
    requires x < |tents|
    ensures k == Weights(tents, ww)[x]
  {
    var v := if ww != 0.0 then tents[x] / ww else tents[x];
    k := Fixed(v);
  }

  method ComputeRun(a: Axis, xx: nat) returns (r: Run)
    requires a.Valid() && xx < a.outSize
    ensures r == RunAt(a, xx) && |r.weights| <= a.Ksize()
  {
    a.RunFits(xx);
    var tents, ww := TentRow(a, xx);
    var weights := [];
    while |weights| < |tents|
      invariant |weights| <= |tents| && weights == Weights(tents, ww)[..|weights|]
    {
      var k := OneWeight(tents, ww, |weights|);
      weights := weights + [k];
    }
    return Run(a.First(xx), weights);
  }

  /** All runs, with the weights in a padded row per output position. */
  class Taps {
    const axis: Axis
    const first: array<nat>
    const count: array<nat>
    const weights: array2<int>
    ghost const runs: seq<Run>

    ghost predicate Shaped()
      reads this
    {
      && axis.Valid() && axis.Ksize() >= 0 && first != count
      && first.Length == count.Length == weights.Length0 == axis.outSize && weights.Length1 == axis.Ksize()
    }

    ghost predicate Stored(xx: nat, r: Run)
      requires Shaped() && xx < axis.outSize
      reads this, first, count, weights
    {
      && first[xx] == r.first && count[xx] == |r.weights| <= axis.Ksize()
      && forall x | 0 <= x < |r.weights| :: weights[xx, x] == r.weights[x]
    }

    ghost predicate Valid()
      reads this, first, count, weights
    {
      && Shaped() && runs == RunsOf(axis)
      && forall xx | 0 <= xx < axis.outSize :: Stored(xx, runs[xx])
    }

    constructor (axis: Axis)
      requires axis.Valid()
      ensures this.axis == axis && Valid() && fresh(first) && fresh(count) && fresh(weights)
    {
      this.axis := axis;
      axis.RunFits(0);
      first := new nat[axis.outSize](_ => 0);
      count := new nat[axis.outSize](_ => 0);
      weights := new int[axis.outSize, axis.Ksize()]((_, _) => 0);
      runs := RunsOf(axis);
      new;
      Fill();
    }

    method Fill()
      requires Shaped() && runs == RunsOf(axis)
      modifies first, count, weights
      ensures Valid()
    {
      var xx := 0;
      while xx < axis.outSize
        invariant 0 <= xx <= axis.outSize
        invariant forall k | 0 <= k < xx :: Stored(k, runs[k])
      {
        var run := ComputeRun(axis, xx);
        Store(xx, run);
        xx := xx + 1;
      }
    }

    method Store(xx: nat, run: Run)
      requires Shaped() && xx < axis.outSize && |run.weights| <= axis.Ksize()
      modifies first, count, weights
      ensures Stored(xx, run)
      ensures forall k | 0 <= k < axis.outSize && k != xx :: first[k] == old(first[k]) && count[k] == old(count[k])
      ensures forall k, x | 0 <= k < axis.outSize && k != xx && 0 <= x < axis.Ksize() :: weights[k, x] == old(weights[k, x])
    {
      var x := 0;
      while x < |run.weights|
        modifies weights
        invariant 0 <= x <= |run.weights|
        invariant forall k | 0 <= k < x :: weights[xx, k] == run.weights[k]
        invariant forall k, j | 0 <= k < axis.outSize && k != xx && 0 <= j < axis.Ksize() :: weights[k, j] == old(weights[k, j])
      {
        weights[xx, x] := run.weights[x];
        x := x + 1;
      }
      first[xx] := run.first;
      count[xx] := |run.weights|;
    }
  }
}
