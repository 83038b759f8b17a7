/** The 8-bit resampler: a horizontal pass, then a vertical one, in 22-bit fixed point. */
module Resize {
  import opened Arithmetic
  import opened Bytes
  import opened ResizeTaps

  type Row = seq<Byte>
  type Image = seq<Row>

  ghost predicate Rectangular(img: Image, width: nat) { forall y | 0 <= y < |img| :: |img[y]| == width }

  function Clip8(v: int): Byte { if v >= 256 * ONE then 255 else if v <= 0 then 0 else v / ONE }

  function Dot(p: seq<Byte>, k: seq<int>): int
    requires |p| == |k|
  {
    if p == [] then 0 else Dot(p[..|p| - 1], k[..|k| - 1]) + p[|p| - 1] * k[|k| - 1]
  }

  function Blend(p: seq<Byte>, k: seq<int>): Byte
    requires |p| == |k|
  {
    Clip8(HALF + Dot(p, k))
  }

  // ---- One output pixel ----

  lemma {:induction false} DotWithin(p: seq<Byte>, k: seq<int>, lo: Byte, hi: Byte)
    requires |p| == |k|
    requires forall x | 0 <= x < |p| :: lo <= p[x] <= hi && k[x] >= 0
    ensures lo * Total(k) <= Dot(p, k) <= hi * Total(k)
  {
    if p != [] {
      var n := |p| - 1;
      DotWithin(p[..n], k[..n], lo, hi);
      TimesInOrder(lo, p[n], k[n]);
      TimesInOrder(p[n], hi, k[n]);
      Distribute(lo, Total(k[..n]), k[n]);
      Distribute(hi, Total(k[..n]), k[n]);
    }
  }

  /** The output lies between the smallest and the largest input, so a constant run keeps its value. */
  lemma BlendWithin(p: seq<Byte>, k: seq<int>, lo: Byte, hi: Byte)
    requires |p| == |k| && Balanced(k) && 255 * |k| < ONE
    requires forall x | 0 <= x < |p| :: lo <= p[x] <= hi
    ensures lo <= Blend(p, k) <= hi
  {
    hide Dot, Total, Clip8;
    DotWithin(p, k, lo, hi);
    var off := Total(k) - ONE;
    Drift(lo, off);
    Drift(hi, off);
    Distribute(lo, ONE, off);
    Distribute(hi, ONE, off);
    ClipWithin(Dot(p, k), lo, hi, lo * off, hi * off);
  }

  lemma ClipWithin(dot: int, lo: Byte, hi: Byte, a: int, b: int)
    requires lo * ONE + a <= dot <= hi * ONE + b && -HALF <= a && b < HALF
    ensures lo <= Clip8(HALF + dot) <= hi
  {}

  lemma Drift(c: Byte, off: int)
    requires -ONE < 255 * (2 * off) < ONE
    ensures -HALF <= c * off < HALF
  {
    if off >= 0 { TimesInOrder(c, 255, off); TimesInOrder(0, c, off); } else { TimesInOrder(c, 255, -off); TimesInOrder(0, c, -off); }
  }

  lemma {:induction false} DotOfConstant(p: seq<Byte>, k: seq<int>, c: Byte)
    requires |p| == |k| && forall x | 0 <= x < |p| :: p[x] == c
    ensures Dot(p, k) == c * Total(k)
  {
    if p != [] {
      var n := |p| - 1;
      DotOfConstant(p[..n], k[..n], c);
      assert c * Total(k) == c * Total(k[..n]) + c * k[n];
    }
  }

  /** For any weights at all: exactly when a constant run keeps its value. */
  lemma ConstantIsKeptIff(p: seq<Byte>, k: seq<int>, c: Byte)
    requires |p| == |k| && forall x | 0 <= x < |p| :: p[x] == c
    ensures Blend(p, k) == c <==> -HALF <= c * (Total(k) - ONE) && (c * (Total(k) - ONE) < HALF || c == 255)
  {
    DotOfConstant(p, k, c);
    assert c * Total(k) == c * ONE + c * (Total(k) - ONE);
  }

  lemma {:induction false} TotalOfFront(k: seq<int>, n: nat)
    requires n <= |k| && forall x | 0 <= x < |k| :: k[x] >= 0
    ensures 0 <= Total(k[..n]) <= Total(k)
    decreases |k|
  {
    if n < |k| {
      TotalOfFront(k[..|k| - 1], n);
      assert k[..|k| - 1][..n] == k[..n];
    } else {
      assert k[..n] == k;
      if n > 0 { TotalOfFront(k[..n - 1], n - 1); }
    }
  }

  /** Most positions of a run for which 32 bits are sure to hold the sum. */
  const INT32_TAPS := 8437952

  predicate FitsInt32(v: int) { 0 <= v < 0x8000_0000 }

  /** The weights of a front weigh at most 2^22 and half a unit for each of the run. */
  lemma FrontIsLight(k: seq<int>, n: nat)
    requires Balanced(k) && |k| <= INT32_TAPS && n <= |k|
    ensures 0 <= Total(k[..n]) && FitsInt32(HALF + 255 * Total(k[..n]))
  {
    hide Total;
    TotalOfFront(k, n);
    TimesInOrder(Total(k[..n]), Total(k), 255);
  }

  lemma WeightIsLight(k: seq<int>, n: nat)
    requires Balanced(k) && |k| <= INT32_TAPS && n < |k|
    ensures 0 <= k[n] && FitsInt32(255 * k[n])
  {
    FrontIsLight(k, n + 1);
    TotalOfFront(k, n);
    assert k[..n + 1][..n] == k[..n];
  }

  /** The running sum and each product are non-negative 32-bit integers. */
  lemma SumFitsInt32(p: seq<Byte>, k: seq<int>, n: nat)
    requires |p| == |k| && Balanced(k) && |k| <= INT32_TAPS && n <= |k|
    ensures FitsInt32(HALF + Dot(p[..n], k[..n]))
    ensures n < |k| ==> FitsInt32(p[n] * k[n])
  {
    hide Total, Dot;
    FrontIsLight(k, n);
    DotWithin(p[..n], k[..n], 0, 255);
    if n < |k| {
      WeightIsLight(k, n);
      TimesInOrder(0, p[n], k[n]);
      TimesInOrder(p[n], 255, k[n]);
    }
  }

  lemma {:induction false} DotIsMonotone(p: seq<Byte>, q: seq<Byte>, k: seq<int>)
    requires |p| == |q| == |k|
    requires forall x | 0 <= x < |p| :: p[x] <= q[x] && k[x] >= 0
    ensures Dot(p, k) <= Dot(q, k)
  {
    if p != [] {
      var n := |p| - 1;
      DotIsMonotone(p[..n], q[..n], k[..n]);
      TimesInOrder(p[n], q[n], k[n]);
    }
  }

  lemma BlendIsMonotone(p: seq<Byte>, q: seq<Byte>, k: seq<int>)
    requires |p| == |q| == |k|
    requires forall x | 0 <= x < |p| :: p[x] <= q[x] && k[x] >= 0
    ensures Blend(p, k) <= Blend(q, k)
  {
    DotIsMonotone(p, q, k);
  }

  // ---- Images ----

  /** Output position xx along one line of pixels. */
  function Along(line: Row, a: Axis, xx: nat): Byte
    requires a.Valid() && |line| == a.size && xx < a.outSize
  {
    a.RunFits(xx);
    var r := RunAt(a, xx);
    Blend(line[r.first..r.first + |r.weights|], r.weights)
  }

  function Column(img: Image, x: nat): (c: Row)
    requires forall y | 0 <= y < |img| :: x < |img[y]|
    ensures |c| == |img|
  {
    seq(|img|, y requires 0 <= y < |img| => img[y][x])
  }

  function Horizontal(img: Image, a: Axis): (out: Image)
    requires a.Valid() && Rectangular(img, a.size)
    ensures |out| == |img| && Rectangular(out, a.outSize)
  {
    seq(|img|, y requires 0 <= y < |img| => seq(a.outSize, xx requires 0 <= xx < a.outSize => Along(img[y], a, xx)))
  }

  function Vertical(img: Image, width: nat, a: Axis): (out: Image)
    requires a.Valid() && |img| == a.size && Rectangular(img, width)
    ensures |out| == a.outSize && Rectangular(out, width)
  {
    seq(a.outSize, yy requires 0 <= yy < a.outSize =>
      seq(width, xx requires 0 <= xx < width => Along(Column(img, xx), a, yy)))
  }

  function Resized(img: Image, h: Axis, v: Axis): (out: Image)
    requires h.Valid() && v.Valid() && |img| == v.size && Rectangular(img, h.size)
    ensures |out| == v.outSize && Rectangular(out, h.outSize)
  {
    Vertical(Horizontal(img, h), h.outSize, v)
  }

  ghost predicate Between(img: Image, lo: Byte, hi: Byte) {
    forall y, x | 0 <= y < |img| && 0 <= x < |img[y]| :: lo <= img[y][x] <= hi
  }

  ghost predicate Darker(a: Image, b: Image) {
    |a| == |b| && forall y | 0 <= y < |a| :: |a[y]| == |b[y]| && forall x | 0 <= x < |a[y]| :: a[y][x] <= b[y][x]
  }

  /** Few enough positions per output for the rounding of the weights to stay hidden. */
  ghost predicate Moderate(a: Axis) { a.Valid() && forall xx | 0 <= xx < a.outSize :: 255 * a.Count(xx) < ONE }

  lemma RunIsShort(a: Axis, xx: nat)
    requires Moderate(a) && xx < a.outSize
    ensures 255 * |RunAt(a, xx).weights| < ONE && Balanced(RunAt(a, xx).weights)
  {
    WeightsAreBalanced(a, xx);
  }

  /** Any shrink by at most 8223, and any enlargement. */
  lemma SmallShrinkIsModerate(a: Axis)
    requires a.Valid() && a.size <= 8223 * a.outSize
    ensures Moderate(a)
  {
    QuotientAtMost(a.size as real, a.outSize as real, 8223.0);
    assert a.Ksize() <= 16447;
    forall xx | 0 <= xx < a.outSize ensures 255 * a.Count(xx) < ONE { a.RunFits(xx); }
  }

  lemma QuotientAtMost(s: real, o: real, k: real)
    requires o > 0.0 && s <= k * o
    ensures s / o <= k
  {
    assert (k - s / o) * o == k * o - s;
  }

  lemma AlongWithin(line: Row, a: Axis, xx: nat, lo: Byte, hi: Byte)
    requires Moderate(a) && |line| == a.size && xx < a.outSize
    requires forall x | 0 <= x < |line| :: lo <= line[x] <= hi
    ensures lo <= Along(line, a, xx) <= hi
  {
    a.RunFits(xx);
    RunIsShort(a, xx);
    var r := RunAt(a, xx);
    BlendWithin(line[r.first..r.first + |r.weights|], r.weights, lo, hi);
  }

  lemma AlongIsMonotone(p: Row, q: Row, a: Axis, xx: nat)
    requires a.Valid() && |p| == |q| == a.size && xx < a.outSize
    requires forall x | 0 <= x < |p| :: p[x] <= q[x]
    ensures Along(p, a, xx) <= Along(q, a, xx)
  {
    a.RunFits(xx);
    WeightsAreBalanced(a, xx);
    var r := RunAt(a, xx);
    BlendIsMonotone(p[r.first..r.first + |r.weights|], q[r.first..r.first + |r.weights|], r.weights);
  }

  /** Weights as they are: exactly when a constant line keeps its value at output position xx. */
  lemma LineIsKeptIff(line: Row, a: Axis, xx: nat, c: Byte)
    requires a.Valid() && |line| == a.size && xx < a.outSize && forall x | 0 <= x < |line| :: line[x] == c
    ensures var off := Total(RunAt(a, xx).weights) - ONE;
      Along(line, a, xx) == c <==> -HALF <= c * off && (c * off < HALF || c == 255)
  {
    a.RunFits(xx);
    var r := RunAt(a, xx);
    ConstantIsKeptIff(line[r.first..r.first + |r.weights|], r.weights, c);
  }

  /** Every output pixel lies between the darkest and the brightest input pixel. */
  lemma ResizedWithin(img: Image, h: Axis, v: Axis, lo: Byte, hi: Byte)
    requires Moderate(h) && Moderate(v) && |img| == v.size && Rectangular(img, h.size)
    requires Between(img, lo, hi)
    ensures Between(Resized(img, h, v), lo, hi)
  {
    var temp, out := Horizontal(img, h), Resized(img, h, v);
    forall y, xx | 0 <= y < |temp| && 0 <= xx < |temp[y]| ensures lo <= temp[y][xx] <= hi {
      AlongWithin(img[y], h, xx, lo, hi);
    }
    forall yy, xx | 0 <= yy < |out| && 0 <= xx < |out[yy]| ensures lo <= out[yy][xx] <= hi {
      AlongWithin(Column(temp, xx), v, yy, lo, hi);
    }
  }

  /** A constant image stays that constant. */
  lemma ConstantStays(img: Image, h: Axis, v: Axis, c: Byte)
    requires Moderate(h) && Moderate(v) && |img| == v.size && Rectangular(img, h.size)
    requires Between(img, c, c)
    ensures forall yy, xx | 0 <= yy < v.outSize && 0 <= xx < h.outSize :: Resized(img, h, v)[yy][xx] == c
  {
    ResizedWithin(img, h, v, c, c);
  }

  /** Brightening pixels never darkens an output pixel. */
  lemma ResizedIsMonotone(a: Image, b: Image, h: Axis, v: Axis)
    requires h.Valid() && v.Valid() && |a| == v.size && Rectangular(a, h.size) && Rectangular(b, h.size)
    requires Darker(a, b)
    ensures Darker(Resized(a, h, v), Resized(b, h, v))
  {
    var s, t := Horizontal(a, h), Horizontal(b, h);
    forall y, xx | 0 <= y < |s| && 0 <= xx < h.outSize ensures s[y][xx] <= t[y][xx] {
      AlongIsMonotone(a[y], b[y], h, xx);
    }
    var u, w := Resized(a, h, v), Resized(b, h, v);
    forall yy, xx | 0 <= yy < |u| && 0 <= xx < h.outSize ensures u[yy][xx] <= w[yy][xx] {
      AlongIsMonotone(Column(s, xx), Column(t, xx), v, yy);
    }
  }

  // ---- Nothing to do ----

  lemma SameSizeRun(n: nat, xx: nat)
    requires xx < n
    ensures var a := Axis(n, n);
      && a.First(xx) == xx && 1 <= a.Count(xx) <= 2
      && a.Tents(xx)[0] == 1.0 && (a.Count(xx) == 2 ==> a.Tents(xx)[1] == 0.0)
  {
    var a := Axis(n, n);
    assert n as real / n as real == 1.0;
    assert a.Scale() == 1.0 && a.Support() == 1.0 && a.Center(xx) == xx as real + 0.5;
    assert a.First(xx) == xx;
    assert a.End(xx) == if xx + 2 < n then xx + 2 else n;
    NeighboursShare(xx, a.Center(xx), 0.0);
    assert a.Tents(xx)[0] == Hat(0 + xx, a.Center(xx), 1.0);
    if a.Count(xx) == 2 { assert a.Tents(xx)[1] == Hat(1 + xx, a.Center(xx), 1.0); }
  }

  /** All the weight on the first of at most two positions. */
  lemma FirstOnly(tents: seq<real>)
    requires 1 <= |tents| <= 2 && tents[0] == 1.0 && (|tents| == 2 ==> tents[1] == 0.0)
    ensures Sum(tents) == 1.0 && Weights(tents, 1.0)[0] == ONE && (|tents| == 2 ==> Weights(tents, 1.0)[1] == 0)
  {
    assert Sum(tents[..1]) == tents[..1][0] by { assert tents[..1][..0] == []; }
    if |tents| == 1 { assert tents[..1] == tents; }
    assert Fixed(Share(1.0, 1.0)) == ONE && Fixed(Share(0.0, 1.0)) == 0;
  }

  lemma BlendOfFirst(p: seq<Byte>, k: seq<int>)
    requires |p| == |k| && 1 <= |k| <= 2 && k[0] == ONE && (|k| == 2 ==> k[1] == 0)
    ensures Blend(p, k) == p[0]
  {
    assert Dot(p[..1], k[..1]) == p[0] * ONE by { assert p[..1][..0] == [] && k[..1][..0] == []; }
    if |k| == 1 { assert p[..1] == p && k[..1] == k; }
  }

  lemma SameSizeLine(line: Row, n: nat, xx: nat)
    requires |line| == n && xx < n
    ensures Along(line, Axis(n, n), xx) == line[xx]
  {
    hide Blend;
    var a := Axis(n, n);
    SameSizeRun(n, xx);
    FirstOnly(a.Tents(xx));
    a.RunFits(xx);
    var r := RunAt(a, xx);
    BlendOfFirst(line[r.first..r.first + |r.weights|], r.weights);
  }

  /** Resizing to the same size changes nothing. */
  lemma SameSizeIsTheSame(img: Image, width: nat, height: nat)
    requires width > 0 && height > 0 && |img| == height && Rectangular(img, width)
    ensures Resized(img, Axis(width, width), Axis(height, height)) == img
  {
    hide Along;
    var temp := Horizontal(img, Axis(width, width));
    forall y | 0 <= y < height ensures temp[y] == img[y] {
      forall xx | 0 <= xx < width ensures temp[y][xx] == img[y][xx] { SameSizeLine(img[y], width, xx); }
    }
    assert temp == img;
    var out := Vertical(temp, width, Axis(height, height));
    forall yy | 0 <= yy < height ensures out[yy] == img[yy] {
      forall xx | 0 <= xx < width ensures out[yy][xx] == img[yy][xx] { SameSizeLine(Column(temp, xx), height, yy); }
    }
  }

  // ---- Too many positions ----

  lemma {:induction false} SumOfHeavy(s: seq<real>)
    requires forall k | 0 <= k < |s| :: s[k] >= 0.5
    ensures Sum(s) >= 0.5 * |s| as real
  {
    if s != [] { SumOfHeavy(s[..|s| - 1]); }
  }

  lemma {:induction false} TotalOfZeros(k: seq<int>)
    requires forall x | 0 <= x < |k| :: k[x] == 0
    ensures Total(k) == 0
  {
    if k != [] { TotalOfZeros(k[..|k| - 1]); }
  }

  /** A share too small to be half of 2^-22. */
  lemma TinyShare(w: real, ww: real)
    requires 0.0 <= w <= 1.0 && ww >= 16777216.0
    ensures Fixed(Share(w, ww)) == 0
  {
    QuotientAtMost(w, ww, 1.0 / 16777216.0);
    assert 0.0 <= w / ww <= 1.0 / 16777216.0;
  }

  lemma HugeRun()
    ensures var a := Axis(0x200_0000, 1);
      && a.First(0) == 0 && a.Count(0) == a.size
      && forall x | 0 <= x < a.size :: 0.5 <= a.Tents(0)[x] <= 1.0
  {
    var a := Axis(0x200_0000, 1);
    assert a.Scale() == 33554432.0 && a.Support() == 33554432.0 && a.Center(0) == 16777216.0;
    assert a.First(0) == 0 && a.End(0) == a.size;
    forall x | 0 <= x < a.size ensures 0.5 <= a.Tents(0)[x] <= 1.0 {
      assert a.Tents(0)[x] == Hat(x, 16777216.0, 33554432.0);
      CentralHat(x);
    }
  }

  lemma CentralHat(x: int)
    requires 0 <= x < 0x200_0000
    ensures 0.5 <= Hat(x, 16777216.0, 33554432.0) <= 1.0
  {}

  /** One output position over 2^25 input positions: every weight rounds to zero, and so does every line. */
  lemma HugeShrinkIsBlack(line: Row)
    requires |line| == 0x200_0000
    ensures Along(line, Axis(0x200_0000, 1), 0) == 0
  {
    var a := Axis(0x200_0000, 1);
    HugeRun();
    var tents, k := a.Tents(0), RunAt(a, 0).weights;
    SumOfHeavy(tents);
    forall x | 0 <= x < |k| ensures k[x] == 0 { TinyShare(tents[x], Sum(tents)); }
    TotalOfZeros(k);
    a.RunFits(0);
    DotWithin(line[0..|k|], k, 0, 255);
  }
}
