/** The joint-space grid of the collector: its sizes, its cell numbers, and how many working cells it has. */
module CoverageGrid {
  import opened Arithmetic

  const MAX_CELLS := 1000000
  const SLACK := 0.0000000001

  /** One joint: its limits, its number of bins, and the bins of its working range. */
  datatype Axis = Axis(lo: real, hi: real, bins: int, begin: int, end: int)
  {
    /** The working bins are among the bins. */
    predicate Sound() { 0 <= begin <= end <= bins && 0 < bins }

    /** There is a working bin; without one the code's clamp has its bounds the wrong way round. */
    predicate Works() { begin < end }
  }

  function AxisFor(lo: real, hi: real, margin: real, bin: real): Axis
    requires bin > 0.0
  {
    Axis(lo, hi, Ceil((hi - lo) / bin), (margin / bin + SLACK).Floor, Ceil((hi - lo - margin) / bin - SLACK))
  }

  /** What the checked options make of an axis: some bins, with the working bins among them. */
  lemma AxisIsSound(lo: real, hi: real, margin: real, inset: real, bin: real)
    requires bin > 0.0 && margin > 0.0 && inset > 0.0 && hi - lo > 2.0 * (margin + inset)
    ensures AxisFor(lo, hi, margin, bin).Sound()
  {
    QuotientsInOrder(0.0, margin, bin);
    QuotientsInOrder(margin, hi - lo - margin, bin);
    QuotientsInOrder(hi - lo - margin, hi - lo, bin);
    assert 0.0 / bin == 0.0;
  }

  /** The working range, widened by the slack inwards, has nothing on both sides of boundary `k`. */
  predicate ClosesAt(lo: real, hi: real, margin: real, bin: real, k: int)
    requires bin > 0.0
  {
    (hi - lo - margin) / bin - SLACK <= k as real <= margin / bin + SLACK
  }

  /** An axis has a working bin exactly if no bin boundary is within the slack of both ends of its range. */
  lemma AxisWorksIff(lo: real, hi: real, margin: real, bin: real)
    requires bin > 0.0
    ensures AxisFor(lo, hi, margin, bin).Works() <==> !exists k: int :: ClosesAt(lo, hi, margin, bin, k)
  {
    var first, last := (hi - lo - margin) / bin - SLACK, margin / bin + SLACK;
    FloorReachesCeil(first, last);
    forall k: int ensures ClosesAt(lo, hi, margin, bin, k) <==> Between(first, k, last) {}
    assert AxisFor(lo, hi, margin, bin).begin == last.Floor && AxisFor(lo, hi, margin, bin).end == Ceil(first);
  }

  predicate Between(a: real, k: int, b: real) { a <= k as real <= b }

  lemma FloorReachesCeil(a: real, b: real)
    ensures Ceil(a) <= b.Floor <==> exists k: int :: Between(a, k, b)
  {
    hide Between, Ceil;
    if Ceil(a) <= b.Floor {
      FloorIsBetween(a, b);
      assert Between(a, b.Floor, b);
    }
    forall k: int | Between(a, k, b) ensures Ceil(a) <= b.Floor { AroundBetween(a, k, b); }
  }

  lemma FloorIsBetween(a: real, b: real)
    requires Ceil(a) <= b.Floor
    ensures Between(a, b.Floor, b)
  {
    assert Ceil(a) as real >= a;
  }

  lemma AroundBetween(a: real, k: int, b: real)
    requires Between(a, k, b)
    ensures Ceil(a) <= b.Floor
  {
    NoLessThanFloor(b, k);
    NoLessThanFloor(-a, -k);
  }

  lemma NoLessThanFloor(x: real, k: int)
    requires k as real <= x
    ensures k <= x.Floor
  {
    assert k as real < (x.Floor + 1) as real;
  }

  /** The options alone do not rule that out. */
  lemma WorkingRangeCanBeEmpty() returns (hi: real, margin: real, inset: real)
    ensures margin > 0.0 && inset > 0.0 && hi > 2.0 * (margin + inset)
    ensures !AxisFor(0.0, hi, margin, 1.0).Works()
  {
    hi, margin, inset := 1.99999999997, 0.99999999995, 0.00000000001;
    assert margin / 1.0 == margin && (hi - 0.0 - margin) / 1.0 == hi - margin;
  }

  datatype Grid = Grid(x: Axis, y: Axis, z: Axis, bin: real)
  {
    predicate Valid() { bin > 0.0 && x.Sound() && y.Sound() && z.Sound() }

    predicate Works() { x.Works() && y.Works() && z.Works() }

    function Cells(): int { x.bins * y.bins * z.bins }

    function WorkingCells(): int { (x.end - x.begin) * (y.end - y.begin) * (z.end - z.begin) }

    function Index(a: int, b: int, c: int): int { (a * y.bins + b) * z.bins + c }
  }

  // ---- Cell numbers ----

  lemma DigitInRange(high: int, low: int, heads: int, base: int)
    requires 0 <= high < heads && 0 <= low < base
    ensures 0 <= high * base + low < heads * base
  {
    TimesInOrder(high + 1, heads, base);
    TimesInOrder(0, high, base);
    assert (high + 1) * base == high * base + base;
  }

  lemma DigitsAreUnique(h: int, l: int, h': int, l': int, base: int)
    requires 0 <= l < base && 0 <= l' < base && h * base + l == h' * base + l'
    ensures h == h' && l == l'
  {
    UniqueRemainder(h * base + l, base, h, l);
    UniqueRemainder(h' * base + l', base, h', l');
  }

  /** Cell numbers are in range. */
  lemma IndexInRange(g: Grid, a: int, b: int, c: int)
    requires 0 <= a < g.x.bins && 0 <= b < g.y.bins && 0 <= c < g.z.bins
    ensures 0 <= g.Index(a, b, c) < g.Cells()
  {
    DigitInRange(a, b, g.x.bins, g.y.bins);
    DigitInRange(a * g.y.bins + b, c, g.x.bins * g.y.bins, g.z.bins);
  }

  /** Different bins have different cell numbers. */
  lemma IndexIsInjective(g: Grid, a: int, b: int, c: int, a': int, b': int, c': int)
    requires 0 <= b < g.y.bins && 0 <= c < g.z.bins && 0 <= b' < g.y.bins && 0 <= c' < g.z.bins
    requires g.Index(a, b, c) == g.Index(a', b', c')
    ensures a == a' && b == b' && c == c'
  {
    DigitsAreUnique(a * g.y.bins + b, c, a' * g.y.bins + b', c', g.z.bins);
    DigitsAreUnique(a, b, a', b', g.y.bins);
  }

  // ---- The working box ----

  function Line(base: int, lo: int, hi: int): (s: set<int>)
    ensures |s| <= if lo <= hi then hi - lo else 0
    decreases hi - lo
  {
    if lo >= hi then {} else Line(base, lo, hi - 1) + {base + (hi - 1)}
  }

  function LineOf(g: Grid, a: int, b: int): set<int> { Line((a * g.y.bins + b) * g.z.bins, g.z.begin, g.z.end) }

  function Plane(g: Grid, a: int, lo: int, hi: int): set<int>
    decreases hi - lo
  {
    if lo >= hi then {} else Plane(g, a, lo, hi - 1) + LineOf(g, a, hi - 1)
  }

  function Box(g: Grid, lo: int, hi: int): set<int>
    decreases hi - lo
  {
    if lo >= hi then {} else Box(g, lo, hi - 1) + Plane(g, hi - 1, g.y.begin, g.y.end)
  }

  lemma {:induction false} OnLine(base: int, lo: int, hi: int, c: int)
    requires lo <= c < hi
    ensures base + c in Line(base, lo, hi)
    decreases hi - lo
  {
    if c < hi - 1 { OnLine(base, lo, hi - 1, c); }
  }

  lemma {:induction false} OnPlane(g: Grid, a: int, lo: int, hi: int, b: int, c: int)
    requires lo <= b < hi && g.z.begin <= c < g.z.end
    ensures g.Index(a, b, c) in Plane(g, a, lo, hi)
    decreases hi - lo
  {
    hide Line;
    if b < hi - 1 { OnPlane(g, a, lo, hi - 1, b, c); } else { OnLine((a * g.y.bins + b) * g.z.bins, g.z.begin, g.z.end, c); }
  }

  lemma {:induction false} InBox(g: Grid, lo: int, hi: int, a: int, b: int, c: int)
    requires lo <= a < hi && g.y.begin <= b < g.y.end && g.z.begin <= c < g.z.end
    ensures g.Index(a, b, c) in Box(g, lo, hi)
    decreases hi - lo
  {
    if a < hi - 1 { InBox(g, lo, hi - 1, a, b, c); } else { OnPlane(g, a, g.y.begin, g.y.end, b, c); }
  }

  lemma {:induction false} PlaneIsSmall(g: Grid, a: int, lo: int, hi: int)
    requires g.z.Sound() && lo <= hi
    ensures |Plane(g, a, lo, hi)| <= (hi - lo) * (g.z.end - g.z.begin)
    decreases hi - lo
  {
    if lo < hi {
      PlaneIsSmall(g, a, lo, hi - 1);
      UnionIsSmall(Plane(g, a, lo, hi - 1), LineOf(g, a, hi - 1));
      OneMore(hi - 1 - lo, g.z.end - g.z.begin);
    }
  }

  lemma OneMore(n: int, k: int)
    ensures (n + 1) * k == n * k + k
  {}

  lemma UnionIsSmall(s: set<int>, t: set<int>)
    ensures |s + t| <= |s| + |t|
  {
    assert |s + t| == |s| + |t| - |s * t|;
  }

  lemma SubsetIsSmaller(s: set<int>, t: set<int>)
    requires s <= t
    ensures |s| <= |t|
  {
    assert t == s + (t - s);
    assert |s + (t - s)| == |s| + |t - s| - |s * (t - s)|;
    assert s * (t - s) == {};
  }

  lemma {:induction false} BoxIsSmall(g: Grid, lo: int, hi: int)
    requires g.y.Sound() && g.z.Sound() && lo <= hi
    ensures |Box(g, lo, hi)| <= (hi - lo) * ((g.y.end - g.y.begin) * (g.z.end - g.z.begin))
    decreases hi - lo
  {
    if lo < hi {
      BoxIsSmall(g, lo, hi - 1);
      PlaneIsSmall(g, hi - 1, g.y.begin, g.y.end);
      UnionIsSmall(Box(g, lo, hi - 1), Plane(g, hi - 1, g.y.begin, g.y.end));
      OneMore(hi - 1 - lo, (g.y.end - g.y.begin) * (g.z.end - g.z.begin));
    }
  }

  function WorkingBox(g: Grid): set<int>
    requires g.Valid()
  {
    Box(g, g.x.begin, g.x.end)
  }

  lemma WorkingBoxIsSmall(g: Grid)
    requires g.Valid()
    ensures |WorkingBox(g)| <= g.WorkingCells()
  {
    BoxIsSmall(g, g.x.begin, g.x.end);
    Regroup(g.x.end - g.x.begin, g.y.end - g.y.begin, g.z.end - g.z.begin);
  }

  lemma Regroup(a: int, b: int, c: int)
    ensures a * (b * c) == a * b * c
  {}

  // ---- Where a pose falls ----

  type Pose = q: seq<real> | |q| == 3 witness [0.0, 0.0, 0.0]

  function ClampBin(x: int, lo: int, hi: int): int { if x < lo then lo else if x > hi then hi else x }

  function BinOf(a: Axis, bin: real, q: real, first: int, end: int): int
    requires bin > 0.0
  {
    ClampBin(((q - a.lo) / bin).Floor, first, end - 1)
  }

  function CellOf(g: Grid, q: Pose): int
    requires g.Valid()
  {
    g.Index(BinOf(g.x, g.bin, q[0], 0, g.x.bins), BinOf(g.y, g.bin, q[1], 0, g.y.bins), BinOf(g.z, g.bin, q[2], 0, g.z.bins))
  }

  function WorkingCellOf(g: Grid, q: Pose): int
    requires g.Valid() && g.Works()
  {
    g.Index(BinOf(g.x, g.bin, q[0], g.x.begin, g.x.end), BinOf(g.y, g.bin, q[1], g.y.begin, g.y.end),
            BinOf(g.z, g.bin, q[2], g.z.begin, g.z.end))
  }

  lemma CellInRange(g: Grid, q: Pose)
    requires g.Valid()
    ensures 0 <= CellOf(g, q) < g.Cells()
  {
    hide BinOf;
    BinInRange(g.x, g.bin, q[0], 0, g.x.bins);
    BinInRange(g.y, g.bin, q[1], 0, g.y.bins);
    BinInRange(g.z, g.bin, q[2], 0, g.z.bins);
    IndexInRange(g, BinOf(g.x, g.bin, q[0], 0, g.x.bins), BinOf(g.y, g.bin, q[1], 0, g.y.bins), BinOf(g.z, g.bin, q[2], 0, g.z.bins));
  }

  lemma WorkingCellInBox(g: Grid, q: Pose)
    requires g.Valid() && g.Works()
    ensures 0 <= WorkingCellOf(g, q) < g.Cells() && WorkingCellOf(g, q) in WorkingBox(g)
  {
    hide BinOf;
    BinInRange(g.x, g.bin, q[0], g.x.begin, g.x.end);
    BinInRange(g.y, g.bin, q[1], g.y.begin, g.y.end);
    BinInRange(g.z, g.bin, q[2], g.z.begin, g.z.end);
    var a, b, c := BinOf(g.x, g.bin, q[0], g.x.begin, g.x.end), BinOf(g.y, g.bin, q[1], g.y.begin, g.y.end), BinOf(g.z, g.bin, q[2], g.z.begin, g.z.end);
    IndexInRange(g, a, b, c);
    InBox(g, g.x.begin, g.x.end, a, b, c);
  }

  /** Every pose has a cell, and a working cell if every joint has a working bin. */
  lemma CellsInRange(g: Grid, q: Pose)
    requires g.Valid()
    ensures 0 <= CellOf(g, q) < g.Cells()
    ensures g.Works() ==> 0 <= WorkingCellOf(g, q) < g.Cells() && WorkingCellOf(g, q) in WorkingBox(g)
  {
    CellInRange(g, q);
    if g.Works() { WorkingCellInBox(g, q); }
  }

  /** A bin holds what lies between its edges; the ends hold the rest. */
  lemma BinHoldsIff(a: Axis, bin: real, q: real, k: int)
    requires bin > 0.0 && 0 <= k < a.bins
    ensures BinOf(a, bin, q, 0, a.bins) == k <==>
      && (k == 0 || a.lo + k as real * bin <= q)
      && (k == a.bins - 1 || q < a.lo + (k + 1) as real * bin)
  {
    BelowIff(a, bin, q, k);
    BelowIff(a, bin, q, k + 1);
    ClampIff(((q - a.lo) / bin).Floor, a.bins, k);
  }

  lemma ClampIff(x: int, bins: int, k: int)
    requires 0 <= k < bins
    ensures ClampBin(x, 0, bins - 1) == k <==> (k == 0 || x >= k) && (k == bins - 1 || x < k + 1)
  {}

  lemma BelowIff(a: Axis, bin: real, q: real, k: int)
    requires bin > 0.0
    ensures ((q - a.lo) / bin).Floor >= k <==> a.lo + k as real * bin <= q
  {
    var x := (q - a.lo) / bin;
    var d := x - k as real;
    assert d * bin == x * bin - k as real * bin && x * bin == q - a.lo;
    if d >= 0.0 {
      NonNegative(d, bin);
      NoLessThanFloor(x, k);
    } else {
      assert d * bin < 0.0;
    }
  }

  lemma BinInRange(a: Axis, bin: real, q: real, first: int, end: int)
    requires bin > 0.0 && first < end
    ensures first <= BinOf(a, bin, q, first, end) < end
  {}

  /** The loop that builds a cell number, most significant joint first. */
  method GridIndex(g: Grid, q: Pose, first: seq<int>, end: seq<int>) returns (result: int)
    requires g.bin > 0.0 && |first| == |end| == 3
    ensures result == g.Index(BinOf(g.x, g.bin, q[0], first[0], end[0]), BinOf(g.y, g.bin, q[1], first[1], end[1]),
                              BinOf(g.z, g.bin, q[2], first[2], end[2]))
  {
    hide BinOf;
    var axes, i := [g.x, g.y, g.z], 0;
    result := 0;
    while i < 3
      invariant 0 <= i <= 3
      invariant result ==
        (if i == 0 then 0 else
         var a := BinOf(g.x, g.bin, q[0], first[0], end[0]);
         if i == 1 then a else
         var b := BinOf(g.y, g.bin, q[1], first[1], end[1]);
         if i == 2 then a * g.y.bins + b else
         (a * g.y.bins + b) * g.z.bins + BinOf(g.z, g.bin, q[2], first[2], end[2]))
    {
      result := result * axes[i].bins + BinOf(axes[i], g.bin, q[i], first[i], end[i]);
      i := i + 1;
    }
  }

  // ---- Sizing ----

  datatype Options = Options(limits: seq<(real, real)>, margin: real, inset: real, bin: real)
  {
    ghost predicate Positive() { |limits| == 3 && margin > 0.0 && inset > 0.0 && bin > 0.0 }

    predicate Wide(i: nat)
      requires i < |limits|
    {
      limits[i].1 - limits[i].0 > 2.0 * (margin + inset)
    }

    function AxisOf(i: nat): Axis
      requires i < |limits| && bin > 0.0
    {
      AxisFor(limits[i].0, limits[i].1, margin, bin)
    }
  }

  /** Product of the first n bin counts. */
  function Size(o: Options, n: nat): int
    requires |o.limits| == 3 && n <= 3 && o.bin > 0.0
  {
    if n == 0 then 1 else Size(o, n - 1) * o.AxisOf(n - 1).bins
  }

  function Working(o: Options, n: nat): int
    requires |o.limits| == 3 && n <= 3 && o.bin > 0.0
  {
    if n == 0 then 1 else Working(o, n - 1) * (o.AxisOf(n - 1).end - o.AxisOf(n - 1).begin)
  }

  predicate Fits(o: Options, n: nat)
    requires |o.limits| == 3 && n <= 3 && o.bin > 0.0
  {
    n == 0 || (Fits(o, n - 1) && o.Wide(n - 1) && Size(o, n) <= MAX_CELLS)
  }

  lemma RoomLeft(size: int, bins: int)
    requires size > 0 && bins > 0
    ensures bins <= MAX_CELLS / size <==> size * bins <= MAX_CELLS
    ensures size * bins <= MAX_CELLS ==> bins <= MAX_CELLS
    ensures size * bins > 0
  {
    var q, m := MAX_CELLS / size, MAX_CELLS % size;
    assert MAX_CELLS == q * size + m;
    if bins <= q { TimesInOrder(bins, q, size); } else { TimesInOrder(q + 1, bins, size); }
    TimesInOrder(1, size, bins);
  }

  /** The next joint's bins fit exactly when the product stays small. */
  lemma NextFits(o: Options, i: nat)
    requires o.Positive() && i < 3 && Fits(o, i) && Size(o, i) > 0 && o.Wide(i)
    ensures var a := o.AxisOf(i);
      && a.Sound()
      && (Fits(o, i + 1) <==> a.bins <= MAX_CELLS && a.bins <= MAX_CELLS / Size(o, i))
      && Size(o, i + 1) > 0
  {
    AxisIsSound(o.limits[i].0, o.limits[i].1, o.margin, o.inset, o.bin);
    RoomLeft(Size(o, i), o.AxisOf(i).bins);
  }

  lemma WholeGrid(o: Options)
    requires o.Positive()
    ensures var g := Grid(o.AxisOf(0), o.AxisOf(1), o.AxisOf(2), o.bin);
      g.Cells() == Size(o, 3) && g.WorkingCells() == Working(o, 3)
  {
    hide AxisFor;
    var a, b, c := o.AxisOf(0), o.AxisOf(1), o.AxisOf(2);
    assert Size(o, 1) == a.bins && Working(o, 1) == a.end - a.begin;
    assert Size(o, 2) == a.bins * b.bins && Working(o, 2) == (a.end - a.begin) * (b.end - b.begin);
  }

  /** The sizes are accepted exactly when every range is wide enough and no product is too large. */
  method SizeGrid(o: Options) returns (ok: bool, grid: Grid, working: int)
    requires o.Positive()
    ensures ok == Fits(o, 3)
    ensures ok ==> grid == Grid(o.AxisOf(0), o.AxisOf(1), o.AxisOf(2), o.bin)
    ensures ok ==> 0 < grid.Cells() <= MAX_CELLS && working == grid.WorkingCells()
    ensures ok ==> grid.Valid()
  {
    var size, i := 1, 0;
    working := 1;
    grid := Grid(o.AxisOf(0), o.AxisOf(1), o.AxisOf(2), o.bin);
    WholeGrid(o);
    hide AxisFor;
    while i < 3
      invariant 0 <= i <= 3 && Fits(o, i) && size == Size(o, i) > 0 && working == Working(o, i)
      invariant forall k | 0 <= k < i :: o.AxisOf(k).Sound()
    {
      var a := o.AxisOf(i);
      if !(o.limits[i].1 - o.limits[i].0 > 2.0 * (o.margin + o.inset)) { NotFitting(o, i + 1); return false, grid, 0; }
      NextFits(o, i);
      if a.bins > MAX_CELLS || a.bins > MAX_CELLS / size { NotFitting(o, i + 1); return false, grid, 0; }
      size := size * a.bins;
      working := working * (a.end - a.begin);
      i := i + 1;
    }
    return true, grid, working;
  }

  lemma {:induction false} NotFitting(o: Options, n: nat)
    requires |o.limits| == 3 && n <= 3 && o.bin > 0.0 && !Fits(o, n)
    ensures !Fits(o, 3)
    decreases 3 - n
  {
    if n < 3 { NotFitting(o, n + 1); }
  }
}
