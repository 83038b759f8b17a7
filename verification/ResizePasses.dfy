/** The two passes of the resampler over flat, row-major pixel memory. */
module ResizePasses {
  import opened Arithmetic
  import opened Bytes
  import opened Resize
  import opened ResizeTaps

  /** The channel of interest of an interleaved image with padded rows. */
  predicate Covers(input: seq<Byte>, width: nat, height: nat, stride: nat, step: nat) {
    width > 0 && height > 0 && |input| > (height - 1) * stride + (width - 1) * step
  }

  lemma PixelFits(input: seq<Byte>, width: nat, height: nat, stride: nat, step: nat, y: nat, x: nat)
    requires Covers(input, width, height, stride, step) && y < height && x < width
    ensures 0 <= y * stride + x * step < |input|
  {
    TimesInOrder(y, height - 1, stride);
    TimesInOrder(x, width - 1, step);
    TimesInOrder(0, y, stride);
    TimesInOrder(0, x, step);
  }

  function PixelAt(input: seq<Byte>, width: nat, height: nat, stride: nat, step: nat, y: nat, x: nat): Byte
    requires Covers(input, width, height, stride, step) && y < height && x < width
  {
    PixelFits(input, width, height, stride, step, y, x);
    input[y * stride + x * step]
  }

  function Channel(input: seq<Byte>, width: nat, height: nat, stride: nat, step: nat): (img: Image)
    requires Covers(input, width, height, stride, step)
    ensures |img| == height && Rectangular(img, width)
  {
    seq(height, y requires 0 <= y < height =>
      seq(width, x requires 0 <= x < width => PixelAt(input, width, height, stride, step, y, x)))
  }

  lemma DotGrows(p: seq<Byte>, k: seq<int>, n: nat)
    requires |p| == |k| && n < |k|
    ensures Dot(p[..n + 1], k[..n + 1]) == Dot(p[..n], k[..n]) + p[n] * k[n]
  {
    assert p[..n + 1][..n] == p[..n] && k[..n + 1][..n] == k[..n];
  }

  lemma StaysInt32(p: seq<Byte>, k: seq<int>, n: nat)
    requires |p| == |k| && Balanced(k) && |k| <= INT32_TAPS && n < |k|
    ensures FitsInt32(p[n] * k[n]) && FitsInt32(HALF + Dot(p[..n + 1], k[..n + 1]))
  {
    SumFitsInt32(p, k, n);
    SumFitsInt32(p, k, n + 1);
  }

  ghost predicate OnLine(input: seq<Byte>, base: nat, step: nat, x: nat) { 0 <= base + x * step < |input| }

  /** The pixels of `line` are `step` apart in memory, from `base` on. */
  ghost predicate LineIs(input: seq<Byte>, base: nat, step: nat, line: Row) {
    forall x | 0 <= x < |line| :: OnLine(input, base, step, x) && input[base + x * step] == line[x]
  }

  /** The weighted sum for output position xx of a line in memory. */
  method BlendAlong(t: Taps, xx: nat, ghost line: Row, input: array<Byte>, base: nat, step: nat) returns (out: Byte)
    requires t.Valid() && xx < t.axis.outSize && |line| == t.axis.size
    requires LineIs(input[..], base, step, line)
    ensures out == Along(line, t.axis, xx)
  {
    ghost var r := RunAt(t.axis, xx);
    t.axis.RunFits(xx);
    WeightsAreBalanced(t.axis, xx);
    assert t.Stored(xx, r) by { assert t.runs[xx] == r; }
    out := BlendRun(t, xx, r, line, input, base, step);
  }

  /** Pixel x of the run is the one the loop reads. */
  lemma RunPixel(r: Run, line: Row, input: seq<Byte>, base: nat, step: nat, x: nat)
    requires r.first + |r.weights| <= |line| && x < |r.weights|
    requires LineIs(input, base, step, line)
    ensures 0 <= base + (x + r.first) * step < |input|
    ensures input[base + (x + r.first) * step] == line[r.first..r.first + |r.weights|][x]
  {
    assert OnLine(input, base, step, x + r.first);
  }

  lemma DotOfNothing(p: seq<Byte>, k: seq<int>)
    requires |p| == |k|
    ensures Dot(p[..0], k[..0]) == 0
    ensures Blend(p, k) == Clip8(HALF + Dot(p[..|k|], k[..|k|]))
  {
    assert p[..|k|] == p && k[..|k|] == k;
  }

  /** The loop itself; for runs of up to INT32_TAPS nothing in it leaves 32 bits. */
  method BlendRun(t: Taps, xx: nat, ghost r: Run, ghost line: Row, input: array<Byte>, base: nat, step: nat) returns (out: Byte)
    requires t.Shaped() && xx < t.axis.outSize && t.Stored(xx, r) && r.first + |r.weights| <= |line| && Balanced(r.weights)
    requires LineIs(input[..], base, step, line)
    ensures out == Blend(line[r.first..r.first + |r.weights|], r.weights)
  {
    hide Dot, Blend, Balanced, LineIs, Clip8;
    ghost var p := line[r.first..r.first + |r.weights|];
    DotOfNothing(p, r.weights);
    var sum, x := HALF, 0;
    while x < t.count[xx]
      invariant 0 <= x <= |r.weights|
      invariant sum == HALF + Dot(p[..x], r.weights[..x])
      invariant |r.weights| <= INT32_TAPS ==> FitsInt32(sum)
    {
      DotGrows(p, r.weights, x);
      RunPixel(r, line, input[..], base, step, x);
      var product := input[base + (x + t.first[xx]) * step] * t.weights[xx, x];
      assert product == p[x] * r.weights[x];
      if |r.weights| <= INT32_TAPS { StaysInt32(p, r.weights, x); }
      assert |r.weights| <= INT32_TAPS ==> FitsInt32(product);
      sum := sum + product;
      x := x + 1;
    }
    return Clip8(sum);
  }

  /** Row y of `data`, rows being `width` long, holds `row`. */
  ghost predicate RowIs(data: seq<Byte>, width: nat, y: nat, row: Row) {
    0 <= y * width <= y * width + width <= |data| && data[y * width..y * width + width] == row
  }

  /** Rows below y are as they were. */
  lemma EarlierRowsStay(before: seq<Byte>, after: seq<Byte>, width: nat, y: nat, rows: Image)
    requires |before| == |after| && y * width <= |after| && before[..y * width] == after[..y * width]
    requires y <= |rows| && forall k | 0 <= k < y :: RowIs(before, width, k, rows[k])
    ensures forall k | 0 <= k < y :: RowIs(after, width, k, rows[k])
  {
    forall k | 0 <= k < y ensures RowIs(after, width, k, rows[k]) {
      assert RowIs(before, width, k, rows[k]);
      TimesInOrder(k + 1, y, width);
      assert (k + 1) * width == k * width + width;
      assert after[k * width..k * width + width] == after[..y * width][k * width..k * width + width];
    }
  }

  /** Row y of the horizontal pass. */
  method HorizontalRow(t: Taps, ghost line: Row, input: array<Byte>, base: nat, step: nat, temp: array<Byte>, y: nat)
    requires t.Valid() && |line| == t.axis.size && temp != input
    requires LineIs(input[..], base, step, line)
    requires 0 <= y * t.axis.outSize && y * t.axis.outSize + t.axis.outSize <= temp.Length
    modifies temp
    ensures temp[..y * t.axis.outSize] == old(temp[..y * t.axis.outSize])
    ensures RowIs(temp[..], t.axis.outSize, y, seq(t.axis.outSize, xx requires 0 <= xx < t.axis.outSize => Along(line, t.axis, xx)))
  {
    hide Along, LineIs;
    var xx, start := 0, y * t.axis.outSize;
    while xx < t.axis.outSize
      invariant 0 <= xx <= t.axis.outSize
      invariant temp[..start] == old(temp[..start])
      invariant forall k | 0 <= k < xx :: temp[start + k] == Along(line, t.axis, k)
    {
      var p := BlendAlong(t, xx, line, input, base, step);
      temp[start + xx] := p;
      xx := xx + 1;
    }
  }

  lemma ColumnOnLine(temp: seq<Byte>, width: nat, img: Image, xx: nat, y: nat)
    requires y < |img| && Rectangular(img, width) && xx < width && RowIs(temp, width, y, img[y])
    ensures OnLine(temp, xx, width, y) && temp[xx + y * width] == Column(img, xx)[y]
  {
    assert temp[y * width..y * width + width][xx] == img[y][xx];
  }

  lemma ColumnInMemory(temp: seq<Byte>, width: nat, img: Image, xx: nat)
    requires Rectangular(img, width) && xx < width && forall y | 0 <= y < |img| :: RowIs(temp, width, y, img[y])
    ensures LineIs(temp, xx, width, Column(img, xx))
  {
    forall y | 0 <= y < |img| ensures OnLine(temp, xx, width, y) && temp[xx + y * width] == Column(img, xx)[y] {
      ColumnOnLine(temp, width, img, xx, y);
    }
  }

  /** Row yy of the vertical pass over `img`, which `temp` holds. */
  method VerticalRow(t: Taps, ghost img: Image, width: nat, temp: array<Byte>, out: array<Byte>, yy: nat)
    requires t.Valid() && |img| == t.axis.size && Rectangular(img, width) && out != temp && yy < t.axis.outSize
    requires forall y | 0 <= y < |img| :: RowIs(temp[..], width, y, img[y])
    requires 0 <= yy * width && yy * width + width <= out.Length
    modifies out
    ensures out[..yy * width] == old(out[..yy * width])
    ensures RowIs(out[..], width, yy, Vertical(img, width, t.axis)[yy])
  {
    ghost var row := Vertical(img, width, t.axis)[yy];
    var xx, start := 0, yy * width;
    while xx < width
      invariant 0 <= xx <= width
      invariant out[..start] == old(out[..start])
      invariant forall k | 0 <= k < xx :: out[start + k] == row[k]
    {
      ColumnInMemory(temp[..], width, img, xx);
      var p := BlendAlong(t, yy, Column(img, xx), temp, xx, width);
      out[start + xx] := p;
      xx := xx + 1;
    }
  }

  /** The rows above stay in memory when row y + 1 is still to come. */
  lemma RowFits(y: nat, height: nat, width: nat)
    requires y < height
    ensures 0 <= y * width && y * width + width <= height * width
  {
    TimesInOrder(y + 1, height, width);
    assert (y + 1) * width == y * width + width;
  }

  lemma RowInMemory(input: seq<Byte>, width: nat, height: nat, stride: nat, step: nat, y: nat)
    requires Covers(input, width, height, stride, step) && y < height
    ensures 0 <= y * stride && LineIs(input, y * stride, step, Channel(input, width, height, stride, step)[y])
  {
    TimesInOrder(0, y, stride);
    forall x | 0 <= x < width ensures OnLine(input, y * stride, step, x) {
      PixelFits(input, width, height, stride, step, y, x);
    }
  }

  method HorizontalPass(input: array<Byte>, t: Taps, height: nat, stride: nat, step: nat) returns (temp: array<Byte>)
    requires t.Valid() && Covers(input[..], t.axis.size, height, stride, step)
    ensures fresh(temp) && var img := Horizontal(Channel(input[..], t.axis.size, height, stride, step), t.axis);
      forall y | 0 <= y < height :: RowIs(temp[..], t.axis.outSize, y, img[y])
  {
    ghost var channel := Channel(input[..], t.axis.size, height, stride, step);
    ghost var img := Horizontal(channel, t.axis);
    var width := t.axis.outSize;
    temp := new Byte[height * width](_ => 0);
    var y := 0;
    while y < height
      invariant 0 <= y <= height
      invariant forall k | 0 <= k < y :: RowIs(temp[..], width, k, img[k])
    {
      ghost var line := channel[y];
      RowInMemory(input[..], t.axis.size, height, stride, step, y);
      RowFits(y, height, width);
      TimesInOrder(0, y, stride);
      ghost var before := temp[..];
      HorizontalRow(t, line, input, y * stride, step, temp, y);
      EarlierRowsStay(before, temp[..], width, y, img);
      y := y + 1;
    }
  }

  method VerticalPass(temp: array<Byte>, t: Taps, ghost img: Image, width: nat) returns (out: array<Byte>)
    requires t.Valid() && |img| == t.axis.size && Rectangular(img, width)
    requires forall y | 0 <= y < |img| :: RowIs(temp[..], width, y, img[y])
    ensures fresh(out) && out.Length == t.axis.outSize * width
    ensures forall yy | 0 <= yy < t.axis.outSize :: RowIs(out[..], width, yy, Vertical(img, width, t.axis)[yy])
  {
    ghost var result := Vertical(img, width, t.axis);
    out := new Byte[t.axis.outSize * width](_ => 0);
    var yy := 0;
    while yy < t.axis.outSize
      invariant 0 <= yy <= t.axis.outSize
      invariant forall k | 0 <= k < yy :: RowIs(out[..], width, k, result[k])
    {
      RowFits(yy, t.axis.outSize, width);
      ghost var before := out[..];
      VerticalRow(t, img, width, temp, out, yy);
      EarlierRowsStay(before, out[..], width, yy, result);
      yy := yy + 1;
    }
  }

  /** The whole resize; malformed sizes are refused. */
  method PilBilinear(input: array<Byte>, width: int, height: int, stride: nat, step: int, outWidth: int, outHeight: int)
    returns (ok: bool, out: array<Byte>)
    requires width > 0 && height > 0 && step > 0 ==> Covers(input[..], width, height, stride, step)
    ensures ok <==> width > 0 && height > 0 && outWidth > 0 && outHeight > 0 && step > 0 && stride >= width * step
    ensures ok ==>
      var img := Resized(Channel(input[..], width, height, stride, step), Axis(width, outWidth), Axis(height, outHeight));
      out.Length == outHeight * outWidth && forall yy | 0 <= yy < outHeight :: RowIs(out[..], outWidth, yy, img[yy])
  {
    if width <= 0 || height <= 0 || outWidth <= 0 || outHeight <= 0 || step <= 0 || stride < width * step {
      return false, new Byte[0];
    }
    var h := new Taps(Axis(width, outWidth));
    var v := new Taps(Axis(height, outHeight));
    var temp := HorizontalPass(input, h, height, stride, step);
    ghost var img := Horizontal(Channel(input[..], width, height, stride, step), h.axis);
    out := VerticalPass(temp, v, img, outWidth);
    return true, out;
  }
}
