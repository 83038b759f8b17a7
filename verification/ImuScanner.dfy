/**
  Framing of the IMU stream: a scanner that reads a whole stream at once, and why it does not matter
  how the stream was cut into pieces.
 */
module ImuScanner {
  import opened Bytes

  const MARK0: Byte := 0xAA
  const MARK1: Byte := 0x55
  const LONGEST := 316

  /** Length of a frame from its type and sensor count; 0 when invalid. */
  function FrameLength(kind: Byte, count: Byte): (n: nat)
    ensures n == 0 || 6 <= n <= LONGEST
  {
    if kind == 2 then 6
    else if count < 1 || count > 4 then 0
    else if kind == 1 then 10 + count * 28
    else if kind == 4 then 10 + count * 40
    else if kind == 3 then 8 + count * 2
    else if kind == 6 then 16 + count * 2
    else if kind == 5 then 28 + count * 72
    else 0
  }

  function Sum(b: seq<Byte>): nat {
    if b == [] then 0 else Sum(b[..|b| - 1]) + b[|b| - 1]
  }

  /** Marker, a length that fits, and the 16-bit sum of everything in between. */
  predicate WellFormed(f: seq<Byte>) {
    && |f| >= 4 && f[0] == MARK0 && f[1] == MARK1 && |f| == FrameLength(f[2], f[3])
    && Sum(f[2..|f| - 2]) % 0x1_0000 == FromLE(f[|f| - 2..])
  }

  datatype Piece = Skip(b: Byte) | BadLength(b: Byte) | BadSum(b: Byte) | Frame(f: seq<Byte>)
  {
    function Bytes(): seq<Byte> { if Frame? then f else [b] }
  }

  datatype Scanned = Scanned(pieces: seq<Piece>, rest: seq<Byte>)

  /** The next piece at the front of a buffer, if it can be told yet. */
  datatype Look = Wait | Take(piece: Piece)

  function LookAt(b: seq<Byte>): (l: Look)
    ensures l.Take? ==> 0 < |l.piece.Bytes()| <= |b| && l.piece.Bytes() == b[..|l.piece.Bytes()|]
    ensures l.Take? && l.piece.Frame? ==> WellFormed(l.piece.f)
    ensures l.Wait? ==> |b| < LONGEST
  {
    if |b| < 4 then Wait
    else if b[0] != MARK0 || b[1] != MARK1 then Take(Skip(b[0]))
    else
      var n := FrameLength(b[2], b[3]);
      if n == 0 then Take(BadLength(b[0]))
      else if |b| < n then Wait
      else if WellFormed(b[..n]) then Take(Frame(b[..n]))
      else Take(BadSum(b[0]))
  }

  function Scan(b: seq<Byte>): Scanned
    decreases |b|
  {
    match LookAt(b)
    case Wait => Scanned([], b)
    case Take(piece) =>
      var s := Scan(b[|piece.Bytes()|..]);
      Scanned([piece] + s.pieces, s.rest)
  }

  /** What can be told from a buffer does not change when more bytes arrive. */
  lemma LookIsStable(a: seq<Byte>, b: seq<Byte>)
    requires LookAt(a).Take?
    ensures LookAt(a + b) == LookAt(a)
  {
    if a[0] == MARK0 && a[1] == MARK1 {
      var n := FrameLength(a[2], a[3]);
      if n > 0 { assert (a + b)[..n] == a[..n]; }
    }
  }

  /** The scan of a buffer whose first piece is known, with more bytes behind it. */
  lemma ScanOfFirst(a: seq<Byte>, piece: Piece, b: seq<Byte>)
    requires LookAt(a) == Take(piece)
    ensures var s := Scan(a[|piece.Bytes()|..] + b);
      Scan(a + b) == Scanned([piece] + s.pieces, s.rest)
  {
    LookIsStable(a, b);
    assert (a + b)[|piece.Bytes()|..] == a[|piece.Bytes()|..] + b;
  }

  /** Scanning a stream cut anywhere is scanning the first part, then its rest with the second. */
  lemma {:induction false} ScanInParts(a: seq<Byte>, b: seq<Byte>)
    ensures var s := Scan(a);
      var t := Scan(s.rest + b);
      Scan(a + b) == Scanned(s.pieces + t.pieces, t.rest)
    decreases |a|
  {
    match LookAt(a)
    case Wait =>
    case Take(piece) =>
      var more := a[|piece.Bytes()|..];
      ScanOfFirst(a, piece, b);
      ScanInParts(more, b);
      Regroup([piece], Scan(more).pieces, Scan(Scan(more).rest + b).pieces);
  }

  lemma Regroup(a: seq<Piece>, b: seq<Piece>, c: seq<Piece>)
    ensures a + (b + c) == (a + b) + c
  {}

  /** Feeding pieces of any size one after the other, keeping the rest in between. */
  function ScanChunks(chunks: seq<seq<Byte>>): Scanned {
    if chunks == [] then Scanned([], []) else
    var s := ScanChunks(chunks[..|chunks| - 1]);
    var t := Scan(s.rest + chunks[|chunks| - 1]);
    Scanned(s.pieces + t.pieces, t.rest)
  }

  function Joined(chunks: seq<seq<Byte>>): seq<Byte> {
    if chunks == [] then [] else Joined(chunks[..|chunks| - 1]) + chunks[|chunks| - 1]
  }

  lemma {:induction false} ChunkingIsInvisible(chunks: seq<seq<Byte>>)
    ensures ScanChunks(chunks) == Scan(Joined(chunks))
  {
    if chunks != [] {
      var front, last := chunks[..|chunks| - 1], chunks[|chunks| - 1];
      ChunkingIsInvisible(front);
      ScanInParts(Joined(front), last);
    }
  }

  // ---- What a scan finds ----

  function BytesOf(pieces: seq<Piece>): seq<Byte> {
    if pieces == [] then [] else pieces[0].Bytes() + BytesOf(pieces[1..])
  }

  /** The pieces and the rest are the stream; the rest is short, and the frames are frames. */
  ghost predicate Covers(s: Scanned, b: seq<Byte>) {
    && BytesOf(s.pieces) + s.rest == b
    && LookAt(s.rest) == Wait && |s.rest| < LONGEST
    && forall p <- s.pieces :: p.Frame? ==> WellFormed(p.f)
  }

  /** Nothing is lost or read twice. */
  lemma {:induction false} ScanCoversTheStream(b: seq<Byte>)
    ensures Covers(Scan(b), b)
    decreases |b|
  {
    match LookAt(b)
    case Wait =>
    case Take(piece) =>
      ScanCoversTheStream(b[|piece.Bytes()|..]);
      OneMoreCovers(piece, Scan(b[|piece.Bytes()|..]), b);
  }

  lemma OneMoreCovers(piece: Piece, s: Scanned, b: seq<Byte>)
    requires LookAt(b) == Take(piece) && Covers(s, b[|piece.Bytes()|..])
    ensures Covers(Scanned([piece] + s.pieces, s.rest), b)
  {
    hide WellFormed, LookAt;
    assert ([piece] + s.pieces)[1..] == s.pieces;
    assert b == piece.Bytes() + b[|piece.Bytes()|..];
  }

  function Frames(fs: seq<seq<Byte>>): (p: seq<Piece>)
    ensures |p| == |fs|
  {
    seq(|fs|, i requires 0 <= i < |fs| => Frame(fs[i]))
  }

  /** Well-formed frames sent back to back all get through, with no error and nothing left over. */
  lemma {:induction false} FramesGetThrough(fs: seq<seq<Byte>>)
    requires forall f <- fs :: WellFormed(f)
    ensures Scan(BytesOf(Frames(fs))) == Scanned(Frames(fs), [])
  {
    if fs != [] {
      var f, rest := fs[0], BytesOf(Frames(fs[1..]));
      FramesGetThrough(fs[1..]);
      assert Frames(fs)[1..] == Frames(fs[1..]);
      assert f in fs;
      FirstFrameFound(f, rest);
      assert (f + rest)[|f|..] == rest;
    }
  }

  lemma FirstFrameFound(f: seq<Byte>, rest: seq<Byte>)
    requires WellFormed(f)
    ensures LookAt(f + rest) == Take(Frame(f))
  {
    assert (f + rest)[..|f|] == f;
  }

  function Skips(noise: seq<Byte>): (p: seq<Piece>) {
    if noise == [] then [] else [Skip(noise[0])] + Skips(noise[1..])
  }

  lemma OneSkip(noise: seq<Byte>, b: seq<Byte>)
    requires noise != [] && noise[0] != MARK0 && |b| >= 3
    ensures var s := Scan(noise[1..] + b);
      Scan(noise + b) == Scanned([Skip(noise[0])] + s.pieces, s.rest)
  {
    assert (noise + b)[1..] == noise[1..] + b;
  }

  /** Bytes before a frame, none of them a marker, are skipped without an error. */
  lemma {:induction false} NoiseIsSkipped(noise: seq<Byte>, b: seq<Byte>)
    requires forall i | 0 <= i < |noise| :: noise[i] != MARK0
    requires |b| >= 3
    ensures Scan(noise + b) == Scanned(Skips(noise) + Scan(b).pieces, Scan(b).rest)
  {
    if noise == [] {
      assert noise + b == b && Skips(noise) + Scan(b).pieces == Scan(b).pieces;
    } else {
      OneSkip(noise, b);
      NoiseIsSkipped(noise[1..], b);
      Regroup([Skip(noise[0])], Skips(noise[1..]), Scan(b).pieces);
    }
  }
}
