/** The byte-fed parser object: a fixed buffer, and counters updated in place. */
module ImuFeed {
  import opened Bytes
  import opened ImuScanner
  import opened ImuParser

  const CAPACITY := 2048

  class Parser {
    const expected: int
    const buffer: array<Byte>
    var size: nat
    var checksumErrors: nat
    var invalidFrames: nat
    var resets: nat
    var control: nat
    var blocked: bool
    var gyroRange: real
    var accelRange: real
    var haveTs: bool
    var previousTs: Word
    var extended: nat
    var sample: Sample
    ghost var delivered: seq<Sample>
    /** Every byte fed so far. */
    ghost var stream: seq<Byte>

    ghost function View(): Receiver
      reads this
    {
      Receiver(checksumErrors, invalidFrames, resets, control, blocked, gyroRange, accelRange,
               haveTs, previousTs, extended, sample, delivered)
    }

    ghost function Held(): seq<Byte>
      requires size <= buffer.Length
      reads this, buffer
    {
      buffer[..size]
    }

    /** The parser is where a scan of the whole stream ends, with the same bytes left over. */
    ghost predicate Valid()
      reads this, buffer
    {
      && buffer.Length == CAPACITY && size < LONGEST
      && Held() == Scan(stream).rest
      && Sound(Scan(stream).pieces)
      && View() == After(expected, Scan(stream).pieces)
    }

    constructor (expected: int)
      ensures Valid() && stream == [] && this.expected == expected && fresh(buffer)
    {
      this.expected := expected;
      buffer := new Byte[CAPACITY](_ => 0);
      size, checksumErrors, invalidFrames, resets, control := 0, 0, 0, 0, 0;
      blocked, gyroRange, accelRange, haveTs, previousTs := false, 0.0, 0.0, false, 0;
      extended, sample, delivered, stream := 0, NoSample, [], [];
    }

    method Consume(n: nat)
      requires n <= size <= buffer.Length
      modifies this`size, buffer
      ensures size == old(size) - n && Held() == old(Held())[n..]
    {
      var i, rest := 0, size - n;
      while i < rest
        invariant 0 <= i <= rest == size - n && size == old(size)
        invariant forall k | 0 <= k < i :: buffer[k] == old(buffer[k + n])
        invariant forall k | i <= k < size :: buffer[k] == old(buffer[k])
      {
        buffer[i] := buffer[i + n];
        i := i + 1;
      }
      size := rest;
    }

    method Checksum(len: nat) returns (sum: nat)
      requires 4 <= len <= buffer.Length
      ensures sum == Sum(buffer[2..len - 2]) % 0x1_0000
    {
      sum := 0;
      var i := 2;
      while i < len - 2
        invariant 2 <= i <= len - 2
        invariant sum == Sum(buffer[2..i]) % 0x1_0000
      {
        assert buffer[2..i + 1][..i - 2] == buffer[2..i];
        sum := (sum + buffer[i]) % 0x1_0000;
        i := i + 1;
      }
    }

    /** The clock step of a sample; says whether the gap since the last stamp was plausible. */
    method Stamp(ts: Word) returns (ok: bool)
      modifies this`haveTs, this`previousTs, this`extended, this`resets
      ensures View() == Stamped(old(View()), ts) && ok == !BadGap(old(View()), ts)
    {
      ok := true;
      if !haveTs {
        extended := ts;
        haveTs := true;
      } else {
        var delta := if ts >= previousTs then ts - previousTs else ts - previousTs + WRAP;
        if delta == 0 || delta > MAX_GAP {
          ok := false;
          haveTs := false;
          resets := resets + 1;
        } else {
          extended := extended + delta;
        }
      }
      previousTs := ts;
    }

    method ParseSample(f: seq<Byte>)
      requires SampleFrame(f)
      modifies this
      ensures View() == Sampled(old(View()), expected, f)
      ensures size == old(size) && stream == old(stream)
    {
      var quats, motion, valid := ReadSensors(f, expected);
      var ok := Stamp(U32(f, 4));
      valid := valid && ok;
      sample := Sample(quats, motion, extended, U32(f, 4), f[2], resets, sample.sequence + 1, valid);
      if !valid {
        invalidFrames := invalidFrames + 1;
      } else {
        delivered := delivered + [sample];
      }
    }

    method EndStream(f: seq<Byte>)
      requires OtherFrame(f)
      modifies this
      ensures View() == Reset(old(View()), expected, f)
      ensures size == old(size) && stream == old(stream)
    {
      var kind, count := f[2], f[3];
      if kind == 2 {
        control := count;
        if 5 <= count <= 8 { blocked := true; }
      } else if kind == 5 {
        blocked := count != expected || f[8] % 2 == 0;
      } else {
        if kind == 6 {
          gyroRange := Range(gyroRange, U32(f, 6));
          accelRange := Range(accelRange, U32(f, 10));
        }
        haveTs := false;
      }
      sample := sample.(valid := false);
      resets := resets + 1;
    }

    /** What the front of the buffer is. */
    method Peek() returns (look: Look)
      requires buffer.Length == CAPACITY && size <= CAPACITY
      ensures look == LookAt(Held())
    {
      if size < 4 { return Wait; }
      if buffer[0] != MARK0 || buffer[1] != MARK1 { return Take(Skip(buffer[0])); }
      var len := FrameLength(buffer[2], buffer[3]);
      if len == 0 { return Take(BadLength(buffer[0])); }
      if size < len { return Wait; }
      var sum := Checksum(len);
      var f := buffer[..len];
      assert Held()[..len] == f && f[2..len - 2] == buffer[2..len - 2] && f[len - 2..] == buffer[len - 2..len];
      return if sum != FromLE(buffer[len - 2..len]) then Take(BadSum(buffer[0])) else Take(Frame(f));
    }

    /** The effect of one piece on everything but the buffer. */
    method Handle(piece: Piece)
      requires piece.Frame? ==> WellFormed(piece.f)
      modifies this
      ensures View() == Apply(old(View()), expected, piece)
      ensures size == old(size) && stream == old(stream)
    {
      match piece
      case Skip(_) =>
      case BadLength(_) => invalidFrames := invalidFrames + 1;
      case BadSum(_) => checksumErrors := checksumErrors + 1;
      case Frame(f) => if f[2] == 1 || f[2] == 4 { ParseSample(f); } else { EndStream(f); }
    }

    /** Everything the buffer holds, after `done` pieces of the stream are dealt with. */
    method Parse(ghost done: seq<Piece>)
      requires buffer.Length == CAPACITY && size <= CAPACITY
      requires Sound(done) && View() == After(expected, done) && Reached(stream, done, Held())
      modifies this, buffer
      ensures Valid() && stream == old(stream)
    {
      ghost var pieces := done;
      var look := Peek();
      while look.Take?
        invariant size <= CAPACITY && stream == old(stream)
        invariant Sound(pieces) && View() == After(expected, pieces) && Reached(stream, pieces, Held())
        invariant look == LookAt(Held())
        decreases size
      {
        var piece := look.piece;
        PieceDone(stream, pieces, Held(), piece, expected);
        pieces := pieces + [piece];
        Handle(piece);
        Consume(|piece.Bytes()|);
        look := Peek();
      }
      assert pieces + [] == pieces;
    }

    /** However a stream is cut into calls, the parser ends where the scan of the stream ends. */
    method Feed(bytes: seq<Byte>)
      requires Valid()
      modifies this, buffer
      ensures Valid() && stream == old(stream) + bytes
    {
      var i := 0;
      while i < |bytes|
        invariant 0 <= i <= |bytes| && Valid()
        invariant stream == old(stream) + bytes[..i]
      {
        FeedByte(bytes[i]);
        assert bytes[..i + 1] == bytes[..i] + [bytes[i]];
        i := i + 1;
      }
      assert bytes[..i] == bytes;
    }

    /** The buffer is never full here: at most 315 bytes wait for the rest of their frame. */
    method FeedByte(b: Byte)
      requires Valid()
      modifies this, buffer
      ensures Valid() && stream == old(stream) + [b]
    {
      if size == buffer.Length { assert false; }
      ghost var done := Scan(stream).pieces;
      ScanInParts(stream, [b]);
      buffer[size] := b;
      size := size + 1;
      assert Held() == old(Held()) + [b];
      stream := stream + [b];
      Parse(done);
    }
  }

  /** With `done` pieces dealt with and `held` bytes waiting, the stream is scanned so far. */
  ghost predicate Reached(stream: seq<Byte>, done: seq<Piece>, held: seq<Byte>) {
    Scan(stream) == Scanned(done + Scan(held).pieces, Scan(held).rest)
  }

  lemma PieceDone(stream: seq<Byte>, done: seq<Piece>, held: seq<Byte>, piece: Piece, expected: int)
    requires Reached(stream, done, held) && LookAt(held) == Take(piece) && Sound(done)
    ensures Sound(done + [piece]) && Reached(stream, done + [piece], held[|piece.Bytes()|..])
    ensures After(expected, done + [piece]) == Apply(After(expected, done), expected, piece)
  {
    Regroup(done, [piece], Scan(held[|piece.Bytes()|..]).pieces);
    assert (done + [piece])[..|done|] == done;
  }
}
