/**
  The shared camera frame: a header and pixels in mapped memory under a robust mutex. Writer and
  readers are separate processes and any of them may die at any step, also while holding the mutex.
  Header and pixels are copied word by word, in any order.
 */
module FrameStore {

  /** Header words are indexed from 0; the sequence and the pixel byte count are two of them. */
  const SEQ := 0
  const BYTES := 1

  type Words = seq<nat>

  /** What one publish call is given. */
  datatype Frame = Frame(meta: Words, pixels: Words)

  datatype Process = TheWriter | AReader(i: nat)

  datatype Lock = Free | Held(holder: Process) | OwnerDied

  datatype Writer =
    | Resting
    | FoundDead(frame: Frame)
    | Cleared(frame: Frame)
    | Invalidating(frame: Frame)
    | CopyingPixels(frame: Frame, left: set<nat>)
    | CopyingMeta(frame: Frame, left: set<nat>)
    | WriterDead

  datatype Reader =
    | Away
    | ReaderFoundDead(pixelsWanted: bool, room: nat)
    | ReaderCleared(pixelsWanted: bool, room: nat)
    | Checking(pixelsWanted: bool, room: nat)
    | ReadingMeta(pixelsWanted: bool, left: set<nat>, meta: Words)
    | ReadingPixels(meta: Words, left: set<nat>, pixels: Words)
    | Leaving(result: Result)
    | ReaderDead

  /** 0, -1 or 1 with the copies; `pixels` stays empty when only the header was wanted. */
  datatype Result = Nothing | Refused | Snapshot(meta: Words, pixelsWanted: bool, pixels: Words)

  /** A finished read and how many publishes had completed when it finished. */
  datatype Read = Read(result: Result, published: nat)

  datatype Store = Store(metaWords: nat, capacity: nat, meta: Words, pixels: Words,
                         lock: Lock, writer: Writer, readers: seq<Reader>,
                         published: seq<Frame>, history: seq<Read>)

  /** The word indices 0..n-1. */
  function Below(n: nat): (s: set<nat>)
    ensures forall k: nat :: k in s <==> k < n
  {
    if n == 0 then {} else Below(n - 1) + {n - 1}
  }

  function Zeros(n: nat): Words { seq(n, _ => 0) }

  function Boot(metaWords: nat, capacity: nat, readers: nat): Store {
    Store(metaWords, capacity, Zeros(metaWords), Zeros(capacity), Free, Resting, seq(readers, _ => Away), [], [])
  }

  /** The checks of publish: a packed frame that fits. */
  predicate ValidFrame(s: Store, f: Frame) {
    |f.meta| == s.metaWords && s.metaWords >= 2 && f.meta[BYTES] == |f.pixels| <= s.capacity
  }

  datatype Action =
    | Publish(frame: Frame) | WriterStep | WriterPixel(k: nat) | WriterMeta(k: nat)
    | BeginRead(i: nat, pixelsWanted: bool, room: nat) | ReaderStep(i: nat) | ReaderMeta(i: nat, k: nat) | ReaderPixel(i: nat, k: nat)
    | WriterDies | ReaderDies(i: nat)

  predicate Enabled(s: Store, a: Action) {
    match a
    case Publish(f) => s.writer.Resting? && ValidFrame(s, f)
    case WriterStep =>
      s.writer.FoundDead? || s.writer.Cleared? || s.writer.Invalidating?
      || (s.writer.CopyingPixels? && s.writer.left == {}) || (s.writer.CopyingMeta? && s.writer.left == {})
    case WriterPixel(k) => s.writer.CopyingPixels? && k in s.writer.left
    case WriterMeta(k) => s.writer.CopyingMeta? && k in s.writer.left
    case BeginRead(i, _, _) => i < |s.readers| && s.readers[i].Away?
    case ReaderStep(i) =>
      i < |s.readers| && (var r := s.readers[i];
        r.ReaderFoundDead? || r.ReaderCleared? || r.Checking? || r.Leaving?
        || (r.ReadingMeta? && r.left == {}) || (r.ReadingPixels? && r.left == {}))
    case ReaderMeta(i, k) => i < |s.readers| && s.readers[i].ReadingMeta? && k in s.readers[i].left
    case ReaderPixel(i, k) => i < |s.readers| && s.readers[i].ReadingPixels? && k in s.readers[i].left
    case WriterDies => !s.writer.WriterDead?
    case ReaderDies(i) => i < |s.readers| && !s.readers[i].ReaderDead?
  }

  predicate ShapedWriter(s: Store) {
    match s.writer
    case Resting => true
    case WriterDead => true
    case CopyingPixels(f, left) => ValidFrame(s, f) && forall k <- left :: k < |f.pixels|
    case CopyingMeta(f, left) => ValidFrame(s, f) && forall k <- left :: k < s.metaWords
    case _ => ValidFrame(s, s.writer.frame)
  }

  predicate ShapedReader(s: Store, r: Reader) {
    match r
    case ReadingMeta(_, left, meta) => |meta| == s.metaWords && forall k <- left :: k < s.metaWords
    case ReadingPixels(meta, left, pixels) =>
      |meta| == s.metaWords >= 2 && meta[BYTES] == |pixels| && forall k <- left :: k < |pixels|
    case _ => true
  }

  predicate Shaped(s: Store) {
    && s.metaWords >= 2 && |s.meta| == s.metaWords && |s.pixels| == s.capacity
    && ShapedWriter(s) && forall i | 0 <= i < |s.readers| :: ShapedReader(s, s.readers[i])
  }

  function Apply(s: Store, a: Action): Store
    requires Shaped(s) && Enabled(s, a)
  {
    match a
    case Publish(f) =>
      (match s.lock
       case Held(_) => s
       case Free => s.(lock := Held(TheWriter), writer := Invalidating(f))
       case OwnerDied => s.(lock := Held(TheWriter), writer := FoundDead(f)))
    case WriterStep => WriterNext(s)
    case WriterPixel(k) =>
      s.(pixels := s.pixels[k := s.writer.frame.pixels[k]], writer := CopyingPixels(s.writer.frame, s.writer.left - {k}))
    case WriterMeta(k) =>
      s.(meta := s.meta[k := s.writer.frame.meta[k]], writer := CopyingMeta(s.writer.frame, s.writer.left - {k}))
    case WriterDies => s.(lock := if s.lock == Held(TheWriter) then OwnerDied else s.lock, writer := WriterDead)
    case ReaderDies(i) => s.(lock := if s.lock == Held(AReader(i)) then OwnerDied else s.lock, readers := s.readers[i := ReaderDead])
    case BeginRead(i, wanted, room) =>
      (match s.lock
       case Held(_) => s.(history := s.history + [Read(Nothing, |s.published|)])
       case Free => s.(lock := Held(AReader(i)), readers := s.readers[i := Checking(wanted, room)])
       case OwnerDied => s.(lock := Held(AReader(i)), readers := s.readers[i := ReaderFoundDead(wanted, room)]))
    case ReaderStep(i) => ReaderNext(s, i)
    case ReaderMeta(i, k) =>
      var r := s.readers[i];
      s.(readers := s.readers[i := ReadingMeta(r.pixelsWanted, r.left - {k}, r.meta[k := s.meta[k]])])
    case ReaderPixel(i, k) =>
      var r := s.readers[i];
      s.(readers := s.readers[i := ReadingPixels(r.meta, r.left - {k}, r.pixels[k := if k < s.capacity then s.pixels[k] else 0])])
  }

  function WriterNext(s: Store): Store
    requires Shaped(s) && Enabled(s, WriterStep)
  {
    match s.writer
    case FoundDead(f) => s.(meta := s.meta[SEQ := 0], writer := Cleared(f))
    case Cleared(f) => s.(writer := Invalidating(f))
    case Invalidating(f) => s.(meta := s.meta[SEQ := 0], writer := CopyingPixels(f, Below(|f.pixels|)))
    case CopyingPixels(f, _) => s.(writer := CopyingMeta(f, Below(s.metaWords)))
    case CopyingMeta(f, _) => s.(lock := Free, writer := Resting, published := s.published + [f])
  }

  function ReaderNext(s: Store, i: nat): Store
    requires Shaped(s) && Enabled(s, ReaderStep(i))
  {
    match s.readers[i]
    case ReaderFoundDead(wanted, room) => s.(meta := s.meta[SEQ := 0], readers := s.readers[i := ReaderCleared(wanted, room)])
    case ReaderCleared(wanted, room) => s.(readers := s.readers[i := Checking(wanted, room)])
    case Checking(wanted, room) =>
      s.(readers := s.readers[i :=
        if s.meta[SEQ] == 0 || s.meta[BYTES] > s.capacity then Leaving(Nothing)
        else if wanted && s.meta[BYTES] > room then Leaving(Refused)
        else ReadingMeta(wanted, Below(s.metaWords), Zeros(s.metaWords))])
    case ReadingMeta(wanted, _, meta) =>
      s.(readers := s.readers[i :=
        if wanted
        then ReadingPixels(meta, Below(meta[BYTES]), Zeros(meta[BYTES]))
        else Leaving(Snapshot(meta, false, []))])
    case ReadingPixels(meta, _, pixels) => s.(readers := s.readers[i := Leaving(Snapshot(meta, true, pixels))])
    case Leaving(result) =>
      s.(lock := Free, readers := s.readers[i := Away], history := s.history + [Read(result, |s.published|)])
  }

  // ---- Invariant ----

  /** The mapping shows no frame, or the last completely published one. */
  ghost predicate ShowsLatest(s: Store)
    requires Shaped(s)
  {
    s.meta[SEQ] == 0 ||
    (s.published != [] &&
     var f := s.published[|s.published| - 1];
     ValidFrame(s, f) && s.meta == f.meta && s.pixels[..|f.pixels|] == f.pixels)
  }

  ghost predicate WriterInv(s: Store)
    requires Shaped(s)
  {
    && ((s.lock == Held(TheWriter)) <==> !s.writer.Resting? && !s.writer.WriterDead?)
    && match s.writer
       case CopyingPixels(f, left) => forall k | 0 <= k < |f.pixels| && k !in left :: s.pixels[k] == f.pixels[k]
       case CopyingMeta(f, left) =>
         && s.pixels[..|f.pixels|] == f.pixels
         && forall k | 0 <= k < s.metaWords && k !in left :: s.meta[k] == f.meta[k]
       case _ => true
  }

  predicate Inside(r: Reader) { !r.Away? && !r.ReaderDead? }

  ghost predicate ReaderInv(s: Store, i: nat)
    requires Shaped(s) && i < |s.readers|
  {
    && (Inside(s.readers[i]) <==> s.lock == Held(AReader(i)))
    && match s.readers[i]
       case ReaderCleared(_, _) => s.meta[SEQ] == 0
       case Checking(_, _) => ShowsLatest(s)
       case ReadingMeta(_, left, meta) =>
         ShowsLatest(s) && s.meta[SEQ] != 0 && forall k | 0 <= k < s.metaWords && k !in left :: meta[k] == s.meta[k]
       case ReadingPixels(meta, left, pixels) =>
         && ShowsLatest(s) && s.meta[SEQ] != 0 && meta == s.meta && |pixels| == s.meta[BYTES] <= s.capacity
         && forall k | 0 <= k < |pixels| && k !in left :: pixels[k] == s.pixels[k]
       case Leaving(result) => ShowsLatest(s) && Whole(s, Read(result, |s.published|))
       case _ => true
  }

  /** A snapshot is header and pixels of one publish call: the last one completed when it was taken. */
  ghost predicate Whole(s: Store, r: Read) {
    r.result.Snapshot? ==>
      && 0 < r.published <= |s.published|
      && var f := s.published[r.published - 1];
         r.result.meta == f.meta && (r.result.pixelsWanted ==> r.result.pixels == f.pixels)
  }

  ghost predicate Inv(s: Store) {
    && Shaped(s) && WriterInv(s)
    && (forall i | 0 <= i < |s.readers| :: ReaderInv(s, i))
    && (s.lock.Free? ==> ShowsLatest(s))
    && (s.lock.Held? && s.lock.holder.AReader? ==> s.lock.holder.i < |s.readers|)
    && (forall f <- s.published :: ValidFrame(s, f))
    && (forall i | 0 <= i < |s.history| :: Whole(s, s.history[i]))
  }

  // ---- Preservation ----

  lemma ReaderInvFrame(s: Store, t: Store, i: nat)
    requires Inv(s) && i < |s.readers| == |t.readers| && t.readers[i] == s.readers[i]
    requires Shaped(t) && t.capacity == s.capacity && t.metaWords == s.metaWords && t.published == s.published
    requires (t.lock == Held(AReader(i))) == (s.lock == Held(AReader(i)))
    requires Inside(s.readers[i]) ==> t.meta == s.meta && t.pixels == s.pixels
    ensures ReaderInv(t, i)
  {
    assert ReaderInv(s, i);
  }

  /** A reader outside the lock is unaffected by whatever the holder does. */
  lemma OutsiderInv(s: Store, t: Store, i: nat)
    requires Inv(s) && i < |s.readers| == |t.readers| && t.readers[i] == s.readers[i]
    requires Shaped(t) && !Inside(s.readers[i]) && t.lock != Held(AReader(i))
    ensures ReaderInv(t, i)
  {
    assert ReaderInv(s, i);
  }

  lemma AtMostOneInside(s: Store, i: nat)
    requires Inv(s) && i < |s.readers|
    ensures s.lock == Held(TheWriter) || !s.lock.Held? ==> !Inside(s.readers[i])
    ensures s.lock.Held? && s.lock.holder.AReader? && s.lock.holder.i != i ==> !Inside(s.readers[i])
  {
    assert ReaderInv(s, i);
  }

  lemma WriterNextKeepsInv(s: Store)
    requires Inv(s) && Enabled(s, WriterStep)
    ensures Inv(WriterNext(s))
  {
    var t := WriterNext(s);
    assert Shaped(t);
    forall i | 0 <= i < |t.readers| ensures ReaderInv(t, i) {
      AtMostOneInside(s, i);
      OutsiderInv(s, t, i);
    }
    if s.writer.CopyingMeta? {
      assert t.meta == s.writer.frame.meta;
      WholeStays(s, t);
    }
  }

  lemma WholeStays(s: Store, t: Store)
    requires Inv(s) && s.published <= t.published && t.history == s.history
    ensures forall i | 0 <= i < |t.history| :: Whole(t, t.history[i])
  {
    forall i | 0 <= i < |t.history| ensures Whole(t, t.history[i]) {
      var r := s.history[i];
      assert Whole(s, r);
      if r.result.Snapshot? { assert t.published[r.published - 1] == s.published[r.published - 1]; }
    }
  }

  lemma WriterKeepsInv(s: Store, a: Action)
    requires Inv(s) && Enabled(s, a) && (a.Publish? || a.WriterStep? || a.WriterPixel? || a.WriterMeta? || a.WriterDies?)
    ensures Inv(Apply(s, a))
  {
    if a.WriterStep? { WriterNextKeepsInv(s); return; }
    var t := Apply(s, a);
    assert Shaped(t);
    forall i | 0 <= i < |t.readers| ensures ReaderInv(t, i) {
      AtMostOneInside(s, i);
      if Inside(s.readers[i]) { ReaderInvFrame(s, t, i); } else {
        assert ReaderInv(s, i);
        OutsiderInv(s, t, i);
      }
    }
    WholeStays(s, t);
  }

  /** The stepping reader is the only one inside, and changes at most the sequence word. */
  lemma ReaderNextKeepsOthers(s: Store, i: nat)
    requires Inv(s) && Enabled(s, ReaderStep(i))
    ensures var t := ReaderNext(s, i);
      && Shaped(t) && WriterInv(t)
      && forall j | 0 <= j < |t.readers| && j != i :: ReaderInv(t, j)
  {
    var t := ReaderNext(s, i);
    assert ReaderInv(s, i);
    forall j | 0 <= j < |t.readers| && j != i ensures ReaderInv(t, j) {
      AtMostOneInside(s, j);
      OutsiderInv(s, t, j);
    }
    forall j | 0 <= j < |t.readers| ensures ShapedReader(t, t.readers[j]) {
      if j != i { assert ShapedReader(s, s.readers[j]); }
    }
  }

  lemma ReaderNextKeepsInv(s: Store, i: nat)
    requires Inv(s) && Enabled(s, ReaderStep(i))
    ensures Inv(ReaderNext(s, i))
  {
    hide WriterInv, Below;
    var t := ReaderNext(s, i);
    assert ReaderInv(s, i);
    ReaderNextKeepsOthers(s, i);
    if s.readers[i].ReadingMeta? { assert s.readers[i].meta == s.meta; }
    if s.readers[i].ReadingPixels? { assert s.readers[i].pixels == s.pixels[..s.meta[BYTES]]; }
    assert ReaderInv(t, i);
  }

  lemma ReaderKeepsOthers(s: Store, a: Action)
    requires Inv(s) && Enabled(s, a) && (a.BeginRead? || a.ReaderMeta? || a.ReaderPixel? || a.ReaderDies?)
    ensures var t := Apply(s, a);
      && Shaped(t) && WriterInv(t)
      && forall j | 0 <= j < |t.readers| && j != a.i :: ReaderInv(t, j)
  {
    var t := Apply(s, a);
    assert ReaderInv(s, a.i);
    forall j | 0 <= j < |t.readers| ensures ShapedReader(t, t.readers[j]) {
      if j != a.i { assert ShapedReader(s, s.readers[j]); }
    }
    forall j | 0 <= j < |t.readers| && j != a.i ensures ReaderInv(t, j) {
      AtMostOneInside(s, j);
      if Inside(s.readers[j]) { ReaderInvFrame(s, t, j); } else {
        assert ReaderInv(s, j);
        OutsiderInv(s, t, j);
      }
    }
  }

  lemma ReaderKeepsInv(s: Store, a: Action)
    requires Inv(s) && Enabled(s, a) && (a.BeginRead? || a.ReaderMeta? || a.ReaderPixel? || a.ReaderDies?)
    ensures Inv(Apply(s, a))
  {
    hide WriterInv, Below;
    ReaderKeepsOthers(s, a);
    assert ReaderInv(s, a.i);
    assert ReaderInv(Apply(s, a), a.i);
  }

  lemma InvKept(s: Store, a: Action)
    requires Inv(s) && Enabled(s, a)
    ensures Inv(Apply(s, a))
  {
    match a
    case ReaderStep(i) => ReaderNextKeepsInv(s, i);
    case BeginRead(_, _, _) => ReaderKeepsInv(s, a);
    case ReaderMeta(_, _) => ReaderKeepsInv(s, a);
    case ReaderPixel(_, _) => ReaderKeepsInv(s, a);
    case ReaderDies(_) => ReaderKeepsInv(s, a);
    case _ => WriterKeepsInv(s, a);
  }

  // ---- Runs ----

  ghost predicate Possible(s: Store, run: seq<Action>)
    decreases |run|, 0
  {
    run == [] ||
    (var before := run[..|run| - 1];
     Possible(s, before) && Shaped(After(s, before)) && Enabled(After(s, before), run[|run| - 1]))
  }

  ghost function After(s: Store, run: seq<Action>): Store
    requires Possible(s, run)
    decreases |run|, 1
  {
    if run == [] then s else Apply(After(s, run[..|run| - 1]), run[|run| - 1])
  }

  lemma {:induction false} InvOverRuns(metaWords: nat, capacity: nat, readers: nat, run: seq<Action>)
    requires metaWords >= 2 && Possible(Boot(metaWords, capacity, readers), run)
    ensures Inv(After(Boot(metaWords, capacity, readers), run))
    decreases |run|
  {
    if run != [] {
      var before := run[..|run| - 1];
      InvOverRuns(metaWords, capacity, readers, before);
      InvKept(After(Boot(metaWords, capacity, readers), before), run[|run| - 1]);
    }
  }

  /**
    However the processes interleave and wherever they die: every snapshot a reader gets is header
    and pixels of one completed publish, the latest one at that moment.
   */
  lemma SnapshotsAreWholeFrames(metaWords: nat, capacity: nat, readers: nat, run: seq<Action>, k: nat)
    requires metaWords >= 2 && Possible(Boot(metaWords, capacity, readers), run)
    requires k < |After(Boot(metaWords, capacity, readers), run).history|
    requires After(Boot(metaWords, capacity, readers), run).history[k].result.Snapshot?
    ensures var s := After(Boot(metaWords, capacity, readers), run);
      && 0 < s.history[k].published <= |s.published|
      && var f, r := s.published[s.history[k].published - 1], s.history[k].result;
         r.meta == f.meta && (r.pixelsWanted ==> r.pixels == f.pixels)
  {
    InvOverRuns(metaWords, capacity, readers, run);
    assert Whole(After(Boot(metaWords, capacity, readers), run), After(Boot(metaWords, capacity, readers), run).history[k]);
  }

  /** A dead holder never blocks the others: the next lock succeeds, and no frame is shown until a publish. */
  lemma DeathIsRecovered(s: Store, i: nat, wanted: bool, room: nat)
    requires Inv(s) && s.lock.OwnerDied? && Enabled(s, BeginRead(i, wanted, room))
    ensures var t := ReaderNext(Apply(s, BeginRead(i, wanted, room)), i);
      t.lock == Held(AReader(i)) && t.meta[SEQ] == 0 && t.published == s.published
  {}
}
