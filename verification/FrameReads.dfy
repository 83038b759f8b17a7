/** What an undisturbed read of the frame store answers, and that it and a publish come to their end. */
module FrameReads {
  import opened FrameStore

  /** -1, 0 or 1 of a read, with its copies. */
  function Answer(s: Store, wanted: bool, room: nat): Result
    requires Shaped(s) && (s.meta[SEQ] != 0 ==> s.published != [])
  {
    if s.meta[SEQ] == 0 then Nothing else
    var f := s.published[|s.published| - 1];
    if wanted && |f.pixels| > room then Refused
    else Snapshot(f.meta, wanted, if wanted then f.pixels else [])
  }

  ghost predicate Quiet(s: Store, i: nat) { Inv(s) && s.lock.Free? && i < |s.readers| && s.readers[i].Away? }

  lemma ShownIsPublished(s: Store)
    requires Inv(s) && s.lock.Free?
    ensures s.meta[SEQ] != 0 ==> s.published != []
    ensures s.meta[SEQ] != 0 ==>
      var f := s.published[|s.published| - 1]; s.meta == f.meta && s.meta[BYTES] == |f.pixels| <= s.capacity
  {}

  /** The read is over and nothing but the history changed. */
  function Answered(s: Store, i: nat, wanted: bool, room: nat): Store
    requires Shaped(s) && (s.meta[SEQ] != 0 ==> s.published != [])
  {
    s.(history := s.history + [Read(Answer(s, wanted, room), |s.published|)])
  }

  /** Reader i is on its way through a read of `s`. */
  ghost predicate Reading(s: Store, t: Store, i: nat, wanted: bool, room: nat)
    requires Quiet(s, i)
  {
    ShownIsPublished(s);
    && |t.readers| == |s.readers| && t == s.(lock := Held(AReader(i)), readers := s.readers[i := t.readers[i]])
    && match t.readers[i]
       case Checking(w, r) => w == wanted && r == room
       case ReadingMeta(w, _, _) => w == wanted && Answer(s, wanted, room).Snapshot?
       case ReadingPixels(_, _, _) => wanted && Answer(s, wanted, room).Snapshot?
       case Leaving(result) => result == Answer(s, wanted, room)
       case _ => false
  }

  predicate OwnStep(a: Action, i: nat) { (a.ReaderStep? || a.ReaderMeta? || a.ReaderPixel?) && a.i == i }

  lemma CheckStep(s: Store, t: Store, i: nat, wanted: bool, room: nat)
    requires Quiet(s, i) && Reading(s, t, i, wanted, room) && Inv(t) && t.readers[i].Checking?
    ensures Reading(s, ReaderNext(t, i), i, wanted, room)
  {
    hide WriterInv, ReaderInv;
    ShownIsPublished(s);
  }

  /** The header is copied: it is the last frame's. */
  lemma MetaStep(s: Store, t: Store, i: nat, wanted: bool, room: nat)
    requires Quiet(s, i) && Reading(s, t, i, wanted, room) && Inv(t) && t.readers[i].ReadingMeta? && t.readers[i].left == {}
    ensures Reading(s, ReaderNext(t, i), i, wanted, room)
  {
    hide WriterInv;
    ShownIsPublished(s);
    assert ReaderInv(t, i);
    assert t.readers[i].meta == s.meta;
  }

  /** So are the pixels. */
  lemma PixelsStep(s: Store, t: Store, i: nat, wanted: bool, room: nat)
    requires Quiet(s, i) && Reading(s, t, i, wanted, room) && Inv(t) && t.readers[i].ReadingPixels? && t.readers[i].left == {}
    ensures Reading(s, ReaderNext(t, i), i, wanted, room)
  {
    hide WriterInv;
    ShownIsPublished(s);
    assert ReaderInv(t, i);
    var f := s.published[|s.published| - 1];
    assert s.pixels[..|f.pixels|] == f.pixels;
    assert t.readers[i].pixels == f.pixels;
  }

  lemma LeaveStep(s: Store, t: Store, i: nat, wanted: bool, room: nat)
    requires Quiet(s, i) && Reading(s, t, i, wanted, room) && Shaped(t) && t.readers[i].Leaving?
    ensures s.meta[SEQ] != 0 ==> s.published != []
    ensures ReaderNext(t, i) == Answered(s, i, wanted, room)
  {
    hide WriterInv, ReaderInv;
    ShownIsPublished(s);
    assert s.readers[i := Away] == s.readers;
  }

  lemma CopyStep(s: Store, t: Store, i: nat, wanted: bool, room: nat, a: Action)
    requires Quiet(s, i) && Reading(s, t, i, wanted, room) && Shaped(t) && Enabled(t, a) && (a.ReaderMeta? || a.ReaderPixel?) && a.i == i
    ensures Reading(s, Apply(t, a), i, wanted, room)
  {
    hide WriterInv, ReaderInv, Answer;
    ShownIsPublished(s);
    var r := Apply(t, a).readers[i];
    assert t.readers[i := r] == s.readers[i := r];
  }

  /** Each own step goes on with the read or ends it with the answer. */
  lemma StepReads(s: Store, t: Store, i: nat, wanted: bool, room: nat, a: Action)
    requires Quiet(s, i) && Reading(s, t, i, wanted, room) && Inv(t) && OwnStep(a, i) && Enabled(t, a)
    ensures s.meta[SEQ] != 0 ==> s.published != []
    ensures Reading(s, Apply(t, a), i, wanted, room) || Apply(t, a) == Answered(s, i, wanted, room)
    ensures t.readers[i].Leaving? ==> Apply(t, a) == Answered(s, i, wanted, room)
  {
    ShownIsPublished(s);
    hide WriterInv, ReaderInv, Answer, ReaderNext;
    if a.ReaderStep? {
      match t.readers[i] {
        case Checking(_, _) => CheckStep(s, t, i, wanted, room);
        case ReadingMeta(_, _, _) => MetaStep(s, t, i, wanted, room);
        case ReadingPixels(_, _, _) => PixelsStep(s, t, i, wanted, room);
        case Leaving(_) => LeaveStep(s, t, i, wanted, room);
      }
    } else {
      CopyStep(s, t, i, wanted, room, a);
    }
  }

  /** One call of reader i: it takes the lock and then only it takes steps. */
  ghost predicate OneRead(run: seq<Action>, i: nat, wanted: bool, room: nat) {
    run != [] && run[0] == BeginRead(i, wanted, room) && forall k | 0 < k < |run| :: OwnStep(run[k], i)
  }

  lemma {:induction false} RunReads(s: Store, run: seq<Action>, i: nat, wanted: bool, room: nat)
    requires Quiet(s, i) && OneRead(run, i, wanted, room) && Possible(s, run)
    ensures s.meta[SEQ] != 0 ==> s.published != []
    ensures Inv(After(s, run))
    ensures Reading(s, After(s, run), i, wanted, room) || After(s, run) == Answered(s, i, wanted, room)
    decreases |run|
  {
    ShownIsPublished(s);
    hide Reading, Answer, Apply, WriterInv, ReaderInv, ShowsLatest;
    var before, a := run[..|run| - 1], run[|run| - 1];
    if |run| == 1 {
      InvKept(s, a);
      BeginsReading(s, i, wanted, room);
    } else {
      RunReads(s, before, i, wanted, room);
      var t := After(s, before);
      InvKept(t, a);
      if t == Answered(s, i, wanted, room) { NoOwnStep(t, i, a); }
      StepReads(s, t, i, wanted, room, a);
    }
  }

  lemma NoOwnStep(t: Store, i: nat, a: Action)
    requires i < |t.readers| && t.readers[i].Away? && OwnStep(a, i)
    ensures !Enabled(t, a)
  {}

  lemma BeginsReading(s: Store, i: nat, wanted: bool, room: nat)
    requires Quiet(s, i)
    ensures Reading(s, Apply(s, BeginRead(i, wanted, room)), i, wanted, room)
  {
    ShownIsPublished(s);
  }

  /**
    A read that finds the lock free and is not disturbed ends in the whole last frame when one is shown
    and fits, is refused exactly when pixels are wanted and do not fit, and finds nothing exactly when
    nothing is shown.
   */
  lemma UndisturbedRead(s: Store, run: seq<Action>, i: nat, wanted: bool, room: nat)
    requires Quiet(s, i) && OneRead(run, i, wanted, room) && Possible(s, run) && After(s, run).readers[i].Away?
    ensures |After(s, run).history| == |s.history| + 1 && After(s, run).history[..|s.history|] == s.history
    ensures After(s, run).history[|s.history|].published == |s.published|
    ensures var r := After(s, run).history[|s.history|].result;
      && (r.Nothing? <==> s.meta[SEQ] == 0)
      && (s.meta[SEQ] != 0 ==>
          && s.published != []
          && var f := s.published[|s.published| - 1];
             && (r.Refused? <==> wanted && |f.pixels| > room)
             && (!(wanted && |f.pixels| > room) ==> r == Snapshot(f.meta, wanted, if wanted then f.pixels else [])))
  {
    RunReads(s, run, i, wanted, room);
    assert After(s, run) == Answered(s, i, wanted, room);
  }

  // ---- It comes to its end ----

  lemma OneMore(s: Store, run: seq<Action>, a: Action)
    requires Possible(s, run) && Shaped(After(s, run)) && Enabled(After(s, run), a)
    ensures Possible(s, run + [a]) && After(s, run + [a]) == Apply(After(s, run), a)
  {
    assert (run + [a])[..|run + [a]| - 1] == run;
  }

  function Stage(r: Reader): nat {
    match r
    case Checking(_, _) => 3
    case ReadingMeta(_, _, _) => 2
    case ReadingPixels(_, _, _) => 1
    case _ => 0
  }

  function Left(r: Reader): nat {
    if r.ReadingMeta? || r.ReadingPixels? then |r.left| else 0
  }

  /** The next own action of a reader inside. */
  ghost function NextStep(t: Store, i: nat): (a: Action)
    requires i < |t.readers| && Inside(t.readers[i]) && Shaped(t)
    ensures OwnStep(a, i) && Enabled(t, a)
  {
    var r := t.readers[i];
    if r.ReadingMeta? && r.left != {} then var k :| k in r.left; ReaderMeta(i, k)
    else if r.ReadingPixels? && r.left != {} then var k :| k in r.left; ReaderPixel(i, k)
    else ReaderStep(i)
  }

  lemma StepsShrink(s: Store, t: Store, i: nat, wanted: bool, room: nat, a: Action)
    requires Quiet(s, i) && Reading(s, t, i, wanted, room) && Shaped(t) && OwnStep(a, i) && Enabled(t, a) && !t.readers[i].Leaving?
    ensures var u := Apply(t, a);
      Stage(u.readers[i]) < Stage(t.readers[i]) || (Stage(u.readers[i]) == Stage(t.readers[i]) && Left(u.readers[i]) < Left(t.readers[i]))
  {
    if a.ReaderMeta? || a.ReaderPixel? {
      assert t.readers[i].left == (t.readers[i].left - {a.k}) + {a.k};
    }
  }

  lemma {:induction false} FinishRead(s: Store, run: seq<Action>, i: nat, wanted: bool, room: nat) returns (more: seq<Action>)
    requires Quiet(s, i) && OneRead(run, i, wanted, room) && Possible(s, run) && Reading(s, After(s, run), i, wanted, room)
    ensures OneRead(more, i, wanted, room) && Possible(s, more) && After(s, more).readers[i].Away?
    decreases Stage(After(s, run).readers[i]), Left(After(s, run).readers[i])
  {
    RunReads(s, run, i, wanted, room);
    var t := After(s, run);
    var a := NextStep(t, i);
    OneMore(s, run, a);
    StepReads(s, t, i, wanted, room, a);
    if t.readers[i].Leaving? || Apply(t, a) == Answered(s, i, wanted, room) {
      more := run + [a];
    } else {
      StepsShrink(s, t, i, wanted, room, a);
      more := FinishRead(s, run + [a], i, wanted, room);
    }
  }

  /** Every read that finds the lock free can come to its end. */
  lemma ReadCompletes(s: Store, i: nat, wanted: bool, room: nat) returns (run: seq<Action>)
    requires Quiet(s, i)
    ensures OneRead(run, i, wanted, room) && Possible(s, run) && After(s, run).readers[i].Away?
  {
    assert Possible(s, []) && After(s, []) == s;
    OneMore(s, [], BeginRead(i, wanted, room));
    BeginsReading(s, i, wanted, room);
    run := FinishRead(s, [] + [BeginRead(i, wanted, room)], i, wanted, room);
  }

  // ---- And a publish ----

  predicate WriterOnly(a: Action) { a.Publish? || a.WriterStep? || a.WriterPixel? || a.WriterMeta? }

  ghost predicate OnlyWrites(run: seq<Action>) { forall a <- run :: WriterOnly(a) }

  /** The writer is on its way through publishing `f`. */
  ghost predicate Publishing(s: Store, t: Store, f: Frame) {
    && Inv(t) && t.published == s.published && t.lock == Held(TheWriter)
    && (t.writer.Invalidating? || t.writer.CopyingPixels? || t.writer.CopyingMeta?) && t.writer.frame == f
  }

  /** It is published, and the free store shows all of it. */
  ghost predicate Shows(s: Store, t: Store, f: Frame) {
    t.published == s.published + [f] && t.writer.Resting? && t.lock.Free? && t.meta == f.meta && f.pixels <= t.pixels
  }

  function Ahead(w: Writer): nat {
    match w
    case Invalidating(_) => 2
    case CopyingPixels(_, _) => 1
    case _ => 0
  }

  function ToCopy(w: Writer): nat { if w.CopyingPixels? || w.CopyingMeta? then |w.left| else 0 }

  ghost function NextWrite(t: Store): (a: Action)
    requires t.writer.Invalidating? || t.writer.CopyingPixels? || t.writer.CopyingMeta?
    ensures WriterOnly(a) && Enabled(t, a)
    ensures a.WriterPixel? || a.WriterMeta? ==> t.writer.left != {}
    ensures a.WriterStep? && !t.writer.Invalidating? ==> t.writer.left == {}
    ensures !a.Publish?
  {
    var w := t.writer;
    if w.CopyingPixels? && w.left != {} then var k :| k in w.left; WriterPixel(k)
    else if w.CopyingMeta? && w.left != {} then var k :| k in w.left; WriterMeta(k)
    else WriterStep
  }

  lemma WriteGoesOn(s: Store, t: Store, f: Frame)
    requires Publishing(s, t, f)
    ensures var u := Apply(t, NextWrite(t));
      if t.writer.CopyingMeta? && t.writer.left == {} then Shows(s, u, f) else
        && Publishing(s, u, f)
        && (Ahead(u.writer) < Ahead(t.writer) || (Ahead(u.writer) == Ahead(t.writer) && ToCopy(u.writer) < ToCopy(t.writer)))
  {
    hide ReaderInv, ShowsLatest, Below;
    var a := NextWrite(t);
    InvKept(t, a);
    if a.WriterPixel? || a.WriterMeta? { assert t.writer.left == (t.writer.left - {a.k}) + {a.k}; }
    if t.writer.CopyingMeta? && t.writer.left == {} { assert t.meta == f.meta; }
  }

  lemma {:induction false} FinishPublish(s: Store, run: seq<Action>, f: Frame) returns (more: seq<Action>)
    requires OnlyWrites(run) && Possible(s, run) && Publishing(s, After(s, run), f)
    ensures OnlyWrites(more) && Possible(s, more)
    ensures Shows(s, After(s, more), f)
    decreases Ahead(After(s, run).writer), ToCopy(After(s, run).writer)
  {
    hide Inv, Possible, Apply, Ahead, ToCopy;
    var t := After(s, run);
    ShapedInv(t);
    var a := NextWrite(t);
    WriteGoesOn(s, t, f);
    OneMore(s, run, a);
    if t.writer.CopyingMeta? && t.writer.left == {} {
      more := run + [a];
    } else {
      more := FinishPublish(s, run + [a], f);
    }
  }

  lemma ShapedInv(s: Store)
    requires Inv(s)
    ensures Shaped(s)
  {}

  /** A valid frame offered while the lock is free can be published whole, and is then shown. */
  lemma PublishCompletes(s: Store, f: Frame) returns (run: seq<Action>)
    requires Inv(s) && s.lock.Free? && s.writer.Resting? && ValidFrame(s, f)
    ensures OnlyWrites(run) && Possible(s, run)
    ensures Shows(s, After(s, run), f)
  {
    assert Possible(s, []) && After(s, []) == s;
    OneMore(s, [], Publish(f));
    InvKept(s, Publish(f));
    run := FinishPublish(s, [] + [Publish(f)], f);
  }
}
