/**
  The second queue of a PID recording: telemetry frames, each to be joined by the disk thread with the
  drive record of its own tick. Frames go in before their records, but either push can be refused, and
  records of abandoned takes are discarded without looking at their frames.
 */
module PidTelemetry {
  import opened Arithmetic

  datatype Frame = Frame(tick: nat, body: int)

  datatype Producer = Ready | Loaded(frame: Frame, seenTail: nat) | Queued(tick: nat)

  datatype Writer = Waiting | Taking(tick: nat)

  datatype Row = Row(tick: nat, frame: Frame)

  /** `frames` and `drives` are everything ever queued; `errors` counts missing or mismatched telemetry. */
  datatype Recorder = Recorder(
    capacity: nat, slots: seq<Frame>, tail: nat, frames: seq<Frame>,
    drives: seq<nat>, driveTail: nat, lastTick: int,
    producer: Producer, writer: Writer, rows: seq<Row>, errors: nat)
  {
    function Head(): nat { |frames| }
  }

  function Boot(capacity: nat): Recorder {
    Recorder(capacity, seq(capacity, _ => Frame(0, 0)), 0, [], [], 0, -1, Ready, Waiting, [], 0)
  }

  datatype Action =
    | Load(frame: Frame) | Store | QueueDrive | RefuseDrive
    | Fetch | Discard | TakeOne | Abandon

  predicate Enabled(s: Recorder, a: Action) {
    match a
    case Load(f) => s.producer.Ready? && f.tick > s.lastTick
    case Store => s.producer.Loaded?
    case QueueDrive => s.producer.Queued?
    case RefuseDrive => s.producer.Queued?
    case Fetch => s.writer.Waiting? && s.driveTail < |s.drives|
    case Discard => s.writer.Waiting? && s.driveTail < |s.drives|
    case TakeOne => s.writer.Taking?
    case Abandon => s.writer.Taking?
  }

  predicate Shaped(s: Recorder) { s.capacity > 0 && |s.slots| == s.capacity && s.tail <= s.Head() }

  function Apply(s: Recorder, a: Action): Recorder
    requires Shaped(s) && Enabled(s, a)
  {
    match a
    case Load(f) => s.(producer := Loaded(f, s.tail), lastTick := f.tick)
    case Store =>
      if s.Head() - s.producer.seenTail == s.capacity then s.(producer := Ready)
      else s.(slots := s.slots[s.Head() % s.capacity := s.producer.frame],
              frames := s.frames + [s.producer.frame], producer := Queued(s.producer.frame.tick))
    case QueueDrive => s.(drives := s.drives + [s.producer.tick], producer := Ready)
    case RefuseDrive => s.(producer := Ready)
    case Fetch => s.(writer := Taking(s.drives[s.driveTail]), driveTail := s.driveTail + 1)
    case Discard => s.(driveTail := s.driveTail + 1)
    case TakeOne => TakeStep(s)
    case Abandon => s.(writer := Waiting)
  }

  /** One turn of the loop in take. */
  function TakeStep(s: Recorder): Recorder
    requires Shaped(s) && s.writer.Taking?
  {
    if s.tail == s.Head() then s.(errors := s.errors + 1, writer := Waiting)
    else
      var frame := s.slots[s.tail % s.capacity];
      if frame.tick > s.writer.tick then s.(errors := s.errors + 1, writer := Waiting)
      else if frame.tick == s.writer.tick
      then s.(tail := s.tail + 1, rows := s.rows + [Row(s.writer.tick, frame)], writer := Waiting)
      else s.(tail := s.tail + 1)
  }

  // ---- Invariant ----

  /** The ring holds the frames not yet taken. */
  ghost predicate RingInv(s: Recorder) {
    && Shaped(s) && s.Head() - s.tail <= s.capacity
    && (forall k | s.tail <= k < s.Head() :: s.slots[k % s.capacity] == s.frames[k])
    && (s.producer.Loaded? ==> s.producer.seenTail <= s.tail && s.Head() - s.producer.seenTail <= s.capacity)
  }

  ghost predicate Framed(s: Recorder, tick: nat, from: int) {
    exists k :: 0 <= from <= k < |s.frames| && s.frames[k].tick == tick
  }

  /** Ticks only grow, and every drive record queued had its frame queued before. */
  ghost predicate OrderInv(s: Recorder) {
    && (forall i, j | 0 <= i < j < |s.frames| :: s.frames[i].tick < s.frames[j].tick)
    && (forall i, j | 0 <= i < j < |s.drives| :: s.drives[i] < s.drives[j])
    && (forall i | 0 <= i < |s.drives| :: Framed(s, s.drives[i], 0))
    && (forall i | 0 <= i < |s.frames| :: s.frames[i].tick <= s.lastTick)
    && (s.producer.Loaded? ==> s.producer.frame.tick == s.lastTick && forall i | 0 <= i < |s.frames| :: s.frames[i].tick < s.lastTick)
    && (s.producer.Queued? ==> Framed(s, s.producer.tick, 0) && forall i | 0 <= i < |s.drives| :: s.drives[i] < s.producer.tick)
  }

  /** Frames taken belong to records already fetched: those still to come have theirs in the ring. */
  ghost predicate TakenInv(s: Recorder) {
    && s.driveTail <= |s.drives|
    && (s.driveTail == 0 ==> s.tail == 0 && s.writer.Waiting?)
    && (s.writer.Taking? ==> s.driveTail > 0 && s.writer.tick == s.drives[s.driveTail - 1])
    && (forall k | 0 <= k < s.tail && k < |s.frames| && s.driveTail > 0 ::
          s.frames[k].tick <= s.drives[s.driveTail - 1] && (s.writer.Taking? ==> s.frames[k].tick < s.writer.tick))
  }

  ghost predicate Joined(s: Recorder) {
    s.errors == 0 && forall i | 0 <= i < |s.rows| :: s.rows[i].frame.tick == s.rows[i].tick
  }

  ghost predicate Inv(s: Recorder) { RingInv(s) && OrderInv(s) && TakenInv(s) && Joined(s) }

  lemma RingAfterStore(s: Recorder)
    requires RingInv(s) && s.producer.Loaded? && s.Head() - s.producer.seenTail != s.capacity
    ensures RingInv(Apply(s, Store))
  {
    var t := Apply(s, Store);
    forall k | t.tail <= k < t.Head() ensures t.slots[k % t.capacity] == t.frames[k] {
      if k < s.Head() { CloseNumbersDiffer(s.Head(), k, s.capacity); }
    }
  }

  lemma OrderAfterStore(s: Recorder)
    requires RingInv(s) && OrderInv(s) && s.producer.Loaded? && s.Head() - s.producer.seenTail != s.capacity
    ensures OrderInv(Apply(s, Store))
  {
    var t := Apply(s, Store);
    assert t.frames[|s.frames|] == s.producer.frame;
    assert Framed(t, s.producer.frame.tick, 0);
    forall i | 0 <= i < |t.drives| ensures Framed(t, t.drives[i], 0) && t.drives[i] < t.producer.tick {
      FrameStays(s, t, s.drives[i], 0);
      var k :| 0 <= k < |s.frames| && s.frames[k].tick == s.drives[i];
    }
  }

  lemma FrameStays(s: Recorder, t: Recorder, tick: nat, from: int)
    requires Framed(s, tick, from) && s.frames <= t.frames
    ensures Framed(t, tick, from)
  {
    var k :| 0 <= from <= k < |s.frames| && s.frames[k].tick == tick;
    assert t.frames[k] == s.frames[k];
  }

  lemma OrderAfterDrive(s: Recorder)
    requires RingInv(s) && OrderInv(s) && s.producer.Queued?
    ensures OrderInv(Apply(s, QueueDrive))
  {
    var t := Apply(s, QueueDrive);
    forall i | 0 <= i < |t.drives| ensures Framed(t, t.drives[i], 0) {
      if i < |s.drives| {
        assert t.drives[i] == s.drives[i];
        FrameStays(s, t, s.drives[i], 0);
      } else {
        FrameStays(s, t, s.producer.tick, 0);
      }
    }
  }

  /** Steps of the producer that queue nothing, and all steps of the writer, keep the order. */
  lemma OrderStays(s: Recorder, t: Recorder)
    requires OrderInv(s) && t.frames == s.frames && t.drives == s.drives && t.lastTick >= s.lastTick
    requires t.producer.Queued? ==> t.producer == s.producer
    requires t.producer.Loaded? ==> t.producer.frame.tick == t.lastTick && (t.producer == s.producer || t.lastTick > s.lastTick)
    ensures OrderInv(t)
  {
    forall i | 0 <= i < |t.drives| ensures Framed(t, t.drives[i], 0) { FrameStays(s, t, s.drives[i], 0); }
    if t.producer.Queued? { FrameStays(s, t, t.producer.tick, 0); }
  }

  /** The frame of the record being joined is still in the ring, so take finds it. */
  lemma WantedIsThere(s: Recorder)
    requires RingInv(s) && OrderInv(s) && TakenInv(s) && s.writer.Taking?
    ensures Framed(s, s.writer.tick, s.tail) && s.tail < s.Head()
    ensures s.slots[s.tail % s.capacity] == s.frames[s.tail] && s.frames[s.tail].tick <= s.writer.tick
  {
    assert Framed(s, s.drives[s.driveTail - 1], 0);
    var k :| 0 <= k < |s.frames| && s.frames[k].tick == s.writer.tick;
    assert k >= s.tail;
  }

  lemma TakeKeepsInv(s: Recorder)
    requires Inv(s) && s.writer.Taking?
    ensures Inv(TakeStep(s))
  {
    WantedIsThere(s);
    OrderStays(s, TakeStep(s));
  }

  lemma StoreKeepsInv(s: Recorder)
    requires Inv(s) && s.producer.Loaded?
    ensures Inv(Apply(s, Store))
  {
    if s.Head() - s.producer.seenTail != s.capacity {
      RingAfterStore(s);
      OrderAfterStore(s);
    } else {
      OrderStays(s, Apply(s, Store));
    }
  }

  lemma CallsKeepInv(s: Recorder, a: Action)
    requires Inv(s) && Enabled(s, a) && (a.Load? || a.RefuseDrive? || a.Fetch? || a.Discard? || a.Abandon?)
    ensures Inv(Apply(s, a))
  {
    RingShapes(s);
    CallsKeepOrder(s, a);
    TakenStays(s, a);
    CallsKeepRing(s, a);
  }

  lemma CallsKeepOrder(s: Recorder, a: Action)
    requires Shaped(s) && OrderInv(s) && Enabled(s, a) && (a.Load? || a.RefuseDrive? || a.Fetch? || a.Discard? || a.Abandon?)
    ensures OrderInv(Apply(s, a))
  {
    OrderStays(s, Apply(s, a));
  }

  lemma CallsKeepRing(s: Recorder, a: Action)
    requires RingInv(s) && Enabled(s, a) && (a.Load? || a.RefuseDrive? || a.Fetch? || a.Discard? || a.Abandon?)
    ensures RingInv(Apply(s, a))
  {}

  lemma TakenStays(s: Recorder, a: Action)
    requires Inv(s) && Enabled(s, a) && (a.Load? || a.RefuseDrive? || a.Fetch? || a.Discard? || a.Abandon?)
    ensures TakenInv(Apply(s, a))
  {
    hide RingInv, Joined;
    RingShapes(s);
  }

  lemma RingShapes(s: Recorder)
    requires RingInv(s)
    ensures Shaped(s)
  {}

  lemma QueueKeepsInv(s: Recorder)
    requires Inv(s) && s.producer.Queued?
    ensures Inv(Apply(s, QueueDrive))
  {
    OrderAfterDrive(s);
    hide OrderInv;
  }

  lemma InvKept(s: Recorder, a: Action)
    requires Inv(s) && Enabled(s, a)
    ensures Inv(Apply(s, a))
  {
    RingShapes(s);
    hide RingInv, OrderInv, TakenInv, Joined;
    match a
    case TakeOne => TakeKeepsInv(s);
    case Store => StoreKeepsInv(s);
    case QueueDrive => QueueKeepsInv(s);
    case _ => CallsKeepInv(s, a);
  }

  // ---- Runs ----

  ghost predicate Possible(s: Recorder, run: seq<Action>)
    decreases |run|, 0
  {
    run == [] ||
    (var before := run[..|run| - 1];
     Possible(s, before) && Shaped(After(s, before)) && Enabled(After(s, before), run[|run| - 1]))
  }

  ghost function After(s: Recorder, run: seq<Action>): Recorder
    requires Possible(s, run)
    decreases |run|, 1
  {
    if run == [] then s else Apply(After(s, run[..|run| - 1]), run[|run| - 1])
  }

  /**
    In every interleaving, with any pushes refused and any takes abandoned: no drive row ever lacks its
    telemetry or gets that of another tick.
   */
  lemma {:induction false} RowsGetTheirOwnTelemetry(capacity: nat, run: seq<Action>)
    requires capacity > 0 && Possible(Boot(capacity), run)
    ensures Inv(After(Boot(capacity), run))
    ensures var s := After(Boot(capacity), run);
      s.errors == 0 && forall i | 0 <= i < |s.rows| :: s.rows[i].frame.tick == s.rows[i].tick
    decreases |run|
  {
    hide RingInv, OrderInv, TakenInv;
    if run == [] {
      BootInv(capacity);
    } else {
      RowsGetTheirOwnTelemetry(capacity, run[..|run| - 1]);
      InvKept(After(Boot(capacity), run[..|run| - 1]), run[|run| - 1]);
    }
  }

  lemma BootInv(capacity: nat)
    requires capacity > 0
    ensures Inv(Boot(capacity))
  {}
}

/** The telemetry queue as the object both threads call. */
module FrameQueue {
  import opened Arithmetic
  import opened PidTelemetry

  datatype Taken = Missing | Mismatch | Got(frame: Frame)

  predicate PowerOfTwo(n: nat) { n == 1 || (n > 1 && n % 2 == 0 && PowerOfTwo(n / 2)) }

  /** What take finds: older frames are orphans and go, a newer one stays. */
  function Found(frames: seq<Frame>, tick: nat): Taken {
    if frames == [] then Missing
    else if frames[0].tick > tick then Mismatch
    else if frames[0].tick == tick then Got(frames[0])
    else Found(frames[1..], tick)
  }

  function Left(frames: seq<Frame>, tick: nat): seq<Frame> {
    if frames == [] || frames[0].tick > tick then frames
    else if frames[0].tick == tick then frames[1..]
    else Left(frames[1..], tick)
  }

  class Queue {
    const capacity: nat
    const queue: array<Frame>
    var head: nat
    var tail: nat
    ghost var contents: seq<Frame>

    ghost predicate Valid()
      reads this, queue
    {
      && capacity == queue.Length > 0 && tail <= head <= tail + capacity && |contents| == head - tail
      && forall k | 0 <= k < |contents| :: queue[(tail + k) % capacity] == contents[k]
    }

    constructor (n: nat)
      requires 16 <= n <= 65536 && PowerOfTwo(n)
      ensures Valid() && capacity == n && contents == [] && fresh(queue)
    {
      capacity := n;
      queue := new Frame[n](_ => Frame(0, 0));
      head, tail, contents := 0, 0, [];
    }

    method Push(frame: Frame) returns (ok: bool)
      requires Valid()
      modifies this, queue
      ensures Valid() && ok == (|old(contents)| < capacity)
      ensures contents == if ok then old(contents) + [frame] else old(contents)
    {
      if head - tail == capacity { return false; }
      forall k | 0 <= k < |contents|
        ensures queue[(tail + k) % capacity] == contents[k] && (tail + k) % capacity != head % capacity
      {
        CloseNumbersDiffer(head, tail + k, capacity);
      }
      queue[head % capacity] := frame;
      head := head + 1;
      contents := contents + [frame];
      return true;
    }

    method Take(tick: nat) returns (r: Taken)
      requires Valid()
      modifies this
      ensures Valid()
      ensures r == Found(old(contents), tick) && contents == Left(old(contents), tick)
    {
      while true
        invariant Valid()
        invariant Found(contents, tick) == Found(old(contents), tick)
        invariant Left(contents, tick) == Left(old(contents), tick)
        decreases |contents|
      {
        if tail == head { return Missing; }
        var frame := queue[tail % capacity];
        assert frame == contents[0];
        if frame.tick > tick { return Mismatch; }
        Advance();
        if frame.tick == tick { return Got(frame); }
      }
    }

    method Advance()
      requires Valid() && tail < head
      modifies this`tail, this`contents
      ensures Valid() && contents == old(contents)[1..] && tail == old(tail) + 1
    {
      tail := tail + 1;
      contents := contents[1..];
      forall k | 0 <= k < |contents| ensures queue[(tail + k) % capacity] == contents[k] {
        assert contents[k] == old(contents)[k + 1] && tail + k == old(tail) + (k + 1);
      }
    }
  }
}
