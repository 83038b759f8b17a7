/**
  The single-producer single-consumer ring both recorder queues use, one memory word at a time.
  Counters are 64-bit and wrap; `head` and `tail` below are the true counts, the code sees them
  modulo WRAP. A slot is copied word by word on both sides, with no lock.
 */
module SpscRing {
  import opened Arithmetic

  const WRAP := 0x1_0000_0000_0000_0000

  type Words = seq<int>

  datatype Producer = Calling | Filling(record: Words, done: nat)
  datatype Consumer = Polling | Copying(sofar: Words)

  datatype Ring = Ring(capacity: nat, width: nat, slots: seq<Words>, head: nat, tail: nat,
                       producer: Producer, consumer: Consumer, pushed: seq<Words>, taken: seq<Words>)

  /** The capacities the constructor accepts. */
  predicate ValidCapacity(n: nat) {
    n in {16, 32, 64, 128, 256, 512, 1024, 2048, 4096, 8192, 16384, 32768, 65536}
  }

  /** Unsigned 64-bit subtraction. */
  function WrapSub(a: nat, b: nat): nat { (a - b) % WRAP }

  /** Slot of a wrapped counter; the mask of a power of two is the remainder. */
  function SlotOf(counter: nat, capacity: nat): nat
    requires capacity > 0
  {
    counter % capacity
  }

  datatype Action = Push(record: Words, reserve: nat) | FillWord | Publish | Poll | CopyWord | Release

  predicate HasRoom(r: Ring, reserve: nat) {
    reserve <= r.capacity && WrapSub(r.head % WRAP, r.tail % WRAP) < r.capacity - reserve
  }

  predicate Enabled(r: Ring, a: Action) {
    match a
    case Push(record, reserve) => r.producer.Calling? && |record| == r.width && reserve <= 4
    case FillWord => r.producer.Filling? && r.producer.done < r.width
    case Publish => r.producer.Filling? && r.producer.done == r.width
    case Poll => r.consumer.Polling?
    case CopyWord => r.consumer.Copying? && |r.consumer.sofar| < r.width
    case Release => r.consumer.Copying? && |r.consumer.sofar| == r.width
  }

  predicate Shaped(r: Ring) {
    && ValidCapacity(r.capacity) && |r.slots| == r.capacity
    && (forall i | 0 <= i < r.capacity :: |r.slots[i]| == r.width)
    && (r.producer.Filling? ==> |r.producer.record| == r.width && r.producer.done <= r.width)
    && (r.consumer.Copying? ==> |r.consumer.sofar| <= r.width)
  }

  function Apply(r: Ring, a: Action): Ring
    requires Shaped(r) && Enabled(r, a)
  {
    match a
    case Push(record, reserve) => if HasRoom(r, reserve) then r.(producer := Filling(record, 0)) else r
    case FillWord =>
      var slot, k := SlotOf(r.head % WRAP, r.capacity), r.producer.done;
      r.(slots := r.slots[slot := r.slots[slot][k := r.producer.record[k]]],
         producer := Filling(r.producer.record, k + 1))
    case Publish => r.(head := r.head + 1, pushed := r.pushed + [r.producer.record], producer := Calling)
    case Poll => if r.head % WRAP != r.tail % WRAP then r.(consumer := Copying([])) else r
    case CopyWord =>
      var slot, k := SlotOf(r.tail % WRAP, r.capacity), |r.consumer.sofar|;
      r.(consumer := Copying(r.consumer.sofar + [r.slots[slot][k]]))
    case Release => r.(tail := r.tail + 1, taken := r.taken + [r.consumer.sofar], consumer := Polling)
  }

  /** Counters count, queued slots hold what was pushed, and both copies are in step with their record. */
  ghost predicate Inv(r: Ring) {
    && Shaped(r)
    && |r.pushed| == r.head && |r.taken| == r.tail
    && r.tail <= r.head <= r.tail + r.capacity
    && (forall k | r.tail <= k < r.head :: r.slots[k % r.capacity] == r.pushed[k])
    && (forall k | 0 <= k < r.head :: |r.pushed[k]| == r.width)
    && r.taken == r.pushed[..r.tail]
    && (r.producer.Filling? ==>
          && r.head < r.tail + r.capacity
          && r.slots[r.head % r.capacity][..r.producer.done] == r.producer.record[..r.producer.done])
    && (r.consumer.Copying? ==>
          && r.tail < r.head
          && r.consumer.sofar == r.pushed[r.tail][..|r.consumer.sofar|])
  }

  lemma SlotIgnoresWrap(counter: nat, capacity: nat)
    requires ValidCapacity(capacity)
    ensures (counter % WRAP) % capacity == counter % capacity
  {
    var n := WRAP / capacity;
    assert WRAP == n * capacity;
    var q, m := counter / WRAP, counter % WRAP;
    assert counter == (q * n) * capacity + m;
    RemainderOfSum(q * n, capacity, m);
  }

  lemma WrapSubIsExact(a: nat, b: nat)
    requires b <= a < b + WRAP
    ensures WrapSub(a % WRAP, b % WRAP) == a - b
    ensures a % WRAP == b % WRAP <==> a == b
  {}

  lemma InvKeptByProducer(r: Ring, a: Action)
    requires Inv(r) && Enabled(r, a) && (a.Push? || a.FillWord? || a.Publish?)
    ensures Inv(Apply(r, a))
  {
    var t := Apply(r, a);
    SlotIgnoresWrap(r.head, r.capacity);
    match a
    case Push(record, reserve) =>
      WrapSubIsExact(r.head, r.tail);
    case FillWord =>
      forall k | t.tail <= k < t.head ensures t.slots[k % t.capacity] == t.pushed[k] {
        CloseNumbersDiffer(r.head, k, r.capacity);
      }
      var slot, done := r.head % r.capacity, r.producer.done;
      assert t.slots[slot][..done + 1] == r.slots[slot][..done] + [r.producer.record[done]];
      assert r.producer.record[..done + 1] == r.producer.record[..done] + [r.producer.record[done]];
    case Publish =>
      assert r.slots[r.head % r.capacity] == r.producer.record;
      assert t.pushed[..r.tail] == r.pushed[..r.tail];
  }

  lemma InvKeptByConsumer(r: Ring, a: Action)
    requires Inv(r) && Enabled(r, a) && (a.Poll? || a.CopyWord? || a.Release?)
    ensures Inv(Apply(r, a))
  {
    var t := Apply(r, a);
    SlotIgnoresWrap(r.tail, r.capacity);
    match a
    case Poll =>
      WrapSubIsExact(r.head, r.tail);
    case CopyWord =>
      assert t.consumer.sofar == r.pushed[r.tail][..|r.consumer.sofar| + 1];
    case Release =>
      assert r.consumer.sofar == r.pushed[r.tail];
      assert t.taken == r.pushed[..r.tail] + [r.pushed[r.tail]] == r.pushed[..r.tail + 1];
  }

  function Boot(capacity: nat, width: nat, junk: seq<Words>): Ring {
    Ring(capacity, width, junk, 0, 0, Calling, Polling, [], [])
  }

  ghost predicate Possible(r: Ring, run: seq<Action>)
    decreases |run|, 0
  {
    run == [] ||
    (var s := run[..|run| - 1]; Possible(r, s) && Shaped(After(r, s)) && Enabled(After(r, s), run[|run| - 1]))
  }

  ghost function After(r: Ring, run: seq<Action>): Ring
    requires Possible(r, run)
    decreases |run|, 1
  {
    if run == [] then r else Apply(After(r, run[..|run| - 1]), run[|run| - 1])
  }

  /**
    For every interleaving, what the consumer takes is what was pushed, whole and in order, whatever
    the slots held before and however often the counters wrapped.
   */
  lemma {:induction false} TakenIsPushed(capacity: nat, width: nat, junk: seq<Words>, run: seq<Action>)
    requires ValidCapacity(capacity) && |junk| == capacity
    requires forall i | 0 <= i < capacity :: |junk[i]| == width
    requires Possible(Boot(capacity, width, junk), run)
    ensures var r := After(Boot(capacity, width, junk), run);
      && Inv(r) && r.capacity == capacity
      && r.taken == r.pushed[..r.tail] && r.tail <= |r.pushed| <= r.tail + capacity
    decreases |run|
  {
    if run != [] {
      var before := run[..|run| - 1];
      TakenIsPushed(capacity, width, junk, before);
      var a, r := run[|run| - 1], After(Boot(capacity, width, junk), before);
      if a.Push? || a.FillWord? || a.Publish? { InvKeptByProducer(r, a); } else { InvKeptByConsumer(r, a); }
    }
  }

  /** The wrapped comparison refuses a push exactly when that many records are queued. */
  lemma RoomIsExact(r: Ring, reserve: nat)
    requires Inv(r) && reserve <= 4
    ensures HasRoom(r, reserve) <==> |r.pushed| - |r.taken| < r.capacity - reserve
  {
    WrapSubIsExact(r.head, r.tail);
  }

  // ---- That records get through ----

  ghost predicate Leads(r: Ring, t: Ring) { exists run: seq<Action> :: Reaches(r, run, t) }

  ghost predicate Reaches(r: Ring, run: seq<Action>, t: Ring) { Possible(r, run) && After(r, run) == t }

  lemma LeadsNowhere(r: Ring)
    ensures Leads(r, r)
  {
    assert Reaches(r, [], r);
  }

  lemma OneMore(r: Ring, t: Ring, a: Action) returns (u: Ring)
    requires Leads(r, t) && Inv(t) && Enabled(t, a)
    ensures Leads(r, u) && Inv(u) && u == Apply(t, a)
  {
    u := Apply(t, a);
    var run: seq<Action> :| Reaches(r, run, t);
    assert (run + [a])[..|run + [a]| - 1] == run;
    assert Reaches(r, run + [a], u);
    if a.Push? || a.FillWord? || a.Publish? { InvKeptByProducer(t, a); } else { InvKeptByConsumer(t, a); }
  }

  lemma {:induction false} FillEnds(r: Ring, t: Ring) returns (u: Ring)
    requires Leads(r, t) && Inv(t) && t.producer.Filling?
    ensures Leads(r, u) && Inv(u) && u.producer.Calling? && u.consumer == t.consumer
    ensures u.pushed == t.pushed + [t.producer.record] && u.taken == t.taken
    decreases t.width - t.producer.done
  {
    hide Leads, Inv, SlotOf;
    FillingIsShaped(t);
    if t.producer.done == t.width {
      u := OneMore(r, t, Publish);
    } else {
      u := OneMore(r, t, FillWord);
      u := FillEnds(r, u);
    }
  }

  lemma FillingIsShaped(t: Ring)
    requires Inv(t)
    ensures Shaped(t)
  {}

  lemma {:induction false} CopyEnds(r: Ring, t: Ring) returns (u: Ring)
    requires Leads(r, t) && Inv(t) && t.consumer.Copying?
    ensures Leads(r, u) && Inv(u) && u.consumer.Polling? && u.producer == t.producer
    ensures u.pushed == t.pushed && |u.taken| == |t.taken| + 1
    decreases t.width - |t.consumer.sofar|
  {
    hide Leads, Inv, SlotOf;
    FillingIsShaped(t);
    if |t.consumer.sofar| == t.width {
      u := OneMore(r, t, Release);
    } else {
      u := OneMore(r, t, CopyWord);
      u := CopyEnds(r, u);
    }
  }

  /** A push is taken on exactly if fewer records than that are queued, and then its record joins the queue. */
  lemma PushGetsThrough(r: Ring, record: Words, reserve: nat) returns (u: Ring)
    requires Inv(r) && r.producer.Calling? && |record| == r.width && reserve <= 4
    ensures Leads(r, u) && Inv(u) && u.producer.Calling? && u.taken == r.taken
    ensures u.pushed == r.pushed + if |r.pushed| - |r.taken| < r.capacity - reserve then [record] else []
  {
    hide Leads;
    RoomIsExact(r, reserve);
    LeadsNowhere(r);
    u := OneMore(r, r, Push(record, reserve));
    hide Inv;
    if u.producer.Filling? { u := FillEnds(r, u); }
  }

  /** A take finds a record exactly if one is queued, and then gets the oldest one. */
  lemma TakeGetsThrough(r: Ring) returns (u: Ring)
    requires Inv(r) && r.consumer.Polling?
    ensures Leads(r, u) && Inv(u) && u.consumer.Polling? && u.pushed == r.pushed
    ensures if |r.taken| < |r.pushed| then u.taken == r.taken + [r.pushed[|r.taken|]] else u.taken == r.taken
  {
    hide Leads;
    WrapSubIsExact(r.head, r.tail);
    LeadsNowhere(r);
    u := OneMore(r, r, Poll);
    if u.consumer.Copying? {
      u := CopyEnds(r, u);
      assert u.taken == u.pushed[..|r.taken| + 1] == r.pushed[..|r.taken|] + [r.pushed[|r.taken|]];
    }
  }
}
