/**
  The lock-free bridge from the sensor core to the USB core of the Pico: two slots, a slot index and
  a 32-bit sequence. Word 0 of a slot is its sequence field, the rest is the frame; each core copies
  word by word, in any order, while the other one runs. Frames are numbered from 1 by `count`, which
  does not wrap; the code only sees it modulo WRAP.
 */
module StreamBridge {
  import opened Arithmetic

  const WRAP := 0x1_0000_0000

  /** A count as a 32-bit word holds it. */
  function Wrap(n: nat): (w: nat)
    ensures w < WRAP
  {
    if n < WRAP then n else Wrap(n - WRAP)
  }

  /** Unsigned 32-bit increment. */
  function Next(w: nat): nat { if w + 1 == WRAP then 0 else w + 1 }

  lemma {:induction false} WrapIsRemainder(n: nat)
    ensures Wrap(n) == n % WRAP
  {
    if n >= WRAP {
      WrapIsRemainder(n - WRAP);
      RemainderOfSum(1, WRAP, n - WRAP);
    }
  }

  lemma {:induction false} WrapNext(n: nat)
    ensures Wrap(n + 1) == Next(Wrap(n))
  {
    if n >= WRAP { WrapNext(n - WRAP); }
  }

  lemma WrapDiffers(a: nat, b: nat)
    requires b < a < b + WRAP
    ensures Wrap(a) != Wrap(b)
  {
    WrapIsRemainder(a);
    WrapIsRemainder(b);
    CloseNumbersDiffer(a, b, WRAP);
  }

  type Words = seq<int>

  /** Slot contents of the complete frame number n. */
  function Image(n: nat, payload: Words): Words { [Wrap(n)] + payload }

  datatype Publisher =
    | Resting
    | Writing(payload: Words, left: set<nat>)
    | Stamped(payload: Words)
    | Switched(payload: Words)

  datatype Reader =
    | Away
    | Loaded(at: nat, overlapped: bool)
    | Copying(at: nat, overlapped: bool, slot: nat, left: set<nat>, out: Words)

  /** A frame handed out: the words, the frame number it claims, and the count when it was confirmed. */
  datatype Returned = Returned(at: nat, confirmedAt: nat, frame: Words)

  datatype Bridge = Bridge(
    width: nat, slots: seq<Words>, slot: nat, sequence: nat,
    publisher: Publisher, reader: Reader, lastSequence: nat,
    published: seq<Words>, returned: seq<Returned>, retries: nat)
  {
    function Count(): nat { |published| }
  }

  function Zeros(n: nat): Words { seq(n, _ => 0) }

  /** The word indices 0..n. */
  function Upto(n: nat): (s: set<nat>)
    ensures forall k: nat :: k in s <==> k <= n
  {
    if n == 0 then {0} else Upto(n - 1) + {n}
  }

  function Boot(width: nat): Bridge {
    Bridge(width, [Zeros(width + 1), Zeros(width + 1)], 0, 0, Resting, Away, 0, [], [], 0)
  }

  datatype Action =
    | Publish(payload: Words) | WriteWord(k: nat) | Stamp | Switch | Announce
    | Load | Pick | CopyWord(k: nat) | Confirm

  predicate ByPublisher(a: Action) { a.Publish? || a.WriteWord? || a.Stamp? || a.Switch? || a.Announce? }

  predicate Shaped(b: Bridge) {
    |b.slots| == 2 && |b.slots[0]| == |b.slots[1]| == b.width + 1 && b.slot < 2
    && (b.publisher.Writing? ==> forall k <- b.publisher.left :: 1 <= k <= b.width)
    && (!b.publisher.Resting? ==> |b.publisher.payload| == b.width)
    && (b.reader.Copying? ==> b.reader.slot < 2 && |b.reader.out| == b.width + 1 && forall k <- b.reader.left :: k <= b.width)
  }

  predicate Enabled(b: Bridge, a: Action) {
    match a
    case Publish(payload) => b.publisher.Resting? && |payload| == b.width
    case WriteWord(k) => b.publisher.Writing? && k in b.publisher.left
    case Stamp => b.publisher.Writing? && b.publisher.left == {}
    case Switch => b.publisher.Stamped?
    case Announce => b.publisher.Switched?
    case Load => b.reader.Away?
    case Pick => b.reader.Loaded?
    case CopyWord(k) => b.reader.Copying? && k in b.reader.left
    case Confirm => b.reader.Copying? && b.reader.left == {}
  }

  /** The slot the publisher writes: the one after the slot index it read. */
  function Target(b: Bridge): nat {
    (b.slot + (if b.publisher.Switched? then 0 else 1)) % 2
  }

  /** Any publisher step marks a running read attempt as overlapped. */
  function Overlap(r: Reader): Reader {
    match r
    case Away => Away
    case Loaded(at, _) => Loaded(at, true)
    case Copying(at, _, slot, left, out) => Copying(at, true, slot, left, out)
  }

  function PublisherStep(b: Bridge, a: Action): Bridge
    requires Shaped(b) && Enabled(b, a) && ByPublisher(a)
  {
    var o := Target(b);
    match a
    case Publish(payload) => b.(publisher := Writing(payload, Upto(b.width) - {0}))
    case WriteWord(k) =>
      b.(slots := b.slots[o := b.slots[o][k := b.publisher.payload[k - 1]]],
         publisher := b.publisher.(left := b.publisher.left - {k}))
    case Stamp =>
      b.(slots := b.slots[o := b.slots[o][0 := Next(b.sequence)]], publisher := Stamped(b.publisher.payload))
    case Switch => b.(slot := o, publisher := Switched(b.publisher.payload))
    case Announce =>
      b.(sequence := Next(b.sequence), published := b.published + [b.publisher.payload], publisher := Resting)
  }

  function ReaderStep(b: Bridge, a: Action): Bridge
    requires Shaped(b) && Enabled(b, a) && !ByPublisher(a)
  {
    match a
    case Load =>
      if b.sequence == 0 || b.sequence == b.lastSequence then b
      else b.(reader := Loaded(b.Count(), !b.publisher.Resting?))
    case Pick => b.(reader := Copying(b.reader.at, b.reader.overlapped, b.slot, Upto(b.width), Zeros(b.width + 1)))
    case CopyWord(k) => b.(reader := b.reader.(left := b.reader.left - {k}, out := b.reader.out[k := b.slots[b.reader.slot][k]]))
    case Confirm =>
      var r := b.reader;
      if b.sequence == Wrap(r.at) && r.out[0] == Wrap(r.at)
      then b.(lastSequence := Wrap(r.at), returned := b.returned + [Returned(r.at, b.Count(), r.out)], reader := Away)
      else b.(reader := Away, retries := b.retries + 1)
  }

  function Apply(b: Bridge, a: Action): Bridge
    requires Shaped(b) && Enabled(b, a)
  {
    if ByPublisher(a) then var t := PublisherStep(b, a); t.(reader := Overlap(b.reader)) else ReaderStep(b, a)
  }

  // ---- Invariant ----

  /** The last complete frame sits untouched in its slot; only the other slot is being written. */
  ghost predicate PublisherInv(b: Bridge) {
    var n, o := b.Count(), (b.Count() + 1) % 2;
    && Shaped(b)
    && (forall p <- b.published :: |p| == b.width)
    && b.sequence == Wrap(n)
    && b.slot == (if b.publisher.Switched? then o else n % 2)
    && (n == 0 ==> b.slots[0][0] == 0)
    && (n > 0 ==> b.slots[n % 2] == Image(n, b.published[n - 1]))
    && (b.publisher.Resting? || b.publisher.Writing? ==> b.slots[o][0] == Wrap(if n > 0 then n - 1 else 0))
    && (b.publisher.Writing? ==>
          forall k | 1 <= k <= b.width && k !in b.publisher.left :: b.slots[o][k] == b.publisher.payload[k - 1])
    && (b.publisher.Stamped? || b.publisher.Switched? ==> b.slots[o] == Image(n + 1, b.publisher.payload))
  }

  /** What a copy holds as long as no publish completed since its sequence was loaded. */
  ghost predicate ReaderInv(b: Bridge) {
    match b.reader
    case Away => true
    case Loaded(at, overlapped) =>
      0 < at <= b.Count() && (!overlapped ==> b.publisher.Resting? && b.Count() == at)
    case Copying(at, overlapped, slot, left, out) =>
      && Shaped(b) && 0 < at <= b.Count() && |b.published[at - 1]| == b.width
      && (!overlapped ==> b.publisher.Resting? && b.Count() == at && slot == at % 2)
      && (b.Count() == at && slot == at % 2 ==>
            forall k | 0 <= k <= b.width && k !in left :: out[k] == Image(at, b.published[at - 1])[k])
      && (b.Count() == at && slot != at % 2 && 0 !in left ==> out[0] != Wrap(at))
  }

  /** A returned frame is exactly frame number `at`, unless WRAP publishes completed during its copy. */
  ghost predicate Genuine(b: Bridge, r: Returned) {
    && 0 < r.at <= r.confirmedAt <= b.Count()
    && (r.confirmedAt - r.at < WRAP ==> r.frame == Image(r.at, b.published[r.at - 1]))
  }

  ghost predicate HistoryInv(b: Bridge) {
    && (forall p <- b.published :: |p| == b.width)
    && (forall i | 0 <= i < |b.returned| :: Genuine(b, b.returned[i]))
    && (forall i, j | 0 <= i < j < |b.returned| :: b.returned[i].at < b.returned[j].at)
    && b.lastSequence == (if b.returned == [] then 0 else Wrap(b.returned[|b.returned| - 1].at))
    && (!b.reader.Away? ==> forall i | 0 <= i < |b.returned| :: b.returned[i].at < b.reader.at)
  }

  ghost predicate Inv(b: Bridge) { PublisherInv(b) && ReaderInv(b) && HistoryInv(b) }

  lemma PublisherInvAfterStamp(b: Bridge)
    requires PublisherInv(b) && Enabled(b, Stamp)
    ensures PublisherInv(PublisherStep(b, Stamp))
  {
    hide Wrap, Upto;
    var o := Target(b);
    WrapNext(b.Count());
    assert PublisherStep(b, Stamp).slots[o] == Image(b.Count() + 1, b.publisher.payload);
  }

  lemma PublisherInvAfterAnnounce(b: Bridge)
    requires PublisherInv(b) && Enabled(b, Announce)
    ensures PublisherInv(PublisherStep(b, Announce))
  {
    WrapNext(b.Count());
    assert (b.Count() + 2) % 2 == b.Count() % 2;
  }

  lemma PublisherInvAfterWrite(b: Bridge, k: nat)
    requires PublisherInv(b) && Enabled(b, WriteWord(k))
    ensures PublisherInv(PublisherStep(b, WriteWord(k)))
  {}

  lemma PublisherInvAfterSwitch(b: Bridge)
    requires PublisherInv(b) && Enabled(b, Switch)
    ensures PublisherInv(PublisherStep(b, Switch))
  {}

  lemma PublisherInvAfterPublish(b: Bridge, payload: Words)
    requires PublisherInv(b) && Enabled(b, Publish(payload))
    ensures PublisherInv(PublisherStep(b, Publish(payload)))
  {}

  lemma ReaderWritesNothing(b: Bridge, a: Action)
    requires Shaped(b) && Enabled(b, a) && !ByPublisher(a)
    ensures var t := ReaderStep(b, a);
      && Shaped(t) && t.width == b.width && t.slots == b.slots && t.slot == b.slot && t.sequence == b.sequence
      && t.publisher == b.publisher && t.published == b.published
  {}

  lemma PublisherInvAfterReader(b: Bridge, t: Bridge)
    requires PublisherInv(b) && Shaped(t)
    requires t.width == b.width && t.slots == b.slots && t.slot == b.slot && t.sequence == b.sequence
    requires t.publisher == b.publisher && t.published == b.published
    ensures PublisherInv(t)
  {}

  lemma PublisherInvShapes(b: Bridge)
    requires PublisherInv(b)
    ensures Shaped(b)
  {}

  lemma PublisherInvKept(b: Bridge, a: Action)
    requires PublisherInv(b) && Enabled(b, a)
    ensures PublisherInv(Apply(b, a))
  {
    hide PublisherInv, Wrap, Upto;
    PublisherInvShapes(b);
    if ByPublisher(a) {
      match a {
        case Announce => PublisherInvAfterAnnounce(b);
        case Stamp => PublisherInvAfterStamp(b);
        case WriteWord(k) => PublisherInvAfterWrite(b, k);
        case Switch => PublisherInvAfterSwitch(b);
        case Publish(payload) => PublisherInvAfterPublish(b, payload);
      }
      OnlyReaderDiffers(PublisherStep(b, a), Overlap(b.reader));
    } else {
      ReaderWritesNothing(b, a);
      PublisherInvAfterReader(b, ReaderStep(b, a));
    }
  }

  lemma OnlyReaderDiffers(b: Bridge, r: Reader)
    requires PublisherInv(b)
    requires r == b.reader || r == Overlap(b.reader)
    ensures PublisherInv(b.(reader := r))
  {}

  lemma ReaderInvKeptByPublisher(b: Bridge, a: Action)
    requires PublisherInv(b) && ReaderInv(b) && Enabled(b, a) && ByPublisher(a)
    ensures ReaderInv(Apply(b, a))
  {
    PublisherInvKept(b, a);
  }

  lemma ReaderInvAfterCopy(b: Bridge, k: nat)
    requires PublisherInv(b) && ReaderInv(b) && Enabled(b, CopyWord(k))
    ensures ReaderInv(ReaderStep(b, CopyWord(k)))
  {
    hide Upto, Wrap;
    var at, o := b.reader.at, (b.Count() + 1) % 2;
    if b.Count() == at {
      WrapDiffers(at, at - 1);
      WrapDiffers(at + 1, at);
      assert b.slots[o][0] == Wrap(at - 1) || b.slots[o][0] == Wrap(at + 1);
    }
  }

  lemma ReaderInvKeptByReader(b: Bridge, a: Action)
    requires PublisherInv(b) && ReaderInv(b) && Enabled(b, a) && !ByPublisher(a)
    ensures ReaderInv(Apply(b, a))
  {
    match a
    case CopyWord(k) => ReaderInvAfterCopy(b, k);
    case _ =>
  }

  /** A copy that passes both checks is the frame it claims to be. */
  lemma ConfirmedCopyIsWhole(b: Bridge)
    requires PublisherInv(b) && ReaderInv(b) && Enabled(b, Confirm)
    requires b.sequence == Wrap(b.reader.at) && b.reader.out[0] == Wrap(b.reader.at)
    requires b.Count() - b.reader.at < WRAP
    ensures b.reader.out == Image(b.reader.at, b.published[b.reader.at - 1])
  {
    if b.Count() > b.reader.at { WrapDiffers(b.Count(), b.reader.at); }
  }

  lemma PublisherShapes(b: Bridge)
    requires PublisherInv(b)
    ensures Shaped(b)
  {}

  lemma HistoryInvAfterConfirm(b: Bridge)
    requires PublisherInv(b) && ReaderInv(b) && HistoryInv(b) && Enabled(b, Confirm)
    ensures HistoryInv(ReaderStep(b, Confirm))
  {
    hide PublisherInv, ReaderInv, HistoryInv, Genuine, Wrap, Upto;
    PublisherShapes(b);
    var r := b.reader;
    if b.sequence == Wrap(r.at) && r.out[0] == Wrap(r.at) {
      ConfirmedIsGenuine(b);
      HistoryGrows(b, Returned(r.at, b.Count(), r.out));
    } else {
      HistoryInvAfterRetry(b);
    }
  }

  lemma ConfirmedIsGenuine(b: Bridge)
    requires PublisherInv(b) && ReaderInv(b) && Enabled(b, Confirm)
    requires b.sequence == Wrap(b.reader.at) && b.reader.out[0] == Wrap(b.reader.at)
    ensures Genuine(b, Returned(b.reader.at, b.Count(), b.reader.out))
  {
    if b.Count() - b.reader.at < WRAP { ConfirmedCopyIsWhole(b); }
  }

  lemma HistoryInvAfterRetry(b: Bridge)
    requires HistoryInv(b)
    ensures HistoryInv(b.(reader := Away, retries := b.retries + 1))
  {
    var t := b.(reader := Away, retries := b.retries + 1);
    forall i | 0 <= i < |b.returned| ensures Genuine(t, t.returned[i]) { assert Genuine(b, b.returned[i]); }
  }

  lemma HistoryGrows(b: Bridge, r: Returned)
    requires HistoryInv(b) && !b.reader.Away? && r.at == b.reader.at && Genuine(b, r)
    ensures HistoryInv(b.(lastSequence := Wrap(r.at), returned := b.returned + [r], reader := Away))
  {}

  lemma NewerThanReturned(b: Bridge)
    requires HistoryInv(b) && b.sequence == Wrap(b.Count()) && b.sequence != b.lastSequence
    ensures forall i | 0 <= i < |b.returned| :: b.returned[i].at < b.Count()
  {
    if b.returned != [] {
      var last := |b.returned| - 1;
      assert Genuine(b, b.returned[last]);
    }
  }

  lemma HistoryInvAfterLoad(b: Bridge)
    requires PublisherInv(b) && HistoryInv(b) && Enabled(b, Load)
    ensures HistoryInv(ReaderStep(b, Load))
  {
    if b.sequence != b.lastSequence {
      NewerThanReturned(b);
      OthersKeepGenuine(b, Loaded(b.Count(), !b.publisher.Resting?));
    }
  }

  lemma OthersKeepGenuine(b: Bridge, r: Reader)
    requires HistoryInv(b) && (!r.Away? ==> forall i | 0 <= i < |b.returned| :: b.returned[i].at < r.at)
    ensures HistoryInv(b.(reader := r))
  {
    forall i | 0 <= i < |b.returned| ensures Genuine(b.(reader := r), b.returned[i]) {
      assert Genuine(b, b.returned[i]);
    }
  }

  lemma HistoryInvAfterPublisher(b: Bridge, t: Bridge)
    requires HistoryInv(b) && b.published <= t.published && t.returned == b.returned && t.lastSequence == b.lastSequence
    requires forall p <- t.published :: |p| == b.width
    requires t.width == b.width && t.reader == Overlap(b.reader)
    ensures HistoryInv(t)
  {
    forall i | 0 <= i < |t.returned| ensures Genuine(t, t.returned[i]) {
      assert Genuine(b, b.returned[i]);
      assert t.published[b.returned[i].at - 1] == b.published[b.returned[i].at - 1];
    }
  }

  lemma HistoryInvKept(b: Bridge, a: Action)
    requires PublisherInv(b) && ReaderInv(b) && HistoryInv(b) && Enabled(b, a)
    ensures HistoryInv(Apply(b, a))
  {
    hide Wrap, Upto;
    if ByPublisher(a) {
      PublisherInvKept(b, a);
      HistoryInvAfterPublisher(b, Apply(b, a));
    } else {
      match a
      case Confirm => HistoryInvAfterConfirm(b);
      case Load => HistoryInvAfterLoad(b);
      case _ => HistoryInvAfterCopying(b, a);
    }
  }

  lemma HistoryInvAfterCopying(b: Bridge, a: Action)
    requires Shaped(b) && HistoryInv(b) && Enabled(b, a) && (a.Pick? || a.CopyWord?)
    ensures HistoryInv(ReaderStep(b, a))
  {
    hide Upto, Genuine;
    var t := ReaderStep(b, a);
    assert t == b.(reader := t.reader) && t.reader.at == b.reader.at;
    OthersKeepGenuine(b, t.reader);
  }

  // ---- Runs ----

  ghost predicate Possible(b: Bridge, run: seq<Action>)
    decreases |run|, 0
  {
    run == [] ||
    (var before := run[..|run| - 1];
     Possible(b, before) && Shaped(After(b, before)) && Enabled(After(b, before), run[|run| - 1]))
  }

  ghost function After(b: Bridge, run: seq<Action>): Bridge
    requires Possible(b, run)
    decreases |run|, 1
  {
    if run == [] then b else Apply(After(b, run[..|run| - 1]), run[|run| - 1])
  }

  lemma {:induction false} InvOverRuns(width: nat, run: seq<Action>)
    requires Possible(Boot(width), run)
    ensures Inv(After(Boot(width), run)) && After(Boot(width), run).width == width
    decreases |run|
  {
    if run == [] {
      WrapNext(0);
    } else {
      var before, a := run[..|run| - 1], run[|run| - 1];
      InvOverRuns(width, before);
      InvKept(After(Boot(width), before), a);
    }
  }

  lemma InvKept(b: Bridge, a: Action)
    requires Inv(b) && Enabled(b, a)
    ensures Inv(Apply(b, a)) && Apply(b, a).width == b.width
  {
    PublisherInvKept(b, a);
    HistoryInvKept(b, a);
    if ByPublisher(a) { ReaderInvKeptByPublisher(b, a); } else { ReaderInvKeptByReader(b, a); }
  }

  /**
    Whatever the interleaving: each frame handed out is, word for word, one published frame (unless
    2^32 publishes completed during its copy), and their numbers strictly increase.
   */
  lemma ReturnedFramesArePublishedFrames(width: nat, run: seq<Action>)
    requires Possible(Boot(width), run)
    ensures var b := After(Boot(width), run);
      && (forall r <- b.returned | r.confirmedAt - r.at < WRAP ::
            0 < r.at <= b.Count() && r.frame == Image(r.at, b.published[r.at - 1]))
      && (forall i, j | 0 <= i < j < |b.returned| :: b.returned[i].at < b.returned[j].at)
  {
    hide Possible, After, PublisherInv, ReaderInv, Genuine, Boot;
    InvOverRuns(width, run);
    var b := After(Boot(width), run);
    GenuineFrames(b);
  }

  lemma GenuineFrames(b: Bridge)
    requires HistoryInv(b)
    ensures forall r <- b.returned | r.confirmedAt - r.at < WRAP ::
      0 < r.at <= b.Count() && r.frame == Image(r.at, b.published[r.at - 1])
    ensures forall i, j | 0 <= i < j < |b.returned| :: b.returned[i].at < b.returned[j].at
  {
    forall r <- b.returned | r.confirmedAt - r.at < WRAP
      ensures 0 < r.at <= b.Count() && r.frame == Image(r.at, b.published[r.at - 1])
    {
      var i :| 0 <= i < |b.returned| && b.returned[i] == r;
      assert Genuine(b, b.returned[i]);
    }
  }

  /** A retry means the publisher was at work during the attempt. */
  lemma RetryOnlyUnderOverlap(width: nat, run: seq<Action>)
    requires Possible(Boot(width), run)
    requires Enabled(After(Boot(width), run), Confirm)
    requires !After(Boot(width), run).reader.overlapped
    ensures var b := After(Boot(width), run);
      Shaped(b) && ReaderStep(b, Confirm).retries == b.retries && |ReaderStep(b, Confirm).returned| == |b.returned| + 1
  {
    InvOverRuns(width, run);
  }
}
