/**
  Why the bridge needs fewer than 2^32 publishes per copy: a run in which the sequence wraps all the
  way round during one copy, and the confirmed frame mixes two published ones.
 */
module StreamBridgeWrap {
  import opened StreamBridge

  ghost predicate Reachable(b: Bridge) {
    exists run :: Possible(Boot(2), run) && After(Boot(2), run) == b
  }

  lemma ReachableIsSound(b: Bridge)
    requires Reachable(b)
    ensures Inv(b) && b.width == 2
  {
    var run :| Possible(Boot(2), run) && After(Boot(2), run) == b;
    InvOverRuns(2, run);
  }

  lemma Reach(b: Bridge, a: Action)
    requires Reachable(b) && Enabled(b, a)
    ensures Shaped(b) && Reachable(Apply(b, a))
  {
    ReachableIsSound(b);
    hide Inv, Apply, Enabled;
    var run :| Possible(Boot(2), run) && After(Boot(2), run) == b;
    assert (run + [a])[..|run + [a]| - 1] == run;
    assert Possible(Boot(2), run + [a]) && After(Boot(2), run + [a]) == Apply(b, a);
  }

  /** Frame n carries its own number twice. */
  function Payload(n: nat): Words { [n, n] }

  ghost predicate Numbered(b: Bridge) {
    forall k | 0 <= k < b.Count() :: b.published[k] == Payload(k + 1)
  }

  /** A publish up to its filled slot; a copy in progress is only marked as overlapped. */
  lemma FillSlot(b: Bridge) returns (t: Bridge)
    requires Reachable(b) && b.publisher.Resting?
    ensures Reachable(t) && t.publisher.Writing? && t.publisher.payload == Payload(b.Count() + 1) && t.publisher.left == {}
    ensures t.published == b.published && t.returned == b.returned && t.reader == Overlap(b.reader) && t.lastSequence == b.lastSequence
  {
    ReachableIsSound(b);
    Reach(b, Publish(Payload(b.Count() + 1)));
    t := Apply(b, Publish(Payload(b.Count() + 1)));
    Reach(t, WriteWord(1));
    t := Apply(t, WriteWord(1));
    assert t.publisher.left == {2};
    Reach(t, WriteWord(2));
    t := Apply(t, WriteWord(2));
    assert t.publisher.left == {};
  }

  lemma PublishOne(b: Bridge) returns (t: Bridge)
    requires Reachable(b) && b.publisher.Resting? && Numbered(b)
    ensures Reachable(t) && t.publisher.Resting? && Numbered(t) && t.Count() == b.Count() + 1
    ensures t.reader == Overlap(b.reader) && t.returned == b.returned && t.lastSequence == b.lastSequence
  {
    hide Reachable, Numbered, Wrap, Next;
    t := FillSlot(b);
    Reach(t, Stamp);
    t := Apply(t, Stamp);
    Reach(t, Switch);
    t := Apply(t, Switch);
    Reach(t, Announce);
    t := Apply(t, Announce);
    OneMoreNumbered(b, t);
  }

  lemma OneMoreNumbered(b: Bridge, t: Bridge)
    requires Numbered(b) && t.published == b.published + [Payload(b.Count() + 1)]
    ensures Numbered(t) && t.Count() == b.Count() + 1
  {}

  lemma {:induction false} PublishMany(b: Bridge, n: nat) returns (t: Bridge)
    requires Reachable(b) && b.publisher.Resting? && Numbered(b) && b.reader == Overlap(b.reader)
    ensures Reachable(t) && t.publisher.Resting? && Numbered(t) && t.Count() == b.Count() + n
    ensures t.reader == b.reader && t.returned == b.returned
  {
    t := b;
    if n > 0 {
      t := PublishMany(b, n - 1);
      t := PublishOne(t);
    }
  }

  lemma PickLatest(b: Bridge) returns (t: Bridge)
    requires Reachable(b) && b.publisher.Resting? && b.reader.Away? && b.Count() == 1 && b.lastSequence == 0
    ensures Reachable(t) && t == b.(reader := Copying(1, false, 1, Upto(2), [0, 0, 0]))
  {
    ReachableIsSound(b);
    assert Wrap(1) == 1 && b.sequence == 1;
    hide Reachable, Inv, Wrap, Upto;
    Reach(b, Load);
    t := ReaderStep(b, Load);
    assert t == b.(reader := Loaded(1, false));
    Reach(t, Pick);
    t := ReaderStep(t, Pick);
    assert Zeros(3) == [0, 0, 0];
  }

  /** Frame 1 is out and the reader has picked its slot. */
  lemma PickFirstFrame() returns (t: Bridge)
    ensures Reachable(t) && t.publisher.Resting? && Numbered(t) && t.Count() == 1 && t.returned == []
    ensures t.reader == Copying(1, false, 1, Upto(2), [0, 0, 0])
  {
    assert Possible(Boot(2), []) && After(Boot(2), []) == Boot(2);
    t := PublishOne(Boot(2));
    t := PickLatest(t);
  }

  /** One word of frame 1 is copied; then a publish overlaps. */
  lemma CopyOneWord() returns (t: Bridge)
    ensures Reachable(t) && t.publisher.Resting? && Numbered(t) && t.Count() == 2 && t.returned == []
    ensures t.reader == Copying(1, true, 1, {0, 2}, [0, 1, 0])
  {
    t := PickFirstFrame();
    ReachableIsSound(t);
    assert t.slots[1] == Image(1, Payload(1));
    Reach(t, CopyWord(1));
    t := ReaderStep(t, CopyWord(1));
    assert t.reader == Copying(1, false, 1, {0, 2}, [0, 1, 0]);
    t := PublishOne(t);
  }

  /** The rest of the copy, after the sequence has come round. */
  lemma CopyTheRest(b: Bridge) returns (t: Bridge)
    requires Reachable(b) && b.publisher.Resting? && Numbered(b) && b.Count() == WRAP + 1 && b.returned == []
    requires b.reader == Copying(1, true, 1, {0, 2}, [0, 1, 0])
    ensures Reachable(t) && t.published == b.published && t.publisher.Resting? && t.returned == []
    ensures t.reader == Copying(1, true, 1, {}, [1, 1, WRAP + 1]) && t.sequence == 1
  {
    hide Reachable, Wrap;
    ReachableIsSound(b);
    WrapIsRemainder(WRAP + 1);
    assert b.slots[1] == Image(WRAP + 1, Payload(WRAP + 1));
    Reach(b, CopyWord(2));
    t := ReaderStep(b, CopyWord(2));
    assert t.reader == Copying(1, true, 1, {0}, [0, 1, WRAP + 1]);
    Reach(t, CopyWord(0));
    t := ReaderStep(t, CopyWord(0));
    assert t.reader.out == [1, 1, WRAP + 1] && t.reader.left == {};
  }

  /** Exactly 2^32 publishes during the copy: what is handed out is no published frame. */
  lemma WrappedCopyIsTorn() returns (t: Bridge)
    ensures Reachable(t) && |t.returned| == 1
    ensures t.returned[0].at == 1 && t.returned[0].confirmedAt - t.returned[0].at == WRAP
    ensures forall k | 0 <= k < t.Count() :: t.returned[0].frame != Image(k + 1, t.published[k])
  {
    hide Reachable;
    t := CopyOneWord();
    t := PublishMany(t, WRAP - 1);
    t := CopyTheRest(t);
    assert Wrap(1) == 1;
    Reach(t, Confirm);
    t := ReaderStep(t, Confirm);
    forall k | 0 <= k < t.Count() ensures t.returned[0].frame != Image(k + 1, t.published[k]) {
      assert t.published[k] == Payload(k + 1);
      assert t.returned[0].frame == [1, 1, WRAP + 1];
      assert Image(k + 1, Payload(k + 1))[1] == Image(k + 1, Payload(k + 1))[2];
    }
  }
}
