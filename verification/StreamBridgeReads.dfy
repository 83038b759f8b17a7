/** What a reader of the bridge gets while the publisher rests: the latest frame, once, or nothing. */
module StreamBridgeReads {
  import opened Arithmetic
  import opened StreamBridge

  /** The count is not a whole number of turns, nor that many past the frame handed out last. */
  predicate HasNews(b: Bridge) {
    b.Count() % WRAP != 0 && (b.returned == [] || (b.Count() - b.returned[|b.returned| - 1].at) % WRAP != 0)
  }

  /** The last frame published, word for word. */
  function LatestFrame(b: Bridge): Words
    requires b.Count() > 0
  {
    Image(b.Count(), b.published[b.Count() - 1])
  }

  /** `b` with that frame handed out. */
  function Served(b: Bridge): Bridge
    requires b.Count() > 0
  {
    b.(lastSequence := b.sequence, returned := b.returned + [Returned(b.Count(), b.Count(), LatestFrame(b))])
  }

  ghost predicate Still(b: Bridge) { Inv(b) && b.publisher.Resting? && b.reader.Away? }

  /** Where a reader that runs alone from `b` can be. */
  ghost predicate Alone(b: Bridge, t: Bridge) {
    || t == b
    || (HasNews(b) && (t == b.(reader := Loaded(b.Count(), false)) || Half(b, t) || t == Served(b)))
  }

  ghost predicate Half(b: Bridge, t: Bridge) {
    && t.reader.Copying? && t == b.(reader := t.reader)
    && t.reader.at == b.Count() && !t.reader.overlapped && t.reader.slot == b.Count() % 2
  }

  lemma NewsIsSeen(b: Bridge)
    requires PublisherInv(b) && HistoryInv(b)
    ensures HasNews(b) <==> b.sequence != 0 && b.sequence != b.lastSequence
  {
    var n := b.Count();
    WrapIsRemainder(n);
    if b.returned != [] {
      var last := b.returned[|b.returned| - 1];
      assert Genuine(b, last);
      WrapIsRemainder(last.at);
      SameRemainder(n, last.at);
    }
  }

  lemma SameRemainder(a: nat, b: nat)
    requires b <= a
    ensures (a - b) % WRAP == 0 <==> a % WRAP == b % WRAP
  {
    var q, m := b / WRAP, b % WRAP;
    var p := (a - b) / WRAP;
    assert b == q * WRAP + m && a - b == p * WRAP + (a - b) % WRAP;
    if (a - b) % WRAP == 0 {
      assert a == (p + q) * WRAP + m;
      UniqueRemainder(a, WRAP, p + q, m);
    }
    if a % WRAP == m {
      var d := a / WRAP - q;
      assert a - b == d * WRAP + 0;
      RemainderOfSum(d, WRAP, 0);
    }
  }

  /** Once the frame is out there is nothing new. */
  lemma ServedHasNoNews(b: Bridge)
    requires b.Count() > 0
    ensures !HasNews(Served(b))
  {}

  lemma WholeCopy(b: Bridge, t: Bridge)
    requires PublisherInv(b) && ReaderInv(t) && b.publisher.Resting? && b.Count() > 0 && Half(b, t) && t.reader.left == {}
    ensures t.reader.out == LatestFrame(b)
  {
    assert |LatestFrame(b)| == b.width + 1;
  }

  lemma ConfirmServes(b: Bridge, t: Bridge)
    requires PublisherInv(b) && ReaderInv(t) && b.publisher.Resting? && b.reader.Away? && b.Count() > 0
    requires Half(b, t) && t.reader.left == {} && Shaped(t)
    ensures ReaderStep(t, Confirm) == Served(b)
  {
    hide PublisherInv;
    WholeCopy(b, t);
    assert b.sequence == Wrap(b.Count()) by { SequenceIsCount(b); }
  }

  lemma SequenceIsCount(b: Bridge)
    requires PublisherInv(b)
    ensures b.sequence == Wrap(b.Count())
  {}

  lemma SlotIsCount(b: Bridge)
    requires PublisherInv(b) && b.publisher.Resting?
    ensures b.slot == b.Count() % 2
  {}

  lemma NewsNeedsFrames(b: Bridge)
    requires HasNews(b)
    ensures b.Count() > 0
  {}

  lemma LoadAlone(b: Bridge, t: Bridge)
    requires Still(b) && Inv(t) && Alone(b, t) && t.reader.Away?
    ensures ReaderStep(t, Load) == if HasNews(b) && t == b then b.(reader := Loaded(b.Count(), false)) else t
  {
    NewsIsSeen(t);
    if t != b { ServedHasNoNews(b); }
  }

  /** Each step of a reader that runs alone. */
  lemma StepAlone(b: Bridge, t: Bridge, a: Action)
    requires Still(b) && Inv(t) && Alone(b, t) && Enabled(t, a) && !ByPublisher(a)
    ensures Alone(b, Apply(t, a))
    ensures a == Confirm ==> Apply(t, a) == Served(b)
  {
    hide PublisherInv, HistoryInv, HasNews, Upto;
    match a {
      case Load =>
        hide ReaderStep;
        LoadAlone(b, t);
      case Pick => SlotIsCount(b);
      case CopyWord(_) =>
      case Confirm =>
        hide ReaderStep;
        NewsOfAlone(b, t);
        ConfirmServes(b, t);
    }
  }

  lemma NewsOfAlone(b: Bridge, t: Bridge)
    requires Alone(b, t) && t != b
    ensures HasNews(b) && b.Count() > 0
  {}

  ghost predicate OnlyReads(run: seq<Action>) { forall a <- run :: !ByPublisher(a) }

  lemma {:induction false} RunAlone(b: Bridge, run: seq<Action>)
    requires Still(b) && OnlyReads(run) && Possible(b, run)
    ensures Inv(After(b, run)) && Alone(b, After(b, run))
    decreases |run|
  {
    hide Inv, Alone, Apply;
    if run != [] {
      var before, a := run[..|run| - 1], run[|run| - 1];
      assert a in run;
      RunAlone(b, before);
      InvKept(After(b, before), a);
      StepAlone(b, After(b, before), a);
    } else {
      assert Alone(b, b) by { NothingYet(b); }
    }
  }

  lemma NothingYet(b: Bridge)
    ensures Alone(b, b)
  {}

  /**
    While the publisher rests: a call that comes to its end hands out the latest frame, word for word,
    exactly if there is news; and whatever is called how often, no other frame and none twice.
   */
  lemma ReadsGiveTheLatestFrame(b: Bridge, run: seq<Action>)
    requires Still(b) && OnlyReads(run) && Possible(b, run) && After(b, run).reader.Away?
    ensures After(b, run) == b || (HasNews(b) && After(b, run) == Served(b))
    ensures Confirm in run ==> HasNews(b) && After(b, run) == Served(b)
    ensures !HasNews(b) ==> After(b, run) == b
  {
    RunAlone(b, run);
    if Confirm in run { ConfirmedServes(b, run); }
  }

  lemma {:induction false} ConfirmedServes(b: Bridge, run: seq<Action>)
    requires Still(b) && OnlyReads(run) && Possible(b, run) && Confirm in run
    ensures HasNews(b) && After(b, run) == Served(b)
    decreases |run|
  {
    hide Inv, Alone, Apply, HasNews;
    var before, a := run[..|run| - 1], run[|run| - 1];
    var t := After(b, before);
    RunAlone(b, before);
    if a == Confirm {
      InvKept(t, a);
      StepAlone(b, t, a);
      ConfirmIsNews(b, t);
    } else {
      assert Confirm in before && a in run;
      ConfirmedServes(b, before);
      NewsNeedsFrames(b);
      InvKept(t, a);
      ServedStays(b, t, a);
    }
  }

  lemma ConfirmIsNews(b: Bridge, t: Bridge)
    requires Still(b) && Alone(b, t) && Enabled(t, Confirm)
    ensures HasNews(b)
  {}

  lemma ServedStays(b: Bridge, t: Bridge, a: Action)
    requires Still(b) && Inv(t) && b.Count() > 0 && t == Served(b) && Enabled(t, a) && !ByPublisher(a)
    ensures Apply(t, a) == t
  {
    NewsIsSeen(t);
    ServedHasNoNews(b);
  }

  // ---- A call comes to its end ----

  lemma OneMore(b: Bridge, run: seq<Action>, a: Action)
    requires Possible(b, run) && Shaped(After(b, run)) && Enabled(After(b, run), a)
    ensures Possible(b, run + [a]) && After(b, run + [a]) == Apply(After(b, run), a)
  {
    assert (run + [a])[..|run + [a]| - 1] == run;
  }

  /** With news, a started copy can always be finished. */
  lemma {:induction false} FinishCopy(b: Bridge, run: seq<Action>) returns (more: seq<Action>)
    requires Still(b) && HasNews(b) && OnlyReads(run) && Possible(b, run) && After(b, run).reader.Copying?
    ensures OnlyReads(more) && Possible(b, more) && Confirm in more && After(b, more).reader.Away?
    decreases |After(b, run).reader.left|
  {
    hide Inv, Possible, Alone;
    RunAlone(b, run);
    var t := After(b, run);
    ShapedInv(t);
    if t.reader.left == {} {
      more := run + [Confirm];
      OneMore(b, run, Confirm);
    } else {
      var k :| k in t.reader.left;
      OneMore(b, run, CopyWord(k));
      CopyShrinks(t, k);
      more := FinishCopy(b, run + [CopyWord(k)]);
    }
  }

  lemma ShapedInv(b: Bridge)
    requires Inv(b)
    ensures Shaped(b)
  {}

  lemma CopyShrinks(t: Bridge, k: nat)
    requires Shaped(t) && Enabled(t, CopyWord(k))
    ensures Apply(t, CopyWord(k)).reader.Copying? && |Apply(t, CopyWord(k)).reader.left| < |t.reader.left|
  {
    assert t.reader.left == (t.reader.left - {k}) + {k};
  }

  /** So with news there is a call, of reader actions alone, that hands out the latest frame. */
  lemma NewsIsServed(b: Bridge) returns (run: seq<Action>)
    requires Still(b) && HasNews(b)
    ensures OnlyReads(run) && Possible(b, run) && After(b, run) == Served(b)
  {
    ShapedInv(b);
    NewsIsSeen(b);
    assert Possible(b, []) && After(b, []) == b;
    OneMore(b, [], Load);
    assert [] + [Load] == [Load];
    var loaded := After(b, [Load]);
    OneMore(b, [Load], Pick);
    run := FinishCopy(b, [Load] + [Pick]);
    ReadsGiveTheLatestFrame(b, run);
  }

  // ---- And a publish ----

  ghost predicate OnlyPublishes(run: seq<Action>) { forall a <- run :: ByPublisher(a) }

  lemma WriteShrinks(t: Bridge, k: nat)
    requires Shaped(t) && Enabled(t, WriteWord(k))
    ensures var u := Apply(t, WriteWord(k));
      && u.publisher.Writing? && u.publisher.payload == t.publisher.payload && u.published == t.published
      && |u.publisher.left| < |t.publisher.left|
  {
    assert t.publisher.left == (t.publisher.left - {k}) + {k};
  }

  /** A started publish can always be finished, and publishes what it was given. */
  lemma {:induction false} FinishPublish(b: Bridge, run: seq<Action>) returns (more: seq<Action>)
    requires Inv(b) && OnlyPublishes(run) && Possible(b, run)
    requires After(b, run).publisher.Writing? && After(b, run).published == b.published
    ensures OnlyPublishes(more) && Possible(b, more) && After(b, more).publisher.Resting?
    ensures After(b, more).published == b.published + [After(b, run).publisher.payload]
    decreases |After(b, run).publisher.left|
  {
    hide Inv, Possible;
    InvAfter(b, run);
    var t := After(b, run);
    ShapedInv(t);
    if t.publisher.left == {} {
      more := LastSteps(b, run);
    } else {
      var k :| k in t.publisher.left;
      OneMore(b, run, WriteWord(k));
      WriteShrinks(t, k);
      more := FinishPublish(b, run + [WriteWord(k)]);
    }
  }

  lemma {:induction false} InvAfter(b: Bridge, run: seq<Action>)
    requires Inv(b) && Possible(b, run)
    ensures Inv(After(b, run))
    decreases |run|
  {
    hide Inv, Apply, Enabled;
    if run != [] {
      InvAfter(b, run[..|run| - 1]);
      InvKept(After(b, run[..|run| - 1]), run[|run| - 1]);
    }
  }

  lemma LastSteps(b: Bridge, run: seq<Action>) returns (more: seq<Action>)
    requires Inv(b) && OnlyPublishes(run) && Possible(b, run)
    requires After(b, run).publisher.Writing? && After(b, run).publisher.left == {} && After(b, run).published == b.published
    ensures OnlyPublishes(more) && Possible(b, more) && After(b, more).publisher.Resting?
    ensures After(b, more).published == b.published + [After(b, run).publisher.payload]
  {
    hide Inv, Possible, After, Next;
    InvAfter(b, run);
    ShapedInv(After(b, run));
    OneMore(b, run, Stamp);
    InvAfter(b, run + [Stamp]);
    ShapedInv(After(b, run + [Stamp]));
    OneMore(b, run + [Stamp], Switch);
    InvAfter(b, run + [Stamp] + [Switch]);
    ShapedInv(After(b, run + [Stamp] + [Switch]));
    OneMore(b, run + [Stamp] + [Switch], Announce);
    more := run + [Stamp] + [Switch] + [Announce];
  }

  /** From rest, publisher actions alone publish any frame of the right width. */
  lemma PublishCompletes(b: Bridge, payload: Words) returns (run: seq<Action>)
    requires Inv(b) && b.publisher.Resting? && |payload| == b.width
    ensures OnlyPublishes(run) && Possible(b, run)
    ensures After(b, run).publisher.Resting? && After(b, run).published == b.published + [payload]
  {
    ShapedInv(b);
    assert Possible(b, []) && After(b, []) == b;
    OneMore(b, [], Publish(payload));
    run := FinishPublish(b, [] + [Publish(payload)]);
  }
}
