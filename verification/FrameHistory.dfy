/**
  Vision encodes of earlier frames, kept only as long as they can still be wanted. The results compare
  the pruned history with `accepted`, everything that ever joined it.
 */
module FrameHistory {
  import opened Arithmetic

  datatype Entry<E> = Entry(t: int, enc: E)

  datatype Found<E> = Nothing | Found(enc: E, age: real)

  function Age(now: int, t: int): real { (now - t) as real / 1000000000.0 }

  /** How far an entry is from being `lag` old. */
  function Miss<E>(e: Entry<E>, now: int, lag: real): real { Abs(Age(now, e.t) - lag) }

  /** Index of the first closest entry. */
  function Best<E>(es: seq<Entry<E>>, now: int, lag: real): (i: nat)
    requires es != []
    ensures i < |es|
  {
    if |es| == 1 then 0 else
    var n := |es| - 1;
    var i := Best(es[..n], now, lag);
    if Miss(es[n], now, lag) < Miss(es[i], now, lag) then n else i
  }

  function Answer<E>(es: seq<Entry<E>>, now: int, lag: real, tol: real): Found<E> {
    if es == [] then Nothing else
    var e := es[Best(es, now, lag)];
    if Miss(e, now, lag) <= tol then Found(e.enc, Age(now, e.t)) else Nothing
  }

  ghost predicate FirstClosest<E(!new)>(es: seq<Entry<E>>, i: int, now: int, lag: real) {
    && 0 <= i < |es|
    && (forall j | 0 <= j < |es| :: Miss(es[i], now, lag) <= Miss(es[j], now, lag))
    && (forall j | 0 <= j < i :: Miss(es[i], now, lag) < Miss(es[j], now, lag))
  }

  lemma {:induction false} BestIsFirstClosest<E(!new)>(es: seq<Entry<E>>, now: int, lag: real)
    requires es != []
    ensures FirstClosest(es, Best(es, now, lag), now, lag)
  {
    hide Miss;
    if |es| > 1 {
      var n := |es| - 1;
      BestIsFirstClosest(es[..n], now, lag);
      forall j | 0 <= j < n ensures es[..n][j] == es[j] {}
    }
  }

  lemma FirstClosestIsUnique<E(!new)>(es: seq<Entry<E>>, i: int, j: int, now: int, lag: real)
    requires FirstClosest(es, i, now, lag) && FirstClosest(es, j, now, lag)
    ensures i == j
  {
    assert Miss(es[i], now, lag) == Miss(es[j], now, lag);
  }

  // ---- Pruning ----

  ghost predicate InOrder<E(!new)>(es: seq<Entry<E>>) { forall i, j | 0 <= i < j < |es| :: es[i].t < es[j].t }

  /** Too old at time `now` to be within `tol` of the lag, then or ever after. */
  predicate Expired<E>(e: Entry<E>, now: int, lag: real, tol: real) { Age(now, e.t) > lag + tol }

  lemma ExpiredStaysOut<E>(e: Entry<E>, then_: int, now: int, lag: real, tol: real)
    requires Expired(e, then_, lag, tol) && then_ <= now
    ensures Miss(e, now, lag) > tol
  {
    AgesGrow(e.t, then_, now);
  }

  lemma AgesGrow(t: int, then_: int, now: int)
    requires then_ <= now
    ensures Age(then_, t) <= Age(now, t)
  {}

  /**
    An answer is the same with and without entries at the front that had expired by an earlier time.
   */
  lemma PrunedAnswerIsTheSame<E(!new)>(all: seq<Entry<E>>, k: nat, pruned: int, now: int, lag: real, tol: real)
    requires k < |all| && pruned <= now
    requires forall i | 0 <= i < k :: Expired(all[i], pruned, lag, tol)
    ensures Answer(all[k..], now, lag, tol) == Answer(all, now, lag, tol)
  {
    hide Miss, Expired, Age;
    var es := all[k..];
    forall i | 0 <= i < k ensures Miss(all[i], now, lag) > tol { ExpiredStaysOut(all[i], pruned, now, lag, tol); }
    BestIsFirstClosest(all, now, lag);
    BestIsFirstClosest(es, now, lag);
    var a, b := Best(all, now, lag), Best(es, now, lag);
    forall j | k <= j < |all| ensures all[j] == es[j - k] {}
    if Miss(all[a], now, lag) <= tol {
      assert FirstClosest(es, a - k, now, lag);
      FirstClosestIsUnique(es, a - k, b, now, lag);
    }
  }

  /** What an answer means in terms of the entries alone. */
  lemma AnswerIsTheClosest<E(!new)>(es: seq<Entry<E>>, now: int, lag: real, tol: real)
    ensures Answer(es, now, lag, tol).Nothing? <==> forall i | 0 <= i < |es| :: Miss(es[i], now, lag) > tol
    ensures Answer(es, now, lag, tol).Found? ==>
      exists i :: FirstClosest(es, i, now, lag) && Miss(es[i], now, lag) <= tol
                  && Answer(es, now, lag, tol) == Found(es[i].enc, Age(now, es[i].t))
  {
    hide Miss, Age;
    if es != [] { BestIsFirstClosest(es, now, lag); }
  }

  /** The front holds an answer that the rest cannot give. */
  predicate Forgets<E>(all: seq<Entry<E>>, k: nat, now: int, lag: real, tol: real)
    requires k < |all|
  {
    var best := Best(all, now, lag);
    best < k && Miss(all[best], now, lag) <= tol
  }

  /** For entries without equal times and at any time at all: exactly when leaving out the front shows. */
  lemma PruningShowsIff<E(!new)>(all: seq<Entry<E>>, k: nat, now: int, lag: real, tol: real)
    requires InOrder(all) && k < |all|
    ensures Answer(all[k..], now, lag, tol) != Answer(all, now, lag, tol) <==> Forgets(all, k, now, lag, tol)
  {
    hide Miss, Age;
    var es := all[k..];
    BestIsFirstClosest(all, now, lag);
    BestIsFirstClosest(es, now, lag);
    var a, b := Best(all, now, lag), Best(es, now, lag);
    forall j | k <= j < |all| ensures all[j] == es[j - k] {}
    if k <= a {
      assert FirstClosest(es, a - k, now, lag);
      FirstClosestIsUnique(es, a - k, b, now, lag);
    } else {
      AgesDiffer(all[a].t, es[b].t, now);
    }
  }

  lemma AgesDiffer(t: int, u: int, now: int)
    requires t < u
    ensures Age(now, t) != Age(now, u)
  {}

  /** Asked about a time before the last frame, the pruned history may have forgotten the answer. */
  lemma EarlierPickCanDiffer() returns (all: seq<Entry<bool>>, now: int)
    ensures InOrder(all) && |all| == 2 && now < all[1].t && Expired(all[0], all[1].t, 1.0, 0.15)
    ensures Forgets(all, 1, now, 1.0, 0.15)
    ensures Answer(all[1..], now, 1.0, 0.15) == Nothing && Answer(all, now, 1.0, 0.15) == Found(true, 1.0)
  {
    all, now := [Entry(0, true), Entry(2000000000, false)], 1000000000;
    assert all[..1] == [Entry(0, true)] && all[1..] == [Entry(2000000000, false)];
    assert Age(now, 0) == 1.0 && Age(now, 2000000000) == -1.0 && Age(2000000000, 0) == 2.0;
  }

  // ---- The object ----

  class History<E(!new)> {
    const lag: real
    const tol: real
    var entries: seq<Entry<E>>
    /** Every frame that ever joined, and how many of them are gone. */
    ghost var accepted: seq<Entry<E>>
    ghost var forgotten: nat

    ghost predicate Valid()
      reads this
    {
      && lag + tol >= 0.0 && InOrder(accepted)
      && forgotten <= |accepted| && entries == accepted[forgotten..]
      && (accepted != [] ==> entries != [])
      && forall i | 0 <= i < forgotten :: Expired(accepted[i], accepted[|accepted| - 1].t, lag, tol)
    }

    constructor (lag: real, tol: real)
      requires lag + tol >= 0.0
      ensures Valid() && accepted == [] && this.lag == lag && this.tol == tol
    {
      this.lag, this.tol := lag, tol;
      entries, accepted, forgotten := [], [], 0;
    }

    /** Joins unless it is not newer; what can never be picked again goes, but never the new frame. */
    method Push(t: int, enc: E)
      requires Valid()
      modifies this
      ensures Valid()
      ensures accepted == if old(accepted) != [] && t <= old(accepted)[|old(accepted)| - 1].t then old(accepted)
                          else old(accepted) + [Entry(t, enc)]
      ensures entries != []
    {
      hide Age, Expired, InOrder;
      if entries != [] && t <= entries[|entries| - 1].t { return; }
      OlderStaysExpired(accepted, forgotten, t);
      StaysInOrder(accepted, Entry(t, enc));
      entries := entries + [Entry(t, enc)];
      accepted := accepted + [Entry(t, enc)];
      Prune(t);
    }

    /** Drops the front as long as it is expired at the time of the newest entry. */
    method Prune(t: int)
      requires lag + tol >= 0.0 && accepted != [] && accepted[|accepted| - 1].t == t
      requires forgotten < |accepted| && entries == accepted[forgotten..]
      requires forall i | 0 <= i < forgotten :: Expired(accepted[i], t, lag, tol)
      modifies this`entries, this`forgotten
      ensures forgotten < |accepted| && entries == accepted[forgotten..]
      ensures forall i | 0 <= i < forgotten :: Expired(accepted[i], t, lag, tol)
    {
      hide Age;
      NewIsNotExpired(t);
      while Age(t, entries[0].t) > lag + tol
        invariant forgotten < |accepted| && entries == accepted[forgotten..]
        invariant forall i | 0 <= i < forgotten :: Expired(accepted[i], t, lag, tol)
        decreases |entries|
      {
        entries := entries[1..];
        forgotten := forgotten + 1;
      }
    }

    lemma StaysInOrder(before: seq<Entry<E>>, e: Entry<E>)
      requires InOrder(before) && (before != [] ==> before[|before| - 1].t < e.t)
      ensures InOrder(before + [e])
    {}

    lemma OlderStaysExpired(before: seq<Entry<E>>, k: nat, t: int)
      requires k <= |before| && (before != [] ==> before[|before| - 1].t <= t)
      requires forall i | 0 <= i < k :: Expired(before[i], before[|before| - 1].t, lag, tol)
      ensures forall i | 0 <= i < k :: Expired(before[i], t, lag, tol)
    {
      forall i | 0 <= i < k ensures Expired(before[i], t, lag, tol) {
        AgesGrow(before[i].t, before[|before| - 1].t, t);
      }
    }

    lemma NewIsNotExpired(t: int)
      requires lag + tol >= 0.0
      ensures Age(t, t) <= lag + tol
    {}

    method FindClosest(now: int) returns (best: nat)
      requires entries != []
      ensures best == Best(entries, now, lag)
    {
      hide Miss;
      best := 0;
      var i := 1;
      assert entries[..1] == [entries[0]];
      while i < |entries|
        invariant 1 <= i <= |entries| && best == Best(entries[..i], now, lag)
      {
        assert entries[..i + 1][..i] == entries[..i];
        if Miss(entries[i], now, lag) < Miss(entries[best], now, lag) { best := i; }
        i := i + 1;
      }
      assert entries[..i] == entries;
    }

    /**
      From the last frame's time on, the answer is the one the whole unpruned history would give; before
      it, exactly if nothing forgotten would have been the answer.
     */
    method Pick(now: int) returns (got: Found<E>)
      requires Valid()
      ensures got == Answer(entries, now, lag, tol)
      ensures accepted == [] || now >= accepted[|accepted| - 1].t ==> got == Answer(accepted, now, lag, tol)
      ensures accepted != [] ==> (got == Answer(accepted, now, lag, tol) <==> !Forgets(accepted, forgotten, now, lag, tol))
    {
      hide Age, Best, Expired, Forgets;
      if accepted != [] { PruningShowsIff(accepted, forgotten, now, lag, tol); }
      if accepted != [] && now >= accepted[|accepted| - 1].t {
        PrunedAnswerIsTheSame(accepted, forgotten, accepted[|accepted| - 1].t, now, lag, tol);
      }
      if entries == [] { return Nothing; }
      var best := FindClosest(now);
      var age := Age(now, entries[best].t);
      return if Abs(age - lag) <= tol then Found(entries[best].enc, age) else Nothing;
    }

    /** One inference: the past frame is looked up first, then this one joins whatever the answer. */
    method PairUp(capture: int, enc: E) returns (got: Found<E>)
      requires Valid()
      modifies this
      ensures Valid() && got == Answer(old(entries), capture, lag, tol)
      ensures accepted == if old(accepted) != [] && capture <= old(accepted)[|old(accepted)| - 1].t then old(accepted)
                          else old(accepted) + [Entry(capture, enc)]
      ensures old(accepted) == [] || capture >= old(accepted)[|old(accepted)| - 1].t ==>
        got == Answer(old(accepted), capture, lag, tol)
    {
      hide Answer, Forgets, Expired, InOrder;
      got := Pick(capture);
      Push(capture, enc);
    }
  }
}
