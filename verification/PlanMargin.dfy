/** How long after a decision a plan can be relied on not to run out. */
module PlanMargin {
  import opened Arithmetic
  import opened WireEncoder
  import P = PlanSupervisor
  import Safety

  /** Past the last row; a single row has no end. */
  predicate Over(plan: Plan, now: real)
    requires plan.fps > 0.0
  {
    |plan.rows| > 1 && now > Seconds(plan.t0) + (|plan.rows| - 1) as real / plan.fps
  }

  /** Every plan fit to be decided on at `decided` is still not over `latency` nanoseconds later. */
  ghost predicate NoneRunsOut(s: P.Config, latency: nat) {
    forall plan: Plan, decided: P.Clock, now: real |
      P.Fit(s, plan, decided) && now <= Seconds(decided + latency) :: !Over(plan, now)
  }

  lemma PerSecond(n: real, rate: real)
    requires rate > 0.0
    ensures n * P.NS / rate / P.NS == n / rate
  {
    assert n * P.NS / rate == (n / rate) * P.NS;
  }

  lemma FitLastsTheMargin(s: P.Config, plan: Plan, decided: P.Clock, now: real)
    requires P.Fit(s, plan, decided) && now <= Seconds(decided + s.endMargin)
    ensures !Over(plan, now)
  {
    P.EndIsClose(plan);
    PerSecond((|plan.rows| - 1) as real, plan.fps);
  }

  /** Two rows that end a quarter of a nanosecond before their rounded end. */
  function Brief(length: nat): Plan
    requires length >= 2000001
  {
    Plan([Safety.Zero, Safety.Zero], P.NS / (length as real - 0.25), 1, 1)
  }

  lemma BriefTimes(length: nat)
    requires length >= 2000001
    ensures var plan := Brief(length);
      && 0.0 < plan.fps <= 500.0
      && P.Length(plan) == length as real - 0.25 && 1.0 / plan.fps == (length as real - 0.25) / P.NS
  {
    var x := length as real - 0.25;
    Inverse(P.NS, x);
    assert P.NS <= 500.0 * x;
    Quotient(P.NS, x, 500.0);
  }

  lemma Inverse(a: real, x: real)
    requires a > 0.0 && x > 0.0
    ensures a / x > 0.0 && a / (a / x) == x && 1.0 / (a / x) == x / a
  {
    assert a / x * x == a;
  }

  lemma Quotient(a: real, x: real, k: real)
    requires x > 0.0 && a <= k * x
    ensures a / x <= k
  {
    assert (k - a / x) * x == k * x - a;
  }

  /** A plan decided on at its last chance, over at its rounded end. */
  lemma MarginIsNeeded(s: P.Config) returns (plan: Plan, decided: P.Clock)
    ensures P.Fit(s, plan, decided) && Over(plan, Seconds(decided + s.endMargin + 1))
  {
    var length := s.endMargin + 2000002;
    plan, decided := Brief(length), 2000002;
    plan := plan.(observation := decided);
    BriefTimes(length);
    assert P.Length(plan) == P.Length(Brief(length));
    assert P.End(plan) == 1 + length;
    assert 1.0 / plan.fps == (length as real - 0.25) / P.NS;
  }

  /** The margin is exactly the latency that every fit plan survives. */
  lemma NoneRunsOutIff(s: P.Config, latency: nat)
    ensures NoneRunsOut(s, latency) <==> latency <= s.endMargin
  {
    if latency <= s.endMargin {
      forall plan: Plan, decided: P.Clock, now: real | P.Fit(s, plan, decided) && now <= Seconds(decided + latency)
        ensures !Over(plan, now)
      {
        FitLastsTheMargin(s, plan, decided, now);
      }
    } else {
      var plan, decided := MarginIsNeeded(s);
      assert P.Fit(s, plan, decided) && Seconds(decided + s.endMargin + 1) <= Seconds(decided + latency);
    }
  }

  /** The centered hold, like any single row, needs no margin at all. */
  lemma SingleRowsLast(plan: Plan, now: real)
    requires plan.fps > 0.0 && |plan.rows| == 1
    ensures !Over(plan, now)
  {}

  /**
    With the default margin of zero: a plan offered to a new supervisor, taken, decided to be sent, and
    over two nanoseconds after that decision.
   */
  lemma DefaultMarginCanRunOut(s: P.Config) returns (run: seq<P.Event>, now: P.Clock)
    requires s.endMargin == 0
    ensures var t := P.Run(s, P.NothingYet, run);
      && P.InOrder(run, now) && P.Decide(s, t, now) == P.Send && P.Fit(s, t.plan, now)
      && Over(t.plan, Seconds(now + 2))
  {
    var plan := Plan([Safety.Zero, Safety.Zero], 1.0, 1, 1000000000);
    now := 1000000000;
    run := [P.Offer(plan, now)];
    assert P.Length(plan) == 1000000000.0 && P.End(plan) == 1000000001;
    assert run[..0] == [];
    assert P.Judge(s, P.NothingYet, plan, now) == P.Accepted;
    assert P.Run(s, P.NothingYet, run) == P.AfterOffer(s, P.NothingYet, plan, now);
  }
}
