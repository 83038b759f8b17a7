/**
  The producer's renewal and stop rules: which plans are taken, when one is sent or renewed, and when
  driving ends for good. Times are nanoseconds of one monotonic clock.
 */
module PlanSupervisor {
  import Safety
  import opened Wire
  import opened WireEncoder

  type Clock = x: nat | x < 0x8000_0000_0000_0000

  datatype Config = Config(renew: Clock, maxAge: Clock, endMargin: Clock, firstPlanTimeout: Clock)

  datatype StopReason = Running | NoFirstPlan | NoPlan | ObservationTooOld | PlanExhausted

  datatype Answer = Accepted | Stopped | BadShape | BadTimes | NotNewer | TooOld | AlreadyExhausted

  datatype Decision = Idle | Send | Stop

  datatype State = State(plan: Plan, holding: bool, pending: bool, stopped: bool, lastSent: Clock,
                         holdStarted: Clock, reason: StopReason)

  const NothingYet := State(Plan([], 0.0, 0, 0), false, false, false, 0, 0, Running)

  const FUTURE_NS := 10000000
  const NS := 1000000000.0

  /** One centered row at 30 Hz. */
  const CenteredHold := Plan([Safety.Zero], 30.0, 0, 0)

  /** Nearest integer, halves upwards. */
  function Round(x: real): int { (x + 0.5).Floor }

  /** Nanoseconds from the first row to the last. */
  function Length(plan: Plan): real
    requires plan.fps > 0.0
  {
    (|plan.rows| - 1) as real * NS / plan.fps
  }

  /** When the last row is due. */
  function End(plan: Plan): int
    requires plan.fps > 0.0
  {
    if |plan.rows| < 2 then plan.t0 else plan.t0 + Round(Length(plan))
  }

  /** The rounded end is within half a nanosecond of the real one. */
  lemma EndIsClose(plan: Plan)
    requires plan.fps > 0.0 && plan.rows != []
    ensures -0.5 <= End(plan) as real - (plan.t0 as real + Length(plan)) <= 0.5
  {
    if |plan.rows| == 1 {
      assert Length(plan) == 0.0;
    }
  }

  /** Unsigned 64-bit difference. */
  function Since(now: Clock, then_: Clock): nat {
    if now >= then_ then now - then_ else now - then_ + 0x1_0000_0000_0000_0000
  }

  predicate GoodShape(plan: Plan) { 1 <= |plan.rows| <= MAX_STEPS && 0.0 < plan.fps <= 500.0 }

  predicate GoodTimes(plan: Plan, now: Clock) {
    0 < plan.observation <= now + FUTURE_NS && 0 < plan.t0 <= now + FUTURE_NS
  }

  predicate TooOldAt(cfg: Config, plan: Plan, now: Clock) { now > plan.observation && now - plan.observation > cfg.maxAge }

  function Judge(cfg: Config, s: State, plan: Plan, now: Clock): Answer {
    if s.stopped then Stopped
    else if !GoodShape(plan) then BadShape
    else if !GoodTimes(plan, now) then BadTimes
    else if !s.holding && plan.observation <= s.plan.observation then NotNewer
    else if TooOldAt(cfg, plan, now) then TooOld
    else if End(plan) <= now + cfg.endMargin then AlreadyExhausted
    else Accepted
  }

  function AfterOffer(cfg: Config, s: State, plan: Plan, now: Clock): State {
    if Judge(cfg, s, plan, now) == Accepted then s.(plan := plan, holding := false, pending := true) else s
  }

  function AfterHold(s: State, now: Clock): State {
    s.(plan := CenteredHold, holding := true, pending := true, holdStarted := now)
  }

  function AfterSent(s: State, now: Clock): State { s.(lastSent := now, pending := false) }

  /** A plan to be driven has passed GoodShape; the empty one has no observation. */
  ghost predicate Sound(s: State) {
    && (s.holding ==> s.plan == CenteredHold)
    && (!s.holding && s.plan.observation > 0 ==> GoodShape(s.plan) && s.plan.t0 > 0)
    && (s.stopped <==> s.reason != Running)
  }

  function WhyStop(cfg: Config, s: State, now: Clock): StopReason
    requires !s.holding && s.plan.observation > 0 ==> GoodShape(s.plan)
  {
    if s.holding && Since(now, s.holdStarted) > cfg.firstPlanTimeout then NoFirstPlan
    else if !s.holding && s.plan.observation == 0 then NoPlan
    else if !s.holding && TooOldAt(cfg, s.plan, now) then ObservationTooOld
    else if !s.holding && now + cfg.endMargin >= End(s.plan) then PlanExhausted
    else Running
  }

  function AfterNext(cfg: Config, s: State, now: Clock): State
    requires !s.holding && s.plan.observation > 0 ==> GoodShape(s.plan)
  {
    if s.stopped then s else s.(reason := WhyStop(cfg, s, now), stopped := WhyStop(cfg, s, now) != Running)
  }

  function Decide(cfg: Config, s: State, now: Clock): Decision
    requires !s.holding && s.plan.observation > 0 ==> GoodShape(s.plan)
  {
    if AfterNext(cfg, s, now).stopped then Stop
    else if s.pending || Since(now, s.lastSent) >= cfg.renew then Send
    else Idle
  }

  // ---- Runs ----

  datatype Event = Hold(now: Clock) | Offer(plan: Plan, now: Clock) | Next(now: Clock) | Sent(now: Clock)

  function Step(cfg: Config, s: State, e: Event): State
    requires Sound(s)
  {
    match e
    case Hold(now) => AfterHold(s, now)
    case Offer(plan, now) => AfterOffer(cfg, s, plan, now)
    case Next(now) => AfterNext(cfg, s, now)
    case Sent(now) => AfterSent(s, now)
  }

  lemma SoundKept(cfg: Config, s: State, e: Event)
    requires Sound(s)
    ensures Sound(Step(cfg, s, e))
  {}

  function Run(cfg: Config, s: State, run: seq<Event>): (t: State)
    requires Sound(s)
    ensures Sound(t)
    decreases |run|
  {
    if run == [] then s else
    var before := Run(cfg, s, run[..|run| - 1]);
    SoundKept(cfg, before, run[|run| - 1]);
    Step(cfg, before, run[|run| - 1])
  }

  /** Once stopped, always stopped: with the same reason, no plan is taken and nothing is sent. */
  lemma {:induction false} StopIsPermanent(cfg: Config, s: State, run: seq<Event>, plan: Plan, now: Clock)
    requires Sound(s) && s.stopped
    ensures var t := Run(cfg, s, run);
      t.stopped && t.reason == s.reason && Judge(cfg, t, plan, now) == Stopped && Decide(cfg, t, now) == Stop
    decreases |run|
  {
    if run != [] {
      StopIsPermanent(cfg, s, run[..|run| - 1], plan, now);
    }
  }

  /** The observation times of the plans accepted in a run. */
  function Observations(cfg: Config, s: State, run: seq<Event>): seq<Long>
    requires Sound(s)
    decreases |run|
  {
    if run == [] then [] else
    var before, e := Run(cfg, s, run[..|run| - 1]), run[|run| - 1];
    Observations(cfg, s, run[..|run| - 1]) +
    if e.Offer? && Judge(cfg, before, e.plan, e.now) == Accepted then [e.plan.observation] else []
  }

  ghost predicate Increasing(s: seq<Long>) { forall i, j | 0 <= i < j < |s| :: s[i] < s[j] }

  /** `o` are the observations taken since state `s`, and `t` is where they led. */
  ghost predicate Advanced(s: State, o: seq<Long>, t: State) {
    && Increasing(o)
    && (!s.holding ==> forall x <- o :: x > s.plan.observation)
    && (o == [] ==> t.plan == s.plan && t.holding == s.holding)
    && (o != [] ==> !t.holding && t.plan.observation == o[|o| - 1])
  }

  lemma NewestIsLast(s: State, o: seq<Long>, t: State, x: Long)
    requires Advanced(s, o, t) && (!t.holding ==> x > t.plan.observation)
    ensures Increasing(o + [x]) && (!s.holding ==> forall y <- o + [x] :: y > s.plan.observation)
  {
    assert o != [] ==> o[|o| - 1] in o;
  }

  /** Between two holds the observations only get newer; the newest is the current plan's. */
  lemma {:induction false} ObservationsAdvance(cfg: Config, s: State, run: seq<Event>)
    requires Sound(s)
    requires forall e <- run :: !e.Hold?
    ensures Advanced(s, Observations(cfg, s, run), Run(cfg, s, run))
    decreases |run|
  {
    hide Judge, Step, Sound;
    if run != [] {
      var front, e := run[..|run| - 1], run[|run| - 1];
      assert e in run;
      ObservationsAdvance(cfg, s, front);
      var o, before := Observations(cfg, s, front), Run(cfg, s, front);
      OnlyOffersChangeThePlan(cfg, before, e);
      if e.Offer? && Judge(cfg, before, e.plan, e.now) == Accepted {
        NewestIsLast(s, o, before, e.plan.observation);
      } else {
        assert o + [] == o;
      }
    }
  }

  /** Without holds the plan changes exactly by an accepted offer, which is newer. */
  lemma OnlyOffersChangeThePlan(cfg: Config, s: State, e: Event)
    requires Sound(s) && !e.Hold?
    ensures if e.Offer? && Judge(cfg, s, e.plan, e.now) == Accepted
      then Step(cfg, s, e).plan == e.plan && !Step(cfg, s, e).holding && (!s.holding ==> e.plan.observation > s.plan.observation)
      else Step(cfg, s, e).plan == s.plan && Step(cfg, s, e).holding == s.holding
  {}

  /** The clock of a run never goes back, and no event is later than `now`. */
  ghost predicate InOrder(run: seq<Event>, now: Clock)
    decreases |run|
  {
    run == [] || (run[|run| - 1].now <= now && InOrder(run[..|run| - 1], run[|run| - 1].now))
  }

  /** Whatever is decided to be sent is the hold, or a plan accepted earlier that is still fit. */
  ghost predicate Fit(cfg: Config, plan: Plan, now: Clock) {
    GoodShape(plan) && GoodTimes(plan, now) && !TooOldAt(cfg, plan, now) && now + cfg.endMargin < End(plan)
  }

  lemma {:induction false} PlanFromTheRun(cfg: Config, run: seq<Event>, now: Clock)
    requires InOrder(run, now)
    ensures var t := Run(cfg, NothingYet, run);
      !t.holding && t.plan.observation > 0 ==> GoodTimes(t.plan, now) && exists e <- run :: e.Offer? && e.plan == t.plan
    decreases |run|
  {
    if run != [] {
      var e := run[|run| - 1];
      PlanFromTheRun(cfg, run[..|run| - 1], e.now);
      assert e in run;
    }
  }

  /** A decision that is not Stop found the hold, or a fit plan. */
  lemma GoingOnIsFit(cfg: Config, s: State, now: Clock)
    requires Sound(s) && Decide(cfg, s, now) != Stop
    requires !s.holding && s.plan.observation > 0 ==> GoodTimes(s.plan, now)
    ensures if s.holding then s.plan == CenteredHold else Fit(cfg, s.plan, now)
  {}

  /** An offer is taken exactly if it is fit and, unless the hold is being kept, newer than the current plan. */
  lemma AcceptedIff(cfg: Config, s: State, plan: Plan, now: Clock)
    ensures Judge(cfg, s, plan, now) == Accepted <==>
      && !s.stopped && Fit(cfg, plan, now) && (s.holding || plan.observation > s.plan.observation)
    ensures Judge(cfg, s, plan, now) == Accepted ==>
      var t := AfterOffer(cfg, s, plan, now); t.plan == plan && !t.holding && t.pending
  {}

  /** Driving goes on exactly while a hold is within its timeout, or the plan is there, not too old and not near its end. */
  lemma GoingOnIff(cfg: Config, s: State, now: Clock)
    requires Sound(s)
    ensures Decide(cfg, s, now) != Stop <==>
      && !s.stopped
      && (if s.holding then Since(now, s.holdStarted) <= cfg.firstPlanTimeout
          else s.plan.observation > 0 && now <= s.plan.observation + cfg.maxAge && now + cfg.endMargin < End(s.plan))
  {}

  /** While it goes on, a plan is sent exactly when it is new, or the last one sent is as old as the renewal. */
  lemma SendIff(cfg: Config, s: State, now: Clock)
    requires Sound(s) && Decide(cfg, s, now) != Stop && now >= s.lastSent
    ensures Decide(cfg, s, now) == Send <==> s.pending || now >= s.lastSent + cfg.renew
  {}

  lemma SentPlanIsFit(cfg: Config, run: seq<Event>, now: Clock)
    requires InOrder(run, now)
    requires Decide(cfg, Run(cfg, NothingYet, run), now) == Send
    ensures var t := Run(cfg, NothingYet, run);
      && (t.holding ==> t.plan == CenteredHold)
      && (!t.holding ==> Fit(cfg, t.plan, now) && exists e <- run :: e.Offer? && e.plan == t.plan)
  {
    PlanFromTheRun(cfg, run, now);
  }

  // ---- The object ----

  class Supervisor {
    const cfg: Config
    var plan: Plan
    var holding: bool
    var pending: bool
    var stopped: bool
    var lastSent: Clock
    var holdStarted: Clock
    var reason: StopReason

    constructor (cfg: Config)
      ensures this.cfg == cfg && View() == NothingYet
    {
      this.cfg := cfg;
      plan, holding, pending, stopped := NothingYet.plan, false, false, false;
      lastSent, holdStarted, reason := 0, 0, Running;
    }

    ghost function View(): State
      reads this
    {
      State(plan, holding, pending, stopped, lastSent, holdStarted, reason)
    }

    method StartHold(now: Clock)
      modifies this
      ensures View() == AfterHold(old(View()), now)
    {
      plan := CenteredHold;
      holding, pending := true, true;
      holdStarted := now;
    }

    method OfferPlan(offered: Plan, now: Clock) returns (answer: Answer)
      modifies this
      ensures answer == Judge(cfg, old(View()), offered, now)
      ensures View() == AfterOffer(cfg, old(View()), offered, now)
    {
      if stopped { return Stopped; }
      if offered.rows == [] || |offered.rows| > MAX_STEPS || !(0.0 < offered.fps <= 500.0) {
        return BadShape;
      }
      if offered.observation == 0 || offered.t0 == 0 || offered.observation > now + FUTURE_NS || offered.t0 > now + FUTURE_NS {
        return BadTimes;
      }
      if !holding && offered.observation <= plan.observation { return NotNewer; }
      if now > offered.observation && now - offered.observation > cfg.maxAge { return TooOld; }
      if End(offered) <= now + cfg.endMargin { return AlreadyExhausted; }
      plan := offered;
      holding := false;
      pending := true;
      return Accepted;
    }

    method NextDecision(now: Clock) returns (decision: Decision)
      requires Sound(View())
      modifies this
      ensures decision == Decide(cfg, old(View()), now)
      ensures View() == AfterNext(cfg, old(View()), now)
    {
      if !stopped {
        if holding && Since(now, holdStarted) > cfg.firstPlanTimeout {
          reason := NoFirstPlan;
        } else if !holding && plan.observation == 0 {
          reason := NoPlan;
        } else if !holding && now > plan.observation && now - plan.observation > cfg.maxAge {
          reason := ObservationTooOld;
        } else if !holding && now + cfg.endMargin >= End(plan) {
          reason := PlanExhausted;
        }
        stopped := reason != Running;
      }
      if stopped { return Stop; }
      return if pending || Since(now, lastSent) >= cfg.renew then Send else Idle;
    }

    method MarkSent(now: Clock)
      modifies this
      ensures View() == AfterSent(old(View()), now)
    {
      lastSent := now;
      pending := false;
    }
  }
}
