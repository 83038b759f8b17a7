/**
  Coverage bookkeeping of the collector: how long each cell of joint space was occupied, for how long
  in motion, and how many cells were ever visited.
 */
module Coverage {
  import opened Arithmetic
  import opened CoverageGrid

  /** One degree per second. */
  const MOVING := 0.017453292519943295

  datatype Rules = Rules(grid: Grid, margin: real, maxGap: real)
  {
    predicate Valid() { grid.Valid() && margin > 0.0 && maxGap > 0.0 }

    function Axes(): seq<Axis> { [grid.x, grid.y, grid.z] }

    predicate Inside(q: Pose, m: real) {
      forall i | 0 <= i < 3 :: Axes()[i].lo + m <= q[i] <= Axes()[i].hi - m
    }

    /** Both poses are within the working range. */
    predicate Working(p: Pose, q: Pose) { Inside(p, margin) && Inside(q, margin) }
  }

  /** Fastest of the first n joints between two poses. */
  function Movement(p: Pose, q: Pose, dt: real, n: nat): real
    requires dt > 0.0 && n <= 3
  {
    if n == 0 then 0.0 else Max(Movement(p, q, dt, n - 1), Abs(q[n - 1] - p[n - 1]) / dt)
  }

  /** Joint j covers that much per second or more. */
  predicate Fast(p: Pose, q: Pose, dt: real, j: nat, speed: real)
    requires dt > 0.0 && j < 3
  {
    Abs(q[j] - p[j]) / dt >= speed
  }

  lemma {:induction false} MovementReachesIff(p: Pose, q: Pose, dt: real, n: nat, speed: real)
    requires dt > 0.0 && n <= 3 && speed > 0.0
    ensures Movement(p, q, dt, n) >= speed <==> exists j | 0 <= j < n :: Fast(p, q, dt, j, speed)
  {
    if n > 0 {
      MovementReachesIff(p, q, dt, n - 1, speed);
      if Fast(p, q, dt, n - 1, speed) { assert Movement(p, q, dt, n) >= speed; }
    }
  }

  datatype Tally = Tally(dwell: seq<real>, moving: seq<real>, working: seq<bool>, visited: nat, visitedWorking: nat)

  /** `dt` seconds more in the cell of `p`. */
  function CountCell(r: Rules, t: Tally, p: Pose, q: Pose, dt: real): (u: Tally)
    requires r.Valid() && dt > 0.0 && Shaped(r, t)
    ensures Shaped(r, u)
  {
    CellInRange(r.grid, p);
    var i := CellOf(r.grid, p);
    t.(dwell := t.dwell[i := t.dwell[i] + dt],
       moving := if Movement(p, q, dt, 3) >= MOVING then t.moving[i := t.moving[i] + dt] else t.moving,
       visited := if t.dwell[i] == 0.0 then t.visited + 1 else t.visited)
  }

  /** `dt` seconds spent in the cell of `p` before reaching `q`. */
  function Count(r: Rules, t: Tally, p: Pose, q: Pose, dt: real): (u: Tally)
    requires r.Valid() && dt > 0.0 && Shaped(r, t)
    requires r.Working(p, q) ==> r.grid.Works()
    ensures Shaped(r, u)
  {
    var u := CountCell(r, t, p, q, dt);
    if !r.Working(p, q) then u else
    WorkingCellInBox(r.grid, p);
    var w := WorkingCellOf(r.grid, p);
    u.(working := u.working[w := true], visitedWorking := if u.working[w] then u.visitedWorking else u.visitedWorking + 1)
  }

  /** Time counts as moving exactly if some joint made a degree per second, and only in the earlier pose's cell. */
  lemma MovingCountsIff(r: Rules, t: Tally, p: Pose, q: Pose, dt: real)
    requires r.Valid() && dt > 0.0 && Shaped(r, t) && (r.Working(p, q) ==> r.grid.Works())
    ensures 0 <= CellOf(r.grid, p) < |t.dwell|
    ensures var i, u := CellOf(r.grid, p), Count(r, t, p, q, dt);
      && u.dwell == t.dwell[i := t.dwell[i] + dt]
      && u.moving == if exists j | 0 <= j < 3 :: Fast(p, q, dt, j, MOVING) then t.moving[i := t.moving[i] + dt] else t.moving
  {
    CellInRange(r.grid, p);
    MovementReachesIff(p, q, dt, 3, MOVING);
    hide Movement, Fast, CellOf, WorkingCellOf;
  }

  ghost predicate Shaped(r: Rules, t: Tally) {
    |t.dwell| == |t.moving| == |t.working| == r.grid.Cells()
  }

  // ---- The invariant ----

  function Positive(d: seq<real>): set<int> { set k | 0 <= k < |d| && d[k] > 0.0 }

  function Marked(w: seq<bool>): set<int> { set k | 0 <= k < |w| && w[k] }

  function Total(d: seq<real>): real {
    if d == [] then 0.0 else Total(d[..|d| - 1]) + d[|d| - 1]
  }

  /** Moving time is part of the time in a cell. */
  ghost predicate Orderly(dwell: seq<real>, moving: seq<real>) {
    |dwell| == |moving| && forall k | 0 <= k < |dwell| :: 0.0 <= moving[k] <= dwell[k]
  }

  /** `time` is all the time that was counted. */
  ghost predicate TallyInv(r: Rules, t: Tally, time: real)
    requires r.Valid()
  {
    && Shaped(r, t)
    && Orderly(t.dwell, t.moving)
    && t.visited == |Positive(t.dwell)|
    && Total(t.dwell) == time
    && t.visitedWorking == |Marked(t.working)|
    && Marked(t.working) <= WorkingBox(r.grid)
  }

  lemma {:induction false} TotalAfter(d: seq<real>, i: nat, x: real)
    requires i < |d|
    ensures Total(d[i := x]) == Total(d) - d[i] + x
  {
    var n := |d| - 1;
    if i < n {
      TotalAfter(d[..n], i, x);
      assert d[i := x][..n] == d[..n][i := x];
    } else {
      assert d[i := x][..n] == d[..n];
    }
  }

  lemma PositiveAfter(d: seq<real>, i: nat, x: real)
    requires i < |d| && d[i] >= 0.0 && x > 0.0
    ensures |Positive(d[i := x])| == |Positive(d)| + if d[i] == 0.0 then 1 else 0
  {
    assert Positive(d[i := x]) == Positive(d) + {i};
    AddOne(Positive(d), i);
  }

  lemma AddOne(s: set<int>, x: int)
    ensures |s + {x}| == |s| + if x in s then 0 else 1
  {
    if x in s { assert s + {x} == s; }
  }

  lemma MarkedAfter(w: seq<bool>, i: nat)
    requires i < |w|
    ensures Marked(w[i := true]) == Marked(w) + {i}
    ensures |Marked(w[i := true])| == |Marked(w)| + if w[i] then 0 else 1
  {
    assert Marked(w[i := true]) == Marked(w) + {i};
    AddOne(Marked(w), i);
  }

  lemma OrderlyAfter(dwell: seq<real>, moving: seq<real>, i: nat, dt: real)
    requires Orderly(dwell, moving) && i < |dwell| && dt > 0.0
    ensures Orderly(dwell[i := dwell[i] + dt], moving)
    ensures Orderly(dwell[i := dwell[i] + dt], moving[i := moving[i] + dt])
  {}

  lemma CountKeepsTimes(r: Rules, t: Tally, time: real, p: Pose, q: Pose, dt: real)
    requires r.Valid() && dt > 0.0 && TallyInv(r, t, time) && (r.Working(p, q) ==> r.grid.Works())
    ensures var u := Count(r, t, p, q, dt);
      Orderly(u.dwell, u.moving) && u.visited == |Positive(u.dwell)| && Total(u.dwell) == time + dt
  {
    hide WorkingCellOf, CellOf, Movement, Positive, Marked, Total, WorkingBox;
    CellsInRange(r.grid, p);
    var i := CellOf(r.grid, p);
    assert t.dwell[i] >= t.moving[i] >= 0.0;
    OrderlyAfter(t.dwell, t.moving, i, dt);
    TotalAfter(t.dwell, i, t.dwell[i] + dt);
    PositiveAfter(t.dwell, i, t.dwell[i] + dt);
  }

  lemma CountKeepsMarks(r: Rules, t: Tally, time: real, p: Pose, q: Pose, dt: real)
    requires r.Valid() && dt > 0.0 && TallyInv(r, t, time) && (r.Working(p, q) ==> r.grid.Works())
    ensures var u := Count(r, t, p, q, dt);
      u.visitedWorking == |Marked(u.working)| && Marked(u.working) <= WorkingBox(r.grid)
  {
    hide WorkingCellOf, CellOf, Movement, WorkingBox, Marked, Orderly, Positive, Total;
    CellsInRange(r.grid, p);
    if r.Working(p, q) { MarkedAfter(t.working, WorkingCellOf(r.grid, p)); }
  }

  lemma CountKeepsInv(r: Rules, t: Tally, time: real, p: Pose, q: Pose, dt: real)
    requires r.Valid() && dt > 0.0 && TallyInv(r, t, time) && (r.Working(p, q) ==> r.grid.Works())
    ensures TallyInv(r, Count(r, t, p, q, dt), time + dt)
  {
    hide WorkingCellOf, CellOf, Movement, WorkingBox, Positive, Marked, Total, Orderly;
    CellsInRange(r.grid, p);
    CountKeepsTimes(r, t, time, p, q, dt);
    CountKeepsMarks(r, t, time, p, q, dt);
  }

  // ---- Runs ----

  /** One call of step: `usable` stands for fresh, finite inputs. */
  datatype Sample = Sample(now: nat, schedule: nat, q: Pose, usable: bool)

  datatype Collector = Collector(tally: Tally, initialized: bool, now: nat, schedule: nat, q: Pose, time: real)

  predicate ClockGap(r: Rules, c: Collector, s: Sample) {
    s.now <= c.now || s.schedule <= c.schedule || Seconds(s.now - c.now) > r.maxGap
  }

  predicate Counts(r: Rules, c: Collector, s: Sample) {
    s.usable && c.initialized && !ClockGap(r, c, s) && r.Inside(c.q, 0.0) && r.Inside(s.q, 0.0)
  }

  /** The call looks for a working cell only if there is one. */
  predicate Defined(r: Rules, c: Collector, s: Sample) {
    Counts(r, c, s) && r.Working(c.q, s.q) ==> r.grid.Works()
  }

  function Step(r: Rules, c: Collector, s: Sample): (d: Collector)
    requires r.Valid() && Shaped(r, c.tally) && Defined(r, c, s)
    ensures Shaped(r, d.tally)
  {
    if !s.usable || (c.initialized && ClockGap(r, c, s)) then c.(initialized := false)
    else
      var dt := if Counts(r, c, s) then Seconds(s.now - c.now) else 0.0;
      Collector(if Counts(r, c, s) then Count(r, c.tally, c.q, s.q, dt) else c.tally,
                true, s.now, s.schedule, s.q, c.time + dt)
  }

  function Start(r: Rules): (c: Collector)
    requires r.Valid()
    ensures Shaped(r, c.tally)
  {
    CellsInRange(r.grid, [0.0, 0.0, 0.0]);
    var n := r.grid.Cells();
    Collector(Tally(seq(n, _ => 0.0), seq(n, _ => 0.0), seq(n, _ => false), 0, 0), false, 0, 0, [0.0, 0.0, 0.0], 0.0)
  }

  ghost predicate Inv(r: Rules, c: Collector)
    requires r.Valid()
  {
    TallyInv(r, c.tally, c.time)
  }

  lemma InvKept(r: Rules, c: Collector, s: Sample)
    requires r.Valid() && Inv(r, c) && Shaped(r, c.tally) && Defined(r, c, s)
    ensures Inv(r, Step(r, c, s))
  {
    hide TallyInv, Count;
    if Counts(r, c, s) {
      CountKeepsInv(r, c.tally, c.time, c.q, s.q, Seconds(s.now - c.now));
    }
  }

  /** Every call of the run is defined. */
  predicate AllDefined(r: Rules, run: seq<Sample>)
    requires r.Valid()
    decreases |run|, 0
  {
    run == [] || (AllDefined(r, run[..|run| - 1]) && Defined(r, Run(r, run[..|run| - 1]), run[|run| - 1]))
  }

  function Run(r: Rules, run: seq<Sample>): (c: Collector)
    requires r.Valid() && AllDefined(r, run)
    ensures Shaped(r, c.tally)
    decreases |run|, 1
  {
    if run == [] then Start(r) else Step(r, Run(r, run[..|run| - 1]), run[|run| - 1])
  }

  lemma {:induction false} TotalOfZeros(d: seq<real>)
    requires forall k | 0 <= k < |d| :: d[k] == 0.0
    ensures Total(d) == 0.0
  {
    if d != [] { TotalOfZeros(d[..|d| - 1]); }
  }

  lemma StartInv(r: Rules)
    requires r.Valid()
    ensures Inv(r, Start(r))
  {
    var t := Start(r).tally;
    TotalOfZeros(t.dwell);
    assert Positive(t.dwell) == {} && Marked(t.working) == {};
  }

  /**
    After any run: cells visited are the cells with time in them, moving time is part of the time, all
    counted time is in some cell, and no more working cells are visited than there are.
   */
  lemma {:induction false} InvOverRuns(r: Rules, run: seq<Sample>)
    requires r.Valid() && AllDefined(r, run)
    ensures var c := Run(r, run);
      Inv(r, c) && c.tally.visitedWorking <= r.grid.WorkingCells()
    decreases |run|
  {
    hide TallyInv, Step, Start;
    if run == [] {
      StartInv(r);
    } else {
      InvOverRuns(r, run[..|run| - 1]);
      InvKept(r, Run(r, run[..|run| - 1]), run[|run| - 1]);
    }
    WorkingIsBounded(r, Run(r, run));
  }

  lemma WorkingIsBounded(r: Rules, c: Collector)
    requires r.Valid() && Inv(r, c)
    ensures c.tally.visitedWorking <= r.grid.WorkingCells()
  {
    hide WorkingBox;
    WorkingBoxIsSmall(r.grid);
    SubsetIsSmaller(Marked(c.tally.working), WorkingBox(r.grid));
  }

  /** With a working bin for every joint every run is defined. */
  lemma {:induction false} WorkingGridIsDefined(r: Rules, run: seq<Sample>)
    requires r.Valid() && r.grid.Works()
    ensures AllDefined(r, run)
  {
    if run != [] { WorkingGridIsDefined(r, run[..|run| - 1]); }
  }

  /** Usable samples inside the limits, with both times rising and no gap. */
  predicate Steady(r: Rules, run: seq<Sample>) {
    && (forall i | 0 <= i < |run| :: run[i].usable && r.Inside(run[i].q, 0.0))
    && (forall i | 0 < i < |run| :: run[i - 1].now < run[i].now && run[i - 1].schedule < run[i].schedule
                                   && Seconds(run[i].now - run[i - 1].now) <= r.maxGap)
  }

  /** Of a steady run all the time counts, from its first sample to its last. */
  lemma {:induction false} SteadyRunCountsAll(r: Rules, run: seq<Sample>)
    requires r.Valid() && r.grid.Works() && run != [] && Steady(r, run)
    ensures AllDefined(r, run) && run[0].now <= run[|run| - 1].now
    ensures var c := Run(r, run);
      c.initialized && c.now == run[|run| - 1].now && c.schedule == run[|run| - 1].schedule && c.q == run[|run| - 1].q
      && c.time == Seconds(run[|run| - 1].now - run[0].now) && Total(c.tally.dwell) == c.time
    decreases |run|
  {
    WorkingGridIsDefined(r, run);
    InvOverRuns(r, run);
    hide Count, CellOf, WorkingCellOf, TallyInv;
    if |run| > 1 {
      SteadyRunCountsAll(r, run[..|run| - 1]);
      assert Counts(r, Run(r, run[..|run| - 1]), run[|run| - 1]);
    } else {
      assert run[..0] == [];
    }
    TimeIsTotal(r, Run(r, run));
  }

  lemma TimeIsTotal(r: Rules, c: Collector)
    requires r.Valid() && Inv(r, c)
    ensures Total(c.tally.dwell) == c.time
  {}

  /** A pose at the same distance of both limits of every joint. */
  function Middle(r: Rules): Pose { seq(3, i requires 0 <= i < 3 => (r.Axes()[i].lo + r.Axes()[i].hi) / 2.0) }

  lemma MiddleWorks(r: Rules)
    requires r.Valid()
    requires forall i | 0 <= i < 3 :: r.Axes()[i].hi - r.Axes()[i].lo > 2.0 * r.margin
    ensures r.Working(Middle(r), Middle(r)) && r.Inside(Middle(r), 0.0)
  {}

  /** Without one the second sample of a run can already be undefined. */
  lemma OtherGridsAreNot(r: Rules) returns (run: seq<Sample>)
    requires r.Valid() && !r.grid.Works() && r.maxGap >= Seconds(1)
    requires forall i | 0 <= i < 3 :: r.Axes()[i].hi - r.Axes()[i].lo > 2.0 * r.margin
    ensures !AllDefined(r, run)
  {
    var q := Middle(r);
    MiddleWorks(r);
    var first, second := Sample(1, 1, q, true), Sample(2, 2, q, true);
    run := [first, second];
    assert run[..1] == [first] && [first][..0] == [];
    var c := Step(r, Start(r), first);
    assert Defined(r, Start(r), first) && Run(r, []) == Start(r) && Run(r, [first]) == c;
    assert Counts(r, c, second) && !Defined(r, c, second);
  }

  // ---- The object ----

  class RandomCollection {
    const r: Rules
    const dwell: array<real>
    const moving: array<real>
    const working: array<bool>
    var visited: nat
    var visitedWorking: nat
    var initialized: bool
    var previousNs: nat
    var previousSchedule: nat
    var previousQ: Pose
    ghost var time: real

    ghost function View(): Collector
      reads this, dwell, moving, working
    {
      Collector(Tally(dwell[..], moving[..], working[..], visited, visitedWorking),
                initialized, previousNs, previousSchedule, previousQ, time)
    }

    ghost predicate Valid()
      reads this, dwell, moving, working
    {
      r.Valid() && Shaped(r, View().tally) && dwell != moving
    }

    constructor (r: Rules)
      requires r.Valid()
      ensures Valid() && this.r == r && View() == Start(r)
    {
      CellsInRange(r.grid, [0.0, 0.0, 0.0]);
      this.r := r;
      var n := r.grid.Cells();
      dwell := new real[n](_ => 0.0);
      moving := new real[n](_ => 0.0);
      working := new bool[n](_ => false);
      visited, visitedWorking, initialized := 0, 0, false;
      previousNs, previousSchedule, previousQ, time := 0, 0, [0.0, 0.0, 0.0], 0.0;
    }

    method Fastest(q: Pose, dt: real) returns (movement: real)
      requires dt > 0.0
      ensures movement == Movement(previousQ, q, dt, 3)
    {
      movement := 0.0;
      var i := 0;
      while i < 3
        invariant 0 <= i <= 3 && movement == Movement(previousQ, q, dt, i)
      {
        movement := Max(movement, Abs(q[i] - previousQ[i]) / dt);
        i := i + 1;
      }
    }

    /** Time in the cell of the earlier pose. */
    method TickCell(q: Pose, dt: real)
      requires Valid() && dt > 0.0
      modifies this`visited, dwell, moving
      ensures Valid()
      ensures View().tally == CountCell(r, old(View().tally), previousQ, q, dt)
    {
      hide Movement, BinOf, WorkingBox, Abs;
      CellInRange(r.grid, previousQ);
      var cell := GridIndex(r.grid, previousQ, [0, 0, 0], [r.grid.x.bins, r.grid.y.bins, r.grid.z.bins]);
      if dwell[cell] == 0.0 { visited := visited + 1; }
      dwell[cell] := dwell[cell] + dt;
      var movement := Fastest(q, dt);
      if movement >= MOVING { moving[cell] := moving[cell] + dt; }
    }

    method Tick(q: Pose, dt: real)
      requires Valid() && dt > 0.0 && (r.Working(previousQ, q) ==> r.grid.Works())
      modifies this`visited, this`visitedWorking, dwell, moving, working
      ensures Valid() && View().tally == Count(r, old(View().tally), previousQ, q, dt)
    {
      hide Movement, BinOf, WorkingBox, Abs;
      TickCell(q, dt);
      CellInRange(r.grid, previousQ);
      if r.Working(previousQ, q) {
        WorkingCellInBox(r.grid, previousQ);
        var w := GridIndex(r.grid, previousQ, [r.grid.x.begin, r.grid.y.begin, r.grid.z.begin],
                           [r.grid.x.end, r.grid.y.end, r.grid.z.end]);
        if !working[w] {
          working[w] := true;
          visitedWorking := visitedWorking + 1;
        }
      }
    }

    method Observe(s: Sample)
      requires Valid() && Defined(r, View(), s)
      modifies this, dwell, moving, working
      ensures Valid() && View() == Step(r, old(View()), s)
    {
      if !s.usable {
        initialized := false;
        return;
      }
      if initialized {
        if s.now <= previousNs || s.schedule <= previousSchedule || Seconds(s.now - previousNs) > r.maxGap {
          initialized := false;
          return;
        }
        if r.Inside(previousQ, 0.0) && r.Inside(s.q, 0.0) {
          Tick(s.q, Seconds(s.now - previousNs));
          time := time + Seconds(s.now - previousNs);
        }
      } else {
        initialized := true;
      }
      previousNs, previousSchedule, previousQ := s.now, s.schedule, s.q;
    }
  }
}
