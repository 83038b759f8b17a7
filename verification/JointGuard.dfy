/**
  The guard between the collector's commands and the valves: a command is scaled down as the joint,
  looking ahead along its speed, nears the limit the command drives it to.
 */
module JointGuard {
  import opened Arithmetic
  import opened ValvePulse

  datatype Joint = Joint(lo: real, hi: real, sign: real)

  datatype Options = Options(margin: real, taper: real, lookahead: real)

  /** What the constructor checks for each joint. */
  ghost predicate Legal(j: Joint, o: Options) {
    && o.margin >= 0.0 && o.taper > 0.0 && o.lookahead >= 0.0
    && j.hi - j.lo > 2.0 * (o.margin + o.taper) && (j.sign == 1.0 || j.sign == -1.0)
  }

  /** Where the command drives the joint: up, down or nowhere. */
  function Direction(j: Joint, command: real): real { Clamp(command, -1.0, 1.0) * j.sign }

  /** Position ahead; only speed toward the command's own limit counts. */
  function Predicted(j: Joint, o: Options, q: real, speed: real, command: real): real {
    var d := Direction(j, command);
    q + Times(if d > 0.0 then Max(0.0, speed) else if d < 0.0 then Min(0.0, speed) else 0.0, o.lookahead)
  }

  /** Room left before the margin on the command's side. */
  function Headroom(j: Joint, o: Options, q: real, speed: real, command: real): real {
    var d, p := Direction(j, command), Predicted(j, o, q, speed, command);
    if d > 0.0 then j.hi - o.margin - p else if d < 0.0 then p - j.lo - o.margin else o.taper
  }

  function Scale(j: Joint, o: Options, q: real, speed: real, command: real): real
    requires o.taper > 0.0
  {
    Clamp(Headroom(j, o, q, speed, command) / o.taper, 0.0, 1.0)
  }

  function Guarded(j: Joint, o: Options, q: real, speed: real, command: real): real
    requires o.taper > 0.0
  {
    Times(Clamp(command, -1.0, 1.0), Scale(j, o, q, speed, command))
  }

  // ---- What the guard does ----

  lemma LookingAhead(j: Joint, o: Options, q: real, speed: real, command: real)
    requires Legal(j, o)
    ensures Direction(j, command) > 0.0 ==> Predicted(j, o, q, speed, command) >= q
    ensures Direction(j, command) < 0.0 ==> Predicted(j, o, q, speed, command) <= q
  {
    hide Direction;
    NonNegative(Max(0.0, speed), o.lookahead);
    NonNegative(-Min(0.0, speed), o.lookahead);
    Negated(Min(0.0, speed), o.lookahead);
  }

  lemma Negated(a: real, b: real)
    ensures (-a) * b == -Times(a, b)
  {}

  lemma ScaleIsZeroIff(x: real, taper: real)
    requires taper > 0.0
    ensures Clamp(x / taper, 0.0, 1.0) == 0.0 <==> x <= 0.0
    ensures Clamp(x / taper, 0.0, 1.0) == 1.0 <==> x >= taper
  {
    if x <= 0.0 { QuotientsInOrder(x, 0.0, taper); } else { QuotientsInOrder(0.0, x, taper); }
    if x >= taper { QuotientsInOrder(taper, x, taper); } else { QuotientsInOrder(x, taper, taper); }
    assert 0.0 / taper == 0.0 && taper / taper == 1.0;
    assert x / taper * taper == x;
  }

  lemma ProductIsZeroIff(a: real, b: real)
    ensures Times(a, b) == 0.0 <==> a == 0.0 || b == 0.0
  {}

  /** The guarded command is never larger, never of the other sign, and at most one. */
  lemma NeverAmplifies(j: Joint, o: Options, q: real, speed: real, command: real)
    requires Legal(j, o)
    ensures var g := Guarded(j, o, q, speed, command);
      -1.0 <= g <= 1.0 && (command >= 0.0 ==> 0.0 <= g <= command) && (command <= 0.0 ==> command <= g <= 0.0)
  {
    hide Headroom;
    var b, s := Clamp(command, -1.0, 1.0), Scale(j, o, q, speed, command);
    if b >= 0.0 { Smaller(b, s); }
    if b <= 0.0 {
      Smaller(-b, s);
      Opposite(b, s);
    }
  }

  lemma Smaller(a: real, s: real)
    requires a >= 0.0 && 0.0 <= s <= 1.0
    ensures 0.0 <= Times(a, s) <= a
  {
    NonNegative(a, s);
    NonNegative(a, 1.0 - s);
    assert a * (1.0 - s) == a - a * s;
  }

  lemma Opposite(a: real, s: real)
    ensures Times(-a, s) == -Times(a, s)
  {}

  /** It is zero exactly for no command, or with no room left on the command's side. */
  lemma StopsIff(j: Joint, o: Options, q: real, speed: real, command: real)
    requires Legal(j, o)
    ensures Guarded(j, o, q, speed, command) == 0.0 <==> command == 0.0 || Headroom(j, o, q, speed, command) <= 0.0
  {
    hide Headroom, Times;
    ScaleIsZeroIff(Headroom(j, o, q, speed, command), o.taper);
    ProductIsZeroIff(Clamp(command, -1.0, 1.0), Scale(j, o, q, speed, command));
  }

  /** A joint at or past a margin is never driven further out on that side. */
  lemma NeverDrivesOut(j: Joint, o: Options, q: real, speed: real, command: real)
    requires Legal(j, o)
    requires (Direction(j, command) > 0.0 && q >= j.hi - o.margin) || (Direction(j, command) < 0.0 && q <= j.lo + o.margin)
    ensures Guarded(j, o, q, speed, command) == 0.0
  {
    hide Direction, Predicted, Times, Scale, Guarded;
    LookingAhead(j, o, q, speed, command);
    StopsIff(j, o, q, speed, command);
  }

  /**
    With the look-ahead written out: driving up, a command is stopped exactly if the joint, going on at the
    speed it has upwards, is at the upper margin when the look-ahead is over; driving down likewise.
   */
  lemma StopsAheadIff(j: Joint, o: Options, q: real, speed: real, command: real)
    requires Legal(j, o)
    ensures Direction(j, command) > 0.0 && speed >= 0.0 ==>
      (Guarded(j, o, q, speed, command) == 0.0 <==> q + speed * o.lookahead >= j.hi - o.margin)
    ensures Direction(j, command) < 0.0 && speed <= 0.0 ==>
      (Guarded(j, o, q, speed, command) == 0.0 <==> q + speed * o.lookahead <= j.lo + o.margin)
    ensures Direction(j, command) > 0.0 && speed <= 0.0 ==>
      (Guarded(j, o, q, speed, command) == 0.0 <==> q >= j.hi - o.margin)
    ensures Direction(j, command) < 0.0 && speed >= 0.0 ==>
      (Guarded(j, o, q, speed, command) == 0.0 <==> q <= j.lo + o.margin)
  {
    hide Guarded, Scale;
    StopsIff(j, o, q, speed, command);
    NoSpeedNoWay(o.lookahead);
    if command == 0.0 { assert Direction(j, command) == 0.0; }
  }

  lemma NoSpeedNoWay(lookahead: real)
    ensures Times(0.0, lookahead) == 0.0
  {}

  /** The command passes unchanged, up to its bound of one, exactly with a full taper of room or none asked. */
  lemma UnchangedIff(j: Joint, o: Options, q: real, speed: real, command: real)
    requires Legal(j, o) && -1.0 <= command <= 1.0
    ensures Guarded(j, o, q, speed, command) == command <==> command == 0.0 || Headroom(j, o, q, speed, command) >= o.taper
  {
    hide Headroom;
    var s := Scale(j, o, q, speed, command);
    ScaleIsZeroIff(Headroom(j, o, q, speed, command), o.taper);
    SameProductIff(command, s);
  }

  lemma SameProductIff(a: real, s: real)
    ensures Times(a, s) == a <==> a == 0.0 || s == 1.0
  {
    ProductIsZeroIff(a, s - 1.0);
    assert a * (s - 1.0) == a * s - a;
  }

  /** In between the command fades linearly with the room that is left when the look-ahead is over. */
  lemma FadesLinearly(j: Joint, o: Options, q: real, speed: real, command: real)
    requires Legal(j, o)
    ensures var room := j.hi - o.margin - (q + Max(0.0, speed) * o.lookahead);
      Direction(j, command) > 0.0 && 0.0 <= room <= o.taper ==>
        Guarded(j, o, q, speed, command) * o.taper == Clamp(command, -1.0, 1.0) * room
    ensures var room := q + Min(0.0, speed) * o.lookahead - j.lo - o.margin;
      Direction(j, command) < 0.0 && 0.0 <= room <= o.taper ==>
        Guarded(j, o, q, speed, command) * o.taper == Clamp(command, -1.0, 1.0) * room
  {
    hide Direction, Clamp;
    var room := Headroom(j, o, q, speed, command);
    if 0.0 <= room <= o.taper { ShareOfTaper(Clamp(command, -1.0, 1.0), room, o.taper); }
  }

  lemma ShareOfTaper(command: real, room: real, taper: real)
    requires 0.0 <= room <= taper && taper > 0.0
    ensures Times(command, Clamp(room / taper, 0.0, 1.0)) * taper == command * room
  {
    PartOfWhole(room, taper);
    assert command * (room / taper) * taper == command * (room / taper * taper);
  }

  /** Leaving a limit is never slowed by that limit: there is room however far out the joint is. */
  lemma ReturningIsFree(j: Joint, o: Options, q: real, speed: real, command: real)
    requires Legal(j, o) && -1.0 <= command <= 1.0
    requires (Direction(j, command) < 0.0 && q >= j.hi - o.margin && speed >= 0.0)
          || (Direction(j, command) > 0.0 && q <= j.lo + o.margin && speed <= 0.0)
    ensures Guarded(j, o, q, speed, command) == command
  {
    hide Direction, Guarded;
    UnchangedIff(j, o, q, speed, command);
  }

  /** The nearer the limit, the smaller the command. */
  lemma NearerIsSlower(j: Joint, o: Options, p: real, q: real, speed: real, command: real)
    requires Legal(j, o) && p <= q && Direction(j, command) > 0.0
    ensures Scale(j, o, q, speed, command) <= Scale(j, o, p, speed, command)
  {
    hide Direction, Times;
    QuotientsInOrder(Headroom(j, o, q, speed, command), Headroom(j, o, p, speed, command), o.taper);
  }

  // ---- All joints ----

  datatype Reason = Unavailable | Fine | Limited | InwardRecovery

  datatype Result = Result(valid: bool, commands: seq<real>, scales: seq<real>, predicted: seq<real>, limited: seq<bool>, reason: Reason)

  predicate Outside(j: Joint, o: Options, q: real) { q < j.lo + o.margin || q > j.hi - o.margin }

  method Apply(joints: seq<Joint>, o: Options, q: seq<real>, speed: seq<real>, command: seq<real>, usable: bool)
    returns (r: Result)
    requires o.taper > 0.0 && |joints| == |q| == |speed| == |command| == 3 && forall i | 0 <= i < 3 :: Legal(joints[i], o)
    ensures r.valid == usable && |r.commands| == |r.scales| == |r.predicted| == |r.limited| == 3
    ensures !usable ==> r.commands == r.scales == r.predicted == Nowhere && r.limited == [false, false, false] && r.reason == Unavailable
    ensures usable ==> forall i | 0 <= i < 3 ::
      && r.commands[i] == Guarded(joints[i], o, q[i], speed[i], command[i]) && r.limited[i] == (r.commands[i] != command[i])
      && r.scales[i] == Scale(joints[i], o, q[i], speed[i], command[i])
      && r.predicted[i] == Predicted(joints[i], o, q[i], speed[i], command[i])
    ensures r.reason == InwardRecovery <==> usable && exists i | 0 <= i < 3 :: Outside(joints[i], o, q[i])
    ensures r.reason == Limited <==>
      usable && (exists i | 0 <= i < 3 :: r.limited[i]) && forall i | 0 <= i < 3 :: !Outside(joints[i], o, q[i])
  {
    hide Guarded, Scale, Predicted;
    if !usable { return Result(false, Nowhere, Nowhere, Nowhere, [false, false, false], Unavailable); }
    var commands, scales, predicted, limited, reason, i := [], [], [], [], Fine, 0;
    while i < 3
      invariant 0 <= i <= 3 && |commands| == |scales| == |predicted| == |limited| == i && (reason == Fine || reason == Limited)
      invariant forall k | 0 <= k < i ::
        && commands[k] == Guarded(joints[k], o, q[k], speed[k], command[k])
        && scales[k] == Scale(joints[k], o, q[k], speed[k], command[k])
        && predicted[k] == Predicted(joints[k], o, q[k], speed[k], command[k])
        && limited[k] == (commands[k] != command[k])
      invariant reason == Limited <==> exists k | 0 <= k < i :: limited[k]
    {
      var p, scale, g := GuardOne(joints[i], o, q[i], speed[i], command[i]);
      predicted := predicted + [p];
      scales := scales + [scale];
      commands := commands + [g];
      limited := limited + [g != command[i]];
      if g != command[i] { reason := Limited; }
      i := i + 1;
    }
    i := 0;
    ghost var tapered := reason;
    while i < 3
      invariant 0 <= i <= 3
      invariant reason == if exists k | 0 <= k < i :: Outside(joints[k], o, q[k]) then InwardRecovery else tapered
    {
      if q[i] < joints[i].lo + o.margin || q[i] > joints[i].hi - o.margin { reason := InwardRecovery; }
      i := i + 1;
    }
    return Result(true, commands, scales, predicted, limited, reason);
  }

  const Nowhere: seq<real> := [0.0, 0.0, 0.0]

  /** One joint: the position ahead first, then the room left there, the scale and the command. */
  method GuardOne(j: Joint, o: Options, q: real, speed: real, command: real) returns (p: real, scale: real, g: real)
    requires o.taper > 0.0
    ensures p == Predicted(j, o, q, speed, command)
    ensures scale == Scale(j, o, q, speed, command)
    ensures g == Guarded(j, o, q, speed, command)
  {
    hide Times;
    var bounded := Clamp(command, -1.0, 1.0);
    var direction := bounded * j.sign;
    var toward := 0.0;
    if direction > 0.0 { toward := Max(0.0, speed); } else if direction < 0.0 { toward := Min(0.0, speed); }
    p := q + Times(toward, o.lookahead);
    var room := o.taper;
    if direction > 0.0 { room := j.hi - o.margin - p; } else if direction < 0.0 { room := p - j.lo - o.margin; }
    scale := Clamp(room / o.taper, 0.0, 1.0);
    g := Times(bounded, scale);
  }
}
