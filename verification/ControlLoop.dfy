/**
  The control loop around the safety core: eight client slots, one owner of the drive lease, replay
  protection per connection, and the order of one iteration.
 */
module ControlLoop {
  import opened Safety

  const CLIENTS := 8
  const NOBODY := -1

  /** `processed` is history: the sequence numbers accepted on this connection. */
  datatype Client = Client(connected: bool, seen: bool, sequence: nat, processed: seq<nat>)

  const NoClient := Client(false, false, 0, [])

  type Slot = i: nat | i < CLIENTS

  type Clients = s: seq<Client> | |s| == CLIENTS
    witness [NoClient, NoClient, NoClient, NoClient, NoClient, NoClient, NoClient, NoClient]

  /** One receive on a connection: its end, a packet that does not decode, or a packet. */
  datatype Message = Closed | Undecodable | Decoded(p: Packet)

  /** `planFrom` is history: the client whose packet the core last took as its plan. */
  datatype Loop = Loop(core: Core, owner: int, clients: Clients, lastCommand: nat, planFrom: int)
  {
    predicate Owned() { 0 <= owner < CLIENTS && clients[owner].connected }
  }

  const Start := Loop(PowerOn, NOBODY, [NoClient, NoClient, NoClient, NoClient, NoClient, NoClient, NoClient, NoClient], 0, NOBODY)

  const PRODUCER_DISCONNECTED := Other(1)
  const INVALID_OR_REPLAYED := Other(2)
  const IMU_RESET := Other(3)
  const DEADLINE := Other(4)
  const SERIAL_ERROR := Other(5)

  function CloseClient(l: Loop, ci: Slot): Loop
  {
    var gone := if l.owner == ci then l.(core := Faulted(l.core, PRODUCER_DISCONNECTED), owner := NOBODY) else l;
    gone.(clients := gone.clients[ci := NoClient])
  }

  function Rejected(l: Loop, ci: Slot): Loop {
    if l.owner == ci then l.(core := Faulted(l.core, INVALID_OR_REPLAYED)) else l
  }

  /** A decoded, fresh packet of client `ci`. */
  function Handle(cfg: Config, l: Loop, ci: Slot, p: Packet, now: real, healthy: bool): Loop
  {
    var old_ := l.clients[ci];
    var c := l.(clients := l.clients[ci := old_.(seen := true, sequence := p.sequence, processed := old_.processed + [p.sequence])]);
    if p.op == Status then c
    else if p.op == Drive && 0 <= c.owner && c.owner != ci then c
    else
      var core := Receive(cfg, c.core, p, now, healthy);
      c.(core := core,
         owner := if p.op == Drive then ci else if p.op == Disarm then NOBODY else c.owner,
         lastCommand := if p.op == Drive then p.sequence else c.lastCommand,
         planFrom := if p.op == Drive && (core.state == Arming || core.state == Armed) then ci else c.planFrom)
  }

  /** A packet that decodes and is newer than anything this connection sent. */
  predicate Accepted(l: Loop, ci: Slot, m: Message) {
    l.clients[ci].connected && m.Decoded? && !(l.clients[ci].seen && m.p.sequence <= l.clients[ci].sequence)
  }

  function ServeMessage(cfg: Config, l: Loop, ci: Slot, m: Message, now: real, healthy: bool): Loop
  {
    if !l.clients[ci].connected then l else
    match m
    case Closed => CloseClient(l, ci)
    case Undecodable => Rejected(l, ci)
    case Decoded(p) =>
      if Accepted(l, ci, m) then Handle(cfg, l, ci, p, now, healthy) else Rejected(l, ci)
  }

  datatype Event =
    | Ticking(now: real, healthy: bool)
    | Connecting(ci: Slot)
    | Serving(ci: Slot, m: Message, now: real, healthy: bool)
    | Faulting(reason: Reason)
    | ParserChanged

  function Step(cfg: Config, l: Loop, e: Event): Loop
  {
    match e
    case Ticking(now, healthy) => l.(core := Tick(cfg, l.core, now, healthy).core)
    case Connecting(ci) => if l.clients[ci].connected then l else l.(clients := l.clients[ci := NoClient.(connected := true)])
    case Serving(ci, m, now, healthy) => ServeMessage(cfg, l, ci, m, now, healthy)
    case Faulting(reason) => l.(core := Faulted(l.core, reason))
    case ParserChanged => if l.core.state != Disarmed then l.(core := Faulted(l.core, IMU_RESET)) else l
  }

  function Run(cfg: Config, l: Loop, run: seq<Event>): Loop
    decreases |run|
  {
    if run == [] then l else Step(cfg, Run(cfg, l, run[..|run| - 1]), run[|run| - 1])
  }

  /** A client that sent just these. */
  function Sent(ps: seq<nat>): Client
    requires ps != []
  {
    Client(true, true, ps[|ps| - 1], ps)
  }

  lemma FirstIsTaken(cfg: Config, l: Loop, ci: Slot, p: Packet, now: real)
    requires cfg.Valid() && ArmingPacket(p) && l.core == PowerOn && l.owner == NOBODY && l.clients[ci] == NoClient.(connected := true)
    ensures var m := ServeMessage(cfg, l, ci, Decoded(p), now, true);
      m.core.state == Arming && m.core.armStarted == now && m.owner == ci && m.clients[ci] == Sent([p.sequence])
  {}

  lemma SecondArms(cfg: Config, l: Loop, ci: Slot, n: nat, p: Packet, now: real)
    requires ArmingPacket(p) && l.core.state == Arming && l.owner == ci && l.clients[ci] == Sent([n]) && n < p.sequence
    requires now - l.core.armStarted >= cfg.armDuration
    ensures var m := ServeMessage(cfg, l, ci, Decoded(p), now, true);
      && m.core.state == Armed && m.core.plan == p && m.owner == ci && m.planFrom == ci && m.lastCommand == p.sequence
      && m.clients[ci].processed == [n, p.sequence]
  {}

  /**
    From power-on a client that connects and sends two arming packets, the arming time apart, with rising
    numbers, owns an armed core that drives the second one.
   */
  lemma ClientArms(cfg: Config, ci: Slot, first: Packet, last: Packet, start: real, now: real)
    requires cfg.Valid() && now - start >= cfg.armDuration && first.sequence < last.sequence
    requires ArmingPacket(first) && ArmingPacket(last)
    ensures var l := Run(cfg, Start, [Connecting(ci), Serving(ci, Decoded(first), start, true), Serving(ci, Decoded(last), now, true)]);
      && l.core.state == Armed && l.core.plan == last && l.owner == ci && l.planFrom == ci && l.lastCommand == last.sequence
      && l.clients[ci].processed == [first.sequence, last.sequence]
  {
    hide ServeMessage;
    ThreeSteps(cfg, Connecting(ci), Serving(ci, Decoded(first), start, true), Serving(ci, Decoded(last), now, true));
    var connected := Step(cfg, Start, Connecting(ci));
    FirstIsTaken(cfg, connected, ci, first, start);
    SecondArms(cfg, ServeMessage(cfg, connected, ci, Decoded(first), start, true), ci, first.sequence, last, now);
  }

  lemma ThreeSteps(cfg: Config, a: Event, b: Event, c: Event)
    ensures Run(cfg, Start, [a, b, c]) == Step(cfg, Step(cfg, Step(cfg, Start, a), b), c)
  {
    hide Step;
    assert [a, b, c][..2] == [a, b] && [a, b][..1] == [a] && [a][..0] == [];
    assert Run(cfg, Start, [a, b]) == Step(cfg, Run(cfg, Start, [a]), b);
    assert Run(cfg, Start, [a]) == Step(cfg, Start, a);
  }

  // ---- Ownership ----

  ghost predicate Increasing(s: seq<nat>) { forall i, j | 0 <= i < j < |s| :: s[i] < s[j] }

  ghost predicate ClientInv(c: Client) {
    && Increasing(c.processed)
    && (c.seen <==> c.processed != [])
    && (c.seen ==> c.sequence == c.processed[|c.processed| - 1])
  }

  ghost predicate Inv(l: Loop) {
    && (forall i | 0 <= i < CLIENTS :: ClientInv(l.clients[i]))
    && (l.owner == NOBODY || l.Owned())
    && (l.core.state == Arming || l.core.state == Armed || l.core.state == Decaying ==> l.Owned())
    && (l.core.state == Arming || l.core.state == Armed ==> l.planFrom == l.owner)
  }

  lemma TickOnlyStops(cfg: Config, c: Core, now: real, healthy: bool)
    ensures var s := Tick(cfg, c, now, healthy).core.state;
      && (s == Arming || s == Armed ==> s == c.state)
      && (s == Decaying ==> c.state == Armed || c.state == Decaying)
      && (s == Arming ==> healthy && !LeaseExpired(cfg, c, now) && Tick(cfg, c, now, healthy).core == c)
  {}

  lemma OnlyDriveStarts(cfg: Config, c: Core, p: Packet, now: real, healthy: bool)
    ensures var s := Receive(cfg, c, p, now, healthy).state;
      && (p.op != Drive ==> s == c.state || s == Disarmed || s == Fault)
      && (s == Decaying ==> c.state == Decaying)
      && (p.op == Disarm ==> s == Disarmed) && (p.op == Estop ==> s == Fault)
  {}

  lemma HandleKeepsInv(cfg: Config, l: Loop, ci: Slot, p: Packet, now: real, healthy: bool)
    requires Inv(l) && Accepted(l, ci, Decoded(p))
    ensures Inv(Handle(cfg, l, ci, p, now, healthy))
  {
    OnlyDriveStarts(cfg, l.core, p, now, healthy);
    assert ClientInv(l.clients[ci]);
  }

  lemma InvKept(cfg: Config, l: Loop, e: Event)
    requires Inv(l)
    ensures Inv(Step(cfg, l, e))
  {
    match e
    case Ticking(now, healthy) => TickOnlyStops(cfg, l.core, now, healthy);
    case Serving(ci, m, now, healthy) =>
      if Accepted(l, ci, m) {
        HandleKeepsInv(cfg, l, ci, m.p, now, healthy);
      }
    case _ =>
  }

  /**
    In every run: while the core is arming, armed or decaying somebody connected owns it; in arming
    and armed the plan is the owner's; and the packets a connection got processed have strictly
    increasing sequence numbers.
   */
  lemma {:induction false} OwnershipOverRuns(cfg: Config, run: seq<Event>)
    ensures Inv(Run(cfg, Start, run))
    decreases |run|
  {
    if run != [] {
      OwnershipOverRuns(cfg, run[..|run| - 1]);
      InvKept(cfg, Run(cfg, Start, run[..|run| - 1]), run[|run| - 1]);
    }
  }

  // ---- Arming ----

  /** Event `e` serves a packet that the core takes from the owner-to-be `ci`. */
  ghost predicate Takes(l: Loop, e: Event, ci: int) {
    && e.Serving? && e.ci == ci && Accepted(l, e.ci, e.m)
    && e.healthy && ArmingPacket(e.m.p)
  }

  /** What may happen during the hold: healthy ticks within the lease, and packets that keep it. */
  ghost predicate KeepsHold(cfg: Config, l: Loop, e: Event) {
    match e
    case Ticking(now, healthy) => healthy && !LeaseExpired(cfg, l.core, now)
    case Connecting(_) => true
    case Serving(ci, m, now, healthy) =>
      || Takes(l, e, l.owner)
      || (Accepted(l, ci, m) && m.p.op == Status)
      || (ci != l.owner && !(Accepted(l, ci, m) && (m.p.op == Disarm || m.p.op == Estop)))
    case Faulting(_) => false
    case ParserChanged => false
  }

  /** State before event i of a run from the start. */
  function At(cfg: Config, run: seq<Event>, i: nat): Loop
    requires i <= |run|
  {
    Run(cfg, Start, run[..i])
  }

  /** Event i leaves the hold of `owner`, begun at time `since`, in place. */
  ghost predicate Holding(cfg: Config, run: seq<Event>, i: nat, owner: int, since: real)
    requires i < |run|
  {
    var l := At(cfg, run, i);
    l.core.state == Arming && l.owner == owner && l.core.armStarted == since && KeepsHold(cfg, l, run[i])
  }

  /** A hold of `owner` begins with event j and lasts through the rest of the run. */
  ghost predicate HeldFrom(cfg: Config, run: seq<Event>, j: nat, owner: int) {
    && j < |run|
    && At(cfg, run, j).core.state == Disarmed
    && Takes(At(cfg, run, j), run[j], owner)
    && forall i | j < i < |run| :: Holding(cfg, run, i, owner, run[j].now)
  }

  lemma AtPrefix(cfg: Config, run: seq<Event>, e: Event, i: nat)
    requires i <= |run|
    ensures At(cfg, run + [e], i) == At(cfg, run, i)
  {
    assert (run + [e])[..i] == run[..i];
  }

  lemma HoldGrows(cfg: Config, run: seq<Event>, e: Event, j: nat, owner: int)
    requires HeldFrom(cfg, run, j, owner)
    requires var l := Run(cfg, Start, run);
      l.core.state == Arming && l.owner == owner && l.core.armStarted == run[j].now && KeepsHold(cfg, l, e)
    ensures HeldFrom(cfg, run + [e], j, owner)
  {
    var r := run + [e];
    AtPrefix(cfg, run, e, j);
    forall i | j < i < |r| ensures Holding(cfg, r, i, owner, r[j].now) {
      AtPrefix(cfg, run, e, i);
      if i < |run| { assert Holding(cfg, run, i, owner, run[j].now); } else { assert run[..i] == run; }
    }
  }

  /** The only ways a step ends in Arming or Armed. */
  lemma HowArmingComesAbout(cfg: Config, l: Loop, e: Event)
    requires cfg.Valid() && Inv(l)
    requires Step(cfg, l, e).core.state == Arming || (Step(cfg, l, e).core.state == Armed && l.core.state != Armed)
    ensures var t := Step(cfg, l, e);
      || (l.core.state == Arming && t.owner == l.owner && t.core.armStarted == l.core.armStarted && KeepsHold(cfg, l, e)
          && (t.core.state == Armed ==> Takes(l, e, l.owner) && e.now - l.core.armStarted >= cfg.armDuration))
      || (l.core.state == Disarmed && t.core.state == Arming && Takes(l, e, t.owner) && t.core.armStarted == e.now)
  {
    match e
    case Ticking(now, healthy) => TickOnlyStops(cfg, l.core, now, healthy);
    case Serving(ci, m, now, healthy) =>
      if Accepted(l, ci, m) {
        OnlyDriveStarts(cfg, l.core, m.p, now, healthy);
      }
    case _ =>
  }

  /** Whenever the core is arming, a hold of its owner is under way since `armStarted`. */
  lemma {:induction false} ArmingIsAHold(cfg: Config, run: seq<Event>) returns (j: nat)
    requires cfg.Valid() && Run(cfg, Start, run).core.state == Arming
    ensures HeldFrom(cfg, run, j, Run(cfg, Start, run).owner)
    ensures run[j].now == Run(cfg, Start, run).core.armStarted
    decreases |run|
  {
    var before, e := run[..|run| - 1], run[|run| - 1];
    var l := Run(cfg, Start, before);
    assert run == before + [e];
    OwnershipOverRuns(cfg, before);
    HowArmingComesAbout(cfg, l, e);
    if l.core.state == Arming {
      j := ArmingIsAHold(cfg, before);
      HoldGrows(cfg, before, e, j, l.owner);
    } else {
      j := |before|;
      AtPrefix(cfg, before, e, j);
      assert before[..j] == before;
    }
  }

  /**
    The machine becomes armed only at the end of a hold: from a centered packet with deadman and arm
    set, for at least `armDuration`, nothing happened but healthy ticks within the lease and packets
    of the same owner that are centered, armed and healthy themselves.
   */
  lemma ArmedOnlyAfterAHold(cfg: Config, run: seq<Event>, e: Event) returns (j: nat)
    requires cfg.Valid()
    requires Run(cfg, Start, run).core.state != Armed && Step(cfg, Run(cfg, Start, run), e).core.state == Armed
    ensures var l := Run(cfg, Start, run);
      && HeldFrom(cfg, run + [e], j, l.owner) && j < |run|
      && Takes(l, e, l.owner) && e.now - run[j].now >= cfg.armDuration
  {
    var l := Run(cfg, Start, run);
    OwnershipOverRuns(cfg, run);
    HowArmingComesAbout(cfg, l, e);
    j := ArmingIsAHold(cfg, run);
    HoldGrows(cfg, run, e, j, l.owner);
  }

  // ---- One iteration ----

  /** Faults found first, a tick, new connections, messages, and a tick again, all at one instant. */
  ghost predicate IsIteration(faults: seq<Event>, connects: seq<Event>, serves: seq<Event>, now: real, healthy: bool) {
    && (forall e <- faults :: e.Faulting? || e.ParserChanged?)
    && (forall e <- connects :: e.Connecting?)
    && (forall e <- serves :: e.Serving? && e.now == now && e.healthy == healthy)
  }

  function Iteration(faults: seq<Event>, connects: seq<Event>, serves: seq<Event>, now: real, healthy: bool): seq<Event> {
    faults + [Ticking(now, healthy)] + connects + serves + [Ticking(now, healthy)]
  }

  lemma {:induction false} RunInParts(cfg: Config, l: Loop, a: seq<Event>, b: seq<Event>)
    ensures Run(cfg, l, a + b) == Run(cfg, Run(cfg, l, a), b)
    decreases |b|
  {
    if b == [] {
      assert a + b == a;
    } else {
      assert (a + b)[..|a + b| - 1] == a + b[..|b| - 1];
      RunInParts(cfg, l, a, b[..|b| - 1]);
    }
  }

  /** After a tick at `now` that left Armed: whatever is served at `now`, nothing is armed again. */
  ghost predicate Unarmed(c: Core, last: Commands, now: real) {
    || (c.state == Decaying && c.decayFrom == last && c.decayStarted == now)
    || c.state == Fault || c.state == Disarmed || (c.state == Arming && c.armStarted == now)
  }

  lemma {:induction false} ServingNeverRearms(cfg: Config, l: Loop, run: seq<Event>, last: Commands, now: real, healthy: bool)
    requires cfg.Valid() && Unarmed(l.core, last, now)
    requires forall e <- run :: (e.Serving? && e.now == now && e.healthy == healthy) || e.Connecting?
    ensures Unarmed(Run(cfg, l, run).core, last, now)
    decreases |run|
  {
    hide Step, Unarmed;
    if run != [] {
      ServingNeverRearms(cfg, l, run[..|run| - 1], last, now, healthy);
      assert run[|run| - 1] in run;
      ServingStaysUnarmed(cfg, Run(cfg, l, run[..|run| - 1]), run[|run| - 1], last, now, healthy);
    }
  }

  lemma ServingStaysUnarmed(cfg: Config, l: Loop, e: Event, last: Commands, now: real, healthy: bool)
    requires cfg.Valid() && Unarmed(l.core, last, now)
    requires (e.Serving? && e.now == now && e.healthy == healthy) || e.Connecting?
    ensures Unarmed(Step(cfg, l, e).core, last, now)
  {}

  /**
    A renewal arriving in the iteration that finds the lease or the chunk run out comes too late:
    the output is the last armed command or zero, the machine is not armed and the pump is off.
   */
  lemma ExpiryBeatsRenewal(cfg: Config, l: Loop, connects: seq<Event>, serves: seq<Event>, now: real, healthy: bool)
    requires cfg.Valid() && IsIteration([], connects, serves, now, healthy)
    requires l.core.state == Armed && (LeaseExpired(cfg, l.core, now) || Exhausted(l.core.plan, now))
    ensures var before := Run(cfg, l, [Ticking(now, healthy)] + connects + serves);
      var t := Tick(cfg, before.core, now, healthy);
      && Run(cfg, l, Iteration([], connects, serves, now, healthy)).core == t.core
      && t.core.state != Armed && !t.core.PumpOn()
      && (t.out == l.core.previous || t.out == Zero)
  {
    hide Run, Step, Tick, Unarmed;
    var ticked, rest := Step(cfg, l, Ticking(now, healthy)), connects + serves;
    RunOfNone(cfg, l);
    StepOfTick(cfg, l, now, healthy);
    FirstTickExpires(cfg, l.core, now, healthy);
    ServingNeverRearms(cfg, ticked, rest, l.core.previous, now, healthy);
    LastTickStaysUnarmed(cfg, Run(cfg, ticked, rest).core, l.core.previous, now, healthy);
    StepOfTick(cfg, Run(cfg, ticked, rest), now, healthy);
    RunOfIteration(cfg, l, [], connects, serves, now, healthy);
    assert [] + [Ticking(now, healthy)] + connects + serves == [Ticking(now, healthy)] + connects + serves;
  }

  lemma RunOfNone(cfg: Config, l: Loop)
    ensures Run(cfg, l, []) == l
  {}

  lemma StepOfTick(cfg: Config, l: Loop, now: real, healthy: bool)
    ensures Step(cfg, l, Ticking(now, healthy)).core == Tick(cfg, l.core, now, healthy).core
  {}

  lemma RunOfIteration(cfg: Config, l: Loop, faults: seq<Event>, connects: seq<Event>, serves: seq<Event>, now: real, healthy: bool)
    ensures var t := Ticking(now, healthy);
      var served := Run(cfg, Step(cfg, Run(cfg, l, faults), t), connects + serves);
      && Run(cfg, l, faults + [t] + connects + serves) == served
      && Run(cfg, l, Iteration(faults, connects, serves, now, healthy)) == Step(cfg, served, t)
  {
    var t := Ticking(now, healthy);
    RunOfFront(cfg, l, faults, t, connects + serves);
    assert faults + [t] + connects + serves == (faults + [t]) + (connects + serves);
    assert Iteration(faults, connects, serves, now, healthy) == (faults + [t] + connects + serves) + [t];
    RunAndLast(cfg, l, faults + [t] + connects + serves, t);
  }

  lemma RunOfFront(cfg: Config, l: Loop, faults: seq<Event>, t: Event, rest: seq<Event>)
    ensures Run(cfg, l, (faults + [t]) + rest) == Run(cfg, Step(cfg, Run(cfg, l, faults), t), rest)
  {
    RunAndLast(cfg, l, faults, t);
    RunInParts(cfg, l, faults + [t], rest);
  }

  lemma RunAndLast(cfg: Config, l: Loop, run: seq<Event>, e: Event)
    ensures Run(cfg, l, run + [e]) == Step(cfg, Run(cfg, l, run), e)
  {
    assert (run + [e])[..|run + [e]| - 1] == run;
  }

  lemma RunOfOne(cfg: Config, l: Loop, e: Event)
    ensures Run(cfg, l, [e]) == Step(cfg, l, e)
  {
    assert [e][..0] == [];
  }

  lemma FirstTickExpires(cfg: Config, c: Core, now: real, healthy: bool)
    requires cfg.Valid() && c.state == Armed && (LeaseExpired(cfg, c, now) || Exhausted(c.plan, now))
    ensures Unarmed(Tick(cfg, c, now, healthy).core, c.previous, now)
  {}

  lemma LastTickStaysUnarmed(cfg: Config, c: Core, last: Commands, now: real, healthy: bool)
    requires cfg.Valid() && Unarmed(c, last, now)
    ensures var t := Tick(cfg, c, now, healthy);
      t.core.state != Armed && !t.core.PumpOn() && (t.out == last || t.out == Zero)
  {
    ScaledByOne(last);
    var e := Expired(cfg, Checked(cfg, c, now, healthy), now);
    if e.state == Decaying && cfg.decay > 0.0 { assert DecayScale(cfg, e, now) == 1.0; }
  }

  lemma ScaledByOne(c: Commands)
    ensures Scaled(c, 1.0) == c
  {
    forall j | 0 <= j < 6 ensures Scaled(c, 1.0)[j] == c[j] {}
  }

  // ---- The object ----

  class Server {
    const core: ControlCore
    var owner: int
    var clients: Clients
    var lastCommand: nat
    ghost var planFrom: int

    constructor (core: ControlCore)
      requires core.View() == PowerOn
      ensures this.core == core && View() == Start
    {
      this.core := core;
      owner, lastCommand, planFrom := NOBODY, 0, NOBODY;
      clients := Start.clients;
    }

    ghost function View(): Loop
      reads this, core
    {
      Loop(core.View(), owner, clients, lastCommand, planFrom)
    }

    method Close(ci: Slot)
      modifies this, core
      ensures View() == CloseClient(old(View()), ci)
    {
      if owner == ci {
        core.RaiseFault(PRODUCER_DISCONNECTED);
        owner := NOBODY;
      }
      clients := clients[ci := NoClient];
    }

    method HandleMessage(ci: Slot, m: Message, now: real, healthy: bool)
      requires clients[ci].connected
      modifies this, core
      ensures View() == ServeMessage(core.cfg, old(View()), ci, m, now, healthy)
    {
      if m.Closed? { Close(ci); return; }
      var client := clients[ci];
      if m.Undecodable? || (client.seen && m.p.sequence <= client.sequence) {
        if owner == ci { core.RaiseFault(INVALID_OR_REPLAYED); }
        return;
      }
      var p := m.p;
      clients := clients[ci := client.(seen := true, sequence := p.sequence, processed := client.processed + [p.sequence])];
      if p.op == Status { return; }
      if p.op == Drive {
        if owner >= 0 && owner != ci { return; }
        owner := ci;
        lastCommand := p.sequence;
      }
      core.ReceivePacket(p, now, healthy);
      if p.op == Drive && (core.state == Arming || core.state == Armed) { planFrom := ci; }
      if p.op == Disarm { owner := NOBODY; }
    }

    /** Only its end disconnects a client. */
    lemma StaysConnected(l: Loop, ci: Slot, m: Message, now: real, healthy: bool)
      requires l.clients[ci].connected && !m.Closed?
      ensures ServeMessage(core.cfg, l, ci, m, now, healthy).clients[ci].connected
    {}

    lemma StepOfServing(l: Loop, ci: Slot, m: Message, now: real, healthy: bool)
      ensures Step(core.cfg, l, Serving(ci, m, now, healthy)) == ServeMessage(core.cfg, l, ci, m, now, healthy)
    {}

    /** At most eight queued messages of one client; a closed connection ends the turn. */
    method Serve(ci: Slot, inbox: seq<Message>, now: real, healthy: bool) returns (ghost served: seq<Event>)
      requires clients[ci].connected
      modifies this, core
      ensures |served| <= 8 && |served| <= |inbox|
      ensures forall k | 0 <= k < |served| :: served[k] == Serving(ci, inbox[k], now, healthy)
      ensures View() == Run(core.cfg, old(View()), served)
      ensures |served| < |inbox| && |served| < 8 ==> served != [] && served[|served| - 1].m.Closed?
    {
      hide Step, ServeMessage, Run;
      RunOfNone(core.cfg, View());
      served := [];
      var message := 0;
      while message < 8 && message < |inbox|
        invariant 0 <= message <= 8 && message <= |inbox| && |served| == message
        invariant clients[ci].connected
        invariant forall k | 0 <= k < |served| :: served[k] == Serving(ci, inbox[k], now, healthy)
        invariant View() == Run(core.cfg, old(View()), served)
      {
        ghost var before := View();
        HandleMessage(ci, inbox[message], now, healthy);
        RunAndLast(core.cfg, old(View()), served, Serving(ci, inbox[message], now, healthy));
        StepOfServing(before, ci, inbox[message], now, healthy);
        served := served + [Serving(ci, inbox[message], now, healthy)];
        if inbox[message].Closed? { return; }
        StaysConnected(before, ci, inbox[message], now, healthy);
        message := message + 1;
      }
    }

    /** A new connection takes the first free slot, if there is one. */
    method Accept() returns (ghost taken: seq<Event>)
      modifies this
      ensures forall e <- taken :: e.Connecting?
      ensures View() == Run(core.cfg, old(View()), taken) && core.View() == old(core.View())
    {
      taken := [];
      var i := 0;
      while i < CLIENTS
        invariant 0 <= i <= CLIENTS && taken == [] && View() == old(View())
      {
        if !clients[i].connected {
          RunOfOne(core.cfg, View(), Connecting(i));
          clients := clients[i := NoClient.(connected := true)];
          return [Connecting(i)];
        }
        i := i + 1;
      }
    }

    /** At most eight waiting connections; those that find no free slot are dropped. */
    method AcceptAll(waiting: nat) returns (ghost taken: seq<Event>)
      modifies this
      ensures forall e <- taken :: e.Connecting?
      ensures View() == Run(core.cfg, old(View()), taken) && core.View() == old(core.View())
    {
      taken := [];
      var accepted := 0;
      while accepted < 8 && accepted < waiting
        invariant forall e <- taken :: e.Connecting?
        invariant View() == Run(core.cfg, old(View()), taken) && core.View() == old(core.View())
      {
        ghost var one := Accept();
        RunInParts(core.cfg, old(View()), taken, one);
        taken := taken + one;
        accepted := accepted + 1;
      }
    }

    /** Every connected client in turn. */
    method ServeAll(inboxes: seq<seq<Message>>, now: real, healthy: bool) returns (ghost served: seq<Event>)
      requires |inboxes| == CLIENTS
      modifies this, core
      ensures forall e <- served :: e.Serving? && e.now == now && e.healthy == healthy
      ensures View() == Run(core.cfg, old(View()), served)
    {
      served := [];
      var ci := 0;
      while ci < CLIENTS
        invariant 0 <= ci <= CLIENTS
        invariant forall e <- served :: e.Serving? && e.now == now && e.healthy == healthy
        invariant View() == Run(core.cfg, old(View()), served)
      {
        if clients[ci].connected {
          ghost var turn := Serve(ci, inboxes[ci], now, healthy);
          RunInParts(core.cfg, old(View()), served, turn);
          served := served + turn;
        }
        ci := ci + 1;
      }
    }

    /** A missed deadline, a lost serial line or a restarted parser is a fault before anything else. */
    method FindFaults(deadlineMissed: bool, serialError: bool, parserChanged: bool) returns (ghost found: seq<Event>)
      modifies this, core
      ensures forall e <- found :: e.Faulting? || e.ParserChanged?
      ensures View() == Run(core.cfg, old(View()), found)
    {
      hide Step;
      found := [];
      if deadlineMissed { found := Raise(found, DEADLINE, old(View())); }
      if serialError { found := Raise(found, SERIAL_ERROR, old(View())); }
      if parserChanged { found := NoteParser(found, old(View())); }
    }

    method Raise(ghost found: seq<Event>, reason: Reason, ghost from: Loop) returns (ghost more: seq<Event>)
      requires View() == Run(core.cfg, from, found)
      modifies this, core
      ensures more == found + [Faulting(reason)] && View() == Run(core.cfg, from, more)
    {
      RunAndLast(core.cfg, from, found, Faulting(reason));
      core.RaiseFault(reason);
      more := found + [Faulting(reason)];
    }

    method NoteParser(ghost found: seq<Event>, ghost from: Loop) returns (ghost more: seq<Event>)
      requires View() == Run(core.cfg, from, found)
      modifies this, core
      ensures more == found + [ParserChanged] && View() == Run(core.cfg, from, more)
    {
      RunAndLast(core.cfg, from, found, ParserChanged);
      if core.state != Disarmed { core.RaiseFault(IMU_RESET); }
      more := found + [ParserChanged];
    }

    method TickOnce(now: real, healthy: bool) returns (out: Commands)
      modifies this, core
      ensures View() == Step(core.cfg, old(View()), Ticking(now, healthy))
      ensures Ticked(core.View(), out) == Tick(core.cfg, old(core.View()), now, healthy)
    {
      out := core.TickAt(now, healthy);
    }

    /** New connections, then the messages of everybody. */
    method Listen(now: real, healthy: bool, waiting: nat, inboxes: seq<seq<Message>>)
      returns (ghost connects: seq<Event>, ghost serves: seq<Event>)
      requires |inboxes| == CLIENTS
      modifies this, core
      ensures IsIteration([], connects, serves, now, healthy)
      ensures View() == Run(core.cfg, old(View()), connects + serves)
    {
      connects := AcceptAll(waiting);
      serves := ServeAll(inboxes, now, healthy);
      RunInParts(core.cfg, old(View()), connects, serves);
    }

    /** One iteration: expiry is checked before any renewal that arrived meanwhile is looked at. */
    method Iterate(now: real, healthy: bool, deadlineMissed: bool, serialError: bool, parserChanged: bool,
                   waiting: nat, inboxes: seq<seq<Message>>)
      returns (out: Commands, ghost faults: seq<Event>, ghost connects: seq<Event>, ghost serves: seq<Event>)
      requires |inboxes| == CLIENTS
      modifies this, core
      ensures IsIteration(faults, connects, serves, now, healthy)
      ensures View() == Run(core.cfg, old(View()), Iteration(faults, connects, serves, now, healthy))
      ensures Ticked(core.View(), out) ==
        Tick(core.cfg, Run(core.cfg, old(View()), faults + [Ticking(now, healthy)] + connects + serves).core, now, healthy)
    {
      faults := FindFaults(deadlineMissed, serialError, parserChanged);
      var unused := TickOnce(now, healthy);
      connects, serves := Listen(now, healthy, waiting, inboxes);
      out := TickOnce(now, healthy);
      RunOfIteration(core.cfg, old(View()), faults, connects, serves, now, healthy);
    }
  }
}
