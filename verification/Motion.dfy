/** Distance and energy over whole runs: the steps of the legs add up exactly to the length
    of the path, and the battery to the energy spent on it. */
module Motion {
  import opened Vda5050
  import opened Platform
  import opened RobotState
  import opened Transitions
  import opened Traversal

  // ---- one step ---------------------------------------------------------------------

  lemma SquaresDiffer(a: real, b: real)
    requires 0.0 <= a < b
    ensures a * a < b * b
  {
    var less, more := b - a, b + a;
    assert 0.0 < less * more;
    assert less * more == b * b - a * a;
  }

  lemma HypotScales(w: World, k: real, dx: real, dy: real)
    requires HypotLaw(w) && 0.0 <= k
    ensures w.hypot(k * dx, k * dy) == k * w.hypot(dx, dy)
  {
    var h := w.hypot(dx, dy);
    SquareOfScaled(k, dx, dy, h);
    var a, b := w.hypot(k * dx, k * dy), k * h;
    if a < b { SquaresDiffer(a, b); } else if b < a { SquaresDiffer(b, a); }
  }

  lemma SquareOfScaled(k: real, dx: real, dy: real, h: real)
    requires h * h == dx * dx + dy * dy && 0.0 <= k && 0.0 <= h
    ensures (k * h) * (k * h) == (k * dx) * (k * dx) + (k * dy) * (k * dy) && 0.0 <= k * h
  {
    calc {
      (k * h) * (k * h);
      (k * k) * (h * h);
      (k * k) * (dx * dx) + (k * k) * (dy * dy);
      (k * dx) * (k * dx) + (k * dy) * (k * dy);
    }
  }

  /** What `step` of a displacement of length `dist` covers and leaves, as shares k and j of it. */
  lemma Shortened(d: real, dist: real, step: real, k: real, j: real)
    requires 0.0 < dist && k == step / dist && j == 1.0 - k
    ensures d / dist * step == k * d
    ensures d - d / dist * step == j * d
    ensures k * dist == step && j * dist == dist - step
  {
    assert d / dist * step == (d * step) / dist;
    assert k * d == (step * d) / dist;
  }

  lemma ShareOf(step: real, dist: real)
    requires 0.0 <= step < dist
    ensures 0.0 <= step / dist < 1.0
  {
  }

  lemma NoDistance(w: World)
    requires HypotLaw(w)
    ensures w.hypot(0.0, 0.0) == 0.0
  {
    HypotScales(w, 0.0, 0.0, 0.0);
  }

  /** A step forwards: the length recorded is the distance covered, and what was to go is what
      was covered plus what is still to go. */
  lemma StepConserves(w: World, p: Pose, to: Position, edge: Edge, speed: real, dt: Span)
    requires HypotLaw(w)
    ensures var r := StepPose(w, p, to, edge, speed, dt);
            && (r.arrived ==> r.pose.x == to.x && r.pose.y == to.y)
            && (0.0 <= r.pose.lastStep ==>
                  && DistanceTo(w, p, to) == r.pose.lastStep + DistanceTo(w, r.pose, to)
                  && w.hypot(r.pose.x - p.x, r.pose.y - p.y) == r.pose.lastStep)
            && (r.pose.lastStep < 0.0 ==> speed < 0.0)
            && r.pose.battery == p.battery && r.pose.sinceNode == p.sinceNode && r.pose.charging == p.charging
  {
    hide HypotLaw, MustTurn;
    NoDistance(w);
    var r := StepPose(w, p, to, edge, speed, dt);
    var dist, step := DistanceTo(w, p, to), speed * dt;
    SpeedSign(speed, dt);
    DistancesAreNotNegative(w, p, to);
    if !r.arrived && !MustTurn(w, p, to, edge) && 0.0 <= step {
      var dx, dy := to.x - p.x, to.y - p.y;
      PartOfWay(w, dx, dy, dist, step);
      SameHypot(w, to.x - r.pose.x, to.y - r.pose.y, dx - dx / dist * step, dy - dy / dist * step);
      SameHypot(w, r.pose.x - p.x, r.pose.y - p.y, dx / dist * step, dy / dist * step);
    }
  }

  /** Going `step` of the way along (dx, dy) covers `step` and leaves the rest of its length. */
  lemma PartOfWay(w: World, dx: real, dy: real, dist: real, step: real)
    requires HypotLaw(w) && dist == w.hypot(dx, dy) && 0.0 <= step < dist
    ensures w.hypot(dx - dx / dist * step, dy - dy / dist * step) == dist - step
    ensures w.hypot(dx / dist * step, dy / dist * step) == step
  {
    hide HypotLaw;
    var k := step / dist;
    var j := 1.0 - k;
    ShareOf(step, dist);
    Shortened(dx, dist, step, k, j);
    Shortened(dy, dist, step, k, j);
    HypotScales(w, k, dx, dy);
    HypotScales(w, j, dx, dy);
    SameHypot(w, dx / dist * step, dy / dist * step, k * dx, k * dy);
    SameHypot(w, dx - dx / dist * step, dy - dy / dist * step, j * dx, j * dy);
  }

  lemma SameHypot(w: World, a: real, b: real, c: real, d: real)
    requires a == c && b == d
    ensures w.hypot(a, b) == w.hypot(c, d)
  {
  }

  lemma SpeedSign(speed: real, dt: Span)
    ensures speed * dt < 0.0 <==> speed < 0.0
    ensures 0.0 < speed * dt <==> 0.0 < speed
  {
  }

  lemma DistancesAreNotNegative(w: World, p: Pose, to: Position)
    requires HypotLaw(w)
    ensures 0.0 <= DistanceTo(w, p, to)
  {
  }

  // ---- the path ------------------------------------------------------------------------

  /** The length of the way from (x, y) through the nodes that have a position. */
  function PathLength(w: World, x: real, y: real, nodes: seq<Node>): real
    decreases |nodes|
  {
    if nodes == [] then 0.0
    else
      match nodes[0].position
      case None => PathLength(w, x, y, nodes[1..])
      case Some(p) => Between(w, x, y, p) + PathLength(w, p.x, p.y, nodes[1..])
  }

  /** The length of the way still to go in the graph. */
  function Remaining(w: World, s: Robot): real {
    if s.task.nodes == [] then 0.0 else PathLength(w, s.pose.x, s.pose.y, s.task.nodes[1..])
  }

  /** Relative to `a`, for as long as the graph is not replaced and the robot neither
      repositioned nor driven backwards: distance driven and distance to go balance. */
  predicate Telescopes(w: World, a: Robot, b: Robot) {
    && b.hist.orders.regraphs >= a.hist.orders.regraphs && b.hist.trip.jumps >= a.hist.trip.jumps
    && (b.hist.orders.regraphs == a.hist.orders.regraphs && b.hist.trip.jumps == a.hist.trip.jumps ==>
          && Tidy(b.task)
          && b.hist.trip.odometer + Remaining(w, b) == a.hist.trip.odometer + Remaining(w, a))
  }

  /** What a drive does to position, counters and graph. */
  lemma DriveFrame(w: World, s: Robot, from: Node, edge: Edge, next: Node, dt: Span)
    ensures var r, step := Drive(w, s, from, edge, next, dt), StepTowards(w, s, next, edge, dt);
            && r.pose.x == step.pose.x && r.pose.y == step.pose.y
            && r.task.nodes == (if step.arrived then Without(s.task.nodes, from.seqId) else s.task.nodes)
            && (r.hist.trip.jumps == s.hist.trip.jumps ==>
                  0.0 <= step.pose.lastStep && r.hist.trip.odometer == s.hist.trip.odometer + step.pose.lastStep)
  {
    hide StepTowards, Without, WithoutEdge, Holders;
  }

  /** One drive forwards moves its length from the way to go to the odometer. */
  lemma DriveTelescopes(w: World, s: Robot, from: Node, edge: Edge, next: Node, dt: Span)
    requires HypotLaw(w)
    requires |s.task.nodes| >= 2 && next == s.task.nodes[1]
    requires Without(s.task.nodes, from.seqId) == s.task.nodes[1..]
    ensures var r := Drive(w, s, from, edge, next, dt);
            r.hist.trip.jumps == s.hist.trip.jumps ==>
              r.hist.trip.odometer + Remaining(w, r) == s.hist.trip.odometer + Remaining(w, s)
  {
    hide HypotLaw, Without, Drive, EffectiveSpeed, StepPose;
    DriveFrame(w, s, from, edge, next, dt);
    var rest := s.task.nodes[1..];
    assert rest[1..] == s.task.nodes[2..];
    if next.position.Some? {
      StepConserves(w, s.pose, next.position.value, edge, EffectiveSpeed(w, s, edge), dt);
    }
  }

  lemma EffectPose(s: Robot, a: Action)
    ensures var r := ApplyEffect(s, a).robot;
            && (!a.kind.InitializePosition? ==> r.pose == s.pose.(charging := r.pose.charging))
            && r.pose.battery == s.pose.battery
  {
    hide Picked, Dropped, EnableAmong, EnableMapVersion, PutZoneSet, Filter, HasZoneSet, FirstIndex;
  }

  /** Operations on actions leave the pose alone, but for charging and initializePosition. */
  lemma ActionPose(w: World, s: Robot, op: ActionOp)
    requires ActionEnabled(w, s, op)
    ensures var r := ApplyAction(w, s, op);
            && (r.hist.trip.jumps == s.hist.trip.jumps ==> r.pose == s.pose.(charging := r.pose.charging))
            && r.pose.battery == s.pose.battery
  {
    hide ApplyEffect, SetStatus, Append, FlipAll, Live, LiveId, Landing, Due, Active, Idle, FitsTrack;
    if op.Completing? {
      var def := s.book.registry[At(s.book, op.spot).id];
      LandingHolds(s, op.spot, def);
      EffectPose(s, def);
    }
  }

  lemma MoveTelescopes(w: World, s: Robot, op: MoveOp)
    requires HypotLaw(w) && Tidy(s.task) && MoveEnabled(w, s, op)
    ensures var r := ApplyMove(w, s, op);
            && Tidy(r.task)
            && (r.hist.trip.jumps == s.hist.trip.jumps ==>
                  r.hist.trip.odometer + Remaining(w, r) == s.hist.trip.odometer + Remaining(w, s))
  {
    hide StepTowards, Held, GatesOpen, LeasesFresh, Active, Holders, CurrentNode, FindEdge, FindNode, Without,
      WithoutEdge, HypotLaw, Tidy, PathLength, Suffix;
    ConsumesItself(s);
    ConsumesOne(w, s, op);
    if s.task.nodes != [] {
      TidyLeg(s.task);
      TidyRemoval(s.task);
      TidyShape(s.task);
      if op.Leaving? {
        TidyEnds(s.task);
        assert s.task.nodes[1..] == [];
        EmptyPath(w, s.pose.x, s.pose.y);
      } else if op.Driving? {
        DriveTelescopes(w, s, op.from, op.edge, op.next, op.dt);
      }
    }
  }

  lemma EmptyPath(w: World, x: real, y: real)
    ensures PathLength(w, x, y, []) == 0.0
  {
  }

  lemma ConsumesOne(w: World, s: Robot, op: MoveOp)
    requires Consumes(s, s) && MoveEnabled(w, s, op)
    ensures Tidy(ApplyMove(w, s, op).task)
  {
    hide MoveEnabled, ApplyMove;
    MoveConsumes(w, s, s, op);
  }

  lemma TelescopesKept(w: World, a: Robot, b: Robot, op: Op)
    requires HypotLaw(w) && Telescopes(w, a, b) && Enabled(w, b, op)
    ensures Telescopes(w, a, Apply(w, b, op))
  {
    hide ActionEnabled, ApplyAction, OrderEnabled, ApplyOrder, MoveEnabled, ApplyMove, TrafficEnabled, ApplyTraffic,
      UnitEnabled, ApplyUnit, HypotLaw, PathLength;
    CountersAfter(w, b, op);
    var c := Apply(w, b, op);
    if c.hist.orders.regraphs == a.hist.orders.regraphs && c.hist.trip.jumps == a.hist.trip.jumps {
      match op
      case OnAction(x) =>
        ActionFrame(w, b, x);
        ActionPose(w, b, x);
      case OnMove(m) => MoveTelescopes(w, b, m);
      case OnTraffic(t) => TrafficFrame(w, b, t);
      case OnUnit(u) => UnitFrame(w, b, u);
    }
  }

  /** On every run, whatever stops and resumes the robot in between, distance driven plus
      distance to go along the graph stays the same. */
  lemma OdometerTelescopes(w: World, s: Robot, events: seq<Event>)
    requires HypotLaw(w) && Tidy(s.task)
    ensures Telescopes(w, s, Run(w, s, events))
  {
    hide HypotLaw;
    var inv := (r: Robot) => Telescopes(w, s, r);
    forall r: Robot, op: Op ensures Keeps(w, inv)(r, op) {
      if inv(r) && Enabled(w, r, op) { TelescopesKept(w, s, r, op); }
    }
    RunInduction(w, inv, s, events);
  }

  // ---- the battery ------------------------------------------------------------------------

  /** The battery after `distance` metres from `charge`. */
  function Drained(w: World, charge: real, distance: real): real {
    Max(0.0, charge - distance * w.cfg.drainPerMeter)
  }

  lemma DrainedTwice(w: World, charge: real, d: real, e: real)
    requires 0.0 <= w.cfg.drainPerMeter && 0.0 <= d && 0.0 <= e
    ensures Drained(w, Drained(w, charge, d), e) == Drained(w, charge, d + e)
    ensures 0.0 <= charge ==> Drained(w, charge, 0.0) == charge
    ensures 0.0 <= charge ==> Drained(w, charge, d) <= charge
  {
    var k := w.cfg.drainPerMeter;
    assert (d + e) * k == d * k + e * k;
    assert 0.0 <= e * k && 0.0 <= d * k;
  }

  /** Relative to `a`, for as long as charging has not changed the battery. */
  predicate EnergySpent(w: World, a: Robot, b: Robot) {
    && b.hist.trip.charges >= a.hist.trip.charges && b.hist.trip.odometer >= a.hist.trip.odometer
    && (b.hist.trip.charges == a.hist.trip.charges ==>
          b.pose.battery == Drained(w, a.pose.battery, b.hist.trip.odometer - a.hist.trip.odometer))
  }

  /** A move drains exactly what it adds to the odometer. */
  lemma MoveDrains(w: World, s: Robot, op: MoveOp)
    requires MoveEnabled(w, s, op) && 0.0 <= s.pose.battery && 0.0 <= w.cfg.drainPerMeter
    ensures var r := ApplyMove(w, s, op);
            && r.hist.trip.odometer >= s.hist.trip.odometer && r.hist.trip.charges == s.hist.trip.charges
            && r.pose.battery == Drained(w, s.pose.battery, r.hist.trip.odometer - s.hist.trip.odometer)
  {
    hide StepTowards, MayDrive, Held, CurrentNode, FindEdge, Holders, Without, WithoutEdge, Drained;
    DrainedTwice(w, s.pose.battery, 0.0, 0.0);
    if op.Driving? {
      StepKeepsBattery(w, s, op.next, op.edge, op.dt);
      DrainedIs(w, s.pose.battery, StepTowards(w, s, op.next, op.edge, op.dt).pose.lastStep);
    }
  }

  lemma DrainedIs(w: World, charge: real, d: real)
    ensures Drained(w, charge, d) == Max(0.0, charge - d * w.cfg.drainPerMeter)
  {
  }

  lemma StepKeepsBattery(w: World, s: Robot, next: Node, edge: Edge, dt: Span)
    ensures StepTowards(w, s, next, edge, dt).pose.battery == s.pose.battery
  {
    hide EffectiveSpeed, MustTurn;
  }

  lemma EnergySpentKept(w: World, a: Robot, b: Robot, op: Op)
    requires 0.0 <= w.cfg.drainPerMeter && 0.0 <= b.pose.battery
    requires EnergySpent(w, a, b) && Enabled(w, b, op)
    ensures EnergySpent(w, a, Apply(w, b, op))
  {
    hide ActionEnabled, ApplyAction, OrderEnabled, ApplyOrder, MoveEnabled, ApplyMove, TrafficEnabled, ApplyTraffic,
      UnitEnabled, ApplyUnit, Drained;
    CountersAfter(w, b, op);
    match op
    case OnAction(x) =>
      ActionFrame(w, b, x);
      ActionPose(w, b, x);
    case OnOrder(o) => OrderFrame(b, o);
    case OnMove(m) =>
      MoveFrame(w, b, m);
      MoveDrains(w, b, m);
      DrainedTwice(w, a.pose.battery, b.hist.trip.odometer - a.hist.trip.odometer,
        Apply(w, b, op).hist.trip.odometer - b.hist.trip.odometer);
    case OnTraffic(t) => TrafficFrame(w, b, t);
    case OnUnit(u) =>
      UnitFrame(w, b, u);
      ChargingCounts(w, b, u);
  }

  lemma ChargingCounts(w: World, s: Robot, op: UnitOp)
    requires UnitEnabled(s, op)
    ensures ApplyUnit(w, s, op).hist.trip.charges == s.hist.trip.charges ==> ApplyUnit(w, s, op).pose == s.pose
  {
    hide PresentZones, UpdateField, UpdateOperatingMode, UpdateStop;
  }

  ghost predicate BatteryInRange(s: Robot) { 0.0 <= s.pose.battery <= 100.0 }

  lemma BatteryInRangeKept(w: World, s: Robot, op: Op)
    requires 0.0 <= w.cfg.drainPerMeter && 0.0 <= w.cfg.chargePerSecond
    requires BatteryInRange(s) && Enabled(w, s, op)
    ensures BatteryInRange(Apply(w, s, op))
  {
    hide ActionEnabled, ApplyAction, OrderEnabled, ApplyOrder, MoveEnabled, ApplyMove, TrafficEnabled, ApplyTraffic,
      UnitEnabled, ApplyUnit, Drained;
    match op
    case OnAction(x) => ActionPose(w, s, x);
    case OnOrder(o) => OrderFrame(s, o);
    case OnMove(m) =>
      MoveDrains(w, s, m);
      DrainedTwice(w, s.pose.battery, Apply(w, s, op).hist.trip.odometer - s.hist.trip.odometer, 0.0);
      DrainedIs(w, s.pose.battery, Apply(w, s, op).hist.trip.odometer - s.hist.trip.odometer);
    case OnTraffic(t) => TrafficFrame(w, s, t);
    case OnUnit(u) =>
      UnitFrame(w, s, u);
      ChargingInRange(w, s, u);
  }

  lemma ChargingInRange(w: World, s: Robot, op: UnitOp)
    requires UnitEnabled(s, op) && BatteryInRange(s) && 0.0 <= w.cfg.chargePerSecond
    ensures BatteryInRange(ApplyUnit(w, s, op))
  {
    hide PresentZones, UpdateField, UpdateOperatingMode, UpdateStop;
    if op.Charging? { Gain(w.cfg.chargePerSecond, op.dt); }
  }

  lemma Gain(rate: real, dt: Span)
    requires 0.0 <= rate
    ensures 0.0 <= rate * dt
  {
  }

  /** On every run the battery stays between 0 and 100; and without charging it is what the
      distance driven leaves of it, however the single steps were clamped. */
  lemma BatteryAccounts(w: World, s: Robot, events: seq<Event>)
    requires 0.0 <= w.cfg.drainPerMeter && 0.0 <= w.cfg.chargePerSecond && BatteryInRange(s)
    ensures var r := Run(w, s, events);
            BatteryInRange(r) && EnergySpent(w, s, r)
  {
    hide Drained;
    DrainedTwice(w, s.pose.battery, 0.0, 0.0);
    var inv := (r: Robot) => BatteryInRange(r) && EnergySpent(w, s, r);
    forall r: Robot, op: Op ensures Keeps(w, inv)(r, op) {
      if inv(r) && Enabled(w, r, op) {
        BatteryInRangeKept(w, r, op);
        EnergySpentKept(w, s, r, op);
      }
    }
    RunInduction(w, inv, s, events);
  }

  /** A whole order: once the graph is used up, the odometer has grown by exactly the length of
      the polyline through its nodes, and without charging the battery is what that leaves. */
  lemma WholeOrderAccounts(w: World, s: Robot, events: seq<Event>)
    requires HypotLaw(w) && Tidy(s.task)
    requires 0.0 <= w.cfg.drainPerMeter && 0.0 <= w.cfg.chargePerSecond && BatteryInRange(s)
    requires var r := Run(w, s, events);
             && r.task.nodes == [] && r.hist.orders.regraphs == s.hist.orders.regraphs
             && r.hist.trip.jumps == s.hist.trip.jumps
    ensures var r := Run(w, s, events);
            && r.hist.trip.odometer == s.hist.trip.odometer + Remaining(w, s)
            && (r.hist.trip.charges == s.hist.trip.charges ==>
                  r.pose.battery == Drained(w, s.pose.battery, Remaining(w, s)))
  {
    hide HypotLaw, PathLength, Tidy, Step;
    OdometerTelescopes(w, s, events);
    BatteryAccounts(w, s, events);
  }
}
