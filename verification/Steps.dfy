/** What one drive does to the robot: where it turns and goes, what it is near, and what it costs. */
module Steps {
  import opened Vda5050
  import opened Platform
  import opened Heading
  import opened RobotState
  import opened Transitions
  import opened TickFrames
  import opened TrafficControl
  import opened Legs
  import opened Blocking

  // ---- one step ------------------------------------------------------------------------------

  /** The direction of the target, or, within a nanometre of it, the robot's own. */
  predicate Faces(w: World, p: Pose, to: Position, heading: real) {
    var dx, dy := to.x - p.x, to.y - p.y;
    heading == if w.hypot(dx, dy) > 0.000000001 then w.atan2(dy, dx) else p.theta
  }

  /** The heading the edge asks of a robot facing `heading`: its orientation, taken from the map if GLOBAL
      and else from the way it faces. */
  predicate AsksFor(edge: Edge, heading: real, wanted: real) {
    edge.orientation.Some?
    && wanted == if edge.orientationType == Some(Global) then edge.orientation.value
                 else heading + edge.orientation.value
  }

  /** Whether the robot is more than two degrees off the heading the edge asks for. */
  ghost predicate OffCourse(w: World, p: Pose, edge: Edge, heading: real) {
    exists wanted :: AsksFor(edge, heading, wanted) && !Within(w.pi, wanted, p.theta, w.pi / 90.0)
  }

  /** Whether the robot is at the target, in the heading the edge asks for, or else the node, or else its own. */
  predicate ArrivedAt(p: Pose, r: Pose, to: Position, edge: Edge, heading: real) {
    && r.x == to.x && r.y == to.y && r.mapId == to.mapId
    && (edge.orientation.Some? ==> AsksFor(edge, heading, r.theta))
    && (edge.orientation.None? ==> r.theta == if to.theta.Some? then to.theta.value else p.theta)
  }

  /** Whether the robot has gone `step` of the way of length `d`, in the heading the edge asks for, or else
      facing the target. */
  predicate GoneTowards(p: Pose, r: Pose, to: Position, edge: Edge, heading: real, d: real, step: real)
    requires d != 0.0
  {
    && r.x == p.x + (to.x - p.x) / d * step && r.y == p.y + (to.y - p.y) / d * step && r.mapId == p.mapId
    && (edge.orientation.Some? ==> AsksFor(edge, heading, r.theta))
    && (edge.orientation.None? ==> r.theta == heading)
  }

  /** A step is one of three things. Told to reach its orientation first and more than two degrees off it,
      the robot turns on the spot. Otherwise it arrives if the target is within reach of the step, or
      within a micrometre; and otherwise it goes a full step towards it. */
  lemma StepOutcome(w: World, p: Pose, to: Position, edge: Edge, speed: real, dt: Span, heading: real)
    requires Faces(w, p, to, heading)
    ensures var r, d, step := StepPose(w, p, to, edge, speed, dt), w.hypot(to.x - p.x, to.y - p.y), Stride(speed, dt);
            var turns := edge.reachOrientationFirst && OffCourse(w, p, edge, heading);
            && r.pose.battery == p.battery && r.pose.charging == p.charging && r.pose.sinceNode == p.sinceNode
            && if turns then
                 !r.arrived && r.pose == p.(theta := r.pose.theta, lastStep := 0.0)
               else if d <= step || d <= 0.000001 then
                 r.arrived && r.pose.lastStep == d && ArrivedAt(p, r.pose, to, edge, heading)
               else
                 d != 0.0 && !r.arrived && r.pose.lastStep == step && GoneTowards(p, r.pose, to, edge, heading, d, step)
  {
    hide AngleDiff, Within, StepPose;
    var wanted := DesiredTheta(edge, HeadingTo(w, p, to));
    if wanted.Some? {
      DifferenceIsLeast(w.pi, wanted.value, p.theta, w.pi / 90.0);
      assert AsksFor(edge, heading, wanted.value);
    }
    if MustTurn(w, p, to, edge) {
      TurningPose(w, p, to, edge, speed, dt);
    } else if w.hypot(to.x - p.x, to.y - p.y) <= Max(Stride(speed, dt), 0.000001) {
      ArrivingPose(w, p, to, edge, speed, dt);
    } else {
      GoingPose(w, p, to, edge, speed, dt);
    }
  }

  lemma ArrivingPose(w: World, p: Pose, to: Position, edge: Edge, speed: real, dt: Span)
    requires !MustTurn(w, p, to, edge) && DistanceTo(w, p, to) <= Max(Stride(speed, dt), 0.000001)
    ensures var r := StepPose(w, p, to, edge, speed, dt);
            && r.arrived && r.pose == p.(x := to.x, y := to.y, mapId := to.mapId, theta := r.pose.theta,
                                         lastStep := DistanceTo(w, p, to))
            && r.pose.theta == match DesiredTheta(edge, HeadingTo(w, p, to))
                               case Some(t) => t
                               case None => if to.theta.Some? then to.theta.value else p.theta
  {
    hide MustTurn, DistanceTo, HeadingTo;
  }

  lemma GoingPose(w: World, p: Pose, to: Position, edge: Edge, speed: real, dt: Span)
    requires !MustTurn(w, p, to, edge) && DistanceTo(w, p, to) > Max(Stride(speed, dt), 0.000001)
    ensures var r, step := StepPose(w, p, to, edge, speed, dt), Stride(speed, dt);
            && !r.arrived && r.pose == p.(x := Along(p.x, to.x, DistanceTo(w, p, to), step),
                                          y := Along(p.y, to.y, DistanceTo(w, p, to), step), theta := r.pose.theta,
                                          lastStep := step)
            && r.pose.theta == match DesiredTheta(edge, HeadingTo(w, p, to))
                               case Some(t) => t
                               case None => HeadingTo(w, p, to)
  {
    hide MustTurn, DistanceTo, HeadingTo, Along;
  }

  // ---- one drive ---------------------------------------------------------------------------------

  /** A drive pays for what it covers; on arrival the robot is at the next node, with the node and the edge
      left behind gone from the graph, and otherwise still between the two. */
  lemma DriveOutcome(w: World, s: Robot, leg: Leg, dt: Span)
    ensures var r, step := Drive(w, s, leg.from, leg.edge, leg.next, dt), StepTowards(w, s, leg.next, leg.edge, dt);
            var d := if step.pose.lastStep > 0.0 then step.pose.lastStep else 0.0;
            && r.pose == step.pose.(battery := r.pose.battery, sinceNode := r.pose.sinceNode)
            && r.pose.battery == (if d > 0.0 then Max(0.0, step.pose.battery - d * w.cfg.drainPerMeter)
                                  else step.pose.battery)
            && r.pose.sinceNode == (if step.arrived then 0.0 else step.pose.sinceNode + d)
            && r.hist.trip.odometer == s.hist.trip.odometer + d
            && r.task == s.task.(driving := !step.arrived, nodes := r.task.nodes, edges := r.task.edges,
                                 lastNodeId := if step.arrived then leg.next.nodeId else s.task.lastNodeId,
                                 lastSeq := if step.arrived then leg.next.seqId else s.task.lastSeq)
            && (!step.arrived ==> r.task.nodes == s.task.nodes && r.task.edges == s.task.edges)
            && (step.arrived ==>
                  && (forall n :: n in r.task.nodes <==> n in s.task.nodes && n.seqId != leg.from.seqId)
                  && (forall e :: e in r.task.edges <==> e in s.task.edges && e.seqId != leg.edge.seqId))
  {
    hide StepTowards, Holders;
  }

  /** A robot with no edge ahead is at its current node, which leaves the graph. */
  lemma LeavingOutcome(w: World, s: Robot, dt: Span)
    requires s.task.nodes != [] && FindEdge(s.task.edges, CurrentNode(s.task).seqId + 1).None?
    requires !Delayed(s, CurrentNode(s.task), None)
    ensures var r, at := Move(w, s, dt), CurrentNode(s.task);
            && r.pose == s.pose && r.hist.trip.odometer == s.hist.trip.odometer && r.task.edges == s.task.edges
            && r.task.lastNodeId == at.nodeId && r.task.lastSeq == at.seqId && !r.task.driving
            && forall n :: n in r.task.nodes <==> n in s.task.nodes && n.seqId != at.seqId
  {
    hide CurrentNode, FindEdge, Held, Delayed, Holders, MaybeRequestBase;
    HeldIffDelayed(s, CurrentNode(s.task), None);
    BaseRequestKeepsLeg(w, s);
  }

  // ---- distance since the last node, and base requests -----------------------------------------------

  /** While no node is left behind and the graph stays the same, the distance since the last node grows with
      the odometer. */
  predicate CountsSinceNode(a: Robot, b: Robot) {
    && b.hist.orders.regraphs >= a.hist.orders.regraphs
    && (b.hist.orders.regraphs == a.hist.orders.regraphs ==>
          && b.hist.trip.legs >= a.hist.trip.legs
          && (b.hist.trip.legs == a.hist.trip.legs ==>
                b.pose.sinceNode - a.pose.sinceNode == b.hist.trip.odometer - a.hist.trip.odometer))
  }

  lemma CountsSinceNodeKept(w: World, a: Robot, b: Robot, op: Op)
    requires CountsSinceNode(a, b) && Enabled(w, b, op)
    ensures CountsSinceNode(a, Apply(w, b, op))
  {
    hide ActionEnabled, ApplyAction, OrderEnabled, ApplyOrder, MoveEnabled, ApplyMove, TrafficEnabled, ApplyTraffic,
      UnitEnabled, ApplyUnit;
    CountersAfter(w, b, op);
    match op
    case OnAction(x) =>
      ActionFrame(w, b, x);
      ActionKeepsDistance(w, b, x);
    case OnOrder(o) =>
    case OnMove(m) => MoveCountsDistance(w, b, m);
    case OnTraffic(t) => TrafficFrame(w, b, t);
    case OnUnit(u) =>
      UnitFrame(w, b, u);
      UnitKeepsDistance(w, b, u);
  }

  lemma ActionKeepsDistance(w: World, s: Robot, op: ActionOp)
    requires ActionEnabled(w, s, op)
    ensures ApplyAction(w, s, op).pose.sinceNode == s.pose.sinceNode
  {
    hide SetStatus, Append, FlipAll, Live, LiveId, Landing, SiteEffect, InitializePose, Cleared, Idle, Due, FitsTrack;
    if op.Completing? {
      LandingHolds(s, op.spot, s.book.registry[At(s.book, op.spot).id]);
      EffectKeepsDistance(s, s.book.registry[At(s.book, op.spot).id]);
    }
  }

  lemma EffectKeepsDistance(s: Robot, a: Action)
    ensures ApplyEffect(s, a).robot.pose.sinceNode == s.pose.sinceNode
  {
    hide SiteEffect, Cleared, Lookup;
  }

  lemma UnitKeepsDistance(w: World, s: Robot, op: UnitOp)
    requires UnitEnabled(s, op)
    ensures ApplyUnit(w, s, op).pose.sinceNode == s.pose.sinceNode
  {
    hide PresentZones, UpdateField, UpdateOperatingMode, UpdateStop;
  }

  lemma MoveCountsDistance(w: World, s: Robot, op: MoveOp)
    requires MoveEnabled(w, s, op)
    ensures var r := ApplyMove(w, s, op);
            && r.hist.orders == s.hist.orders && s.hist.trip.legs <= r.hist.trip.legs
            && (r.hist.trip.legs == s.hist.trip.legs ==>
                  r.pose.sinceNode - s.pose.sinceNode == r.hist.trip.odometer - s.hist.trip.odometer)
  {
    hide StepTowards, MayDrive, Held, CurrentNode, FindEdge, Holders, Without, WithoutEdge;
    if op.Driving? {
      DriveOutcome(w, s, Leg(op.from, op.edge, op.next), op.dt);
      StepKeepsDistance(w, s, op.next, op.edge, op.dt);
    }
  }

  lemma StepKeepsDistance(w: World, s: Robot, next: Node, edge: Edge, dt: Span)
    ensures var r := StepTowards(w, s, next, edge, dt).pose;
            r.sinceNode == s.pose.sinceNode && r.battery == s.pose.battery
  {
    hide EffectiveSpeed, MustTurn;
  }

  /** On every run, until a node is left behind or the graph replaced. */
  lemma SinceNodeFollowsOdometer(w: World, s: Robot, events: seq<Event>)
    ensures CountsSinceNode(s, Run(w, s, events))
  {
    hide CountsSinceNode;
    StartsCounting(s);
    var inv := (r: Robot) => CountsSinceNode(s, r);
    forall r: Robot, op: Op ensures Keeps(w, inv)(r, op) {
      if inv(r) && Enabled(w, r, op) { CountsSinceNodeKept(w, s, r, op); }
    }
    RunInduction(w, inv, s, events);
  }

  lemma StartsCounting(s: Robot)
    ensures CountsSinceNode(s, s)
  {
  }

  /** How many of the nodes are released. */
  function Released(nodes: seq<Node>): nat {
    if nodes == [] then 0 else One(nodes[0].released) + Released(nodes[1..])
  }

  lemma {:induction false} ReleasedAreCounted(nodes: seq<Node>)
    ensures ReleasedCount(nodes) == Released(nodes)
  {
    if nodes != [] { ReleasedAreCounted(nodes[1..]); }
  }

  /** The robot asks for a new base before it goes on exactly if it has done so before, or no more released
      nodes are left than the horizon; nothing else changes. */
  lemma AsksForBaseIff(w: World, s: Robot)
    requires s.task.nodes != []
    ensures MaybeRequestBase(w, s)
      == s.(task := s.task.(newBaseRequest := s.task.newBaseRequest || Released(s.task.nodes) <= w.cfg.horizon))
  {
    ReleasedAreCounted(s.task.nodes);
  }

  // ---- the battery ---------------------------------------------------------------------------------

  /** What charging for one tick makes of the battery: nothing when full or when not charging. */
  function Charged(w: World, p: Pose, dt: Span): real {
    if p.charging && p.battery < 100.0 then Min(100.0, p.battery + w.cfg.chargePerSecond * dt) else p.battery
  }

  /** What a tick costs: it first charges, unless the robot hibernates, and then pays for the distance it adds
      to the odometer, as far as there is charge to pay. */
  lemma BatteryOfTick(w: World, s: Robot, dt: Span, now: real)
    ensures var r := Tick(w, s, dt, now);
            var charged := if s.mode.hibernating then s.pose.battery else Charged(w, s.pose, dt);
            var added := r.hist.trip.odometer - s.hist.trip.odometer;
            r.pose.battery == if added > 0.0 then Max(0.0, charged - added * w.cfg.drainPerMeter) else charged
  {
    hide Prepared, Move, FinishCancel, LeasesFresh, GatesOpen, HasLeg, NextLeg, MustStop, UpdateCharging;
    ChargingTick(w, s, dt);
    if Active(s) {
      ActiveTickPays(w, s, dt, now);
    } else if s.mode.cancel.Some? && !s.mode.hibernating {
      CancelKeepsOdometer(UpdateCharging(w, s, dt));
    }
  }

  lemma ChargingTick(w: World, s: Robot, dt: Span)
    ensures var c := UpdateCharging(w, s, dt);
            && c.pose == s.pose.(battery := Charged(w, s.pose, dt)) && c.mode == s.mode && c.faults == s.faults
            && c.hist.trip.odometer == s.hist.trip.odometer
  {
  }

  lemma ActiveTickPays(w: World, s: Robot, dt: Span, now: real)
    requires Active(s)
    ensures var r, charged := Tick(w, s, dt, now), Charged(w, s.pose, dt);
            var added := r.hist.trip.odometer - s.hist.trip.odometer;
            r.pose.battery == if added > 0.0 then Max(0.0, charged - added * w.cfg.drainPerMeter) else charged
  {
    hide Move, Prepare, LeasesFresh, GatesOpen, HasLeg, NextLeg, Drives, Drive, MayDrive, MaybeRequestBase, Charged;
    var p := Prepared(w, s, dt, now);
    ChargingTick(w, s, dt);
    PrepareFrame(w, UpdateCharging(w, s, dt), dt, now);
    PreparedFacts(w, s, dt, now);
    MoveDrivesOrStands(w, p, dt, now);
    if Drives(w, p) {
      BaseRequestKeepsLeg(w, p);
      DrivingFacts(w, p);
      DrivePays(w, MaybeRequestBase(w, p), NextLeg(p.task), dt);
    }
  }

  lemma DrivePays(w: World, s: Robot, leg: Leg, dt: Span)
    ensures var r := Drive(w, s, leg.from, leg.edge, leg.next, dt);
            var added := r.hist.trip.odometer - s.hist.trip.odometer;
            r.pose.battery == if added > 0.0 then Max(0.0, s.pose.battery - added * w.cfg.drainPerMeter)
                              else s.pose.battery
  {
    hide Drive, StepTowards;
    DriveOutcome(w, s, leg, dt);
    StepKeepsDistance(w, s, leg.next, leg.edge, dt);
  }
}
