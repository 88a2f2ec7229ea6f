/** Arrival: an undisturbed robot on a fully released order of timed actions, on a site whose
    zones ask for nothing, is idle at the end of its route within a computable number of ticks. */
module Arrival {
  import opened Vda5050
  import opened Platform
  import opened ActionCatalog
  import opened RobotState
  import opened Transitions
  import opened TickFrames
  import opened Lifecycle
  import opened Timers
  import opened Motion
  import opened Traversal
  import opened TrafficControl
  import opened Legs
  import opened Progress
  import opened Cruising
  import Zones

  /** The terms of a journey: the tick, the least speed anything imposes, and whether the site has
      no speed limits at all. */
  datatype Terms = Terms(dt: Span, least: Positive, pace: Pace, unlimited: bool)

  ghost predicate Sound(w: World, j: Terms) {
    && HypotLaw(w) && Atan2Law(w) && 0.0 < w.cfg.actionDuration && j.least <= w.cfg.speed
    && j.pace.turn == w.cfg.angularSpeed * j.dt && j.pace.drive == j.least * j.dt
  }

  // ---- the route ----------------------------------------------------------------------

  function EdgeSpeed(w: World, e: Edge): real {
    if e.maximumSpeed.Some? then Min(w.cfg.speed, e.maximumSpeed.value) else w.cfg.speed
  }

  /** A leg of length `d` whose pre-rotation, if it has one, ends: without speed limits every
      step of it is as long as the edge allows. */
  ghost predicate Settles(w: World, j: Terms, e: Edge, d: real) {
    Steady(w, e) || (j.unlimited && Lands(d, Stride(EdgeSpeed(w, e), j.dt)))
  }

  /** Every leg from (x, y) through the nodes settles. */
  ghost predicate RouteSettles(w: World, j: Terms, x: real, y: real, nodes: seq<Node>, edges: seq<Edge>)
    requires |nodes| == |edges|
    decreases |nodes|
  {
    nodes != [] ==>
      match nodes[0].position
      case None => RouteSettles(w, j, x, y, nodes[1..], edges[1..])
      case Some(p) =>
        Settles(w, j, edges[0], Between(w, x, y, p)) && RouteSettles(w, j, p.x, p.y, nodes[1..], edges[1..])
  }

  /** The most ticks the legs from (x, y) through the nodes may take, each with half a turn first. */
  function RouteTicks(w: World, x: real, y: real, nodes: seq<Node>, pace: Pace): nat
    decreases |nodes|
  {
    if nodes == [] then 0
    else
      match nodes[0].position
      case None => 1 + RouteTicks(w, x, y, nodes[1..], pace)
      case Some(p) =>
        Ticks(w.pi, pace.turn) + Ticks(Between(w, x, y, p), pace.drive) + 1 + RouteTicks(w, p.x, p.y, nodes[1..], pace)
  }

  /** The most ticks the rest of the graph may take from where the robot stands. */
  function RoadTicks(w: World, t: Task, p: Pose, pace: Pace): nat
    requires Tidy(t)
  {
    if |t.nodes| <= 1 then |t.nodes|
    else
      match t.nodes[1].position
      case None => 2 + RouteTicks(w, p.x, p.y, t.nodes[2..], pace)
      case Some(to) => 1 + LegTicks(w, p, to, t.edges[0], pace) + RouteTicks(w, to.x, to.y, t.nodes[2..], pace)
  }

  ghost predicate OpenRoad(w: World, j: Terms, t: Task, p: Pose) {
    && Tidy(t)
    && (forall n :: n in t.nodes ==> n.released)
    && (forall e :: e in t.edges ==>
          e.released && !e.releaseRequired && (e.maximumSpeed.Some? ==> j.least <= e.maximumSpeed.value))
    && (t.nodes != [] ==> RouteSettles(w, j, p.x, p.y, t.nodes[1..], t.edges))
  }

  ghost predicate NoSpeedLimits(site: Site) {
    forall s, z :: s in site.zoneSets && z in s.zones ==> !z.zoneType.SpeedLimit?
  }

  /** The scenario: nothing stops the robot, its entries are timed, its road is open. */
  ghost predicate Underway(w: World, j: Terms, s: Robot) {
    && Active(s) && !s.faults.fieldViolation && s.faults.stop.NoStop?
    && AllTimed(s.book)
    && OpenRoad(w, j, s.task, s.pose)
    && OpenSite(s.site, j.least) && (j.unlimited ==> NoSpeedLimits(s.site))
  }

  // ---- speed -----------------------------------------------------------------------------

  lemma {:induction false} CapSpeedAtLeast(zones: seq<Zone>, speed: real, least: real)
    requires AllPassable(zones, least) && least <= speed
    ensures least <= CapSpeed(zones, speed)
    ensures (forall z :: z in zones ==> !z.zoneType.SpeedLimit?) ==> CapSpeed(zones, speed) == speed
    decreases |zones|
  {
    if zones != [] {
      assert zones[0] in zones && forall z :: z in zones[1..] ==> z in zones;
      var next := if zones[0].zoneType.SpeedLimit? && zones[0].maximumSpeed.Some?
                  then Min(speed, zones[0].maximumSpeed.value) else speed;
      CapSpeedAtLeast(zones[1..], next, least);
    }
  }

  lemma SpeedAtLeast(w: World, j: Terms, s: Robot, e: Edge)
    requires Underway(w, j, s) && j.least <= w.cfg.speed && e in s.task.edges
    ensures j.least <= EffectiveSpeed(w, s, e)
    ensures j.unlimited ==> EffectiveSpeed(w, s, e) == EdgeSpeed(w, e)
  {
    hide Tidy, RouteSettles, AllTimed, Passable;
    var zones := ZonesAt(s.site.zoneSets, s.pose.mapId, s.pose.x, s.pose.y);
    OpenAround(s.site, j.least, s.pose.mapId, s.pose.x, s.pose.y);
    Zones.ZonesAtMembers(s.site.zoneSets, s.pose.mapId, s.pose.x, s.pose.y);
    CapSpeedAtLeast(zones, EdgeSpeed(w, e), j.least);
  }

  // ---- the movement part --------------------------------------------------------------------

  lemma FreeGates(w: World, j: Terms, s: Robot, e: Edge, n: Node)
    requires OpenSite(s.site, j.least) && !e.releaseRequired
    ensures GatesOpen(w, s, e, n)
  {
    hide ZonesAt;
    if n.position.Some? {
      OpenAround(s.site, j.least, s.pose.mapId, n.position.value.x, n.position.value.y);
    }
  }

  /** Arriving at a node, the next leg takes no more than its share of the route. */
  lemma NextLegTicks(w: World, t: Task, p: Pose, pace: Pace)
    requires Tidy(t) && t.nodes != []
    ensures RoadTicks(w, t, p, pace) <= 1 + RouteTicks(w, p.x, p.y, t.nodes[1..], pace)
  {
    hide MustTurn, TurnError, Tidy, Ticks;
    if |t.nodes| > 1 {
      assert t.nodes[1..][1..] == t.nodes[2..];
      TidyShape(t);
      if t.nodes[1].position.Some? {
        var to := t.nodes[1].position.value;
        MustTurnMeansError(w, p, to, t.edges[0]);
        TicksMonotone(TurnError(w, p, to, t.edges[0]), w.pi, pace.turn);
      }
    }
  }

  /** Only position and heading matter. */
  lemma SameRoad(w: World, j: Terms, t: Task, u: Task, p: Pose, q: Pose)
    requires OpenRoad(w, j, t, p) && u.nodes == t.nodes && u.edges == t.edges && u.lastSeq == t.lastSeq
    requires q.x == p.x && q.y == p.y && q.theta == p.theta
    ensures OpenRoad(w, j, u, q) && RoadTicks(w, u, q, j.pace) == RoadTicks(w, t, p, j.pace)
  {
    hide MustTurn, TurnError, DistanceTo;
    assert Tidy(u);
    if |t.nodes| > 1 && t.nodes[1].position.Some? {
      SamePlace(w, p, q, t.nodes[1].position.value, t.edges[0]);
    }
  }

  /** From `s` the movement part led to `r`, on an open road that takes a tick less. */
  ghost predicate Advances(w: World, j: Terms, s: Robot, r: Robot) {
    OpenRoad(w, j, r.task, r.pose) && Tidy(s.task)
    && RoadTicks(w, r.task, r.pose, j.pace) < RoadTicks(w, s.task, s.pose, j.pace)
  }

  /** Driving freely, the robot arrives or has a tick less to go. */
  lemma DriveAdvances(w: World, j: Terms, s: Robot)
    requires Sound(w, j) && Underway(w, j, s) && |s.task.nodes| > 1
    ensures var leg := Leg(s.task.nodes[0], s.task.edges[0], s.task.nodes[1]);
            var r := Drive(w, s, leg.from, leg.edge, leg.next, j.dt);
            Advances(w, j, s, r) && r.hist.trip.jumps == s.hist.trip.jumps
  {
    hide Drive, StepTowards, OpenRoad, RoadTicks, OpenSite, NoSpeedLimits, AllTimed, HypotLaw, Atan2Law, Tidy;
    UnderwayIsActive(w, j, s);
    TidyShape(s.task);
    var leg := Leg(s.task.nodes[0], s.task.edges[0], s.task.nodes[1]);
    var step := StepTowards(w, s, leg.next, leg.edge, j.dt);
    StepOnRoad(w, j, s);
    DriveResult(w, s, leg.from, leg.edge, leg.next, j.dt);
    if step.arrived {
      ArrivalAdvances(w, j, s, Drive(w, s, leg.from, leg.edge, leg.next, j.dt));
    } else {
      NearerAdvances(w, j, s, Drive(w, s, leg.from, leg.edge, leg.next, j.dt));
    }
  }

  lemma DriveResult(w: World, s: Robot, from: Node, edge: Edge, next: Node, dt: Span)
    requires 0.0 <= StepTowards(w, s, next, edge, dt).pose.lastStep
    ensures var r, step := Drive(w, s, from, edge, next, dt), StepTowards(w, s, next, edge, dt);
            && r.hist.trip.jumps == s.hist.trip.jumps
            && r.pose.x == step.pose.x && r.pose.y == step.pose.y && r.pose.theta == step.pose.theta
            && (if step.arrived then
                  r.task.nodes == Without(s.task.nodes, from.seqId)
                    && r.task.edges == WithoutEdge(s.task.edges, edge.seqId)
                  && r.task.lastSeq == next.seqId
                else r.task.nodes == s.task.nodes && r.task.edges == s.task.edges && r.task.lastSeq == s.task.lastSeq)
  {
    hide StepTowards, Without, WithoutEdge, Holders;
  }

  /** What the step on the first leg of an open road comes to. */
  lemma StepOnRoad(w: World, j: Terms, s: Robot)
    requires Sound(w, j) && Underway(w, j, s) && |s.task.nodes| > 1
    ensures var edge, next := s.task.edges[0], s.task.nodes[1];
            var step := StepTowards(w, s, next, edge, j.dt);
            && 0.0 <= step.pose.lastStep
            && (step.arrived ==>
                  match next.position
                  case None => step.pose.x == s.pose.x && step.pose.y == s.pose.y
                  case Some(to) => step.pose.x == to.x && step.pose.y == to.y)
            && (!step.arrived ==>
                  && next.position.Some?
                  && LegTicks(w, step.pose, next.position.value, edge, j.pace)
                       < LegTicks(w, s.pose, next.position.value, edge, j.pace)
                  && Settles(w, j, edge, DistanceTo(w, step.pose, next.position.value)))
  {
    hide StepPose, EffectiveSpeed, OpenSite, NoSpeedLimits, AllTimed, HypotLaw, Atan2Law, LegTicks, Lands, Steady, Tidy;
    TidyShape(s.task);
    var edge, next := s.task.edges[0], s.task.nodes[1];
    if next.position.Some? {
      var to, speed := next.position.value, EffectiveSpeed(w, s, edge);
      SpeedAtLeast(w, j, s, edge);
      Faster(j.least, speed, j.dt);
      StepConserves(w, s.pose, to, edge, speed, j.dt);
      SettlesAtSpeed(w, j, edge, DistanceTo(w, s.pose, to), speed);
      LegProgress(w, s.pose, to, edge, speed, j.dt, j.pace);
      SettlesAtSpeed(w, j, edge, DistanceTo(w, StepPose(w, s.pose, to, edge, speed, j.dt).pose, to), speed);
    }
  }

  /** Without speed limits the robot drives as fast as the edge allows, and settling is settling at that speed. */
  lemma SettlesAtSpeed(w: World, j: Terms, e: Edge, d: real, speed: real)
    requires j.unlimited ==> speed == EdgeSpeed(w, e)
    ensures Settles(w, j, e, d) ==> LegSettles(w, e, d, Stride(speed, j.dt))
    ensures LegSettles(w, e, d, Stride(speed, j.dt)) && (j.unlimited || Steady(w, e)) ==> Settles(w, j, e, d)
  {
    hide Steady, Lands, Stride;
  }

  lemma NearerAdvances(w: World, j: Terms, s: Robot, r: Robot)
    requires OpenRoad(w, j, s.task, s.pose) && |s.task.nodes| > 1 && s.task.nodes[1].position.Some?
    requires r.task.nodes == s.task.nodes && r.task.edges == s.task.edges && r.task.lastSeq == s.task.lastSeq
    requires var to, edge := s.task.nodes[1].position.value, s.task.edges[0];
             && LegTicks(w, r.pose, to, edge, j.pace) < LegTicks(w, s.pose, to, edge, j.pace)
             && Settles(w, j, edge, DistanceTo(w, r.pose, to))
    ensures Advances(w, j, s, r)
  {
    hide LegTicks, Settles, RouteTicks;
  }

  lemma ArrivalAdvances(w: World, j: Terms, s: Robot, r: Robot)
    requires OpenRoad(w, j, s.task, s.pose) && |s.task.nodes| > 1
    requires r.task.nodes == Without(s.task.nodes, s.task.nodes[0].seqId)
    requires r.task.edges == WithoutEdge(s.task.edges, s.task.edges[0].seqId) && r.task.lastSeq == s.task.nodes[1].seqId
    requires match s.task.nodes[1].position
             case None => r.pose.x == s.pose.x && r.pose.y == s.pose.y
             case Some(to) => r.pose.x == to.x && r.pose.y == to.y
    ensures Advances(w, j, s, r)
  {
    hide LegTicks, Settles, Tidy, Without, WithoutEdge;
    TidyRemoval(s.task);
    TidyShape(s.task);
    SuffixTidy(s.task, r.task);
    assert s.task.nodes[1..][1..] == s.task.nodes[2..];
    NextLegTicks(w, r.task, r.pose, j.pace);
    if s.task.nodes[1].position.Some? {
      SomeLegTicks(w, s.pose, s.task.nodes[1].position.value, s.task.edges[0], j.pace);
    }
  }

  lemma SomeLegTicks(w: World, p: Pose, to: Position, edge: Edge, pace: Pace)
    ensures 1 <= LegTicks(w, p, to, edge, pace)
  {
  }

  /** The movement part stands still only while an action holds it; otherwise the road gets shorter
      until it is used up. */
  lemma MoveAdvances(w: World, j: Terms, s: Robot)
    requires Sound(w, j) && Underway(w, j, s)
    ensures var r := Move(w, s, j.dt);
            && r.hist.trip.jumps == s.hist.trip.jumps && r.hist.orders.regraphs == s.hist.orders.regraphs
            && (s.task.nodes == [] ==> r == Halt(s))
            && (s.task.nodes != [] ==>
                  if IsBlocking(s.book, HeldIds(s)) || InstantIsBlocking(s.book) then r == Halt(s)
                  else Advances(w, j, s, r))
            && (r.task.nodes == [] ==> !r.task.driving)
  {
    hide IsBlocking, InstantIsBlocking, Proceed, MaybeRequestBase, OwnerActions, Sound, Tidy, OpenSite, NoSpeedLimits,
      AllTimed, RouteSettles, Advances;
    if s.task.nodes != [] {
      TidyLeg(s.task);
      TidyShape(s.task);
      BaseRequestKeepsLeg(w, s);
      if !IsBlocking(s.book, HeldIds(s)) && !InstantIsBlocking(s.book) {
        var b := MaybeRequestBase(w, s);
        BaseKeepsUnderway(w, j, s, b);
        var edge := if s.task.edges == [] then None else Some(s.task.edges[0]);
        if edge.None? { LeavingAdvances(w, j, b); } else { ProceedAdvances(w, j, b); }
        BaseAdvances(w, j, s, b, Move(w, s, j.dt));
      }
    }
  }

  /** The actions that hold movement at the first node of a tidy graph. */
  function HeldIds(s: Robot): seq<string>
    requires s.task.nodes != []
  {
    OwnerActions(s.task.nodes[0], if s.task.edges == [] then None else Some(s.task.edges[0]))
  }

  lemma BaseKeepsUnderway(w: World, j: Terms, s: Robot, b: Robot)
    requires Underway(w, j, s) && b == s.(task := s.task.(newBaseRequest := b.task.newBaseRequest))
    ensures Underway(w, j, b) && b.hist == s.hist
  {
    hide OpenRoad, OpenSite, NoSpeedLimits, AllTimed;
    SameRoadOnly(w, j, s, b);
  }

  lemma SameRoadOnly(w: World, j: Terms, s: Robot, b: Robot)
    requires OpenRoad(w, j, s.task, s.pose) && b.pose == s.pose
    requires b.task == s.task.(newBaseRequest := b.task.newBaseRequest)
    ensures OpenRoad(w, j, b.task, b.pose)
    ensures RoadTicks(w, b.task, b.pose, j.pace) == RoadTicks(w, s.task, s.pose, j.pace)
  {
    SameRoad(w, j, s.task, b.task, s.pose, b.pose);
  }

  lemma BaseAdvances(w: World, j: Terms, s: Robot, b: Robot, r: Robot)
    requires OpenRoad(w, j, s.task, s.pose) && b == s.(task := s.task.(newBaseRequest := b.task.newBaseRequest))
    requires Advances(w, j, b, r)
    ensures Advances(w, j, s, r)
  {
    hide OpenRoad, RoadTicks;
    OpenRoadIsTidy(w, j, s.task, s.pose);
    SameRoadOnly(w, j, s, b);
  }

  lemma OpenRoadIsTidy(w: World, j: Terms, t: Task, p: Pose)
    requires OpenRoad(w, j, t, p)
    ensures Tidy(t)
  {
  }

  lemma LeavingAdvances(w: World, j: Terms, s: Robot)
    requires Underway(w, j, s) && s.task.nodes != [] && s.task.edges == []
    ensures var r := Proceed(w, s, s.task.nodes[0], None, j.dt);
            Advances(w, j, s, r) && r.task.nodes == [] && !r.task.driving
            && r.hist.trip.jumps == s.hist.trip.jumps && r.hist.orders.regraphs == s.hist.orders.regraphs
  {
    hide Without, Holders, OpenSite, NoSpeedLimits, AllTimed;
    TidyRemoval(s.task);
    TidyShape(s.task);
    assert s.task.nodes[1..] == [];
  }

  lemma ProceedAdvances(w: World, j: Terms, s: Robot)
    requires Sound(w, j) && Underway(w, j, s) && s.task.nodes != [] && s.task.edges != []
    ensures var r := Proceed(w, s, s.task.nodes[0], Some(s.task.edges[0]), j.dt);
            Advances(w, j, s, r) && r.task.nodes != []
            && r.hist.trip.jumps == s.hist.trip.jumps && r.hist.orders.regraphs == s.hist.orders.regraphs
  {
    hide Sound, CheckGates, GatesOpen, Drive, Advances, OpenSite, NoSpeedLimits, AllTimed, Tidy, RouteSettles, FindNode;
    TidyLeg(s.task);
    TidyShape(s.task);
    var edge, next := s.task.edges[0], s.task.nodes[1];
    assert edge in s.task.edges && next in s.task.nodes;
    FreeGates(w, j, s, edge, next);
    GatesHold(w, s, edge, next);
    DriveAdvances(w, j, s);
    DriveKeepsGraph(w, s, s.task.nodes[0], edge, next, j.dt);
    TidyRemoval(s.task);
  }

  lemma DriveKeepsGraph(w: World, s: Robot, from: Node, edge: Edge, next: Node, dt: Span)
    ensures var r := Drive(w, s, from, edge, next, dt);
            r.hist.orders.regraphs == s.hist.orders.regraphs
            && (r.task.nodes == s.task.nodes || r.task.nodes == Without(s.task.nodes, from.seqId))
  {
    hide StepTowards, Without, WithoutEdge, Holders;
  }

  // ---- one beat ------------------------------------------------------------------------------

  function CalmBeat(j: Terms, now: real): Event { Beat(j.dt, now, NO_FAULTS) }

  /** Every order action is settled, and every registered instant action. */
  predicate Settled(b: Book) {
    && (forall e :: e in b.order ==> e.status.Terminal())
    && (forall e :: e in b.instant && e.id in b.registry ==> e.status.Terminal())
  }

  /** What a calm beat does to a robot underway. */
  ghost predicate Beats(w: World, j: Terms, s: Robot, r: Robot) {
    && Underway(w, j, r) && Tidy(s.task)
    && r.hist.trip.jumps == s.hist.trip.jumps && r.hist.orders.regraphs == s.hist.orders.regraphs
    && r.book.clock == s.book.clock + j.dt
    && (forall t: Track :: NoneOverdue(w, r.book, Entries(r.book, t)))
    && (NoneWaiting(s.book) ==> r.book.startedAt == s.book.startedAt)
    && (forall deadline: real :: StartedBy(s.book, deadline) && r.book.clock <= deadline ==>
        StartedBy(r.book, deadline))
    && RoadTicks(w, r.task, r.pose, j.pace) <= RoadTicks(w, s.task, s.pose, j.pace)
    && (Settled(r.book) && s.task.nodes != [] ==>
          RoadTicks(w, r.task, r.pose, j.pace) < RoadTicks(w, s.task, s.pose, j.pace))
    && (r.task.nodes == [] ==> !r.task.driving)
  }

  lemma SettledHoldsNothing(b: Book, ids: seq<string>)
    requires Settled(b)
    ensures !IsBlocking(b, ids) && !InstantIsBlocking(b)
  {
    forall id | id in ids ensures !Holding(b, id) {
      var i := FirstIndex(b.order, (e: Entry) => e.id == id);
      if i < |b.order| { assert b.order[i] in b.order; }
    }
  }

  lemma BeatAdvances(w: World, j: Terms, s: Robot, now: real)
    requires Sound(w, j) && Underway(w, j, s)
    ensures Beats(w, j, s, Step(w, s, CalmBeat(j, now)))
  {
    hide Sound, Prepare, Move, Underway, RoadTicks, NoneOverdue, AllTimed, NoneWaiting, StartedBy, Tidy,
      MaybeInjectFault, Tick, Settled;
    var p := Prepared(w, s, j.dt, now);
    PreparedUnderway(w, j, s, now);
    var m := Move(w, p, j.dt);
    MoveAdvances(w, j, p);
    MoveKeepsBook(w, p, j.dt);
    UnderwayIsActive(w, j, s);
    PreparedFacts(w, s, j.dt, now);
    NoFaultStrikes(w, m, j.dt);
    MovedUnderway(w, j, s, p, m, Step(w, s, CalmBeat(j, now)));
  }

  lemma UnderwayIsActive(w: World, j: Terms, s: Robot)
    requires Underway(w, j, s)
    ensures Active(s) && Tidy(s.task) && !s.faults.fieldViolation && s.faults.stop.NoStop?
  {
  }

  /** Without draws, and with no fault standing, a fault round only moves its clock. */
  lemma NoFaultStrikes(w: World, m: Robot, dt: Span)
    requires m.faults.operating.Automatic? && !m.faults.fieldViolation && m.faults.stop.NoStop?
    ensures MaybeInjectFault(w, m, dt, NO_FAULTS) == m.(faults := m.faults.(clock := m.faults.clock + dt))
  {
  }

  /** The state the movement part starts from. */
  ghost predicate Readied(w: World, j: Terms, s: Robot, p: Robot) {
    && Underway(w, j, p) && Tidy(s.task) && Tidy(p.task)
    && p.hist.trip.jumps == s.hist.trip.jumps && p.hist.orders.regraphs == s.hist.orders.regraphs
    && p.task.nodes == s.task.nodes
    && p.book.clock == s.book.clock + j.dt
    && (forall t: Track :: NoneOverdue(w, p.book, Entries(p.book, t)))
    && (NoneWaiting(s.book) ==> p.book.startedAt == s.book.startedAt)
    && (forall deadline: real :: StartedBy(s.book, deadline) && p.book.clock <= deadline ==>
        StartedBy(p.book, deadline))
    && RoadTicks(w, p.task, p.pose, j.pace) == RoadTicks(w, s.task, s.pose, j.pace)
  }

  lemma PreparedUnderway(w: World, j: Terms, s: Robot, now: real)
    requires Sound(w, j) && Underway(w, j, s)
    ensures Readied(w, j, s, Prepared(w, s, j.dt, now))
  {
    hide Prepare, NoneOverdue, NoneWaiting, StartedBy, OpenSite, RoadTicks, OpenRoad, AllTimed, HypotLaw, Atan2Law;
    var c := UpdateCharging(w, s, j.dt);
    var p := Prepared(w, s, j.dt, now);
    PreparationSweeps(w, c, j.dt, now, j.least);
    SameRoad(w, j, s.task, p.task, s.pose, p.pose);
    OpenRoadIsTidy(w, j, s.task, s.pose);
    OpenRoadIsTidy(w, j, p.task, p.pose);
    NoNewLimits(c.site, p.site);
  }

  lemma NoNewLimits(a: Site, b: Site)
    requires NoNewZones(a, b)
    ensures NoSpeedLimits(a) ==> NoSpeedLimits(b)
  {
  }

  lemma MovedUnderway(w: World, j: Terms, s: Robot, p: Robot, m: Robot, r: Robot)
    requires Readied(w, j, s, p) && r == m.(faults := m.faults.(clock := r.faults.clock))
    requires m.book == p.book && m.mode == p.mode && m.faults == p.faults && m.site == p.site
    requires m.hist.trip.jumps == p.hist.trip.jumps && m.hist.orders.regraphs == p.hist.orders.regraphs
    requires p.task.nodes == [] ==> m == Halt(p)
    requires p.task.nodes != [] ==>
               if IsBlocking(p.book, HeldIds(p)) || InstantIsBlocking(p.book) then m == Halt(p)
               else Advances(w, j, p, m)
    requires m.task.nodes == [] ==> !m.task.driving
    ensures Beats(w, j, s, r)
  {
    hide NoneOverdue, NoneWaiting, StartedBy, OpenSite, RoadTicks, OpenRoad, AllTimed, Tidy, IsBlocking,
      InstantIsBlocking, NoSpeedLimits, Settled;
    if m == Halt(p) {
      SameRoad(w, j, p.task, m.task, p.pose, m.pose);
    }
    if Settled(p.book) && p.task.nodes != [] {
      SettledHoldsNothing(p.book, HeldIds(p));
    }
  }

  // ---- the countdown ---------------------------------------------------------------------------

  /** After a sweep, every timed action started by `deadline` less the duration is settled. */
  lemma AllSettled(w: World, b: Book, started: real)
    requires AllTimed(b) && StartedBy(b, started) && started + w.cfg.actionDuration <= b.clock
    requires forall t: Track :: NoneOverdue(w, b, Entries(b, t))
    ensures Settled(b)
  {
    forall i: nat | i < |b.order| ensures b.order[i].status.Terminal() {
      assert Valid(b, Spot(OrderTrack, i)) && At(b, Spot(OrderTrack, i)) == b.order[i];
      assert b.order[i] in Entries(b, OrderTrack);
    }
    forall i: nat | i < |b.instant| && b.instant[i].id in b.registry ensures b.instant[i].status.Terminal() {
      assert Valid(b, Spot(InstantTrack, i)) && At(b, Spot(InstantTrack, i)) == b.instant[i];
      assert b.instant[i] in Entries(b, InstantTrack);
    }
  }

  lemma SweptNoneWaiting(w: World, b: Book)
    requires forall t: Track :: NoneOverdue(w, b, Entries(b, t))
    ensures NoneWaiting(b)
  {
    forall p: Spot | Valid(b, p) && At(b, p).id in b.registry ensures !At(b, p).status.Waiting? {
      assert At(b, p) in Entries(b, p.track);
    }
  }

  function CalmBeats(j: Terms, nows: seq<real>): seq<Event> {
    seq(|nows|, i requires 0 <= i < |nows| => CalmBeat(j, nows[i]))
  }

  /** The order has been carried out: nothing remains and the robot is idle. */
  ghost predicate Done(a: Robot, r: Robot) {
    Idle(r) && r.hist.trip.jumps == a.hist.trip.jumps && r.hist.orders.regraphs == a.hist.orders.regraphs
  }

  /** Ticks until every action started by `started` is settled. */
  function ActionTicks(w: World, b: Book, started: real, dt: Span): nat {
    Ticks(started + w.cfg.actionDuration - b.clock, dt)
  }

  lemma RoadUsedUp(w: World, j: Terms, s: Robot)
    requires Underway(w, j, s)
    ensures RoadTicks(w, s.task, s.pose, j.pace) == 0 <==> s.task.nodes == []
  {
  }

  lemma ThenIdle(w: World, j: Terms, s: Robot, r: Robot)
    requires Beats(w, j, s, r) && Settled(r.book) && r.task.nodes == []
    ensures Idle(r)
  {
  }

  /** Once nothing waits any more, every further beat counts down the actions or the road. */
  lemma {:induction false} CountsDown(w: World, j: Terms, s: Robot, nows: seq<real>, started: real)
    requires Sound(w, j) && Underway(w, j, s) && NoneWaiting(s.book) && StartedBy(s.book, started)
    requires |nows| > ActionTicks(w, s.book, started, j.dt) + RoadTicks(w, s.task, s.pose, j.pace)
             || (|nows| == 0 && Idle(s))
    ensures Done(s, Run(w, s, CalmBeats(j, nows)))
    decreases |nows|
  {
    hide Sound, Underway, Step, RoadTicks, NoneOverdue, AllTimed, NoneWaiting, StartedBy, Idle, Settled;
    if |nows| > 0 {
      var events := CalmBeats(j, nows);
      assert events[0] == CalmBeat(j, nows[0]) && events[1..] == CalmBeats(j, nows[1..]);
      var r := Step(w, s, events[0]);
      BeatAdvances(w, j, s, nows[0]);
      BeatCountsDown(w, j, s, r, started);
      CountsDown(w, j, r, nows[1..], started);
    }
  }

  /** After one beat either the count is lower by one, or it was at its end and the robot is idle. */
  lemma BeatCountsDown(w: World, j: Terms, s: Robot, r: Robot, started: real)
    requires Underway(w, j, s) && NoneWaiting(s.book) && StartedBy(s.book, started) && Beats(w, j, s, r)
    ensures Underway(w, j, r) && Tidy(s.task) && Tidy(r.task) && NoneWaiting(r.book) && StartedBy(r.book, started)
    ensures var a := ActionTicks(w, s.book, started, j.dt) + RoadTicks(w, s.task, s.pose, j.pace);
            var b := ActionTicks(w, r.book, started, j.dt) + RoadTicks(w, r.task, r.pose, j.pace);
            b < a || (b == 0 && Idle(r))
  {
    hide RoadTicks, NoneOverdue, AllTimed, NoneWaiting, Idle, Settled, OpenSite, NoSpeedLimits;
    SweptNoneWaiting(w, r.book);
    RoadUsedUp(w, j, s);
    RoadUsedUp(w, j, r);
    var left := started + w.cfg.actionDuration - s.book.clock;
    if left > 0.0 { TicksDrop(left, left - j.dt, j.dt); }
    if started + w.cfg.actionDuration <= r.book.clock {
      AllSettled(w, r.book, started);
      if r.task.nodes == [] { ThenIdle(w, j, s, r); }
    }
  }

  /** The number of beats within which the robot is done: one to start what waits, those of the
      actions' duration, those of the road, and one to come to rest. */
  function Budget(w: World, j: Terms, s: Robot): nat
    requires Tidy(s.task)
  {
    2 + Ticks(w.cfg.actionDuration, j.dt) + RoadTicks(w, s.task, s.pose, j.pace)
  }

  /** Arrival. A robot that nothing stops, on a contiguous, fully released and ungated order whose
      actions are all timed, is idle within its budget of beats and stays so: the whole graph is
      traversed, and the odometer has grown by exactly the length of the way. */
  lemma FullyReleasedOrderArrives(w: World, j: Terms, s: Robot, nows: seq<real>)
    requires Sound(w, j) && Underway(w, j, s) && StartedBy(s.book, s.book.clock)
    requires |nows| >= Budget(w, j, s)
    ensures var r := Run(w, s, CalmBeats(j, nows));
            && Idle(r) && Suffix(s, r) && LegsBetween(s, r) == |s.task.nodes|
            && r.hist.trip.odometer == s.hist.trip.odometer + Remaining(w, s)
  {
    hide Sound, Underway, Step, RoadTicks, NoneOverdue, AllTimed, NoneWaiting, StartedBy, Settled, Suffix, Remaining,
      Beats;
    var events := CalmBeats(j, nows);
    assert events[0] == CalmBeat(j, nows[0]) && events[1..] == CalmBeats(j, nows[1..]);
    var first := Step(w, s, events[0]);
    BeatAdvances(w, j, s, nows[0]);
    FirstBeat(w, j, s, first);
    CountsDown(w, j, first, nows[1..], first.book.clock);
    var r := Run(w, s, events);
    UnderwayIsActive(w, j, s);
    GraphIsConsumedInOrder(w, s, events);
    SoundHypot(w, j);
    OdometerTelescopes(w, s, events);
    UsedUp(w, s, r);
  }

  lemma SoundHypot(w: World, j: Terms)
    requires Sound(w, j)
    ensures HypotLaw(w)
  {
  }

  lemma FirstBeat(w: World, j: Terms, s: Robot, r: Robot)
    requires Beats(w, j, s, r) && StartedBy(s.book, s.book.clock)
    ensures Underway(w, j, r) && Tidy(r.task) && NoneWaiting(r.book) && StartedBy(r.book, r.book.clock)
    ensures RoadTicks(w, r.task, r.pose, j.pace) <= RoadTicks(w, s.task, s.pose, j.pace)
    ensures r.hist.trip.jumps == s.hist.trip.jumps && r.hist.orders.regraphs == s.hist.orders.regraphs
    ensures ActionTicks(w, r.book, r.book.clock, j.dt) == Ticks(w.cfg.actionDuration, j.dt)
  {
    hide RoadTicks, NoneOverdue, AllTimed, NoneWaiting, OpenSite, NoSpeedLimits, Settled, Ticks;
    SweptNoneWaiting(w, r.book);
    assert StartedBy(s.book, r.book.clock);
    UnderwayIsActive(w, j, r);
  }

  lemma UsedUp(w: World, s: Robot, r: Robot)
    requires Idle(r) && Telescopes(w, s, r) && Consumes(s, r)
    requires r.hist.trip.jumps == s.hist.trip.jumps && r.hist.orders.regraphs == s.hist.orders.regraphs
    ensures Suffix(s, r) && LegsBetween(s, r) == |s.task.nodes|
    ensures r.hist.trip.odometer == s.hist.trip.odometer + Remaining(w, s)
  {
    hide Tidy, PathLength;
  }

  // ---- from the order message to arrival -----------------------------------------------------

  /** Nothing is live but order entries that wait, registered under timed actions. */
  ghost predicate Quiet(b: Book) {
    forall p: Spot :: Valid(b, p) ==> QuietEntry(b, p.track, At(b, p))
  }

  predicate TimedKind(kind: ActionKind) { !kind.InitializePosition? && !kind.WaitForTrigger? }

  predicate QuietEntry(b: Book, t: Track, e: Entry) {
    e.status.Terminal()
    || (t.OrderTrack? && e.status.Waiting? && e.id in b.registry && TimedKind(b.registry[e.id].kind))
  }

  lemma QuietIsTimed(b: Book)
    requires Quiet(b)
    ensures AllTimed(b)
  {
    forall p: Spot | Valid(b, p) ensures Timed(b, p.track, At(b, p)) {
      assert QuietEntry(b, p.track, At(b, p));
    }
  }

  lemma OneRegisteredQuiet(w: World, s: Robot, a: Action, scope: Scope)
    requires Quiet(s.book) && TimedKind(a.kind)
    ensures Quiet(RegisterOrderAction(w, s, a, scope).book)
  {
    hide Accepted, LiveId, Append;
    var r := RegisterOrderAction(w, s, a, scope);
    forall p: Spot | Valid(r.book, p) ensures QuietEntry(r.book, p.track, At(r.book, p)) {
      AppendAt(s.book, OrderTrack, Entry(a.id, a.kind, Waiting), p);
      AppendAt(s.book, OrderTrack, Entry(a.id, a.kind, Failed), p);
      if Valid(s.book, p) { assert QuietEntry(s.book, p.track, At(s.book, p)); }
    }
  }

  lemma {:induction false} RegistrationQuiet(w: World, s: Robot, actions: seq<Action>, scope: Scope)
    requires Quiet(s.book) && forall a :: a in actions ==> TimedKind(a.kind)
    ensures var r := RegisterAll(w, s, actions, scope);
            && Quiet(r.book) && r.book.startedAt == s.book.startedAt && r.book.clock == s.book.clock
            && r == s.(book := r.book, errors := r.errors, hist := r.hist)
    decreases |actions|
  {
    hide Quiet, Ids, LiveId;
    if actions != [] {
      assert forall a :: a in actions[1..] ==> a in actions;
      OneRegisteredQuiet(w, s, actions[0], scope);
      var t := if actions[0].id in Ids(s.book.order) then s else RegisterOrderAction(w, s, actions[0], scope);
      RegistrationQuiet(w, t, actions[1..], scope);
    }
  }

  /** An order that asks for nothing but driving, from where the robot stands, and for actions on a timer. */
  ghost predicate PlainOrder(w: World, j: Terms, s: Robot, o: Order) {
    && OpenRoad(w, j, s.task.(nodes := o.nodes, edges := o.edges, lastSeq := 0), s.pose)
    && forall a :: a in NodeActions(o.nodes) + EdgeActions(o.edges) ==> TimedKind(a.kind)
  }

  /** A robot ready for an order: nothing stops it, nothing is live on board, the site is open. */
  ghost predicate Ready(w: World, j: Terms, s: Robot) {
    && Active(s) && !s.faults.fieldViolation && s.faults.stop.NoStop? && Idle(s)
    && Quiet(s.book) && StartedBy(s.book, s.book.clock)
    && OpenSite(s.site, j.least) && (j.unlimited ==> NoSpeedLimits(s.site))
  }

  lemma AcceptedIsUnderway(w: World, j: Terms, s: Robot, o: Order)
    requires Ready(w, j, s) && PlainOrder(w, j, s, o)
    ensures var r := AcceptOrder(w, s, o, false);
            && Underway(w, j, r) && StartedBy(r.book, r.book.clock) && Tidy(r.task)
            && r.task.nodes == o.nodes && r.task.edges == o.edges && r.pose == s.pose
  {
    hide RegisterAll, OpenRoad, OpenSite, NoSpeedLimits, Idle, AllTimed;
    var t := TakeOrder(s, o, false);
    TakenQuiet(s, o);
    RegistrationQuiet(w, t, NodeActions(o.nodes), NodeScope);
    var n := RegisterAll(w, t, NodeActions(o.nodes), NodeScope);
    RegistrationQuiet(w, n, EdgeActions(o.edges), EdgeScope);
    var r := AcceptOrder(w, s, o, false);
    QuietIsTimed(r.book);
    SameRoad(w, j, s.task.(nodes := o.nodes, edges := o.edges, lastSeq := 0), r.task, s.pose, r.pose);
    OpenRoadIsTidy(w, j, r.task, r.pose);
  }

  lemma TakenQuiet(s: Robot, o: Order)
    requires Quiet(s.book)
    ensures Quiet(TakeOrder(s, o, false).book)
  {
    var r := TakeOrder(s, o, false);
    forall p: Spot | Valid(r.book, p) ensures QuietEntry(r.book, p.track, At(r.book, p)) {
      assert QuietEntry(s.book, p.track, At(s.book, p));
    }
  }

  /** From message to arrival: a plain order sent to a ready robot under a new id is taken, and
      carried out within a number of beats computed from the order and the robot's place: then it is idle,
      every node has been left behind, and the odometer has grown by the length of the route. */
  lemma SentOrderArrives(w: World, j: Terms, s: Robot, o: Order, nows: seq<real>)
    requires Sound(w, j) && Ready(w, j, s) && PlainOrder(w, j, s, o)
    requires s.task.orderId == "" || o.orderId != s.task.orderId
    requires o.nodes != []
    requires |nows| >= 3 + Ticks(w.cfg.actionDuration, j.dt) + RouteTicks(w, s.pose.x, s.pose.y, o.nodes[1..], j.pace)
    ensures var r := Run(w, s, [OrderMessage(o)] + CalmBeats(j, nows));
            && Idle(r) && r.task.orderId == o.orderId && r.task.snapshot == Some(o)
            && r.task.nodes == [] && r.task.edges == []
            && r.hist.trip.legs == |o.nodes| && r.task.lastSeq == o.nodes[|o.nodes| - 1].seqId
            && r.hist.trip.odometer == s.hist.trip.odometer + PathLength(w, s.pose.x, s.pose.y, o.nodes[1..])
  {
    hide Sound, Ready, PlainOrder, Underway, AcceptOrder, WarnUnknownMaps, RouteTicks, RoadTicks, StartedBy, CalmBeats,
      PathLength, Tidy;
    var c := WarnUnknownMaps(s, o);
    WarnedReady(w, j, s, o);
    AcceptedIsUnderway(w, j, c, o);
    AcceptedCounts(w, c, o);
    var t := AcceptOrder(w, c, o, false);
    NextLegTicks(w, t.task, t.pose, j.pace);
    FullyReleasedOrderArrives(w, j, t, nows);
    var events := CalmBeats(j, nows);
    assert ([OrderMessage(o)] + events)[1..] == events && Step(w, s, OrderMessage(o)) == t;
  }

  lemma WarnedReady(w: World, j: Terms, s: Robot, o: Order)
    requires Ready(w, j, s) && PlainOrder(w, j, s, o)
    ensures var c := WarnUnknownMaps(s, o);
            && Ready(w, j, c) && PlainOrder(w, j, c, o) && Idle(c) && Idle(s)
            && c.task == s.task && c.pose == s.pose && c.hist == s.hist && c.mode == s.mode && !s.mode.hibernating
  {
    hide OpenRoad, OpenSite, NoSpeedLimits, Quiet, StartedBy, UnknownMaps;
  }

  lemma AcceptedCounts(w: World, s: Robot, o: Order)
    ensures var r := AcceptOrder(w, s, o, false);
            && r.hist.trip.odometer == s.hist.trip.odometer && r.hist.trip.legs == 0
            && r.task.orderId == o.orderId && r.task.snapshot == Some(o)
  {
    hide RegisterAll;
    var t := TakeOrder(s, o, false);
    CountedRegistration(w, t, NodeActions(o.nodes), NodeScope);
    CountedRegistration(w, RegisterAll(w, t, NodeActions(o.nodes), NodeScope), EdgeActions(o.edges), EdgeScope);
  }

  lemma {:induction false} CountedRegistration(w: World, s: Robot, actions: seq<Action>, scope: Scope)
    ensures var r := RegisterAll(w, s, actions, scope);
            r.hist.trip.odometer == s.hist.trip.odometer && r.hist.trip.legs == s.hist.trip.legs && r.task == s.task
    decreases |actions|
  {
    hide LiveId, Ids;
    if actions != [] {
      var t := if actions[0].id in Ids(s.book.order) then s else RegisterOrderAction(w, s, actions[0], scope);
      CountedRegistration(w, t, actions[1..], scope);
    }
  }
}
