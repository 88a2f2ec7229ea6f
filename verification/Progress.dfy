/** Every active tick makes progress or leaves a visible cause why not. */
module Progress {
  import opened Vda5050
  import opened Platform
  import opened RobotState
  import opened Transitions
  import opened TickFrames
  import opened TrafficControl
  import opened Motion
  import opened Legs
  import opened Speed
  import opened Blocking

  /** The node the robot was at has been left behind. */
  predicate LeftNode(s: Robot, r: Robot, at: Node) {
    r.task.nodes == Without(s.task.nodes, at.seqId) && r.hist.trip.legs == s.hist.trip.legs + 1
  }

  /** The graph is the same, and on the leg to `to` the robot has turned on the spot towards the
      edge's orientation, by a full tick's turn, or driven nearer, by what the least speed limit allows
      in a full tick. */
  ghost predicate Nearer(w: World, s: Robot, r: Robot, to: Position, edge: Edge, dt: Span) {
    && r.task.nodes == s.task.nodes && r.task.edges == s.task.edges
    && if MustTurn(w, s.pose, to, edge) then
         && r.pose.x == s.pose.x && r.pose.y == s.pose.y && 0.0 < w.cfg.angularSpeed * dt
         && TurnError(w, r.pose, to, edge) == Max(0.0, TurnError(w, s.pose, to, edge) - w.cfg.angularSpeed * dt)
       else
         exists v :: Slowest(w, s, edge, v) && 0.0 < Stride(v, dt)
                     && DistanceTo(w, r.pose, to) == DistanceTo(w, s.pose, to) - Stride(v, dt)
  }

  predicate CorridorPending(t: Traffic, edge: Edge) {
    exists q :: q in t.edgeRequests && q.edgeId == edge.edgeId && q.seqId == edge.seqId && !q.status.Granted?
  }

  predicate NeedsGrant(z: Zone) { z.zoneType.Release? || z.zoneType.CoordinatedReplanning? }

  predicate AccessPending(t: Traffic, zones: seq<Zone>) {
    exists q, z :: q in t.zoneRequests && z in zones && NeedsGrant(z) && q.zoneId == z.zoneId && !q.status.Granted?
  }

  /** The zones of the current map around the node. */
  ghost function ZonesAround(s: Robot, n: Node): seq<Zone> {
    match n.position
    case None => []
    case Some(p) => ZonesAt(s.site.zoneSets, s.pose.mapId, p.x, p.y)
  }

  /** A zone that no grant can open: BLOCKED, or to be entered against its binding direction. */
  ghost predicate Forbids(w: World, s: Robot, z: Zone, x: real, y: real) {
    z.zoneType.Blocked? || WrongWay(w, s, z, x, y)
  }

  ghost predicate SomeForbid(w: World, s: Robot, zones: seq<Zone>, x: real, y: real) {
    exists z :: z in zones && Forbids(w, s, z, x, y)
  }

  ghost predicate ForbiddenAhead(w: World, s: Robot, n: Node) {
    n.position.Some? && SomeForbid(w, s, ZonesAround(s, n), n.position.value.x, n.position.value.y)
  }

  /** Nothing on board holds the robot, the leg is released, and all gates on it are open. */
  ghost predicate Unhindered(w: World, s: Robot, leg: Leg) {
    && !Delayed(s, leg.from, Some(leg.edge))
    && leg.edge.released && leg.next.released && GatesOpen(w, s, leg.edge, leg.next)
  }

  /** A pre-rotation whose target turns along with the robot: tangential, on the very spot of the node. */
  predicate Spinning(w: World, s: Robot, leg: Leg) {
    && leg.next.position.Some?
    && MustTurn(w, s.pose, leg.next.position.value, leg.edge)
    && !Anchored(w, s.pose, leg.next.position.value, leg.edge)
  }

  /** A node has been left behind, or the robot is nearer to the next one. */
  ghost predicate Progresses(w: World, s: Robot, r: Robot, leg: Leg, dt: Span) {
    LeftNode(s, r, leg.from) || (leg.next.position.Some? && Nearer(w, s, r, leg.next.position.value, leg.edge, dt))
  }

  /** The robot has stopped where it was, with its graph as it was. */
  predicate Waits(s: Robot, r: Robot) {
    r == s.(traffic := r.traffic, task := s.task.(driving := false, newBaseRequest := r.task.newBaseRequest))
  }

  /** Why it waits: an unfinished movement-holding action, a field violation or emergency stop; an
      unreleased edge or node or a zone that no grant opens, and then the wish for a new base; or a
      request of this leg that is not GRANTED. */
  ghost predicate ShowsWhy(w: World, s: Robot, r: Robot, leg: Leg) {
    || Delayed(s, leg.from, Some(leg.edge))
    || ((!leg.edge.released || !leg.next.released || ForbiddenAhead(w, s, leg.next)) && r.task.newBaseRequest)
    || CorridorPending(r.traffic, leg.edge)
    || AccessPending(r.traffic, ZonesAround(s, leg.next))
  }

  /** Zone gates that hold leave a request that is not GRANTED, or, at a zone no grant opens, the wish
      for a new base. */
  lemma {:induction false} ZoneGatesShow(w: World, s: Robot, zones: seq<Zone>, x: real, y: real)
    ensures var g := ZoneGates(w, s, zones, x, y);
            && (s.task.newBaseRequest ==> g.robot.task.newBaseRequest)
            && (forall q :: q in s.traffic.zoneRequests ==> q in g.robot.traffic.zoneRequests)
            && g.robot.traffic.edgeRequests == s.traffic.edgeRequests
            && (g.hold ==> (SomeForbid(w, s, zones, x, y) && g.robot.task.newBaseRequest)
                           || AccessPending(g.robot.traffic, zones))
    decreases |zones|
  {
    hide AgainstDirection, ZoneSetIdFor, Forbids;
    if zones != [] {
      var z := zones[0];
      var g := ZoneGate(w, s, z, x, y);
      ZoneGateShows(w, s, z, x, y);
      ZoneGatesShow(w, g.robot, zones[1..], x, y);
      var rest := ZoneGates(w, g.robot, zones[1..], x, y);
      assert z in zones && forall y :: y in zones[1..] ==> y in zones;
      SamePoseForbids(w, s, g.robot, x, y);
      if g.hold && !Forbids(w, s, z, x, y) {
        var q :| q in g.robot.traffic.zoneRequests && q.zoneId == z.zoneId && !q.status.Granted?;
        assert q in rest.robot.traffic.zoneRequests;
      }
    }
  }

  lemma SamePoseForbids(w: World, s: Robot, r: Robot, x: real, y: real)
    requires r.pose == s.pose
    ensures forall z: Zone :: Forbids(w, r, z, x, y) <==> Forbids(w, s, z, x, y)
  {
  }

  lemma ZoneGateShows(w: World, s: Robot, z: Zone, x: real, y: real)
    ensures var g := ZoneGate(w, s, z, x, y);
            && (s.task.newBaseRequest ==> g.robot.task.newBaseRequest)
            && (forall q :: q in s.traffic.zoneRequests ==> q in g.robot.traffic.zoneRequests)
            && g.robot.traffic.edgeRequests == s.traffic.edgeRequests
            && g.robot.pose == s.pose
            && (Forbids(w, s, z, x, y) ==> g.hold && g.robot.task.newBaseRequest)
            && (g.hold && !Forbids(w, s, z, x, y) ==>
                  NeedsGrant(z)
                  && exists q :: q in g.robot.traffic.zoneRequests && q.zoneId == z.zoneId && !q.status.Granted?)
  {
    hide AgainstDirection, WrongWay, ZoneSetIdFor;
    AgainstIsWrongWay(w, s, z, x, y);
    DirectedIsNoAccess(w, s, z, x, y);
    if RequiresAccess(z) {
      var t := s.traffic;
      var i := ZoneRequestIndex(t, z.zoneId, ZoneSetIdFor(s.site.zoneSets, z.zoneId));
      var g := AccessGate(s, z);
      if i < |t.zoneRequests| {
        assert t.zoneRequests[i] in g.robot.traffic.zoneRequests;
      } else {
        assert g.robot.traffic.zoneRequests[|t.zoneRequests|] in g.robot.traffic.zoneRequests;
      }
    }
  }

  lemma CorridorGateShows(s: Robot, edge: Edge)
    ensures var c := CorridorGate(s, edge);
            && c.robot == s.(traffic := s.traffic.(edgeRequests := c.robot.traffic.edgeRequests))
            && (c.hold ==> CorridorPending(c.robot.traffic, edge))
  {
    if edge.releaseRequired {
      var i := EdgeRequestIndex(s.traffic, edge);
      var es := CorridorGate(s, edge).robot.traffic.edgeRequests;
      assert es[i] in es;
    }
  }

  lemma HeldGatesShow(w: World, s: Robot, edge: Edge, next: Node)
    requires CheckGates(w, s, edge, next).hold
    ensures var r := CheckGates(w, s, edge, next).robot;
            || (ForbiddenAhead(w, s, next) && r.task.newBaseRequest)
            || CorridorPending(r.traffic, edge) || AccessPending(r.traffic, ZonesAround(s, next))
  {
    hide ZoneGates, CorridorGate, Forbids;
    CorridorGateShows(s, edge);
    if next.position.Some? {
      var p := next.position.value;
      var c := CorridorGate(s, edge).robot;
      SamePoseForbids(w, s, c, p.x, p.y);
      ZoneGatesShow(w, c, ZonesAt(s.site.zoneSets, s.pose.mapId, p.x, p.y), p.x, p.y);
    }
  }

  /** Whether the movement part, from `s` to `r`, makes progress exactly when it should. */
  ghost predicate ProgressExactly(w: World, s: Robot, r: Robot, dt: Span)
    requires s.task.nodes != []
  {
    var at := CurrentNode(s.task);
    var edge := FindEdge(s.task.edges, at.seqId + 1);
    if edge.None? then
      if Delayed(s, at, None) then Waits(s, r) else LeftNode(s, r, at)
    else if FindNode(s.task.nodes, edge.value.seqId + 1).None? then
      Waits(s, r) && (Delayed(s, at, edge) || r.task.newBaseRequest)
    else
      var leg := NextLeg(s.task);
      && (Progresses(w, s, r, leg, dt) <==> Unhindered(w, s, leg) && !Spinning(w, s, leg))
      && (!Unhindered(w, s, leg) ==> Waits(s, r) && ShowsWhy(w, s, r, leg))
  }

  /** Progress or cause, exactly, on any graph. With an edge ahead and a node behind it, the movement part
      leaves the current node behind, turns by a full tick's turn or drives a full tick's distance
      nearer to the next node if and only if nothing hinders it and it is not spinning; when something
      hinders it, it waits where it is and shows why. Without a node behind the edge it waits for a
      new base; without an edge it leaves the node unless something on board holds it. */
  lemma ProgressOrCause(w: World, s: Robot, dt: Span)
    requires HypotLaw(w) && s.task.nodes != []
    requires 0.0 < w.cfg.angularSpeed * dt
    requires HasLeg(s.task) ==> forall v :: Bounds(w, s, NextLeg(s.task).edge, v) ==> 0.0 < v
    ensures ProgressExactly(w, s, Move(w, s, dt), dt)
  {
    hide HypotLaw, Held, Delayed, Bounds, EffectiveSpeed, Drive, Progresses, Unhindered, Spinning, ShowsWhy,
      CurrentNode, FindEdge, FindNode, Without, WithoutEdge, MaybeRequestBase, Holders;
    BaseRequestKeepsLeg(w, s);
    var at := CurrentNode(s.task);
    HeldIffDelayed(s, at, FindEdge(s.task.edges, at.seqId + 1));
    if HasLeg(s.task) {
      var leg := NextLeg(s.task);
      SpeedIsSlowest(w, s, leg.edge);
      var b := MaybeRequestBase(w, s);
      MoveIs(w, s, leg, dt);
      CurrentIsLeft(s.task);
      if Unhindered(w, s, leg) {
        SpeedIgnoresTask(w, s, b, leg.edge);
        DriveProgress(w, b, leg, dt);
        SameProgress(w, s, b, Move(w, s, dt), leg, dt);
      } else {
        WaitingIsNoProgress(w, s, Move(w, s, dt), leg, dt);
      }
    }
  }

  /** The current node is one of the graph's, so leaving it behind changes the graph. */
  lemma CurrentIsLeft(t: Task)
    requires t.nodes != []
    ensures Without(t.nodes, CurrentNode(t).seqId) != t.nodes
  {
    var i := FirstIndex(t.nodes, (n: Node) => n.seqId == t.lastSeq);
    assert CurrentNode(t) in t.nodes && CurrentNode(t) !in Without(t.nodes, CurrentNode(t).seqId);
  }

  /** On a leg, the movement part is the drive if nothing hinders it, and otherwise waits and shows why. */
  lemma MoveIs(w: World, s: Robot, leg: Leg, dt: Span)
    requires HasLeg(s.task) && leg == NextLeg(s.task)
    ensures var r := Move(w, s, dt);
            if Unhindered(w, s, leg) then r == Drive(w, MaybeRequestBase(w, s), leg.from, leg.edge, leg.next, dt)
            else Waits(s, r) && ShowsWhy(w, s, r, leg)
  {
    hide Held, Delayed, Drive, CheckGates, GatesOpen, CorridorPending, AccessPending, ForbiddenAhead, ZonesAround,
      CurrentNode, FindEdge, FindNode, MaybeRequestBase, Stands;
    BaseRequestKeepsLeg(w, s);
    HeldIffDelayed(s, leg.from, Some(leg.edge));
    var b := MaybeRequestBase(w, s);
    if !Held(s, OwnerActions(leg.from, Some(leg.edge))) && leg.edge.released && leg.next.released {
      GatesHold(w, b, leg.edge, leg.next);
      BaseRequestKeepsGates(w, s, leg.edge, leg.next, 0.0);
      if CheckGates(w, b, leg.edge, leg.next).hold {
        HeldGatesShow(w, b, leg.edge, leg.next);
        CheckGatesFrame(w, b, leg.edge, leg.next);
        SameZonesAround(w, s, b, leg.next);
      }
    }
  }

  lemma WaitingIsNoProgress(w: World, s: Robot, r: Robot, leg: Leg, dt: Span)
    requires Waits(s, r)
    ensures !Progresses(w, s, r, leg, dt)
  {
    hide StepPose, EffectiveSpeed, DistanceTo;
    if leg.next.position.Some? {
      MustTurnMeansError(w, s.pose, leg.next.position.value, leg.edge);
    }
  }

  /** So does every active tick, from the state its sweep, leases and zone actions leave. */
  lemma ActiveTickProgress(w: World, s: Robot, dt: Span, now: real)
    requires HypotLaw(w) && Active(s) && s.task.nodes != []
    requires 0.0 < w.cfg.angularSpeed * dt
    requires var p := Prepared(w, s, dt, now);
             HasLeg(p.task) ==> forall v :: Bounds(w, p, NextLeg(p.task).edge, v) ==> 0.0 < v
    ensures var p := Prepared(w, s, dt, now);
            p.task.nodes != [] && ProgressExactly(w, p, Tick(w, s, dt, now), dt)
  {
    hide HypotLaw, Prepare, Tick, Move, Bounds, ProgressExactly;
    PreparedFacts(w, s, dt, now);
    ProgressOrCause(w, Prepared(w, s, dt, now), dt);
  }

  lemma SameZonesAround(w: World, s: Robot, b: Robot, n: Node)
    requires b.site == s.site && b.pose == s.pose
    ensures ZonesAround(b, n) == ZonesAround(s, n) && (ForbiddenAhead(w, b, n) <==> ForbiddenAhead(w, s, n))
  {
    hide ZonesAt, Forbids;
    if n.position.Some? { SamePoseForbids(w, s, b, n.position.value.x, n.position.value.y); }
  }

  lemma SameProgress(w: World, s: Robot, b: Robot, r: Robot, leg: Leg, dt: Span)
    requires b == s.(task := s.task.(newBaseRequest := b.task.newBaseRequest))
    ensures Progresses(w, s, r, leg, dt) <==> Progresses(w, b, r, leg, dt)
    ensures Spinning(w, s, leg) <==> Spinning(w, b, leg)
  {
    hide StepPose, DistanceTo, MustTurn, TurnError, Slowest, Bounds;
    SamePlaceBounds(w, s, b, leg.edge);
  }

  lemma SpeedIgnoresTask(w: World, s: Robot, b: Robot, edge: Edge)
    requires b.site == s.site && b.pose == s.pose
    ensures EffectiveSpeed(w, b, edge) == EffectiveSpeed(w, s, edge)
  {
  }

  /** A drive makes progress unless it spins. */
  lemma DriveProgress(w: World, s: Robot, leg: Leg, dt: Span)
    requires HypotLaw(w) && 0.0 < w.cfg.angularSpeed * dt && 0.0 < EffectiveSpeed(w, s, leg.edge)
    requires Without(s.task.nodes, leg.from.seqId) != s.task.nodes
    ensures Progresses(w, s, Drive(w, s, leg.from, leg.edge, leg.next, dt), leg, dt) <==> !Spinning(w, s, leg)
  {
    hide HypotLaw, EffectiveSpeed, Bounds, StepPose, MustTurn, TurnError, Anchored, DistanceTo, Without, WithoutEdge,
      Holders;
    SpeedIsSlowest(w, s, leg.edge);
    if leg.next.position.Some? {
      var to, speed := leg.next.position.value, EffectiveSpeed(w, s, leg.edge);
      var p := StepPose(w, s.pose, to, leg.edge, speed, dt);
      var r := Drive(w, s, leg.from, leg.edge, leg.next, dt);
      SpeedSign(speed, dt);
      StepConserves(w, s.pose, to, leg.edge, speed, dt);
      SamePlace(w, p.pose, r.pose, to, leg.edge);
      if MustTurn(w, s.pose, to, leg.edge) {
        TurningTick(w, s.pose, to, leg.edge, speed, dt, w.cfg.angularSpeed * dt);
        MustTurnMeansError(w, s.pose, to, leg.edge);
      } else if !p.arrived {
        DrivingPose(w, s.pose, to, leg.edge, speed, dt, speed * dt, DistanceTo(w, s.pose, to));
      }
    }
  }

  /** Turning, distance and settling depend on position and heading only. */
  lemma SamePlace(w: World, p: Pose, q: Pose, to: Position, edge: Edge)
    ensures q.x == p.x && q.y == p.y && q.theta == p.theta ==>
              && TurnError(w, q, to, edge) == TurnError(w, p, to, edge)
              && (MustTurn(w, q, to, edge) <==> MustTurn(w, p, to, edge))
              && DistanceTo(w, q, to) == DistanceTo(w, p, to)
  {
  }
}
