/** How fast a robot drives: never faster than its own speed, the edge or any SPEED_LIMIT zone it is in
    allows, and exactly as fast as the least of them. */
module Speed {
  import opened Vda5050
  import opened Platform
  import opened RobotState
  import opened Transitions
  import opened TickFrames
  import opened TrafficControl
  import opened Legs
  import Polygon
  import Zones

  /** Whether `v` is the maximum speed of a SPEED_LIMIT zone of the current map around the robot. */
  ghost predicate ZoneLimits(s: Robot, v: real) {
    exists o, z :: o in s.site.zoneSets && o.mapId == s.pose.mapId && z in o.zones
                   && Polygon.Inside(s.pose.x, s.pose.y, z.vertices)
                   && z.zoneType == SpeedLimit && z.maximumSpeed == Some(v)
  }

  /** Whether `v` is one of the speeds the robot must not exceed on the edge. */
  ghost predicate Bounds(w: World, s: Robot, edge: Edge, v: real) {
    v == w.cfg.speed || edge.maximumSpeed == Some(v) || ZoneLimits(s, v)
  }

  /** Whether `v` is the least of them. */
  ghost predicate Slowest(w: World, s: Robot, edge: Edge, v: real) {
    Bounds(w, s, edge, v) && forall u :: Bounds(w, s, edge, u) ==> v <= u
  }

  predicate Limits(zones: seq<Zone>, v: real) {
    exists z :: z in zones && z.zoneType == SpeedLimit && z.maximumSpeed == Some(v)
  }

  lemma {:induction false} CapIsLeast(zones: seq<Zone>, speed: real)
    ensures var c := CapSpeed(zones, speed);
            c <= speed && (c == speed || Limits(zones, c)) && forall v :: Limits(zones, v) ==> c <= v
    decreases |zones|
  {
    if zones != [] {
      var z, rest := zones[0], zones[1..];
      assert forall y :: y in zones <==> y == z || y in rest;
      var next := if z.zoneType.SpeedLimit? && z.maximumSpeed.Some? then Min(speed, z.maximumSpeed.value) else speed;
      CapIsLeast(rest, next);
      forall v
        ensures Limits(zones, v) <==> Limits(rest, v) || (z.zoneType == SpeedLimit && z.maximumSpeed == Some(v))
      {
      }
    }
  }

  lemma ZoneLimitsAre(s: Robot, v: real)
    ensures Limits(ZonesAt(s.site.zoneSets, s.pose.mapId, s.pose.x, s.pose.y), v) <==> ZoneLimits(s, v)
  {
    hide ZonesAt, Polygon.Inside;
    Zones.ZonesAtMembers(s.site.zoneSets, s.pose.mapId, s.pose.x, s.pose.y);
  }

  /** The speed of a step is the least bound. */
  lemma SpeedIsSlowest(w: World, s: Robot, edge: Edge)
    ensures Slowest(w, s, edge, EffectiveSpeed(w, s, edge))
  {
    hide ZonesAt, CapSpeed, Limits, ZoneLimits;
    var zones := ZonesAt(s.site.zoneSets, s.pose.mapId, s.pose.x, s.pose.y);
    CapIsLeast(zones, if edge.maximumSpeed.Some? then Min(w.cfg.speed, edge.maximumSpeed.value) else w.cfg.speed);
    forall v ensures Limits(zones, v) <==> ZoneLimits(s, v) { ZoneLimitsAre(s, v); }
  }

  /** No step is longer than any bound allows in its tick, but for the last micrometre at the node; and
      one that neither arrives nor turns on the spot is as long as the least bound allows. */
  lemma StepWithinBounds(w: World, s: Robot, next: Node, edge: Edge, dt: Span)
    ensures var r := StepTowards(w, s, next, edge, dt);
            && (forall v :: Bounds(w, s, edge, v) ==> r.pose.lastStep <= Max(Stride(v, dt), 0.000001))
            && (!r.arrived && r.pose.lastStep != 0.0 ==>
                  exists v :: Slowest(w, s, edge, v) && r.pose.lastStep == Stride(v, dt))
  {
    hide EffectiveSpeed, Bounds, StepPose;
    var speed := EffectiveSpeed(w, s, edge);
    SpeedIsSlowest(w, s, edge);
    if next.position.Some? { StepIsShort(w, s.pose, next.position.value, edge, speed, dt); }
    forall v | Bounds(w, s, edge, v)
      ensures StepTowards(w, s, next, edge, dt).pose.lastStep <= Max(Stride(v, dt), 0.000001)
    {
      FasterIsFarther(speed, v, dt);
    }
  }

  lemma StepIsShort(w: World, p: Pose, to: Position, edge: Edge, speed: real, dt: Span)
    ensures var r := StepPose(w, p, to, edge, speed, dt);
            && r.pose.lastStep <= Max(Stride(speed, dt), 0.000001)
            && (!r.arrived && r.pose.lastStep != 0.0 ==> r.pose.lastStep == Stride(speed, dt))
  {
    hide MustTurn;
  }

  lemma FasterIsFarther(u: real, v: real, dt: Span)
    requires u <= v
    ensures Stride(u, dt) <= Stride(v, dt)
  {
    var more := v - u;
    assert 0.0 <= more * dt;
  }

  // ---- over runs ------------------------------------------------------------------------

  lemma DriveWithinBounds(w: World, s: Robot, leg: Leg, dt: Span)
    ensures var r := Drive(w, s, leg.from, leg.edge, leg.next, dt);
            forall v :: Bounds(w, s, leg.edge, v) ==>
              r.hist.trip.odometer - s.hist.trip.odometer <= Max(Stride(v, dt), 0.000001)
  {
    hide StepTowards, Bounds, Without, WithoutEdge, Holders, Stride;
    StepWithinBounds(w, s, leg.next, leg.edge, dt);
  }

  /** Whatever beat comes, on whatever run: what it adds to the odometer is no more than any speed the
      robot must not exceed, where it is, allows in that time. */
  lemma BeatWithinBounds(w: World, s: Robot, events: seq<Event>, dt: Span, now: real, draws: Draws)
    ensures var a := Run(w, s, events);
            var p, b := Prepared(w, a, dt, now), Step(w, a, Beat(dt, now, draws));
            var added := b.hist.trip.odometer - a.hist.trip.odometer;
            || added == 0.0
            || (HasLeg(p.task) && forall v :: Bounds(w, p, NextLeg(p.task).edge, v) ==>
                                    added <= Max(Stride(v, dt), 0.000001))
  {
    hide Run;
    TickWithinBounds(w, Run(w, s, events), dt, now, draws);
  }

  lemma TickWithinBounds(w: World, a: Robot, dt: Span, now: real, draws: Draws)
    ensures var p, b := Prepared(w, a, dt, now), Step(w, a, Beat(dt, now, draws));
            var added := b.hist.trip.odometer - a.hist.trip.odometer;
            || added == 0.0
            || (HasLeg(p.task) && forall v :: Bounds(w, p, NextLeg(p.task).edge, v) ==>
                                    added <= Max(Stride(v, dt), 0.000001))
  {
    hide Tick, MaybeInjectFault, Bounds, Drive, HasLeg, NextLeg, LeasesFresh, GatesOpen, Stride, Prepared,
      MaybeRequestBase, MustStop;
    var t := Tick(w, a, dt, now);
    FaultsKeepOdometer(w, t, dt, draws);
    if t.hist.trip.odometer != a.hist.trip.odometer {
      MovingTick(w, a, dt, now);
      var p := Prepared(w, a, dt, now);
      PreparedOdometer(w, a, dt, now);
      var leg := NextLeg(p.task);
      BaseRequestKeepsLeg(w, p);
      SamePlaceBounds(w, p, MaybeRequestBase(w, p), leg.edge);
      DriveWithinBounds(w, MaybeRequestBase(w, p), leg, dt);
    }
  }

  lemma PreparedOdometer(w: World, s: Robot, dt: Span, now: real)
    ensures Prepared(w, s, dt, now).hist.trip.odometer == s.hist.trip.odometer
  {
    hide Prepare;
    PrepareFrame(w, UpdateCharging(w, s, dt), dt, now);
  }

  lemma SamePlaceBounds(w: World, s: Robot, b: Robot, edge: Edge)
    requires b.site == s.site && b.pose == s.pose
    ensures forall v :: Bounds(w, b, edge, v) <==> Bounds(w, s, edge, v)
    ensures forall v :: Slowest(w, b, edge, v) <==> Slowest(w, s, edge, v)
  {
    forall v ensures Bounds(w, b, edge, v) <==> Bounds(w, s, edge, v) {}
  }

  /** What the robot's own speed allows in all beats of a run together. */
  function Allowance(w: World, events: seq<Event>): real {
    if events == [] then 0.0
    else
      (if events[0].Beat? then Max(Stride(w.cfg.speed, events[0].dt), 0.000001) else 0.0) + Allowance(w, events[1..])
  }

  /** On every run the robot covers no more than its own speed allows in all beats together. */
  lemma {:induction false} NeverFaster(w: World, s: Robot, events: seq<Event>)
    ensures Run(w, s, events).hist.trip.odometer - s.hist.trip.odometer <= Allowance(w, events)
    decreases |events|
  {
    hide Step, Stride;
    if events != [] {
      var e := events[0];
      if e.Beat? {
        TickWithinBounds(w, s, e.dt, e.now, e.draws);
      } else {
        MessagesStand(w, s, e);
      }
      NeverFaster(w, Step(w, s, e), events[1..]);
    }
  }
}
