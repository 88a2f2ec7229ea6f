/** One leg of the graph: pre-rotation settles exactly when its target heading stands still,
    and every tick of an unhindered robot brings it nearer to the next node. */
module Legs {
  import opened Vda5050
  import opened Platform
  import opened Heading
  import opened RobotState
  import opened Motion

  // ---- counting ticks ----------------------------------------------------------------------

  lemma OneTickLess(a: real, m: real)
    requires 0.0 < m
    ensures (a - m) / m == a / m - 1.0
  {
    var q := a / m;
    assert (q - 1.0) * m == a - m;
    Divided(q - 1.0, a - m, m);
  }

  lemma Divided(q: real, a: real, m: real)
    requires 0.0 < m && q * m == a
    ensures a / m == q
  {
  }

  lemma Quotient(a: real, m: real)
    requires 0.0 < m && 0.0 < a
    ensures 0.0 < a / m
  {
  }

  /** The number of ticks that cover `a` at `m` a tick: a / m rounded up, none if `a` is not positive. */
  function Ticks(a: real, m: real): nat
    requires 0.0 < m
    decreases if a <= 0.0 then 0 else (a / m).Floor + 2
  {
    if a <= 0.0 then 0
    else
      OneTickLess(a, m);
      Quotient(a, m);
      1 + Ticks(a - m, m)
  }

  lemma {:induction false} TicksMonotone(a: real, b: real, m: real)
    requires 0.0 < m && a <= b
    ensures Ticks(a, m) <= Ticks(b, m)
    decreases Ticks(b, m)
  {
    if 0.0 < a {
      TicksMonotone(a - m, b - m, m);
    }
  }

  /** A tick's worth less takes a tick less. */
  lemma TicksDrop(a: real, b: real, m: real)
    requires 0.0 < m && 0.0 < a && (b <= a - m || b <= 0.0)
    ensures Ticks(b, m) + 1 <= Ticks(a, m)
  {
    if b <= a - m { TicksMonotone(b, a - m, m); }
  }

  // ---- pre-rotation ---------------------------------------------------------------------

  /** How far the heading is from the one the edge asks for. */
  function TurnError(w: World, p: Pose, to: Position, edge: Edge): real {
    match DesiredTheta(edge, HeadingTo(w, p, to))
    case None => 0.0
    case Some(desired) => Abs(AngleDiff(w.pi, desired, p.theta))
  }

  /** Whether the heading the edge asks for stays the same while the robot turns on the spot: at
      the target a tangential orientation turns along with the robot. */
  predicate Anchored(w: World, p: Pose, to: Position, edge: Edge) {
    edge.orientationType == Some(Global) || DistanceTo(w, p, to) > 0.000000001
  }

  /** A turning tick does not move the robot; it takes a full tick's turn off the error, never
      overshooting, or, unanchored, leaves the error what it was. */
  lemma TurningTick(w: World, p: Pose, to: Position, edge: Edge, speed: real, dt: Span, limit: real)
    requires MustTurn(w, p, to, edge) && limit == w.cfg.angularSpeed * dt && 0.0 <= limit
    ensures var r := StepPose(w, p, to, edge, speed, dt);
            && !r.arrived && r.pose == p.(theta := r.pose.theta, lastStep := 0.0)
            && TurnError(w, r.pose, to, edge) ==
                 (if Anchored(w, p, to, edge) then Max(0.0, TurnError(w, p, to, edge) - limit)
                  else TurnError(w, p, to, edge))
            && (Anchored(w, r.pose, to, edge) <==> Anchored(w, p, to, edge))
  {
    hide AngleDiff, Clamp, StepPose;
    var r := StepPose(w, p, to, edge, speed, dt).pose;
    TurningPose(w, p, to, edge, speed, dt);
    RotationStep(w.pi, DesiredTheta(edge, HeadingTo(w, p, to)).value, p.theta, limit);
    if !Anchored(w, p, to, edge) {
      OwnOffset(w.pi, p.theta, edge.orientation.value);
      OwnOffset(w.pi, r.theta, edge.orientation.value);
    }
  }

  lemma TurningPose(w: World, p: Pose, to: Position, edge: Edge, speed: real, dt: Span)
    requires MustTurn(w, p, to, edge)
    ensures var r, limit := StepPose(w, p, to, edge, speed, dt), w.cfg.angularSpeed * dt;
            var desired := DesiredTheta(edge, HeadingTo(w, p, to)).value;
            && !r.arrived
            && r.pose == p.(theta := p.theta + Clamp(AngleDiff(w.pi, desired, p.theta), limit), lastStep := 0.0)
  {
  }

  lemma NotNegative(a: real, dt: Span)
    requires 0.0 <= a
    ensures 0.0 <= a * dt
    ensures 0.0 < a ==> 0.0 < a * dt
  {
  }

  lemma OwnOffset(pi: Positive, theta: real, o: real)
    ensures AngleDiff(pi, theta + o, theta) == AngleDiff(pi, o, 0.0)
  {
  }

  /** The pose after up to `n` turning ticks. */
  function Turned(w: World, p: Pose, to: Position, edge: Edge, dt: Span, n: nat): Pose
    decreases n
  {
    if n == 0 || !MustTurn(w, p, to, edge) then p
    else Turned(w, StepPose(w, p, to, edge, 0.0, dt).pose, to, edge, dt, n - 1)
  }

  /** Once pre-rotation is needed, it ends exactly if the target heading is anchored; then within
      error / (omega dt) ticks, rounded up, and always on the spot. */
  lemma {:induction false} PreRotationEndsIffAnchored(w: World, p: Pose, to: Position, edge: Edge, dt: Span, n: nat)
    requires MustTurn(w, p, to, edge) && 0.0 < w.cfg.angularSpeed * dt
    ensures var r := Turned(w, p, to, edge, dt, n);
            && r.x == p.x && r.y == p.y
            && (Anchored(w, p, to, edge) && Ticks(TurnError(w, p, to, edge), w.cfg.angularSpeed * dt) <= n ==>
                  !MustTurn(w, r, to, edge))
            && (!Anchored(w, p, to, edge) ==> MustTurn(w, r, to, edge))
    decreases n
  {
    hide StepPose, TurnError, Anchored, MustTurn;
    MustTurnMeansError(w, p, to, edge);
    if n > 0 {
      var limit := w.cfg.angularSpeed * dt;
      var q := StepPose(w, p, to, edge, 0.0, dt).pose;
      TurningTick(w, p, to, edge, 0.0, dt, limit);
      if Anchored(w, p, to, edge) { TicksDrop(TurnError(w, p, to, edge), TurnError(w, q, to, edge), limit); }
      MustTurnMeansError(w, q, to, edge);
      if MustTurn(w, q, to, edge) {
        PreRotationEndsIffAnchored(w, q, to, edge, dt, n - 1);
      } else {
        assert Turned(w, q, to, edge, dt, n - 1) == q;
      }
    }
  }

  /** For instance: told to move crabwise, and to turn first, at the very spot of the next node,
      the robot turns forever. */
  lemma CrabwiseOnTheSpotTurnsForever(w: World, p: Pose, to: Position, edge: Edge, dt: Span, n: nat)
    requires HypotLaw(w) && 0.0 < w.cfg.angularSpeed * dt
    requires to.x == p.x && to.y == p.y
    requires edge.orientation == Some(w.pi / 2.0) && edge.orientationType == Some(Tangential)
            && edge.reachOrientationFirst
    ensures MustTurn(w, Turned(w, p, to, edge, dt, n), to, edge)
  {
    hide HypotLaw, AngleDiff, StepPose;
    NoDistance(w);
    SameHypot(w, to.x - p.x, to.y - p.y, 0.0, 0.0);
    RevolutionsAdd(w.pi, 0, 0);
    AngleDiffUnique(w.pi, w.pi / 2.0, 0.0, w.pi / 2.0, 0);
    OwnOffset(w.pi, p.theta, w.pi / 2.0);
    PreRotationEndsIffAnchored(w, p, to, edge, dt, n);
  }

  lemma MustTurnMeansError(w: World, p: Pose, to: Position, edge: Edge)
    ensures MustTurn(w, p, to, edge)
       <==> (edge.orientation.Some? && edge.reachOrientationFirst
             && TurnError(w, p, to, edge) > OrientationTolerance(w.pi))
    ensures 0.0 <= TurnError(w, p, to, edge) && 0.0 < OrientationTolerance(w.pi)
    ensures TurnError(w, p, to, edge) <= w.pi
  {
    if edge.orientation.Some? {
      AngleDiffRange(w.pi, DesiredTheta(edge, HeadingTo(w, p, to)).value, p.theta);
    }
  }

  // ---- progress of a leg -----------------------------------------------------------------------

  /** The distance driven in one tick. */
  function Stride(speed: real, dt: Span): real { speed * dt }

  /** What is left of `d` after `j` steps of length `step`. */
  function After(d: real, step: real, j: nat): real { d - step * (j as real) }

  /** Whether the robot, `d` from the target, makes `j` steps before the one that arrives. */
  predicate Makes(d: real, step: real, j: nat) {
    j == 0 || After(d, step, j - 1) > Max(step, 0.000001)
  }

  /** Neither the start nor a step made on the way lies within a nanometre of the target: there the
      heading is not defined any more. */
  ghost predicate Lands(d: real, step: real) {
    forall j: nat :: Makes(d, step, j) ==> After(d, step, j) > 0.000000001
  }

  /** Whether the edge's orientation never has to be turned to anew once reached, wherever the robot is. */
  predicate Steady(w: World, edge: Edge) {
    edge.orientation.None? || edge.orientationType == Some(Global) || !edge.reachOrientationFirst
    || Abs(AngleDiff(w.pi, edge.orientation.value, 0.0)) <= OrientationTolerance(w.pi)
  }

  ghost predicate LegSettles(w: World, edge: Edge, d: real, step: real) {
    Steady(w, edge) || Lands(d, step)
  }

  /** How far the robot turns, and at least drives, in one tick. */
  datatype Pace = Pace(turn: Positive, drive: Positive)

  /** Ticks a leg may still take at this pace: to turn, to drive, and to arrive. */
  function LegTicks(w: World, p: Pose, to: Position, edge: Edge, pace: Pace): nat {
    (if MustTurn(w, p, to, edge) then Ticks(TurnError(w, p, to, edge), pace.turn) else 0)
    + Ticks(DistanceTo(w, p, to), pace.drive) + 1
  }

  lemma StepAfter(d: real, step: real, rest: real, j: nat)
    requires rest == d - step
    ensures After(rest, step, j) == After(d, step, j + 1)
  {
    assert step * ((j + 1) as real) == step * (j as real) + step;
  }

  lemma LandsOn(d: real, step: real)
    requires Lands(d, step) && Max(step, 0.000001) < d
    ensures Lands(d - step, step) && d - step > 0.000000001
  {
    var rest := d - step;
    assert After(d, step, 0) == d;
    StepAfter(d, step, rest, 0);
    assert After(rest, step, 0) == rest && Makes(d, step, 1);
    forall j: nat | Makes(rest, step, j) ensures After(rest, step, j) > 0.000000001 {
      StepAfter(d, step, rest, j);
      if j > 0 { StepAfter(d, step, rest, j - 1); }
      assert Makes(d, step, j + 1);
    }
  }

  /** Where a step fails to land, so it does after the first step. */
  lemma StillStrands(d: real, step: real)
    requires !Lands(d, step) && 0.0 < step && d > 0.000000001
    ensures Max(step, 0.000001) < d && !Lands(d - step, step)
  {
    assert After(d, step, 0) == d;
    var j: nat :| Makes(d, step, j) && After(d, step, j) <= 0.000000001;
    NoFurther(d, step, j - 1);
    var rest := d - step;
    StepAfter(d, step, rest, j - 1);
    if j > 1 { StepAfter(d, step, rest, j - 2); }
    assert Makes(rest, step, j - 1) && After(rest, step, j - 1) <= 0.000000001;
  }

  lemma NoFurther(d: real, step: real, j: nat)
    requires 0.0 < step
    ensures After(d, step, j) <= d
  {
    Product(step, j as real);
  }

  lemma Product(a: real, b: real)
    requires 0.0 <= a && 0.0 <= b
    ensures 0.0 <= a * b
  {
  }

  /** A leg that settles is anchored whenever pre-rotation is needed. */
  lemma SettlingIsAnchored(w: World, p: Pose, to: Position, edge: Edge, step: real)
    requires MustTurn(w, p, to, edge) && LegSettles(w, edge, DistanceTo(w, p, to), step)
    ensures Anchored(w, p, to, edge)
  {
    assert After(DistanceTo(w, p, to), step, 0) == DistanceTo(w, p, to);
    OwnOffset(w.pi, p.theta, edge.orientation.value);
  }

  /** After a driving step, no turning is needed. */
  lemma DrivenStraight(w: World, p: Pose, to: Position, edge: Edge, speed: real, dt: Span)
    requires HypotLaw(w) && Atan2Law(w) && 0.0 < speed
    requires LegSettles(w, edge, DistanceTo(w, p, to), Stride(speed, dt))
    requires !MustTurn(w, p, to, edge) && !StepPose(w, p, to, edge, speed, dt).arrived
    ensures !MustTurn(w, StepPose(w, p, to, edge, speed, dt).pose, to, edge)
  {
    hide HypotLaw, Atan2Law, AngleDiff, Lands, StepPose;
    var r, step, d := StepPose(w, p, to, edge, speed, dt).pose, Stride(speed, dt), DistanceTo(w, p, to);
    NotNegative(speed, dt);
    StepConserves(w, p, to, edge, speed, dt);
    DrivingPose(w, p, to, edge, speed, dt, step, d);
    if edge.orientation.Some? && edge.reachOrientationFirst {
      if Lands(d, step) { LandsOn(d, step); }
      OwnOffset(w.pi, r.theta, edge.orientation.value);
      AngleDiffZero(w.pi, r.theta);
      if d - step > 0.000000001 {
        var dx, dy := to.x - p.x, to.y - p.y;
        SameHeading(w, dx, dy, d, step);
        SameAtan2(w, to.y - r.y, to.x - r.x, dy - dy / d * step, dx - dx / d * step);
      }
    }
  }

  lemma DrivingPose(w: World, p: Pose, to: Position, edge: Edge, speed: real, dt: Span, step: real, d: real)
    requires step == speed * dt && d == DistanceTo(w, p, to)
    requires !MustTurn(w, p, to, edge) && !StepPose(w, p, to, edge, speed, dt).arrived
    ensures var r, heading := StepPose(w, p, to, edge, speed, dt).pose, HeadingTo(w, p, to);
            && d > step && d > 0.000001 && r.lastStep == step && heading == w.atan2(to.y - p.y, to.x - p.x)
            && r.x == p.x + (to.x - p.x) / d * step && r.y == p.y + (to.y - p.y) / d * step
            && r.theta == (match DesiredTheta(edge, heading) case Some(t) => t case None => heading)
  {
    hide MustTurn;
  }

  /** Going straight on does not change the direction. */
  lemma SameHeading(w: World, dx: real, dy: real, d: real, step: real)
    requires Atan2Law(w) && 0.0 < step < d
    ensures w.atan2(dy - dy / d * step, dx - dx / d * step) == w.atan2(dy, dx)
  {
    hide Atan2Law;
    var k := step / d;
    var j := 1.0 - k;
    ShareOf(step, d);
    Shortened(dx, d, step, k, j);
    Shortened(dy, d, step, k, j);
    Atan2Scales(w, j, dx, dy, dx - dx / d * step, dy - dy / d * step);
  }

  lemma Atan2Scales(w: World, k: real, dx: real, dy: real, ex: real, ey: real)
    requires Atan2Law(w) && Multiple(k, dx, dy, ex, ey)
    ensures w.atan2(ey, ex) == w.atan2(dy, dx)
  {
  }

  lemma SameAtan2(w: World, a: real, b: real, c: real, d: real)
    requires a == c && b == d
    ensures w.atan2(a, b) == w.atan2(c, d)
  {
  }

  /** One tick on a leg that settles either arrives, or leaves a leg that settles and takes a
      tick less. */
  lemma LegProgress(w: World, p: Pose, to: Position, edge: Edge, speed: real, dt: Span, pace: Pace)
    requires HypotLaw(w) && Atan2Law(w) && pace.turn == w.cfg.angularSpeed * dt && pace.drive <= Stride(speed, dt)
    requires LegSettles(w, edge, DistanceTo(w, p, to), Stride(speed, dt))
    ensures var r := StepPose(w, p, to, edge, speed, dt);
            && 0.0 <= r.pose.lastStep
            && (!r.arrived ==>
                  && LegTicks(w, r.pose, to, edge, pace) < LegTicks(w, p, to, edge, pace)
                  && LegSettles(w, edge, DistanceTo(w, r.pose, to), Stride(speed, dt)))
  {
    hide HypotLaw, Atan2Law, StepPose, TurnError, MustTurn, DistanceTo, LegSettles, LegTicks;
    var r := StepPose(w, p, to, edge, speed, dt);
    SpeedSign(speed, dt);
    StepConserves(w, p, to, edge, speed, dt);
    if MustTurn(w, p, to, edge) {
      TurningProgress(w, p, to, edge, speed, dt, pace);
    } else if !r.arrived {
      DrivingProgress(w, p, to, edge, speed, dt, pace);
    }
  }

  lemma TurningProgress(w: World, p: Pose, to: Position, edge: Edge, speed: real, dt: Span, pace: Pace)
    requires pace.turn == w.cfg.angularSpeed * dt && MustTurn(w, p, to, edge)
    requires LegSettles(w, edge, DistanceTo(w, p, to), Stride(speed, dt))
    ensures var r := StepPose(w, p, to, edge, speed, dt).pose;
            && LegTicks(w, r, to, edge, pace) < LegTicks(w, p, to, edge, pace)
            && LegSettles(w, edge, DistanceTo(w, r, to), Stride(speed, dt))
  {
    hide StepPose, TurnError, MustTurn, DistanceTo, LegSettles, Anchored;
    var r := StepPose(w, p, to, edge, speed, dt).pose;
    MustTurnMeansError(w, p, to, edge);
    SettlingIsAnchored(w, p, to, edge, Stride(speed, dt));
    TurningTick(w, p, to, edge, speed, dt, pace.turn);
    TicksDrop(TurnError(w, p, to, edge), TurnError(w, r, to, edge), pace.turn);
    SameDistance(w, p, r, to);
  }

  lemma DrivingProgress(w: World, p: Pose, to: Position, edge: Edge, speed: real, dt: Span, pace: Pace)
    requires HypotLaw(w) && Atan2Law(w) && pace.drive <= Stride(speed, dt)
    requires !MustTurn(w, p, to, edge) && !StepPose(w, p, to, edge, speed, dt).arrived
    requires LegSettles(w, edge, DistanceTo(w, p, to), Stride(speed, dt))
    ensures var r := StepPose(w, p, to, edge, speed, dt).pose;
            && LegTicks(w, r, to, edge, pace) < LegTicks(w, p, to, edge, pace)
            && LegSettles(w, edge, DistanceTo(w, r, to), Stride(speed, dt))
  {
    hide HypotLaw, Atan2Law, StepPose, TurnError, MustTurn, DistanceTo, Lands, Steady;
    var r, d, step := StepPose(w, p, to, edge, speed, dt).pose, DistanceTo(w, p, to), Stride(speed, dt);
    SpeedSign(speed, dt);
    StepConserves(w, p, to, edge, speed, dt);
    DrivenStraight(w, p, to, edge, speed, dt);
    DrivingPose(w, p, to, edge, speed, dt, step, d);
    TicksDrop(d, d - step, pace.drive);
    if Lands(d, step) { LandsOn(d, step); }
  }

  /** Up to `n` ticks on a leg, at constant speed: where the robot is, and whether it has arrived. */
  function Travel(w: World, p: Pose, to: Position, edge: Edge, speed: real, dt: Span, n: nat): Stepped
    decreases n
  {
    if n == 0 then Stepped(p, false)
    else
      var r := StepPose(w, p, to, edge, speed, dt);
      if r.arrived then r else Travel(w, r.pose, to, edge, speed, dt, n - 1)
  }

  lemma {:induction false} SettledLegArrives(
    w: World, p: Pose, to: Position, edge: Edge, speed: real, dt: Span, pace: Pace, n: nat)
    requires HypotLaw(w) && Atan2Law(w) && pace.turn == w.cfg.angularSpeed * dt && pace.drive <= Stride(speed, dt)
    requires LegSettles(w, edge, DistanceTo(w, p, to), Stride(speed, dt)) && LegTicks(w, p, to, edge, pace) <= n
    ensures Travel(w, p, to, edge, speed, dt, n).arrived
    decreases n
  {
    hide HypotLaw, Atan2Law, StepPose, LegSettles, DistanceTo, MustTurn, TurnError, Ticks;
    LegProgress(w, p, to, edge, speed, dt, pace);
    var r := StepPose(w, p, to, edge, speed, dt);
    if !r.arrived { SettledLegArrives(w, r.pose, to, edge, speed, dt, pace, n - 1); }
  }

  lemma {:induction false} UnsettledLegNeverArrives(
    w: World, p: Pose, to: Position, edge: Edge, speed: real, dt: Span, n: nat)
    requires HypotLaw(w) && 0.0 < w.cfg.angularSpeed * dt && 0.0 < Stride(speed, dt)
    requires !LegSettles(w, edge, DistanceTo(w, p, to), Stride(speed, dt))
    ensures !Travel(w, p, to, edge, speed, dt, n).arrived
    decreases n
  {
    hide HypotLaw, StepPose, DistanceTo, MustTurn, LegSettles;
    if n > 0 {
      StaysUnsettled(w, p, to, edge, speed, dt);
      UnsettledLegNeverArrives(w, StepPose(w, p, to, edge, speed, dt).pose, to, edge, speed, dt, n - 1);
    }
  }

  lemma StaysUnsettled(w: World, p: Pose, to: Position, edge: Edge, speed: real, dt: Span)
    requires HypotLaw(w) && 0.0 < w.cfg.angularSpeed * dt && 0.0 < Stride(speed, dt)
    requires !LegSettles(w, edge, DistanceTo(w, p, to), Stride(speed, dt))
    ensures var r := StepPose(w, p, to, edge, speed, dt);
            !r.arrived && !LegSettles(w, edge, DistanceTo(w, r.pose, to), Stride(speed, dt))
  {
    hide HypotLaw, StepPose, Lands, DistanceTo, TurnError, Steady, MustTurn;
    var d, step := DistanceTo(w, p, to), Stride(speed, dt);
    if MustTurn(w, p, to, edge) {
      TurningTick(w, p, to, edge, speed, dt, w.cfg.angularSpeed * dt);
      SameDistance(w, p, StepPose(w, p, to, edge, speed, dt).pose, to);
    } else {
      UnsettledMustTurn(w, p, to, edge);
      StillStrands(d, step);
      FarIsNotArrived(w, p, to, edge, speed, dt);
      StepConserves(w, p, to, edge, speed, dt);
      DrivingPose(w, p, to, edge, speed, dt, step, d);
    }
  }

  /** At the spot of the node, an orientation that is not steady asks for a turn. */
  lemma UnsettledMustTurn(w: World, p: Pose, to: Position, edge: Edge)
    requires !Steady(w, edge) && !MustTurn(w, p, to, edge)
    ensures DistanceTo(w, p, to) > 0.000000001
  {
    hide AngleDiff;
    OwnOffset(w.pi, p.theta, edge.orientation.value);
  }

  lemma FarIsNotArrived(w: World, p: Pose, to: Position, edge: Edge, speed: real, dt: Span)
    requires Max(Stride(speed, dt), 0.000001) < DistanceTo(w, p, to)
    ensures !StepPose(w, p, to, edge, speed, dt).arrived
  {
    hide MustTurn;
  }

  /** At constant speed, a leg is ever completed if and only if it settles: its orientation is steady,
      or none of its steps ends within a nanometre of the node. */
  lemma LegArrivesIffSettles(w: World, p: Pose, to: Position, edge: Edge, speed: real, dt: Span)
    requires HypotLaw(w) && Atan2Law(w) && 0.0 < w.cfg.angularSpeed * dt && 0.0 < Stride(speed, dt)
    ensures (exists n: nat :: Travel(w, p, to, edge, speed, dt, n).arrived)
       <==> LegSettles(w, edge, DistanceTo(w, p, to), Stride(speed, dt))
  {
    hide HypotLaw, Atan2Law, Travel, LegSettles, DistanceTo;
    if LegSettles(w, edge, DistanceTo(w, p, to), Stride(speed, dt)) {
      var pace := Pace(w.cfg.angularSpeed * dt, Stride(speed, dt));
      SettledLegArrives(w, p, to, edge, speed, dt, pace, LegTicks(w, p, to, edge, pace));
    } else {
      forall n: nat ensures !Travel(w, p, to, edge, speed, dt, n).arrived {
        UnsettledLegNeverArrives(w, p, to, edge, speed, dt, n);
      }
    }
  }

  lemma Faster(least: Positive, speed: real, dt: Span)
    requires least <= speed
    ensures 0.0 < least * dt <= speed * dt
  {
    var more := speed - least;
    assert 0.0 <= more * dt;
    assert speed * dt == least * dt + more * dt;
    assert 0.0 < least * dt;
  }

  lemma SameDistance(w: World, p: Pose, r: Pose, to: Position)
    requires r.x == p.x && r.y == p.y
    ensures DistanceTo(w, r, to) == DistanceTo(w, p, to)
  {
  }
}
