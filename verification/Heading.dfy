/** Angle arithmetic: the signed shortest turn, pre-rotation towards a fixed heading,
    and the direction rule of DIRECTED and BIDIRECTED zones. */
module Heading {
  import opened Vda5050
  import opened Platform

  /** The angle of `k` whole turns. */
  function Revolutions(pi: Positive, k: int): real {
    var full := 2.0 * pi;
    full * (k as real)
  }

  /** The whole turns between two headings. */
  function Turns(pi: Positive, target: real, current: real): int {
    var a, full := target - current + pi, 2.0 * pi;
    (a / full).Floor
  }

  /** (target - current + pi) mod 2 pi, minus pi, with a remainder of the divisor's sign. */
  function AngleDiff(pi: Positive, target: real, current: real): real {
    target - current + pi - Revolutions(pi, Turns(pi, target, current)) - pi
  }

  lemma RevolutionsAdd(pi: Positive, j: int, k: int)
    ensures Revolutions(pi, j + k) == Revolutions(pi, j) + Revolutions(pi, k)
    ensures Revolutions(pi, j - k) == Revolutions(pi, j) - Revolutions(pi, k)
    ensures Revolutions(pi, 1) == 2.0 * pi
    ensures 1 <= k ==> 2.0 * pi <= Revolutions(pi, k)
    ensures k <= -1 ==> Revolutions(pi, k) <= -2.0 * pi
  {
    var full, rj, rk := 2.0 * pi, j as real, k as real;
    assert (j + k) as real == rj + rk && (j - k) as real == rj - rk;
    assert full * (rj + rk) == full * rj + full * rk;
    assert full * (rj - rk) == full * rj - full * rk;
    if 1 <= k {
      assert full * (rk - 1.0) >= 0.0;
    } else if k <= -1 {
      assert full * (-1.0 - rk) >= 0.0;
    }
  }

  lemma FractionOf(p: real, e: real)
    requires 0.0 < p && 0.0 <= e < 1.0
    ensures 0.0 <= p * e < p
  {
    assert 0.0 < p * (1.0 - e);
  }

  lemma RemainderOf(a: real, p: real, q: real, f: real)
    requires 0.0 < p && p * q == a && f <= q < f + 1.0
    ensures 0.0 <= a - p * f < p
  {
    var e := q - f;
    FractionOf(p, e);
    calc {
      a - p * f;
      p * q - p * f;
      p * e;
    }
  }

  /** The result is congruent to target - current and lies in [-pi, pi). */
  lemma AngleDiffRange(pi: Positive, target: real, current: real)
    ensures var d := AngleDiff(pi, target, current);
            0.0 <= d + pi < 2.0 * pi && d == target - current - Revolutions(pi, Turns(pi, target, current))
  {
    var a, p := target - current + pi, 2.0 * pi;
    RemainderOf(a, p, a / p, (a / p).Floor as real);
  }

  /** It is the only such number. */
  lemma AngleDiffUnique(pi: Positive, target: real, current: real, d: real, k: int)
    requires 0.0 <= d + pi < 2.0 * pi && d == target - current - Revolutions(pi, k)
    ensures AngleDiff(pi, target, current) == d
  {
    AngleDiffRange(pi, target, current);
    var t := Turns(pi, target, current);
    RevolutionsAdd(pi, k, t);
    RevolutionsAdd(pi, 0, k - t);
  }

  /** Whole turns on either side change nothing. */
  lemma AngleDiffPeriodic(pi: Positive, target: real, current: real, m: int, n: int)
    ensures AngleDiff(pi, target + Revolutions(pi, m), current + Revolutions(pi, n)) == AngleDiff(pi, target, current)
  {
    AngleDiffRange(pi, target, current);
    var t := Turns(pi, target, current);
    RevolutionsAdd(pi, t, m);
    RevolutionsAdd(pi, t + m, n);
    AngleDiffUnique(pi, target + Revolutions(pi, m), current + Revolutions(pi, n), AngleDiff(pi, target, current),
      t + m - n);
  }

  lemma AngleDiffZero(pi: Positive, a: real)
    ensures AngleDiff(pi, a, a) == 0.0
  {
    RevolutionsAdd(pi, 0, 0);
    AngleDiffUnique(pi, a, a, 0.0, 0);
  }

  /** Whether the headings are no more than `tolerance` apart, but for whole turns. */
  ghost predicate Within(pi: Positive, a: real, b: real, tolerance: real) {
    exists k: int :: Abs(a - b - Revolutions(pi, k)) <= tolerance
  }

  /** The signed difference is the least of all but for whole turns. */
  lemma DifferenceIsLeast(pi: Positive, a: real, b: real, tolerance: real)
    requires 0.0 <= tolerance < pi
    ensures Within(pi, a, b, tolerance) <==> Abs(AngleDiff(pi, a, b)) <= tolerance
  {
    AngleDiffRange(pi, a, b);
    if Within(pi, a, b, tolerance) {
      var k: int :| Abs(a - b - Revolutions(pi, k)) <= tolerance;
      AngleDiffUnique(pi, a, b, a - b - Revolutions(pi, k), k);
    }
  }

  // ---- pre-rotation ----------------------------------------------------------

  /** One pre-rotation step of at most `limit` towards a fixed heading never overshoots:
      the error keeps its sign and shrinks by `limit`, or vanishes. */
  lemma RotationStep(pi: Positive, desired: real, theta: real, limit: real)
    requires 0.0 <= limit
    ensures var delta := AngleDiff(pi, desired, theta);
            var rest := AngleDiff(pi, desired, theta + Clamp(delta, limit));
            rest == delta - Clamp(delta, limit)
            && Abs(rest) == Max(0.0, Abs(delta) - limit)
            && (rest == 0.0 || (0.0 < rest <==> 0.0 < delta))
  {
    AngleDiffRange(pi, desired, theta);
    var delta := AngleDiff(pi, desired, theta);
    AngleDiffUnique(pi, desired, theta + Clamp(delta, limit), delta - Clamp(delta, limit), Turns(pi, desired, theta));
  }

  // ---- direction of zones ------------------------------------------------------

  /** Whether entering a zone of type `kind` at `heading` breaks its direction. */
  predicate DirectionViolated(pi: Positive, kind: ZoneType, direction: real, heading: real) {
    var diff := Abs(AngleDiff(pi, direction, heading));
    (if kind.Bidirected? then Min(diff, Abs(AngleDiff(pi, direction + pi, heading))) else diff) > pi / 4.0
  }

  /** A zone refuses exactly the headings not within 45 degrees of its direction, or, if BIDIRECTED, of
      the opposite one either. */
  lemma ViolatedIffAside(pi: Positive, kind: ZoneType, direction: real, heading: real)
    ensures DirectionViolated(pi, kind, direction, heading)
       <==> !Within(pi, direction, heading, pi / 4.0)
            && (kind.Bidirected? ==> !Within(pi, direction + pi, heading, pi / 4.0))
  {
    hide AngleDiff, Within;
    DifferenceIsLeast(pi, direction, heading, pi / 4.0);
    DifferenceIsLeast(pi, direction + pi, heading, pi / 4.0);
  }

  /** A heading is along itself, also a whole turn on, and not along its opposite. */
  lemma AlongAndBack(pi: Positive, heading: real)
    ensures Within(pi, heading, heading, pi / 4.0) && Within(pi, heading + pi + pi, heading, pi / 4.0)
    ensures !Within(pi, heading + pi, heading, pi / 4.0)
  {
    AngleDiffZero(pi, heading);
    DifferenceIsLeast(pi, heading, heading, pi / 4.0);
    RevolutionsAdd(pi, 0, 0);
    AngleDiffUnique(pi, heading + pi + pi, heading, 0.0, 1);
    DifferenceIsLeast(pi, heading + pi + pi, heading, pi / 4.0);
    AngleDiffUnique(pi, heading + pi, heading, 0.0 - pi, 1);
    DifferenceIsLeast(pi, heading + pi, heading, pi / 4.0);
  }

  /** Turning the zone's direction around leaves the supplementary angle. */
  lemma OppositeDirection(pi: Positive, direction: real, heading: real)
    ensures Abs(AngleDiff(pi, direction + pi, heading)) == pi - Abs(AngleDiff(pi, direction, heading))
    ensures AngleDiff(pi, direction, heading + pi) == AngleDiff(pi, direction + pi, heading)
  {
    AngleDiffRange(pi, direction, heading);
    var d, t := AngleDiff(pi, direction, heading), Turns(pi, direction, heading);
    RevolutionsAdd(pi, t, 1);
    if d < 0.0 {
      AngleDiffUnique(pi, direction + pi, heading, d + pi, t);
      AngleDiffUnique(pi, direction, heading + pi, d + pi, t - 1);
    } else {
      AngleDiffUnique(pi, direction + pi, heading, d - pi, t + 1);
      AngleDiffUnique(pi, direction, heading + pi, d - pi, t);
    }
  }

  /** A BIDIRECTED zone refuses exactly the headings more than 45 degrees off its axis,
      and so the same headings whichever way it is read. */
  lemma BidirectedIsAnAxis(pi: Positive, direction: real, heading: real, turns: int)
    ensures DirectionViolated(pi, Bidirected, direction, heading)
       <==> pi / 4.0 < Abs(AngleDiff(pi, direction, heading)) < 3.0 * pi / 4.0
    ensures DirectionViolated(pi, Bidirected, direction, heading + pi)
       <==> DirectionViolated(pi, Bidirected, direction, heading)
    ensures DirectionViolated(pi, Bidirected, direction + pi, heading)
       <==> DirectionViolated(pi, Bidirected, direction, heading)
    ensures DirectionViolated(pi, Bidirected, direction, heading + Revolutions(pi, turns))
       <==> DirectionViolated(pi, Bidirected, direction, heading)
  {
    OppositeDirection(pi, direction, heading);
    OppositeDirection(pi, direction, heading + pi);
    OppositeDirection(pi, direction + pi, heading);
    var h := heading + Revolutions(pi, turns);
    OppositeDirection(pi, direction, h);
    AngleDiffPeriodic(pi, direction, heading, 0, turns);
    RevolutionsAdd(pi, 0, 0);
  }

  /** What a BIDIRECTED zone refuses, a DIRECTED zone of the same direction refuses too. */
  lemma BidirectedRefusesLess(pi: Positive, direction: real, heading: real)
    requires DirectionViolated(pi, Bidirected, direction, heading)
    ensures DirectionViolated(pi, Directed, direction, heading)
    ensures DirectionViolated(pi, Directed, direction, heading + pi)
  {
    OppositeDirection(pi, direction, heading);
  }
}
