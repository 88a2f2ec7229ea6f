/** What a robot is built with: its configuration, and the library functions the
    state machine calls (pi, hypot, atan2 and timestamp parsing) as parameters. */
module Platform {
  import opened Vda5050

  type Positive = r: real | 0.0 < r witness 1.0

  datatype Config = Config(
    supported: set<ActionKind>, version: (nat, nat), speed: real, angularSpeed: real, horizon: int,
    drainPerMeter: real, chargePerSecond: real, actionDuration: real)

  datatype World = World(
    cfg: Config, pi: Positive, hypot: (real, real) -> real, atan2: (real, real) -> real,
    parseTime: string -> Option<real>)

  ghost predicate HypotLaw(w: World) {
    forall dx, dy :: 0.0 <= w.hypot(dx, dy) && w.hypot(dx, dy) * w.hypot(dx, dy) == dx * dx + dy * dy
  }

  /** Whether (ex, ey) is `k` times (dx, dy). */
  predicate Multiple(k: real, dx: real, dy: real, ex: real, ey: real) {
    0.0 < k && ex == k * dx && ey == k * dy
  }

  /** A direction does not change when its vector is scaled. */
  ghost predicate Atan2Law(w: World) {
    forall k, dx, dy, ex, ey :: Multiple(k, dx, dy, ex, ey) ==> w.atan2(ey, ex) == w.atan2(dy, dx)
  }

  function Min(a: real, b: real): real { if b < a then b else a }

  function Max(a: real, b: real): real { if b > a then b else a }

  function Abs(a: real): real { if a < 0.0 then -a else a }

  /** `v` limited to the range from -limit to limit, as max(-limit, min(limit, v)). */
  function Clamp(v: real, limit: real): real { Max(-limit, Min(limit, v)) }
}
