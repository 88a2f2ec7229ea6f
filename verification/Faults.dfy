/** Injected faults over whole runs: each episode lasts its configured time on the fault clock
    and ends at the first beat thereafter, whatever messages come in between. */
module Faults {
  import opened Vda5050
  import opened Platform
  import opened RobotState
  import opened Transitions

  /** One fault: whether it stands, until when, and how long its episodes are. */
  datatype Timer = Timer(on: bool, until: real, duration: real)

  function FieldTimer(f: RobotState.Faults): Timer { Timer(f.fieldViolation, f.fieldUntil, FIELD_VIOLATION_DURATION) }

  function ServiceTimer(f: RobotState.Faults): Timer {
    Timer(!f.operating.Automatic?, f.modeUntil, SERVICE_MODE_DURATION)
  }

  function StopTimer(f: RobotState.Faults): Timer { Timer(!f.stop.NoStop?, f.stopUntil, EMERGENCY_STOP_DURATION) }

  /** A standing episode began no later than now and is not over yet. */
  predicate Current(t: Timer, clock: real) {
    t.on ==> t.until - t.duration <= clock < t.until
  }

  predicate EpisodesCurrent(s: Robot) {
    var f := s.faults;
    Current(FieldTimer(f), f.clock) && Current(ServiceTimer(f), f.clock) && Current(StopTimer(f), f.clock)
  }

  /** From `t` at `clock` to `u` at `later`: an episode stands until it is over, and the next one
      begins no earlier. */
  predicate Succeeds(t: Timer, u: Timer, later: real) {
    t.on ==>
      if later < t.until then u.on && u.until == t.until
      else u.on ==> u.until - u.duration >= t.until
  }

  predicate EpisodesSucceed(a: Robot, b: Robot) {
    var f, g := a.faults, b.faults;
    && g.clock >= f.clock
    && Succeeds(FieldTimer(f), FieldTimer(g), g.clock)
    && Succeeds(ServiceTimer(f), ServiceTimer(g), g.clock)
    && Succeeds(StopTimer(f), StopTimer(g), g.clock)
  }

  /** One fault round: the clock advances; what strikes gets its full time; and what ends had it,
      but for less than one round more. */
  predicate Rounds(t: Timer, u: Timer, clock: real, dt: Span) {
    && (t.on && !u.on ==> t.until <= clock + dt < t.until + dt)
    && (t.on && u.on ==> u == t && clock + dt < t.until)
    && (!t.on && u.on ==> u.until == clock + dt + u.duration)
  }

  /** An episode that a fault round ends has lasted at least its duration, and less than one
      round longer. */
  lemma EpisodeLength(s: Robot, dt: Span, draws: Draws)
    requires EpisodesCurrent(s)
    ensures var f, g := s.faults, RunFaultTimers(s, dt, draws).faults;
            && g.clock == f.clock + dt
            && Rounds(FieldTimer(f), FieldTimer(g), f.clock, dt)
            && Rounds(ServiceTimer(f), ServiceTimer(g), f.clock, dt)
            && Rounds(StopTimer(f), StopTimer(g), f.clock, dt)
  {
  }

  lemma EpisodesKept(w: World, a: Robot, b: Robot, op: Op)
    requires EpisodesCurrent(b) && EpisodesSucceed(a, b) && Enabled(w, b, op)
    ensures EpisodesCurrent(Apply(w, b, op)) && EpisodesSucceed(a, Apply(w, b, op))
  {
    hide ActionEnabled, ApplyAction, OrderEnabled, ApplyOrder, MoveEnabled, ApplyMove, TrafficEnabled, ApplyTraffic;
    match op
    case OnAction(x) => ActionFrame(w, b, x);
    case OnOrder(o) => OrderFrame(b, o);
    case OnMove(m) => MoveFrame(w, b, m);
    case OnTraffic(t) => TrafficFrame(w, b, t);
    case OnUnit(u) => UnitFaults(w, a, b, u);
  }

  lemma UnitFaults(w: World, a: Robot, b: Robot, op: UnitOp)
    requires EpisodesCurrent(b) && EpisodesSucceed(a, b) && UnitEnabled(b, op)
    ensures EpisodesCurrent(ApplyUnit(w, b, op)) && EpisodesSucceed(a, ApplyUnit(w, b, op))
  {
    hide PresentZones, Current, Succeeds, Rounds, FieldTimer, ServiceTimer, StopTimer, UpdateField,
      UpdateOperatingMode, UpdateStop;
    if op.RunningFaults? {
      EpisodeLength(b, op.dt, op.draws);
      var e, f, g := a.faults, b.faults, ApplyUnit(w, b, op).faults;
      assert g == RunFaultTimers(b, op.dt, op.draws).faults;
      TimerDurations(e, f, g);
      TimerRuns(FieldTimer(e), FieldTimer(f), FieldTimer(g), f.clock, op.dt);
      TimerRuns(ServiceTimer(e), ServiceTimer(f), ServiceTimer(g), f.clock, op.dt);
      TimerRuns(StopTimer(e), StopTimer(f), StopTimer(g), f.clock, op.dt);
    }
  }

  lemma TimerDurations(e: RobotState.Faults, f: RobotState.Faults, g: RobotState.Faults)
    ensures FieldTimer(e).duration == FieldTimer(f).duration == FieldTimer(g).duration > 0.0
    ensures ServiceTimer(e).duration == ServiceTimer(f).duration == ServiceTimer(g).duration > 0.0
    ensures StopTimer(e).duration == StopTimer(f).duration == StopTimer(g).duration > 0.0
  {
  }

  lemma TimerRuns(a: Timer, t: Timer, u: Timer, clock: real, dt: Span)
    requires Current(t, clock) && Succeeds(a, t, clock) && Rounds(t, u, clock, dt)
    requires a.duration == t.duration == u.duration > 0.0
    ensures Current(u, clock + dt) && Succeeds(a, u, clock + dt)
  {
  }

  /** On every run: a standing episode is never over its time, lasts until its time is up, and is
      then over before the next begins. */
  lemma EpisodesBounded(w: World, s: Robot, events: seq<Event>)
    requires EpisodesCurrent(s)
    ensures EpisodesCurrent(Run(w, s, events)) && EpisodesSucceed(s, Run(w, s, events))
  {
    var inv := (r: Robot) => EpisodesCurrent(r) && EpisodesSucceed(s, r);
    forall r: Robot, op: Op ensures Keeps(w, inv)(r, op) {
      if inv(r) && Enabled(w, r, op) { EpisodesKept(w, s, r, op); }
    }
    RunInduction(w, inv, s, events);
  }

  // ---- what strikes --------------------------------------------------------------------------

  /** What a fault round brings upon a robot without the fault: each draw strikes exactly its own, for one
      second a field violation, for two the SERVICE mode, for one and a half the stop that was drawn. */
  lemma DrawsStrike(s: Robot, dt: Span, draws: Draws)
    ensures var f, g := s.faults, RunFaultTimers(s, dt, draws).faults;
            && (!f.fieldViolation ==>
                  && (g.fieldViolation <==> draws.field)
                  && (draws.field ==> g.fieldUntil == f.clock + dt + 1.0))
            && (f.operating == Automatic ==>
                  && g.operating == (if draws.service then Service else Automatic)
                  && (draws.service ==> g.modeUntil == f.clock + dt + 2.0))
            && (f.stop == NoStop ==>
                  g.stop == draws.stop && (draws.stop != NoStop ==> g.stopUntil == f.clock + dt + 1.5))
            && (f.stop != NoStop && g.stop != NoStop ==> g.stop == f.stop)
            && (f.operating != Automatic && g.operating != Automatic ==> g.operating == f.operating)
  {
  }

  /** A running entry whose action may be retried. */
  predicate Breakable(b: Book, e: Entry) {
    e.status == Running && e.id in b.registry && b.registry[e.id].retriable
  }

  /** The first such entry: among those of the order, else the instant ones, else those of the zones. */
  predicate FirstBreakable(b: Book, p: Spot) {
    && Valid(b, p) && Breakable(b, At(b, p))
    && (forall k: nat :: k < p.index ==> !Breakable(b, Entries(b, p.track)[k]))
    && (!p.track.OrderTrack? ==> forall e :: e in b.order ==> !Breakable(b, e))
    && (p.track.ZoneTrack? ==> forall e :: e in b.instant ==> !Breakable(b, e))
  }

  predicate NoneBreakable(b: Book) {
    && (forall e :: e in b.order ==> !Breakable(b, e)) && (forall e :: e in b.instant ==> !Breakable(b, e))
    && (forall e :: e in b.zone ==> !Breakable(b, e))
  }

  lemma RetriableIsFirst(b: Book)
    ensures match FirstRetriable(b)
            case Some(p) => FirstBreakable(b, p)
            case None => NoneBreakable(b)
  {
    var p := (e: Entry) => RunsAs(b, e, (a: Action) => a.retriable);
    assert forall e :: p(e) <==> Breakable(b, e);
    var i, j, k := FirstIndex(b.order, p), FirstIndex(b.instant, p), FirstIndex(b.zone, p);
  }

  /** A drawn failure strikes the first running entry that may be retried: it becomes RETRIABLE, or, before
      protocol version 3, FAILED. Without one a hardware fault is reported. Without the draw none of both. */
  lemma FailureOutcome(w: World, s: Robot, dt: Span, draws: Draws)
    ensures var r, status := MaybeInjectFault(w, s, dt, draws), if w.cfg.version.0 >= 3 then Retriable else Failed;
            && (!draws.failure || !NoneBreakable(s.book) ==> r.errors == s.errors)
            && (draws.failure && NoneBreakable(s.book) ==> r.errors == s.errors + multiset{HardwareFault})
            && (!draws.failure || NoneBreakable(s.book) ==> r.book == s.book)
            && (draws.failure && !NoneBreakable(s.book) ==>
                  exists p :: FirstBreakable(s.book, p) && r.book == SetStatus(s.book, p, status))
  {
    hide UpdateField, UpdateOperatingMode, UpdateStop, FirstRetriable, SetStatus, FirstBreakable;
    RetriableIsFirst(s.book);
    FirstIsBreakable(s.book);
  }

  lemma FirstIsBreakable(b: Book)
    ensures forall p :: FirstBreakable(b, p) ==> Valid(b, p) && !NoneBreakable(b)
  {
  }
}
