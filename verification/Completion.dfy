/** Completion of timed actions: each takes effect exactly once, and exactly when its duration is up. */
module Completion {
  import opened Vda5050
  import opened Platform
  import opened RobotState
  import opened Transitions
  import opened Lifecycle
  import opened Effects
  import opened OrderClock
  import opened Timers
  import TrafficControl
  import TickFrames

  /** Every live entry under the id waits, runs or is paused. */
  ghost predicate OnTheWay(b: Book, id: string) {
    forall p: Spot :: Valid(b, p) && At(b, p).id == id && !At(b, p).status.Terminal() ==>
      At(b, p).status.Waiting? || At(b, p).status.Running? || At(b, p).status.Paused?
  }

  lemma OnTheWayKept(w: World, s: Robot, op: Op, id: string)
    requires Enabled(w, s, op) && OnTheWay(s.book, id) && id !in BrokenIds(s, op)
    ensures OnTheWay(Apply(w, s, op).book, id)
  {
    hide Apply, ActionEnabled, OrderEnabled, MoveEnabled, TrafficEnabled, UnitEnabled;
    var r := Apply(w, s, op).book;
    forall p: Spot | Valid(r, p) && At(r, p).id == id && !At(r, p).status.Terminal()
      ensures At(r, p).status.Waiting? || At(r, p).status.Running? || At(r, p).status.Paused?
    {
      var q := EntryOrigin(w, s, op, p);
    }
  }

  /** Relative to `a`: for as long as nothing under the id breaks. */
  ghost predicate StaysOnTheWay(a: Robot, b: Robot, id: string) {
    && b.hist.actions.broken[id] >= a.hist.actions.broken[id]
    && (b.hist.actions.broken[id] == a.hist.actions.broken[id] ==> OnTheWay(b.book, id))
  }

  lemma StaysOnTheWayIsKept(w: World, a: Robot, id: string)
    ensures Kept(w, (r: Robot) => StaysOnTheWay(a, r, id))
  {
    hide OnTheWay, Apply, Enabled, BrokenIds;
    var inv := (r: Robot) => StaysOnTheWay(a, r, id);
    forall r: Robot, op: Op ensures Keeps(w, inv)(r, op) {
      if inv(r) && Enabled(w, r, op) {
        CountersAfter(w, r, op);
        if id !in BrokenIds(r, op) && OnTheWay(r.book, id) { OnTheWayKept(w, r, op, id); }
      }
    }
  }

  lemma PausingIsKept(w: World)
    ensures Kept(w, (r: Robot) => PauseDiscipline(r))
  {
    hide PauseDiscipline;
    var inv := (r: Robot) => PauseDiscipline(r);
    forall r: Robot, op: Op ensures Keeps(w, inv)(r, op) {
      if inv(r) && Enabled(w, r, op) { PauseDisciplineKept(w, r, op); }
    }
  }

  lemma {:induction false} NoneLiveCount(es: seq<Entry>, id: string)
    requires forall i: nat :: i < |es| && es[i].id == id ==> es[i].status.Terminal()
    ensures LiveCount(es, id) == 0
  {
    if es != [] {
      assert forall i: nat :: i < |es| - 1 ==> es[1..][i] == es[i + 1];
      NoneLiveCount(es[1..], id);
    }
  }

  lemma NonePending(b: Book, id: string)
    requires forall p: Spot :: Valid(b, p) && At(b, p).id == id ==> At(b, p).status.Terminal()
    ensures Pending(b, id) == 0
  {
    forall t: Track ensures LiveCount(Entries(b, t), id) == 0 {
      forall i: nat | i < |Entries(b, t)| && Entries(b, t)[i].id == id ensures Entries(b, t)[i].status.Terminal() {
        assert Valid(b, Spot(t, i)) && At(b, Spot(t, i)) == Entries(b, t)[i];
      }
      NoneLiveCount(Entries(b, t), id);
    }
    assert Entries(b, OrderTrack) == b.order;
    assert Entries(b, InstantTrack) == b.instant && Entries(b, ZoneTrack) == b.zone;
  }

  lemma AllEnded(s: Robot, id: string)
    requires PauseDiscipline(s) && !s.mode.paused && OnTheWay(s.book, id) && NoneRuns(s.book, id)
    ensures Pending(s.book, id) == 0
  {
    forall p: Spot | Valid(s.book, p) && At(s.book, p).id == id ensures At(s.book, p).status.Terminal() {
    }
    NonePending(s.book, id);
  }

  /** Completed in time. Let all live entries under a timed id have started by some time, none of them
      broken. On every run on which nothing under the id is commanded, broken or created anew and the
      order is neither renewed nor cleared, the first active tick by which the duration has passed
      since that time leaves none of them live, and each has taken effect, exactly once. */
  lemma NeverAfterItsTime(w: World, a: Robot, events: seq<Event>, id: string, limit: real, dt: Span, now: real)
    requires 0.0 < w.cfg.actionDuration && PauseDiscipline(a) && StartedUnder(a.book, id, limit) && OnTheWay(a.book, id)
    requires var b := Run(w, a, events);
             && LeftAlone(a, b, id) && SpawnCount(b.hist.actions.spawned, id) == SpawnCount(a.hist.actions.spawned, id)
             && id in b.book.registry && !b.book.registry[id].kind.WaitForTrigger? && Active(b)
             && limit + w.cfg.actionDuration <= a.book.clock + ActiveTime(w, a, events) + dt
    ensures var c := Tick(w, Run(w, a, events), dt, now);
            && Pending(c.book, id) == 0
            && EffectCount(c.hist.actions.effects, id)
                 == EffectCount(a.hist.actions.effects, id) + Pending(a.book, id)
  {
    hide Run, Tick, EffectCount, SpawnCount, Pending, StartedUnder, OnTheWay, ActiveTime, PauseDiscipline, NoneRuns,
      Kept;
    var b := Run(w, a, events);
    var c := Tick(w, b, dt, now);
    NoneRunsOn(w, a, events, id, limit, dt, now);
    TickBook(w, b, dt, now, id);
    PausingIsKept(w);
    EventsAndTickKeep(w, (r: Robot) => PauseDiscipline(r), a, events, dt, now);
    StaysOnTheWayIsKept(w, a, id);
    EventsAndTickKeep(w, (r: Robot) => StaysOnTheWay(a, r, id), a, events, dt, now);
    BalanceIsKept(w, a, id);
    EventsAndTickKeep(w, (r: Robot) => Balanced(a, r, id), a, events, dt, now);
    TickKeepsMode(w, b, dt, now);
    AllEnded(c, id);
  }

  lemma EventsAndTickKeep(w: World, inv: Robot -> bool, a: Robot, events: seq<Event>, dt: Span, now: real)
    requires Kept(w, inv) && inv(a)
    ensures inv(Tick(w, Run(w, a, events), dt, now))
  {
    hide Kept, Run, Tick;
    RunInduction(w, inv, a, events);
    TickKeeps(w, inv, Run(w, a, events), dt, now);
  }

  lemma TickKeepsMode(w: World, b: Robot, dt: Span, now: real)
    requires Active(b)
    ensures !Tick(w, b, dt, now).mode.paused
  {
    hide Prepare, Move;
    TrafficControl.PreparedFacts(w, b, dt, now);
    TickFrames.MoveKeepsBook(w, TrafficControl.Prepared(w, b, dt, now), dt);
  }

  // ---- from the first active beat on ------------------------------------------------------------

  /** An active beat completes nothing that was still waiting before it. */
  lemma FirstBeatCompletesNothing(w: World, s: Robot, dt: Span, now: real, draws: Draws, id: string)
    requires 0.0 < w.cfg.actionDuration && Active(s) && AllWait(s.book, id)
    requires var a := Step(w, s, Beat(dt, now, draws));
             id !in a.hist.actions.clashes && a.hist.actions.commanded[id] == s.hist.actions.commanded[id]
    ensures EffectCount(Step(w, s, Beat(dt, now, draws)).hist.actions.effects, id)
         == EffectCount(s.hist.actions.effects, id)
  {
    hide KeepsBudget, MaybeInjectFault, Tick, EffectCount, AllWait, Swept, Active;
    var c := AdvanceClock(UpdateCharging(w, s, dt), dt);
    ClockedTimers(w, s, dt, id);
    ItsOwnBudget(w, c, id);
    BudgetIsKept(w, c, id);
    AfterClockKeeps(w, (r: Robot) => KeepsBudget(w, c, r, id), s, dt, now, draws);
    StepClock(w, s, Beat(dt, now, draws));
    BudgetUnspent(w, s, c, Step(w, s, Beat(dt, now, draws)), id);
  }

  lemma BudgetUnspent(w: World, s: Robot, c: Robot, a: Robot, id: string)
    requires 0.0 < w.cfg.actionDuration && KeepsBudget(w, c, a, id)
    requires c.hist.actions == s.hist.actions && a.book.clock == c.book.clock
    requires id !in a.hist.actions.clashes && a.hist.actions.commanded[id] == s.hist.actions.commanded[id]
    ensures EffectCount(a.hist.actions.effects, id) == EffectCount(s.hist.actions.effects, id)
  {
    hide EffectCount, TimedFrom;
  }

  /** What an active beat does after its clock has advanced keeps what every operation keeps. */
  lemma AfterClockKeeps(w: World, inv: Robot -> bool, s: Robot, dt: Span, now: real, draws: Draws)
    requires Kept(w, inv) && Active(s) && inv(AdvanceClock(UpdateCharging(w, s, dt), dt))
    ensures inv(Step(w, s, Beat(dt, now, draws)))
  {
    hide Kept, UpdateZoneActions, SweepAll, CheckLeases, Move, MaybeInjectFault;
    var c := AdvanceClock(UpdateCharging(w, s, dt), dt);
    SweptKeeps(w, inv, c, now);
    MoveKeeps(w, inv, Swept(w, c, now), dt, now);
    InjectKeeps(w, inv, Tick(w, s, dt, now), dt, draws);
  }

  /** What holds after a run after a beat: nothing under the id is commanded, broken, created anew or
      clashes, the order is neither renewed nor cleared, and the id stands for a timed action. */
  ghost predicate Plain(s: Robot, b: Robot, id: string) {
    && id !in b.hist.actions.clashes && LeftAlone(s, b, id)
    && SpawnCount(b.hist.actions.spawned, id) == SpawnCount(s.hist.actions.spawned, id)
    && id in b.book.registry && !b.book.registry[id].kind.WaitForTrigger?
  }

  /** The exact timer. Let a beat find the robot active and all live entries under an id waiting. Then,
      on every run from there on which nothing happens to the id but time, none of them takes effect
      while the active beats add up to less than the duration; and the first active tick that makes up
      the duration leaves none of them live, each having taken effect, exactly once. */
  lemma CompletesExactlyOnTime(w: World, s: Robot, dt: Span, now: real, draws: Draws, id: string, events: seq<Event>,
                               last: Span, present: real)
    requires 0.0 < w.cfg.actionDuration && TimersSound(s) && PauseDiscipline(s) && Active(s)
    requires id in s.book.registry && id !in s.hist.actions.clashes && AllWait(s.book, id)
    requires Plain(s, Run(w, Step(w, s, Beat(dt, now, draws)), events), id)
    ensures var a := Step(w, s, Beat(dt, now, draws));
            var b := Run(w, a, events);
            && (ActiveTime(w, a, events) < w.cfg.actionDuration ==>
                  EffectCount(b.hist.actions.effects, id) == EffectCount(s.hist.actions.effects, id))
            && (Active(b) && ActiveTime(w, a, events) + last >= w.cfg.actionDuration ==>
                  var c := Tick(w, b, last, present);
                  && Pending(c.book, id) == 0
                  && EffectCount(c.hist.actions.effects, id)
                       == EffectCount(s.hist.actions.effects, id) + Pending(s.book, id))
  {
    hide Step, Tick, EffectCount, SpawnCount, Pending, TimedFrom, StartedUnder, AllWait, TimersSound, ActiveTime, Run,
      PauseDiscipline, OnTheWay, Kept;
    var a := Step(w, s, Beat(dt, now, draws));
    var b := Run(w, a, events);
    BeatBalance(w, s, Beat(dt, now, draws), events, id);
    FirstActiveBeatStarts(w, s, dt, now, draws, id);
    FirstBeatCompletesNothing(w, s, dt, now, draws, id);
    if ActiveTime(w, a, events) < w.cfg.actionDuration { NeverBeforeItsTime(w, a, events, id); }
    if Active(b) && ActiveTime(w, a, events) + last >= w.cfg.actionDuration {
      NeverAfterItsTime(w, a, events, id, a.book.clock, last, present);
    }
  }

  /** What stood still over an event and a run stood still over each. */
  lemma BeatBalance(w: World, s: Robot, e: Event, events: seq<Event>, id: string)
    requires PauseDiscipline(s) && AllWait(s.book, id) && Plain(s, Run(w, Step(w, s, e), events), id)
    ensures var a := Step(w, s, e);
            && PauseDiscipline(a) && OnTheWay(a.book, id) && Slack(a, id) == Slack(s, id)
            && LeftAlone(s, a, id) && LeftAlone(a, Run(w, a, events), id)
            && SpawnCount(a.hist.actions.spawned, id) == SpawnCount(s.hist.actions.spawned, id)
            && id !in a.hist.actions.clashes
  {
    hide Step, Run, EffectCount, SpawnCount, Pending, Slack, PauseDiscipline, OnTheWay, Kept, AllWait;
    var a := Step(w, s, e);
    PausingIsKept(w);
    StepKeeps(w, (r: Robot) => PauseDiscipline(r), s, e);
    StaysOnTheWayIsKept(w, s, id);
    WaitingIsOnTheWay(s.book, id);
    StepKeeps(w, (r: Robot) => StaysOnTheWay(s, r, id), s, e);
    BalanceIsKept(w, s, id);
    StepKeeps(w, (r: Robot) => Balanced(s, r, id), s, e);
    BalanceIsKept(w, a, id);
    RunInduction(w, (r: Robot) => Balanced(a, r, id), a, events);
    ClashesAreKept(w, a, id);
    RunInduction(w, (r: Robot) => MoreClashes(a, r), a, events);
  }

  lemma WaitingIsOnTheWay(b: Book, id: string)
    requires AllWait(b, id)
    ensures OnTheWay(b, id)
  {
  }

  predicate MoreClashes(a: Robot, b: Robot) { a.hist.actions.clashes <= b.hist.actions.clashes }

  lemma ClashesAreKept(w: World, a: Robot, id: string)
    ensures Kept(w, (r: Robot) => MoreClashes(a, r))
  {
    hide Apply, Enabled, ClashedIds;
    var inv := (r: Robot) => MoreClashes(a, r);
    forall r: Robot, op: Op ensures Keeps(w, inv)(r, op) {
      if inv(r) && Enabled(w, r, op) { CountersAfter(w, r, op); }
    }
  }
}
