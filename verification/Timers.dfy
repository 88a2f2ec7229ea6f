/** The exact timer of timed actions: none completes before the order clock has advanced by its
    duration since it started, and none runs on past the first active sweep that finds it so;
    pausing costs it nothing and retry gives all of it back. */
module Timers {
  import opened Vda5050
  import opened Platform
  import opened ActionCatalog
  import opened RobotState
  import opened Transitions
  import opened Lifecycle
  import opened Effects
  import opened Scopes
  import opened TickFrames
  import opened TrafficControl
  import opened OrderClock

  // ---- start times ---------------------------------------------------------------------

  /** Start times are recorded for registered actions only and lie in the past, and no
      waitForTrigger has ever taken effect by time. */
  ghost predicate TimersSound(s: Robot) {
    && (forall id :: id in s.book.startedAt ==> id in s.book.registry && s.book.startedAt[id] <= s.book.clock)
    && (forall e :: e in s.hist.actions.effects ==> !e.def.kind.WaitForTrigger?)
  }

  lemma TimersSoundKept(w: World, s: Robot, op: Op)
    requires TimersSound(s) && Enabled(w, s, op)
    ensures TimersSound(Apply(w, s, op))
  {
    hide ActionEnabled, ApplyAction, OrderEnabled, ApplyOrder, MoveEnabled, ApplyMove, TrafficEnabled, ApplyTraffic,
      UnitEnabled, ApplyUnit;
    match op
    case OnAction(a) => ActionTimersSound(w, s, a);
    case OnOrder(o) => OrderFrame(s, o);
    case OnMove(m) => MoveFrame(w, s, m);
    case OnTraffic(t) => TrafficFrame(w, s, t);
    case OnUnit(u) => UnitFrame(w, s, u);
  }

  lemma ActionTimersSound(w: World, s: Robot, op: ActionOp)
    requires TimersSound(s) && ActionEnabled(w, s, op)
    ensures TimersSound(ApplyAction(w, s, op))
  {
    hide ApplyEffect, SetStatus, Append, FlipAll, Landing, Live, FitsTrack, Active, Idle;
    if op.Completing? { LandingHolds(s, op.spot, s.book.registry[At(s.book, op.spot).id]); }
  }

  lemma TimersAlwaysSound(w: World, s: Robot, events: seq<Event>)
    requires TimersSound(s)
    ensures TimersSound(Run(w, s, events))
  {
    var inv := (r: Robot) => TimersSound(r);
    forall r: Robot, op: Op ensures Keeps(w, inv)(r, op) {
      if inv(r) && Enabled(w, r, op) { TimersSoundKept(w, r, op); }
    }
    RunInduction(w, inv, s, events);
  }

  // ---- the sweep is never late ------------------------------------------------------------

  /** Whether `e` is a registered entry that still waits, or runs although it is due. */
  predicate Overdue(w: World, b: Book, e: Entry) {
    e.id in b.registry && (e.status.Waiting? || (e.status.Running? && Due(w, b, e.id, b.registry[e.id])))
  }

  ghost predicate NoneOverdue(w: World, b: Book, es: seq<Entry>) {
    forall e :: e in es ==> !Overdue(w, b, e)
  }

  /** Restarting the timer of one id cannot make another entry overdue. */
  lemma RestartedTimer(w: World, b: Book, c: Book, es: seq<Entry>, id: string)
    requires 0.0 < w.cfg.actionDuration && NoneOverdue(w, b, es)
    requires c.registry == b.registry && c.clock == b.clock
    requires c.startedAt == b.startedAt || c.startedAt == b.startedAt[id := b.clock]
    ensures NoneOverdue(w, c, es)
  {
    forall e | e in es ensures !Overdue(w, c, e) {
      assert !Overdue(w, b, e);
    }
  }

  lemma BeginningLeavesNoneOverdue(w: World, s: Robot, p: Spot)
    requires 0.0 < w.cfg.actionDuration && Registered(s, p)
    requires NoneOverdue(w, s.book, Entries(s.book, p.track)[..p.index])
    ensures var b := BeginEntry(s, p).book;
            && NoneOverdue(w, b, Entries(b, p.track)[..p.index + 1])
            && forall u: Track :: u != p.track && NoneOverdue(w, s.book, Entries(s.book, u)) ==>
                NoneOverdue(w, b, Entries(b, u))
  {
    var b := BeginEntry(s, p).book;
    var id := At(s.book, p).id;
    RestartedTimer(w, s.book, b, Entries(s.book, p.track)[..p.index], id);
    assert Entries(b, p.track)[..p.index + 1] == Entries(s.book, p.track)[..p.index] + [At(b, p)];
    forall u: Track | u != p.track && NoneOverdue(w, s.book, Entries(s.book, u))
      ensures NoneOverdue(w, b, Entries(b, u))
    {
      RestartedTimer(w, s.book, b, Entries(s.book, u), id);
    }
  }

  lemma CompletingLeavesNoneOverdue(w: World, s: Robot, p: Spot)
    requires Registered(s, p) && At(s.book, p).status.Running?
    requires NoneOverdue(w, s.book, Entries(s.book, p.track)[..p.index])
    ensures var def := s.book.registry[At(s.book, p).id];
            var b, q := CompleteEntry(s, p).book, Landing(s.book, p, def.kind);
            && q.index < |Entries(b, p.track)|
            && NoneOverdue(w, b, Entries(b, p.track)[..q.index + 1])
            && forall u: Track :: u != p.track && NoneOverdue(w, s.book, Entries(s.book, u)) ==>
                NoneOverdue(w, b, Entries(b, u))
  {
    hide ApplyEffect, Live, Overdue;
    var def := s.book.registry[At(s.book, p).id];
    var b, q := CompleteEntry(s, p).book, Landing(s.book, p, def.kind);
    var c := Cleared(s.book, def.kind);
    var es := Entries(s.book, p.track);
    LandingHolds(s, p, def);
    LandingIs(s.book, p, def.kind);
    LivePrefix(es, p.index);
    assert Entries(c, p.track)[..q.index] == if Clears(def.kind, p.track) then Live(es[..p.index]) else es[..p.index];
    assert Entries(b, p.track)[..q.index + 1] == Entries(c, p.track)[..q.index] + [At(b, q)];
    SameTimers(w, s.book, b);
    SettledIsNotOverdue(w, b, At(b, q));
    forall e | e in Entries(b, p.track)[..q.index + 1] ensures !Overdue(w, b, e) {
      assert e == At(b, q) || e in Entries(c, p.track)[..q.index];
      if e != At(b, q) {
        InLive(es[..p.index], e);
        assert !Overdue(w, s.book, e);
      }
    }
    forall u: Track | u != p.track && NoneOverdue(w, s.book, Entries(s.book, u))
      ensures NoneOverdue(w, b, Entries(b, u))
    {
      forall e | e in Entries(b, u) ensures !Overdue(w, b, e) {
        InLive(Entries(s.book, u), e);
        assert !Overdue(w, s.book, e);
      }
    }
  }

  lemma SettledIsNotOverdue(w: World, b: Book, e: Entry)
    requires e.status.Terminal()
    ensures !Overdue(w, b, e)
  {
  }

  lemma SameTimers(w: World, b: Book, c: Book)
    requires c.registry == b.registry && c.startedAt == b.startedAt && c.clock == b.clock
    ensures forall e :: Overdue(w, c, e) <==> Overdue(w, b, e)
  {
  }

  lemma InLive(es: seq<Entry>, e: Entry)
    ensures e in Live(es) ==> e in es
  {
  }

  /** Advancing one entry leaves it, and those before it, not overdue. */
  lemma AdvancingLeavesNoneOverdue(w: World, s: Robot, p: Spot)
    requires 0.0 < w.cfg.actionDuration && Registered(s, p)
    requires NoneOverdue(w, s.book, Entries(s.book, p.track)[..p.index])
    ensures var r := AdvanceOne(w, s, p);
            && NoneOverdue(w, r.robot.book, Entries(r.robot.book, p.track)[..r.spot.index + 1])
            && forall u: Track :: u != p.track && NoneOverdue(w, s.book, Entries(s.book, u)) ==>
                 NoneOverdue(w, r.robot.book, Entries(r.robot.book, u))
  {
    hide CompleteEntry, Due, Landing;
    if At(s.book, p).status.Waiting? {
      BeginningLeavesNoneOverdue(w, s, p);
    } else {
      assert Entries(s.book, p.track)[..p.index + 1] == Entries(s.book, p.track)[..p.index] + [At(s.book, p)];
    }
    var t := if At(s.book, p).status.Waiting? then BeginEntry(s, p) else s;
    var e := At(t.book, p);
    if e.status.Running? && Due(w, t.book, e.id, t.book.registry[e.id]) {
      assert Entries(t.book, p.track)[..p.index] == Entries(s.book, p.track)[..p.index];
      RestartedTimer(w, s.book, t.book, Entries(s.book, p.track)[..p.index], e.id);
      CompletingLeavesNoneOverdue(w, t, p);
    }
  }

  lemma {:induction false} SweepLeavesNoneOverdue(w: World, s: Robot, t: Track, i: nat)
    requires 0.0 < w.cfg.actionDuration && i <= |Entries(s.book, t)|
    requires NoneOverdue(w, s.book, Entries(s.book, t)[..i])
    ensures var r := Sweep(w, s, t, i);
            && NoneOverdue(w, r.book, Entries(r.book, t))
            && forall u: Track :: u != t && NoneOverdue(w, s.book, Entries(s.book, u)) ==>
                NoneOverdue(w, r.book, Entries(r.book, u))
    decreases |Entries(s.book, t)| - i
  {
    hide AdvanceOne, Due;
    var es := Entries(s.book, t);
    if i == |es| {
      assert es[..i] == es;
    } else if es[i].id !in s.book.registry {
      assert es[..i + 1] == es[..i] + [es[i]];
      SweepLeavesNoneOverdue(w, s, t, i + 1);
    } else {
      AdvancingLeavesNoneOverdue(w, s, Spot(t, i));
      var r := AdvanceOne(w, s, Spot(t, i));
      SweepLeavesNoneOverdue(w, r.robot, t, r.spot.index + 1);
    }
  }

  /** After an active sweep no registered entry still waits and none runs past its duration: whatever
      was to start has started and whatever was due has completed, on whichever track it stands. */
  lemma NeverLate(w: World, s: Robot)
    requires 0.0 < w.cfg.actionDuration
    ensures var b := SweepAll(w, s).book;
            forall t: Track :: NoneOverdue(w, b, Entries(b, t))
  {
    hide Sweep;
    SweepLeavesNoneOverdue(w, s, OrderTrack, 0);
    var a := Sweep(w, s, OrderTrack, 0);
    SweepLeavesNoneOverdue(w, a, InstantTrack, 0);
    var b := Sweep(w, a, InstantTrack, 0);
    SweepLeavesNoneOverdue(w, b, ZoneTrack, 0);
  }

  /** A running entry whose start is not recorded, as after a retry of its namesake, does not complete. */
  lemma StartlessRunsOn(w: World, s: Robot, p: Spot)
    requires 0.0 < w.cfg.actionDuration && Registered(s, p)
    requires At(s.book, p).status.Running? && At(s.book, p).id !in s.book.startedAt
    ensures AdvanceOne(w, s, p).robot == s
  {
    hide CompleteEntry;
  }

  // ---- never before its time ----------------------------------------------------------------

  /** Every live entry under this id waits. */
  ghost predicate AllWait(b: Book, id: string) {
    forall p: Spot :: Valid(b, p) && At(b, p).id == id && !At(b, p).status.Terminal() ==> At(b, p).status.Waiting?
  }

  /** The live entries under a registered id wait, or their timer started no earlier than `since`. */
  ghost predicate TimedFrom(b: Book, id: string, since: real) {
    id in b.registry ==> AllWait(b, id) || (id in b.startedAt && since <= b.startedAt[id])
  }

  /** How an operation changes the start times. */
  function StartsAfter(b: Book, op: Op): map<string, real> {
    match op
    case OnAction(Beginning(p)) => if Valid(b, p) then b.startedAt[At(b, p).id := b.clock] else b.startedAt
    case OnAction(Retrying(p)) => if Valid(b, p) then b.startedAt - {At(b, p).id} else b.startedAt
    case _ => b.startedAt
  }

  /** What an operation does to registry, clock and start times. */
  lemma BookAfter(w: World, s: Robot, op: Op)
    requires Enabled(w, s, op)
    ensures var b, r := s.book, Apply(w, s, op).book;
            && r.startedAt == StartsAfter(b, op)
            && r.clock == (if op.OnAction? && op.a.Clocking? then b.clock + op.a.dt else b.clock)
            && r.registry == (if op.OnAction? && op.a.Spawning? then b.registry[op.a.action.id := op.a.action]
                              else b.registry)
  {
    hide ActionEnabled, ApplyAction, OrderEnabled, ApplyOrder, MoveEnabled, ApplyMove, TrafficEnabled, ApplyTraffic,
      UnitEnabled, ApplyUnit;
    match op
    case OnAction(a) =>
      ActionCounters(w, s, a);
      ActionStarts(w, s, a);
    case OnOrder(o) => OrderFrame(s, o);
    case OnMove(m) => MoveFrame(w, s, m);
    case OnTraffic(t) => TrafficFrame(w, s, t);
    case OnUnit(u) => UnitFrame(w, s, u);
  }

  lemma ActionStarts(w: World, s: Robot, op: ActionOp)
    requires ActionEnabled(w, s, op)
    ensures ApplyAction(w, s, op).book.startedAt == StartsAfter(s.book, OnAction(op))
  {
    hide ApplyEffect, SetStatus, Append, FlipAll, Landing, Live, Due, FitsTrack, Active, Idle, LiveId;
    if op.Completing? { LandingHolds(s, op.spot, s.book.registry[At(s.book, op.spot).id]); }
  }

  /** Whether the operation starts an entry with this id. */
  predicate Begins(b: Book, op: Op, id: string) {
    op.OnAction? && op.a.Beginning? && Valid(b, op.a.spot) && At(b, op.a.spot).id == id
  }

  /** Unless the id clashes or its entry is commanded, its timer never reaches further back. */
  lemma TimedFromKept(w: World, s: Robot, op: Op, id: string, since: real)
    requires Enabled(w, s, op) && TimedFrom(s.book, id, since) && since <= s.book.clock
    requires id !in ClashedIds(s, op) && id !in CommandedIds(s, op)
    ensures TimedFrom(Apply(w, s, op).book, id, since)
  {
    hide Apply, Enabled, AllWait;
    BookAfter(w, s, op);
    var b, r := s.book, Apply(w, s, op).book;
    if id in r.registry && !Begins(b, op, id) && (id in b.registry ==> AllWait(b, id)) {
      StillWait(w, s, op, id);
    } else if id in r.registry {
      StartsKept(w, s, op, id);
    }
  }

  lemma StartsKept(w: World, s: Robot, op: Op, id: string)
    requires Enabled(w, s, op) && id !in CommandedIds(s, op)
    ensures Begins(s.book, op, id) ==> id in StartsAfter(s.book, op) && StartsAfter(s.book, op)[id] == s.book.clock
    ensures !Begins(s.book, op, id) && id in s.book.startedAt ==>
              id in StartsAfter(s.book, op) && StartsAfter(s.book, op)[id] == s.book.startedAt[id]
    ensures id in StartsAfter(s.book, op) ==> Begins(s.book, op, id) || id in s.book.startedAt
  {
    hide OrderEnabled, MoveEnabled, TrafficEnabled, UnitEnabled;
  }

  lemma StillWait(w: World, s: Robot, op: Op, id: string)
    requires Enabled(w, s, op) && id !in ClashedIds(s, op) && !Begins(s.book, op, id)
    requires id in Apply(w, s, op).book.registry && (id in s.book.registry ==> AllWait(s.book, id))
    ensures AllWait(Apply(w, s, op).book, id)
  {
    hide Apply, ActionEnabled, OrderEnabled, MoveEnabled, TrafficEnabled, UnitEnabled, LiveId;
    BookAfter(w, s, op);
    var r := Apply(w, s, op).book;
    forall p: Spot | Valid(r, p) && At(r, p).id == id && !At(r, p).status.Terminal() ensures At(r, p).status.Waiting? {
      var q := EntryOrigin(w, s, op, p);
      if Valid(s.book, q) { LiveHere(s.book, q); }
    }
  }

  /** An entry timed from `since` is not due before its duration has passed from then. */
  lemma NotDueYet(w: World, s: Robot, p: Spot, since: real)
    requires Registered(s, p) && At(s.book, p).status.Running? && TimedFrom(s.book, At(s.book, p).id, since)
    requires s.book.clock < since + w.cfg.actionDuration
    ensures !Due(w, s.book, At(s.book, p).id, s.book.registry[At(s.book, p).id])
  {
  }

  /** Relative to `a`: for as long as the id neither clashes nor is commanded, it is timed from the
      time of `a`, and takes no effect before its duration has passed from then. */
  ghost predicate KeepsBudget(w: World, a: Robot, b: Robot, id: string) {
    && b.book.clock >= a.book.clock && b.hist.actions.commanded[id] >= a.hist.actions.commanded[id]
    && (id !in b.hist.actions.clashes && b.hist.actions.commanded[id] == a.hist.actions.commanded[id] ==>
          && TimedFrom(b.book, id, a.book.clock)
          && (b.book.clock < a.book.clock + w.cfg.actionDuration ==>
                EffectCount(b.hist.actions.effects, id) == EffectCount(a.hist.actions.effects, id)))
  }

  lemma BudgetKept(w: World, a: Robot, b: Robot, op: Op, id: string)
    requires KeepsBudget(w, a, b, id) && Enabled(w, b, op)
    ensures KeepsBudget(w, a, Apply(w, b, op), id)
  {
    hide Apply, Enabled, TimedFrom, EffectCount, ClashedIds, CommandedIds;
    var c := Apply(w, b, op);
    CountersAfter(w, b, op);
    BookAfter(w, b, op);
    if id !in c.hist.actions.clashes && c.hist.actions.commanded[id] == a.hist.actions.commanded[id] {
      TimedFromKept(w, b, op, id, a.book.clock);
      if c.book.clock < a.book.clock + w.cfg.actionDuration { NoEffectYet(w, b, op, id, a.book.clock); }
    }
  }

  lemma NoEffectYet(w: World, b: Robot, op: Op, id: string, since: real)
    requires Enabled(w, b, op) && TimedFrom(b.book, id, since) && b.book.clock < since + w.cfg.actionDuration
    ensures EffectCount(Apply(w, b, op).hist.actions.effects, id) == EffectCount(b.hist.actions.effects, id)
  {
    hide ApplyAction, OrderEnabled, ApplyOrder, MoveEnabled, ApplyMove, TrafficEnabled, ApplyTraffic, UnitEnabled,
      ApplyUnit, TimedFrom, Due;
    match op
    case OnAction(a) =>
      EffectsGrow(w, b, a);
      if a.Completing? && At(b.book, a.spot).id == id { NotDueYet(w, b, a.spot, since); }
    case OnOrder(o) => OrderFrame(b, o);
    case OnMove(m) => MoveFrame(w, b, m);
    case OnTraffic(t) => TrafficFrame(w, b, t);
    case OnUnit(u) => UnitFrame(w, b, u);
  }

  /** Never before its time. If all live entries under an id wait, or started no earlier than now,
      then on every run on which the id does not clash and its entry is not commanded, it takes no
      effect while the beats that found the robot active add up to less than the duration:
      pause, other operating modes and hibernation use up none of it. */
  lemma NeverBeforeItsTime(w: World, s: Robot, events: seq<Event>, id: string)
    requires 0.0 < w.cfg.actionDuration && TimedFrom(s.book, id, s.book.clock)
    requires var h := Run(w, s, events).hist.actions;
             id !in h.clashes && h.commanded[id] == s.hist.actions.commanded[id]
    requires ActiveTime(w, s, events) < w.cfg.actionDuration
    ensures EffectCount(Run(w, s, events).hist.actions.effects, id) == EffectCount(s.hist.actions.effects, id)
  {
    hide EffectCount, TimedFrom, Step;
    var inv := (r: Robot) => KeepsBudget(w, s, r, id);
    forall r: Robot, op: Op ensures Keeps(w, inv)(r, op) {
      if inv(r) && Enabled(w, r, op) { BudgetKept(w, s, r, op, id); }
    }
    RunInduction(w, inv, s, events);
    ClockShowsActiveTime(w, s, events);
  }

  /** Retry gives the whole duration back: from the retry on, the same holds, whatever the entry
      had used up before. */
  lemma RetryRestoresBudget(w: World, s: Robot, p: Spot, events: seq<Event>)
    requires 0.0 < w.cfg.actionDuration && Valid(s.book, p) && At(s.book, p).status.Retriable?
    requires forall q: Spot :: Valid(s.book, q) && q != p && At(s.book, q).id == At(s.book, p).id ==>
               At(s.book, q).status.Terminal()
    requires var id, a := At(s.book, p).id, RetryEntry(s, p);
             var h := Run(w, a, events).hist;
             && id !in h.actions.clashes && h.actions.commanded[id] == a.hist.actions.commanded[id]
             && ActiveTime(w, a, events) < w.cfg.actionDuration
    ensures var id, a := At(s.book, p).id, RetryEntry(s, p);
            EffectCount(Run(w, a, events).hist.actions.effects, id) == EffectCount(s.hist.actions.effects, id)
  {
    hide Run, ActiveTime, EffectCount, SetStatus;
    var id, a := At(s.book, p).id, RetryEntry(s, p);
    forall q: Spot | Valid(a.book, q) && At(a.book, q).id == id && !At(a.book, q).status.Terminal()
      ensures At(a.book, q).status.Waiting?
    {
      SetStatusAt(s.book, p, Waiting, q);
    }
    NeverBeforeItsTime(w, a, events, id);
  }

  // ---- never after its time --------------------------------------------------------------------

  /** Every live entry under this id has started, and its timer no later than `by`. */
  ghost predicate StartedUnder(b: Book, id: string, limit: real) {
    forall p: Spot :: Valid(b, p) && At(b, p).id == id && !At(b, p).status.Terminal() ==>
      !At(b, p).status.Waiting? && id in b.startedAt && b.startedAt[id] <= limit
  }

  lemma StartedUnderKept(w: World, s: Robot, op: Op, id: string, limit: real)
    requires Enabled(w, s, op) && StartedUnder(s.book, id, limit) && id !in CommandedIds(s, op)
    requires SpawnCount(Apply(w, s, op).hist.actions.spawned, id) == SpawnCount(s.hist.actions.spawned, id)
    ensures StartedUnder(Apply(w, s, op).book, id, limit)
  {
    hide Apply, Enabled, SpawnCount;
    BookAfter(w, s, op);
    StartsKept(w, s, op, id);
    SpawnCounted(w, s, op, id);
    var r := Apply(w, s, op).book;
    forall p: Spot | Valid(r, p) && At(r, p).id == id && !At(r, p).status.Terminal()
      ensures !At(r, p).status.Waiting? && id in r.startedAt && r.startedAt[id] <= limit
    {
      var q := EntryOrigin(w, s, op, p);
      if Begins(s.book, op, id) { BegunWaited(w, s, op, id); }
    }
  }

  lemma BegunWaited(w: World, s: Robot, op: Op, id: string)
    requires Enabled(w, s, op) && Begins(s.book, op, id)
    ensures At(s.book, op.a.spot).status.Waiting?
  {
    hide OrderEnabled, MoveEnabled, TrafficEnabled, UnitEnabled;
  }

  /** Relative to `a`: for as long as no entry is created under the id and none is commanded. */
  ghost predicate StaysStarted(a: Robot, b: Robot, id: string, limit: real) {
    && b.hist.actions.commanded[id] >= a.hist.actions.commanded[id]
    && SpawnCount(b.hist.actions.spawned, id) >= SpawnCount(a.hist.actions.spawned, id)
    && (b.hist.actions.commanded[id] == a.hist.actions.commanded[id] ==>
          SpawnCount(b.hist.actions.spawned, id) == SpawnCount(a.hist.actions.spawned, id) ==>
            StartedUnder(b.book, id, limit))
  }

  lemma StaysStartedKept(w: World, a: Robot, b: Robot, op: Op, id: string, limit: real)
    requires StaysStarted(a, b, id, limit) && Enabled(w, b, op)
    ensures StaysStarted(a, Apply(w, b, op), id, limit)
  {
    hide Enabled, Apply, StartedUnder, SpawnCount, CommandedIds;
    CountersAfter(w, b, op);
    SpawnCounted(w, b, op, id);
    var c := Apply(w, b, op);
    if c.hist.actions.commanded[id] == a.hist.actions.commanded[id]
       && SpawnCount(c.hist.actions.spawned, id) == SpawnCount(a.hist.actions.spawned, id)
    {
      StartedUnderKept(w, b, op, id, limit);
    }
  }

  lemma StartedIsKept(w: World, a: Robot, id: string, limit: real)
    ensures Kept(w, (r: Robot) => StaysStarted(a, r, id, limit))
  {
    hide StaysStarted;
    var inv := (r: Robot) => StaysStarted(a, r, id, limit);
    forall r: Robot, op: Op ensures Keeps(w, inv)(r, op) {
      if inv(r) && Enabled(w, r, op) { StaysStartedKept(w, a, r, op, id, limit); }
    }
  }

  lemma BudgetIsKept(w: World, a: Robot, id: string)
    ensures Kept(w, (r: Robot) => KeepsBudget(w, a, r, id))
  {
    hide KeepsBudget;
    var inv := (r: Robot) => KeepsBudget(w, a, r, id);
    forall r: Robot, op: Op ensures Keeps(w, inv)(r, op) {
      if inv(r) && Enabled(w, r, op) { BudgetKept(w, a, r, op, id); }
    }
  }

  /** After an active sweep nothing under a timed id that started early enough still waits or runs. */
  lemma SweptInTime(w: World, s: Robot, id: string, limit: real)
    requires 0.0 < w.cfg.actionDuration && Active(s) && StartedUnder(s.book, id, limit)
    requires id in s.book.registry && !s.book.registry[id].kind.WaitForTrigger?
    requires limit + w.cfg.actionDuration <= s.book.clock
    ensures NoneRuns(SweepAll(w, s).book, id) && id in SweepAll(w, s).book.registry
  {
    hide Sweep, SweepAll, StartedUnder, NoneOverdue, SpawnCount;
    var inv := (r: Robot) => StaysStarted(s, r, id, limit);
    StartedIsKept(w, s, id, limit);
    SweepAllKeeps(w, inv, s);
    SweepAllFrame(w, s);
    NeverLate(w, s);
    StartedAndSwept(w, SweepAll(w, s).book, id, limit);
  }

  /** Nothing under the id waits or runs. */
  ghost predicate NoneRuns(b: Book, id: string) {
    forall p: Spot :: Valid(b, p) && At(b, p).id == id ==> !At(b, p).status.Waiting? && !At(b, p).status.Running?
  }

  lemma StartedAndSwept(w: World, b: Book, id: string, limit: real)
    requires StartedUnder(b, id, limit) && forall t: Track :: NoneOverdue(w, b, Entries(b, t))
    requires id in b.registry && !b.registry[id].kind.WaitForTrigger? && limit + w.cfg.actionDuration <= b.clock
    ensures NoneRuns(b, id)
  {
    forall p: Spot | Valid(b, p) && At(b, p).id == id ensures !At(b, p).status.Waiting? && !At(b, p).status.Running? {
      assert At(b, p) in Entries(b, p.track);
    }
  }

  lemma ZoneAddsElsewhere(w: World, s: Robot, a: Action, id: string)
    requires id in s.book.registry
    ensures SpawnCount(RegisterZoneAction(w, s, a).hist.actions.spawned, id) == SpawnCount(s.hist.actions.spawned, id)
    ensures var r := RegisterZoneAction(w, s, a).book;
            && (forall p: Spot :: Valid(r, p) && At(r, p).id == id ==> Valid(s.book, p) && At(r, p) == At(s.book, p))
            && r.startedAt == s.book.startedAt && r.clock == s.book.clock
            && id in r.registry && r.registry[id] == s.book.registry[id]
  {
    hide LiveId, Accepted;
    var before, after := s.hist.actions.spawned, RegisterZoneAction(w, s, a).hist.actions.spawned;
    assert after == before || after == before + [a.id];
    if after == before + [a.id] { assert after[..|after| - 1] == before; }
  }

  /** Zones create no entry under an id that is registered. */
  lemma {:induction false} ZonesAddElsewhere(w: World, s: Robot, actions: seq<Action>, id: string)
    requires id in s.book.registry
    ensures SpawnCount(RegisterZoneActions(w, s, actions).hist.actions.spawned, id)
         == SpawnCount(s.hist.actions.spawned, id)
    ensures var r := RegisterZoneActions(w, s, actions).book;
            && (forall p: Spot :: Valid(r, p) && At(r, p).id == id ==> Valid(s.book, p) && At(r, p) == At(s.book, p))
            && r.startedAt == s.book.startedAt && r.clock == s.book.clock
            && id in r.registry && r.registry[id] == s.book.registry[id]
    decreases |actions|
  {
    hide RegisterZoneAction, SpawnCount;
    if actions != [] {
      ZoneAddsElsewhere(w, s, actions[0], id);
      ZonesAddElsewhere(w, RegisterZoneAction(w, s, actions[0]), actions[1..], id);
    }
  }

  /** The book after an active tick: that of its sweep, but for entries under ids new to the registry. */
  lemma TickBook(w: World, s: Robot, dt: Span, now: real, id: string)
    requires Active(s) && id in s.book.registry
    ensures var a, r := s.hist, Tick(w, s, dt, now).hist;
            && r.orders == a.orders
            && r.actions.commanded == a.actions.commanded && r.actions.broken == a.actions.broken
            && SpawnCount(r.actions.spawned, id) == SpawnCount(a.actions.spawned, id)
    ensures var e, r := SweepAll(w, AdvanceClock(UpdateCharging(w, s, dt), dt)).book, Tick(w, s, dt, now).book;
            && id in e.registry && id in r.registry && r.registry[id] == e.registry[id]
            && r.startedAt == e.startedAt && r.clock == e.clock
            && forall p: Spot :: Valid(r, p) && At(r, p).id == id ==> Valid(e, p) && At(r, p) == At(e, p)
  {
    hide SweepAll, Move, PresentZones, EntryActions, ExitActions, RegisterZoneActions, SpawnCount;
    PreparedFacts(w, s, dt, now);
    var p := Prepared(w, s, dt, now);
    MoveKeepsBook(w, p, dt);
    var c := AdvanceClock(UpdateCharging(w, s, dt), dt);
    SweepAllFrame(w, c);
    var e := CheckLeases(w, SweepAll(w, c), now);
    var present := PresentZones(e);
    var actions := EntryActions(present, e.site.occupancy) + ExitActions(e.site.occupancy, present);
    ZonesAddElsewhere(w, e, actions, id);
    ZoneActionsFrame(w, e, actions);
  }

  /** What a beat that finds the robot active does to the timer of waiting entries: it starts it. */
  lemma FirstActiveBeatStarts(w: World, s: Robot, dt: Span, now: real, draws: Draws, id: string)
    requires 0.0 < w.cfg.actionDuration && TimersSound(s) && Active(s)
    requires id in s.book.registry && id !in s.hist.actions.clashes && AllWait(s.book, id)
    ensures var a := Step(w, s, Beat(dt, now, draws));
            TimedFrom(a.book, id, a.book.clock) && StartedUnder(a.book, id, a.book.clock)
  {
    hide SweepAll, Tick, MaybeInjectFault, TimedFrom, StartedUnder, AllWait, NoneOverdue, TimersSound;
    var c := AdvanceClock(UpdateCharging(w, s, dt), dt);
    SweepStarts(w, s, c, dt, id);
    TickBook(w, s, dt, now, id);
    var t := Tick(w, s, dt, now);
    SameTimer(SweepAll(w, c).book, t.book, id, c.book.clock);
    SweepAllFrame(w, c);
    FaultRoundKeepsTimer(w, t, dt, draws, id, c.book.clock);
  }

  lemma ItsOwnBudget(w: World, c: Robot, id: string)
    requires AllWait(c.book, id)
    ensures KeepsBudget(w, c, c, id)
  {
  }

  lemma KeptBudget(w: World, c: Robot, e: Robot, id: string)
    requires KeepsBudget(w, c, e, id) && id !in e.hist.actions.clashes
    requires e.hist.actions.commanded == c.hist.actions.commanded
    ensures TimedFrom(e.book, id, c.book.clock)
  {
  }

  lemma SweepStarts(w: World, s: Robot, c: Robot, dt: Span, id: string)
    requires 0.0 < w.cfg.actionDuration && TimersSound(s) && Active(s)
            && c == AdvanceClock(UpdateCharging(w, s, dt), dt)
    requires id in s.book.registry && id !in s.hist.actions.clashes && AllWait(s.book, id)
    ensures var e := SweepAll(w, c).book;
            TimedFrom(e, id, c.book.clock) && StartedUnder(e, id, c.book.clock) && e.clock == c.book.clock
  {
    hide SweepAll, NoneOverdue, KeepsBudget, StartedUnder, AllWait, TimersSound, TimedFrom, Active;
    ClockedTimers(w, s, dt, id);
    var inv := (r: Robot) => KeepsBudget(w, c, r, id);
    BudgetIsKept(w, c, id);
    ItsOwnBudget(w, c, id);
    SweepAllKeeps(w, inv, c);
    SweepAllFrame(w, c);
    NeverLate(w, c);
    SoundIsKept(w);
    SweepAllKeeps(w, (r: Robot) => TimersSound(r), c);
    KeptBudget(w, c, SweepAll(w, c), id);
    StartedWhenSwept(w, SweepAll(w, c), id, c.book.clock);
  }

  lemma StartedWhenSwept(w: World, e: Robot, id: string, c: real)
    requires TimersSound(e) && e.book.clock == c && TimedFrom(e.book, id, c) && id in e.book.registry
    requires forall t: Track :: NoneOverdue(w, e.book, Entries(e.book, t))
    ensures StartedUnder(e.book, id, c)
  {
    forall p: Spot | Valid(e.book, p) && At(e.book, p).id == id && !At(e.book, p).status.Terminal()
      ensures !At(e.book, p).status.Waiting? && id in e.book.startedAt && e.book.startedAt[id] <= c
    {
      SweptNotWaiting(w, e.book, p);
    }
  }

  lemma ClockedTimers(w: World, s: Robot, dt: Span, id: string)
    ensures var c := AdvanceClock(UpdateCharging(w, s, dt), dt);
            && (AllWait(s.book, id) ==> AllWait(c.book, id)) && (TimersSound(s) ==> TimersSound(c))
            && (Active(s) ==> Active(c))
            && c.hist.actions.clashes == s.hist.actions.clashes && c.book.registry == s.book.registry
  {
    var c := AdvanceClock(UpdateCharging(w, s, dt), dt);
    if AllWait(s.book, id) {
      forall p: Spot | Valid(c.book, p) && At(c.book, p).id == id && !At(c.book, p).status.Terminal()
        ensures At(c.book, p).status.Waiting?
      {
        assert Valid(s.book, p) && At(s.book, p) == At(c.book, p);
      }
    }
  }

  lemma SweptNotWaiting(w: World, e: Book, p: Spot)
    requires Valid(e, p) && At(e, p).id in e.registry && NoneOverdue(w, e, Entries(e, p.track))
    ensures !At(e, p).status.Waiting?
  {
    assert At(e, p) in Entries(e, p.track);
  }

  lemma SoundIsKept(w: World)
    ensures Kept(w, (r: Robot) => TimersSound(r))
  {
    hide TimersSound;
    var inv := (r: Robot) => TimersSound(r);
    forall r: Robot, op: Op ensures Keeps(w, inv)(r, op) {
      if inv(r) && Enabled(w, r, op) { TimersSoundKept(w, r, op); }
    }
  }

  lemma SameTimer(e: Book, r: Book, id: string, c: real)
    requires id in e.registry && id in r.registry && r.startedAt == e.startedAt
    requires forall p: Spot :: Valid(r, p) && At(r, p).id == id ==> Valid(e, p) && At(r, p) == At(e, p)
    ensures TimedFrom(e, id, c) ==> TimedFrom(r, id, c)
    ensures StartedUnder(e, id, c) ==> StartedUnder(r, id, c)
  {
  }

  lemma FaultRoundKeepsTimer(w: World, t: Robot, dt: Span, draws: Draws, id: string, c: real)
    requires TimedFrom(t.book, id, c) && StartedUnder(t.book, id, c) && t.book.clock == c
    ensures var a := MaybeInjectFault(w, t, dt, draws);
            TimedFrom(a.book, id, c) && StartedUnder(a.book, id, c) && a.book.clock == c
  {
    hide TimedFrom, StartedUnder, UpdateField, UpdateOperatingMode, UpdateStop, FirstRetriable, SetStatus;
    var f := RunFaultTimers(t, dt, draws);
    var p := FirstRetriable(f.book);
    if draws.failure && p.Some? {
      var op := OnAction(Breaking(p.value));
      BreakIsEnabled(w, f);
      TimedFromKept(w, f, op, id, c);
      StartedUnderKept(w, f, op, id, c);
    }
  }

  lemma BreakIsEnabled(w: World, f: Robot)
    ensures var p := FirstRetriable(f.book);
            p.Some? ==> Enabled(w, f, OnAction(Breaking(p.value)))
                        && Apply(w, f, OnAction(Breaking(p.value))) == BreakEntry(w, f, p.value)
  {
    hide SetStatus;
  }

  /** If all live entries under an id had started by some time, the first active tick at which a timed id
      has made up its duration since leaves none of them running. */
  lemma NoneRunsOn(w: World, a: Robot, events: seq<Event>, id: string, limit: real, dt: Span, now: real)
    requires 0.0 < w.cfg.actionDuration && StartedUnder(a.book, id, limit)
    requires var b := Run(w, a, events);
             && b.hist.actions.commanded[id] == a.hist.actions.commanded[id]
             && SpawnCount(b.hist.actions.spawned, id) == SpawnCount(a.hist.actions.spawned, id)
             && id in b.book.registry && !b.book.registry[id].kind.WaitForTrigger? && Active(b)
             && limit + w.cfg.actionDuration <= a.book.clock + ActiveTime(w, a, events) + dt
    ensures NoneRuns(Tick(w, Run(w, a, events), dt, now).book, id)
  {
    hide Step, Tick, SpawnCount, StartedUnder, ActiveTime, Run, SweepAll;
    var inv := (r: Robot) => StaysStarted(a, r, id, limit);
    StartedIsKept(w, a, id, limit);
    RunInduction(w, inv, a, events);
    ClockShowsActiveTime(w, a, events);
    var b := Run(w, a, events);
    TickBook(w, b, dt, now, id);
    var c := AdvanceClock(UpdateCharging(w, b, dt), dt);
    ClockedStarted(b, c, id, limit);
    SweptInTime(w, c, id, limit);
  }

  lemma ClockedStarted(b: Robot, c: Robot, id: string, limit: real)
    requires StartedUnder(b.book, id, limit) && c.book == b.book.(clock := c.book.clock)
    ensures StartedUnder(c.book, id, limit)
  {
    forall p: Spot | Valid(c.book, p) && At(c.book, p).id == id && !At(c.book, p).status.Terminal()
      ensures !At(c.book, p).status.Waiting? && id in c.book.startedAt && c.book.startedAt[id] <= limit
    {
      assert Valid(b.book, p) && At(b.book, p) == At(c.book, p);
    }
  }
}
