/** Cancellation over whole runs: when a pending cancellation is carried out, what it clears, and
    exactly when that is the order it was meant for. */
module Cancellation {
  import opened Vda5050
  import opened Platform
  import opened ActionCatalog
  import opened RobotState
  import opened Transitions
  import opened TickFrames
  import opened OrderRules
  import opened Effects

  // ---- cancellation ----------------------------------------------------------------------------

  /** A pending cancellation waits, whatever happens, until it has been carried out. */
  predicate CancelWaits(a: Robot, b: Robot) {
    && b.hist.orders.cancels >= a.hist.orders.cancels
    && (b.hist.orders.cancels == a.hist.orders.cancels && a.mode.cancel.Some? ==> b.mode.cancel.Some?)
  }

  lemma CancelWaitsKept(w: World, a: Robot, b: Robot, op: Op)
    requires CancelWaits(a, b) && Enabled(w, b, op)
    ensures CancelWaits(a, Apply(w, b, op))
  {
    hide ActionEnabled, ApplyAction, MoveEnabled, ApplyMove, TrafficEnabled, ApplyTraffic, UnitEnabled, ApplyUnit, Idle;
    CountersAfter(w, b, op);
    match op
    case OnAction(x) =>
      ActionCounters(w, b, x);
    case OnOrder(o) =>
    case OnMove(m) => MoveFrame(w, b, m);
    case OnTraffic(t) => TrafficFrame(w, b, t);
    case OnUnit(u) => UnitFrame(w, b, u);
  }

  lemma PendingCancelWaits(w: World, s: Robot, events: seq<Event>)
    ensures CancelWaits(s, Run(w, s, events))
  {
    var inv := (r: Robot) => CancelWaits(s, r);
    forall r: Robot, op: Op ensures Keeps(w, inv)(r, op) {
      if inv(r) && Enabled(w, r, op) { CancelWaitsKept(w, s, r, op); }
    }
    RunInduction(w, inv, s, events);
  }

  /** The next tick of an awake robot carries a pending cancellation out, even while paused or
      off AUTOMATIC: no order, no graph, no order action, no requests, idle, where it stands; and the
      cancelOrder's own entry, the first running one of its id, is FINISHED. */
  lemma CancelClearsOrder(w: World, s: Robot, dt: Span, now: real)
    requires s.mode.cancel.Some? && !s.mode.hibernating
    ensures var r := Tick(w, s, dt, now);
            && r.task.orderId == "" && r.task.nodes == [] && r.task.edges == [] && r.task.snapshot.None?
            && r.book.order == [] && Idle(r) && r.mode.cancel.None?
            && r.pose == UpdateCharging(w, s, dt).pose && r.hist.actions.effects == s.hist.actions.effects
            && r.traffic == Traffic([], [], s.traffic.leases) && r.book.zone == s.book.zone
            && Answered(s.book.instant, r.book.instant, s.mode.cancel.value)
  {
    hide Prepare, Move, SetStatus, Answered;
    RequestIsAnswered(UpdateCharging(w, s, dt));
  }

  lemma RequestIsAnswered(s: Robot)
    requires s.mode.cancel.Some?
    ensures var r := FinishCancel(s);
            Answered(s.book.instant, r.book.instant, s.mode.cancel.value) && r.book.zone == s.book.zone
  {
    var id := s.mode.cancel.value;
    var i := FirstIndex(s.book.instant, (e: Entry) => e.id == id && e.status.Running?);
    if i < |s.book.instant| { assert s.book.instant[i] in s.book.instant; }
  }

  /** `fs` is `es` with the first running entry of the id FINISHED, if there is one. */
  predicate Answered(es: seq<Entry>, fs: seq<Entry>, id: string) {
    if exists e :: e in es && e.id == id && e.status == Running then
      exists i: nat :: i < |es| && es[i].id == id && es[i].status == Running
                       && fs == es[i := Entry(id, es[i].kind, Finished)]
                       && forall k: nat :: k < i ==> !(es[k].id == id && es[k].status == Running)
    else fs == es
  }

  lemma AcceptedKeepsMode(w: World, s: Robot, o: Order)
    ensures AcceptOrder(w, s, o, false).mode == s.mode
  {
    hide RegisterAll;
    var t := TakeOrder(s, o, false);
    RegistrationFrame(w, t, NodeActions(o.nodes), NodeScope);
    RegistrationFrame(w, RegisterAll(w, t, NodeActions(o.nodes), NodeScope), EdgeActions(o.edges), EdgeScope);
  }

  /** Once a cancellation has been carried out, no action of the cancelled order takes effect
      again on any run, unless it is sent anew or a live entry of another track shares its id. */
  lemma CancelledActionsStayUndone(w: World, s: Robot, dt: Span, now: real, events: seq<Event>, id: string)
    requires s.mode.cancel.Some? && !s.mode.hibernating
    requires var t := Tick(w, s, dt, now); LiveCount(t.book.instant, id) == 0 && LiveCount(t.book.zone, id) == 0
    requires SpawnCount(Run(w, Tick(w, s, dt, now), events).hist.actions.spawned, id)
          == SpawnCount(s.hist.actions.spawned, id)
    ensures EffectCount(Run(w, Tick(w, s, dt, now), events).hist.actions.effects, id)
         == EffectCount(s.hist.actions.effects, id)
  {
    hide Tick, Step, EffectCount, SpawnCount;
    var t := Tick(w, s, dt, now);
    CancelClearsOrder(w, s, dt, now);
    CancelSpawnsNothing(w, s, dt, now);
    EffectsAtMostOnce(w, t, events, id);
    EffectsNeverUndone(w, t, events, id);
  }

  lemma CancelSpawnsNothing(w: World, s: Robot, dt: Span, now: real)
    requires s.mode.cancel.Some? && !s.mode.hibernating
    ensures Tick(w, s, dt, now).hist.actions.spawned == s.hist.actions.spawned
  {
  }

  lemma EffectCountGrows(w: World, s: Robot, op: Op, id: string)
    requires Enabled(w, s, op)
    ensures EffectCount(Apply(w, s, op).hist.actions.effects, id) >= EffectCount(s.hist.actions.effects, id)
  {
    hide ActionEnabled, ApplyAction, OrderEnabled, ApplyOrder, MoveEnabled, ApplyMove, TrafficEnabled, ApplyTraffic,
      UnitEnabled, ApplyUnit;
    match op
    case OnAction(a) => ActionEffectsGrow(w, s, a);
    case OnOrder(o) => OrderFrame(s, o);
    case OnMove(m) => MoveFrame(w, s, m);
    case OnTraffic(t) => TrafficFrame(w, s, t);
    case OnUnit(u) => UnitFrame(w, s, u);
  }

  lemma ActionEffectsGrow(w: World, s: Robot, op: ActionOp)
    requires ActionEnabled(w, s, op)
    ensures var a, b := s.hist.actions.effects, ApplyAction(w, s, op).hist.actions.effects;
            b == a || (|b| == |a| + 1 && b[..|b| - 1] == a)
  {
    hide ApplyEffect, SetStatus, Append, FlipAll, Landing, Live, LiveId, Due, FitsTrack, Active, Idle;
    if op.Completing? { LandingHolds(s, op.spot, s.book.registry[At(s.book, op.spot).id]); }
  }

  lemma EffectsNeverUndone(w: World, s: Robot, events: seq<Event>, id: string)
    ensures EffectCount(Run(w, s, events).hist.actions.effects, id) >= EffectCount(s.hist.actions.effects, id)
  {
    hide EffectCount;
    var inv := (r: Robot) => EffectCount(r.hist.actions.effects, id) >= EffectCount(s.hist.actions.effects, id);
    forall r: Robot, op: Op ensures Keeps(w, inv)(r, op) {
      if inv(r) && Enabled(w, r, op) { EffectCountGrows(w, r, op, id); }
    }
    RunInduction(w, inv, s, events);
  }

  // ---- whose order a cancellation ends ------------------------------------------------------

  /** Relative to `a`, for as long as no cancellation has been carried out: with no order taken anew,
      the order is still that of `a` until a startHibernation ends it, and there is none from then on;
      and otherwise the order, if there is one, is the last one taken. */
  ghost predicate OrderPasses(a: Robot, b: Robot) {
    && b.hist.orders.cancels >= a.hist.orders.cancels && b.hist.orders.hibernations >= a.hist.orders.hibernations
    && |b.hist.orders.taken| >= |a.hist.orders.taken|
    && b.hist.orders.taken[..|a.hist.orders.taken|] == a.hist.orders.taken
    && (b.hist.orders.cancels == a.hist.orders.cancels ==>
          if |b.hist.orders.taken| > |a.hist.orders.taken| then
            b.task.orderId == "" || b.task.orderId == b.hist.orders.taken[|b.hist.orders.taken| - 1]
          else if b.hist.orders.hibernations > a.hist.orders.hibernations then b.task.orderId == ""
          else b.task.orderId == a.task.orderId)
  }

  lemma OrderPassesKept(w: World, a: Robot, b: Robot, op: Op)
    requires OrderPasses(a, b) && Enabled(w, b, op)
    ensures OrderPasses(a, Apply(w, b, op))
  {
    hide ActionEnabled, ApplyAction, MoveEnabled, ApplyMove, TrafficEnabled, ApplyTraffic, UnitEnabled, ApplyUnit, Idle,
      SetStatus;
    CountersAfter(w, b, op);
    match op
    case OnAction(x) => ActionFrame(w, b, x);
    case OnOrder(o) =>
    case OnMove(m) => MoveFrame(w, b, m);
    case OnTraffic(t) => TrafficFrame(w, b, t);
    case OnUnit(u) => UnitFrame(w, b, u);
  }

  lemma OrderAlwaysPasses(w: World, s: Robot, events: seq<Event>)
    ensures OrderPasses(s, Run(w, s, events))
  {
    hide OrderPasses;
    PassesToItself(s);
    var inv := (r: Robot) => OrderPasses(s, r);
    forall r: Robot, op: Op ensures Keeps(w, inv)(r, op) {
      if inv(r) && Enabled(w, r, op) { OrderPassesKept(w, s, r, op); }
    }
    RunInduction(w, inv, s, events);
  }

  lemma PassesToItself(s: Robot)
    ensures OrderPasses(s, s)
  {
    assert s.hist.orders.taken[..|s.hist.orders.taken|] == s.hist.orders.taken;
  }

  /** Whether the message is taken as a new order, rather than as an update. */
  predicate TakesAnew(s: Robot, o: Order) {
    Takes(s, o) && !Continues(s, o)
  }

  /** Whether one of the instant actions is a startHibernation that finds the robot awake. */
  ghost predicate PutsToSleep(w: World, s: Robot, actions: seq<Action>)
    decreases |actions|
  {
    && actions != []
    && ((actions[0].kind.StartHibernation? && !s.mode.hibernating)
        || PutsToSleep(w, HandleInstantAction(w, s, actions[0]), actions[1..]))
  }

  /** Whether the event takes a new order or puts the robot to sleep. */
  ghost predicate Disowns(w: World, s: Robot, e: Event) {
    match e
    case OrderMessage(o) => TakesAnew(s, o)
    case InstantActionsMessage(actions) => PutsToSleep(w, s, actions)
    case _ => false
  }

  ghost predicate Disowned(w: World, s: Robot, events: seq<Event>)
    decreases |events|
  {
    events != [] && (Disowns(w, s, events[0]) || Disowned(w, Step(w, s, events[0]), events[1..]))
  }

  predicate SameMarks(s: Robot, r: Robot) {
    r.hist.orders.taken == s.hist.orders.taken && r.hist.orders.hibernations == s.hist.orders.hibernations
  }

  predicate MoreMarks(s: Robot, r: Robot) {
    |r.hist.orders.taken| >= |s.hist.orders.taken| && r.hist.orders.hibernations >= s.hist.orders.hibernations
    && (|r.hist.orders.taken| > |s.hist.orders.taken| || r.hist.orders.hibernations > s.hist.orders.hibernations)
  }

  lemma {:induction false} RegistrationMarks(w: World, s: Robot, actions: seq<Action>, scope: Scope)
    ensures SameMarks(s, RegisterAll(w, s, actions, scope))
    decreases |actions|
  {
    hide LiveId, Ids;
    if actions != [] {
      var t := if actions[0].id in Ids(s.book.order) then s else RegisterOrderAction(w, s, actions[0], scope);
      RegistrationMarks(w, t, actions[1..], scope);
    }
  }

  lemma OrderMarks(w: World, s: Robot, o: Order)
    ensures var r := HandleOrder(w, s, o);
            if TakesAnew(s, o) then MoreMarks(s, r) else SameMarks(s, r)
  {
    hide RegisterAll, UnknownMaps, Idle, Free;
    IdleIsFree(s);
    IdleIgnoresErrors(s, o);
    var c, isUpdate := WarnUnknownMaps(s, o), Continues(s, o);
    var t := TakeOrder(c, o, isUpdate);
    RegistrationMarks(w, t, NodeActions(o.nodes), NodeScope);
    RegistrationMarks(w, RegisterAll(w, t, NodeActions(o.nodes), NodeScope), EdgeActions(o.edges), EdgeScope);
  }

  lemma CommandMarks(w: World, s: Robot, a: Action)
    ensures var r := HandleInstantAction(w, s, a);
            if a.kind.StartHibernation? && !s.mode.hibernating then MoreMarks(s, r) else SameMarks(s, r)
  {
    hide CarryOut;
    if ScopeAllowed(a.kind, InstantScope) { CarriedOutMarks(w, s, a); }
  }

  lemma CarriedOutMarks(w: World, s: Robot, a: Action)
    requires ScopeAllowed(a.kind, InstantScope)
    ensures if a.kind.StartHibernation? then MoreMarks(s, CarryOut(w, s, a)) else SameMarks(s, CarryOut(w, s, a))
  {
    hide Append, SetStatus, FlipAll, Forget, Command, LiveId, Idle, HasZoneSet, MapKey, Text, Lookup;
    ForgettingMarks(s);
    if a.kind.Retry? || a.kind.SkipRetry? || a.kind.Trigger? { CommandedMarks(s, a); }
  }

  lemma CommandedMarks(s: Robot, a: Action)
    requires a.kind.Retry? || a.kind.SkipRetry? || a.kind.Trigger?
    ensures SameMarks(s, Command(s, a))
  {
    hide SetStatus, FindTracked, OldestWaiter, Lookup, Append;
  }

  lemma ForgettingMarks(s: Robot)
    ensures forall t: Track :: Forget(s, t).hist == s.hist
  {
  }

  lemma {:induction false} CommandsMarks(w: World, s: Robot, actions: seq<Action>)
    ensures var r := HandleInstantActions(w, s, actions);
            if PutsToSleep(w, s, actions) then MoreMarks(s, r) else SameMarks(s, r)
    decreases |actions|
  {
    hide HandleInstantAction;
    if actions != [] {
      CommandMarks(w, s, actions[0]);
      CommandsMarks(w, HandleInstantAction(w, s, actions[0]), actions[1..]);
    }
  }

  lemma {:induction false} ResponsesMarks(s: Robot, responses: seq<Response>)
    ensures SameMarks(s, HandleResponses(s, responses))
    decreases |responses|
  {
    hide AnswerZones, AnswerEdges, KnownRequest;
    if responses != [] { ResponsesMarks(ApplyResponse(s, responses[0]), responses[1..]); }
  }

  lemma TickMarks(w: World, s: Robot, dt: Span, now: real)
    ensures SameMarks(s, Tick(w, s, dt, now))
  {
    hide Prepare, Move, SetStatus, FirstIndex;
    var c := UpdateCharging(w, s, dt);
    PrepareFrame(w, c, dt, now);
    MoveKeepsBook(w, Prepare(w, c, dt, now), dt);
  }

  lemma FaultMarks(w: World, s: Robot, dt: Span, draws: Draws)
    ensures SameMarks(s, MaybeInjectFault(w, s, dt, draws))
  {
    hide UpdateField, UpdateOperatingMode, UpdateStop, FirstRetriable, SetStatus;
  }

  lemma EventMarks(w: World, s: Robot, e: Event)
    ensures if Disowns(w, s, e) then MoreMarks(s, Step(w, s, e)) else SameMarks(s, Step(w, s, e))
  {
    hide HandleOrder, HandleInstantActions, HandleResponses, Tick, MaybeInjectFault, TakesAnew, PutsToSleep;
    match e
    case OrderMessage(o) => OrderMarks(w, s, o);
    case InstantActionsMessage(actions) => CommandsMarks(w, s, actions);
    case ResponsesMessage(responses) => ResponsesMarks(s, responses);
    case Beat(dt, now, draws) =>
      TickMarks(w, s, dt, now);
      FaultMarks(w, Tick(w, s, dt, now), dt, draws);
    case _ =>
  }

  lemma {:induction false} RunMarks(w: World, s: Robot, events: seq<Event>)
    ensures if Disowned(w, s, events) then MoreMarks(s, Run(w, s, events)) else SameMarks(s, Run(w, s, events))
    decreases |events|
  {
    hide Step, Disowns;
    if events != [] {
      EventMarks(w, s, events[0]);
      RunMarks(w, Step(w, s, events[0]), events[1..]);
    }
  }

  /** The order of `a` is still the order of `b`: same id, and none taken anew since. */
  predicate StillTheOrder(a: Robot, b: Robot) {
    b.task.orderId == a.task.orderId && b.hist.orders.taken == a.hist.orders.taken
  }

  /** Exactly when a cancellation ends its own order. Let a cancellation be pending for the active
      order, and not yet carried out at the end of a run. It still is pending then, and the next tick
      of an awake robot clears what order there is; and that is the order it was meant for if and only
      if no order message was taken as a new order, and no startHibernation found the robot awake, in
      the meantime. Otherwise it is none, or the last order taken. */
  lemma CancelEndsItsOwnOrderIff(w: World, s: Robot, events: seq<Event>, dt: Span, now: real)
    requires s.mode.cancel.Some? && s.task.orderId != ""
    requires Run(w, s, events).hist.orders.cancels == s.hist.orders.cancels && !Run(w, s, events).mode.hibernating
    ensures var b := Run(w, s, events);
            && (StillTheOrder(s, b) <==> !Disowned(w, s, events))
            && (Disowned(w, s, events) ==>
                  b.task.orderId == ""
                  || (|b.hist.orders.taken| > |s.hist.orders.taken|
                      && b.task.orderId == b.hist.orders.taken[|b.hist.orders.taken| - 1]))
            && b.mode.cancel.Some?
            && var c := Tick(w, b, dt, now);
               c.task.orderId == "" && c.task.nodes == [] && c.book.order == [] && c.mode.cancel.None?
  {
    hide Step, Tick, Disowned;
    var b := Run(w, s, events);
    PendingCancelWaits(w, s, events);
    OrderAlwaysPasses(w, s, events);
    RunMarks(w, s, events);
    assert b.hist.orders.taken[..|s.hist.orders.taken|] == s.hist.orders.taken;
    if |b.hist.orders.taken| == |s.hist.orders.taken| {
      assert b.hist.orders.taken == b.hist.orders.taken[..|s.hist.orders.taken|];
    }
    CancelClearsOrder(w, b, dt, now);
  }

  // ---- two ways to the wrong order -----------------------------------------------------------

  lemma TwoEvents(w: World, s: Robot, d: Event, e: Event)
    ensures Run(w, s, [d, e]) == Step(w, Step(w, s, d), e)
  {
    hide Step;
    var events := [d, e];
    var a := Step(w, s, d);
    assert events[1..] == [e] && [e][1..] == [];
    assert Run(w, Step(w, a, e), []) == Step(w, a, e);
    assert Run(w, a, [e]) == Run(w, Step(w, a, e), [e][1..]);
  }

  lemma TwoActions(w: World, s: Robot, a: Action, b: Action)
    ensures HandleInstantActions(w, s, [a, b]) == HandleInstantAction(w, HandleInstantAction(w, s, a), b)
  {
    hide HandleInstantAction;
    var r := HandleInstantAction(w, s, a);
    assert [a, b][1..] == [b] && [b][1..] == [];
    assert HandleInstantActions(w, HandleInstantAction(w, r, b), []) == HandleInstantAction(w, r, b);
    assert HandleInstantActions(w, r, [b]) == HandleInstantActions(w, HandleInstantAction(w, r, b), [b][1..]);
  }

  /** An idle robot with a cancellation pending takes a new order, and the next tick clears it. */
  lemma NewOrderIsHit(w: World, s: Robot, o: Order, dt: Span, now: real)
    requires s.mode.cancel.Some? && !s.mode.hibernating && Idle(s) && o.orderId != s.task.orderId && o.orderId != ""
    ensures var r := HandleOrder(w, s, o);
            && r.task.orderId == o.orderId && r.task.nodes == o.nodes
            && Tick(w, r, dt, now).task.orderId == "" && Tick(w, r, dt, now).task.nodes == []
  {
    hide AcceptOrder, Tick, UnknownMaps, Idle;
    var c := WarnUnknownMaps(s, o);
    IdleIgnoresErrors(s, o);
    AcceptedOrder(w, c, o, false);
    AcceptedKeepsMode(w, c, o);
    CancelClearsOrder(w, HandleOrder(w, s, o), dt, now);
  }

  /** For instance: a message that cancels the order and starts hibernation, one that ends it again and
      a new order, all before the next tick; that tick clears the new order. */
  lemma HibernationMisleadsCancellation(w: World, s: Robot, cancel: Action, sleep: Action, wake: Action, o: Order,
                                        dt: Span, now: real)
    requires !s.mode.hibernating && s.task.orderId != "" && !Idle(s) && o.orderId != ""
    requires cancel.kind.CancelOrder? && sleep.kind.StartHibernation? && wake.kind.StopHibernation?
    ensures var a := Run(w, s, [InstantActionsMessage([cancel, sleep]), InstantActionsMessage([wake])]);
            var r := HandleOrder(w, a, o);
            && r.task.orderId == o.orderId && r.task.nodes == o.nodes
            && Tick(w, r, dt, now).task.orderId == "" && Tick(w, r, dt, now).task.nodes == []
  {
    hide HandleOrder, Tick, HandleInstantAction, AskCancel, Idle;
    TwoEvents(w, s, InstantActionsMessage([cancel, sleep]), InstantActionsMessage([wake]));
    TwoActions(w, s, cancel, sleep);
    var asked := HandleInstantAction(w, s, cancel);
    CancelIsAsked(w, s, cancel);
    var asleep := HandleInstantAction(w, asked, sleep);
    SleepingIsIdle(w, asked, sleep);
    var awake := HandleInstantAction(w, asleep, wake);
    assert HandleInstantActions(w, asleep, [wake]) == awake by { assert [wake][1..] == []; }
    WakingKeepsIdle(w, asleep, wake);
    NewOrderIsHit(w, awake, o, dt, now);
  }

  lemma CancelIsAsked(w: World, s: Robot, cancel: Action)
    requires cancel.kind.CancelOrder? && !s.mode.hibernating && s.task.orderId != "" && !Idle(s)
    ensures var r := HandleInstantAction(w, s, cancel);
            && r.task == s.task && r.book.order == s.book.order
            && r.mode == s.mode.(cancel := Some(cancel.id))
  {
    hide Idle;
  }

  lemma SleepingIsIdle(w: World, s: Robot, sleep: Action)
    requires sleep.kind.StartHibernation? && !s.mode.hibernating
    ensures var r := HandleInstantAction(w, s, sleep);
            Idle(r) && r.task.orderId == "" && r.mode.cancel == s.mode.cancel && r.mode.hibernating
  {
  }

  lemma WakingKeepsIdle(w: World, s: Robot, wake: Action)
    requires wake.kind.StopHibernation? && Idle(s)
    ensures var r := HandleInstantAction(w, s, wake);
            Idle(r) && r.task.orderId == s.task.orderId && r.mode.cancel == s.mode.cancel && !r.mode.hibernating
  {
  }

  /** For instance, without hibernation: with the graph used up and one order action still running, a
      message that cancels the order and triggers that action, and a new order, before the next tick;
      that tick clears the new order. */
  lemma TriggerMisleadsCancellation(w: World, s: Robot, cancel: Action, trigger: Action, named: Param, o: Order,
                                    dt: Span, now: real)
    requires !s.mode.hibernating && !VersionBelow(w.cfg.version, (3, 0))
    requires s.task.orderId != "" && s.task.nodes == [] && s.task.edges == [] && !s.task.driving
    requires |s.book.order| == 1 && s.book.order[0].status.Running?
    requires cancel.kind.CancelOrder? && trigger.kind.Trigger?
    requires Lookup(trigger.params, "actionId") == Some(named) && named.truthy && named.text == s.book.order[0].id
    requires o.orderId != s.task.orderId && o.orderId != ""
    ensures var a := HandleInstantActions(w, s, [cancel, trigger]);
            var r := HandleOrder(w, a, o);
            && r.task.orderId == o.orderId && r.task.nodes == o.nodes
            && Tick(w, r, dt, now).task.orderId == "" && Tick(w, r, dt, now).task.nodes == []
  {
    hide HandleOrder, Tick, HandleInstantAction, AskCancel;
    TwoActions(w, s, cancel, trigger);
    assert s.book.order[0] in s.book.order && !Idle(s);
    var asked := HandleInstantAction(w, s, cancel);
    CancelIsAsked(w, s, cancel);
    TriggeringIsIdle(w, asked, trigger, named);
    NewOrderIsHit(w, HandleInstantAction(w, asked, trigger), o, dt, now);
  }

  lemma TriggeringIsIdle(w: World, s: Robot, trigger: Action, named: Param)
    requires !s.mode.hibernating && !VersionBelow(w.cfg.version, (3, 0)) && trigger.kind.Trigger?
    requires s.task.nodes == [] && s.task.edges == [] && !s.task.driving && |s.book.order| == 1
    requires Lookup(trigger.params, "actionId") == Some(named) && named.truthy && named.text == s.book.order[0].id
    ensures var r := HandleInstantAction(w, s, trigger);
            Idle(r) && r.task == s.task && r.mode == s.mode
  {
    hide Lookup;
    IsFirstEntry(s.book.order, named.text);
    assert FindTracked(s.book, named.text) == Some(Spot(OrderTrack, 0));
  }

  lemma IsFirstEntry(es: seq<Entry>, id: string)
    requires |es| > 0 && es[0].id == id
    ensures FirstIndex(es, (e: Entry) => e.id == id) == 0
  {
  }
}
