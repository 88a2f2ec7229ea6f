/** What an accepted instant action does, kind by kind; and how long a startPause lasts. */
module Commands {
  import opened Vda5050
  import opened Platform
  import opened ActionCatalog
  import opened RobotState
  import opened Transitions
  import opened OrderRules
  import opened TrafficControl
  import Registration

  // ---- what changes ---------------------------------------------------------------------

  /** The last of the parameters with a key counts. */
  lemma {:induction false} LastParameterCounts(params: seq<Param>, key: string)
    ensures match Lookup(params, key)
            case None => forall i: nat :: i < |params| ==> params[i].key != key
            case Some(p) => exists i: nat :: i < |params| && params[i] == p && p.key == key
                                             && forall j: nat :: i < j < |params| ==> params[j].key != key
    decreases |params|
  {
    if params != [] && params[|params| - 1].key != key {
      var init := params[..|params| - 1];
      LastParameterCounts(init, key);
      assert forall i: nat :: i < |init| ==> init[i] == params[i];
      if Lookup(init, key).Some? {
        var i: nat :| i < |init| && init[i] == Lookup(init, key).value
                      && forall j: nat :: i < j < |init| ==> init[j].key != key;
        assert params[i] == Lookup(params, key).value;
      }
    }
  }

  /** `fs` is `es` with status `from` turned into `into`. */
  predicate Turned(es: seq<Entry>, fs: seq<Entry>, from: Status, into: Status) {
    |fs| == |es|
    && forall i: nat :: i < |es| ==> fs[i] == if es[i].status == from then Entry(es[i].id, es[i].kind, into) else es[i]
  }

  /** `fs` is `es` without what is FINISHED or FAILED, in order. */
  predicate Unended(es: seq<Entry>, fs: seq<Entry>) {
    fs == Filter(es, (e: Entry) => e.status != Finished && e.status != Failed)
  }

  /** `fs` is `es` with the status at index `i` changed. */
  predicate Changed(es: seq<Entry>, fs: seq<Entry>, i: nat, status: Status)
    requires i < |es|
  {
    fs == es[i := Entry(es[i].id, es[i].kind, status)]
  }

  /** The book is as before, but for the lists of entries; the last instant entry is the reply. */
  predicate Answers(b: Book, r: Book, reply: Entry) {
    && r == b.(order := r.order, instant := r.instant, zone := r.zone)
    && r.instant != [] && r.instant[|r.instant| - 1] == reply
  }

  /** The instant entries before the reply. */
  function Before(r: Book): seq<Entry>
    requires r.instant != []
  {
    r.instant[..|r.instant| - 1]
  }

  predicate OnlyReply(b: Book, r: Book, reply: Entry) {
    Answers(b, r, reply) && r.order == b.order && Before(r) == b.instant && r.zone == b.zone
  }

  predicate AllTurned(b: Book, r: Book, from: Status, into: Status, reply: Entry) {
    && Answers(b, r, reply)
    && Turned(b.order, r.order, from, into) && Turned(b.instant, Before(r), from, into)
    && Turned(b.zone, r.zone, from, into)
  }

  /** The first entry of an id: among those of the order, else the instant ones, else those of the zones. */
  predicate FirstTracked(b: Book, id: string, p: Spot) {
    && Valid(b, p) && At(b, p).id == id
    && (forall k: nat :: k < p.index ==> Entries(b, p.track)[k].id != id)
    && (!p.track.OrderTrack? ==> forall e :: e in b.order ==> e.id != id)
    && (p.track.ZoneTrack? ==> forall e :: e in b.instant ==> e.id != id)
  }

  /** The oldest running waitForTrigger: among those of the order, else those of the zones. */
  predicate OldestRunning(b: Book, p: Spot) {
    && Valid(b, p) && !p.track.InstantTrack? && Waits(b, At(b, p))
    && (forall k: nat :: k < p.index ==> !Waits(b, Entries(b, p.track)[k]))
    && (p.track.ZoneTrack? ==> forall e :: e in b.order ==> !Waits(b, e))
  }

  predicate Waits(b: Book, e: Entry) {
    e.status == Running && e.id in b.registry && b.registry[e.id].kind == WaitForTrigger
  }

  /** Of all entries only the one at `p` has changed, to `status`; and the reply has come. */
  predicate OneChanged(b: Book, r: Book, p: Spot, status: Status, reply: Entry)
    requires Valid(b, p)
  {
    && r.instant != [] && r.instant[|r.instant| - 1] == reply
    && r == b.(order := r.order, instant := r.instant, zone := r.zone, startedAt := r.startedAt)
    && (if p.track.OrderTrack? then Changed(b.order, r.order, p.index, status) else r.order == b.order)
    && (if p.track.InstantTrack? then Changed(b.instant, Before(r), p.index, status) else Before(r) == b.instant)
    && (if p.track.ZoneTrack? then Changed(b.zone, r.zone, p.index, status) else r.zone == b.zone)
  }

  /** The text of the wake-up time, if one is given that counts as set. */
  function WakeTime(a: Action): Option<string> {
    match Lookup(a.params, "wakeUpTime")
    case Some(p) => if p.truthy then Some(p.text) else None
    case None => None
  }

  /** The order is gone: no graph, no entries, no requests. */
  predicate OrderGone(s: Robot, r: Robot) {
    && r.task == Task("", 0, None, [], [], s.task.lastNodeId, s.task.lastSeq, false, false)
    && r.book.order == [] && r.traffic == Traffic([], [], s.traffic.leases)
  }

  /** What each kind of accepted instant action makes of `s`, history apart. */
  ghost predicate CarriesOut(s: Robot, r: Robot, a: Action) {
    var b, c, done := s.book, r.book, Entry(a.id, a.kind, Finished);
    match a.kind
    case StartPause => r == s.(mode := s.mode.(paused := true), book := c) && AllTurned(b, c, Running, Paused, done)
    case StopPause => r == s.(mode := s.mode.(paused := false), book := c) && AllTurned(b, c, Paused, Running, done)
    case FactsheetRequest => r == s.(factsheetRequested := true, book := c) && OnlyReply(b, c, done)
    case StateRequest | LogReport => r == s.(book := c) && OnlyReply(b, c, done)
    case ClearInstantActions =>
      r == s.(book := c) && Answers(b, c, done) && c.order == b.order && c.zone == b.zone
      && Unended(b.instant, Before(c))
    case ClearZoneActions =>
      r == s.(book := c) && Answers(b, c, done) && c.order == b.order && Before(c) == b.instant
      && Unended(b.zone, c.zone)
    case StartHibernation =>
      r == s.(mode := s.mode.(hibernating := true, wakeUpAt := WakeTime(a)), book := c, task := r.task,
              traffic := r.traffic, hist := r.hist)
      && OrderGone(s, r) && Answers(b, c, done) && Before(c) == b.instant && c.zone == b.zone
    case StopHibernation =>
      r == s.(mode := s.mode.(hibernating := false, wakeUpAt := None), book := c) && OnlyReply(b, c, done)
    case Shutdown => r == s.(mode := s.mode.(shutdownRequested := true), book := c) && OnlyReply(b, c, done)
    case Retry =>
      r == s.(book := c, hist := r.hist) && c.startedAt == b.startedAt - {Text(a, "actionId")}
      && exists p :: FirstTracked(b, Text(a, "actionId"), p) && At(b, p).status == Retriable
                     && OneChanged(b, c, p, Waiting, done)
    case SkipRetry =>
      r == s.(book := c, hist := r.hist) && c.startedAt == b.startedAt
      && exists p :: FirstTracked(b, Text(a, "actionId"), p) && At(b, p).status == Retriable
                     && OneChanged(b, c, p, Failed, done)
    case Trigger =>
      r == s.(book := c, hist := r.hist) && c.startedAt == b.startedAt
      && exists p :: Valid(b, p) && OneChanged(b, c, p, Finished, done)
                     && if NamesTracked(b, a) then FirstTracked(b, Text(a, "actionId"), p) else OldestRunning(b, p)
    case CancelOrder =>
      r == s.(mode := s.mode.(cancel := Some(a.id)), book := c, hist := r.hist)
      && OnlyReply(b, c, Entry(a.id, a.kind, Running))
    case _ =>
      r == s.(book := c, hist := r.hist)
      && OnlyReply(b, c.(registry := b.registry), Entry(a.id, a.kind, Waiting)) && c.registry == b.registry[a.id := a]
  }

  // ---- they are carried out -----------------------------------------------------------------

  lemma RepliedLast(b: Book, e: Entry)
    ensures var r := Append(b, InstantTrack, e);
            r.instant != [] && Before(r) == b.instant && OnlyReply(b, r, e)
  {
  }

  lemma PausingTurns(s: Robot, a: Action)
    ensures a.kind.StartPause? ==> CarriesOut(s, Acknowledge(SetPaused(s, true), a), a)
    ensures a.kind.StopPause? ==> CarriesOut(s, Acknowledge(SetPaused(s, false), a), a)
  {
    var p, u := SetPaused(s, true), SetPaused(s, false);
    RepliedLast(p.book, Entry(a.id, a.kind, Finished));
    RepliedLast(u.book, Entry(a.id, a.kind, Finished));
  }

  lemma InstantClearingLeaves(s: Robot, a: Action)
    requires a.kind.ClearInstantActions?
    ensures CarriesOut(s, Acknowledge(Forget(s, InstantTrack), a), a)
  {
    hide Unended, Live, Append;
    RepliedLast(Forget(s, InstantTrack).book, Entry(a.id, a.kind, Finished));
    LiveIsUnended(s.book.instant);
  }

  lemma ZoneClearingLeaves(s: Robot, a: Action)
    requires a.kind.ClearZoneActions?
    ensures CarriesOut(s, Acknowledge(Forget(s, ZoneTrack), a), a)
  {
    hide Unended, Live, Append;
    RepliedLast(Forget(s, ZoneTrack).book, Entry(a.id, a.kind, Finished));
    LiveIsUnended(s.book.zone);
  }

  lemma LiveIsUnended(es: seq<Entry>)
    ensures Unended(es, Live(es))
  {
    Registration.SameFilter(es, (e: Entry) => !e.status.Terminal(),
      (e: Entry) => e.status != Finished && e.status != Failed);
  }

  lemma FlagsSet(s: Robot, a: Action)
    ensures a.kind.FactsheetRequest? ==> CarriesOut(s, Acknowledge(s.(factsheetRequested := true), a), a)
    ensures a.kind.StateRequest? || a.kind.LogReport? ==> CarriesOut(s, Acknowledge(s, a), a)
    ensures a.kind.Shutdown? ==> CarriesOut(s, Acknowledge(s.(mode := s.mode.(shutdownRequested := true)), a), a)
    ensures a.kind.CancelOrder? ==> CarriesOut(s, AskCancel(s, a), a)
  {
    hide Append;
    RepliedLast(s.book, Entry(a.id, a.kind, Finished));
    RepliedLast(s.book, Entry(a.id, a.kind, Running));
  }

  lemma SleepBeginsAndEnds(s: Robot, a: Action)
    ensures a.kind.StartHibernation? ==> CarriesOut(s, Acknowledge(Hibernate(AbandonOrder(s), a), a), a)
    ensures a.kind.StopHibernation? ==> CarriesOut(s, Acknowledge(WakeUp(s), a), a)
  {
    hide Lookup, Append;
    RepliedLast(s.book, Entry(a.id, a.kind, Finished));
    RepliedLast(AbandonOrder(s).book, Entry(a.id, a.kind, Finished));
  }

  lemma TimedWaits(s: Robot, a: Action)
    requires ScopeAllowed(a.kind, InstantScope) && !OnReceipt(a.kind)
    ensures CarriesOut(s, Spawn(s, InstantTrack, a), a)
  {
    hide LiveId;
    RepliedLast(s.book, Entry(a.id, a.kind, Waiting));
  }

  predicate OnReceipt(kind: ActionKind) {
    kind in {StartPause, StopPause, FactsheetRequest, StateRequest, LogReport, ClearInstantActions, ClearZoneActions,
             StartHibernation, StopHibernation, Shutdown, Retry, SkipRetry, Trigger, CancelOrder}
  }

  lemma TrackedIsFirst(b: Book, id: string)
    ensures var p := FindTracked(b, id);
            p.Some? ==> FirstTracked(b, id, p.value)
  {
    var i := FirstIndex(b.order, (e: Entry) => e.id == id);
    var j := FirstIndex(b.instant, (e: Entry) => e.id == id);
  }

  lemma WaiterIsOldest(b: Book)
    ensures var p := OldestWaiter(b);
            p.Some? ==> OldestRunning(b, p.value)
  {
    var waits := (e: Entry) => RunsAs(b, e, (a: Action) => a.kind.WaitForTrigger?);
    assert forall e :: waits(e) <==> Waits(b, e);
  }

  lemma OneIsChanged(b: Book, p: Spot, status: Status, reply: Entry)
    requires Valid(b, p)
    ensures OneChanged(b, Append(SetStatus(b, p, status), InstantTrack, reply), p, status, reply)
  {
    RepliedLast(SetStatus(b, p, status), reply);
  }

  lemma RetryActsOn(s: Robot, a: Action)
    requires a.kind.Retry? && NamesRetriable(s.book, a)
    ensures CarriesOut(s, Command(s, a), a)
  {
    hide SetStatus, Append, FirstTracked, OneChanged, FindTracked, Text;
    var p := FindTracked(s.book, Text(a, "actionId")).value;
    TrackedIsFirst(s.book, Text(a, "actionId"));
    RetriedStart(s.book, p, Entry(a.id, a.kind, Finished));
  }

  lemma SkipRetryActsOn(s: Robot, a: Action)
    requires a.kind.SkipRetry? && NamesRetriable(s.book, a)
    ensures CarriesOut(s, Command(s, a), a)
  {
    hide SetStatus, Append, FirstTracked, OneChanged, FindTracked, Text;
    var p := FindTracked(s.book, Text(a, "actionId")).value;
    TrackedIsFirst(s.book, Text(a, "actionId"));
    OneIsChanged(s.book, p, Failed, Entry(a.id, a.kind, Finished));
  }

  lemma TriggersActOn(s: Robot, a: Action)
    requires a.kind.Trigger? && (NamesTracked(s.book, a) || SomeWaiterRuns(s.book))
    ensures CarriesOut(s, Command(s, a), a)
  {
    hide SetStatus, Append, FirstTracked, OldestRunning, OneChanged, TriggerTarget, NamesTracked, SomeWaiterRuns, Text;
    TriggerFits(s.book, a);
    TriggerActsOn(s.book, a);
    OneIsChanged(s.book, TriggerTarget(s.book, a).value, Finished, Entry(a.id, a.kind, Finished));
  }

  lemma RetriedStart(b: Book, p: Spot, reply: Entry)
    requires Valid(b, p)
    ensures var c := b.startedAt - {At(b, p).id};
            OneChanged(b, Append(SetStatus(b, p, Waiting).(startedAt := c), InstantTrack, reply), p, Waiting, reply)
  {
    OneIsChanged(b, p, Waiting, reply);
  }

  lemma TriggerActsOn(b: Book, a: Action)
    requires TriggerTarget(b, a).Some?
    ensures var p := TriggerTarget(b, a).value;
            if NamesTracked(b, a) then FirstTracked(b, Text(a, "actionId"), p) else OldestRunning(b, p)
  {
    hide FindTracked, OldestWaiter, FirstTracked, OldestRunning, Lookup;
    TrackedIsFirst(b, Text(a, "actionId"));
    TrackedIsFound(b, Text(a, "actionId"));
    WaiterIsOldest(b);
  }

  /** An instant action that the robot does not sleep through and has no reason to refuse is carried out:
      each kind changes exactly what it is for, and the last instant entry replies. */
  lemma InstantOutcome(w: World, s: Robot, a: Action)
    requires !SleepsThrough(w, s, a) && !Unfit(w, s, a)
    ensures CarriesOut(s, HandleInstantAction(w, s, a), a)
  {
    hide CarriesOut, Acknowledge, Spawn, AskCancel, SetPaused, Forget, AbandonOrder, Hibernate, WakeUp, Command, Idle,
      Free, HasZoneSet, MapKey, Text, NamesRetriable, NamesTracked, SomeWaiterRuns, RefuseInstant;
    IdleIsFree(s);
    PausingTurns(s, a);
    if a.kind.ClearInstantActions? { InstantClearingLeaves(s, a); }
    if a.kind.ClearZoneActions? { ZoneClearingLeaves(s, a); }
    FlagsSet(s, a);
    SleepBeginsAndEnds(s, a);
    if a.kind.Retry? {
      RetryActsOn(s, a);
    } else if a.kind.SkipRetry? {
      SkipRetryActsOn(s, a);
    } else if a.kind.Trigger? {
      TriggersActOn(s, a);
    } else if !OnReceipt(a.kind) {
      TimedWaits(s, a);
    }
  }

  // ---- how long a pause lasts ------------------------------------------------------------------

  /** Paused, with neither distance covered nor time used up nor anything taken effect; only the battery may
      have been charged. */
  predicate PauseHolds(s: Robot, r: Robot) {
    && r.mode.paused
    && r.hist.trip.odometer == s.hist.trip.odometer && r.book.clock == s.book.clock
    && r.pose == s.pose.(battery := r.pose.battery) && r.hist.actions.effects == s.hist.actions.effects
  }

  predicate Mentions(actions: seq<Action>, kind: ActionKind) {
    exists a :: a in actions && a.kind == kind
  }

  lemma CommandKeepsPause(w: World, s: Robot, a: Action)
    requires !a.kind.StopPause?
    ensures var r := HandleInstantAction(w, s, a);
            && r.hist.actions.effects == s.hist.actions.effects
            && (s.mode.paused || (a.kind.StartPause? && !s.mode.hibernating) ==> r.mode.paused)
            && (!s.mode.hibernating && !a.kind.StartHibernation? ==> !r.mode.hibernating)
  {
    hide CarryOut;
    if ScopeAllowed(a.kind, InstantScope) { CarryingOutKeepsPause(w, s, a); }
  }

  lemma CarryingOutKeepsPause(w: World, s: Robot, a: Action)
    requires !a.kind.StopPause? && ScopeAllowed(a.kind, InstantScope)
    ensures var r := CarryOut(w, s, a);
            && r.hist.actions.effects == s.hist.actions.effects
            && (s.mode.paused || a.kind.StartPause? ==> r.mode.paused)
            && (!s.mode.hibernating && !a.kind.StartHibernation? ==> !r.mode.hibernating)
  {
    hide Acknowledge, Spawn, AskCancel, SetPaused, Forget, AbandonOrder, Hibernate, WakeUp, Command, Idle, HasZoneSet,
      MapKey, Text, RefuseInstant;
    PartsKeepPause(s, a);
    RepliesKeepPause(a);
    if a.kind.Retry? || a.kind.SkipRetry? || a.kind.Trigger? { InterventionKeepsPause(s, a); }
  }

  lemma RepliesKeepPause(a: Action)
    ensures forall s: Robot :: Acknowledge(s, a).mode == s.mode
    ensures forall s: Robot :: Acknowledge(s, a).hist.actions.effects == s.hist.actions.effects
  {
    hide Append;
  }

  /** Neither mode nor effects differ, but for a cancellation that is asked for. */
  predicate SameCourse(s: Robot, r: Robot) {
    r.mode == s.mode.(cancel := r.mode.cancel) && r.hist.actions.effects == s.hist.actions.effects
  }

  lemma PartsKeepPause(s: Robot, a: Action)
    ensures SameCourse(s, Spawn(s, InstantTrack, a)) && SameCourse(s, AskCancel(s, a))
    ensures forall e: ErrorKind :: SameCourse(s, RefuseInstant(s, a, e))
    ensures SameCourse(s, Forget(s, InstantTrack)) && SameCourse(s, Forget(s, ZoneTrack))
    ensures SetPaused(s, true).mode == s.mode.(paused := true)
    ensures SetPaused(s, true).hist == s.hist && WakeUp(s).hist == s.hist
    ensures Hibernate(AbandonOrder(s), a).hist.actions == s.hist.actions
    ensures Hibernate(AbandonOrder(s), a).mode.paused == s.mode.paused == WakeUp(s).mode.paused
    ensures !WakeUp(s).mode.hibernating
  {
    hide Append, FlipAll, Live, LiveId, Lookup;
  }

  lemma InterventionKeepsPause(s: Robot, a: Action)
    requires a.kind.Retry? || a.kind.SkipRetry? || a.kind.Trigger?
    ensures SameCourse(s, Command(s, a))
  {
    hide SetStatus, RetriableTarget, TriggerTarget, Append;
  }

  lemma {:induction false} CommandsKeepPause(w: World, s: Robot, actions: seq<Action>)
    requires !Mentions(actions, StopPause)
    ensures var r := HandleInstantActions(w, s, actions);
            && r.hist.actions.effects == s.hist.actions.effects
            && (|| s.mode.paused
                || (!s.mode.hibernating && Mentions(actions, StartPause) && !Mentions(actions, StartHibernation))
                ==> r.mode.paused)
    decreases |actions|
  {
    hide HandleInstantAction;
    if actions != [] {
      assert actions[0] in actions && forall a :: a in actions <==> a == actions[0] || a in actions[1..];
      CommandKeepsPause(w, s, actions[0]);
      CommandsKeepPause(w, HandleInstantAction(w, s, actions[0]), actions[1..]);
    }
  }

  lemma OrdersKeepPause(w: World, s: Robot, o: Order)
    ensures var r := HandleOrder(w, s, o);
            r.mode == s.mode && r.hist.actions.effects == s.hist.actions.effects
  {
    hide AcceptOrder, UnknownMaps, Idle;
    AcceptingKeepsPause(w, WarnUnknownMaps(s, o), o, true);
    AcceptingKeepsPause(w, WarnUnknownMaps(s, o), o, false);
  }

  lemma AcceptingKeepsPause(w: World, s: Robot, o: Order, isUpdate: bool)
    ensures var r := AcceptOrder(w, s, o, isUpdate);
            r.mode == s.mode && r.hist.actions.effects == s.hist.actions.effects
  {
    hide RegisterAll;
    var t := TakeOrder(s, o, isUpdate);
    RegistrationHasNoEffect(w, t, NodeActions(o.nodes), NodeScope);
    RegistrationHasNoEffect(w, RegisterAll(w, t, NodeActions(o.nodes), NodeScope), EdgeActions(o.edges), EdgeScope);
  }

  lemma {:induction false} RegistrationHasNoEffect(w: World, s: Robot, actions: seq<Action>, scope: Scope)
    ensures var r := RegisterAll(w, s, actions, scope);
            r.mode == s.mode && r.hist.actions.effects == s.hist.actions.effects
    decreases |actions|
  {
    hide LiveId, Ids, Accepted;
    if actions != [] {
      var t := if actions[0].id in Ids(s.book.order) then s else RegisterOrderAction(w, s, actions[0], scope);
      RegistrationHasNoEffect(w, t, actions[1..], scope);
    }
  }

  lemma {:induction false} AnswersKeepPause(s: Robot, responses: seq<Response>)
    ensures var r := HandleResponses(s, responses);
            r.mode == s.mode && r.hist.actions.effects == s.hist.actions.effects
    decreases |responses|
  {
    hide AnswerZones, AnswerEdges, KnownRequest;
    if responses != [] { AnswersKeepPause(ApplyResponse(s, responses[0]), responses[1..]); }
  }

  lemma BeatsKeepPause(w: World, s: Robot, dt: Span, now: real, draws: Draws)
    requires s.mode.paused
    ensures PauseHolds(s, MaybeInjectFault(w, Tick(w, s, dt, now), dt, draws))
  {
    hide Tick, UpdateField, UpdateOperatingMode, UpdateStop, FirstRetriable, SetStatus;
    TicksKeepPause(w, s, dt, now);
  }

  lemma TicksKeepPause(w: World, s: Robot, dt: Span, now: real)
    requires s.mode.paused
    ensures PauseHolds(s, Tick(w, s, dt, now))
  {
    hide Prepare, Move, SetStatus, FirstIndex;
  }

  lemma EventKeepsPause(w: World, s: Robot, e: Event)
    requires s.mode.paused && (e.InstantActionsMessage? ==> !Mentions(e.actions, StopPause))
    ensures PauseHolds(s, Step(w, s, e))
  {
    hide HandleOrder, HandleInstantActions, HandleResponses, MaybeInjectFault, Tick, Mentions;
    if !e.Beat? { MessagesStand(w, s, e); }
    match e
    case OrderMessage(o) => OrdersKeepPause(w, s, o);
    case InstantActionsMessage(actions) => CommandsKeepPause(w, s, actions);
    case ResponsesMessage(responses) => AnswersKeepPause(s, responses);
    case Beat(dt, now, draws) => BeatsKeepPause(w, s, dt, now, draws);
    case _ =>
  }

  /** A paused robot stays paused, covers no distance, uses up no time of its actions and completes none, on
      every run without a stopPause. */
  lemma {:induction false} PausedUntilResumed(w: World, s: Robot, events: seq<Event>)
    requires s.mode.paused && forall e :: e in events && e.InstantActionsMessage? ==> !Mentions(e.actions, StopPause)
    ensures PauseHolds(s, Run(w, s, events))
    decreases |events|
  {
    hide Step, Mentions;
    if events != [] {
      assert events[0] in events && forall e :: e in events[1..] ==> e in events;
      EventKeepsPause(w, s, events[0]);
      PausedUntilResumed(w, Step(w, s, events[0]), events[1..]);
    }
  }

  /** From the message with a startPause on, sent to a robot that is awake, until one with a stopPause, the
      odometer and the clock of the actions stand still. */
  lemma StartPauseHolds(w: World, s: Robot, actions: seq<Action>, events: seq<Event>)
    requires !s.mode.hibernating && Mentions(actions, StartPause)
    requires !Mentions(actions, StopPause) && !Mentions(actions, StartHibernation)
    requires forall e :: e in events && e.InstantActionsMessage? ==> !Mentions(e.actions, StopPause)
    ensures PauseHolds(s, Run(w, HandleInstantActions(w, s, actions), events))
  {
    hide HandleInstantActions, Run, Mentions;
    CommandsKeepPause(w, s, actions);
    MessagesStand(w, s, InstantActionsMessage(actions));
    PausedUntilResumed(w, HandleInstantActions(w, s, actions), events);
  }
}
