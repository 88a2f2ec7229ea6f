/** Order messages and hibernation over whole runs. */
module OrderRules {
  import opened Vda5050
  import opened Platform
  import opened ActionCatalog
  import opened RobotState
  import opened Transitions

  // ---- acceptance -----------------------------------------------------------------

  /** Whether an order message is taken: the idle gate, and the update rule for the active order. */
  predicate Takes(s: Robot, o: Order) {
    && !s.mode.hibernating
    && if Continues(s, o) then o.updateId > s.task.updateId else Free(s)
  }

  /** Whether the order message is about the active order. */
  predicate Continues(s: Robot, o: Order) {
    s.task.orderId != "" && o.orderId == s.task.orderId
  }

  /** Whether a new order finds the robot free: standing, with no graph left, and no order action waiting,
      starting, running or paused. */
  predicate Free(s: Robot) {
    && !s.task.driving && s.task.nodes == [] && s.task.edges == []
    && forall e :: e in s.book.order ==> e.status in {Retriable, Finished, Failed}
  }

  lemma IdleIsFree(s: Robot)
    ensures Idle(s) <==> Free(s)
  {
  }

  /** The one error a refused order raises; a repetition of the current order raises none. */
  function Complaint(s: Robot, o: Order): multiset<ErrorKind> {
    if Continues(s, o) then
      if o.updateId < s.task.updateId then multiset{OutdatedOrderUpdate}
      else if s.task.snapshot == Some(o) then multiset{}
      else multiset{SameOrderUpdateId}
    else multiset{OtherOrderActive}
  }

  function MapWarnings(s: Robot, o: Order): multiset<ErrorKind> {
    multiset(set m | m in UnknownMaps(s, o) :: UnknownMapId(m))
  }

  /** Whether the map lies under some node of the order and no version of it is stored and ENABLED. */
  predicate LacksMap(s: Robot, o: Order, m: string) {
    && m != "default"
    && (exists n :: n in o.nodes && n.position.Some? && n.position.value.mapId == m)
    && forall k :: k in s.site.maps && k.0 == m ==> !s.site.maps[k]
  }

  /** One warning for each map that is lacking, however many nodes lie on it, and no other error. */
  lemma WarnsOfLackingMaps(s: Robot, o: Order)
    ensures forall e: ErrorKind :: MapWarnings(s, o)[e] == if e.UnknownMapId? && LacksMap(s, o, e.mapId) then 1 else 0
  {
    forall m: string ensures m in UnknownMaps(s, o) <==> LacksMap(s, o, m) {}
  }

  /** Registering goes on from `s` to `r`: entries are added behind, the rest of the robot stays. */
  predicate Registers(s: Robot, r: Robot) {
    && r.task == s.task && r.mode == s.mode && r.pose == s.pose && r.traffic == s.traffic && r.site == s.site
    && r.hist.requests == s.hist.requests
    && Ids(s.book.order) <= Ids(r.book.order)
    && |s.book.order| <= |r.book.order| && r.book.order[..|s.book.order|] == s.book.order
  }

  lemma RegisteringOne(w: World, s: Robot, a: Action, scope: Scope)
    ensures var r := RegisterOrderAction(w, s, a, scope);
            Registers(s, r) && a.id in Ids(r.book.order)
  {
    hide LiveId, Accepted;
    var r := RegisterOrderAction(w, s, a, scope);
    assert r.book.order == s.book.order + [r.book.order[|s.book.order|]];
    assert r.book.order[|s.book.order|] in r.book.order;
    forall e | e in s.book.order ensures e in r.book.order {}
  }

  lemma RegistersOn(s: Robot, t: Robot, r: Robot)
    requires Registers(s, t) && Registers(t, r)
    ensures Registers(s, r)
  {
    hide Ids;
    assert r.book.order[..|s.book.order|] == r.book.order[..|t.book.order|][..|s.book.order|];
  }

  lemma {:induction false} RegistrationFrame(w: World, s: Robot, actions: seq<Action>, scope: Scope)
    ensures var r := RegisterAll(w, s, actions, scope);
            && Registers(s, r) && forall a :: a in actions ==> a.id in Ids(r.book.order)
    decreases |actions|
  {
    hide Registers, RegisterOrderAction;
    if actions == [] {
      RegistersNothing(s);
    } else {
      RegistersNothing(s);
      RegisteringOne(w, s, actions[0], scope);
      var t := if actions[0].id in Ids(s.book.order) then s else RegisterOrderAction(w, s, actions[0], scope);
      RegistrationFrame(w, t, actions[1..], scope);
      RegistersOn(s, t, RegisterAll(w, s, actions, scope));
      RegistersIds(t, RegisterAll(w, s, actions, scope));
      assert forall a :: a in actions ==> a == actions[0] || a in actions[1..];
    }
  }

  lemma RegistersNothing(s: Robot)
    ensures Registers(s, s)
  {
  }

  lemma RegistersIds(s: Robot, r: Robot)
    requires Registers(s, r)
    ensures Ids(s.book.order) <= Ids(r.book.order)
  {
  }

  /** An accepted order is the active one, with its whole graph and every one of its actions
      tracked. An update leaves the entries, the requests and the place it finds as they are; a new
      order begins without any requests, at no node. */
  lemma AcceptedOrder(w: World, s: Robot, o: Order, isUpdate: bool)
    ensures var r := AcceptOrder(w, s, o, isUpdate);
            && r.task.orderId == o.orderId && r.task.updateId == o.updateId && r.task.snapshot == Some(o)
            && r.task.nodes == o.nodes && r.task.edges == o.edges && !r.task.newBaseRequest
            && r.task.lastSeq == (if isUpdate then s.task.lastSeq else 0)
            && r.task.lastNodeId == (if isUpdate then s.task.lastNodeId else "")
            && r.mode == s.mode && r.pose == s.pose && r.site == s.site
            && r.traffic == (if isUpdate then s.traffic else Traffic([], [], s.traffic.leases))
            && (forall a :: a in NodeActions(o.nodes) + EdgeActions(o.edges) ==> a.id in Ids(r.book.order))
            && (isUpdate ==> |s.book.order| <= |r.book.order| && r.book.order[..|s.book.order|] == s.book.order)
  {
    hide RegisterAll, Ids;
    var t := TakeOrder(s, o, isUpdate);
    RegistrationFrame(w, t, NodeActions(o.nodes), NodeScope);
    var n := RegisterAll(w, t, NodeActions(o.nodes), NodeScope);
    RegistrationFrame(w, n, EdgeActions(o.edges), EdgeScope);
    var e := RegisterAll(w, n, EdgeActions(o.edges), EdgeScope);
    assert e.book.order[..|t.book.order|] == n.book.order[..|t.book.order|];
  }

  /** What an order message comes to: taken, exactly when the rules say so; otherwise the robot
      changes in nothing but the warnings about unknown maps and the complaint. */
  lemma OrderVerdict(w: World, s: Robot, o: Order)
    requires SnapshotMatches(s)
    ensures var r := HandleOrder(w, s, o);
            if Takes(s, o) then
              r.task.orderId == o.orderId && r.task.updateId == o.updateId && r.task.snapshot == Some(o)
              && r.task.nodes == o.nodes && r.task.edges == o.edges
              && r.traffic == (if Continues(s, o) then s.traffic else Traffic([], [], s.traffic.leases))
            else if s.mode.hibernating then r == s
            else r == s.(errors := s.errors + MapWarnings(s, o) + Complaint(s, o))
  {
    hide AcceptOrder, UnknownMaps, Idle, Free;
    IdleIsFree(s);
    if Takes(s, o) {
      IdleIgnoresErrors(s, o);
      AcceptedOrder(w, WarnUnknownMaps(s, o), o, Continues(s, o));
    } else {
      IdleIgnoresErrors(s, o);
    }
  }

  lemma IdleIgnoresErrors(s: Robot, o: Order)
    ensures Idle(WarnUnknownMaps(s, o)) <==> Idle(s)
  {
    hide UnknownMaps;
  }

  // ---- the snapshot and redelivery ------------------------------------------------------

  /** The kept copy of the accepted order carries the active ids, and there is one whenever an
      order is active. */
  predicate SnapshotMatches(s: Robot) {
    && (s.task.snapshot.Some? ==>
          s.task.snapshot.value.orderId == s.task.orderId && s.task.snapshot.value.updateId == s.task.updateId)
    && (s.task.orderId != "" ==> s.task.snapshot.Some?)
  }

  lemma SnapshotMatchesKept(w: World, s: Robot, op: Op)
    requires SnapshotMatches(s) && Enabled(w, s, op)
    ensures SnapshotMatches(Apply(w, s, op))
  {
    hide ActionEnabled, ApplyAction, MoveEnabled, ApplyMove, TrafficEnabled, ApplyTraffic, UnitEnabled, ApplyUnit, Idle;
    match op
    case OnAction(a) => ActionFrame(w, s, a);
    case OnOrder(o) =>
    case OnMove(m) => MoveFrame(w, s, m);
    case OnTraffic(t) => TrafficFrame(w, s, t);
    case OnUnit(u) => UnitFrame(w, s, u);
  }

  lemma SnapshotAlwaysMatches(w: World, s: Robot, events: seq<Event>)
    requires SnapshotMatches(s)
    ensures SnapshotMatches(Run(w, s, events))
  {
    var inv := (r: Robot) => SnapshotMatches(r);
    forall r: Robot, op: Op ensures Keeps(w, inv)(r, op) {
      if inv(r) && Enabled(w, r, op) { SnapshotMatchesKept(w, r, op); }
    }
    RunInduction(w, inv, s, events);
  }

  /** Whether handling `o` changes nothing but possible warnings about unknown maps. */
  predicate ChangesNothing(w: World, s: Robot, o: Order) {
    var r := HandleOrder(w, s, o);
    r == s || r == s.(errors := s.errors + MapWarnings(s, o))
  }

  /** Redelivering the order last accepted, at any point of its execution, is ignored exactly
      when that order has an id (or the robot hibernates): an order with the empty id is never
      recognised as active, and is taken again or complained about. */
  lemma RedeliveryIgnored(w: World, s: Robot, events: seq<Event>, o: Order)
    requires SnapshotMatches(s)
    requires Run(w, s, events).task.snapshot == Some(o)
    ensures var r := Run(w, s, events);
            ChangesNothing(w, r, o) <==> o.orderId != "" || r.mode.hibernating
  {
    hide Step, AcceptOrder, UnknownMaps;
    SnapshotAlwaysMatches(w, s, events);
    var r := Run(w, s, events);
    OrderVerdict(w, r, o);
    if o.orderId == "" && !r.mode.hibernating {
      IdleIgnoresErrors(r, o);
      if Idle(r) {
        RenewalCounts(w, WarnUnknownMaps(r, o), o);
      } else {
        OneMoreError(r.errors, MapWarnings(r, o), OtherOrderActive);
      }
    }
  }

  lemma RenewalCounts(w: World, s: Robot, o: Order)
    ensures AcceptOrder(w, s, o, false).hist.orders.renewals == s.hist.orders.renewals + 1
  {
    hide RegisterAll;
    var t := TakeOrder(s, o, false);
    RegistrationCounts(w, t, NodeActions(o.nodes), NodeScope);
    RegistrationCounts(w, RegisterAll(w, t, NodeActions(o.nodes), NodeScope), EdgeActions(o.edges), EdgeScope);
  }

  lemma {:induction false} RegistrationCounts(w: World, s: Robot, actions: seq<Action>, scope: Scope)
    ensures RegisterAll(w, s, actions, scope).hist.orders.renewals == s.hist.orders.renewals
    decreases |actions|
  {
    hide LiveId;
    if actions != [] {
      var t := if actions[0].id in Ids(s.book.order) then s else RegisterOrderAction(w, s, actions[0], scope);
      RegistrationCounts(w, t, actions[1..], scope);
    }
  }

  lemma OneMoreError(a: multiset<ErrorKind>, b: multiset<ErrorKind>, e: ErrorKind)
    ensures a + b + multiset{e} != a + b
    ensures e !in b ==> a + b + multiset{e} != a
  {
    assert (a + b + multiset{e})[e] == (a + b)[e] + 1;
    if e !in b { assert (a + b + multiset{e})[e] == a[e] + 1; }
  }

  // ---- update ids ---------------------------------------------------------------------------

  /** Relative to an earlier state `a`: as long as the order was neither renewed nor cleared, it
      has the same id and an update id at least as high; and as long as no update was taken
      either, the very same snapshot. */
  predicate OrderGoesOn(a: Robot, b: Robot) {
    && b.hist.orders.renewals >= a.hist.orders.renewals && b.hist.orders.regraphs >= a.hist.orders.regraphs
    && (b.hist.orders.renewals == a.hist.orders.renewals ==>
          b.task.orderId == a.task.orderId && b.task.updateId >= a.task.updateId)
    && (b.hist.orders.regraphs == a.hist.orders.regraphs ==>
          b.task.snapshot == a.task.snapshot && b.task.updateId == a.task.updateId)
  }

  lemma OrderGoesOnKept(w: World, a: Robot, b: Robot, op: Op)
    requires OrderGoesOn(a, b) && Enabled(w, b, op)
    ensures OrderGoesOn(a, Apply(w, b, op))
  {
    hide ActionEnabled, ApplyAction, MoveEnabled, ApplyMove, TrafficEnabled, ApplyTraffic, UnitEnabled, ApplyUnit, Idle;
    CountersAfter(w, b, op);
    match op
    case OnAction(x) => ActionFrame(w, b, x);
    case OnOrder(o) =>
    case OnMove(m) => MoveFrame(w, b, m);
    case OnTraffic(t) => TrafficFrame(w, b, t);
    case OnUnit(u) => UnitFrame(w, b, u);
  }

  /** Within one order the update id never decreases, on any run. */
  lemma UpdateIdsNeverDecrease(w: World, s: Robot, events: seq<Event>)
    ensures OrderGoesOn(s, Run(w, s, events))
  {
    var inv := (r: Robot) => OrderGoesOn(s, r);
    forall r: Robot, op: Op ensures Keeps(w, inv)(r, op) {
      if inv(r) && Enabled(w, r, op) { OrderGoesOnKept(w, s, r, op); }
    }
    RunInduction(w, inv, s, events);
  }

  // ---- instant actions -------------------------------------------------------------------------

  /** Whether the robot's protocol version does not have the instant action yet. */
  predicate TooNew(w: World, kind: ActionKind) {
    MinimumVersion(kind).Some? && VersionBelow(w.cfg.version, MinimumVersion(kind).value)
  }

  /** Whether `r` answers the instant action with a last entry of this status. */
  predicate Replies(r: Robot, a: Action, status: Status) {
    var es := r.book.instant;
    es != [] && es[|es| - 1] == Entry(a.id, a.kind, status)
  }

  /** The error an unfit instant action raises. */
  function Reason(w: World, a: Action): ErrorKind {
    if TooNew(w, a.kind) then InvalidInstantAction
    else
      match a.kind
      case CancelOrder => NoOrderToCancel
      case DownloadMap => DuplicateMap
      case DownloadZoneSet => DuplicateZoneSet
      case _ => ValidationError
  }

  /** Refused: the reply and the one error, and nothing else. */
  predicate Refused(w: World, s: Robot, r: Robot, a: Action) {
    r == s.(book := s.book.(instant := s.book.instant + [Entry(a.id, a.kind, Failed)]),
            errors := s.errors + multiset{Reason(w, a)})
  }

  /** Accepted: registered and waiting, or asked to cancel and running, or done on the spot; no error. */
  predicate Granted(s: Robot, r: Robot, a: Action) {
    && r.errors == s.errors
    && (|| (Replies(r, a, Waiting) && r.book.registry == s.book.registry[a.id := a]
            && r.book.instant == s.book.instant + [Entry(a.id, a.kind, Waiting)] && r.task == s.task
                && r.mode == s.mode)
        || (Replies(r, a, Running) && a.kind.CancelOrder? && r.mode.cancel == Some(a.id) && r.task == s.task)
        || (Replies(r, a, Finished) && r.book.registry == s.book.registry))
  }

  predicate Tracked(b: Book, id: string) {
    || (exists e :: e in b.order && e.id == id) || (exists e :: e in b.instant && e.id == id)
    || (exists e :: e in b.zone && e.id == id)
  }

  /** Whether the trigger names a tracked entry. */
  predicate NamesTracked(b: Book, a: Action) {
    var named := Lookup(a.params, "actionId");
    named.Some? && named.value.truthy && Tracked(b, named.value.text)
  }

  /** Whether an order or zone entry runs a waitForTrigger. */
  predicate SomeWaiterRuns(b: Book) {
    var waits := (e: Entry) => RunsAs(b, e, (a: Action) => a.kind.WaitForTrigger?);
    (exists e :: e in b.order && waits(e)) || (exists e :: e in b.zone && waits(e))
  }

  /** Whether the first tracked entry the retry or skipRetry names is RETRIABLE. */
  predicate NamesRetriable(b: Book, a: Action) {
    var p := FindTracked(b, Text(a, "actionId"));
    p.Some? && At(b, p.value).status.Retriable?
  }

  /** Whether the robot has a reason to refuse the instant action. */
  predicate Unfit(w: World, s: Robot, a: Action) {
    || TooNew(w, a.kind) || !ScopeAllowed(a.kind, InstantScope)
    || match a.kind
       case CancelOrder => s.task.orderId == "" || Free(s)
       case Shutdown => !Free(s)
       case Retry | SkipRetry => !NamesRetriable(s.book, a)
       case Trigger => !NamesTracked(s.book, a) && !SomeWaiterRuns(s.book)
       case DownloadMap => MapKey(a) in s.site.maps
       case DownloadZoneSet => HasZoneSet(s.site.zoneSets, Text(a, "zoneSetId"))
       case Custom(_) => a.kind !in w.cfg.supported
       case _ => false
  }

  /** Whether the robot, hibernating, does not even answer the instant action. */
  predicate SleepsThrough(w: World, s: Robot, a: Action) {
    s.mode.hibernating && !a.kind.StopHibernation? && !TooNew(w, a.kind)
  }

  /** What an instant action comes to, exactly. Unless the robot sleeps through it, it gets one reply, as
      the last entry: FAILED with one error and nothing else changed if it is unfit, and otherwise
      accepted without error. */
  lemma InstantVerdict(w: World, s: Robot, a: Action)
    ensures var r := HandleInstantAction(w, s, a);
            if SleepsThrough(w, s, a) then r == s
            else if Unfit(w, s, a) then Refused(w, s, r, a)
            else Granted(s, r, a)
  {
    hide CarryOut, Granted, RefuseInstant, Refused;
    RefusalIsOne(w, s, a);
    if ScopeAllowed(a.kind, InstantScope) && !TooNew(w, a.kind) { CarriedOutVerdict(w, s, a); }
  }

  lemma CarriedOutVerdict(w: World, s: Robot, a: Action)
    requires ScopeAllowed(a.kind, InstantScope) && !TooNew(w, a.kind)
    ensures if Unfit(w, s, a) then Refused(w, s, CarryOut(w, s, a), a) else Granted(s, CarryOut(w, s, a), a)
  {
    hide RefuseInstant, Granted, Acknowledge, Spawn, AskCancel, SetPaused, Forget, AbandonOrder, Hibernate, WakeUp,
      Command, Idle, Free, HasZoneSet, MapKey, Text, Refused, NamesRetriable, NamesTracked, SomeWaiterRuns;
    IdleIsFree(s);
    RefusalIsOne(w, s, a);
    ReplyIsLast(s, a);
    CommandsKeepRecords(s, a);
    AcknowledgedIsGranted(s, a);
    if a.kind.Retry? || a.kind.SkipRetry? || a.kind.Trigger? { CommandVerdict(w, s, a); }
  }

  lemma RefusalIsOne(w: World, s: Robot, a: Action)
    ensures Refused(w, s, RefuseInstant(s, a, Reason(w, a)), a)
  {
  }

  lemma ReplyIsLast(s: Robot, a: Action)
    ensures Granted(s, Spawn(s, InstantTrack, a), a)
    ensures a.kind.CancelOrder? ==> Granted(s, AskCancel(s, a), a)
  {
    hide LiveId;
  }

  /** Neither errors nor definitions differ. */
  predicate SameRecords(s: Robot, r: Robot) {
    r.errors == s.errors && r.book.registry == s.book.registry
  }

  lemma CommandsKeepRecords(s: Robot, a: Action)
    ensures SameRecords(s, SetPaused(s, true)) && SameRecords(s, SetPaused(s, false))
    ensures SameRecords(s, Forget(s, InstantTrack)) && SameRecords(s, Forget(s, ZoneTrack))
    ensures SameRecords(s, Hibernate(AbandonOrder(s), a)) && SameRecords(s, WakeUp(s))
  {
    hide FlipAll, Live, Lookup;
  }

  lemma AcknowledgedIsGranted(s: Robot, a: Action)
    ensures forall r: Robot :: SameRecords(s, r) ==> Granted(s, Acknowledge(r, a), a)
  {
  }

  lemma CommandVerdict(w: World, s: Robot, a: Action)
    requires !TooNew(w, a.kind)
    requires a.kind.Retry? || a.kind.SkipRetry? || a.kind.Trigger?
    ensures var fits := if a.kind.Trigger? then NamesTracked(s.book, a) || SomeWaiterRuns(s.book)
                        else NamesRetriable(s.book, a);
            if fits then Granted(s, Command(s, a), a) else Refused(w, s, Command(s, a), a)
  {
    hide SetStatus, FindTracked, TriggerTarget, Lookup, Refused, Granted, RefuseInstant, NamesTracked, SomeWaiterRuns;
    RefusalIsOne(w, s, a);
    AcknowledgedIsGranted(s, a);
    TriggerFits(s.book, a);
  }

  lemma TriggerFits(b: Book, a: Action)
    ensures TriggerTarget(b, a).Some? <==> NamesTracked(b, a) || SomeWaiterRuns(b)
  {
    hide Lookup;
    var named := Lookup(a.params, "actionId");
    if named.Some? { TrackedIsFound(b, named.value.text); }
    WaiterIsFound(b);
  }

  lemma TrackedIsFound(b: Book, id: string)
    ensures FindTracked(b, id).Some? <==> Tracked(b, id)
  {
    var p := (e: Entry) => e.id == id;
    FirstIndexIff(b.order, p);
    FirstIndexIff(b.instant, p);
    FirstIndexIff(b.zone, p);
  }

  lemma WaiterIsFound(b: Book)
    ensures OldestWaiter(b).Some? <==> SomeWaiterRuns(b)
  {
    var waits := (e: Entry) => RunsAs(b, e, (a: Action) => a.kind.WaitForTrigger?);
    FirstIndexIff(b.order, waits);
    FirstIndexIff(b.zone, waits);
  }

  lemma FirstIndexIff<T(!new)>(xs: seq<T>, p: T -> bool)
    ensures FirstIndex(xs, p) < |xs| <==> exists x :: x in xs && p(x)
  {
    var i := FirstIndex(xs, p);
    if i < |xs| { assert xs[i] in xs; }
  }

  // ---- hibernation -----------------------------------------------------------------------------

  /** Whether the event may end the hibernation. */
  predicate Awakens(w: World, m: Mode, e: Event) {
    match e
    case InstantActionsMessage(actions) => exists a :: a in actions && a.kind.StopHibernation?
    case Beat(_, now, _) =>
      m.wakeUpAt.Some? && w.parseTime(m.wakeUpAt.value).Some? && now >= w.parseTime(m.wakeUpAt.value).value
    case _ => false
  }

  /** Order, modes, pose, clock, loads and maps are untouched, and nothing has taken effect. */
  predicate Asleep(s: Robot, r: Robot) {
    && r.task == s.task && r.mode == s.mode && r.pose == s.pose
    && r.book.clock == s.book.clock && r.book.registry == s.book.registry && r.book.startedAt == s.book.startedAt
    && r.site.loads == s.site.loads && r.site.maps == s.site.maps && r.site.occupancy == s.site.occupancy
    && r.hist.actions.effects == s.hist.actions.effects && r.hist.trip.odometer == s.hist.trip.odometer
    && r.hist.actions.spawned == s.hist.actions.spawned
  }

  lemma {:induction false} AsleepToCommands(w: World, s: Robot, actions: seq<Action>)
    requires s.mode.hibernating && forall a :: a in actions ==> !a.kind.StopHibernation?
    ensures Asleep(s, HandleInstantActions(w, s, actions))
    decreases |actions|
  {
    if actions != [] {
      assert forall a :: a in actions[1..] ==> a in actions;
      assert !actions[0].kind.StopHibernation? by { assert actions[0] in actions; }
      var r := HandleInstantAction(w, s, actions[0]);
      AsleepToCommand(w, s, actions[0]);
      AsleepToCommands(w, r, actions[1..]);
    }
  }

  lemma AsleepToCommand(w: World, s: Robot, a: Action)
    requires s.mode.hibernating && !a.kind.StopHibernation?
    ensures Asleep(s, HandleInstantAction(w, s, a))
  {
    hide CarryOut;
  }

  lemma AsleepToResponses(s: Robot, responses: seq<Response>)
    ensures Asleep(s, HandleResponses(s, responses))
    decreases |responses|
  {
    hide AnswerZones, AnswerEdges, KnownRequest;
    if responses != [] {
      AsleepToResponses(ApplyResponse(s, responses[0]), responses[1..]);
    }
  }

  lemma AsleepToTick(w: World, s: Robot, dt: Span, now: real)
    requires s.mode.hibernating
    requires s.mode.wakeUpAt.Some? && w.parseTime(s.mode.wakeUpAt.value).Some? ==>
            now < w.parseTime(s.mode.wakeUpAt.value).value
    ensures Tick(w, s, dt, now) == s
  {
  }

  lemma AsleepToFaults(w: World, s: Robot, dt: Span, draws: Draws)
    ensures Asleep(s, MaybeInjectFault(w, s, dt, draws))
  {
    hide UpdateField, UpdateOperatingMode, UpdateStop, FirstRetriable;
  }

  lemma AsleepToEvent(w: World, s: Robot, e: Event)
    requires s.mode.hibernating && !Awakens(w, s.mode, e)
    ensures Asleep(s, Step(w, s, e))
  {
    hide HandleInstantActions, HandleResponses, MaybeInjectFault, Tick;
    match e
    case Beat(dt, now, draws) =>
      AsleepToTick(w, s, dt, now);
      AsleepToFaults(w, Tick(w, s, dt, now), dt, draws);
    case InstantActionsMessage(actions) => AsleepToCommands(w, s, actions);
    case ResponsesMessage(responses) => AsleepToResponses(s, responses);
    case _ =>
  }

  /** A tick finds a hibernating robot awake afterwards exactly if a readable wake-up time has come; nothing
      but that changes. */
  lemma WakesOnTime(w: World, s: Robot, dt: Span, now: real)
    requires s.mode.hibernating
    ensures var due := s.mode.wakeUpAt.Some? && s.mode.wakeUpAt.value != ""
                       && w.parseTime(s.mode.wakeUpAt.value).Some? && now >= w.parseTime(s.mode.wakeUpAt.value).value;
            Tick(w, s, dt, now)
              == if due then s.(mode := s.mode.(hibernating := false, wakeUpAt := None)) else s
  {
  }

  /** A hibernating robot sleeps through every run without a stopHibernation and before its wake-up
      time: it takes no order, starts, advances and completes nothing, and does not move. */
  lemma {:induction false} HibernationFreezes(w: World, s: Robot, events: seq<Event>)
    requires s.mode.hibernating && forall e :: e in events ==> !Awakens(w, s.mode, e)
    ensures Asleep(s, Run(w, s, events))
    decreases |events|
  {
    hide Step, Awakens;
    if events != [] {
      assert forall e :: e in events[1..] ==> e in events;
      assert !Awakens(w, s.mode, events[0]) by { assert events[0] in events; }
      AsleepToEvent(w, s, events[0]);
      HibernationFreezes(w, Step(w, s, events[0]), events[1..]);
    }
  }
}
