/** The guarded transition system beneath the messages and ticks. Every message, tick and
    fault round is a succession of the operations below, each fired only when its guard
    holds; so a predicate that every enabled operation keeps holds throughout every run. */
module Transitions {
  import opened Vda5050
  import opened Platform
  import opened ActionCatalog
  import opened RobotState
  import Heading

  /** Operations on action entries. */
  datatype ActionOp =
    | Spawning(track: Track, action: Action, scope: Scope)
    | Refusing(track: Track, action: Action, error: Option<ErrorKind>)
    | Acknowledging(action: Action)
    | AskingCancel(action: Action)
    | Beginning(spot: Spot)
    | Completing(spot: Spot)
    | Retrying(spot: Spot)
    | Skipping(spot: Spot)
    | Triggering(spot: Spot)
    | Breaking(spot: Spot)
    | Pausing(paused: bool)
    | Forgetting(track: Track)
    | Clocking(dt: Span)

  /** Operations on the order as a whole. */
  datatype OrderOp =
    | Taking(order: Order, isUpdate: bool)
    | Clearing
    | FinishingCancel

  /** Operations of the movement engine. */
  datatype MoveOp =
    | AskingBase
    | BaseServed
    | Halting
    | Leaving(at: Node)
    | Driving(from: Node, edge: Edge, next: Node, dt: Span, now: real)

  /** Operations on the requests to traffic control. */
  datatype TrafficOp =
    | Answering(response: Response)
    | CheckingLeases(now: real)
    | AskingCorridor(edge: Edge)
    | AskingAccess(zone: Zone)

  /** Everything else. */
  datatype UnitOp =
    | Hibernating(action: Action)
    | Waking
    | ShuttingDown
    | AskingFactsheet
    | Reporting(errors: multiset<ErrorKind>)
    | Publishing
    | StoringZones(zoneSet: ZoneSet)
    | NotingZones
    | Charging(dt: Span)
    | RunningFaults(dt: Span, draws: Draws)

  datatype Op =
    | OnAction(a: ActionOp) | OnOrder(o: OrderOp) | OnMove(m: MoveOp) | OnTraffic(t: TrafficOp) | OnUnit(u: UnitOp)

  /** Whether no GRANTED request has a stored lease that is readable and due. */
  predicate LeasesFresh(w: World, s: Robot, now: real) {
    && (forall r :: r in s.traffic.zoneRequests ==>
          !(r.status.Granted? && LeaseDue(w, s.traffic.leases, r.requestId, now)))
    && (forall r :: r in s.traffic.edgeRequests ==>
          !(r.status.Granted? && LeaseDue(w, s.traffic.leases, r.requestId, now)))
  }

  predicate CorridorOpen(s: Robot, edge: Edge) {
    edge.releaseRequired ==>
      var i := EdgeRequestIndex(s.traffic, edge);
      i < |s.traffic.edgeRequests| && s.traffic.edgeRequests[i].status.Granted?
  }

  /** Whether the robot, heading for (x, y), goes against the zone's binding direction: by more than 45
      degrees, and for a BIDIRECTED zone by more than that from the opposite direction too. */
  ghost predicate WrongWay(w: World, s: Robot, zone: Zone, x: real, y: real) {
    && (zone.limitation == Some(Strict) || zone.limitation == Some(Restricted)) && zone.direction.Some?
    && var d, heading := zone.direction.value, w.atan2(y - s.pose.y, x - s.pose.x);
    && !Heading.Within(w.pi, d, heading, w.pi / 4.0)
    && (zone.zoneType.Directed?
        || (zone.zoneType.Bidirected? && !Heading.Within(w.pi, d + w.pi, heading, w.pi / 4.0)))
  }

  ghost predicate ZoneOpen(w: World, s: Robot, zone: Zone, x: real, y: real) {
    && (zone.zoneType.Release? || zone.zoneType.CoordinatedReplanning? ==>
          var i := ZoneRequestIndex(s.traffic, zone.zoneId, ZoneSetIdFor(s.site.zoneSets, zone.zoneId));
          i < |s.traffic.zoneRequests| && s.traffic.zoneRequests[i].status.Granted?)
    && !zone.zoneType.Blocked?
    && !WrongWay(w, s, zone, x, y)
  }

  /** Whether the corridor of `edge` and every zone around `next` admit the robot. */
  ghost predicate GatesOpen(w: World, s: Robot, edge: Edge, next: Node) {
    && CorridorOpen(s, edge)
    && (next.position.Some? ==>
          var p := next.position.value;
          forall z :: z in ZonesAt(s.site.zoneSets, s.pose.mapId, p.x, p.y) ==> ZoneOpen(w, s, z, p.x, p.y))
  }

  /** Everything that must hold for the robot to move along `edge` from `from` towards `next`. */
  ghost predicate MayDrive(w: World, s: Robot, from: Node, edge: Edge, next: Node, now: real) {
    && Active(s)
    && s.task.nodes != [] && from == CurrentNode(s.task)
    && FindEdge(s.task.edges, from.seqId + 1) == Some(edge) && edge.released
    && FindNode(s.task.nodes, edge.seqId + 1) == Some(next) && next.released
    && !Held(s, OwnerActions(from, Some(edge)))
    && GatesOpen(w, s, edge, next)
    && LeasesFresh(w, s, now)
  }

  /** Whether the action stands on a node, or on an edge, of the order, as the scope says. */
  predicate StandsOn(o: Order, a: Action, scope: Scope) {
    if scope.NodeScope? then a in NodeActions(o.nodes) else scope.EdgeScope? && a in EdgeActions(o.edges)
  }

  /** Whether the order just taken has the action on an owner of this scope. */
  predicate Boards(s: Robot, a: Action, scope: Scope) {
    s.hist.trip.legs == 0 && s.task.snapshot.Some? && StandsOn(s.task.snapshot.value, a, scope)
  }

  predicate FitsTrack(s: Robot, t: Track, a: Action) {
    match t
    case OrderTrack => a.id !in Ids(s.book.order)
    case InstantTrack => true
    case ZoneTrack => a.id !in s.book.registry
  }

  predicate ScopeOfTrack(t: Track, scope: Scope) {
    match t
    case OrderTrack => scope.NodeScope? || scope.EdgeScope?
    case InstantTrack => scope.InstantScope?
    case ZoneTrack => scope.ZoneScope?
  }

  predicate Registered(s: Robot, p: Spot) {
    Valid(s.book, p) && At(s.book, p).id in s.book.registry
  }

  predicate ActionEnabled(w: World, s: Robot, op: ActionOp) {
    match op
    case Spawning(t, a, scope) =>
      && FitsTrack(s, t, a) && ScopeOfTrack(t, scope) && (t.OrderTrack? ==> Boards(s, a, scope))
      && Accepted(a.kind, scope, w.cfg.supported) && !a.kind.CancelOrder?
    case Refusing(t, a, _) => FitsTrack(s, t, a)
    case Acknowledging(_) => true
    case AskingCancel(a) => a.kind.CancelOrder? && s.task.orderId != "" && !Idle(s)
    case Beginning(p) => Active(s) && Registered(s, p) && At(s.book, p).status.Waiting?
    case Completing(p) =>
      && Active(s) && Registered(s, p) && At(s.book, p).status.Running?
      && Due(w, s.book, At(s.book, p).id, s.book.registry[At(s.book, p).id])
    case Retrying(p) => Valid(s.book, p) && At(s.book, p).status.Retriable?
    case Skipping(p) => Valid(s.book, p) && At(s.book, p).status.Retriable?
    case Triggering(p) => Valid(s.book, p)
    case Breaking(p) => Registered(s, p) && At(s.book, p).status.Running? && s.book.registry[At(s.book, p).id].retriable
    case Pausing(_) => true
    case Forgetting(t) => !t.OrderTrack?
    case Clocking(_) => Active(s)
  }

  function ApplyAction(w: World, s: Robot, op: ActionOp): Robot
    requires ActionEnabled(w, s, op)
  {
    match op
    case Spawning(t, a, _) => Spawn(s, t, a)
    case Refusing(t, a, error) => Refuse(s, t, a, error)
    case Acknowledging(a) => Acknowledge(s, a)
    case AskingCancel(a) => AskCancel(s, a)
    case Beginning(p) => BeginEntry(s, p)
    case Completing(p) => CompleteEntry(s, p)
    case Retrying(p) => RetryEntry(s, p)
    case Skipping(p) => Intervene(s, p, Failed)
    case Triggering(p) => Intervene(s, p, Finished)
    case Breaking(p) => BreakEntry(w, s, p)
    case Pausing(paused) => SetPaused(s, paused)
    case Forgetting(t) => Forget(s, t)
    case Clocking(dt) => AdvanceClock(s, dt)
  }

  predicate OrderEnabled(s: Robot, op: OrderOp) {
    match op
    case Taking(o, isUpdate) =>
      && !s.mode.hibernating
      && (isUpdate ==> s.task.orderId != "" && o.orderId == s.task.orderId && o.updateId > s.task.updateId)
      && (!isUpdate ==> Idle(s) && (s.task.orderId == "" || o.orderId != s.task.orderId))
    case Clearing => true
    case FinishingCancel => !s.mode.hibernating && s.mode.cancel.Some?
  }

  function ApplyOrder(s: Robot, op: OrderOp): Robot
    requires OrderEnabled(s, op)
  {
    match op
    case Taking(o, isUpdate) => TakeOrder(s, o, isUpdate)
    case Clearing => AbandonOrder(s)
    case FinishingCancel => FinishCancel(s)
  }

  ghost predicate MoveEnabled(w: World, s: Robot, op: MoveOp) {
    match op
    case AskingBase | BaseServed | Halting => true
    case Leaving(at) =>
      && Active(s)
      && s.task.nodes != [] && at == CurrentNode(s.task) && FindEdge(s.task.edges, at.seqId + 1).None?
      && !Held(s, OwnerActions(at, None))
    case Driving(from, edge, next, _, now) => MayDrive(w, s, from, edge, next, now)
  }

  ghost function ApplyMove(w: World, s: Robot, op: MoveOp): Robot
    requires MoveEnabled(w, s, op)
  {
    match op
    case AskingBase => WantBase(s)
    case BaseServed => s.(task := s.task.(newBaseRequest := false))
    case Halting => Halt(s)
    case Leaving(at) => LeaveGraph(s, at)
    case Driving(from, edge, next, dt, _) => Drive(w, s, from, edge, next, dt)
  }

  predicate TrafficEnabled(s: Robot, op: TrafficOp) {
    match op
    case Answering(_) | CheckingLeases(_) => true
    case AskingCorridor(edge) =>
      Active(s) && edge.releaseRequired && EdgeRequestIndex(s.traffic, edge) == |s.traffic.edgeRequests|
    case AskingAccess(zone) =>
      && Active(s) && RequiresAccess(zone)
      && ZoneRequestIndex(s.traffic, zone.zoneId, ZoneSetIdFor(s.site.zoneSets, zone.zoneId))
           == |s.traffic.zoneRequests|
  }

  function ApplyTraffic(w: World, s: Robot, op: TrafficOp): Robot
    requires TrafficEnabled(s, op)
  {
    match op
    case Answering(r) => ApplyResponse(s, r)
    case CheckingLeases(now) => CheckLeases(w, s, now)
    case AskingCorridor(edge) => CorridorGate(s, edge).robot
    case AskingAccess(zone) => AccessGate(s, zone).robot
  }

  predicate UnitEnabled(s: Robot, op: UnitOp) {
    match op
    case NotingZones => Active(s)
    case Charging(_) => !s.mode.hibernating
    case _ => true
  }

  ghost function ApplyUnit(w: World, s: Robot, op: UnitOp): Robot
    requires UnitEnabled(s, op)
  {
    match op
    case Hibernating(a) => Hibernate(s, a)
    case Waking => WakeUp(s)
    case ShuttingDown => s.(mode := s.mode.(shutdownRequested := true))
    case AskingFactsheet => s.(factsheetRequested := true)
    case Reporting(errors) => s.(errors := s.errors + errors)
    case Publishing => Publish(s)
    case StoringZones(z) => HandleZoneSet(s, z)
    case NotingZones => s.(site := s.site.(occupancy := PresentZones(s)))
    case Charging(dt) => UpdateCharging(w, s, dt)
    case RunningFaults(dt, draws) => RunFaultTimers(s, dt, draws)
  }

  ghost predicate Enabled(w: World, s: Robot, op: Op) {
    match op
    case OnAction(a) => ActionEnabled(w, s, a)
    case OnOrder(o) => OrderEnabled(s, o)
    case OnMove(m) => MoveEnabled(w, s, m)
    case OnTraffic(t) => TrafficEnabled(s, t)
    case OnUnit(u) => UnitEnabled(s, u)
  }

  ghost function Apply(w: World, s: Robot, op: Op): Robot
    requires Enabled(w, s, op)
  {
    match op
    case OnAction(a) => ApplyAction(w, s, a)
    case OnOrder(o) => ApplyOrder(s, o)
    case OnMove(m) => ApplyMove(w, s, m)
    case OnTraffic(t) => ApplyTraffic(w, s, t)
    case OnUnit(u) => ApplyUnit(w, s, u)
  }

  /** Whether an operation keeps `inv`. */
  ghost function Keeps(w: World, inv: Robot -> bool): (Robot, Op) -> bool {
    (s, op) => inv(s) && Enabled(w, s, op) ==> inv(Apply(w, s, op))
  }

  /** Every enabled operation keeps `inv`. */
  ghost predicate Kept(w: World, inv: Robot -> bool) {
    forall s: Robot, op: Op :: Keeps(w, inv)(s, op)
  }

  // ---- what an operation leaves alone -----------------------------------------------

  lemma ActionFrame(w: World, s: Robot, op: ActionOp)
    requires ActionEnabled(w, s, op)
    ensures var r := ApplyAction(w, s, op);
            && r.task == s.task.(lastNodeId := r.task.lastNodeId) && r.faults == s.faults && r.traffic == s.traffic
            && r.mode == s.mode.(paused := r.mode.paused, cancel := r.mode.cancel)
            && r.hist == s.hist.(actions := r.hist.actions, trip := s.hist.trip.(jumps := r.hist.trip.jumps))
  {
    hide ApplyEffect, Landing, SetStatus, Append, WithEntries, FlipAll, Entries, Live;
  }

  lemma OrderFrame(s: Robot, op: OrderOp)
    requires OrderEnabled(s, op)
    ensures var r := ApplyOrder(s, op);
            && r.pose == s.pose && r.site == s.site && r.faults == s.faults && r.errors == s.errors
            && r.mode == s.mode.(cancel := r.mode.cancel)
            && r.book == s.book.(order := r.book.order, instant := r.book.instant)
            && r.hist.orders.regraphs == s.hist.orders.regraphs + 1
            && r.hist == s.hist.(orders := r.hist.orders, requests := r.hist.requests,
                                 trip := s.hist.trip.(legs := 0, settled := r.hist.trip.settled,
                                                      boarded := r.hist.trip.boarded))
  {
  }

  lemma MoveFrame(w: World, s: Robot, op: MoveOp)
    requires MoveEnabled(w, s, op)
    ensures var r := ApplyMove(w, s, op);
            && r.book == s.book && r.mode == s.mode && r.faults == s.faults && r.site == s.site
            && r.traffic == s.traffic && r.errors == s.errors
            && r.task == s.task.(lastNodeId := r.task.lastNodeId, lastSeq := r.task.lastSeq, nodes := r.task.nodes,
                                 edges := r.task.edges, driving := r.task.driving,
                                 newBaseRequest := r.task.newBaseRequest)
            && r.hist == s.hist.(trip := s.hist.trip.(
                 odometer := r.hist.trip.odometer, legs := r.hist.trip.legs, settled := r.hist.trip.settled,
                 jumps := r.hist.trip.jumps))
  {
    hide StepTowards, MayDrive, Held, CurrentNode, FindEdge, Holders, Without, WithoutEdge;
  }

  lemma TrafficFrame(w: World, s: Robot, op: TrafficOp)
    requires TrafficEnabled(s, op)
    ensures var r := ApplyTraffic(w, s, op);
            r == s.(traffic := r.traffic, hist := s.hist.(requests := r.hist.requests))
  {
  }

  lemma UnitFrame(w: World, s: Robot, op: UnitOp)
    requires UnitEnabled(s, op)
    ensures var r := ApplyUnit(w, s, op);
            && r.task == s.task && r.book == s.book && r.traffic == s.traffic
            && r.mode == s.mode.(hibernating := r.mode.hibernating, wakeUpAt := r.mode.wakeUpAt,
                                 shutdownRequested := r.mode.shutdownRequested)
            && r.pose == s.pose.(battery := r.pose.battery)
            && r.site == s.site.(zoneSets := r.site.zoneSets, zoneSetEnabled := r.site.zoneSetEnabled,
                                 occupancy := r.site.occupancy)
            && r.hist == s.hist.(trip := s.hist.trip.(charges := r.hist.trip.charges))
  {
    hide PresentZones, UpdateField, UpdateOperatingMode, UpdateStop;
  }

  // ---- what an operation counts ---------------------------------------------------------

  function One(b: bool): nat { if b then 1 else 0 }

  predicate Renews(op: Op) { op.OnOrder? && !(op.o.Taking? && op.o.isUpdate) }

  predicate Intervenes(op: Op) { op.OnAction? && (op.a.Retrying? || op.a.Skipping? || op.a.Triggering?) }

  /** The id of the entry a retry, skipRetry or trigger acts on. */
  function CommandedIds(s: Robot, op: Op): multiset<string> {
    if Intervenes(op) && Valid(s.book, op.a.spot) then multiset{At(s.book, op.a.spot).id} else multiset{}
  }

  /** The id of the entry an injected failure breaks. */
  function BrokenIds(s: Robot, op: Op): multiset<string> {
    if op.OnAction? && op.a.Breaking? && Valid(s.book, op.a.spot)
    then multiset{At(s.book, op.a.spot).id} else multiset{}
  }

  /** The id of an order taken other than as an update. */
  function TakenIds(op: Op): seq<string> {
    if op.OnOrder? && op.o.Taking? && !op.o.isUpdate then [op.o.order.orderId] else []
  }

  /** Whether completing this entry repositions the robot. */
  predicate Repositions(s: Robot, op: Op) {
    && op.OnAction? && op.a.Completing? && Registered(s, op.a.spot)
    && s.book.registry[At(s.book, op.a.spot).id].kind.InitializePosition?
  }

  /** Whether the operation gives an entry an id that another live entry carries or could claim. */
  predicate Clashes(s: Robot, op: ActionOp) {
    || (op.Spawning? && LiveId(s.book, op.action.id))
    || (op.AskingCancel? && op.action.id in s.book.registry)
  }

  function ClashedIds(s: Robot, op: Op): set<string> {
    if op.OnAction? && Clashes(s, op.a) then {op.a.action.id} else {}
  }

  lemma ActionCounters(w: World, s: Robot, op: ActionOp)
    requires ActionEnabled(w, s, op)
    ensures var r := ApplyAction(w, s, op);
            && r.hist.trip.jumps == s.hist.trip.jumps + One(Repositions(s, OnAction(op)))
            && r.book.clock == (if op.Clocking? then s.book.clock + op.dt else s.book.clock)
            && r.mode.cancel == (if op.AskingCancel? then Some(op.action.id) else s.mode.cancel)
            && r.book.registry == (if op.Spawning? then s.book.registry[op.action.id := op.action] else s.book.registry)
            && r.hist.actions.zoneSpawned == s.hist.actions.zoneSpawned
                 + (if op.Spawning? && op.track.ZoneTrack? then [op.action.id] else [])
  {
    hide ApplyEffect, SetStatus, Append, FlipAll, Landing, Live, Due, FitsTrack, Active, Idle, LiveId;
    if op.Completing? { LandingHolds(s, op.spot, s.book.registry[At(s.book, op.spot).id]); }
  }

  lemma ActionMarks(w: World, s: Robot, op: ActionOp)
    requires ActionEnabled(w, s, op)
    ensures var a, r := s.hist.actions, ApplyAction(w, s, op).hist.actions;
            && r.commanded == a.commanded + CommandedIds(s, OnAction(op))
            && r.broken == a.broken + BrokenIds(s, OnAction(op))
            && r.clashes == a.clashes + ClashedIds(s, OnAction(op))
  {
    hide SetStatus, Append, FlipAll, Live, Due, FitsTrack, Active, Idle, LiveId, CompleteEntry, Boards;
    if op.Completing? { CompletingMarks(s, op.spot); }
  }

  lemma CompletingMarks(s: Robot, p: Spot)
    requires Registered(s, p) && At(s.book, p).status.Running?
    ensures var a, r := s.hist.actions, CompleteEntry(s, p).hist.actions;
            r.commanded == a.commanded && r.broken == a.broken && r.clashes == a.clashes
  {
    hide ApplyEffect, SetStatus, Landing;
    LandingHolds(s, p, s.book.registry[At(s.book, p).id]);
  }

  // ---- the entries an operation adds or changes ------------------------------------------------

  predicate Appends(op: ActionOp) { op.Spawning? || op.Refusing? || op.Acknowledging? || op.AskingCancel? }

  function TrackGiven(op: ActionOp): Track
    requires Appends(op)
  {
    if op.Spawning? || op.Refusing? then op.track else InstantTrack
  }

  function EntryGiven(op: ActionOp): Entry
    requires Appends(op)
  {
    Entry(op.action.id, op.action.kind,
      match op
      case Spawning(_, _, _) => Waiting
      case Refusing(_, _, _) => Failed
      case Acknowledging(_) => Finished
      case AskingCancel(_) => Running)
  }

  lemma AppendedBook(w: World, s: Robot, op: ActionOp)
    requires Appends(op) && ActionEnabled(w, s, op)
    ensures var r := ApplyAction(w, s, op).book;
            r == Append(s.book, TrackGiven(op), EntryGiven(op)).(registry := r.registry)
  {
    hide Append, FitsTrack, Idle, LiveId, Boards;
  }

  predicate SetsStatus(op: ActionOp) {
    op.Beginning? || op.Retrying? || op.Skipping? || op.Triggering? || op.Breaking?
  }

  function StatusGiven(w: World, op: ActionOp): Status
    requires SetsStatus(op)
  {
    match op
    case Beginning(_) => Running
    case Retrying(_) => Waiting
    case Skipping(_) => Failed
    case Triggering(_) => Finished
    case Breaking(_) => if VersionBelow(w.cfg.version, (3, 0)) then Failed else Retriable
  }

  lemma StatusBook(w: World, s: Robot, op: ActionOp)
    requires SetsStatus(op) && ActionEnabled(w, s, op)
    ensures var r := ApplyAction(w, s, op).book;
            && Valid(s.book, op.spot)
            && r == SetStatus(s.book, op.spot, StatusGiven(w, op)).(startedAt := r.startedAt)
  {
    hide SetStatus, Active;
  }

  /** How the counters of the history move. */
  lemma CountersAfter(w: World, s: Robot, op: Op)
    requires Enabled(w, s, op)
    ensures var h, r := s.hist, Apply(w, s, op).hist;
            && r.orders.renewals == h.orders.renewals + One(Renews(op))
            && r.orders.regraphs == h.orders.regraphs + One(op.OnOrder?)
            && r.actions.commanded == h.actions.commanded + CommandedIds(s, op)
            && r.actions.clashes == h.actions.clashes + ClashedIds(s, op)
            && r.orders.taken == h.orders.taken + TakenIds(op)
            && r.orders.hibernations == h.orders.hibernations + One(op.OnOrder? && op.o.Clearing?)
            && r.actions.broken == h.actions.broken + BrokenIds(s, op)
            && r.orders.cancels == h.orders.cancels + One(op.OnOrder? && op.o.FinishingCancel?)
            && r.trip.jumps >= h.trip.jumps + One(Repositions(s, op)) && r.trip.charges >= h.trip.charges
  {
    hide ActionEnabled, ApplyAction, MoveEnabled, ApplyMove, TrafficEnabled, ApplyTraffic, UnitEnabled;
    match op
    case OnAction(a) =>
      ActionFrame(w, s, a);
      ActionCounters(w, s, a);
      ActionMarks(w, s, a);
    case OnOrder(o) =>
    case OnMove(m) =>
      MoveFrame(w, s, m);
      MoveCounters(w, s, m);
    case OnTraffic(t) => TrafficFrame(w, s, t);
    case OnUnit(u) => UnitFrame(w, s, u);
  }

  lemma MoveCounters(w: World, s: Robot, op: MoveOp)
    requires MoveEnabled(w, s, op)
    ensures ApplyMove(w, s, op).hist.trip.jumps >= s.hist.trip.jumps
    ensures ApplyMove(w, s, op).hist.trip.odometer >= s.hist.trip.odometer
  {
    hide StepTowards, MayDrive, Held, CurrentNode, FindEdge, Holders, Without, WithoutEdge;
  }

  // ---- events and runs ---------------------------------------------------------------

  /** What can happen to a robot. A beat is one round of the movement loop: a tick followed
      at once by a fault round. */
  datatype Event =
    | OrderMessage(order: Order)
    | InstantActionsMessage(actions: seq<Action>)
    | ZoneSetMessage(zoneSet: ZoneSet)
    | ResponsesMessage(responses: seq<Response>)
    | Beat(dt: Span, now: real, draws: Draws)
    | StatePublished

  ghost function Step(w: World, s: Robot, e: Event): Robot {
    match e
    case OrderMessage(o) => HandleOrder(w, s, o)
    case InstantActionsMessage(actions) => HandleInstantActions(w, s, actions)
    case ZoneSetMessage(z) => HandleZoneSet(s, z)
    case ResponsesMessage(responses) => HandleResponses(s, responses)
    case Beat(dt, now, draws) => MaybeInjectFault(w, Tick(w, s, dt, now), dt, draws)
    case StatePublished => Publish(s)
  }

  ghost function Run(w: World, s: Robot, events: seq<Event>): Robot
    decreases |events|
  {
    if events == [] then s else Run(w, Step(w, s, events[0]), events[1..])
  }

  lemma {:induction false} RunAppend(w: World, s: Robot, a: seq<Event>, b: seq<Event>)
    ensures Run(w, s, a + b) == Run(w, Run(w, s, a), b)
    decreases |a|
  {
    hide Step;
    if a == [] {
      assert a + b == b;
    } else {
      assert (a + b)[1..] == a[1..] + b;
      RunAppend(w, Step(w, s, a[0]), a[1..], b);
    }
  }

  // ---- the gates say what they check ------------------------------------------------------

  lemma AgainstIsWrongWay(w: World, s: Robot, zone: Zone, x: real, y: real)
    ensures AgainstDirection(w, s, zone, x, y) <==> WrongWay(w, s, zone, x, y)
  {
    hide Heading.DirectionViolated, Heading.Within;
    if zone.direction.Some? {
      Heading.ViolatedIffAside(w.pi, zone.zoneType, zone.direction.value, w.atan2(y - s.pose.y, x - s.pose.x));
    }
  }

  lemma DirectedIsNoAccess(w: World, s: Robot, zone: Zone, x: real, y: real)
    ensures WrongWay(w, s, zone, x, y) ==> zone.zoneType.Directed? || zone.zoneType.Bidirected?
  {
    hide Heading.Within;
  }

  /** A robot on its way with the direction of a zone is never stopped by it, and one on its way against
      that of a DIRECTED zone always, if the direction is binding; a BIDIRECTED zone lets both pass. */
  lemma WithAndAgainst(w: World, s: Robot, zone: Zone, dx: real, dy: real, k: real, x: real, y: real)
    requires Atan2Law(w) && Multiple(k, dx, dy, x - s.pose.x, y - s.pose.y)
    requires zone.direction.Some? && (zone.limitation == Some(Strict) || zone.limitation == Some(Restricted))
    ensures zone.direction.value == w.atan2(dy, dx) ==> !AgainstDirection(w, s, zone, x, y)
    ensures zone.direction.value == w.atan2(dy, dx) + w.pi ==>
              (AgainstDirection(w, s, zone, x, y) <==> zone.zoneType.Directed?)
  {
    hide Heading.Within;
    AgainstIsWrongWay(w, s, zone, x, y);
    Heading.AlongAndBack(w.pi, w.atan2(dy, dx));
  }

  /** The zone gates hold exactly when some zone is not open; when none holds nothing is asked for. */
  lemma {:induction false} ZoneGatesHold(w: World, s: Robot, zones: seq<Zone>, x: real, y: real)
    ensures ZoneGates(w, s, zones, x, y).hold <==> exists z :: z in zones && !ZoneOpen(w, s, z, x, y)
    ensures !ZoneGates(w, s, zones, x, y).hold ==> ZoneGates(w, s, zones, x, y).robot == s
    decreases |zones|
  {
    hide AgainstDirection, WrongWay;
    if zones != [] {
      var g := ZoneGate(w, s, zones[0], x, y);
      AgainstIsWrongWay(w, s, zones[0], x, y);
      DirectedIsNoAccess(w, s, zones[0], x, y);
      assert g.hold <==> !ZoneOpen(w, s, zones[0], x, y);
      assert zones[0] in zones;
      if !g.hold {
        assert g.robot == s;
        ZoneGatesHold(w, s, zones[1..], x, y);
        assert forall z :: z in zones <==> z == zones[0] || z in zones[1..];
      }
    }
  }

  /** The gates hold exactly when the way is not open; when they do not hold nothing is asked for. */
  lemma GatesHold(w: World, s: Robot, edge: Edge, next: Node)
    ensures CheckGates(w, s, edge, next).hold <==> !GatesOpen(w, s, edge, next)
    ensures !CheckGates(w, s, edge, next).hold ==> CheckGates(w, s, edge, next).robot == s
  {
    var c := CorridorGate(s, edge);
    assert c.hold <==> !CorridorOpen(s, edge);
    if next.position.Some? && !c.hold {
      var p := next.position.value;
      ZoneGatesHold(w, s, ZonesAt(s.site.zoneSets, s.pose.mapId, p.x, p.y), p.x, p.y);
    }
  }

  lemma CheckedLeasesAreFresh(w: World, s: Robot, now: real)
    ensures LeasesFresh(w, CheckLeases(w, s, now), now)
  {
  }

  // ---- induction over runs -------------------------------------------------------------------

  lemma Fire(w: World, inv: Robot -> bool, s: Robot, op: Op)
    requires Kept(w, inv) && inv(s) && Enabled(w, s, op)
    ensures inv(Apply(w, s, op))
  {
    assert Keeps(w, inv)(s, op);
  }

  lemma RegisterAllKeeps(w: World, inv: Robot -> bool, s: Robot, actions: seq<Action>, scope: Scope)
    requires Kept(w, inv) && inv(s) && (scope.NodeScope? || scope.EdgeScope?)
    requires forall a :: a in actions ==> Boards(s, a, scope)
    ensures inv(RegisterAll(w, s, actions, scope))
    decreases |actions|
  {
    hide Kept;
    if actions != [] {
      var a := actions[0];
      assert forall b :: b in actions[1..] ==> b in actions;
      if a.id in Ids(s.book.order) {
        RegisterAllKeeps(w, inv, s, actions[1..], scope);
      } else {
        Fire(w, inv, s, if Accepted(a.kind, scope, w.cfg.supported) then OnAction(Spawning(OrderTrack, a, scope))
                        else OnAction(Refusing(OrderTrack, a, Some(ValidationError))));
        RegisterAllKeeps(w, inv, RegisterOrderAction(w, s, a, scope), actions[1..], scope);
      }
    }
  }

  lemma TakenBoards(s: Robot, o: Order, isUpdate: bool)
    ensures TakeOrder(s, o, isUpdate).hist.trip.legs == 0 && TakeOrder(s, o, isUpdate).task.snapshot == Some(o)
  {
  }

  lemma {:induction false} RegistrationBoards(w: World, s: Robot, actions: seq<Action>, scope: Scope)
    ensures var r := RegisterAll(w, s, actions, scope);
            r.task == s.task && r.hist.trip.legs == s.hist.trip.legs
    decreases |actions|
  {
    hide LiveId, Ids, Accepted;
    if actions != [] {
      var t := if actions[0].id in Ids(s.book.order) then s else RegisterOrderAction(w, s, actions[0], scope);
      RegistrationBoards(w, t, actions[1..], scope);
    }
  }

  lemma HandleOrderKeeps(w: World, inv: Robot -> bool, s: Robot, o: Order)
    requires Kept(w, inv) && inv(s)
    ensures inv(HandleOrder(w, s, o))
  {
    hide Kept, AcceptOrder;
    if !s.mode.hibernating {
      Fire(w, inv, s, OnUnit(Reporting(multiset(set m | m in UnknownMaps(s, o) :: UnknownMapId(m)))));
      var s := WarnUnknownMaps(s, o);
      if s.task.orderId != "" && o.orderId == s.task.orderId {
        if o.updateId > s.task.updateId {
          AcceptOrderKeeps(w, inv, s, o, true);
        } else {
          var error := if o.updateId == s.task.updateId then SameOrderUpdateId else OutdatedOrderUpdate;
          Fire(w, inv, s, OnUnit(Reporting(multiset{error})));
        }
      } else if Idle(s) {
        AcceptOrderKeeps(w, inv, s, o, false);
      } else {
        Fire(w, inv, s, OnUnit(Reporting(multiset{OtherOrderActive})));
      }
    }
  }

  lemma AcceptOrderKeeps(w: World, inv: Robot -> bool, s: Robot, o: Order, isUpdate: bool)
    requires Kept(w, inv) && inv(s) && Enabled(w, s, OnOrder(Taking(o, isUpdate)))
    ensures inv(AcceptOrder(w, s, o, isUpdate))
  {
    hide Kept, TakeOrder;
    Fire(w, inv, s, OnOrder(Taking(o, isUpdate)));
    var t := TakeOrder(s, o, isUpdate);
    TakenBoards(s, o, isUpdate);
    RegisterAllKeeps(w, inv, t, NodeActions(o.nodes), NodeScope);
    var n := RegisterAll(w, t, NodeActions(o.nodes), NodeScope);
    RegistrationBoards(w, t, NodeActions(o.nodes), NodeScope);
    RegisterAllKeeps(w, inv, n, EdgeActions(o.edges), EdgeScope);
    Fire(w, inv, RegisterAll(w, n, EdgeActions(o.edges), EdgeScope), OnMove(BaseServed));
  }

  lemma AcknowledgedKeeps(w: World, inv: Robot -> bool, s: Robot, a: Action)
    requires Kept(w, inv) && inv(s)
    ensures inv(Acknowledge(s, a))
  {
    hide Kept;
    Fire(w, inv, s, OnAction(Acknowledging(a)));
  }

  lemma RefusedKeeps(w: World, inv: Robot -> bool, s: Robot, a: Action, error: ErrorKind)
    requires Kept(w, inv) && inv(s)
    ensures inv(RefuseInstant(s, a, error))
  {
    hide Kept;
    Fire(w, inv, s, OnAction(Refusing(InstantTrack, a, Some(error))));
  }

  lemma SpawnedKeeps(w: World, inv: Robot -> bool, s: Robot, a: Action)
    requires Kept(w, inv) && inv(s) && Accepted(a.kind, InstantScope, w.cfg.supported) && !a.kind.CancelOrder?
    ensures inv(Spawn(s, InstantTrack, a))
  {
    hide Kept;
    Fire(w, inv, s, OnAction(Spawning(InstantTrack, a, InstantScope)));
  }

  lemma HandleInstantActionKeeps(w: World, inv: Robot -> bool, s: Robot, a: Action)
    requires Kept(w, inv) && inv(s)
    ensures inv(HandleInstantAction(w, s, a))
  {
    hide Kept, CarryOut, RefuseInstant;
    RefusedKeeps(w, inv, s, a, InvalidInstantAction);
    RefusedKeeps(w, inv, s, a, ValidationError);
    if ScopeAllowed(a.kind, InstantScope) {
      CarryOutKeeps(w, inv, s, a);
    }
  }

  lemma CarryOutKeeps(w: World, inv: Robot -> bool, s: Robot, a: Action)
    requires Kept(w, inv) && inv(s) && ScopeAllowed(a.kind, InstantScope)
    ensures inv(CarryOut(w, s, a))
  {
    hide Kept, RefuseInstant, Spawn, AskCancel, SetPaused, Forget, Hibernate, AbandonOrder, WakeUp, Command,
      Acknowledge, Idle;
    match a.kind
    case CancelOrder =>
      RefusedKeeps(w, inv, s, a, NoOrderToCancel);
      AskedCancelKeeps(w, inv, s, a);
    case DownloadMap =>
      RefusedKeeps(w, inv, s, a, DuplicateMap);
      SpawnedKeeps(w, inv, s, a);
    case DownloadZoneSet =>
      RefusedKeeps(w, inv, s, a, DuplicateZoneSet);
      SpawnedKeeps(w, inv, s, a);
    case Custom(_) =>
      RefusedKeeps(w, inv, s, a, ValidationError);
      if a.kind in w.cfg.supported { SpawnedKeeps(w, inv, s, a); }
    case Retry | SkipRetry | Trigger => CommandKeeps(w, inv, s, a);
    case StartPause | StopPause => PauseKeeps(w, inv, s, a);
    case ClearInstantActions | ClearZoneActions => ForgetKeeps(w, inv, s, a);
    case StartHibernation | StopHibernation => HibernationKeeps(w, inv, s, a);
    case StateRequest | LogReport | FactsheetRequest | Shutdown =>
      RefusedKeeps(w, inv, s, a, ValidationError);
      AcknowledgedKeeps(w, inv, s, a);
      FlagsKeep(w, inv, s, a);
    case _ => SpawnedKeeps(w, inv, s, a);
  }

  lemma AskedCancelKeeps(w: World, inv: Robot -> bool, s: Robot, a: Action)
    requires Kept(w, inv) && inv(s) && a.kind.CancelOrder?
    ensures s.task.orderId != "" && !Idle(s) ==> inv(AskCancel(s, a))
  {
    hide Kept;
    if s.task.orderId != "" && !Idle(s) { Fire(w, inv, s, OnAction(AskingCancel(a))); }
  }

  lemma PauseKeeps(w: World, inv: Robot -> bool, s: Robot, a: Action)
    requires Kept(w, inv) && inv(s)
    ensures inv(Acknowledge(SetPaused(s, true), a)) && inv(Acknowledge(SetPaused(s, false), a))
  {
    hide Kept, Acknowledge;
    Fire(w, inv, s, OnAction(Pausing(true)));
    Fire(w, inv, s, OnAction(Pausing(false)));
    AcknowledgedKeeps(w, inv, SetPaused(s, true), a);
    AcknowledgedKeeps(w, inv, SetPaused(s, false), a);
  }

  lemma ForgetKeeps(w: World, inv: Robot -> bool, s: Robot, a: Action)
    requires Kept(w, inv) && inv(s)
    ensures inv(Acknowledge(Forget(s, InstantTrack), a)) && inv(Acknowledge(Forget(s, ZoneTrack), a))
  {
    hide Kept, Acknowledge;
    Fire(w, inv, s, OnAction(Forgetting(InstantTrack)));
    Fire(w, inv, s, OnAction(Forgetting(ZoneTrack)));
    AcknowledgedKeeps(w, inv, Forget(s, InstantTrack), a);
    AcknowledgedKeeps(w, inv, Forget(s, ZoneTrack), a);
  }

  lemma HibernationKeeps(w: World, inv: Robot -> bool, s: Robot, a: Action)
    requires Kept(w, inv) && inv(s)
    ensures inv(Acknowledge(Hibernate(AbandonOrder(s), a), a)) && inv(Acknowledge(WakeUp(s), a))
  {
    hide Kept, Acknowledge;
    Fire(w, inv, s, OnOrder(Clearing));
    Fire(w, inv, AbandonOrder(s), OnUnit(Hibernating(a)));
    Fire(w, inv, s, OnUnit(Waking));
    AcknowledgedKeeps(w, inv, Hibernate(AbandonOrder(s), a), a);
    AcknowledgedKeeps(w, inv, WakeUp(s), a);
  }

  lemma FlagsKeep(w: World, inv: Robot -> bool, s: Robot, a: Action)
    requires Kept(w, inv) && inv(s)
    ensures inv(Acknowledge(s.(factsheetRequested := true), a))
    ensures inv(Acknowledge(s.(mode := s.mode.(shutdownRequested := true)), a))
  {
    hide Kept, Acknowledge;
    Fire(w, inv, s, OnUnit(AskingFactsheet));
    Fire(w, inv, s, OnUnit(ShuttingDown));
    AcknowledgedKeeps(w, inv, s.(factsheetRequested := true), a);
    AcknowledgedKeeps(w, inv, s.(mode := s.mode.(shutdownRequested := true)), a);
  }

  lemma CommandKeeps(w: World, inv: Robot -> bool, s: Robot, a: Action)
    requires Kept(w, inv) && inv(s) && (a.kind.Retry? || a.kind.SkipRetry? || a.kind.Trigger?)
    ensures inv(Command(s, a))
  {
    hide Kept, RefuseInstant, Acknowledge;
    var target := if a.kind.Trigger? then TriggerTarget(s.book, a) else RetriableTarget(s.book, a);
    if target.None? {
      RefusedKeeps(w, inv, s, a, ValidationError);
    } else {
      CommandedKeeps(w, inv, s, target.value);
      if a.kind.Retry? {
        AcknowledgedKeeps(w, inv, RetryEntry(s, target.value), a);
      } else {
        AcknowledgedKeeps(w, inv, Intervene(s, target.value, if a.kind.Trigger? then Finished else Failed), a);
      }
    }
  }

  lemma CommandedKeeps(w: World, inv: Robot -> bool, s: Robot, p: Spot)
    requires Kept(w, inv) && inv(s) && Valid(s.book, p)
    ensures inv(Intervene(s, p, Finished))
    ensures At(s.book, p).status.Retriable? ==> inv(RetryEntry(s, p)) && inv(Intervene(s, p, Failed))
  {
    hide Kept;
    Fire(w, inv, s, OnAction(Triggering(p)));
    if At(s.book, p).status.Retriable? {
      Fire(w, inv, s, OnAction(Retrying(p)));
      Fire(w, inv, s, OnAction(Skipping(p)));
    }
  }

  lemma HandleInstantActionsKeeps(w: World, inv: Robot -> bool, s: Robot, actions: seq<Action>)
    requires Kept(w, inv) && inv(s)
    ensures inv(HandleInstantActions(w, s, actions))
    decreases |actions|
  {
    hide Kept, HandleInstantAction;
    if actions != [] {
      HandleInstantActionKeeps(w, inv, s, actions[0]);
      HandleInstantActionsKeeps(w, inv, HandleInstantAction(w, s, actions[0]), actions[1..]);
    }
  }

  lemma HandleResponsesKeeps(w: World, inv: Robot -> bool, s: Robot, responses: seq<Response>)
    requires Kept(w, inv) && inv(s)
    ensures inv(HandleResponses(s, responses))
    decreases |responses|
  {
    hide Kept;
    if responses != [] {
      Fire(w, inv, s, OnTraffic(Answering(responses[0])));
      HandleResponsesKeeps(w, inv, ApplyResponse(s, responses[0]), responses[1..]);
    }
  }

  lemma AdvanceOneKeeps(w: World, inv: Robot -> bool, s: Robot, p: Spot)
    requires Kept(w, inv) && inv(s) && Active(s) && Registered(s, p)
    ensures inv(AdvanceOne(w, s, p).robot) && Active(AdvanceOne(w, s, p).robot)
  {
    hide Kept;
    if At(s.book, p).status.Waiting? {
      Fire(w, inv, s, OnAction(Beginning(p)));
    }
    var s := if At(s.book, p).status.Waiting? then BeginEntry(s, p) else s;
    var e := At(s.book, p);
    if e.status.Running? && Due(w, s.book, e.id, s.book.registry[e.id]) {
      Fire(w, inv, s, OnAction(Completing(p)));
    }
  }

  lemma SweepKeeps(w: World, inv: Robot -> bool, s: Robot, t: Track, i: nat)
    requires Kept(w, inv) && inv(s) && Active(s)
    ensures inv(Sweep(w, s, t, i)) && Active(Sweep(w, s, t, i))
    decreases |Entries(s.book, t)| - i
  {
    hide Kept, AdvanceOne;
    if i < |Entries(s.book, t)| {
      if Entries(s.book, t)[i].id !in s.book.registry {
        SweepKeeps(w, inv, s, t, i + 1);
      } else {
        AdvanceOneKeeps(w, inv, s, Spot(t, i));
        var r := AdvanceOne(w, s, Spot(t, i));
        SweepKeeps(w, inv, r.robot, t, r.spot.index + 1);
      }
    }
  }

  lemma RegisterZoneActionsKeeps(w: World, inv: Robot -> bool, s: Robot, actions: seq<Action>)
    requires Kept(w, inv) && inv(s)
    ensures var r := RegisterZoneActions(w, s, actions);
            inv(r) && r.mode == s.mode && r.faults == s.faults && r.traffic == s.traffic
            && r.site == s.site && r.pose == s.pose
    decreases |actions|
  {
    hide Kept;
    if actions != [] {
      var a := actions[0];
      if a.id !in s.book.registry {
        Fire(w, inv, s, if Accepted(a.kind, ZoneScope, w.cfg.supported) then OnAction(Spawning(ZoneTrack, a, ZoneScope))
                        else OnAction(Refusing(ZoneTrack, a, None)));
      }
      RegisterZoneActionsKeeps(w, inv, RegisterZoneAction(w, s, a), actions[1..]);
    }
  }

  lemma SweepAllKeeps(w: World, inv: Robot -> bool, s: Robot)
    requires Kept(w, inv) && inv(s) && Active(s)
    ensures inv(SweepAll(w, s)) && Active(SweepAll(w, s))
  {
    hide Kept, Sweep;
    SweepKeeps(w, inv, s, OrderTrack, 0);
    var a := Sweep(w, s, OrderTrack, 0);
    SweepKeeps(w, inv, a, InstantTrack, 0);
    SweepKeeps(w, inv, Sweep(w, a, InstantTrack, 0), ZoneTrack, 0);
  }

  /** An active tick after its clock has advanced, up to its movement part. */
  ghost function Swept(w: World, s: Robot, now: real): Robot {
    UpdateZoneActions(w, CheckLeases(w, SweepAll(w, s), now))
  }

  lemma SweptKeeps(w: World, inv: Robot -> bool, s: Robot, now: real)
    requires Kept(w, inv) && inv(s) && Active(s)
    ensures var r := Swept(w, s, now);
            inv(r) && Active(r) && LeasesFresh(w, r, now)
  {
    hide Kept, SweepAll;
    SweepAllKeeps(w, inv, s);
    var d := SweepAll(w, s);
    Fire(w, inv, d, OnTraffic(CheckingLeases(now)));
    CheckedLeasesAreFresh(w, d, now);
    var e := CheckLeases(w, d, now);
    var present := PresentZones(e);
    var actions := EntryActions(present, e.site.occupancy) + ExitActions(e.site.occupancy, present);
    RegisterZoneActionsKeeps(w, inv, e, actions);
    Fire(w, inv, RegisterZoneActions(w, e, actions), OnUnit(NotingZones));
  }

  lemma PrepareKeeps(w: World, inv: Robot -> bool, s: Robot, dt: Span, now: real)
    requires Kept(w, inv) && inv(s) && Active(s)
    ensures var r := Prepare(w, s, dt, now);
            inv(r) && Active(r) && LeasesFresh(w, r, now)
  {
    hide Kept, UpdateZoneActions, SweepAll, CheckLeases;
    Fire(w, inv, s, OnAction(Clocking(dt)));
    SweptKeeps(w, inv, AdvanceClock(s, dt), now);
  }

  lemma ZoneGatesKeep(w: World, inv: Robot -> bool, s: Robot, zones: seq<Zone>, x: real, y: real)
    requires Kept(w, inv) && inv(s) && Active(s)
    ensures inv(ZoneGates(w, s, zones, x, y).robot)
    decreases |zones|
  {
    hide Kept;
    if zones != [] {
      var g := ZoneGate(w, s, zones[0], x, y);
      if RequiresAccess(zones[0]) {
        if Enabled(w, s, OnTraffic(AskingAccess(zones[0]))) {
          Fire(w, inv, s, OnTraffic(AskingAccess(zones[0])));
        }
      } else if g.hold {
        Fire(w, inv, s, OnMove(AskingBase));
      }
      ZoneGatesKeep(w, inv, g.robot, zones[1..], x, y);
    }
  }

  lemma CheckGatesKeep(w: World, inv: Robot -> bool, s: Robot, edge: Edge, next: Node)
    requires Kept(w, inv) && inv(s) && Active(s)
    ensures inv(CheckGates(w, s, edge, next).robot)
  {
    hide Kept;
    if Enabled(w, s, OnTraffic(AskingCorridor(edge))) {
      Fire(w, inv, s, OnTraffic(AskingCorridor(edge)));
    }
    if next.position.Some? {
      var p := next.position.value;
      ZoneGatesKeep(w, inv, CorridorGate(s, edge).robot, ZonesAt(s.site.zoneSets, s.pose.mapId, p.x, p.y), p.x, p.y);
    }
  }

  lemma MoveKeeps(w: World, inv: Robot -> bool, s: Robot, dt: Span, now: real)
    requires Kept(w, inv) && inv(s) && Active(s) && LeasesFresh(w, s, now)
    ensures inv(Move(w, s, dt))
  {
    hide Kept, Proceed, Held, LeasesFresh, CurrentNode, FindEdge;
    HaltedKeeps(w, inv, s);
    if s.task.nodes != [] {
      var at := CurrentNode(s.task);
      var edge := FindEdge(s.task.edges, at.seqId + 1);
      if !Held(s, OwnerActions(at, edge)) {
        BaseWantedKeeps(w, inv, s, at, edge, now);
        ProceedKeeps(w, inv, MaybeRequestBase(w, s), at, edge, dt, now);
      }
    }
  }

  lemma HaltedKeeps(w: World, inv: Robot -> bool, s: Robot)
    requires Kept(w, inv) && inv(s)
    ensures inv(Halt(s)) && inv(WantBase(s)) && inv(Halt(WantBase(s)))
  {
    hide Kept;
    Fire(w, inv, s, OnMove(Halting));
    Fire(w, inv, s, OnMove(AskingBase));
    Fire(w, inv, WantBase(s), OnMove(Halting));
  }

  lemma BaseWantedKeeps(w: World, inv: Robot -> bool, s: Robot, at: Node, edge: Option<Edge>, now: real)
    requires Kept(w, inv) && inv(s) && Active(s) && LeasesFresh(w, s, now)
    requires s.task.nodes != [] && at == CurrentNode(s.task) && !Held(s, OwnerActions(at, edge))
    ensures var r := MaybeRequestBase(w, s);
            && inv(r) && Active(r) && LeasesFresh(w, r, now)
            && r.task.nodes == s.task.nodes && r.task.edges == s.task.edges && at == CurrentNode(r.task)
            && !Held(r, OwnerActions(at, edge))
  {
    hide Kept;
    HaltedKeeps(w, inv, s);
  }

  /** The one operation that moves the robot is fired only in a state that may drive. */
  lemma ProceedKeeps(w: World, inv: Robot -> bool, s: Robot, at: Node, edge: Option<Edge>, dt: Span, now: real)
    requires Kept(w, inv) && inv(s) && Active(s) && LeasesFresh(w, s, now)
    requires s.task.nodes != [] && at == CurrentNode(s.task) && edge == FindEdge(s.task.edges, at.seqId + 1)
    requires !Held(s, OwnerActions(at, edge))
    ensures inv(Proceed(w, s, at, edge, dt))
  {
    hide Kept, CheckGates, GatesOpen, LeasesFresh, Held, Halt, WantBase, Drive, LeaveGraph, Active, CurrentNode,
      FindEdge, FindNode;
    if edge.None? {
      Fire(w, inv, s, OnMove(Leaving(at)));
    } else {
      var next := FindNode(s.task.nodes, edge.value.seqId + 1);
      HaltedKeeps(w, inv, s);
      if edge.value.released && next.Some? && next.value.released {
        CheckGatesKeep(w, inv, s, edge.value, next.value);
        GatesHold(w, s, edge.value, next.value);
        var g := CheckGates(w, s, edge.value, next.value);
        HaltedKeeps(w, inv, g.robot);
        if !g.hold {
          Fire(w, inv, s, OnMove(Driving(at, edge.value, next.value, dt, now)));
        }
      }
    }
  }

  lemma TickKeeps(w: World, inv: Robot -> bool, s: Robot, dt: Span, now: real)
    requires Kept(w, inv) && inv(s)
    ensures inv(Tick(w, s, dt, now))
  {
    hide Kept, Prepare, Move, FinishCancel;
    Fire(w, inv, s, OnUnit(Waking));
    if !s.mode.hibernating {
      Fire(w, inv, s, OnUnit(Charging(dt)));
      var s := UpdateCharging(w, s, dt);
      if s.mode.cancel.Some? {
        Fire(w, inv, s, OnOrder(FinishingCancel));
      } else if Active(s) {
        PrepareKeeps(w, inv, s, dt, now);
        MoveKeeps(w, inv, Prepare(w, s, dt, now), dt, now);
      }
    }
  }

  lemma InjectKeeps(w: World, inv: Robot -> bool, s: Robot, dt: Span, draws: Draws)
    requires Kept(w, inv) && inv(s)
    ensures inv(MaybeInjectFault(w, s, dt, draws))
  {
    hide Kept;
    Fire(w, inv, s, OnUnit(RunningFaults(dt, draws)));
    var s := RunFaultTimers(s, dt, draws);
    var p := FirstRetriable(s.book);
    if p.Some? {
      Fire(w, inv, s, OnAction(Breaking(p.value)));
    } else {
      Fire(w, inv, s, OnUnit(Reporting(multiset{HardwareFault})));
    }
  }

  lemma StepKeeps(w: World, inv: Robot -> bool, s: Robot, e: Event)
    requires Kept(w, inv) && inv(s)
    ensures inv(Step(w, s, e))
  {
    hide Kept, HandleOrder, HandleInstantActions, HandleResponses, HandleZoneSet, Tick, MaybeInjectFault, Publish;
    match e
    case OrderMessage(o) => HandleOrderKeeps(w, inv, s, o);
    case InstantActionsMessage(actions) => HandleInstantActionsKeeps(w, inv, s, actions);
    case ZoneSetMessage(z) => Fire(w, inv, s, OnUnit(StoringZones(z)));
    case ResponsesMessage(responses) => HandleResponsesKeeps(w, inv, s, responses);
    case Beat(dt, now, draws) =>
      TickKeeps(w, inv, s, dt, now);
      InjectKeeps(w, inv, Tick(w, s, dt, now), dt, draws);
    case StatePublished => Fire(w, inv, s, OnUnit(Publishing));
  }

  /** What every enabled operation keeps, every run keeps. */
  lemma {:induction false} RunInduction(w: World, inv: Robot -> bool, s: Robot, events: seq<Event>)
    requires Kept(w, inv) && inv(s)
    ensures inv(Run(w, s, events))
    decreases |events|
  {
    hide Kept, Step;
    if events != [] {
      StepKeeps(w, inv, s, events[0]);
      RunInduction(w, inv, Step(w, s, events[0]), events[1..]);
    }
  }
}
