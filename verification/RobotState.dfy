/** The whole state of one robot as a value, and what every message, tick and fault
    does to it. The class `SimulatedAgv` is proved against these functions, and the
    properties are proved about them. */
module RobotState {
  import opened Vda5050
  import opened Platform
  import opened ActionCatalog
  import opened Heading
  import Polygon

  // ---- state -----------------------------------------------------------------

  /** The three lists of action entries. */
  datatype Track = OrderTrack | InstantTrack | ZoneTrack

  /** The place of an entry. */
  datatype Spot = Spot(track: Track, index: nat)

  /** The active order and how far it has been traversed: `nodes` and `edges` are what remains. */
  datatype Task = Task(
    orderId: string, updateId: int, snapshot: Option<Order>, nodes: seq<Node>, edges: seq<Edge>,
    lastNodeId: string, lastSeq: int, newBaseRequest: bool, driving: bool)

  /** Action entries, the registry of definitions that outlives the graph, and the pausable clock. */
  datatype Book = Book(
    order: seq<Entry>, instant: seq<Entry>, zone: seq<Entry>,
    registry: map<string, Action>, startedAt: map<string, real>, clock: real)

  datatype Mode = Mode(
    paused: bool, hibernating: bool, wakeUpAt: Option<string>, shutdownRequested: bool, cancel: Option<string>)

  datatype Faults = Faults(
    fieldViolation: bool, operating: OperatingMode, stop: EmergencyStop,
    clock: real, fieldUntil: real, modeUntil: real, stopUntil: real)

  datatype Pose = Pose(
    x: real, y: real, theta: real, mapId: string, lastStep: real, sinceNode: real, battery: real, charging: bool)

  /** Maps by (mapId, mapVersion) with their ENABLED flag, zone sets in arrival order, ACTION
      zones occupied, and the loads carried. */
  datatype Site = Site(
    maps: map<(string, string), bool>, zoneSets: seq<ZoneSet>, zoneSetEnabled: map<string, bool>,
    occupancy: seq<Zone>, loads: seq<Load>)

  datatype Traffic = Traffic(
    zoneRequests: seq<ZoneRequest>, edgeRequests: seq<EdgeRequest>, leases: map<string, string>)

  /** An applied side effect: whose entry, on which track, and under which definition. */
  datatype Effect = Effect(track: Track, id: string, def: Action)

  /** Where the robot stood, and what it counted, when it took the graph it has. */
  datatype Boarding = Boarding(lastSeq: int, pose: Pose, odometer: real, jumps: nat, charges: nat)

  // History variables: nothing the robot does depends on them.

  datatype ActionLog = ActionLog(
    spawned: seq<string>,            // ids of the entries created non-terminal, in order
    zoneSpawned: seq<string>,        // those among them created by zones
    effects: seq<Effect>,            // side effects applied, in order
    commanded: multiset<string>,     // ids of the entries retry, skipRetry and trigger acted on
    broken: multiset<string>,        // ids of the running entries injected failures broke
    clashes: set<string>)            // ids given to an entry while another live entry carried or could claim them

  datatype TripLog = TripLog(
    odometer: real,                  // distance driven
    legs: nat,                       // nodes left behind since the graph was last replaced
    settled: set<string>,            // movement-holding actions of the owners left behind in this order
    jumps: nat,                      // pose changes other than driving forwards
    charges: nat,                    // ticks that changed the battery by charging
    boarded: Boarding)               // at the last time a graph was taken

  datatype OrderLog = OrderLog(
    regraphs: nat,                   // times the graph was replaced or cleared
    renewals: nat,                   // those of them that were not order updates
    taken: seq<string>,              // ids of the orders taken other than as updates, in order
    graphs: seq<Order>,              // orders taken, updates among them, in order
    current: nat,                    // index of the first of them that belongs to the present order
    hibernations: nat,               // times a startHibernation ended the order
    cancels: nat)                    // cancellations carried out

  datatype RequestLog = RequestLog(
    answers: map<string, GrantType>, // the last answer other than QUEUED to each request id since the last renewal
    promises: map<string, string>,   // the last lease answered to each known request id
    lapsed: set<string>)             // request ids whose grant has lapsed since the last answer other than QUEUED

  datatype History = History(actions: ActionLog, trip: TripLog, orders: OrderLog, requests: RequestLog)

  datatype Robot = Robot(
    task: Task, book: Book, mode: Mode, faults: Faults, pose: Pose, site: Site, traffic: Traffic,
    errors: multiset<ErrorKind>, factsheetRequested: bool, hist: History)

  const NO_TASK := Task("", 0, None, [], [], "", 0, false, false)

  function PowerOnPose(x: real, y: real, theta: real, battery: real): Pose {
    Pose(x, y, theta, "default", 0.0, 0.0, battery, false)
  }

  function NoHistory(pose: Pose): History {
    History(ActionLog([], [], [], multiset{}, multiset{}, {}), TripLog(0.0, 0, {}, 0, 0, Boarding(0, pose, 0.0, 0, 0)),
            OrderLog(0, 0, [], [], 0, 0, 0), RequestLog(map[], map[], {}))
  }

  function Initial(x: real, y: real, theta: real, battery: real): Robot {
    Robot(
      NO_TASK,
      Book([], [], [], map[], map[], 0.0),
      Mode(false, false, None, false, None),
      Faults(false, Automatic, NoStop, 0.0, 0.0, 0.0, 0.0),
      PowerOnPose(x, y, theta, battery),
      Site(map[], [], map[], [], []),
      Traffic([], [], map[]),
      multiset{}, true, NoHistory(PowerOnPose(x, y, theta, battery)))
  }

  // ---- sequences -------------------------------------------------------------

  /** The first index whose element satisfies `p`, or the length. */
  function FirstIndex<T>(xs: seq<T>, p: T -> bool): (i: nat)
    ensures i <= |xs| && (i < |xs| ==> p(xs[i]))
    ensures forall k :: 0 <= k < i ==> !p(xs[k])
  {
    if xs == [] || p(xs[0]) then 0
    else
      var i := FirstIndex(xs[1..], p);
      assert forall k :: 0 < k <= i ==> xs[k] == xs[1..][k - 1];
      i + 1
  }

  function Filter<T(!new)>(xs: seq<T>, p: T -> bool): (r: seq<T>)
    ensures |r| <= |xs|
    ensures forall x :: x in r <==> x in xs && p(x)
  {
    if xs == [] then []
    else
      assert forall x :: x in xs <==> x == xs[0] || x in xs[1..];
      (if p(xs[0]) then [xs[0]] else []) + Filter(xs[1..], p)
  }

  // ---- the action book ---------------------------------------------------------

  function Entries(b: Book, t: Track): seq<Entry> {
    match t
    case OrderTrack => b.order
    case InstantTrack => b.instant
    case ZoneTrack => b.zone
  }

  function WithEntries(b: Book, t: Track, es: seq<Entry>): Book {
    match t
    case OrderTrack => b.(order := es)
    case InstantTrack => b.(instant := es)
    case ZoneTrack => b.(zone := es)
  }

  predicate Valid(b: Book, p: Spot) { p.index < |Entries(b, p.track)| }

  function At(b: Book, p: Spot): Entry
    requires Valid(b, p)
  {
    Entries(b, p.track)[p.index]
  }

  function SetStatus(b: Book, p: Spot, status: Status): (r: Book)
    requires Valid(b, p)
    ensures r == b.(order := r.order, instant := r.instant, zone := r.zone)
  {
    WithEntries(b, p.track, Entries(b, p.track)[p.index := At(b, p).(status := status)])
  }

  function Append(b: Book, t: Track, e: Entry): (r: Book)
    ensures r == b.(order := r.order, instant := r.instant, zone := r.zone)
  {
    WithEntries(b, t, Entries(b, t) + [e])
  }

  /** The first entry satisfying `p`, looking through the order, instant and zone entries in turn. */
  function FindSpot(b: Book, p: Entry -> bool): (r: Option<Spot>)
    ensures r.Some? ==> Valid(b, r.value) && p(At(b, r.value))
  {
    var i, j, k := FirstIndex(b.order, p), FirstIndex(b.instant, p), FirstIndex(b.zone, p);
    if i < |b.order| then Some(Spot(OrderTrack, i))
    else if j < |b.instant| then Some(Spot(InstantTrack, j))
    else if k < |b.zone| then Some(Spot(ZoneTrack, k))
    else None
  }

  function FindTracked(b: Book, id: string): (r: Option<Spot>)
    ensures r.Some? ==> Valid(b, r.value) && At(b, r.value).id == id
  {
    FindSpot(b, (e: Entry) => e.id == id)
  }

  predicate RunsAs(b: Book, e: Entry, p: Action -> bool) {
    e.status.Running? && e.id in b.registry && p(b.registry[e.id])
  }

  /** The oldest running waitForTrigger among the order and zone entries. */
  function OldestWaiter(b: Book): (r: Option<Spot>)
    ensures r.Some? ==> Valid(b, r.value) && At(b, r.value).status.Running?
  {
    var waits := (e: Entry) => RunsAs(b, e, (a: Action) => a.kind.WaitForTrigger?);
    var i, k := FirstIndex(b.order, waits), FirstIndex(b.zone, waits);
    if i < |b.order| then Some(Spot(OrderTrack, i))
    else if k < |b.zone| then Some(Spot(ZoneTrack, k))
    else None
  }

  function FirstRetriable(b: Book): (r: Option<Spot>)
    ensures r.Some? ==> Valid(b, r.value) && At(b, r.value).status.Running?
  {
    FindSpot(b, (e: Entry) => RunsAs(b, e, (a: Action) => a.retriable))
  }

  /** Every entry with status `from` takes status `into`. */
  function Flip(es: seq<Entry>, from: Status, into: Status): (r: seq<Entry>)
    ensures |r| == |es|
    ensures forall i :: 0 <= i < |es| ==> r[i] == if es[i].status == from then es[i].(status := into) else es[i]
  {
    if es == [] then []
    else [if es[0].status == from then es[0].(status := into) else es[0]] + Flip(es[1..], from, into)
  }

  function FlipAll(b: Book, from: Status, into: Status): (r: Book)
    ensures r == b.(order := r.order, instant := r.instant, zone := r.zone)
  {
    b.(order := Flip(b.order, from, into), instant := Flip(b.instant, from, into), zone := Flip(b.zone, from, into))
  }

  /** The entries clearInstantActions and clearZoneActions keep. */
  function Live(es: seq<Entry>): seq<Entry> {
    Filter(es, (e: Entry) => !e.status.Terminal())
  }

  function Ids(es: seq<Entry>): set<string> {
    set e | e in es :: e.id
  }

  // ---- creating entries ----------------------------------------------------------

  /** Whether a non-terminal entry carries this id. */
  predicate LiveId(b: Book, id: string) {
    || (exists e :: e in b.order && e.id == id && !e.status.Terminal())
    || (exists e :: e in b.instant && e.id == id && !e.status.Terminal())
    || (exists e :: e in b.zone && e.id == id && !e.status.Terminal())
  }

  /** Register the definition and start its entry at WAITING. */
  function Spawn(s: Robot, t: Track, a: Action): Robot {
    s.(book := Append(s.book, t, Entry(a.id, a.kind, Waiting)).(registry := s.book.registry[a.id := a]),
       hist := s.hist.(actions := s.hist.actions.(
         spawned := s.hist.actions.spawned + [a.id],
         zoneSpawned := if t.ZoneTrack? then s.hist.actions.zoneSpawned + [a.id] else s.hist.actions.zoneSpawned,
         clashes := s.hist.actions.clashes + if LiveId(s.book, a.id) then {a.id} else {})))
  }

  /** Record the action as FAILED without registering it. */
  function Refuse(s: Robot, t: Track, a: Action, error: Option<ErrorKind>): Robot {
    s.(book := Append(s.book, t, Entry(a.id, a.kind, Failed)),
       errors := if error.Some? then s.errors + multiset{error.value} else s.errors)
  }

  /** Record an instant action carried out on receipt. */
  function Acknowledge(s: Robot, a: Action): Robot {
    s.(book := Append(s.book, InstantTrack, Entry(a.id, a.kind, Finished)))
  }

  // ---- orders ----------------------------------------------------------------------

  predicate Idle(s: Robot) {
    && !s.task.driving
    && s.task.nodes == [] && s.task.edges == []
    && forall e :: e in s.book.order ==> !e.status.Busy()
  }

  predicate MapEnabled(s: Robot, mapId: string) {
    mapId == "default" || exists k :: k in s.site.maps && k.0 == mapId && s.site.maps[k]
  }

  function UnknownMaps(s: Robot, o: Order): set<string> {
    set n | n in o.nodes && n.position.Some? && n.position.value.mapId != "default"
            && !MapEnabled(s, n.position.value.mapId) :: n.position.value.mapId
  }

  function WarnUnknownMaps(s: Robot, o: Order): Robot {
    s.(errors := s.errors + multiset(set m | m in UnknownMaps(s, o) :: UnknownMapId(m)))
  }

  function HandleOrder(w: World, s: Robot, o: Order): Robot {
    if s.mode.hibernating then s
    else
      var s := WarnUnknownMaps(s, o);
      if s.task.orderId != "" && o.orderId == s.task.orderId then
        if o.updateId > s.task.updateId then AcceptOrder(w, s, o, true)
        else if o.updateId == s.task.updateId then
          if s.task.snapshot == Some(o) then s
          else s.(errors := s.errors + multiset{SameOrderUpdateId})
        else s.(errors := s.errors + multiset{OutdatedOrderUpdate})
      else if Idle(s) then AcceptOrder(w, s, o, false)
      else s.(errors := s.errors + multiset{OtherOrderActive})
  }

  function Board(s: Robot, lastSeq: int): Boarding {
    Boarding(lastSeq, s.pose, s.hist.trip.odometer, s.hist.trip.jumps, s.hist.trip.charges)
  }

  /** Replace the remaining graph by the order's; a new order also starts its bookkeeping afresh. */
  function TakeOrder(s: Robot, o: Order, isUpdate: bool): Robot {
    var task := s.task.(
      orderId := o.orderId, updateId := o.updateId, snapshot := Some(o), nodes := o.nodes, edges := o.edges);
    var hist := s.hist.(
      orders := s.hist.orders.(regraphs := s.hist.orders.regraphs + 1, graphs := s.hist.orders.graphs + [o]),
      trip := s.hist.trip.(legs := 0, boarded := Board(s, if isUpdate then s.task.lastSeq else 0)));
    if isUpdate then s.(task := task, hist := hist)
    else
      s.(task := task.(lastNodeId := "", lastSeq := 0),
         book := s.book.(order := []),
         traffic := s.traffic.(zoneRequests := [], edgeRequests := []),
         hist := hist.(
           orders := hist.orders.(renewals := s.hist.orders.renewals + 1, taken := s.hist.orders.taken + [o.orderId],
                                  current := |s.hist.orders.graphs|),
           trip := hist.trip.(settled := {}),
           requests := hist.requests.(answers := map[], lapsed := {})))
  }

  function AcceptOrder(w: World, s: Robot, o: Order, isUpdate: bool): Robot {
    var s := TakeOrder(s, o, isUpdate);
    var s := RegisterAll(w, s, NodeActions(o.nodes), NodeScope);
    var s := RegisterAll(w, s, EdgeActions(o.edges), EdgeScope);
    s.(task := s.task.(newBaseRequest := false))
  }

  function NodeActions(nodes: seq<Node>): seq<Action> {
    if nodes == [] then [] else nodes[0].actions + NodeActions(nodes[1..])
  }

  function EdgeActions(edges: seq<Edge>): seq<Action> {
    if edges == [] then [] else edges[0].actions + EdgeActions(edges[1..])
  }

  function RegisterAll(w: World, s: Robot, actions: seq<Action>, scope: Scope): Robot
    decreases |actions|
  {
    if actions == [] then s
    else
      RegisterAll(w,
        if actions[0].id in Ids(s.book.order) then s else RegisterOrderAction(w, s, actions[0], scope),
        actions[1..], scope)
  }

  function RegisterOrderAction(w: World, s: Robot, a: Action, scope: Scope): Robot {
    if !Accepted(a.kind, scope, w.cfg.supported) then Refuse(s, OrderTrack, a, Some(ValidationError))
    else Spawn(s, OrderTrack, a)
  }

  /** cancelOrder and startHibernation both end the active order. */
  function ClearOrder(s: Robot): Robot {
    s.(task := s.task.(orderId := "", updateId := 0, snapshot := None, nodes := [], edges := [],
                       driving := false, newBaseRequest := false),
       book := s.book.(order := []),
       traffic := s.traffic.(zoneRequests := [], edgeRequests := []),
       hist := s.hist.(orders := s.hist.orders.(regraphs := s.hist.orders.regraphs + 1,
                                                renewals := s.hist.orders.renewals + 1,
                                                current := |s.hist.orders.graphs|),
                       trip := s.hist.trip.(legs := 0, settled := {}),
                       requests := s.hist.requests.(answers := map[], lapsed := {})))
  }

  /** What startHibernation does to the active order. */
  function AbandonOrder(s: Robot): Robot {
    var c := ClearOrder(s);
    c.(hist := c.hist.(orders := c.hist.orders.(hibernations := c.hist.orders.hibernations + 1)))
  }

  /** Mark the pending cancellation's running entry, if it is still there, FINISHED, and end the order. */
  function FinishCancel(s: Robot): Robot
    requires s.mode.cancel.Some?
  {
    var i := FirstIndex(s.book.instant, (e: Entry) => e.id == s.mode.cancel.value && e.status.Running?);
    var book := if i < |s.book.instant| then SetStatus(s.book, Spot(InstantTrack, i), Finished) else s.book;
    var c := ClearOrder(s.(book := book));
    c.(mode := c.mode.(cancel := None), hist := c.hist.(orders := c.hist.orders.(cancels := c.hist.orders.cancels + 1)))
  }

  // ---- instant actions ---------------------------------------------------------------

  function HandleInstantActions(w: World, s: Robot, actions: seq<Action>): Robot
    decreases |actions|
  {
    if actions == [] then s
    else HandleInstantActions(w, HandleInstantAction(w, s, actions[0]), actions[1..])
  }

  function RefuseInstant(s: Robot, a: Action, error: ErrorKind): Robot {
    Refuse(s, InstantTrack, a, Some(error))
  }

  /** The checks every instant action passes first: version, hibernation, scope. */
  function HandleInstantAction(w: World, s: Robot, a: Action): Robot {
    var minimum := MinimumVersion(a.kind);
    if minimum.Some? && VersionBelow(w.cfg.version, minimum.value) then RefuseInstant(s, a, InvalidInstantAction)
    else if s.mode.hibernating && !a.kind.StopHibernation? then s
    else if !ScopeAllowed(a.kind, InstantScope) then RefuseInstant(s, a, ValidationError)
    else CarryOut(w, s, a)
  }

  function CarryOut(w: World, s: Robot, a: Action): Robot
    requires ScopeAllowed(a.kind, InstantScope)
  {
    match a.kind
    case CancelOrder =>
      if s.task.orderId != "" && !Idle(s) then AskCancel(s, a) else RefuseInstant(s, a, NoOrderToCancel)
    case StartPause => Acknowledge(SetPaused(s, true), a)
    case StopPause => Acknowledge(SetPaused(s, false), a)
    case FactsheetRequest => Acknowledge(s.(factsheetRequested := true), a)
    case StateRequest | LogReport => Acknowledge(s, a)
    case ClearInstantActions => Acknowledge(Forget(s, InstantTrack), a)
    case ClearZoneActions => Acknowledge(Forget(s, ZoneTrack), a)
    case StartHibernation => Acknowledge(Hibernate(AbandonOrder(s), a), a)
    case StopHibernation => Acknowledge(WakeUp(s), a)
    case Shutdown =>
      if Idle(s) then Acknowledge(s.(mode := s.mode.(shutdownRequested := true)), a)
      else RefuseInstant(s, a, ValidationError)
    case Retry | SkipRetry | Trigger => Command(s, a)
    case DownloadMap =>
      if MapKey(a) in s.site.maps then RefuseInstant(s, a, DuplicateMap) else Spawn(s, InstantTrack, a)
    case DownloadZoneSet =>
      if HasZoneSet(s.site.zoneSets, Text(a, "zoneSetId")) then RefuseInstant(s, a, DuplicateZoneSet)
      else Spawn(s, InstantTrack, a)
    case Custom(_) =>
      if a.kind in w.cfg.supported then Spawn(s, InstantTrack, a) else RefuseInstant(s, a, ValidationError)
    case _ => Spawn(s, InstantTrack, a)
  }

  /** The commands that act on another action's entry. */
  function Command(s: Robot, a: Action): Robot
    requires a.kind.Retry? || a.kind.SkipRetry? || a.kind.Trigger?
  {
    var target := if a.kind.Trigger? then TriggerTarget(s.book, a) else RetriableTarget(s.book, a);
    if target.None? then RefuseInstant(s, a, ValidationError)
    else
      Acknowledge(
        if a.kind.Retry? then RetryEntry(s, target.value)
        else Intervene(s, target.value, if a.kind.Trigger? then Finished else Failed), a)
  }

  /** The cancellation runs until the next tick carries it out. */
  function AskCancel(s: Robot, a: Action): Robot {
    s.(book := Append(s.book, InstantTrack, Entry(a.id, a.kind, Running)),
       mode := s.mode.(cancel := Some(a.id)),
       hist := s.hist.(actions := s.hist.actions.(
         spawned := s.hist.actions.spawned + [a.id],
         clashes := s.hist.actions.clashes + if a.id in s.book.registry then {a.id} else {})))
  }

  function SetPaused(s: Robot, paused: bool): Robot {
    s.(mode := s.mode.(paused := paused),
       book := if paused then FlipAll(s.book, Running, Paused) else FlipAll(s.book, Paused, Running))
  }

  function Forget(s: Robot, t: Track): Robot {
    s.(book := WithEntries(s.book, t, Live(Entries(s.book, t))))
  }

  function Hibernate(s: Robot, a: Action): Robot {
    var wake := Lookup(a.params, "wakeUpTime");
    s.(mode := s.mode.(
      hibernating := true, wakeUpAt := if wake.Some? && wake.value.truthy then Some(wake.value.text) else None))
  }

  function WakeUp(s: Robot): Robot {
    s.(mode := s.mode.(hibernating := false, wakeUpAt := None))
  }

  /** The entry a retry or skipRetry names, when it is RETRIABLE. */
  function RetriableTarget(b: Book, a: Action): (r: Option<Spot>)
    ensures r.Some? ==> Valid(b, r.value) && At(b, r.value).status.Retriable?
  {
    var p := FindTracked(b, Text(a, "actionId"));
    if p.Some? && At(b, p.value).status.Retriable? then p else None
  }

  /** The entry a trigger names, if it names a tracked one; otherwise the oldest running waitForTrigger. */
  function TriggerTarget(b: Book, a: Action): (r: Option<Spot>)
    ensures r.Some? ==> Valid(b, r.value)
  {
    var named := Lookup(a.params, "actionId");
    var p := if named.Some? && named.value.truthy then FindTracked(b, named.value.text) else None;
    if p.Some? then p else OldestWaiter(b)
  }

  function RetryEntry(s: Robot, p: Spot): Robot
    requires Valid(s.book, p)
  {
    var id := At(s.book, p).id;
    s.(book := SetStatus(s.book, p, Waiting).(startedAt := s.book.startedAt - {id}),
       hist := s.hist.(actions := s.hist.actions.(commanded := s.hist.actions.commanded + multiset{id})))
  }

  function Intervene(s: Robot, p: Spot, status: Status): Robot
    requires Valid(s.book, p)
  {
    s.(book := SetStatus(s.book, p, status),
       hist := s.hist.(actions := s.hist.actions.(commanded := s.hist.actions.commanded + multiset{At(s.book, p).id})))
  }

  // ---- effects of completed actions ---------------------------------------------------

  datatype Outcome = Outcome(robot: Robot, ok: bool)

  function MapKey(a: Action): (string, string) {
    (Text(a, "mapId"), Text(a, "mapVersion"))
  }

  predicate HasZoneSet(sets: seq<ZoneSet>, id: string) {
    exists z :: z in sets && z.zoneSetId == id
  }

  /** Dictionary assignment: replace the set of the same id where it stands, else append. */
  function PutZoneSet(sets: seq<ZoneSet>, z: ZoneSet): seq<ZoneSet> {
    var i := FirstIndex(sets, (o: ZoneSet) => o.zoneSetId == z.zoneSetId);
    if i < |sets| then sets[i := z] else sets + [z]
  }

  /** Of the sets of one map, ENABLE the named one and DISABLE its siblings. */
  function EnableAmong(sets: seq<ZoneSet>, mapId: string, id: string, flags: map<string, bool>): map<string, bool> {
    if sets == [] then flags
    else
      EnableAmong(sets[1..], mapId, id,
        if sets[0].mapId == mapId then flags[sets[0].zoneSetId := sets[0].zoneSetId == id] else flags)
  }

  function EnableMapVersion(maps: map<(string, string), bool>, key: (string, string)): map<(string, string), bool> {
    map k | k in maps :: if k.0 == key.0 then k.1 == key.1 else maps[k]
  }

  datatype Placed = Placed(pose: Pose, lastNodeId: string, ok: bool)

  /** Parameters are read and assigned one after the other; the first unreadable one stops the rest. */
  function InitializePose(p: Pose, lastNodeId: string, a: Action): Placed {
    var x, y, theta := Lookup(a.params, "x"), Lookup(a.params, "y"), Lookup(a.params, "theta");
    if x.Some? && x.value.number.None? then Placed(p, lastNodeId, false)
    else
      var p := if x.Some? then p.(x := x.value.number.value) else p;
      if y.Some? && y.value.number.None? then Placed(p, lastNodeId, false)
      else
        var p := if y.Some? then p.(y := y.value.number.value) else p;
        if theta.Some? && theta.value.number.None? then Placed(p, lastNodeId, false)
        else
          var p := if theta.Some? then p.(theta := theta.value.number.value) else p;
          var p := if Lookup(a.params, "mapId").Some? then p.(mapId := Text(a, "mapId")) else p;
          Placed(p, if Lookup(a.params, "lastNodeId").Some? then Text(a, "lastNodeId") else lastNodeId, true)
  }

  /** The book after an effect: only the two clearing actions change it. */
  function Cleared(b: Book, kind: ActionKind): Book {
    if kind.ClearInstantActions? then b.(instant := Live(b.instant))
    else if kind.ClearZoneActions? then b.(zone := Live(b.zone))
    else b
  }

  datatype SiteOutcome = SiteOutcome(site: Site, ok: bool)

  /** The effects on stored maps, stored zone sets and loads. */
  function SiteEffect(site: Site, mapId: string, a: Action): SiteOutcome {
    match a.kind
    case EnableMap =>
      if MapKey(a) in site.maps then SiteOutcome(site.(maps := EnableMapVersion(site.maps, MapKey(a))), true)
      else SiteOutcome(site, false)
    case DownloadMap => SiteOutcome(site.(maps := site.maps[MapKey(a) := false]), true)
    case DeleteMap =>
      if MapKey(a) in site.maps then SiteOutcome(site.(maps := site.maps - {MapKey(a)}), true)
      else SiteOutcome(site, false)
    case EnableZoneSet =>
      var id := Text(a, "zoneSetId");
      var i := FirstIndex(site.zoneSets, (z: ZoneSet) => z.zoneSetId == id);
      if i < |site.zoneSets| then
        SiteOutcome(site.(zoneSetEnabled :=
          EnableAmong(site.zoneSets, site.zoneSets[i].mapId, id, site.zoneSetEnabled)), true)
      else SiteOutcome(site, false)
    case DownloadZoneSet =>
      var id := Text(a, "zoneSetId");
      SiteOutcome(site.(zoneSets := PutZoneSet(site.zoneSets, ZoneSet(mapId, id, [])),
                        zoneSetEnabled := site.zoneSetEnabled[id := false]), true)
    case DeleteZoneSet =>
      var id := Text(a, "zoneSetId");
      if HasZoneSet(site.zoneSets, id) then
        SiteOutcome(site.(zoneSets := Filter(site.zoneSets, (z: ZoneSet) => z.zoneSetId != id),
                          zoneSetEnabled := site.zoneSetEnabled - {id}), true)
      else SiteOutcome(site, false)
    case Pick => SiteOutcome(site.(loads := Picked(site.loads, a)), true)
    case Drop => SiteOutcome(site.(loads := Dropped(site.loads)), true)
    case _ => SiteOutcome(site, true)
  }

  function ApplyEffect(s: Robot, a: Action): (r: Outcome)
    ensures r.robot.book == Cleared(s.book, a.kind)
    ensures r.robot.mode == s.mode && r.robot.faults == s.faults && r.robot.traffic == s.traffic
    ensures r.robot.errors == s.errors && r.robot.factsheetRequested == s.factsheetRequested
    ensures r.robot.task == s.task.(lastNodeId := r.robot.task.lastNodeId)
    ensures r.robot.pose.battery == s.pose.battery
    ensures var jumps := s.hist.trip.jumps + if a.kind.InitializePosition? then 1 else 0;
            r.robot.hist == s.hist.(trip := s.hist.trip.(jumps := jumps))
  {
    if a.kind.InitializePosition? then
      var r := InitializePose(s.pose, s.task.lastNodeId, a);
      Outcome(s.(pose := r.pose, task := s.task.(lastNodeId := r.lastNodeId),
                 hist := s.hist.(trip := s.hist.trip.(jumps := s.hist.trip.jumps + 1))), r.ok)
    else
      var r := SiteEffect(s.site, s.pose.mapId, a);
      Outcome(s.(site := r.site, book := Cleared(s.book, a.kind),
                 pose := s.pose.(charging := Charges(s.pose.charging, a.kind))), r.ok)
  }

  /** Whether the robot charges after an effect of `kind`. */
  function Charges(charging: bool, kind: ActionKind): bool {
    kind.StartCharging? || (charging && !kind.StopCharging?)
  }

  function Picked(loads: seq<Load>, a: Action): seq<Load> {
    loads + [Load(OptionalText(a, "loadId"), OptionalText(a, "loadType"), OptionalText(a, "side"))]
  }

  function Dropped(loads: seq<Load>): seq<Load> {
    if loads == [] then [] else loads[1..]
  }

  // ---- progress of actions -------------------------------------------------------------

  /** When the running entry with this id started, the present when that is not recorded. */
  function StartOf(b: Book, id: string): real {
    if id in b.startedAt then b.startedAt[id] else b.clock
  }

  /** Whether a running entry with this definition completes now. */
  predicate Due(w: World, b: Book, id: string, def: Action) {
    !def.kind.WaitForTrigger? && b.clock - StartOf(b, id) >= w.cfg.actionDuration
  }

  function BeginEntry(s: Robot, p: Spot): Robot
    requires Valid(s.book, p)
  {
    s.(book := SetStatus(s.book, p, Running).(startedAt := s.book.startedAt[At(s.book, p).id := s.book.clock]))
  }

  /** Whether the effect of `kind` removes terminal entries from track `t`. */
  predicate Clears(kind: ActionKind, t: Track) {
    (kind.ClearInstantActions? && t.InstantTrack?) || (kind.ClearZoneActions? && t.ZoneTrack?)
  }

  /** Where a running entry stands after an effect of `kind`. */
  function Landing(b: Book, p: Spot, kind: ActionKind): Spot
    requires Valid(b, p)
  {
    if Clears(kind, p.track) then Spot(p.track, |Live(Entries(b, p.track)[..p.index])|) else p
  }

  lemma {:induction false} FilterKeeps<T(!new)>(xs: seq<T>, p: T -> bool, i: nat)
    requires i < |xs| && p(xs[i])
    ensures var j := |Filter(xs[..i], p)|;
            j < |Filter(xs, p)| && Filter(xs, p)[j] == xs[i]
            && |Filter(xs, p)| - j <= |xs| - i
  {
    if i > 0 {
      FilterKeeps(xs[1..], p, i - 1);
      assert xs[1..][..i - 1] == xs[..i][1..];
    }
  }

  lemma LandingHolds(s: Robot, p: Spot, def: Action)
    requires Valid(s.book, p) && !At(s.book, p).status.Terminal()
    ensures var r := ApplyEffect(s, def).robot.book;
            var q := Landing(s.book, p, def.kind);
            && q.track == p.track && Valid(r, q) && At(r, q) == At(s.book, p)
            && |Entries(r, p.track)| - q.index <= |Entries(s.book, p.track)| - p.index
  {
    var r := ApplyEffect(s, def).robot.book;
    assert r == Cleared(s.book, def.kind);
    if Clears(def.kind, p.track) {
      FilterKeeps(Entries(s.book, p.track), (e: Entry) => !e.status.Terminal(), p.index);
    }
  }

  /** Apply the effect of a due entry and settle its status. */
  function CompleteEntry(s: Robot, p: Spot): Robot
    requires Valid(s.book, p) && At(s.book, p).status.Running? && At(s.book, p).id in s.book.registry
  {
    var id := At(s.book, p).id;
    var def := s.book.registry[id];
    var r := ApplyEffect(s, def);
    var q := Landing(s.book, p, def.kind);
    LandingHolds(s, p, def);
    r.robot.(
      book := SetStatus(r.robot.book, q, if r.ok then Finished else Failed),
      hist := r.robot.hist.(actions := r.robot.hist.actions.(
        effects := r.robot.hist.actions.effects + [Effect(p.track, id, def)])))
  }

  datatype Advanced = Advanced(robot: Robot, spot: Spot)

  /** One step of the shared state machine for the entry at `p`; `spot` is where it stands afterwards. */
  function AdvanceOne(w: World, s: Robot, p: Spot): (r: Advanced)
    requires Valid(s.book, p) && At(s.book, p).id in s.book.registry
    ensures r.spot.track == p.track && Valid(r.robot.book, r.spot)
    ensures |Entries(r.robot.book, p.track)| - r.spot.index <= |Entries(s.book, p.track)| - p.index
  {
    var s := if At(s.book, p).status.Waiting? then BeginEntry(s, p) else s;
    var e := At(s.book, p);
    var def := s.book.registry[e.id];
    if e.status.Running? && Due(w, s.book, e.id, def) then
      LandingHolds(s, p, def);
      Advanced(CompleteEntry(s, p), Landing(s.book, p, def.kind))
    else Advanced(s, p)
  }

  /** Advance the registered entries of one track from index `i` on. */
  function Sweep(w: World, s: Robot, t: Track, i: nat): Robot
    decreases |Entries(s.book, t)| - i
  {
    if i >= |Entries(s.book, t)| then s
    else if Entries(s.book, t)[i].id !in s.book.registry then Sweep(w, s, t, i + 1)
    else
      var r := AdvanceOne(w, s, Spot(t, i));
      Sweep(w, r.robot, t, r.spot.index + 1)
  }

  function SweepAll(w: World, s: Robot): Robot {
    Sweep(w, Sweep(w, Sweep(w, s, OrderTrack, 0), InstantTrack, 0), ZoneTrack, 0)
  }

  /** Whether one of these order actions is unfinished and of a movement-holding type. */
  predicate IsBlocking(b: Book, ids: seq<string>) {
    exists id :: id in ids && Holding(b, id)
  }

  predicate Holding(b: Book, id: string) {
    && id in b.registry && b.registry[id].blocking.HoldsMovement()
    && var i := FirstIndex(b.order, (e: Entry) => e.id == id);
       i < |b.order| && b.order[i].status.Holds()
  }

  predicate InstantIsBlocking(b: Book) {
    exists e :: e in b.instant && e.id in b.registry && e.status.Holds() && b.registry[e.id].blocking.HoldsMovement()
  }

  // ---- zones and traffic -------------------------------------------------------------------

  function HandleZoneSet(s: Robot, z: ZoneSet): Robot {
    if HasZoneSet(s.site.zoneSets, z.zoneSetId) then s.(errors := s.errors + multiset{DuplicateZoneSet})
    else s.(site := s.site.(zoneSets := s.site.zoneSets + [z],
                            zoneSetEnabled := s.site.zoneSetEnabled[z.zoneSetId := true]))
  }

  function HandleResponses(s: Robot, responses: seq<Response>): Robot
    decreases |responses|
  {
    if responses == [] then s else HandleResponses(ApplyResponse(s, responses[0]), responses[1..])
  }

  /** The request status a grant type stands for; QUEUED changes none. */
  function GrantedStatus(g: GrantType, status: RequestStatus): RequestStatus {
    match g
    case GrantGranted => Granted
    case GrantRevoked | GrantRejected => Revoked
    case GrantQueued => status
  }

  function AnswerZones(rs: seq<ZoneRequest>, r: Response): seq<ZoneRequest> {
    seq(|rs|, i requires 0 <= i < |rs| =>
      if rs[i].requestId == r.requestId then rs[i].(status := GrantedStatus(r.grant, rs[i].status)) else rs[i])
  }

  function AnswerEdges(rs: seq<EdgeRequest>, r: Response): seq<EdgeRequest> {
    seq(|rs|, i requires 0 <= i < |rs| =>
      if rs[i].requestId == r.requestId then rs[i].(status := GrantedStatus(r.grant, rs[i].status)) else rs[i])
  }

  predicate KnownRequest(t: Traffic, id: string) {
    (exists r :: r in t.zoneRequests && r.requestId == id) || (exists r :: r in t.edgeRequests && r.requestId == id)
  }

  function ApplyResponse(s: Robot, r: Response): Robot {
    s.(traffic := Traffic(
         AnswerZones(s.traffic.zoneRequests, r), AnswerEdges(s.traffic.edgeRequests, r),
         if KnownRequest(s.traffic, r.requestId) && r.leaseExpiry.Some? && r.leaseExpiry.value != ""
         then s.traffic.leases[r.requestId := r.leaseExpiry.value] else s.traffic.leases),
       hist := s.hist.(requests := s.hist.requests.(
         answers := if r.grant.GrantQueued? then s.hist.requests.answers
                    else s.hist.requests.answers[r.requestId := r.grant],
         lapsed := if r.grant.GrantQueued? then s.hist.requests.lapsed else s.hist.requests.lapsed - {r.requestId},
         promises := if KnownRequest(s.traffic, r.requestId) && r.leaseExpiry.Some? && r.leaseExpiry.value != ""
                     then s.hist.requests.promises[r.requestId := r.leaseExpiry.value]
                     else s.hist.requests.promises)))
  }

  /** Whether the stored lease of a request is readable and due. */
  predicate LeaseDue(w: World, leases: map<string, string>, id: string, now: real) {
    id in leases && w.parseTime(leases[id]).Some? && now >= w.parseTime(leases[id]).value
  }

  function Lapse(w: World, leases: map<string, string>, id: string, status: RequestStatus, now: real): RequestStatus {
    if status.Granted? && LeaseDue(w, leases, id, now) then Expired else status
  }

  /** The ids of the requests whose grant lapses now. */
  function LapsingIds(w: World, t: Traffic, now: real): set<string> {
    (set r | r in t.zoneRequests && r.status.Granted? && LeaseDue(w, t.leases, r.requestId, now) :: r.requestId)
    + (set r | r in t.edgeRequests && r.status.Granted? && LeaseDue(w, t.leases, r.requestId, now) :: r.requestId)
  }

  function CheckLeases(w: World, s: Robot, now: real): Robot {
    var t := s.traffic;
    var lapsed := s.hist.requests.lapsed + LapsingIds(w, t, now);
    s.(hist := s.hist.(requests := s.hist.requests.(lapsed := lapsed)), traffic := t.(
      zoneRequests := seq(|t.zoneRequests|, i requires 0 <= i < |t.zoneRequests| =>
        var r := t.zoneRequests[i]; r.(status := Lapse(w, t.leases, r.requestId, r.status, now))),
      edgeRequests := seq(|t.edgeRequests|, i requires 0 <= i < |t.edgeRequests| =>
        var r := t.edgeRequests[i]; r.(status := Lapse(w, t.leases, r.requestId, r.status, now)))))
  }

  ghost function ZonesIn(zones: seq<Zone>, x: real, y: real): seq<Zone> {
    if zones == [] then []
    else (if Polygon.Inside(x, y, zones[0].vertices) then [zones[0]] else []) + ZonesIn(zones[1..], x, y)
  }

  /** The zones of the given map that contain the point, in storage order. */
  ghost function ZonesAt(sets: seq<ZoneSet>, mapId: string, x: real, y: real): seq<Zone> {
    if sets == [] then []
    else (if sets[0].mapId == mapId then ZonesIn(sets[0].zones, x, y) else []) + ZonesAt(sets[1..], mapId, x, y)
  }

  /** The zone set a zone id belongs to; the empty string when there is none. */
  function ZoneSetIdFor(sets: seq<ZoneSet>, zoneId: string): string {
    var i := FirstIndex(sets, (z: ZoneSet) => exists zone :: zone in z.zones && zone.zoneId == zoneId);
    if i < |sets| then sets[i].zoneSetId else ""
  }

  /** Dictionary keyed by zoneId: the first of equal ids gives the place, the last the value. */
  function PutZone(zones: seq<Zone>, z: Zone): seq<Zone> {
    var i := FirstIndex(zones, (o: Zone) => o.zoneId == z.zoneId);
    if i < |zones| then zones[i := z] else zones + [z]
  }

  function ActionZones(zones: seq<Zone>): seq<Zone> {
    if zones == [] then []
    else
      var rest := ActionZones(zones[..|zones| - 1]);
      var z := zones[|zones| - 1];
      if z.zoneType.ActionZone? then PutZone(rest, z) else rest
  }

  predicate Occupied(zones: seq<Zone>, zoneId: string) {
    exists z :: z in zones && z.zoneId == zoneId
  }

  /** The entry and during actions of the zones entered, the exit actions of those left. */
  function EntryActions(present: seq<Zone>, before: seq<Zone>): seq<Action> {
    if present == [] then []
    else
      (if Occupied(before, present[0].zoneId) then [] else present[0].entryActions + present[0].duringActions)
      + EntryActions(present[1..], before)
  }

  function ExitActions(before: seq<Zone>, present: seq<Zone>): seq<Action> {
    if before == [] then []
    else
      (if Occupied(present, before[0].zoneId) then [] else before[0].exitActions)
      + ExitActions(before[1..], present)
  }

  function RegisterZoneAction(w: World, s: Robot, a: Action): Robot {
    if a.id in s.book.registry then s
    else if !Accepted(a.kind, ZoneScope, w.cfg.supported) then Refuse(s, ZoneTrack, a, None)
    else Spawn(s, ZoneTrack, a)
  }

  function RegisterZoneActions(w: World, s: Robot, actions: seq<Action>): Robot
    decreases |actions|
  {
    if actions == [] then s else RegisterZoneActions(w, RegisterZoneAction(w, s, actions[0]), actions[1..])
  }

  ghost function PresentZones(s: Robot): seq<Zone> {
    ActionZones(ZonesAt(s.site.zoneSets, s.pose.mapId, s.pose.x, s.pose.y))
  }

  ghost function UpdateZoneActions(w: World, s: Robot): Robot {
    var present := PresentZones(s);
    var r := RegisterZoneActions(w, s,
      EntryActions(present, s.site.occupancy) + ExitActions(s.site.occupancy, present));
    r.(site := r.site.(occupancy := present))
  }

  // ---- gates -----------------------------------------------------------------------------

  datatype Gate = Gate(robot: Robot, hold: bool)

  function EdgeRequestIndex(t: Traffic, edge: Edge): nat {
    FirstIndex(t.edgeRequests, (r: EdgeRequest) => r.edgeId == edge.edgeId && r.seqId == edge.seqId)
  }

  function ZoneRequestIndex(t: Traffic, zoneId: string, setId: string): nat {
    FirstIndex(t.zoneRequests, (r: ZoneRequest) => r.zoneId == zoneId && r.zoneSetId == setId)
  }

  /** Ask for the corridor the first time it is met; hold until the request is GRANTED. */
  function CorridorGate(s: Robot, edge: Edge): Gate {
    if !edge.releaseRequired then Gate(s, false)
    else
      var t := s.traffic;
      var i := EdgeRequestIndex(t, edge);
      if i < |t.edgeRequests| then Gate(s, !t.edgeRequests[i].status.Granted?)
      else
        Gate(s.(traffic := t.(edgeRequests := t.edgeRequests
                  + [EdgeRequest(edge.edgeId + "-corridor", edge.edgeId, edge.seqId, Requested)])), true)
  }

  predicate RequiresAccess(z: Zone) { z.zoneType.Release? || z.zoneType.CoordinatedReplanning? }

  /** Ask for access the first time the zone is met; hold until the request is GRANTED. */
  function AccessGate(s: Robot, zone: Zone): Gate {
    var setId := ZoneSetIdFor(s.site.zoneSets, zone.zoneId);
    var t := s.traffic;
    var i := ZoneRequestIndex(t, zone.zoneId, setId);
    if i < |t.zoneRequests| then Gate(s, !t.zoneRequests[i].status.Granted?)
    else
      Gate(s.(traffic := t.(zoneRequests := t.zoneRequests
                + [ZoneRequest(zone.zoneId + "-access",
                     if zone.zoneType.CoordinatedReplanning? then Replanning else Access,
                     zone.zoneId, setId, Requested)])), true)
  }

  function WantBase(s: Robot): Robot {
    s.(task := s.task.(newBaseRequest := true))
  }

  /** Whether heading for (x, y) breaks the zone's direction with a limitation that holds. */
  predicate AgainstDirection(w: World, s: Robot, zone: Zone, x: real, y: real) {
    && (zone.zoneType.Directed? || zone.zoneType.Bidirected?) && zone.direction.Some?
    && DirectionViolated(w.pi, zone.zoneType, zone.direction.value, w.atan2(y - s.pose.y, x - s.pose.x))
    && (zone.limitation == Some(Strict) || zone.limitation == Some(Restricted))
  }

  function ZoneGate(w: World, s: Robot, zone: Zone, x: real, y: real): Gate {
    if RequiresAccess(zone) then AccessGate(s, zone)
    else if zone.zoneType.Blocked? || AgainstDirection(w, s, zone, x, y) then Gate(WantBase(s), true)
    else Gate(s, false)
  }

  function ZoneGates(w: World, s: Robot, zones: seq<Zone>, x: real, y: real): Gate
    decreases |zones|
  {
    if zones == [] then Gate(s, false)
    else
      var g := ZoneGate(w, s, zones[0], x, y);
      var rest := ZoneGates(w, g.robot, zones[1..], x, y);
      Gate(rest.robot, g.hold || rest.hold)
  }

  ghost function CheckGates(w: World, s: Robot, edge: Edge, next: Node): Gate {
    var c := CorridorGate(s, edge);
    match next.position
    case None => c
    case Some(p) =>
      var z := ZoneGates(w, c.robot, ZonesAt(s.site.zoneSets, s.pose.mapId, p.x, p.y), p.x, p.y);
      Gate(z.robot, c.hold || z.hold)
  }

  // ---- movement ------------------------------------------------------------------------------

  function FindNode(nodes: seq<Node>, q: int): Option<Node> {
    var i := FirstIndex(nodes, (n: Node) => n.seqId == q);
    if i < |nodes| then Some(nodes[i]) else None
  }

  function FindEdge(edges: seq<Edge>, q: int): Option<Edge> {
    var i := FirstIndex(edges, (e: Edge) => e.seqId == q);
    if i < |edges| then Some(edges[i]) else None
  }

  /** The first node with the least sequenceId. */
  function LeastNode(nodes: seq<Node>): (n: Node)
    requires nodes != []
    ensures n in nodes && forall m :: m in nodes ==> n.seqId <= m.seqId
  {
    if |nodes| == 1 then nodes[0]
    else
      var n := LeastNode(nodes[..|nodes| - 1]);
      var m := nodes[|nodes| - 1];
      assert forall k :: k in nodes <==> k in nodes[..|nodes| - 1] || k == m;
      if m.seqId < n.seqId then m else n
  }

  /** The node reached last, or the least remaining one when that is gone. */
  function CurrentNode(t: Task): Node
    requires t.nodes != []
  {
    match FindNode(t.nodes, t.lastSeq)
    case Some(n) => n
    case None => LeastNode(t.nodes)
  }

  function ActionIds(actions: seq<Action>): seq<string> {
    seq(|actions|, i requires 0 <= i < |actions| => actions[i].id)
  }

  /** The order actions that must be settled before leaving `node` over `edge`. */
  function OwnerActions(node: Node, edge: Option<Edge>): seq<string> {
    ActionIds(node.actions) + if edge.Some? then ActionIds(edge.value.actions) else []
  }

  function DesiredTheta(edge: Edge, heading: real): Option<real> {
    match edge.orientation
    case None => None
    case Some(o) => if edge.orientationType == Some(Global) then Some(o) else Some(heading + o)
  }

  function CapSpeed(zones: seq<Zone>, speed: real): real {
    if zones == [] then speed
    else
      CapSpeed(zones[1..],
        if zones[0].zoneType.SpeedLimit? && zones[0].maximumSpeed.Some?
        then Min(speed, zones[0].maximumSpeed.value) else speed)
  }

  ghost function EffectiveSpeed(w: World, s: Robot, edge: Edge): real {
    CapSpeed(ZonesAt(s.site.zoneSets, s.pose.mapId, s.pose.x, s.pose.y),
      if edge.maximumSpeed.Some? then Min(w.cfg.speed, edge.maximumSpeed.value) else w.cfg.speed)
  }

  function Between(w: World, x: real, y: real, to: Position): real {
    w.hypot(to.x - x, to.y - y)
  }

  function DistanceTo(w: World, p: Pose, to: Position): real { Between(w, p.x, p.y, to) }

  function HeadingTo(w: World, p: Pose, to: Position): real {
    if DistanceTo(w, p, to) > 0.000000001 then w.atan2(to.y - p.y, to.x - p.x) else p.theta
  }

  /** The two-degree band within which an edge's orientation counts as reached. */
  function OrientationTolerance(pi: Positive): real { pi / 90.0 }

  datatype Stepped = Stepped(pose: Pose, arrived: bool)

  /** Whether the robot must still turn in place before entering the edge. */
  predicate MustTurn(w: World, p: Pose, to: Position, edge: Edge) {
    var desired := DesiredTheta(edge, HeadingTo(w, p, to));
    desired.Some? && edge.reachOrientationFirst
    && Abs(AngleDiff(w.pi, desired.value, p.theta)) > OrientationTolerance(w.pi)
  }

  /** The coordinate a step leads to, out of the distance to go. */
  function Along(from: real, to: real, dist: real, step: real): real
    requires dist != 0.0
  {
    from + (to - from) / dist * step
  }

  /** One tick of motion towards `to` over `edge` at the given speed. */
  function StepPose(w: World, p: Pose, to: Position, edge: Edge, speed: real, dt: Span): Stepped {
    var dist := DistanceTo(w, p, to);
    var heading := HeadingTo(w, p, to);
    var desired := DesiredTheta(edge, heading);
    if MustTurn(w, p, to, edge) then
      Stepped(p.(theta := p.theta + Clamp(AngleDiff(w.pi, desired.value, p.theta), w.cfg.angularSpeed * dt),
                 lastStep := 0.0), false)
    else
      var p := if desired.Some? && edge.reachOrientationFirst then p.(theta := desired.value) else p;
      var step := speed * dt;
      if dist <= Max(step, 0.000001) then
        var theta := if desired.Some? then desired.value else if to.theta.Some? then to.theta.value else p.theta;
        Stepped(p.(x := to.x, y := to.y, theta := theta, mapId := to.mapId, lastStep := dist), true)
      else
        Stepped(p.(x := Along(p.x, to.x, dist, step), y := Along(p.y, to.y, dist, step),
                   theta := if desired.Some? then desired.value else heading, lastStep := step), false)
  }

  ghost function StepTowards(w: World, s: Robot, next: Node, edge: Edge, dt: Span): Stepped {
    match next.position
    case None => Stepped(s.pose.(lastStep := 0.0), true)
    case Some(to) => StepPose(w, s.pose, to, edge, EffectiveSpeed(w, s, edge), dt)
  }

  /** The tracked movement-holding actions among `ids`. */
  function Holders(b: Book, ids: seq<string>): set<string> {
    set id | id in ids && id in Ids(b.order) && id in b.registry && b.registry[id].blocking != NoBlocking
  }

  function Without(nodes: seq<Node>, q: int): seq<Node> {
    Filter(nodes, (n: Node) => n.seqId != q)
  }

  function WithoutEdge(edges: seq<Edge>, q: int): seq<Edge> {
    Filter(edges, (e: Edge) => e.seqId != q)
  }

  /** Leave `from` behind over `edge` and be at `node`. */
  function ArriveAt(s: Robot, from: Node, edge: Edge, node: Node): Robot {
    s.(task := s.task.(lastNodeId := node.nodeId, lastSeq := node.seqId, driving := false,
                       edges := WithoutEdge(s.task.edges, edge.seqId),
                       nodes := Without(s.task.nodes, from.seqId)),
       pose := s.pose.(sinceNode := 0.0),
       hist := s.hist.(trip := s.hist.trip.(
         legs := s.hist.trip.legs + 1,
         settled := s.hist.trip.settled + Holders(s.book, OwnerActions(from, Some(edge))))))
  }

  /** The last node has no further edge: the graph is used up from here. */
  function LeaveGraph(s: Robot, at: Node): Robot {
    s.(task := s.task.(driving := false, lastNodeId := at.nodeId, lastSeq := at.seqId,
                       nodes := Without(s.task.nodes, at.seqId)),
       hist := s.hist.(trip := s.hist.trip.(
         legs := s.hist.trip.legs + 1,
         settled := s.hist.trip.settled + Holders(s.book, OwnerActions(at, None)))))
  }

  function Halt(s: Robot): Robot {
    s.(task := s.task.(driving := false))
  }

  /** Account for the distance of the step just taken. */
  function Travelled(w: World, s: Robot, pose: Pose): Robot {
    var d := pose.lastStep;
    if d > 0.0 then
      s.(pose := pose.(battery := Max(0.0, pose.battery - d * w.cfg.drainPerMeter), sinceNode := pose.sinceNode + d),
         hist := s.hist.(trip := s.hist.trip.(odometer := s.hist.trip.odometer + d)))
    else
      s.(pose := pose,
         hist := s.hist.(trip := s.hist.trip.(
           jumps := if d < 0.0 then s.hist.trip.jumps + 1 else s.hist.trip.jumps)))
  }

  ghost function Drive(w: World, s: Robot, from: Node, edge: Edge, next: Node, dt: Span): Robot {
    var step := StepTowards(w, s, next, edge, dt);
    var s := Travelled(w, s.(task := s.task.(driving := true)), step.pose);
    if step.arrived then ArriveAt(s, from, edge, next) else s
  }

  function ReleasedCount(nodes: seq<Node>): nat {
    |Filter(nodes, (n: Node) => n.released)|
  }

  function MaybeRequestBase(w: World, s: Robot): Robot {
    if s.task.newBaseRequest || s.task.nodes == [] then s
    else if ReleasedCount(s.task.nodes) <= w.cfg.horizon then WantBase(s) else s
  }

  /** Whether something on board holds movement at the current node. */
  predicate Held(s: Robot, ids: seq<string>) {
    IsBlocking(s.book, ids) || InstantIsBlocking(s.book) || s.faults.fieldViolation || !s.faults.stop.NoStop?
  }

  /** The movement part of an active tick. */
  ghost function Move(w: World, s: Robot, dt: Span): Robot {
    if s.task.nodes == [] then Halt(s)
    else
      var at := CurrentNode(s.task);
      var edge := FindEdge(s.task.edges, at.seqId + 1);
      if Held(s, OwnerActions(at, edge)) then Halt(s)
      else Proceed(w, MaybeRequestBase(w, s), at, edge, dt)
  }

  /** Nothing on board holds movement: go on from `at` over `edge` as far as releases and gates allow. */
  ghost function Proceed(w: World, s: Robot, at: Node, edge: Option<Edge>, dt: Span): Robot {
    if edge.None? then LeaveGraph(s, at)
    else
      var next := FindNode(s.task.nodes, edge.value.seqId + 1);
      if !edge.value.released || next.None? || !next.value.released then Halt(WantBase(s))
      else
        var g := CheckGates(w, s, edge.value, next.value);
        if g.hold then Halt(g.robot) else Drive(w, g.robot, at, edge.value, next.value, dt)
  }

  // ---- ticks ------------------------------------------------------------------------------------

  function UpdateCharging(w: World, s: Robot, dt: Span): Robot {
    if s.pose.charging && s.pose.battery < 100.0 then
      s.(pose := s.pose.(battery := Min(100.0, s.pose.battery + w.cfg.chargePerSecond * dt)),
         hist := s.hist.(trip := s.hist.trip.(charges := s.hist.trip.charges + 1)))
    else s
  }

  function MaybeAutoWake(w: World, s: Robot, now: real): Robot {
    match s.mode.wakeUpAt
    case None => s
    case Some(text) =>
      if text == "" then s
      else
        match w.parseTime(text)
        case None => s
        case Some(t) => if now >= t then WakeUp(s) else s
  }

  /** Whether a tick in this state runs the order clock, the actions and the movement. */
  predicate Active(s: Robot) {
    !s.mode.hibernating && s.mode.cancel.None? && !s.mode.paused && s.faults.operating.Automatic?
  }

  function AdvanceClock(s: Robot, dt: Span): Robot {
    s.(book := s.book.(clock := s.book.clock + dt))
  }

  /** An active tick up to its movement part: actions, leases, zone actions. */
  ghost function Prepare(w: World, s: Robot, dt: Span, now: real): Robot {
    UpdateZoneActions(w, CheckLeases(w, SweepAll(w, AdvanceClock(s, dt)), now))
  }

  ghost function Tick(w: World, s: Robot, dt: Span, now: real): Robot {
    if s.mode.hibernating then MaybeAutoWake(w, s, now)
    else
      var s := UpdateCharging(w, s, dt);
      if s.mode.cancel.Some? then FinishCancel(s)
      else if !Active(s) then s
      else Move(w, Prepare(w, s, dt, now), dt)
  }

  // ---- faults --------------------------------------------------------------------------------------

  const FIELD_VIOLATION_DURATION := 1.0
  const SERVICE_MODE_DURATION := 2.0
  const EMERGENCY_STOP_DURATION := 1.5

  /** The random draws of one fault round: which faults would strike now. */
  datatype Draws = Draws(field: bool, service: bool, stop: EmergencyStop, failure: bool)

  const NO_FAULTS := Draws(false, false, NoStop, false)

  function UpdateField(f: Faults, draw: bool): Faults {
    if f.fieldViolation then
      if f.clock >= f.fieldUntil then f.(fieldViolation := false) else f
    else if draw then f.(fieldViolation := true, fieldUntil := f.clock + FIELD_VIOLATION_DURATION)
    else f
  }

  function UpdateOperatingMode(f: Faults, draw: bool): Faults {
    if !f.operating.Automatic? then
      if f.clock >= f.modeUntil then f.(operating := Automatic) else f
    else if draw then f.(operating := Service, modeUntil := f.clock + SERVICE_MODE_DURATION)
    else f
  }

  function UpdateStop(f: Faults, draw: EmergencyStop): Faults {
    if !f.stop.NoStop? then
      if f.clock >= f.stopUntil then f.(stop := NoStop) else f
    else if !draw.NoStop? then f.(stop := draw, stopUntil := f.clock + EMERGENCY_STOP_DURATION)
    else f
  }

  function RunFaultTimers(s: Robot, dt: Span, draws: Draws): Robot {
    var f := s.faults.(clock := s.faults.clock + dt);
    s.(faults := UpdateStop(UpdateOperatingMode(UpdateField(f, draws.field), draws.service), draws.stop))
  }

  /** A running retriable action breaks; before version 3.0 there is no way to retry it. */
  function BreakEntry(w: World, s: Robot, p: Spot): Robot
    requires Valid(s.book, p)
  {
    s.(book := SetStatus(s.book, p, if VersionBelow(w.cfg.version, (3, 0)) then Failed else Retriable),
       hist := s.hist.(actions := s.hist.actions.(broken := s.hist.actions.broken + multiset{At(s.book, p).id})))
  }

  function MaybeInjectFault(w: World, s: Robot, dt: Span, draws: Draws): Robot {
    var s := RunFaultTimers(s, dt, draws);
    if !draws.failure then s
    else
      match FirstRetriable(s.book)
      case Some(p) => BreakEntry(w, s, p)
      case None => s.(errors := s.errors + multiset{HardwareFault})
  }

  /** Publishing the state empties the pending errors. */
  function Publish(s: Robot): Robot {
    s.(errors := multiset{})
  }
}
