/** The simulated robot as the program keeps it: an object whose methods update its fields in
    place. Every method is proved to do to the whole state exactly what the corresponding function
    of `RobotState` says; so what is proved about those functions, and about all runs of them, is
    proved about these methods. */
module SimulatedAgv {
  import opened Vda5050
  import opened Platform
  import opened ActionCatalog
  import opened RobotState
  import Heading
  import Polygon

  /** `es` with every status `from` replaced by `into`. */
  method FlipStatuses(es: seq<Entry>, from: Status, into: Status) returns (r: seq<Entry>)
    ensures r == Flip(es, from, into)
  {
    r := es;
    for i := 0 to |es|
      invariant |r| == |es|
      invariant forall k :: 0 <= k < i ==> r[k] == if es[k].status == from then es[k].(status := into) else es[k]
      invariant forall k :: i <= k < |es| ==> r[k] == es[k]
    {
      if es[i].status == from {
        r := r[i := es[i].(status := into)];
      }
    }
  }

  /** The zones of `zones` that contain the point, in order. */
  method ZonesContaining(zones: seq<Zone>, x: real, y: real) returns (hits: seq<Zone>)
    ensures hits == ZonesIn(zones, x, y)
  {
    hits := [];
    for i := 0 to |zones|
      invariant hits + ZonesIn(zones[i..], x, y) == ZonesIn(zones, x, y)
    {
      var inside := Polygon.PointInPolygon(x, y, zones[i].vertices);
      assert zones[i..][0] == zones[i] && zones[i..][1..] == zones[i + 1..];
      if inside {
        hits := hits + [zones[i]];
      }
    }
  }

  /** Read x, y and theta one after the other, then map and last node; an unreadable number stops the rest. */
  method ReadPosition(start: Pose, node: string, a: Action) returns (p: Pose, last: string, ok: bool)
    ensures Placed(p, last, ok) == InitializePose(start, node, a)
  {
    hide Lookup;
    p, last, ok := start, node, false;
    var x, y, theta := Lookup(a.params, "x"), Lookup(a.params, "y"), Lookup(a.params, "theta");
    if x.Some? {
      if x.value.number.None? { return; }
      p := p.(x := x.value.number.value);
    }
    if y.Some? {
      if y.value.number.None? { return; }
      p := p.(y := y.value.number.value);
    }
    if theta.Some? {
      if theta.value.number.None? { return; }
      p := p.(theta := theta.value.number.value);
    }
    if Lookup(a.params, "mapId").Some? {
      p := p.(mapId := Text(a, "mapId"));
    }
    if Lookup(a.params, "lastNodeId").Some? {
      last := Text(a, "lastNodeId");
    }
    ok := true;
  }

  /** The pose after one step from `start`, and whether it reached `to`. */
  method StepOnce(w: World, start: Pose, to: Position, edge: Edge, speed: real, dt: Span)
      returns (p: Pose, arrived: bool)
    ensures Stepped(p, arrived) == StepPose(w, start, to, edge, speed, dt)
  {
    hide Heading.AngleDiff, Along;
    p := start.(lastStep := 0.0);
    var dist, heading := DistanceTo(w, start, to), HeadingTo(w, start, to);
    var desired := DesiredTheta(edge, heading);
    if desired.Some? && edge.reachOrientationFirst {
      var delta := Heading.AngleDiff(w.pi, desired.value, p.theta);
      if Abs(delta) > OrientationTolerance(w.pi) {
        p := p.(theta := p.theta + Clamp(delta, w.cfg.angularSpeed * dt));
        return p, false;
      }
      p := p.(theta := desired.value);
    }
    var step := speed * dt;
    if dist <= Max(step, 0.000001) {
      p := p.(x := to.x, y := to.y, lastStep := dist);
      if desired.Some? {
        p := p.(theta := desired.value);
      } else if to.theta.Some? {
        p := p.(theta := to.theta.value);
      }
      p := p.(mapId := to.mapId);
      return p, true;
    }
    p := p.(lastStep := step, theta := if desired.Some? then desired.value else heading);
    p := p.(x := Along(p.x, to.x, dist, step), y := Along(p.y, to.y, dist, step));
    arrived := false;
  }

  class SimulatedAgv {
    const w: World

    var task: Task
    var book: Book
    var mode: Mode
    var faults: Faults
    var pose: Pose
    var site: Site
    var traffic: Traffic
    var pendingErrors: multiset<ErrorKind>
    var factsheetRequested: bool
    ghost var hist: History

    /** The state the fields stand for. */
    ghost function View(): Robot reads this {
      Robot(task, book, mode, faults, pose, site, traffic, pendingErrors, factsheetRequested, hist)
    }

    constructor (w: World, x: real, y: real, theta: real, battery: real)
      ensures this.w == w && View() == Initial(x, y, theta, battery)
    {
      this.w := w;
      task := Task("", 0, None, [], [], "", 0, false, false);
      book := Book([], [], [], map[], map[], 0.0);
      mode := Mode(false, false, None, false, None);
      faults := Faults(false, Automatic, NoStop, 0.0, 0.0, 0.0, 0.0);
      pose := Pose(x, y, theta, "default", 0.0, 0.0, battery, false);
      site := Site(map[], [], map[], [], []);
      traffic := Traffic([], [], map[]);
      pendingErrors, factsheetRequested, hist := multiset{}, true, NoHistory(PowerOnPose(x, y, theta, battery));
    }

    // ---- idle ------------------------------------------------------------------

    method IsIdle() returns (idle: bool)
      ensures idle == Idle(View())
    {
      if task.driving {
        return false;
      }
      if task.nodes != [] || task.edges != [] {
        return false;
      }
      idle := !exists e :: e in book.order && e.status.Busy();
    }

    // ---- creating entries ---------------------------------------------------------

    method AppendEntry(t: Track, e: Entry)
      modifies this
      ensures View() == old(View()).(book := Append(old(View()).book, t, e))
    {
      match t
      case OrderTrack => book := book.(order := book.order + [e]);
      case InstantTrack => book := book.(instant := book.instant + [e]);
      case ZoneTrack => book := book.(zone := book.zone + [e]);
    }

    method SpawnEntry(t: Track, a: Action)
      modifies this
      ensures View() == Spawn(old(View()), t, a)
    {
      hide LiveId;
      ghost var s := View();
      AppendEntry(t, Entry(a.id, a.kind, Waiting));
      book := book.(registry := book.registry[a.id := a]);
      hist := Spawn(s, t, a).hist;
    }

    method RefuseEntry(t: Track, a: Action, error: Option<ErrorKind>)
      modifies this
      ensures View() == Refuse(old(View()), t, a, error)
    {
      AppendEntry(t, Entry(a.id, a.kind, Failed));
      if error.Some? {
        pendingErrors := pendingErrors + multiset{error.value};
      }
    }

    method AcknowledgeInstant(a: Action)
      modifies this
      ensures View() == Acknowledge(old(View()), a)
    {
      AppendEntry(InstantTrack, Entry(a.id, a.kind, Finished));
    }

    method SetEntryStatus(p: Spot, status: Status)
      requires Valid(book, p)
      modifies this
      ensures View() == old(View()).(book := SetStatus(old(book), p, status))
    {
      match p.track
      case OrderTrack => book := book.(order := book.order[p.index := book.order[p.index].(status := status)]);
      case InstantTrack => book := book.(instant := book.instant[p.index := book.instant[p.index].(status := status)]);
      case ZoneTrack => book := book.(zone := book.zone[p.index := book.zone[p.index].(status := status)]);
    }

    // ---- orders ----------------------------------------------------------------------

    method RegisterAction(a: Action, scope: Scope)
      modifies this
      ensures View() == RegisterOrderAction(w, old(View()), a, scope)
    {
      hide Spawn, Refuse;
      if !ScopeAllowed(a.kind, scope) {
        RefuseEntry(OrderTrack, a, Some(ValidationError));
      } else if !CapabilityDeclared(a.kind, w.cfg.supported) {
        RefuseEntry(OrderTrack, a, Some(ValidationError));
      } else {
        SpawnEntry(OrderTrack, a);
      }
    }

    /** Register the actions of one owner whose ids are not yet known. */
    method RegisterActions(actions: seq<Action>, scope: Scope, known: set<string>) returns (extended: set<string>)
      requires known == Ids(book.order)
      modifies this
      ensures View() == RegisterAll(w, old(View()), actions, scope)
      ensures extended == Ids(book.order)
    {
      hide RegisterOrderAction, Ids;
      extended := known;
      ghost var s := View();
      for i := 0 to |actions|
        invariant extended == Ids(book.order)
        invariant RegisterAll(w, View(), actions[i..], scope) == RegisterAll(w, s, actions, scope)
      {
        assert actions[i..][0] == actions[i] && actions[i..][1..] == actions[i + 1..];
        if actions[i].id !in extended {
          RegisteredIds(w, View(), actions[i], scope);
          RegisterAction(actions[i], scope);
          extended := extended + {actions[i].id};
        }
      }
    }

    method AcceptOrder(o: Order, isUpdate: bool)
      modifies this
      ensures View() == RobotState.AcceptOrder(w, old(View()), o, isUpdate)
    {
      hide RegisterAll;
      StartOrder(o, isUpdate);
      var known := set e | e in book.order :: e.id;
      ghost var t := View();
      for i := 0 to |o.nodes|
        invariant known == Ids(book.order)
        invariant RegisterAll(w, View(), NodeActions(o.nodes[i..]), NodeScope)
                == RegisterAll(w, t, NodeActions(o.nodes), NodeScope)
      {
        assert o.nodes[i..][0] == o.nodes[i] && o.nodes[i..][1..] == o.nodes[i + 1..];
        RegistrationJoins(w, View(), o.nodes[i].actions, NodeActions(o.nodes[i + 1..]), NodeScope);
        known := RegisterActions(o.nodes[i].actions, NodeScope, known);
      }
      ghost var n := View();
      RegistersNothing(w, n, NodeScope);
      for i := 0 to |o.edges|
        invariant known == Ids(book.order)
        invariant RegisterAll(w, View(), EdgeActions(o.edges[i..]), EdgeScope)
                == RegisterAll(w, n, EdgeActions(o.edges), EdgeScope)
      {
        assert o.edges[i..][0] == o.edges[i] && o.edges[i..][1..] == o.edges[i + 1..];
        RegistrationJoins(w, View(), o.edges[i].actions, EdgeActions(o.edges[i + 1..]), EdgeScope);
        known := RegisterActions(o.edges[i].actions, EdgeScope, known);
      }
      RegistersNothing(w, View(), EdgeScope);
      task := task.(newBaseRequest := false);
    }

    method StartOrder(o: Order, isUpdate: bool)
      modifies this
      ensures View() == TakeOrder(old(View()), o, isUpdate)
    {
      ghost var s := View();
      task := task.(orderId := o.orderId, updateId := o.updateId, snapshot := Some(o),
                    nodes := o.nodes, edges := o.edges);
      if !isUpdate {
        task := task.(lastNodeId := "", lastSeq := 0);
        book := book.(order := []);
        traffic := traffic.(zoneRequests := [], edgeRequests := []);
      }
      hist := TakeOrder(s, o, isUpdate).hist;
    }

    function MapIsEnabled(id: string): (r: bool)
      reads this
      ensures r == MapEnabled(View(), id)
    {
      id == "default" || exists k :: k in site.maps && k.0 == id && site.maps[k]
    }

    method HandleOrder(o: Order)
      modifies this
      ensures View() == RobotState.HandleOrder(w, old(View()), o)
    {
      hide RobotState.AcceptOrder, Idle;
      if mode.hibernating {
        return;
      }
      WarnOfUnknownMaps(o);
      if task.orderId != "" && o.orderId == task.orderId {
        if o.updateId > task.updateId {
          AcceptOrder(o, true);
        } else if o.updateId == task.updateId {
          if task.snapshot == Some(o) {
            return;
          }
          pendingErrors := pendingErrors + multiset{SameOrderUpdateId};
        } else {
          pendingErrors := pendingErrors + multiset{OutdatedOrderUpdate};
        }
        return;
      }
      var idle := IsIdle();
      if idle {
        AcceptOrder(o, false);
      } else {
        pendingErrors := pendingErrors + multiset{OtherOrderActive};
      }
    }

    method WarnOfUnknownMaps(o: Order)
      modifies this
      ensures View() == WarnUnknownMaps(old(View()), o)
    {
      hide MapEnabled;
      var unknown := set n | n in o.nodes && n.position.Some? && n.position.value.mapId != "default"
                             && !MapIsEnabled(n.position.value.mapId) :: n.position.value.mapId;
      assert unknown == UnknownMaps(View(), o);
      pendingErrors := pendingErrors + multiset(set m | m in unknown :: UnknownMapId(m));
    }

    method ClearActiveOrder()
      modifies this
      ensures View() == ClearOrder(old(View()))
    {
      hist := ClearOrder(View()).hist;
      task := task.(nodes := [], edges := []);
      book := book.(order := []);
      traffic := traffic.(zoneRequests := [], edgeRequests := []);
      task := task.(driving := false, newBaseRequest := false, orderId := "", updateId := 0, snapshot := None);
    }

    method FinishCancel()
      requires mode.cancel.Some?
      modifies this
      ensures View() == RobotState.FinishCancel(old(View()))
    {
      hide ClearOrder, SetStatus;
      ghost var s := View();
      var id := mode.cancel.value;
      var i := 0;
      while i < |book.instant| && !(book.instant[i].id == id && book.instant[i].status.Running?)
        invariant 0 <= i <= |book.instant|
        invariant forall k :: 0 <= k < i ==> !(book.instant[k].id == id && book.instant[k].status.Running?)
      {
        i := i + 1;
      }
      IsFirst(book.instant, (e: Entry) => e.id == s.mode.cancel.value && e.status.Running?, i);
      if i < |book.instant| {
        SetEntryStatus(Spot(InstantTrack, i), Finished);
      }
      ClearingKeepsMode(View());
      ClearActiveOrder();
      mode := mode.(cancel := None);
      hist := hist.(orders := hist.orders.(cancels := hist.orders.cancels + 1));
    }

    // ---- instant actions ------------------------------------------------------------------

    method HandleInstantActions(actions: seq<Action>)
      modifies this
      ensures View() == RobotState.HandleInstantActions(w, old(View()), actions)
    {
      hide RobotState.HandleInstantAction;
      ghost var s := View();
      for i := 0 to |actions|
        invariant RobotState.HandleInstantActions(w, View(), actions[i..])
                == RobotState.HandleInstantActions(w, s, actions)
      {
        assert actions[i..][0] == actions[i] && actions[i..][1..] == actions[i + 1..];
        HandleInstantAction(actions[i]);
      }
    }

    method PauseOrResume(pause: bool)
      modifies this
      ensures View() == SetPaused(old(View()), pause)
    {
      mode := mode.(paused := pause);
      var from, into := if pause then Running else Paused, if pause then Paused else Running;
      var order := FlipStatuses(book.order, from, into);
      var instant := FlipStatuses(book.instant, from, into);
      var zone := FlipStatuses(book.zone, from, into);
      book := book.(order := order, instant := instant, zone := zone);
    }

    method ClearTerminal(t: Track)
      requires !t.OrderTrack?
      modifies this
      ensures View() == Forget(old(View()), t)
    {
      if t.InstantTrack? {
        book := book.(instant := Live(book.instant));
      } else {
        book := book.(zone := Live(book.zone));
      }
    }

    method StartHibernation(a: Action)
      modifies this
      ensures View() == Hibernate(AbandonOrder(old(View())), a)
    {
      hide ClearOrder;
      ClearActiveOrder();
      hist := hist.(orders := hist.orders.(hibernations := hist.orders.hibernations + 1));
      var wake := Lookup(a.params, "wakeUpTime");
      mode := mode.(
        hibernating := true, wakeUpAt := if wake.Some? && wake.value.truthy then Some(wake.value.text) else None);
    }

    method StopHibernation()
      modifies this
      ensures View() == WakeUp(old(View()))
    {
      mode := mode.(hibernating := false, wakeUpAt := None);
    }

    method RequestCancel(a: Action)
      modifies this
      ensures View() == AskCancel(old(View()), a)
    {
      ghost var s := View();
      AppendEntry(InstantTrack, Entry(a.id, a.kind, Running));
      mode := mode.(cancel := Some(a.id));
      hist := AskCancel(s, a).hist;
    }

    /** retry, skipRetry and trigger. */
    method CarryOutCommand(a: Action)
      requires a.kind.Retry? || a.kind.SkipRetry? || a.kind.Trigger?
      modifies this
      ensures View() == Command(old(View()), a)
    {
      hide FindTracked, OldestWaiter, SetStatus, Append, Acknowledge, Refuse, Lookup;
      var target := if a.kind.Trigger? then TriggerTarget(book, a) else RetriableTarget(book, a);
      if target.None? {
        RefuseEntry(InstantTrack, a, Some(ValidationError));
      } else {
        var id := At(book, target.value).id;
        if a.kind.Retry? {
          SetEntryStatus(target.value, Waiting);
          book := book.(startedAt := book.startedAt - {id});
        } else if a.kind.Trigger? {
          SetEntryStatus(target.value, Finished);
        } else {
          SetEntryStatus(target.value, Failed);
        }
        hist := hist.(actions := hist.actions.(commanded := hist.actions.commanded + multiset{id}));
        AcknowledgeInstant(a);
      }
    }

    method HandleInstantAction(a: Action)
      modifies this
      ensures View() == RobotState.HandleInstantAction(w, old(View()), a)
    {
      hide CarryOut, Refuse;
      var minimum := MinimumVersion(a.kind);
      if minimum.Some? && VersionBelow(w.cfg.version, minimum.value) {
        RefuseEntry(InstantTrack, a, Some(InvalidInstantAction));
      } else if mode.hibernating && !a.kind.StopHibernation? {
        return;
      } else if !ScopeAllowed(a.kind, InstantScope) {
        RefuseEntry(InstantTrack, a, Some(ValidationError));
      } else {
        CarryOutInstant(a);
      }
    }

    method CarryOutInstant(a: Action)
      requires ScopeAllowed(a.kind, InstantScope)
      modifies this
      ensures View() == CarryOut(w, old(View()), a)
    {
      hide CarryOut, AtOnce;
      if AtOnce(a.kind) {
        CarryOutAtOnce(a);
      } else {
        CarryOutInState(a);
      }
    }

    /** The instant actions whose outcome depends on the state, or that run on a timer. */
    method CarryOutInState(a: Action)
      requires ScopeAllowed(a.kind, InstantScope) && !AtOnce(a.kind)
      modifies this
      ensures View() == CarryOut(w, old(View()), a)
    {
      hide Acknowledge, Refuse, Spawn, AskCancel, Command, Idle, HasZoneSet, MapKey, Text;
      match a.kind
      case CancelOrder =>
        var idle := IsIdle();
        if task.orderId != "" && !idle {
          RequestCancel(a);
        } else {
          RefuseEntry(InstantTrack, a, Some(NoOrderToCancel));
        }
      case Shutdown =>
        var idle := IsIdle();
        if idle {
          mode := mode.(shutdownRequested := true);
          AcknowledgeInstant(a);
        } else {
          RefuseEntry(InstantTrack, a, Some(ValidationError));
        }
      case Retry | SkipRetry | Trigger => CarryOutCommand(a);
      case DownloadMap =>
        if MapKey(a) in site.maps {
          RefuseEntry(InstantTrack, a, Some(DuplicateMap));
        } else {
          SpawnEntry(InstantTrack, a);
        }
      case DownloadZoneSet =>
        if HasZoneSet(site.zoneSets, Text(a, "zoneSetId")) {
          RefuseEntry(InstantTrack, a, Some(DuplicateZoneSet));
        } else {
          SpawnEntry(InstantTrack, a);
        }
      case Custom(_) =>
        if a.kind in w.cfg.supported {
          SpawnEntry(InstantTrack, a);
        } else {
          RefuseEntry(InstantTrack, a, Some(ValidationError));
        }
      case StartCharging | StopCharging | InitializePosition | EnableMap | DeleteMap | EnableZoneSet | DeleteZoneSet
         | UpdateCertificate =>
        SpawnEntry(InstantTrack, a);
    }

    /** The instant actions that are done on receipt, whatever the state. */
    method CarryOutAtOnce(a: Action)
      requires AtOnce(a.kind)
      modifies this
      ensures ScopeAllowed(a.kind, InstantScope) && View() == CarryOut(w, old(View()), a)
    {
      hide Acknowledge, SetPaused, Forget, AbandonOrder, Hibernate, WakeUp;
      match a.kind {
        case StartPause => PauseOrResume(true);
        case StopPause => PauseOrResume(false);
        case FactsheetRequest => factsheetRequested := true;
        case StateRequest | LogReport =>
        case ClearInstantActions => ClearTerminal(InstantTrack);
        case ClearZoneActions => ClearTerminal(ZoneTrack);
        case StartHibernation => StartHibernation(a);
        case StopHibernation => StopHibernation();
      }
      AcknowledgeInstant(a);
    }

    // ---- effects of completed actions ----------------------------------------------------

    method InitializePosition(a: Action) returns (ok: bool)
      modifies this
      ensures Placed(pose, task.lastNodeId, ok) == InitializePose(old(pose), old(task).lastNodeId, a)
      ensures View() == old(View()).(pose := pose, task := old(task).(lastNodeId := task.lastNodeId))
    {
      hide InitializePose;
      var p, last;
      p, last, ok := ReadPosition(pose, task.lastNodeId, a);
      pose := p;
      task := task.(lastNodeId := last);
    }

    /** ENABLE the named zone set, DISABLE the others of its map. */
    method EnableZones(id: string) returns (ok: bool)
      modifies this
      ensures var s := old(View());
              var i := FirstIndex(s.site.zoneSets, (z: ZoneSet) => z.zoneSetId == id);
              if i < |s.site.zoneSets| then
                ok && View() == s.(site := s.site.(zoneSetEnabled :=
                  EnableAmong(s.site.zoneSets, s.site.zoneSets[i].mapId, id, s.site.zoneSetEnabled)))
              else !ok && View() == s
    {
      var sets := site.zoneSets;
      var i := FirstIndex(sets, (z: ZoneSet) => z.zoneSetId == id);
      ok := i < |sets|;
      if ok {
        var flags := site.zoneSetEnabled;
        for k := 0 to |sets|
          invariant EnableAmong(sets[k..], sets[i].mapId, id, flags)
                  == EnableAmong(sets, sets[i].mapId, id, site.zoneSetEnabled)
        {
          assert sets[k..][0] == sets[k] && sets[k..][1..] == sets[k + 1..];
          if sets[k].mapId == sets[i].mapId {
            flags := flags[sets[k].zoneSetId := sets[k].zoneSetId == id];
          }
        }
        site := site.(zoneSetEnabled := flags);
      }
    }

    /** The effects on stored maps, stored zone sets and loads. */
    method ApplySiteEffect(a: Action) returns (ok: bool)
      modifies this
      ensures View() == old(View()).(site := site)
      ensures SiteOutcome(site, ok) == SiteEffect(old(site), old(pose).mapId, a)
    {
      hide MapKey, Text, EnableMapVersion, EnableAmong, HasZoneSet, PutZoneSet, FirstIndex, Filter, Picked, Dropped;
      ok := true;
      var key, id := MapKey(a), Text(a, "zoneSetId");
      match a.kind
      case EnableMap =>
        if key in site.maps { site := site.(maps := EnableMapVersion(site.maps, key)); } else { ok := false; }
      case DownloadMap => site := site.(maps := site.maps[key := false]);
      case DeleteMap =>
        if key in site.maps { site := site.(maps := site.maps - {key}); } else { ok := false; }
      case EnableZoneSet => ok := EnableZones(id);
      case DownloadZoneSet =>
        site := site.(zoneSets := PutZoneSet(site.zoneSets, ZoneSet(pose.mapId, id, [])),
                      zoneSetEnabled := site.zoneSetEnabled[id := false]);
      case DeleteZoneSet =>
        if HasZoneSet(site.zoneSets, id) {
          site := site.(zoneSets := Filter(site.zoneSets, (z: ZoneSet) => z.zoneSetId != id),
                        zoneSetEnabled := site.zoneSetEnabled - {id});
        } else {
          ok := false;
        }
      case Pick => site := site.(loads := Picked(site.loads, a));
      case Drop => site := site.(loads := Dropped(site.loads));
      case _ =>
    }

    /** The effects on charging and on the lists of entries. */
    method ApplyOwnEffect(a: Action)
      requires OwnEffect(a.kind)
      modifies this
      ensures View() == old(View()).(book := Cleared(old(book), a.kind),
                                     pose := old(pose).(charging := Charges(old(pose).charging, a.kind)))
    {
      hide Live;
      if a.kind.StartCharging? {
        pose := pose.(charging := true);
      } else if a.kind.StopCharging? {
        pose := pose.(charging := false);
      } else if a.kind.ClearInstantActions? {
        ClearTerminal(InstantTrack);
      } else {
        ClearTerminal(ZoneTrack);
      }
    }

    method ApplyActionEffect(a: Action) returns (ok: bool)
      modifies this
      ensures Outcome(View(), ok) == ApplyEffect(old(View()), a)
    {
      hide SiteEffect, InitializePose, Cleared, Charges, OwnEffect;
      OnlyOneEffect(View(), a);
      ok := true;
      if a.kind.InitializePosition? {
        ok := InitializePosition(a);
        hist := hist.(trip := hist.trip.(jumps := hist.trip.jumps + 1));
      } else if OwnEffect(a.kind) {
        ApplyOwnEffect(a);
      } else {
        ok := ApplySiteEffect(a);
      }
    }

    // ---- progress of actions ------------------------------------------------------------------

    /** Apply the effect of a due entry and settle its status; the entry then stands at `q`. */
    method FinishAction(p: Spot) returns (q: Spot)
      requires Valid(book, p) && At(book, p).status.Running? && At(book, p).id in book.registry
      modifies this
      ensures View() == CompleteEntry(old(View()), p)
      ensures q == Landing(old(book), p, old(book).registry[At(old(book), p).id].kind)
    {
      hide ApplyEffect, SetStatus, Landing;
      ghost var s := View();
      var id := At(book, p).id;
      var def := book.registry[id];
      q := Landing(book, p, def.kind);
      LandingHolds(s, p, def);
      var ok := ApplyActionEffect(def);
      SetEntryStatus(q, if ok then Finished else Failed);
      hist := hist.(actions := hist.actions.(effects := hist.actions.effects + [Effect(p.track, id, def)]));
    }

    method AdvanceEntry(p: Spot) returns (q: Spot)
      requires Valid(book, p) && At(book, p).id in book.registry
      modifies this
      ensures Advanced(View(), q) == AdvanceOne(w, old(View()), p)
    {
      hide CompleteEntry, SetStatus, Landing, Due;
      q := p;
      if At(book, p).status.Waiting? {
        var id := At(book, p).id;
        StatusSet(book, p, Running);
        SetEntryStatus(p, Running);
        book := book.(startedAt := book.startedAt[id := book.clock]);
      }
      var e := At(book, p);
      if e.status.Running? && Due(w, book, e.id, book.registry[e.id]) {
        q := FinishAction(p);
      }
    }

    method AdvanceTrack(t: Track)
      modifies this
      ensures View() == Sweep(w, old(View()), t, 0)
    {
      hide AdvanceOne;
      ghost var s := View();
      var i: nat := 0;
      while i < |Entries(book, t)|
        invariant Sweep(w, View(), t, i) == Sweep(w, s, t, 0)
        decreases |Entries(book, t)| - i
      {
        if Entries(book, t)[i].id in book.registry {
          var q := AdvanceEntry(Spot(t, i));
          i := q.index;
        }
        i := i + 1;
      }
    }

    method AdvanceAllPending()
      modifies this
      ensures View() == SweepAll(w, old(View()))
    {
      AdvanceTrack(OrderTrack);
      AdvanceTrack(InstantTrack);
      AdvanceTrack(ZoneTrack);
    }

    // ---- zones and traffic -----------------------------------------------------------------------

    method HandleZoneSet(z: ZoneSet)
      modifies this
      ensures View() == RobotState.HandleZoneSet(old(View()), z)
    {
      if HasZoneSet(site.zoneSets, z.zoneSetId) {
        pendingErrors := pendingErrors + multiset{DuplicateZoneSet};
        return;
      }
      site := site.(zoneSets := site.zoneSets + [z], zoneSetEnabled := site.zoneSetEnabled[z.zoneSetId := true]);
    }

    method HandleResponses(responses: seq<Response>)
      modifies this
      ensures View() == RobotState.HandleResponses(old(View()), responses)
    {
      hide RobotState.ApplyResponse;
      ghost var s := View();
      for i := 0 to |responses|
        invariant RobotState.HandleResponses(View(), responses[i..]) == RobotState.HandleResponses(s, responses)
      {
        assert responses[i..][0] == responses[i] && responses[i..][1..] == responses[i + 1..];
        ApplyResponse(responses[i]);
      }
    }

    method ApplyResponse(r: Response)
      modifies this
      ensures View() == RobotState.ApplyResponse(old(View()), r)
    {
      ghost var s := View();
      var zs, es, matched := traffic.zoneRequests, traffic.edgeRequests, false;
      for i := 0 to |zs|
        invariant |zs| == |s.traffic.zoneRequests|
        invariant forall k :: 0 <= k < i ==> zs[k] == AnswerZones(s.traffic.zoneRequests, r)[k]
        invariant forall k :: i <= k < |zs| ==> zs[k] == s.traffic.zoneRequests[k]
        invariant matched <==> exists k :: 0 <= k < i && s.traffic.zoneRequests[k].requestId == r.requestId
      {
        if zs[i].requestId == r.requestId {
          matched := true;
          zs := zs[i := zs[i].(status := GrantedStatus(r.grant, zs[i].status))];
        }
      }
      ghost var inZones := matched;
      for i := 0 to |es|
        invariant |es| == |s.traffic.edgeRequests|
        invariant forall k :: 0 <= k < i ==> es[k] == AnswerEdges(s.traffic.edgeRequests, r)[k]
        invariant forall k :: i <= k < |es| ==> es[k] == s.traffic.edgeRequests[k]
        invariant matched <==> inZones || exists k :: 0 <= k < i && s.traffic.edgeRequests[k].requestId == r.requestId
      {
        if es[i].requestId == r.requestId {
          matched := true;
          es := es[i := es[i].(status := GrantedStatus(r.grant, es[i].status))];
        }
      }
      assert zs == AnswerZones(s.traffic.zoneRequests, r) && es == AnswerEdges(s.traffic.edgeRequests, r);
      MatchedIsKnown(s.traffic, r.requestId);
      traffic := traffic.(zoneRequests := zs, edgeRequests := es);
      if matched && r.leaseExpiry.Some? && r.leaseExpiry.value != "" {
        traffic := traffic.(leases := traffic.leases[r.requestId := r.leaseExpiry.value]);
      }
      hist := RobotState.ApplyResponse(s, r).hist;
    }

    method CheckLeaseExpiry(now: real)
      modifies this
      ensures View() == CheckLeases(w, old(View()), now)
    {
      hide LeaseDue;
      ghost var s := View();
      var zs, es, leases := traffic.zoneRequests, traffic.edgeRequests, traffic.leases;
      for i := 0 to |zs|
        invariant |zs| == |s.traffic.zoneRequests|
        invariant forall k :: 0 <= k < i ==> zs[k] == CheckLeases(w, s, now).traffic.zoneRequests[k]
        invariant forall k :: i <= k < |zs| ==> zs[k] == s.traffic.zoneRequests[k]
      {
        if zs[i].status.Granted? && LeaseDue(w, leases, zs[i].requestId, now) {
          zs := zs[i := zs[i].(status := Expired)];
        }
      }
      for i := 0 to |es|
        invariant |es| == |s.traffic.edgeRequests|
        invariant forall k :: 0 <= k < i ==> es[k] == CheckLeases(w, s, now).traffic.edgeRequests[k]
        invariant forall k :: i <= k < |es| ==> es[k] == s.traffic.edgeRequests[k]
      {
        if es[i].status.Granted? && LeaseDue(w, leases, es[i].requestId, now) {
          es := es[i := es[i].(status := Expired)];
        }
      }
      assert zs == CheckLeases(w, s, now).traffic.zoneRequests && es == CheckLeases(w, s, now).traffic.edgeRequests;
      traffic := traffic.(zoneRequests := zs, edgeRequests := es);
      hist := CheckLeases(w, s, now).hist;
    }

    /** The zones, of any type, that contain the point on the robot's current map. */
    method ZoneObjectsContaining(x: real, y: real) returns (hits: seq<Zone>)
      ensures hits == ZonesAt(site.zoneSets, pose.mapId, x, y)
    {
      hide ZonesIn;
      hits := [];
      var sets := site.zoneSets;
      for i := 0 to |sets|
        invariant hits + ZonesAt(sets[i..], pose.mapId, x, y) == ZonesAt(sets, pose.mapId, x, y)
      {
        assert sets[i..][0] == sets[i] && sets[i..][1..] == sets[i + 1..];
        if sets[i].mapId == pose.mapId {
          var inside := ZonesContaining(sets[i].zones, x, y);
          hits := hits + inside;
        }
      }
    }

    method RegisterZoneActionEntry(a: Action)
      modifies this
      ensures View() == RegisterZoneAction(w, old(View()), a)
    {
      hide Spawn, Refuse;
      if a.id in book.registry {
        return;
      }
      if !ScopeAllowed(a.kind, ZoneScope) {
        RefuseEntry(ZoneTrack, a, None);
      } else if !CapabilityDeclared(a.kind, w.cfg.supported) {
        RefuseEntry(ZoneTrack, a, None);
      } else {
        SpawnEntry(ZoneTrack, a);
      }
    }

    method RegisterZoneActionEntries(actions: seq<Action>)
      modifies this
      ensures View() == RegisterZoneActions(w, old(View()), actions)
    {
      hide RegisterZoneAction;
      ghost var s := View();
      for i := 0 to |actions|
        invariant RegisterZoneActions(w, View(), actions[i..]) == RegisterZoneActions(w, s, actions)
      {
        assert actions[i..][0] == actions[i] && actions[i..][1..] == actions[i + 1..];
        RegisterZoneActionEntry(actions[i]);
      }
    }

    method UpdateZoneActionEntries()
      modifies this
      ensures View() == UpdateZoneActions(w, old(View()))
    {
      hide ZonesAt, ActionZones, RegisterZoneActions, Occupied;
      ghost var s := View();
      var around := ZoneObjectsContaining(pose.x, pose.y);
      var present, before := ActionZones(around), site.occupancy;
      for i := 0 to |present|
        invariant RegisterZoneActions(w, View(), EntryActions(present[i..], before) + ExitActions(before, present))
               == RegisterZoneActions(w, s, EntryActions(present, before) + ExitActions(before, present))
      {
        assert present[i..][0] == present[i] && present[i..][1..] == present[i + 1..];
        ghost var rest := EntryActions(present[i + 1..], before) + ExitActions(before, present);
        if !Occupied(before, present[i].zoneId) {
          var fired := present[i].entryActions + present[i].duringActions;
          assert EntryActions(present[i..], before) + ExitActions(before, present) == fired + rest;
          ZoneRegistrationJoins(w, View(), fired, rest);
          RegisterZoneActionEntries(fired);
        } else {
          assert EntryActions(present[i..], before) + ExitActions(before, present) == rest;
        }
      }
      assert EntryActions([], before) + ExitActions(before, present) == ExitActions(before, present);
      for i := 0 to |before|
        invariant RegisterZoneActions(w, View(), ExitActions(before[i..], present))
               == RegisterZoneActions(w, s, EntryActions(present, before) + ExitActions(before, present))
      {
        assert before[i..][0] == before[i] && before[i..][1..] == before[i + 1..];
        ghost var rest := ExitActions(before[i + 1..], present);
        if !Occupied(present, before[i].zoneId) {
          ZoneRegistrationJoins(w, View(), before[i].exitActions, rest);
          RegisterZoneActionEntries(before[i].exitActions);
        } else {
          assert ExitActions(before[i..], present) == rest;
        }
      }
      RegistersNoZoneAction(w, View());
      site := site.(occupancy := present);
    }

    // ---- gates ---------------------------------------------------------------------------------

    method CheckCorridor(edge: Edge) returns (holding: bool)
      modifies this
      ensures Gate(View(), holding) == CorridorGate(old(View()), edge)
    {
      hide EdgeRequestIndex;
      holding := false;
      if edge.releaseRequired {
        var i := EdgeRequestIndex(traffic, edge);
        holding := true;
        if i < |traffic.edgeRequests| {
          holding := !traffic.edgeRequests[i].status.Granted?;
        } else {
          traffic := traffic.(edgeRequests := traffic.edgeRequests
                      + [EdgeRequest(edge.edgeId + "-corridor", edge.edgeId, edge.seqId, Requested)]);
        }
      }
    }

    method CheckAccess(zone: Zone) returns (holding: bool)
      modifies this
      ensures Gate(View(), holding) == AccessGate(old(View()), zone)
    {
      hide ZoneRequestIndex, ZoneSetIdFor;
      var setId := ZoneSetIdFor(site.zoneSets, zone.zoneId);
      var i := ZoneRequestIndex(traffic, zone.zoneId, setId);
      holding := true;
      if i < |traffic.zoneRequests| {
        holding := !traffic.zoneRequests[i].status.Granted?;
      } else {
        traffic := traffic.(zoneRequests := traffic.zoneRequests
                    + [ZoneRequest(zone.zoneId + "-access",
                         if zone.zoneType.CoordinatedReplanning? then Replanning else Access,
                         zone.zoneId, setId, Requested)]);
      }
    }

    method RequestNewBase()
      modifies this
      ensures View() == WantBase(old(View()))
    {
      task := task.(newBaseRequest := true);
    }

    method CheckZone(zone: Zone, x: real, y: real) returns (holding: bool)
      modifies this
      ensures Gate(View(), holding) == ZoneGate(w, old(View()), zone, x, y)
    {
      hide AccessGate, WantBase;
      holding := false;
      if zone.zoneType.Release? || zone.zoneType.CoordinatedReplanning? {
        holding := CheckAccess(zone);
      } else if zone.zoneType.Blocked? {
        RequestNewBase();
        holding := true;
      } else if (zone.zoneType.Directed? || zone.zoneType.Bidirected?) && zone.direction.Some? {
        var heading := w.atan2(y - pose.y, x - pose.x);
        if Heading.DirectionViolated(w.pi, zone.zoneType, zone.direction.value, heading)
           && (zone.limitation == Some(Strict) || zone.limitation == Some(Restricted)) {
          RequestNewBase();
          holding := true;
        }
      }
    }

    method CheckAccessGates(edge: Edge, next: Node) returns (holding: bool)
      modifies this
      ensures Gate(View(), holding) == CheckGates(w, old(View()), edge, next)
    {
      hide CorridorGate, ZoneGate, ZonesAt;
      CorridorGateKeepsPlace(View(), edge);
      holding := CheckCorridor(edge);
      if next.position.Some? {
        var p := next.position.value;
        ghost var c := View();
        var ahead := ZoneObjectsContaining(p.x, p.y);
        var hold := false;
        for i := 0 to |ahead|
          invariant Joined(ZoneGates(w, View(), ahead[i..], p.x, p.y), hold) == ZoneGates(w, c, ahead, p.x, p.y)
        {
          assert ahead[i..][0] == ahead[i] && ahead[i..][1..] == ahead[i + 1..];
          var held := CheckZone(ahead[i], p.x, p.y);
          hold := hold || held;
        }
        holding := holding || hold;
      }
    }

    // ---- movement --------------------------------------------------------------------------------

    method CappedSpeed(edge: Edge) returns (speed: real)
      ensures speed == EffectiveSpeed(w, View(), edge)
    {
      hide ZonesAt;
      speed := w.cfg.speed;
      if edge.maximumSpeed.Some? {
        speed := Min(w.cfg.speed, edge.maximumSpeed.value);
      }
      ghost var uncapped := speed;
      var zones := ZoneObjectsContaining(pose.x, pose.y);
      for i := 0 to |zones|
        invariant CapSpeed(zones[i..], speed) == CapSpeed(zones, uncapped)
      {
        assert zones[i..][0] == zones[i] && zones[i..][1..] == zones[i + 1..];
        if zones[i].zoneType.SpeedLimit? && zones[i].maximumSpeed.Some? {
          speed := Min(speed, zones[i].maximumSpeed.value);
        }
      }
    }

    /** One step; the pose is the only field it changes. */
    method StepTowardsNode(next: Node, edge: Edge, dt: Span) returns (arrived: bool)
      modifies this
      ensures var r := StepTowards(w, old(View()), next, edge, dt);
              arrived == r.arrived && View() == old(View()).(pose := r.pose)
    {
      hide EffectiveSpeed, StepPose;
      if next.position.None? {
        pose := pose.(lastStep := 0.0);
        return true;
      }
      var speed := CappedSpeed(edge);
      var p;
      p, arrived := StepOnce(w, pose, next.position.value, edge, speed, dt);
      pose := p;
    }

    method ArriveAtNode(from: Node, edge: Edge, node: Node)
      modifies this
      ensures View() == ArriveAt(old(View()), from, edge, node)
    {
      hide Without, WithoutEdge, Holders;
      hist := ArriveAt(View(), from, edge, node).hist;
      task := task.(lastNodeId := node.nodeId, lastSeq := node.seqId, driving := false,
                    edges := WithoutEdge(task.edges, edge.seqId), nodes := Without(task.nodes, from.seqId));
      pose := pose.(sinceNode := 0.0);
    }

    method MaybeRequestNewBase()
      modifies this
      ensures View() == MaybeRequestBase(w, old(View()))
    {
      hide WantBase;
      if task.newBaseRequest || task.nodes == [] {
        return;
      }
      var released := 0;
      for i := 0 to |task.nodes|
        invariant released + ReleasedCount(task.nodes[i..]) == ReleasedCount(task.nodes)
      {
        assert task.nodes[i..][0] == task.nodes[i] && task.nodes[i..][1..] == task.nodes[i + 1..];
        if task.nodes[i].released {
          released := released + 1;
        }
      }
      if released <= w.cfg.horizon {
        RequestNewBase();
      }
    }

    /** Everything on board permitting, move on from `at`. */
    method ProceedFrom(at: Node, edge: Option<Edge>, dt: Span)
      modifies this
      ensures View() == Proceed(w, old(View()), at, edge, dt)
    {
      hide CheckGates, FindNode, Drive, Without, Holders;
      ghost var s := View();
      if edge.None? {
        hist := LeaveGraph(s, at).hist;
        task := task.(driving := false, lastNodeId := at.nodeId, lastSeq := at.seqId,
          nodes := Without(task.nodes, at.seqId));
        return;
      }
      var next := FindNode(task.nodes, edge.value.seqId + 1);
      if !edge.value.released || next.None? || !next.value.released {
        task := task.(driving := false, newBaseRequest := true);
        return;
      }
      var holding := CheckAccessGates(edge.value, next.value);
      if holding {
        task := task.(driving := false);
        return;
      }
      DriveOn(at, edge.value, next.value, dt);
    }

    method DriveOn(from: Node, edge: Edge, next: Node, dt: Span)
      modifies this
      ensures View() == Drive(w, old(View()), from, edge, next, dt)
    {
      hide StepTowards, ArriveAt, Travelled;
      ghost var s := View();
      task := task.(driving := true);
      DrivingKeepsStep(w, s, next, edge, dt);
      var arrived := StepTowardsNode(next, edge, dt);
      PoseIsReplaced(w, s.(task := s.task.(driving := true)), pose);
      AccountForStep();
      if arrived {
        ArriveAtNode(from, edge, next);
      }
    }

    /** Energy and distance of the step just taken. */
    method AccountForStep()
      modifies this
      ensures View() == Travelled(w, old(View()), old(pose))
    {
      ghost var s := View();
      if pose.lastStep > 0.0 {
        pose := pose.(battery := Max(0.0, pose.battery - pose.lastStep * w.cfg.drainPerMeter),
                      sinceNode := pose.sinceNode + pose.lastStep);
      }
      hist := Travelled(w, s, s.pose).hist;
    }

    /** The movement part of an active tick. */
    method MoveOn(dt: Span)
      modifies this
      ensures View() == Move(w, old(View()), dt)
    {
      hide Proceed, MaybeRequestBase, CurrentNode, FindEdge, IsBlocking, InstantIsBlocking;
      if task.nodes == [] {
        task := task.(driving := false);
        return;
      }
      var at := CurrentNode(task);
      var edge := FindEdge(task.edges, at.seqId + 1);
      var ids := OwnerActions(at, edge);
      if IsBlocking(book, ids) || InstantIsBlocking(book) || faults.fieldViolation || !faults.stop.NoStop? {
        task := task.(driving := false);
        return;
      }
      MaybeRequestNewBase();
      ProceedFrom(at, edge, dt);
    }

    // ---- ticks -------------------------------------------------------------------------------------

    method UpdateChargingState(dt: Span)
      modifies this
      ensures View() == UpdateCharging(w, old(View()), dt)
    {
      if pose.charging && pose.battery < 100.0 {
        pose := pose.(battery := Min(100.0, pose.battery + w.cfg.chargePerSecond * dt));
        hist := hist.(trip := hist.trip.(charges := hist.trip.charges + 1));
      }
    }

    method MaybeAutoWakeUp(now: real)
      modifies this
      ensures View() == MaybeAutoWake(w, old(View()), now)
    {
      if mode.wakeUpAt.None? || mode.wakeUpAt.value == "" {
        return;
      }
      var due := w.parseTime(mode.wakeUpAt.value);
      if due.Some? && now >= due.value {
        mode := mode.(hibernating := false, wakeUpAt := None);
      }
    }

    method Tick(dt: Span, now: real)
      modifies this
      ensures View() == RobotState.Tick(w, old(View()), dt, now)
    {
      hide MaybeAutoWake, UpdateCharging, RobotState.FinishCancel, SweepAll, CheckLeases, UpdateZoneActions, Move;
      if mode.hibernating {
        MaybeAutoWakeUp(now);
        return;
      }
      UpdateChargingState(dt);
      if mode.cancel.Some? {
        FinishCancel();
        return;
      }
      if mode.paused || !faults.operating.Automatic? {
        ChargingKeepsHibernation(w, old(View()), dt);
        return;
      }
      ChargingKeepsHibernation(w, old(View()), dt);
      book := book.(clock := book.clock + dt);
      AdvanceAllPending();
      CheckLeaseExpiry(now);
      UpdateZoneActionEntries();
      MoveOn(dt);
    }

    // ---- faults and publishing -----------------------------------------------------------------------

    method UpdateFieldViolation(draw: bool)
      modifies this
      ensures View() == old(View()).(faults := UpdateField(old(faults), draw))
    {
      if faults.fieldViolation {
        if faults.clock >= faults.fieldUntil {
          faults := faults.(fieldViolation := false);
        }
        return;
      }
      if draw {
        faults := faults.(fieldViolation := true, fieldUntil := faults.clock + FIELD_VIOLATION_DURATION);
      }
    }

    method UpdateOperatingModeFault(draw: bool)
      modifies this
      ensures View() == old(View()).(faults := UpdateOperatingMode(old(faults), draw))
    {
      if !faults.operating.Automatic? {
        if faults.clock >= faults.modeUntil {
          faults := faults.(operating := Automatic);
        }
        return;
      }
      if draw {
        faults := faults.(operating := Service, modeUntil := faults.clock + SERVICE_MODE_DURATION);
      }
    }

    method UpdateEmergencyStop(draw: EmergencyStop)
      modifies this
      ensures View() == old(View()).(faults := UpdateStop(old(faults), draw))
    {
      if !faults.stop.NoStop? {
        if faults.clock >= faults.stopUntil {
          faults := faults.(stop := NoStop);
        }
        return;
      }
      if !draw.NoStop? {
        faults := faults.(stop := draw, stopUntil := faults.clock + EMERGENCY_STOP_DURATION);
      }
    }

    method RunTimers(dt: Span, draws: Draws)
      modifies this
      ensures View() == RunFaultTimers(old(View()), dt, draws)
    {
      hide UpdateField, UpdateOperatingMode, UpdateStop;
      faults := faults.(clock := faults.clock + dt);
      UpdateFieldViolation(draws.field);
      UpdateOperatingModeFault(draws.service);
      UpdateEmergencyStop(draws.stop);
    }

    method MaybeInjectFault(dt: Span, draws: Draws)
      modifies this
      ensures View() == RobotState.MaybeInjectFault(w, old(View()), dt, draws)
    {
      hide RunFaultTimers, FirstRetriable, SetStatus;
      RunTimers(dt, draws);
      if !draws.failure {
        return;
      }
      var p := FirstRetriable(book);
      if p.Some? {
        hist := hist.(actions := hist.actions.(broken := hist.actions.broken + multiset{At(book, p.value).id}));
        SetEntryStatus(p.value, if VersionBelow(w.cfg.version, (3, 0)) then Failed else Retriable);
      } else {
        pendingErrors := pendingErrors + multiset{HardwareFault};
      }
    }

    /** The state message carries the pending errors, which publishing it empties. */
    method BuildStateMessage() returns (errors: multiset<ErrorKind>)
      modifies this
      ensures errors == old(pendingErrors) && View() == Publish(old(View()))
    {
      errors := pendingErrors;
      pendingErrors := multiset{};
    }
  }

  predicate AtOnce(kind: ActionKind) {
    kind.StartPause? || kind.StopPause? || kind.FactsheetRequest? || kind.StateRequest? || kind.LogReport?
    || kind.ClearInstantActions? || kind.ClearZoneActions? || kind.StartHibernation? || kind.StopHibernation?
  }

  // ---- what the loops rest on --------------------------------------------------------------

  predicate OwnEffect(kind: ActionKind) {
    kind.StartCharging? || kind.StopCharging? || kind.ClearInstantActions? || kind.ClearZoneActions?
  }

  /** An action has an effect on charging and entries, or on the site, or on neither. */
  lemma OnlyOneEffect(s: Robot, a: Action)
    ensures OwnEffect(a.kind) ==> SiteEffect(s.site, s.pose.mapId, a) == SiteOutcome(s.site, true)
    ensures !OwnEffect(a.kind) ==>
              Cleared(s.book, a.kind) == s.book && Charges(s.pose.charging, a.kind) == s.pose.charging
    ensures a.kind.InitializePosition? ==> !OwnEffect(a.kind)
  {
  }

  lemma RegisteredIds(w: World, s: Robot, a: Action, scope: Scope)
    ensures Ids(RegisterOrderAction(w, s, a, scope).book.order) == Ids(s.book.order) + {a.id}
  {
    hide LiveId;
    var r := RegisterOrderAction(w, s, a, scope).book.order;
    assert r == s.book.order + [r[|s.book.order|]];
  }

  lemma {:induction false} RegistrationJoins(w: World, s: Robot, a: seq<Action>, b: seq<Action>, scope: Scope)
    ensures RegisterAll(w, s, a + b, scope) == RegisterAll(w, RegisterAll(w, s, a, scope), b, scope)
    decreases |a|
  {
    hide RegisterOrderAction, Ids;
    if a == [] {
      assert a + b == b;
    } else {
      assert (a + b)[0] == a[0] && (a + b)[1..] == a[1..] + b;
      RegistrationJoins(w, if a[0].id in Ids(s.book.order) then s else RegisterOrderAction(w, s, a[0], scope),
        a[1..], b, scope);
    }
  }

  lemma RegistersNothing(w: World, s: Robot, scope: Scope)
    ensures RegisterAll(w, s, [], scope) == s
  {
  }

  lemma {:induction false} ZoneRegistrationJoins(w: World, s: Robot, a: seq<Action>, b: seq<Action>)
    ensures RegisterZoneActions(w, s, a + b) == RegisterZoneActions(w, RegisterZoneActions(w, s, a), b)
    decreases |a|
  {
    hide RegisterZoneAction;
    if a == [] {
      assert a + b == b;
    } else {
      assert (a + b)[0] == a[0] && (a + b)[1..] == a[1..] + b;
      ZoneRegistrationJoins(w, RegisterZoneAction(w, s, a[0]), a[1..], b);
    }
  }

  lemma RegistersNoZoneAction(w: World, s: Robot)
    ensures RegisterZoneActions(w, s, []) == s
  {
  }

  lemma IsFirst<T(!new)>(xs: seq<T>, p: T -> bool, i: nat)
    requires i <= |xs| && (i < |xs| ==> p(xs[i])) && forall k :: 0 <= k < i ==> !p(xs[k])
    ensures FirstIndex(xs, p) == i
  {
    var j := FirstIndex(xs, p);
  }

  lemma ClearingKeepsMode(s: Robot)
    ensures ClearOrder(s).mode == s.mode
  {
  }

  lemma StatusSet(b: Book, p: Spot, status: Status)
    requires Valid(b, p)
    ensures Valid(SetStatus(b, p, status), p) && At(SetStatus(b, p, status), p) == At(b, p).(status := status)
  {
  }

  lemma MatchedIsKnown(t: Traffic, id: string)
    ensures KnownRequest(t, id)
       <==> (exists k :: 0 <= k < |t.zoneRequests| && t.zoneRequests[k].requestId == id)
            || (exists k :: 0 <= k < |t.edgeRequests| && t.edgeRequests[k].requestId == id)
  {
  }

  /** A gate that also holds if `hold` does. */
  ghost function Joined(g: Gate, hold: bool): Gate { Gate(g.robot, hold || g.hold) }

  lemma CorridorGateKeepsPlace(s: Robot, edge: Edge)
    ensures CorridorGate(s, edge).robot.site == s.site && CorridorGate(s, edge).robot.pose == s.pose
  {
  }

  lemma PoseIsReplaced(w: World, s: Robot, p: Pose)
    ensures Travelled(w, s.(pose := p), p) == Travelled(w, s, p)
  {
  }

  lemma DrivingKeepsStep(w: World, s: Robot, next: Node, edge: Edge, dt: Span)
    ensures StepTowards(w, s.(task := s.task.(driving := true)), next, edge, dt) == StepTowards(w, s, next, edge, dt)
  {
  }

  lemma ChargingKeepsHibernation(w: World, s: Robot, dt: Span)
    ensures UpdateCharging(w, s, dt).mode == s.mode && UpdateCharging(w, s, dt).faults == s.faults
  {
  }
}
