/** ACTION zones: which zones the robot is in, which zone actions a tick fires, and that none
    fires twice. */
module Zones {
  import opened Vda5050
  import opened Platform
  import opened ActionCatalog
  import opened RobotState
  import opened Transitions
  import opened TickFrames
  import Polygon

  // ---- the zones around a point ---------------------------------------------------------

  lemma {:induction false} ZonesInMembers(zones: seq<Zone>, x: real, y: real)
    ensures forall z :: z in ZonesIn(zones, x, y) <==> z in zones && Polygon.Inside(x, y, z.vertices)
  {
    hide Polygon.Inside;
    if zones != [] {
      ZonesInMembers(zones[1..], x, y);
      assert forall z :: z in zones <==> z == zones[0] || z in zones[1..];
    }
  }

  /** The zones of the map that contain the point, whichever of its zone sets they come from. */
  lemma {:induction false} ZonesAtMembers(sets: seq<ZoneSet>, mapId: string, x: real, y: real)
    ensures forall z :: z in ZonesAt(sets, mapId, x, y)
              <==> exists s :: s in sets && s.mapId == mapId && z in s.zones && Polygon.Inside(x, y, z.vertices)
  {
    hide Polygon.Inside, ZonesIn;
    if sets != [] {
      ZonesAtMembers(sets[1..], mapId, x, y);
      ZonesInMembers(sets[0].zones, x, y);
      assert forall s :: s in sets <==> s == sets[0] || s in sets[1..];
    }
  }

  ghost predicate ZoneIdsDistinct(zones: seq<Zone>) {
    forall y, z :: y in zones && z in zones && y.zoneId == z.zoneId ==> y == z
  }

  /** Where zone ids are distinct, exactly the ACTION zones are kept. */
  lemma {:induction false} ActionZonesMembers(zones: seq<Zone>)
    requires ZoneIdsDistinct(zones)
    ensures forall z :: z in ActionZones(zones) <==> z in zones && z.zoneType.ActionZone?
  {
    if zones != [] {
      var init, last := zones[..|zones| - 1], zones[|zones| - 1];
      assert forall z :: z in zones <==> z in init || z == last;
      ActionZonesMembers(init);
      var rest := ActionZones(init);
      if last.zoneType.ActionZone? {
        var i := FirstIndex(rest, (o: Zone) => o.zoneId == last.zoneId);
        if i < |rest| {
          assert rest[i] in rest && rest[i] == last;
          assert PutZone(rest, last) == rest;
        } else {
          assert PutZone(rest, last) == rest + [last];
        }
      }
    }
  }

  // ---- what a tick fires -------------------------------------------------------------------

  predicate Offered(w: World, actions: seq<Action>, id: string) {
    exists a :: a in actions && a.id == id && Accepted(a.kind, ZoneScope, w.cfg.supported)
  }

  predicate NoneTwice(ids: seq<string>) {
    forall i: nat, j: nat :: i < j < |ids| ==> ids[i] != ids[j]
  }

  /** The ids added to `b` by going from `a`. */
  function Added(a: seq<string>, b: seq<string>): seq<string> {
    if |a| <= |b| then b[|a|..] else []
  }

  /** From registered ids `known` and started ids `sofar`, the list of actions has started exactly
      its accepted ids not known before, each once. */
  ghost predicate StartsExactly(w: World, known: set<string>, sofar: seq<string>, actions: seq<Action>,
                                after: set<string>, all: seq<string>) {
    var started := Added(sofar, all);
    && all == sofar + started && NoneTwice(started)
    && (forall id :: id in started <==> id !in known && Offered(w, actions, id))
    && (forall id :: id in after <==> id in known || id in started)
  }

  /** Registering a list of zone actions starts an entry for exactly the accepted ids not yet
      registered, each once. */
  lemma {:induction false} RegisteredExactly(w: World, s: Robot, actions: seq<Action>)
    ensures var r := RegisterZoneActions(w, s, actions);
            StartsExactly(w, s.book.registry.Keys, s.hist.actions.zoneSpawned, actions,
                          r.book.registry.Keys, r.hist.actions.zoneSpawned)
    decreases |actions|
  {
    hide RegisterZoneAction, StartsExactly;
    if actions == [] {
      StartsNothing(w, s.book.registry.Keys, s.hist.actions.zoneSpawned);
    } else {
      var t, r := RegisterZoneAction(w, s, actions[0]), RegisterZoneActions(w, s, actions);
      RegisteredOne(w, s, actions[0]);
      RegisteredExactly(w, t, actions[1..]);
      StartsOneMore(w, s, t, actions, r.book.registry.Keys, r.hist.actions.zoneSpawned);
    }
  }

  lemma StartsNothing(w: World, known: set<string>, sofar: seq<string>)
    ensures StartsExactly(w, known, sofar, [], known, sofar)
  {
    assert Added(sofar, sofar) == [];
  }

  lemma StartsOneMore(w: World, s: Robot, t: Robot, actions: seq<Action>, after: set<string>, all: seq<string>)
    requires actions != [] && t.hist.actions.zoneSpawned == s.hist.actions.zoneSpawned + Started(w, s, actions[0])
    requires forall id :: id in t.book.registry <==> id in s.book.registry || id in Started(w, s, actions[0])
    requires StartsExactly(w, t.book.registry.Keys, t.hist.actions.zoneSpawned, actions[1..], after, all)
    ensures StartsExactly(w, s.book.registry.Keys, s.hist.actions.zoneSpawned, actions, after, all)
  {
    hide Offered, NoneTwice, Accepted;
    var first, rest := Started(w, s, actions[0]), Added(t.hist.actions.zoneSpawned, all);
    assert all == s.hist.actions.zoneSpawned + (first + rest);
    assert Added(s.hist.actions.zoneSpawned, all) == first + rest;
    FewTwice(first);
    JoinedTwice(first, rest);
    OfferedSplits(w, actions);
  }

  /** What becomes of one zone action: nothing if its id is registered; else it waits as the last zone entry,
      registered, if catalog and capabilities accept it in ZONE scope; and else it is the last one, FAILED. */
  lemma ZoneVerdict(w: World, s: Robot, a: Action)
    ensures var r, waits := RegisterZoneAction(w, s, a), Accepted(a.kind, ZoneScope, w.cfg.supported);
            && r.errors == s.errors
            && r.book == if a.id in s.book.registry then s.book
                         else if waits then s.book.(zone := s.book.zone + [Entry(a.id, a.kind, Waiting)],
                                                    registry := s.book.registry[a.id := a])
                         else s.book.(zone := s.book.zone + [Entry(a.id, a.kind, Failed)])
  {
    hide Accepted, LiveId;
  }

  /** What registering one action adds. */
  function Started(w: World, s: Robot, a: Action): seq<string> {
    if a.id !in s.book.registry && Accepted(a.kind, ZoneScope, w.cfg.supported) then [a.id] else []
  }

  lemma RegisteredOne(w: World, s: Robot, a: Action)
    ensures var t := RegisterZoneAction(w, s, a);
            && t.hist.actions.zoneSpawned == s.hist.actions.zoneSpawned + Started(w, s, a)
            && (forall id :: id in t.book.registry <==> id in s.book.registry || id in Started(w, s, a))
  {
    hide LiveId, Accepted;
  }

  lemma FewTwice(ids: seq<string>)
    requires |ids| <= 1
    ensures NoneTwice(ids)
  {
  }

  lemma JoinedTwice(a: seq<string>, b: seq<string>)
    requires NoneTwice(a) && NoneTwice(b) && forall id :: id in a ==> id !in b
    ensures NoneTwice(a + b)
  {
    forall i: nat, j: nat | i < j < |a + b| ensures (a + b)[i] != (a + b)[j] {
      if i < |a| <= j { assert a[i] in a && b[j - |a|] in b; }
    }
  }

  lemma OfferedSplits(w: World, actions: seq<Action>)
    requires actions != []
    ensures forall id :: Offered(w, actions, id) <==>
              Offered(w, actions[1..], id)
              || (actions[0].id == id && Accepted(actions[0].kind, ZoneScope, w.cfg.supported))
  {
    hide Accepted;
    assert forall a :: a in actions <==> a == actions[0] || a in actions[1..];
  }

  /** An entered zone's entry or during action, or a left zone's exit action. */
  predicate Fires(present: seq<Zone>, before: seq<Zone>, a: Action) {
    || (exists z :: z in present && a in z.entryActions + z.duringActions
                    && forall y :: y in before ==> y.zoneId != z.zoneId)
    || (exists z :: z in before && a in z.exitActions && forall y :: y in present ==> y.zoneId != z.zoneId)
  }

  lemma {:induction false} EntryActionsMembers(present: seq<Zone>, before: seq<Zone>)
    ensures forall a :: a in EntryActions(present, before)
              <==> exists z :: z in present && !Occupied(before, z.zoneId) && a in z.entryActions + z.duringActions
  {
    hide Occupied;
    if present != [] {
      EntryActionsMembers(present[1..], before);
      assert forall z :: z in present <==> z == present[0] || z in present[1..];
    }
  }

  lemma {:induction false} ExitActionsMembers(before: seq<Zone>, present: seq<Zone>)
    ensures forall a :: a in ExitActions(before, present)
              <==> exists z :: z in before && !Occupied(present, z.zoneId) && a in z.exitActions
  {
    hide Occupied;
    if before != [] {
      ExitActionsMembers(before[1..], present);
      assert forall z :: z in before <==> z == before[0] || z in before[1..];
    }
  }

  /** The last ACTION zone of its id among the zones, as a dictionary keeps it. */
  predicate LastOfId(zones: seq<Zone>, i: nat)
    requires i < |zones|
  {
    zones[i].zoneType == ActionZone
    && forall j: nat :: i < j < |zones| && zones[j].zoneType == ActionZone ==> zones[j].zoneId != zones[i].zoneId
  }

  predicate OneOfEach(zones: seq<Zone>) {
    forall i: nat, j: nat :: i < j < |zones| ==> zones[i].zoneId != zones[j].zoneId
  }

  lemma PutZoneMembers(zones: seq<Zone>, z: Zone)
    requires OneOfEach(zones)
    ensures var r := PutZone(zones, z);
            && OneOfEach(r)
            && (forall y :: y in r <==> y == z || (y in zones && y.zoneId != z.zoneId))
  {
    var i := FirstIndex(zones, (o: Zone) => o.zoneId == z.zoneId);
    var r := PutZone(zones, z);
    assert r[i] == z;
    forall y ensures y in r <==> y == z || (y in zones && y.zoneId != z.zoneId) {
      if y in zones && y.zoneId != z.zoneId {
        var k :| 0 <= k < |zones| && zones[k] == y;
        assert r[k] == y;
      }
    }
  }

  /** Of the ACTION zones exactly the last of each id is kept. */
  lemma {:induction false} ActionZonesAre(zones: seq<Zone>)
    ensures var r := ActionZones(zones);
            OneOfEach(r) && forall z :: z in r <==> IsLast(zones, z)
  {
    hide PutZone, OneOfEach, IsLast;
    NoneIsLast();
    if zones != [] {
      var n := |zones| - 1;
      var init, last := zones[..n], zones[n];
      ActionZonesAre(init);
      var rest := ActionZones(init);
      if last.zoneType.ActionZone? { PutZoneMembers(rest, last); }
      LastOfOneMore(zones);
    }
  }

  lemma NoneIsLast()
    ensures OneOfEach([]) && forall z :: !IsLast([], z)
  {
  }

  predicate IsLast(zones: seq<Zone>, z: Zone) {
    exists i: nat :: i < |zones| && zones[i] == z && LastOfId(zones, i)
  }

  lemma LastOfOneMore(zones: seq<Zone>)
    requires zones != []
    ensures var init, last := zones[..|zones| - 1], zones[|zones| - 1];
            forall z :: IsLast(zones, z) <==>
              || (z == last && last.zoneType == ActionZone)
              || (IsLast(init, z) && (last.zoneType == ActionZone ==> z.zoneId != last.zoneId))
  {
    var n := |zones| - 1;
    var init, last := zones[..n], zones[n];
    forall z
      ensures IsLast(zones, z) <==> (z == last && last.zoneType == ActionZone)
                                    || (IsLast(init, z) && (last.zoneType == ActionZone ==> z.zoneId != last.zoneId))
    {
      if z == last && last.zoneType == ActionZone { assert LastOfId(zones, n); }
      if IsLast(init, z) && (last.zoneType == ActionZone ==> z.zoneId != last.zoneId) {
        var i: nat :| i < |init| && init[i] == z && LastOfId(init, i);
        assert forall j: nat :: i < j < n ==> zones[j] == init[j];
        assert zones[i] == z && LastOfId(zones, i);
      }
      if IsLast(zones, z) {
        var i: nat :| i < |zones| && zones[i] == z && LastOfId(zones, i);
        if i < n {
          assert forall j: nat :: j < n ==> zones[j] == init[j];
          assert LastOfId(init, i);
        }
      }
    }
  }

  /** The zones a tick finds the robot in: those of the current map, of any set, that contain its position, are
      ACTION zones, and are the last of their id to be found. */
  lemma PresentZonesAre(s: Robot)
    ensures var around := ZonesAt(s.site.zoneSets, s.pose.mapId, s.pose.x, s.pose.y);
            && (forall z :: z in PresentZones(s) <==> IsLast(around, z))
            && (forall z :: z in around <==> exists o :: o in s.site.zoneSets && o.mapId == s.pose.mapId && z in o.zones
                                                         && Polygon.Inside(s.pose.x, s.pose.y, z.vertices))
  {
    hide ZonesAt, Polygon.Inside, LastOfId;
    ZonesAtMembers(s.site.zoneSets, s.pose.mapId, s.pose.x, s.pose.y);
    ActionZonesAre(ZonesAt(s.site.zoneSets, s.pose.mapId, s.pose.x, s.pose.y));
  }

  /** The state in which an active tick samples the zones. */
  ghost function Sampled(w: World, s: Robot, dt: Span, now: real): Robot {
    CheckLeases(w, SweepAll(w, AdvanceClock(UpdateCharging(w, s, dt), dt)), now)
  }

  /** Whether the tick that samples zones in state `e` fires an accepted action with this id. */
  ghost predicate FiresId(w: World, e: Robot, id: string) {
    exists a :: Fires(PresentZones(e), e.site.occupancy, a) && a.id == id
                && Accepted(a.kind, ZoneScope, w.cfg.supported)
  }

  /** An active tick notes the ACTION zones around the robot, and starts an entry for exactly the
      accepted ids, not registered before, among the entry and during actions of the zones entered
      and the exit actions of the zones left, each once; any other tick, and any message, starts none. */
  lemma ZoneActionsFireExactly(w: World, s: Robot, dt: Span, now: real)
    ensures var e, r := Sampled(w, s, dt, now), Tick(w, s, dt, now);
            var started := Added(s.hist.actions.zoneSpawned, r.hist.actions.zoneSpawned);
            && r.hist.actions.zoneSpawned == s.hist.actions.zoneSpawned + started && NoneTwice(started)
            && (Active(s) ==>
                  && r.site.occupancy == PresentZones(e)
                  && forall id :: id in started <==> id !in s.book.registry && FiresId(w, e, id))
            && (!Active(s) ==> started == [] && r.site.occupancy == s.site.occupancy)
  {
    hide SweepAll, CheckLeases, Move, FinishCancel, PresentZones, RegisterZoneActions, EntryActions, ExitActions, Fires,
      Accepted, FiresId;
    if Active(s) {
      var c := UpdateCharging(w, s, dt);
      var e := Sampled(w, s, dt, now);
      SampledFrame(w, s, dt, now);
      var present := PresentZones(e);
      var actions := EntryActions(present, e.site.occupancy) + ExitActions(e.site.occupancy, present);
      RegisteredExactly(w, e, actions);
      FiredAreOffered(w, e);
      var p := Prepare(w, c, dt, now);
      MoveFiresNothing(w, p, dt);
      ChargingKeepsMode(w, s, dt);
    } else {
      InactiveFiresNothing(w, s, dt, now);
    }
  }

  lemma ChargingKeepsMode(w: World, s: Robot, dt: Span)
    ensures var c := UpdateCharging(w, s, dt);
            c.mode == s.mode && c.faults == s.faults && c.book == s.book && c.site == s.site
            && c.hist.actions.zoneSpawned == s.hist.actions.zoneSpawned
  {
  }

  lemma SampledFrame(w: World, s: Robot, dt: Span, now: real)
    ensures var e := Sampled(w, s, dt, now);
            e.book.registry == s.book.registry && e.hist.actions.zoneSpawned == s.hist.actions.zoneSpawned
  {
    hide SweepAll;
    var c := AdvanceClock(UpdateCharging(w, s, dt), dt);
    SweepAllFrame(w, c);
  }

  lemma FiredAreOffered(w: World, e: Robot)
    ensures var present := PresentZones(e);
            var actions := EntryActions(present, e.site.occupancy) + ExitActions(e.site.occupancy, present);
            forall id :: Offered(w, actions, id) <==> FiresId(w, e, id)
  {
    hide PresentZones, Accepted, EntryActions, ExitActions;
    var present := PresentZones(e);
    EntryActionsMembers(present, e.site.occupancy);
    ExitActionsMembers(e.site.occupancy, present);
    var actions := EntryActions(present, e.site.occupancy) + ExitActions(e.site.occupancy, present);
    assert forall a :: a in actions <==> Fires(present, e.site.occupancy, a);
  }

  lemma MoveFiresNothing(w: World, s: Robot, dt: Span)
    ensures var r := Move(w, s, dt);
            r.site == s.site && r.hist.actions.zoneSpawned == s.hist.actions.zoneSpawned
  {
    hide CurrentNode, FindEdge, FindNode, Held, Proceed, MaybeRequestBase;
    BaseRequestKeepsLeg(w, s);
    if s.task.nodes != [] {
      var at := CurrentNode(s.task);
      var b := MaybeRequestBase(w, s);
      var edge := FindEdge(b.task.edges, at.seqId + 1);
      ProceedFiresNothing(w, b, at, edge, dt);
    }
  }

  lemma ProceedFiresNothing(w: World, s: Robot, at: Node, edge: Option<Edge>, dt: Span)
    ensures var r := Proceed(w, s, at, edge, dt);
            r.site == s.site && r.hist.actions.zoneSpawned == s.hist.actions.zoneSpawned
  {
    hide CheckGates, FindNode, StepTowards, Without, WithoutEdge, Holders;
    if edge.Some? && FindNode(s.task.nodes, edge.value.seqId + 1).Some? {
      CheckGatesFrame(w, s, edge.value, FindNode(s.task.nodes, edge.value.seqId + 1).value);
    }
  }

  lemma InactiveFiresNothing(w: World, s: Robot, dt: Span, now: real)
    requires !Active(s)
    ensures var r := Tick(w, s, dt, now);
            r.site == s.site && r.hist.actions.zoneSpawned == s.hist.actions.zoneSpawned
  {
    hide Prepare, Move;
  }

  // ---- never twice ---------------------------------------------------------------------------

  /** Every id ever started by a zone is registered, and was started once. */
  ghost predicate ZoneIdsOnce(s: Robot) {
    NoneTwice(s.hist.actions.zoneSpawned) && forall id :: id in s.hist.actions.zoneSpawned ==> id in s.book.registry
  }

  lemma ZoneIdsOnceKept(w: World, s: Robot, op: Op)
    requires ZoneIdsOnce(s) && Enabled(w, s, op)
    ensures ZoneIdsOnce(Apply(w, s, op))
  {
    hide ApplyAction, OrderEnabled, ApplyOrder, MoveEnabled, ApplyMove, TrafficEnabled, ApplyTraffic,
      UnitEnabled, ApplyUnit;
    match op
    case OnAction(a) => ActionCounters(w, s, a);
    case OnOrder(o) => OrderFrame(s, o);
    case OnMove(m) => MoveFrame(w, s, m);
    case OnTraffic(t) => TrafficFrame(w, s, t);
    case OnUnit(u) => UnitFrame(w, s, u);
  }

  /** On every run no zone action id is started twice, however often its zone is entered and left,
      even when clearZoneActions has removed its entry. */
  lemma ZoneActionsFireOnce(w: World, s: Robot, events: seq<Event>)
    requires ZoneIdsOnce(s)
    ensures ZoneIdsOnce(Run(w, s, events))
  {
    var inv := (r: Robot) => ZoneIdsOnce(r);
    forall r: Robot, op: Op ensures Keeps(w, inv)(r, op) {
      if inv(r) && Enabled(w, r, op) { ZoneIdsOnceKept(w, r, op); }
    }
    RunInduction(w, inv, s, events);
  }
}
