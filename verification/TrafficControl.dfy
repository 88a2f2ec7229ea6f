/** Traffic control over whole runs: the robot drives only where edge, node, corridor and
    zones admit it, on grants that still stand, and not at all while it has to stop. */
module TrafficControl {
  import opened Vda5050
  import opened Platform
  import opened ActionCatalog
  import opened RobotState
  import opened Transitions
  import opened TickFrames
  import Zones

  // ---- a grant is the last answer --------------------------------------------------

  predicate LastAnswerGrants(s: Robot, id: string) {
    id in s.hist.requests.answers && s.hist.requests.answers[id].GrantGranted?
  }

  /** A request is GRANTED only if the last answer to it, other than QUEUED, was GRANTED; and the
      leases in force are the last ones answered. */
  ghost predicate GrantsHonest(s: Robot) {
    && s.traffic.leases == s.hist.requests.promises
    && (forall r :: r in s.traffic.zoneRequests && r.status.Granted? ==> LastAnswerGrants(s, r.requestId))
    && (forall r :: r in s.traffic.edgeRequests && r.status.Granted? ==> LastAnswerGrants(s, r.requestId))
  }

  lemma AnswersHonest(s: Robot, a: Response)
    requires GrantsHonest(s)
    ensures GrantsHonest(ApplyResponse(s, a))
  {
    var t := ApplyResponse(s, a);
    forall r | r in t.traffic.zoneRequests && r.status.Granted? ensures LastAnswerGrants(t, r.requestId) {
      var i :| 0 <= i < |t.traffic.zoneRequests| && t.traffic.zoneRequests[i] == r;
      assert s.traffic.zoneRequests[i] in s.traffic.zoneRequests;
    }
    forall r | r in t.traffic.edgeRequests && r.status.Granted? ensures LastAnswerGrants(t, r.requestId) {
      var i :| 0 <= i < |t.traffic.edgeRequests| && t.traffic.edgeRequests[i] == r;
      assert s.traffic.edgeRequests[i] in s.traffic.edgeRequests;
    }
  }

  lemma LeasesHonest(w: World, s: Robot, now: real)
    requires GrantsHonest(s)
    ensures GrantsHonest(CheckLeases(w, s, now))
  {
    var t := CheckLeases(w, s, now);
    forall r | r in t.traffic.zoneRequests && r.status.Granted? ensures LastAnswerGrants(t, r.requestId) {
      var i :| 0 <= i < |t.traffic.zoneRequests| && t.traffic.zoneRequests[i] == r;
      assert s.traffic.zoneRequests[i] in s.traffic.zoneRequests;
    }
    forall r | r in t.traffic.edgeRequests && r.status.Granted? ensures LastAnswerGrants(t, r.requestId) {
      var i :| 0 <= i < |t.traffic.edgeRequests| && t.traffic.edgeRequests[i] == r;
      assert s.traffic.edgeRequests[i] in s.traffic.edgeRequests;
    }
  }

  lemma GrantsHonestKept(w: World, s: Robot, op: Op)
    requires GrantsHonest(s) && Enabled(w, s, op)
    ensures GrantsHonest(Apply(w, s, op))
  {
    hide ActionEnabled, ApplyAction, MoveEnabled, ApplyMove, UnitEnabled, ApplyUnit, CheckLeases, ApplyResponse,
      EdgeRequestIndex, ZoneRequestIndex, ZoneSetIdFor;
    match op
    case OnAction(a) => ActionFrame(w, s, a);
    case OnOrder(o) => OrderFrame(s, o);
    case OnMove(m) => MoveFrame(w, s, m);
    case OnTraffic(Answering(a)) => AnswersHonest(s, a);
    case OnTraffic(CheckingLeases(now)) => LeasesHonest(w, s, now);
    case OnTraffic(_) =>
    case OnUnit(u) => UnitFrame(w, s, u);
  }

  lemma GrantsAlwaysHonest(w: World, s: Robot, events: seq<Event>)
    requires GrantsHonest(s)
    ensures GrantsHonest(Run(w, s, events))
  {
    var inv := (r: Robot) => GrantsHonest(r);
    HonestyIsKept(w);
    RunInduction(w, inv, s, events);
  }

  lemma HonestyIsKept(w: World)
    ensures Kept(w, (r: Robot) => GrantsHonest(r))
  {
    var inv := (r: Robot) => GrantsHonest(r);
    forall r: Robot, op: Op ensures Keeps(w, inv)(r, op) {
      if inv(r) && Enabled(w, r, op) { GrantsHonestKept(w, r, op); }
    }
  }

  // ---- the last answer is a grant -----------------------------------------------------

  /** The request is GRANTED exactly if the last answer to it other than QUEUED was GRANTED and the
      grant has not lapsed since. */
  predicate StatusTold(s: Robot, id: string, status: RequestStatus) {
    status.Granted? <==> LastAnswerGrants(s, id) && id !in s.hist.requests.lapsed
  }

  /** Relative to `a`, while the order is neither renewed nor cleared: the requests keep their places, and
      a standing one stays standing. */
  ghost predicate RequestsStand(a: Robot, b: Robot) {
    && b.hist.orders.renewals >= a.hist.orders.renewals
    && (b.hist.orders.renewals == a.hist.orders.renewals ==>
          && |b.traffic.zoneRequests| >= |a.traffic.zoneRequests|
          && |b.traffic.edgeRequests| >= |a.traffic.edgeRequests|
          && (forall i: nat :: i < |a.traffic.zoneRequests| ==>
                ZoneStands(a, b, a.traffic.zoneRequests[i], b.traffic.zoneRequests[i]))
          && (forall i: nat :: i < |a.traffic.edgeRequests| ==>
                EdgeStands(a, b, a.traffic.edgeRequests[i], b.traffic.edgeRequests[i])))
  }

  predicate ZoneStands(a: Robot, b: Robot, p: ZoneRequest, q: ZoneRequest) {
    q == p.(status := q.status) && (StatusTold(a, p.requestId, p.status) ==> StatusTold(b, q.requestId, q.status))
  }

  predicate EdgeStands(a: Robot, b: Robot, p: EdgeRequest, q: EdgeRequest) {
    q == p.(status := q.status) && (StatusTold(a, p.requestId, p.status) ==> StatusTold(b, q.requestId, q.status))
  }

  lemma AnswersStandOn(a: Robot, b: Robot, r: Response)
    requires RequestsStand(a, b)
    ensures RequestsStand(a, ApplyResponse(b, r))
  {
    hide KnownRequest;
    var c := ApplyResponse(b, r);
    if c.hist.orders.renewals == a.hist.orders.renewals {
      forall i: nat | i < |a.traffic.zoneRequests|
        ensures ZoneStands(a, c, a.traffic.zoneRequests[i], c.traffic.zoneRequests[i])
      {
        assert ZoneStands(a, b, a.traffic.zoneRequests[i], b.traffic.zoneRequests[i]);
      }
      forall i: nat | i < |a.traffic.edgeRequests|
        ensures EdgeStands(a, c, a.traffic.edgeRequests[i], c.traffic.edgeRequests[i])
      {
        assert EdgeStands(a, b, a.traffic.edgeRequests[i], b.traffic.edgeRequests[i]);
      }
    }
  }

  lemma LeasesStandOn(w: World, a: Robot, b: Robot, now: real)
    requires RequestsStand(a, b)
    ensures RequestsStand(a, CheckLeases(w, b, now))
  {
    hide LeaseDue;
    var c := CheckLeases(w, b, now);
    if c.hist.orders.renewals == a.hist.orders.renewals {
      forall i: nat | i < |a.traffic.zoneRequests|
        ensures ZoneStands(a, c, a.traffic.zoneRequests[i], c.traffic.zoneRequests[i])
      {
        assert ZoneStands(a, b, a.traffic.zoneRequests[i], b.traffic.zoneRequests[i]);
        assert b.traffic.zoneRequests[i] in b.traffic.zoneRequests;
      }
      forall i: nat | i < |a.traffic.edgeRequests|
        ensures EdgeStands(a, c, a.traffic.edgeRequests[i], c.traffic.edgeRequests[i])
      {
        assert EdgeStands(a, b, a.traffic.edgeRequests[i], b.traffic.edgeRequests[i]);
        assert b.traffic.edgeRequests[i] in b.traffic.edgeRequests;
      }
    }
  }

  lemma AskingStandsOn(w: World, a: Robot, b: Robot, op: TrafficOp)
    requires RequestsStand(a, b) && TrafficEnabled(b, op) && (op.AskingCorridor? || op.AskingAccess?)
    ensures RequestsStand(a, ApplyTraffic(w, b, op))
  {
    hide EdgeRequestIndex, ZoneRequestIndex, ZoneSetIdFor;
    var c := ApplyTraffic(w, b, op);
    if c.hist.orders.renewals == a.hist.orders.renewals {
      forall i: nat | i < |a.traffic.zoneRequests|
        ensures ZoneStands(a, c, a.traffic.zoneRequests[i], c.traffic.zoneRequests[i])
      {
        assert ZoneStands(a, b, a.traffic.zoneRequests[i], b.traffic.zoneRequests[i]);
      }
      forall i: nat | i < |a.traffic.edgeRequests|
        ensures EdgeStands(a, c, a.traffic.edgeRequests[i], c.traffic.edgeRequests[i])
      {
        assert EdgeStands(a, b, a.traffic.edgeRequests[i], b.traffic.edgeRequests[i]);
      }
    }
  }

  lemma SameRequestsStand(a: Robot, b: Robot, c: Robot)
    requires RequestsStand(a, b) && c.traffic == b.traffic && c.hist.requests == b.hist.requests
    requires c.hist.orders.renewals == b.hist.orders.renewals
    ensures RequestsStand(a, c)
  {
    if c.hist.orders.renewals == a.hist.orders.renewals {
      forall i: nat | i < |a.traffic.zoneRequests|
        ensures ZoneStands(a, c, a.traffic.zoneRequests[i], c.traffic.zoneRequests[i])
      {
        assert ZoneStands(a, b, a.traffic.zoneRequests[i], b.traffic.zoneRequests[i]);
      }
      forall i: nat | i < |a.traffic.edgeRequests|
        ensures EdgeStands(a, c, a.traffic.edgeRequests[i], c.traffic.edgeRequests[i])
      {
        assert EdgeStands(a, b, a.traffic.edgeRequests[i], b.traffic.edgeRequests[i]);
      }
    }
  }

  lemma UpdatesKeepRequests(s: Robot, op: OrderOp)
    requires OrderEnabled(s, op)
    ensures var r := ApplyOrder(s, op);
            !Renews(OnOrder(op)) ==> r.hist.requests == s.hist.requests && r.traffic == s.traffic
  {
  }

  lemma RequestsStandKept(w: World, a: Robot, b: Robot, op: Op)
    requires RequestsStand(a, b) && Enabled(w, b, op)
    ensures RequestsStand(a, Apply(w, b, op))
  {
    hide ActionEnabled, ApplyAction, OrderEnabled, ApplyOrder, MoveEnabled, ApplyMove, UnitEnabled, ApplyUnit,
      CheckLeases, ApplyResponse, EdgeRequestIndex, ZoneRequestIndex, ZoneSetIdFor, RequestsStand;
    CountersAfter(w, b, op);
    var c := Apply(w, b, op);
    match op
    case OnTraffic(Answering(r)) => AnswersStandOn(a, b, r);
    case OnTraffic(CheckingLeases(now)) => LeasesStandOn(w, a, b, now);
    case OnTraffic(t) => AskingStandsOn(w, a, b, t);
    case OnAction(x) =>
      ActionFrame(w, b, x);
      SameRequestsStand(a, b, c);
    case OnOrder(o) =>
      UpdatesKeepRequests(b, o);
      if Renews(op) { RenewedRequests(a, b, c); } else { SameRequestsStand(a, b, c); }
    case OnMove(m) =>
      MoveFrame(w, b, m);
      SameRequestsStand(a, b, c);
    case OnUnit(u) =>
      UnitFrame(w, b, u);
      SameRequestsStand(a, b, c);
  }

  lemma RenewedRequests(a: Robot, b: Robot, c: Robot)
    requires RequestsStand(a, b) && c.hist.orders.renewals > b.hist.orders.renewals
    ensures RequestsStand(a, c)
  {
  }

  /** The liveness of grants. On every run within one order a standing request, such as one just made
      under an id never answered, is GRANTED exactly while the last answer to it other than QUEUED
      was GRANTED and its lease has not fallen due since. */
  lemma GrantsAlwaysStand(w: World, s: Robot, events: seq<Event>)
    ensures RequestsStand(s, Run(w, s, events))
  {
    hide RequestsStand;
    StandsItself(s);
    var inv := (r: Robot) => RequestsStand(s, r);
    forall r: Robot, op: Op ensures Keeps(w, inv)(r, op) {
      if inv(r) && Enabled(w, r, op) { RequestsStandKept(w, s, r, op); }
    }
    RunInduction(w, inv, s, events);
  }

  lemma StandsItself(s: Robot)
    ensures RequestsStand(s, s)
  {
  }

  /** A grant takes at once, on every request of its id. */
  lemma GrantTakes(s: Robot, r: Response)
    requires r.grant.GrantGranted?
    ensures var t := ApplyResponse(s, r);
            && (forall q :: q in t.traffic.zoneRequests && q.requestId == r.requestId ==> q.status.Granted?)
            && (forall q :: q in t.traffic.edgeRequests && q.requestId == r.requestId ==> q.status.Granted?)
            && LastAnswerGrants(t, r.requestId) && r.requestId !in t.hist.requests.lapsed
  {
    hide KnownRequest;
  }

  /** The status a request has after an answer to it. */
  predicate Heard(grant: GrantType, before: RequestStatus, after: RequestStatus) {
    match grant
    case GrantGranted => after == Granted
    case GrantRevoked | GrantRejected => after == Revoked
    case GrantQueued => after == before
  }

  /** What a response comes to: every request of its id, and no other, takes its status; and the lease that
      goes with it is stored, if it is not empty and there is such a request. */
  lemma ResponseOutcome(w: World, s: Robot, r: Response)
    ensures var a, t := s.traffic, Step(w, s, ResponsesMessage([r])).traffic;
            && |t.zoneRequests| == |a.zoneRequests| && |t.edgeRequests| == |a.edgeRequests|
            && (forall i: nat :: i < |a.zoneRequests| ==>
                  var p, q := a.zoneRequests[i], t.zoneRequests[i];
                  q == p.(status := q.status)
                  && if p.requestId == r.requestId then Heard(r.grant, p.status, q.status) else q == p)
            && (forall i: nat :: i < |a.edgeRequests| ==>
                  var p, q := a.edgeRequests[i], t.edgeRequests[i];
                  q == p.(status := q.status)
                  && if p.requestId == r.requestId then Heard(r.grant, p.status, q.status) else q == p)
            && (var known := (exists q :: q in a.zoneRequests && q.requestId == r.requestId)
                             || exists q :: q in a.edgeRequests && q.requestId == r.requestId;
                t.leases == if known && r.leaseExpiry.Some? && r.leaseExpiry.value != ""
                            then a.leases[r.requestId := r.leaseExpiry.value] else a.leases)
  {
    assert [r][1..] == [];
    assert HandleResponses(s, [r]) == HandleResponses(ApplyResponse(s, r), []);
  }

  /** What a lease check comes to: a GRANTED request whose stored lease is readable and has come is EXPIRED,
      and all others are as before. */
  lemma LeaseOutcome(w: World, s: Robot, now: real)
    ensures var a, t := s.traffic, CheckLeases(w, s, now).traffic;
            && t.leases == a.leases
            && |t.zoneRequests| == |a.zoneRequests| && |t.edgeRequests| == |a.edgeRequests|
            && (forall i: nat :: i < |a.zoneRequests| ==>
                  var p := a.zoneRequests[i];
                  t.zoneRequests[i] == if p.status == Granted && p.requestId in a.leases
                                          && Passed(w, a.leases[p.requestId], now)
                                       then p.(status := Expired) else p)
            && (forall i: nat :: i < |a.edgeRequests| ==>
                  var p := a.edgeRequests[i];
                  t.edgeRequests[i] == if p.status == Granted && p.requestId in a.leases
                                          && Passed(w, a.leases[p.requestId], now)
                                       then p.(status := Expired) else p)
  {
  }

  // ---- what a moving tick presupposes --------------------------------------------------

  /** The state an active tick moves from. */
  ghost function Prepared(w: World, s: Robot, dt: Span, now: real): Robot {
    Prepare(w, UpdateCharging(w, s, dt), dt, now)
  }

  lemma PreparedFacts(w: World, s: Robot, dt: Span, now: real)
    requires Active(s)
    ensures var p := Prepared(w, s, dt, now);
            && Active(p) && LeasesFresh(w, p, now)
            && p.task == s.task.(lastNodeId := p.task.lastNodeId)
            && p.faults == s.faults && p.traffic == CheckLeases(w, s, now).traffic
            && p.hist.trip.odometer == s.hist.trip.odometer && p.book.clock == s.book.clock + dt
            && Tick(w, s, dt, now) == Move(w, p, dt)
  {
    hide Prepare, Move, CheckLeases, LeasesFresh;
    var c := UpdateCharging(w, s, dt);
    PrepareFrame(w, c, dt, now);
    CheckedLeasesAreFresh(w, c, now);
    SameLeases(w, c, s, now);
    FreshTraffic(w, CheckLeases(w, c, now), Prepare(w, c, dt, now), now);
  }

  lemma SameLeases(w: World, a: Robot, b: Robot, now: real)
    requires a.traffic == b.traffic
    ensures CheckLeases(w, a, now).traffic == CheckLeases(w, b, now).traffic
  {
  }

  lemma FreshTraffic(w: World, a: Robot, b: Robot, now: real)
    requires a.traffic == b.traffic
    ensures LeasesFresh(w, a, now) <==> LeasesFresh(w, b, now)
  {
  }

  /** Whether a tick in this state must leave the robot where it is. */
  predicate MustStop(s: Robot) {
    s.mode.hibernating || s.mode.cancel.Some? || s.mode.paused || !s.faults.operating.Automatic?
    || s.faults.fieldViolation || !s.faults.stop.NoStop?
  }

  /** A tick that adds to the odometer starts from a state free to move, on a released leg all
      of whose gates are open, with no lease due; and it drives exactly that leg. */
  lemma MovingTick(w: World, s: Robot, dt: Span, now: real)
    requires Tick(w, s, dt, now).hist.trip.odometer != s.hist.trip.odometer
    ensures !MustStop(s)
    ensures var p := Prepared(w, s, dt, now);
            && HasLeg(p.task) && NextLeg(p.task).edge.released && NextLeg(p.task).next.released
            && GatesOpen(w, p, NextLeg(p.task).edge, NextLeg(p.task).next) && LeasesFresh(w, p, now)
            && var leg := NextLeg(p.task);
               Tick(w, s, dt, now) == Drive(w, MaybeRequestBase(w, p), leg.from, leg.edge, leg.next, dt)
  {
    hide Move, Prepare, FinishCancel, Drives, Drive, LeasesFresh, GatesOpen, MaybeRequestBase, MayDrive, NextLeg,
      HasLeg;
    if Active(s) {
      PreparedFacts(w, s, dt, now);
      MoveDrivesOrStands(w, Prepared(w, s, dt, now), dt, now);
      DrivingFacts(w, Prepared(w, s, dt, now));
    } else if s.mode.cancel.Some? && !s.mode.hibernating {
      CancelKeepsOdometer(UpdateCharging(w, s, dt));
    }
  }

  lemma DrivingFacts(w: World, p: Robot)
    requires Drives(w, p)
    ensures HasLeg(p.task) && NextLeg(p.task).edge.released && NextLeg(p.task).next.released
    ensures GatesOpen(w, p, NextLeg(p.task).edge, NextLeg(p.task).next)
    ensures !p.faults.fieldViolation && p.faults.stop.NoStop?
  {
    hide GatesOpen, NextLeg, HasLeg;
  }

  lemma CancelKeepsOdometer(s: Robot)
    requires s.mode.cancel.Some?
    ensures FinishCancel(s).hist.trip.odometer == s.hist.trip.odometer && FinishCancel(s).pose == s.pose
  {
  }

  /** Whether the text is readable as a time that has come. */
  predicate Passed(w: World, text: string, now: real) {
    w.parseTime(text).Some? && w.parseTime(text).value <= now
  }

  /** GRANTED, by the last answer, and the lease last answered, if any is readable, is not due. */
  predicate StandingGrant(w: World, s: Robot, id: string, status: RequestStatus, now: real) {
    && status.Granted? && LastAnswerGrants(s, id)
    && !(id in s.hist.requests.promises && Passed(w, s.hist.requests.promises[id], now))
  }

  predicate CorridorGranted(w: World, s: Robot, edge: Edge, now: real) {
    exists q :: q in s.traffic.edgeRequests && q.edgeId == edge.edgeId && q.seqId == edge.seqId
                && StandingGrant(w, s, q.requestId, q.status, now)
  }

  predicate HoldsZone(o: ZoneSet, zoneId: string) {
    exists z :: z in o.zones && z.zoneId == zoneId
  }

  /** Whether `setId` is the id of the first zone set that holds a zone of this id. */
  predicate OwnSet(sets: seq<ZoneSet>, zoneId: string, setId: string) {
    exists i: nat :: i < |sets| && sets[i].zoneSetId == setId && HoldsZone(sets[i], zoneId)
                     && forall j: nat :: j < i ==> !HoldsZone(sets[j], zoneId)
  }

  lemma OwnSetOfZone(sets: seq<ZoneSet>, mapId: string, x: real, y: real, z: Zone)
    requires z in ZonesAt(sets, mapId, x, y)
    ensures OwnSet(sets, z.zoneId, ZoneSetIdFor(sets, z.zoneId))
  {
    hide ZonesAt;
    Zones.ZonesAtMembers(sets, mapId, x, y);
    var i := FirstIndex(sets, (o: ZoneSet) => exists zone :: zone in o.zones && zone.zoneId == z.zoneId);
    var o :| o in sets && z in o.zones;
    assert i < |sets| && HoldsZone(sets[i], z.zoneId);
  }

  predicate AccessGranted(w: World, s: Robot, zone: Zone, now: real) {
    exists q :: q in s.traffic.zoneRequests && q.zoneId == zone.zoneId
                && OwnSet(s.site.zoneSets, zone.zoneId, q.zoneSetId)
                && StandingGrant(w, s, q.requestId, q.status, now)
  }

  /** Grant safety over whole runs. Whenever a beat adds to the odometer, the edge and the next
      node are released; the corridor, where one is required, and every access zone on the
      current map around the next node have a request whose last answer other than QUEUED was
      GRANTED and whose lease is not due; and no zone there is BLOCKED or has its binding
      direction broken. */
  lemma DrivesOnlyOnStandingGrants(w: World, s: Robot, events: seq<Event>, dt: Span, now: real, draws: Draws)
    requires GrantsHonest(s)
    requires var r := Run(w, s, events); Step(w, r, Beat(dt, now, draws)).hist.trip.odometer != r.hist.trip.odometer
    ensures var p := Prepared(w, Run(w, s, events), dt, now);
            && HasLeg(p.task)
            && var leg := NextLeg(p.task);
            && leg.edge.released && leg.next.released
            && (leg.edge.releaseRequired ==> CorridorGranted(w, p, leg.edge, now))
            && (leg.next.position.Some? ==>
                  var x, y := leg.next.position.value.x, leg.next.position.value.y;
                  forall z :: z in ZonesAt(p.site.zoneSets, p.pose.mapId, x, y) ==>
                    && !z.zoneType.Blocked? && !WrongWay(w, p, z, x, y)
                    && (z.zoneType.Release? || z.zoneType.CoordinatedReplanning? ==> AccessGranted(w, p, z, now)))
  {
    hide Tick, Prepare, LeasesFresh, GatesOpen, NextLeg, HasLeg;
    var r := Run(w, s, events);
    FaultsKeepOdometer(w, Tick(w, r, dt, now), dt, draws);
    MovingTick(w, r, dt, now);
    var p := Prepared(w, r, dt, now);
    GrantsAlwaysHonest(w, s, events);
    PreparedHonest(w, r, dt, now);
    OpenMeansGranted(w, p, NextLeg(p.task).edge, NextLeg(p.task).next, now);
  }

  lemma FaultsKeepOdometer(w: World, s: Robot, dt: Span, draws: Draws)
    ensures MaybeInjectFault(w, s, dt, draws).hist.trip.odometer == s.hist.trip.odometer
  {
    hide UpdateField, UpdateOperatingMode, UpdateStop, FirstRetriable, SetStatus;
  }

  lemma PreparedHonest(w: World, s: Robot, dt: Span, now: real)
    requires GrantsHonest(s) && Active(s)
    ensures GrantsHonest(Prepared(w, s, dt, now))
  {
    hide Prepare, GrantsHonest;
    var inv := (r: Robot) => GrantsHonest(r);
    HonestyIsKept(w);
    Fire(w, inv, s, OnUnit(Charging(dt)));
    PrepareKeeps(w, inv, UpdateCharging(w, s, dt), dt, now);
  }

  lemma OpenMeansGranted(w: World, p: Robot, edge: Edge, next: Node, now: real)
    requires GatesOpen(w, p, edge, next) && LeasesFresh(w, p, now) && GrantsHonest(p)
    ensures edge.releaseRequired ==> CorridorGranted(w, p, edge, now)
    ensures next.position.Some? ==>
              var x, y := next.position.value.x, next.position.value.y;
              forall z :: z in ZonesAt(p.site.zoneSets, p.pose.mapId, x, y) ==>
                && !z.zoneType.Blocked? && !WrongWay(w, p, z, x, y)
                && (z.zoneType.Release? || z.zoneType.CoordinatedReplanning? ==> AccessGranted(w, p, z, now))
  {
    hide ZonesAt, WrongWay, ZoneSetIdFor;
    if edge.releaseRequired {
      var q := p.traffic.edgeRequests[EdgeRequestIndex(p.traffic, edge)];
      assert q in p.traffic.edgeRequests;
    }
    if next.position.Some? {
      var x, y := next.position.value.x, next.position.value.y;
      forall z | z in ZonesAt(p.site.zoneSets, p.pose.mapId, x, y)
        ensures !z.zoneType.Blocked? && !WrongWay(w, p, z, x, y)
        ensures z.zoneType.Release? || z.zoneType.CoordinatedReplanning? ==> AccessGranted(w, p, z, now)
      {
        assert ZoneOpen(w, p, z, x, y);
        if RequiresAccess(z) {
          var setId := ZoneSetIdFor(p.site.zoneSets, z.zoneId);
          var q := p.traffic.zoneRequests[ZoneRequestIndex(p.traffic, z.zoneId, setId)];
          assert q in p.traffic.zoneRequests;
          OwnSetOfZone(p.site.zoneSets, p.pose.mapId, x, y, z);
        }
      }
    }
  }

  // ---- revocation and expiry ---------------------------------------------------------------

  /** A corridor request that is not GRANTED, or whose lease falls due, stops the robot at the
      next tick, wherever on the edge it is. */
  lemma LostCorridorStops(w: World, s: Robot, dt: Span, now: real)
    requires HasLeg(s.task) && NextLeg(s.task).edge.releaseRequired
    requires var i := EdgeRequestIndex(s.traffic, NextLeg(s.task).edge);
             i < |s.traffic.edgeRequests| ==>
               var q := s.traffic.edgeRequests[i];
               || !q.status.Granted?
               || (q.requestId in s.traffic.leases && Passed(w, s.traffic.leases[q.requestId], now))
    ensures Tick(w, s, dt, now).hist.trip.odometer == s.hist.trip.odometer
  {
    hide Tick, Prepare, LeasesFresh, CurrentNode, FindEdge, FindNode;
    if Tick(w, s, dt, now).hist.trip.odometer != s.hist.trip.odometer {
      MovingTick(w, s, dt, now);
      PreparedFacts(w, s, dt, now);
      var p := Prepared(w, s, dt, now);
      SameLeg(s.task, p.task);
      ExpiryKeepsIndex(w, s, NextLeg(s.task).edge, now);
      ExpiryOnlyWithdraws(w, s, p, NextLeg(s.task).edge, now);
    }
  }

  lemma SameLeg(a: Task, b: Task)
    requires b == a.(lastNodeId := b.lastNodeId) && HasLeg(a)
    ensures HasLeg(b) && NextLeg(b) == NextLeg(a)
  {
  }

  lemma ExpiryKeepsIndex(w: World, s: Robot, edge: Edge, now: real)
    ensures EdgeRequestIndex(CheckLeases(w, s, now).traffic, edge) == EdgeRequestIndex(s.traffic, edge)
  {
    var a, b := s.traffic.edgeRequests, CheckLeases(w, s, now).traffic.edgeRequests;
    var i, j := EdgeRequestIndex(s.traffic, edge), EdgeRequestIndex(CheckLeases(w, s, now).traffic, edge);
    assert |a| == |b| && forall k :: 0 <= k < |a| ==> b[k].edgeId == a[k].edgeId && b[k].seqId == a[k].seqId;
  }

  lemma ExpiryOnlyWithdraws(w: World, s: Robot, p: Robot, edge: Edge, now: real)
    requires p.traffic == CheckLeases(w, s, now).traffic
    requires EdgeRequestIndex(p.traffic, edge) == EdgeRequestIndex(s.traffic, edge)
    requires edge.releaseRequired && CorridorOpen(p, edge)
    ensures var i := EdgeRequestIndex(s.traffic, edge);
            i < |s.traffic.edgeRequests|
            && s.traffic.edgeRequests[i].status.Granted?
            && !LeaseDue(w, s.traffic.leases, s.traffic.edgeRequests[i].requestId, now)
  {
  }

  /** A zone-access request that is not GRANTED, or whose lease falls due, stops the robot at the next
      tick, for any zone that is then still around the next node. */
  lemma LostAccessStops(w: World, s: Robot, dt: Span, now: real, z: Zone)
    requires var p := Prepared(w, s, dt, now);
             && HasLeg(p.task) && NextLeg(p.task).next.position.Some?
             && var to := NextLeg(p.task).next.position.value;
                z in ZonesAt(p.site.zoneSets, p.pose.mapId, to.x, to.y)
    requires z.zoneType.Release? || z.zoneType.CoordinatedReplanning?
    requires var i := ZoneRequestIndex(s.traffic, z.zoneId,
                                       ZoneSetIdFor(Prepared(w, s, dt, now).site.zoneSets, z.zoneId));
             i < |s.traffic.zoneRequests| ==>
               var q := s.traffic.zoneRequests[i];
               || !q.status.Granted?
               || (q.requestId in s.traffic.leases && Passed(w, s.traffic.leases[q.requestId], now))
    ensures Tick(w, s, dt, now).hist.trip.odometer == s.hist.trip.odometer
  {
    hide Tick, Prepare, LeasesFresh, HasLeg, NextLeg, ZonesAt, ZoneSetIdFor, Drive, Prepared, MaybeRequestBase;
    if Tick(w, s, dt, now).hist.trip.odometer != s.hist.trip.odometer {
      MovingTick(w, s, dt, now);
      PreparedFacts(w, s, dt, now);
      var p := Prepared(w, s, dt, now);
      var to := NextLeg(p.task).next.position.value;
      assert ZoneOpen(w, p, z, to.x, to.y);
      var setId := ZoneSetIdFor(p.site.zoneSets, z.zoneId);
      ExpiryKeepsZoneIndex(w, s, z.zoneId, setId, now);
      AccessOnlyWithdrawn(w, s, p, z, setId, now);
    }
  }

  lemma ExpiryKeepsZoneIndex(w: World, s: Robot, zoneId: string, setId: string, now: real)
    ensures ZoneRequestIndex(CheckLeases(w, s, now).traffic, zoneId, setId)
            == ZoneRequestIndex(s.traffic, zoneId, setId)
  {
    var a, b := s.traffic.zoneRequests, CheckLeases(w, s, now).traffic.zoneRequests;
    var i := ZoneRequestIndex(s.traffic, zoneId, setId);
    var j := ZoneRequestIndex(CheckLeases(w, s, now).traffic, zoneId, setId);
    assert |a| == |b| && forall k :: 0 <= k < |a| ==> b[k].zoneId == a[k].zoneId && b[k].zoneSetId == a[k].zoneSetId;
  }

  lemma AccessOnlyWithdrawn(w: World, s: Robot, p: Robot, z: Zone, setId: string, now: real)
    requires p.traffic == CheckLeases(w, s, now).traffic
    requires ZoneRequestIndex(p.traffic, z.zoneId, setId) == ZoneRequestIndex(s.traffic, z.zoneId, setId)
    requires var i := ZoneRequestIndex(p.traffic, z.zoneId, setId);
             i < |p.traffic.zoneRequests| && p.traffic.zoneRequests[i].status.Granted?
    ensures var i := ZoneRequestIndex(s.traffic, z.zoneId, setId);
            i < |s.traffic.zoneRequests|
            && s.traffic.zoneRequests[i].status.Granted?
            && !LeaseDue(w, s.traffic.leases, s.traffic.zoneRequests[i].requestId, now)
  {
  }

  // ---- stopping ----------------------------------------------------------------------------------

  /** Whether every beat of the run starts in a state that must stop. */
  ghost predicate StoppedThroughout(w: World, s: Robot, events: seq<Event>)
    decreases |events|
  {
    events != [] ==>
      (events[0].Beat? ==> MustStop(s)) && StoppedThroughout(w, Step(w, s, events[0]), events[1..])
  }

  /** Neither driven nor repositioned, no zone entered or left, and the order clock unmoved. */
  predicate Undisturbed(s: Robot, r: Robot) {
    && r.pose == s.pose && r.hist.trip.odometer == s.hist.trip.odometer && r.book.clock == s.book.clock
    && r.site.occupancy == s.site.occupancy && r.hist.actions.zoneSpawned == s.hist.actions.zoneSpawned
  }

  /** Messages never drive, reposition, fire zone actions or use up time. */
  lemma MessagesStand(w: World, s: Robot, e: Event)
    requires !e.Beat?
    ensures Undisturbed(s, Step(w, s, e))
  {
    hide HandleInstantAction, AcceptOrder;
    match e
    case OrderMessage(o) => OrdersStand(w, s, o);
    case InstantActionsMessage(actions) => CommandsStand(w, s, actions);
    case ResponsesMessage(responses) => AnswersStand(s, responses);
    case _ =>
  }

  lemma {:induction false} RegistrationStands(w: World, s: Robot, actions: seq<Action>, scope: Scope)
    ensures Undisturbed(s, RegisterAll(w, s, actions, scope))
    decreases |actions|
  {
    hide LiveId;
    if actions != [] {
      var t := if actions[0].id in Ids(s.book.order) then s else RegisterOrderAction(w, s, actions[0], scope);
      RegistrationStands(w, t, actions[1..], scope);
    }
  }

  lemma OrdersStand(w: World, s: Robot, o: Order)
    ensures Undisturbed(s, HandleOrder(w, s, o))
  {
    hide RegisterAll;
    forall u: bool, c: Robot | Undisturbed(s, c) ensures Undisturbed(s, AcceptOrder(w, c, o, u)) {
      var t := TakeOrder(c, o, u);
      RegistrationStands(w, t, NodeActions(o.nodes), NodeScope);
      RegistrationStands(w, RegisterAll(w, t, NodeActions(o.nodes), NodeScope), EdgeActions(o.edges), EdgeScope);
    }
  }

  lemma {:induction false} CommandsStand(w: World, s: Robot, actions: seq<Action>)
    ensures Undisturbed(s, HandleInstantActions(w, s, actions))
    decreases |actions|
  {
    hide HandleInstantAction;
    if actions != [] {
      CommandStands(w, s, actions[0]);
      CommandsStand(w, HandleInstantAction(w, s, actions[0]), actions[1..]);
    }
  }

  lemma CommandStands(w: World, s: Robot, a: Action)
    ensures Undisturbed(s, HandleInstantAction(w, s, a))
  {
    hide CarryOut;
    if ScopeAllowed(a.kind, InstantScope) { CarryingOutStands(w, s, a); }
  }

  lemma CarryingOutStands(w: World, s: Robot, a: Action)
    requires ScopeAllowed(a.kind, InstantScope)
    ensures Undisturbed(s, CarryOut(w, s, a))
  {
    hide Acknowledge, Refuse, Spawn, AskCancel, SetPaused, Forget, AbandonOrder, Hibernate, WakeUp, Command, Idle,
      HasZoneSet, MapKey, Text;
    CommandBlocksStand(s, a);
    AcknowledgingStands(a);
    if a.kind.Retry? || a.kind.SkipRetry? || a.kind.Trigger? { InterventionStands(s, a); }
  }

  lemma AcknowledgingStands(a: Action)
    ensures forall s: Robot :: Undisturbed(s, Acknowledge(s, a))
  {
    hide Append;
  }

  lemma CommandBlocksStand(s: Robot, a: Action)
    ensures Undisturbed(s, Spawn(s, InstantTrack, a)) && Undisturbed(s, AskCancel(s, a))
    ensures forall e: Option<ErrorKind> :: Undisturbed(s, Refuse(s, InstantTrack, a, e))
    ensures Undisturbed(s, SetPaused(s, true)) && Undisturbed(s, SetPaused(s, false))
    ensures Undisturbed(s, Forget(s, InstantTrack)) && Undisturbed(s, Forget(s, ZoneTrack))
    ensures Undisturbed(s, Hibernate(AbandonOrder(s), a)) && Undisturbed(s, WakeUp(s))
  {
    hide LiveId, Append, FlipAll, Live, Lookup;
  }

  lemma InterventionStands(s: Robot, a: Action)
    requires a.kind.Retry? || a.kind.SkipRetry? || a.kind.Trigger?
    ensures Undisturbed(s, Command(s, a))
  {
    hide SetStatus, FindTracked, OldestWaiter, Lookup, Append;
  }

  lemma {:induction false} AnswersStand(s: Robot, responses: seq<Response>)
    ensures Undisturbed(s, HandleResponses(s, responses))
    decreases |responses|
  {
    if responses != [] {
      AnswersStand(ApplyResponse(s, responses[0]), responses[1..]);
    }
  }

  /** Across any interval of hibernation, pause, non-AUTOMATIC mode, field violation or emergency
      stop, in any order and with any messages in between, the robot covers no distance. */
  lemma {:induction false} StoppedRobotStands(w: World, s: Robot, events: seq<Event>)
    requires StoppedThroughout(w, s, events)
    ensures Run(w, s, events).hist.trip.odometer == s.hist.trip.odometer
    decreases |events|
  {
    hide Step, MustStop;
    if events != [] {
      var e := events[0];
      if e.Beat? {
        StoppedBeat(w, s, e);
      } else {
        MessagesStand(w, s, e);
      }
      StoppedRobotStands(w, Step(w, s, e), events[1..]);
    }
  }

  lemma StoppedBeat(w: World, s: Robot, e: Event)
    requires e.Beat? && MustStop(s)
    ensures Step(w, s, e).hist.trip.odometer == s.hist.trip.odometer
  {
    hide Tick, MaybeInjectFault;
    if Tick(w, s, e.dt, e.now).hist.trip.odometer != s.hist.trip.odometer {
      MovingTick(w, s, e.dt, e.now);
    }
    FaultsKeepOdometer(w, Tick(w, s, e.dt, e.now), e.dt, e.draws);
  }
}
