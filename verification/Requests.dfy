/** Requests and orders: a new order starts without any requests, so it drives through corridors and
    access zones only on answers that came after it. */
module Requests {
  import opened Vda5050
  import opened Platform
  import opened ActionCatalog
  import opened RobotState
  import opened Transitions
  import opened TickFrames
  import opened OrderRules
  import opened TrafficControl

  /** Whether a message of the run grants the request. */
  predicate GrantedIn(events: seq<Event>, id: string) {
    exists e, r :: e in events && e.ResponsesMessage? && r in e.responses && r.requestId == id
                   && r.grant == GrantGranted
  }

  /** The recorded answers are the same, or there are none any more. */
  predicate NoNewAnswers(s: Robot, r: Robot) {
    r.hist.requests.answers == s.hist.requests.answers || r.hist.requests.answers == map[]
  }

  // ---- only responses answer --------------------------------------------------------------

  lemma OrdersAnswerNothing(w: World, s: Robot, o: Order)
    ensures NoNewAnswers(s, HandleOrder(w, s, o))
  {
    hide AcceptOrder, UnknownMaps, Idle;
    AcceptingAnswersNothing(w, WarnUnknownMaps(s, o), o, true);
    AcceptingAnswersNothing(w, WarnUnknownMaps(s, o), o, false);
  }

  lemma AcceptingAnswersNothing(w: World, s: Robot, o: Order, isUpdate: bool)
    ensures NoNewAnswers(s, AcceptOrder(w, s, o, isUpdate))
    ensures !isUpdate ==> AcceptOrder(w, s, o, isUpdate).hist.requests.answers == map[]
  {
    hide RegisterAll, Ids;
    var t := TakeOrder(s, o, isUpdate);
    RegistrationFrame(w, t, NodeActions(o.nodes), NodeScope);
    RegistrationFrame(w, RegisterAll(w, t, NodeActions(o.nodes), NodeScope), EdgeActions(o.edges), EdgeScope);
  }

  lemma {:induction false} CommandsAnswerNothing(w: World, s: Robot, actions: seq<Action>)
    ensures NoNewAnswers(s, HandleInstantActions(w, s, actions))
    decreases |actions|
  {
    hide HandleInstantAction;
    if actions != [] {
      CommandAnswersNothing(w, s, actions[0]);
      CommandsAnswerNothing(w, HandleInstantAction(w, s, actions[0]), actions[1..]);
    }
  }

  lemma CommandAnswersNothing(w: World, s: Robot, a: Action)
    ensures NoNewAnswers(s, HandleInstantAction(w, s, a))
  {
    hide CarryOut;
    if ScopeAllowed(a.kind, InstantScope) { CarryingOutAnswersNothing(w, s, a); }
  }

  lemma CarryingOutAnswersNothing(w: World, s: Robot, a: Action)
    requires ScopeAllowed(a.kind, InstantScope)
    ensures NoNewAnswers(s, CarryOut(w, s, a))
  {
    hide Append, SetPaused, Forget, WakeUp, Idle, HasZoneSet, MapKey, Text, SetStatus, FindTracked, TriggerTarget,
      RetriableTarget, LiveId, Lookup;
    PartsAnswerNothing(s);
  }

  lemma PartsAnswerNothing(s: Robot)
    ensures NoNewAnswers(s, SetPaused(s, true)) && NoNewAnswers(s, SetPaused(s, false)) && NoNewAnswers(s, WakeUp(s))
    ensures NoNewAnswers(s, Forget(s, InstantTrack)) && NoNewAnswers(s, Forget(s, ZoneTrack))
  {
    hide FlipAll, Live;
  }

  lemma BeatsAnswerNothing(w: World, s: Robot, dt: Span, now: real, draws: Draws)
    ensures NoNewAnswers(s, MaybeInjectFault(w, Tick(w, s, dt, now), dt, draws))
  {
    hide Tick, UpdateField, UpdateOperatingMode, UpdateStop, FirstRetriable, SetStatus;
    TicksAnswerNothing(w, s, dt, now);
  }

  lemma TicksAnswerNothing(w: World, s: Robot, dt: Span, now: real)
    ensures NoNewAnswers(s, Tick(w, s, dt, now))
  {
    hide Prepare, Move, SetStatus;
    var c := UpdateCharging(w, s, dt);
    PrepareFrame(w, c, dt, now);
    MoveKeepsBook(w, Prepare(w, c, dt, now), dt);
  }

  lemma {:induction false} ResponsesAnswer(s: Robot, responses: seq<Response>, id: string)
    ensures LastAnswerGrants(HandleResponses(s, responses), id) ==>
              || LastAnswerGrants(s, id)
              || exists r :: r in responses && r.requestId == id && r.grant == GrantGranted
    decreases |responses|
  {
    hide AnswerZones, AnswerEdges, KnownRequest;
    if responses != [] {
      ResponsesAnswer(ApplyResponse(s, responses[0]), responses[1..], id);
      assert responses[0] in responses && forall r :: r in responses[1..] ==> r in responses;
    }
  }

  lemma EventAnswers(w: World, s: Robot, e: Event, id: string)
    ensures LastAnswerGrants(Step(w, s, e), id) ==> LastAnswerGrants(s, id) || GrantedIn([e], id)
  {
    hide HandleOrder, HandleInstantActions, HandleResponses, MaybeInjectFault, Tick;
    match e
    case OrderMessage(o) => OrdersAnswerNothing(w, s, o);
    case InstantActionsMessage(actions) => CommandsAnswerNothing(w, s, actions);
    case ResponsesMessage(responses) =>
      ResponsesAnswer(s, responses, id);
      assert e in [e];
    case Beat(dt, now, draws) => BeatsAnswerNothing(w, s, dt, now, draws);
    case _ =>
  }

  /** What has been granted by the end of a run was granted before it or by one of its messages. */
  lemma {:induction false} RunAnswers(w: World, s: Robot, events: seq<Event>, id: string)
    ensures LastAnswerGrants(Run(w, s, events), id) ==> LastAnswerGrants(s, id) || GrantedIn(events, id)
    decreases |events|
  {
    hide Step, LastAnswerGrants;
    if events != [] {
      EventAnswers(w, s, events[0], id);
      RunAnswers(w, Step(w, s, events[0]), events[1..], id);
      assert events[0] in events && forall e :: e in events[1..] ==> e in events;
    }
  }

  // ---- a new order needs new grants ---------------------------------------------------------

  /** Whether a message of the run grants the corridor of the edge. */
  predicate CorridorGrantedIn(s: Robot, edge: Edge, events: seq<Event>) {
    exists q :: q in s.traffic.edgeRequests && q.edgeId == edge.edgeId && q.seqId == edge.seqId
                && GrantedIn(events, q.requestId)
  }

  /** Whether a message of the run grants access to the zone, under its own zone set. */
  predicate AccessGrantedIn(s: Robot, zone: Zone, events: seq<Event>) {
    exists q :: q in s.traffic.zoneRequests && q.zoneId == zone.zoneId
                && OwnSet(s.site.zoneSets, zone.zoneId, q.zoneSetId) && GrantedIn(events, q.requestId)
  }

  /** Let a message be taken as a new order. On every run from there, no beat drives along an edge that
      requires release, or towards a node in an access zone, unless a response of that run has granted the
      corridor, or the zone: whatever was granted to earlier orders does not count. */
  lemma NewOrderNeedsNewGrants(w: World, s: Robot, o: Order, events: seq<Event>, dt: Span, now: real, draws: Draws)
    requires GrantsHonest(s) && Takes(s, o) && !Continues(s, o)
    requires var r := Run(w, HandleOrder(w, s, o), events);
             Step(w, r, Beat(dt, now, draws)).hist.trip.odometer != r.hist.trip.odometer
    ensures var p := Prepared(w, Run(w, HandleOrder(w, s, o), events), dt, now);
            && HasLeg(p.task)
            && var leg := NextLeg(p.task);
            && (leg.edge.releaseRequired ==> CorridorGrantedIn(p, leg.edge, events))
            && (leg.next.position.Some? ==>
                  var x, y := leg.next.position.value.x, leg.next.position.value.y;
                  forall z :: z in ZonesAt(p.site.zoneSets, p.pose.mapId, x, y) ==>
                    (z.zoneType.Release? || z.zoneType.CoordinatedReplanning? ==> AccessGrantedIn(p, z, events)))
  {
    hide Run, Step, HandleOrder, Prepared, HasLeg, NextLeg, ZonesAt, GrantsHonest, OwnSet, WrongWay, GrantedIn;
    var a := HandleOrder(w, s, o);
    NewOrderHasNoAnswers(w, s, o);
    NewOrderIsHonest(w, s, o);
    DrivesOnlyOnStandingGrants(w, a, events, dt, now, draws);
    var r := Run(w, a, events);
    var p := Prepared(w, r, dt, now);
    var leg := NextLeg(p.task);
    forall id | LastAnswerGrants(p, id) ensures GrantedIn(events, id) {
      PreparedAnswers(w, r, dt, now);
      RunAnswers(w, a, events, id);
    }
    if leg.next.position.Some? {
      var x, y := leg.next.position.value.x, leg.next.position.value.y;
      forall z | z in ZonesAt(p.site.zoneSets, p.pose.mapId, x, y)
                 && (z.zoneType.Release? || z.zoneType.CoordinatedReplanning?)
        ensures AccessGrantedIn(p, z, events)
      {
        var q :| q in p.traffic.zoneRequests && q.zoneId == z.zoneId
                 && OwnSet(p.site.zoneSets, z.zoneId, q.zoneSetId) && StandingGrant(w, p, q.requestId, q.status, now);
      }
    }
  }

  lemma NewOrderHasNoAnswers(w: World, s: Robot, o: Order)
    requires Takes(s, o) && !Continues(s, o)
    ensures HandleOrder(w, s, o).hist.requests.answers == map[]
  {
    hide AcceptOrder, UnknownMaps, Idle, Free;
    IdleIsFree(s);
    IdleIgnoresErrors(s, o);
    AcceptingAnswersNothing(w, WarnUnknownMaps(s, o), o, false);
  }

  lemma NewOrderIsHonest(w: World, s: Robot, o: Order)
    requires GrantsHonest(s)
    ensures GrantsHonest(HandleOrder(w, s, o))
  {
    hide GrantsHonest, HandleOrder;
    HonestyIsKept(w);
    HandleOrderKeeps(w, (r: Robot) => GrantsHonest(r), s, o);
  }

  lemma PreparedAnswers(w: World, s: Robot, dt: Span, now: real)
    ensures Prepared(w, s, dt, now).hist.requests.answers == s.hist.requests.answers
  {
    hide Prepare;
    PrepareFrame(w, UpdateCharging(w, s, dt), dt, now);
  }

  // ---- each is asked for once --------------------------------------------------------------------

  /** There is one request for each edge and for each zone of a set, under the id made of its name. */
  ghost predicate AskedOnce(s: Robot) {
    var zs, es := s.traffic.zoneRequests, s.traffic.edgeRequests;
    && (forall i: nat, j: nat :: i < j < |zs| ==> zs[i].zoneId != zs[j].zoneId || zs[i].zoneSetId != zs[j].zoneSetId)
    && (forall i: nat, j: nat :: i < j < |es| ==> es[i].edgeId != es[j].edgeId || es[i].seqId != es[j].seqId)
    && (forall i: nat :: i < |zs| ==> zs[i].requestId == zs[i].zoneId + "-access")
    && (forall i: nat :: i < |es| ==> es[i].requestId == es[i].edgeId + "-corridor")
  }

  /** The requests are those of before, but for their status. */
  predicate SameRequests(a: Traffic, b: Traffic) {
    && |b.zoneRequests| == |a.zoneRequests| && |b.edgeRequests| == |a.edgeRequests|
    && (forall i: nat :: i < |a.zoneRequests| ==>
          b.zoneRequests[i] == a.zoneRequests[i].(status := b.zoneRequests[i].status))
    && (forall i: nat :: i < |a.edgeRequests| ==>
          b.edgeRequests[i] == a.edgeRequests[i].(status := b.edgeRequests[i].status))
  }

  lemma SameAskedOnce(s: Robot, r: Robot)
    requires AskedOnce(s) && SameRequests(s.traffic, r.traffic)
    ensures AskedOnce(r)
  {
    var zs, es := r.traffic.zoneRequests, r.traffic.edgeRequests;
    forall i: nat | i < |zs| ensures zs[i].requestId == zs[i].zoneId + "-access" {
      assert zs[i] == s.traffic.zoneRequests[i].(status := zs[i].status);
    }
    forall i: nat | i < |es| ensures es[i].requestId == es[i].edgeId + "-corridor" {
      assert es[i] == s.traffic.edgeRequests[i].(status := es[i].status);
    }
  }

  /** What asking adds: a request in state REQUESTED, for access or, in a COORDINATED_REPLANNING zone, for
      replanning; and nothing else. */
  lemma AskingAdds(w: World, s: Robot, op: TrafficOp)
    requires TrafficEnabled(s, op) && (op.AskingCorridor? || op.AskingAccess?)
    ensures var a, r := s.traffic, ApplyTraffic(w, s, op);
            var kind := if op.AskingAccess? && op.zone.zoneType == CoordinatedReplanning then Replanning else Access;
            r == s.(traffic := r.traffic)
            && if op.AskingCorridor? then
                 var q := EdgeRequest(op.edge.edgeId + "-corridor", op.edge.edgeId, op.edge.seqId, Requested);
                 r.traffic == a.(edgeRequests := a.edgeRequests + [q])
                 && forall p :: p in a.edgeRequests ==> p.edgeId != q.edgeId || p.seqId != q.seqId
               else
                 var id := ZoneSetIdFor(s.site.zoneSets, op.zone.zoneId);
                 var q := ZoneRequest(op.zone.zoneId + "-access", kind, op.zone.zoneId, id, Requested);
                 r.traffic == a.(zoneRequests := a.zoneRequests + [q])
                 && forall p :: p in a.zoneRequests ==> p.zoneId != q.zoneId || p.zoneSetId != q.zoneSetId
  {
    hide ZoneSetIdFor;
  }

  lemma AskedOnceKept(w: World, s: Robot, op: Op)
    requires AskedOnce(s) && Enabled(w, s, op)
    ensures AskedOnce(Apply(w, s, op))
  {
    hide ActionEnabled, ApplyAction, MoveEnabled, ApplyMove, ApplyTraffic, TrafficEnabled, UnitEnabled, ApplyUnit, Idle,
      CheckLeases, ApplyResponse, ZoneSetIdFor;
    match op
    case OnAction(a) => ActionFrame(w, s, a);
    case OnOrder(o) =>
    case OnMove(m) => MoveFrame(w, s, m);
    case OnTraffic(t) => TrafficAsksOnce(w, s, t);
    case OnUnit(u) => UnitFrame(w, s, u);
  }

  lemma TrafficAsksOnce(w: World, s: Robot, op: TrafficOp)
    requires AskedOnce(s) && TrafficEnabled(s, op)
    ensures AskedOnce(ApplyTraffic(w, s, op))
  {
    hide AskedOnce, CheckLeases, ApplyResponse, ZoneSetIdFor, SameRequests, EdgeRequestIndex, ZoneRequestIndex;
    match op
    case Answering(r) =>
      AnsweredRequests(s, r);
      SameAskedOnce(s, ApplyResponse(s, r));
    case CheckingLeases(now) =>
      CheckedRequests(w, s, now);
      SameAskedOnce(s, CheckLeases(w, s, now));
    case _ =>
      AskingAdds(w, s, op);
      OneMoreAskedOnce(s, ApplyTraffic(w, s, op));
  }

  lemma AnsweredRequests(s: Robot, r: Response)
    ensures SameRequests(s.traffic, ApplyResponse(s, r).traffic)
  {
  }

  lemma CheckedRequests(w: World, s: Robot, now: real)
    ensures SameRequests(s.traffic, CheckLeases(w, s, now).traffic)
  {
  }

  lemma OneMoreAskedOnce(s: Robot, r: Robot)
    requires AskedOnce(s)
    requires || (exists q :: r.traffic == s.traffic.(edgeRequests := s.traffic.edgeRequests + [q])
                             && q.requestId == q.edgeId + "-corridor"
                             && forall p :: p in s.traffic.edgeRequests ==> p.edgeId != q.edgeId || p.seqId != q.seqId)
             || (exists q :: r.traffic == s.traffic.(zoneRequests := s.traffic.zoneRequests + [q])
                             && q.requestId == q.zoneId + "-access"
                             && forall p :: p in s.traffic.zoneRequests ==>
                                  p.zoneId != q.zoneId || p.zoneSetId != q.zoneSetId)
    ensures AskedOnce(r)
  {
    forall i: nat | i < |s.traffic.edgeRequests| ensures s.traffic.edgeRequests[i] in s.traffic.edgeRequests {}
    forall i: nat | i < |s.traffic.zoneRequests| ensures s.traffic.zoneRequests[i] in s.traffic.zoneRequests {}
  }

  /** On every run no corridor and no zone is asked for twice within an order. */
  lemma AlwaysAskedOnce(w: World, s: Robot, events: seq<Event>)
    requires AskedOnce(s)
    ensures AskedOnce(Run(w, s, events))
  {
    hide AskedOnce;
    var inv := (r: Robot) => AskedOnce(r);
    forall r: Robot, op: Op ensures Keeps(w, inv)(r, op) {
      if inv(r) && Enabled(w, r, op) { AskedOnceKept(w, r, op); }
    }
    RunInduction(w, inv, s, events);
  }
}
