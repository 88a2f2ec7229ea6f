/** What the parts of a tick leave alone. */
module TickFrames {
  import opened Vda5050
  import opened Platform
  import opened RobotState
  import opened Transitions

  /** `b` differs from `a` at most in entries and timers, pose, site, the name of the last node
      and what completed actions count. */
  predicate SameOrderAndMode(a: Robot, b: Robot) {
    && b.mode == a.mode && b.faults == a.faults && b.traffic == a.traffic && b.errors == a.errors
    && b.task == a.task.(lastNodeId := b.task.lastNodeId) && b.pose.battery == a.pose.battery
    && b.book.registry == a.book.registry && b.book.clock == a.book.clock
    && b.hist == a.hist.(actions := a.hist.actions.(effects := b.hist.actions.effects),
                         trip := a.hist.trip.(jumps := b.hist.trip.jumps))
    && b.hist.trip.jumps >= a.hist.trip.jumps
  }

  lemma AdvanceOneFrame(w: World, s: Robot, p: Spot)
    requires Registered(s, p)
    ensures SameOrderAndMode(s, AdvanceOne(w, s, p).robot)
  {
    hide CompleteEntry, BeginEntry, Landing, Due;
    if At(s.book, p).status.Waiting? { BeginningFrame(s, p); }
    var t := if At(s.book, p).status.Waiting? then BeginEntry(s, p) else s;
    if At(t.book, p).status.Running? { CompletingFrame(t, p); }
  }

  lemma BeginningFrame(s: Robot, p: Spot)
    requires Registered(s, p) && At(s.book, p).status.Waiting?
    ensures var t := BeginEntry(s, p);
            SameOrderAndMode(s, t) && Registered(t, p) && At(t.book, p) == At(s.book, p).(status := Running)
  {
  }

  lemma CompletingFrame(s: Robot, p: Spot)
    requires Registered(s, p) && At(s.book, p).status.Running?
    ensures SameOrderAndMode(s, CompleteEntry(s, p))
  {
    hide ApplyEffect, Landing, SetStatus;
    LandingHolds(s, p, s.book.registry[At(s.book, p).id]);
  }

  lemma {:induction false} SweepFrame(w: World, s: Robot, t: Track, i: nat)
    ensures SameOrderAndMode(s, Sweep(w, s, t, i))
    decreases |Entries(s.book, t)| - i
  {
    hide AdvanceOne;
    if i < |Entries(s.book, t)| {
      if Entries(s.book, t)[i].id !in s.book.registry {
        SweepFrame(w, s, t, i + 1);
      } else {
        AdvanceOneFrame(w, s, Spot(t, i));
        var r := AdvanceOne(w, s, Spot(t, i));
        SweepFrame(w, r.robot, t, r.spot.index + 1);
      }
    }
  }

  lemma SweepAllFrame(w: World, s: Robot)
    ensures SameOrderAndMode(s, SweepAll(w, s))
  {
    hide Sweep;
    SweepFrame(w, s, OrderTrack, 0);
    var a := Sweep(w, s, OrderTrack, 0);
    SweepFrame(w, a, InstantTrack, 0);
    var b := Sweep(w, a, InstantTrack, 0);
    SweepFrame(w, b, ZoneTrack, 0);
  }

  /** Registering zone actions only adds zone entries and definitions. */
  lemma {:induction false} ZoneActionsFrame(w: World, s: Robot, actions: seq<Action>)
    ensures var r := RegisterZoneActions(w, s, actions);
            && r == s.(book := r.book, hist := r.hist)
            && r.book == s.book.(zone := r.book.zone, registry := r.book.registry)
            && r.hist == s.hist.(actions := s.hist.actions.(spawned := r.hist.actions.spawned,
                                                            zoneSpawned := r.hist.actions.zoneSpawned,
                                                            clashes := r.hist.actions.clashes))
    decreases |actions|
  {
    hide LiveId;
    if actions != [] {
      ZoneActionsFrame(w, RegisterZoneAction(w, s, actions[0]), actions[1..]);
    }
  }

  /** The state of an active tick just before its movement part. */
  lemma PrepareFrame(w: World, s: Robot, dt: Span, now: real)
    ensures var r := Prepare(w, s, dt, now);
            && r.mode == s.mode && r.faults == s.faults && r.errors == s.errors
            && r.traffic == CheckLeases(w, s, now).traffic
            && r.task == s.task.(lastNodeId := r.task.lastNodeId)
            && r.book.clock == s.book.clock + dt && r.pose.battery == s.pose.battery
            && r.hist.requests == CheckLeases(w, s, now).hist.requests && r.hist.orders == s.hist.orders
            && r.hist.actions == s.hist.actions.(effects := r.hist.actions.effects, spawned := r.hist.actions.spawned,
                                                 zoneSpawned := r.hist.actions.zoneSpawned,
                                                 clashes := r.hist.actions.clashes)
            && r.hist.trip == s.hist.trip.(jumps := r.hist.trip.jumps)
            && r.hist.trip.jumps >= s.hist.trip.jumps
  {
    hide SweepAll, PresentZones, RegisterZoneActions, EntryActions, ExitActions;
    var a := AdvanceClock(s, dt);
    SweepAllFrame(w, a);
    var c := CheckLeases(w, SweepAll(w, a), now);
    var present := PresentZones(c);
    ZoneActionsFrame(w, c, EntryActions(present, c.site.occupancy) + ExitActions(c.site.occupancy, present));
  }

  lemma {:induction false} ZoneGatesFrame(w: World, s: Robot, zones: seq<Zone>, x: real, y: real)
    ensures var r := ZoneGates(w, s, zones, x, y).robot;
            r == s.(traffic := r.traffic, task := s.task.(newBaseRequest := r.task.newBaseRequest))
    decreases |zones|
  {
    hide AgainstDirection;
    if zones != [] {
      ZoneGatesFrame(w, ZoneGate(w, s, zones[0], x, y).robot, zones[1..], x, y);
    }
  }

  lemma CheckGatesFrame(w: World, s: Robot, edge: Edge, next: Node)
    ensures var r := CheckGates(w, s, edge, next).robot;
            r == s.(traffic := r.traffic, task := s.task.(newBaseRequest := r.task.newBaseRequest))
  {
    hide ZoneGates;
    if next.position.Some? {
      var p := next.position.value;
      ZoneGatesFrame(w, CorridorGate(s, edge).robot, ZonesAt(s.site.zoneSets, s.pose.mapId, p.x, p.y), p.x, p.y);
    }
  }

  /** The movement part either drives, in a state that may drive, or leaves pose and odometer alone. */
  lemma MoveDrivesOrStands(w: World, s: Robot, dt: Span, now: real)
    requires Active(s) && LeasesFresh(w, s, now)
    ensures var r := Move(w, s, dt);
            if Drives(w, s) then
              var b, leg := MaybeRequestBase(w, s), NextLeg(s.task);
              MayDrive(w, b, leg.from, leg.edge, leg.next, now) && r == Drive(w, b, leg.from, leg.edge, leg.next, dt)
            else Stands(s, r)
  {
    hide GatesOpen, LeasesFresh, Drive, CurrentNode, FindEdge, FindNode, Held, Proceed, MaybeRequestBase, Active;
    BaseRequestKeepsLeg(w, s);
    if s.task.nodes != [] {
      var at := CurrentNode(s.task);
      var edge := FindEdge(s.task.edges, at.seqId + 1);
      if !Held(s, OwnerActions(at, edge)) {
        var b := MaybeRequestBase(w, s);
        ProceedDrivesOrStands(w, b, at, edge, dt);
        if edge.Some? && FindNode(s.task.nodes, edge.value.seqId + 1).Some? {
          BaseRequestKeepsGates(w, s, edge.value, FindNode(s.task.nodes, edge.value.seqId + 1).value, now);
          BaseRequestKeepsHold(w, s, OwnerActions(at, edge));
        }
      }
    }
  }

  /** Neither pose nor odometer has changed, nor anything but the order and the requests. */
  predicate Stands(s: Robot, r: Robot) {
    && r == s.(task := r.task, traffic := r.traffic, hist := r.hist)
    && r.hist == s.hist.(trip := s.hist.trip.(legs := r.hist.trip.legs, settled := r.hist.trip.settled))
  }

  lemma ProceedDrivesOrStands(w: World, s: Robot, at: Node, edge: Option<Edge>, dt: Span)
    ensures var r := Proceed(w, s, at, edge, dt);
            var next := if edge.None? then None else FindNode(s.task.nodes, edge.value.seqId + 1);
            if edge.Some? && edge.value.released && next.Some? && next.value.released
               && GatesOpen(w, s, edge.value, next.value)
            then r == Drive(w, s, at, edge.value, next.value, dt)
            else Stands(s, r)
  {
    hide CheckGates, GatesOpen, Drive, FindNode, Holders, Without;
    if edge.Some? && FindNode(s.task.nodes, edge.value.seqId + 1).Some? {
      var next := FindNode(s.task.nodes, edge.value.seqId + 1).value;
      GatesHold(w, s, edge.value, next);
      CheckGatesFrame(w, s, edge.value, next);
    }
  }

  /** The leg the robot is on: from the current node over its edge to the next node. */
  datatype Leg = Leg(from: Node, edge: Edge, next: Node)

  predicate HasLeg(t: Task) {
    && t.nodes != [] && FindEdge(t.edges, CurrentNode(t).seqId + 1).Some?
    && FindNode(t.nodes, FindEdge(t.edges, CurrentNode(t).seqId + 1).value.seqId + 1).Some?
  }

  function NextLeg(t: Task): Leg
    requires HasLeg(t)
  {
    var at := CurrentNode(t);
    var edge := FindEdge(t.edges, at.seqId + 1).value;
    Leg(at, edge, FindNode(t.nodes, edge.seqId + 1).value)
  }

  /** Whether the movement part of a tick in this state drives. */
  ghost predicate Drives(w: World, s: Robot) {
    && HasLeg(s.task)
    && var leg := NextLeg(s.task);
       && leg.edge.released && leg.next.released
       && !Held(s, OwnerActions(leg.from, Some(leg.edge))) && GatesOpen(w, s, leg.edge, leg.next)
  }

  lemma BaseRequestKeepsLeg(w: World, s: Robot)
    ensures var b := MaybeRequestBase(w, s);
            b == s.(task := s.task.(newBaseRequest := b.task.newBaseRequest))
            && (s.task.nodes != [] ==> CurrentNode(b.task) == CurrentNode(s.task))
  {
  }

  lemma BaseRequestKeepsGates(w: World, s: Robot, edge: Edge, next: Node, now: real)
    ensures var b := MaybeRequestBase(w, s);
            && (GatesOpen(w, b, edge, next) <==> GatesOpen(w, s, edge, next))
            && (LeasesFresh(w, b, now) <==> LeasesFresh(w, s, now))
  {
  }

  lemma BaseRequestKeepsHold(w: World, s: Robot, ids: seq<string>)
    ensures Held(MaybeRequestBase(w, s), ids) <==> Held(s, ids)
    ensures Active(MaybeRequestBase(w, s)) <==> Active(s)
  {
    hide IsBlocking, InstantIsBlocking;
  }

  lemma MoveKeepsBook(w: World, s: Robot, dt: Span)
    ensures var r := Move(w, s, dt);
            && r.book == s.book && r.mode == s.mode && r.faults == s.faults && r.site == s.site
            && r.hist == s.hist.(trip := s.hist.trip.(
                 odometer := r.hist.trip.odometer, legs := r.hist.trip.legs, settled := r.hist.trip.settled,
                 jumps := r.hist.trip.jumps))
  {
    hide CurrentNode, FindEdge, FindNode, Held, Proceed, MaybeRequestBase;
    BaseRequestKeepsLeg(w, s);
    if s.task.nodes != [] {
      ProceedKeepsBook(w, MaybeRequestBase(w, s), CurrentNode(s.task),
        FindEdge(s.task.edges, CurrentNode(s.task).seqId + 1), dt);
    }
  }

  lemma ProceedKeepsBook(w: World, s: Robot, at: Node, edge: Option<Edge>, dt: Span)
    ensures var r := Proceed(w, s, at, edge, dt);
            && r.book == s.book && r.mode == s.mode && r.faults == s.faults && r.site == s.site
            && r.hist == s.hist.(trip := s.hist.trip.(
                 odometer := r.hist.trip.odometer, legs := r.hist.trip.legs, settled := r.hist.trip.settled,
                 jumps := r.hist.trip.jumps))
  {
    hide CheckGates, FindNode, StepTowards, Without, WithoutEdge, Holders;
    if edge.Some? && FindNode(s.task.nodes, edge.value.seqId + 1).Some? {
      CheckGatesFrame(w, s, edge.value, FindNode(s.task.nodes, edge.value.seqId + 1).value);
    }
  }
}
