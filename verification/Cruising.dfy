/** What an undisturbed tick does to an order of timed actions on a site whose zones ask for
    nothing: the sweep starts what waits and completes what is due, and changes nothing that
    the movement depends on. */
module Cruising {
  import opened Vda5050
  import opened Platform
  import opened RobotState
  import opened Transitions
  import opened Lifecycle
  import opened Timers
  import opened Motion
  import Zones

  // ---- timed actions ----------------------------------------------------------------

  /** Settled, or on its way to be: a registered live entry waits or runs on a timer and does not
      reposition the robot; a live order entry is registered. */
  predicate Timed(b: Book, t: Track, e: Entry) {
    e.status.Terminal() ||
    if e.id in b.registry then
      && (e.status.Waiting? || (e.status.Running? && e.id in b.startedAt))
      && !b.registry[e.id].kind.InitializePosition?
      && (t.ZoneTrack? || !b.registry[e.id].kind.WaitForTrigger?)
    else !t.OrderTrack?
  }

  ghost predicate AllTimed(b: Book) {
    forall p: Spot :: Valid(b, p) ==> Timed(b, p.track, At(b, p))
  }

  /** No registered entry waits to be started. */
  ghost predicate NoneWaiting(b: Book) {
    forall p: Spot :: Valid(b, p) && At(b, p).id in b.registry ==> !At(b, p).status.Waiting?
  }

  ghost predicate StartedBy(b: Book, deadline: real) {
    forall id :: id in b.startedAt ==> b.startedAt[id] <= deadline
  }

  /** Every zone set of `b` was there in `a`, or is empty. */
  ghost predicate NoNewZones(a: Site, b: Site) {
    b.occupancy == a.occupancy && forall s :: s in b.zoneSets ==> s in a.zoneSets || s.zones == []
  }

  /** What a sweep does to a robot whose entries are all timed. */
  ghost predicate Swept(a: Robot, b: Robot) {
    && AllTimed(b.book)
    && b.mode == a.mode && b.faults == a.faults && b.task == a.task
    && b.book.clock == a.book.clock && b.book.registry == a.book.registry
    && b.hist.trip.jumps == a.hist.trip.jumps && b.hist.orders.regraphs == a.hist.orders.regraphs
    && b.pose == a.pose.(charging := b.pose.charging)
    && NoNewZones(a.site, b.site)
    && (NoneWaiting(a.book) ==> NoneWaiting(b.book) && b.book.startedAt == a.book.startedAt)
    && (forall deadline: real :: StartedBy(a.book, deadline) && a.book.clock <= deadline ==>
        StartedBy(b.book, deadline))
  }

  lemma SweptTwice(a: Robot, b: Robot, c: Robot)
    requires Swept(a, b) && Swept(b, c)
    ensures Swept(a, c)
  {
  }

  lemma EffectsOnSite(s: Robot, def: Action)
    ensures var r := ApplyEffect(s, def).robot;
            NoNewZones(s.site, r.site) && (!def.kind.InitializePosition? ==> r.task == s.task)
  {
    hide Picked, Dropped, EnableAmong, EnableMapVersion, HasZoneSet, Text, MapKey;
  }

  lemma BeginningSweeps(w: World, s: Robot, p: Spot)
    requires AllTimed(s.book) && ActionEnabled(w, s, Beginning(p))
    ensures Swept(s, BeginEntry(s, p))
  {
    hide SetStatus;
    var r := BeginEntry(s, p);
    var id := At(s.book, p).id;
    assert r == ApplyAction(w, s, Beginning(p));
    forall q: Spot | Valid(r.book, q) ensures Timed(r.book, q.track, At(r.book, q)) {
      SetStatusAt(s.book, p, Running, q);
      assert Timed(s.book, q.track, At(s.book, q));
    }
  }

  lemma CompletingSweeps(w: World, s: Robot, p: Spot)
    requires AllTimed(s.book) && ActionEnabled(w, s, Completing(p))
    ensures Swept(s, CompleteEntry(s, p))
  {
    hide SetStatus, ApplyEffect, Landing, Due, AllTimed, NoneWaiting, StartedBy;
    var def := s.book.registry[At(s.book, p).id];
    TimedAt(s.book, p);
    LandingHolds(s, p, def);
    EffectsOnSite(s, def);
    EffectPose(s, def);
    CompletedTimed(w, s, p);
    SameStarts(s.book, CompleteEntry(s, p).book);
  }

  lemma SameStarts(b: Book, c: Book)
    requires c.startedAt == b.startedAt
    ensures forall deadline: real :: StartedBy(b, deadline) ==> StartedBy(c, deadline)
  {
  }

  lemma TimedAt(b: Book, p: Spot)
    requires AllTimed(b) && Valid(b, p)
    ensures Timed(b, p.track, At(b, p))
  {
  }

  lemma CompletedTimed(w: World, s: Robot, p: Spot)
    requires AllTimed(s.book) && ActionEnabled(w, s, Completing(p))
    ensures var r := CompleteEntry(s, p).book;
            && AllTimed(r) && (NoneWaiting(s.book) ==> NoneWaiting(r)) && r.startedAt == s.book.startedAt
            && r.registry == s.book.registry && r.clock == s.book.clock
  {
    hide SetStatus, ApplyEffect, Landing, Due, Live, CompleteEntry;
    var r := CompleteEntry(s, p).book;
    CompletedFrame(s, p);
    forall q: Spot | Valid(r, q)
      ensures Timed(r, q.track, At(r, q))
      ensures NoneWaiting(s.book) && At(r, q).id in r.registry ==> !At(r, q).status.Waiting?
    {
      var o := CompleteOrigin(s, p, q);
      assert Timed(s.book, o.track, At(s.book, o));
    }
  }

  lemma CompletedFrame(s: Robot, p: Spot)
    requires Registered(s, p) && At(s.book, p).status.Running?
    ensures var b, r := s.book, CompleteEntry(s, p).book;
            r.startedAt == b.startedAt && r.registry == b.registry && r.clock == b.clock
    ensures forall q: Spot :: !Valid(s.book, q) ==> !Valid(CompleteEntry(s, p).book, q)
  {
    hide SetStatus, ApplyEffect, Landing;
    var def := s.book.registry[At(s.book, p).id];
    LandingHolds(s, p, def);
    var l := Landing(s.book, p, def.kind);
    forall q: Spot | !Valid(s.book, q) ensures !Valid(CompleteEntry(s, p).book, q) {
      SetStatusAt(Cleared(s.book, def.kind), l, Finished, q);
      SetStatusAt(Cleared(s.book, def.kind), l, Failed, q);
    }
  }

  lemma AdvancingSweeps(w: World, s: Robot, p: Spot)
    requires AllTimed(s.book) && Active(s) && Registered(s, p)
    ensures Swept(s, AdvanceOne(w, s, p).robot)
  {
    hide Due, CompleteEntry, BeginEntry, Swept, AllTimed;
    SweptItself(s);
    var t := if At(s.book, p).status.Waiting? then BeginEntry(s, p) else s;
    if At(s.book, p).status.Waiting? {
      BeginningSweeps(w, s, p);
      BegunIsActive(s, p);
    }
    SweptIsTimed(s, t);
    var e := At(t.book, p);
    if e.status.Running? && Due(w, t.book, e.id, t.book.registry[e.id]) {
      CompletingSweeps(w, t, p);
      SweptTwice(s, t, CompleteEntry(t, p));
    }
  }

  lemma SweptItself(s: Robot)
    requires AllTimed(s.book)
    ensures Swept(s, s)
  {
  }

  lemma SweptIsTimed(a: Robot, b: Robot)
    requires Swept(a, b)
    ensures AllTimed(b.book) && b.mode == a.mode && b.faults == a.faults && b.book.registry == a.book.registry
  {
  }

  lemma BegunIsActive(s: Robot, p: Spot)
    requires Registered(s, p) && Active(s)
    ensures Registered(BeginEntry(s, p), p) && Active(BeginEntry(s, p))
  {
  }

  lemma {:induction false} SweepSweeps(w: World, s: Robot, t: Track, i: nat)
    requires AllTimed(s.book) && Active(s)
    ensures Swept(s, Sweep(w, s, t, i)) && Active(Sweep(w, s, t, i))
    decreases |Entries(s.book, t)| - i
  {
    hide AdvanceOne, Swept, AllTimed;
    SweptItself(s);
    if i < |Entries(s.book, t)| {
      if Entries(s.book, t)[i].id !in s.book.registry {
        SweepSweeps(w, s, t, i + 1);
      } else {
        AdvancingSweeps(w, s, Spot(t, i));
        var r := AdvanceOne(w, s, Spot(t, i));
        SweptIsTimed(s, r.robot);
        SweepSweeps(w, r.robot, t, r.spot.index + 1);
        SweptTwice(s, r.robot, Sweep(w, s, t, i));
      }
    }
  }

  lemma SweepAllSweeps(w: World, s: Robot)
    requires AllTimed(s.book) && Active(s)
    ensures Swept(s, SweepAll(w, s))
  {
    hide Sweep, Swept, AllTimed;
    SweepSweeps(w, s, OrderTrack, 0);
    var a := Sweep(w, s, OrderTrack, 0);
    SweptIsTimed(s, a);
    SweepSweeps(w, a, InstantTrack, 0);
    var b := Sweep(w, a, InstantTrack, 0);
    SweptIsTimed(a, b);
    SweepSweeps(w, b, ZoneTrack, 0);
    SweptTwice(s, a, b);
    SweptTwice(s, b, SweepAll(w, s));
  }

  // ---- zones that ask for nothing -------------------------------------------------------

  /** Neither access nor direction nor zone actions are at stake, and the speed limit, if any, is
      at least `least`. */
  predicate Passable(z: Zone, least: real) {
    && !RequiresAccess(z) && !z.zoneType.Blocked? && !z.zoneType.ActionZone?
    && ((z.zoneType.Directed? || z.zoneType.Bidirected?) && z.direction.Some? ==>
          z.limitation != Some(Strict) && z.limitation != Some(Restricted))
    && (z.zoneType.SpeedLimit? && z.maximumSpeed.Some? ==> least <= z.maximumSpeed.value)
  }

  predicate AllPassable(zones: seq<Zone>, least: real) {
    forall z :: z in zones ==> Passable(z, least)
  }

  ghost predicate OpenSite(site: Site, least: real) {
    site.occupancy == [] && forall s :: s in site.zoneSets ==> AllPassable(s.zones, least)
  }

  lemma OpenAround(site: Site, least: real, mapId: string, x: real, y: real)
    requires OpenSite(site, least)
    ensures AllPassable(ZonesAt(site.zoneSets, mapId, x, y), least)
  {
    Zones.ZonesAtMembers(site.zoneSets, mapId, x, y);
  }

  lemma {:induction false} NoActionZones(zones: seq<Zone>, least: real)
    requires AllPassable(zones, least)
    ensures ActionZones(zones) == []
  {
    if zones != [] {
      NoActionZones(zones[..|zones| - 1], least);
      assert zones[|zones| - 1] in zones;
    }
  }

  // ---- the preparation of a tick -----------------------------------------------------------

  /** What the preparation of a tick changes of what movement depends on: nothing. */
  ghost predicate PreparedFrom(a: Robot, b: Robot, dt: Span) {
    && AllTimed(b.book)
    && b.mode == a.mode && b.faults == a.faults && b.task == a.task
    && b.book.clock == a.book.clock + dt && b.book.registry == a.book.registry
    && b.hist.trip.jumps == a.hist.trip.jumps && b.hist.orders.regraphs == a.hist.orders.regraphs
    && b.pose == a.pose.(charging := b.pose.charging)
    && NoNewZones(a.site, b.site)
    && (NoneWaiting(a.book) ==> b.book.startedAt == a.book.startedAt)
    && (forall deadline: real :: StartedBy(a.book, deadline) && a.book.clock + dt <= deadline ==>
        StartedBy(b.book, deadline))
  }

  /** On an open site the preparation of an active tick is its sweep and the expiry of leases. */
  lemma PreparationSweeps(w: World, s: Robot, dt: Span, now: real, least: real)
    requires 0.0 < w.cfg.actionDuration && AllTimed(s.book) && Active(s) && OpenSite(s.site, least)
    ensures var r := Prepare(w, s, dt, now);
            && PreparedFrom(s, r, dt) && OpenSite(r.site, least)
            && forall t: Track :: NoneOverdue(w, r.book, Entries(r.book, t))
  {
    hide SweepAll, PresentZones, RegisterZoneActions, AllTimed, NoneWaiting, NoneOverdue, StartedBy;
    var a := AdvanceClock(s, dt);
    ClockedTimed(s, dt);
    SweepAllSweeps(w, a);
    NeverLate(w, a);
    var e := CheckLeases(w, SweepAll(w, a), now);
    NoZonesFire(w, e, least);
  }

  lemma ClockedTimed(s: Robot, dt: Span)
    requires AllTimed(s.book)
    ensures var a := AdvanceClock(s, dt);
            AllTimed(a.book) && (NoneWaiting(a.book) <==> NoneWaiting(s.book))
            && forall d: real :: StartedBy(s.book, d) ==> StartedBy(a.book, d)
  {
  }

  lemma NoZonesFire(w: World, e: Robot, least: real)
    requires OpenSite(e.site, least)
    ensures UpdateZoneActions(w, e) == e
  {
    hide ZonesAt;
    OpenAround(e.site, least, e.pose.mapId, e.pose.x, e.pose.y);
    NoActionZones(ZonesAt(e.site.zoneSets, e.pose.mapId, e.pose.x, e.pose.y), least);
  }
}
