/** What each kind of action does when it takes effect; and over whole runs, which maps are stored and
    ENABLED, and whether the robot charges, as the succession of effects has left them. */
module SideEffects {
  import opened Vda5050
  import opened Platform
  import opened RobotState
  import opened Transitions
  import opened Effects
  import opened Registration
  import opened Commands

  /** A pushed zone set is stored behind the others and ENABLED, unless one of its id is stored: then nothing
      but one error comes of it. */
  lemma PushVerdict(w: World, s: Robot, z: ZoneSet)
    ensures Step(w, s, ZoneSetMessage(z)) ==
      if exists y :: y in s.site.zoneSets && y.zoneSetId == z.zoneSetId
      then s.(errors := s.errors + multiset{DuplicateZoneSet})
      else s.(site := s.site.(zoneSets := s.site.zoneSets + [z],
                              zoneSetEnabled := s.site.zoneSetEnabled[z.zoneSetId := true]))
  {
  }

  /** A state, once published, has taken all pending errors with it, and nothing else. */
  lemma PublishingTakesErrors(w: World, s: Robot)
    ensures Step(w, s, StatePublished) == s.(errors := multiset{})
  {
  }

  // ---- one effect ----------------------------------------------------------------------------

  /** Whether the parameter is absent or has a numeric reading. */
  predicate Readable(a: Action, key: string) {
    match Lookup(a.params, key)
    case Some(p) => p.number.Some?
    case None => true
  }

  function NumberOr(a: Action, key: string, was: real): real {
    match Lookup(a.params, key)
    case Some(p) => if p.number.Some? then p.number.value else was
    case None => was
  }

  function TextOr(a: Action, key: string, was: string): string {
    match Lookup(a.params, key)
    case Some(p) => p.text
    case None => was
  }

  /** Where initializePosition puts the robot: what is given and readable up to the first unreadable number
      is assigned, map and last node only if all is readable; the rest stays. */
  predicate Repositioned(s: Robot, r: Robot, a: Action) {
    var x, y, theta := Readable(a, "x"), Readable(a, "y"), Readable(a, "theta");
    var all := x && y && theta;
    && r.pose == s.pose.(x := r.pose.x, y := r.pose.y, theta := r.pose.theta, mapId := r.pose.mapId)
    && r.pose.x == NumberOr(a, "x", s.pose.x)
    && r.pose.y == (if x then NumberOr(a, "y", s.pose.y) else s.pose.y)
    && r.pose.theta == (if x && y then NumberOr(a, "theta", s.pose.theta) else s.pose.theta)
    && r.pose.mapId == (if all then TextOr(a, "mapId", s.pose.mapId) else s.pose.mapId)
    && r.task.lastNodeId == if all then TextOr(a, "lastNodeId", s.task.lastNodeId) else s.task.lastNodeId
  }

  /** The version under `key` is ENABLED and the other versions of its map are not; other maps are as before. */
  ghost predicate EnablesVersion(maps: map<(string, string), bool>, r: map<(string, string), bool>,
                                 key: (string, string)) {
    r.Keys == maps.Keys && forall k :: k in maps ==> r[k] == if k.0 == key.0 then k == key else maps[k]
  }

  /** A set with this id stands where one did, or else behind the others. */
  predicate PutsSet(sets: seq<ZoneSet>, r: seq<ZoneSet>, z: ZoneSet) {
    if HasZoneSet(sets, z.zoneSetId) then
      exists i: nat :: i < |sets| && sets[i].zoneSetId == z.zoneSetId && r == sets[i := z]
                       && forall j: nat :: j < i ==> sets[j].zoneSetId != z.zoneSetId
    else r == sets + [z]
  }

  /** What the effect of each kind makes of `s`, history apart, and whether it succeeds. */
  ghost predicate Does(s: Robot, r: Robot, ok: bool, a: Action) {
    var key, id := (TextOr(a, "mapId", ""), TextOr(a, "mapVersion", "")), TextOr(a, "zoneSetId", "");
    match a.kind
    case StartCharging => ok && r == s.(pose := s.pose.(charging := true))
    case StopCharging => ok && r == s.(pose := s.pose.(charging := false))
    case InitializePosition =>
      && (ok <==> Readable(a, "x") && Readable(a, "y") && Readable(a, "theta")) && Repositioned(s, r, a)
      && r == s.(pose := r.pose, task := s.task.(lastNodeId := r.task.lastNodeId), hist := r.hist)
    case EnableMap =>
      && (ok <==> key in s.site.maps) && r == s.(site := s.site.(maps := r.site.maps))
      && (if ok then EnablesVersion(s.site.maps, r.site.maps, key) else r == s)
    case DownloadMap => ok && r == s.(site := s.site.(maps := s.site.maps[key := false]))
    case DeleteMap => (ok <==> key in s.site.maps) && r == s.(site := s.site.(maps := s.site.maps - {key}))
    case EnableZoneSet =>
      && (ok <==> HasZoneSet(s.site.zoneSets, id))
      && r == s.(site := s.site.(zoneSetEnabled := r.site.zoneSetEnabled)) && (!ok ==> r == s)
    case DownloadZoneSet =>
      ok && PutsSet(s.site.zoneSets, r.site.zoneSets, ZoneSet(s.pose.mapId, id, []))
      && r == s.(site := s.site.(zoneSets := r.site.zoneSets, zoneSetEnabled := s.site.zoneSetEnabled[id := false]))
    case DeleteZoneSet =>
      && (ok <==> HasZoneSet(s.site.zoneSets, id))
      && (forall z :: z in r.site.zoneSets <==> z in s.site.zoneSets && z.zoneSetId != id)
      && r == s.(site := s.site.(zoneSets := r.site.zoneSets, zoneSetEnabled := r.site.zoneSetEnabled))
      && r.site.zoneSetEnabled == if ok then s.site.zoneSetEnabled - {id} else s.site.zoneSetEnabled
    case Pick =>
      var load := Load(Given(a, "loadId"), Given(a, "loadType"), Given(a, "side"));
      ok && r == s.(site := s.site.(loads := s.site.loads + [load]))
    case Drop =>
      ok && r == s.(site := s.site.(loads := if s.site.loads == [] then [] else s.site.loads[1..]))
    case ClearInstantActions => ok && r == s.(book := s.book.(instant := r.book.instant))
                                && Unended(s.book.instant, r.book.instant)
    case ClearZoneActions => ok && r == s.(book := s.book.(zone := r.book.zone)) && Unended(s.book.zone, r.book.zone)
    case _ => ok && r == s
  }

  /** The text of a parameter, if it is given. */
  function Given(a: Action, key: string): Option<string> {
    match Lookup(a.params, key)
    case Some(p) => Some(p.text)
    case None => None
  }

  lemma InitializingPuts(s: Robot, a: Action)
    requires a.kind.InitializePosition?
    ensures var r := ApplyEffect(s, a);
            Does(s, r.robot, r.ok, a)
  {
    hide Lookup, InitializePose, Cleared, SiteEffect, HasZoneSet, PutsSet, Unended, EnablesVersion, Given, Charges,
      Readable, NumberOr, TextOr;
    PlacingPuts(s.pose, s.task.lastNodeId, a);
  }

  lemma PlacingPuts(p: Pose, last: string, a: Action)
    ensures var r := InitializePose(p, last, a);
            var x, y, theta := Readable(a, "x"), Readable(a, "y"), Readable(a, "theta");
            && (r.ok <==> x && y && theta)
            && r.pose == p.(x := NumberOr(a, "x", p.x), y := if x then NumberOr(a, "y", p.y) else p.y,
                            theta := if x && y then NumberOr(a, "theta", p.theta) else p.theta,
                            mapId := if r.ok then TextOr(a, "mapId", p.mapId) else p.mapId)
            && r.lastNodeId == if r.ok then TextOr(a, "lastNodeId", last) else last
  {
    hide Lookup;
  }

  lemma EnablesOne(s: Robot, a: Action)
    requires a.kind.EnableMap?
    ensures var r := ApplyEffect(s, a);
            Does(s, r.robot, r.ok, a)
  {
    hide Lookup;
  }

  lemma StoresSet(s: Robot, a: Action)
    requires a.kind.DownloadZoneSet?
    ensures var r := ApplyEffect(s, a);
            Does(s, r.robot, r.ok, a)
  {
    hide Lookup;
    var z := ZoneSet(s.pose.mapId, Text(a, "zoneSetId"), []);
    var i := FirstIndex(s.site.zoneSets, (o: ZoneSet) => o.zoneSetId == z.zoneSetId);
    if i < |s.site.zoneSets| { assert s.site.zoneSets[i] in s.site.zoneSets; }
  }

  lemma RemovesSet(s: Robot, a: Action)
    requires a.kind.DeleteZoneSet?
    ensures var r := ApplyEffect(s, a);
            Does(s, r.robot, r.ok, a)
  {
    hide Lookup;
  }

  lemma EnablesSet(s: Robot, a: Action)
    requires a.kind.EnableZoneSet?
    ensures var r := ApplyEffect(s, a);
            Does(s, r.robot, r.ok, a)
  {
    hide Lookup, EnableAmong;
    var i := FirstIndex(s.site.zoneSets, (z: ZoneSet) => z.zoneSetId == Text(a, "zoneSetId"));
    if i < |s.site.zoneSets| { assert s.site.zoneSets[i] in s.site.zoneSets; }
  }

  lemma ClearsEnded(s: Robot, a: Action)
    requires a.kind.ClearInstantActions? || a.kind.ClearZoneActions?
    ensures var r := ApplyEffect(s, a);
            Does(s, r.robot, r.ok, a)
  {
    hide Lookup, Filter, Live, Unended;
    LiveIsUnended(s.book.instant);
    LiveIsUnended(s.book.zone);
  }

  /** Each effect changes exactly what it is for, and succeeds exactly when it can. */
  lemma EffectOutcome(s: Robot, a: Action)
    ensures var r := ApplyEffect(s, a);
            Does(s, r.robot, r.ok, a)
  {
    if a.kind.InitializePosition? {
      InitializingPuts(s, a);
    } else if a.kind.EnableMap? {
      EnablesOne(s, a);
    } else if a.kind.DownloadZoneSet? {
      StoresSet(s, a);
    } else if a.kind.DeleteZoneSet? {
      RemovesSet(s, a);
    } else if a.kind.EnableZoneSet? {
      EnablesSet(s, a);
    } else if a.kind.ClearInstantActions? || a.kind.ClearZoneActions? {
      ClearsEnded(s, a);
    } else {
      OtherEffects(s, a);
    }
  }

  lemma OtherEffects(s: Robot, a: Action)
    requires !a.kind.InitializePosition? && !a.kind.EnableMap? && !a.kind.ClearInstantActions?
    requires !a.kind.DownloadZoneSet? && !a.kind.DeleteZoneSet? && !a.kind.EnableZoneSet? && !a.kind.ClearZoneActions?
    ensures var r := ApplyEffect(s, a);
            Does(s, r.robot, r.ok, a)
  {
    hide Lookup;
  }

  /** Whether the effect cannot take place: an unreadable number, or a map or zone set that is not there. */
  predicate CannotBe(s: Robot, a: Action) {
    match a.kind
    case InitializePosition => !Readable(a, "x") || !Readable(a, "y") || !Readable(a, "theta")
    case EnableMap | DeleteMap => (TextOr(a, "mapId", ""), TextOr(a, "mapVersion", "")) !in s.site.maps
    case EnableZoneSet | DeleteZoneSet => forall z :: z in s.site.zoneSets ==> z.zoneSetId != TextOr(a, "zoneSetId", "")
    case _ => false
  }

  /** An entry that completes ends FAILED exactly if its effect cannot take place, and FINISHED otherwise. */
  lemma CompletionReports(s: Robot, p: Spot)
    requires Registered(s, p) && At(s.book, p).status.Running?
    ensures var e, def := At(s.book, p), s.book.registry[At(s.book, p).id];
            var q, r := Landing(s.book, p, def.kind), CompleteEntry(s, p).book;
            Valid(r, q) && At(r, q) == Entry(e.id, e.kind, if CannotBe(s, def) then Failed else Finished)
  {
    hide ApplyEffect, Landing, Readable, TextOr, Repositioned, PutsSet, Unended, Given, EnablesVersion;
    var def := s.book.registry[At(s.book, p).id];
    LandingHolds(s, p, def);
    EffectOutcome(s, def);
  }

  // ---- maps and charging over runs -------------------------------------------------------------

  /** The status a succession of effects leaves a map version in: None if it is not stored, else whether
      it is ENABLED. A download stores it DISABLED; enabling a stored version disables its siblings. */
  function MapStatus(effects: seq<Effect>, key: (string, string)): Option<bool> {
    if effects == [] then None
    else
      var a, init := effects[|effects| - 1].def, effects[..|effects| - 1];
      var its, before := (TextOr(a, "mapId", ""), TextOr(a, "mapVersion", "")), MapStatus(init, key);
      if a.kind.DownloadMap? && its == key then Some(false)
      else if a.kind.DeleteMap? && its == key then None
      else if a.kind.EnableMap? && its.0 == key.0 && before.Some? && MapStatus(init, its).Some? then Some(its == key)
      else before
  }

  /** Whether the last startCharging or stopCharging among the effects was a startCharging. */
  predicate ChargesAfter(effects: seq<Effect>) {
    effects != [] &&
    var kind := effects[|effects| - 1].def.kind;
    kind.StartCharging? || (!kind.StopCharging? && ChargesAfter(effects[..|effects| - 1]))
  }

  /** Maps and charging are what the effects have made of them. */
  ghost predicate SiteFollows(s: Robot) {
    && s.pose.charging == ChargesAfter(s.hist.actions.effects)
    && forall key: (string, string) ::
         MapStatus(s.hist.actions.effects, key) == if key in s.site.maps then Some(s.site.maps[key]) else None
  }

  /** How a map version fares by an effect. */
  lemma MapFares(s: Robot, a: Action, key: (string, string))
    ensures var its, m, r := (TextOr(a, "mapId", ""), TextOr(a, "mapVersion", "")), s.site.maps,
                             ApplyEffect(s, a).robot.site.maps;
            var before := if key in m then Some(m[key]) else None;
            (if key in r then Some(r[key]) else None)
              == if a.kind.DownloadMap? && its == key then Some(false)
                 else if a.kind.DeleteMap? && its == key then None
                 else if a.kind.EnableMap? && its.0 == key.0 && before.Some? && its in m then Some(its == key)
                 else before
  {
    hide ApplyEffect, TextOr, Repositioned, PutsSet, Unended, Given;
    EffectOutcome(s, a);
  }

  lemma ChargingFares(s: Robot, a: Action)
    ensures ApplyEffect(s, a).robot.pose.charging
       <==> a.kind.StartCharging? || (!a.kind.StopCharging? && s.pose.charging)
  {
    hide ApplyEffect, TextOr, PutsSet, Unended, Given;
    EffectOutcome(s, a);
  }

  lemma EffectFollows(s: Robot, a: Action, e: Effect, r: Robot)
    requires SiteFollows(s) && e.def == a && r == ApplyEffect(s, a).robot
    ensures SiteFollows(r.(hist := r.hist.(actions := r.hist.actions.(effects := s.hist.actions.effects + [e]))))
  {
    hide ApplyEffect, TextOr;
    var effects := s.hist.actions.effects + [e];
    assert effects[|effects| - 1] == e && effects[..|effects| - 1] == s.hist.actions.effects;
    ChargingFares(s, a);
    var its := (TextOr(a, "mapId", ""), TextOr(a, "mapVersion", ""));
    forall key: (string, string)
      ensures MapStatus(effects, key) == if key in r.site.maps then Some(r.site.maps[key]) else None
    {
      MapFares(s, a, key);
      assert MapStatus(s.hist.actions.effects, its).Some? <==> its in s.site.maps;
    }
  }

  lemma CompletionFollows(s: Robot, p: Spot)
    requires SiteFollows(s) && Registered(s, p) && At(s.book, p).status.Running?
    ensures SiteFollows(CompleteEntry(s, p))
  {
    hide ApplyEffect, SetStatus, Landing, MapStatus, ChargesAfter;
    var id := At(s.book, p).id;
    var def := s.book.registry[id];
    LandingHolds(s, p, def);
    EffectFollows(s, def, Effect(p.track, id, def), ApplyEffect(s, def).robot);
  }

  lemma SiteFollowsKept(w: World, s: Robot, op: Op)
    requires SiteFollows(s) && Enabled(w, s, op)
    ensures SiteFollows(Apply(w, s, op))
  {
    hide ActionEnabled, ApplyAction, OrderEnabled, ApplyOrder, MoveEnabled, ApplyMove, TrafficEnabled, ApplyTraffic,
      UnitEnabled, ApplyUnit, MapStatus, ChargesAfter;
    match op
    case OnAction(a) => ActionFollows(w, s, a);
    case OnOrder(o) => OrderFrame(s, o);
    case OnMove(m) =>
      MoveFrame(w, s, m);
      MovesKeepCharging(w, s, m);
    case OnTraffic(t) => TrafficFrame(w, s, t);
    case OnUnit(u) =>
      UnitFrame(w, s, u);
      UnitsKeepSite(w, s, u);
  }

  lemma ActionFollows(w: World, s: Robot, op: ActionOp)
    requires SiteFollows(s) && ActionEnabled(w, s, op)
    ensures SiteFollows(ApplyAction(w, s, op))
  {
    hide CompleteEntry, SetStatus, Append, FlipAll, Live, LiveId, MapStatus, ChargesAfter;
    if op.Completing? { CompletionFollows(s, op.spot); }
  }

  lemma MovesKeepCharging(w: World, s: Robot, op: MoveOp)
    requires MoveEnabled(w, s, op)
    ensures ApplyMove(w, s, op).pose.charging == s.pose.charging
  {
    hide MayDrive, Held, CurrentNode, FindEdge, Holders, Without, WithoutEdge, MustTurn, EffectiveSpeed;
  }

  lemma UnitsKeepSite(w: World, s: Robot, op: UnitOp)
    requires UnitEnabled(s, op)
    ensures var r := ApplyUnit(w, s, op);
            r.pose.charging == s.pose.charging && r.site.maps == s.site.maps
  {
    hide PresentZones, UpdateField, UpdateOperatingMode, UpdateStop;
  }

  /** On every run the maps stored and ENABLED are those that the downloads, enables and deletes which took
      effect have left so, and the robot charges exactly if the last charging action that took effect was a
      startCharging. */
  lemma SiteAlwaysFollows(w: World, s: Robot, events: seq<Event>)
    requires SiteFollows(s)
    ensures SiteFollows(Run(w, s, events))
  {
    hide SiteFollows;
    var inv := (r: Robot) => SiteFollows(r);
    forall r: Robot, op: Op ensures Keeps(w, inv)(r, op) {
      if inv(r) && Enabled(w, r, op) { SiteFollowsKept(w, r, op); }
    }
    RunInduction(w, inv, s, events);
  }
}
