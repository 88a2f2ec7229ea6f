/** Side effects over whole runs: each is applied at most once per entry, loads are the fold
    of the pick and drop effects, only accepted actions take effect, and at most one version
    of a map is enabled. */
module Effects {
  import opened Vda5050
  import opened Platform
  import opened RobotState
  import opened Transitions

  // ---- effects at most once -----------------------------------------------------------

  function EffectCount(effects: seq<Effect>, id: string): nat {
    if effects == [] then 0
    else EffectCount(effects[..|effects| - 1], id) + One(effects[|effects| - 1].id == id)
  }

  function SpawnCount(spawned: seq<string>, id: string): nat {
    if spawned == [] then 0
    else SpawnCount(spawned[..|spawned| - 1], id) + One(spawned[|spawned| - 1] == id)
  }

  /** The id of the live entry an operation creates. */
  function SpawnedIds(op: Op): seq<string> {
    if op.OnAction? && (op.a.Spawning? || op.a.AskingCancel?) then [op.a.action.id] else []
  }

  lemma SpawnedAfter(w: World, s: Robot, op: Op)
    requires Enabled(w, s, op)
    ensures Apply(w, s, op).hist.actions.spawned == s.hist.actions.spawned + SpawnedIds(op)
  {
    hide ActionEnabled, ApplyAction, OrderEnabled, ApplyOrder, MoveEnabled, ApplyMove, TrafficEnabled, ApplyTraffic,
      UnitEnabled, ApplyUnit;
    match op
    case OnAction(a) => ActionSpawned(w, s, a);
    case OnOrder(o) => OrderFrame(s, o);
    case OnMove(m) => MoveFrame(w, s, m);
    case OnTraffic(t) => TrafficFrame(w, s, t);
    case OnUnit(u) => UnitFrame(w, s, u);
  }

  lemma ActionSpawned(w: World, s: Robot, op: ActionOp)
    requires ActionEnabled(w, s, op)
    ensures ApplyAction(w, s, op).hist.actions.spawned == s.hist.actions.spawned + SpawnedIds(OnAction(op))
  {
    hide ApplyEffect, SetStatus, Append, FlipAll, Landing, Live, Due, FitsTrack, Active, Idle, LiveId;
    if op.Completing? { LandingHolds(s, op.spot, s.book.registry[At(s.book, op.spot).id]); }
  }

  lemma SpawnCounted(w: World, s: Robot, op: Op, id: string)
    requires Enabled(w, s, op)
    ensures SpawnCount(Apply(w, s, op).hist.actions.spawned, id)
         == SpawnCount(s.hist.actions.spawned, id) + One(SpawnedIds(op) == [id])
  {
    hide Enabled, Apply;
    SpawnedAfter(w, s, op);
    var before, after := s.hist.actions.spawned, Apply(w, s, op).hist.actions.spawned;
    if SpawnedIds(op) != [] {
      assert after[..|after| - 1] == before;
    } else {
      assert after == before;
    }
  }

  function Share(e: Entry, id: string): nat { One(e.id == id && !e.status.Terminal()) }

  /** The number of entries with this id still to be settled. */
  function LiveCount(es: seq<Entry>, id: string): nat {
    if es == [] then 0 else Share(es[0], id) + LiveCount(es[1..], id)
  }

  function Pending(b: Book, id: string): nat {
    LiveCount(b.order, id) + LiveCount(b.instant, id) + LiveCount(b.zone, id)
  }

  /** The entries created under an id less those pending and those that took effect. */
  function Slack(s: Robot, id: string): int {
    SpawnCount(s.hist.actions.spawned, id) - EffectCount(s.hist.actions.effects, id) - Pending(s.book, id)
  }

  lemma {:induction false} LiveCountJoin(a: seq<Entry>, b: seq<Entry>, id: string)
    ensures LiveCount(a + b, id) == LiveCount(a, id) + LiveCount(b, id)
  {
    if a == [] {
      assert a + b == b;
    } else {
      assert (a + b)[1..] == a[1..] + b;
      LiveCountJoin(a[1..], b, id);
    }
  }

  lemma {:induction false} LiveCountUpdate(es: seq<Entry>, i: nat, e: Entry, id: string)
    requires i < |es|
    ensures LiveCount(es[i := e], id) + Share(es[i], id) == LiveCount(es, id) + Share(e, id)
  {
    if i > 0 {
      LiveCountUpdate(es[1..], i - 1, e, id);
      assert es[i := e][1..] == es[1..][i - 1 := e];
    } else {
      assert es[0 := e][1..] == es[1..];
    }
  }

  lemma {:induction false} LiveCountKept(es: seq<Entry>, id: string)
    ensures LiveCount(Live(es), id) == LiveCount(es, id)
  {
    if es != [] {
      LiveCountKept(es[1..], id);
      if !es[0].status.Terminal() {
        assert Live(es) == [es[0]] + Live(es[1..]);
        assert Live(es)[1..] == Live(es[1..]);
      } else {
        assert Live(es) == Live(es[1..]);
      }
    }
  }

  lemma {:induction false} LiveCountFlip(es: seq<Entry>, from: Status, into: Status, id: string)
    requires !from.Terminal() && !into.Terminal()
    ensures LiveCount(Flip(es, from, into), id) == LiveCount(es, id)
  {
    if es != [] {
      LiveCountFlip(es[1..], from, into, id);
      assert Flip(es, from, into)[1..] == Flip(es[1..], from, into);
    }
  }

  lemma PendingAppend(b: Book, t: Track, e: Entry, id: string)
    ensures Pending(Append(b, t, e), id) == Pending(b, id) + Share(e, id)
  {
    LiveCountJoin(Entries(b, t), [e], id);
    assert [e][1..] == [];
  }

  lemma PendingSetStatus(b: Book, p: Spot, status: Status, id: string)
    requires Valid(b, p)
    ensures Pending(SetStatus(b, p, status), id) + Share(At(b, p), id)
         == Pending(b, id) + Share(At(b, p).(status := status), id)
  {
    LiveCountUpdate(Entries(b, p.track), p.index, At(b, p).(status := status), id);
  }

  lemma PendingCleared(b: Book, kind: ActionKind, id: string)
    ensures Pending(Cleared(b, kind), id) == Pending(b, id)
  {
    LiveCountKept(b.instant, id);
    LiveCountKept(b.zone, id);
  }

  lemma PendingFlip(b: Book, id: string)
    ensures Pending(FlipAll(b, Running, Paused), id) == Pending(b, id)
    ensures Pending(FlipAll(b, Paused, Running), id) == Pending(b, id)
  {
    LiveCountFlip(b.order, Running, Paused, id);
    LiveCountFlip(b.instant, Running, Paused, id);
    LiveCountFlip(b.zone, Running, Paused, id);
    LiveCountFlip(b.order, Paused, Running, id);
    LiveCountFlip(b.instant, Paused, Running, id);
    LiveCountFlip(b.zone, Paused, Running, id);
  }

  /** Only the three lists matter. */
  lemma PendingSame(b: Book, c: Book, id: string)
    requires c == b.(registry := c.registry, startedAt := c.startedAt, clock := c.clock)
    ensures Pending(c, id) == Pending(b, id)
  {
  }

  /** Completing turns one pending entry into one effect. */
  lemma CompletingConserves(s: Robot, p: Spot, id: string)
    requires Registered(s, p) && At(s.book, p).status.Running?
    ensures var r := CompleteEntry(s, p);
            && r.hist.actions.spawned == s.hist.actions.spawned
            && EffectCount(r.hist.actions.effects, id) + Pending(r.book, id)
                == EffectCount(s.hist.actions.effects, id) + Pending(s.book, id)
  {
    hide ApplyEffect, SetStatus, Landing, Pending, At;
    var def := s.book.registry[At(s.book, p).id];
    var q := Landing(s.book, p, def.kind);
    LandingHolds(s, p, def);
    var c := Cleared(s.book, def.kind);
    PendingCleared(s.book, def.kind, id);
    PendingSetStatus(c, q, Finished, id);
    PendingSetStatus(c, q, Failed, id);
    var r := CompleteEntry(s, p);
    assert r.hist.actions.effects[..|s.hist.actions.effects|] == s.hist.actions.effects;
  }

  lemma ActionConserves(w: World, s: Robot, op: ActionOp, id: string)
    requires ActionEnabled(w, s, op)
    ensures Slack(ApplyAction(w, s, op), id) >= Slack(s, id)
    ensures id !in CommandedIds(s, OnAction(op)) && id !in BrokenIds(s, OnAction(op)) ==>
              Slack(ApplyAction(w, s, op), id) == Slack(s, id)
  {
    hide CompleteEntry, FlipAll, SetStatus, Append, Boards, BeginEntry, RetryEntry, Intervene, BreakEntry, Pending,
      EffectCount, LiveId, Due, FitsTrack, Active, Idle, At, Valid;
    var r := ApplyAction(w, s, op);
    match op
    case Spawning(_, _, _) | Refusing(_, _, _) | Acknowledging(_) | AskingCancel(_) => AppendConserves(w, s, op, id);
    case Completing(p) => CompletingConserves(s, p, id);
    case Pausing(_) => PendingFlip(s.book, id);
    case Forgetting(t) => PendingCleared(s.book, if t.InstantTrack? then ClearInstantActions else ClearZoneActions, id);
    case Clocking(_) => PendingSame(s.book, r.book, id);
    case _ => StatusConserves(w, s, op, id);
  }

  /** What an operation on actions adds to the effects. */
  lemma EffectsGrow(w: World, s: Robot, op: ActionOp)
    requires ActionEnabled(w, s, op)
    ensures var r := ApplyAction(w, s, op);
            if op.Completing? then
              Registered(s, op.spot) && !At(s.book, op.spot).status.Terminal()
              && r.hist.actions.effects == s.hist.actions.effects
                   + [Effect(op.spot.track, At(s.book, op.spot).id, s.book.registry[At(s.book, op.spot).id])]
            else r.hist.actions.effects == s.hist.actions.effects
  {
    hide ApplyEffect, SetStatus, Append, FlipAll, Landing, Live, FitsTrack, Active, Idle, LiveId, Due;
    if op.Completing? { LandingHolds(s, op.spot, s.book.registry[At(s.book, op.spot).id]); }
  }

  lemma AppendConserves(w: World, s: Robot, op: ActionOp, id: string)
    requires Appends(op) && ActionEnabled(w, s, op)
    ensures Slack(ApplyAction(w, s, op), id) == Slack(s, id)
  {
    hide ApplyAction, ActionEnabled, Append, Pending, EffectCount, SpawnCount;
    AppendedBook(w, s, op);
    PendingAppend(s.book, TrackGiven(op), EntryGiven(op), id);
    PendingSame(Append(s.book, TrackGiven(op), EntryGiven(op)), ApplyAction(w, s, op).book, id);
    SpawnCounted(w, s, OnAction(op), id);
    EffectsGrow(w, s, op);
  }

  lemma StatusConserves(w: World, s: Robot, op: ActionOp, id: string)
    requires SetsStatus(op) && ActionEnabled(w, s, op)
    ensures Slack(ApplyAction(w, s, op), id) >= Slack(s, id)
    ensures id !in CommandedIds(s, OnAction(op)) && id !in BrokenIds(s, OnAction(op)) ==>
              Slack(ApplyAction(w, s, op), id) == Slack(s, id)
  {
    hide ApplyAction, SetStatus, Pending, EffectCount, SpawnCount, Active, Due;
    StatusBook(w, s, op);
    PendingSetStatus(s.book, op.spot, StatusGiven(w, op), id);
    PendingSame(SetStatus(s.book, op.spot, StatusGiven(w, op)), ApplyAction(w, s, op).book, id);
    SpawnCounted(w, s, OnAction(op), id);
    EffectsGrow(w, s, op);
  }

  lemma OrderConserves(s: Robot, op: OrderOp, id: string)
    requires OrderEnabled(s, op)
    ensures Slack(ApplyOrder(s, op), id) >= Slack(s, id)
    ensures !Renews(OnOrder(op)) ==> Slack(ApplyOrder(s, op), id) == Slack(s, id)
  {
    if op.FinishingCancel? {
      var i := FirstIndex(s.book.instant, (e: Entry) => e.id == s.mode.cancel.value && e.status.Running?);
      if i < |s.book.instant| {
        LiveCountUpdate(s.book.instant, i, s.book.instant[i].(status := Finished), id);
      }
    }
  }

  lemma SlackNeverShrinks(w: World, s: Robot, op: Op, id: string)
    requires Enabled(w, s, op)
    ensures Slack(Apply(w, s, op), id) >= Slack(s, id)
    ensures id !in CommandedIds(s, op) && id !in BrokenIds(s, op) && !Renews(op) ==>
              Slack(Apply(w, s, op), id) == Slack(s, id)
  {
    hide ActionEnabled, ApplyAction, OrderEnabled, ApplyOrder, MoveEnabled, ApplyMove, TrafficEnabled, ApplyTraffic,
      UnitEnabled, ApplyUnit, Pending;
    match op
    case OnAction(a) => ActionConserves(w, s, a, id);
    case OnOrder(o) => OrderConserves(s, o, id);
    case OnMove(m) => MoveFrame(w, s, m);
    case OnTraffic(t) => TrafficFrame(w, s, t);
    case OnUnit(u) => UnitFrame(w, s, u);
  }

  /** On every run, whatever is paused, broken, retried, updated or cancelled in between, an id
      takes effect no more often than entries pending under it or created for it allow: each
      entry has its side effect applied at most once. */
  lemma EffectsAtMostOnce(w: World, s: Robot, events: seq<Event>, id: string)
    ensures var r := Run(w, s, events);
            EffectCount(r.hist.actions.effects, id) - EffectCount(s.hist.actions.effects, id) + Pending(r.book, id)
              <= Pending(s.book, id) + SpawnCount(r.hist.actions.spawned, id) - SpawnCount(s.hist.actions.spawned, id)
  {
    hide Pending, SpawnCount, EffectCount;
    var inv := (r: Robot) => Slack(r, id) >= Slack(s, id);
    forall r: Robot, op: Op ensures Keeps(w, inv)(r, op) {
      if inv(r) && Enabled(w, r, op) { SlackNeverShrinks(w, r, op, id); }
    }
    RunInduction(w, inv, s, events);
  }

  /** Relative to `a`: for as long as no entry under the id is commanded or broken, and the order is
      neither renewed nor cleared, the effects are accounted for exactly. */
  ghost predicate Balanced(a: Robot, b: Robot, id: string) {
    && b.hist.actions.commanded[id] >= a.hist.actions.commanded[id]
    && b.hist.actions.broken[id] >= a.hist.actions.broken[id]
    && b.hist.orders.renewals >= a.hist.orders.renewals
    && SpawnCount(b.hist.actions.spawned, id) >= SpawnCount(a.hist.actions.spawned, id)
    && (LeftAlone(a, b, id) ==> Slack(b, id) == Slack(a, id))
  }

  /** No entry under the id has been commanded or broken since `a`, nor the order renewed or cleared. */
  ghost predicate LeftAlone(a: Robot, b: Robot, id: string) {
    && b.hist.actions.commanded[id] == a.hist.actions.commanded[id]
    && b.hist.actions.broken[id] == a.hist.actions.broken[id]
    && b.hist.orders.renewals == a.hist.orders.renewals
  }

  lemma BalancedKept(w: World, a: Robot, b: Robot, op: Op, id: string)
    requires Balanced(a, b, id) && Enabled(w, b, op)
    ensures Balanced(a, Apply(w, b, op), id)
  {
    hide Enabled, Apply, Slack, SpawnCount, CommandedIds, BrokenIds, Renews;
    CountersAfter(w, b, op);
    SpawnCounted(w, b, op, id);
    SlackNeverShrinks(w, b, op, id);
  }

  lemma BalanceIsKept(w: World, a: Robot, id: string)
    ensures Kept(w, (r: Robot) => Balanced(a, r, id))
  {
    hide Balanced;
    var inv := (r: Robot) => Balanced(a, r, id);
    forall r: Robot, op: Op ensures Keeps(w, inv)(r, op) {
      if inv(r) && Enabled(w, r, op) { BalancedKept(w, a, r, op, id); }
    }
  }

  /** The exact counterpart. On every run on which no entry under the id is commanded or broken and the
      order is neither renewed nor cleared, every entry that was pending, or created since, either has
      taken effect or is still pending: none ends without. */
  lemma EffectsExactlyOnce(w: World, s: Robot, events: seq<Event>, id: string)
    requires LeftAlone(s, Run(w, s, events), id)
    ensures var r := Run(w, s, events);
            EffectCount(r.hist.actions.effects, id) - EffectCount(s.hist.actions.effects, id) + Pending(r.book, id)
              == Pending(s.book, id) + SpawnCount(r.hist.actions.spawned, id) - SpawnCount(s.hist.actions.spawned, id)
  {
    hide Pending, SpawnCount, EffectCount, Run, Kept;
    BalanceIsKept(w, s, id);
    RunInduction(w, (r: Robot) => Balanced(s, r, id), s, events);
  }

  // ---- loads -------------------------------------------------------------------------

  /** The loads left on board by a succession of effects. */
  function LoadsAfter(effects: seq<Effect>): seq<Load> {
    if effects == [] then []
    else
      var before, a := LoadsAfter(effects[..|effects| - 1]), effects[|effects| - 1].def;
      if a.kind.Pick? then Picked(before, a) else if a.kind.Drop? then Dropped(before) else before
  }

  /** Every load ever picked, in order. */
  function EverPicked(effects: seq<Effect>): seq<Load> {
    if effects == [] then []
    else
      var before, a := EverPicked(effects[..|effects| - 1]), effects[|effects| - 1].def;
      if a.kind.Pick? then Picked(before, a) else before
  }

  /** How many drops found a load. */
  function Delivered(effects: seq<Effect>): nat {
    if effects == [] then 0
    else
      var before := effects[..|effects| - 1];
      Delivered(before) + One(effects[|effects| - 1].def.kind.Drop? && LoadsAfter(before) != [])
  }

  /** First in, first out: what is on board is what was ever picked less the first ones, one
      for each drop that found a load. */
  lemma {:induction false} LoadsAreFifo(effects: seq<Effect>)
    ensures Delivered(effects) <= |EverPicked(effects)|
    ensures LoadsAfter(effects) == EverPicked(effects)[Delivered(effects)..]
  {
    if effects != [] {
      LoadsAreFifo(effects[..|effects| - 1]);
    }
  }

  /** The loads carried are the fold of the effects applied. */
  ghost predicate LoadsAccounted(s: Robot) {
    s.site.loads == LoadsAfter(s.hist.actions.effects)
  }

  lemma CompletingLoads(s: Robot, p: Spot)
    requires Registered(s, p) && At(s.book, p).status.Running?
    ensures var def, r := s.book.registry[At(s.book, p).id], CompleteEntry(s, p);
            && |r.hist.actions.effects| == |s.hist.actions.effects| + 1
            && r.hist.actions.effects[..|s.hist.actions.effects|] == s.hist.actions.effects
            && r.hist.actions.effects[|s.hist.actions.effects|].def == def
            && r.site.loads == if def.kind.Pick? then Picked(s.site.loads, def)
                               else if def.kind.Drop? then Dropped(s.site.loads) else s.site.loads
  {
    hide ApplyEffect, SetStatus, Landing, Picked, Dropped;
    var def := s.book.registry[At(s.book, p).id];
    LandingHolds(s, p, def);
    EffectLoads(s, def);
  }

  /** The site after an effect. */
  lemma EffectSite(s: Robot, a: Action)
    ensures ApplyEffect(s, a).robot.site == SiteEffect(s.site, s.pose.mapId, a).site
  {
    hide MapKey, Picked, Dropped, EnableAmong, EnableMapVersion, PutZoneSet, Filter, HasZoneSet, FirstIndex, Text,
      Lookup;
  }

  lemma EffectLoads(s: Robot, a: Action)
    ensures ApplyEffect(s, a).robot.site.loads ==
      if a.kind.Pick? then Picked(s.site.loads, a) else if a.kind.Drop? then Dropped(s.site.loads) else s.site.loads
  {
    hide MapKey, Picked, Dropped, EnableAmong, EnableMapVersion, PutZoneSet, Filter, HasZoneSet, FirstIndex, Text;
    EffectSite(s, a);
  }

  lemma LoadsAccountedKept(w: World, s: Robot, op: Op)
    requires LoadsAccounted(s) && Enabled(w, s, op)
    ensures LoadsAccounted(Apply(w, s, op))
  {
    hide ActionEnabled, ApplyAction, OrderEnabled, ApplyOrder, MoveEnabled, ApplyMove, TrafficEnabled, ApplyTraffic,
      UnitEnabled, ApplyUnit;
    match op
    case OnAction(a) => ActionLoads(w, s, a);
    case OnOrder(o) => OrderFrame(s, o);
    case OnMove(m) => MoveFrame(w, s, m);
    case OnTraffic(t) => TrafficFrame(w, s, t);
    case OnUnit(u) => UnitFrame(w, s, u);
  }

  lemma ActionLoads(w: World, s: Robot, op: ActionOp)
    requires LoadsAccounted(s) && ActionEnabled(w, s, op)
    ensures LoadsAccounted(ApplyAction(w, s, op))
  {
    hide CompleteEntry, SetStatus, Append, FlipAll, Live, LiveId, Picked, Dropped;
    if op.Completing? { CompletingLoads(s, op.spot); }
  }

  /** On every run from an empty robot the loads are the FIFO fold of the picks and drops carried out. */
  lemma LoadsConserved(w: World, s: Robot, events: seq<Event>)
    requires LoadsAccounted(s)
    ensures var r := Run(w, s, events);
            && LoadsAccounted(r)
            && |r.site.loads| == |EverPicked(r.hist.actions.effects)| - Delivered(r.hist.actions.effects)
  {
    var inv := (r: Robot) => LoadsAccounted(r);
    forall r: Robot, op: Op ensures Keeps(w, inv)(r, op) {
      if inv(r) && Enabled(w, r, op) { LoadsAccountedKept(w, r, op); }
    }
    RunInduction(w, inv, s, events);
    LoadsAreFifo(Run(w, s, events).hist.actions.effects);
  }

  // ---- maps ------------------------------------------------------------------------------

  /** At most one version of each map is ENABLED. */
  ghost predicate OneVersionEnabled(maps: map<(string, string), bool>) {
    forall j, k :: j in maps && k in maps && maps[j] && maps[k] && j.0 == k.0 ==> j == k
  }

  lemma EffectMaps(s: Robot, a: Action)
    requires OneVersionEnabled(s.site.maps)
    ensures OneVersionEnabled(ApplyEffect(s, a).robot.site.maps)
  {
    hide ApplyEffect, SiteEffect, EnableMapVersion, MapKey;
    EffectSite(s, a);
    SiteMaps(s.site, s.pose.mapId, a);
    EnablingVersion(s.site.maps, MapKey(a));
  }

  /** Maps change by enableMap, downloadMap and deleteMap only. */
  lemma SiteMaps(site: Site, mapId: string, a: Action)
    ensures var m := SiteEffect(site, mapId, a).site.maps;
            || m == site.maps
            || (a.kind.EnableMap? && m == EnableMapVersion(site.maps, MapKey(a)))
            || (a.kind.DownloadMap? && m == site.maps[MapKey(a) := false])
            || (a.kind.DeleteMap? && m == site.maps - {MapKey(a)})
  {
    hide Picked, Dropped, EnableAmong, EnableMapVersion, PutZoneSet, Filter, HasZoneSet, FirstIndex, MapKey, Text;
  }

  lemma EnablingVersion(maps: map<(string, string), bool>, key: (string, string))
    requires OneVersionEnabled(maps)
    ensures OneVersionEnabled(EnableMapVersion(maps, key))
  {
  }

  lemma MapsKept(w: World, s: Robot, op: Op)
    requires OneVersionEnabled(s.site.maps) && Enabled(w, s, op)
    ensures OneVersionEnabled(Apply(w, s, op).site.maps)
  {
    hide ActionEnabled, ApplyAction, OrderEnabled, ApplyOrder, MoveEnabled, ApplyMove, TrafficEnabled, ApplyTraffic,
      UnitEnabled, ApplyUnit, OneVersionEnabled;
    match op
    case OnAction(a) => ActionMaps(w, s, a);
    case OnOrder(o) => OrderFrame(s, o);
    case OnMove(m) => MoveFrame(w, s, m);
    case OnTraffic(t) => TrafficFrame(w, s, t);
    case OnUnit(u) => UnitFrame(w, s, u);
  }

  lemma ActionMaps(w: World, s: Robot, op: ActionOp)
    requires OneVersionEnabled(s.site.maps) && ActionEnabled(w, s, op)
    ensures OneVersionEnabled(ApplyAction(w, s, op).site.maps)
  {
    hide ApplyEffect, SetStatus, Append, FlipAll, Live, LiveId, Landing, OneVersionEnabled;
    if op.Completing? {
      var def := s.book.registry[At(s.book, op.spot).id];
      LandingHolds(s, op.spot, def);
      EffectMaps(s, def);
    }
  }

  /** Under any interleaving of timed downloads, enables and deletes, no map ever has two
      ENABLED versions. */
  lemma OneMapVersionEnabled(w: World, s: Robot, events: seq<Event>)
    requires OneVersionEnabled(s.site.maps)
    ensures OneVersionEnabled(Run(w, s, events).site.maps)
  {
    var inv := (r: Robot) => OneVersionEnabled(r.site.maps);
    forall r: Robot, op: Op ensures Keeps(w, inv)(r, op) {
      if inv(r) && Enabled(w, r, op) { MapsKept(w, r, op); }
    }
    RunInduction(w, inv, s, events);
  }

  // ---- zone sets ----------------------------------------------------------------------------

  predicate SetEnabled(site: Site, z: ZoneSet) {
    z.zoneSetId in site.zoneSetEnabled && site.zoneSetEnabled[z.zoneSetId]
  }

  /** At most one zone set of the map is ENABLED. */
  ghost predicate OneSetEnabled(site: Site, mapId: string) {
    forall y, z :: y in site.zoneSets && z in site.zoneSets ==>
      y.mapId == z.mapId == mapId && SetEnabled(site, y) && SetEnabled(site, z) ==> y.zoneSetId == z.zoneSetId
  }

  predicate OnMap(sets: seq<ZoneSet>, mapId: string, id: string) {
    exists z :: z in sets && z.mapId == mapId && z.zoneSetId == id
  }

  /** Of the sets of one map exactly the named one is left ENABLED; all others keep their flags. */
  lemma {:induction false} EnabledAmong(sets: seq<ZoneSet>, mapId: string, id: string, flags: map<string, bool>)
    ensures var r := EnableAmong(sets, mapId, id, flags);
            && (forall k :: k in r <==> k in flags || OnMap(sets, mapId, k))
            && (forall k :: k in r ==> r[k] == if OnMap(sets, mapId, k) then k == id else flags[k])
    decreases |sets|
  {
    hide OnMap;
    NoneOnMap(mapId);
    if sets != [] {
      var next := if sets[0].mapId == mapId then flags[sets[0].zoneSetId := sets[0].zoneSetId == id] else flags;
      EnabledAmong(sets[1..], mapId, id, next);
      OnMapSplits(sets, mapId);
      var r := EnableAmong(sets, mapId, id, flags);
      assert r == EnableAmong(sets[1..], mapId, id, next);
      forall k
        ensures k in r <==> k in flags || OnMap(sets, mapId, k)
        ensures k in r ==> r[k] == if OnMap(sets, mapId, k) then k == id else flags[k]
      {
        assert k in next <==> k in flags || (sets[0].mapId == mapId && sets[0].zoneSetId == k);
        assert k in next ==> next[k] == if sets[0].mapId == mapId && sets[0].zoneSetId == k then k == id else flags[k];
      }
    }
  }

  lemma NoneOnMap(mapId: string)
    ensures forall id :: !OnMap([], mapId, id)
  {
  }

  lemma OnMapSplits(sets: seq<ZoneSet>, mapId: string)
    requires sets != []
    ensures forall id :: OnMap(sets, mapId, id) <==>
              (sets[0].mapId == mapId && sets[0].zoneSetId == id) || OnMap(sets[1..], mapId, id)
  {
    assert forall z :: z in sets <==> z == sets[0] || z in sets[1..];
  }

  /** A completed enableZoneSet leaves exactly the named set of its map ENABLED; an unknown set
      fails and changes nothing. */
  lemma EnablingLeavesOneEnabled(s: Robot, a: Action)
    requires a.kind.EnableZoneSet?
    ensures var r, id := ApplyEffect(s, a), Text(a, "zoneSetId");
            if HasZoneSet(s.site.zoneSets, id) then
              exists z :: z in s.site.zoneSets && z.zoneSetId == id && r.ok && OneSetEnabled(r.robot.site, z.mapId)
                          && SetEnabled(r.robot.site, z) && r.robot.site.zoneSets == s.site.zoneSets
            else !r.ok && r.robot == s
  {
    hide Text;
    var id := Text(a, "zoneSetId");
    var i := FirstIndex(s.site.zoneSets, (z: ZoneSet) => z.zoneSetId == id);
    if i < |s.site.zoneSets| {
      var z := s.site.zoneSets[i];
      EnabledAmong(s.site.zoneSets, z.mapId, id, s.site.zoneSetEnabled);
      assert z in s.site.zoneSets && OnMap(s.site.zoneSets, z.mapId, id);
      var r := ApplyEffect(s, a).robot.site;
      forall y | y in r.zoneSets && y.mapId == z.mapId && SetEnabled(r, y) ensures y.zoneSetId == id {
        assert OnMap(s.site.zoneSets, z.mapId, y.zoneSetId);
      }
    }
  }

  /** A pushed zone set is ENABLED beside its siblings: at most one of its map is ENABLED
      afterwards exactly if none was before. */
  lemma PushKeepsOneEnabledIff(s: Robot, z: ZoneSet)
    requires !HasZoneSet(s.site.zoneSets, z.zoneSetId)
    ensures OneSetEnabled(HandleZoneSet(s, z).site, z.mapId)
       <==> forall y :: y in s.site.zoneSets && y.mapId == z.mapId ==> !SetEnabled(s.site, y)
  {
    var r := HandleZoneSet(s, z).site;
    assert z in r.zoneSets && SetEnabled(r, z);
    forall y | y in s.site.zoneSets ensures y in r.zoneSets && (SetEnabled(r, y) <==> SetEnabled(s.site, y)) {
    }
  }
}
