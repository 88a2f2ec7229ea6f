/** Every state a robot can reach from power-on, whatever is sent to it and whatever strikes it. */
module Reachable {
  import opened Platform
  import opened RobotState
  import opened Transitions
  import opened Lifecycle
  import opened Timers
  import opened Effects
  import opened Registration
  import opened OrderRules
  import opened TrafficControl
  import opened Traversal
  import opened Behind
  import opened Requests
  import opened SideEffects
  import opened Zones
  import Motion
  import Faults
  import Journeys

  /** What holds of the actions: pausing, timers, scopes and owners, loads, maps, charging and zone ids. */
  ghost predicate ActionsSafe(w: World, s: Robot) {
    PauseDiscipline(s) && TimersSound(s) && OwnersHeeded(w, s) && LoadsAccounted(s) && SiteFollows(s)
    && ZoneIdsOnce(s)
  }

  /** What holds of the order, the site and the traffic: snapshot, owners left behind, grants, requests, maps. */
  ghost predicate OrderSafe(s: Robot) {
    SnapshotMatches(s) && LeavesNothing(s) && NothingLeft(s) && GrantsHonest(s) && AskedOnce(s)
    && OneVersionEnabled(s.site.maps)
  }

  /** What holds of the machine: battery, faults, and the accounts of graph, distance and energy. */
  ghost predicate MachineSafe(w: World, s: Robot) {
    Motion.BatteryInRange(s) && Faults.EpisodesCurrent(s) && Journeys.Accounted(w, s)
  }

  lemma PowerOnIsSafe(w: World, x: real, y: real, theta: real, battery: real)
    requires 0.0 <= battery <= 100.0
    ensures var s := Initial(x, y, theta, battery);
            ActionsSafe(w, s) && OrderSafe(s) && MachineSafe(w, s)
  {
  }

  /** All of it holds in every reachable state, after every sequence of messages, beats, faults and
      published states; and no id has taken effect more often than entries were created for it. */
  lemma EveryReachableStateIsSafe(w: World, x: real, y: real, theta: real, battery: real, events: seq<Event>,
                                  id: string)
    requires HypotLaw(w) && 0.0 <= battery <= 100.0 && 0.0 <= w.cfg.drainPerMeter && 0.0 <= w.cfg.chargePerSecond
    ensures var r := Run(w, Initial(x, y, theta, battery), events);
            && ActionsSafe(w, r) && OrderSafe(r) && MachineSafe(w, r)
            && EffectCount(r.hist.actions.effects, id) + Pending(r.book, id) <= SpawnCount(r.hist.actions.spawned, id)
  {
    hide Run, PauseDiscipline, TimersSound, OwnersHeeded, LoadsAccounted, ZoneIdsOnce, SnapshotMatches,
      LeavesNothing, NothingLeft, SiteFollows, AskedOnce, GrantsHonest, OneVersionEnabled, Motion.BatteryInRange,
      Faults.EpisodesCurrent, Journeys.Accounted, HypotLaw;
    var s := Initial(x, y, theta, battery);
    PowerOnIsSafe(w, x, y, theta, battery);
    PauseDisciplineHolds(w, s, events);
    TimersAlwaysSound(w, s, events);
    OwnersAlwaysHeeded(w, s, events);
    LoadsConserved(w, s, events);
    ZoneActionsFireOnce(w, s, events);
    SnapshotAlwaysMatches(w, s, events);
    NothingUnfinishedBehind(w, s, events);
    NothingLeftBehind(w, s, events);
    GrantsAlwaysHonest(w, s, events);
    AlwaysAskedOnce(w, s, events);
    SiteAlwaysFollows(w, s, events);
    OneMapVersionEnabled(w, s, events);
    Motion.BatteryAccounts(w, s, events);
    Faults.EpisodesBounded(w, s, events);
    Journeys.JourneysAccounted(w, s, events);
    EffectsAtMostOnce(w, s, events, id);
  }
}
