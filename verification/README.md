# A verified model of one simulated VDA5050 robot

The repository simulates a fleet of mobile robots that speak VDA5050 3.0.0. This project models
one robot of it: the state machine `SimulatedAgv` of `src/vda5050_sim/agv.py`, the part of
`src/vda5050_sim/fleet.py` that feeds it messages and ticks, and the action vocabulary of
`src/vda5050_sim/action_catalog.py`. A robot takes orders (a graph of nodes and edges with
actions), instant actions, zone sets and the answers of traffic control; a periodic tick advances
every action on a pausable clock, lets leases lapse, fires zone actions and moves the robot along
the graph as far as releases, actions, corridors, zones and faults allow.

## How it is built

- `Vda5050`, `ActionCatalog`, `Platform`: the messages, the predefined actions, and what a robot is
  built with. `pi`, `hypot`, `atan2` and timestamp parsing belong to the `World`; lemmas that need
  them assume that `hypot` is the non-negative root (`HypotLaw`) and that `atan2` ignores scaling
  (`Atan2Law`).
- `RobotState`: the whole state of a robot as one value, and what every message, tick and fault
  does to it, branch by branch. History variables record what cannot be read off the state, such
  as the odometer or the effects applied; nothing depends on them.
- `SimulatedAgv`, `Fleet`: the same as a class whose methods update fields in place with the
  program's loops, and the runtime around it. Each method is proved to do to the whole state exactly
  what `RobotState` says, so every property below is one of the methods.
- `Transitions`: every message, tick and fault round is a succession of guarded operations;
  `RunInduction` turns "every enabled operation keeps it" into "it holds on every run".
- The other files prove the properties, one subject each. `Reachable` collects the invariants
  for every state reachable from power-on.

An event is atomic: handlers run to completion, and a beat is a tick followed at once by a fault
round. Time, random draws and parsed timestamps are inputs, so every statement holds for all of them.

## Where the code differs from its own descriptions

- `_angle_diff` is described as returning values in (-pi, pi]; the code returns [-pi, pi)
  (`Heading.AngleDiffRange`).
- A comment in `src/vda5050_sim/schemas.py:531-535` says that eight zone types have no effect; the
  code gives BLOCKED, SPEED_LIMIT, DIRECTED, BIDIRECTED and ACTION one, and the model follows it.
- An update that restates nodes already left behind is accepted, and the order then never ends
  (`Traversal.StaleOrderNeverEnds`, `Traversal.RestatedRouteNeverEnds`). For contiguous graphs that is
  exactly the case in which a node other than the first carries the sequence id reached last
  (`Traversal.StaleOrPositioned`, `Traversal.AcceptedIsTidy`); whether the other orders end depends on
  speeds, gates and legs (`Arrival.SentOrderArrives`, `Legs.LegArrivesIffSettles`).
- Pre-rotation to a tangential orientation never ends within a nanometre of the node, because the
  heading then falls back to the robot's own (`Legs.PreRotationEndsIffAnchored`,
  `Legs.CrabwiseOnTheSpotTurnsForever`). A leg at constant speed is therefore completed if and only if
  its orientation is steady or no step on the way ends there (`Legs.LegArrivesIffSettles`).
- Redelivery of the current order is ignored exactly if the order has a non-empty id or the robot
  hibernates (`OrderRules.RedeliveryIgnored`).
- A pending cancelOrder can clear an order it was not meant for: it ends its own order if and only if,
  before the tick that carries it out, no message is taken as a new order and no startHibernation finds
  the robot awake (`Cancellation.CancelEndsItsOwnOrderIff`; two ways to the wrong order are
  `Cancellation.HibernationMisleadsCancellation` and `Cancellation.TriggerMisleadsCancellation`).
- Actions start on the first active tick wherever the robot is (`Timers.NeverLate`); the model
  does not claim that an action runs only at its node.
- The scope of an order action is judged when its id is first met. An update that moves a live action
  from a node to an edge, or back, leaves it live even where the catalog does not allow it there; all
  live actions are accepted for an owner they have in the present order exactly if no update does that
  (`Registration.UpdateConformsIff`, `Registration.MovedActionStaysLive`).

## Model

| member | source | states |
|---|---|---|
| Arrival.SentOrderArrives | src/vda5050_sim/agv.py:336-411 | Liveness from the message on: a fully released, ungated, contiguous order of timed actions, sent to a ready robot, is taken and carried out within a number of beats computed from the order and the robot's place; then the robot is idle, every node has been left behind, and the odometer has grown by exactly the length of the route |
| Arrival.FullyReleasedOrderArrives | src/vda5050_sim/agv.py:1224-1307 | The same from any state underway, in mid-leg and with actions running: idle within the budget, and still idle after any further beats |
| Arrival.BeatAdvances | src/vda5050_sim/agv.py:1224-1307 | One undisturbed beat keeps the scenario, never lengthens what is left of the road, and shortens it once the actions are settled |
| Arrival.CountsDown | src/vda5050_sim/agv.py:1067-1085 | The sum of ticks left for actions and for the road falls with every beat until the robot is idle |
| Cruising.PreparationSweeps | src/vda5050_sim/agv.py:1081-1085 | On a site whose zones ask for nothing, the sweep of a tick changes nothing that movement depends on, and leaves no registered action waiting or overdue |
| Progress.ProgressOrCause | src/vda5050_sim/agv.py:1251-1307 | On any graph, exactly when the movement part makes progress: it leaves the current node behind, turns by a full tick's turn, or drives nearer by what the least of all speed limits there allows in a full tick, if and only if no unfinished action other than of type NONE, no field violation and no emergency stop delays it, edge and node are released, all gates are open and it does not spin; otherwise it waits where it is and shows the cause: such an action or fault, an unreleased edge or node or a zone that is BLOCKED or entered the wrong way, with the wish for a new base, or a request of this leg not GRANTED. Without a node behind the edge it waits for a new base; without an edge it leaves the node unless delayed |
| Progress.ActiveTickProgress | src/vda5050_sim/agv.py:1224-1307 | The same for every active tick |
| Blocking.UnfinishedActionsHold | src/vda5050_sim/agv.py:1087-1113 | Both ways: if the current node or its edge has an action, or there is an instant action, of blocking type other than NONE whose entry is neither FINISHED nor FAILED, or a field violation or emergency stop stands, the movement part halts and changes nothing else; otherwise it proceeds |
| Blocking.HeldBeatStands | src/vda5050_sim/agv.py:1261-1269 | On every run a beat that finds such an action covers no distance and leaves no node |
| Speed.SpeedIsSlowest | src/vda5050_sim/agv.py:1149-1160 | The speed of a step is the least of the robot's own, the edge's maximum, and that of every SPEED_LIMIT zone of the current map around the robot |
| Speed.StepWithinBounds | src/vda5050_sim/agv.py:1149-1184 | No step is longer than any of these allows in the tick, but for the last micrometre at the node; one that neither arrives nor turns is exactly as long as the least allows |
| Speed.BeatWithinBounds | src/vda5050_sim/agv.py:1302-1305 | On every run no beat adds more to the odometer than any of these allows |
| Speed.NeverFaster | src/vda5050_sim/agv.py:1302-1305 | Over every run the odometer grows by no more than the robot's own speed allows in all beats together |
| Steps.StepOutcome | src/vda5050_sim/agv.py:1141-1185 | A step turns on the spot if told to reach its orientation first and more than two degrees off it, else arrives if the node is within reach or within a micrometre, else goes exactly a step of the straight way; heading, map and recorded distance are told in each case |
| Steps.DriveOutcome | src/vda5050_sim/agv.py:1187-1194 | A drive pays battery, odometer and distance since the last node; on arrival the robot is at the next node, and exactly the node and the edge left are gone from the graph |
| Steps.LeavingOutcome | src/vda5050_sim/agv.py:1271-1281 | Without an edge ahead the robot is at its current node, which leaves the graph |
| Steps.SinceNodeFollowsOdometer | src/vda5050_sim/agv.py:1302-1305 | On every run, while no node is left behind and the graph stays, the distance since the last node grows with the odometer |
| Steps.BatteryOfTick | src/vda5050_sim/agv.py:1204-1210 | A tick leaves the battery charged by its time, if charging and not full, less what the distance added to the odometer costs; a hibernating robot's is left alone |
| Steps.AsksForBaseIff | src/vda5050_sim/agv.py:1196-1202 | A new base is asked for exactly if it was before, or no more released nodes are left than the horizon |
| Legs.LegArrivesIffSettles | src/vda5050_sim/agv.py:1141-1185 | At constant speed a leg is ever completed if and only if its orientation is steady or no step made on the way ends within a nanometre of the node |
| Legs.LegProgress | src/vda5050_sim/agv.py:1141-1185 | A step on a leg that settles arrives, or leaves a leg that settles and takes a tick less |
| Legs.PreRotationEndsIffAnchored | src/vda5050_sim/agv.py:1162-1168 | Pre-rotation happens on the spot; it ends within error / (omega dt) ticks, rounded up, if its target heading stands still, and never otherwise |
| Legs.CrabwiseOnTheSpotTurnsForever | src/vda5050_sim/agv.py:1148-1167 | A concrete pre-rotation that never ends |
| Legs.TurningTick | src/vda5050_sim/agv.py:1162-1167 | A turning tick does not move the robot and takes exactly min(error, omega dt) off the error, or, unanchored, nothing |
| Traversal.GraphIsConsumedInOrder | src/vda5050_sim/agv.py:1119-1194 | On every run until the graph is replaced or cleared, what remains is exactly the suffix of the accepted graph after as many nodes and edges as were left behind, and the robot is at its first node |
| Traversal.AcceptedIsTidy | src/vda5050_sim/agv.py:385-396 | Exactly which contiguous orders start that way |
| Traversal.StaleOrderNeverEnds | src/vda5050_sim/agv.py:1119-1194 | If the graph still holds the node before the current one and the edge between, the robot is never idle again on any run until the graph is replaced or cleared |
| Traversal.StaleOrPositioned | src/vda5050_sim/agv.py:1125-1129 | For contiguous graphs this is exactly the complement of the condition above |
| Traversal.RestatedRouteNeverEnds | src/vda5050_sim/agv.py:385-390 | A concrete update that is accepted and never ends |
| Behind.NothingLeftBehind | src/vda5050_sim/agv.py:1052-1057 | On every run, told by the kept order: if its graph was tidy when taken, every entry of an action of the nodes and edges before the current leg whose registered blocking type is not NONE is FINISHED or FAILED, whatever was paused, broken, retried or updated meanwhile |
| Behind.LeavesFinished | src/vda5050_sim/agv.py:1087-1098 | Whatever the graph, on the node and the edge a move leaves behind all actions of a type other than NONE are FINISHED or FAILED |
| Traversal.NothingUnfinishedBehind | src/vda5050_sim/agv.py:1052-1057 | The same over the recorded actions of the owners left behind, on any graph: all of a type other than NONE are FINISHED or FAILED, order entries have distinct ids, and PAUSED exists only while paused |
| Traversal.HoldersAreSettled | src/vda5050_sim/agv.py:1087-1098 | Although the blocking test ignores PAUSED, an unpaused robot it lets go has every action of the owner, but those of type NONE, FINISHED or FAILED |
| Motion.OdometerTelescopes | src/vda5050_sim/agv.py:1141-1185 | On every run without repositioning, distance driven plus distance to go along the graph is constant, whatever stops and resumes the robot |
| Motion.WholeOrderAccounts | src/vda5050_sim/agv.py:1302-1307 | Over a whole order the odometer grows by the length of the polyline, and without charging the battery ends at max(0, start - drain * length) |
| Motion.BatteryAccounts | src/vda5050_sim/agv.py:1204-1210 | On every run the battery stays in [0, 100]; between charges it is what the distance leaves of it, despite clamping at every step |
| Motion.StepConserves | src/vda5050_sim/agv.py:1143-1185 | The recorded step is the displacement, and distance before is step plus distance after |
| TrafficControl.DrivesOnlyOnStandingGrants | src/vda5050_sim/agv.py:858-966 | Grant safety on every run: a beat that drives has edge and node released; every required corridor, and every RELEASE or COORDINATED_REPLANNING zone around the node under the first zone set that holds it, has a request whose last answer other than QUEUED since the order was taken was GRANTED and whose lease last answered, if readable, has not come; and no zone there is BLOCKED or entered more than 45 degrees off its binding direction |
| TrafficControl.GrantsAlwaysHonest | src/vda5050_sim/agv.py:858-881 | On every run a request is GRANTED only if the last answer to it other than QUEUED, since the order was taken, was GRANTED, and the leases in force are the last ones answered to known requests |
| TrafficControl.GrantsAlwaysStand | src/vda5050_sim/agv.py:858-899 | And liveness: on every run of one order a request keeps its place; and once it has been told so, by an answer since it was made or for want of any before, it is GRANTED exactly while the last answer to it other than QUEUED was GRANTED and its lease has not fallen due since |
| TrafficControl.GrantTakes | src/vda5050_sim/agv.py:858-881 | A GRANTED answer makes every request of its id GRANTED at once |
| TrafficControl.ResponseOutcome | src/vda5050_sim/agv.py:858-881 | A response changes exactly the requests of its id, GRANTED, or revoked by REVOKED and REJECTED, or not at all by QUEUED, and stores its lease if it is not empty and such a request is there |
| TrafficControl.LeaseOutcome | src/vda5050_sim/agv.py:883-899 | A lease check expires exactly the GRANTED requests whose stored lease is readable and has come |
| Requests.NewOrderNeedsNewGrants | src/vda5050_sim/agv.py:391-396 | Told by messages: from a new order on, no beat of any run drives along an edge that requires release, or towards a node in an access zone, unless a response after the order has granted it |
| Requests.AlwaysAskedOnce | src/vda5050_sim/agv.py:901-943 | On every run no corridor, and no zone of a set, is asked for twice within an order, and every request carries the id made of its name |
| Requests.AskingAdds | src/vda5050_sim/agv.py:907-943 | What asking adds is one REQUESTED request, for replanning in a COORDINATED_REPLANNING zone and else for access |
| TrafficControl.LostCorridorStops | src/vda5050_sim/agv.py:883-918 | A corridor request revoked, or whose lease falls due, stops the robot at the next tick, mid-edge too |
| TrafficControl.LostAccessStops | src/vda5050_sim/agv.py:883-943 | So does a zone-access request, for any zone still around the next node |
| TrafficControl.MovingTick | src/vda5050_sim/agv.py:1224-1307 | A tick that adds to the odometer starts free to move, with all gates open, and is exactly the drive along the current leg |
| TrafficControl.StoppedRobotStands | src/vda5050_sim/agv.py:1224-1274 | Across any interval of hibernation, pause, other operating modes, field violation, emergency stop or pending cancellation the odometer stands still, whatever messages come |
| TrafficControl.MessagesStand | src/vda5050_sim/fleet.py:145-155 | Messages alone never drive or reposition the robot, fire zone actions or use up action time |
| Transitions.GatesHold | src/vda5050_sim/agv.py:901-966 | The gates hold exactly when the required corridor is not GRANTED, or a zone around the node is BLOCKED, lacks the access it requires, or is entered the wrong way; when they do not hold, nothing new is asked for |
| Transitions.ZoneGatesHold | src/vda5050_sim/agv.py:920-964 | The same for the zones ahead, in whatever order they are met |
| Transitions.AgainstIsWrongWay | src/vda5050_sim/agv.py:948-966 | A zone stops the robot for its direction exactly if it is DIRECTED or BIDIRECTED, has a direction, binds strictly or as restricted, and no whole turn brings the direction from robot to node within 45 degrees of it, nor, if BIDIRECTED, of its opposite |
| Transitions.WithAndAgainst | src/vda5050_sim/agv.py:948-957 | Wherever the robot is on its way: with the direction of a zone it is never stopped, against that of a binding DIRECTED zone always, and a BIDIRECTED one lets both pass |
| Transitions.RunInduction | src/vda5050_sim/fleet.py:169-177 | Every message, tick and fault round is made of guarded operations: what each keeps, every run keeps |
| Polygon.PointInPolygon | src/vda5050_sim/agv.py:90-103 | The loop computes the parity of the polygon's edges that the ray to the right crosses |
| Polygon.RotationKeepsVerdict | src/vda5050_sim/agv.py:90-103 | The verdict does not depend on which vertex is written first |
| Polygon.ReversalKeepsVerdict | src/vda5050_sim/agv.py:90-103 | Nor on the sense of rotation |
| Polygon.ChordSplitsVerdict | src/vda5050_sim/agv.py:90-103 | Cut along a chord, the verdict is the exclusive-or of those of the two parts |
| Polygon.OutsideBoundingBox | src/vda5050_sim/agv.py:90-103 | No point strictly outside the bounding box is inside |
| Polygon.RectangleIsHalfOpenBox | src/vda5050_sim/agv.py:90-103 | On an axis-parallel rectangle the verdict is the half-open box test |
| Heading.AngleDiffRange | src/vda5050_sim/agv.py:85-87 | The difference is congruent to target - current modulo 2 pi and lies in [-pi, pi) |
| Heading.AngleDiffUnique | src/vda5050_sim/agv.py:85-87 | It is the only such number |
| Heading.RotationStep | src/vda5050_sim/agv.py:1162-1167 | A clamped turn never overshoots: the error shrinks by the limit, or vanishes, and keeps its sign |
| Heading.BidirectedIsAnAxis | src/vda5050_sim/agv.py:986-992 | A BIDIRECTED zone refuses exactly the headings more than 45 degrees off its axis; turning heading or direction by pi, or by whole turns, changes nothing |
| Heading.BidirectedRefusesLess | src/vda5050_sim/agv.py:986-992 | What BIDIRECTED refuses, DIRECTED of the same direction refuses, both ways |
| Heading.ViolatedIffAside | src/vda5050_sim/agv.py:986-992 | A direction is violated exactly if no whole turn brings the heading within 45 degrees of it, nor, if BIDIRECTED, of the opposite one |
| Lifecycle.EntryOrigin | src/vda5050_sim/agv.py:1067-1079 | The status automaton: every entry after any operation is new or comes from one of the same track, id and type by a permitted change; order entries keep their places |
| Lifecycle.EntryFate | src/vda5050_sim/agv.py:1067-1079 | The automaton forwards: every live entry survives every operation on its track, its status changed only as permitted, unless its order is renewed or cleared |
| Endings.OrderEntriesLast | src/vda5050_sim/agv.py:594-633 | On every run of one order each terminal entry stays terminal in its place, and each RETRIABLE one stays RETRIABLE unless a retry, skipRetry or trigger acts on that very id |
| Endings.TrackEntriesLast | src/vda5050_sim/agv.py:594-633 | On every run and all three tracks: what is RETRIABLE under an id stays so until that id is commanded, and once all entries under an id have ended none is live again unless one is created |
| Completion.CompletesExactlyOnTime | src/vda5050_sim/agv.py:1067-1085 | The exact timer over runs: after the first active beat has started the waiting entries of a timed id, none takes effect while the active beats since add up to less than the duration, and the first tick that makes it up leaves none of them live, each having taken effect exactly once |
| Timers.NeverBeforeItsTime | src/vda5050_sim/agv.py:1069-1079 | From any state in which the live entries under an id wait, or started no earlier: no effect on any run whose active beats add up to less than the duration, unless the id clashes or is commanded |
| Timers.RetryRestoresBudget | src/vda5050_sim/agv.py:594-602 | From a retry on the same holds with the whole duration, whatever had been used up |
| Completion.NeverAfterItsTime | src/vda5050_sim/agv.py:1081-1085 | From any state in which the live entries under a timed id have started, on every run on which nothing commands or breaks them: the first active tick by which the duration has passed leaves none of them live, and as many effects have been added as entries were pending |
| Timers.FirstActiveBeatStarts | src/vda5050_sim/agv.py:1070-1073 | A beat that finds the robot active starts the timer of all waiting entries, at its own time |
| Timers.NeverLate | src/vda5050_sim/agv.py:1081-1085 | After an active sweep no registered entry waits and none that is due still runs |
| Timers.StartlessRunsOn | src/vda5050_sim/agv.py:1074-1079 | A running entry whose start is not recorded does not complete |
| Timers.TimersAlwaysSound | src/vda5050_sim/agv.py:1067-1079 | On every run start times lie in the past, and no waitForTrigger has taken effect by time |
| Lifecycle.PauseDisciplineHolds | src/vda5050_sim/agv.py:468-476 | On every run PAUSED exists only while the robot is paused, and while it is paused nothing runs but a cancelOrder |
| OrderClock.ClockShowsActiveTime | src/vda5050_sim/agv.py:1233-1243 | On every run the order clock advances by exactly the time of the active beats; pause, other operating modes, hibernation and cancellation consume none |
| Effects.EffectsAtMostOnce | src/vda5050_sim/agv.py:1059-1085 | On every run, across pause, failure, retry, update and cancellation, an id takes effect at most once per entry created for it; pending entries are accounted for |
| Effects.EffectsExactlyOnce | src/vda5050_sim/agv.py:1059-1085 | Its exact counterpart: on every run on which an id is neither commanded nor broken and the order neither renewed nor cleared, effects applied plus entries pending equal entries pending before plus entries created |
| Effects.LoadsConserved | src/vda5050_sim/agv.py:771-781 | On every run the loads are the fold of the picks and drops applied, and their number is picks less successful drops |
| Effects.LoadsAreFifo | src/vda5050_sim/agv.py:771-781 | What is on board is what was ever picked, in order, less the first ones |
| Effects.OneMapVersionEnabled | src/vda5050_sim/agv.py:706-728 | Under any interleaving of downloads, enables and deletes no map has two ENABLED versions |
| Effects.EnablingLeavesOneEnabled | src/vda5050_sim/agv.py:749-758 | A completed enableZoneSet leaves exactly the named set of its map ENABLED; an unknown set fails and changes nothing |
| Effects.PushKeepsOneEnabledIff | src/vda5050_sim/agv.py:840-852 | A pushed zone set is ENABLED beside its siblings: at most one of its map is ENABLED afterwards exactly if none was before |
| SideEffects.EffectOutcome | src/vda5050_sim/agv.py:783-838 | What the effect of each kind does, field by field, and exactly when it succeeds: where initializePosition puts the robot, parameter by parameter; that enableMap leaves the named version ENABLED and its siblings not; what maps, zone sets, loads, charging and entries become |
| SideEffects.CompletionReports | src/vda5050_sim/agv.py:1059-1065 | An entry that completes ends FAILED exactly if a number is unreadable or a map or zone set not there, and FINISHED otherwise |
| SideEffects.SiteAlwaysFollows | src/vda5050_sim/agv.py:706-728 | On every run the maps stored and ENABLED are those that the downloads, enables and deletes which took effect left so, and the robot charges exactly if the last charging action that took effect was a startCharging |
| SideEffects.PushVerdict | src/vda5050_sim/agv.py:840-852 | A pushed zone set is stored behind the others and ENABLED, or, if its id is stored, only reported |
| SideEffects.PublishingTakesErrors | src/vda5050_sim/agv.py:1394-1444 | A published state takes all pending errors with it |
| Registration.AcceptedEntries | src/vda5050_sim/agv.py:397-441 | The entries of an accepted order, exactly: those found (none for a new order), then one for each node action and then one for each edge action of an id not met before, in order, WAITING if catalog and capabilities accept its type in NODE or in EDGE scope respectively and FAILED otherwise; and one error for each FAILED one |
| Registration.NodeActionsInOrder | src/vda5050_sim/agv.py:398-404 | Node actions come owner after owner, in the order of the message |
| Registration.EdgeActionsInOrder | src/vda5050_sim/agv.py:405-410 | So do edge actions |
| Registration.NewOrderEntries | src/vda5050_sim/agv.py:397-441 | With distinct action ids a new order has exactly the verdicts on all its node actions and then on all its edge actions, each in the scope of its owner |
| Registration.UpdateEntries | src/vda5050_sim/agv.py:397-411 | An update leaves all entries it finds and adds the verdicts on the actions it brings anew |
| Registration.OwnersAlwaysHeeded | src/vda5050_sim/agv.py:420-441 | On every run no order action is live, or takes effect under an id that never clashed, unless its type is accepted in the scope of an owner it stood on, in the order that brought it or an update of that; and tracks are respected as below |
| Registration.OnlyOnOneKindOfOwner | src/vda5050_sim/agv.py:420-441 | So a live action that stood on edges alone is accepted in EDGE scope, and one on nodes alone in NODE scope |
| Registration.UpdateConformsIff | src/vda5050_sim/agv.py:397-411 | After an order is taken all live entries are accepted for an owner they have in it, if and only if it is a new order or those found were |
| Registration.MovedActionStaysLive | src/vda5050_sim/agv.py:397-411 | A concrete update after which a startCharging is live on an edge, where it is not allowed |
| Scopes.ScopesAlwaysRespected | src/vda5050_sim/agv.py:420-441 | On every run and all three tracks nothing is live unless the catalog allows its type on that track and its capability is declared; only accepted definitions are registered or take effect, and, under an id that never clashed, only on the track they were accepted for; the owner within an order is in the rows above |
| ActionCatalog.ScopeByScope | src/vda5050_sim/action_catalog.py:61-287 | The catalog read by scope: exactly which types each scope allows |
| ActionCatalog.CapabilitiesAreForWork | src/vda5050_sim/action_catalog.py:298-305 | A capability must be declared exactly for the types not usable as instant actions, and for a manufacturer's own |
| ActionCatalog.VersionsLack | src/vda5050_sim/agv.py:161-188 | Exactly which types each protocol version lacks |
| OrderRules.OrderVerdict | src/vda5050_sim/agv.py:336-383 | An order is taken exactly by the update rule, or, if new, by a robot that stands, has no graph left, and no order action that waits, starts, runs or is paused; a new one starts without requests. Otherwise the robot changes in nothing but map warnings and the one complaint that fits |
| OrderRules.WarnsOfLackingMaps | src/vda5050_sim/agv.py:336-383 | One warning for each map under a node that is not the default and has no ENABLED version, and no other |
| OrderRules.AcceptedOrder | src/vda5050_sim/agv.py:385-396 | An accepted order is active with its whole graph; an update keeps place, requests and entries, a new order starts at no node and without any requests; all its actions are tracked, as `Registration.AcceptedEntries` says in detail |
| OrderRules.RedeliveryIgnored | src/vda5050_sim/agv.py:328-332 | At any point of any run, redelivery of the order last accepted changes nothing but map warnings, exactly if its id is not empty or the robot hibernates |
| OrderRules.SnapshotAlwaysMatches | src/vda5050_sim/agv.py:385-388 | On every run the kept copy of the order carries the active ids |
| OrderRules.UpdateIdsNeverDecrease | src/vda5050_sim/agv.py:351-355 | On every run of one order the update id never decreases, and without an update the order stays the very same |
| OrderRules.InstantVerdict | src/vda5050_sim/agv.py:490-655 | Exactly which instant actions are refused, and with which error: those too new for the protocol version, not of INSTANT scope, not declared, naming no RETRIABLE action (retry, skipRetry), no tracked action and no running waitForTrigger (trigger), a map or zone set already there (downloads), with no order to cancel, or shutting down a busy robot. Each gets one reply: FAILED with that error and nothing else changed; all others are accepted without error, but for those a hibernating robot sleeps through |
| Commands.InstantOutcome | src/vda5050_sim/agv.py:511-655 | What each accepted instant action does, kind by kind and field by field: startPause pauses exactly what runs and stopPause the converse; hibernation is set with its wake-up time and the order gone, or ended; the clearing actions leave exactly what has not ended, in order; retry, skipRetry and trigger change exactly the first entry of the named id, or the oldest waitForTrigger; the timed ones wait, registered; and the last instant entry replies |
| Commands.StartPauseHolds | src/vda5050_sim/agv.py:521-527 | Told by messages: from a startPause to an awake robot until a stopPause, on every run, no distance is covered, no action time used up and nothing takes effect |
| Commands.PausedUntilResumed | src/vda5050_sim/agv.py:1237-1241 | So stays every paused robot |
| Commands.LastParameterCounts | src/vda5050_sim/agv.py:511-511 | Of parameters with equal keys the last counts |
| Cancellation.CancelEndsItsOwnOrderIff | src/vda5050_sim/agv.py:511-518 | A cancellation pending at the end of a run clears its own order at the next awake tick if and only if meanwhile no message was taken as a new order and no startHibernation found the robot awake; otherwise it clears none, or the last order taken |
| Cancellation.HibernationMisleadsCancellation | src/vda5050_sim/agv.py:666-688 | A concrete run with hibernation in which it clears the next order |
| Cancellation.TriggerMisleadsCancellation | src/vda5050_sim/agv.py:618-633 | A concrete run without hibernation in which it clears the next order |
| Cancellation.CancelClearsOrder | src/vda5050_sim/agv.py:680-688 | The next tick of an awake robot carries a pending cancellation out, paused or not: no order, graph, order action or request left, idle, on the spot, and the cancelOrder's own entry FINISHED |
| Cancellation.PendingCancelWaits | src/vda5050_sim/agv.py:1233-1235 | Until then nothing drops it |
| Cancellation.CancelledActionsStayUndone | src/vda5050_sim/agv.py:666-688 | After that no action of the cancelled order takes effect on any run, unless sent anew |
| OrderRules.HibernationFreezes | src/vda5050_sim/agv.py:336-341 | On every run without stopHibernation and before the wake-up time a hibernating robot takes no order, starts, advances and completes nothing, and does not move |
| OrderRules.WakesOnTime | src/vda5050_sim/agv.py:1212-1222 | A tick wakes a hibernating robot exactly if a readable wake-up time has come, and changes nothing else |
| Faults.EpisodesBounded | src/vda5050_sim/agv.py:1316-1350 | On every run each injected episode stands until its time is up on the fault clock and is over before the next begins |
| Faults.EpisodeLength | src/vda5050_sim/agv.py:1316-1365 | An episode that ends lasted its duration, and less than one round longer |
| Faults.DrawsStrike | src/vda5050_sim/agv.py:1316-1350 | Each draw strikes exactly its own fault, for one, two and one and a half seconds |
| Faults.FailureOutcome | src/vda5050_sim/agv.py:1352-1386 | A drawn failure makes the first running retriable entry RETRIABLE, or FAILED before version 3; without one it reports a hardware fault |
| Zones.ZoneActionsFireExactly | src/vda5050_sim/agv.py:994-1009 | An active tick starts exactly the accepted, not yet registered actions of zones entered and left, each once, and notes the zones it is in; other ticks start none |
| Zones.ZoneActionsFireOnce | src/vda5050_sim/agv.py:1011-1039 | On every run no zone action id is started twice, even after clearZoneActions |
| Zones.ZonesAtMembers | src/vda5050_sim/agv.py:974-984 | The zones around a point are those of any set of the current map whose polygon contains it |
| Zones.ActionZonesMembers | src/vda5050_sim/agv.py:998-998 | With distinct zone ids, the zones kept are exactly the ACTION ones |
| Zones.PresentZonesAre | src/vda5050_sim/agv.py:998-998 | The ACTION zones a tick finds are those of any set of the current map that contain the robot, the last of each id |
| Zones.ZoneVerdict | src/vda5050_sim/agv.py:1011-1039 | What becomes of one zone action: nothing if registered, else WAITING or FAILED by catalog and capabilities |
| Journeys.JourneysAccounted | src/vda5050_sim/agv.py:385-411 | On every run, whatever was updated, stopped or charged: if the graph was tidy when taken, what remains is exactly the suffix of the kept order's graph after the legs driven, and distance driven since plus distance to go is the length of the way; and since the last charge the battery is what the distance left of it |
| Reachable.EveryReachableStateIsSafe | src/vda5050_sim/agv.py:191-307 | In every state reachable from power-on together: pause discipline, start times, scopes of tracks and owners, loads, maps, charging, zone ids, snapshot, nothing unfinished behind, honest grants, requests made once, one enabled map version, battery range, fault episodes, the accounts of graph, distance and energy, and effects at most once |
| Fleet.RobotRuntime.Serve | src/vda5050_sim/fleet.py:169-177 | The runtime's state is that of the run over the events served, and it stops only at the first beat after which a shutdown is requested |
| Fleet.RobotRuntime.Deliver | src/vda5050_sim/fleet.py:145-155 | Each event is handed to its handler; zone sets only to version 3 robots |
| Fleet.RobotRuntime.MovementStep | src/vda5050_sim/fleet.py:169-177 | One round of the movement loop is one beat |
| SimulatedAgv.SimulatedAgv.AcceptOrder | src/vda5050_sim/agv.py:385-411 | Registering nodes' then edges' actions not yet known gives the specified state |
| SimulatedAgv.SimulatedAgv.AdvanceAllPending | src/vda5050_sim/agv.py:1081-1085 | The sweep over the three tracks, although effects may remove entries on the way |
| SimulatedAgv.SimulatedAgv.ApplyResponse | src/vda5050_sim/agv.py:858-881 | Every request with the id takes the answer and its lease |
| SimulatedAgv.SimulatedAgv.CheckAccessGates | src/vda5050_sim/agv.py:901-966 | Requests made and hold, for corridor and all zones ahead |
| SimulatedAgv.SimulatedAgv.UpdateZoneActionEntries | src/vda5050_sim/agv.py:994-1009 | Entry and during actions of zones entered, then exit actions of zones left |
| SimulatedAgv.SimulatedAgv.Tick | src/vda5050_sim/agv.py:1224-1307 | A tick does to the whole state what the specification says |

## Left out

- Arrival.FullyReleasedOrderArrives: assumes a constant tick, no faults and no messages in between, a least positive speed, zones that ask for nothing, and actions that end by their timer where the robot is: orders with waitForTrigger, which waits for a command, or initializePosition, which puts the robot elsewhere, are not covered; a leg whose pre-rotation is not steady must land (`Legs.LegArrivesIffSettles` says why) and needs a site without SPEED_LIMIT zones, where its step is constant.
- Behind.NothingLeftBehind: speaks of tidy graphs, where the legs driven tell the owners behind, and of ids that have not clashed, since a redefinition under the same id can change whether an action holds; `Traversal.NothingUnfinishedBehind` needs neither.
- Traversal.GraphIsConsumedInOrder: assumes contiguous sequence ids; for other graphs the code looks for the next ids by number and asks for a new base.
- Scopes.ScopesAlwaysRespected: the claim about the track an effect belongs to is made for ids that have never been given to an entry while another live entry carried or could claim them, since the registry is keyed by id alone; the other claims need nothing.
- Cancellation.CancelledActionsStayUndone: needs that no live instant or zone entry shares the id, for the same reason; it says nothing of the cancelOrder's own entry, which a second cancelOrder or a pause can leave unfinished.
- Completion.CompletesExactlyOnTime: holds for ids that do not clash, for the same reason, and as long as no further entry is created or broken under the id; a command to the entry starts the count afresh (`Timers.RetryRestoresBudget`).
- Zones.ActionZonesMembers: needs distinct zone ids; `Zones.PresentZonesAre` says what is kept of equal ones.
- Effects.OneMapVersionEnabled: has no counterpart for zone sets on all runs, because a pushed zone set is ENABLED beside its siblings; `Effects.PushKeepsOneEnabledIff` says exactly when that breaks it.
- Floating-point arithmetic: numbers are reals, so rounding is not modelled.
- The fields of the class: the program's attributes are grouped in seven records, each a field that the methods reassign, and methods that only repeat the branches of their specification have no row above; searches for the first fitting element are the function `FirstIndex`.
- Aliasing: action states, requests and zones are values, so a state message that shares them with the robot is not modelled; a sweep follows entries by index where the program holds references.
- Wall clock and randomness: the present time and the draws are inputs; probabilities are not modelled.
- Text: log lines, results and descriptions are left out, and pending errors are a multiset of kinds.
- Versions: protocol versions are pairs of numbers; parsing version strings is left out.
- Parameters: a parameter carries its text, its numeric reading and its truth value; Python's conversions are not modelled.
- Order content: orders are compared on the modelled fields; trajectories, descriptors and tolerances are not among them.
- Publishing, connection, visualization and factsheet loops, header ids, transports, configuration, UI and debug routes: input and output around the core.
- Message validation and the wire shapes of older protocol versions: library-driven checks and renaming.
- PRIORITY, PENALTY and LINE_GUIDED zones: the code gives them no behaviour; they are stored like any other.
- Velocity, certificates and downloaded contents: simulated as constants in the program.
