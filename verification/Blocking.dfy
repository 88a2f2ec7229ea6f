/** What holds the movement: an unfinished action on the current node or its edge, or an unfinished
    instant action, unless its blocking type is NONE; a field violation; an emergency stop. */
module Blocking {
  import opened Vda5050
  import opened Platform
  import opened RobotState
  import opened Transitions
  import opened Lifecycle
  import opened Traversal
  import opened TrafficControl
  import TickFrames
  import Registration

  /** Whether an action with this id stands on the node or the edge. */
  predicate StandsHere(id: string, at: Node, edge: Option<Edge>) {
    (exists a :: a in at.actions && a.id == id) || (edge.Some? && exists a :: a in edge.value.actions && a.id == id)
  }

  /** Whether the entry's action is of a type other than NONE and is neither ended nor paused. */
  predicate Delays(b: Book, e: Entry) {
    && e.id in b.registry && b.registry[e.id].blocking != NoBlocking
    && e.status != Finished && e.status != Failed && e.status != Paused
  }

  /** Whether the entry is the first of its id. */
  predicate IsFirst(es: seq<Entry>, i: nat)
    requires i < |es|
  {
    forall k: nat :: k < i ==> es[k].id != es[i].id
  }

  predicate OrderDelays(b: Book, at: Node, edge: Option<Edge>) {
    exists i: nat :: i < |b.order| && IsFirst(b.order, i) && StandsHere(b.order[i].id, at, edge)
                     && Delays(b, b.order[i])
  }

  predicate InstantDelays(b: Book) {
    exists e :: e in b.instant && Delays(b, e)
  }

  predicate Stopped(f: Faults) { f.fieldViolation || f.stop != NoStop }

  /** Whether something holds a robot that is at the node and has the edge ahead. */
  predicate Delayed(s: Robot, at: Node, edge: Option<Edge>) {
    OrderDelays(s.book, at, edge) || InstantDelays(s.book) || Stopped(s.faults)
  }

  lemma OwnersStandHere(id: string, at: Node, edge: Option<Edge>)
    ensures id in OwnerActions(at, edge) <==> StandsHere(id, at, edge)
  {
    ListedIds(at.actions, id);
    if edge.Some? { ListedIds(edge.value.actions, id); }
  }

  lemma ListedIds(actions: seq<Action>, id: string)
    ensures id in ActionIds(actions) <==> exists a :: a in actions && a.id == id
  {
    if a :| a in actions && a.id == id {
      var i :| 0 <= i < |actions| && actions[i] == a;
      assert ActionIds(actions)[i] == id;
    }
  }

  lemma FirstOfId(b: Book, id: string)
    ensures Holding(b, id) <==> exists i: nat :: i < |b.order| && IsFirst(b.order, i) && b.order[i].id == id
                                                 && Delays(b, b.order[i])
  {
    var j := FirstIndex(b.order, (e: Entry) => e.id == id);
    if Holding(b, id) {
      assert IsFirst(b.order, j);
    }
    if i: nat :| i < |b.order| && IsFirst(b.order, i) && b.order[i].id == id && Delays(b, b.order[i]) {
      assert i == j;
    }
  }

  lemma BlockingIffDelays(b: Book, at: Node, edge: Option<Edge>)
    ensures IsBlocking(b, OwnerActions(at, edge)) <==> OrderDelays(b, at, edge)
    ensures InstantIsBlocking(b) <==> InstantDelays(b)
  {
    hide Holding, StandsHere, Delays, OwnerActions, IsFirst;
    if IsBlocking(b, OwnerActions(at, edge)) {
      var id :| id in OwnerActions(at, edge) && Holding(b, id);
      OwnersStandHere(id, at, edge);
      FirstOfId(b, id);
    }
    if OrderDelays(b, at, edge) {
      var i: nat :| i < |b.order| && IsFirst(b.order, i) && StandsHere(b.order[i].id, at, edge)
                    && Delays(b, b.order[i]);
      OwnersStandHere(b.order[i].id, at, edge);
      FirstOfId(b, b.order[i].id);
    }
    InstantBlockingIff(b);
  }

  lemma InstantBlockingIff(b: Book)
    ensures InstantIsBlocking(b) <==> InstantDelays(b)
  {
  }

  lemma HeldIffDelayed(s: Robot, at: Node, edge: Option<Edge>)
    ensures Held(s, OwnerActions(at, edge)) <==> Delayed(s, at, edge)
  {
    hide IsBlocking, InstantIsBlocking, OrderDelays, InstantDelays, OwnerActions;
    BlockingIffDelays(s.book, at, edge);
  }

  // ---- unfinished actions hold the robot ------------------------------------------------

  /** Whether an entry of an action on the node or edge, or of an instant action, that is not of blocking
      type NONE is neither FINISHED nor FAILED. */
  predicate SomeUnfinished(b: Book, at: Node, edge: Option<Edge>) {
    || (exists e :: e in b.order && StandsHere(e.id, at, edge) && Unfinished(b, e))
    || (exists e :: e in b.instant && Unfinished(b, e))
  }

  predicate Unfinished(b: Book, e: Entry) {
    e.id in b.registry && b.registry[e.id].blocking != NoBlocking && e.status != Finished && e.status != Failed
  }

  /** While nothing is paused, and order entries have distinct ids, every unfinished entry delays. */
  lemma UnfinishedDelays(s: Robot, at: Node, edge: Option<Edge>)
    requires PauseDiscipline(s) && !s.mode.paused && OrderIdsDistinct(s.book)
    ensures SomeUnfinished(s.book, at, edge) <==> OrderDelays(s.book, at, edge) || InstantDelays(s.book)
  {
    hide StandsHere;
    var b := s.book;
    forall e | e in b.order ensures e.status != Paused {
      var i :| 0 <= i < |b.order| && b.order[i] == e;
      assert Valid(b, Spot(OrderTrack, i)) && At(b, Spot(OrderTrack, i)) == e;
    }
    forall e | e in b.instant ensures e.status != Paused {
      var i :| 0 <= i < |b.instant| && b.instant[i] == e;
      assert Valid(b, Spot(InstantTrack, i)) && At(b, Spot(InstantTrack, i)) == e;
    }
    if e :| e in b.order && StandsHere(e.id, at, edge) && Unfinished(b, e) {
      var i: nat :| i < |b.order| && b.order[i] == e;
      assert IsFirst(b.order, i);
    }
  }

  /** What the movement part of a tick does with unfinished actions. If one on the current node or its
      edge, or an instant one, is unfinished and of a type other than NONE, the robot halts and nothing
      else changes; if all unfinished ones are of type NONE, and no fault stops it, it proceeds. */
  lemma UnfinishedActionsHold(w: World, s: Robot, dt: Span)
    requires PauseDiscipline(s) && !s.mode.paused && OrderIdsDistinct(s.book) && s.task.nodes != []
    ensures var at := CurrentNode(s.task);
            var edge := FindEdge(s.task.edges, at.seqId + 1);
            Move(w, s, dt) == if SomeUnfinished(s.book, at, edge) || Stopped(s.faults)
                              then s.(task := s.task.(driving := false))
                              else Proceed(w, MaybeRequestBase(w, s), at, edge, dt)
  {
    hide Held, Delayed, Proceed, MaybeRequestBase, CurrentNode, FindEdge, PauseDiscipline, OrderIdsDistinct,
      SomeUnfinished, OrderDelays, InstantDelays;
    var at := CurrentNode(s.task);
    var edge := FindEdge(s.task.edges, at.seqId + 1);
    HeldIffDelayed(s, at, edge);
    UnfinishedDelays(s, at, edge);
    DelayedBy(s, at, edge);
  }

  lemma DelayedBy(s: Robot, at: Node, edge: Option<Edge>)
    ensures Delayed(s, at, edge)
       <==> OrderDelays(s.book, at, edge) || InstantDelays(s.book) || Stopped(s.faults)
  {
  }

  /** On every run: a beat that finds the robot held by an unfinished action, after its sweep has started
      and completed what was due, covers no distance and leaves no node. */
  lemma HeldBeatStands(w: World, s: Robot, events: seq<Event>, dt: Span, now: real, draws: Draws)
    requires PauseDiscipline(s) && OrderIdsDistinct(s.book)
    requires var p := Prepared(w, Run(w, s, events), dt, now);
             && Active(Run(w, s, events)) && p.task.nodes != []
             && var at := CurrentNode(p.task);
                SomeUnfinished(p.book, at, FindEdge(p.task.edges, at.seqId + 1))
    ensures var a := Run(w, s, events);
            var b := Step(w, a, Beat(dt, now, draws));
            && b.hist.trip.odometer == a.hist.trip.odometer && b.hist.trip.legs == a.hist.trip.legs
            && b.task == a.task.(lastNodeId := b.task.lastNodeId, driving := false)
  {
    hide Run, Prepared, Tick, MaybeInjectFault, PauseDiscipline, OrderIdsDistinct, SomeUnfinished, CurrentNode,
      FindEdge;
    var a := Run(w, s, events);
    DisciplinesKept(w, s, events, dt, now);
    HeldTickStands(w, a, dt, now);
    FaultsKeepTask(w, Tick(w, a, dt, now), dt, draws);
  }

  lemma HeldTickStands(w: World, a: Robot, dt: Span, now: real)
    requires var p := Prepared(w, a, dt, now);
             && Active(a) && PauseDiscipline(p) && OrderIdsDistinct(p.book) && p.task.nodes != []
             && SomeUnfinished(p.book, CurrentNode(p.task), FindEdge(p.task.edges, CurrentNode(p.task).seqId + 1))
    ensures var b := Tick(w, a, dt, now);
            && b.hist.trip.odometer == a.hist.trip.odometer && b.hist.trip.legs == a.hist.trip.legs
            && b.task == a.task.(lastNodeId := b.task.lastNodeId, driving := false)
  {
    hide Prepared, Move, Tick, PauseDiscipline, OrderIdsDistinct, SomeUnfinished, CurrentNode, FindEdge, LeasesFresh,
      Stopped, Proceed;
    var p := Prepared(w, a, dt, now);
    PreparedFacts(w, a, dt, now);
    UnfinishedActionsHold(w, p, dt);
    PreparedLegs(w, a, dt, now);
  }

  lemma PreparedLegs(w: World, s: Robot, dt: Span, now: real)
    ensures Prepared(w, s, dt, now).hist.trip.legs == s.hist.trip.legs
  {
    hide Prepare;
    TickFrames.PrepareFrame(w, UpdateCharging(w, s, dt), dt, now);
  }

  lemma FaultsKeepTask(w: World, s: Robot, dt: Span, draws: Draws)
    ensures var r := MaybeInjectFault(w, s, dt, draws);
            r.task == s.task && r.hist.trip == s.hist.trip
  {
    hide UpdateField, UpdateOperatingMode, UpdateStop, FirstRetriable, SetStatus;
  }

  /** Both disciplines are kept on every run, and up to the movement part of the next beat. */
  lemma DisciplinesKept(w: World, s: Robot, events: seq<Event>, dt: Span, now: real)
    requires PauseDiscipline(s) && OrderIdsDistinct(s.book) && Active(Run(w, s, events))
    ensures var p := Prepared(w, Run(w, s, events), dt, now);
            PauseDiscipline(p) && OrderIdsDistinct(p.book)
  {
    hide Run, Prepare, PauseDiscipline, OrderIdsDistinct;
    var inv := (r: Robot) => PauseDiscipline(r) && OrderIdsDistinct(r.book);
    DisciplinesAreKept(w);
    RunInduction(w, inv, s, events);
    var a := Run(w, s, events);
    Fire(w, inv, a, OnUnit(Charging(dt)));
    PrepareKeeps(w, inv, UpdateCharging(w, a, dt), dt, now);
  }

  lemma DisciplinesAreKept(w: World)
    ensures Kept(w, (r: Robot) => PauseDiscipline(r) && OrderIdsDistinct(r.book))
  {
    hide PauseDiscipline;
    var inv := (r: Robot) => PauseDiscipline(r) && OrderIdsDistinct(r.book);
    forall r: Robot, op: Op ensures Keeps(w, inv)(r, op) {
      if inv(r) && Enabled(w, r, op) {
        PauseDisciplineKept(w, r, op);
        DistinctKept(w, r, op);
      }
    }
  }

  lemma DistinctKept(w: World, s: Robot, op: Op)
    requires OrderIdsDistinct(s.book) && Enabled(w, s, op)
    ensures OrderIdsDistinct(Apply(w, s, op).book)
  {
    hide Apply, ActionEnabled, OrderEnabled, MoveEnabled, TrafficEnabled, UnitEnabled;
    if Renews(op) { Registration.RenewalEmpties(w, s, op); } else {
      OrderGrows(w, s, op);
      var a, b := s.book.order, Apply(w, s, op).book.order;
      forall i: nat | i < |a| ensures a[i].id in Ids(a) { assert a[i] in a; }
    }
  }
}
