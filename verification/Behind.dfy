/** What the robot has left behind, told by the order it carries: after so many legs of a tidy graph, no
    action of the nodes and edges behind that holds movement is unfinished. */
module Behind {
  import opened Vda5050
  import opened Platform
  import opened RobotState
  import opened Transitions
  import opened Lifecycle
  import opened Traversal
  import opened Registration
  import opened Journeys

  /** Whether the id is that of an action on one of the first `legs` nodes or edges of the order. */
  predicate OwnedBehind(o: Order, legs: nat, id: string) {
    || (exists i: nat :: i < legs && i < |o.nodes| && id in IdsOf(o.nodes[i].actions))
    || (exists i: nat :: i < legs && i < |o.edges| && id in IdsOf(o.edges[i].actions))
  }

  /** Whether the action of the entry, as defined when accepted, is of a type other than NONE. */
  predicate HoldsRobot(b: Book, id: string) {
    id in b.registry && b.registry[id].blocking != NoBlocking
  }

  /** If the graph was tidy when it was taken, every entry of an action behind that holds movement, its
      id never redefined while live, is FINISHED or FAILED. */
  ghost predicate FinishedBehind(s: Robot) {
    s.task.snapshot.Some? && Tidy(AsBoarded(s).task) ==>
      var o, legs := s.task.snapshot.value, s.hist.trip.legs;
      forall e :: e in s.book.order && OwnedBehind(o, legs, e.id) && HoldsRobot(s.book, e.id) ==>
                    e.status == Finished || e.status == Failed || e.id in s.hist.actions.clashes
  }

  ghost predicate NothingLeft(s: Robot) {
    PauseDiscipline(s) && OrderIdsDistinct(s.book) && OnCourse(s) && FinishedBehind(s)
  }

  /** The ids of the actions on the node, and on the edge, a move leaves behind. */
  predicate Leaves(op: MoveOp, id: string) {
    || (op.Leaving? && id in IdsOf(op.at.actions))
    || (op.Driving? && (id in IdsOf(op.from.actions) || id in IdsOf(op.edge.actions)))
  }

  /** On course, the current node and its edge are the order's next ones. */
  lemma NextOnCourse(s: Robot)
    requires s.task.snapshot.Some? && Suffix(AsBoarded(s), s) && s.task.nodes != []
    ensures var o, k, at := s.task.snapshot.value, s.hist.trip.legs, CurrentNode(s.task);
            && k < |o.nodes| && at == o.nodes[k]
            && (k < |o.edges| ==> FindEdge(s.task.edges, at.seqId + 1) == Some(o.edges[k]))
  {
    hide CurrentNode, FindEdge, FindNode, Tidy;
    SuffixIsTidy(AsBoarded(s), s);
    TidyLeg(s.task);
    TidyShape(s.task);
  }

  lemma LegsOfMove(w: World, s: Robot, op: MoveOp)
    requires MoveEnabled(w, s, op)
    ensures var k, l := s.hist.trip.legs, ApplyMove(w, s, op).hist.trip.legs;
            l == k || (l == k + 1 && (op.Leaving? || op.Driving?))
  {
    hide StepTowards, Held, GatesOpen, LeasesFresh, Active, Holders, CurrentNode, FindEdge, FindNode, Without,
      WithoutEdge;
  }

  /** On course, a move leaves behind at most the order's next node and next edge. */
  lemma MoveOwns(w: World, s: Robot, op: MoveOp, id: string)
    requires s.task.snapshot.Some? && Suffix(AsBoarded(s), s) && MoveEnabled(w, s, op)
    ensures var o, legs := s.task.snapshot.value, ApplyMove(w, s, op).hist.trip.legs;
            OwnedBehind(o, legs, id) ==> OwnedBehind(o, s.hist.trip.legs, id) || Leaves(op, id)
  {
    hide ApplyMove, Held, GatesOpen, LeasesFresh, Active, CurrentNode, FindEdge, FindNode, IdsOf, Suffix, OwnedBehind;
    LegsOfMove(w, s, op);
    if op.Leaving? || op.Driving? {
      NextOnCourse(s);
      OneMoreBehind(s.task.snapshot.value, s.hist.trip.legs, id);
    }
  }

  lemma OneMoreBehind(o: Order, k: nat, id: string)
    ensures OwnedBehind(o, k + 1, id) ==>
              || OwnedBehind(o, k, id) || (k < |o.nodes| && id in IdsOf(o.nodes[k].actions))
              || (k < |o.edges| && id in IdsOf(o.edges[k].actions))
  {
    hide IdsOf;
  }

  /** Nothing that a move leaves behind holds the robot and is unfinished. */
  lemma LeavesFinished(w: World, s: Robot, op: MoveOp, e: Entry)
    requires PauseDiscipline(s) && OrderIdsDistinct(s.book) && MoveEnabled(w, s, op)
    requires e in s.book.order && HoldsRobot(s.book, e.id) && Leaves(op, e.id)
    ensures e.status == Finished || e.status == Failed
  {
    hide StepTowards, GatesOpen, LeasesFresh, CurrentNode, FindEdge, FindNode, PauseDiscipline, OrderIdsDistinct,
      IsBlocking, InstantIsBlocking;
    var ids := if op.Leaving? then OwnerActions(op.at, None) else OwnerActions(op.from, Some(op.edge));
    if op.Leaving? {
      IdsAreListed(op.at.actions, e.id);
    } else {
      IdsAreListed(op.from.actions, e.id);
      IdsAreListed(op.edge.actions, e.id);
    }
    HoldersAreSettled(s, ids);
  }

  lemma IdsAreListed(actions: seq<Action>, id: string)
    ensures id in IdsOf(actions) <==> id in ActionIds(actions)
  {
    if id in IdsOf(actions) {
      var i :| 0 <= i < |actions| && actions[i].id == id;
      assert ActionIds(actions)[i] == id;
    }
  }

  /** Whether an order entry under the id is unfinished and holds the robot. */
  predicate UnfinishedHolder(b: Book, id: string) {
    HoldsRobot(b, id) && exists e :: e in b.order && e.id == id && !e.status.Terminal()
  }

  /** An unfinished entry that holds the robot was one before, or its action is registered before the
      first leg. */
  lemma EntryWasThere(w: World, s: Robot, op: Op, e: Entry)
    requires Enabled(w, s, op) && !op.OnOrder?
    requires var r := Apply(w, s, op);
             e in r.book.order && !e.status.Terminal() && e.id !in r.hist.actions.clashes && HoldsRobot(r.book, e.id)
    ensures (s.hist.trip.legs == 0 && op.OnAction?)
         || UnfinishedHolder(s.book, e.id)
  {
    hide Apply, ActionEnabled, MoveEnabled, TrafficEnabled, UnitEnabled;
    var r := Apply(w, s, op);
    var i :| 0 <= i < |r.book.order| && r.book.order[i] == e;
    var p := Spot(OrderTrack, i);
    assert Valid(r.book, p) && At(r.book, p) == e;
    var q := EntryOrigin(w, s, op, p);
    if !Valid(s.book, p) && Newcomer(op, OrderTrack, e) {
      SpawnsAtStart(w, s, op);
    } else {
      assert At(s.book, q) == s.book.order[q.index];
      SameDefinition(w, s, op, At(s.book, q));
    }
  }

  lemma SpawnsAtStart(w: World, s: Robot, op: Op)
    requires Enabled(w, s, op) && op.OnAction? && op.a.Spawning? && op.a.track.OrderTrack?
    ensures s.hist.trip.legs == 0
  {
  }

  /** The definition of a live entry is as it was, unless its id has clashed. */
  lemma SameDefinition(w: World, s: Robot, op: Op, f: Entry)
    requires Enabled(w, s, op) && f in s.book.order && !f.status.Terminal()
    requires f.id !in Apply(w, s, op).hist.actions.clashes
    ensures HoldsRobot(Apply(w, s, op).book, f.id) <==> HoldsRobot(s.book, f.id)
  {
    hide ActionEnabled, ApplyAction, OrderEnabled, MoveEnabled, ApplyMove, TrafficEnabled, ApplyTraffic, UnitEnabled,
      ApplyUnit;
    CountersAfter(w, s, op);
    match op
    case OnAction(a) => ActionCounters(w, s, a);
    case OnOrder(o) =>
    case OnMove(m) => MoveFrame(w, s, m);
    case OnTraffic(t) => TrafficFrame(w, s, t);
    case OnUnit(u) => UnitFrame(w, s, u);
  }

  lemma SameLegs(w: World, s: Robot, op: Op)
    requires Enabled(w, s, op) && !op.OnOrder? && !op.OnMove?
    ensures Apply(w, s, op).hist.trip.legs == s.hist.trip.legs
  {
    hide ActionEnabled, ApplyAction, TrafficEnabled, ApplyTraffic, UnitEnabled, ApplyUnit;
    match op
    case OnAction(a) => ActionFrame(w, s, a);
    case OnTraffic(t) => TrafficFrame(w, s, t);
    case OnUnit(u) => UnitFrame(w, s, u);
  }

  lemma FinishedBehindKept(w: World, s: Robot, op: Op)
    requires NothingLeft(s) && Enabled(w, s, op) && !op.OnOrder?
    ensures FinishedBehind(Apply(w, s, op))
  {
    hide Apply, ActionEnabled, MoveEnabled, TrafficEnabled, UnitEnabled, OwnedBehind, HoldsRobot, PauseDiscipline,
      OrderIdsDistinct, Suffix, Tidy, AsBoarded;
    var r := Apply(w, s, op);
    BoardingStays(w, s, op);
    CountersAfter(w, s, op);
    if r.task.snapshot.Some? && Tidy(AsBoarded(r).task) {
      SameTask(s, r);
      var o := r.task.snapshot.value;
      forall e | e in r.book.order && e.id !in r.hist.actions.clashes && HoldsRobot(r.book, e.id)
                 && OwnedBehind(o, r.hist.trip.legs, e.id) && !e.status.Terminal()
        ensures false
      {
        EntryWasThere(w, s, op, e);
        StillUnowned(w, s, op, e.id);
      }
    }
  }

  lemma SameTask(s: Robot, r: Robot)
    requires s.task.snapshot.Some? && r.task.snapshot == s.task.snapshot && SameStart(AsBoarded(s), AsBoarded(r))
    ensures Tidy(AsBoarded(s).task) <==> Tidy(AsBoarded(r).task)
  {
  }

  lemma StillUnowned(w: World, s: Robot, op: Op, id: string)
    requires NothingLeft(s) && Enabled(w, s, op) && !op.OnOrder?
    requires s.task.snapshot.Some? && Tidy(AsBoarded(s).task) && id !in s.hist.actions.clashes
    requires (s.hist.trip.legs == 0 && op.OnAction?)
          || UnfinishedHolder(s.book, id)
    ensures !OwnedBehind(s.task.snapshot.value, Apply(w, s, op).hist.trip.legs, id)
  {
    hide ActionEnabled, ApplyAction, MoveEnabled, ApplyMove, TrafficEnabled, ApplyTraffic, UnitEnabled, ApplyUnit,
      HoldsRobot, PauseDiscipline, OrderIdsDistinct, Suffix, Tidy, AsBoarded;
    if op.OnMove? {
      MoveOwns(w, s, op.m, id);
      var f :| f in s.book.order && f.id == id && !f.status.Terminal();
      if Leaves(op.m, id) { LeavesFinished(w, s, op.m, f); }
    } else {
      SameLegs(w, s, op);
    }
  }

  /** An order just taken has nothing behind. */
  lemma NothingBehindYet(w: World, s: Robot, op: Op)
    requires Enabled(w, s, op) && op.OnOrder?
    ensures FinishedBehind(Apply(w, s, op))
  {
    hide SetStatus, Idle, HoldsRobot, Tidy, AsBoarded;
  }

  lemma NothingLeftKept(w: World, s: Robot, op: Op)
    requires NothingLeft(s) && Enabled(w, s, op)
    ensures NothingLeft(Apply(w, s, op))
  {
    hide Apply, Enabled, PauseDiscipline, OnCourse, FinishedBehind;
    PauseDisciplineKept(w, s, op);
    OnCourseKept(w, s, op);
    if Renews(op) { RenewalEmpties(w, s, op); } else { OrderGrows(w, s, op); }
    if op.OnOrder? { NothingBehindYet(w, s, op); } else { FinishedBehindKept(w, s, op); }
  }

  /** On every run: all actions of the nodes and edges the robot has left behind on a tidy graph that
      hold movement are FINISHED or FAILED, whatever was paused, broken, retried or updated meanwhile. */
  lemma NothingLeftBehind(w: World, s: Robot, events: seq<Event>)
    requires NothingLeft(s)
    ensures NothingLeft(Run(w, s, events))
  {
    hide NothingLeft;
    var inv := (r: Robot) => NothingLeft(r);
    forall r: Robot, op: Op ensures Keeps(w, inv)(r, op) {
      if inv(r) && Enabled(w, r, op) { NothingLeftKept(w, r, op); }
    }
    RunInduction(w, inv, s, events);
  }
}
