/** Traversal of the order graph over whole runs: what remains is a suffix of the accepted
    graph, nodes are left one by one in order, and no movement-holding action is left unfinished
    behind the robot. */
module Traversal {
  import opened Vda5050
  import opened Platform
  import opened RobotState
  import opened Transitions
  import opened Lifecycle
  import opened OrderRules

  // ---- contiguous graphs ------------------------------------------------------------

  /** Nodes and edges alternate and number on without a gap; nothing at all is contiguous too. */
  predicate Contiguous(nodes: seq<Node>, edges: seq<Edge>) {
    && |edges| == (if nodes == [] then 0 else |nodes| - 1)
    && (forall i: nat :: i < |nodes| ==> nodes[i].seqId == nodes[0].seqId + 2 * i)
    && (forall i: nat :: i < |edges| ==> edges[i].seqId == nodes[0].seqId + 2 * i + 1)
  }

  /** The node reached last is none of those remaining but possibly the first. */
  predicate Positioned(t: Task) {
    forall i: nat :: 0 < i < |t.nodes| ==> t.nodes[i].seqId != t.lastSeq
  }

  predicate Tidy(t: Task) { Contiguous(t.nodes, t.edges) && Positioned(t) }

  lemma {:induction false} FilterAll<T(!new)>(xs: seq<T>, p: T -> bool)
    requires forall x :: x in xs ==> p(x)
    ensures Filter(xs, p) == xs
  {
    if xs != [] {
      assert p(xs[0]);
      FilterAll(xs[1..], p);
    }
  }

  /** On a tidy task the current node is the first, its edge the first, and the next node the second. */
  lemma TidyLeg(t: Task)
    requires Tidy(t) && t.nodes != []
    ensures CurrentNode(t) == t.nodes[0]
    ensures FindEdge(t.edges, t.nodes[0].seqId + 1) == if t.edges == [] then None else Some(t.edges[0])
    ensures t.edges != [] ==> FindNode(t.nodes, t.edges[0].seqId + 1) == Some(t.nodes[1])
  {
    var i := FirstIndex(t.nodes, (n: Node) => n.seqId == t.lastSeq);
    if i == |t.nodes| {
      var n := LeastNode(t.nodes);
      assert t.nodes[0] in t.nodes;
    }
    if t.edges != [] {
      var j := FirstIndex(t.nodes, (n: Node) => n.seqId == t.edges[0].seqId + 1);
      assert t.nodes[1].seqId == t.nodes[0].seqId + 2 * 1 && t.edges[0].seqId == t.nodes[0].seqId + 2 * 0 + 1;
      assert j == 1;
    }
  }

  lemma TidyShape(t: Task)
    requires Tidy(t) && t.nodes != []
    ensures |t.edges| == |t.nodes| - 1
  {
  }

  lemma TidyRemoval(t: Task)
    requires Tidy(t) && t.nodes != []
    ensures Without(t.nodes, t.nodes[0].seqId) == t.nodes[1..]
    ensures t.edges != [] ==> WithoutEdge(t.edges, t.edges[0].seqId) == t.edges[1..]
  {
    FilterAll(t.nodes[1..], (n: Node) => n.seqId != t.nodes[0].seqId);
    if t.edges != [] {
      FilterAll(t.edges[1..], (e: Edge) => e.seqId != t.edges[0].seqId);
    }
  }

  /** A contiguous order is tidy once accepted exactly when none but its first node has the
      sequence id reached last: zero for a new order, the current one for an update. */
  lemma AcceptedIsTidy(w: World, s: Robot, o: Order, isUpdate: bool)
    requires Contiguous(o.nodes, o.edges)
    ensures Tidy(AcceptOrder(w, s, o, isUpdate).task)
       <==> forall i: nat :: 0 < i < |o.nodes| ==> o.nodes[i].seqId != if isUpdate then s.task.lastSeq else 0
  {
    hide AcceptOrder;
    AcceptedOrder(w, s, o, isUpdate);
  }

  // ---- the remaining graph is a suffix -------------------------------------------------

  function LegsBetween(a: Robot, b: Robot): int { b.hist.trip.legs - a.hist.trip.legs }

  /** `b` has left exactly the first nodes and edges of `a` behind, one per leg, and is at the next. */
  predicate Suffix(a: Robot, b: Robot) {
    var k := LegsBetween(a, b);
    && 0 <= k <= |a.task.nodes|
    && b.task.nodes == a.task.nodes[k..]
    && b.task.edges == a.task.edges[if k <= |a.task.edges| then k else |a.task.edges|..]
    && b.task.lastSeq == (if k == 0 then a.task.lastSeq
                          else if k < |a.task.nodes| then a.task.nodes[k].seqId
                          else a.task.nodes[|a.task.nodes| - 1].seqId)
    && b.task.orderId == a.task.orderId && b.task.updateId == a.task.updateId && b.task.snapshot == a.task.snapshot
    && Tidy(b.task)
  }

  /** `Suffix`, as long as the graph has not been replaced or cleared. */
  predicate Consumes(a: Robot, b: Robot) {
    && b.hist.orders.regraphs >= a.hist.orders.regraphs
    && (b.hist.orders.regraphs == a.hist.orders.regraphs ==> Suffix(a, b))
  }

  lemma SuffixStays(a: Robot, b: Robot, c: Robot)
    requires Suffix(a, b) && c.hist.trip.legs == b.hist.trip.legs
    requires c.task == b.task.(lastNodeId := c.task.lastNodeId, driving := c.task.driving,
                               newBaseRequest := c.task.newBaseRequest)
    ensures Suffix(a, c)
  {
  }

  /** Leaving one node behind turns the suffix into the next one. */
  lemma SuffixAdvances(a: Robot, b: Robot, c: Robot)
    requires Suffix(a, b) && c.hist.trip.legs == b.hist.trip.legs + 1 && b.task.nodes != []
    requires c.task.nodes == b.task.nodes[1..] && c.task.edges == (if b.task.edges == [] then [] else b.task.edges[1..])
    requires c.task.lastSeq == b.task.nodes[if b.task.edges == [] then 0 else 1].seqId
    requires c.task.orderId == b.task.orderId && c.task.updateId == b.task.updateId
    requires c.task.snapshot == b.task.snapshot
    ensures Suffix(a, c)
  {
    var k := LegsBetween(a, b);
    assert c.task.nodes == a.task.nodes[k + 1..];
    if b.task.edges != [] {
      assert b.task.nodes[1] == a.task.nodes[k + 1];
      assert c.task.edges == a.task.edges[k + 1..];
    }
    SuffixTidy(b.task, c.task);
  }

  lemma SuffixTidy(t: Task, u: Task)
    requires Tidy(t) && t.nodes != []
    requires u.nodes == t.nodes[1..] && u.edges == (if t.edges == [] then [] else t.edges[1..])
    requires u.lastSeq == t.nodes[if t.edges == [] then 0 else 1].seqId
    ensures Tidy(u)
  {
    forall i: nat | i < |u.nodes| ensures u.nodes[i].seqId == u.nodes[0].seqId + 2 * i {
      assert u.nodes[i] == t.nodes[i + 1] && u.nodes[0] == t.nodes[1];
    }
    forall i: nat | i < |u.edges| ensures u.edges[i].seqId == u.nodes[0].seqId + 2 * i + 1 {
      assert u.edges[i] == t.edges[i + 1] && u.nodes[0] == t.nodes[1];
    }
  }

  lemma MoveConsumes(w: World, a: Robot, b: Robot, op: MoveOp)
    requires Suffix(a, b) && MoveEnabled(w, b, op)
    ensures Suffix(a, ApplyMove(w, b, op))
  {
    hide StepTowards, Held, GatesOpen, LeasesFresh, Active, Holders, CurrentNode, FindEdge, FindNode, Without,
      WithoutEdge, Suffix, Tidy;
    var c := ApplyMove(w, b, op);
    SuffixIsTidy(a, b);
    if b.task.nodes != [] {
      TidyLeg(b.task);
      TidyRemoval(b.task);
    }
    if op.Leaving? {
      TidyEnds(b.task);
      SuffixAdvances(a, b, c);
    } else if op.Driving? && StepTowards(w, b, op.next, op.edge, op.dt).arrived {
      SuffixAdvances(a, b, c);
    } else {
      SuffixStays(a, b, c);
    }
  }

  lemma SuffixIsTidy(a: Robot, b: Robot)
    requires Suffix(a, b)
    ensures Tidy(b.task)
  {
  }

  lemma TidyEnds(t: Task)
    requires Tidy(t) && t.nodes != [] && FindEdge(t.edges, CurrentNode(t).seqId + 1).None?
    ensures t.edges == []
  {
    TidyLeg(t);
  }

  lemma ConsumesKept(w: World, a: Robot, b: Robot, op: Op)
    requires Consumes(a, b) && Enabled(w, b, op)
    ensures Consumes(a, Apply(w, b, op))
  {
    hide ActionEnabled, ApplyAction, OrderEnabled, ApplyOrder, MoveEnabled, ApplyMove, TrafficEnabled, ApplyTraffic,
      UnitEnabled, ApplyUnit, Suffix;
    CountersAfter(w, b, op);
    var c := Apply(w, b, op);
    if c.hist.orders.regraphs == a.hist.orders.regraphs {
      match op
      case OnAction(x) =>
        ActionFrame(w, b, x);
        SuffixStays(a, b, c);
      case OnMove(m) => MoveConsumes(w, a, b, m);
      case OnTraffic(t) =>
        TrafficFrame(w, b, t);
        SuffixStays(a, b, c);
      case OnUnit(u) =>
        UnitFrame(w, b, u);
        SuffixStays(a, b, c);
    }
  }

  /** On every run from a tidy task, until the order is updated, cancelled or hibernated away:
      the robot has left exactly the first nodes and edges behind, each node once, none skipped,
      in the order of their sequence ids, and is at the next. */
  lemma GraphIsConsumedInOrder(w: World, s: Robot, events: seq<Event>)
    requires Tidy(s.task)
    ensures Consumes(s, Run(w, s, events))
  {
    hide Consumes, Tidy;
    ConsumesItself(s);
    var inv := (r: Robot) => Consumes(s, r);
    forall r: Robot, op: Op ensures Keeps(w, inv)(r, op) {
      if inv(r) && Enabled(w, r, op) { ConsumesKept(w, s, r, op); }
    }
    RunInduction(w, inv, s, events);
  }

  lemma ConsumesItself(s: Robot)
    requires Tidy(s.task)
    ensures Consumes(s, s)
  {
  }

  // ---- updates that restate what was left behind ------------------------------------------

  predicate HasNode(t: Task, q: int) { exists n :: n in t.nodes && n.seqId == q }

  predicate HasEdge(t: Task, q: int) { exists e :: e in t.edges && e.seqId == q }

  /** The graph still holds the node before the one reached last, and the edge between them. */
  predicate Stale(t: Task) {
    HasNode(t, t.lastSeq) && HasEdge(t, t.lastSeq - 1) && HasNode(t, t.lastSeq - 2)
  }

  /** A contiguous graph is stale exactly when the robot is not positioned at its start. */
  lemma StaleOrPositioned(t: Task)
    requires Contiguous(t.nodes, t.edges)
    ensures Stale(t) <==> !Positioned(t)
  {
    if !Positioned(t) {
      var i: nat :| 0 < i < |t.nodes| && t.nodes[i].seqId == t.lastSeq;
      assert t.nodes[i - 1] in t.nodes && t.edges[i - 1] in t.edges && t.nodes[i] in t.nodes;
      assert t.nodes[i - 1].seqId == t.nodes[0].seqId + 2 * (i - 1);
      assert t.edges[i - 1].seqId == t.nodes[0].seqId + 2 * (i - 1) + 1;
    }
  }

  /** The node before `q` and the edge to `q` are still there, and `q` is the node reached last or gone. */
  predicate Stuck(t: Task, q: int) {
    HasEdge(t, q - 1) && HasNode(t, q - 2) && (t.lastSeq == q || !HasNode(t, q))
  }

  lemma StuckStays(w: World, s: Robot, op: MoveOp, q: int)
    requires Stuck(s.task, q) && MoveEnabled(w, s, op)
    ensures Stuck(ApplyMove(w, s, op).task, q)
  {
    hide StepTowards, Held, GatesOpen, LeasesFresh, Active, Holders, CurrentNode, FindEdge, FindNode, Without,
      WithoutEdge, Stuck;
    var r := ApplyMove(w, s, op);
    if op.Leaving? {
      StuckLeaving(s.task, op.at, q);
      StuckKeepsPosition(LeaveGraph(s, op.at).task, r.task, q);
    } else if op.Driving? && StepTowards(w, s, op.next, op.edge, op.dt).arrived {
      StuckDriving(s.task, op.from, op.edge, op.next, q);
      StuckKeepsPosition(r.task, r.task, q);
    } else {
      StuckKeepsPosition(s.task, r.task, q);
    }
  }

  lemma StuckKeepsPosition(t: Task, u: Task, q: int)
    requires u.nodes == t.nodes && u.edges == t.edges && u.lastSeq == t.lastSeq
    ensures Stuck(t, q) ==> Stuck(u, q)
  {
  }

  lemma StuckLeaving(t: Task, at: Node, q: int)
    requires t.nodes != [] && at == CurrentNode(t) && FindEdge(t.edges, at.seqId + 1).None? && Stuck(t, q)
    ensures forall u: Task :: u.nodes == Without(t.nodes, at.seqId) && u.edges == t.edges && u.lastSeq == at.seqId ==>
              Stuck(u, q)
  {
    hide CurrentNode, FindEdge;
    CurrentOf(t, q);
    FoundEdge(t, at.seqId + 1);
    NodesLeft(t, at.seqId);
  }

  lemma NodesLeft(t: Task, q: int)
    ensures forall u: Task, k: int :: u.nodes == Without(t.nodes, q) ==> (HasNode(u, k) <==> HasNode(t, k) && k != q)
  {
    forall u: Task, k: int | u.nodes == Without(t.nodes, q) ensures HasNode(u, k) <==> HasNode(t, k) && k != q {
      if HasNode(t, k) && k != q {
        var n :| n in t.nodes && n.seqId == k;
        assert n in u.nodes;
      }
    }
  }

  lemma EdgesLeft(t: Task, q: int)
    ensures forall u: Task, k: int :: u.edges == WithoutEdge(t.edges, q) ==>
              (HasEdge(u, k) <==> HasEdge(t, k) && k != q)
  {
    forall u: Task, k: int | u.edges == WithoutEdge(t.edges, q) ensures HasEdge(u, k) <==> HasEdge(t, k) && k != q {
      if HasEdge(t, k) && k != q {
        var e :| e in t.edges && e.seqId == k;
        assert e in u.edges;
      }
    }
  }

  lemma StuckDriving(t: Task, from: Node, edge: Edge, next: Node, q: int)
    requires t.nodes != [] && from == CurrentNode(t) && Stuck(t, q)
    requires FindEdge(t.edges, from.seqId + 1) == Some(edge) && FindNode(t.nodes, edge.seqId + 1) == Some(next)
    ensures forall u: Task ::
              (u.nodes == Without(t.nodes, from.seqId) && u.edges == WithoutEdge(t.edges, edge.seqId)
               && u.lastSeq == next.seqId) ==> Stuck(u, q)
  {
    hide CurrentNode, FindEdge, FindNode;
    CurrentOf(t, q);
    FoundEdge(t, from.seqId + 1);
    FoundNode(t, edge.seqId + 1);
    NodesLeft(t, from.seqId);
    EdgesLeft(t, edge.seqId);
  }

  lemma CurrentOf(t: Task, q: int)
    requires t.nodes != [] && Stuck(t, q)
    ensures CurrentNode(t) in t.nodes
    ensures HasNode(t, q) ==> CurrentNode(t).seqId == q
  {
    var i := FirstIndex(t.nodes, (n: Node) => n.seqId == t.lastSeq);
  }

  lemma FoundEdge(t: Task, q: int)
    ensures var e := FindEdge(t.edges, q); if e.Some? then e.value in t.edges && e.value.seqId == q else !HasEdge(t, q)
  {
    var i := FirstIndex(t.edges, (e: Edge) => e.seqId == q);
  }

  lemma FoundNode(t: Task, q: int)
    ensures var n := FindNode(t.nodes, q); if n.Some? then n.value in t.nodes && n.value.seqId == q else !HasNode(t, q)
  {
    var i := FirstIndex(t.nodes, (n: Node) => n.seqId == q);
  }

  ghost predicate StaysStuck(a: Robot, b: Robot, q: int) {
    && b.hist.orders.regraphs >= a.hist.orders.regraphs
    && (b.hist.orders.regraphs == a.hist.orders.regraphs ==> Stuck(b.task, q))
  }

  lemma StuckKept(w: World, a: Robot, b: Robot, op: Op, q: int)
    requires StaysStuck(a, b, q) && Enabled(w, b, op)
    ensures StaysStuck(a, Apply(w, b, op), q)
  {
    hide ActionEnabled, ApplyAction, OrderEnabled, ApplyOrder, MoveEnabled, ApplyMove, TrafficEnabled, ApplyTraffic,
      UnitEnabled, ApplyUnit;
    CountersAfter(w, b, op);
    if Apply(w, b, op).hist.orders.regraphs == a.hist.orders.regraphs {
      match op
      case OnAction(x) => ActionFrame(w, b, x);
      case OnMove(m) => StuckStays(w, b, m, q);
      case OnTraffic(t) => TrafficFrame(w, b, t);
      case OnUnit(u) => UnitFrame(w, b, u);
    }
  }

  /** An order that restates the node before the current one never ends: whatever happens, the
      robot is not idle again until the graph is replaced or cleared. */
  lemma StaleOrderNeverEnds(w: World, s: Robot, events: seq<Event>)
    requires Stale(s.task)
    ensures var r := Run(w, s, events);
            r.hist.orders.regraphs == s.hist.orders.regraphs ==> r.task.nodes != [] && r.task.edges != [] && !Idle(r)
  {
    hide Stuck;
    StaleIsStuck(s.task);
    var inv := (r: Robot) => StaysStuck(s, r, s.task.lastSeq);
    forall r: Robot, op: Op ensures Keeps(w, inv)(r, op) {
      if inv(r) && Enabled(w, r, op) { StuckKept(w, s, r, op, s.task.lastSeq); }
    }
    RunInduction(w, inv, s, events);
    StuckHasGraph(Run(w, s, events).task, s.task.lastSeq);
  }

  /** For instance: at the second of three nodes, an update that restates all three is taken, and
      never ends. */
  lemma RestatedRouteNeverEnds(w: World, s: Robot, o: Order, events: seq<Event>)
    requires !s.mode.hibernating && s.task.orderId != "" && s.task.lastSeq == 2
    requires o.orderId == s.task.orderId && o.updateId > s.task.updateId
    requires |o.nodes| == 3 && o.nodes[0].seqId == 0 && o.nodes[1].seqId == 2 && o.nodes[2].seqId == 4
    requires |o.edges| == 2 && o.edges[0].seqId == 1 && o.edges[1].seqId == 3
    ensures var a := HandleOrder(w, s, o);
            var r := Run(w, a, events);
            a.task.nodes == o.nodes && (r.hist.orders.regraphs == a.hist.orders.regraphs ==> !Idle(r))
  {
    hide AcceptOrder, Run, UnknownMaps, Stale, Idle;
    var c := WarnUnknownMaps(s, o);
    AcceptedOrder(w, c, o, true);
    var a := AcceptOrder(w, c, o, true);
    assert Contiguous(a.task.nodes, a.task.edges) && !Positioned(a.task) by {
      assert a.task.nodes[1].seqId == a.task.lastSeq;
    }
    StaleOrPositioned(a.task);
    StaleOrderNeverEnds(w, a, events);
  }

  lemma StaleIsStuck(t: Task)
    requires Stale(t)
    ensures Stuck(t, t.lastSeq)
  {
  }

  lemma StuckHasGraph(t: Task, q: int)
    ensures Stuck(t, q) ==> t.nodes != [] && t.edges != []
  {
  }

  // ---- nothing unfinished is left behind ------------------------------------------------------

  ghost predicate OrderIdsDistinct(b: Book) {
    forall i: nat, j: nat :: i < j < |b.order| ==> b.order[i].id != b.order[j].id
  }

  /** The movement-holding actions of the owners left behind are tracked and settled. */
  ghost predicate BehindIsSettled(s: Robot) {
    && s.hist.trip.settled <= Ids(s.book.order)
    && forall e :: e in s.book.order && e.id in s.hist.trip.settled ==> e.status == Finished || e.status == Failed
  }

  ghost predicate LeavesNothing(s: Robot) {
    PauseDiscipline(s) && OrderIdsDistinct(s.book) && BehindIsSettled(s)
  }

  /** Order entries keep their places and ids, and at most one is added, under a new id. */
  lemma OrderGrows(w: World, s: Robot, op: Op)
    requires Enabled(w, s, op) && !Renews(op)
    ensures var a, b := s.book.order, Apply(w, s, op).book.order;
            && |a| <= |b| <= |a| + 1
            && (forall i: nat :: i < |a| ==> b[i].id == a[i].id && (a[i].status.Terminal() ==> b[i].status.Terminal()))
            && (|a| < |b| ==> b[|a|].id !in Ids(a))
  {
    hide ActionEnabled, OrderEnabled, MoveEnabled, ApplyMove, TrafficEnabled, ApplyTraffic, UnitEnabled, ApplyUnit;
    OrderEntriesStay(w, s, op);
    forall i: nat | i < |s.book.order|
      ensures var f := Apply(w, s, op).book.order[i];
              f.id == s.book.order[i].id && (s.book.order[i].status.Terminal() ==> f.status.Terminal())
    {
      var p := Spot(OrderTrack, i);
      assert Valid(Apply(w, s, op).book, p) && At(Apply(w, s, op).book, p) == Apply(w, s, op).book.order[i];
      var q := EntryOrigin(w, s, op, p);
    }
    match op
    case OnAction(a) => ActionGrows(w, s, a);
    case OnOrder(o) =>
    case OnMove(m) => MoveFrame(w, s, m);
    case OnTraffic(t) => TrafficFrame(w, s, t);
    case OnUnit(u) => UnitFrame(w, s, u);
  }

  lemma ActionGrows(w: World, s: Robot, op: ActionOp)
    requires ActionEnabled(w, s, op)
    ensures var a, b := s.book.order, ApplyAction(w, s, op).book.order;
            |b| <= |a| + 1 && (|a| < |b| ==> b[|a|].id !in Ids(a))
  {
    hide ApplyEffect, Landing, Live, Due, Active, Idle, LiveId;
    if op.Completing? { LandingHolds(s, op.spot, s.book.registry[At(s.book, op.spot).id]); }
  }

  /** While nothing is paused, an owner that does not block has all its actions settled but those of
      blocking type NONE. So what `settled` gains when an owner is left behind is settled. */
  lemma HoldersAreSettled(s: Robot, ids: seq<string>)
    requires PauseDiscipline(s) && OrderIdsDistinct(s.book) && !s.mode.paused && !IsBlocking(s.book, ids)
    ensures Holders(s.book, ids) <= Ids(s.book.order)
    ensures forall e :: e in s.book.order && e.id in ids && e.id in s.book.registry ==>
              s.book.registry[e.id].blocking == NoBlocking || e.status == Finished || e.status == Failed
  {
    forall i: nat | i < |s.book.order| && s.book.order[i].id in Holders(s.book, ids)
      ensures s.book.order[i].status == Finished || s.book.order[i].status == Failed
    {
      var id := s.book.order[i].id;
      assert !Holding(s.book, id);
      var j := FirstIndex(s.book.order, (e: Entry) => e.id == id);
      assert j == i;
      assert At(s.book, Spot(OrderTrack, i)) == s.book.order[i] && Valid(s.book, Spot(OrderTrack, i));
    }
  }

  lemma MoveSettled(w: World, s: Robot, op: MoveOp)
    requires LeavesNothing(s) && MoveEnabled(w, s, op)
    ensures BehindIsSettled(ApplyMove(w, s, op))
  {
    hide StepTowards, GatesOpen, LeasesFresh, Holders, CurrentNode, FindEdge, FindNode, Without, WithoutEdge,
      PauseDiscipline, OrderIdsDistinct, IsBlocking, InstantIsBlocking, OwnerActions;
    if op.Leaving? {
      HoldersAreSettled(s, OwnerActions(op.at, None));
      SettledHolders(s, OwnerActions(op.at, None));
    } else if op.Driving? {
      HoldersAreSettled(s, OwnerActions(op.from, Some(op.edge)));
      SettledHolders(s, OwnerActions(op.from, Some(op.edge)));
    }
  }

  lemma SettledHolders(s: Robot, ids: seq<string>)
    ensures forall id :: id in Holders(s.book, ids) ==>
              id in ids && id in s.book.registry && s.book.registry[id].blocking != NoBlocking
  {
  }

  lemma LeavesNothingKept(w: World, s: Robot, op: Op)
    requires LeavesNothing(s) && Enabled(w, s, op)
    ensures LeavesNothing(Apply(w, s, op))
  {
    hide ActionEnabled, ApplyAction, OrderEnabled, MoveEnabled, ApplyMove, TrafficEnabled, ApplyTraffic,
      UnitEnabled, ApplyUnit, PauseDiscipline;
    PauseDisciplineKept(w, s, op);
    var r := Apply(w, s, op);
    if !Renews(op) {
      OrderGrows(w, s, op);
      SettledSoFar(s, r);
      match op
      case OnAction(a) => ActionFrame(w, s, a);
      case OnOrder(o) =>
      case OnMove(m) =>
        MoveFrame(w, s, m);
        MoveSettled(w, s, m);
      case OnTraffic(t) => TrafficFrame(w, s, t);
      case OnUnit(u) => UnitFrame(w, s, u);
    }
  }

  /** What was settled stays so while the order entries keep their places and only new ids are added. */
  lemma SettledSoFar(s: Robot, r: Robot)
    requires OrderIdsDistinct(s.book) && BehindIsSettled(s)
    requires |s.book.order| <= |r.book.order| <= |s.book.order| + 1
    requires forall i: nat :: i < |s.book.order| ==>
               r.book.order[i].id == s.book.order[i].id
               && (s.book.order[i].status.Terminal() ==> r.book.order[i].status.Terminal())
    requires |s.book.order| < |r.book.order| ==> r.book.order[|s.book.order|].id !in Ids(s.book.order)
    ensures OrderIdsDistinct(r.book)
    ensures r.hist.trip.settled == s.hist.trip.settled ==> BehindIsSettled(r)
  {
    forall i: nat | i < |s.book.order| ensures s.book.order[i].id in Ids(s.book.order) {
      assert s.book.order[i] in s.book.order;
    }
    assert Ids(s.book.order) <= Ids(r.book.order) by {
      forall id | id in Ids(s.book.order) ensures id in Ids(r.book.order) {
        var i :| 0 <= i < |s.book.order| && s.book.order[i].id == id;
        assert r.book.order[i] in r.book.order;
      }
    }
    if r.hist.trip.settled == s.hist.trip.settled {
      forall i: nat | i < |r.book.order| && r.book.order[i].id in r.hist.trip.settled
        ensures r.book.order[i].status.Terminal()
      {
        if i < |s.book.order| { assert s.book.order[i] in s.book.order; }
      }
    }
  }

  /** On every run, whatever is paused, broken, retried or updated in between: no HARD, SOFT or
      SINGLE action of a node or edge the robot has left behind is unfinished. */
  lemma NothingUnfinishedBehind(w: World, s: Robot, events: seq<Event>)
    requires LeavesNothing(s)
    ensures LeavesNothing(Run(w, s, events))
  {
    var inv := (r: Robot) => LeavesNothing(r);
    forall r: Robot, op: Op ensures Keeps(w, inv)(r, op) {
      if inv(r) && Enabled(w, r, op) { LeavesNothingKept(w, r, op); }
    }
    RunInduction(w, inv, s, events);
  }
}
