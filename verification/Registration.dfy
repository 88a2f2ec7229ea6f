/** What taking an order does to its actions: exactly which entries it creates, in which order and with
    which verdict, by the scope of the owner each action stands on; and what of that lasts. */
module Registration {
  import opened Vda5050
  import opened Platform
  import opened ActionCatalog
  import opened RobotState
  import opened Transitions
  import opened Lifecycle
  import opened Effects
  import opened Scopes

  // ---- the entries of an order --------------------------------------------------------

  /** The entry an action gets in a scope: WAITING if catalog and capabilities accept it there, else FAILED. */
  function Verdict(w: World, a: Action, scope: Scope): Entry {
    Entry(a.id, a.kind, if Accepted(a.kind, scope, w.cfg.supported) then Waiting else Failed)
  }

  function Verdicts(w: World, actions: seq<Action>, scope: Scope): seq<Entry> {
    seq(|actions|, i requires 0 <= i < |actions| => Verdict(w, actions[i], scope))
  }

  /** Of the actions, those with an id that is neither known nor that of an earlier one. */
  function Firsts(actions: seq<Action>, known: set<string>): seq<Action> {
    if actions == [] then []
    else if actions[0].id in known then Firsts(actions[1..], known)
    else [actions[0]] + Firsts(actions[1..], known + {actions[0].id})
  }

  function IdsOf(actions: seq<Action>): set<string> {
    set a | a in actions :: a.id
  }

  ghost predicate IdsDistinct(actions: seq<Action>) {
    forall i: nat, j: nat :: i < j < |actions| ==> actions[i].id != actions[j].id
  }

  lemma {:induction false} DistinctFirsts(actions: seq<Action>, known: set<string>)
    requires IdsDistinct(actions)
    ensures Firsts(actions, known) == Filter(actions, (a: Action) => a.id !in known)
  {
    if actions != [] {
      var rest, id := actions[1..], actions[0].id;
      DistinctFirsts(rest, known);
      DistinctFirsts(rest, known + {id});
      forall a | a in rest ensures a.id != id {
        var j :| 0 <= j < |rest| && rest[j] == a;
        assert actions[j + 1] == a;
      }
      SameFilter(rest, (a: Action) => a.id !in known, (a: Action) => a.id !in known + {id});
    }
  }

  lemma {:induction false} SameFilter<T(!new)>(xs: seq<T>, p: T -> bool, q: T -> bool)
    requires forall x :: x in xs ==> (p(x) <==> q(x))
    ensures Filter(xs, p) == Filter(xs, q)
  {
    if xs != [] {
      assert xs[0] in xs;
      SameFilter(xs[1..], p, q);
    }
  }

  lemma NoneKnown(actions: seq<Action>)
    requires IdsDistinct(actions)
    ensures Firsts(actions, {}) == actions
  {
    var known: set<string> := {};
    DistinctFirsts(actions, known);
    FilterEverything(actions, (a: Action) => a.id !in known);
  }

  lemma {:induction false} FilterEverything<T(!new)>(xs: seq<T>, p: T -> bool)
    requires forall x :: x in xs ==> p(x)
    ensures Filter(xs, p) == xs
  {
    if xs != [] {
      assert xs[0] in xs;
      FilterEverything(xs[1..], p);
    }
  }

  /** What registering one action does: an entry behind the others; a definition if it is accepted, and an
      error if not. */
  lemma RegisteredAction(w: World, s: Robot, a: Action, scope: Scope)
    ensures var r := RegisterOrderAction(w, s, a, scope);
            && r.book.order == s.book.order + [Verdict(w, a, scope)]
            && r.book.registry == (if Verdict(w, a, scope).status.Waiting? then s.book.registry[a.id := a]
                                   else s.book.registry)
            && r.errors == s.errors + Complaints([Verdict(w, a, scope)])
  {
    hide LiveId, Accepted;
  }

  /** Registering actions in a scope adds exactly the verdicts on those with new ids, in order. */
  lemma {:induction false} RegisteredEntries(w: World, s: Robot, actions: seq<Action>, scope: Scope)
    ensures var r := RegisterAll(w, s, actions, scope);
            && r.book.order == s.book.order + Verdicts(w, Firsts(actions, Ids(s.book.order)), scope)
            && Ids(r.book.order) == Ids(s.book.order) + IdsOf(actions)
    decreases |actions|
  {
    hide RegisterOrderAction, Ids, Verdict, IdsOf;
    if actions == [] {
      NoIds();
    } else {
      var a, es := actions[0], s.book.order;
      var t := if a.id in Ids(es) then s else RegisterOrderAction(w, s, a, scope);
      RegisteredEntries(w, t, actions[1..], scope);
      OneMoreId(actions);
      if a.id !in Ids(es) {
        RegisteredAction(w, s, a, scope);
        IdOfVerdict(w, es, a, scope);
        var rest := Firsts(actions[1..], Ids(es) + {a.id});
        assert Verdicts(w, [a] + rest, scope) == [Verdict(w, a, scope)] + Verdicts(w, rest, scope);
      }
    }
  }

  lemma NoIds()
    ensures IdsOf([]) == {}
  {
  }

  lemma OneMoreId(actions: seq<Action>)
    requires actions != []
    ensures IdsOf(actions) == {actions[0].id} + IdsOf(actions[1..])
  {
    assert forall a :: a in actions <==> a == actions[0] || a in actions[1..];
  }

  lemma IdOfVerdict(w: World, es: seq<Entry>, a: Action, scope: Scope)
    ensures Ids(es + [Verdict(w, a, scope)]) == Ids(es) + {a.id}
  {
    var r := es + [Verdict(w, a, scope)];
    assert r[|es|] in r && forall e :: e in r <==> e in es || e == Verdict(w, a, scope);
  }

  /** One VALIDATION_ERROR for each entry that is FAILED. */
  function Complaints(es: seq<Entry>): multiset<ErrorKind> {
    if es == [] then multiset{}
    else (if es[0].status.Failed? then multiset{ValidationError} else multiset{}) + Complaints(es[1..])
  }

  /** Registering actions complains of exactly those it refuses, and of nothing else. */
  lemma {:induction false} RefusalsReported(w: World, s: Robot, actions: seq<Action>, scope: Scope)
    ensures RegisterAll(w, s, actions, scope).errors
         == s.errors + Complaints(Verdicts(w, Firsts(actions, Ids(s.book.order)), scope))
    decreases |actions|
  {
    hide RegisterOrderAction, Ids, Verdict, Verdicts, Complaints;
    NoComplaints(w, scope);
    if actions != [] {
      var a, es := actions[0], s.book.order;
      var t := if a.id in Ids(es) then s else RegisterOrderAction(w, s, a, scope);
      RefusalsReported(w, t, actions[1..], scope);
      if a.id !in Ids(es) {
        RegisteredAction(w, s, a, scope);
        IdOfVerdict(w, es, a, scope);
        FirstComplaint(w, a, Firsts(actions[1..], Ids(es) + {a.id}), scope);
      }
    }
  }

  lemma NoComplaints(w: World, scope: Scope)
    ensures Complaints(Verdicts(w, [], scope)) == multiset{}
  {
  }

  lemma FirstComplaint(w: World, a: Action, rest: seq<Action>, scope: Scope)
    ensures Complaints(Verdicts(w, [a] + rest, scope))
         == Complaints([Verdict(w, a, scope)]) + Complaints(Verdicts(w, rest, scope))
  {
    hide Verdict;
    assert Verdicts(w, [a] + rest, scope) == [Verdict(w, a, scope)] + Verdicts(w, rest, scope);
  }

  /** The entries after an order is taken, exactly: those it found, none for a new order; then a verdict
      in NODE scope on each action of its nodes, and then one in EDGE scope on each action of its edges,
      whose id was not known before; and one error for each that is refused. */
  lemma AcceptedEntries(w: World, s: Robot, o: Order, isUpdate: bool)
    ensures var r := AcceptOrder(w, s, o, isUpdate);
            var found := if isUpdate then s.book.order else [];
            var nodeActions, edgeActions := NodeActions(o.nodes), EdgeActions(o.edges);
            var onNodes := Verdicts(w, Firsts(nodeActions, Ids(found)), NodeScope);
            var onEdges := Verdicts(w, Firsts(edgeActions, Ids(found) + IdsOf(nodeActions)), EdgeScope);
            && r.book.order == found + onNodes + onEdges
            && r.errors == s.errors + Complaints(onNodes) + Complaints(onEdges)
  {
    hide RegisterAll, Verdicts, Firsts, Ids, IdsOf, Complaints;
    var t := TakeOrder(s, o, isUpdate);
    var n := RegisterAll(w, t, NodeActions(o.nodes), NodeScope);
    RegisteredEntries(w, t, NodeActions(o.nodes), NodeScope);
    RegisteredEntries(w, n, EdgeActions(o.edges), EdgeScope);
    RefusalsReported(w, t, NodeActions(o.nodes), NodeScope);
    RefusalsReported(w, n, EdgeActions(o.edges), EdgeScope);
  }

  /** A new order whose action ids are distinct: its entries are the verdicts on the actions of its
      nodes and then on those of its edges, each in the scope of its owner. */
  lemma NewOrderEntries(w: World, s: Robot, o: Order)
    requires IdsDistinct(NodeActions(o.nodes) + EdgeActions(o.edges))
    ensures AcceptOrder(w, s, o, false).book.order
         == Verdicts(w, NodeActions(o.nodes), NodeScope) + Verdicts(w, EdgeActions(o.edges), EdgeScope)
  {
    hide AcceptOrder, Verdicts, Firsts;
    var ns, es := NodeActions(o.nodes), EdgeActions(o.edges);
    AcceptedEntries(w, s, o, false);
    DistinctParts(ns, es);
    NoneKnown(ns);
    DistinctFirsts(es, IdsOf(ns));
    FilterEverything(es, (a: Action) => a.id !in IdsOf(ns));
    assert Ids([]) == {} && {} + IdsOf(ns) == IdsOf(ns);
    assert [] + Verdicts(w, ns, NodeScope) == Verdicts(w, ns, NodeScope);
  }

  lemma DistinctParts(ns: seq<Action>, es: seq<Action>)
    requires IdsDistinct(ns + es)
    ensures IdsDistinct(ns) && IdsDistinct(es) && forall a :: a in es ==> a.id !in IdsOf(ns)
  {
    forall i: nat, j: nat | i < j < |ns| ensures ns[i].id != ns[j].id {
      assert (ns + es)[i] == ns[i] && (ns + es)[j] == ns[j];
    }
    forall i: nat, j: nat | i < j < |es| ensures es[i].id != es[j].id {
      assert (ns + es)[|ns| + i] == es[i] && (ns + es)[|ns| + j] == es[j];
    }
    forall i: nat, j: nat | i < |ns| && j < |es| ensures ns[i].id != es[j].id {
      assert (ns + es)[i] == ns[i] && (ns + es)[|ns| + j] == es[j];
    }
  }

  /** An update whose action ids are distinct adds the verdicts on the actions it brings anew, and leaves
      the entries it finds as they are, wherever their actions stand now. */
  lemma UpdateEntries(w: World, s: Robot, o: Order)
    requires IdsDistinct(NodeActions(o.nodes) + EdgeActions(o.edges))
    ensures var isNew := (a: Action) => a.id !in Ids(s.book.order);
            AcceptOrder(w, s, o, true).book.order
              == s.book.order + Verdicts(w, Filter(NodeActions(o.nodes), isNew), NodeScope)
                 + Verdicts(w, Filter(EdgeActions(o.edges), isNew), EdgeScope)
  {
    hide AcceptOrder, Verdicts, Firsts, Ids;
    var ns, es, known := NodeActions(o.nodes), EdgeActions(o.edges), Ids(s.book.order);
    AcceptedEntries(w, s, o, true);
    DistinctParts(ns, es);
    DistinctFirsts(ns, known);
    DistinctFirsts(es, known + IdsOf(ns));
    SameFilter(es, (a: Action) => a.id !in known, (a: Action) => a.id !in known + IdsOf(ns));
    SameFilter(es, (a: Action) => a.id !in known, (a: Action) => a.id !in Ids(s.book.order));
    SameFilter(ns, (a: Action) => a.id !in known, (a: Action) => a.id !in Ids(s.book.order));
  }

  /** The actions of nodes, and of edges, are listed owner after owner. */
  lemma {:induction false} NodeActionsInOrder(a: seq<Node>, b: seq<Node>)
    ensures NodeActions(a + b) == NodeActions(a) + NodeActions(b)
    ensures |a| == 1 ==> NodeActions(a) == a[0].actions
  {
    if a == [] {
      assert a + b == b;
    } else {
      assert (a + b)[1..] == a[1..] + b;
      NodeActionsInOrder(a[1..], b);
    }
  }

  lemma {:induction false} EdgeActionsInOrder(a: seq<Edge>, b: seq<Edge>)
    ensures EdgeActions(a + b) == EdgeActions(a) + EdgeActions(b)
    ensures |a| == 1 ==> EdgeActions(a) == a[0].actions
  {
    if a == [] {
      assert a + b == b;
    } else {
      assert (a + b)[1..] == a[1..] + b;
      EdgeActionsInOrder(a[1..], b);
    }
  }

  // ---- the scope of the owner, over runs --------------------------------------------------

  /** Whether an action of this id and type stands on an owner of the order in a scope that accepts it. */
  predicate OwnerAccepts(w: World, o: Order, id: string, kind: ActionKind) {
    || (exists a :: a in NodeActions(o.nodes) && a.id == id && a.kind == kind
                    && Accepted(kind, NodeScope, w.cfg.supported))
    || (exists a :: a in EdgeActions(o.edges) && a.id == id && a.kind == kind
                    && Accepted(kind, EdgeScope, w.cfg.supported))
  }

  /** Some of the orders from index `first` on accepts it on an owner. */
  ghost predicate SomeAccepts(w: World, graphs: seq<Order>, first: nat, id: string, kind: ActionKind) {
    exists i: nat :: first <= i < |graphs| && OwnerAccepts(w, graphs[i], id, kind)
  }

  /** Every live order entry was accepted for an owner it stood on in the order or one of its updates;
      every effect of an order action, under an id that has never clashed, likewise in some order. */
  ghost predicate OwnersAccept(w: World, s: Robot) {
    var log := s.hist.orders;
    && (forall i: nat :: i < |s.book.order| && !s.book.order[i].status.Terminal() ==>
          SomeAccepts(w, log.graphs, log.current, s.book.order[i].id, s.book.order[i].kind))
    && (forall e :: e in s.hist.actions.effects && e.track.OrderTrack? && e.id !in s.hist.actions.clashes ==>
          SomeAccepts(w, log.graphs, 0, e.id, e.def.kind))
  }

  /** The kept copy is the last order taken, and belongs to the present order. */
  ghost predicate CopyIsLast(s: Robot) {
    var log := s.hist.orders;
    && log.current <= |log.graphs|
    && (s.task.snapshot.Some? ==>
          log.current < |log.graphs| && log.graphs[|log.graphs| - 1] == s.task.snapshot.value)
  }

  ghost predicate OwnersHeeded(w: World, s: Robot) {
    CopyIsLast(s) && ScopeDiscipline(w, s) && OwnersAccept(w, s)
  }

  /** How the log of orders moves. */
  lemma OrderLogAfter(w: World, s: Robot, op: Op)
    requires Enabled(w, s, op)
    ensures var a, b := s.hist.orders, Apply(w, s, op).hist.orders;
            && b.graphs == a.graphs + (if op.OnOrder? && op.o.Taking? then [op.o.order] else [])
            && b.current == (if Renews(op) then |a.graphs| else a.current)
            && Apply(w, s, op).task.snapshot ==
                 (if op.OnOrder? then if op.o.Taking? then Some(op.o.order) else None else s.task.snapshot)
  {
    hide ActionEnabled, ApplyAction, MoveEnabled, ApplyMove, TrafficEnabled, ApplyTraffic, UnitEnabled, ApplyUnit, Idle,
      SetStatus, FirstIndex;
    match op
    case OnAction(a) => ActionFrame(w, s, a);
    case OnOrder(o) =>
    case OnMove(m) => MoveFrame(w, s, m);
    case OnTraffic(t) => TrafficFrame(w, s, t);
    case OnUnit(u) => UnitFrame(w, s, u);
  }

  lemma StillSomeAccepts(w: World, graphs: seq<Order>, more: seq<Order>, first: nat, id: string, kind: ActionKind)
    requires SomeAccepts(w, graphs, first, id, kind)
    ensures SomeAccepts(w, graphs + more, first, id, kind)
  {
    hide OwnerAccepts;
    var i: nat :| first <= i < |graphs| && OwnerAccepts(w, graphs[i], id, kind);
    assert (graphs + more)[i] == graphs[i];
  }

  /** The entry an order's registration creates is accepted for its owner in that order. */
  lemma SpawnedForOwner(w: World, s: Robot, op: ActionOp)
    requires CopyIsLast(s) && ActionEnabled(w, s, op) && op.Spawning? && op.track.OrderTrack?
    ensures SomeAccepts(w, s.hist.orders.graphs, s.hist.orders.current, op.action.id, op.action.kind)
  {
    hide FitsTrack, Accepted;
    assert OwnerAccepts(w, s.task.snapshot.value, op.action.id, op.action.kind);
    assert s.hist.orders.graphs[|s.hist.orders.graphs| - 1] == s.task.snapshot.value;
  }

  lemma OwnersHeededKept(w: World, s: Robot, op: Op)
    requires OwnersHeeded(w, s) && Enabled(w, s, op)
    ensures OwnersHeeded(w, Apply(w, s, op))
  {
    hide Apply, Enabled, ScopeDiscipline, SomeAccepts, CommandedIds, BrokenIds, ClashedIds;
    OrderLogAfter(w, s, op);
    ScopeDisciplineKept(w, s, op);
    EntriesHeeded(w, s, op);
    EffectsHeeded(w, s, op);
  }

  lemma EntriesHeeded(w: World, s: Robot, op: Op)
    requires OwnersHeeded(w, s) && Enabled(w, s, op)
    ensures var r := Apply(w, s, op);
            forall i: nat :: i < |r.book.order| && !r.book.order[i].status.Terminal() ==>
              SomeAccepts(w, r.hist.orders.graphs, r.hist.orders.current, r.book.order[i].id, r.book.order[i].kind)
  {
    hide Apply, ActionEnabled, OrderEnabled, MoveEnabled, TrafficEnabled, UnitEnabled, ScopeDiscipline, SomeAccepts;
    OrderLogAfter(w, s, op);
    if Renews(op) { RenewalEmpties(w, s, op); }
    var a, b, r := s.hist.orders, Apply(w, s, op).hist.orders, Apply(w, s, op).book;
    forall i: nat | i < |r.order| && !r.order[i].status.Terminal()
      ensures SomeAccepts(w, b.graphs, b.current, r.order[i].id, r.order[i].kind)
    {
      var p := Spot(OrderTrack, i);
      assert Valid(r, p) && At(r, p) == r.order[i];
      var q := EntryOrigin(w, s, op, p);
      if !Valid(s.book, p) && Newcomer(op, OrderTrack, r.order[i]) {
        SpawnedForOwner(w, s, op.a);
        StillSomeAccepts(w, a.graphs, [], a.current, r.order[i].id, r.order[i].kind);
      } else {
        assert s.book.order[i] == At(s.book, q);
        StillSomeAccepts(w, a.graphs, b.graphs[|a.graphs|..], a.current, r.order[i].id, r.order[i].kind);
        assert a.graphs + b.graphs[|a.graphs|..] == b.graphs;
      }
    }
  }

  lemma RenewalEmpties(w: World, s: Robot, op: Op)
    requires Enabled(w, s, op) && Renews(op)
    ensures Apply(w, s, op).book.order == []
  {
    hide SetStatus, FirstIndex, Idle;
  }

  lemma EffectsHeeded(w: World, s: Robot, op: Op)
    requires OwnersHeeded(w, s) && Enabled(w, s, op)
    ensures var r := Apply(w, s, op);
            forall e :: e in r.hist.actions.effects && e.track.OrderTrack? && e.id !in r.hist.actions.clashes ==>
              SomeAccepts(w, r.hist.orders.graphs, 0, e.id, e.def.kind)
  {
    hide Apply, ActionEnabled, OrderEnabled, MoveEnabled, TrafficEnabled, UnitEnabled, SomeAccepts, ClashedIds;
    OrderLogAfter(w, s, op);
    CountersAfter(w, s, op);
    EffectsAfter(w, s, op);
    var a, b, r := s.hist.orders, Apply(w, s, op).hist.orders, Apply(w, s, op).hist.actions;
    forall e | e in r.effects && e.track.OrderTrack? && e.id !in r.clashes
      ensures SomeAccepts(w, b.graphs, 0, e.id, e.def.kind)
    {
      if e !in s.hist.actions.effects { CompletedForOwner(w, s, op, e); }
      StillSomeAccepts(w, a.graphs, b.graphs[|a.graphs|..], 0, e.id, e.def.kind);
      assert a.graphs + b.graphs[|a.graphs|..] == b.graphs;
    }
  }

  /** The effects after an operation: those before, and that of the entry it completes. */
  lemma EffectsAfter(w: World, s: Robot, op: Op)
    requires Enabled(w, s, op)
    ensures forall e :: e in Apply(w, s, op).hist.actions.effects ==>
              e in s.hist.actions.effects || CompletesAs(s, op, e)
  {
    hide ActionEnabled, ApplyAction, OrderEnabled, ApplyOrder, MoveEnabled, ApplyMove, TrafficEnabled, ApplyTraffic,
      UnitEnabled, ApplyUnit;
    match op
    case OnAction(a) => EffectsGrow(w, s, a);
    case OnOrder(o) => OrderFrame(s, o);
    case OnMove(m) => MoveFrame(w, s, m);
    case OnTraffic(t) => TrafficFrame(w, s, t);
    case OnUnit(u) => UnitFrame(w, s, u);
  }

  predicate CompletesAs(s: Robot, op: Op, e: Effect) {
    && op.OnAction? && op.a.Completing? && Registered(s, op.a.spot) && !At(s.book, op.a.spot).status.Terminal()
    && e.track == op.a.spot.track && e.id == At(s.book, op.a.spot).id && e.def == s.book.registry[e.id]
  }

  lemma CompletedForOwner(w: World, s: Robot, op: Op, e: Effect)
    requires OwnersHeeded(w, s) && CompletesAs(s, op, e) && e.track.OrderTrack? && e.id !in s.hist.actions.clashes
    ensures SomeAccepts(w, s.hist.orders.graphs, 0, e.id, e.def.kind)
  {
    hide OwnerAccepts;
    var p := op.a.spot;
    assert Consistent(s.book, At(s.book, p)) && At(s.book, p) == s.book.order[p.index];
  }

  /** On every run no action of an order is live, and none takes effect, unless catalog and capabilities
      accept its type in the scope of an owner it stood on: a node or an edge, in the order that brought
      it or an update of that. */
  lemma OwnersAlwaysHeeded(w: World, s: Robot, events: seq<Event>)
    requires OwnersHeeded(w, s)
    ensures OwnersHeeded(w, Run(w, s, events))
  {
    hide OwnersHeeded;
    var inv := (r: Robot) => OwnersHeeded(w, r);
    forall r: Robot, op: Op ensures Keeps(w, inv)(r, op) {
      if inv(r) && Enabled(w, r, op) { OwnersHeededKept(w, r, op); }
    }
    RunInduction(w, inv, s, events);
  }

  /** In particular, a live action that never stood on a node of the order or its updates is accepted in
      EDGE scope, and one that never stood on an edge in NODE scope. */
  lemma OnlyOnOneKindOfOwner(w: World, s: Robot, e: Entry)
    requires OwnersHeeded(w, s) && e in s.book.order && !e.status.Terminal()
    ensures var log := s.hist.orders;
            && ((forall i: nat :: log.current <= i < |log.graphs| ==>
                   e.id !in IdsOf(NodeActions(log.graphs[i].nodes))) ==>
                  Accepted(e.kind, EdgeScope, w.cfg.supported))
            && ((forall i: nat :: log.current <= i < |log.graphs| ==>
                   e.id !in IdsOf(EdgeActions(log.graphs[i].edges))) ==>
                  Accepted(e.kind, NodeScope, w.cfg.supported))
  {
    hide ScopeDiscipline, Accepted;
  }

  // ---- the scope of the present owner --------------------------------------------------------

  predicate StandsIn(o: Order, id: string) {
    id in IdsOf(NodeActions(o.nodes)) || id in IdsOf(EdgeActions(o.edges))
  }

  /** Every live entry among `es` that stands in the order is accepted for an owner it has there. */
  predicate Conform(w: World, o: Order, es: seq<Entry>) {
    forall e :: e in es && !e.status.Terminal() && StandsIn(o, e.id) ==> OwnerAccepts(w, o, e.id, e.kind)
  }

  lemma FirstsAreActions(actions: seq<Action>, known: set<string>)
    ensures forall a :: a in Firsts(actions, known) ==> a in actions
  {
  }

  lemma VerdictsConform(w: World, o: Order, actions: seq<Action>, scope: Scope)
    requires forall a :: a in actions ==> StandsOn(o, a, scope)
    ensures Conform(w, o, Verdicts(w, actions, scope))
  {
    hide Accepted;
    var es := Verdicts(w, actions, scope);
    forall e | e in es && !e.status.Terminal() ensures OwnerAccepts(w, o, e.id, e.kind) {
      var i :| 0 <= i < |es| && es[i] == e;
      assert actions[i] in actions && e == Verdict(w, actions[i], scope);
    }
  }

  /** Taking an order judges only the actions it brings anew. All live entries are accepted for an owner
      they have in the present order if and only if those it found were: always for a new order, and
      for an update exactly if it moves no live action from a node to an edge, or back, that is not
      accepted there. */
  lemma UpdateConformsIff(w: World, s: Robot, o: Order, isUpdate: bool)
    ensures Conform(w, o, AcceptOrder(w, s, o, isUpdate).book.order)
       <==> !isUpdate || Conform(w, o, s.book.order)
  {
    hide AcceptOrder, OwnerAccepts, StandsIn, Verdicts;
    var ns, es := NodeActions(o.nodes), EdgeActions(o.edges);
    var found := if isUpdate then s.book.order else [];
    AcceptedEntries(w, s, o, isUpdate);
    FirstsAreActions(ns, Ids(found));
    FirstsAreActions(es, Ids(found) + IdsOf(ns));
    var vn := Verdicts(w, Firsts(ns, Ids(found)), NodeScope);
    var ve := Verdicts(w, Firsts(es, Ids(found) + IdsOf(ns)), EdgeScope);
    VerdictsConform(w, o, Firsts(ns, Ids(found)), NodeScope);
    VerdictsConform(w, o, Firsts(es, Ids(found) + IdsOf(ns)), EdgeScope);
    assert forall e :: e in found + vn + ve <==> e in found || e in vn || e in ve;
  }

  /** For instance: an update that moves a waiting startCharging from a node to an edge is taken, and
      the action stays live on an edge, where the catalog does not allow it. */
  lemma MovedActionStaysLive(w: World, s: Robot, o: Order, id: string)
    requires s.book.order == [Entry(id, StartCharging, Waiting)]
    requires NodeActions(o.nodes) == [] && id in IdsOf(EdgeActions(o.edges))
    ensures var r := AcceptOrder(w, s, o, true);
            && s.book.order[0] in r.book.order && StandsIn(o, id)
            && !OwnerAccepts(w, o, id, StartCharging) && !Conform(w, o, r.book.order)
  {
    hide AcceptOrder, OwnerAccepts, IdsOf, NodeActions, EdgeActions;
    var r := AcceptOrder(w, s, o, true);
    NotOnEdges(w, o, id);
    UpdateConformsIff(w, s, o, true);
    EntriesFound(w, s, o);
    assert s.book.order[0] in s.book.order;
  }

  lemma NotOnEdges(w: World, o: Order, id: string)
    requires NodeActions(o.nodes) == []
    ensures !OwnerAccepts(w, o, id, StartCharging)
  {
  }

  lemma EntriesFound(w: World, s: Robot, o: Order)
    ensures forall e :: e in s.book.order ==> e in AcceptOrder(w, s, o, true).book.order
  {
    hide AcceptOrder, Verdicts, Firsts, Ids, IdsOf, Complaints;
    AcceptedEntries(w, s, o, true);
  }
}
