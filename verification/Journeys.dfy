/** Every state against the order it carries: what remains of the graph, the distance driven and the
    battery, all accounted for since the graph was taken. */
module Journeys {
  import opened Platform
  import opened RobotState
  import opened Transitions
  import opened Traversal
  import opened Motion

  /** The robot as it was, for order, place, distance and battery, when it took the graph it has: the
      whole graph of the order it keeps a copy of still before it. */
  function AsBoarded(s: Robot): Robot
    requires s.task.snapshot.Some?
  {
    var o, b := s.task.snapshot.value, s.hist.trip.boarded;
    s.(task := s.task.(nodes := o.nodes, edges := o.edges, lastSeq := b.lastSeq), pose := b.pose,
       hist := s.hist.(trip := s.hist.trip.(legs := 0, odometer := b.odometer, jumps := b.jumps, charges := b.charges)))
  }

  /** If the graph was tidy when it was taken, what is left is exactly the suffix of the order's graph
      after the legs driven. */
  predicate OnCourse(s: Robot) {
    s.task.snapshot.Some? && Tidy(AsBoarded(s).task) ==> Suffix(AsBoarded(s), s)
  }

  /** The robot is on course, and then distance driven and distance to go balance; and in any case,
      unless charged since, the battery is what the distance has left of it. */
  ghost predicate Accounted(w: World, s: Robot) {
    && OnCourse(s)
    && (s.task.snapshot.Some? ==>
          var a := AsBoarded(s);
          (Tidy(a.task) ==> Telescopes(w, a, s)) && EnergySpent(w, a, s))
  }

  /** Two starting points that agree in all that the accounts depend on. */
  predicate SameStart(a: Robot, b: Robot) {
    && a.task.nodes == b.task.nodes && a.task.edges == b.task.edges && a.task.lastSeq == b.task.lastSeq
    && a.task.orderId == b.task.orderId && a.task.updateId == b.task.updateId && a.task.snapshot == b.task.snapshot
    && a.pose == b.pose && a.hist.trip.legs == b.hist.trip.legs && a.hist.trip.odometer == b.hist.trip.odometer
    && a.hist.trip.jumps == b.hist.trip.jumps && a.hist.trip.charges == b.hist.trip.charges
    && a.hist.orders.regraphs == b.hist.orders.regraphs
  }

  lemma SameAccounts(w: World, a: Robot, b: Robot, c: Robot)
    requires SameStart(a, b)
    ensures Tidy(a.task) <==> Tidy(b.task)
    ensures Suffix(a, c) <==> Suffix(b, c)
    ensures Telescopes(w, a, c) <==> Telescopes(w, b, c)
    ensures EnergySpent(w, a, c) <==> EnergySpent(w, b, c)
  {
    hide PathLength, Drained;
  }

  lemma OnCourseKept(w: World, s: Robot, op: Op)
    requires OnCourse(s) && Enabled(w, s, op)
    ensures OnCourse(Apply(w, s, op))
  {
    hide ActionEnabled, ApplyAction, OrderEnabled, ApplyOrder, MoveEnabled, ApplyMove, TrafficEnabled, ApplyTraffic,
      UnitEnabled, ApplyUnit, Suffix, Telescopes, EnergySpent, Tidy, AsBoarded;
    var c := Apply(w, s, op);
    if op.OnOrder? {
      TakenOnCourse(s, op.o);
    } else {
      BoardingStays(w, s, op);
      if s.task.snapshot.Some? {
        var a := AsBoarded(s);
        SameAccounts(w, a, AsBoarded(c), c);
        if Tidy(a.task) {
          BoardedHere(s);
          SuffixConsumes(a, s);
          ConsumesKept(w, a, s, op);
          ConsumedSuffix(a, c);
        }
      }
    }
  }

  lemma BoardedHere(s: Robot)
    requires s.task.snapshot.Some?
    ensures AsBoarded(s).hist.orders == s.hist.orders
  {
  }

  lemma TakenOnCourse(s: Robot, op: OrderOp)
    requires OrderEnabled(s, op)
    ensures OnCourse(ApplyOrder(s, op))
  {
    hide OrderEnabled, ApplyOrder, Suffix, Tidy, AsBoarded, Consumes;
    OrderBoards(s, op);
    var c := ApplyOrder(s, op);
    if c.task.snapshot.Some? && Tidy(c.task) {
      ConsumesItself(c);
      ConsumedSuffix(c, c);
    }
  }

  lemma AccountedKept(w: World, s: Robot, op: Op)
    requires HypotLaw(w) && 0.0 <= w.cfg.drainPerMeter && BatteryInRange(s)
    requires Accounted(w, s) && Enabled(w, s, op)
    ensures Accounted(w, Apply(w, s, op))
  {
    hide HypotLaw, Apply, ActionEnabled, MoveEnabled, TrafficEnabled, UnitEnabled, Suffix, Telescopes, EnergySpent,
      Tidy, OnCourse;
    OnCourseKept(w, s, op);
    if op.OnOrder? {
      OrderAccounted(w, s, op);
    } else {
      BoardingStays(w, s, op);
      if s.task.snapshot.Some? {
        var a, c := AsBoarded(s), Apply(w, s, op);
        SameAccounts(w, a, AsBoarded(c), c);
        EnergySpentKept(w, a, s, op);
        if Tidy(a.task) { TelescopesKept(w, a, s, op); }
      }
    }
  }

  lemma SuffixConsumes(a: Robot, b: Robot)
    requires a.hist.orders.regraphs == b.hist.orders.regraphs && Suffix(a, b)
    ensures Consumes(a, b)
  {
  }

  lemma ConsumedSuffix(a: Robot, b: Robot)
    requires a.hist.orders.regraphs == b.hist.orders.regraphs && Consumes(a, b)
    ensures Suffix(a, b)
  {
  }

  /** Only taking or clearing an order changes which graph is accounted for. */
  lemma BoardingStays(w: World, s: Robot, op: Op)
    requires Enabled(w, s, op) && !op.OnOrder?
    ensures var c := Apply(w, s, op);
            && c.task.snapshot == s.task.snapshot && c.hist.orders.regraphs == s.hist.orders.regraphs
            && (s.task.snapshot.Some? ==> SameStart(AsBoarded(s), AsBoarded(c)))
  {
    hide ActionEnabled, ApplyAction, MoveEnabled, ApplyMove, TrafficEnabled, ApplyTraffic, UnitEnabled, ApplyUnit;
    match op
    case OnAction(x) => ActionFrame(w, s, x);
    case OnMove(m) => MoveFrame(w, s, m);
    case OnTraffic(t) => TrafficFrame(w, s, t);
    case OnUnit(u) => UnitFrame(w, s, u);
  }

  lemma OrderAccounted(w: World, s: Robot, op: Op)
    requires 0.0 <= w.cfg.drainPerMeter && BatteryInRange(s) && Enabled(w, s, op) && op.OnOrder?
    ensures Accounted(w, Apply(w, s, op))
  {
    hide Suffix, Telescopes, EnergySpent, Tidy, AsBoarded, ActionEnabled, MoveEnabled, TrafficEnabled, UnitEnabled,
      OrderEnabled, ApplyOrder, OnCourse;
    TakenOnCourse(s, op.o);
    OrderBoards(s, op.o);
    var c := Apply(w, s, op);
    if c.task.snapshot.Some? { ItsOwnAccounts(w, c); }
  }

  /** An order just taken is accounted for from now on. */
  lemma OrderBoards(s: Robot, op: OrderOp)
    requires OrderEnabled(s, op)
    ensures var c := ApplyOrder(s, op);
            c.pose == s.pose && (c.task.snapshot.Some? ==> AsBoarded(c) == c)
  {
    hide Idle, SetStatus;
  }

  lemma ItsOwnAccounts(w: World, c: Robot)
    requires 0.0 <= w.cfg.drainPerMeter && BatteryInRange(c)
    ensures Tidy(c.task) ==> Telescopes(w, c, c)
    ensures EnergySpent(w, c, c)
  {
    hide Tidy, PathLength, Drained;
    DrainedTwice(w, c.pose.battery, 0.0, 0.0);
  }

  /** On every run: each state accounts for its graph, its odometer and its battery. */
  lemma JourneysAccounted(w: World, s: Robot, events: seq<Event>)
    requires HypotLaw(w) && 0.0 <= w.cfg.drainPerMeter && 0.0 <= w.cfg.chargePerSecond && BatteryInRange(s)
    requires Accounted(w, s)
    ensures Accounted(w, Run(w, s, events))
  {
    hide HypotLaw, Accounted;
    var inv := (r: Robot) => BatteryInRange(r) && Accounted(w, r);
    forall r: Robot, op: Op ensures Keeps(w, inv)(r, op) {
      if inv(r) && Enabled(w, r, op) {
        BatteryInRangeKept(w, r, op);
        AccountedKept(w, r, op);
      }
    }
    RunInduction(w, inv, s, events);
  }
}
