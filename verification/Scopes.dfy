/** Scope and capability over whole runs: nothing waits, runs or takes effect unless the
    catalog allows it where it was sent and the robot declares what it needs. */
module Scopes {
  import opened Vda5050
  import opened Platform
  import opened ActionCatalog
  import opened RobotState
  import opened Transitions
  import opened Lifecycle
  import opened Effects

  /** Whether an action type may be live on a track. */
  predicate AllowedOn(t: Track, kind: ActionKind, supported: set<ActionKind>) {
    match t
    case OrderTrack => Accepted(kind, NodeScope, supported) || Accepted(kind, EdgeScope, supported)
    case InstantTrack => kind.CancelOrder? || Accepted(kind, InstantScope, supported)
    case ZoneTrack => Accepted(kind, ZoneScope, supported)
  }

  predicate AllowedSomewhere(kind: ActionKind, supported: set<ActionKind>) {
    exists t: Track :: AllowedOn(t, kind, supported)
  }

  /** Only allowed actions are live; only definitions accepted in some scope are registered or take effect. */
  ghost predicate ScopesRespected(w: World, s: Robot) {
    && (forall p: Spot :: Valid(s.book, p) && !At(s.book, p).status.Terminal() ==>
          AllowedOn(p.track, At(s.book, p).kind, w.cfg.supported))
    && (forall id :: id in s.book.registry ==> AllowedSomewhere(s.book.registry[id].kind, w.cfg.supported))
    && (forall e :: e in s.hist.actions.effects ==> AllowedSomewhere(e.def.kind, w.cfg.supported))
  }

  /** Registered under its own type, except a pending cancelOrder, which is not registered. */
  predicate Consistent(b: Book, e: Entry) {
    if e.kind.CancelOrder? then e.id !in b.registry else e.id in b.registry && b.registry[e.id].kind == e.kind
  }

  /** Under an id that has never clashed, every live entry is consistent with the registry, and
      every effect was allowed on the track of its entry. */
  ghost predicate IdsConsistent(w: World, s: Robot) {
    && (forall p: Spot :: Valid(s.book, p) && !At(s.book, p).status.Terminal() ==>
          At(s.book, p).id in s.hist.actions.clashes || Consistent(s.book, At(s.book, p)))
    && (forall e :: e in s.hist.actions.effects && e.id !in s.hist.actions.clashes ==>
          AllowedOn(e.track, e.def.kind, w.cfg.supported))
  }

  ghost predicate ScopeDiscipline(w: World, s: Robot) {
    ScopesRespected(w, s) && IdsConsistent(w, s)
  }

  lemma ScopeDisciplineKept(w: World, s: Robot, op: Op)
    requires ScopeDiscipline(w, s) && Enabled(w, s, op)
    ensures ScopeDiscipline(w, Apply(w, s, op))
  {
    hide Apply, ActionEnabled, OrderEnabled, MoveEnabled, TrafficEnabled, UnitEnabled, AllowedOn;
    var r := Apply(w, s, op);
    BookFacts(w, s, op);
    forall p: Spot | Valid(r.book, p) && !At(r.book, p).status.Terminal()
      ensures AllowedOn(p.track, At(r.book, p).kind, w.cfg.supported)
    {
      var q := EntryOrigin(w, s, op, p);
      if !Valid(s.book, p) && Newcomer(op, p.track, At(r.book, p)) {
        NewcomerAllowed(w, s, op, p.track, At(r.book, p));
      }
    }
    forall p: Spot | Valid(r.book, p) && !At(r.book, p).status.Terminal() && At(r.book, p).id !in r.hist.actions.clashes
      ensures Consistent(r.book, At(r.book, p))
    {
      var q := EntryOrigin(w, s, op, p);
      if !Valid(s.book, p) && Newcomer(op, p.track, At(r.book, p)) {
        NewcomerAllowed(w, s, op, p.track, At(r.book, p));
      } else {
        LiveHere(s.book, q);
        assert Consistent(s.book, At(s.book, q));
      }
    }
  }

  lemma LiveHere(b: Book, p: Spot)
    requires Valid(b, p)
    ensures !At(b, p).status.Terminal() ==> LiveId(b, At(b, p).id)
  {
  }

  lemma NewcomerAllowed(w: World, s: Robot, op: Op, t: Track, e: Entry)
    requires Enabled(w, s, op) && Newcomer(op, t, e) && !e.status.Terminal()
    ensures AllowedOn(t, e.kind, w.cfg.supported)
    ensures op.OnAction? && (op.a.Spawning? || op.a.AskingCancel?) && (op.a.AskingCancel? <==> e.kind.CancelOrder?)
    ensures op.a.action.id == e.id && op.a.action.kind == e.kind
  {
    hide MoveEnabled, TrafficEnabled, UnitEnabled, OrderEnabled;
  }

  /** What an operation does to the registry and the effects. */
  lemma BookFacts(w: World, s: Robot, op: Op)
    requires ScopeDiscipline(w, s) && Enabled(w, s, op)
    ensures var r := Apply(w, s, op);
            && r.book.registry == (if op.OnAction? && op.a.Spawning? then s.book.registry[op.a.action.id := op.a.action]
                                   else s.book.registry)
            && r.hist.actions.clashes == s.hist.actions.clashes + ClashedIds(s, op)
            && (forall id :: id in r.book.registry ==> AllowedSomewhere(r.book.registry[id].kind, w.cfg.supported))
            && (forall e :: e in r.hist.actions.effects ==> AllowedSomewhere(e.def.kind, w.cfg.supported))
            && (forall e :: e in r.hist.actions.effects && e.id !in r.hist.actions.clashes ==>
                  AllowedOn(e.track, e.def.kind, w.cfg.supported))
  {
    hide ActionEnabled, ApplyAction, OrderEnabled, ApplyOrder, MoveEnabled, ApplyMove, TrafficEnabled, ApplyTraffic,
      UnitEnabled, ApplyUnit, AllowedOn, Clashes;
    match op
    case OnAction(a) =>
      ActionFrame(w, s, a);
      ActionCounters(w, s, a);
      ActionMarks(w, s, a);
      if a.Spawning? { NewcomerAllowed(w, s, op, a.track, Entry(a.action.id, a.action.kind, Waiting)); }
      EffectsGrow(w, s, a);
    case OnOrder(o) => OrderFrame(s, o);
    case OnMove(m) => MoveFrame(w, s, m);
    case OnTraffic(t) => TrafficFrame(w, s, t);
    case OnUnit(u) => UnitFrame(w, s, u);
  }

  /** On every run: no action is ever waiting, running or applied unless the catalog allows its
      type in some scope it was sent in and its capability is declared; and as long as no
      actionId is shared by live entries, exactly in the scope of the track it stands on. */
  lemma ScopesAlwaysRespected(w: World, s: Robot, events: seq<Event>)
    requires ScopeDiscipline(w, s)
    ensures ScopeDiscipline(w, Run(w, s, events))
  {
    var inv := (r: Robot) => ScopeDiscipline(w, r);
    forall r: Robot, op: Op ensures Keeps(w, inv)(r, op) {
      if inv(r) && Enabled(w, r, op) { ScopeDisciplineKept(w, r, op); }
    }
    RunInduction(w, inv, s, events);
  }
}
