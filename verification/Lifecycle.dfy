/** The life of an action entry over whole runs: which operation may take it from which
    status to which, and pausing. */
module Lifecycle {
  import opened Vda5050
  import opened Platform
  import opened RobotState
  import opened Transitions

  /** The entry an operation creates. */
  predicate Newcomer(op: Op, t: Track, e: Entry) {
    op.OnAction? &&
    match op.a
    case Spawning(u, a, _) => t == u && e == Entry(a.id, a.kind, Waiting)
    case Refusing(u, a, _) => t == u && e == Entry(a.id, a.kind, Failed)
    case Acknowledging(a) => t.InstantTrack? && e == Entry(a.id, a.kind, Finished)
    case AskingCancel(a) => t.InstantTrack? && e == Entry(a.id, a.kind, Running)
    case _ => false
  }

  /** How an operation may change the status of the entry at `q`. */
  predicate StatusStep(op: Op, q: Spot, from: Status, to: Status) {
    match op
    case OnAction(Beginning(p)) => if q == p then from.Waiting? && to.Running? else to == from
    case OnAction(Completing(p)) => if q == p then from.Running? && to.Terminal() else to == from
    case OnAction(Retrying(p)) => if q == p then from.Retriable? && to.Waiting? else to == from
    case OnAction(Skipping(p)) => if q == p then from.Retriable? && to.Failed? else to == from
    case OnAction(Triggering(p)) => if q == p then to.Finished? else to == from
    case OnAction(Breaking(p)) => if q == p then from.Running? && (to.Retriable? || to.Failed?) else to == from
    case OnAction(Pausing(paused)) =>
      if paused then to == if from.Running? then Paused else from
      else to == if from.Paused? then Running else from
    case OnOrder(FinishingCancel) => to == from || (q.track.InstantTrack? && from.Running? && to.Finished?)
    case _ => to == from
  }

  /** `e`, standing at `p` after an operation, is appended by it or descends from the entry at
      `q` of the same track, id and type by a permitted change of status. Order entries keep
      their places. */
  predicate ComesFrom(b: Book, op: Op, p: Spot, e: Entry, q: Spot) {
    || (!Valid(b, p) && Newcomer(op, p.track, e))
    || (q.track == p.track && Valid(b, q) && (p.track.OrderTrack? ==> q == p)
        && At(b, q).id == e.id && At(b, q).kind == e.kind && StatusStep(op, q, At(b, q).status, e.status))
  }

  /** Every entry after an operation has such an origin: the status automaton. */
  lemma EntryOrigin(w: World, s: Robot, op: Op, p: Spot) returns (q: Spot)
    requires Enabled(w, s, op) && Valid(Apply(w, s, op).book, p)
    ensures ComesFrom(s.book, op, p, At(Apply(w, s, op).book, p), q)
  {
    hide ActionEnabled, ApplyAction, OrderEnabled, ApplyOrder, MoveEnabled, ApplyMove, TrafficEnabled, ApplyTraffic,
      UnitEnabled, ApplyUnit;
    q := p;
    match op
    case OnAction(a) => q := ActionOrigin(w, s, a, p);
    case OnOrder(o) => OrderOrigin(s, o, p);
    case OnMove(m) => MoveFrame(w, s, m);
    case OnTraffic(t) => TrafficFrame(w, s, t);
    case OnUnit(u) => UnitFrame(w, s, u);
  }

  lemma OrderOrigin(s: Robot, op: OrderOp, p: Spot)
    requires OrderEnabled(s, op) && Valid(ApplyOrder(s, op).book, p)
    ensures ComesFrom(s.book, OnOrder(op), p, At(ApplyOrder(s, op).book, p), p)
  {
  }

  lemma ActionOrigin(w: World, s: Robot, op: ActionOp, p: Spot) returns (q: Spot)
    requires ActionEnabled(w, s, op) && Valid(ApplyAction(w, s, op).book, p)
    ensures ComesFrom(s.book, OnAction(op), p, At(ApplyAction(w, s, op).book, p), q)
  {
    hide CompleteEntry, SetStatus, Append, FlipAll, Due, FitsTrack, Idle, Active, LiveId;
    q := p;
    match op
    case Spawning(_, _, _) | Refusing(_, _, _) | Acknowledging(_) | AskingCancel(_) => AppendOrigin(w, s, op, p);
    case Completing(c) => q := CompleteOrigin(s, c, p);
    case Pausing(paused) =>
      if paused { FlipAt(s.book, Running, Paused, p); } else { FlipAt(s.book, Paused, Running, p); }
    case Forgetting(t) => q := KeptOrigin(Entries(s.book, p.track), p, t == p.track);
    case Clocking(_) =>
    case _ => StatusOrigin(w, s, op, p);
  }

  lemma AppendOrigin(w: World, s: Robot, op: ActionOp, p: Spot)
    requires Appends(op) && ActionEnabled(w, s, op) && Valid(ApplyAction(w, s, op).book, p)
    ensures ComesFrom(s.book, OnAction(op), p, At(ApplyAction(w, s, op).book, p), p)
  {
    hide ApplyAction, ActionEnabled, Append;
    AppendedBook(w, s, op);
    var b := Append(s.book, TrackGiven(op), EntryGiven(op));
    SameEntries(b, ApplyAction(w, s, op).book, p);
    AppendAt(s.book, TrackGiven(op), EntryGiven(op), p);
  }

  lemma StatusOrigin(w: World, s: Robot, op: ActionOp, p: Spot)
    requires SetsStatus(op) && ActionEnabled(w, s, op) && Valid(ApplyAction(w, s, op).book, p)
    ensures ComesFrom(s.book, OnAction(op), p, At(ApplyAction(w, s, op).book, p), p)
  {
    hide ApplyAction, SetStatus, Active, Due;
    StatusBook(w, s, op);
    SameEntries(SetStatus(s.book, op.spot, StatusGiven(w, op)), ApplyAction(w, s, op).book, p);
    SetStatusAt(s.book, op.spot, StatusGiven(w, op), p);
  }

  /** Entries do not depend on registry, timers and clock. */
  lemma SameEntries(b: Book, c: Book, p: Spot)
    requires c == b.(registry := c.registry, startedAt := c.startedAt, clock := c.clock)
    ensures Valid(c, p) <==> Valid(b, p)
    ensures Valid(b, p) ==> At(c, p) == At(b, p)
  {
  }

  lemma AppendAt(b: Book, t: Track, e: Entry, p: Spot)
    ensures Valid(Append(b, t, e), p) <==> Valid(b, p) || p == Spot(t, |Entries(b, t)|)
    ensures Valid(Append(b, t, e), p) ==> At(Append(b, t, e), p) == if Valid(b, p) then At(b, p) else e
  {
  }

  lemma SetStatusAt(b: Book, p: Spot, status: Status, q: Spot)
    requires Valid(b, p)
    ensures Valid(SetStatus(b, p, status), q) <==> Valid(b, q)
    ensures Valid(b, q) ==> At(SetStatus(b, p, status), q) == if q == p then At(b, p).(status := status) else At(b, q)
  {
  }

  lemma FlipAt(b: Book, from: Status, into: Status, p: Spot)
    ensures Valid(FlipAll(b, from, into), p) <==> Valid(b, p)
    ensures Valid(b, p) ==>
      At(FlipAll(b, from, into), p) == if At(b, p).status == from then At(b, p).(status := into) else At(b, p)
  {
  }

  lemma KeptOrigin(es: seq<Entry>, p: Spot, cleared: bool) returns (q: Spot)
    requires p.index < |if cleared then Live(es) else es|
    ensures q.track == p.track && q.index < |es| && es[q.index] == (if cleared then Live(es) else es)[p.index]
    ensures !cleared ==> q == p
  {
    if cleared {
      assert Live(es)[p.index] in es;
      var i :| 0 <= i < |es| && es[i] == Live(es)[p.index];
      q := Spot(p.track, i);
    } else {
      q := p;
    }
  }

  /** The book after completing the entry at `c`. */
  lemma CompletedBook(s: Robot, c: Spot)
    requires Registered(s, c) && At(s.book, c).status.Running?
    ensures var kind := s.book.registry[At(s.book, c).id].kind;
            var cleared, l, r := Cleared(s.book, kind), Landing(s.book, c, kind), CompleteEntry(s, c).book;
            && Valid(cleared, l) && At(cleared, l) == At(s.book, c) && l.track == c.track
            && (r == SetStatus(cleared, l, Finished) || r == SetStatus(cleared, l, Failed))
  {
    hide ApplyEffect, SetStatus, Landing, Live;
    LandingHolds(s, c, s.book.registry[At(s.book, c).id]);
  }

  /** After completing the entry at `c`, the entry at `p` is that one or one that stood elsewhere. */
  lemma CompleteOrigin(s: Robot, c: Spot, p: Spot) returns (q: Spot)
    requires Registered(s, c) && At(s.book, c).status.Running? && Valid(CompleteEntry(s, c).book, p)
    ensures ComesFrom(s.book, OnAction(Completing(c)), p, At(CompleteEntry(s, c).book, p), q)
  {
    hide CompleteEntry, SetStatus, Landing, Live;
    var def := s.book.registry[At(s.book, c).id];
    var cleared := Cleared(s.book, def.kind);
    var l := Landing(s.book, c, def.kind);
    CompletedBook(s, c);
    LandingIs(s.book, c, def.kind);
    SetStatusAt(cleared, l, Finished, p);
    SetStatusAt(cleared, l, Failed, p);
    q := if p == l then c else p;
    if p != l && Clears(def.kind, p.track) {
      q := KeptElsewhere(Entries(s.book, p.track), p, if c.track == p.track then Some(c.index) else None);
    }
  }

  lemma LandingIs(b: Book, c: Spot, kind: ActionKind)
    requires Valid(b, c)
    ensures Landing(b, c, kind).track == c.track
    ensures Clears(kind, c.track) ==> Landing(b, c, kind).index == |Live(Entries(b, c.track)[..c.index])|
    ensures !Clears(kind, c.track) ==> Landing(b, c, kind) == c
  {
  }

  /** An element of the filtered list other than the image of `c` stands at an index other than `c`. */
  lemma KeptElsewhere(es: seq<Entry>, p: Spot, c: Option<nat>) returns (q: Spot)
    requires p.index < |Live(es)|
    requires c.Some? ==> c.value < |es| && !es[c.value].status.Terminal() && p.index != |Live(es[..c.value])|
    ensures q.track == p.track && q.index < |es| && es[q.index] == Live(es)[p.index] && c != Some(q.index)
  {
    if c.None? {
      q := KeptOrigin(es, p, true);
    } else {
      var k := c.value;
      LiveSplit(es, k);
      if p.index < |Live(es[..k])| {
        q := KeptOrigin(es[..k], p, true);
      } else {
        var r := KeptOrigin(es[k + 1..], Spot(p.track, p.index - |Live(es[..k])| - 1), true);
        q := Spot(p.track, r.index + k + 1);
      }
    }
  }

  lemma {:induction false} LiveSplit(es: seq<Entry>, k: nat)
    requires k < |es| && !es[k].status.Terminal()
    ensures Live(es) == Live(es[..k]) + [es[k]] + Live(es[k + 1..])
  {
    if k == 0 {
      assert es[..0] == [];
    } else {
      LiveSplit(es[1..], k - 1);
      assert es[1..][..k - 1] == es[..k][1..] && es[1..][k..] == es[k + 1..];
    }
  }

  // ---- pausing ------------------------------------------------------------------

  lemma PauseAfter(w: World, s: Robot, op: Op)
    requires Enabled(w, s, op)
    ensures Apply(w, s, op).mode.paused == if op.OnAction? && op.a.Pausing? then op.a.paused else s.mode.paused
  {
    hide ActionEnabled, OrderEnabled, ApplyOrder, MoveEnabled, ApplyMove, TrafficEnabled, ApplyTraffic,
      UnitEnabled, ApplyUnit, CompleteEntry, SetStatus, Append, FlipAll;
    match op
    case OnAction(a) => if a.Completing? { CompletingMode(w, s, a); }
    case OnOrder(o) => OrderFrame(s, o);
    case OnMove(m) => MoveFrame(w, s, m);
    case OnTraffic(t) => TrafficFrame(w, s, t);
    case OnUnit(u) => UnitFrame(w, s, u);
  }

  lemma CompletingMode(w: World, s: Robot, op: ActionOp)
    requires ActionEnabled(w, s, op) && op.Completing?
    ensures ApplyAction(w, s, op).mode == s.mode
  {
    hide ApplyEffect, SetStatus, Landing;
  }

  /** PAUSED exists only while the robot is paused; and while it is paused nothing runs but a
      pending cancelOrder. */
  ghost predicate PauseDiscipline(s: Robot) {
    && (forall p: Spot :: Valid(s.book, p) && At(s.book, p).status.Paused? ==> s.mode.paused)
    && (s.mode.paused ==>
          forall p: Spot :: Valid(s.book, p) && At(s.book, p).status.Running? ==>
            p.track.InstantTrack? && At(s.book, p).kind.CancelOrder?)
  }

  lemma PauseDisciplineKept(w: World, s: Robot, op: Op)
    requires PauseDiscipline(s) && Enabled(w, s, op)
    ensures PauseDiscipline(Apply(w, s, op))
  {
    hide Apply, OrderEnabled, MoveEnabled, TrafficEnabled, UnitEnabled;
    var r := Apply(w, s, op);
    PauseAfter(w, s, op);
    forall p: Spot | Valid(r.book, p)
      ensures At(r.book, p).status.Paused? ==> r.mode.paused
      ensures r.mode.paused && At(r.book, p).status.Running? ==>
              p.track.InstantTrack? && At(r.book, p).kind.CancelOrder?
    {
      var q := EntryOrigin(w, s, op, p);
    }
  }

  /** The pause discipline holds in every state of every run. */
  lemma PauseDisciplineHolds(w: World, s: Robot, events: seq<Event>)
    requires PauseDiscipline(s)
    ensures PauseDiscipline(Run(w, s, events))
  {
    var inv := (r: Robot) => PauseDiscipline(r);
    forall r: Robot, op: Op ensures Keeps(w, inv)(r, op) {
      if inv(r) && Enabled(w, r, op) { PauseDisciplineKept(w, r, op); }
    }
    RunInduction(w, inv, s, events);
  }

  lemma OrderEntriesStay(w: World, s: Robot, op: Op)
    requires Enabled(w, s, op) && !Renews(op)
    ensures |Apply(w, s, op).book.order| >= |s.book.order|
  {
    hide ActionEnabled, OrderEnabled, MoveEnabled, ApplyMove, TrafficEnabled, ApplyTraffic, UnitEnabled, ApplyUnit;
    match op
    case OnAction(a) => ActionEntriesStay(w, s, a);
    case OnOrder(o) =>
    case OnMove(m) => MoveFrame(w, s, m);
    case OnTraffic(t) => TrafficFrame(w, s, t);
    case OnUnit(u) => UnitFrame(w, s, u);
  }

  lemma ActionEntriesStay(w: World, s: Robot, op: ActionOp)
    requires ActionEnabled(w, s, op)
    ensures |ApplyAction(w, s, op).book.order| >= |s.book.order|
  {
    hide ApplyEffect, Landing, Live, Due, FitsTrack, Active, Idle;
    if op.Completing? { LandingHolds(s, op.spot, s.book.registry[At(s.book, op.spot).id]); }
  }

  lemma LivePrefix(es: seq<Entry>, i: nat)
    requires i < |es| && !es[i].status.Terminal()
    ensures var j := |Live(es[..i])|;
            j < |Live(es)| && Live(es)[..j] == Live(es[..i]) && Live(es)[..j + 1] == Live(es[..i]) + [es[i]]
  {
    LiveSplit(es, i);
  }

  // ---- live entries are never lost -----------------------------------------------

  /** The live entry at `q` stands at `p` after the operation, its status changed as permitted. */
  predicate Becomes(b: Book, op: Op, q: Spot, r: Book, p: Spot) {
    && Valid(b, q) && Valid(r, p) && p.track == q.track
    && At(r, p).id == At(b, q).id && At(r, p).kind == At(b, q).kind
    && StatusStep(op, q, At(b, q).status, At(r, p).status)
  }

  /** Every live entry survives every operation, but for order entries whose order is renewed. */
  lemma EntryFate(w: World, s: Robot, op: Op, q: Spot) returns (p: Spot)
    requires Enabled(w, s, op) && Valid(s.book, q) && !At(s.book, q).status.Terminal()
    requires !(q.track.OrderTrack? && Renews(op))
    ensures Becomes(s.book, op, q, Apply(w, s, op).book, p)
  {
    hide ActionEnabled, ApplyAction, OrderEnabled, ApplyOrder, MoveEnabled, ApplyMove, TrafficEnabled, ApplyTraffic,
      UnitEnabled, ApplyUnit;
    p := q;
    match op
    case OnAction(a) => p := ActionFate(w, s, a, q);
    case OnOrder(o) => OrderFate(s, o, q);
    case OnMove(m) => MoveFrame(w, s, m);
    case OnTraffic(t) => TrafficFrame(w, s, t);
    case OnUnit(u) => UnitFrame(w, s, u);
  }

  lemma OrderFate(s: Robot, op: OrderOp, q: Spot)
    requires OrderEnabled(s, op) && Valid(s.book, q) && !(q.track.OrderTrack? && Renews(OnOrder(op)))
    ensures Becomes(s.book, OnOrder(op), q, ApplyOrder(s, op).book, q)
  {
  }

  lemma ActionFate(w: World, s: Robot, op: ActionOp, q: Spot) returns (p: Spot)
    requires ActionEnabled(w, s, op) && Valid(s.book, q) && !At(s.book, q).status.Terminal()
    ensures Becomes(s.book, OnAction(op), q, ApplyAction(w, s, op).book, p)
  {
    hide CompleteEntry, SetStatus, Append, FlipAll, Due, FitsTrack, Idle, Active, LiveId;
    p := q;
    match op
    case Spawning(_, _, _) | Refusing(_, _, _) | Acknowledging(_) | AskingCancel(_) => AppendFate(w, s, op, q);
    case Completing(c) => p := CompleteFate(s, c, q);
    case Pausing(paused) =>
      if paused { FlipAt(s.book, Running, Paused, q); } else { FlipAt(s.book, Paused, Running, q); }
    case Forgetting(t) => p := KeptFate(Entries(s.book, q.track), q, t == q.track);
    case Clocking(_) =>
    case _ => StatusFate(w, s, op, q);
  }

  lemma AppendFate(w: World, s: Robot, op: ActionOp, q: Spot)
    requires Appends(op) && ActionEnabled(w, s, op) && Valid(s.book, q)
    ensures Becomes(s.book, OnAction(op), q, ApplyAction(w, s, op).book, q)
  {
    hide ApplyAction, ActionEnabled, Append;
    AppendedBook(w, s, op);
    SameEntries(Append(s.book, TrackGiven(op), EntryGiven(op)), ApplyAction(w, s, op).book, q);
    AppendAt(s.book, TrackGiven(op), EntryGiven(op), q);
  }

  lemma StatusFate(w: World, s: Robot, op: ActionOp, q: Spot)
    requires SetsStatus(op) && ActionEnabled(w, s, op) && Valid(s.book, q)
    ensures Becomes(s.book, OnAction(op), q, ApplyAction(w, s, op).book, q)
  {
    hide ApplyAction, SetStatus, Active, Due;
    StatusBook(w, s, op);
    SameEntries(SetStatus(s.book, op.spot, StatusGiven(w, op)), ApplyAction(w, s, op).book, q);
    SetStatusAt(s.book, op.spot, StatusGiven(w, op), q);
  }

  /** A live element keeps its value under filtering, and different live elements different places. */
  lemma KeptFate(es: seq<Entry>, q: Spot, cleared: bool) returns (p: Spot)
    requires q.index < |es| && !es[q.index].status.Terminal()
    ensures p == if cleared then Spot(q.track, |Live(es[..q.index])|) else q
    ensures p.index < |if cleared then Live(es) else es|
    ensures (if cleared then Live(es) else es)[p.index] == es[q.index]
  {
    p := if cleared then Spot(q.track, |Live(es[..q.index])|) else q;
    LivePrefix(es, q.index);
  }

  lemma KeptApart(es: seq<Entry>, i: nat, j: nat)
    requires i < j < |es| && !es[i].status.Terminal()
    ensures |Live(es[..i])| < |Live(es[..j])|
  {
    assert es[..j][..i] == es[..i];
    LivePrefix(es[..j], i);
  }

  lemma CompleteFate(s: Robot, c: Spot, q: Spot) returns (p: Spot)
    requires Registered(s, c) && At(s.book, c).status.Running?
    requires Valid(s.book, q) && !At(s.book, q).status.Terminal()
    ensures Becomes(s.book, OnAction(Completing(c)), q, CompleteEntry(s, c).book, p)
  {
    hide CompleteEntry, SetStatus, Landing, Live;
    var def := s.book.registry[At(s.book, c).id];
    var cleared := Cleared(s.book, def.kind);
    var l := Landing(s.book, c, def.kind);
    CompletedBook(s, c);
    LandingIs(s.book, c, def.kind);
    var es := Entries(s.book, q.track);
    p := KeptFate(es, q, Clears(def.kind, q.track));
    if q != c && q.track == c.track && Clears(def.kind, q.track) {
      if q.index < c.index { KeptApart(es, q.index, c.index); } else { KeptApart(es, c.index, q.index); }
    }
    SetStatusAt(cleared, l, Finished, p);
    SetStatusAt(cleared, l, Failed, p);
  }
}
