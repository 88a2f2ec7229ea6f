/** How action entries end, over whole runs: terminal statuses are final, and RETRIABLE waits for
    a command to that very entry. */
module Endings {
  import opened Platform
  import opened RobotState
  import opened Transitions
  import opened Lifecycle
  import opened Effects

  // ---- order entries, each in its place ----------------------------------------------

  /** Relative to an earlier state `a` of the same order: its entries are still there, in place;
      those then terminal still are; those then RETRIABLE still are unless commanded themselves. */
  ghost predicate Lasting(a: Robot, b: Robot) {
    && b.hist.orders.renewals >= a.hist.orders.renewals
    && (forall id :: b.hist.actions.commanded[id] >= a.hist.actions.commanded[id])
    && (b.hist.orders.renewals == a.hist.orders.renewals ==>
          && |b.book.order| >= |a.book.order|
          && forall i: nat :: i < |a.book.order| ==> EntryLasts(a, b, i))
  }

  ghost predicate EntryLasts(a: Robot, b: Robot, i: nat)
    requires i < |a.book.order| <= |b.book.order|
  {
    var e, f := a.book.order[i], b.book.order[i];
    && f.id == e.id && f.kind == e.kind
    && (e.status.Terminal() ==> f.status.Terminal())
    && (e.status.Retriable? && b.hist.actions.commanded[e.id] == a.hist.actions.commanded[e.id] ==> f.status.Retriable?)
  }

  lemma LastingKept(w: World, a: Robot, b: Robot, op: Op)
    requires Lasting(a, b) && Enabled(w, b, op)
    ensures Lasting(a, Apply(w, b, op))
  {
    hide Apply, ActionEnabled, OrderEnabled, MoveEnabled, TrafficEnabled, UnitEnabled;
    var c := Apply(w, b, op);
    CountersAfter(w, b, op);
    if c.hist.orders.renewals == a.hist.orders.renewals {
      OrderEntriesStay(w, b, op);
      forall i: nat | i < |a.book.order| ensures EntryLasts(a, c, i) {
        assert EntryLasts(a, b, i);
        var p := Spot(OrderTrack, i);
        assert Valid(b.book, p) && At(b.book, p) == b.book.order[i] && At(c.book, p) == c.book.order[i];
        var q := EntryOrigin(w, b, op, p);
      }
    }
  }

  /** While the order is neither renewed nor cleared, a terminal entry stays terminal, and a RETRIABLE
      one waits for a retry, skipRetry or trigger of its own, whatever else happens. */
  lemma OrderEntriesLast(w: World, s: Robot, events: seq<Event>)
    ensures Lasting(s, Run(w, s, events))
  {
    var inv := (r: Robot) => Lasting(s, r);
    forall r: Robot, op: Op ensures Keeps(w, inv)(r, op) {
      if inv(r) && Enabled(w, r, op) { LastingKept(w, s, r, op); }
    }
    RunInduction(w, inv, s, events);
  }

  // ---- entries of any track, by id -------------------------------------------------------

  /** Some entry of the track under this id is RETRIABLE. */
  ghost predicate HasRetriable(b: Book, t: Track, id: string) {
    exists p: Spot :: p.track == t && Valid(b, p) && At(b, p).id == id && At(b, p).status.Retriable?
  }

  /** No entry of the track under this id is live. */
  ghost predicate NoneLive(b: Book, t: Track, id: string) {
    forall p: Spot :: p.track == t && Valid(b, p) && At(b, p).id == id ==> At(b, p).status.Terminal()
  }

  /** Relative to `a`: RETRIABLE lasts until the id is commanded (or the order renewed), and the end
      of all entries under an id lasts until a new one is created under it. */
  ghost predicate TrackLasts(a: Robot, b: Robot, t: Track, id: string) {
    && b.hist.orders.renewals >= a.hist.orders.renewals && b.hist.actions.commanded[id] >= a.hist.actions.commanded[id]
    && SpawnCount(b.hist.actions.spawned, id) >= SpawnCount(a.hist.actions.spawned, id)
    && ((b.hist.actions.commanded[id] == a.hist.actions.commanded[id]
         && (t.OrderTrack? ==> b.hist.orders.renewals == a.hist.orders.renewals)) ==>
          HasRetriable(a.book, t, id) ==> HasRetriable(b.book, t, id))
    && (NoneLive(a.book, t, id) && SpawnCount(b.hist.actions.spawned, id) == SpawnCount(a.hist.actions.spawned, id) ==>
          NoneLive(b.book, t, id))
  }

  lemma RetriableStays(w: World, s: Robot, op: Op, t: Track, id: string)
    requires Enabled(w, s, op) && HasRetriable(s.book, t, id) && id !in CommandedIds(s, op)
    requires !(t.OrderTrack? && Renews(op))
    ensures HasRetriable(Apply(w, s, op).book, t, id)
  {
    hide Apply, ActionEnabled, OrderEnabled, MoveEnabled, TrafficEnabled, UnitEnabled;
    var q: Spot :| q.track == t && Valid(s.book, q) && At(s.book, q).id == id && At(s.book, q).status.Retriable?;
    var p := EntryFate(w, s, op, q);
  }

  lemma NoneLiveStays(w: World, s: Robot, op: Op, t: Track, id: string)
    requires Enabled(w, s, op) && NoneLive(s.book, t, id) && SpawnedIds(op) != [id]
    ensures NoneLive(Apply(w, s, op).book, t, id)
  {
    hide Apply, ActionEnabled, OrderEnabled, MoveEnabled, TrafficEnabled, UnitEnabled;
    var r := Apply(w, s, op).book;
    forall p: Spot | p.track == t && Valid(r, p) && At(r, p).id == id ensures At(r, p).status.Terminal() {
      var q := EntryOrigin(w, s, op, p);
    }
  }

  lemma TrackLastsKept(w: World, a: Robot, b: Robot, op: Op, t: Track, id: string)
    requires TrackLasts(a, b, t, id) && Enabled(w, b, op)
    ensures TrackLasts(a, Apply(w, b, op), t, id)
  {
    hide Apply, Enabled, HasRetriable, NoneLive, SpawnCount, CommandedIds, Renews;
    CountersAfter(w, b, op);
    SpawnCounted(w, b, op, id);
    if HasRetriable(b.book, t, id) && id !in CommandedIds(b, op) && !(t.OrderTrack? && Renews(op)) {
      RetriableStays(w, b, op, t, id);
    }
    if NoneLive(b.book, t, id) && SpawnedIds(op) != [id] {
      NoneLiveStays(w, b, op, t, id);
    }
  }

  /** On every run and every track: what waits RETRIABLE under an id waits on until a command names it
      (an order entry also until the order is renewed or cleared); and once all entries under an id have
      ended, none is live again unless a new one is created. */
  lemma TrackEntriesLast(w: World, s: Robot, events: seq<Event>, t: Track, id: string)
    ensures TrackLasts(s, Run(w, s, events), t, id)
  {
    hide TrackLasts;
    assert TrackLasts(s, s, t, id) by { LastsItself(s, t, id); }
    var inv := (r: Robot) => TrackLasts(s, r, t, id);
    forall r: Robot, op: Op ensures Keeps(w, inv)(r, op) {
      if inv(r) && Enabled(w, r, op) { TrackLastsKept(w, s, r, op, t, id); }
    }
    RunInduction(w, inv, s, events);
  }

  lemma LastsItself(s: Robot, t: Track, id: string)
    ensures TrackLasts(s, s, t, id)
  {
  }
}
