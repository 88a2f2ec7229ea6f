/** The runtime around one robot: which messages reach it, and the movement loop. */
module Fleet {
  import opened Vda5050
  import opened Platform
  import opened RobotState
  import opened Transitions
  import Agv = SimulatedAgv

  /** Whether the runtime passes the event on: only robots of protocol version 3 subscribe to zone sets. */
  predicate Heard(w: World, e: Event) {
    e.ZoneSetMessage? ==> w.cfg.version.0 == 3
  }

  /** The run over the events that reach the robot. */
  ghost function Served(w: World, s: Robot, events: seq<Event>): Robot {
    Run(w, s, Filter(events, (e: Event) => Heard(w, e)))
  }

  lemma {:induction false} FilterAppend<T(!new)>(a: seq<T>, b: seq<T>, p: T -> bool)
    ensures Filter(a + b, p) == Filter(a, p) + Filter(b, p)
  {
    if a == [] {
      assert a + b == b;
    } else {
      assert (a + b)[1..] == a[1..] + b;
      FilterAppend(a[1..], b, p);
    }
  }

  lemma ServedNext(w: World, s: Robot, events: seq<Event>, i: nat)
    requires i < |events|
    ensures Served(w, s, events[..i + 1])
         == if Heard(w, events[i]) then Step(w, Served(w, s, events[..i]), events[i]) else Served(w, s, events[..i])
  {
    hide Step, Heard;
    var p := (e: Event) => Heard(w, e);
    assert events[..i + 1] == events[..i] + [events[i]];
    FilterAppend(events[..i], [events[i]], p);
    assert [events[i]][1..] == [];
    RunAppend(w, s, Filter(events[..i], p), Filter([events[i]], p));
    if Heard(w, events[i]) {
      OneStep(w, Served(w, s, events[..i]), events[i]);
      assert Filter([events[i]], p) == [events[i]];
    }
  }

  lemma OneStep(w: World, s: Robot, e: Event)
    ensures Run(w, s, [e]) == Step(w, s, e)
  {
    hide Step;
    assert [e][1..] == [];
  }

  class RobotRuntime {
    const agv: Agv.SimulatedAgv

    constructor (agv: Agv.SimulatedAgv)
      ensures this.agv == agv
    {
      this.agv := agv;
    }

    /** One round of the movement loop: a tick and at once a fault round; whether to go on. */
    method MovementStep(dt: Span, now: real, draws: Draws) returns (goOn: bool)
      modifies agv
      ensures agv.View() == Step(agv.w, old(agv.View()), Beat(dt, now, draws))
      ensures goOn == !agv.mode.shutdownRequested
    {
      hide Tick, MaybeInjectFault;
      agv.Tick(dt, now);
      agv.MaybeInjectFault(dt, draws);
      goOn := !agv.mode.shutdownRequested;
    }

    /** Pass one event on to the robot; whether to go on after it. */
    method Deliver(e: Event) returns (goOn: bool)
      modifies agv
      ensures agv.View() == if Heard(agv.w, e) then Step(agv.w, old(agv.View()), e) else old(agv.View())
      ensures goOn == (e.Beat? ==> !agv.mode.shutdownRequested)
    {
      hide Tick, MaybeInjectFault, HandleOrder, HandleInstantActions, HandleZoneSet, HandleResponses, Publish;
      goOn := true;
      match e
      case OrderMessage(o) => agv.HandleOrder(o);
      case InstantActionsMessage(actions) => agv.HandleInstantActions(actions);
      case ZoneSetMessage(z) =>
        if agv.w.cfg.version.0 == 3 {
          agv.HandleZoneSet(z);
        }
      case ResponsesMessage(responses) => agv.HandleResponses(responses);
      case Beat(dt, now, draws) => goOn := MovementStep(dt, now, draws);
      case StatePublished =>
        var errors := agv.BuildStateMessage();
    }

    /** Serve a schedule of events, each whole before the next, until the movement loop finds a
        shutdown requested: the robot's state is that of the run over the events served, and the
        schedule is cut short only by a beat after which a shutdown is requested, at the first such. */
    method Serve(schedule: seq<Event>) returns (served: nat)
      modifies agv
      ensures served <= |schedule|
      ensures agv.View() == Served(agv.w, old(agv.View()), schedule[..served])
      ensures served < |schedule| ==> served > 0 && schedule[served - 1].Beat? && agv.mode.shutdownRequested
      ensures forall k: nat :: k + 1 < served && schedule[k].Beat? ==>
                !Served(agv.w, old(agv.View()), schedule[..k + 1]).mode.shutdownRequested
    {
      hide Served, Step, Heard;
      served := 0;
      var goOn := true;
      assert schedule[..0] == [];
      ServedNothing(agv.w, agv.View());
      ghost var s := agv.View();
      while goOn && served < |schedule|
        invariant served <= |schedule|
        invariant agv.View() == Served(agv.w, s, schedule[..served])
        invariant !goOn ==> served > 0 && schedule[served - 1].Beat? && agv.mode.shutdownRequested
        invariant forall k: nat :: k < served && schedule[k].Beat? && (goOn || k + 1 < served) ==>
                    !Served(agv.w, s, schedule[..k + 1]).mode.shutdownRequested
      {
        ServedNext(agv.w, s, schedule, served);
        goOn := Deliver(schedule[served]);
        served := served + 1;
      }
    }
  }

  lemma ServedNothing(w: World, s: Robot)
    ensures Served(w, s, []) == s
  {
  }
}
