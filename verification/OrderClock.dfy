/** The pausable order clock that action timers run on: it shows exactly the time of the active
    beats, and pause, other operating modes and hibernation consume none of it. */
module OrderClock {
  import opened Vda5050
  import opened Platform
  import opened RobotState
  import opened Transitions
  import opened TickFrames
  import opened TrafficControl

  /** Whether the robot is awake, has no cancellation pending, is not paused and in AUTOMATIC mode. */
  predicate Working(s: Robot) {
    !s.mode.hibernating && s.mode.cancel == None && !s.mode.paused && s.faults.operating == Automatic
  }

  /** The time of the beats of a run that found the robot working. */
  ghost function ActiveTime(w: World, s: Robot, events: seq<Event>): real
    decreases |events|
  {
    if events == [] then 0.0
    else
      (if events[0].Beat? && Working(s) then events[0].dt else 0.0) + ActiveTime(w, Step(w, s, events[0]), events[1..])
  }

  lemma TickClock(w: World, s: Robot, dt: Span, now: real)
    ensures Tick(w, s, dt, now).book.clock == if Active(s) then s.book.clock + dt else s.book.clock
  {
    hide Prepare, Move;
    if Active(s) {
      PreparedFacts(w, s, dt, now);
      MoveKeepsBook(w, Prepared(w, s, dt, now), dt);
    }
  }

  lemma StepClock(w: World, s: Robot, e: Event)
    ensures Step(w, s, e).book.clock == if e.Beat? && Working(s) then s.book.clock + e.dt else s.book.clock
  {
    hide Tick, HandleOrder, HandleInstantActions, HandleZoneSet, HandleResponses, RunFaultTimers, FirstRetriable,
      SetStatus, Undisturbed;
    if e.Beat? {
      TickClock(w, s, e.dt, e.now);
      FaultsKeepClock(w, Tick(w, s, e.dt, e.now), e.dt, e.draws);
    } else {
      MessagesStand(w, s, e);
      UndisturbedClock(s, Step(w, s, e));
    }
  }

  lemma UndisturbedClock(s: Robot, r: Robot)
    requires Undisturbed(s, r)
    ensures r.book.clock == s.book.clock
  {
  }

  lemma FaultsKeepClock(w: World, s: Robot, dt: Span, draws: Draws)
    ensures MaybeInjectFault(w, s, dt, draws).book.clock == s.book.clock
  {
    hide UpdateField, UpdateOperatingMode, UpdateStop, FirstRetriable;
  }

  /** Over every run the order clock advances by exactly the time of the active beats. */
  lemma {:induction false} ClockShowsActiveTime(w: World, s: Robot, events: seq<Event>)
    ensures Run(w, s, events).book.clock == s.book.clock + ActiveTime(w, s, events)
    decreases |events|
  {
    hide Step;
    if events != [] {
      StepClock(w, s, events[0]);
      ClockShowsActiveTime(w, Step(w, s, events[0]), events[1..]);
    }
  }
}
