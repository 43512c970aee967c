/** Value-level model of one elevator car (pkg/Lift/lift.go): the car's fields
    as a snapshot datatype, and one pure function per operation giving the
    snapshot after the operation together with what the operation reports. */
module LiftSpec {

  datatype Option<T> = None | Some(value: T)

  /** Operating status of the car, in the order of the source's iota constants;
      `Code` gives the integer the source stores for each. */
  datatype Status = LiftShutdown | LiftWait | Open | LiftDown | LiftUp

  /** The integer the source stores for a status. */
  function Code(s: Status): (n: int)
    ensures 0 <= n < 5
    ensures n == 0 <==> s == LiftShutdown   // the zero value of the field is "shut down"
    ensures n == 1 <==> s == LiftWait
    ensures n == 2 <==> s == Open
    ensures n == 3 <==> s == LiftDown
    ensures n == 4 <==> s == LiftUp
  {
    match s
    case LiftShutdown => 0
    case LiftWait => 1
    case Open => 2
    case LiftDown => 3
    case LiftUp => 4
  }

  /** A passenger; only the id is used by the car. */
  datatype Person = Person(id: int)

  /** The three error conditions of the passenger registry. */
  datatype LiftError = Overweight | Empty | PersonNotFound(id: int)

  /** What one iteration of the event loop receives: a goal floor from one of
      the three press channels, or the stop signal. */
  datatype Event = Goal(floor: int) | StopEv

  /** The car's state: floor bounds, current floor, capacity, the passenger
      registry keyed by person id, the status and the three request sets
      (inside presses, outside down-hails, outside up-hails). */
  datatype LiftState = LiftState(
    top: int,
    bottom: int,
    level: int,
    capacity: int,
    persons: map<int, Person>,
    status: Status,
    levelPress: set<int>,
    downPress: set<int>,
    upPress: set<int>)

  /** The registry never holds more passengers than the capacity (an empty
      registry is allowed whatever the capacity, since the constructor does
      not check it). */
  predicate WithinCapacity(s: LiftState)
  {
    |s.persons| == 0 || |s.persons| <= s.capacity
  }

  /** Outcome of a registry operation: the new state and the error, if any. */
  datatype Outcome = Outcome(state: LiftState, err: Option<LiftError>)

  /** Outcome of a press: the new state and whether the press would notify
      the event loop over its channel. */
  datatype Pressed = Pressed(state: LiftState, notified: bool)

  /** Outcome of one loop iteration: the new state and whether the loop goes on. */
  datatype Stepped = Stepped(state: LiftState, live: bool)

  /** Outcome of the loop over a finite supply of events: the final state,
      how many events it consumed and whether it ended on the stop signal. */
  datatype Looped = Looped(state: LiftState, consumed: nat, stopped: bool)

  /** A new car: shut down, with no passengers and no pending request. */
  function NewLift(capacity: int, level: int, top: int, bottom: int): (s: LiftState)
    ensures s.status == LiftShutdown && s.persons == map[]
    ensures s.levelPress == {} && s.downPress == {} && s.upPress == {}
    ensures s.top == top && s.bottom == bottom && s.level == level && s.capacity == capacity
    ensures WithinCapacity(s)
  {
    LiftState(top, bottom, level, capacity, map[], LiftShutdown, {}, {}, {})
  }

  /** Admit a passenger: succeeds iff the registry holds fewer than `capacity`
      passengers, storing the person under its id (overwriting an entry with
      the same id); otherwise fails with Overweight and changes nothing. */
  function AddPerson(s: LiftState, p: Person): (r: Outcome)
    ensures r.err.None? <==> |s.persons| < s.capacity
    ensures r.err.Some? ==> r.err.value == Overweight && r.state == s
    ensures r.state == s.(persons := r.state.persons)
    ensures r.err.None? ==>
      && p.id in r.state.persons && r.state.persons[p.id] == p
      && r.state.persons.Keys == s.persons.Keys + {p.id}
      && (forall id :: id in s.persons && id != p.id ==> r.state.persons[id] == s.persons[id])
      && |r.state.persons| == if p.id in s.persons then |s.persons| else |s.persons| + 1
  {
    if |s.persons| < s.capacity then
      Outcome(s.(persons := s.persons[p.id := p]), None)
    else
      Outcome(s, Some(Overweight))
  }

  /** Remove a passenger by id: an empty registry reports Empty whatever the
      id; otherwise a present id is removed, and an absent one reports
      PersonNotFound carrying that id. */
  function RemovePersonById(s: LiftState, id: int): (r: Outcome)
    ensures r.state == s.(persons := r.state.persons)
    ensures |s.persons| == 0 ==> r.err == Some(Empty) && r.state == s
    ensures |s.persons| > 0 && id !in s.persons ==> r.err == Some(PersonNotFound(id)) && r.state == s
    ensures |s.persons| > 0 && id in s.persons ==>
      && r.err.None?
      && r.state.persons.Keys == s.persons.Keys - {id}
      && |r.state.persons| == |s.persons| - 1
      && (forall k :: k in r.state.persons ==> r.state.persons[k] == s.persons[k])
  {
    if |s.persons| == 0 then
      Outcome(s, Some(Empty))
    else if id in s.persons then
      var m := s.persons - {id};
      assert m.Keys == s.persons.Keys - {id};
      Outcome(s.(persons := m), None)
    else
      Outcome(s, Some(PersonNotFound(id)))
  }

  /** Press a floor button inside the car: recorded in `levelPress` unless the
      car is shut down; no floor check. */
  function PressDown(s: LiftState, level: int): (r: Pressed)
    ensures r.state == s.(levelPress := r.state.levelPress)
    ensures s.levelPress <= r.state.levelPress
    ensures r.state.levelPress - {level} == s.levelPress - {level}
    ensures level in r.state.levelPress <==> s.status != LiftShutdown || level in s.levelPress
    ensures r.notified <==> s.status == LiftWait
  {
    if s.status == LiftShutdown then
      Pressed(s, false)
    else
      Pressed(s.(levelPress := s.levelPress + {level}), s.status == LiftWait)
  }

  /** Press the up-hail button outside the car: recorded in `upPress` unless
      the floor is the top floor or the car is shut down. */
  function PressUp(s: LiftState, level: int): (r: Pressed)
    ensures r.state == s.(upPress := r.state.upPress)
    ensures s.upPress <= r.state.upPress
    ensures r.state.upPress - {level} == s.upPress - {level}
    ensures level in r.state.upPress <==> (level != s.top && s.status != LiftShutdown) || level in s.upPress
    ensures r.notified <==> level != s.top && s.status == LiftWait
  {
    if level == s.top || s.status == LiftShutdown then
      Pressed(s, false)
    else
      Pressed(s.(upPress := s.upPress + {level}), s.status == LiftWait)
  }

  /** Press the down-hail button outside the car: recorded in `downPress`
      unless the floor is the bottom floor or the car is shut down. */
  function PressLevel(s: LiftState, level: int): (r: Pressed)
    ensures r.state == s.(downPress := r.state.downPress)
    ensures s.downPress <= r.state.downPress
    ensures r.state.downPress - {level} == s.downPress - {level}
    ensures level in r.state.downPress <==> (level != s.bottom && s.status != LiftShutdown) || level in s.downPress
    ensures r.notified <==> level != s.bottom && s.status == LiftWait
  {
    if level == s.bottom || s.status == LiftShutdown then
      Pressed(s, false)
    else
      Pressed(s.(downPress := s.downPress + {level}), s.status == LiftWait)
  }

  /** Start the car: the status becomes Wait from any status, nothing else changes. */
  function Run(s: LiftState): (r: LiftState)
    ensures r.status == LiftWait
    ensures r == s.(status := r.status)
  {
    s.(status := LiftWait)
  }

  /** The direction the car takes towards `goal` from floor `level`. */
  function Direction(level: int, goal: int): (r: Status)
    ensures r == LiftDown <==> goal < level
    ensures r == LiftUp <==> goal > level
    ensures r == LiftWait <==> goal == level
  {
    if goal < level then LiftDown
    else if goal > level then LiftUp
    else LiftWait
  }

  /** One iteration of the event loop: the status is reset to Wait, then the
      received event decides it. A stop shuts the car down and ends the loop;
      a goal sets the direction and the loop goes on. Only the status changes. */
  function LoopStep(s: LiftState, ev: Event): (r: Stepped)
    ensures r.live <==> ev.Goal?
    ensures r.state == s.(status := r.state.status)
    ensures ev.StopEv? ==> r.state.status == LiftShutdown
    ensures ev.Goal? ==>
      && (r.state.status == LiftDown <==> ev.floor < s.level)
      && (r.state.status == LiftUp <==> ev.floor > s.level)
      && (r.state.status == LiftWait <==> ev.floor == s.level)
  {
    var waiting := s.(status := LiftWait);
    match ev
    case StopEv => Stepped(waiting.(status := LiftShutdown), false)
    case Goal(g) => Stepped(waiting.(status := Direction(waiting.level, g)), true)
  }

  /** The event loop run against a finite supply of events: iterations
      consume events until a stop; when the supply runs out the loop has
      re-entered its head (status Wait) and blocks there. */
  function WaitLoop(s: LiftState, events: seq<Event>): (r: Looped)
    decreases |events|
    ensures r.consumed <= |events|
    ensures r.stopped <==> StopEv in events
    ensures r.stopped ==>
      r.consumed > 0 && events[r.consumed - 1] == StopEv && StopEv !in events[..r.consumed - 1]
    ensures !r.stopped ==> r.consumed == |events|
    ensures r.state.status == if r.stopped then LiftShutdown else LiftWait
    ensures r.state == s.(status := r.state.status)
  {
    if events == [] then
      Looped(s.(status := LiftWait), 0, false)
    else
      var step := LoopStep(s, events[0]);
      if !step.live then
        Looped(step.state, 1, true)
      else
        var rest := WaitLoop(step.state, events[1..]);
        assert events == [events[0]] + events[1..];
        assert rest.stopped ==>
          events[..rest.consumed] == [events[0]] + events[1..][..rest.consumed - 1];
        Looped(rest.state, rest.consumed + 1, rest.stopped)
  }
}
