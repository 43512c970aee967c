/** The car as the object the source mutates in place (the `Lift` struct of
    pkg/Lift/lift.go). Every method is proved to leave the object in the
    state the matching function of LiftSpec computes from the old state. */
module LiftImpl {
  import opened LiftSpec

  class Lift {
    const top: int
    const bottom: int
    var Level: int
    const capacity: int
    /** Passengers inside the car, keyed by person id. */
    var persons: map<int, Person>
    var status: Status
    /** Floors pressed inside the car. */
    var levelPress: set<int>
    /** Floors whose outside down button is pressed. */
    var downPress: set<int>
    /** Floors whose outside up button is pressed. */
    var upPress: set<int>

    /** The object's fields as a LiftSpec snapshot. */
    function State(): LiftState
      reads this
    {
      LiftState(top, bottom, Level, capacity, persons, status, levelPress, downPress, upPress)
    }

    ghost predicate Valid()
      reads this
    {
      WithinCapacity(State())
    }

    /** NewLift: a shut-down car with an empty registry and no request. */
    constructor (capacity: int, level: int, top: int, bottom: int)
      ensures Valid()
      ensures State() == NewLift(capacity, level, top, bottom)
    {
      this.top := top;
      this.bottom := bottom;
      this.Level := level;
      this.capacity := capacity;
      this.persons := map[];
      this.status := LiftShutdown;
      this.levelPress := {};
      this.downPress := {};
      this.upPress := {};
    }

    method AddPerson(person: Person) returns (err: Option<LiftError>)
      requires Valid()
      modifies this
      ensures Valid()
      ensures err.None? <==> old(|persons|) < capacity
      ensures State() == LiftSpec.AddPerson(old(State()), person).state
      ensures err == LiftSpec.AddPerson(old(State()), person).err
    {
      if |persons| < capacity {
        persons := persons[person.id := person];
        err := None;
      } else {
        err := Some(Overweight);
      }
    }

    method RemovePersonById(id: int) returns (err: Option<LiftError>)
      requires Valid()
      modifies this
      ensures Valid()
      ensures State() == LiftSpec.RemovePersonById(old(State()), id).state
      ensures err == LiftSpec.RemovePersonById(old(State()), id).err
    {
      if |persons| == 0 {
        return Some(Empty);
      }
      if id in persons {
        persons := persons - {id};
        return None;
      }
      err := Some(PersonNotFound(id));
    }

    /** Inside-the-car floor button. `notified` says whether the source sends
        the floor on its channel to the event loop. */
    method PressDown(level: int) returns (notified: bool)
      requires Valid()
      modifies this
      ensures Valid()
      ensures State() == LiftSpec.PressDown(old(State()), level).state
      ensures notified == LiftSpec.PressDown(old(State()), level).notified
    {
      if status == LiftShutdown {
        return false;
      }
      levelPress := levelPress + {level};
      notified := status == LiftWait;
    }

    /** Outside up button. */
    method PressUp(level: int) returns (notified: bool)
      requires Valid()
      modifies this
      ensures Valid()
      ensures State() == LiftSpec.PressUp(old(State()), level).state
      ensures notified == LiftSpec.PressUp(old(State()), level).notified
    {
      if level == top || status == LiftShutdown {
        return false;
      }
      upPress := upPress + {level};
      notified := status == LiftWait;
    }

    /** Outside down button. */
    method PressLevel(level: int) returns (notified: bool)
      requires Valid()
      modifies this
      ensures Valid()
      ensures State() == LiftSpec.PressLevel(old(State()), level).state
      ensures notified == LiftSpec.PressLevel(old(State()), level).notified
    {
      if level == bottom || status == LiftShutdown {
        return false;
      }
      downPress := downPress + {level};
      notified := status == LiftWait;
    }

    method Run() returns (err: Option<LiftError>)
      requires Valid()
      modifies this
      ensures Valid()
      ensures err.None?
      ensures State() == LiftSpec.Run(old(State()))
    {
      status := LiftWait;
      err := None;
    }

    /** One iteration of the event loop, on the event the select received. */
    method LoopStep(ev: Event) returns (live: bool)
      requires Valid()
      modifies this
      ensures Valid()
      ensures State() == LiftSpec.LoopStep(old(State()), ev).state
      ensures live == LiftSpec.LoopStep(old(State()), ev).live
    {
      status := LiftWait;
      match ev
      case StopEv =>
        status := LiftShutdown;
        live := false;
      case Goal(goal) =>
        if goal < Level {
          status := LiftDown;
        } else if goal > Level {
          status := LiftUp;
        }
        live := true;
    }

    /** The event loop, fed the events its select receives in turn: it runs
        iterations until a stop, or until the supply is exhausted, in which
        case it has gone back to the head of the loop and waits there. */
    method Wait(events: seq<Event>) returns (consumed: nat, stopped: bool)
      requires Valid()
      modifies this
      ensures Valid()
      ensures State() == WaitLoop(old(State()), events).state
      ensures consumed == WaitLoop(old(State()), events).consumed
      ensures stopped == WaitLoop(old(State()), events).stopped
    {
      consumed, stopped := 0, false;
      while consumed < |events| && !stopped
        invariant consumed <= |events|
        invariant Valid()
        invariant !stopped ==>
          var rest := WaitLoop(State(), events[consumed..]);
          && rest.state == WaitLoop(old(State()), events).state
          && consumed + rest.consumed == WaitLoop(old(State()), events).consumed
          && rest.stopped == WaitLoop(old(State()), events).stopped
        invariant stopped ==>
          && State() == WaitLoop(old(State()), events).state
          && consumed == WaitLoop(old(State()), events).consumed
          && WaitLoop(old(State()), events).stopped
        decreases |events| - consumed, !stopped
      {
        assert events[consumed..][0] == events[consumed];
        assert events[consumed..][1..] == events[consumed + 1..];
        var live := LoopStep(events[consumed]);
        consumed := consumed + 1;
        stopped := !live;
      }
      if !stopped {
        status := LiftWait;
      }
    }
  }

  /** Start, press a floor above the car, then stop: the car heads up, shuts
      down, and a later press is ignored. */
  method ScenarioRunPressStop()
  {
    var lift := new Lift(4, 1, 10, 1);
    var err := lift.Run();
    var notified := lift.PressDown(5);
    assert notified && 5 in lift.levelPress;
    var live := lift.LoopStep(Goal(5));
    assert live && lift.status == LiftUp;
    live := lift.LoopStep(StopEv);
    assert !live && lift.status == LiftShutdown;
    var board := lift.levelPress;
    notified := lift.PressDown(3);
    assert !notified && lift.levelPress == board && lift.status == LiftShutdown;
  }

  /** Capacity one: the second admission is refused and the registry keeps
      only the first passenger; removing from an empty car reports Empty. */
  method ScenarioCapacity()
  {
    var lift := new Lift(1, 1, 10, 1);
    var err := lift.RemovePersonById(42);
    assert err == Some(Empty);
    err := lift.AddPerson(Person(1));
    assert err.None?;
    err := lift.AddPerson(Person(2));
    assert err == Some(Overweight);
    assert lift.persons == map[1 := Person(1)];
  }
}
