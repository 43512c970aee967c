/** Properties of the car over whole runs: any interleaving of the public
    operations and of event-loop iterations, applied one at a time. */
module LiftProperties {
  import opened LiftSpec

  /** One call on the car, or one iteration of its event loop. */
  datatype Op =
    | Add(person: Person)
    | Remove(id: int)
    | PressInside(floor: int)
    | PressUpHail(floor: int)
    | PressDownHail(floor: int)
    | Start
    | Receive(ev: Event)

  /** Operations callers issue that are not Run: registry and buttons. */
  predicate IsIntake(op: Op)
  {
    !op.Start? && !op.Receive?
  }

  function Apply(s: LiftState, op: Op): LiftState
  {
    match op
    case Add(p) => AddPerson(s, p).state
    case Remove(id) => RemovePersonById(s, id).state
    case PressInside(f) => PressDown(s, f).state
    case PressUpHail(f) => PressUp(s, f).state
    case PressDownHail(f) => PressLevel(s, f).state
    case Start => Run(s)
    case Receive(ev) => LoopStep(s, ev).state
  }

  function Exec(s: LiftState, ops: seq<Op>): LiftState
    decreases |ops|
  {
    if ops == [] then s else Exec(Apply(s, ops[0]), ops[1..])
  }

  /** Whatever runs, the registry never holds more passengers than the capacity. */
  lemma {:induction false} ExecKeepsCapacity(s: LiftState, ops: seq<Op>)
    requires WithinCapacity(s)
    ensures WithinCapacity(Exec(s, ops))
    decreases |ops|
  {
    if ops != [] {
      ExecKeepsCapacity(Apply(s, ops[0]), ops[1..]);
    }
  }

  /** From construction on, every reachable car is within capacity, for any capacity. */
  lemma {:induction false} ReachableWithinCapacity(capacity: int, level: int, top: int, bottom: int, ops: seq<Op>)
    ensures WithinCapacity(Exec(NewLift(capacity, level, top, bottom), ops))
  {
    ExecKeepsCapacity(NewLift(capacity, level, top, bottom), ops);
  }

  /** No operation moves the car or changes its bounds or capacity. */
  lemma {:induction false} ExecKeepsFloorAndBounds(s: LiftState, ops: seq<Op>)
    ensures var t := Exec(s, ops);
      t.level == s.level && t.top == s.top && t.bottom == s.bottom && t.capacity == s.capacity
    decreases |ops|
  {
    if ops != [] {
      ExecKeepsFloorAndBounds(Apply(s, ops[0]), ops[1..]);
    }
  }

  /** Requests are never withdrawn, and the top floor never acquires an
      up-hail nor the bottom floor a down-hail. */
  lemma {:induction false} ExecBoardGrows(s: LiftState, ops: seq<Op>)
    ensures var t := Exec(s, ops);
      && s.levelPress <= t.levelPress && s.upPress <= t.upPress && s.downPress <= t.downPress
      && (s.top !in s.upPress ==> s.top !in t.upPress)
      && (s.bottom !in s.downPress ==> s.bottom !in t.downPress)
    decreases |ops|
  {
    if ops != [] {
      ExecBoardGrows(Apply(s, ops[0]), ops[1..]);
    }
  }

  /** A new car never records an up-hail at the top or a down-hail at the bottom. */
  lemma {:induction false} EdgeFloorsNeverHail(capacity: int, level: int, top: int, bottom: int, ops: seq<Op>)
    ensures var t := Exec(NewLift(capacity, level, top, bottom), ops);
      top !in t.upPress && bottom !in t.downPress
  {
    ExecBoardGrows(NewLift(capacity, level, top, bottom), ops);
  }

  /** Registry and button calls never change the status; on a shut-down car
      they leave the three request sets untouched as well. */
  lemma {:induction false} IntakeKeepsStatus(s: LiftState, ops: seq<Op>)
    requires forall i :: 0 <= i < |ops| ==> IsIntake(ops[i])
    ensures Exec(s, ops).status == s.status
    ensures s.status == LiftShutdown ==>
      var t := Exec(s, ops);
      t.levelPress == s.levelPress && t.upPress == s.upPress && t.downPress == s.downPress
    decreases |ops|
  {
    if ops != [] {
      assert IsIntake(ops[0]);
      IntakeKeepsStatus(Apply(s, ops[0]), ops[1..]);
    }
  }

  /** After the loop has taken a stop, no registry or button call brings the
      car out of shutdown or records a request. */
  lemma {:induction false} StopIsFinalForIntake(s: LiftState, ops: seq<Op>)
    requires forall i :: 0 <= i < |ops| ==> IsIntake(ops[i])
    ensures var stopped := LoopStep(s, StopEv).state;
      var t := Exec(stopped, ops);
      && t.status == LiftShutdown
      && t.levelPress == s.levelPress && t.upPress == s.upPress && t.downPress == s.downPress
  {
    IntakeKeepsStatus(LoopStep(s, StopEv).state, ops);
  }

  /** Only Add and Remove touch the registry. */
  lemma {:induction false} RegistryOnlyByAddRemove(s: LiftState, ops: seq<Op>)
    requires forall i :: 0 <= i < |ops| ==> !ops[i].Add? && !ops[i].Remove?
    ensures Exec(s, ops).persons == s.persons
    decreases |ops|
  {
    if ops != [] {
      assert !ops[0].Add? && !ops[0].Remove?;
      RegistryOnlyByAddRemove(Apply(s, ops[0]), ops[1..]);
    }
  }

  /** Admitting a new passenger and removing that id again restores the registry. */
  lemma AdmitThenRemove(s: LiftState, p: Person)
    requires |s.persons| < s.capacity && p.id !in s.persons
    ensures AddPerson(s, p).err.None?
    ensures RemovePersonById(AddPerson(s, p).state, p.id) == Outcome(s, None)
  {
    var admitted := AddPerson(s, p).state;
    var removed := RemovePersonById(admitted, p.id).state;
    assert removed.persons == s.persons;
  }

  /** Pressing the same button twice has the effect of pressing it once. */
  lemma PressesIdempotent(s: LiftState, floor: int)
    ensures PressDown(PressDown(s, floor).state, floor).state == PressDown(s, floor).state
    ensures PressUp(PressUp(s, floor).state, floor).state == PressUp(s, floor).state
    ensures PressLevel(PressLevel(s, floor).state, floor).state == PressLevel(s, floor).state
  {
  }

  /** A press is recorded yet wakes nobody exactly when the car is open or
      moving: the source notifies the loop only while it waits. */
  lemma UnnotifiedPresses(s: LiftState, floor: int)
    requires s.status in {Open, LiftDown, LiftUp}
    ensures floor in PressDown(s, floor).state.levelPress && !PressDown(s, floor).notified
    ensures floor != s.top ==> floor in PressUp(s, floor).state.upPress && !PressUp(s, floor).notified
    ensures floor != s.bottom ==> floor in PressLevel(s, floor).state.downPress && !PressLevel(s, floor).notified
  {
  }

  /** After Run, one goal decides the direction by comparison with the floor. */
  lemma RunThenGoal(s: LiftState, goal: int)
    ensures LoopStep(Run(s), Goal(goal)).state.status == Direction(s.level, goal)
  {
  }

  /** Capacity 4, floors 1 to 10, starting at floor 1: Run, a goal of 5 heads
      up, a stop shuts down and a later inside press is ignored. */
  lemma ScenarioRunGoalStop()
    ensures var s := Exec(NewLift(4, 1, 10, 1), [Start, PressInside(5), Receive(Goal(5))]);
      s.status == LiftUp && s.levelPress == {5}
    ensures var s := Exec(NewLift(4, 1, 10, 1), [Start, PressInside(5), Receive(Goal(5)), Receive(StopEv), PressInside(3)]);
      s.status == LiftShutdown && s.levelPress == {5}
  {
  }
}
