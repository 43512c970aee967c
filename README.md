# Single-car lift controller, modelled in Dafny

This project models the `Lift` type of `pkg/Lift/lift.go`: one elevator car
with a passenger registry bounded by its capacity, a request board of three
floor sets (presses inside the car, outside up-hails, outside down-hails) and
a status machine (shut down, waiting, open, going down, going up) driven by an
event loop that receives goal floors and a stop signal.

- `LiftSpec.dfy` holds the data model (`Status`, `Person`, `LiftError`,
  `Event`, the snapshot `LiftState`) and one pure function per operation that
  gives the state after the operation and what it reports. Each function's
  contract states the operation's meaning: the capacity test, the order of the
  registry errors, the guarded no-ops of the buttons, the three-way direction
  choice, and what the loop does over a supply of events.
- `LiftImpl.dfy` holds `class Lift`, the object the source mutates in place.
  Its methods assign the fields as the source does. Each is proved to leave
  the object in the state the matching `LiftSpec` function computes, and to
  keep the capacity invariant `Valid()`. `Wait` runs the event loop as a
  `while` loop over the events its `select` receives. Two client methods
  replay the end-to-end scenarios against the class contracts. The first of
  them is also stated on values, over `Exec`, as `ScenarioRunGoalStop`, so
  that the run model of `LiftProperties.dfy` is checked against the same
  scenario as the class.
- `LiftProperties.dfy` applies any sequence of operations and loop iterations
  (`Exec`). It proves, by induction over that sequence, what holds over
  whole runs: capacity is never exceeded, the floor and bounds never change,
  requests are never withdrawn, the edge floors never hail, and registry and
  button calls leave a shut-down car shut down with an unchanged board.

The model follows the code in these places, some of which a reader might
not expect:
- `Run` sets the status to waiting from any status, not only from shutdown
  (lift.go:138-142).
- Nothing checks that `bottom < top`, that the capacity is positive or that
  floors lie within the bounds. `WithinCapacity` therefore also accepts an
  empty registry on a car built with a capacity of zero or less.
- `AddPerson` applies the capacity test before it looks at the id. A full car
  refuses a person whose id is already inside, even though storing that
  person would not grow the registry. For the same reason admitting and then
  removing an id restores the registry only when the id was new: for an id
  already inside, the removal leaves one passenger fewer than before
  (`AdmitThenRemove` therefore requires a new id).
- `Run` does not start the event loop: `Wait` (lift.go:145) is a separate
  call, and its loop sets the status to waiting at line 149 whether or not
  `Run` ran. In the model, `Start` and `Receive` are independent operations,
  and `LoopStep` resets the status to `LiftWait` on its own.
- Each loop iteration first resets the status to waiting (lift.go:149). The
  moving statuses set at lines 164-170 therefore last only until the next
  iteration begins. With no events left, the loop rests in `LiftWait`
  (`WaitLoop`).

## Model

| member | source | states |
|---|---|---|
| `LiftSpec.Code` | pkg/Lift/lift.go:17-28 | shutdown, wait, open, down and up are the integers 0, 1, 2, 3 and 4 in that order (each an if-and-only-if, so no two statuses share a code), and 0 is the field's zero value |
| `LiftSpec.NewLift` | pkg/Lift/lift.go:64-80 | a new car is shut down, with no passengers and no requests, keeps the given bounds, floor and capacity, and is within capacity whatever the capacity |
| `LiftSpec.AddPerson` | pkg/Lift/lift.go:83-89 | admission succeeds iff occupancy is below capacity. On success the person is stored under its id, other entries are kept, and the size grows by one for a new id and stays the same for a present one. On failure the error is Overweight and nothing changes. Only the registry can change |
| `LiftSpec.RemovePersonById` | pkg/Lift/lift.go:92-102 | an empty registry reports Empty for any id and is unchanged. Otherwise a present id is removed, the size drops by one and other entries are kept; an absent id reports PersonNotFound carrying that id and changes nothing |
| `LiftSpec.PressDown` | pkg/Lift/lift.go:105-113 | the floor is recorded in the inside set iff the car is not shut down. No other floor, set or field changes. The loop is notified iff the car waits |
| `LiftSpec.PressUp` | pkg/Lift/lift.go:116-124 | the floor is recorded in the up-hail set iff it is not the top floor and the car is not shut down. Nothing else changes. Notification only while waiting |
| `LiftSpec.PressLevel` | pkg/Lift/lift.go:127-135 | the floor is recorded in the down-hail set iff it is not the bottom floor and the car is not shut down. Nothing else changes. Notification only while waiting |
| `LiftSpec.Run` | pkg/Lift/lift.go:138-142 | from any status the car is waiting afterwards, and nothing else changes |
| `LiftSpec.Direction` | pkg/Lift/lift.go:164-170 | a goal below the floor gives down, above gives up, and equal gives wait (each an if-and-only-if) |
| `LiftSpec.LoopStep` | pkg/Lift/lift.go:148-170 | one loop iteration: a stop shuts down and ends the loop; a goal sets down, up or wait by comparison with the current floor, and the loop goes on. Only the status changes |
| `LiftSpec.WaitLoop` | pkg/Lift/lift.go:145-173 | the loop consumes events up to and including the first stop, or all of them. It ends shut down iff a stop was received, and otherwise waits. Only the status changes |
| `LiftImpl.Lift.constructor` | pkg/Lift/lift.go:64-80 | the new object's fields are the state `NewLift` describes, and the object is valid |
| `LiftImpl.Lift.AddPerson` | pkg/Lift/lift.go:83-89 | success iff the old occupancy is below capacity; the new fields and the error are those of `LiftSpec.AddPerson`, and the capacity invariant is kept |
| `LiftImpl.Lift.RemovePersonById` | pkg/Lift/lift.go:92-102 | the new fields and the error are those of `LiftSpec.RemovePersonById`, and the capacity invariant is kept |
| `LiftImpl.Lift.PressDown` | pkg/Lift/lift.go:105-113 | the new fields and the notification are those of `LiftSpec.PressDown` |
| `LiftImpl.Lift.PressUp` | pkg/Lift/lift.go:116-124 | the new fields and the notification are those of `LiftSpec.PressUp` |
| `LiftImpl.Lift.PressLevel` | pkg/Lift/lift.go:127-135 | the new fields and the notification are those of `LiftSpec.PressLevel` |
| `LiftImpl.Lift.Run` | pkg/Lift/lift.go:138-142 | returns no error, and the new fields are those of `LiftSpec.Run` |
| `LiftImpl.Lift.LoopStep` | pkg/Lift/lift.go:148-170 | the new fields and whether the loop goes on are those of `LiftSpec.LoopStep` |
| `LiftImpl.Lift.Wait` | pkg/Lift/lift.go:145-173 | the loop, run over the received events, ends in the state `LiftSpec.WaitLoop` describes, with the same count of consumed events and the same stop flag |
| `LiftProperties.ExecKeepsCapacity` | pkg/Lift/lift.go:83-89 | any run of operations from a state within capacity stays within capacity |
| `LiftProperties.ReachableWithinCapacity` | pkg/Lift/lift.go:64-89 | every state reachable from a new car is within capacity |
| `LiftProperties.ExecKeepsFloorAndBounds` | pkg/Lift/lift.go:37-45 | no run changes the current floor, the top, the bottom or the capacity |
| `LiftProperties.ExecBoardGrows` | pkg/Lift/lift.go:105-135 | no run removes a request; a top floor without an up-hail and a bottom floor without a down-hail keep it so |
| `LiftProperties.EdgeFloorsNeverHail` | pkg/Lift/lift.go:116-135 | from a new car, no run records an up-hail at the top floor or a down-hail at the bottom floor |
| `LiftProperties.IntakeKeepsStatus` | pkg/Lift/lift.go:83-135 | registry and button calls never change the status; on a shut-down car they also leave all three request sets unchanged |
| `LiftProperties.StopIsFinalForIntake` | pkg/Lift/lift.go:158-160 | after the loop takes a stop, registry and button calls keep the car shut down and add no request |
| `LiftProperties.RegistryOnlyByAddRemove` | pkg/Lift/lift.go:83-102 | runs without Add or Remove leave the registry unchanged |
| `LiftProperties.AdmitThenRemove` | pkg/Lift/lift.go:83-102 | admitting a person with a new id into a car below capacity, then removing that id, succeeds and restores the original state |
| `LiftProperties.PressesIdempotent` | pkg/Lift/lift.go:109-131 | pressing the same button twice has the effect of pressing it once, for all three buttons |
| `LiftProperties.UnnotifiedPresses` | pkg/Lift/lift.go:105-135 | while the car is open or moving, an accepted press is recorded but does not notify the loop |
| `LiftProperties.RunThenGoal` | pkg/Lift/lift.go:138-170 | after Run, one goal sets the status to the direction from the current floor to that goal |
| `LiftProperties.ScenarioRunGoalStop` | pkg/Lift/lift.go:105-170 | capacity 4, floors 1 to 10, start at 1: Run and a goal of 5 give going up. A stop then gives shutdown, and a later inside press of 3 is not recorded |

## Left out

- The goroutine, the `select` and the buffered channels (lift.go:58-61, 75-78, 110-112, 121-123, 132-134, 146-162, 176): blocking and concurrency are not modelled. Which event the `select` receives is an input to `LoopStep` and `Wait`. A press reports through `notified` whether it would send on its channel. Whether that send blocks, and whether the value reaches the loop, is not modelled.
- `Stop` (lift.go:175-178): it only sends on the stop channel. Its effect is the `StopEv` event received by `LoopStep` and `Wait`.
- `Wait`: the source's loop never ends except on stop. The model runs it over a finite sequence of received events.
- `MoveSpeed` and `WaitTime` (lift.go:30-35): timing constants that no code uses.
- `Open` (lift.go:23): no code assigns it. It is a constructor of `Status`, and nothing is proved about reaching it.
- The error strings (lift.go:9-14, 88, 94, 101): errors are the datatype `LiftError`, and `PersonNotFound` carries the id instead of a formatted message.
- `Person`: its definition is not part of this model. Only its `id` is used. The registry stores values, so aliasing through the source's `*Person` pointers and a nil person are not modelled.
- Integer width: the source's `int` is 32 or 64 bits wide depending on the platform, but the model uses unbounded integers. No operation does arithmetic on floors or ids, and map sizes stay far below either width.
- Writes to the exported `Level` field from outside the type: the model only proves that no operation of the type changes it.
