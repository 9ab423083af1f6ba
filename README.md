# Elevator car of ElevatorAnimation, in Dafny

The repository draws one elevator car in a five-floor shaft. A 10 ms timer moves the car
2 pixels per tick toward the pixel row of its target floor. When the car reaches that row it
snaps to it and pauses for a 3-second dwell. During the arrival, riders bound for that floor
get off, and a random number of new riders (up to the free places, capacity 5) get on, all
bound for one random other floor. Then the target moves one floor on, and the direction
reverses at floor 1 or floor 5. At floor 1 or 5 there is also a one-in-five chance that the
direction flips and the target jumps to a random floor. Buttons set the direction, add riders
(all or none) and remove riders (clipped to those aboard).

The project has two modules:

- `ElevatorSpec` (elevator_spec.dfy) works on values. `CarState` is a snapshot of the seven
  fields the car updates. `Draws` holds the random values one arrival uses. Each operation has
  one function from the old snapshot to the new one (`AfterMove`, `AfterArrival`,
  `AfterExchange`, `AfterAdd`, `AfterRemove`, ...). Those functions' contracts state the
  properties: all-or-nothing admission, clipped removal, the cleared floor entry, the per-tick
  step, the terminus reversal, the floor range and the occupancy bound. `Run` extends the
  invariant to any sequence of ticks, dwell expiries and calls.
- `ElevatorDSA` (elevator_animation.dfy) holds the class `ElevatorAnimation`, with the same
  fields updated in place by methods that follow the Java statement by statement. Each method
  is proved to leave `State()` equal to the matching `ElevatorSpec` function of the old state.
  So everything proved about those functions holds of the object. The module also has three
  client scenarios.

Randomness is passed in as parameters. Every `Math.random()` draw becomes a field of `Draws`,
already scaled as the code scales it:
- the boarding draw is the unclipped `(int)(random * (free + 1))`. The model accepts any
  natural number here. The code's `Math.min` clip makes the inner `addPassenger` always
  admit the boarding riders (`AfterExchange`). For the draws Java produces, which are already
  at most the free places, the clip changes nothing. Capacity would hold even without the
  clip, because `addPassenger` refuses an oversized count (`AfterAdd`);
- the destination retry loop reads a stream of `(int)(random * 5)` values;
- the terminus reversal is a boolean;
- the relocation floor is one `(int)(random * 5)`.

The two Swing timers become the methods `Tick` (the 10 ms timer's body) and `Resume` (the
dwell timer's body).

Behaviour of the code that the model keeps:
- The destination counts need not sum to at most the occupancy: `removePassenger` lowers the
  occupancy and leaves the counts alone. `DestinationSumNotKept` shows it, and `Valid` does
  not claim the bound.
- The terminus relocation may pick the floor the car is already at. The model allows this,
  as the code does.
- `goUp`/`goDown` in the middle of a trip make the next tick arrive at the target at once,
  because the comparison on the new side already holds. The model keeps this behaviour.

## Model

| member | source | states |
|---|---|---|
| `ElevatorSpec.YForFloorStrictlyDecreasing` | ElevatorAnimation.java:196-198 | a higher floor has a strictly smaller pixel row, exactly 100 px per floor |
| `ElevatorSpec.YForFloorEnds` | ElevatorAnimation.java:196-198 | floor 1 is at row 450, floor 5 at row 50, and every floor lies between them |
| `ElevatorSpec.Min` | ElevatorAnimation.java:169 | `Math.min`: the result is one of the arguments and at most both |
| `ElevatorSpec.RandomFloor` | ElevatorAnimation.java:192-194 | `getRandomFloor` always returns a floor in 1..5 |
| `ElevatorSpec.EnteringCount` | ElevatorAnimation.java:152-153 | the boarding count lies in 0..free places; a draw inside that range is taken unchanged, a larger one is clipped to the free places |
| `ElevatorSpec.YieldsTail` | ElevatorAnimation.java:186-188 | a draw naming the current floor is retried, and the rest of the stream still holds an acceptable draw |
| `ElevatorSpec.DestinationIndex` | ElevatorAnimation.java:184-190 | the retry loop stops at the first draw naming a floor other than the current one |
| `ElevatorSpec.Destination` | ElevatorAnimation.java:184-190 | `getRandomDestination` returns a floor in 1..5 other than the current floor |
| `ElevatorSpec.AfterAdd` | ElevatorAnimation.java:159-166 | if occupancy plus count is at most 5, occupancy and the destination's count (default 0) both grow by count and nothing else changes; otherwise only the message changes, to the rejection; capacity is never exceeded; the invariant is kept for non-negative counts |
| `ElevatorSpec.AfterRemove` | ElevatorAnimation.java:168-172 | occupancy drops by exactly min(count, occupancy), to 0 when count is at least the occupancy; the message reports the number removed; the destination counts and all other fields are unchanged |
| `ElevatorSpec.AfterExchange` | ElevatorAnimation.java:145-157 | afterwards the arrival floor's entry is 0; the recorded riders leave; if there is room, a clipped count boards for one other floor and is always admitted (the message is the exit report with the boarding count appended, never built on a refusal); floor, position, direction and pause are untouched; the invariant is kept |
| `ElevatorSpec.AfterArrival` | ElevatorAnimation.java:124-132 | the car is paused and the riders are exchanged; only at floor 1 or 5, and only when the reversal draw fires, the direction flips and the target becomes the drawn floor; otherwise floor and direction stay |
| `ElevatorSpec.Advance` | ElevatorAnimation.java:102-119 | in the branch of the pre-arrival direction the target moves one floor on, reversing to 4 at the top and to 2 at the bottom; a floor in 1..5 stays in 1..5 |
| `ElevatorSpec.AfterMove` | ElevatorAnimation.java:94-122 | on a non-arrival tick only the row changes, by -2 moving up or +2 moving down; on arrival the row is the old target floor's row, the car is paused and that floor's entry is 0; with no reversal draw, arriving up at 5 leaves 4 and down, arriving down at 1 leaves 2 and up; at interior floors the target moves on in the same direction; the floor stays in 1..5, even after a relocation |
| `ElevatorSpec.AfterTick` | ElevatorAnimation.java:84-87 | a tick while paused changes nothing; otherwise it is one move |
| `ElevatorSpec.AfterResume` | ElevatorAnimation.java:136-137 | the dwell's end clears the pause and the message and nothing else |
| `ElevatorSpec.AfterGoUp` | ElevatorAnimation.java:174-177 | sets the direction up and the message, nothing else |
| `ElevatorSpec.AfterGoDown` | ElevatorAnimation.java:179-182 | sets the direction down and the message, nothing else |
| `ElevatorSpec.Step` | ElevatorAnimation.java:81-91 | every timer action or public call with a non-negative count keeps floor 1..5, the row inside the shaft, occupancy 0..5 and no negative destination count |
| `ElevatorSpec.Run` | ElevatorAnimation.java:81-91 | that invariant holds after any number of ticks, dwell expiries and calls, in any order |
| `ElevatorSpec.InitialValid` | ElevatorAnimation.java:22-29 | the initial fields satisfy the invariant |
| `ElevatorSpec.DestinationSumNotKept` | ElevatorAnimation.java:168-172 | adding one rider for floor 3 and removing one leaves occupancy 0 with one rider still recorded for floor 3 |
| `ElevatorSpec.Wrap32` | ElevatorAnimation.java:160 | Java int arithmetic: the result is a 32-bit value congruent to the exact one modulo 2^32 (so it is unique), and equals the exact one when that fits |
| `ElevatorSpec.AdmissionOverflow` | ElevatorAnimation.java:160 | with one rider aboard and a count of 2147483647 the Java sum wraps to -2147483648 and the riders are admitted, though the true sum is over capacity |
| `ElevatorSpec.AdmitsAsWrittenWithoutOverflow` | ElevatorAnimation.java:160 | when the sum fits in an int, the Java test and the exact test agree |
| `ElevatorDSA.ElevatorAnimation.constructor` | ElevatorAnimation.java:22-29 | floor 1, row 550, moving up, not paused, empty, blank message, no destinations; the invariant holds |
| `ElevatorDSA.ElevatorAnimation.Tick` | ElevatorAnimation.java:84-87 | the fields become `AfterTick` of the old ones; paused means unchanged |
| `ElevatorDSA.ElevatorAnimation.Resume` | ElevatorAnimation.java:136-137 | the fields become `AfterResume` of the old ones |
| `ElevatorDSA.ElevatorAnimation.MoveElevator` | ElevatorAnimation.java:94-122 | the fields become `AfterMove` of the old ones; the floor stays in 1..5 |
| `ElevatorDSA.ElevatorAnimation.HandleFloorArrival` | ElevatorAnimation.java:124-132 | the fields become `AfterArrival` of the old ones; the car is paused |
| `ElevatorDSA.ElevatorAnimation.ManagePassengers` | ElevatorAnimation.java:145-157 | the fields become `AfterExchange` of the old ones; the floor's entry is 0; the message that reports the boarding riders never follows a refusal of the inner admission |
| `ElevatorDSA.ElevatorAnimation.AddPassenger` | ElevatorAnimation.java:159-166 | the fields become `AfterAdd` of the old ones |
| `ElevatorDSA.ElevatorAnimation.RemovePassenger` | ElevatorAnimation.java:168-172 | the fields become `AfterRemove` of the old ones |
| `ElevatorDSA.ElevatorAnimation.GoUp` | ElevatorAnimation.java:174-177 | the fields become `AfterGoUp` of the old ones |
| `ElevatorDSA.ElevatorAnimation.GoDown` | ElevatorAnimation.java:179-182 | the fields become `AfterGoDown` of the old ones |
| `ElevatorDSA.ElevatorAnimation.RandomDestination` | ElevatorAnimation.java:184-190 | the do-while loop returns exactly `Destination` of the draws: a floor in 1..5 other than the current one |
| `ElevatorDSA.CapacityBoundary` | ElevatorAnimation.java:159-166 | an empty car admits 5 riders, then refuses one more and stays at 5 with the rejection message |
| `ElevatorDSA.RemoveNobody` | ElevatorAnimation.java:168-172 | removing 0 riders changes only the message, to "Removed 0 passengers." |
| `ElevatorSpec.RemoveNothing` | ElevatorAnimation.java:168-172 | for every state, removing 0 riders changes only the message, to "Removed 0 passengers." |
| `ElevatorDSA.FirstArrival` | ElevatorAnimation.java:145-157 | a fresh car arriving at floor 1 with a boarding draw of 3 holds 3 riders, all recorded for one floor other than 1 |

## Findings

| source | as written | input that shows it | evidently intended | confidence | as-written member | corrected member |
|---|---|---|---|---|---|---|
| ElevatorAnimation.java:160 | `passengers + count <= MAX_CAPACITY` is evaluated in 32-bit int arithmetic | one rider aboard, `addPassenger(2147483647, d)`: the sum wraps to -2147483648, the riders are admitted and `passengers` becomes -2147483648 | refuse any count that would take the car over capacity | not executed | `ElevatorSpec.AdmissionOverflow` | `ElevatorSpec.AfterAdd` |

The program's own callers pass counts of at most 5, so the overflow needs an outside caller of
the public `addPassenger`. The model's admission test (`Admits`, used by `AfterAdd` and
`AddPassenger`) compares exact integers. `AdmitsAsWrittenWithoutOverflow` shows that it agrees
with the Java test whenever the sum fits in an int.

## Left out

- Swing rendering and wiring: the window, the panel's drawing, the button listeners and `main`
  (ElevatorAnimation.java:31-79, 200-225). This includes the buttons' argument choices
  (`addPassenger(1, getRandomDestination(currentFloor))` and `removePassenger(1)`). The
  operations they call are modelled.
- Timer scheduling: the 10 ms period, the 3000 ms dwell and the one-shot setup are event-loop
  timing. Only the timers' bodies are modelled, as `Tick` and `Resume`, and `Run` lets them
  fire in any order.
- `Math.random()` and floating point: each draw is a parameter in the range its scaling
  produces. The boarding draw is any natural number. The destination loop's stream must hold a
  draw naming another floor. That stands in for the random source eventually yielding one;
  termination is not proved otherwise.
- Message text: `Message` is a tag per text the code builds, with its numbers. The decimal
  rendering of those numbers is not modelled.
- Integer width: all fields are unbounded integers. The only place where Java's 32-bit
  wrap-around is modelled is the admission test (see Findings).
- Negative counts: the code accepts them (a negative removal adds riders). The model computes
  them exactly as written. The invariant lemmas assume non-negative counts, as callers are
  meant to pass.
- `credits` and the drawing constants (window width, car width) are used only for rendering.
