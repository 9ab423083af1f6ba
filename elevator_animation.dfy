/**
 * The elevator car of ElevatorAnimation as an object whose methods update its fields in place.
 * Each method is proved to leave the fields as the matching function of ElevatorSpec says, so
 * every property proved there holds of the object. The values Math.random() would draw are
 * parameters; the two Swing timers become the methods Tick and Resume.
 */
module ElevatorDSA {
  import opened ElevatorSpec

  class ElevatorAnimation {
    var currentFloor: int
    var currentY: int
    var movingUp: bool
    var paused: bool
    var passengers: int
    var message: Message
    var passengersByFloor: map<int, int>

    /** The fields as a value. */
    function State(): CarState
      reads this
    {
      CarState(currentFloor, currentY, movingUp, paused, passengers, message, passengersByFloor)
    }

    constructor ()
      ensures State() == Initial && Valid(State())
    {
      currentFloor := BottomFloor;
      currentY := WindowHeight - ElevatorHeight;
      movingUp := true;
      paused := false;
      passengers := 0;
      message := Blank;
      passengersByFloor := map[];
    }

    /** The 10 ms timer's action: move unless paused. */
    method Tick(d: Draws)
      requires DrawsFor(d, currentFloor)
      modifies this
      ensures State() == AfterTick(old(State()), d)
      ensures old(paused) ==> unchanged(this)
    {
      if !paused {
        MoveElevator(d);
      }
    }

    /** The one-shot dwell timer's action, three seconds after an arrival. */
    method Resume()
      modifies this
      ensures State() == AfterResume(old(State()))
    {
      paused := false;
      message := Blank;
    }

    method MoveElevator(d: Draws)
      requires DrawsFor(d, currentFloor)
      modifies this
      ensures State() == AfterMove(old(State()), d)
      ensures BottomFloor <= old(currentFloor) <= TopFloor ==> BottomFloor <= currentFloor <= TopFloor
    {
      var targetY := YForFloor(currentFloor);
      if movingUp {
        currentY := currentY - ElevatorSpeed;
        if currentY <= targetY {
          currentY := targetY;
          HandleFloorArrival(d);
          if currentFloor < TopFloor {
            currentFloor := currentFloor + 1;
          } else {
            movingUp := false;
            currentFloor := currentFloor - 1;
          }
        }
      } else {
        currentY := currentY + ElevatorSpeed;
        if currentY >= targetY {
          currentY := targetY;
          HandleFloorArrival(d);
          if currentFloor > BottomFloor {
            currentFloor := currentFloor - 1;
          } else {
            movingUp := true;
            currentFloor := currentFloor + 1;
          }
        }
      }
    }

    method HandleFloorArrival(d: Draws)
      requires DrawsFor(d, currentFloor)
      modifies this
      ensures State() == AfterArrival(old(State()), d)
      ensures paused
    {
      paused := true;
      ManagePassengers(d);
      if currentFloor == TopFloor || currentFloor == BottomFloor {
        if d.reverse {
          movingUp := !movingUp;
          currentFloor := RandomFloor(d.relocation);
        }
      }
    }

    method ManagePassengers(d: Draws)
      requires DrawsFor(d, currentFloor)
      modifies this
      ensures State() == AfterExchange(old(State()), d)
      ensures old(currentFloor) in passengersByFloor && passengersByFloor[old(currentFloor)] == 0
      ensures message.Entering? ==> message.prefix != Rejected
    {
      var floor := currentFloor;
      var exitingPassengers := GetOrDefault(passengersByFloor, floor, 0);
      RemovePassenger(exitingPassengers);
      passengersByFloor := passengersByFloor[floor := 0];
      message := Exiting(floor, exitingPassengers);

      if passengers < MaxCapacity {
        var enteringPassengers := EnteringCount(passengers, d.boarding);
        var destination := RandomDestination(floor, d.destinations);
        AddPassenger(enteringPassengers, destination);
        message := Entering(message, enteringPassengers);
      }
    }

    method AddPassenger(count: int, destination: int)
      modifies this
      ensures State() == AfterAdd(old(State()), count, destination)
    {
      if passengers + count <= MaxCapacity {
        passengers := passengers + count;
        passengersByFloor := passengersByFloor[destination := GetOrDefault(passengersByFloor, destination, 0) + count];
      } else {
        message := Rejected;
      }
    }

    method RemovePassenger(count: int)
      modifies this
      ensures State() == AfterRemove(old(State()), count)
    {
      var actualRemoval := Min(count, passengers);
      passengers := passengers - actualRemoval;
      message := Removed(actualRemoval);
    }

    method GoUp()
      modifies this
      ensures State() == AfterGoUp(old(State()))
    {
      movingUp := true;
      message := GoingUp;
    }

    method GoDown()
      modifies this
      ensures State() == AfterGoDown(old(State()))
    {
      movingUp := false;
      message := GoingDown;
    }

    /**
     * getRandomDestination: draw floors until one differs from `floor`. Each element of
     * `draws` is one (int)(Math.random() * 5); the stream must hold such a draw.
     */
    method RandomDestination(floor: int, draws: seq<int>) returns (destination: int)
      requires DrawsInRange(draws) && Yields(draws, floor)
      ensures destination == Destination(draws, floor)
      ensures BottomFloor <= destination <= TopFloor && destination != floor
    {
      var i := 0;
      destination := 1 + draws[i];
      while destination == floor
        invariant 0 <= i < |draws|
        invariant destination == 1 + draws[i]
        invariant forall j :: 0 <= j < i ==> 1 + draws[j] == floor
        invariant exists k :: i <= k < |draws| && 1 + draws[k] != floor
        decreases |draws| - i
      {
        i := i + 1;
        destination := 1 + draws[i];
      }
      var k := DestinationIndex(draws, floor);
      assert !(k < i) && !(i < k);
    }
  }

  /** A full car takes five riders and refuses a sixth, keeping five aboard. */
  method CapacityBoundary() returns (whenFull: int, afterSixth: int, refusal: Message)
    ensures whenFull == MaxCapacity && afterSixth == MaxCapacity && refusal == Rejected
  {
    var car := new ElevatorAnimation();
    car.AddPassenger(5, 3);
    whenFull := car.passengers;
    car.AddPassenger(1, 3);
    afterSixth := car.passengers;
    refusal := car.message;
  }

  /** Removing no one changes nothing but the message. */
  method RemoveNobody() returns (before: CarState, after: CarState)
    ensures after == before.(message := Removed(0))
  {
    var car := new ElevatorAnimation();
    car.AddPassenger(2, 4);
    before := car.State();
    car.RemovePassenger(0);
    after := car.State();
  }

  /**
   * A fresh car arriving at floor 1 with no one aboard and a boarding draw of 3 takes three
   * riders, all recorded under one floor other than floor 1.
   */
  method FirstArrival(d: Draws) returns (occupancy: int, destination: int, recorded: int)
    requires DrawsFor(d, BottomFloor) && d.boarding == 3
    ensures occupancy == 3 && destination != BottomFloor && recorded == 3
  {
    var car := new ElevatorAnimation();
    car.HandleFloorArrival(d);
    occupancy := car.passengers;
    destination := Destination(d.destinations, BottomFloor);
    recorded := car.passengersByFloor[destination];
  }
}
