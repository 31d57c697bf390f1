/** The sketch itself: the global readings and the output pins it updates in
    place, and one method per routine. The ghost `trace` records, in order,
    every movement command, blocking hold and pump write the routines issue. */
module SmartCar {
  import opened Policy
  import Cycle
  import Run

  /** Concatenation regroups; the loop proofs below cite it to stay cheap. */
  lemma ConcatAssociates(a: seq<Event>, b: seq<Event>, c: seq<Event>)
    ensures a + b + c == a + (b + c)
  {
  }

  class Car {
    var frontDistance: real
    var sideDistance: real
    var temperature: real
    var gasLevel: int

    var leftMotorPin1: Level
    var leftMotorPin2: Level
    var rightMotorPin1: Level
    var rightMotorPin2: Level
    var waterPumpPin: Level

    /** The PWM duty of the two motor enable pins, written once at start-up
        and never again. */
    const motorEnableA: int
    const motorEnableB: int

    ghost var trace: seq<Event>
    /** The movement routine that ran last; Stop before any has run. */
    ghost var lastMovement: Movement

    function DirectionPins(): PinState
      reads this`leftMotorPin1, this`leftMotorPin2, this`rightMotorPin1, this`rightMotorPin2
    {
      PinState(leftMotorPin1, leftMotorPin2, rightMotorPin1, rightMotorPin2)
    }

    function Readings(): Snapshot
      reads this`frontDistance, this`sideDistance, this`temperature, this`gasLevel
    {
      Snapshot(frontDistance, sideDistance, temperature, gasLevel)
    }

    /** Between routines the pump is off and the direction pins show the
        movement routine that ran last. */
    ghost predicate Valid()
      reads this`leftMotorPin1, this`leftMotorPin2, this`rightMotorPin1, this`rightMotorPin2
      reads this`waterPumpPin, this`lastMovement
    {
      waterPumpPin == Low && DirectionPins() == Pins(lastMovement)
    }

    /** Start-up: outputs LOW, readings zero, both motors at speed 200. */
    constructor ()
      ensures Valid() && trace == []
      ensures Readings() == Snapshot(0.0, 0.0, 0.0, 0)
      ensures DirectionPins() == Pins(Stop)
      ensures motorEnableA == MOTOR_SPEED && motorEnableB == MOTOR_SPEED
    {
      frontDistance, sideDistance, temperature, gasLevel := 0.0, 0.0, 0.0, 0;
      leftMotorPin1, leftMotorPin2, rightMotorPin1, rightMotorPin2 := Low, Low, Low, Low;
      waterPumpPin := Low;
      motorEnableA, motorEnableB := MOTOR_SPEED, MOTOR_SPEED;
      trace := [];
      lastMovement := Stop;
    }

    // -------------------------------------------------------------------------
    // Sensor reader: the raw values are parameters

    method ReadUltrasonicSensors(frontEcho: nat, sideEcho: nat)
      modifies this`frontDistance, this`sideDistance
      ensures frontDistance == EchoToCentimeters(frontEcho)
      ensures sideDistance == EchoToCentimeters(sideEcho)
    {
      frontDistance := frontEcho as real * 0.034 / 2.0;
      sideDistance := sideEcho as real * 0.034 / 2.0;
    }

    method ReadTemperature(sensorValue: int)
      modifies this`temperature
      ensures temperature == TemperatureFromAdc(sensorValue)
    {
      temperature := (sensorValue as real * 5.0 * 100.0) / 1024.0;
    }

    method ReadGasLevel(sensorValue: int)
      modifies this`gasLevel
      ensures gasLevel == sensorValue
    {
      gasLevel := sensorValue;
    }

    // -------------------------------------------------------------------------
    // Actuator driver: each routine writes only the four direction pins

    method MoveForward()
      modifies this`leftMotorPin1, this`leftMotorPin2, this`rightMotorPin1, this`rightMotorPin2, this`trace, this`lastMovement
      ensures DirectionPins() == Pins(Forward)
      ensures trace == old(trace) + [Move(Forward)]
      ensures lastMovement == Forward
    {
      leftMotorPin1 := High;
      leftMotorPin2 := Low;
      rightMotorPin1 := High;
      rightMotorPin2 := Low;
      trace := trace + [Move(Forward)];
      lastMovement := Forward;
    }

    method MoveBackward()
      modifies this`leftMotorPin1, this`leftMotorPin2, this`rightMotorPin1, this`rightMotorPin2, this`trace, this`lastMovement
      ensures DirectionPins() == Pins(Backward)
      ensures trace == old(trace) + [Move(Backward)]
      ensures lastMovement == Backward
    {
      leftMotorPin1 := Low;
      leftMotorPin2 := High;
      rightMotorPin1 := Low;
      rightMotorPin2 := High;
      trace := trace + [Move(Backward)];
      lastMovement := Backward;
    }

    method TurnRight()
      modifies this`leftMotorPin1, this`leftMotorPin2, this`rightMotorPin1, this`rightMotorPin2, this`trace, this`lastMovement
      ensures DirectionPins() == Pins(Movement.TurnRight)
      ensures trace == old(trace) + [Move(Movement.TurnRight)]
      ensures lastMovement == Movement.TurnRight
    {
      leftMotorPin1 := High;
      leftMotorPin2 := Low;
      rightMotorPin1 := Low;
      rightMotorPin2 := High;
      trace := trace + [Move(Movement.TurnRight)];
      lastMovement := Movement.TurnRight;
    }

    /** Present in the driver, but no decision ever calls it. */
    method TurnLeft()
      modifies this`leftMotorPin1, this`leftMotorPin2, this`rightMotorPin1, this`rightMotorPin2, this`trace, this`lastMovement
      ensures DirectionPins() == Pins(Movement.TurnLeft)
      ensures trace == old(trace) + [Move(Movement.TurnLeft)]
      ensures lastMovement == Movement.TurnLeft
    {
      leftMotorPin1 := Low;
      leftMotorPin2 := High;
      rightMotorPin1 := High;
      rightMotorPin2 := Low;
      trace := trace + [Move(Movement.TurnLeft)];
      lastMovement := Movement.TurnLeft;
    }

    method StopCar()
      modifies this`leftMotorPin1, this`leftMotorPin2, this`rightMotorPin1, this`rightMotorPin2, this`trace, this`lastMovement
      ensures DirectionPins() == Pins(Stop)
      ensures trace == old(trace) + [Move(Stop)]
      ensures lastMovement == Stop
    {
      leftMotorPin1 := Low;
      leftMotorPin2 := Low;
      rightMotorPin1 := Low;
      rightMotorPin2 := Low;
      trace := trace + [Move(Stop)];
      lastMovement := Stop;
    }

    /** A blocking wait, recorded as a hold of `ms` milliseconds. */
    method Delay(ms: nat)
      modifies this`trace
      ensures trace == old(trace) + [Hold(ms)]
    {
      trace := trace + [Hold(ms)];
    }

    // -------------------------------------------------------------------------
    // Hazard evaluator

    method ActivateWaterSpray()
      modifies this`waterPumpPin, this`trace
      ensures waterPumpPin == Low
      ensures trace == old(trace) + SprayTrace()
    {
      waterPumpPin := High;
      trace := trace + [Pump(High)];
      Delay(SPRAY_MS);
      waterPumpPin := Low;
      trace := trace + [Pump(Low)];
    }

    method CheckHazards() returns (hazardDetected: bool)
      requires Valid()
      modifies this`waterPumpPin, this`trace
      ensures Valid()
      ensures hazardDetected <==> temperature > MAX_TEMPERATURE || gasLevel > GAS_THRESHOLD
      ensures trace == old(trace) + HazardTrace(temperature)
    {
      hazardDetected := false;
      if temperature > MAX_TEMPERATURE {
        ActivateWaterSpray();
        hazardDetected := true;
      }
      if gasLevel > GAS_THRESHOLD {
        hazardDetected := true;
      }
    }

    // -------------------------------------------------------------------------
    // Navigation policy and the control loop

    method NavigateCar()
      requires Valid()
      modifies this`leftMotorPin1, this`leftMotorPin2, this`rightMotorPin1, this`rightMotorPin2, this`trace, this`lastMovement
      ensures Valid()
      ensures trace == old(trace) + NavigationTrace(frontDistance, sideDistance)
      ensures lastMovement == if frontDistance >= SAFE_DISTANCE as real then Forward else Movement.TurnRight
    {
      if frontDistance < SAFE_DISTANCE as real {
        if sideDistance > SAFE_DISTANCE as real {
          TurnRight();
        } else {
          MoveBackward();
          Delay(BACKUP_MS);
          TurnRight();
          Delay(TURN_MS);
        }
      } else {
        MoveForward();
      }
    }

    /** The decision part of one pass: evaluate hazards, then stop or
        navigate, then the 100 ms pacing hold. */
    method DecideAndAct()
      requires Valid()
      modifies this`leftMotorPin1, this`leftMotorPin2, this`rightMotorPin1, this`rightMotorPin2
      modifies this`waterPumpPin, this`trace, this`lastMovement
      ensures Valid()
      ensures trace == old(trace) + CycleTrace(Readings())
      ensures lastMovement == FinalMovement(Readings())
    {
      ghost var s := Readings();
      ghost var before := trace;
      var hazard := CheckHazards();
      if hazard {
        StopCar();
      } else {
        NavigateCar();
      }
      assert trace == before + HazardTrace(s.temperature) + DispatchTrace(s);
      Delay(CYCLE_MS);
      assert Readings() == s;
    }

    /** One pass of the control loop over freshly acquired raw values. */
    method Loop(raw: RawReadings)
      requires Valid()
      modifies this
      ensures Valid()
      ensures Readings() == Sense(raw)
      ensures trace == old(trace) + CycleTrace(Readings())
      ensures lastMovement == FinalMovement(Readings())
      ensures DirectionPins() == Pins(FinalMovement(Readings()))
    {
      ReadUltrasonicSensors(raw.frontEcho, raw.sideEcho);
      ReadTemperature(raw.heatAdc);
      ReadGasLevel(raw.gasAdc);
      DecideAndAct();
    }

    /** The runtime calling `Loop` once for each cycle's raw values. */
    method Operate(cycles: seq<RawReadings>)
      requires Valid()
      modifies this
      ensures Valid()
      ensures trace == old(trace) + Run.RunTrace(cycles)
      ensures cycles == [] ==> lastMovement == old(lastMovement) && Readings() == old(Readings())
      ensures cycles != [] ==> lastMovement == FinalMovement(Sense(cycles[|cycles| - 1]))
      ensures cycles != [] ==> Readings() == Sense(cycles[|cycles| - 1])
    {
      ghost var startMovement, startReadings := lastMovement, Readings();
      var i := 0;
      while i < |cycles|
        invariant 0 <= i <= |cycles|
        invariant Valid()
        invariant trace == old(trace) + Run.RunTrace(cycles[..i])
        invariant i == 0 ==> lastMovement == startMovement && Readings() == startReadings
        invariant i > 0 ==> lastMovement == FinalMovement(Sense(cycles[i - 1]))
        invariant i > 0 ==> Readings() == Sense(cycles[i - 1])
      {
        Loop(cycles[i]);
        Run.RunTraceExtend(cycles, i);
        ConcatAssociates(old(trace), Run.RunTrace(cycles[..i]), CycleTrace(Sense(cycles[i])));
        i := i + 1;
      }
      assert cycles[..|cycles|] == cycles;
    }
  }
}
