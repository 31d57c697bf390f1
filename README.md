# Smart car control loop — a verified model

The smart car sketch (`main.cpp`) runs one polling loop. Each pass reads two
ultrasonic distances, a temperature and a gas level. It stops the car when it
finds a hazard, and sprays water first when the hazard is heat. Otherwise it steers by a three-way
obstacle-avoidance rule, then waits 100 ms. This project models that decision
policy and the pin writes that carry it out, and proves what each pass does.

Layout:

- `policy.dfy` (module `Policy`) holds the value types: pin levels, movements,
  actuator events, raw and converted readings. It also holds the thresholds and
  hold durations, the four-pin encoding of each movement, the echo and
  temperature scaling, and the reference definition of one pass's events
  (`CycleTrace`). The functions that read traces and their append lemmas are here too.
- `cycle.dfy` (module `Cycle`) proves what one pass does for each class of readings.
- `run.dfy` (module `Run`) proves what holds over any number of passes.
- `car.dfy` (module `SmartCar`) has the class `Car`. It holds the sketch's global
  readings and output pins as fields, with one method per routine. The
  ghost field `trace` records every movement command, blocking hold and pump
  write in order. Each method is proved against the `Policy` definitions.

Design notes on the modelled behaviour:

- A missing echo reads as 0 cm. The navigation rule then sees an obstacle
  ahead (0 < 20), not a clear path. `EchoToCentimeters` states this.
- The driver has a left turn (`Car.TurnLeft`), but no decision can reach it.
  `Cycle.NeverTurnsLeft` and `Run.RunNeverTurnsLeft` prove this.
- The motor enable pins get their PWM duty once, at start-up. They are
  `const` fields, so no routine can write them afterwards. Every movement
  routine's `modifies` clause names only the four direction pins and ghost state.
- A gas hazard stops the car but never runs the pump. The spray has no
  cooldown, so a pass that stays hot sprays again every time.
- `Policy.Pins` promises that no channel is left with both pins HIGH. That
  covers the pattern a movement routine leaves, not the moments between its
  pin writes. The routines write one pin at a time, so a channel can be briefly
  HIGH/HIGH: `turnRight` after `moveBackward` raises left pin 1 (main.cpp:208)
  while left pin 2 is still HIGH from main.cpp:200, and `moveForward` after
  `turnRight` raises right pin 1 (main.cpp:192) while right pin 2 is still
  HIGH from main.cpp:211. The model writes the four pins as one step.

## Model

| member | source | states |
|---|---|---|
| `Policy.Pins` | main.cpp:188-231 | each movement's pin pattern drives the left and right channels as the direction table says (forward/forward, reverse/reverse, forward/reverse for a right turn, reverse/forward for a left turn, off/off for stop), and no pattern drives both pins of one channel HIGH |
| `Policy.PinsDistinct` | main.cpp:188-231 | the five routines leave five different pin states |
| `Policy.EchoToCentimeters` | main.cpp:105-113 | an echo time converts to a non-negative distance; a missing echo gives 0 cm; the distance is under the 20 cm safe distance exactly when the echo is at most 1176 µs |
| `Policy.TemperatureFromAdc` | main.cpp:116-123 | an ADC value in 0..1023 gives a temperature in [0, 500); the temperature exceeds 50 °C exactly when the ADC value is 103 or more |
| `Cycle.HazardOnlyStops` | main.cpp:83-91 | on hazardous readings the only movement command of the pass is Stop |
| `Cycle.StopOnlyOnHazard` | main.cpp:83-91 | Stop is issued in a pass if and only if the readings are hazardous, and then exactly once |
| `Cycle.ClearAheadMovesForward` | main.cpp:161-186 | no hazard and front distance at least 20 cm (20 included): the pass is exactly a forward command and the pacing hold |
| `Cycle.SideOpenTurnsRight` | main.cpp:164-171 | no hazard, front under 20 cm, side over 20 cm: the pass is exactly a right turn and the pacing hold |
| `Cycle.BoxedInBacksUpThenTurns` | main.cpp:172-179 | no hazard, front under 20 cm, side at most 20 cm (0 and 20 included): the pass is exactly backward, hold 500, right turn, hold 700, then the pacing hold |
| `Cycle.PumpOnlyWhenHot` | main.cpp:131-151 | the pump is switched on in a pass if and only if the temperature exceeds 50 °C, and then exactly once; otherwise the pump pin is not written at all, gas or no gas |
| `Cycle.SpraysCompleteInCycle` | main.cpp:153-159 | every pump switch-on in a pass is followed by a 2000 ms hold and the switch-off |
| `Cycle.NeverTurnsLeft` | main.cpp:161-186 | no pass issues a left turn, whatever the readings |
| `Cycle.LastMovementOfCycle` | main.cpp:72-95 | whatever came before, the last movement command after a pass is the decision table's: Stop on a hazard, forward when clear, otherwise a right turn |
| `Cycle.CycleDuration` | main.cpp:72-95 | the pass's `delay()` holds total 100 ms, plus 2000 ms when it sprays, plus 1200 ms when it backs up; never less than 100 or more than 2100 ms |
| `Cycle.Scenarios` | main.cpp:72-95 | the worked cases: (5, 30, 25, 100) turns right; (5, 5, 25, 100) backs up and turns; (30, 5, 60, 100) sprays and stops; (30, 5, 25, 500) stops without spraying; ADC 102 reads 49.8046875 °C, below the threshold |
| `Run.RunNeverTurnsLeft` | main.cpp:72-95 | over any number of passes the car never turns left |
| `Run.RunSprayCount` | main.cpp:131-159 | over any run, the pump is switched on exactly once per pass whose heat ADC value is 103 or more |
| `Run.RunStopCount` | main.cpp:83-91 | over any run, Stop is issued exactly once per pass whose heat ADC value is 103 or more or whose gas level is above 400 |
| `Run.RunSpraysComplete` | main.cpp:153-159 | over any run, every pump switch-on is followed by the 2000 ms hold and the switch-off |
| `Run.RunDuration` | main.cpp:72-95 | the `delay()` holds of n passes total between 100·n and 2100·n ms |
| `SmartCar.Car.constructor` | main.cpp:38-70 | start-up leaves all readings zero, every output LOW (the stop pattern) and both motor enables at 200 |
| `SmartCar.Car.ReadUltrasonicSensors` | main.cpp:97-114 | the two distances become the converted echo times; nothing else changes |
| `SmartCar.Car.ReadTemperature` | main.cpp:116-123 | the temperature becomes the scaled ADC value; nothing else changes |
| `SmartCar.Car.ReadGasLevel` | main.cpp:125-129 | the gas level becomes the raw ADC value; nothing else changes |
| `SmartCar.Car.MoveForward` | main.cpp:188-195 | writes only the direction pins, leaving the forward pattern, and records a forward command |
| `SmartCar.Car.MoveBackward` | main.cpp:197-204 | writes only the direction pins, leaving the backward pattern, and records a backward command |
| `SmartCar.Car.TurnRight` | main.cpp:206-213 | writes only the direction pins, leaving the right-turn pattern, and records a right turn |
| `SmartCar.Car.TurnLeft` | main.cpp:215-222 | writes only the direction pins, leaving the left-turn pattern, and records a left turn |
| `SmartCar.Car.StopCar` | main.cpp:224-231 | writes only the direction pins, all LOW, and records a stop |
| `SmartCar.Car.Delay` | main.cpp:176-178 | a blocking wait is recorded as a hold of its duration; no pin changes |
| `SmartCar.Car.ActivateWaterSpray` | main.cpp:153-159 | the pump goes HIGH, is held 2000 ms and goes LOW again; the pump pin ends LOW |
| `SmartCar.Car.CheckHazards` | main.cpp:131-151 | returns true if and only if the temperature exceeds 50 °C or the gas level exceeds 400; sprays only for the temperature; the pump ends LOW |
| `SmartCar.Car.NavigateCar` | main.cpp:161-186 | issues the navigation events for the current distances and ends in forward when the front is at least 20 cm, otherwise in a right turn |
| `SmartCar.Car.DecideAndAct` | main.cpp:83-94 | hazard check, then stop or navigate, then the 100 ms hold: the new trace is the old one plus the pass's events, and the pins end in the decision table's movement |
| `SmartCar.Car.Loop` | main.cpp:72-95 | one pass over fresh raw values: the readings are their conversions, the pass's events are appended, and the pins show the decided movement with the pump LOW |
| `SmartCar.Car.Operate` | main.cpp:72-95 | repeated passes append the events of every pass in order and keep the pump LOW; after a non-empty run the readings are the last cycle's conversions and the pins show the movement the last pass decided; an empty run leaves the readings, the last movement and the pins as they were |

## Left out

- Pin modes and serial initialisation in `setup` (main.cpp:43-70) are hardware configuration. Only the initial output levels and the motor speed of 200 are modelled, in the constructor.
- Raw acquisition is hardware I/O: trigger pulses, `pulseIn` and `analogRead`. Echo times and ADC values enter `Loop` as parameters.
- Serial logging and `printSensorReadings` (main.cpp:233-243) write to a diagnostic sink only. They are not modelled.
- `delay` is recorded as a hold event of its duration in milliseconds. The `delayMicroseconds` waits of the trigger pulse (main.cpp:101-111) are not recorded. Real time is not modelled.
- `Cycle.CycleDuration` and `Run.RunDuration` bound only the `delay()` holds. A pass also waits in `pulseIn` (main.cpp:105, 113), up to its default one-second timeout per sensor. It also spends time writing serial output at 9600 baud (main.cpp:46, 138-155, 194-243). Neither wait is modelled, so a pass can take longer than 2100 ms.
- Readings are exact reals. Single-precision rounding of the distance and temperature conversions, and of the 0.034 constant, is not modelled. So thresholds are exact, e.g. 1176/1177 µs and ADC 102/103.
- The runtime calls `loop` forever. `SmartCar.Car.Operate` and `Run.RunTrace` cover any finite number of passes.
- The pump pin is HIGH only inside `ActivateWaterSpray`. That HIGH level shows in the recorded trace, not in the pin state between routines.
