/** The decision policy of the smart car: its thresholds, the pin pattern each
    movement routine writes, the scaling of raw sensor values, and the ordered
    actuator events that one pass of the control loop produces. */
module Policy {

  /** A digital pin level. */
  datatype Level = Low | High

  /** The five movement routines of the actuator driver. */
  datatype Movement = Forward | Backward | TurnRight | TurnLeft | Stop

  /** What one H-bridge channel does, read off its two direction pins. */
  datatype Drive = Ahead | Reverse | Off | BothHigh

  /** The four direction pins: left motor pins 1 and 2, right motor pins 1 and 2. */
  datatype PinState = PinState(left1: Level, left2: Level, right1: Level, right2: Level)

  /** An observable actuator event: a movement command, a blocking hold of
      `ms` milliseconds, or a write to the water pump pin. */
  datatype Event = Move(movement: Movement) | Hold(ms: nat) | Pump(level: Level)

  /** The raw values one cycle acquires: the two echo times in microseconds
      (0 when no echo came back) and the two 10-bit analog readings. */
  datatype RawReadings = RawReadings(frontEcho: nat, sideEcho: nat, heatAdc: int, gasAdc: int)

  /** The readings the decision logic consults, in centimetres, degrees
      Celsius and raw gas-sensor units. */
  datatype Snapshot = Snapshot(frontDistance: real, sideDistance: real, temperature: real, gasLevel: int)

  const MAX_TEMPERATURE: real := 50.0
  const GAS_THRESHOLD: int := 400
  const SAFE_DISTANCE: int := 20
  const MOTOR_SPEED: int := 200
  const SPRAY_MS: nat := 2000
  const BACKUP_MS: nat := 500
  const TURN_MS: nat := 700
  const CYCLE_MS: nat := 100

  // ---------------------------------------------------------------------------
  // Actuator encoding

  /** The effect of a pair of direction pins on its motor. */
  function Channel(pin1: Level, pin2: Level): Drive {
    match (pin1, pin2)
    case (High, Low) => Ahead
    case (Low, High) => Reverse
    case (Low, Low) => Off
    case (High, High) => BothHigh
  }

  /** The direction each movement asks of the left and the right channel. */
  function Directions(m: Movement): (Drive, Drive) {
    match m
    case Forward => (Ahead, Ahead)
    case Backward => (Reverse, Reverse)
    case TurnRight => (Ahead, Reverse)
    case TurnLeft => (Reverse, Ahead)
    case Stop => (Off, Off)
  }

  /** The levels a movement routine leaves on the four direction pins. */
  function Pins(m: Movement): (p: PinState)
    ensures (Channel(p.left1, p.left2), Channel(p.right1, p.right2)) == Directions(m)
    ensures Channel(p.left1, p.left2) != BothHigh && Channel(p.right1, p.right2) != BothHigh
  {
    match m
    case Forward => PinState(High, Low, High, Low)
    case Backward => PinState(Low, High, Low, High)
    case TurnRight => PinState(High, Low, Low, High)
    case TurnLeft => PinState(Low, High, High, Low)
    case Stop => PinState(Low, Low, Low, Low)
  }

  /** Different movements leave different pin states, so the pins tell which
      routine ran last. */
  lemma PinsDistinct(m1: Movement, m2: Movement)
    ensures Pins(m1) == Pins(m2) ==> m1 == m2
  {
  }

  // ---------------------------------------------------------------------------
  // Sensor scaling

  /** An echo time in microseconds as a distance in centimetres: 0.034 cm per
      microsecond, halved for the round trip. A missing echo (0) reads as 0 cm,
      which the navigation policy treats as an obstacle. */
  function EchoToCentimeters(echoMicros: nat): (d: real)
    ensures d >= 0.0
    ensures echoMicros == 0 ==> d == 0.0
    ensures d < SAFE_DISTANCE as real <==> echoMicros <= 1176
  {
    echoMicros as real * 0.034 / 2.0
  }

  /** A 10-bit reading of a 10 mV per degree sensor against a 5 V reference,
      in degrees Celsius. The heat threshold is crossed exactly from ADC
      value 103 on. */
  function TemperatureFromAdc(sensorValue: int): (t: real)
    ensures 0 <= sensorValue < 1024 ==> 0.0 <= t < 500.0
    ensures t > MAX_TEMPERATURE <==> sensorValue >= 103
  {
    (sensorValue as real * 5.0 * 100.0) / 1024.0
  }

  /** The readings one cycle derives from its raw values. */
  function Sense(raw: RawReadings): Snapshot {
    Snapshot(EchoToCentimeters(raw.frontEcho), EchoToCentimeters(raw.sideEcho),
             TemperatureFromAdc(raw.heatAdc), raw.gasAdc)
  }

  // ---------------------------------------------------------------------------
  // The decision rule and the events of one cycle

  /** A hazard is a temperature above 50 degrees or a gas level above 400. */
  predicate Hazard(s: Snapshot) {
    s.temperature > MAX_TEMPERATURE || s.gasLevel > GAS_THRESHOLD
  }

  /** The events of one water spray: pump on, a 2000 ms hold, pump off. */
  function SprayTrace(): seq<Event> {
    [Pump(High), Hold(SPRAY_MS), Pump(Low)]
  }

  /** The events the hazard evaluator issues: a spray when it is too hot,
      nothing for gas. */
  function HazardTrace(temperature: real): seq<Event> {
    if temperature > MAX_TEMPERATURE then SprayTrace() else []
  }

  /** The events the navigation policy issues, first match wins. */
  function NavigationTrace(frontDistance: real, sideDistance: real): seq<Event> {
    if frontDistance < SAFE_DISTANCE as real then
      if sideDistance > SAFE_DISTANCE as real then [Move(TurnRight)]
      else [Move(Backward), Hold(BACKUP_MS), Move(TurnRight), Hold(TURN_MS)]
    else [Move(Forward)]
  }

  /** The movement events of a pass: Stop on a hazard, otherwise whatever
      the navigation policy issues. */
  function DispatchTrace(s: Snapshot): seq<Event> {
    if Hazard(s) then [Move(Stop)] else NavigationTrace(s.frontDistance, s.sideDistance)
  }

  /** The events of one pass of the control loop over the readings `s`. */
  function CycleTrace(s: Snapshot): seq<Event> {
    HazardTrace(s.temperature) + DispatchTrace(s) + [Hold(CYCLE_MS)]
  }

  /** The movement the car is left in after a cycle, as the decision table
      states it: stop on a hazard, forward when the way ahead is clear, and
      otherwise a right turn (alone, or after backing up). */
  function FinalMovement(s: Snapshot): Movement {
    if Hazard(s) then Stop
    else if s.frontDistance >= SAFE_DISTANCE as real then Forward
    else TurnRight
  }

  // ---------------------------------------------------------------------------
  // Reading event traces

  /** The movement commands of a trace, in order. */
  function Movements(t: seq<Event>): (ms: seq<Movement>)
    ensures |ms| <= |t|
    ensures forall m :: m in ms <==> Move(m) in t
    ensures ms == [] <==> NoMoves(t)
  {
    if t == [] then []
    else (if t[0].Move? then [t[0].movement] else []) + Movements(t[1..])
  }

  /** True when a trace holds no movement command. */
  predicate NoMoves(t: seq<Event>) {
    forall i :: 0 <= i < |t| ==> !t[i].Move?
  }

  /** The last movement command of a trace; Stop, the all-LOW pattern the
      pins start in, when there is none. */
  function LastMovement(t: seq<Event>): (m: Movement)
    ensures NoMoves(t) ==> m == Stop
    ensures !NoMoves(t) ==> Move(m) in t
  {
    if t == [] then Stop
    else if t[|t| - 1].Move? then t[|t| - 1].movement
    else LastMovement(t[..|t| - 1])
  }

  /** The total time a trace spends in blocking holds, in milliseconds. */
  function HeldMs(t: seq<Event>): nat {
    if t == [] then 0
    else (if t[0].Hold? then t[0].ms else 0) + HeldMs(t[1..])
  }

  /** True when every time the pump is switched on, the next events are the
      2000 ms hold and the pump being switched off again. */
  predicate SpraysComplete(t: seq<Event>) {
    forall i :: 0 <= i < |t| && t[i] == Pump(High) ==>
      i + 2 < |t| && t[i + 1] == Hold(SPRAY_MS) && t[i + 2] == Pump(Low)
  }

  lemma {:induction false} MovementsAppend(a: seq<Event>, b: seq<Event>)
    ensures Movements(a + b) == Movements(a) + Movements(b)
  {
    if a == [] {
      assert a + b == b;
    } else {
      assert (a + b)[1..] == a[1..] + b;
      MovementsAppend(a[1..], b);
    }
  }

  lemma {:induction false} HeldMsAppend(a: seq<Event>, b: seq<Event>)
    ensures HeldMs(a + b) == HeldMs(a) + HeldMs(b)
  {
    if a == [] {
      assert a + b == b;
    } else {
      assert (a + b)[1..] == a[1..] + b;
      HeldMsAppend(a[1..], b);
    }
  }

  /** Appending events that move nothing keeps the last movement; otherwise
      the appended part decides it. */
  lemma {:induction false} LastMovementAppend(a: seq<Event>, b: seq<Event>)
    ensures LastMovement(a + b) == if NoMoves(b) then LastMovement(a) else LastMovement(b)
  {
    if b == [] {
      assert a + b == a;
    } else {
      var b' := b[..|b| - 1];
      assert (a + b)[..|a + b| - 1] == a + b';
      if !b[|b| - 1].Move? {
        assert NoMoves(b) <==> NoMoves(b');
        LastMovementAppend(a, b');
      }
    }
  }

  lemma SpraysCompleteAppend(a: seq<Event>, b: seq<Event>)
    requires SpraysComplete(a) && SpraysComplete(b)
    ensures SpraysComplete(a + b)
  {
    forall i | 0 <= i < |a + b| && (a + b)[i] == Pump(High)
      ensures i + 2 < |a + b| && (a + b)[i + 1] == Hold(SPRAY_MS) && (a + b)[i + 2] == Pump(Low)
    {
      if i < |a| {
        assert a[i] == Pump(High);
      } else {
        assert b[i - |a|] == Pump(High);
      }
    }
  }
}
