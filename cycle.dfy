/** What one pass of the control loop does, stated over its event trace:
    which commands are issued for which readings, when the pump runs, how
    long the pass blocks, and the pin state it leaves behind. */
module Cycle {
  import opened Policy

  /** A pass over hazardous readings issues Stop and no other movement. */
  lemma HazardOnlyStops(s: Snapshot)
    requires Hazard(s)
    ensures Movements(CycleTrace(s)) == [Stop]
  {
    var spray := HazardTrace(s.temperature);
    assert Movements(spray) == [];
    assert DispatchTrace(s) == [Move(Stop)];
    MovementsAppend(spray, [Move(Stop)]);
    MovementsAppend(spray + [Move(Stop)], [Hold(CYCLE_MS)]);
  }

  /** Stop is issued in a pass exactly when the readings are hazardous, and
      then once. */
  lemma StopOnlyOnHazard(s: Snapshot)
    ensures Move(Stop) in CycleTrace(s) <==> Hazard(s)
    ensures multiset(CycleTrace(s))[Move(Stop)] == if Hazard(s) then 1 else 0
  {
    var spray := HazardTrace(s.temperature);
    var decided := DispatchTrace(s);
    assert multiset(spray)[Move(Stop)] == 0;
    if Hazard(s) {
      assert decided == [Move(Stop)];
    } else {
      assert Move(Stop) !in decided;
    }
    assert multiset(decided)[Move(Stop)] == if Hazard(s) then 1 else 0;
    assert CycleTrace(s) == spray + decided + [Hold(CYCLE_MS)];
  }

  /** With no hazard and at least 20 cm ahead, the car moves forward. */
  lemma ClearAheadMovesForward(s: Snapshot)
    requires !Hazard(s) && s.frontDistance >= SAFE_DISTANCE as real
    ensures CycleTrace(s) == [Move(Forward), Hold(CYCLE_MS)]
    ensures FinalMovement(s) == Forward
  {
  }

  /** With no hazard, an obstacle ahead and more than 20 cm to the side, the
      single command is a right turn. */
  lemma SideOpenTurnsRight(s: Snapshot)
    requires !Hazard(s) && s.frontDistance < SAFE_DISTANCE as real
    requires s.sideDistance > SAFE_DISTANCE as real
    ensures CycleTrace(s) == [Move(TurnRight), Hold(CYCLE_MS)]
    ensures FinalMovement(s) == TurnRight
  {
  }

  /** With no hazard and obstacles both ahead and to the side, the car backs
      up for 500 ms and then turns right for 700 ms. */
  lemma BoxedInBacksUpThenTurns(s: Snapshot)
    requires !Hazard(s) && s.frontDistance < SAFE_DISTANCE as real
    requires s.sideDistance <= SAFE_DISTANCE as real
    ensures CycleTrace(s)
         == [Move(Backward), Hold(BACKUP_MS), Move(TurnRight), Hold(TURN_MS), Hold(CYCLE_MS)]
    ensures FinalMovement(s) == TurnRight
  {
  }

  /** The pump is switched on in a pass exactly when it is too hot, and then
      once; gas alone never touches the pump. */
  lemma PumpOnlyWhenHot(s: Snapshot)
    ensures Pump(High) in CycleTrace(s) <==> s.temperature > MAX_TEMPERATURE
    ensures multiset(CycleTrace(s))[Pump(High)] == if s.temperature > MAX_TEMPERATURE then 1 else 0
    ensures s.temperature <= MAX_TEMPERATURE ==> Pump(Low) !in CycleTrace(s)
  {
    var rest := DispatchTrace(s) + [Hold(CYCLE_MS)];
    assert Pump(High) !in rest && Pump(Low) !in rest;
    assert multiset(rest)[Pump(High)] == 0;
    if s.temperature > MAX_TEMPERATURE {
      assert CycleTrace(s) == SprayTrace() + rest;
      assert multiset(SprayTrace())[Pump(High)] == 1;
    } else {
      assert CycleTrace(s) == rest;
    }
  }

  /** Every switch-on of the pump in a pass is followed by the 2000 ms hold
      and the switch-off. */
  lemma SpraysCompleteInCycle(s: Snapshot)
    ensures SpraysComplete(CycleTrace(s))
  {
    var rest := DispatchTrace(s) + [Hold(CYCLE_MS)];
    assert SpraysComplete(rest) by {
      assert Pump(High) !in rest;
    }
    assert CycleTrace(s) == HazardTrace(s.temperature) + rest;
    SpraysCompleteAppend(HazardTrace(s.temperature), rest);
  }

  /** No pass ever issues a left turn. */
  lemma NeverTurnsLeft(s: Snapshot)
    ensures Move(TurnLeft) !in CycleTrace(s)
  {
  }

  /** Whatever came before, after a pass the last movement issued is the one
      the decision table names. */
  lemma LastMovementOfCycle(before: seq<Event>, s: Snapshot)
    ensures LastMovement(before + CycleTrace(s)) == FinalMovement(s)
  {
    var t := CycleTrace(s);
    assert !NoMoves(t) by {
      if Hazard(s) {
        assert t[|HazardTrace(s.temperature)|] == Move(Stop);
      } else {
        assert t[0].Move?;
      }
    }
    LastMovementAppend(before, t);
    var body := HazardTrace(s.temperature) + DispatchTrace(s);
    assert t == body + [Hold(CYCLE_MS)];
    LastMovementAppend(body, [Hold(CYCLE_MS)]);
    assert NoMoves([Hold(CYCLE_MS)]);
    var decided := DispatchTrace(s);
    LastMovementAppend(HazardTrace(s.temperature), decided);
    assert !NoMoves(decided) by { assert decided[0].Move?; }
  }

  /** The `delay()` holds of a pass total its 100 ms pacing hold, plus
      2000 ms when it sprays, plus 1200 ms when it backs up; never more than
      2100 ms. Echo waits and serial output are not holds. */
  lemma CycleDuration(s: Snapshot)
    ensures HeldMs(CycleTrace(s))
         == CYCLE_MS
          + (if s.temperature > MAX_TEMPERATURE then SPRAY_MS else 0)
          + (if !Hazard(s) && s.frontDistance < SAFE_DISTANCE as real
                && s.sideDistance <= SAFE_DISTANCE as real
             then BACKUP_MS + TURN_MS else 0)
    ensures CYCLE_MS <= HeldMs(CycleTrace(s)) <= CYCLE_MS + SPRAY_MS
  {
    var decided := DispatchTrace(s);
    var spray := SprayTrace();
    assert HeldMs(spray) == SPRAY_MS by {
      assert spray[1..][1..][1..] == [];
    }
    var backup := NavigationTrace(s.frontDistance, s.sideDistance);
    if |backup| == 4 {
      assert HeldMs(backup[3..]) == TURN_MS;
      assert HeldMs(backup[2..]) == TURN_MS;
      assert HeldMs(backup[1..]) == BACKUP_MS + TURN_MS;
    }
    HeldMsAppend(HazardTrace(s.temperature), decided);
    HeldMsAppend(HazardTrace(s.temperature) + decided, [Hold(CYCLE_MS)]);
  }

  /** Worked scenarios: front 5, side 30, 25 degrees, gas 100 turns right;
      front 5, side 5 backs up then turns; 60 degrees sprays and stops; gas
      500 stops without spraying. An ADC value of 102 reads as 49.8046875
      degrees, below the threshold. */
  lemma Scenarios()
    ensures CycleTrace(Snapshot(5.0, 30.0, 25.0, 100)) == [Move(TurnRight), Hold(CYCLE_MS)]
    ensures CycleTrace(Snapshot(5.0, 5.0, 25.0, 100))
         == [Move(Backward), Hold(BACKUP_MS), Move(TurnRight), Hold(TURN_MS), Hold(CYCLE_MS)]
    ensures CycleTrace(Snapshot(30.0, 5.0, 60.0, 100)) == SprayTrace() + [Move(Stop), Hold(CYCLE_MS)]
    ensures CycleTrace(Snapshot(30.0, 5.0, 25.0, 500)) == [Move(Stop), Hold(CYCLE_MS)]
    ensures TemperatureFromAdc(102) == 49.8046875 && !(TemperatureFromAdc(102) > MAX_TEMPERATURE)
  {
  }
}
