/** Successive passes of the control loop, as the runtime calls `loop` again
    and again: what holds of the events of any number of cycles. */
module Run {
  import opened Policy
  import Cycle

  /** The events of successive passes, one per cycle's raw readings. */
  function RunTrace(cycles: seq<RawReadings>): seq<Event> {
    if cycles == [] then []
    else RunTrace(cycles[..|cycles| - 1]) + CycleTrace(Sense(cycles[|cycles| - 1]))
  }

  /** Running one more cycle appends that cycle's events. */
  lemma RunTraceExtend(cycles: seq<RawReadings>, i: nat)
    requires i < |cycles|
    ensures RunTrace(cycles[..i + 1]) == RunTrace(cycles[..i]) + CycleTrace(Sense(cycles[i]))
  {
    assert cycles[..i + 1][..i] == cycles[..i];
  }

  /** The number of cycles whose heat reading is ADC value 103 or more. */
  function HotCycles(cycles: seq<RawReadings>): nat {
    if cycles == [] then 0
    else HotCycles(cycles[..|cycles| - 1]) + (if cycles[|cycles| - 1].heatAdc >= 103 then 1 else 0)
  }

  /** The number of cycles with a hot heat reading or a gas reading above 400. */
  function HazardCycles(cycles: seq<RawReadings>): nat {
    if cycles == [] then 0
    else
      var last := cycles[|cycles| - 1];
      HazardCycles(cycles[..|cycles| - 1]) + (if last.heatAdc >= 103 || last.gasAdc > GAS_THRESHOLD then 1 else 0)
  }

  /** However long the car runs, it never turns left. */
  lemma {:induction false} RunNeverTurnsLeft(cycles: seq<RawReadings>)
    ensures Move(TurnLeft) !in RunTrace(cycles)
  {
    if cycles != [] {
      RunNeverTurnsLeft(cycles[..|cycles| - 1]);
      Cycle.NeverTurnsLeft(Sense(cycles[|cycles| - 1]));
    }
  }

  /** The pump is switched on once per hot cycle and at no other time. */
  lemma {:induction false} RunSprayCount(cycles: seq<RawReadings>)
    ensures multiset(RunTrace(cycles))[Pump(High)] == HotCycles(cycles)
  {
    if cycles != [] {
      RunSprayCount(cycles[..|cycles| - 1]);
      Cycle.PumpOnlyWhenHot(Sense(cycles[|cycles| - 1]));
    }
  }

  /** The car is stopped once per hazardous cycle and at no other time. */
  lemma {:induction false} RunStopCount(cycles: seq<RawReadings>)
    ensures multiset(RunTrace(cycles))[Move(Stop)] == HazardCycles(cycles)
  {
    if cycles != [] {
      RunStopCount(cycles[..|cycles| - 1]);
      Cycle.StopOnlyOnHazard(Sense(cycles[|cycles| - 1]));
    }
  }

  /** Every spray of a run ends with the pump switched off after 2000 ms. */
  lemma {:induction false} RunSpraysComplete(cycles: seq<RawReadings>)
    ensures SpraysComplete(RunTrace(cycles))
  {
    if cycles != [] {
      RunSpraysComplete(cycles[..|cycles| - 1]);
      Cycle.SpraysCompleteInCycle(Sense(cycles[|cycles| - 1]));
      SpraysCompleteAppend(RunTrace(cycles[..|cycles| - 1]), CycleTrace(Sense(cycles[|cycles| - 1])));
    }
  }

  /** The `delay()` holds of a run of n cycles total at least 100 and at most
      2100 ms per cycle: hazards lengthen the holds, but never by more than
      the spray. */
  lemma {:induction false} RunDuration(cycles: seq<RawReadings>)
    ensures CYCLE_MS * |cycles| <= HeldMs(RunTrace(cycles)) <= (CYCLE_MS + SPRAY_MS) * |cycles|
  {
    if cycles != [] {
      var prefix := cycles[..|cycles| - 1];
      RunDuration(prefix);
      Cycle.CycleDuration(Sense(cycles[|cycles| - 1]));
      HeldMsAppend(RunTrace(prefix), CycleTrace(Sense(cycles[|cycles| - 1])));
    }
  }
}
