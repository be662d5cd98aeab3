/**
 * The two relays and the box light sensor of the CubeCell variant
 * (cubecell_monitoring/src/Gpio.cpp, include/Gpio.h).  Both relays are
 * driven inverted: the pin is low when the relay is on.
 */
module CcGpio {
  import opened Ints
  import opened CcSystem

  datatype Pin = Relay1Pin | Relay2Pin | LdrPin

  /** LDR_ALARM_LEVEL. */
  const LdrAlarmLevel: uint16 := 1000
  /** RELAY_1_INITIAL_STATE and RELAY_2_INITIAL_STATE. */
  const Relay1InitialState: bool := false
  const Relay2InitialState: bool := false

  /** The level `setState` writes for a wanted state. */
  function Level(enabled: bool, inverted: bool): (high: bool)
    ensures inverted ==> (high <==> !enabled)
    ensures !inverted ==> (high <==> enabled)
  {
    if inverted then !enabled else enabled
  }

  /** `getLdr`, from the level read on the sensor pin: 0 when it reads high, the alarm level when it reads low. */
  function Ldr(pinHigh: bool): (v: uint16)
    ensures v >= LdrAlarmLevel <==> !pinHigh
    ensures v == 0 || v == LdrAlarmLevel
  {
    if pinHigh then 0 else LdrAlarmLevel
  }

  /** `isBoxOpened` (System.cpp): after the first minute, when the sensor reads at least the alarm level. */
  predicate BoxOpened(uptimeMs: nat, ldrPinHigh: bool)
  {
    uptimeMs >= 60000 && Ldr(ldrPinHigh) >= LdrAlarmLevel
  }

  /** The box is reported open exactly when the sensor pin reads low after the first minute. */
  lemma BoxOpenedIff(uptimeMs: nat, ldrPinHigh: bool)
    ensures BoxOpened(uptimeMs, ldrPinHigh) <==> uptimeMs >= 60000 && !ldrPinHigh
  {
  }

  /** A relay's state as the JSON report shows it. */
  datatype Report = Report(relay1: bool, relay2: bool)

  class Gpio {
    var relay1: bool
    var relay2: bool
    var initialized: bool
    /** The level last written to each output pin. */
    var levels: map<Pin, bool>
    /** The relay reports printed by `setState` once initialized. */
    var reports: seq<Report>

    /** Applies the initial states before `initialized` is set, so nothing is reported. */
    constructor ()
      ensures relay1 == Relay1InitialState && relay2 == Relay2InitialState && initialized
      ensures levels == map[Relay1Pin := Level(Relay1InitialState, true), Relay2Pin := Level(Relay2InitialState, true)]
      ensures reports == []
    {
      relay1 := Relay1InitialState;
      relay2 := Relay2InitialState;
      initialized := false;
      levels := map[];
      reports := [];
      new;
      SetState(Relay1Pin, relay1, true);
      SetState(Relay2Pin, relay2, true);
      initialized := true;
    }

    /** `setState`: the pin level, then a report when initialized (the status is assigned by the caller). */
    method SetState(pin: Pin, enabled: bool, inverted: bool)
      modifies this`levels, this`reports
      ensures levels == old(levels)[pin := Level(enabled, inverted)]
      ensures reports == old(reports) + if initialized then [Report(relay1, relay2)] else []
    {
      levels := levels[pin := Level(enabled, inverted)];
      if initialized {
        reports := reports + [Report(relay1, relay2)];
      }
    }

    /** `setRelay1`. */
    method SetRelay1(enabled: bool)
      modifies this`relay1, this`levels, this`reports
      ensures relay1 == enabled && levels == old(levels)[Relay1Pin := !enabled]
      ensures reports == old(reports) + if initialized then [Report(enabled, relay2)] else []
    {
      relay1 := enabled;
      SetState(Relay1Pin, enabled, true);
    }

    /** `setRelay2`: a change of state also asks for a telemetry report. */
    method SetRelay2(enabled: bool, system: System)
      modifies this`relay2, this`levels, this`reports, system`forceSendTelemetry
      ensures relay2 == enabled && levels == old(levels)[Relay2Pin := !enabled]
      ensures reports == old(reports) + if initialized then [Report(relay1, enabled)] else []
      ensures system.forceSendTelemetry == (old(system.forceSendTelemetry) || old(relay2) != enabled)
    {
      if relay2 != enabled {
        system.forceSendTelemetry := true;
      }
      relay2 := enabled;
      SetState(Relay2Pin, enabled, true);
    }
  }
}
