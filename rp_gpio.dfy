/**
 * `GpioPin` (src/GpioPin.cpp, include/GpioPin.h): a pin with a logical
 * state that may be wired inverted.  An output pin remembers the state it
 * was last set to; an input pin is read through the inversion.
 */
module RpGpio {
  import opened RpConfig
  import opened Ints

  /** Level written for a logical state: `digitalWrite(pin, inverted == !state)`. */
  function LevelFor(state: bool, inverted: bool): bool
  {
    inverted == !state
  }

  /** Logical state of a level read on an input pin. */
  function StateOfLevel(level: bool, inverted: bool): bool
  {
    if inverted then !level else level
  }

  /** Writing a state and reading its level back gives the state again, and the converse. */
  lemma LevelRoundTrip(state: bool, level: bool, inverted: bool)
    ensures StateOfLevel(LevelFor(state, inverted), inverted) == state
    ensures LevelFor(StateOfLevel(level, inverted), inverted) == level
    ensures LevelFor(state, inverted) == (state != inverted)
  {
  }

  class GpioPin {
    const pin: nat
    /** `isOutput()`: OUTPUT or one of the OUTPUT_xMA modes. */
    const output: bool
    const isAdc: bool
    const inverted: bool
    /** `currentState`: the state last set on an output pin. */
    var currentState: bool
    /** The level last driven on the pin. */
    var level: bool
    /** Every state set on the pin, oldest first. */
    var written: seq<bool>

    /** An output pin is driven to its initial state at construction; an input keeps `currentState` false. */
    constructor (pin: nat, output: bool, isAdc: bool, inverted: bool, state: bool)
      ensures this.pin == pin && this.output == output && this.isAdc == isAdc && this.inverted == inverted
      ensures output ==> currentState == state && level == LevelFor(state, inverted) && written == [state]
      ensures !output ==> !currentState && written == []
    {
      this.pin := pin;
      this.output := output;
      this.isAdc := isAdc;
      this.inverted := inverted;
      currentState := false;
      level := false;
      written := [];
      new;
      if output {
        SetState(state);
      }
    }

    /** `setState`: only on an output; drives the level and records the state. */
    method SetState(state: bool)
      requires output
      modifies this
      ensures currentState == state && level == LevelFor(state, inverted)
      ensures written == old(written) + [state]
      ensures forall read :: GetState(read) == state
    {
      level := LevelFor(state, inverted);
      currentState := state;
      written := written + [state];
    }

    /**
     * `getState`: an output answers the recorded state without reading the
     * pin; a (non-ADC) input answers the level `read` through the inversion.
     */
    function GetState(read: bool): (r: bool)
      requires output || !isAdc
      reads this
      ensures output ==> r == currentState
      ensures !output ==> LevelFor(r, inverted) == read
    {
      if output then currentState else StateOfLevel(read, inverted)
    }

    /** `getValue`: only on an ADC input; answers the converter's reading. */
    function GetValue(reading: uint16): (v: uint16)
      requires !output && isAdc
      ensures v == reading
    {
      reading
    }
  }
}
