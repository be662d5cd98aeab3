/**
 * The CubeCell variant's `System` object (cubecell_monitoring/src/System.cpp,
 * include/System.h, include/Config.h): the eight per-function flags and
 * their EEPROM copy, the error counter that reboots the board, the RGB LED
 * and the watchdog-friendly delay.
 *
 * The members of `System` that reach into the MPPT monitor, the radio or
 * the relays (`setFunctionAllowed`, `begin`, `update`) are in `CcBoard`.
 * The hardware is seen through a log of `SysEffect`s.
 */
module CcSystem {
  import opened Ints
  import opened Seqs

  /** EEPROM addresses of the function flags, which are also their indexes in `functionsAllowed`. */
  const AddressMpptWatchdog: byte := 0
  const AddressAprsDigipeater: byte := 1
  const AddressAprsTelemetry: byte := 2
  const AddressAprsPosition: byte := 3
  const AddressSleep: byte := 4
  const AddressResetOnError: byte := 5
  const AddressWatchdog: byte := 6
  const AddressWatchdogLoraTx: byte := 7
  /** EEPROM_ADDRESS_VERSION and EEPROM_VERSION: the layout version byte. */
  const AddressVersion: byte := 0xFF
  const EepromVersion: byte := 6
  /** `EEPROM.begin(512)`. */
  const EepromSize: nat := 512
  const FunctionCount: nat := 8
  /** MAX_ERROR_TO_RESET. */
  const MaxErrorToReset: nat := 10

  /** The compiled-in value of `functionsAllowed`, indexed by address. */
  const DefaultFunctions: seq<bool> := [true, true, true, true, false, false, false, true]

  const ColorRed: uint32 := 0x500000
  const ColorViolet: uint32 := 0x500050
  const ColorBlue: uint32 := 0x000050
  const ColorYellow: uint32 := 0xcfcf02
  const ColorOrange: uint32 := 0xa88d32
  const ColorGreen: uint32 := 0x005000
  const ColorCyan: uint32 := 0x00bbff

  /** The system's timers (their expiry is an input wherever it is read). */
  datatype Timer = StatusTimer | PositionTimer | TelemetryTimer | StateTimer | BoxOpenedTimer | BlinkerTimer

  /** What the system does to the hardware, in order. */
  datatype SysEffect =
    | Pixel(color: uint32)
    | Wait(ms: nat)
    | FeedInnerWdt
    | InnerWdt(enabled: bool)
    | Restart(timer: Timer)
    | Expire(timer: Timer)
    | SoftwareReset

  /** The fields of `System` this model tracks. */
  datatype SysState = SysState(
    functionsAllowed: seq<bool>,
    eeprom: seq<byte>,
    nbError: byte,
    forceSendPosition: bool,
    forceSendTelemetry: bool,
    ledColor: uint32,
    innerWdt: bool,
    log: seq<SysEffect>)

  predicate ValidState(s: SysState)
  {
    |s.functionsAllowed| == FunctionCount && |s.eeprom| == EepromSize
  }

  /** How a `bool` is stored by `EEPROM.write`. */
  function Bit(b: bool): byte
  {
    if b then 1 else 0
  }

  // ---------------------------------------------------------------------
  // delayWdt

  /**
   * `delayWdt(ms)` with an exact clock: with the inner watchdog enabled,
   * whole seconds each followed by a feed, then the remainder; otherwise a
   * single delay.
   */
  function DelayPlan(ms: nat, wdt: bool): (plan: seq<SysEffect>)
    decreases ms
  {
    if !wdt then [Wait(ms)]
    else if ms == 0 then []
    else if ms >= 1000 then [Wait(1000), FeedInnerWdt] + DelayPlan(ms - 1000, true)
    else [Wait(ms)]
  }

  /** Milliseconds waited by a sequence of effects. */
  function TotalWait(e: seq<SysEffect>): nat
  {
    if e == [] then 0 else (if e[0].Wait? then e[0].ms else 0) + TotalWait(e[1..])
  }

  /** Feeds of the inner watchdog in a sequence of effects. */
  function Feeds(e: seq<SysEffect>): nat
  {
    if e == [] then 0 else (if e[0] == FeedInnerWdt then 1 else 0) + Feeds(e[1..])
  }

  lemma {:induction false} TotalsAppend(a: seq<SysEffect>, b: seq<SysEffect>)
    ensures TotalWait(a + b) == TotalWait(a) + TotalWait(b)
    ensures Feeds(a + b) == Feeds(a) + Feeds(b)
  {
    if a != [] {
      assert (a + b)[0] == a[0];
      assert (a + b)[1..] == a[1..] + b;
      TotalsAppend(a[1..], b);
    } else {
      assert a + b == b;
    }
  }

  /**
   * `delayWdt` waits exactly the time asked; with the watchdog enabled it
   * feeds it once per whole second and never waits more than a second
   * between two feeds.
   */
  lemma {:induction false} DelayPlanTotals(ms: nat, wdt: bool)
    ensures TotalWait(DelayPlan(ms, wdt)) == ms
    ensures Feeds(DelayPlan(ms, wdt)) == if wdt then ms / 1000 else 0
    ensures wdt ==> forall e :: e in DelayPlan(ms, wdt) && e.Wait? ==> e.ms <= 1000
    ensures SoftwareReset !in DelayPlan(ms, wdt)
    decreases ms
  {
    if wdt && ms >= 1000 {
      DelayPlanTotals(ms - 1000, true);
      TotalsAppend([Wait(1000), FeedInnerWdt], DelayPlan(ms - 1000, true));
      assert TotalWait([Wait(1000), FeedInnerWdt]) == 1000;
      assert Feeds([Wait(1000), FeedInnerWdt]) == 1;
    } else {
      assert [Wait(ms)][1..] == [];
    }
  }

  // ---------------------------------------------------------------------
  // LED and errors, on the state

  /** The flags, in memory and in the EEPROM, are those of `s`. */
  predicate FlagsKept(s: SysState, r: SysState)
  {
    r.functionsAllowed == s.functionsAllowed && r.eeprom == s.eeprom
  }

  /** The LED, delay and error calls never change the flags, the EEPROM, the inner watchdog or the report requests. */
  predicate SameSetup(s: SysState, r: SysState)
  {
    r.functionsAllowed == s.functionsAllowed && r.eeprom == s.eeprom && r.innerWdt == s.innerWdt &&
    r.forceSendPosition == s.forceSendPosition && r.forceSendTelemetry == s.forceSendTelemetry
  }

  /** `delayWdt` on the system state. */
  function Delayed(s: SysState, ms: nat): (r: SysState)
  {
    s.(log := s.log + DelayPlan(ms, s.innerWdt))
  }

  /** `turnOnRGB(color)`: nothing when the colour is already shown; else show it, wait 250 ms, restart the blinker. */
  function TurnedOn(s: SysState, color: uint32): (r: SysState)
    ensures SameSetup(s, r) && r.nbError == s.nbError && r.ledColor == color
  {
    if color == s.ledColor then s
    else s.(ledColor := color, log := s.log + [Pixel(color)] + DelayPlan(250, s.innerWdt) + [Restart(BlinkerTimer)])
  }

  /** `addError`: the `uint8_t` counter goes up by one and the board resets at the threshold when reset-on-error is allowed. */
  function ErrorAdded(s: SysState): (r: SysState)
    requires ValidState(s)
    ensures SameSetup(s, r) && r.ledColor == s.ledColor
  {
    var n := Wrap8(s.nbError + 1);
    if n >= MaxErrorToReset && s.functionsAllowed[AddressResetOnError] then
      s.(nbError := n, log := s.log + DelayPlan(500, s.innerWdt) + [SoftwareReset])
    else s.(nbError := n)
  }

  /** `removeOneError`: down by one, floored at zero. */
  function ErrorRemoved(s: SysState): (r: SysState)
    ensures r.nbError == if s.nbError > 0 then s.nbError - 1 else 0
    ensures r == s.(nbError := r.nbError)
  {
    if s.nbError > 0 then s.(nbError := s.nbError - 1) else s
  }

  /** `serialError(content, addError)`: violet LED, an error only when asked, LED off. */
  function SerialErrored(s: SysState, addError: bool): (r: SysState)
    requires ValidState(s)
    ensures ValidState(r) && SameSetup(s, r)
  {
    var lit := TurnedOn(s, ColorViolet);
    TurnedOn(if addError then ErrorAdded(lit) else lit, 0)
  }

  /** The LED calls never change the flags, the EEPROM or the counter, and leave the wanted colour on. */
  lemma TurnedOnShowsColor(s: SysState, color: uint32)
    ensures TurnedOn(s, color).ledColor == color
    ensures TurnedOn(s, color).(ledColor := s.ledColor, log := s.log) == s
    ensures TurnedOn(TurnedOn(s, color), color) == TurnedOn(s, color)
    ensures TurnedOn(s, color) == s <==> color == s.ledColor
    ensures color != s.ledColor ==> Pixel(color) in TurnedOn(s, color).log
  {
    if color != s.ledColor {
      assert TurnedOn(s, color).log[|s.log|] == Pixel(color);
    }
  }

  /** The reset of `addError` happens exactly at the threshold with reset-on-error allowed. */
  lemma ErrorAddedResetsIff(s: SysState)
    requires ValidState(s)
    ensures ErrorAdded(s).nbError == (s.nbError + 1) % 256
    ensures ErrorAdded(s).log[..|s.log|] == s.log
    ensures SoftwareReset in ErrorAdded(s).log[|s.log|..] <==>
      (s.nbError + 1) % 256 >= MaxErrorToReset && s.functionsAllowed[AddressResetOnError]
    ensures ErrorAdded(s).functionsAllowed == s.functionsAllowed && ErrorAdded(s).ledColor == s.ledColor
  {
    var r := ErrorAdded(s);
    DelayPlanTotals(500, s.innerWdt);
    if (s.nbError + 1) % 256 >= MaxErrorToReset && s.functionsAllowed[AddressResetOnError] {
      assert r.log[|s.log|..] == DelayPlan(500, s.innerWdt) + [SoftwareReset];
    } else {
      assert r.log[|s.log|..] == [];
    }
  }

  /** A removal undoes an addition that did not wrap. */
  lemma RemoveUndoesAdd(s: SysState)
    requires ValidState(s) && s.nbError < 255
    ensures ErrorRemoved(ErrorAdded(s)).nbError == s.nbError
  {
  }

  /** With reset-on-error disallowed the counter wraps to 0 after 256 errors. */
  lemma CounterWraps(s: SysState)
    requires ValidState(s) && s.nbError == 255 && !s.functionsAllowed[AddressResetOnError]
    ensures ErrorAdded(s).nbError == 0 && ErrorAdded(s).log == s.log
  {
  }

  /** A LED call only appends to the log, and never a reset. */
  lemma TurnedOnAppends(s: SysState, color: uint32)
    ensures |s.log| <= |TurnedOn(s, color).log| && TurnedOn(s, color).log[..|s.log|] == s.log
    ensures SoftwareReset !in TurnedOn(s, color).log[|s.log|..]
  {
    if color != s.ledColor {
      DelayPlanTotals(250, s.innerWdt);
      assert TurnedOn(s, color).log[|s.log|..] == [Pixel(color)] + DelayPlan(250, s.innerWdt) + [Restart(BlinkerTimer)];
    }
  }

  /** `serialError` counts an error only when asked to, and always ends with the LED off. */
  lemma SerialErrorCounts(s: SysState, addError: bool)
    requires ValidState(s)
    ensures SerialErrored(s, addError).nbError == if addError then (s.nbError + 1) % 256 else s.nbError
    ensures SerialErrored(s, addError).ledColor == 0
    ensures SerialErrored(s, addError).functionsAllowed == s.functionsAllowed
    ensures SerialErrored(s, addError).eeprom == s.eeprom
  {
    TurnedOnShowsColor(s, ColorViolet);
    var lit := TurnedOn(s, ColorViolet);
    TurnedOnShowsColor(if addError then ErrorAdded(lit) else lit, 0);
  }

  /** Without counting an error, `serialError` never resets the board. */
  lemma SerialErrorWithoutCountNeverResets(s: SysState)
    requires ValidState(s)
    ensures SoftwareReset !in SerialErrored(s, false).log[|s.log|..]
  {
    var lit := TurnedOn(s, ColorViolet);
    var r := TurnedOn(lit, 0);
    TurnedOnAppends(s, ColorViolet);
    TurnedOnAppends(lit, 0);
    assert r.log[|s.log|..] == lit.log[|s.log|..] + r.log[|lit.log|..];
  }

  // ---------------------------------------------------------------------
  // setFunctionAllowed, the part on the system's own fields

  /**
   * The flag storage of `setFunctionAllowed(function, allowed, save)` as
   * written: with `save` the flag and its EEPROM byte are written; without
   * it nothing is stored, not even the in-memory flag.  A function number
   * past the eight flags (which `set` can pass) still has its EEPROM byte
   * written; the firmware's write past the end of `functionsAllowed` is
   * outside this model, which leaves the flags alone then.
   */
  function FlagStoredAsWritten(s: SysState, fn: byte, allowed: bool, save: bool): (r: SysState)
    requires ValidState(s)
    ensures ValidState(r)
  {
    if save then
      s.(functionsAllowed := if fn as nat < FunctionCount then s.functionsAllowed[fn := allowed] else s.functionsAllowed,
         eeprom := s.eeprom[fn := Bit(allowed)])
    else s
  }

  /** The flag storage as intended: the in-memory flag always, its EEPROM byte only with `save`. */
  function FlagStored(s: SysState, fn: byte, allowed: bool, save: bool): (r: SysState)
    requires ValidState(s) && fn < FunctionCount
    ensures ValidState(r)
  {
    s.(functionsAllowed := s.functionsAllowed[fn := allowed],
       eeprom := if save then s.eeprom[fn := Bit(allowed)] else s.eeprom)
  }

  /** The two agree when saving; without saving, only the intended one changes the flag. */
  lemma FlagStoredDiscrepancy(s: SysState, fn: byte, allowed: bool)
    requires ValidState(s) && fn < FunctionCount
    ensures FlagStoredAsWritten(s, fn, allowed, true) == FlagStored(s, fn, allowed, true)
    ensures FlagStoredAsWritten(s, fn, allowed, false).functionsAllowed[fn] == s.functionsAllowed[fn]
    ensures FlagStored(s, fn, allowed, false).functionsAllowed[fn] == allowed
    ensures FlagStored(s, fn, allowed, false).eeprom == s.eeprom
  {
  }

  /** Storing a flag and reading it back, both in memory and in the EEPROM; the other flags are untouched. */
  lemma FlagStoredReadsBack(s: SysState, fn: byte, allowed: bool, save: bool)
    requires ValidState(s) && fn < FunctionCount
    ensures FlagStored(s, fn, allowed, save).functionsAllowed[fn] == allowed
    ensures save ==> (FlagStored(s, fn, allowed, save).eeprom[fn] != 0 <==> allowed)
    ensures forall i :: 0 <= i < FunctionCount && i != fn ==>
      FlagStored(s, fn, allowed, save).functionsAllowed[i] == s.functionsAllowed[i]
    ensures FlagStored(s, fn, allowed, save).eeprom[AddressVersion] == s.eeprom[AddressVersion]
  {
  }

  /** The side effects of `setFunctionAllowed` on the system itself: state report due, then the per-function action. */
  function FlagSideEffects(s: SysState, fn: byte, allowed: bool): (r: SysState)
    ensures r.functionsAllowed == s.functionsAllowed && r.eeprom == s.eeprom
    ensures r.nbError == if fn == AddressResetOnError then 0 else s.nbError
    ensures r.innerWdt == if fn == AddressWatchdog then allowed else s.innerWdt
  {
    var due := s.(log := s.log + [Expire(StateTimer)]);
    if fn == AddressResetOnError then due.(nbError := 0)
    else if fn == AddressWatchdog then due.(innerWdt := allowed, log := due.log + [InnerWdt(allowed)])
    else due
  }

  // ---------------------------------------------------------------------
  // The object

  class System {
    var functionsAllowed: seq<bool>
    /** The emulated EEPROM. */
    var eeprom: seq<byte>
    var nbError: byte
    var forceSendPosition: bool
    var forceSendTelemetry: bool
    var ledColor: uint32
    /** Whether the inner watchdog is running (`CySysWdtGetEnabledStatus`). */
    var innerWdt: bool
    var log: seq<SysEffect>

    function State(): SysState
      reads this
    {
      SysState(functionsAllowed, eeprom, nbError, forceSendPosition, forceSendTelemetry, ledColor, innerWdt, log)
    }

    predicate Valid()
      reads this
    {
      ValidState(State())
    }

    /** The constructor: compiled-in flags, no error, LED off; the EEPROM holds whatever was last committed. */
    constructor (eeprom: seq<byte>, innerWdt: bool)
      requires |eeprom| == EepromSize
      ensures Valid()
      ensures State() == SysState(DefaultFunctions, eeprom, 0, false, false, 0, innerWdt, [])
    {
      functionsAllowed := DefaultFunctions;
      this.eeprom := eeprom;
      nbError := 0;
      forceSendPosition := false;
      forceSendTelemetry := false;
      ledColor := 0;
      this.innerWdt := innerWdt;
      log := [];
    }

    function IsFunctionAllowed(fn: byte): bool
      requires Valid() && fn < FunctionCount
      reads this
    {
      functionsAllowed[fn]
    }

    /** `delayWdt(milliseconds)`, the clock advancing by exactly each `delay`. */
    method DelayWdt(milliseconds: nat)
      modifies this`log
      ensures State() == Delayed(old(State()), milliseconds)
    {
      if innerWdt {
        var elapsed := 0;
        while elapsed < milliseconds
          invariant 0 <= elapsed <= milliseconds
          invariant log + DelayPlan(milliseconds - elapsed, true) == old(log) + DelayPlan(milliseconds, true)
        {
          if milliseconds - elapsed >= 1000 {
            var step := [Wait(1000), FeedInnerWdt];
            AppendAssoc(log, step, DelayPlan(milliseconds - elapsed - 1000, true));
            log := log + step;
            elapsed := elapsed + 1000;
          } else {
            log := log + [Wait(milliseconds - elapsed)];
            elapsed := milliseconds;
          }
        }
      } else {
        log := log + [Wait(milliseconds)];
      }
    }

    /** `turnOnRGB(color)`. */
    method TurnOnRgb(color: uint32)
      modifies this`ledColor, this`log
      ensures State() == TurnedOn(old(State()), color)
    {
      if color == ledColor {
        return;
      }
      ledColor := color;
      log := log + [Pixel(color)];
      DelayWdt(250);
      log := log + [Restart(BlinkerTimer)];
    }

    /** `turnOffRGB`. */
    method TurnOffRgb()
      modifies this`ledColor, this`log
      ensures State() == TurnedOn(old(State()), 0)
    {
      TurnOnRgb(0);
    }

    /** `addError`. */
    method AddError()
      requires Valid()
      modifies this`nbError, this`log
      ensures Valid() && State() == ErrorAdded(old(State()))
    {
      nbError := (nbError + 1) % TwoTo8;
      if nbError >= MaxErrorToReset && functionsAllowed[AddressResetOnError] {
        DelayWdt(500);
        log := log + [SoftwareReset];
      }
    }

    /** `removeOneError`. */
    method RemoveOneError()
      modifies this`nbError
      ensures State() == ErrorRemoved(old(State()))
    {
      if nbError > 0 {
        nbError := nbError - 1;
      }
    }

    /** `serialError(content, addError)`. */
    method SerialError(addError: bool)
      requires Valid()
      modifies this`nbError, this`log, this`ledColor
      ensures Valid() && State() == SerialErrored(old(State()), addError)
    {
      TurnOnRgb(ColorViolet);
      if addError {
        AddError();
      }
      TurnOffRgb();
    }

    /**
     * The part of `setFunctionAllowed(function, allowed, save)` on the
     * system's own fields: the flag and its EEPROM byte only when saving, the
     * state report made due, then the error counter or the inner watchdog.
     */
    method StoreFunction(fn: byte, allowed: bool, save: bool)
      requires Valid()
      modifies this`functionsAllowed, this`eeprom, this`log, this`nbError, this`innerWdt
      ensures Valid() && State() == FlagSideEffects(FlagStoredAsWritten(old(State()), fn, allowed, save), fn, allowed)
    {
      if save {
        if fn as nat < FunctionCount {
          functionsAllowed := functionsAllowed[fn := allowed];
        }
        eeprom := eeprom[fn := Bit(allowed)];
      }
      log := log + [Expire(StateTimer)];
      if fn == AddressResetOnError {
        nbError := 0;
      } else if fn == AddressWatchdog {
        innerWdt := allowed;
        log := log + [InnerWdt(allowed)];
      }
    }
  }
}
