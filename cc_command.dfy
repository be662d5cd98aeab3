/**
 * The serial and over-the-air command set of the CubeCell variant
 * (cubecell_monitoring/src/Command.cpp, include/Command.h):
 * `processCommand` and its fourteen handlers.
 *
 * The command parser (a library) is represented by its result, a `Call`
 * with the arguments it parsed as unsigned 64-bit numbers, or nothing when
 * it refused the line.  What the handlers ask of hardware this model does
 * not cover (the clock, sleeping) is recorded as a `Request`; the answers
 * they get back are fields of `Env`.
 */
module CcCommand {
  import opened Ints
  import opened Wrappers
  import opened CcSystem
  import CcMppt
  import Charger
  import opened CcCommunication
  import opened CcGpio
  import opened CcBoard

  /** APRS_DESTINATION, the addressee of the `lora` command's message. */
  const AprsDestination: string := "APLV1"

  /** A parsed command line: the handler and its arguments. */
  datatype Call =
    | Relay1(state: uint64)
    | Relay2(state: uint64)
    | Position
    | Telem
    | TelemParams
    | Dog(powerOffTime: uint64)
    | Pow(powerOnVoltage: uint64, powerOffVoltage: uint64)
    | Lora(message: string)
    | Reset
    | Set(flag: uint64, allowed: uint64)
    | Time(epoch: uint64)
    | Sleep(time: uint64)
    | Jsons
    | Ping

  /** What a handler asks of the hardware outside this model. */
  datatype Request = SetClock(epoch: uint64) | SleepFor(ms: uint64)

  /** The answers the handlers get from the rest of the firmware. */
  datatype Env = Env(
    /** The charger's answers to a `setWatchdog`. */
    watchdog: CcMppt.WatchdogAnswers,
    /** The charger's answers to the two threshold writes of `setPowerOnOff`. */
    powerOnOk: bool,
    powerOffOk: bool,
    /** The charger's answers to a forced `update`. */
    updateBeginOk: bool,
    fetchAnswers: seq<bool>,
    fetched: CcMppt.Values,
    /** The APRS encoder and the channel samples of the `lora` message. */
    encode: Packet -> seq<byte>,
    busy: seq<bool>,
    /** `nowToString`. */
    now: string,
    /** What the parser writes when it refuses a line. */
    parserError: string,
    /** What `EEPROM.read` gives for a negative address or one past the 512 emulated bytes, which is outside this model. */
    unmappedRead: byte)

  predicate EnvValid(env: Env)
  {
    |env.fetchAnswers| == CcMppt.FetchCount && |env.busy| == SendTries
  }

  function OkKo(ok: bool): (r: string)
    ensures r == "OK" <==> ok
  {
    if ok then "OK" else "KO"
  }

  /** `"OK state %d"` of a `bool`. */
  function StateReply(on: bool): (r: string)
    ensures |r| == 10 && r[..9] == "OK state "
    ensures r[9] == '1' <==> on
  {
    "OK state " + if on then "1" else "0"
  }

  // ---------------------------------------------------------------------
  // set

  /** The outcome of a handler on the board, with its reply. */
  datatype Answered = Answered(board: Board, reply: string)

  /**
   * The EEPROM address `set` reads its reply from: the argument cast to the
   * CubeCell's 32-bit `int`.  A negative address, or one past the 512
   * emulated bytes, reads `unmappedRead`.
   */
  function ReadBack(eeprom: seq<byte>, flag: uint64, unmappedRead: byte): byte
    requires |eeprom| == EepromSize
  {
    var address := WrapInt32(flag);
    if 0 <= address < EepromSize then eeprom[address] else unmappedRead
  }

  /**
   * The `set function allowed` command as written: the flag number is the
   * argument truncated to a byte, `setFunctionAllowed` saves it whatever it
   * is, and the reply is "OK" when the EEPROM byte at the argument cast to
   * `int` is non-zero.
   */
  function SetCommandAsWritten(b: Board, flag: uint64, allowed: uint64, a: CcMppt.WatchdogAnswers, unmappedRead: byte): (r: Answered)
    requires ValidState(b.sys)
    ensures ValidState(r.board.sys)
    ensures r.board.sys.eeprom == b.sys.eeprom[Wrap8(flag) := Bit(allowed == 1)]
  {
    var n := FunctionSet(b, Wrap8(flag) as byte, allowed == 1, true, a);
    Answered(n, OkKo(ReadBack(n.sys.eeprom, flag, unmappedRead) != 0))
  }

  /**
   * As written, `set 255 0` overwrites the version byte, so the next boot
   * saves the compiled-in flags over the stored ones; `set 8 1` touches no
   * flag in memory; `set 256 1` allows flag 0 but answers from EEPROM byte
   * 256; and `set 4294967301 1`, 2^32 + 5, allows flag 5 and answers from
   * byte 5, since both casts drop the high bits.
   */
  lemma SetCommandAsWrittenDiscrepancy(b: Board, a: CcMppt.WatchdogAnswers, x: byte)
    requires ValidState(b.sys) && b.sys.eeprom[256] == 0
    ensures SetCommandAsWritten(b, 255, 0, a, x).board.sys.eeprom[AddressVersion] != EepromVersion
    ensures SetCommandAsWritten(b, 8, 1, a, x).board.sys.functionsAllowed == b.sys.functionsAllowed
    ensures var r := SetCommandAsWritten(b, 256, 1, a, x);
      r.board.sys.functionsAllowed[0] && r.board.sys.eeprom[0] == 1 && r.reply == "KO"
    ensures var r := SetCommandAsWritten(b, 0x1_0000_0005, 1, a, x);
      r.board.sys.functionsAllowed[5] && r.board.sys.eeprom[5] == 1 && r.reply == "OK"
  {
  }

  /** On the eight flags the command as written is the intended one. */
  lemma SetCommandAgreesOnFlags(b: Board, flag: uint64, allowed: uint64, a: CcMppt.WatchdogAnswers, x: byte)
    requires ValidState(b.sys) && flag < FunctionCount as uint64
    ensures SetCommandAsWritten(b, flag, allowed, a, x) == SetCommand(b, flag, allowed, a)
  {
  }

  /**
   * The `set function allowed` command corrected: a flag number outside the
   * eight flags is refused with "KO"; otherwise the flag is set (allowed iff the
   * argument is 1) and saved, and the reply is the EEPROM byte read back.
   */
  function SetCommand(b: Board, flag: uint64, allowed: uint64, a: CcMppt.WatchdogAnswers): (r: Answered)
    requires ValidState(b.sys)
    ensures ValidState(r.board.sys)
  {
    if flag >= FunctionCount then Answered(b, "KO")
    else
      var n := FunctionSet(b, flag as byte, allowed == 1, true, a);
      Answered(n, OkKo(n.sys.eeprom[flag] != 0))
  }

  /**
   * `set` stores the flag in memory and in the EEPROM, never touches the
   * version byte, and answers "OK" exactly when the function is now allowed;
   * an unknown flag changes nothing.
   */
  lemma SetCommandReadsBack(b: Board, flag: uint64, allowed: uint64, a: CcMppt.WatchdogAnswers)
    requires ValidState(b.sys)
    ensures var r := SetCommand(b, flag, allowed, a);
      && r.board.sys.eeprom[AddressVersion] == b.sys.eeprom[AddressVersion]
      && (flag < FunctionCount ==>
            && r.board.sys.functionsAllowed[flag] == (allowed == 1)
            && r.board.sys.eeprom[flag] == Bit(allowed == 1)
            && (r.reply == "OK" <==> allowed == 1))
      && (flag >= FunctionCount ==> r == Answered(b, "KO"))
  {
  }

  // ---------------------------------------------------------------------
  // Replies

  /** The handlers that talk to the charger or change its flags. */
  predicate ChargerCall(c: Call)
  {
    c.Dog? || c.Pow? || c.Set? || c.Jsons?
  }

  /**
   * `args[0].asInt64 > 0`: the relay commands parse their argument as
   * unsigned but test it through the parser's signed member, so an argument
   * from 2^63 up reads as negative.
   */
  predicate RelayOn(n: uint64)
  {
    WrapInt64(n) > 0
  }

  /** A relay argument switches the relay on exactly when it is positive and below 2^63. */
  lemma RelayOnIff(n: uint64)
    ensures RelayOn(n) <==> 0 < n < 0x8000_0000_0000_0000
    ensures !RelayOn(0x8000_0000_0000_0000) && !RelayOn(0xFFFF_FFFF_FFFF_FFFF)
  {
  }

  /** The reply of a handler that does not talk to the charger. */
  function LocalReply(c: Call, env: Env): (r: string)
    requires !ChargerCall(c)
  {
    match c
    case Relay1(n) => StateReply(RelayOn(n))
    case Relay2(n) => StateReply(RelayOn(n))
    case Time(_) => env.now
    case Sleep(t) => OkKo(t >= 1)
    case Ping => "Pong!"
    case _ => "OK"
  }

  /** The reply of each handler, from the states before it and the answers it gets. */
  function Reply(c: Call, b: Board, env: Env): (r: string)
    requires ValidState(b.sys)
  {
    match c
    case Dog(n) => OkKo(CcMppt.WatchdogSet(b.mppt, b.sys, Wrap16(n), CcMppt.WatchdogTimeout, env.watchdog).ok)
    case Pow(_, _) => OkKo(env.powerOnOk && env.powerOffOk)
    case Set(f, v) => SetCommandAsWritten(b, f, v, env.watchdog, env.unmappedRead).reply
    case Jsons => "OK"
    case _ => LocalReply(c, env)
  }

  /**
   * Only four commands can answer "KO": `dog` and `pow` when the charger
   * refuses, `set` when the flag ends up disallowed or does not exist, and
   * `sleep 0`; `ping` answers "Pong!" and the relay commands the new state.
   */
  lemma ReplyKoOnlyOnFailure(c: Call, b: Board, env: Env)
    requires ValidState(b.sys)
    ensures Reply(c, b, env) == "KO" ==> c.Dog? || c.Pow? || c.Set? || c.Sleep? || (c.Time? && env.now == "KO")
    ensures c.Sleep? ==> (Reply(c, b, env) == "OK" <==> c.time >= 1)
    ensures c.Set? && c.flag < FunctionCount ==> (Reply(c, b, env) == "OK" <==> c.allowed == 1)
    ensures (c.Relay1? ==> Reply(c, b, env)[9] == (if RelayOn(c.state) then '1' else '0'))
    ensures (c.Relay2? ==> Reply(c, b, env)[9] == (if RelayOn(c.state) then '1' else '0'))
  {
    if c.Set? && c.flag < FunctionCount as uint64 {
      SetCommandAgreesOnFlags(b, c.flag, c.allowed, env.watchdog, env.unmappedRead);
      SetCommandReadsBack(b, c.flag, c.allowed, env.watchdog);
    }
  }

  // ---------------------------------------------------------------------
  // The object

  class Command {
    /** The response buffer of the last command. */
    var response: string
    var requests: seq<Request>

    constructor ()
      ensures response == "" && requests == []
    {
      response := "";
      requests := [];
    }

    /** `doRelay1`: relay 1 on iff the argument, read as `int64_t`, is positive. */
    method DoRelay1(n: uint64, gpio: Gpio)
      modifies this`response, gpio`relay1, gpio`levels, gpio`reports
      ensures gpio.relay1 == RelayOn(n) && gpio.levels == old(gpio.levels)[Relay1Pin := !RelayOn(n)]
      ensures gpio.reports == old(gpio.reports) + if gpio.initialized then [Report(RelayOn(n), gpio.relay2)] else []
      ensures response == StateReply(RelayOn(n))
    {
      gpio.SetRelay1(RelayOn(n));
      response := StateReply(RelayOn(n));
    }

    /** `doRelay2`: relay 2 on iff the argument, read as `int64_t`, is positive; a change forces a telemetry report. */
    method DoRelay2(n: uint64, gpio: Gpio, system: System)
      modifies this`response, gpio`relay2, gpio`levels, gpio`reports, system`forceSendTelemetry
      ensures gpio.relay2 == RelayOn(n) && gpio.levels == old(gpio.levels)[Relay2Pin := !RelayOn(n)]
      ensures gpio.reports == old(gpio.reports) + if gpio.initialized then [Report(gpio.relay1, RelayOn(n))] else []
      ensures system.forceSendTelemetry == (old(system.forceSendTelemetry) || old(gpio.relay2) != RelayOn(n))
      ensures response == StateReply(RelayOn(n))
    {
      gpio.SetRelay2(RelayOn(n), system);
      response := StateReply(RelayOn(n));
    }

    /** `doPosition`: the next update sends the position. */
    method DoPosition(system: System)
      modifies this`response, system`forceSendPosition
      ensures system.forceSendPosition && response == "OK"
    {
      system.forceSendPosition := true;
      response := "OK";
    }

    /** `doTelemetry`: the next update sends the telemetry. */
    method DoTelemetry(system: System)
      modifies this`response, system`forceSendTelemetry
      ensures system.forceSendTelemetry && response == "OK"
    {
      system.forceSendTelemetry := true;
      response := "OK";
    }

    /** `doTelemetryParams`: the parameters are sent with the next report, which is forced. */
    method DoTelemetryParams(system: System, comm: Communication)
      modifies this`response, system`forceSendTelemetry, comm`shouldSendTelemetryParams
      ensures comm.shouldSendTelemetryParams && system.forceSendTelemetry
      ensures response == "OK"
    {
      comm.shouldSendTelemetryParams := true;
      system.forceSendTelemetry := true;
      response := "OK";
    }

    /** `doMpptWatchdog`: `setWatchdog` with the argument as power-off time, then the watchdog is the user's whatever happened. */
    method DoMpptWatchdog(n: uint64, a: CcMppt.WatchdogAnswers, system: System, mppt: CcMppt.MpptMonitor)
      requires system.Valid()
      modifies this`response, mppt`init, mppt`values, mppt`watchdogManagedByUser, mppt`ops, mppt`timer
      modifies system`nbError, system`log, system`ledColor, system`forceSendTelemetry
      ensures system.Valid()
      ensures var w := CcMppt.WatchdogSet(old(mppt.State()), old(system.State()), Wrap16(n), CcMppt.WatchdogTimeout, a);
        && mppt.State() == w.mppt.(watchdogManagedByUser := true)
        && system.State() == w.sys
        && response == OkKo(w.ok)
    {
      var ok := mppt.SetWatchdog(Wrap16(n), CcMppt.WatchdogTimeout, a, system);
      mppt.watchdogManagedByUser := true;
      response := OkKo(ok);
    }

    /** `doMpptPower`: both thresholds, truncated to 16 bits. */
    method DoMpptPower(on: uint64, off: uint64, onOk: bool, offOk: bool, mppt: CcMppt.MpptMonitor)
      modifies this`response, mppt`ops
      ensures mppt.ops == old(mppt.ops) + Charger.Issued([Charger.SetConfigurationValue(Charger.PowerOnThreshold, Wrap16(on)),
                                                         Charger.SetConfigurationValue(Charger.PowerOffThreshold, Wrap16(off))], [onOk, offOk])
      ensures response == OkKo(onOk && offOk)
    {
      var ok := mppt.SetPowerOnOff(Wrap16(on), Wrap16(off), onOk, offOk);
      response := OkKo(ok);
    }

    /** `doLora`: the text as a message to APRS_DESTINATION, with no ack (the defaulted null ack is taken as empty). */
    method DoLora(message: string, encode: Packet -> seq<byte>, busy: seq<bool>, system: System, comm: Communication)
      requires comm.Valid() && system.Valid() && |busy| == SendTries
      modifies this`response, comm`log, comm.buffer, system`log, system`ledColor, system`nbError
      ensures system.Valid()
      ensures var st := SendStep(old(comm.State()), old(system.State()), MessagePacket(AprsDestination, message, ""), encode, busy);
        comm.State() == st.comm && system.State() == st.sys
      ensures response == "OK"
    {
      var _ := comm.SendMessage(AprsDestination, message, "", encode, busy, system);
      response := "OK";
    }

    /** `doReset`: a software reset of the board. */
    method DoReset(system: System)
      modifies this`response, system`log
      ensures system.log == old(system.log) + [SoftwareReset] && response == "OK"
    {
      system.log := system.log + [SoftwareReset];
      response := "OK";
    }

    /** `doSetTime`: sets the clock, then answers with the time read back. */
    method DoSetTime(epoch: uint64, now: string)
      modifies this`response, this`requests
      ensures requests == old(requests) + [SetClock(epoch)] && response == now
    {
      requests := requests + [SetClock(epoch)];
      response := now;
    }

    /** `doSetEeprom`: the flag number truncated to a byte is set and saved, and the reply reads back the address cast to `int`. */
    method DoSetEeprom(flag: uint64, allowed: uint64, a: CcMppt.WatchdogAnswers, unmappedRead: byte,
                       system: System, mppt: CcMppt.MpptMonitor, comm: Communication)
      requires system.Valid()
      modifies this`response, system, mppt`init, mppt`values, mppt`watchdogManagedByUser, mppt`ops, mppt`timer, comm`log
      ensures system.Valid()
      ensures var r := SetCommandAsWritten(Board(old(system.State()), old(mppt.State()), old(comm.State())), flag, allowed, a, unmappedRead);
        Board(system.State(), mppt.State(), comm.State()) == r.board && response == r.reply
    {
      SetFunctionAllowed(Wrap8(flag) as byte, allowed == 1, true, a, system, mppt, comm);
      var address := WrapInt32(flag);
      var stored := if 0 <= address < EepromSize then system.eeprom[address] else unmappedRead;
      response := OkKo(stored != 0);
    }

    /** `doSleep`: asks for a sleep of the argument in seconds (milliseconds truncated to 64 bits), refusing 0. */
    method DoSleep(time: uint64)
      modifies this`response, this`requests
      ensures requests == old(requests) + if time >= 1 then [SleepFor(Wrap64(time * 1000))] else []
      ensures response == OkKo(time >= 1)
    {
      if time >= 1 {
        requests := requests + [SleepFor(Wrap64(time * 1000))];
        response := "OK";
        return;
      }
      response := "KO";
    }

    /** `doGetJson`: a forced charger update (the weather sensors are not part of this model). */
    method DoGetJson(env: Env, system: System, mppt: CcMppt.MpptMonitor)
      requires system.Valid() && EnvValid(env)
      modifies this`response, mppt`init, mppt`values, mppt`ops, mppt`timer
      modifies system`nbError, system`log, system`ledColor, system`forceSendTelemetry
      ensures system.Valid()
      ensures var u := CcMppt.Updated(old(mppt.State()), old(system.State()), true, false, env.updateBeginOk, env.fetchAnswers, env.fetched);
        mppt.State() == u.mppt && system.State() == u.sys
      ensures response == "OK"
    {
      var _ := mppt.Update(true, false, env.updateBeginOk, env.fetchAnswers, env.fetched, system);
      response := "OK";
    }

    /** Runs the handler of a command that talks to the charger. */
    method ExecuteCharger(c: Call, env: Env, system: System, mppt: CcMppt.MpptMonitor, comm: Communication)
      requires ChargerCall(c)
      requires system.Valid() && EnvValid(env)
      modifies this`response, system, mppt`init, mppt`values, mppt`watchdogManagedByUser, mppt`ops, mppt`timer, comm`log
      ensures system.Valid()
      ensures response == Reply(c, Board(old(system.State()), old(mppt.State()), old(comm.State())), env)
      ensures c.Dog? ==> mppt.watchdogManagedByUser
      ensures c.Set? ==> (Board(system.State(), mppt.State(), comm.State())
        == SetCommandAsWritten(Board(old(system.State()), old(mppt.State()), old(comm.State())), c.flag, c.allowed, env.watchdog, env.unmappedRead).board)
      ensures !c.Set? ==> comm.State() == old(comm.State())
    {
      match c {
        case Dog(n) => DoMpptWatchdog(n, env.watchdog, system, mppt);
        case Pow(on, off) => DoMpptPower(on, off, env.powerOnOk, env.powerOffOk, mppt);
        case Set(flag, allowed) => DoSetEeprom(flag, allowed, env.watchdog, env.unmappedRead, system, mppt, comm);
        case Jsons => DoGetJson(env, system, mppt);
      }
    }

    /** Runs the handler of any other command; the charger is left alone. */
    method ExecuteOther(c: Call, env: Env, system: System, comm: Communication, gpio: Gpio)
      requires !ChargerCall(c)
      requires system.Valid() && comm.Valid() && |env.busy| == SendTries
      modifies this, system`forceSendPosition, system`forceSendTelemetry, system`log, system`ledColor, system`nbError
      modifies comm`log, comm`shouldSendTelemetryParams, comm.buffer, gpio`relay1, gpio`relay2, gpio`levels, gpio`reports
      ensures system.Valid()
      ensures response == LocalReply(c, env)
      ensures c.Relay1? ==> gpio.relay1 == RelayOn(c.state)
      ensures c.Relay2? ==> gpio.relay2 == RelayOn(c.state)
      ensures c.Position? ==> system.State() == old(system.State()).(forceSendPosition := true)
      ensures c.Telem? ==> system.State() == old(system.State()).(forceSendTelemetry := true)
      ensures c.TelemParams? ==> comm.shouldSendTelemetryParams && system.forceSendTelemetry
      ensures c.Reset? ==> system.State() == old(system.State()).(log := old(system.log) + [SoftwareReset])
      ensures c.Time? ==> requests == old(requests) + [SetClock(c.epoch)]
      ensures c.Sleep? ==> requests == old(requests) + if c.time >= 1 then [SleepFor(Wrap64(c.time * 1000))] else []
      ensures !c.Time? && !c.Sleep? ==> requests == old(requests)
      ensures c.Ping? ==> system.State() == old(system.State()) && comm.State() == old(comm.State())
    {
      match c {
        case Relay1(n) => DoRelay1(n, gpio);
        case Relay2(n) => DoRelay2(n, gpio, system);
        case Position => DoPosition(system);
        case Telem => DoTelemetry(system);
        case TelemParams => DoTelemetryParams(system, comm);
        case Lora(message) => DoLora(message, env.encode, env.busy, system, comm);
        case Reset => DoReset(system);
        case Time(epoch) => DoSetTime(epoch, env.now);
        case Sleep(time) => DoSleep(time);
        case Ping => response := "Pong!";
      }
    }

    /**
     * `processCommand(command)`: a line shorter than three characters is
     * refused untouched, a line the parser refuses is refused with its
     * message, and any other runs its handler.
     */
    method ProcessCommand(command: string, parsed: Option<Call>, env: Env,
                          system: System, mppt: CcMppt.MpptMonitor, comm: Communication, gpio: Gpio)
      returns (ok: bool)
      requires system.Valid() && comm.Valid() && EnvValid(env)
      modifies this, system, mppt`init, mppt`values, mppt`watchdogManagedByUser, mppt`ops, mppt`timer
      modifies comm`log, comm`shouldSendTelemetryParams, comm.buffer, gpio`relay1, gpio`relay2, gpio`levels, gpio`reports
      ensures system.Valid()
      ensures ok <==> |command| >= 3 && parsed.Some?
      ensures !ok ==> system.State() == old(system.State()) && mppt.State() == old(mppt.State())
                      && comm.State() == old(comm.State()) && requests == old(requests)
      ensures |command| < 3 ==> response == old(response)
      ensures |command| >= 3 && parsed.None? ==> response == env.parserError
      ensures ok ==> response == Reply(parsed.value, Board(old(system.State()), old(mppt.State()), old(comm.State())), env)
    {
      if |command| < 3 {
        return false;
      }
      if parsed.None? {
        response := env.parserError;
        return false;
      }
      var c := parsed.value;
      if ChargerCall(c) {
        ExecuteCharger(c, env, system, mppt, comm);
      } else {
        ExecuteOther(c, env, system, comm, gpio);
      }
      return true;
    }
  }
}
