/**
 * The serial command interpreter of the rp2040 firmware (src/Command.cpp,
 * include/Command.h): `processCommand`, the `set`/`get` settings commands
 * with the side effects of each key, `gpio`, the simple commands and the
 * APRS queries answered from the history of heard stations.
 *
 * The command parser (a library) is represented by its result, a `Call`
 * or an error message.  Whatever a handler asks of the rest of the firmware
 * is recorded as an `Effect`; the answers it gets back are fields of `Env`.
 */
module RpCommand {
  import opened RpConfig
  import opened Ints
  import opened Wrappers
  import opened Text
  import opened RpSettings
  import opened RpGpio
  import opened RpSystem

  /** One request of a command handler to the rest of the firmware, in order. */
  datatype Effect =
    | BeginRadio
    | BeginEnergy
    | Feed(task: TaskId)
    | SetEnabled(task: TaskId, enabled: bool)
    | SetInterval(task: TaskId, interval: nat)
    | StartI2c
    | StopI2c
    | SetInaChannel(battery: bool, channel: nat)
    | SetExternalRtc(epoch: uint32)
    | SetInternalRtc(epoch: uint32)
    | ForceRun(task: TaskId)
    | RequestTelemetryParams
    | SendRaw(raw: string)
    | ChangeLoRaSettings(frequency: real, bandwidth: nat, spreadingFactor: nat, codingRate: nat, outputPower: nat)
    | RunTask(task: TaskId)
    | PrintJsonTo(onUsb: bool)
    | MpptManagedByUser(ms: nat)
    | Led(on: bool)
    | Blink(howMany: nat, ms: nat)

  /** The answers the handlers get from the rest of the firmware. */
  datatype Env = Env(
    /** The tasks whose `enabled` flag is set. */
    enabledTasks: set<TaskId>,
    radioBeginOk: bool,
    energyBeginOk: bool,
    formatOk: bool,
    saveOpenOk: bool,
    sendRawOk: bool,
    changeLoRaOk: bool,
    managedByUserOk: bool,
    energyError: bool,
    weatherError: bool,
    loraError: bool,
    /** `getDateTime().unixtime()`. */
    now: uint32,
    rtcTemperature: real,
    rawTemperatureBattery: int,
    boxOpenSensor: bool,
    /** `strtod`/`strtof`, `%f`/`%lf` and `%.2f`. */
    strtod: string -> real,
    printReal: real -> string,
    printReal2: real -> string)

  // ---------------------------------------------------------------------
  // Reading the settings record

  function FlagOf(v: Value): bool
  {
    v.Flag? && v.b
  }

  function NumberOf(v: Value): nat
  {
    if v.Number? then v.n else 0
  }

  predicate FlagSetting(s: Record, f: Field)
  {
    f in s && FlagOf(s[f])
  }

  function NumberSetting(s: Record, f: Field): nat
  {
    if f in s then NumberOf(s[f]) else 0
  }

  function TextSetting(s: Record, f: Field): string
  {
    if f in s && s[f].Text? then s[f].s else ""
  }

  // ---------------------------------------------------------------------
  // Side effects of `set` on each key

  /** A key's side effect needs this to succeed for the command to succeed. */
  datatype Check = NoCheck | RadioCheck | EnergyCheck

  /** What setting a key does beyond storing the value. */
  datatype Hooked = Hooked(effects: seq<Effect>, reboot: bool, check: Check)

  function Plain(effects: seq<Effect>): Hooked
  {
    Hooked(effects, false, NoCheck)
  }

  function RebootIf(c: bool): Hooked
  {
    Hooked([], c, NoCheck)
  }

  /** The radio settings restart the radio; the others drive the LoRa TX watchdog task. */
  function LoraHook(k: LoraKey, v: Value): Hooked
  {
    match k
    case Frequency | Bandwidth | SpreadingFactor | CodingRate | OutputPower => Hooked([BeginRadio], false, RadioCheck)
    case TxEnabled => Plain([Feed(WatchdogLoraTxThread)])
    case WatchdogTxEnabled => Plain([SetEnabled(WatchdogLoraTxThread, FlagOf(v))])
    case IntervalTimeoutWatchdogTx => Plain([SetInterval(WatchdogLoraTxThread, NumberOf(v))])
  }

  /** The enable flags and intervals of the three send tasks reach the task too. */
  function AprsHook(k: AprsKey, v: Value): Hooked
  {
    match k
    case TelemetryEnabled => Plain([SetEnabled(SendTelemetriesThread, FlagOf(v))])
    case IntervalTelemetry => Plain([SetInterval(SendTelemetriesThread, NumberOf(v))])
    case StatusEnabled => Plain([SetEnabled(SendStatusThread, FlagOf(v))])
    case IntervalStatus => Plain([SetInterval(SendStatusThread, NumberOf(v))])
    case PositionWeatherEnabled => Plain([SetEnabled(SendPositionThread, FlagOf(v))])
    case IntervalPositionWeather => Plain([SetInterval(SendPositionThread, NumberOf(v))])
    case _ => Plain([])
  }

  /** `s` is the record after the value was stored. */
  function MeshtasticHook(k: MeshtasticKey, v: Value, s: Record, tasks: set<TaskId>): Hooked
  {
    match k
    case WatchdogEnabled =>
      Plain([SetEnabled(WatchdogMeshtasticThread, FlagOf(v))] + (if FlagOf(v) then [Feed(WatchdogMeshtasticThread)] else []))
    case IntervalTimeoutWatchdog => Plain([SetInterval(WatchdogMeshtasticThread, NumberOf(v))])
    case Pin => RebootIf(WatchdogMeshtasticThread in tasks)
    case I2cSlaveEnabled => Plain(if FlagOf(v) then [StartI2c] else [StopI2c])
    case I2cSlaveAddress =>
      Plain(if FlagSetting(s, Meshtastic(I2cSlaveEnabled)) then [StopI2c, StartI2c] else [])
    case AprsSendItemEnabled => Plain([SetEnabled(MeshtasticSendAprsThread, FlagOf(v))])
    case IntervalSendItem => Plain([SetInterval(MeshtasticSendAprsThread, NumberOf(v))])
    case _ => Plain([])
  }

  /** The Linux keys as written: enabling the Linux watchdog feeds the Meshtastic watchdog. */
  function LinuxHookAsWritten(k: LinuxKey, v: Value, tasks: set<TaskId>): Hooked
  {
    match k
    case WatchdogEnabled =>
      Plain([SetEnabled(WatchdogLinuxThread, FlagOf(v))] + (if FlagOf(v) then [Feed(WatchdogMeshtasticThread)] else []))
    case IntervalTimeoutWatchdog => Plain([SetInterval(WatchdogLinuxThread, NumberOf(v))])
    case Pin => RebootIf(WatchdogLinuxThread in tasks)
    case NprPin | WifiPin => RebootIf(true)
    case AprsSendItemEnabled => Plain([SetEnabled(LinuxSendAprsThread, FlagOf(v))])
    case IntervalSendItem => Plain([SetInterval(LinuxSendAprsThread, NumberOf(v))])
    case _ => Plain([])
  }

  /** The Linux keys corrected: the watchdog that was just enabled is the one fed. */
  function LinuxHookIntended(k: LinuxKey, v: Value, tasks: set<TaskId>): Hooked
  {
    if k.WatchdogEnabled? then
      Plain([SetEnabled(WatchdogLinuxThread, FlagOf(v))] + (if FlagOf(v) then [Feed(WatchdogLinuxThread)] else []))
    else LinuxHookAsWritten(k, v, tasks)
  }

  /**
   * `enabled` feeds the watchdog when its task is enabled; `timeout` and
   * `timeOff` feed it (which sends them) when the stored `enabled` is set.
   */
  function MpptHook(k: MpptKey, v: Value, s: Record, tasks: set<TaskId>): Hooked
  {
    match k
    case Enabled => Plain(if WatchdogMpptChgThread in tasks then [Feed(WatchdogMpptChgThread)] else [])
    case Timeout | TimeOff =>
      Plain(if FlagSetting(s, MpptWatchdog(MpptKey.Enabled)) then [Feed(WatchdogMpptChgThread)] else [])
    case IntervalFeed => Plain([SetInterval(WatchdogMpptChgThread, NumberOf(v))])
  }

  function BoxHook(k: BoxKey, v: Value, s: Record): Hooked
  {
    match k
    case Enabled => Plain([])
    case IntervalCheck => Plain([SetInterval(LdrBoxOpenedThread, NumberOf(v))])
    case Pin => RebootIf(FlagSetting(s, BoxOpened(BoxKey.Enabled)))
  }

  function EnergyHook(k: EnergyKey, v: Value): Hooked
  {
    match k
    case IntervalCheck => Plain([SetInterval(EnergyThread, NumberOf(v))])
    case Type | AdcPin => RebootIf(true)
    case InaChannelBattery => Plain([SetInaChannel(true, NumberOf(v))])
    case InaChannelSolar => Plain([SetInaChannel(false, NumberOf(v))])
    case MpptPowerOnVoltage | MpptPowerOffVoltage => Hooked([BeginEnergy], false, EnergyCheck)
  }

  /** The side effects of storing `v` in `f`; `s` is the record after the store. */
  function FieldHook(f: Field, v: Value, s: Record, tasks: set<TaskId>): Hooked
  {
    match f
    case Lora(k) => LoraHook(k, v)
    case Aprs(k) => AprsHook(k, v)
    case Meshtastic(k) => MeshtasticHook(k, v, s, tasks)
    case Linux(k) => LinuxHookAsWritten(k, v, tasks)
    case MpptWatchdog(k) => MpptHook(k, v, s, tasks)
    case BoxOpened(k) => BoxHook(k, v, s)
    case Weather(k) => Plain(if k.IntervalCheck? then [SetInterval(WeatherThread, NumberOf(v))] else [])
    case Energy(k) => EnergyHook(k, v)
    case Rtc(k) => if k.WakeUpPin? then RebootIf(FlagSetting(s, Rtc(RtcKey.Enabled))) else Plain([])
    case UseInternalWatchdog => RebootIf(true)
  }

  /** The side effects with the Linux watchdog hook corrected. */
  function FieldHookIntended(f: Field, v: Value, s: Record, tasks: set<TaskId>): Hooked
  {
    match f
    case Linux(k) => LinuxHookIntended(k, v, tasks)
    case _ => FieldHook(f, v, s, tasks)
  }

  /** As written, `set linux.watchdogEnabled 1` feeds the Meshtastic watchdog and never the Linux one. */
  lemma LinuxWatchdogEnableFeedsMeshtastic(s: Record, tasks: set<TaskId>)
    ensures var e := FieldHook(Linux(LinuxKey.WatchdogEnabled), Flag(true), s, tasks).effects;
      Feed(WatchdogMeshtasticThread) in e && Feed(WatchdogLinuxThread) !in e
  {
  }

  /**
   * Corrected, enabling a board's watchdog feeds that board's watchdog only,
   * for the Linux board as for the Meshtastic one, and disabling feeds nothing.
   */
  lemma WatchdogEnableFeedsItsOwnBoard(b: bool, s: Record, tasks: set<TaskId>)
    ensures var e := FieldHookIntended(Linux(LinuxKey.WatchdogEnabled), Flag(b), s, tasks).effects;
      (Feed(WatchdogLinuxThread) in e <==> b) && Feed(WatchdogMeshtasticThread) !in e
    ensures var e := FieldHookIntended(Meshtastic(MeshtasticKey.WatchdogEnabled), Flag(b), s, tasks).effects;
      (Feed(WatchdogMeshtasticThread) in e <==> b) && Feed(WatchdogLinuxThread) !in e
  {
  }

  /** Only these keys plan a reboot: pins, the energy sensor, the internal watchdog; some only when their feature is on. */
  lemma RebootingKeys(f: Field, v: Value, s: Record, tasks: set<TaskId>)
    ensures FieldHook(f, v, s, tasks).reboot <==>
      f in {Energy(Type), Energy(AdcPin), Linux(NprPin), Linux(WifiPin), UseInternalWatchdog}
      || (f == Meshtastic(MeshtasticKey.Pin) && WatchdogMeshtasticThread in tasks)
      || (f == Linux(LinuxKey.Pin) && WatchdogLinuxThread in tasks)
      || (f == BoxOpened(BoxKey.Pin) && FlagSetting(s, BoxOpened(BoxKey.Enabled)))
      || (f == Rtc(WakeUpPin) && FlagSetting(s, Rtc(RtcKey.Enabled)))
  {
    match f
    case Lora(k) =>
    case Aprs(k) =>
    case Meshtastic(k) =>
    case Linux(k) =>
    case MpptWatchdog(k) =>
    case BoxOpened(k) =>
    case Weather(k) =>
    case Energy(k) =>
    case Rtc(k) =>
    case UseInternalWatchdog =>
  }

  // ---------------------------------------------------------------------
  // `set` and `get`

  predicate CheckPasses(c: Check, env: Env)
  {
    match c
    case NoCheck => true
    case RadioCheck => env.radioBeginOk
    case EnergyCheck => env.energyBeginOk
  }

  /** Outcome of `set`: success, the new store, the side effects, `shouldReboot`, and whether a reboot was planned. */
  datatype SetResult = SetResult(ok: bool, store: StoreState, effects: seq<Effect>, shouldReboot: bool, plannedReboot: bool)

  /** The end of `set`: when everything went well the settings are saved and the result is the save's. */
  function ThenSave(r: SetResult, saveOpenOk: bool): SetResult
  {
    if !r.ok then r
    else
      var (saved, st2) := SaveStep(r.store, saveOpenOk);
      r.(ok := saved, store := st2)
  }

  /** The history after `set aprsReceived`: every slot cleared. */
  function ClearedHistory(): seq<Heard>
  {
    seq(AprsCallsignsHeardNumber, _ => EmptyHeard)
  }

  /** The epoch `set time` applies: the number read plus 15 s of typing time, as an `unsigned long`. */
  function TimeEpoch(value: string): uint32
  {
    Wrap32(StrToUnsigned(value, ULongMax) + 15)
  }

  /** The clocks `set time` sets: the external RTC when enabled, then the internal one. */
  function TimeEffects(s: Record, epoch: uint32): seq<Effect>
  {
    (if FlagSetting(s, Rtc(RtcKey.Enabled)) then [SetExternalRtc(epoch)] else []) + [SetInternalRtc(epoch)]
  }

  /** `set` on a field, before the save: the value read as the field's type is stored, then the key's side effects. */
  function FieldChange(st: StoreState, f: Field, value: string, env: Env): (r: SetResult)
    requires StoreValid(st) && value != ""
    ensures StoreValid(r.store)
    ensures r.store == st.(settings := st.settings[f := ParseValue(KindOf(f), value, env.strtod)])
  {
    var v := ParseValue(KindOf(f), value, env.strtod);
    var s1 := st.settings[f := v];
    var h := FieldHook(f, v, s1, env.enabledTasks);
    SetResult(CheckPasses(h.check, env), st.(settings := s1), h.effects, h.reboot, h.reboot)
  }

  /**
   * `doSetSetting(key, value)` before the save: the special keys `time` and
   * `reset`, then the settings fields, then `aprsReceived`; anything else
   * fails.
   */
  function Change(st: StoreState, key: string, value: string, env: Env): (r: SetResult)
    requires StoreValid(st) && value != ""
    ensures StoreValid(r.store)
  {
    if key == "time" then SetResult(true, st, TimeEffects(st.settings, TimeEpoch(value)), false, false)
    else if key == "reset" then
      var (ok, st1) := ResetStep(st, env.formatOk, env.saveOpenOk);
      SetResult(ok, st1, [], true, false)
    else match FieldNamed(key)
      case Some(f) => FieldChange(st, f, value, env)
      case None =>
        if key == "aprsReceived" then SetResult(true, st.(history := ClearedHistory()), [], false, false)
        else SetResult(false, st, [], false, false)
  }

  /** `doSetSetting(key, value)`: an empty value fails; otherwise the change, saved when it succeeded. */
  function SetStep(st: StoreState, key: string, value: string, env: Env): (r: SetResult)
    requires StoreValid(st)
    ensures StoreValid(r.store)
  {
    if value == "" then SetResult(false, st, [], false, false)
    else ThenSave(Change(st, key, value, env), env.saveOpenOk)
  }

  /** The keys `get` has no branch for. */
  predicate Gettable(f: Field)
  {
    f !in {Meshtastic(MeshtasticKey.Symbol), Meshtastic(MeshtasticKey.SymbolTable), Linux(LinuxKey.Symbol), Linux(LinuxKey.SymbolTable)}
  }

  /** What a handler does to the response: overwrite it, or leave it as it was. */
  datatype Reply = Write(text: string) | Keep

  function Applied(previous: string, r: Reply): string
  {
    match r
    case Write(t) => t
    case Keep => previous
  }

  /** `doGetSetting(key)`: the field formatted as `set` reads it, `OK` for `all`, nothing for `reset`, else `KO`. */
  function GetReply(s: Record, key: string, printReal: real -> string): Reply
    requires Typed(s)
  {
    match FieldNamed(key)
    case Some(f) => if Gettable(f) then Write(FormatValue(KindOf(f), s[f], printReal)) else Write("KO")
    case None => if key == "all" then Write("OK") else if key == "reset" then Keep else Write("KO")
  }

  /**
   * The response of `set`: `KO` on failure; otherwise `Set OK ` as rewritten
   * by `get` on the same key, then `. Reboot` when a reboot is due.
   */
  function SetReply(r: SetResult, key: string, printReal: real -> string): string
    requires StoreValid(r.store)
  {
    if !r.ok then "KO"
    else Applied("Set OK ", GetReply(r.store.settings, key, printReal)) + (if r.shouldReboot then ". Reboot" else "")
  }

  /** An empty value is refused with nothing changed and nothing saved. */
  lemma EmptyValueRefused(st: StoreState, key: string, env: Env)
    requires StoreValid(st)
    ensures var r := SetStep(st, key, "", env);
      !r.ok && r.store == st && r.effects == [] && SetReply(r, key, env.printReal) == "KO"
  {
  }

  /** An unknown key is refused: settings, history and file unchanged, no side effect. */
  lemma UnknownKeyRefused(st: StoreState, key: string, value: string, env: Env)
    requires StoreValid(st)
    requires key != "time" && key != "reset" && key != "aprsReceived" && FieldNamed(key).None?
    ensures var r := SetStep(st, key, value, env);
      !r.ok && r.store == st && r.effects == [] && SetReply(r, key, env.printReal) == "KO"
  {
  }

  /** When the save fails the answer is `KO`, yet the field keeps its new value in memory and the file is untouched. */
  lemma FailedSaveKeepsChange(st: StoreState, key: string, value: string, env: Env, f: Field)
    requires StoreValid(st) && value != "" && key != "time" && key != "reset"
    requires FieldNamed(key) == Some(f) && !env.saveOpenOk
    ensures var r := SetStep(st, key, value, env);
      !r.ok && SetReply(r, key, env.printReal) == "KO"
      && r.store.settings == st.settings[f := ParseValue(KindOf(f), value, env.strtod)]
      && r.store.file == st.file
  {
  }

  /**
   * Setting a field to the text `get` prints for a value stores that value,
   * and the answer is that same text, followed by `. Reboot` when the key
   * plans a reboot.
   */
  lemma SetEchoesGet(st: StoreState, key: string, f: Field, v: Value, env: Env)
    requires StoreValid(st) && key != "time" && key != "reset" && FieldNamed(key) == Some(f) && Gettable(f)
    requires Fits(v, KindOf(f)) && !KindOf(f).DecimalKind?
    requires KindOf(f).NumberKind? && KindOf(f).signed ==> v.n < 0x8000_0000
    requires KindOf(f).TextKind? ==> |v.s| > 0
    requires env.saveOpenOk
    ensures var text := FormatValue(KindOf(f), v, env.printReal);
      var r := SetStep(st, key, text, env);
      var h := FieldHook(f, v, r.store.settings, env.enabledTasks);
      r.store.settings == st.settings[f := v]
      && (r.ok <==> CheckPasses(h.check, env))
      && (r.ok ==> SetReply(r, key, env.printReal) == text + (if h.reboot then ". Reboot" else ""))
      && (r.ok ==> r.store.file == Some(Snapshot(r.store.settings, st.history)))
  {
    SetOfGetRoundTrip(KindOf(f), v, env.printReal, env.strtod);
  }

  /** `set reset` answers `Set OK . Reboot` when formatting and saving work, although it plans no reboot. */
  lemma SetResetAnswer(st: StoreState, value: string, env: Env)
    requires StoreValid(st) && value != "" && env.formatOk && env.saveOpenOk
    ensures var r := SetStep(st, "reset", value, env);
      r.ok && !r.plannedReboot && SetReply(r, "reset", env.printReal) == "Set OK . Reboot"
      && r.store.settings == WithDefaults(st.settings)
  {
    assert FieldNamed("reset").None? by {
      if FieldNamed("reset").Some? {
        assert Name(FieldNamed("reset").value) == "reset";
        NoFieldIsNamedReset(FieldNamed("reset").value);
      }
    }
  }

  lemma NoFieldIsNamedReset(f: Field)
    ensures Name(f) != "reset"
  {
    match f
    case UseInternalWatchdog =>
    case _ => assert Name(f)[|GroupName(f)|] == '.';
  }

  /** `set time` and `set aprsReceived` succeed but answer `KO`, because `get` knows neither key. */
  lemma SetWithoutGetAnswersKo(st: StoreState, value: string, env: Env)
    requires StoreValid(st) && value != "" && env.saveOpenOk
    requires FieldNamed("aprsReceived").None? && FieldNamed("time").None?
    ensures var r := SetStep(st, "time", value, env);
      r.ok && SetReply(r, "time", env.printReal) == "KO"
    ensures var r := SetStep(st, "aprsReceived", value, env);
      r.ok && r.store.history == ClearedHistory() && SetReply(r, "aprsReceived", env.printReal) == "KO"
  {
  }

  // ---------------------------------------------------------------------
  // `gpio`

  /** `atoi`: an optional sign then decimal digits; 0 when there are none. */
  function Atoi(s: string): int
  {
    if |s| > 0 && (s[0] == '-' || s[0] == '+') then
      var n: int := DigitsValue(s[1..][..LeadingDigits(s[1..], 10)], 10);
      if s[0] == '-' then -n else n
    else DigitsValue(s[..LeadingDigits(s, 10)], 10)
  }

  /**
   * The pin `gpio` looks up: the four aliases, else a positive number
   * (passed to `getGpio` as a `uint8_t`), else none.
   */
  function GpioTarget(what: string, s: Record): (r: Option<nat>)
    ensures what == "msh" ==> r == Some(NumberSetting(s, Meshtastic(MeshtasticKey.Pin)))
    ensures what == "npr" ==> r == Some(NumberSetting(s, Linux(NprPin)))
    ensures what !in {"msh", "linux", "wifi", "npr"} ==> (r.Some? <==> Atoi(what) > 0)
  {
    if what == "msh" then Some(NumberSetting(s, Meshtastic(MeshtasticKey.Pin)))
    else if what == "linux" then Some(NumberSetting(s, Linux(LinuxKey.Pin)))
    else if what == "wifi" then Some(NumberSetting(s, Linux(WifiPin)))
    else if what == "npr" then Some(NumberSetting(s, Linux(NprPin)))
    else if Atoi(what) > 0 then Some(Atoi(what) % TwoTo8)
    else None
  }

  /** The slot of the pin `gpio` drives, or the number of slots when there is none. */
  function GpioSlot(gpios: seq<GpioPin?>, what: string, s: Record): (k: nat)
    ensures k <= |gpios|
    ensures k < |gpios| ==> GpioTarget(what, s).Some? && gpios[k] != null && gpios[k].pin == GpioTarget(what, s).value
  {
    var t := GpioTarget(what, s);
    if t.Some? then FindGpio(gpios, t.value, 0) else |gpios|
  }

  /** A number is truncated to 8 bits: `gpio 281 1` drives pin 25. */
  lemma GpioNumberTruncated()
    ensures Atoi("281") == 281
    ensures GpioTarget("281", map[]) == Some(25)
  {
    assert "281"[1..] == "81" && "81"[1..] == "1" && "1"[1..] == "";
    assert LeadingDigits("1", 10) == 1;
    assert LeadingDigits("81", 10) == 2;
    assert LeadingDigits("281", 10) == 3;
    assert "281"[..3] == "281" && "281"[..2] == "28" && "28"[..1] == "2" && "2"[..0] == "";
    assert DigitsValue("2", 10) == 2;
    assert DigitsValue("28", 10) == 28;
  }

  // ---------------------------------------------------------------------
  // Queries on the history of heard stations

  /** A slot with a callsign and a frame. */
  predicate Occupied(h: Heard)
  {
    h.callsign != "" && h.content != ""
  }

  /** Heard directly: no digipeater in the path. */
  predicate Direct(h: Heard)
  {
    h.digipeaterCallsign == "" && h.digipeaterCount == 0
  }

  /** Heard in the last two hours (`now - time <= 3600 * 2`, on a signed 64-bit `time_t`). */
  predicate Recent(h: Heard, now: uint32)
  {
    now - h.time <= 7200
  }

  const NobodyHeard: string := "Personne depuis 2 heures"

  /** One slot of `?APRSD`: a separator when the text is not empty, then the callsign when recent. */
  function DirectStep(acc: string, h: Heard, now: uint32): string
  {
    if Occupied(h) && Direct(h) then
      (if acc != "" then acc + " " else acc) + (if Recent(h, now) then h.callsign else "")
    else acc
  }

  function DirectList(acc: string, hs: seq<Heard>, now: uint32): string
  {
    if hs == [] then acc else DirectStep(DirectList(acc, hs[..|hs| - 1], now), hs[|hs| - 1], now)
  }

  /** `?APRSD`: the stations heard directly in the last two hours, or a notice that there are none. */
  function HeardWithoutDigiReply(acc: string, hs: seq<Heard>, now: uint32): string
  {
    var l := DirectList(acc, hs, now);
    if l == "" then NobodyHeard else l
  }

  lemma ContainsExtended(a: string, b: string, needle: string)
    requires Contains(a, needle)
    ensures Contains(a + b, needle)
  {
    var i :| 0 <= i <= |a| && OccursAt(a, needle, i);
    assert (a + b)[i..i + |needle|] == a[i..i + |needle|];
    assert OccursAt(a + b, needle, i);
  }

  lemma ContainsSuffix(a: string, needle: string)
    ensures Contains(a + needle, needle)
  {
    assert (a + needle)[|a|..|a| + |needle|] == needle;
    assert OccursAt(a + needle, needle, |a|);
  }

  /** A station heard directly in the last two hours is named in `?APRSD`. */
  lemma {:induction false} DirectListNamesRecent(acc: string, hs: seq<Heard>, now: uint32, j: nat)
    requires j < |hs| && Occupied(hs[j]) && Direct(hs[j]) && Recent(hs[j], now)
    ensures Contains(DirectList(acc, hs, now), hs[j].callsign)
  {
    var last := |hs| - 1;
    var prev := DirectList(acc, hs[..last], now);
    var sep := if prev != "" then prev + " " else prev;
    if j == last {
      ContainsSuffix(sep, hs[j].callsign);
    } else {
      DirectListNamesRecent(acc, hs[..last], now, j);
      if Occupied(hs[last]) && Direct(hs[last]) {
        ContainsExtended(prev, if prev != "" then " " else "", hs[j].callsign);
        assert sep == prev + (if prev != "" then " " else "");
        ContainsExtended(sep, if Recent(hs[last], now) then hs[last].callsign else "", hs[j].callsign);
      }
    }
  }

  /** Starting empty, `?APRSD` says nobody was heard exactly when no station was heard directly in the last two hours. */
  lemma {:induction false} DirectListEmpty(hs: seq<Heard>, now: uint32)
    ensures DirectList("", hs, now) == "" <==>
      forall j :: 0 <= j < |hs| ==> !(Occupied(hs[j]) && Direct(hs[j]) && Recent(hs[j], now))
  {
    if hs != [] {
      var last := |hs| - 1;
      DirectListEmpty(hs[..last], now);
      assert forall j :: 0 <= j < last ==> hs[..last][j] == hs[j];
    }
  }

  /** The entry of `?APRSL`: `CALL(n)` with the number of digipeaters. */
  function HeardEntry(h: Heard): string
  {
    h.callsign + "(" + FormatNat(h.digipeaterCount, 10) + ")"
  }

  /** One slot of `?APRSL` as written: a recent station overwrites the whole text. */
  function HeardStepAsWritten(acc: string, h: Heard, now: uint32): string
  {
    if !Occupied(h) then acc
    else if Recent(h, now) then HeardEntry(h)
    else if acc != "" then acc + " " else acc
  }

  function HeardListAsWritten(acc: string, hs: seq<Heard>, now: uint32): string
  {
    if hs == [] then acc else HeardStepAsWritten(HeardListAsWritten(acc, hs[..|hs| - 1], now), hs[|hs| - 1], now)
  }

  /** One slot of `?APRSL` corrected: the entry is appended after the separator. */
  function HeardStep(acc: string, h: Heard, now: uint32): string
  {
    if Occupied(h) then (if acc != "" then acc + " " else acc) + (if Recent(h, now) then HeardEntry(h) else "")
    else acc
  }

  function HeardList(acc: string, hs: seq<Heard>, now: uint32): string
  {
    if hs == [] then acc else HeardStep(HeardList(acc, hs[..|hs| - 1], now), hs[|hs| - 1], now)
  }

  /** `?APRSL` as written: the last station heard in the last two hours with its digipeater count, or the notice. */
  function HeardReply(acc: string, hs: seq<Heard>, now: uint32): string
  {
    var l := HeardListAsWritten(acc, hs, now);
    if l == "" then NobodyHeard else l
  }

  /** As written, two stations heard just now give only the second one. */
  lemma HeardListKeepsOnlyLast()
    ensures var a := Heard("F4AAA", 100, 0.0, 0.0, "x", 1, "", 0);
      var b := Heard("F4BBB", 100, 0.0, 0.0, "y", 1, "", 0);
      HeardListAsWritten("", [a, b], 100) == "F4BBB(0)"
      && HeardList("", [a, b], 100) == "F4AAA(0) F4BBB(0)"
  {
    var a := Heard("F4AAA", 100, 0.0, 0.0, "x", 1, "", 0);
    var b := Heard("F4BBB", 100, 0.0, 0.0, "y", 1, "", 0);
    assert [a, b][..1] == [a];
    assert [a][..0] == [];
    assert FormatNat(0, 10) == "0";
    assert HeardEntry(a) == "F4AAA(0)" && HeardEntry(b) == "F4BBB(0)";
    assert HeardListAsWritten("", [a], 100) == "F4AAA(0)";
    assert HeardList("", [a], 100) == "F4AAA(0)";
  }

  /**
   * As written, the `?APRSL` text starts with the entry of the last station
   * heard in the last two hours: the slots after it add at most separators.
   */
  lemma {:induction false} HeardListAsWrittenLast(acc: string, hs: seq<Heard>, now: uint32, j: nat)
    requires j < |hs| && Occupied(hs[j]) && Recent(hs[j], now)
    requires forall k :: j < k < |hs| ==> !(Occupied(hs[k]) && Recent(hs[k], now))
    ensures StartsWith(HeardListAsWritten(acc, hs, now), HeardEntry(hs[j]))
  {
    var last := |hs| - 1;
    var prev := HeardListAsWritten(acc, hs[..last], now);
    if j < last {
      assert forall k :: j < k < last ==> hs[..last][k] == hs[k];
      HeardListAsWrittenLast(acc, hs[..last], now, j);
      if Occupied(hs[last]) && prev != "" {
        assert (prev + " ")[..|HeardEntry(hs[j])|] == prev[..|HeardEntry(hs[j])|];
      }
    }
  }

  /** Corrected, every station heard in the last two hours is named in `?APRSL`. */
  lemma {:induction false} HeardListNamesRecent(acc: string, hs: seq<Heard>, now: uint32, j: nat)
    requires j < |hs| && Occupied(hs[j]) && Recent(hs[j], now)
    ensures Contains(HeardList(acc, hs, now), HeardEntry(hs[j]))
  {
    var last := |hs| - 1;
    var prev := HeardList(acc, hs[..last], now);
    var sep := if prev != "" then prev + " " else prev;
    if j == last {
      ContainsSuffix(sep, HeardEntry(hs[j]));
    } else {
      HeardListNamesRecent(acc, hs[..last], now, j);
      if Occupied(hs[last]) {
        ContainsExtended(prev, if prev != "" then " " else "", HeardEntry(hs[j]));
        assert sep == prev + (if prev != "" then " " else "");
        ContainsExtended(sep, if Recent(hs[last], now) then HeardEntry(hs[last]) else "", HeardEntry(hs[j]));
      }
    }
  }

  /** The first slot from `k` on holding exactly `callsign`, or `|hs|`. */
  function FindCallsign(hs: seq<Heard>, callsign: string, k: nat): (i: nat)
    requires k <= |hs|
    ensures k <= i <= |hs|
    ensures forall j :: k <= j < i ==> hs[j].callsign != callsign
    ensures i < |hs| ==> hs[i].callsign == callsign
    decreases |hs| - k
  {
    if k == |hs| || hs[k].callsign == callsign then k else FindCallsign(hs, callsign, k + 1)
  }

  const NotHeard: string := "Pas entendu"

  function SomeoneText(h: Heard, printReal2: real -> string): string
  {
    "SNR: " + printReal2(h.snr) + " RSSI: " + printReal2(h.rssi) + " Epoch: " + FormatNat(h.time, 10)
    + " Digi: " + FormatNat(h.digipeaterCount, 10) + " Last: " + h.digipeaterCallsign
    + " Count: " + FormatNat(h.count, 10)
  }

  /** `?APRSH CALL`: the details of the first slot of that station, or `Pas entendu`. */
  function HeardSomeoneReply(hs: seq<Heard>, callsign: string, printReal2: real -> string): (r: string)
    ensures r == NotHeard <==> forall j :: 0 <= j < |hs| ==> hs[j].callsign != callsign
  {
    var i := FindCallsign(hs, callsign, 0);
    if i < |hs| then
      var t := SomeoneText(hs[i], printReal2);
      assert t[0] != NotHeard[0];
      t
    else NotHeard
  }

  /** In a packed history a station is described from its own slot. */
  lemma HeardSomeoneUsesItsSlot(hs: seq<Heard>, j: nat, printReal2: real -> string)
    requires Packed(hs) && j < |hs| && hs[j].callsign != ""
    ensures HeardSomeoneReply(hs, hs[j].callsign, printReal2) == SomeoneText(hs[j], printReal2)
  {
    var i := FindCallsign(hs, hs[j].callsign, 0);
    assert i <= j;
  }

  /** `?PING`: the last station recorded with its signal, else `Pong!`. */
  function PingReply(hs: seq<Heard>, lastHeard: Option<nat>, printReal2: real -> string): (r: string)
    ensures StartsWith(r, "Pong")
  {
    if lastHeard.Some? && lastHeard.value < |hs| then
      var h := hs[lastHeard.value];
      var r := "Pong " + h.callsign + "! SNR: " + printReal2(h.snr) + " RSSI: " + printReal2(h.rssi);
      assert r[..4] == "Pong";
      r
    else "Pong!"
  }

  // ---------------------------------------------------------------------
  // The commands

  /** A command as recognised by the parser, named after its handler. */
  datatype Call =
    | DoPosition
    | DoTelemetry
    | DoTelemetryParams
    | DoStatus
    | DoLora(raw: string)
    | DoReboot
    | DoDfu
    | DoPrintJson
    | DoPing
    | DoGpioOutput(what: string, state: nat)
    | DoSetSetting(key: string, value: string)
    | DoGetSetting(key: string)
    | DoMpptWatchdog(timeOff: nat)
    | DoMeshtasticAprs
    | DoLinuxAprs
    | DoGetBoxInfo
    | DoGetError
    | DoSetLora(frequency: real, bandwidth: nat, spreadingFactor: nat, codingRate: nat, outputPower: nat)
    | DoAprsQueryHelp
    | DoAprsHeardWithoutDigi
    | DoAprsHeard
    | DoAprsHeardSomeone(callsign: string)
    | DoAbout
    | DoAprsPing

  /** The parser's answer: a command, or the message of a refusal. */
  datatype Parsed = Parsed(call: Call) | ParseError(message: string)

  /** Which group of handlers serves a command. */
  datatype Handler = Answering | Querying | Configuring | Acting

  function HandlerOf(c: Call): Handler
  {
    match c
    case DoAprsHeardWithoutDigi | DoAprsHeard | DoAprsHeardSomeone(_) | DoAprsPing => Querying
    case DoSetSetting(_, _) | DoGetSetting(_) => Configuring
    case DoReboot | DoDfu | DoGpioOutput(_, _) => Acting
    case _ => Answering
  }

  /** The commands that only answer and request effects. */
  predicate IsSimple(c: Call)
  {
    HandlerOf(c) == Answering
  }

  function OkKo(ok: bool): string
  {
    if ok then "OK" else "KO"
  }

  function Bit(b: bool): string
  {
    if b then "1" else "0"
  }

  /** The effects and the response of a simple command. */
  function Simple(c: Call, s: Record, env: Env): (r: (seq<Effect>, string))
    requires IsSimple(c)
    ensures c.DoTelemetryParams? ==> r.0 == [RequestTelemetryParams, ForceRun(SendTelemetriesThread)] && r.1 == "OK"
    ensures c.DoMpptWatchdog? ==>
      (r.1 == "OK" <==> NumberSetting(s, Energy(Type)) == MpptChgType && env.managedByUserOk)
      && (r.0 != [] <==> NumberSetting(s, Energy(Type)) == MpptChgType)
  {
    match c
    case DoPosition => ([ForceRun(SendPositionThread)], "OK")
    case DoTelemetry => ([ForceRun(SendTelemetriesThread)], "OK")
    case DoTelemetryParams => ([RequestTelemetryParams, ForceRun(SendTelemetriesThread)], "OK")
    case DoStatus => ([ForceRun(SendStatusThread)], "OK")
    case DoLora(raw) => ([SendRaw(raw)], OkKo(env.sendRawOk))
    case DoPrintJson =>
      ([RunTask(EnergyThread)] + (if WeatherThread in env.enabledTasks then [RunTask(WeatherThread)] else [])
       + [PrintJsonTo(false), PrintJsonTo(true)], "")
    case DoPing => ([], "Pong!")
    case DoMpptWatchdog(timeOff) =>
      if NumberSetting(s, Energy(Type)) == MpptChgType then ([MpptManagedByUser(timeOff)], OkKo(env.managedByUserOk))
      else ([], "KO")
    case DoMeshtasticAprs => ([ForceRun(MeshtasticSendAprsThread)], "OK")
    case DoLinuxAprs => ([ForceRun(LinuxSendAprsThread)], "OK")
    case DoGetBoxInfo =>
      var mppt := NumberSetting(s, Energy(Type)) == MpptChgType;
      var battery := if mppt && !env.energyError then env.rawTemperatureBattery as real / 10.0 else 0.0;
      var rtc := if FlagSetting(s, Rtc(RtcKey.Enabled)) then env.rtcTemperature else 0.0;
      var boxOpen := LdrBoxOpenedThread in env.enabledTasks && env.boxOpenSensor;
      ([], "RTC: " + env.printReal2(rtc) + "°C | Bat: " + env.printReal2(battery) + "°C | Ouverte: " + Bit(boxOpen))
    case DoGetError =>
      ([], "Energy: " + Bit(env.energyError) + " | Weather: " + Bit(env.weatherError) + " | LoRa : " + Bit(env.loraError))
    case DoSetLora(frequency, bandwidth, spreadingFactor, codingRate, outputPower) =>
      ([ChangeLoRaSettings(frequency, bandwidth, spreadingFactor, codingRate, outputPower)], OkKo(env.changeLoRaOk))
    case DoAprsQueryHelp => ([], "?APRSP ?APRSD ?APRSL ?APRSH CALL ?APRSV ?PING")
    case DoAbout =>
      ([], TextSetting(s, Aprs(Comment)) + " " + TextSetting(s, Aprs(Status)) + " "
           + TextSetting(s, Meshtastic(MeshtasticKey.ItemComment)) + " " + TextSetting(s, Linux(LinuxKey.ItemComment)))
  }

  /** The commands answered from the history of heard stations. */
  predicate IsQuery(c: Call)
  {
    HandlerOf(c) == Querying
  }

  /** The answer of a history query; `previous` is the response before the handler. */
  function QueryReply(c: Call, previous: string, hs: seq<Heard>, lastHeard: Option<nat>, env: Env): string
    requires IsQuery(c)
  {
    match c
    case DoAprsHeardWithoutDigi => HeardWithoutDigiReply(previous, hs, env.now)
    case DoAprsHeard => HeardReply(previous, hs, env.now)
    case DoAprsHeardSomeone(callsign) => HeardSomeoneReply(hs, callsign, env.printReal2)
    case DoAprsPing => PingReply(hs, lastHeard, env.printReal2)
  }

  class Command {
    /** `response`: the text the last handler produced. */
    var response: string
    /** Every effect requested, oldest first. */
    var effects: seq<Effect>
    /** The lines written to the command's stream. */
    var output: seq<string>

    constructor ()
      ensures response == "" && effects == [] && output == []
    {
      response := "";
      effects := [];
      output := [];
    }

    /** `doGetSetting`. */
    method GetSetting(sys: System, key: string, printReal: real -> string)
      requires sys.Valid()
      modifies this`response
      ensures response == Applied(old(response), GetReply(sys.settings, key, printReal))
    {
      var field := FieldNamed(key);
      if field.Some? {
        var f := field.value;
        if Gettable(f) {
          response := FormatValue(KindOf(f), sys.settings[f], printReal);
        } else {
          response := "KO";
        }
      } else if key == "all" {
        response := "OK";
      } else if key == "reset" {
      } else {
        response := "KO";
      }
    }

    /** The loop of `set aprsReceived` over the history. */
    method ClearHistory(sys: System)
      requires sys.Valid()
      modifies sys.history
      ensures sys.Valid() && sys.history[..] == ClearedHistory()
    {
      for i := 0 to sys.history.Length
        invariant forall j :: 0 <= j < i ==> sys.history[j] == EmptyHeard
        invariant StoreValid(sys.Store())
      {
        sys.history[i] := EmptyHeard;
      }
    }

    /** The field branch of `doSetSetting`, before the save. */
    method ApplyField(sys: System, f: Field, value: string, env: Env) returns (ok: bool, shouldReboot: bool)
      requires sys.Valid() && value != ""
      modifies this`effects, sys`settings, sys`rebootPlanned
      ensures sys.Valid()
      ensures var r := FieldChange(old(sys.Store()), f, value, env);
        sys.settings == r.store.settings && effects == old(effects) + r.effects
        && ok == r.ok && shouldReboot == r.shouldReboot
        && sys.rebootPlanned == (old(sys.rebootPlanned) || r.plannedReboot)
    {
      var v := ParseValue(KindOf(f), value, env.strtod);
      sys.settings := sys.settings[f := v];
      var h := FieldHook(f, v, sys.settings, env.enabledTasks);
      effects := effects + h.effects;
      shouldReboot := h.reboot;
      if h.reboot {
        sys.PlanReboot();
      }
      ok := CheckPasses(h.check, env);
    }

    /** `doSetSetting` up to the save. */
    method ApplyChange(sys: System, key: string, value: string, env: Env) returns (ok: bool, shouldReboot: bool)
      requires sys.Valid() && value != ""
      modifies this`effects, sys`settings, sys`file, sys.history, sys`rebootPlanned
      ensures sys.Valid()
      ensures var r := Change(old(sys.Store()), key, value, env);
        sys.Store() == r.store && effects == old(effects) + r.effects
        && ok == r.ok && shouldReboot == r.shouldReboot
        && sys.rebootPlanned == (old(sys.rebootPlanned) || r.plannedReboot)
    {
      ok := true;
      shouldReboot := false;
      if key == "time" {
        effects := effects + TimeEffects(sys.settings, TimeEpoch(value));
      } else if key == "reset" {
        ok := sys.ResetSettings(env.formatOk, env.saveOpenOk);
        shouldReboot := true;
      } else {
        var field := FieldNamed(key);
        if field.Some? {
          ok, shouldReboot := ApplyField(sys, field.value, value, env);
        } else if key == "aprsReceived" {
          ClearHistory(sys);
        } else {
          ok := false;
        }
      }
    }

    /** The end of `doSetSetting`: save, then `Set OK ` rewritten by `get`, or `KO`. */
    method Conclude(sys: System, ok: bool, shouldReboot: bool, key: string, env: Env)
      requires sys.Valid()
      modifies this`response, sys`file
      ensures sys.Valid()
      ensures var r := ThenSave(SetResult(ok, old(sys.Store()), [], shouldReboot, false), env.saveOpenOk);
        sys.Store() == r.store && response == SetReply(r, key, env.printReal)
    {
      if ok {
        var saved := sys.SaveSettings(env.saveOpenOk);
        if saved {
          response := "Set OK ";
          GetSetting(sys, key, env.printReal);
          if shouldReboot {
            response := response + ". Reboot";
          }
          return;
        }
      }
      response := "KO";
    }

    /** `doSetSetting`. */
    method SetSetting(sys: System, key: string, value: string, env: Env)
      requires sys.Valid()
      modifies this`response, this`effects, sys`settings, sys`file, sys.history, sys`rebootPlanned
      ensures sys.Valid()
      ensures var r := SetStep(old(sys.Store()), key, value, env);
        sys.Store() == r.store && effects == old(effects) + r.effects
        && sys.rebootPlanned == (old(sys.rebootPlanned) || r.plannedReboot)
        && response == SetReply(r, key, env.printReal)
    {
      if |value| == 0 {
        response := "KO";
        return;
      }
      var ok, shouldReboot := ApplyChange(sys, key, value, env);
      Conclude(sys, ok, shouldReboot, key, env);
    }

    /** `doGpioOutput`: drives the pin found and answers `OK`, or `KO`; an input pin stops the firmware on its assertion. */
    method GpioOutput(sys: System, what: string, state: nat) returns (halted: bool)
      modifies this`response, sys.gpios[..]
      ensures var k := GpioSlot(sys.gpios[..], what, sys.settings);
        k == sys.gpios.Length ==> !halted && response == "KO"
      ensures var k := GpioSlot(sys.gpios[..], what, sys.settings);
        k < sys.gpios.Length && !sys.gpios[k].output ==> halted && response == old(response)
      ensures var k := GpioSlot(sys.gpios[..], what, sys.settings);
        k < sys.gpios.Length && sys.gpios[k].output ==>
          !halted && response == "OK" && sys.gpios[k].currentState == (state == 1)
          && sys.gpios[k].written == old(sys.gpios[k].written) + [state == 1]
      /** Every other pin, and every pin when none is driven, keeps its state. */
      ensures var k := GpioSlot(sys.gpios[..], what, sys.settings);
        forall j ::
          (0 <= j < sys.gpios.Length && sys.gpios[j] != null
           && (k == sys.gpios.Length || !sys.gpios[k].output || sys.gpios[j] != sys.gpios[k])) ==>
          && sys.gpios[j].currentState == old(sys.gpios[j].currentState)
          && sys.gpios[j].level == old(sys.gpios[j].level)
          && sys.gpios[j].written == old(sys.gpios[j].written)
    {
      halted := false;
      var target := GpioTarget(what, sys.settings);
      var gpio: GpioPin? := null;
      if target.Some? {
        gpio := sys.GetGpio(target.value);
      }
      if gpio != null {
        if !gpio.output {
          return true;
        }
        gpio.SetState(state == 1);
        response := "OK";
        return;
      }
      response := "KO";
    }

    /** `doAprsHeardWithoutDigi` (`?APRSD`). */
    method AprsHeardWithoutDigi(sys: System, now: uint32)
      modifies this`response
      ensures response == HeardWithoutDigiReply(old(response), sys.history[..], now)
    {
      var i := 0;
      while i < sys.history.Length
        invariant 0 <= i <= sys.history.Length
        invariant response == DirectList(old(response), sys.history[..i], now)
      {
        assert sys.history[..i + 1][..i] == sys.history[..i];
        response := DirectStep(response, sys.history[i], now);
        i := i + 1;
      }
      assert sys.history[..i] == sys.history[..];
      if response == "" {
        response := NobodyHeard;
      }
    }

    /** `doAprsHeard` (`?APRSL`): each recent station overwrites the text built so far. */
    method AprsHeard(sys: System, now: uint32)
      modifies this`response
      ensures response == HeardReply(old(response), sys.history[..], now)
    {
      var i := 0;
      while i < sys.history.Length
        invariant 0 <= i <= sys.history.Length
        invariant response == HeardListAsWritten(old(response), sys.history[..i], now)
      {
        assert sys.history[..i + 1][..i] == sys.history[..i];
        response := HeardStepAsWritten(response, sys.history[i], now);
        i := i + 1;
      }
      assert sys.history[..i] == sys.history[..];
      if response == "" {
        response := NobodyHeard;
      }
    }

    /** `doAprsHeardSomeone` (`?APRSH CALL`). */
    method AprsHeardSomeone(sys: System, callsign: string, printReal2: real -> string)
      modifies this`response
      ensures response == HeardSomeoneReply(sys.history[..], callsign, printReal2)
    {
      var i := 0;
      while i < sys.history.Length
        invariant 0 <= i <= sys.history.Length
        invariant FindCallsign(sys.history[..], callsign, i) == FindCallsign(sys.history[..], callsign, 0)
      {
        if sys.history[i].callsign == callsign {
          response := SomeoneText(sys.history[i], printReal2);
          return;
        }
        i := i + 1;
      }
      response := NotHeard;
    }

    /** The handlers answering from the history of heard stations. */
    method Query(sys: System, c: Call, env: Env)
      requires IsQuery(c)
      modifies this`response
      ensures response == QueryReply(c, old(response), sys.history[..], sys.lastHeard, env)
    {
      match c {
        case DoAprsHeardWithoutDigi =>
          AprsHeardWithoutDigi(sys, env.now);
        case DoAprsHeard =>
          AprsHeard(sys, env.now);
        case DoAprsHeardSomeone(callsign) =>
          AprsHeardSomeone(sys, callsign, env.printReal2);
        case DoAprsPing =>
          response := PingReply(sys.history[..], sys.lastHeard, env.printReal2);
      }
    }

    /** The handlers that only answer and request effects. */
    method RunSimple(sys: System, c: Call, env: Env)
      requires IsSimple(c)
      modifies this`response, this`effects
      ensures effects == old(effects) + Simple(c, sys.settings, env).0 && response == Simple(c, sys.settings, env).1
    {
      var r := Simple(c, sys.settings, env);
      effects := effects + r.0;
      response := r.1;
    }

    /**
     * Runs the handler of a recognised command; what each one answers is
     * stated by `RunSimple`, `Query`, `Configure` and
     * `Act`.
     */
    method Execute(sys: System, c: Call, env: Env) returns (halted: bool)
      requires sys.Valid()
      modifies this`response, this`effects, sys`settings, sys`file, sys.history, sys`rebootPlanned, sys`dfuPlanned, sys.gpios[..]
      ensures sys.Valid()
      ensures halted ==> c.DoGpioOutput?
      ensures old(effects) <= effects
    {
      halted := false;
      match HandlerOf(c) {
        case Answering => RunSimple(sys, c, env);
        case Querying => Query(sys, c, env);
        case Configuring => Configure(sys, c, env);
        case Acting => halted := Act(sys, c);
      }
    }

    /** `set` and `get`. */
    method Configure(sys: System, c: Call, env: Env)
      requires sys.Valid() && HandlerOf(c) == Configuring
      modifies this`response, this`effects, sys`settings, sys`file, sys.history, sys`rebootPlanned
      ensures sys.Valid()
      ensures old(effects) <= effects
      ensures c.DoSetSetting? ==> response == SetReply(SetStep(old(sys.Store()), c.key, c.value, env), c.key, env.printReal)
      ensures c.DoGetSetting? ==> response == Applied(old(response), GetReply(old(sys.settings), c.key, env.printReal))
    {
      if c.DoSetSetting? {
        SetSetting(sys, c.key, c.value, env);
      } else {
        GetSetting(sys, c.key, env.printReal);
      }
    }

    /** `reboot`, `dfu` and `gpio`. */
    method Act(sys: System, c: Call) returns (halted: bool)
      modifies this`response, sys`rebootPlanned, sys`dfuPlanned, sys.gpios[..]
      ensures halted ==> c.DoGpioOutput?
      ensures c.DoReboot? ==> sys.rebootPlanned && response == "OK"
      ensures c.DoDfu? ==> sys.dfuPlanned && response == "OK"
    {
      halted := false;
      match c {
        case DoReboot =>
          sys.PlanReboot();
          response := "OK";
        case DoDfu =>
          sys.PlanDfu();
          response := "OK";
        case DoGpioOutput(what, state) =>
          halted := GpioOutput(sys, what, state);
        case _ =>
      }
    }

    /**
     * `processCommand`: a command shorter than 3 characters is refused
     * before the parser; otherwise the LED goes on, and a parser refusal
     * answers `KO ` and the parser's message, blinks twice and fails, while
     * a recognised command runs with an empty response, its response is
     * written when there is one, and the LED goes off.
     */
    method ProcessCommand(sys: System, hasStream: bool, command: string, parsed: Parsed, env: Env)
      returns (ok: bool, halted: bool)
      requires sys.Valid()
      modifies this, sys`settings, sys`file, sys.history, sys`rebootPlanned, sys`dfuPlanned, sys.gpios[..]
      ensures sys.Valid()
      ensures |command| < 3 ==>
        !ok && !halted && response == old(response) && effects == old(effects) && output == old(output)
        && sys.Store() == old(sys.Store())
      ensures |command| >= 3 && parsed.ParseError? ==>
        !ok && !halted && response == parsed.message
        && effects == old(effects) + [Led(true), Blink(2, 500)]
        && output == old(output) + (if hasStream then ["KO " + parsed.message] else [])
      ensures halted ==> |command| >= 3 && parsed.Parsed? && parsed.call.DoGpioOutput?
      ensures |command| >= 3 && parsed.Parsed? && !halted ==>
        ok && |effects| >= |old(effects)| + 2 && effects[|old(effects)|] == Led(true) && effects[|effects| - 1] == Led(false)
        && output == old(output) + (if hasStream && response != "" then [response] else [])
    {
      halted := false;
      if |command| < 3 {
        return false, false;
      }
      effects := effects + [Led(true)];
      match parsed {
        case ParseError(message) =>
          response := message;
          if hasStream {
            output := output + ["KO " + response];
          }
          effects := effects + [Blink(2, 500)];
          return false, false;
        case Parsed(c) =>
          var mark := effects;
          response := "";
          halted := Execute(sys, c, env);
          if halted {
            return false, true;
          }
          if hasStream && response != "" {
            output := output + [response];
          }
          effects := effects + [Led(false)];
          ok := true;
      }
    }
  }
}
