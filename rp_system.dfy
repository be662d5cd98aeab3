/**
 * The `System` object of the rp2040 firmware (src/System.cpp,
 * include/System.h): the settings record and its persistence in
 * `/config.dat`, the history of heard stations, the registered pins, the
 * task registration done by `begin` and one iteration of the main `loop`.
 *
 * The flash file system is modelled by the content of `/config.dat`
 * (`file`) and by the outcome of each open or format, given as inputs.
 */
module RpSystem {
  import opened RpConfig
  import opened Ints
  import opened Wrappers
  import opened RpSettings
  import opened RpGpio
  import opened RpTask
  import RpSendTasks

  // ---------------------------------------------------------------------
  // History of heard stations (`settings.aprsCallsignsHeard`)

  /** One slot of the history; an empty callsign marks a free slot. */
  datatype Heard = Heard(
    callsign: string,
    time: uint32,
    rssi: real,
    snr: real,
    content: string,
    count: uint64,
    digipeaterCallsign: string,
    digipeaterCount: byte)

  /** A zero-initialised slot. */
  const EmptyHeard: Heard := Heard("", 0, 0.0, 0.0, "", 0, "", 0)

  /** What the history keeps of a received frame (`AprsPacketLite`). */
  datatype HeardFrame = HeardFrame(source: string, raw: string, digipeaterCount: byte, lastDigipeater: string)

  /** A slot the search walks past: held by another station. */
  predicate Passes(h: Heard, source: string)
  {
    h.callsign != source && h.callsign != ""
  }

  /** The first slot from `k` on that holds `source` or is free, or `|h|` when there is none. */
  function SlotFrom(h: seq<Heard>, source: string, k: nat): (i: nat)
    requires k <= |h|
    ensures k <= i <= |h|
    ensures forall j :: k <= j < i ==> Passes(h[j], source)
    ensures i < |h| ==> !Passes(h[i], source)
    decreases |h| - k
  {
    if k == |h| || !Passes(h[k], source) then k else SlotFrom(h, source, k + 1)
  }

  function SlotFor(h: seq<Heard>, source: string): nat
  {
    SlotFrom(h, source, 0)
  }

  /** The slot after a frame from it: every field written, the count incremented modulo 2^64. */
  function Recorded(old_: Heard, f: HeardFrame, time: uint32, snr: real, rssi: real): (r: Heard)
    ensures r.callsign == f.source && r.content == f.raw && r.digipeaterCallsign == f.lastDigipeater
    ensures r.count == (old_.count + 1) % TwoTo64
  {
    Heard(f.source, time, rssi, snr, f.raw, Wrap64(old_.count + 1), f.lastDigipeater, f.digipeaterCount)
  }

  /** The history after a frame: its slot rewritten, or nothing when every slot holds another station. */
  function RecordFrame(h: seq<Heard>, f: HeardFrame, time: uint32, snr: real, rssi: real): seq<Heard>
  {
    var i := SlotFor(h, f.source);
    if i < |h| then h[i := Recorded(h[i], f, time, snr, rssi)] else h
  }

  /**
   * The shape `addAprsFrameReceivedToHistory` keeps: the occupied slots
   * come first and no station occupies two slots.
   */
  predicate Packed(h: seq<Heard>)
  {
    (forall i, j :: 0 <= i < j < |h| && h[i].callsign == "" ==> h[j].callsign == "")
    && (forall i, j :: 0 <= i < j < |h| && h[i].callsign != "" ==> h[i].callsign != h[j].callsign)
  }

  /** A station already in a packed history is found at its own slot, so it is updated and never duplicated. */
  lemma FindsExistingStation(h: seq<Heard>, source: string, j: nat)
    requires Packed(h) && j < |h| && h[j].callsign == source && source != ""
    ensures SlotFor(h, source) == j
  {
    assert !Passes(h[j], source);
  }

  /** Recording a frame keeps the history packed. */
  lemma RecordFrameKeepsPacked(h: seq<Heard>, f: HeardFrame, time: uint32, snr: real, rssi: real)
    requires Packed(h)
    ensures Packed(RecordFrame(h, f, time, snr, rssi))
  {
    var k := SlotFor(h, f.source);
    if k < |h| {
      var r := RecordFrame(h, f, time, snr, rssi);
      assert r[k].callsign == f.source;
      forall i, j | 0 <= i < j < |r| && r[i].callsign == ""
        ensures r[j].callsign == ""
      {
        if i == k {
          assert h[k].callsign == "";
        }
      }
      forall i, j | 0 <= i < j < |r| && r[i].callsign != ""
        ensures r[i].callsign != r[j].callsign
      {
        if i == k {
          if h[k].callsign == "" {
            assert h[j].callsign == "";
          } else {
            assert h[k].callsign != h[j].callsign;
          }
        } else if j == k {
          assert Passes(h[i], f.source);
        }
      }
    }
  }

  /**
   * After a frame whose slot exists, the station holds exactly that slot
   * with the frame's data, and every other slot is unchanged.
   */
  lemma RecordFrameWritesOneSlot(h: seq<Heard>, f: HeardFrame, time: uint32, snr: real, rssi: real)
    requires SlotFor(h, f.source) < |h|
    ensures var r := RecordFrame(h, f, time, snr, rssi);
      var k := SlotFor(h, f.source);
      |r| == |h| && r[k] == Recorded(h[k], f, time, snr, rssi)
      && (forall j :: 0 <= j < |h| && j != k ==> r[j] == h[j])
      && (forall j :: 0 <= j < k ==> r[j].callsign != f.source)
  {
  }

  /**
   * As written, a table whose every slot holds another station makes the
   * search end one past the last slot: `addAprsFrameReceivedToHistory` then
   * writes outside `aprsCallsignsHeard`.
   */
  lemma FullHistoryIndexOutOfBounds(h: seq<Heard>, source: string)
    requires forall j :: 0 <= j < |h| ==> Passes(h[j], source)
    ensures SlotFor(h, source) == |h|
    ensures RecordFrame(h, HeardFrame(source, "", 0, ""), 0, 0.0, 0.0) == h
  {
  }

  /** Such a table exists: thirty slots held by `F4ABC` and a frame from `F4XYZ` reach index 30. */
  lemma FullHistoryExample()
    ensures var h := seq(AprsCallsignsHeardNumber, _ => EmptyHeard.(callsign := "F4ABC"));
      SlotFor(h, "F4XYZ") == AprsCallsignsHeardNumber
  {
    var h := seq(AprsCallsignsHeardNumber, _ => EmptyHeard.(callsign := "F4ABC"));
    assert "F4ABC"[4] != "F4XYZ"[4];
    FullHistoryIndexOutOfBounds(h, "F4XYZ");
  }

  // ---------------------------------------------------------------------
  // Settings persistence

  /** The content of `/config.dat`: the settings structure including the history. */
  datatype Snapshot = Snapshot(settings: Record, history: seq<Heard>)

  /** The persistent part of the system: the settings in memory and the file. */
  datatype StoreState = StoreState(settings: Record, history: seq<Heard>, file: Option<Snapshot>)

  ghost predicate StoreValid(s: StoreState)
  {
    Typed(s.settings) && |s.history| == AprsCallsignsHeardNumber
    && (s.file.Some? ==> Typed(s.file.value.settings) && |s.file.value.history| == AprsCallsignsHeardNumber)
  }

  /** `saveSettings`: false when the file cannot be opened for writing, otherwise the file holds the settings. */
  function SaveStep(s: StoreState, openOk: bool): (bool, StoreState)
  {
    if !openOk then (false, s)
    else (true, s.(file := Some(Snapshot(s.settings, s.history))))
  }

  /**
   * `loadSettings`: a file that cannot be opened gets the defaults and the
   * result of saving them; otherwise the settings are read from the file.
   */
  function LoadStep(s: StoreState, saveOpenOk: bool): (bool, StoreState)
    requires StoreValid(s)
  {
    match s.file
    case None => SaveStep(s.(settings := WithDefaults(s.settings)), saveOpenOk)
    case Some(snap) => (true, s.(settings := snap.settings, history := snap.history))
  }

  /** `resetSettings`: false when formatting fails, else the file is erased, reloaded and the result is true. */
  function ResetStep(s: StoreState, formatOk: bool, saveOpenOk: bool): (bool, StoreState)
    requires StoreValid(s)
  {
    if !formatOk then (false, s)
    else (true, LoadStep(s.(file := None), saveOpenOk).1)
  }

  /** Every step keeps the settings typed and the history at its fixed size. */
  lemma StepsKeepStoreValid(s: StoreState, openOk: bool, formatOk: bool)
    requires StoreValid(s)
    ensures StoreValid(SaveStep(s, openOk).1)
    ensures StoreValid(LoadStep(s, openOk).1)
    ensures StoreValid(ResetStep(s, formatOk, openOk).1)
  {
  }

  /** A failed open changes nothing and returns false. */
  lemma SaveFailsWhenFileCannotOpen(s: StoreState)
    ensures SaveStep(s, false) == (false, s)
  {
  }

  /** A missing file gives the defaults (history untouched) and the outcome of saving them. */
  lemma LoadMissingFileAppliesDefaults(s: StoreState, saveOpenOk: bool)
    requires StoreValid(s) && s.file.None?
    ensures var (ok, r) := LoadStep(s, saveOpenOk);
      ok == saveOpenOk && r.settings == WithDefaults(s.settings) && r.history == s.history
      && (ok <==> r.file.Some?)
  {
  }

  /** Loading right after a successful save restores exactly what was saved. */
  lemma SaveThenLoadRestores(s: StoreState, saveOpenOk: bool)
    requires StoreValid(s)
    ensures var saved := SaveStep(s, true).1;
      LoadStep(saved, saveOpenOk) == (true, saved)
  {
  }

  /**
   * A reset with a working format restores the defaults of the fields that
   * have one; the fields without a default and the history keep their
   * in-memory value, and the result is true even when the save fails.
   */
  lemma ResetRestoresDefaults(s: StoreState, formatOk: bool, saveOpenOk: bool)
    requires StoreValid(s)
    ensures var (ok, r) := ResetStep(s, formatOk, saveOpenOk);
      ok == formatOk
      && (!formatOk ==> r == s)
      && (formatOk ==> r.settings == WithDefaults(s.settings) && r.history == s.history
                       && (r.file.Some? <==> saveOpenOk))
  {
  }

  // ---------------------------------------------------------------------
  // Registered pins

  /** `getGpio`: index of the first registered pin with that number, or `|gpios|` when none. */
  function FindGpio(gpios: seq<GpioPin?>, pin: nat, k: nat): (i: nat)
    requires k <= |gpios|
    ensures k <= i <= |gpios|
    ensures forall j :: k <= j < i ==> gpios[j] == null || gpios[j].pin != pin
    ensures i < |gpios| ==> gpios[i] != null && gpios[i].pin == pin
    decreases |gpios| - k
  {
    if k == |gpios| then k
    else if gpios[k] != null && gpios[k].pin == pin then k
    else FindGpio(gpios, pin, k + 1)
  }

  /** How `begin` creates a pin. */
  datatype PinSpec = PinSpec(pin: nat, output: bool, inverted: bool)

  /**
   * The pins `begin` registers, in order: the LED, the RTC wake-up input
   * when the RTC is enabled, the Meshtastic and Linux power pins, then the
   * NPR and Wi-Fi pins wired inverted.
   */
  function RegisteredPins(ledPin: nat, rtcEnabled: bool, wakeUpPin: nat, meshtasticPin: nat, linuxPin: nat,
                          nprPin: nat, wifiPin: nat): seq<PinSpec>
  {
    [PinSpec(ledPin, true, false)]
    + (if rtcEnabled then [PinSpec(wakeUpPin, false, false)] else [])
    + [PinSpec(meshtasticPin, true, false), PinSpec(linuxPin, true, false),
       PinSpec(nprPin, true, true), PinSpec(wifiPin, true, true)]
  }

  /** At most six pins are registered, within `MAX_GPIO_USED`; only the wake-up pin is an input. */
  lemma RegisteredPinsFit(ledPin: nat, rtcEnabled: bool, wakeUpPin: nat, meshtasticPin: nat, linuxPin: nat,
                          nprPin: nat, wifiPin: nat)
    ensures var p := RegisteredPins(ledPin, rtcEnabled, wakeUpPin, meshtasticPin, linuxPin, nprPin, wifiPin);
      |p| == (if rtcEnabled then 6 else 5) && |p| <= MaxGpioUsed
      && p[0] == PinSpec(ledPin, true, false)
      && (forall i :: 0 <= i < |p| && !p[i].output ==> rtcEnabled && i == 1 && p[i].pin == wakeUpPin)
      && p[|p| - 2] == PinSpec(nprPin, true, true) && p[|p| - 1] == PinSpec(wifiPin, true, true)
  {
  }

  // ---------------------------------------------------------------------
  // Tasks registered by `begin`

  datatype TaskId =
    | BlinkerThread | EnergyThread | WeatherThread | WatchdogMpptChgThread | WatchdogLoraTxThread | WatchdogMeshtasticThread | WatchdogLinuxThread
    | SendPositionThread | SendStatusThread | SendTelemetriesThread | MeshtasticSendAprsThread | LinuxSendAprsThread
    /** The light-sensor task: created by `begin` but never added to the scheduler. */
    | LdrBoxOpenedThread

  /**
   * The tasks in the order `begin` adds them.  An energy type outside the
   * four known ones leaves the energy task null, which the scheduler skips.
   */
  function RegisteredTasks(energyType: nat): seq<TaskId>
  {
    [BlinkerThread]
    + (if energyType <= AdcType then [EnergyThread] else [])
    + [WeatherThread]
    + (if energyType == MpptChgType then [WatchdogMpptChgThread] else [])
    + [WatchdogLoraTxThread, WatchdogMeshtasticThread, WatchdogLinuxThread, SendPositionThread, SendStatusThread, SendTelemetriesThread, MeshtasticSendAprsThread, LinuxSendAprsThread]
  }

  /** The MPPT watchdog task is registered exactly for the mpptchg energy type; the blinker always comes first. */
  lemma RegisteredTasksShape(energyType: nat)
    ensures var t := RegisteredTasks(energyType);
      t[0] == BlinkerThread && t[|t| - 1] == LinuxSendAprsThread
      && (WatchdogMpptChgThread in t <==> energyType == MpptChgType)
      && (EnergyThread in t <==> energyType <= AdcType)
      && (forall i, j :: 0 <= i < j < |t| ==> t[i] != t[j])
      && LdrBoxOpenedThread !in t
  {
  }

  /** The tasks derived from `WatchdogThread`. */
  predicate IsWatchdogTask(id: TaskId)
  {
    id in {WatchdogMpptChgThread, WatchdogLoraTxThread, WatchdogMeshtasticThread, WatchdogLinuxThread}
  }

  /** The tasks whose `shouldRun` includes the boot grace period. */
  predicate WaitsForBoot(id: TaskId)
  {
    IsWatchdogTask(id) || id in {SendPositionThread, SendStatusThread, MeshtasticSendAprsThread, LinuxSendAprsThread}
  }

  /**
   * The `shouldRun` each task overrides it with: the watchdogs wait for the
   * end of the boot grace period, and so do the send tasks except the
   * telemetry one; the two item tasks also need their board's watchdog task
   * enabled (`meshtasticDog`, `linuxDog`); the others use the task check.
   */
  predicate TaskShouldRun(id: TaskId, s: TaskState, now: nat, meshtasticDog: bool, linuxDog: bool)
  {
    if IsWatchdogTask(id) then WatchdogShouldRun(s, now)
    else if id == SendPositionThread || id == SendStatusThread then SendShouldRun(s, now)
    else if id == MeshtasticSendAprsThread then RpSendTasks.ItemShouldRun(s, now, meshtasticDog)
    else if id == LinuxSendAprsThread then RpSendTasks.ItemShouldRun(s, now, linuxDog)
    else ShouldRun(s, now)
  }

  /**
   * What `begin` does to one registered task: nothing when disabled;
   * otherwise `begin()`, and when that succeeds one `run()` if the task's
   * own `shouldRun` says it is due.
   */
  function StartOne(id: TaskId, s: TaskState, now: nat, initOk: bool, runOnceOk: bool, meshtasticDog: bool, linuxDog: bool): TaskState
  {
    if !s.enabled then s
    else
      var (ok, begun) := BeginStep(s, initOk);
      if !ok then begun
      else if TaskShouldRun(id, begun, now, meshtasticDog, linuxDog) then RunStep(begun, now, initOk, runOnceOk)
      else begun
  }

  /**
   * The three outcomes of starting an enabled task, and a disabled task left
   * alone; during the boot grace period no watchdog and no send task other
   * than the telemetry one runs, forced or not.
   */
  lemma StartOneOutcomes(id: TaskId, s: TaskState, now: nat, initOk: bool, runOnceOk: bool, meshtasticDog: bool, linuxDog: bool)
    ensures var r := StartOne(id, s, now, initOk, runOnceOk, meshtasticDog, linuxDog);
      var due := TaskShouldRun(id, s, now, meshtasticDog, linuxDog);
      (!s.enabled ==> r == s)
      && (s.enabled && !initOk ==> !r.initiated && r.lastUpdateHasError && r.nextRun == s.nextRun)
      && (s.enabled && initOk && due ==>
            r.initiated && r.nextRun == now + s.interval && !r.force && r.lastUpdateHasError == !runOnceOk)
      && (s.enabled && initOk && !due ==> r == s.(initiated := true, lastUpdateHasError := false))
      && (now <= TimeAfterBoot && WaitsForBoot(id) ==> !due)
      && (id == SendTelemetriesThread ==> (due <==> ShouldRun(s, now)))
  {
  }

  /** The start-up loop of `begin` over the registered tasks, `ids` naming each. */
  method StartTasks(ids: seq<TaskId>, tasks: seq<TaskState>, now: nat, initOk: seq<bool>, runOnceOk: seq<bool>,
                    meshtasticDog: bool, linuxDog: bool) returns (r: seq<TaskState>)
    requires |ids| == |tasks| && |initOk| == |tasks| && |runOnceOk| == |tasks|
    ensures |r| == |tasks|
    ensures forall i :: 0 <= i < |tasks| ==> r[i] == StartOne(ids[i], tasks[i], now, initOk[i], runOnceOk[i], meshtasticDog, linuxDog)
  {
    r := [];
    var i := 0;
    while i < |tasks|
      invariant 0 <= i <= |tasks| && |r| == i
      invariant forall j :: 0 <= j < i ==> r[j] == StartOne(ids[j], tasks[j], now, initOk[j], runOnceOk[j], meshtasticDog, linuxDog)
    {
      var t := tasks[i];
      if t.enabled {
        var (ok, begun) := BeginStep(t, initOk[i]);
        t := begun;
        if ok && TaskShouldRun(ids[i], t, now, meshtasticDog, linuxDog) {
          t := RunStep(t, now, initOk[i], runOnceOk[i]);
        }
      }
      r := r + [t];
      i := i + 1;
    }
  }

  // ---------------------------------------------------------------------
  // One iteration of `loop`

  datatype Source = Usb | Uart0 | Uart1

  /** The stream served: USB first, then UART0 (Linux board), then UART1 (KISS). */
  function Incoming(usb: bool, uart0: bool, uart1: bool): (r: Option<Source>)
    ensures r.None? <==> !usb && !uart0 && !uart1
    ensures r == Some(Usb) <==> usb
    ensures r == Some(Uart0) <==> !usb && uart0
    ensures r == Some(Uart1) <==> !usb && !uart0 && uart1
  {
    if usb then Some(Usb) else if uart0 then Some(Uart0) else if uart1 then Some(Uart1) else None
  }

  datatype LoopAction =
    | FeedLinuxWatchdog
    | LedOn
    | KissToRadio
    | ProcessCommand(from: Source)
    | Flush(from: Source)
    | RunScheduler
    | UpdateCommunication
    | PrintJson
    | Reboot
    | MpptUserMode(ms: nat)
    | RebootToBootloader
    | Delay(ms: nat)
    | WdtReset

  /** What the iteration does with the serial input, if any. */
  function ServeInput(src: Option<Source>, linuxDogEnabled: bool): seq<LoopAction>
  {
    match src
    case None => [RunScheduler]
    case Some(Usb) => [LedOn, ProcessCommand(Usb), Flush(Usb)]
    case Some(Uart0) => (if linuxDogEnabled then [FeedLinuxWatchdog] else []) + [LedOn, ProcessCommand(Uart0), Flush(Uart0)]
    case Some(Uart1) => (if linuxDogEnabled then [FeedLinuxWatchdog] else []) + [LedOn, KissToRadio, Flush(Uart1)]
  }

  /** The end of the iteration: a planned reboot, then a planned DFU, else the pause and the watchdog reset. */
  function Finish(rebootDue: bool, dfuDue: bool, energyType: nat, mpptDogEnabled: bool): seq<LoopAction>
  {
    if rebootDue then [Reboot]
    else if dfuDue then
      (if energyType == MpptChgType && mpptDogEnabled then [MpptUserMode(TimeSetMpptWatchdogDfu)] else [])
      + [RebootToBootloader]
    else [Delay(10), WdtReset]
  }

  /**
   * `System::loop`: the actions of one iteration, in order.  `rebootDue`
   * and `dfuDue` are the expiry of timers that only run once planned.
   */
  function LoopActions(usb: bool, uart0: bool, uart1: bool, linuxDogEnabled: bool, jsonDue: bool,
                       rebootDue: bool, dfuDue: bool, energyType: nat, mpptDogEnabled: bool): seq<LoopAction>
  {
    ServeInput(Incoming(usb, uart0, uart1), linuxDogEnabled)
    + [UpdateCommunication]
    + (if jsonDue then [PrintJson] else [])
    + Finish(rebootDue, dfuDue, energyType, mpptDogEnabled)
  }

  /** Scheduled tasks run only without serial input; the radio is serviced every iteration, after the input. */
  lemma LoopSchedulesOnlyWithoutInput(usb: bool, uart0: bool, uart1: bool, linuxDogEnabled: bool, jsonDue: bool,
                                      rebootDue: bool, dfuDue: bool, energyType: nat, mpptDogEnabled: bool)
    ensures var a := LoopActions(usb, uart0, uart1, linuxDogEnabled, jsonDue, rebootDue, dfuDue, energyType, mpptDogEnabled);
      var n := |ServeInput(Incoming(usb, uart0, uart1), linuxDogEnabled)|;
      (RunScheduler in a <==> !usb && !uart0 && !uart1)
      && n < |a| && a[n] == UpdateCommunication
      && (forall i :: 0 <= i < |a| && i != n ==> a[i] != UpdateCommunication)
  {
    var a := LoopActions(usb, uart0, uart1, linuxDogEnabled, jsonDue, rebootDue, dfuDue, energyType, mpptDogEnabled);
    var s := ServeInput(Incoming(usb, uart0, uart1), linuxDogEnabled);
    var tail := (if jsonDue then [PrintJson] else []) + Finish(rebootDue, dfuDue, energyType, mpptDogEnabled);
    assert a == s + [UpdateCommunication] + tail;
    assert RunScheduler !in tail;
  }

  /** Input from the Linux board or the KISS port feeds the Linux watchdog when it is enabled; USB input never does. */
  lemma LoopFeedsLinuxWatchdog(usb: bool, uart0: bool, uart1: bool, linuxDogEnabled: bool, jsonDue: bool,
                               rebootDue: bool, dfuDue: bool, energyType: nat, mpptDogEnabled: bool)
    ensures var a := LoopActions(usb, uart0, uart1, linuxDogEnabled, jsonDue, rebootDue, dfuDue, energyType, mpptDogEnabled);
      FeedLinuxWatchdog in a <==> !usb && (uart0 || uart1) && linuxDogEnabled
  {
    var s := ServeInput(Incoming(usb, uart0, uart1), linuxDogEnabled);
    var tail := (if jsonDue then [PrintJson] else []) + Finish(rebootDue, dfuDue, energyType, mpptDogEnabled);
    assert LoopActions(usb, uart0, uart1, linuxDogEnabled, jsonDue, rebootDue, dfuDue, energyType, mpptDogEnabled)
      == s + [UpdateCommunication] + tail;
    assert FeedLinuxWatchdog !in tail;
  }

  /**
   * A due reboot ends the iteration before any DFU and without the watchdog
   * reset; a due DFU hands the MPPT watchdog to the user only for the
   * mpptchg type with its watchdog enabled, then enters the bootloader.
   */
  lemma LoopEnding(usb: bool, uart0: bool, uart1: bool, linuxDogEnabled: bool, jsonDue: bool,
                   rebootDue: bool, dfuDue: bool, energyType: nat, mpptDogEnabled: bool)
    ensures var a := LoopActions(usb, uart0, uart1, linuxDogEnabled, jsonDue, rebootDue, dfuDue, energyType, mpptDogEnabled);
      (rebootDue ==> a[|a| - 1] == Reboot && RebootToBootloader !in a && WdtReset !in a)
      && (!rebootDue && dfuDue ==>
            a[|a| - 1] == RebootToBootloader && WdtReset !in a
            && (MpptUserMode(TimeSetMpptWatchdogDfu) in a <==> energyType == MpptChgType && mpptDogEnabled))
      && (!rebootDue && !dfuDue ==> a[|a| - 2..] == [Delay(10), WdtReset] && Reboot !in a && RebootToBootloader !in a)
  {
    var head := ServeInput(Incoming(usb, uart0, uart1), linuxDogEnabled) + [UpdateCommunication]
      + (if jsonDue then [PrintJson] else []);
    var fin := Finish(rebootDue, dfuDue, energyType, mpptDogEnabled);
    assert LoopActions(usb, uart0, uart1, linuxDogEnabled, jsonDue, rebootDue, dfuDue, energyType, mpptDogEnabled)
      == head + fin;
    assert forall x :: x in head ==> !x.Reboot? && !x.RebootToBootloader? && !x.WdtReset? && !x.MpptUserMode?;
  }

  // ---------------------------------------------------------------------
  // The system object

  class System {
    /** `settings`, without the history. */
    var settings: Record
    /** `settings.aprsCallsignsHeard`. */
    const history: array<Heard>
    /** `lastAprsHeard`: the slot of the last frame recorded, if any. */
    var lastHeard: Option<nat>
    /** The content of `/config.dat`. */
    var file: Option<Snapshot>
    /** `timerReboot` and `timerDfu` running. */
    var rebootPlanned: bool
    var dfuPlanned: bool
    /** `gpiosPin`. */
    const gpios: array<GpioPin?>

    function Store(): StoreState
      reads this, history
    {
      StoreState(settings, history[..], file)
    }

    ghost predicate Valid()
      reads this, history
    {
      history.Length == AprsCallsignsHeardNumber && gpios.Length == MaxGpioUsed && StoreValid(Store())
    }

    /** The zero-initialised object, before `begin`, with whatever `/config.dat` holds. */
    constructor (file: Option<Snapshot>)
      requires file.Some? ==> Typed(file.value.settings) && |file.value.history| == AprsCallsignsHeardNumber
      ensures Valid() && fresh(history) && fresh(gpios)
      ensures Store() == StoreState(ZeroSettings(), seq(AprsCallsignsHeardNumber, _ => EmptyHeard), file)
      ensures lastHeard.None? && !rebootPlanned && !dfuPlanned
      ensures forall i :: 0 <= i < gpios.Length ==> gpios[i] == null
    {
      settings := ZeroSettings();
      history := new Heard[AprsCallsignsHeardNumber](_ => EmptyHeard);
      gpios := new GpioPin?[MaxGpioUsed](_ => null);
      this.file := file;
      lastHeard := None;
      rebootPlanned := false;
      dfuPlanned := false;
    }

    method SaveSettings(openOk: bool) returns (ok: bool)
      requires Valid()
      modifies this`file
      ensures Valid()
      ensures (ok, Store()) == SaveStep(old(Store()), openOk)
    {
      if !openOk {
        return false;
      }
      file := Some(Snapshot(settings, history[..]));
      ok := true;
    }

    method LoadSettings(saveOpenOk: bool) returns (ok: bool)
      requires Valid()
      modifies this`settings, this`file, history
      ensures Valid()
      ensures (ok, Store()) == LoadStep(old(Store()), saveOpenOk)
    {
      if file.None? {
        settings := WithDefaults(settings);
        ok := SaveSettings(saveOpenOk);
        return;
      }
      var snap := file.value;
      settings := snap.settings;
      forall i | 0 <= i < history.Length {
        history[i] := snap.history[i];
      }
      assert history[..] == snap.history;
      ok := true;
    }

    method ResetSettings(formatOk: bool, saveOpenOk: bool) returns (ok: bool)
      requires Valid()
      modifies this`settings, this`file, history
      ensures Valid()
      ensures (ok, Store()) == ResetStep(old(Store()), formatOk, saveOpenOk)
    {
      if !formatOk {
        return false;
      }
      file := None;
      var _ := LoadSettings(saveOpenOk);
      ok := true;
    }

    /**
     * `addAprsFrameReceivedToHistory`: the frame goes to the first slot
     * holding its source or free, which becomes `lastAprsHeard`, and the
     * settings are saved.  When every slot holds another station the frame
     * is dropped.
     */
    method AddAprsFrameReceivedToHistory(f: HeardFrame, time: uint32, snr: real, rssi: real, saveOpenOk: bool)
      requires Valid()
      modifies this`lastHeard, this`file, history
      ensures Valid()
      ensures history[..] == RecordFrame(old(history[..]), f, time, snr, rssi)
      ensures var k := SlotFor(old(history[..]), f.source);
        if k < history.Length then lastHeard == Some(k) && file == SaveStep(Store(), saveOpenOk).1.file
        else lastHeard == old(lastHeard) && file == old(file)
    {
      var i := 0;
      while i < history.Length && Passes(history[i], f.source)
        invariant 0 <= i <= history.Length
        invariant SlotFrom(history[..], f.source, i) == SlotFor(history[..], f.source)
      {
        i := i + 1;
      }
      if i == history.Length {
        return;
      }
      history[i] := Recorded(history[i], f, time, snr, rssi);
      lastHeard := Some(i);
      var _ := SaveSettings(saveOpenOk);
    }

    /** `getGpio`: the first registered pin with that number, or null. */
    method GetGpio(pin: nat) returns (g: GpioPin?)
      ensures var k := FindGpio(gpios[..], pin, 0);
        g == if k < gpios.Length then gpios[k] else null
      ensures g != null ==> g.pin == pin
      ensures g == null ==> forall j :: 0 <= j < gpios.Length ==> gpios[j] == null || gpios[j].pin != pin
    {
      var i := 0;
      while i < gpios.Length
        invariant 0 <= i <= gpios.Length
        invariant FindGpio(gpios[..], pin, i) == FindGpio(gpios[..], pin, 0)
      {
        var gpio := gpios[i];
        if gpio != null && gpio.pin == pin {
          return gpio;
        }
        i := i + 1;
      }
      g := null;
    }

    method PlanReboot()
      modifies this`rebootPlanned
      ensures rebootPlanned
    {
      rebootPlanned := true;
    }

    method PlanDfu()
      modifies this`dfuPlanned
      ensures dfuPlanned
    {
      dfuPlanned := true;
    }
  }
}
