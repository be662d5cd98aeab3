/**
 * The periodic tasks of the rp2040 firmware that send something
 * (src/Threads/SendThread.cpp, src/Threads/Send/), the box-opening
 * detector (src/Threads/LdrBoxOpenedThread.cpp) and the LED blinker
 * (src/Threads/BlinkerThread.cpp).
 *
 * A task's `runOnce` returns the result of one call into the transmission
 * pipeline; that call is described by a `SendRequest` and its result is an
 * input (the pipeline itself is module RpCommunication).
 */
module RpSendTasks {
  import opened RpConfig
  import opened Ints
  import opened RpTask
  import opened RpGpio
  import opened Wrappers

  /** One call into the transmission pipeline. */
  datatype SendRequest =
    | Telemetry
    | Position(comment: string)
    | Status(status: string)
    | Item(name: string, symbol: char, symbolTable: char, comment: string, alive: bool)
    | Message(destination: string, text: string)

  /** SendThread's constructor: interval, enabled forwarded, `noLog` false. */
  function NewSendTask(interval: nat, enabled: bool, firstRun: nat): (t: TaskState)
    ensures t.interval == interval && t.enabled == enabled && !t.noLog
    ensures !t.force && !t.initiated && !t.lastUpdateHasError
  {
    NewTask(interval, false, enabled, firstRun)
  }

  // ---------------------------------------------------------------------
  // Telemetry: forced at construction, no boot gate

  /** Constructor: interval `intervalTelemetry`, enabled `telemetryEnabled`, and forced. */
  function TelemetryTask(intervalTelemetry: uint64, telemetryEnabled: bool, firstRun: nat): (t: TaskState)
    ensures t.force && t.interval == intervalTelemetry && t.enabled == telemetryEnabled
  {
    NewSendTask(intervalTelemetry, telemetryEnabled, firstRun).(force := true)
  }

  /** The telemetry task's `shouldRun` bypasses the SendThread boot gate. */
  predicate TelemetryShouldRun(s: TaskState, now: nat)
  {
    ShouldRun(s, now)
  }

  /** The telemetry task is due at its first tick, even during the boot grace period where other send tasks wait. */
  lemma TelemetryDueAtBoot(intervalTelemetry: uint64, telemetryEnabled: bool, firstRun: nat, now: nat)
    requires now <= TimeAfterBoot
    ensures TelemetryShouldRun(TelemetryTask(intervalTelemetry, telemetryEnabled, firstRun), now)
    ensures !SendShouldRun(TelemetryTask(intervalTelemetry, telemetryEnabled, firstRun), now)
  {
  }

  /** `runOnce` of the telemetry task: one telemetry send. */
  function TelemetryRunOnce(): SendRequest
  {
    Telemetry
  }

  // ---------------------------------------------------------------------
  // Position and status: plain send tasks

  /** Constructor: interval `intervalPositionWeather`, enabled `positionWeatherEnabled`, not forced. */
  function PositionTask(intervalPositionWeather: uint64, positionWeatherEnabled: bool, firstRun: nat): (t: TaskState)
    ensures !t.force && t.interval == intervalPositionWeather && t.enabled == positionWeatherEnabled
  {
    NewSendTask(intervalPositionWeather, positionWeatherEnabled, firstRun)
  }

  /** `runOnce` of the position task: a position with the configured comment. */
  function PositionRunOnce(comment: string): (r: SendRequest)
    ensures r.Position? && r.comment == comment
  {
    Position(comment)
  }

  /** Constructor: interval `intervalStatus`, enabled `statusEnabled`, not forced. */
  function StatusTask(intervalStatus: uint64, statusEnabled: bool, firstRun: nat): (t: TaskState)
    ensures !t.force && t.interval == intervalStatus && t.enabled == statusEnabled
  {
    NewSendTask(intervalStatus, statusEnabled, firstRun)
  }

  /** `runOnce` of the status task: the configured status text. */
  function StatusRunOnce(status: string): (r: SendRequest)
    ensures r.Status? && r.status == status
  {
    Status(status)
  }

  /** Position and status tasks are never due during the boot grace period, and unlike telemetry start unforced. */
  lemma PlainSendTasksWaitForBoot(interval: uint64, enabled: bool, firstRun: nat, now: nat)
    requires now <= TimeAfterBoot
    ensures !SendShouldRun(PositionTask(interval, enabled, firstRun), now)
    ensures !SendShouldRun(StatusTask(interval, enabled, firstRun), now)
    ensures !PositionTask(interval, enabled, firstRun).force && TelemetryTask(interval, enabled, firstRun).force
  {
  }

  // ---------------------------------------------------------------------
  // APRS items on behalf of the Meshtastic and Linux boards

  /** The item-related settings of one board (`settings.meshtastic` or `settings.linux`). */
  datatype ItemConfig = ItemConfig(
    intervalSendItem: uint64,
    aprsSendItemEnabled: bool,
    itemName: string,
    symbol: char,
    symbolTable: char,
    itemComment: string)

  /** Constructor: interval `intervalSendItem`, enabled `aprsSendItemEnabled`. */
  function ItemTask(c: ItemConfig, firstRun: nat): (t: TaskState)
    ensures !t.force && t.interval == c.intervalSendItem && t.enabled == c.aprsSendItemEnabled
  {
    NewSendTask(c.intervalSendItem, c.aprsSendItemEnabled, firstRun)
  }

  /** `shouldRun`: the send-task check and the board's watchdog task enabled. */
  predicate ItemShouldRun(s: TaskState, now: nat, watchdogEnabled: bool)
  {
    SendShouldRun(s, now) && watchdogEnabled
  }

  /**
   * `runOnce`: the item, alive when the board's watchdog (last fed at
   * `dogLastFed`, timeout `dogInterval`) is fed or when the run is forced.
   */
  function ItemRunOnce(s: TaskState, c: ItemConfig, now: nat, dogLastFed: nat, dogInterval: nat): (r: SendRequest)
    ensures r.Item? && r.name == c.itemName && r.comment == c.itemComment
    ensures r.symbol == c.symbol && r.symbolTable == c.symbolTable
    ensures r.alive <==> s.force || IsFed(dogLastFed, dogInterval, now)
  {
    Item(c.itemName, c.symbol, c.symbolTable, c.itemComment, IsFed(dogLastFed, dogInterval, now) || s.force)
  }

  /** A forced run always reports the board alive; an item task never runs while its board's watchdog is disabled. */
  lemma ItemForcedIsAlive(s: TaskState, c: ItemConfig, now: nat, dogLastFed: nat, dogInterval: nat)
    requires s.force
    ensures ItemRunOnce(s, c, now, dogLastFed, dogInterval).alive
    ensures !ItemShouldRun(s, now, false)
  {
  }

  // ---------------------------------------------------------------------
  // LDR box-opened detector

  /** Destination and text of the box-opened alert. */
  const BoxAlertDestination: string := "F4HVV-7"
  const BoxAlertText: string := "Boîte ouverte !"

  /** Constructor (a plain task, so no boot gate): interval and enabled from `settings.boxOpened`. */
  function BoxOpenedTask(intervalCheck: uint64, enabled: bool, firstRun: nat): (t: TaskState)
    ensures !t.force && t.interval == intervalCheck && t.enabled == enabled && !t.noLog
  {
    NewTask(intervalCheck, false, enabled, firstRun)
  }

  /**
   * `runOnce` at uptime `now`: `boxOpen` is the light sensor's state and
   * `debugMode` is `isInDebugMode()`.  The result is the request sent, if
   * any; the task then returns the outcome of that request, otherwise true.
   */
  function BoxOpenedRunOnce(now: nat, intervalCheck: uint64, boxOpen: bool, debugMode: bool): (r: Option<SendRequest>)
    ensures r.Some? <==> now >= intervalCheck && boxOpen && !debugMode
    ensures r.Some? ==> r.value == Message(BoxAlertDestination, BoxAlertText)
  {
    if now < intervalCheck then None
    else if boxOpen then
      if debugMode then None else Some(Message(BoxAlertDestination, BoxAlertText))
    else None
  }

  /** The result of the detector's `runOnce`: true unless the alert was sent and failed. */
  function BoxOpenedResult(request: Option<SendRequest>, sendOk: bool): (ok: bool)
    ensures ok <==> request.None? || sendOk
  {
    if request.Some? then sendOk else true
  }

  // ---------------------------------------------------------------------
  // Blinker

  /** Constructor: interval `INTERVAL_BLINKER`, `noLog` true. */
  function BlinkerTask(firstRun: nat): (t: TaskState)
    ensures t.interval == IntervalBlinker && t.noLog && t.enabled
  {
    NewTask(IntervalBlinker, true, true, firstRun)
  }

  /** `runOnce`: a HIGH then LOW pulse on the LED, ending LOW; always succeeds. */
  method BlinkerRunOnce(led: GpioPin) returns (ok: bool)
    requires led.output
    modifies led
    ensures ok && !led.currentState
    ensures led.written == old(led.written) + [true, false]
  {
    led.SetState(true);
    led.SetState(false);
    ok := true;
  }
}
