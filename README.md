# LoRa-APRS station: a Dafny model

This project models, in Dafny, the logic of a solar-powered LoRa-APRS
station and the services around it:

- **rp2040-lora-aprs**, the firmware of the main board.
  - The cooperative task framework (`MyThread`, `WatchdogThread`, `SendThread`) and its tasks:
    - three watchdogs;
    - the send tasks, the box-opening detector and the blinker;
    - the energy tasks (dummy, ADC, MPPT charger).
  - The LoRa-APRS transmission pipeline (`Communication`).
  - The `System` object: settings persistence, the 30-slot history of heard stations, pin lookup, task registration, one iteration of the main loop.
  - The serial command interpreter (`Command`), with the `set`/`get` dispatcher over the settings record.
  - The I²C slave registers.
  - `GpioPin`.
  - The helpers of `main.cpp`.
- **cubecell_monitoring**, the firmware of the CubeCell variant:
  - the per-function flags kept in EEPROM;
  - the error counter that reboots the board;
  - its own send/receive pipeline;
  - the MPPT charger monitor and its watchdog;
  - the relays;
  - its command set.
- **Monitor**, the C# companion service, through its pure helpers:
  - `ConfigEntity<T>`;
  - the `!hex` node numbers and `ToAprsPacket`;
  - the Meshtastic worker: hop limit, echo, commands, mailbox;
  - the APRS-IS gateway: gating filter, third-party frame, item beacon.
- **the Node.js station controller**: the DTMF listener of `runDtmfDecoder` and the shutdown guard of `exitHandler`.

Code that changes state step by step is a class whose fields are the
source's fields. Each method's `ensures` ties the new state to a pure step
function of the old one (`State() == Step(old(State()), …)`), and lemmas
about those step functions carry the properties.

What the firmware does to the outside world is recorded, in order, as a log
of effects: radio frames, pin writes, delays, charger calls, file writes.
Libraries whose code is not part of this model become parameters:

- the APRS codec (`Aprs::encode`/`decode`/`canBeDigipeated`), given as an
  encoder function or a decoded input;
- ArduinoThread and `Timer`;
- `CommandParser`, represented by its parse result;
- RadioLib and the CubeCell radio, represented by their answers (channel
  samples, transmit status);
- the mpptChg charger library (`charger.dfy`), represented by the answers
  the charger would give;
- LittleFS and EEPROM, represented as content plus the outcome of each open
  or write;
- the .NET and rxjs plumbing;
- the clock, given as a parameter.

ArduinoThread's interval check is assumed to be `enabled && nextRun <= now`,
and `runned(now)` is assumed to set `nextRun := now + interval`.

Both firmwares declare `sendMessage` with an acknowledgement id that
defaults to a null pointer, and its body then takes `strlen` of it:

- on the rp2040, `rp2040-lora-aprs/include/Communication.h:18`, with calls
  that leave the id out for the command replies and the box alert;
- on the CubeCell, `cubecell_monitoring/include/Communication.h:20` and
  `cubecell_monitoring/src/Communication.cpp:138`, reached from the `lora`
  command (`Command.cpp:94`), the "OK"/"KO" reply to a received command
  (`Communication.cpp:344`) and the box alert (`System.cpp:97`).

The model treats the missing id as the empty id on both boards, so these
sends have no precondition.

The operations follow the firmware as written, including where it looks
unintended. Where the intended behaviour is evident, it is a separate member
named `…Intended` or documented as corrected. Each such pair is listed under
"## Findings": the operation members use the as-written half, and a lemma
states where the two differ. The corrected halves are:

- `CcSystem.FlagStored` and `CcBoard.FunctionSetIntended`, with
  `CcBoard.EepromLoadedIntended`: the CubeCell flag storage and boot load;
- `CcCommand.SetCommand`: the CubeCell `set` command;
- `RpCommand.LinuxHookIntended` and `RpCommand.FieldHookIntended`: the
  Linux watchdog hook;
- `RpCommand.HeardList`: the `?APRSL` list;
- `RpEnergy.MpptEnergyInitOpsIntended`: the charger thresholds;
- `ChannelClearIntended` on both boards: the channel check.

The rp2040 history update is the exception: it follows the corrected update
(see "## Left out").

Other behaviour that looks unintended is modelled as written and stated by a
lemma:

- The channel-sense loops give up only when the counter ends exactly at its
  limit:
  - on the rp2040 (`RpCommunication.ChannelCheckDiscrepancy`), busy-busy-clear
    gives up and busy-busy-busy transmits;
  - on the CubeCell (`CcCommunication.ChannelCheckDiscrepancy`), four busy
    samples then a free one give up, and five busy samples transmit.

  Both are shown against the evidently intended check (`ChannelClearIntended`)
  and proved to disagree with it on no other sampling.
- A successful `set` answers with `doGetSetting`'s text:
  - the "Set OK " prefix is overwritten (`RpCommand.SetEchoesGet`);
  - `set time` and `set aprsReceived` answer "KO" after changing the state
    (`RpCommand.SetWithoutGetAnswersKo`);
  - `set reset` answers "Set OK . Reboot" without planning a reboot (`RpCommand.SetResetAnswer`).
- The CubeCell relay commands parse their argument unsigned and test
  `asInt64 > 0`, so `relay1 9223372036854775808` switches relay 1 off
  (`CcCommand.RelayOnIff`).
- The CubeCell error counter `nbError` is a `uint8_t`, so `addError` wraps it from 255 to 0
  (`CcSystem.CounterWraps`).
- The DTMF code never holds the same key twice in a row, so a configured
  SSTV code with a repeated key can never be recognised
  (`NodeProcess.RepeatedCodeUnreachable`).
- The mailbox reminder compares `now - RemindedAt < interval`, so a reminder
  just sent is sent again on every broadcast within the interval
  (`MonMeshtastic.ReminderRepeats`).
- `exitHandler` starts the whole shutdown chain again on every call until one
  chain has completed (`NodeProcess.Process.ExitHandler`).

## Model

| member | source | states |
|---|---|---|
| RpTask.NewTaskFlags | rp2040-lora-aprs/include/MyThread.h:42-45 | a new task is neither forced, initiated nor in error, with the enabled flag and interval it was given |
| RpTask.ForcedTaskIsDue | rp2040-lora-aprs/src/MyThread.cpp:10-12 | a forced task is due whatever time has passed; an unforced one is due exactly when the library interval check says so |
| RpTask.BeginRefusedWhenDisabled | rp2040-lora-aprs/src/MyThread.cpp:15-17 | `begin` on a disabled, unforced task answers false and changes nothing |
| RpTask.BeginRecordsInit | rp2040-lora-aprs/src/MyThread.cpp:21-31 | otherwise `begin` answers the outcome of `init()`, stores it in `initiated` and sets the error flag to its failure |
| RpTask.RunClearsForceAndMarksRun | rp2040-lora-aprs/src/MyThread.cpp:39-58 | every path through `run` clears `force`, schedules the next run one interval later and keeps the configuration |
| RpTask.RunErrorFlag | rp2040-lora-aprs/src/MyThread.cpp:39-54 | when `run` reaches `runOnce`, the error flag is its failure; when `begin` fails, `runOnce` is skipped and the task stays uninitiated |
| RpTask.DefaultInitTaskRunsOnce | rp2040-lora-aprs/include/MyThread.h:31-33 | with the default `init()`, an enabled or forced task is initiated by its first run |
| RpTask.ForceRunOnlySetsForce | rp2040-lora-aprs/src/MyThread.cpp:60-63 | `forceRun` sets `force`, changes nothing else, and makes the task due |
| RpTask.TimeBeforeRunWraps | rp2040-lora-aprs/include/MyThread.h:27-29 | `timeBeforeRun` is the remaining time before the next run, and wraps round 2^32 once the task is overdue |
| RpTask.WatchdogBootGate | rp2040-lora-aprs/src/Threads/WatchdogThread.cpp:6-8 | a watchdog task never runs during the boot grace period, even forced, and follows the task check afterwards |
| RpTask.SendBootGate | rp2040-lora-aprs/src/Threads/SendThread.cpp:8-10 | a send task waits for the end of the boot grace period, even forced, and follows the task check afterwards |
| RpTask.TimeSinceFedElapsed | rp2040-lora-aprs/include/Threads/WatchdogThread.h:14-16 | `timeSinceFed` is 0 for a watchdog never fed, otherwise the time elapsed since it was fed |
| RpTask.IsFedBootGate | rp2040-lora-aprs/include/Threads/WatchdogThread.h:18-20 | `isFed` is false during the boot grace period and afterwards compares `timeSinceFed` with the interval |
| RpTask.NeverFedIsFedAfterBoot | rp2040-lora-aprs/include/Threads/WatchdogThread.h:14-20 | a watchdog never fed counts as fed once the boot grace period is over |
| RpTask.Task.constructor | rp2040-lora-aprs/src/MyThread.cpp:4-8 | the new task's state is the initial task state built from the arguments |
| RpTask.Task.ShouldRunNow | rp2040-lora-aprs/src/MyThread.cpp:10-12 | the task object answers the `shouldRun` of its state |
| RpTask.Task.Begin | rp2040-lora-aprs/src/MyThread.cpp:14-32 | the answer and the new fields are those of the `begin` step function |
| RpTask.Task.Run | rp2040-lora-aprs/src/MyThread.cpp:34-58 | the new fields are those of the `run` step function |
| RpTask.Task.ForceRun | rp2040-lora-aprs/src/MyThread.cpp:60-63 | only `force` changes, to true |
| RpTask.Task.SetRunned | rp2040-lora-aprs/include/MyThread.h:19-21 | only the next run time changes, to one interval after now |
| RpWatchdogs.NewWatchdogTask | rp2040-lora-aprs/src/Threads/WatchdogThread.cpp:3-4 | a watchdog task forwards its interval and enabled flag, logs, and starts unforced, uninitiated and without error |
| RpWatchdogs.NewMasterPin | rp2040-lora-aprs/include/Threads/Watchdog/WatchdogMasterPinThread.h:21-23 | a new master watchdog is awake (`wantToSleep` false), never fed (the base class starts `lastFed` at 0 and `hasFed` false), and has written nothing to its pin |
| RpWatchdogs.MasterInit | rp2040-lora-aprs/src/Threads/Watchdog/WatchdogMasterPinThread.cpp:15-21 | `init` powers the controlled board by driving the pin HIGH, and succeeds |
| RpWatchdogs.MasterRunOnce | rp2040-lora-aprs/src/Threads/Watchdog/WatchdogMasterPinThread.cpp:23-55 | `runOnce` always succeeds, keeps the board powered unless a sleep is in progress, and never touches the feeding time |
| RpWatchdogs.MasterFeed | rp2040-lora-aprs/src/Threads/Watchdog/WatchdogMasterPinThread.cpp:57-62 | `feed` records the feeding and its time, and succeeds without touching the pin |
| RpWatchdogs.MasterSleep | rp2040-lora-aprs/src/Threads/Watchdog/WatchdogMasterPinThread.cpp:64-68 | `sleep` only arms a sleep of the given length; the pin is untouched |
| RpWatchdogs.MasterFeedingDecidesPulse | rp2040-lora-aprs/src/Threads/Watchdog/WatchdogMasterPinThread.cpp:37-54 | outside a sleep, a fed dog consumes the feeding and writes nothing; a hungry one pulses the pin LOW then HIGH |
| RpWatchdogs.MasterNoLowPinWhenAwake | rp2040-lora-aprs/src/Threads/Watchdog/WatchdogMasterPinThread.cpp:43-46 | outside a sleep the pin is HIGH, so the "not fed but pin low" branch cannot be reached |
| RpWatchdogs.MasterSleepCycle | rp2040-lora-aprs/src/Threads/Watchdog/WatchdogMasterPinThread.cpp:24-35 | a sleep switches the board off at the next run and starts the timer, waits while the timer runs, then switches the board back on, ends the sleep and forgets any feeding |
| RpWatchdogs.MasterPinWatchdog.constructor | rp2040-lora-aprs/src/Threads/Watchdog/WatchdogMasterPinThread.cpp:7-12 | the object starts in the initial master state |
| RpWatchdogs.MasterPinWatchdog.SetPin | rp2040-lora-aprs/src/GpioPin.cpp:13-23 | a pin write is recorded and becomes the pin's state |
| RpWatchdogs.MasterPinWatchdog.Init | rp2040-lora-aprs/src/Threads/Watchdog/WatchdogMasterPinThread.cpp:15-21 | the answer and the new fields are those of `MasterInit`, and the invariant holds |
| RpWatchdogs.MasterPinWatchdog.RunOnce | rp2040-lora-aprs/src/Threads/Watchdog/WatchdogMasterPinThread.cpp:23-55 | the answer and the new fields are those of `MasterRunOnce`, and the invariant is kept |
| RpWatchdogs.MasterPinWatchdog.Feed | rp2040-lora-aprs/src/Threads/Watchdog/WatchdogMasterPinThread.cpp:57-62 | the answer and the new fields are those of `MasterFeed` |
| RpWatchdogs.MasterPinWatchdog.Sleep | rp2040-lora-aprs/src/Threads/Watchdog/WatchdogMasterPinThread.cpp:64-68 | the new fields are those of `MasterSleep` |
| RpWatchdogs.LoraTxTask | rp2040-lora-aprs/src/Threads/Watchdog/WatchdogSlaveLoraTx.cpp:6-8 | the task's interval is the TX watchdog timeout and it is enabled by the TX watchdog setting |
| RpWatchdogs.LoraTxFeed | rp2040-lora-aprs/src/Threads/Watchdog/WatchdogSlaveLoraTx.cpp:26-31 | `feed` records the feeding and its time and plans no reboot |
| RpWatchdogs.LoraTxRunOnce | rp2040-lora-aprs/src/Threads/Watchdog/WatchdogSlaveLoraTx.cpp:10-24 | `runOnce` consumes the feeding and plans one reboot exactly when it was not fed and TX is enabled |
| RpWatchdogs.LoraTxFeedCoversOneRun | rp2040-lora-aprs/src/Threads/Watchdog/WatchdogSlaveLoraTx.cpp:10-31 | a feeding covers exactly one run: a run right after a feed plans no reboot, a second run without feeding plans one when TX is on |
| RpWatchdogs.LoraTxWatchdog.constructor | rp2040-lora-aprs/src/Threads/Watchdog/WatchdogSlaveLoraTx.cpp:6-8 | not fed, never fed, no reboot planned |
| RpWatchdogs.LoraTxWatchdog.RunOnce | rp2040-lora-aprs/src/Threads/Watchdog/WatchdogSlaveLoraTx.cpp:10-24 | the answer and the new fields are those of `LoraTxRunOnce` |
| RpWatchdogs.LoraTxWatchdog.Feed | rp2040-lora-aprs/src/Threads/Watchdog/WatchdogSlaveLoraTx.cpp:26-31 | the answer and the new fields are those of `LoraTxFeed` |
| RpWatchdogs.NewMpptDog | rp2040-lora-aprs/src/Threads/Watchdog/WatchdogSlaveMpptChg.cpp:6-10 | the task uses the feeding interval and enabled flag of the settings; the charger's dog is managed by the firmware, never fed, no call issued |
| RpWatchdogs.MpptBegin | rp2040-lora-aprs/src/Threads/Watchdog/WatchdogSlaveMpptChg.cpp:12-22 | `begin` succeeds exactly when it is attempted and the four charger calls of `init` all succeed; the feeding state is untouched |
| RpWatchdogs.MpptReady | rp2040-lora-aprs/src/Threads/Watchdog/WatchdogSlaveMpptChg.cpp:30-33 | the readiness check succeeds only for an initiated task and leaves the feeding state alone |
| RpWatchdogs.MpptFeed | rp2040-lora-aprs/src/Threads/Watchdog/WatchdogSlaveMpptChg.cpp:29-46 | `feed` succeeds exactly when the task is ready and the timeout write succeeds, and only then records the feeding and its time |
| RpWatchdogs.MpptRunOnce | rp2040-lora-aprs/src/Threads/Watchdog/WatchdogSlaveMpptChg.cpp:24-27 | `runOnce` clears the feeding, succeeds at once when the user manages the dog, and feeds otherwise |
| RpWatchdogs.MpptInitChain | rp2040-lora-aprs/src/Threads/Watchdog/WatchdogSlaveMpptChg.cpp:12-22 | `init` succeeds exactly when begin, power-off, timeout and enable all succeed; the calls are issued in that order up to the first refusal |
| RpWatchdogs.MpptFeedWithoutBegin | rp2040-lora-aprs/src/Threads/Watchdog/WatchdogSlaveMpptChg.cpp:30-33 | when the task cannot be made ready, `feed` fails, writes no timeout and leaves the feeding state unchanged |
| RpWatchdogs.MpptUserModes | rp2040-lora-aprs/src/Threads/Watchdog/WatchdogSlaveMpptChg.cpp:53-66 | on a ready task, 0 disables the charger's dog, 1 hands it back to the firmware and feeds it, and any other time sets power-off, a 10 s timeout and enables it; only 1 ends unmanaged by the user |
| RpWatchdogs.MpptUserModeNeedsBegin | rp2040-lora-aprs/src/Threads/Watchdog/WatchdogSlaveMpptChg.cpp:49-51 | when the task cannot be made ready, `setManagedByUser` fails and leaves `managedByUser` unchanged |
| RpWatchdogs.MpptChgWatchdog.constructor | rp2040-lora-aprs/src/Threads/Watchdog/WatchdogSlaveMpptChg.cpp:6-10 | the object starts in the initial charger-watchdog state |
| RpWatchdogs.MpptChgWatchdog.Chain | rp2040-lora-aprs/src/Threads/Watchdog/WatchdogSlaveMpptChg.cpp:13-16 | a chain of charger calls joined by `&&` succeeds when every call does, and issues the calls up to the first refusal |
| RpWatchdogs.MpptChgWatchdog.Ready | rp2040-lora-aprs/src/Threads/Watchdog/WatchdogSlaveMpptChg.cpp:30-33 | the answer and the new fields are those of `MpptReady` |
| RpWatchdogs.MpptChgWatchdog.Feed | rp2040-lora-aprs/src/Threads/Watchdog/WatchdogSlaveMpptChg.cpp:29-46 | the answer and the new fields are those of `MpptFeed` |
| RpWatchdogs.MpptChgWatchdog.RunOnce | rp2040-lora-aprs/src/Threads/Watchdog/WatchdogSlaveMpptChg.cpp:24-27 | the answer and the new fields are those of `MpptRunOnce` |
| RpWatchdogs.MpptChgWatchdog.SetManagedByUser | rp2040-lora-aprs/src/Threads/Watchdog/WatchdogSlaveMpptChg.cpp:48-67 | the answer and the new fields are those of the `setManagedByUser` step function |
| RpSendTasks.NewSendTask | rp2040-lora-aprs/src/Threads/SendThread.cpp:4-5 | a send task forwards its interval and enabled flag, logs, and starts unforced, uninitiated and without error |
| RpSendTasks.TelemetryTask | rp2040-lora-aprs/src/Threads/Send/SendTelemetriesThread.cpp:5-7 | the telemetry task starts forced, with the telemetry interval and enabled flag |
| RpSendTasks.TelemetryDueAtBoot | rp2040-lora-aprs/src/Threads/Send/SendTelemetriesThread.cpp:13-16 | thanks to the bypassed boot gate and the initial force, telemetry is due during the boot grace period where a plain send task would not be |
| RpSendTasks.PositionTask | rp2040-lora-aprs/src/Threads/Send/SendPositionThread.cpp:5-6 | the position task is unforced, with the position interval and enabled flag |
| RpSendTasks.PositionRunOnce | rp2040-lora-aprs/src/Threads/Send/SendPositionThread.cpp:8-10 | a run asks for one position frame with the configured comment |
| RpSendTasks.StatusTask | rp2040-lora-aprs/src/Threads/Send/SendStatusThread.cpp:5-6 | the status task is unforced, with the status interval and enabled flag |
| RpSendTasks.StatusRunOnce | rp2040-lora-aprs/src/Threads/Send/SendStatusThread.cpp:8-10 | a run asks for one status frame with the configured status text |
| RpSendTasks.PlainSendTasksWaitForBoot | rp2040-lora-aprs/src/Threads/SendThread.cpp:8-10 | position and status tasks never run during the boot grace period; only the telemetry task starts forced |
| RpSendTasks.ItemTask | rp2040-lora-aprs/src/Threads/Send/LinuxSendAprsThread.cpp:4 | an item task (Linux or Meshtastic) is unforced, with its item interval and enabled flag |
| RpSendTasks.ItemRunOnce | rp2040-lora-aprs/src/Threads/Send/LinuxSendAprsThread.cpp:6-15 | a run asks for one item frame with the configured name, symbol and comment, alive exactly when the watched board is fed or the run is forced |
| RpSendTasks.ItemForcedIsAlive | rp2040-lora-aprs/src/Threads/Send/MeshtasticSendAprsThread.cpp:6-19 | a forced item run reports the board alive; and an item task never runs while its watchdog is disabled |
| RpSendTasks.BoxOpenedTask | rp2040-lora-aprs/src/Threads/LdrBoxOpenedThread.cpp:5-7 | the box task checks every `intervalCheck`, enabled by the box setting |
| RpSendTasks.BoxOpenedRunOnce | rp2040-lora-aprs/src/Threads/LdrBoxOpenedThread.cpp:9-26 | a message to F4HVV-7 is sent exactly when the first interval has passed, the box is open and the board is not in debug mode |
| RpSendTasks.BoxOpenedResult | rp2040-lora-aprs/src/Threads/LdrBoxOpenedThread.cpp:9-26 | the run fails only when a message was due and its sending failed |
| RpSendTasks.BlinkerTask | rp2040-lora-aprs/src/Threads/BlinkerThread.cpp:5-6 | the blinker runs every second, without logging, always enabled |
| RpSendTasks.BlinkerRunOnce | rp2040-lora-aprs/src/Threads/BlinkerThread.cpp:8-15 | a run writes the LED HIGH then LOW, leaving it off, and succeeds |
| RpEnergy.FetchFrom | rp2040-lora-aprs/src/Threads/EnergyThread.cpp:45-63 | the fetchers from a given one on succeed exactly when none of them fails |
| RpEnergy.RunFetches | rp2040-lora-aprs/src/Threads/EnergyThread.cpp:42-68 | `runOnce` succeeds exactly when the four fetchers (battery voltage, battery current, solar voltage, solar current) all succeed |
| RpEnergy.FetchStopsAtFailure | rp2040-lora-aprs/src/Threads/EnergyThread.cpp:45-63 | from the first failing fetcher on, no reading changes: a failure stops the run |
| RpEnergy.FirstAtOrBelow | rp2040-lora-aprs/src/Threads/EnergyThread.cpp:26-37 | the lookup finds the first table point at or below the cell voltage, or none |
| RpEnergy.BatteryPercentage | rp2040-lora-aprs/src/Threads/EnergyThread.cpp:12-40 | the percentage is at most 100; 0 without a table or below every point; 100 at or above the first point |
| RpEnergy.UsesFirstPointBelow | rp2040-lora-aprs/src/Threads/EnergyThread.cpp:26-39 | between two points, the percentage is the clamped interpolation at the first point at or below the cell voltage |
| RpEnergy.GetBatteryPercentage | rp2040-lora-aprs/src/Threads/EnergyThread.cpp:12-40 | the loop's result is the percentage of `BatteryPercentage` |
| RpEnergy.DummyRun | rp2040-lora-aprs/src/Threads/Energy/EnergyDummyThread.cpp:10-28 | a dummy run always succeeds with the constant readings; the charge current is 222 mA and it is never night |
| RpEnergy.AdcFetchVoltageBattery | rp2040-lora-aprs/src/Threads/Energy/EnergyAdcThread.cpp:8-21 | the battery voltage is the integer mean of the 15 samples, stored as `int16_t`, and the fetch succeeds |
| RpEnergy.AdcMeanFits | rp2040-lora-aprs/src/Threads/Energy/EnergyAdcThread.cpp:8-21 | with 12-bit samples the mean fits, and an ADC run changes the battery voltage only |
| RpEnergy.MpptFetches | rp2040-lora-aprs/src/Threads/Energy/EnergyMpptChgThread.cpp:19-33 | each charger fetcher fails exactly when its register read fails and otherwise stores the value read |
| RpEnergy.MpptEnergyInitSwapsThresholds | rp2040-lora-aprs/src/Threads/Energy/EnergyMpptChgThread.cpp:9-12 | as written, `init` sends the power-off voltage to the ON threshold and the power-on voltage to the OFF threshold |
| RpEnergy.MpptEnergyInitOpsIntended | rp2040-lora-aprs/src/Threads/Energy/EnergyMpptChgThread.cpp:39-49 | the intended `init`: begin, then each threshold receives the setting of the same name |
| RpEnergy.EnergyMonitor.constructor | rp2040-lora-aprs/include/Threads/EnergyThread.h:50 | every reading starts at 0 |
| RpEnergy.EnergyMonitor.Apply | rp2040-lora-aprs/src/Threads/Energy/EnergyMpptChgThread.cpp:19-33 | one fetcher: fails without change, keeps the reading, or stores the value in its own reading only |
| RpEnergy.EnergyMonitor.RunOnce | rp2040-lora-aprs/src/Threads/EnergyThread.cpp:42-68 | the answer and the new readings are those of `RunFetches` |
| RpEnergy.EnergyMonitor.FetchOthersData | rp2040-lora-aprs/src/Threads/Energy/EnergyMpptChgThread.cpp:35-37 | the night flag is read, then the status only if that succeeded; each is stored only when read; the readings are untouched |
| RpCommunication.Then | rp2040-lora-aprs/src/Communication.cpp:244-266 | two transmissions in a row succeed when either does, fail with an error when either does, and log one after the other |
| RpCommunication.ChannelWait | rp2040-lora-aprs/src/Communication.cpp:142-146 | the channel loop stops after between one and four increments of its counter |
| RpCommunication.SendGivesUpIff | rp2040-lora-aprs/src/Communication.cpp:136-177 | `send` gives up on a busy channel exactly when the first two samples are busy and the third clear; three busy samples still transmit; `send` fails exactly then or when the transmission fails |
| RpCommunication.ChannelClearIntended | rp2040-lora-aprs/src/Communication.cpp:142-150 | the check the loop evidently means: the channel becomes clear within the three samples |
| RpCommunication.ChannelCheckDiscrepancy | rp2040-lora-aprs/src/Communication.cpp:142-150 | busy-busy-clear gives up though the channel cleared, and busy-busy-busy transmits though it never did |
| RpCommunication.ChannelCheckAgreesOtherwise | rp2040-lora-aprs/src/Communication.cpp:142-150 | on every other sampling the loop agrees with the intended check |
| RpCommunication.TxDisabledNeverTransmits | rp2040-lora-aprs/src/Communication.cpp:153-173 | with transmission disabled nothing goes on air, no error is raised, `send` succeeds exactly when the channel check passes, and the TX watchdog is still fed |
| RpCommunication.WaitHasNoTransmit | rp2040-lora-aprs/src/Communication.cpp:143-146 | waiting for the channel neither transmits nor encodes |
| RpCommunication.FrameIsPrefixed | rp2040-lora-aprs/src/Communication.cpp:87-110 | a frame on air is the three bytes `<`, 0xFF, 0x01 followed by the encoded packet, and fits the radio buffer |
| RpCommunication.PacketsAppend | rp2040-lora-aprs/src/Communication.cpp:87-110 | the packets encoded by two logs in a row are those of each, in order |
| RpCommunication.NoPackets | rp2040-lora-aprs/src/Communication.cpp:87-110 | a log that encodes nothing holds no packet |
| RpCommunication.FramePackets | rp2040-lora-aprs/src/Communication.cpp:87-110 | sending one APRS frame encodes exactly that packet |
| RpCommunication.TelemetryBits | rp2040-lora-aprs/src/Communication.cpp:234-241 | the four telemetry bits: each board's watchdog fed (or its pin on when the watchdog is off), the link (Wi-Fi or NPR pin on), and the system error, which is the pipeline's own error flag or the weather or energy task's |
| RpCommunication.PrepareTelemetry | rp2040-lora-aprs/src/Communication.cpp:200-242 | the telemetry sequence is the stored one plus one, wrapping from 65535 to 0, with the readings given and the bits read from the board and the pipeline's error flag at that moment |
| RpCommunication.ParamsInOrder | rp2040-lora-aprs/src/Communication.cpp:268-318 | the telemetry parameters are sent as labels, units then equations, and succeed when any of the three does |
| RpCommunication.TelemetryFrames | rp2040-lora-aprs/src/Communication.cpp:244-266 | a telemetry send encodes the three parameter packets first when they are pending, then the telemetry packet |
| RpCommunication.TelemetryErrAfterParams | rp2040-lora-aprs/src/Communication.cpp:244-255 | the report's Err flag is read after the parameter frames: set exactly when the pipeline was in error, the weather or energy task is, or a pending parameter frame failed |
| RpCommunication.ParamsFailureRaisesErr | rp2040-lora-aprs/src/Communication.cpp:158-166 | a pending parameter frame refused by the radio makes the report carry Err, even when nothing was in error before |
| RpCommunication.Finish | rp2040-lora-aprs/src/Communication.cpp:472-474 | finishing a reception keeps its result and turns the LED off only when nothing was sent |
| RpCommunication.ReceivedRouting | rp2040-lora-aprs/src/Communication.cpp:416-475 | an undecodable frame goes to KISS only; a decoded one is first recorded in the history; our own frame coming back is dropped there |
| RpCommunication.MessageForMeAnswered | rp2040-lora-aprs/src/Communication.cpp:430-455 | a message to us is acknowledged when it carries an ack, then answered with the command's response, and reception succeeds when either send does |
| RpCommunication.ThenPackets | rp2040-lora-aprs/src/Communication.cpp:244-266 | chaining two transmissions encodes the packets of both in order |
| RpCommunication.FinishPackets | rp2040-lora-aprs/src/Communication.cpp:416-475 | finishing encodes nothing more |
| RpCommunication.DigipeatOnlyWhenAllowed | rp2040-lora-aprs/src/Communication.cpp:456-474 | a frame for others is repeated exactly when the digipeater is enabled and the codec allows it, and then it is the only packet sent |
| RpCommunication.UpdateFilters | rp2040-lora-aprs/src/Communication.cpp:67-85 | without an interrupt nothing happens; an interrupt other than reception restarts the receiver; a failed read or a frame under 15 bytes is dropped; otherwise the frame is received |
| RpCommunication.Communication.constructor | rp2040-lora-aprs/src/Communication.cpp:6-9 | a fresh buffer, no interrupt, no error, no parameters pending, nothing logged |
| RpCommunication.Communication.WaitForChannel | rp2040-lora-aprs/src/Communication.cpp:142-146 | the loop counter ends as `ChannelWait` says, with a receive restart and a wait logged per busy sample |
| RpCommunication.Communication.Send | rp2040-lora-aprs/src/Communication.cpp:136-177 | the result, log and error flag are those of `SendOutcome` on the buffer's first `size` bytes |
| RpCommunication.Communication.WriteFrame | rp2040-lora-aprs/src/Communication.cpp:99-107 | the buffer starts with the three prefix bytes and the frame |
| RpCommunication.Communication.SendAprsFrame | rp2040-lora-aprs/src/Communication.cpp:87-110 | the result, log and error flag are those of `FrameOutcome` |
| RpCommunication.Communication.SendFrame | rp2040-lora-aprs/src/Communication.cpp:99-109 | a frame that fits is sent with its prefix |
| RpCommunication.Communication.SendRaw | rp2040-lora-aprs/src/Communication.cpp:112-121 | a payload over the buffer size fails with nothing changed; otherwise it is copied to the buffer and sent as is |
| RpCommunication.Communication.CopyPayload | rp2040-lora-aprs/src/Communication.cpp:118 | the buffer starts with the payload |
| RpCommunication.Communication.SendMessage | rp2040-lora-aprs/src/Communication.cpp:179-198 | a message packet to the destination, with the ack to confirm when there is one, is sent |
| RpCommunication.Communication.SendTelemetryParams | rp2040-lora-aprs/src/Communication.cpp:268-318 | the three parameter packets are sent as `ParamsOutcome` says |
| RpCommunication.Communication.SendTelemetry | rp2040-lora-aprs/src/Communication.cpp:244-266 | the sequence is advanced, pending parameters are sent first and stay pending only if they all failed, then the report is sent, its Err flag including any error those parameter frames raised |
| RpCommunication.Communication.SendPosition | rp2040-lora-aprs/src/Communication.cpp:320-359 | the position is sent, with the telemetry (and an advanced sequence, its Err flag from the pipeline's error before the frame) only when configured to |
| RpCommunication.Communication.SendStatus | rp2040-lora-aprs/src/Communication.cpp:361-375 | a status packet with the comment is sent |
| RpCommunication.Communication.SendItem | rp2040-lora-aprs/src/Communication.cpp:377-400 | an item packet, alive or killed, is sent |
| RpCommunication.Communication.Received | rp2040-lora-aprs/src/Communication.cpp:416-475 | the result, log and error flag are those of `ReceivedOutcome` |
| RpCommunication.Communication.AnswerMessage | rp2040-lora-aprs/src/Communication.cpp:430-455 | a message to us is acknowledged and answered as `ForMeOutcome` says |
| RpCommunication.Communication.Update | rp2040-lora-aprs/src/Communication.cpp:67-85 | the interrupt flag is consumed and the log and error flag become those of `UpdateStep` |
| RpSystem.SlotFrom | rp2040-lora-aprs/src/System.cpp:283-289 | the search stops at the first slot holding the station or free, every slot before it belonging to another station; it runs off the end when there is none |
| RpSystem.Recorded | rp2040-lora-aprs/src/System.cpp:293-300 | the slot takes the frame's station, content and last digipeater, and its count goes up by one modulo 2^64 |
| RpSystem.FindsExistingStation | rp2040-lora-aprs/src/System.cpp:283-289 | in a packed history a station already heard is found at its own slot, so it is updated rather than duplicated |
| RpSystem.RecordFrameKeepsPacked | rp2040-lora-aprs/src/System.cpp:280-303 | recording a frame keeps the occupied slots first and every station in one slot only |
| RpSystem.RecordFrameWritesOneSlot | rp2040-lora-aprs/src/System.cpp:291-300 | a frame rewrites exactly its station's slot (or the first free one) and leaves every other slot unchanged |
| RpSystem.FullHistoryIndexOutOfBounds | rp2040-lora-aprs/src/System.cpp:283-291 | when every slot holds another station the index found is one past the table, and the corrected history records nothing |
| RpSystem.FullHistoryExample | rp2040-lora-aprs/src/System.cpp:281-291 | with 30 other stations heard, the index a 31st station gets is 30, one past the table of `APRS_CALLSIGNS_HEARD_NUMBER` slots |
| RpSystem.StepsKeepStoreValid | rp2040-lora-aprs/src/System.cpp:244-316 | saving, loading and resetting keep the settings well typed and the history at 30 slots |
| RpSystem.SaveFailsWhenFileCannotOpen | rp2040-lora-aprs/src/System.cpp:264-270 | a save whose file cannot be opened fails and changes nothing |
| RpSystem.LoadMissingFileAppliesDefaults | rp2040-lora-aprs/src/System.cpp:244-252 | loading without a file applies the defaults, keeps the history, and answers whether saving them worked |
| RpSystem.SaveThenLoadRestores | rp2040-lora-aprs/src/System.cpp:254-278 | loading right after a successful save gives back the settings and history saved |
| RpSystem.ResetRestoresDefaults | rp2040-lora-aprs/src/System.cpp:305-316 | a reset fails without change when formatting fails; otherwise it answers true and leaves the default settings, saved when the file could be opened |
| RpSystem.FindGpio | rp2040-lora-aprs/src/System.cpp:667-679 | the search skips empty entries and stops at the first pin with the number asked, or runs off the end |
| RpSystem.RegisteredPinsFit | rp2040-lora-aprs/src/System.cpp:50-117 | `begin` registers the LED first, the RTC wake-up input only when the RTC is enabled, and ends with the inverted NPR and Wi-Fi pins; at most 6 of the 10 slots are used |
| RpSystem.RegisteredTasksShape | rp2040-lora-aprs/src/System.cpp:53-132 | the blinker comes first and the Linux item task last; the charger watchdog task exactly for the mpptchg energy type; no task twice; the box task is never scheduled |
| RpSystem.StartOneOutcomes | rp2040-lora-aprs/src/System.cpp:134-149 | at boot a disabled task is skipped, a task whose `begin` fails is left uninitiated in error, and a begun task runs once only if its own `shouldRun` says so: a watchdog, position, status or item task never during the boot grace period, the telemetry task by the plain task check |
| RpSystem.StartTasks | rp2040-lora-aprs/src/System.cpp:134-149 | the boot loop treats every registered task by the single-task rule with its own `shouldRun`, in order |
| RpSystem.Incoming | rp2040-lora-aprs/src/System.cpp:157-176 | the stream served is USB first, then UART0, then UART1, or none |
| RpSystem.LoopSchedulesOnlyWithoutInput | rp2040-lora-aprs/src/System.cpp:178-210 | scheduled tasks run only in an iteration without serial input; the radio is serviced exactly once per iteration, after the input |
| RpSystem.LoopFeedsLinuxWatchdog | rp2040-lora-aprs/src/System.cpp:162-175 | the Linux watchdog is fed exactly when input arrives on a UART (not USB) and that watchdog is enabled |
| RpSystem.LoopEnding | rp2040-lora-aprs/src/System.cpp:217-233 | a planned reboot ends the iteration; otherwise a planned DFU hands the charger's dog to the user (mpptchg only) and reboots to the bootloader; otherwise the iteration pauses 10 ms and resets the watchdog |
| RpSystem.System.constructor | rp2040-lora-aprs/src/System.cpp:22-25 | the system starts with zeroed settings, an empty 30-slot history, the file as found, no reboot or DFU planned and no pin registered |
| RpSystem.System.SaveSettings | rp2040-lora-aprs/src/System.cpp:264-278 | the answer and the new store are those of `SaveStep` |
| RpSystem.System.LoadSettings | rp2040-lora-aprs/src/System.cpp:244-262 | the answer and the new store are those of `LoadStep` |
| RpSystem.System.ResetSettings | rp2040-lora-aprs/src/System.cpp:305-316 | the answer and the new store are those of `ResetStep` |
| RpSystem.System.AddAprsFrameReceivedToHistory | rp2040-lora-aprs/src/System.cpp:280-303 | the history becomes `RecordFrame` of the old one; the last heard slot and the saved file follow when a slot was found |
| RpSystem.System.GetGpio | rp2040-lora-aprs/src/System.cpp:667-679 | the registered pin with that number, or null exactly when none has it |
| RpSystem.System.PlanReboot | rp2040-lora-aprs/src/System.cpp:499-502 | a reboot is planned |
| RpSystem.System.PlanDfu | rp2040-lora-aprs/src/System.cpp:504-507 | a DFU reboot is planned |
| RpSettings.FieldNamed | rp2040-lora-aprs/src/Command.cpp:444-590 | a key names a field exactly when some field has that text as its name; an unknown key names none |
| RpSettings.NamedFieldsResolve | rp2040-lora-aprs/src/Command.cpp:444-590 | every field of the record can be reached by its key |
| RpSettings.StrToUnsigned | rp2040-lora-aprs/src/Command.cpp:185-203 | `strtoul`/`strtoull` with base 0 never gives more than the type's maximum |
| RpSettings.ReadsDecimal | rp2040-lora-aprs/src/Command.cpp:185-203 | reading a decimal number that fits gives it back |
| RpSettings.ReadsHex | rp2040-lora-aprs/src/Command.cpp:185-203 | reading `0x` and hexadecimal digits gives the number back |
| RpSettings.ParseValue | rp2040-lora-aprs/src/Command.cpp:181-420 | what `set` stores from a non-empty value always fits the field's type: a flag from `value[0] == '1'`, a char from the first character, a number truncated to the field's width |
| RpSettings.NumberRoundTrip | rp2040-lora-aprs/src/Command.cpp:185-203 | `set` of a number as `get` prints it (decimal, or `0x` hexadecimal for the I2C address) stores the same number |
| RpSettings.SetOfGetRoundTrip | rp2040-lora-aprs/src/Command.cpp:181-590 | `set` of the text `get` printed stores the value back for every kind except floating point, and that text is never the refused empty value |
| RpSettings.DefaultValue | rp2040-lora-aprs/src/System.cpp:318-400 | every default fits its field's type, and exactly the ADC pin and the two INA3221 channels have no default |
| RpSettings.WithDefaults | rp2040-lora-aprs/src/System.cpp:318-400 | `setDefaultSettings` writes every defaulted field and keeps the others |
| RpSettings.WithDefaultsIdempotent | rp2040-lora-aprs/src/System.cpp:318-400 | restoring the defaults twice is restoring them once |
| RpSettings.ZeroValue | rp2040-lora-aprs/include/System.h:57 | a zero-initialised field is false, 0 or the empty text, and fits its type |
| RpSettings.ZeroSettings | rp2040-lora-aprs/include/System.h:57 | the record before loading is well typed |
| RpCommand.LinuxWatchdogEnableFeedsMeshtastic | rp2040-lora-aprs/src/Command.cpp:354-359 | as written, `set linux.watchdogEnabled 1` feeds the Meshtastic watchdog and never the Linux one |
| RpCommand.WatchdogEnableFeedsItsOwnBoard | rp2040-lora-aprs/src/Command.cpp:249-254 | corrected, enabling a board's watchdog feeds that board's watchdog exactly when it is enabled, and never the other board's |
| RpCommand.RebootingKeys | rp2040-lora-aprs/src/Command.cpp:258-408 | a `set` plans a reboot exactly for the energy type, ADC pin, NPR and Wi-Fi pins and internal watchdog, and for the board, box and RTC pins only when their feature is on |
| RpCommand.FieldChange | rp2040-lora-aprs/src/Command.cpp:181-408 | setting a field stores the value read as the field's type in that field alone and keeps the store well typed; its hook is the firmware's, `linux.watchdogEnabled` included |
| RpCommand.Change | rp2040-lora-aprs/src/Command.cpp:170-423 | every branch of `doSetSetting` before the save keeps the store well typed |
| RpCommand.SetStep | rp2040-lora-aprs/src/Command.cpp:155-442 | `doSetSetting` keeps the store well typed whatever the key and value |
| RpCommand.EmptyValueRefused | rp2040-lora-aprs/src/Command.cpp:159-163 | an empty value answers `KO` with nothing changed, saved or requested |
| RpCommand.UnknownKeyRefused | rp2040-lora-aprs/src/Command.cpp:420-441 | an unknown key answers `KO` with nothing changed, saved or requested |
| RpCommand.FailedSaveKeepsChange | rp2040-lora-aprs/src/Command.cpp:425-441 | when the save fails the answer is `KO` while the new value stays in memory and the file keeps the old one |
| RpCommand.SetEchoesGet | rp2040-lora-aprs/src/Command.cpp:425-441 | setting a field to the text `get` prints stores that value, succeeds exactly when the key's radio or energy restart succeeds, saves the record, and answers that same text (the `Set OK ` prefix is overwritten by `get`) with `. Reboot` when one is planned |
| RpCommand.SetResetAnswer | rp2040-lora-aprs/src/Command.cpp:178-180 | `set reset` restores the defaults and answers `Set OK . Reboot`, though it plans no reboot |
| RpCommand.SetWithoutGetAnswersKo | rp2040-lora-aprs/src/Command.cpp:409-418 | `set time` and `set aprsReceived` succeed (the latter clearing the history) but answer `KO`, since `get` knows neither key |
| RpCommand.GpioTarget | rp2040-lora-aprs/src/Command.cpp:127-143 | `gpio` looks up the board's configured pin for an alias, and a number only when `atoi` gives it positive |
| RpCommand.GpioSlot | rp2040-lora-aprs/src/Command.cpp:127-152 | the slot found, if any, holds a registered pin with the number looked up |
| RpCommand.GpioNumberTruncated | rp2040-lora-aprs/src/Command.cpp:138-141 | the number reaches `getGpio` as a `uint8_t`: `gpio 281 1` drives pin 25 |
| RpCommand.DirectListNamesRecent | rp2040-lora-aprs/src/Command.cpp:671-687 | every station heard directly in the last two hours is named in the `?APRSD` answer |
| RpCommand.DirectListEmpty | rp2040-lora-aprs/src/Command.cpp:671-691 | starting from an empty response, `?APRSD` finds nobody exactly when no station was heard directly in the last two hours |
| RpCommand.HeardListKeepsOnlyLast | rp2040-lora-aprs/src/Command.cpp:694-714 | as written, `?APRSL` with two stations heard just now answers only the second; the corrected list names both |
| RpCommand.HeardListAsWrittenLast | rp2040-lora-aprs/src/Command.cpp:694-714 | as written, the `?APRSL` text starts with the last recent station heard, whatever came before it |
| RpCommand.HeardListNamesRecent | rp2040-lora-aprs/src/Command.cpp:694-714 | corrected, every station heard in the last two hours is named in the `?APRSL` answer with its digipeater count |
| RpCommand.FindCallsign | rp2040-lora-aprs/src/Command.cpp:718-723 | the search stops at the first slot holding the callsign, every slot before it holding another |
| RpCommand.HeardSomeoneReply | rp2040-lora-aprs/src/Command.cpp:717-726 | `?APRSH` answers `Pas entendu` exactly when no slot holds the callsign |
| RpCommand.HeardSomeoneUsesItsSlot | rp2040-lora-aprs/src/Command.cpp:717-726 | in a packed history a station is described from its own slot |
| RpCommand.PingReply | rp2040-lora-aprs/src/Command.cpp:732-738 | `?PING` always answers with `Pong` |
| RpCommand.Simple | rp2040-lora-aprs/src/Command.cpp:598-669 | `telemParams` asks for the parameters and runs the telemetry task; `mpptDog` answers `OK` exactly on the mpptchg sensor when the charger accepts, and asks it only on that sensor |
| RpCommand.Command.constructor | rp2040-lora-aprs/src/Command.cpp:13-42 | no response, effect or output yet |
| RpCommand.Command.GetSetting | rp2040-lora-aprs/src/Command.cpp:444-596 | the response is rewritten as `GetReply` says, or kept for `reset` |
| RpCommand.Command.ClearHistory | rp2040-lora-aprs/src/Command.cpp:409-418 | every slot of the history is emptied |
| RpCommand.Command.ApplyField | rp2040-lora-aprs/src/Command.cpp:181-408 | the settings, effects and reboot plan become those of `FieldChange` |
| RpCommand.Command.ApplyChange | rp2040-lora-aprs/src/Command.cpp:170-423 | the store, effects and reboot plan become those of `Change` |
| RpCommand.Command.Conclude | rp2040-lora-aprs/src/Command.cpp:425-441 | the save and the response are those of `ThenSave` and `SetReply` |
| RpCommand.Command.SetSetting | rp2040-lora-aprs/src/Command.cpp:155-442 | the store, effects, reboot plan and response are those of `SetStep` |
| RpCommand.Command.GpioOutput | rp2040-lora-aprs/src/Command.cpp:123-153 | no pin found answers `KO`; an output pin takes the state (1 is on) and answers `OK`; an input pin stops the firmware; every other pin keeps its state and its writes |
| RpCommand.Command.AprsHeardWithoutDigi | rp2040-lora-aprs/src/Command.cpp:671-691 | the loop leaves the `?APRSD` answer of `HeardWithoutDigiReply` |
| RpCommand.Command.AprsHeard | rp2040-lora-aprs/src/Command.cpp:694-714 | the loop leaves the `?APRSL` answer of `HeardReply`, as written: only the last recent station, or the notice |
| RpCommand.Command.AprsHeardSomeone | rp2040-lora-aprs/src/Command.cpp:717-726 | the loop leaves the `?APRSH` answer of `HeardSomeoneReply` |
| RpCommand.Command.Query | rp2040-lora-aprs/src/Command.cpp:671-738 | each history query answers as its reply function says |
| RpCommand.Command.RunSimple | rp2040-lora-aprs/src/Command.cpp:78-121 | the effects and answer of a simple command are those of `Simple` |
| RpCommand.Command.Execute | rp2040-lora-aprs/src/Command.cpp:15-41 | the command's handler runs; only `gpio` can stop the firmware; effects are only appended |
| RpCommand.Command.Configure | rp2040-lora-aprs/src/Command.cpp:155-596 | `set` answers `SetReply` of `SetStep`; `get` answers `GetReply` |
| RpCommand.Command.Act | rp2040-lora-aprs/src/Command.cpp:111-153 | `reboot` and `dfu` plan their reboot and answer `OK` |
| RpCommand.Command.ProcessCommand | rp2040-lora-aprs/src/Command.cpp:44-76 | a command under 3 characters is refused untouched; a parser refusal lights the LED, writes `KO ` and the message, blinks twice and fails; a recognised command lights the LED, writes its non-empty response and turns the LED off |
| RpI2c.RegisterValue | rp2040-lora-aprs/src/I2CSlave.cpp:37-97 | the ping register announces power, plus weather and RTC when enabled; energy registers read 0 when the energy task is in error, weather registers when weather is off or in error; an unknown register reads 0 |
| RpI2c.Encode | rp2040-lora-aprs/src/I2CSlave.cpp:101-102 | a value is sent as two bytes |
| RpI2c.EncodeKeepsLow16 | rp2040-lora-aprs/src/I2CSlave.cpp:101-102 | the two bytes, high byte first, carry the low 16 bits of the value |
| RpI2c.SignedReadingRoundTrip | rp2040-lora-aprs/src/I2CSlave.cpp:55-66 | a signed 16-bit reading widened to 32 bits and sent reads back as itself on the master |
| RpI2c.PingAnnouncesFeatures | rp2040-lora-aprs/src/I2CSlave.cpp:44-54 | the ping value read by the master has bit 0 set, bit 1 exactly when weather is enabled, bit 2 exactly when the RTC is, and nothing above |
| RpI2c.TemperatureReadBack | rp2040-lora-aprs/src/I2CSlave.cpp:67-69 | the temperature register carries the hundredths of degree truncated to 16 bits, which read back exactly when they fit |
| RpI2c.I2CSlave.constructor | rp2040-lora-aprs/src/I2CSlave.cpp:7-8 | the slave starts not listening, with register 0 selected |
| RpI2c.I2CSlave.Begin | rp2040-lora-aprs/src/I2CSlave.cpp:10-30 | the slave listens on its address only when both pins were accepted; otherwise nothing changes |
| RpI2c.I2CSlave.End | rp2040-lora-aprs/src/I2CSlave.cpp:32-35 | the slave stops listening |
| RpI2c.I2CSlave.OnReceive | rp2040-lora-aprs/src/I2CSlave.cpp:106-117 | a one-byte write selects the register and feeds the Meshtastic watchdog when enabled; any other write changes nothing |
| RpI2c.I2CSlave.OnRequest | rp2040-lora-aprs/src/I2CSlave.cpp:37-103 | a read sends the two bytes of the selected register's value |
| RpI2c.WriteThenRead | rp2040-lora-aprs/src/I2CSlave.cpp:37-117 | a register write followed by a read makes the master receive the low 16 bits of that register's value |
| RpGpio.LevelRoundTrip | rp2040-lora-aprs/src/GpioPin.cpp:20-36 | the level written for a state and the state read from a level are inverse to each other, and the level differs from the state exactly on an inverted pin |
| RpGpio.GpioPin.constructor | rp2040-lora-aprs/src/GpioPin.cpp:4-11 | an output pin is driven to its initial state at once; an input pin is left alone |
| RpGpio.GpioPin.SetState | rp2040-lora-aprs/src/GpioPin.cpp:13-23 | on an output pin the level written is the state through the inversion, and the state is remembered and read back |
| RpGpio.GpioPin.GetState | rp2040-lora-aprs/src/GpioPin.cpp:25-41 | an output pin answers the state last set without reading; an input pin answers the level read through the inversion |
| RpGpio.GpioPin.GetValue | rp2040-lora-aprs/src/GpioPin.cpp:43-52 | only on an ADC input, the converter's reading |
| RpMain.DelayWdt | rp2040-lora-aprs/src/main.cpp:17-34 | with the internal watchdog on, the wait is split into 1000 ms delays, each followed by a watchdog reset, and a shorter last one, until at least the time asked has passed; otherwise one delay |
| RpMain.LedBlink | rp2040-lora-aprs/src/main.cpp:36-43 | the LED is written HIGH then LOW once per blink, ending LOW |
| RpMain.Clamp | rp2040-lora-aprs/src/main.cpp:52-54 | the result lies between the bounds, is the value itself when inside them, and the lower bound below them |
| RpMain.PulsesAlternate | rp2040-lora-aprs/src/main.cpp:37-42 | the blink pattern alternates HIGH and LOW, starting HIGH |
| CcSystem.TotalsAppend | cubecell_monitoring/src/System.cpp:345-362 | the time waited and the feeds of two pieces of a delay add up |
| CcSystem.DelayPlanTotals | cubecell_monitoring/src/System.cpp:345-362 | `delayWdt` waits exactly the time asked, in steps of at most a second with the watchdog fed after each full second when it is enabled, and never resets the board |
| CcSystem.TurnedOn | cubecell_monitoring/src/System.cpp:164-182 | turning the LED on changes only its colour (and the log), never the setup or the error count |
| CcSystem.ErrorAdded | cubecell_monitoring/src/System.cpp:326-336 | counting an error keeps the setup and the LED colour |
| CcSystem.ErrorRemoved | cubecell_monitoring/src/System.cpp:338-343 | forgetting an error lowers the count by one, never below zero, and changes nothing else |
| CcSystem.SerialErrored | cubecell_monitoring/src/System.cpp:215-223 | a serial error keeps the setup and a valid state |
| CcSystem.TurnedOnShowsColor | cubecell_monitoring/src/System.cpp:164-182 | the LED shows the colour asked; setting the same colour again does nothing, and a new colour is written to the pixel |
| CcSystem.ErrorAddedResetsIff | cubecell_monitoring/src/System.cpp:326-336 | the error count goes up by one modulo 256, and the board resets exactly when the count reaches the limit with reset-on-error allowed |
| CcSystem.RemoveUndoesAdd | cubecell_monitoring/src/System.cpp:326-343 | below the wrap, removing an error undoes adding one |
| CcSystem.CounterWraps | cubecell_monitoring/src/System.cpp:326-336 | the 8-bit error counter wraps from 255 to 0 and, without reset-on-error, nothing else happens |
| CcSystem.TurnedOnAppends | cubecell_monitoring/src/System.cpp:164-182 | turning the LED on only appends to the log and never resets the board |
| CcSystem.SerialErrorCounts | cubecell_monitoring/src/System.cpp:215-223 | a serial error counts one error exactly when asked, leaves the LED off, and keeps the flags and the EEPROM |
| CcSystem.SerialErrorWithoutCountNeverResets | cubecell_monitoring/src/System.cpp:215-223 | a serial error that is not counted never resets the board |
| CcSystem.FlagStoredAsWritten | cubecell_monitoring/src/System.cpp:225-232 | the flag update as written keeps the state valid |
| CcSystem.FlagStored | cubecell_monitoring/src/System.cpp:225-232 | the intended flag update keeps the state valid |
| CcSystem.FlagStoredDiscrepancy | cubecell_monitoring/src/System.cpp:225-232 | as written, the flag changes only when it is saved; an unsaved change is lost, where the intended update changes the flag and leaves the EEPROM alone |
| CcSystem.FlagStoredReadsBack | cubecell_monitoring/src/System.cpp:225-232 | after the intended update the flag reads as set, the EEPROM holds it when saved, and every other flag and the version byte are unchanged |
| CcSystem.FlagSideEffects | cubecell_monitoring/src/System.cpp:233-257 | the state report is due; reset-on-error clears the error count and the watchdog flag switches the inner watchdog, flags and EEPROM untouched |
| CcSystem.System.constructor | cubecell_monitoring/src/System.cpp:7-10 | the compiled-in flags, no error, the LED off, and the EEPROM as last committed |
| CcSystem.System.DelayWdt | cubecell_monitoring/src/System.cpp:345-362 | the loop performs the delay plan: one-second waits with a feed after each, then the remainder |
| CcSystem.System.TurnOnRgb | cubecell_monitoring/src/System.cpp:164-182 | the new state is that of `TurnedOn` |
| CcSystem.System.TurnOffRgb | cubecell_monitoring/src/System.cpp:184-186 | the LED is turned to colour 0 |
| CcSystem.System.AddError | cubecell_monitoring/src/System.cpp:326-336 | the new state is that of `ErrorAdded` and stays valid |
| CcSystem.System.RemoveOneError | cubecell_monitoring/src/System.cpp:338-343 | the new state is that of `ErrorRemoved` |
| CcSystem.System.SerialError | cubecell_monitoring/src/System.cpp:215-223 | the new state is that of `SerialErrored` and stays valid |
| CcSystem.System.StoreFunction | cubecell_monitoring/src/System.cpp:225-257 | as written, the flag and its EEPROM byte are stored only when saving, then the side effects follow |
| CcBoard.FunctionActed | cubecell_monitoring/src/System.cpp:233-257 | acting on a function keeps the system well formed and leaves every flag and the EEPROM as they were |
| CcBoard.FunctionSet | cubecell_monitoring/src/System.cpp:225-258 | as written, `setFunctionAllowed` changes the flag in memory only when saving, and then also writes its EEPROM byte; without `save` neither changes (see Findings) |
| CcBoard.FunctionSetIntended | cubecell_monitoring/src/System.cpp:225-258 | corrected, the flag always takes the new value and its EEPROM byte is written only when saving |
| CcBoard.FunctionSetDiscrepancy | cubecell_monitoring/src/System.cpp:225-232 | with `save` the firmware and the corrected update agree; without it the firmware keeps the old flag where the corrected update sets it |
| CcBoard.FunctionSetEffects | cubecell_monitoring/src/System.cpp:233-257 | every call expires the state timer; the reset-on-error function clears the error count, the watchdog function switches the inner watchdog, the TX watchdog function restarts it, and only the charger's function touches the charger, after which it is never left to the user while enabled |
| CcBoard.FunctionSetArmsCharger | cubecell_monitoring/src/System.cpp:251-256 | the charger's function hands the watchdog back from the user and arms it with 10 s when allowed, or switches it off |
| CcBoard.SetFunctionAllowed | cubecell_monitoring/src/System.cpp:225-258 | the system, charger and pipeline become those of the as-written `FunctionSet` |
| CcBoard.Act | cubecell_monitoring/src/System.cpp:233-257 | the system, charger and pipeline become those of `FunctionActed` |
| CcBoard.Slot | cubecell_monitoring/src/System.cpp:25-44 | every function has its place in the order `begin` applies them |
| CcBoard.Replayed | cubecell_monitoring/src/System.cpp:25-44 | replaying the flags, with the flag storage as written or corrected, keeps the system well formed |
| CcBoard.ReplayCall | cubecell_monitoring/src/System.cpp:29-42 | one call of the replay keeps the system well formed |
| CcBoard.AfterStep | cubecell_monitoring/src/System.cpp:25-44 | each call of the replay sets exactly the next function's flag (and its EEPROM byte when saving) |
| CcBoard.ReplayStep | cubecell_monitoring/src/System.cpp:25-44 | one more call of `setFunctionAllowed` in the replay moves the flags and EEPROM one slot forward; as written, replaying the EEPROM moves no flag |
| CcBoard.ReplayedFlags | cubecell_monitoring/src/System.cpp:25-44 | after the first `k` calls the flags of those functions hold their wanted value and the others are unchanged, except that as written a replay of the EEPROM leaves every flag as it was; the EEPROM is untouched when read, saved for those functions when written |
| CcBoard.EepromLoaded | cubecell_monitoring/src/System.cpp:23-45 | loading the flags as written keeps the system well formed |
| CcBoard.EepromBlock | cubecell_monitoring/src/System.cpp:23-45 | the EEPROM block of `begin`, with either flag storage, keeps the system well formed |
| CcBoard.EepromLoadedIntended | cubecell_monitoring/src/System.cpp:23-45 | loading the flags with the corrected storage keeps the system well formed |
| CcBoard.BeginKeepsCompiledFlags | cubecell_monitoring/src/System.cpp:35-44 | as written, with the EEPROM version current the flags keep their compiled-in values and the EEPROM is not written |
| CcBoard.ReplayUsesStoredByte | cubecell_monitoring/src/System.cpp:35-44 | as written, each call of the replay passes the function's stored byte with `save` false |
| CcBoard.BeginRestoresFlagsIntended | cubecell_monitoring/src/System.cpp:35-44 | corrected, with the EEPROM version current every flag is read back from its byte and the EEPROM is not written |
| CcBoard.BeginSavesFlags | cubecell_monitoring/src/System.cpp:25-34 | with another version, under either flag storage, the flags in memory are kept, each saved to its byte, the version written, and the rest of the EEPROM untouched |
| CcBoard.BeginRoundTripIntended | cubecell_monitoring/src/System.cpp:23-45 | corrected, a first boot saves the flags so that the next boot restores the same flags |
| CcBoard.BeginForgetsSavedFlag | cubecell_monitoring/src/System.cpp:23-45 | as written, a flag stored as disallowed whose compiled value is allowed comes back allowed at boot; corrected, it comes back disallowed |
| CcBoard.LoadEeprom | cubecell_monitoring/src/System.cpp:23-45 | the system, charger and pipeline become those of `EepromLoaded`, the load as written |
| CcBoard.SendsDueIff | cubecell_monitoring/src/System.cpp:128-133 | the pipeline is called exactly when a timer expired or a report is forced; a forced report is always among those asked; the status only on its timer |
| CcBoard.Restarts | cubecell_monitoring/src/System.cpp:137-147 | exactly the expired timers are restarted |
| CcBoard.UpdateSends | cubecell_monitoring/src/System.cpp:128-148 | the send part of `update` keeps the system well formed and its flags |
| CcBoard.SendsCleared | cubecell_monitoring/src/System.cpp:134-147 | clearing the force flags leaves the pipeline and the function flags as they were |
| CcBoard.UpdateSendsFollowsPlan | cubecell_monitoring/src/System.cpp:128-148 | nothing happens when nothing is due; otherwise the pipeline runs the sends `SendsDue` chose and the force flags are cleared |
| CcBoard.UpdateSendsClearsForce | cubecell_monitoring/src/System.cpp:128-148 | after the send part both force flags are clear, and a telemetry forced alone sends just the telemetry |
| CcBoard.SendDue | cubecell_monitoring/src/System.cpp:128-148 | the pipeline and system become those of `UpdateSends` |
| CcBoard.SendsDone | cubecell_monitoring/src/System.cpp:134-147 | the force flags are cleared and the expired timers restarted |
| CcBoard.RelaysOffWhenUnpowered | cubecell_monitoring/src/System.cpp:103-111 | with the charger's output off both relays end off, relay 2 switched first, each switch reported and relay 2 forcing a telemetry; with it on nothing changes |
| CcCommunication.ChannelWait | cubecell_monitoring/src/Communication.cpp:74-79 | the retry counter of the status-check loop ends one past the first free sample, and at six when all five are busy |
| CcCommunication.Frame | cubecell_monitoring/src/Communication.cpp:97-107 | the frame on the air is the 3-byte LoRa-APRS prefix then the encoding cut to its `uint8_t` size, and fits the radio buffer |
| CcCommunication.SendStep | cubecell_monitoring/src/Communication.cpp:66-126 | a send keeps the setup and the pipeline's other fields, and succeeds exactly when the status loop did not give up and the encoding is not empty modulo 256 |
| CcCommunication.SendGivesUpIff | cubecell_monitoring/src/Communication.cpp:74-84 | as written, `send` gives up exactly when the fifth sample is the first free one, and transmits when all five are busy |
| CcCommunication.ChannelClearIntended | cubecell_monitoring/src/Communication.cpp:74-84 | the intended check goes on exactly when some sample is free |
| CcCommunication.ChannelCheckDiscrepancy | cubecell_monitoring/src/Communication.cpp:74-84 | the counter test as written and the intended check disagree on "four busy then free" and on "all busy" |
| CcCommunication.ChannelCheckAgreesOtherwise | cubecell_monitoring/src/Communication.cpp:74-84 | those two inputs are the only ones on which they disagree |
| CcCommunication.BackoffWaits | cubecell_monitoring/src/Communication.cpp:75-79 | the loop waits 2500 ms per busy sample, feeding the inner watchdog twice per wait when it is enabled, and never resets the board |
| CcCommunication.SendErrors | cubecell_monitoring/src/Communication.cpp:81-95 | giving up on the channel counts one error; otherwise the count is kept; a failed send leaves the LED off and a successful one leaves it red |
| CcCommunication.FrameIsPrefixed | cubecell_monitoring/src/Communication.cpp:97-109 | every frame a send transmits is the prefix and the truncated encoding, shorter than the radio buffer |
| CcCommunication.PacketsAppend | cubecell_monitoring/src/Communication.cpp:66-126 | the packets handed to the encoder over two pieces of a log add up |
| CcCommunication.SendPackets | cubecell_monitoring/src/Communication.cpp:66-126 | a send only appends to the radio log, and hands the packet to the encoder exactly when the channel check passed |
| CcCommunication.Analog | cubecell_monitoring/src/Communication.cpp:163-167 | a report carries five analog channels |
| CcCommunication.Bits | cubecell_monitoring/src/Communication.cpp:168-175 | a report carries eight flags |
| CcCommunication.ParamsStep | cubecell_monitoring/src/Communication.cpp:183-232 | sending the telemetry parameters keeps the setup and the pipeline's other fields |
| CcCommunication.ParamsInOrder | cubecell_monitoring/src/Communication.cpp:222-231 | the parameter frames go Label, Unit, Equation, and the result says whether any of them was sent |
| CcCommunication.PendingParamsStep | cubecell_monitoring/src/Communication.cpp:152-155 | the pending parameters keep the sequence number and the setup |
| CcCommunication.ReportStep | cubecell_monitoring/src/Communication.cpp:157-178 | the telemetry report keeps the setup |
| CcCommunication.TelemetryStep | cubecell_monitoring/src/Communication.cpp:147-181 | `sendTelemetry` keeps the setup |
| CcCommunication.TelemetryNumbering | cubecell_monitoring/src/Communication.cpp:147-181 | the report takes the next number modulo 2^16, the parameters stay pending exactly when none was sent, and the result is true exactly when the parameters or the report went out |
| CcCommunication.TelemetryAfterParams | cubecell_monitoring/src/Communication.cpp:147-181 | the pending parameter frames go before the report, which carries the old sequence number when the channel was clear |
| CcCommunication.PositionPacketOf | cubecell_monitoring/src/Communication.cpp:252-276 | the position carries telemetry exactly when the weather sensors fail, then numbered once more, and weather exactly when the pressure is positive |
| CcCommunication.PositionNext | cubecell_monitoring/src/Communication.cpp:252-273 | a position consumes one sequence number, or two when it carries telemetry |
| CcCommunication.PositionStep | cubecell_monitoring/src/Communication.cpp:234-283 | `sendPosition` keeps the setup |
| CcCommunication.PositionNumbering | cubecell_monitoring/src/Communication.cpp:234-283 | the sequence number advances by one or two modulo 2^16, the position packet is the only one handed over, and the comment argument is ignored |
| CcCommunication.SentComm | cubecell_monitoring/src/Communication.cpp:299-309 | `sent` only appends to the radio log and restarts the TX watchdog |
| CcCommunication.RoutedStep | cubecell_monitoring/src/Communication.cpp:331-360 | routing a decoded frame keeps a valid state; the routing itself, apart from the command it runs, changes no flag |
| CcCommunication.ReceivedStep | cubecell_monitoring/src/Communication.cpp:311-368 | receiving a frame keeps a valid state |
| CcCommunication.MessageForMeAnswered | cubecell_monitoring/src/Communication.cpp:336-345 | a message for this station with a text is acknowledged (even with an empty ack id), the command is run, and "OK" or "KO" is sent back; no other frame is sent by the routing itself |
| CcCommunication.DigipeatOnlyWhenAllowed | cubecell_monitoring/src/Communication.cpp:346-360 | another frame is digipeated exactly when the digipeater function is allowed and the library says it can be; otherwise nothing happens |
| CcCommunication.ReceivedRearms | cubecell_monitoring/src/Communication.cpp:311-368 | an undecodable frame counts no error and re-arms receive; whenever nothing is sent, receive is re-armed and the LED is off |
| CcCommunication.StatusDue | cubecell_monitoring/src/Communication.cpp:53-55 | the status part of `update` keeps the setup |
| CcCommunication.PositionDue | cubecell_monitoring/src/Communication.cpp:57-59 | the position part of `update` keeps the setup |
| CcCommunication.TelemetryDue | cubecell_monitoring/src/Communication.cpp:61-63 | the telemetry part of `update` keeps the setup |
| CcCommunication.UpdateStep | cubecell_monitoring/src/Communication.cpp:50-64 | `update` keeps the setup |
| CcCommunication.UpdateGated | cubecell_monitoring/src/Communication.cpp:50-64 | with both APRS functions disallowed, or nothing due, `update` changes nothing |
| CcCommunication.UpdateStatusBeforePosition | cubecell_monitoring/src/Communication.cpp:50-64 | when both are due the status goes out before the position |
| CcCommunication.Communication.constructor | cubecell_monitoring/src/Communication.cpp:5-24 | no parameters pending, sequence number 0, nothing sent |
| CcCommunication.Communication.WaitForChannel | cubecell_monitoring/src/Communication.cpp:74-79 | the loop ends with the counter of `ChannelWait`, having waited after each busy sample |
| CcCommunication.Communication.WriteFrame | cubecell_monitoring/src/Communication.cpp:97-104 | the buffer starts with the prefix and then the encoding |
| CcCommunication.Communication.Send | cubecell_monitoring/src/Communication.cpp:66-126 | the result and the new states are those of `SendStep` |
| CcCommunication.Communication.SendMessage | cubecell_monitoring/src/Communication.cpp:128-145 | a send of the message packet |
| CcCommunication.Communication.SendTelemetryParams | cubecell_monitoring/src/Communication.cpp:183-232 | the result and the new states are those of `ParamsStep` |
| CcCommunication.Communication.SendTelemetry | cubecell_monitoring/src/Communication.cpp:147-181 | the result and the new states are those of `TelemetryStep` |
| CcCommunication.Communication.SendPendingParams | cubecell_monitoring/src/Communication.cpp:152-155 | the result and the new states are those of `PendingParamsStep` |
| CcCommunication.Communication.SendReport | cubecell_monitoring/src/Communication.cpp:157-178 | the result and the new states are those of `ReportStep` |
| CcCommunication.Communication.SendPosition | cubecell_monitoring/src/Communication.cpp:234-283 | the result and the new states are those of `PositionStep` |
| CcCommunication.Communication.SendStatus | cubecell_monitoring/src/Communication.cpp:285-297 | a send of the status packet |
| CcCommunication.Communication.Sent | cubecell_monitoring/src/Communication.cpp:299-309 | the LED is turned off and the new state is that of `SentComm` |
| CcCommunication.Communication.ResetWatchdogLoraTx | cubecell_monitoring/src/Communication.cpp:370-374 | only the TX watchdog timer is restarted |
| CcCommunication.Communication.Received | cubecell_monitoring/src/Communication.cpp:311-368 | the result and the new states are those of `ReceivedStep` |
| CcCommunication.Communication.Route | cubecell_monitoring/src/Communication.cpp:331-360 | the result and the new states are those of `RoutedStep` |
| CcCommunication.Communication.Update | cubecell_monitoring/src/Communication.cpp:50-64 | the new states are those of `UpdateStep` |
| CcCommunication.Communication.UpdateStatus | cubecell_monitoring/src/Communication.cpp:53-55 | the result and the new states are those of `StatusDue` |
| CcCommunication.Communication.UpdatePosition | cubecell_monitoring/src/Communication.cpp:57-59 | the result and the new states are those of `PositionDue` |
| CcCommunication.Communication.UpdateTelemetry | cubecell_monitoring/src/Communication.cpp:61-63 | the result and the new states are those of `TelemetryDue` |
| CcMppt.StoredMeasures | cubecell_monitoring/src/MpptMonitor.cpp:36-76 | after `k` fetches the status and the four measures hold the charger's answer exactly when their fetch was among the first `k`, and keep their old value otherwise |
| CcMppt.StoredFlags | cubecell_monitoring/src/MpptMonitor.cpp:78-125 | the same for the night, alert, 5 V output and watchdog flags and the power-off time |
| CcMppt.StoredSettings | cubecell_monitoring/src/MpptMonitor.cpp:127-158 | the same for the watchdog counter, the two thresholds and the temperature |
| CcMppt.StoredAll | cubecell_monitoring/src/MpptMonitor.cpp:36-158 | a complete fetch keeps every answer of the charger |
| CcMppt.Begun | cubecell_monitoring/src/MpptMonitor.cpp:9-19 | `begin` initialises the monitor exactly when the charger answers, and otherwise counts a serial error |
| CcMppt.UpdateNotDue | cubecell_monitoring/src/MpptMonitor.cpp:22-24 | an `update` neither forced nor due does nothing |
| CcMppt.UpdateBeginFails | cubecell_monitoring/src/MpptMonitor.cpp:26-30 | a due `update` whose `begin` fails restarts the timer, fetches nothing and counts an error |
| CcMppt.UpdateStopsAtFirstRefusal | cubecell_monitoring/src/MpptMonitor.cpp:36-158 | the fetch chain stops at the first refused fetch, keeping the answers before it, counting an error and leaving the monitor to re-initialise |
| CcMppt.UpdateSucceeds | cubecell_monitoring/src/MpptMonitor.cpp:21-191 | a complete fetch keeps every value, restarts the timer a second time, forces a report on a change of night, alert, output or watchdog, and forgives one error |
| CcMppt.WatchdogFailed | cubecell_monitoring/src/MpptMonitor.cpp:201-235 | a refused charger call counts an error, cancels the forced report and leaves the monitor to re-initialise |
| CcMppt.WatchdogTimesWritten | cubecell_monitoring/src/MpptMonitor.cpp:203-219 | writing the times either fails as every refusal does or succeeds with the system untouched |
| CcMppt.WatchdogSwitched | cubecell_monitoring/src/MpptMonitor.cpp:222-234 | switching the watchdog either fails as every refusal does, or keeps the function flags |
| CcMppt.WatchdogWritten | cubecell_monitoring/src/MpptMonitor.cpp:199-234 | `setWatchdog` on an initialised monitor fails only as every refusal does |
| CcMppt.WatchdogSet | cubecell_monitoring/src/MpptMonitor.cpp:193-245 | `setWatchdog` never changes the function flags |
| CcMppt.WatchdogSetSucceeds | cubecell_monitoring/src/MpptMonitor.cpp:193-245 | a successful `setWatchdog` enables the watchdog iff the power-off time is positive, writes the times only then, leaves it to the user iff disabled, forces a report iff state or time changes, expires the timer and forgives an error |
| CcMppt.WatchdogSetFailure | cubecell_monitoring/src/MpptMonitor.cpp:205-232 | a refused `setWatchdog` counts an error, cancels the forced report, leaves the monitor uninitialised and the user flag and timer as they were |
| CcMppt.FeedKeepsAutomatic | cubecell_monitoring/src/MpptMonitor.cpp:254-259 | feeding re-arms the watchdog for 10 s and keeps it automatic |
| CcMppt.MpptMonitor.constructor | cubecell_monitoring/src/MpptMonitor.cpp:6-7 | not initialised, not left to the user, no charger call and no timer event yet |
| CcMppt.MpptMonitor.Begin | cubecell_monitoring/src/MpptMonitor.cpp:9-19 | the monitor and system become those of `Begun` |
| CcMppt.MpptMonitor.FetchAll | cubecell_monitoring/src/MpptMonitor.cpp:36-158 | the fetches stop at the first refusal, keeping the answers before it and issuing the calls up to it |
| CcMppt.MpptMonitor.Update | cubecell_monitoring/src/MpptMonitor.cpp:21-191 | the monitor and system become those of `Updated` |
| CcMppt.MpptMonitor.FetchAndReport | cubecell_monitoring/src/MpptMonitor.cpp:36-191 | the monitor and system become those of `Fetch` |
| CcMppt.MpptMonitor.WatchdogError | cubecell_monitoring/src/MpptMonitor.cpp:205-209 | the monitor and system become those of `WatchdogFailed` |
| CcMppt.MpptMonitor.SetWatchdog | cubecell_monitoring/src/MpptMonitor.cpp:193-245 | the monitor and system become those of `WatchdogSet` |
| CcMppt.MpptMonitor.WriteWatchdog | cubecell_monitoring/src/MpptMonitor.cpp:199-245 | the monitor and system become those of `WatchdogWritten` |
| CcMppt.MpptMonitor.WriteTimes | cubecell_monitoring/src/MpptMonitor.cpp:203-219 | the monitor and system become those of `WatchdogTimesWritten` |
| CcMppt.MpptMonitor.Switch | cubecell_monitoring/src/MpptMonitor.cpp:222-244 | the monitor and system become those of `WatchdogSwitched` |
| CcMppt.MpptMonitor.SetPowerOnOff | cubecell_monitoring/src/MpptMonitor.cpp:247-252 | succeeds iff both thresholds are accepted; the power-off threshold is written only after the power-on one was |
| CcMppt.MpptMonitor.FeedWatchdog | cubecell_monitoring/src/MpptMonitor.cpp:254-259 | the watchdog is re-armed for 10 s exactly when it is enabled, not in alert and not left to the user; otherwise nothing changes |
| Charger.FirstFailure | cubecell_monitoring/src/MpptMonitor.cpp:247-252 | the index of the first refused call of a chain: every call before it was accepted |
| Charger.Evaluated | cubecell_monitoring/src/MpptMonitor.cpp:247-252 | a chain issues every call when all are accepted, and otherwise stops just after the first refusal |
| Charger.Issued | cubecell_monitoring/src/MpptMonitor.cpp:247-252 | the calls issued by a short-circuit chain are a prefix of its calls, all of them when every call is accepted |
| Charger.FirstFailureAt | cubecell_monitoring/src/MpptMonitor.cpp:247-252 | a refusal preceded only by acceptances is the first failure |
| Charger.SucceedsIffAll | cubecell_monitoring/src/MpptMonitor.cpp:247-252 | a chain succeeds exactly when every call is accepted |
| Charger.SucceedsSnoc | cubecell_monitoring/src/MpptMonitor.cpp:247-252 | adding a call to a chain succeeds exactly when the chain did and the new call is accepted |
| CcCommand.OkKo | cubecell_monitoring/src/Command.cpp:87 | the reply is "OK" exactly on success |
| CcCommand.StateReply | cubecell_monitoring/src/Command.cpp:46-60 | `OK state ` followed by 1 exactly when the relay is on, and 0 otherwise |
| CcCommand.SetCommandAsWritten | cubecell_monitoring/src/Command.cpp:114-121 | as written, `set` stores the flag numbered by the argument cut to a byte, with saving, so that EEPROM byte takes the new value whatever it holds; the reply reads the byte at the argument cast to a 32-bit `int` |
| CcCommand.SetCommandAgreesOnFlags | cubecell_monitoring/src/Command.cpp:114-121 | on the eight flags the command as written and the corrected one give the same boards and reply |
| CcCommand.SetCommandAsWrittenDiscrepancy | cubecell_monitoring/src/Command.cpp:114-121 | as written, `set 255 0` overwrites the version byte, `set 8 1` changes no flag in memory, `set 256 1` allows flag 0 but answers "KO" from byte 256, and `set 4294967301 1` (2^32 + 5) allows flag 5 and answers "OK" from byte 5 |
| CcCommand.SetCommand | cubecell_monitoring/src/Command.cpp:114-121 | the intended command keeps the system state valid |
| CcCommand.SetCommandReadsBack | cubecell_monitoring/src/Command.cpp:114-121 | the intended command stores the flag in memory and in the EEPROM, never touches the version byte, answers "OK" exactly when the function is now allowed, and refuses an unknown flag with "KO" and no change |
| CcCommand.ReplyKoOnlyOnFailure | cubecell_monitoring/src/Command.cpp:46-151 | only `dog`, `pow`, `set` and `sleep` can answer "KO" (and `time` only through the clock text); `sleep` succeeds exactly for at least one second; each relay reply shows 1 exactly when the argument read as `int64_t` is positive |
| CcCommand.RelayOnIff | cubecell_monitoring/src/Command.cpp:46-60 | a relay argument, parsed unsigned and tested through `asInt64 > 0`, switches the relay on exactly when it is positive and below 2^63; 2^63 and 2^64 - 1 switch it off |
| CcCommand.Command.constructor | cubecell_monitoring/src/Command.cpp:10-27 | the command starts with an empty response and no request |
| CcCommand.Command.DoRelay1 | cubecell_monitoring/src/Command.cpp:46-52 | relay 1 is switched on exactly when the argument read as `int64_t` is positive (so not from 2^63 up); its pin takes the opposite level, it is reported once initialised, and the reply shows the state |
| CcCommand.Command.DoRelay2 | cubecell_monitoring/src/Command.cpp:54-60 | relay 2 likewise, with the same signed test, and telemetry is forced when its state changed |
| CcCommand.Command.DoPosition | cubecell_monitoring/src/Command.cpp:68-72 | a position report is forced and the reply is "OK" |
| CcCommand.Command.DoTelemetry | cubecell_monitoring/src/Command.cpp:62-66 | a telemetry report is forced and the reply is "OK" |
| CcCommand.Command.DoTelemetryParams | cubecell_monitoring/src/Command.cpp:74-79 | the telemetry parameters and a telemetry report are both requested and the reply is "OK" |
| CcCommand.Command.DoMpptWatchdog | cubecell_monitoring/src/Command.cpp:81-88 | the charger watchdog is set to the argument truncated to 16 bits, the watchdog becomes managed by the user, and the reply says whether the charger accepted it |
| CcCommand.Command.DoMpptPower | cubecell_monitoring/src/Command.cpp:105-112 | both power thresholds are written to the charger, truncated to 16 bits, and the reply is "OK" exactly when both writes succeed |
| CcCommand.Command.DoLora | cubecell_monitoring/src/Command.cpp:90-97 | the message is sent to the APRS destination as one send would, and the reply is "OK" |
| CcCommand.Command.DoReset | cubecell_monitoring/src/Command.cpp:99-103 | a software reset is requested and the reply is "OK" |
| CcCommand.Command.DoSetTime | cubecell_monitoring/src/Command.cpp:123-130 | the clock is set to the epoch and the reply is the current time text |
| CcCommand.Command.DoSetEeprom | cubecell_monitoring/src/Command.cpp:114-121 | the boards and the reply are those of the `set` command as written |
| CcCommand.Command.DoSleep | cubecell_monitoring/src/Command.cpp:132-142 | a sleep of the time in milliseconds, truncated to 64 bits, is requested exactly for at least one second, and the reply says whether it was |
| CcCommand.Command.DoGetJson | cubecell_monitoring/src/Command.cpp:144-147 | the charger is read and reported at once, and the reply is "OK" |
| CcCommand.Command.ExecuteCharger | cubecell_monitoring/src/Command.cpp:81-147 | the reply of each charger command is its `Reply` (for `set`, the command as written), `dog` hands the watchdog to the user, and only `set` touches the radio state |
| CcCommand.Command.ExecuteOther | cubecell_monitoring/src/Command.cpp:46-151 | each other command has the reply of `LocalReply` and exactly its own effect, the relays taking the signed test of `RelayOn`; `ping` changes nothing |
| CcCommand.Command.ProcessCommand | cubecell_monitoring/src/Command.cpp:29-44 | a line shorter than three characters or refused by the parser changes nothing and fails; otherwise the command's handler runs and its reply is the response |
| CcGpio.Level | cubecell_monitoring/src/Gpio.cpp:15-19 | the pin is driven high exactly when enabled, or exactly when disabled on an inverted pin |
| CcGpio.Ldr | cubecell_monitoring/src/Gpio.cpp:43-46 | the LDR reads the alarm level exactly when its pin is low, and 0 otherwise |
| CcGpio.BoxOpenedIff | cubecell_monitoring/src/System.cpp:211-213 | the box counts as opened exactly after the first minute with the LDR pin low |
| CcGpio.Gpio.constructor | cubecell_monitoring/src/Gpio.cpp:7-11 | both relays take their initial state on their inverted pins, unreported, and the object is then initialised |
| CcGpio.Gpio.SetState | cubecell_monitoring/src/Gpio.cpp:13-29 | the pin takes the level of `Level`, and the relays are reported once initialised |
| CcGpio.Gpio.SetRelay1 | cubecell_monitoring/src/Gpio.cpp:31-33 | relay 1 takes the state, its inverted pin the opposite level, and is reported once initialised |
| CcGpio.Gpio.SetRelay2 | cubecell_monitoring/src/Gpio.cpp:35-41 | relay 2 likewise, and a change of state forces a telemetry report |
| MonConfigEntity.SetValueStep | Monitor/Monitor/Models/MqttEntity.cs:80-94 | an entity changed with acknowledgement and not forced only stages the value and tells the staging subject; otherwise the value is applied, the old one kept, the staged one cleared, and the change pushed |
| MonConfigEntity.ValueChanges | Monitor/Monitor/Models/MqttEntity.cs:51-56 | at most one notice per value event, exactly one when not filtering, and with the filter no notice whose old value equals the new one |
| MonConfigEntity.ValueChangesKeeps | Monitor/Monitor/Models/MqttEntity.cs:51-56 | an event is notified exactly when it was pushed and passes the filter |
| MonConfigEntity.StagedChanges | Monitor/Monitor/Models/MqttEntity.cs:58-63 | the staging notices are staging events that, when filtering, stage something other than the current value |
| MonConfigEntity.ConfigEntity.constructor | Monitor/Monitor/Models/MqttEntity.cs:41-49 | value and old value start as the initial value, which is then set once more: staged with acknowledgement, pushed as a change without |
| MonConfigEntity.ConfigEntity.SetValue | Monitor/Monitor/Models/MqttEntity.cs:80-94 | the new state is that of `SetValueStep` |
| MonConfigEntity.ConfigEntity.SetFromStringPayload | Monitor/Monitor/Models/MqttEntity.cs:96-108 | the payload's value (`default` for a blank payload) is set, unforced, exactly when it differs from the current value, the answer says whether it was, and the result is `PayloadStep`'s |
| MonConfigEntity.ConfigEntity.SetValueToInitialValue | Monitor/Monitor/Models/MqttEntity.cs:110-113 | an unforced set of the initial value |
| MonConfigEntity.ConfigEntity.ClearValueToChange | Monitor/Monitor/Models/MqttEntity.cs:115-118 | only the staged value is reset |
| MonConfigEntity.ConfigEntity.IsTrue | Monitor/Monitor/Models/MqttEntity.cs:120-123 | an entity with no value is never true |
| MonConfigEntity.ConfigEntity.IsFalse | Monitor/Monitor/Models/MqttEntity.cs:125-128 | an entity with no value is never false |
| MonConfigEntity.ConfigEntity.TrueFalseExclusive | Monitor/Monitor/Models/MqttEntity.cs:120-128 | an entity is never both true and false |
| MonConfigEntity.BoolEntity | Monitor/Monitor/Models/MqttEntity.cs:120-128 | a `bool` entity is true or false exactly as its value |
| MonConfigEntity.StagingKeepsValue | Monitor/Monitor/Models/MqttEntity.cs:80-87 | any number of unforced sets on an entity changed with acknowledgement never change its value, and the last one is staged |
| MonConfigEntity.PayloadIdempotent | Monitor/Monitor/Models/MqttEntity.cs:96-108 | delivering the same non-null payload twice to an entity without acknowledgement: the second delivery answers false and leaves the entity as the first left it |
| MonConfigEntity.PayloadStagedAgain | Monitor/Monitor/Models/MqttEntity.cs:82-108 | with acknowledgement the value does not move, so a differing payload answers true and is staged again on every delivery |
| MonConfigEntity.SetValueNotifies | Monitor/Monitor/Models/MqttEntity.cs:51-94 | after an applied set, the change is notified exactly when it differs from the old value |
| MonExtensions.ToHexString | Monitor/Monitor/Extensions/IntExtensions.cs:5-8 | "!" then 1 to 8 lower-case hexadecimal digits without a leading zero; "!0" exactly for 0 |
| MonExtensions.ToInteger | Monitor/Monitor/Extensions/StringExtensions.cs:20-23 | a number read is the hexadecimal value of the text without its leading "!" and surrounding white space |
| MonExtensions.HexRoundTrip | Monitor/Monitor/Extensions/StringExtensions.cs:20-23 | reading back a node number written by `ToHexString` gives it back |
| MonExtensions.ToIntegerStripsBangs | Monitor/Monitor/Extensions/StringExtensions.cs:20-23 | any number of leading "!" is accepted |
| MonExtensions.ParseNatIgnoresCase | Monitor/Monitor/Extensions/StringExtensions.cs:20-23 | hexadecimal digits are read in either case |
| MonExtensions.UpperText | Monitor/Monitor/Extensions/IntExtensions.cs:5-8 | the text with each letter upper-cased |
| MonExtensions.ToIntegerIgnoresCase | Monitor/Monitor/Extensions/StringExtensions.cs:20-23 | "!FF" and "!ff" name the same node |
| MonExtensions.ToIntegerEmpty | Monitor/Monitor/Extensions/StringExtensions.cs:20-23 | a text of "!" alone, or empty, is refused |
| MonExtensions.ParseNatRejects | Monitor/Monitor/Extensions/StringExtensions.cs:20-23 | a character that is neither a hexadecimal digit nor white space around the number is refused |
| MonExtensions.ToIntegerOverflow | Monitor/Monitor/Extensions/StringExtensions.cs:20-23 | a number beyond 32 bits is refused, with or without "!" |
| MonExtensions.FallbackText | Monitor/Monitor/Extensions/StringExtensions.cs:8-18 | the fallback is the text up to its first colon, then ": " |
| MonExtensions.ToAprsPacket | Monitor/Monitor/Extensions/StringExtensions.cs:8-18 | a text the parser accepts is parsed as it is |
| MonExtensions.ToAprsPacketFallback | Monitor/Monitor/Extensions/StringExtensions.cs:8-18 | a text the parser refuses is parsed again cut at its first colon (whole when it has none) and followed by ": " |
| MonMeshtastic.HopLimitForResponse | Monitor/Monitor/Workers/Enableables/MeshtasticApp.cs:557-582 | a request that does not say how many hops it started with is answered with the configured limit, or 7 when the device reports none |
| MonMeshtastic.HopLimitCoversRequest | Monitor/Monitor/Workers/Enableables/MeshtasticApp.cs:566-581 | an answer gets at least the hops its request used, two more when the limit allows, and never more than the larger of the limit and the hops used |
| MonMeshtastic.CommandAnswer | Monitor/Monitor/Workers/Enableables/MeshtasticApp.cs:422-432 | the answer to a command is ">" and the command text, ending with " OK" exactly when the board accepted it |
| MonMeshtastic.Unread | Monitor/Monitor/Workers/Enableables/MeshtasticApp.cs:236-239 | the rows of the reader's unread messages: every one of them, and only those, in creation order |
| MonMeshtastic.Stamped | Monitor/Monitor/Workers/Enableables/MeshtasticApp.cs:259-264 | stamping the reminded rows keeps the table's size |
| MonMeshtastic.StampedStep | Monitor/Monitor/Workers/Enableables/MeshtasticApp.cs:259-264 | the loop stamps one more row at each step and leaves the others as they were |
| MonMeshtastic.ReadCommand | Monitor/Monitor/Workers/Enableables/MeshtasticApp.cs:347-381 | `:l` keeps the table's size |
| MonMeshtastic.ReadAcceptsIndex | Monitor/Monitor/Workers/Enableables/MeshtasticApp.cs:347-381 | `:l N` reads the N-th unread message exactly when 1 <= N <= the number of unread messages, marking only it read; otherwise it answers "KO index impossible" and changes nothing |
| MonMeshtastic.ParseInt32FormatInt | Monitor/Monitor/Workers/Enableables/MeshtasticApp.cs:349 | any 32-bit number written in decimal is read back by `int.TryParse` |
| MonMeshtastic.UnreadAfterRead | Monitor/Monitor/Workers/Enableables/MeshtasticApp.cs:376-379 | marking an unread message read leaves the reader exactly one unread message fewer |
| MonMeshtastic.ReminderRepeats | Monitor/Monitor/Workers/Enableables/MeshtasticApp.cs:249-252 | as written, a reminder sent now is sent again on every later broadcast within the interval, because the test keeps messages reminded less than the interval ago |
| MonMeshtastic.ReminderDue | Monitor/Monitor/Workers/Enableables/MeshtasticApp.cs:241-277 | a broadcast from a reader is answered with a reminder exactly when one of its unread messages was reminded within the interval, and then all its unread messages are stamped |
| MonMeshtastic.StampedKeepsUnread | Monitor/Monitor/Workers/Enableables/MeshtasticApp.cs:259-264 | stamping the reminder time never changes which messages are unread |
| MonMeshtastic.OwnPacketsIgnored | Monitor/Monitor/Workers/Enableables/MeshtasticApp.cs:148-158 | a packet not decoded, or sent by this node itself, is answered by nothing |
| MonMeshtastic.CommandsReachBoard | Monitor/Monitor/Workers/Enableables/MeshtasticApp.cs:166-172 | a text to this node starting with "!" reaches the board without its leading "!" and gets exactly one answer, whatever the echo setting |
| MonMeshtastic.MeshtasticApp.constructor | Monitor/Monitor/Workers/Enableables/MeshtasticApp.cs:38-70 | the echo, mailbox and reminder settings as configured; nothing sent, no command passed on, and the mailbox as stored |
| MonMeshtastic.MeshtasticApp.DoEcho | Monitor/Monitor/Workers/Enableables/MeshtasticApp.cs:175-214 | echo handles a text to this node starting with "?" exactly when enabled, answering ">" and the text |
| MonMeshtastic.MeshtasticApp.DoCommand | Monitor/Monitor/Workers/Enableables/MeshtasticApp.cs:399-442 | a text to this node starting with "!" is passed to the board without the "!", and answered with the verdict |
| MonMeshtastic.MeshtasticApp.StampReminded | Monitor/Monitor/Workers/Enableables/MeshtasticApp.cs:259-264 | the loop stamps exactly the given rows as reminded now |
| MonMeshtastic.MeshtasticApp.ListUnread | Monitor/Monitor/Workers/Enableables/MeshtasticApp.cs:293-299 | the loop builds the listing "Msg (COUNT)" with one numbered line per unread message |
| MonMeshtastic.MeshtasticApp.Remind | Monitor/Monitor/Workers/Enableables/MeshtasticApp.cs:256-274 | the reader gets the listing, without asking for an ack, and its messages are stamped as reminded |
| MonMeshtastic.MeshtasticApp.Command | Monitor/Monitor/Workers/Enableables/MeshtasticApp.cs:286-396 | a mailbox command has the outcome of `CommandStep` |
| MonMeshtastic.MeshtasticApp.DoBbs | Monitor/Monitor/Workers/Enableables/MeshtasticApp.cs:216-397 | the mailbox has the outcome of `BbsStep` |
| MonMeshtastic.MeshtasticApp.PacketReceived | Monitor/Monitor/Workers/Enableables/MeshtasticApp.cs:128-173 | a received packet has the outcome of `ReceivedStep`: echo first, then command, then mailbox |
| MonMeshtastic.MeshtasticApp.Handle | Monitor/Monitor/Workers/Enableables/MeshtasticApp.cs:148-172 | a packet not decoded or sent by this node is ignored; otherwise echo, then command, then mailbox, the first that handles it stopping the others (the outcome of `HandleStep`) |
| MonAprsIs.ThirdPartyFrame | Monitor/Monitor/Workers/Enableables/AprsIsApp.cs:135 | the frame sent on the radio is the gateway's header "CALL>DEST,PATH:}" followed by the packet heard, its path cut to the first element then "TCPIP,CALL*", and its information field |
| MonAprsIs.ForwardedIff | Monitor/Monitor/Workers/Enableables/AprsIsApp.cs:108-144 | a packet reaches the radio exactly when it is not the gateway's own, no path element forbids it, a station was heard (always, with AlwaysTx), and it has a path and an encodable information field |
| MonAprsIs.NoGateDropped | Monitor/Monitor/Workers/Enableables/AprsIsApp.cs:119-125 | a path holding "?", "qAX", "RFONLY", "NOGATE" or "TCPXX" keeps the packet off the radio |
| MonAprsIs.Beacon | Monitor/Monitor/Workers/Enableables/AprsIsApp.cs:168-169 | the beacon is "CALL>TCPIP:)NAME" then "!" when alive or "_" when killed, and ends with "Eteint" when killed |
| MonAprsIs.AprsIsApp.constructor | Monitor/Monitor/Workers/Enableables/AprsIsApp.cs:25-80 | the callsign, destination, path and object as configured; a heard window of 30 minutes unless AlwaysTx; nothing sent |
| MonAprsIs.AprsIsApp.ComputeReceivedPacket | Monitor/Monitor/Workers/Enableables/AprsIsApp.cs:108-144 | the third-party frame is handed to the board exactly when `Forwarded` gives one |
| MonAprsIs.AprsIsApp.SendBeaconObjectPacket | Monitor/Monitor/Workers/Enableables/AprsIsApp.cs:157-185 | when logged in the beacon and a line end are sent and the answer is true unless the send throws; otherwise one more connection attempt and false |
| MonAprsIs.AprsIsApp.Stop | Monitor/Monitor/Workers/Enableables/AprsIsApp.cs:93-106 | a killed beacon first when the object is configured, then the client is disconnected |
| NodeProcess.StarRequest | src/services/process.service.ts:173-186 | "*" asks for the image exactly when the code typed is the SSTV code and SSTV is enabled; every voice answer ends with the configured sentence |
| NodeProcess.IgnoredWhenBusy | src/services/process.service.ts:159-205 | while a request runs, or once the listener has stopped, a decoded result changes nothing, and a timer tick during a request does not stop the listener |
| NodeProcess.ResetEvents | src/services/process.service.ts:163-172 | "#" only clears the code; the tone clears it and, when the voice is enabled, asks for the sentence and makes the listener busy |
| NodeProcess.StarActs | src/services/process.service.ts:173-186 | "*" clears the code, makes the listener busy, and appends exactly one request: the image exactly when the code is recognised and SSTV is enabled |
| NodeProcess.DtmfKeepsNoRepeats | src/services/process.service.ts:187-189 | a key is appended unless the code already ends with it, so the code never holds the same key twice in a row |
| NodeProcess.RepeatedCodeUnreachable | src/services/process.service.ts:173-189 | an SSTV code with the same key twice in a row can never be recognised |
| NodeProcess.DtmfListener.constructor | src/services/process.service.ts:153-158 | the listener starts with an empty code, idle, listening, and before the first (skipped) result |
| NodeProcess.DtmfListener.OnDecoded | src/services/process.service.ts:157-192 | the new state is that of `DtmfStep` |
| NodeProcess.DtmfListener.OnRequestDone | src/services/process.service.ts:167 | a finished voice or image request makes the listener idle again and changes nothing else |
| NodeProcess.DtmfListener.OnTimer | src/services/process.service.ts:194-205 | the new state is that of `TimerStep`: the listener stops and switches the radio off only when idle |
| NodeProcess.ShutdownChain | src/services/process.service.ts:92-123 | the transmitter is always released; the charger watchdog is stopped exactly when the charger stream runs and the event is not its alert; telemetry follows only a beacon that went out |
| NodeProcess.Finish | src/services/process.service.ts:126-135 | the completion ends with the exit, halts exactly outside debug mode, and logs "Stopped" exactly when the process was already stopped |
| NodeProcess.Process.constructor | src/services/process.service.ts:19-27 | not stopped (the field starts undefined), no chain running, nothing done |
| NodeProcess.Process.ExitHandler | src/services/process.service.ts:86-136 | once a chain has completed the process is finished at once; before that each call starts the shutdown chain again |
| NodeProcess.Process.ChainCompleted | src/services/process.service.ts:126-135 | a completed chain finishes the process and marks it stopped |
| NodeProcess.StoppedOnce | src/services/process.service.ts:89-135 | once stopped, a later call runs no step of the shutdown again |

## Left out

Libraries, hardware and I/O are left out. Each is represented by its answers, or not at all:

- The bodies of the APRS codec (`Aprs::encode`/`decode`/`reset`/`canBeDigipeated`) and of the KISS encoder: their code is not part of this model.
  - The encoder is a function parameter.
  - The decoded frame and the digipeat decision are inputs.
  - `System::sendToKissInterface` is recorded as an effect carrying the raw bytes.
- `CommandParser`: its parse result is an input.
- ArduinoThread, `ThreadController` and `Timer`: replaced by the assumed interval check described above. The controller's own scheduling order is not modelled.
- RadioLib and the CubeCell `Radio`, represented by the answers the firmware acts on:
  - `Communication::begin`, `changeLoRaSettings` and `startReceive` failures;
  - the interrupt callbacks that set the flag `update` reads;
  - `isChannelActive`, represented by its samples.
- mpptChg, INA3221, BME/BMP280 and DS3231: their answers are inputs.
  - The INA3221 energy task is not modelled; all its fetchers write `vb` through floats.
  - Neither is the weather task (`WeatherThread.cpp`, `cubecell_monitoring/src/WeatherSensors.cpp`).
- Floating point, because its values depend on rounding the model does not represent:
  - the temperature averaging and the Fahrenheit and feet conversions of `prepareTelemetry`/`sendPosition`;
  - the weather fields of frames;
  - the I²C temperature scaling, given as the already-truncated integer;
  - `float` settings, parsed and printed through `strtod`/`%f`, which are parameters.
- Logging, `printSettings`, `printJson`, `printJsonSystem` and the JSON writer: these are output only. `printJson` requests are recorded as effects.
- Time keeping and sleeping:
  - `setClock`, `rtc_init`, `setTimeToInternalRtc`, `getDateTime`, `nowToString` and `setTimeFromRTcToInternalRtc`;
  - `PicoSleep`, the CubeCell `sleep` and `lowPowerHandler`.

  The current time is a parameter. A sleep request is recorded.
- Terminal actions. Reboot, DFU, `CySoftwareReset` and the board reset are recorded as planned or requested; what follows them is not modelled.
- The CubeCell `Gpio::getState`, `getAdcState` and `printJson`: raw pin reads used only for the JSON report.
- The wiring of `cubecell_monitoring/src/main.cpp` and of the rp2040 `main.cpp` beyond `delayWdt`, `ledBlink` and `clamp`: event registration with no logic of its own.
- The Monitor's hosting and plumbing: MQTT, the database service, cameras, `GpioApp`, `McuFeatureApp`, `MpptApp`, the worker lifecycle and `SystemService`.
  - `MeshtasticApp`'s recording of packets in the database.
  - Its periodic weather, power and position messages (`SendWeather`, `SendPower`, `SendPosition`) and the connection handling of `Start`/`Stop`.
  - The "No connection" exceptions thrown when the radio link is down.
  - The "KO message introuvable" reply of the mailbox, which no index accepted by the bounds check can reach.
- `MonConfigEntity.ConfigEntity.SetFromStringPayload`: `deserialize` is a function to `Option<T>` that stands for `JsonSerializer.Deserialize`. A payload it throws on is not modelled.
- The mailbox's row creation date is the parameter `now`. The date formatting `showDate` is a parameter.
- `AprsIsApp`:
  - the APRS-IS filter string;
  - the subscription that hands frames to the radio, and the `LoggedIn` event;
  - the 30-minute beacon timer wiring and the 1500 ms wait after the killed beacon;
  - the APRS-IS client itself.

  Its packets are given by sender, path and information field.
- The rest of `src/services/process.service.ts` (rxjs orchestration, audio, SSTV, SFTP) and the `web/*.php` pages. The SSTV and voice configuration is assumed present.
- `RpSettings.StrToUnsigned`: models `strtoul(s, nullptr, 0)` on a string that starts with its digits. The leading white space and sign that `strtoul` also accepts are not modelled.
- `RpEnergy.BatteryPercentage`: the value interpolated between two table points is computed in `float`. It is a parameter here, and only its bounds are stated.
- `RpEnergy.BatteryPercentage`: requires a non-zero cell count when the table is non-empty, since the source's integer division by zero has no defined result.
- `RpMain.Clamp`: stated on integers. The source's `clamp` works on `float`.
- `RpSystem.System.AddAprsFrameReceivedToHistory`: follows the corrected history update of the Findings table below; the out-of-bounds write is not modelled.
- `CcCommunication.RoutedStep`: the command a received message runs (`Communication.cpp:342`) is recorded as `RunCommand`, and its verdict is an input. Its effects are not composed here: a `set`, `pos`, `telem` or `reset` changes the system in the firmware. Those effects are `CcCommand.Command.ProcessCommand`'s, and that module builds on this one. The kept flags this member promises are those of the routing alone.
- `CcCommunication.ReceivedStep`: the same, for the received command routed inside it.
- `CcCommunication.MessageForMeAnswered`: the packets listed are those of the routing. A `lora` command sends one more message between the two, and the model does not show it.
- `CcCommunication.Communication.Received`: the same, through `ReceivedStep`.
- `CcCommunication.Communication.Route`: the same, through `RoutedStep`.
- `CcCommand.Command.DoLora`: sends with the empty acknowledgement id. The firmware passes a null pointer, and `strlen` of it has no defined result.
- `CcCommunication.Communication.SendMessage`: a missing acknowledgement id is the empty string. The firmware's null default has no defined `strlen`.
- `RpCommunication.Communication.SendMessage`: the same, for the rp2040's null default.
- `CcSystem.FlagStoredAsWritten`: when saving with a function number past the eight flags, the firmware writes past the end of `functionsAllowed`. That write is not modelled: the flags are left alone, and only the EEPROM byte is written.
- `CcSystem.System.StoreFunction`: the same, through `FlagStoredAsWritten`.
- `CcBoard.FunctionSet`: the same, through `FlagStoredAsWritten`.
- `CcCommand.SetCommandAsWritten`: the same, for `set` with a flag number from 8 to 255 (modulo 256). The reply reads the EEPROM at the argument cast to the CubeCell's 32-bit `int`. What `EEPROM.read` gives for a negative address or one past the 512 emulated bytes is outside the model: it is the input `unmappedRead`.
- `CcCommand.Command.DoSetEeprom`: the same, through `SetCommandAsWritten`.

## Findings

| source | as written | input that shows it | evidently intended | confidence | as-written member | corrected member |
|---|---|---|---|---|---|---|
| cubecell_monitoring/src/System.cpp:225-232 | `setFunctionAllowed` writes `functionsAllowed[function]` only inside `if (save)`, so a call with `save=false` changes nothing in memory | `begin` replaying a stored `false` with `save=false` leaves the flag at its compiled default `true` | the in-memory flag always takes the new value; only the EEPROM write depends on `save` | not executed | CcBoard.BeginForgetsSavedFlag | CcBoard.BeginRoundTripIntended |
| cubecell_monitoring/src/Command.cpp:114-121 | `set` truncates the flag number to a byte, writes that EEPROM byte whatever it is, and answers from the byte at the number cast to a 32-bit `int` | `set 255 0` overwrites the layout version byte; `set 256 1` writes flag 0 but answers from byte 256 | a flag number outside the eight flags is refused with "KO"; otherwise the flag is stored and read back | not executed | CcCommand.SetCommandAsWrittenDiscrepancy | CcCommand.SetCommandReadsBack |
| rp2040-lora-aprs/src/Threads/Energy/EnergyMpptChgThread.cpp:9-12 | `init` calls `setPowerOnOff(mpptPowerOffVoltage, mpptPowerOnVoltage)`, the reverse of its `(powerOn, powerOff)` parameters | power-on 12500 mV and power-off 11500 mV: the charger's ON threshold is set to 11500 | each threshold receives the setting of the same name | not executed | RpEnergy.MpptEnergyInitSwapsThresholds | RpEnergy.MpptEnergyInitOpsIntended |
| rp2040-lora-aprs/src/System.cpp:281-291 | the slot search runs past the table when every slot holds another station, and the write then lands at index 30 | thirty slots held by `F4ABC` and a frame from `F4XYZ` | with no slot free the history is left as it is | not executed | RpSystem.FullHistoryExample | RpSystem.FullHistoryIndexOutOfBounds |
| rp2040-lora-aprs/src/Command.cpp:354-359 | `set linux.watchdogEnabled 1` feeds the Meshtastic watchdog | enabling the Linux watchdog leaves it unfed and feeds the other board's | enabling a board's watchdog feeds that board's watchdog, as the Meshtastic key does at lines 249-253 | not executed | RpCommand.LinuxWatchdogEnableFeedsMeshtastic | RpCommand.WatchdogEnableFeedsItsOwnBoard |
| rp2040-lora-aprs/src/Command.cpp:694-714 | `?APRSL` formats each recent station with `sprintf` into `response`, overwriting what was accumulated | two stations heard just now: the answer names only the second | every station heard in the last two hours is named, separated by spaces | not executed | RpCommand.HeardListKeepsOnlyLast | RpCommand.HeardListNamesRecent |
