/**
 * The cooperative task framework of the rp2040 firmware: MyThread
 * (include/MyThread.h, src/MyThread.cpp) and the two intermediate task kinds
 * WatchdogThread and SendThread.
 *
 * The ArduinoThread base class is not part of this model. Its interval check
 * is assumed to be `enabled && nextRun <= time` and `runned(time)` is assumed
 * to set `nextRun := time + interval`. The subclass hooks `init()` and
 * `runOnce()` are given as their outcomes. The clock (`millis()`) is a
 * parameter; the scheduler's `time` argument and `millis()` read inside a
 * predicate are taken to be the same instant.
 */
module RpTask {
  import opened RpConfig
  import opened Ints

  /** Abstract state of a MyThread task. */
  datatype TaskState = TaskState(
    enabled: bool,
    interval: nat,
    nextRun: nat,
    force: bool,
    initiated: bool,
    lastUpdateHasError: bool,
    noLog: bool)

  /** Assumed ArduinoThread `Thread::shouldRun(time)`. */
  predicate LibraryShouldRun(s: TaskState, time: nat)
  {
    s.enabled && s.nextRun <= time
  }

  /** Assumed ArduinoThread `runned(time)`: the next run is one interval later. */
  function Runned(s: TaskState, time: nat): TaskState
  {
    s.(nextRun := time + s.interval)
  }

  /** Constructor: enabled and interval from the arguments, every flag false. */
  function NewTask(interval: nat, noLog: bool, enabled: bool, firstRun: nat): TaskState
  {
    TaskState(enabled, interval, firstRun, false, false, false, noLog)
  }

  /** `MyThread::shouldRun`: the library check, or a pending forced run. */
  predicate ShouldRun(s: TaskState, now: nat)
  {
    LibraryShouldRun(s, now) || s.force
  }

  /** Whether `begin()` goes as far as calling `init()`. */
  predicate BeginAttempted(s: TaskState)
  {
    s.enabled || s.force
  }

  /** `MyThread::begin`: result and new state, given the outcome of `init()`. */
  function BeginStep(s: TaskState, initOk: bool): (bool, TaskState)
  {
    if !BeginAttempted(s) then (false, s)
    else (initOk, s.(initiated := initOk, lastUpdateHasError := !initOk))
  }

  /** Whether `run()` reaches `runOnce()`. */
  predicate RunsOnce(s: TaskState, initOk: bool)
  {
    s.initiated || BeginStep(s, initOk).0
  }

  /** `MyThread::run`: new state, given the outcomes of `init()` and `runOnce()`. */
  function RunStep(s: TaskState, now: nat, initOk: bool, runOnceOk: bool): TaskState
  {
    var afterBegin := if s.initiated then s else BeginStep(s, initOk).1;
    if !RunsOnce(s, initOk) then Runned(afterBegin, now).(force := false)
    else Runned(afterBegin.(lastUpdateHasError := !runOnceOk), now).(force := false)
  }

  /** `MyThread::forceRun`. */
  function ForceRunStep(s: TaskState): TaskState
  {
    s.(force := true)
  }

  /** `MyThread::hasError`. */
  predicate HasError(s: TaskState)
  {
    s.lastUpdateHasError
  }

  /**
   * `MyThread::timeBeforeRun`: `_cached_next_run - millis()` computed on
   * `unsigned long` (32 bits on the RP2040), then widened to `uint64_t`.
   */
  function TimeBeforeRun(s: TaskState, now: nat): uint64
  {
    Wrap32(s.nextRun - now)
  }

  /** `MyThread::isAfterBoot`. */
  predicate IsAfterBoot(now: nat)
  {
    now > TimeAfterBoot
  }

  /** The default `MyThread::init`, used by every task that does not override it. */
  predicate DefaultInit()
  {
    true
  }

  /** `WatchdogThread::shouldRun`: the task check, and never during the boot grace period. */
  predicate WatchdogShouldRun(s: TaskState, now: nat)
  {
    ShouldRun(s, now) && now > TimeAfterBoot
  }

  /** `SendThread::shouldRun`: the task check, and only after boot. */
  predicate SendShouldRun(s: TaskState, now: nat)
  {
    ShouldRun(s, now) && IsAfterBoot(now)
  }

  /** `WatchdogThread::timeSinceFed`, on `uint64_t`. 0 means never fed. */
  function TimeSinceFed(lastFed: nat, now: nat): uint64
  {
    if lastFed > 0 then Wrap64(now - lastFed) else 0
  }

  /** `WatchdogThread::isFed`: after boot, and fed less than one interval ago. */
  predicate IsFed(lastFed: nat, interval: nat, now: nat)
  {
    now > TimeAfterBoot && TimeSinceFed(lastFed, now) < interval
  }

  // ---------------------------------------------------------------------
  // Properties of the task life cycle

  lemma NewTaskFlags(interval: nat, noLog: bool, enabled: bool, firstRun: nat)
    ensures var s := NewTask(interval, noLog, enabled, firstRun);
      !s.force && !s.initiated && !HasError(s) && s.enabled == enabled && s.interval == interval
  {
  }

  /** A forced task is due whatever time has elapsed; an unforced one follows the library. */
  lemma ForcedTaskIsDue(s: TaskState, now: nat)
    ensures s.force ==> ShouldRun(s, now)
    ensures !s.force ==> (ShouldRun(s, now) <==> LibraryShouldRun(s, now))
  {
  }

  /** `begin` on a disabled, unforced task fails and touches nothing. */
  lemma BeginRefusedWhenDisabled(s: TaskState, initOk: bool)
    requires !s.enabled && !s.force
    ensures BeginStep(s, initOk) == (false, s)
  {
  }

  /** Otherwise `begin` reports `init()` and records it in `initiated` and the error flag. */
  lemma BeginRecordsInit(s: TaskState, initOk: bool)
    requires s.enabled || s.force
    ensures BeginStep(s, initOk).0 == initOk
    ensures BeginStep(s, initOk).1.initiated == initOk
    ensures HasError(BeginStep(s, initOk).1) == !initOk
  {
  }

  /** Every path through `run` clears `force`, marks the task run and keeps its configuration. */
  lemma RunClearsForceAndMarksRun(s: TaskState, now: nat, initOk: bool, runOnceOk: bool)
    ensures var t := RunStep(s, now, initOk, runOnceOk);
      !t.force && t.nextRun == now + s.interval
      && t.enabled == s.enabled && t.interval == s.interval && t.noLog == s.noLog
  {
  }

  /**
   * When `run` reaches `runOnce`, the error flag is exactly its failure and the
   * task is initiated afterwards; otherwise `runOnce` is skipped, the task stays
   * uninitiated, and the error flag is set if `init()` failed or kept if
   * `begin` refused to call it.
   */
  lemma RunErrorFlag(s: TaskState, now: nat, initOk: bool, runOnceOk: bool)
    ensures var t := RunStep(s, now, initOk, runOnceOk);
      if RunsOnce(s, initOk) then t.initiated && HasError(t) == !runOnceOk
      else !t.initiated && (if BeginAttempted(s) then HasError(t) else HasError(t) == HasError(s))
  {
  }

  /** A default task (`init()` always succeeds) that may run is initiated by its first run. */
  lemma DefaultInitTaskRunsOnce(s: TaskState, now: nat, runOnceOk: bool)
    requires s.enabled || s.force
    ensures RunsOnce(s, DefaultInit())
    ensures RunStep(s, now, DefaultInit(), runOnceOk).initiated
  {
  }

  /** `forceRun` sets `force` and changes nothing else; the task is then due. */
  lemma ForceRunOnlySetsForce(s: TaskState, now: nat)
    ensures ForceRunStep(s) == s.(force := true)
    ensures ShouldRun(ForceRunStep(s), now)
  {
  }

  /** `timeBeforeRun` is the remaining time while the task is not due, and wraps to a huge value once it is overdue. */
  lemma TimeBeforeRunWraps(s: TaskState, now: nat)
    requires now <= s.nextRun < now + TwoTo32 || s.nextRun < now < s.nextRun + TwoTo32
    ensures now <= s.nextRun ==> TimeBeforeRun(s, now) == s.nextRun - now
    ensures s.nextRun < now ==> TimeBeforeRun(s, now) == TwoTo32 - (now - s.nextRun)
  {
  }

  // ---------------------------------------------------------------------
  // WatchdogThread and SendThread gates

  /** A watchdog task, even forced, never runs during the boot grace period; after it, the task check decides. */
  lemma WatchdogBootGate(s: TaskState, now: nat)
    ensures now <= TimeAfterBoot ==> !WatchdogShouldRun(s, now)
    ensures now > TimeAfterBoot ==> (WatchdogShouldRun(s, now) <==> ShouldRun(s, now))
  {
  }

  /** A send task, even forced, waits for the boot grace period, and never runs when the task check says no. */
  lemma SendBootGate(s: TaskState, now: nat)
    ensures !IsAfterBoot(now) ==> !SendShouldRun(s, now)
    ensures !ShouldRun(s, now) ==> !SendShouldRun(s, now)
    ensures IsAfterBoot(now) ==> (SendShouldRun(s, now) <==> ShouldRun(s, now))
  {
  }

  /** `timeSinceFed` is 0 when never fed, otherwise the time elapsed since feeding. */
  lemma TimeSinceFedElapsed(lastFed: nat, now: nat)
    requires lastFed <= now < TwoTo64
    ensures lastFed == 0 ==> TimeSinceFed(lastFed, now) == 0
    ensures lastFed > 0 ==> TimeSinceFed(lastFed, now) == now - lastFed
  {
  }

  /** `isFed` is false during the boot grace period, even if fed then; afterwards it compares `timeSinceFed` with the interval. */
  lemma IsFedBootGate(lastFed: nat, interval: nat, now: nat)
    ensures now <= TimeAfterBoot ==> !IsFed(lastFed, interval, now)
    ensures now > TimeAfterBoot ==> (IsFed(lastFed, interval, now) <==> TimeSinceFed(lastFed, now) < interval)
  {
  }

  /** A watchdog that was never fed reports itself fed once the boot grace period is over (for a non-zero interval). */
  lemma NeverFedIsFedAfterBoot(interval: nat, now: nat)
    requires interval > 0 && now > TimeAfterBoot
    ensures IsFed(0, interval, now)
  {
  }

  /** The task object: the MyThread fields updated in place. */
  class Task {
    var enabled: bool
    var interval: nat
    var nextRun: nat
    var force: bool
    var initiated: bool
    var lastUpdateHasError: bool
    const noLog: bool

    function State(): TaskState
      reads this
    {
      TaskState(enabled, interval, nextRun, force, initiated, lastUpdateHasError, noLog)
    }

    constructor (interval: nat, noLog: bool, enabled: bool, firstRun: nat)
      ensures State() == NewTask(interval, noLog, enabled, firstRun)
    {
      this.enabled := enabled;
      this.interval := interval;
      this.nextRun := firstRun;
      this.noLog := noLog;
      force := false;
      initiated := false;
      lastUpdateHasError := false;
    }

    predicate ShouldRunNow(now: nat)
      reads this
      ensures ShouldRunNow(now) == ShouldRun(State(), now)
    {
      (enabled && nextRun <= now) || force
    }

    method Begin(initOk: bool) returns (ok: bool)
      modifies this
      ensures (ok, State()) == BeginStep(old(State()), initOk)
    {
      if !enabled && !force {
        return false;
      }
      initiated := initOk;
      if initiated {
        lastUpdateHasError := false;
      } else {
        lastUpdateHasError := true;
      }
      ok := initiated;
    }

    method Run(now: nat, initOk: bool, runOnceOk: bool)
      modifies this
      ensures State() == RunStep(old(State()), now, initOk, runOnceOk)
    {
      var begun := true;
      if !initiated {
        begun := Begin(initOk);
      }
      if !begun {
        nextRun := now + interval;
        force := false;
        return;
      }
      if runOnceOk {
        lastUpdateHasError := false;
      } else {
        lastUpdateHasError := true;
      }
      nextRun := now + interval;
      force := false;
    }

    method ForceRun()
      modifies this`force
      ensures State() == ForceRunStep(old(State()))
    {
      force := true;
    }

    /** `setRunned`: marks the task run without touching `force` or the error flag. */
    method SetRunned(now: nat)
      modifies this`nextRun
      ensures State() == Runned(old(State()), now)
    {
      nextRun := now + interval;
    }
  }
}
