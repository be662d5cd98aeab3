/**
 * The three watchdog tasks of the rp2040 firmware
 * (src/Threads/Watchdog/): a master watchdog that power-cycles a board
 * through an output pin when that board stops feeding it, a slave watchdog
 * that reboots the firmware when no LoRa frame was sent for too long, and a
 * slave watchdog that keeps feeding the MPPT charger's own watchdog.
 *
 * Each task is the task framework of module RpTask plus the state below.
 * The pin's recorded state stands for `GpioPin::getState` of the output pin
 * driven by the master watchdog; the outcomes of charger calls and of the
 * sleep timer (`Timer`, not part of this model) are inputs.
 */
module RpWatchdogs {
  import opened RpConfig
  import opened Ints
  import opened RpTask
  import opened Charger

  /** WatchdogThread's constructor: interval and enabled forwarded, `noLog` false. */
  function NewWatchdogTask(interval: nat, enabled: bool, firstRun: nat): (t: TaskState)
    ensures t.interval == interval && t.enabled == enabled && !t.noLog
    ensures !t.force && !t.initiated && !t.lastUpdateHasError
  {
    NewTask(interval, false, enabled, firstRun)
  }

  // =====================================================================
  // WatchdogMasterPinThread

  datatype MasterPinState = MasterPinState(
    pin: bool,             // recorded state of the controlled output
    writes: seq<bool>,     // every state written to the pin, oldest first
    wantToSleep: bool,
    hasFed: bool,
    lastFed: nat,
    sleepInterval: nat,    // interval of timerSleep
    sleepStartedAt: nat)   // last timerSleep.restart()

  /** Initial fields: not sleeping, never fed. */
  function NewMasterPin(pin: bool): (s: MasterPinState)
    ensures !s.wantToSleep && !s.hasFed && s.lastFed == 0 && s.writes == []
  {
    MasterPinState(pin, [], false, false, 0, 0, 0)
  }

  /** The controlled board is powered unless a sleep is in progress. */
  predicate PoweredUnlessSleeping(s: MasterPinState)
  {
    s.wantToSleep || s.pin
  }

  function WritePin(s: MasterPinState, v: bool): MasterPinState
  {
    s.(pin := v, writes := s.writes + [v])
  }

  /** `init`: drives the pin HIGH and succeeds. */
  function MasterInit(s: MasterPinState): (r: (bool, MasterPinState))
    ensures r.0 && r.1.pin && PoweredUnlessSleeping(r.1)
    ensures r.1.writes == s.writes + [true]
  {
    (true, WritePin(s, true))
  }

  /**
   * `runOnce` at time `now`; `sleepExpired` is `timerSleep.hasExpired()`.
   * It always succeeds and keeps the controlled board powered unless a
   * sleep is in progress.
   */
  function MasterRunOnce(s: MasterPinState, now: nat, sleepExpired: bool): (r: (bool, MasterPinState))
    ensures r.0
    ensures PoweredUnlessSleeping(s) ==> PoweredUnlessSleeping(r.1)
    ensures r.1.lastFed == s.lastFed && r.1.sleepInterval == s.sleepInterval
  {
    if s.wantToSleep then
      if s.pin then (true, WritePin(s, false).(sleepStartedAt := now))
      else if sleepExpired then (true, WritePin(s, true).(wantToSleep := false, hasFed := false))
      else (true, s)
    else if s.hasFed then (true, s.(hasFed := false))
    else if !s.pin then (true, s)
    else (true, WritePin(WritePin(s, false), true))
  }

  /** `feed`: records the feeding time and succeeds. */
  function MasterFeed(s: MasterPinState, now: nat): (r: (bool, MasterPinState))
    ensures r.0 && r.1.hasFed && r.1.lastFed == now
    ensures r.1.pin == s.pin && r.1.writes == s.writes && r.1.wantToSleep == s.wantToSleep
  {
    (true, s.(hasFed := true, lastFed := now))
  }

  /** `sleep(ms)`: only arms the sleep; the pin is untouched. */
  function MasterSleep(s: MasterPinState, ms: uint64): (r: MasterPinState)
    ensures r.wantToSleep && r.sleepInterval == ms
    ensures r.pin == s.pin && r.writes == s.writes && r.hasFed == s.hasFed
  {
    s.(sleepInterval := ms, wantToSleep := true)
  }

  /** A fed dog consumes the feeding and writes nothing; a hungry one pulses the pin LOW then HIGH. */
  lemma MasterFeedingDecidesPulse(s: MasterPinState, now: nat, expired: bool)
    requires !s.wantToSleep && PoweredUnlessSleeping(s)
    ensures var t := MasterRunOnce(s, now, expired).1;
      if s.hasFed then !t.hasFed && t.writes == s.writes && t.pin
      else t.writes == s.writes + [false, true] && t.pin
  {
  }

  /** Outside a sleep, the "not fed but pin already low" branch is unreachable under the invariant. */
  lemma MasterNoLowPinWhenAwake(s: MasterPinState)
    requires PoweredUnlessSleeping(s) && !s.wantToSleep
    ensures s.pin
  {
  }

  /**
   * A whole sleep: once armed, the next run switches the board off and
   * starts the timer; the run at which the timer has expired switches it
   * back on, ends the sleep and forgets any feeding.
   */
  lemma {:induction false} MasterSleepCycle(s: MasterPinState, ms: uint64, t1: nat, t2: nat)
    requires s.pin
    ensures var armed := MasterSleep(s, ms);
      var off := MasterRunOnce(armed, t1, false).1;
      var waiting := MasterRunOnce(off, t2, false).1;
      var on := MasterRunOnce(off, t2, true).1;
      !off.pin && off.wantToSleep && off.sleepStartedAt == t1 && off.sleepInterval == ms
      && waiting == off
      && on.pin && !on.wantToSleep && !on.hasFed && on.writes == s.writes + [false, true]
  {
    var armed := MasterSleep(s, ms);
    var off := MasterRunOnce(armed, t1, false).1;
    assert off == WritePin(armed, false).(sleepStartedAt := t1);
    var on := MasterRunOnce(off, t2, true).1;
    assert on == WritePin(off, true).(wantToSleep := false, hasFed := false);
    assert on.writes == s.writes + [false] + [true];
  }

  class MasterPinWatchdog {
    var pin: bool
    var writes: seq<bool>
    var wantToSleep: bool
    var hasFed: bool
    var lastFed: nat
    var sleepInterval: nat
    var sleepStartedAt: nat

    function State(): MasterPinState
      reads this
    {
      MasterPinState(pin, writes, wantToSleep, hasFed, lastFed, sleepInterval, sleepStartedAt)
    }

    predicate Valid()
      reads this
    {
      PoweredUnlessSleeping(State())
    }

    constructor (pin: bool)
      ensures State() == NewMasterPin(pin)
    {
      this.pin := pin;
      writes := [];
      wantToSleep := false;
      hasFed := false;
      lastFed := 0;
      sleepInterval := 0;
      sleepStartedAt := 0;
    }

    method SetPin(v: bool)
      modifies this
      ensures State() == WritePin(old(State()), v)
    {
      pin := v;
      writes := writes + [v];
    }

    method Init() returns (ok: bool)
      modifies this
      ensures (ok, State()) == MasterInit(old(State()))
      ensures Valid()
    {
      SetPin(true);
      ok := true;
    }

    method RunOnce(now: nat, sleepExpired: bool) returns (ok: bool)
      requires Valid()
      modifies this
      ensures (ok, State()) == MasterRunOnce(old(State()), now, sleepExpired)
      ensures Valid()
    {
      if wantToSleep {
        if pin {
          SetPin(false);
          sleepStartedAt := now;
        } else if sleepExpired {
          SetPin(true);
          wantToSleep := false;
          hasFed := false;
        }
        return true;
      }
      if hasFed {
        hasFed := false;
        return true;
      }
      if !pin {
        return true;
      }
      SetPin(false);
      SetPin(true);
      ok := true;
    }

    method Feed(now: nat) returns (ok: bool)
      modifies this
      ensures (ok, State()) == MasterFeed(old(State()), now)
      ensures Valid() == old(Valid())
    {
      hasFed := true;
      lastFed := now;
      ok := true;
    }

    method Sleep(ms: uint64)
      modifies this
      ensures State() == MasterSleep(old(State()), ms)
      ensures Valid()
    {
      sleepInterval := ms;
      wantToSleep := true;
    }
  }

  // =====================================================================
  // WatchdogSlaveLoraTxThread

  /** Feeding state and the number of reboots planned (`planReboot`). */
  datatype LoraTxState = LoraTxState(hasFed: bool, lastFed: nat, reboots: nat)

  /** Constructor: interval `intervalTimeoutWatchdogTx`, enabled `watchdogTxEnabled`. */
  function LoraTxTask(intervalTimeoutWatchdogTx: uint64, watchdogTxEnabled: bool, firstRun: nat): (t: TaskState)
    ensures t.interval == intervalTimeoutWatchdogTx && t.enabled == watchdogTxEnabled && !t.noLog
  {
    NewWatchdogTask(intervalTimeoutWatchdogTx, watchdogTxEnabled, firstRun)
  }

  /** `feed`: records the feeding time and succeeds. */
  function LoraTxFeed(s: LoraTxState, now: nat): (r: (bool, LoraTxState))
    ensures r.0 && r.1.hasFed && r.1.lastFed == now && r.1.reboots == s.reboots
  {
    (true, s.(hasFed := true, lastFed := now))
  }

  /** `runOnce`, with `txEnabled` = `settings.lora.txEnabled`; always succeeds. */
  function LoraTxRunOnce(s: LoraTxState, txEnabled: bool): (r: (bool, LoraTxState))
    ensures r.0 && !r.1.hasFed && r.1.lastFed == s.lastFed
    ensures r.1.reboots == s.reboots + (if !s.hasFed && txEnabled then 1 else 0)
  {
    if s.hasFed then (true, s.(hasFed := false))
    else if !txEnabled then (true, s)
    else (true, s.(reboots := s.reboots + 1))
  }

  /**
   * A feeding covers exactly one run: a run right after a feed plans no
   * reboot, while two runs with no feed in between plan one when TX is on.
   */
  lemma LoraTxFeedCoversOneRun(s: LoraTxState, now: nat, txEnabled: bool)
    ensures LoraTxRunOnce(LoraTxFeed(s, now).1, txEnabled).1.reboots == s.reboots
    ensures var twice := LoraTxRunOnce(LoraTxRunOnce(s, txEnabled).1, txEnabled).1;
      twice.reboots == s.reboots + (if txEnabled then 1 else 0) + (if !s.hasFed && txEnabled then 1 else 0)
  {
  }

  class LoraTxWatchdog {
    var hasFed: bool
    var lastFed: nat
    var reboots: nat

    function State(): LoraTxState
      reads this
    {
      LoraTxState(hasFed, lastFed, reboots)
    }

    constructor ()
      ensures State() == LoraTxState(false, 0, 0)
    {
      hasFed := false;
      lastFed := 0;
      reboots := 0;
    }

    method RunOnce(txEnabled: bool) returns (ok: bool)
      modifies this
      ensures (ok, State()) == LoraTxRunOnce(old(State()), txEnabled)
    {
      if hasFed {
        hasFed := false;
        return true;
      }
      if !txEnabled {
        return true;
      }
      reboots := reboots + 1;
      ok := true;
    }

    method Feed(now: nat) returns (ok: bool)
      modifies this
      ensures (ok, State()) == LoraTxFeed(old(State()), now)
    {
      hasFed := true;
      lastFed := now;
      ok := true;
    }
  }

  // =====================================================================
  // WatchdogSlaveMpptChgThread

  /** `settings.mpptWatchdog` fields used by the task. */
  datatype MpptDogConfig = MpptDogConfig(enabled: bool, timeout: uint64, intervalFeed: uint64, timeOff: uint16)

  /** Task state, feeding state, who manages the charger's dog, and the charger calls issued so far. */
  datatype MpptDogState = MpptDogState(
    task: TaskState,
    hasFed: bool,
    lastFed: nat,
    managedByUser: bool,
    issued: seq<Op>)

  /** Constructor: interval `intervalFeed`, enabled from the settings; the dog is managed by the firmware. */
  function NewMpptDog(c: MpptDogConfig, firstRun: nat): (s: MpptDogState)
    ensures s.task.interval == c.intervalFeed && s.task.enabled == c.enabled
    ensures !s.managedByUser && !s.hasFed && s.lastFed == 0 && s.issued == []
  {
    MpptDogState(NewWatchdogTask(c.intervalFeed, c.enabled, firstRun), false, 0, false, [])
  }

  /** The calls of `init`, in order. */
  function InitOps(c: MpptDogConfig): seq<Op>
  {
    [Op.Begin, SetWatchdogPoweroff(c.timeOff), SetWatchdogTimeout(c.timeout), SetWatchdogEnable(c.enabled)]
  }

  /**
   * `MyThread::begin` of this task, whose `init` is the chain `InitOps`
   * answered by `initAnswers`.
   */
  function MpptBegin(s: MpptDogState, c: MpptDogConfig, initAnswers: seq<bool>): (r: (bool, MpptDogState))
    requires |initAnswers| == 4
    ensures r.0 <==> BeginAttempted(s.task) && Succeeds(initAnswers)
    ensures r.1.hasFed == s.hasFed && r.1.lastFed == s.lastFed && r.1.managedByUser == s.managedByUser
  {
    if !BeginAttempted(s.task) then (false, s)
    else
      var b := BeginStep(s.task, Succeeds(initAnswers));
      (b.0, s.(task := b.1, issued := s.issued + Issued(InitOps(c), initAnswers)))
  }

  /** The guard `!initiated && !begin()` shared by `feed` and `setManagedByUser`: true when the task is ready. */
  function MpptReady(s: MpptDogState, c: MpptDogConfig, initAnswers: seq<bool>): (r: (bool, MpptDogState))
    requires |initAnswers| == 4
    ensures r.0 ==> r.1.task.initiated
    ensures r.1.hasFed == s.hasFed && r.1.lastFed == s.lastFed && r.1.managedByUser == s.managedByUser
  {
    if s.task.initiated then (true, s) else MpptBegin(s, c, initAnswers)
  }

  /** `feed`: `timeoutOk` answers the timeout write. */
  function MpptFeed(s: MpptDogState, c: MpptDogConfig, now: nat, initAnswers: seq<bool>, timeoutOk: bool): (r: (bool, MpptDogState))
    requires |initAnswers| == 4
    ensures r.0 <==> MpptReady(s, c, initAnswers).0 && timeoutOk
    ensures r.0 ==> r.1.hasFed && r.1.lastFed == now
    ensures !r.0 ==> r.1.hasFed == s.hasFed && r.1.lastFed == s.lastFed
    ensures r.1.managedByUser == s.managedByUser
  {
    var (ready, s1) := MpptReady(s, c, initAnswers);
    if !ready then (false, s1)
    else
      var s2 := s1.(issued := s1.issued + [SetWatchdogTimeout(c.timeout)]);
      if !timeoutOk then (false, s2)
      else (true, s2.(hasFed := true, lastFed := now))
  }

  /** `runOnce`: clears `hasFed`, then feeds unless the user manages the charger's dog. */
  function MpptRunOnce(s: MpptDogState, c: MpptDogConfig, now: nat, initAnswers: seq<bool>, timeoutOk: bool): (r: (bool, MpptDogState))
    requires |initAnswers| == 4
    ensures s.managedByUser ==> r == (true, s.(hasFed := false))
    ensures !s.managedByUser ==> r == MpptFeed(s.(hasFed := false), c, now, initAnswers, timeoutOk)
  {
    var s1 := s.(hasFed := false);
    if s1.managedByUser then (true, s1) else MpptFeed(s1, c, now, initAnswers, timeoutOk)
  }

  /** The calls of `setManagedByUser(ms)` for a time other than 0 and 1. */
  function UserDogOps(ms: uint64): seq<Op>
  {
    [SetWatchdogPoweroff(ms), SetWatchdogTimeout(10), SetWatchdogEnable(true)]
  }

  /**
   * `setManagedByUser(ms)`.  `answers` are the charger's answers to the
   * calls made after the readiness check: the first one only for 0 (the
   * enable write) and 1 (the timeout write of `feed`), all three for
   * `UserDogOps`.
   */
  function MpptSetManagedByUser(s: MpptDogState, c: MpptDogConfig, now: nat, ms: uint64, initAnswers: seq<bool>, answers: seq<bool>): (r: (bool, MpptDogState))
    requires |initAnswers| == 4 && |answers| == 3
  {
    var (ready, s1) := MpptReady(s, c, initAnswers);
    if !ready then (false, s1)
    else if ms == 0 then
      (answers[0], s1.(managedByUser := true, issued := s1.issued + [SetWatchdogEnable(false)]))
    else if ms == 1 then
      MpptFeed(s1.(managedByUser := false), c, now, initAnswers, answers[0])
    else
      (Succeeds(answers), s1.(managedByUser := true, issued := s1.issued + Issued(UserDogOps(ms), answers)))
  }

  /** `init` succeeds iff the four calls succeed; they are issued in order, up to the first refusal. */
  lemma MpptInitChain(s: MpptDogState, c: MpptDogConfig, initAnswers: seq<bool>)
    requires |initAnswers| == 4 && !s.task.initiated && BeginAttempted(s.task)
    ensures var r := MpptBegin(s, c, initAnswers);
      (r.0 <==> initAnswers[0] && initAnswers[1] && initAnswers[2] && initAnswers[3])
      && r.1.task.initiated == r.0
      && r.1.issued == s.issued + InitOps(c)[..Evaluated(initAnswers)]
      && (r.0 ==> r.1.issued == s.issued + InitOps(c))
  {
    SucceedsIffAll(initAnswers);
  }

  /** A feed whose readiness check fails writes no timeout and leaves the feeding state unchanged. */
  lemma MpptFeedWithoutBegin(s: MpptDogState, c: MpptDogConfig, now: nat, initAnswers: seq<bool>, timeoutOk: bool)
    requires |initAnswers| == 4 && !s.task.initiated && !MpptBegin(s, c, initAnswers).0
    ensures var r := MpptFeed(s, c, now, initAnswers, timeoutOk);
      !r.0 && r.1.hasFed == s.hasFed && r.1.lastFed == s.lastFed
      && r.1.issued == MpptBegin(s, c, initAnswers).1.issued
  {
  }

  /** Whatever the argument, a ready task ends managed by the user except for 1, which hands the dog back and feeds it. */
  lemma MpptUserModes(s: MpptDogState, c: MpptDogConfig, now: nat, ms: uint64, initAnswers: seq<bool>, answers: seq<bool>)
    requires |initAnswers| == 4 && |answers| == 3 && s.task.initiated
    ensures var r := MpptSetManagedByUser(s, c, now, ms, initAnswers, answers);
      r.1.managedByUser == (ms != 1)
      && (ms == 0 ==> r.0 == answers[0] && r.1.issued == s.issued + [SetWatchdogEnable(false)])
      && (ms == 1 ==> r == MpptFeed(s.(managedByUser := false), c, now, initAnswers, answers[0]))
      && (ms > 1 ==> (r.0 <==> answers[0] && answers[1] && answers[2]))
  {
    SucceedsIffAll(answers);
  }

  /** If the task cannot be made ready, `setManagedByUser` fails and leaves `managedByUser` unchanged. */
  lemma MpptUserModeNeedsBegin(s: MpptDogState, c: MpptDogConfig, now: nat, ms: uint64, initAnswers: seq<bool>, answers: seq<bool>)
    requires |initAnswers| == 4 && |answers| == 3 && !s.task.initiated && !MpptBegin(s, c, initAnswers).0
    ensures var r := MpptSetManagedByUser(s, c, now, ms, initAnswers, answers);
      !r.0 && r.1.managedByUser == s.managedByUser
  {
  }

  class MpptChgWatchdog {
    var task: TaskState
    var hasFed: bool
    var lastFed: nat
    var managedByUser: bool
    var issued: seq<Op>

    function State(): MpptDogState
      reads this
    {
      MpptDogState(task, hasFed, lastFed, managedByUser, issued)
    }

    constructor (c: MpptDogConfig, firstRun: nat)
      ensures State() == NewMpptDog(c, firstRun)
    {
      task := NewWatchdogTask(c.intervalFeed, c.enabled, firstRun);
      hasFed := false;
      lastFed := 0;
      managedByUser := false;
      issued := [];
    }

    /** The charger chain `ops` answered by `answers`: issues calls up to the first refusal. */
    method Chain(ops: seq<Op>, answers: seq<bool>) returns (ok: bool)
      requires |answers| == |ops|
      modifies this
      ensures ok == Succeeds(answers)
      ensures State() == old(State()).(issued := old(issued) + Issued(ops, answers))
    {
      var i := 0;
      while i < |ops| && answers[i]
        invariant 0 <= i <= |ops|
        invariant forall j :: 0 <= j < i ==> answers[j]
        invariant issued == old(issued) + ops[..i]
        invariant task == old(task) && hasFed == old(hasFed) && lastFed == old(lastFed) && managedByUser == old(managedByUser)
      {
        issued := issued + [ops[i]];
        i := i + 1;
      }
      SucceedsIffAll(answers);
      if i < |ops| {
        issued := issued + [ops[i]];
        assert FirstFailure(answers) == i by { FirstFailureAt(answers, i); }
        assert ops[..i] + [ops[i]] == ops[..i + 1];
        ok := false;
      } else {
        assert ops[..i] == ops;
        ok := true;
      }
    }

    method Ready(c: MpptDogConfig, initAnswers: seq<bool>) returns (ready: bool)
      requires |initAnswers| == 4
      modifies this
      ensures (ready, State()) == MpptReady(old(State()), c, initAnswers)
    {
      if task.initiated {
        return true;
      }
      if !task.enabled && !task.force {
        return false;
      }
      var initOk := Chain(InitOps(c), initAnswers);
      var b := BeginStep(task, initOk);
      task := b.1;
      ready := b.0;
    }

    method Feed(c: MpptDogConfig, now: nat, initAnswers: seq<bool>, timeoutOk: bool) returns (ok: bool)
      requires |initAnswers| == 4
      modifies this
      ensures (ok, State()) == MpptFeed(old(State()), c, now, initAnswers, timeoutOk)
    {
      var ready := Ready(c, initAnswers);
      if !ready {
        return false;
      }
      issued := issued + [SetWatchdogTimeout(c.timeout)];
      if !timeoutOk {
        return false;
      }
      hasFed := true;
      lastFed := now;
      ok := true;
    }

    method RunOnce(c: MpptDogConfig, now: nat, initAnswers: seq<bool>, timeoutOk: bool) returns (ok: bool)
      requires |initAnswers| == 4
      modifies this
      ensures (ok, State()) == MpptRunOnce(old(State()), c, now, initAnswers, timeoutOk)
    {
      hasFed := false;
      if managedByUser {
        return true;
      }
      ok := Feed(c, now, initAnswers, timeoutOk);
    }

    method SetManagedByUser(c: MpptDogConfig, now: nat, ms: uint64, initAnswers: seq<bool>, answers: seq<bool>) returns (ok: bool)
      requires |initAnswers| == 4 && |answers| == 3
      modifies this
      ensures (ok, State()) == MpptSetManagedByUser(old(State()), c, now, ms, initAnswers, answers)
    {
      var ready := Ready(c, initAnswers);
      if !ready {
        return false;
      }
      if ms == 0 {
        managedByUser := true;
        issued := issued + [SetWatchdogEnable(false)];
        return answers[0];
      }
      if ms == 1 {
        managedByUser := false;
        ok := Feed(c, now, initAnswers, answers[0]);
        return;
      }
      managedByUser := true;
      ok := Chain(UserDogOps(ms), answers);
    }
  }
}
