/**
 * The CubeCell variant's MPPT charger monitor
 * (cubecell_monitoring/src/MpptMonitor.cpp): the periodic fetch of fourteen
 * charger values, the charger's power-off watchdog and the power thresholds.
 *
 * The charger's answers are inputs (`Charger`); the calls issued are logged.
 * The monitor reaches into the `System` for `serialError`,
 * `removeOneError` and `forceSendTelemetry`.
 */
module CcMppt {
  import opened Ints
  import opened Seqs
  import opened Charger
  import opened CcSystem

  /** MPPT_WATCHDOG_TIMEOUT: the default `timeoutTime` of `setWatchdog`. */
  const WatchdogTimeout: byte := 255
  /** The power-off time `feedWatchdog` re-arms the watchdog with. */
  const FeedPowerOff: uint16 := 10

  /** What is done to the monitor's own timer. */
  datatype TimerAction = Restarted | ForcedExpiry

  /**
   * The fourteen values `update` reads from the charger, in fetch order;
   * the monitor keeps the last value read of each (and the charger's
   * answers to one `update` are given as such a record too).
   */
  datatype Values = Values(
    status: int,
    voltageSolar: int,
    currentSolar: int,
    voltageBattery: int,
    currentBattery: int,
    night: bool,
    alert: bool,
    powerEnabled: bool,
    watchdogEnabled: bool,
    watchdogPowerOffTime: uint16,
    watchdogCounter: int,
    powerOffVoltage: int,
    powerOnVoltage: int,
    temperature: int)

  /** The monitor's fields, the charger values grouped in `values`. */
  datatype MpptState = MpptState(
    init: bool,
    values: Values,
    watchdogManagedByUser: bool,
    ops: seq<Op>,
    timer: seq<TimerAction>)

  /** The fourteen fetches of `update`, in order. */
  const FetchOps: seq<Op> := [
    GetStatusValue, GetIndexedValue(VS), GetIndexedValue(IS), GetIndexedValue(VB), GetIndexedValue(IB),
    IsNight, IsAlert, IsPowerEnabled, GetWatchdogEnable, GetWatchdogPoweroff, GetWatchdogTimeout,
    GetConfigurationValue(PowerOffThreshold), GetConfigurationValue(PowerOnThreshold), GetIndexedValue(IntTemp)]

  const FetchCount: nat := 14

  /** The kept values once fetch `i` (counted from 0, in the order of `FetchOps`) has stored its answer. */
  function StoreOne(w: Values, v: Values, i: nat): Values
    requires i < FetchCount
  {
    Values(
      if i == 0 then v.status else w.status,
      if i == 1 then v.voltageSolar else w.voltageSolar,
      if i == 2 then v.currentSolar else w.currentSolar,
      if i == 3 then v.voltageBattery else w.voltageBattery,
      if i == 4 then v.currentBattery else w.currentBattery,
      if i == 5 then v.night else w.night,
      if i == 6 then v.alert else w.alert,
      if i == 7 then v.powerEnabled else w.powerEnabled,
      if i == 8 then v.watchdogEnabled else w.watchdogEnabled,
      if i == 9 then v.watchdogPowerOffTime else w.watchdogPowerOffTime,
      if i == 10 then v.watchdogCounter else w.watchdogCounter,
      if i == 11 then v.powerOffVoltage else w.powerOffVoltage,
      if i == 12 then v.powerOnVoltage else w.powerOnVoltage,
      if i == 13 then v.temperature else w.temperature)
  }

  /** The kept values after the first `k` fetches have stored their answers. */
  function Stored(w: Values, v: Values, k: nat): Values
    requires k <= FetchCount
  {
    if k == 0 then w else StoreOne(Stored(w, v, k - 1), v, k - 1)
  }

  /*
   * After `k` fetches, exactly the first `k` values of the fetch order are
   * the charger's and the others are the old ones: the measures, the flags,
   * then the settings and the temperature.
   */

  lemma {:induction false} StoredMeasures(w: Values, v: Values, k: nat)
    requires k <= FetchCount
    ensures var r := Stored(w, v, k);
      && r.status == (if k > 0 then v.status else w.status)
      && r.voltageSolar == (if k > 1 then v.voltageSolar else w.voltageSolar)
      && r.currentSolar == (if k > 2 then v.currentSolar else w.currentSolar)
      && r.voltageBattery == (if k > 3 then v.voltageBattery else w.voltageBattery)
      && r.currentBattery == (if k > 4 then v.currentBattery else w.currentBattery)
  {
    if k > 0 {
      StoredMeasures(w, v, k - 1);
    }
  }

  lemma {:induction false} StoredFlags(w: Values, v: Values, k: nat)
    requires k <= FetchCount
    ensures var r := Stored(w, v, k);
      && r.night == (if k > 5 then v.night else w.night)
      && r.alert == (if k > 6 then v.alert else w.alert)
      && r.powerEnabled == (if k > 7 then v.powerEnabled else w.powerEnabled)
      && r.watchdogEnabled == (if k > 8 then v.watchdogEnabled else w.watchdogEnabled)
      && r.watchdogPowerOffTime == (if k > 9 then v.watchdogPowerOffTime else w.watchdogPowerOffTime)
  {
    if k > 0 {
      StoredFlags(w, v, k - 1);
    }
  }

  lemma {:induction false} StoredSettings(w: Values, v: Values, k: nat)
    requires k <= FetchCount
    ensures var r := Stored(w, v, k);
      && r.watchdogCounter == (if k > 10 then v.watchdogCounter else w.watchdogCounter)
      && r.powerOffVoltage == (if k > 11 then v.powerOffVoltage else w.powerOffVoltage)
      && r.powerOnVoltage == (if k > 12 then v.powerOnVoltage else w.powerOnVoltage)
      && r.temperature == (if k > 13 then v.temperature else w.temperature)
  {
    if k > 0 {
      StoredSettings(w, v, k - 1);
    }
  }

  /** After the fourteen fetches the monitor keeps exactly the charger's answers. */
  lemma StoredAll(w: Values, v: Values)
    ensures Stored(w, v, FetchCount) == v
  {
    StoredMeasures(w, v, FetchCount);
    StoredFlags(w, v, FetchCount);
    StoredSettings(w, v, FetchCount);
  }

  /** A change that deserves an immediate telemetry report: night, alert, 5 V output, watchdog state or power-off time. */
  predicate ImportantChange(w: Values, v: Values)
  {
    w.night != v.night || w.alert != v.alert || w.powerEnabled != v.powerEnabled
    || w.watchdogEnabled != v.watchdogEnabled || w.watchdogPowerOffTime != v.watchdogPowerOffTime
  }

  /** The result of an operation that touches both the monitor and the system. */
  datatype Step = Step(ok: bool, mppt: MpptState, sys: SysState)

  /** `begin`: the charger's `begin`, then the monitor is initialised, or a counted error. */
  function Begun(m: MpptState, s: SysState, beginOk: bool): (r: Step)
    requires ValidState(s)
    ensures r.ok == beginOk && r.mppt.init == (m.init || beginOk) && r.mppt.ops == m.ops + [Begin]
    ensures r.mppt.values == m.values && r.mppt.watchdogManagedByUser == m.watchdogManagedByUser && r.mppt.timer == m.timer
    ensures r.ok ==> r.sys == s
    ensures !r.ok ==> r.sys == SerialErrored(s, true)
  {
    var issued := m.(ops := m.ops + [Begin]);
    if beginOk then Step(true, issued.(init := true), s) else Step(false, issued, SerialErrored(s, true))
  }

  /**
   * The fetch chain of `update` on an initialised monitor: the answers are
   * kept up to the first refused fetch; a refusal counts an error and leaves
   * the monitor to re-initialise, a complete chain restarts the timer again,
   * forces a report on an important change and forgives an error.
   */
  function Fetch(m: MpptState, s: SysState, answers: seq<bool>, v: Values): (r: Step)
    requires ValidState(s) && |answers| == FetchCount
  {
    var k := FirstFailure(answers);
    var fetched := m.(values := Stored(m.values, v, k), ops := m.ops + Issued(FetchOps, answers));
    if k < FetchCount then Step(false, fetched.(init := false), SerialErrored(s, true))
    else
      var flagged := if ImportantChange(m.values, v) then s.(forceSendTelemetry := true) else s;
      Step(true, fetched.(timer := fetched.timer + [Restarted]), ErrorRemoved(flagged))
  }

  /** `update(force)`: nothing unless forced or due; otherwise the timer restarts, the charger is begun if needed, then the fetch chain. */
  function Updated(m: MpptState, s: SysState, force: bool, expired: bool, beginOk: bool, answers: seq<bool>, v: Values): (r: Step)
    requires ValidState(s) && |answers| == FetchCount
  {
    if !force && !expired then Step(false, m, s)
    else
      var restarted := m.(timer := m.timer + [Restarted]);
      var b := if restarted.init then Step(true, restarted, s) else Begun(restarted, s, beginOk);
      if !b.ok then b else Fetch(b.mppt, b.sys, answers, v)
  }

  /** An `update` that is not due does nothing at all. */
  lemma UpdateNotDue(m: MpptState, s: SysState, beginOk: bool, answers: seq<bool>, v: Values)
    requires ValidState(s) && |answers| == FetchCount
    ensures Updated(m, s, false, false, beginOk, answers, v) == Step(false, m, s)
  {
  }

  /** A due `update` whose charger cannot be begun issues only `begin`, counts an error and fetches nothing. */
  lemma UpdateBeginFails(m: MpptState, s: SysState, force: bool, expired: bool, answers: seq<bool>, v: Values)
    requires ValidState(s) && |answers| == FetchCount && !m.init && (force || expired)
    ensures var r := Updated(m, s, force, expired, false, answers, v);
      && !r.ok && !r.mppt.init && r.mppt.values == m.values
      && r.mppt.ops == m.ops + [Begin] && r.mppt.timer == m.timer + [Restarted]
      && r.sys == SerialErrored(s, true)
  {
  }

  /**
   * An `update` whose `k`-th fetch is refused keeps the answers of the first
   * `k` fetches, issues no call after the refused one, leaves the monitor to
   * re-initialise and counts an error.
   */
  lemma UpdateStopsAtFirstRefusal(m: MpptState, s: SysState, force: bool, expired: bool, answers: seq<bool>, v: Values, k: nat)
    requires ValidState(s) && |answers| == FetchCount && m.init && (force || expired)
    requires k < FetchCount && !answers[k] && forall j :: 0 <= j < k ==> answers[j]
    ensures var r := Updated(m, s, force, expired, true, answers, v);
      && !r.ok && !r.mppt.init
      && r.mppt.ops == m.ops + FetchOps[..k + 1]
      && r.mppt.values == Stored(m.values, v, k)
      && r.mppt.timer == m.timer + [Restarted]
      && r.sys == SerialErrored(s, true)
  {
    FirstFailureAt(answers, k);
  }

  /**
   * A complete `update` keeps all fourteen answers, forces a telemetry
   * report exactly on an important change (or keeps an earlier request),
   * and forgives an error.
   */
  lemma UpdateSucceeds(m: MpptState, s: SysState, force: bool, expired: bool, answers: seq<bool>, v: Values)
    requires ValidState(s) && |answers| == FetchCount && m.init && (force || expired)
    requires forall j :: 0 <= j < FetchCount ==> answers[j]
    ensures var r := Updated(m, s, force, expired, true, answers, v);
      && r.ok && r.mppt.init
      && r.mppt.ops == m.ops + FetchOps
      && r.mppt.values == v
      && r.mppt.timer == m.timer + [Restarted, Restarted]
      && r.sys.forceSendTelemetry == (s.forceSendTelemetry || ImportantChange(m.values, v))
      && r.sys.nbError == (if s.nbError > 0 then s.nbError - 1 else 0)
  {
    SucceedsIffAll(answers);
    StoredAll(m.values, v);
    assert m.timer + [Restarted] + [Restarted] == m.timer + [Restarted, Restarted];
  }

  /** The charger's answers to the calls of one `setWatchdog`. */
  datatype WatchdogAnswers = WatchdogAnswers(
    beginOk: bool, poweroffOk: bool, timeoutOk: bool, enableOk: bool, readOk: bool, readBack: bool)

  /** A refused charger call in `setWatchdog`: a counted error, the monitor to re-initialise, no report forced. */
  function WatchdogFailed(m: MpptState, s: SysState): (r: Step)
    requires ValidState(s)
    ensures !r.ok && !r.mppt.init && !r.sys.forceSendTelemetry && r.sys.nbError == (s.nbError + 1) % 256
    ensures r.mppt.values == m.values && r.mppt.watchdogManagedByUser == m.watchdogManagedByUser && r.mppt.ops == m.ops
    ensures FlagsKept(s, r.sys)
  {
    SerialErrorCounts(s, true);
    Step(false, m.(init := false), SerialErrored(s, true).(forceSendTelemetry := false))
  }

  /** What every refused call of `setWatchdog` leaves behind, from the monitor `m` and the system `s` before it. */
  predicate FailedFrom(m: MpptState, s: SysState, r: Step)
  {
    !r.ok && !r.mppt.init && !r.sys.forceSendTelemetry && r.sys.nbError == (s.nbError + 1) % 256 &&
    r.mppt.watchdogManagedByUser == m.watchdogManagedByUser && r.mppt.timer == m.timer
  }

  /** The power-off time, then the timeout, written to the charger and kept once accepted. */
  function WatchdogTimesWritten(m: MpptState, s: SysState, powerOffTime: uint16, timeoutTime: byte, a: WatchdogAnswers): (r: Step)
    requires ValidState(s)
    ensures !r.ok ==> FailedFrom(m, s, r)
    ensures r.ok ==> r.sys == s && r.mppt.watchdogManagedByUser == m.watchdogManagedByUser && r.mppt.timer == m.timer
    ensures FlagsKept(s, r.sys)
  {
    var m1 := m.(ops := m.ops + [SetWatchdogPoweroff(powerOffTime)]);
    if !a.poweroffOk then WatchdogFailed(m1, s)
    else
      var m2 := m1.(values := m1.values.(watchdogPowerOffTime := powerOffTime), ops := m1.ops + [SetWatchdogTimeout(timeoutTime)]);
      if !a.timeoutOk then WatchdogFailed(m2, s)
      else Step(true, m2.(values := m2.values.(watchdogCounter := timeoutTime)), s)
  }

  /** The watchdog switched on or off, then its state read back; success hands it to the user iff it was switched off. */
  function WatchdogSwitched(m: MpptState, s: SysState, enabled: bool, a: WatchdogAnswers): (r: Step)
    requires ValidState(s)
    ensures !r.ok ==> FailedFrom(m, s, r)
    ensures FlagsKept(s, r.sys)
  {
    var m1 := m.(ops := m.ops + [SetWatchdogEnable(enabled)]);
    if !a.enableOk then WatchdogFailed(m1, s)
    else
      var m2 := m1.(ops := m1.ops + [GetWatchdogEnable]);
      if !a.readOk then WatchdogFailed(m2, s)
      else
        Step(true, m2.(values := m2.values.(watchdogEnabled := a.readBack), watchdogManagedByUser := !enabled,
                       timer := m2.timer + [ForcedExpiry]),
             ErrorRemoved(s))
  }

  /**
   * `setWatchdog` on an initialised monitor: a report is forced when the
   * watchdog's state or power-off time is to change, the times are written
   * when enabling, then the watchdog is switched.
   */
  function WatchdogWritten(m: MpptState, s: SysState, powerOffTime: uint16, timeoutTime: byte, a: WatchdogAnswers): (r: Step)
    requires ValidState(s)
    ensures !r.ok ==> FailedFrom(m, s, r)
    ensures FlagsKept(s, r.sys)
  {
    var enabled := powerOffTime > 0;
    var s1 := s.(forceSendTelemetry := m.values.watchdogEnabled != enabled || powerOffTime != m.values.watchdogPowerOffTime);
    var b := if enabled then WatchdogTimesWritten(m, s1, powerOffTime, timeoutTime, a) else Step(true, m, s1);
    if !b.ok then b else WatchdogSwitched(b.mppt, b.sys, enabled, a)
  }

  /** `setWatchdog(powerOffTime, timeoutTime)`: `begin` when not initialised, then the charger calls. */
  function WatchdogSet(m: MpptState, s: SysState, powerOffTime: uint16, timeoutTime: byte, a: WatchdogAnswers): (r: Step)
    requires ValidState(s)
    ensures FlagsKept(s, r.sys)
  {
    var b := if m.init then Step(true, m, s) else Begun(m, s, a.beginOk);
    if !b.ok then b else WatchdogWritten(b.mppt, b.sys, powerOffTime, timeoutTime, a)
  }

  /** The charger calls `setWatchdog` makes once the monitor is initialised, when all succeed. */
  function WatchdogOps(powerOffTime: uint16, timeoutTime: byte): seq<Op>
  {
    (if powerOffTime > 0 then [SetWatchdogPoweroff(powerOffTime), SetWatchdogTimeout(timeoutTime)] else [])
    + [SetWatchdogEnable(powerOffTime > 0), GetWatchdogEnable]
  }

  /**
   * A successful `setWatchdog`: the watchdog is enabled iff the power-off
   * time is positive, the power-off time and the timeout are written only
   * then, the watchdog is user-managed iff it was disabled, the timer is made
   * to expire and an error is forgiven.
   */
  lemma WatchdogSetSucceeds(m: MpptState, s: SysState, powerOffTime: uint16, timeoutTime: byte, a: WatchdogAnswers)
    requires ValidState(s) && m.init
    requires WatchdogSet(m, s, powerOffTime, timeoutTime, a).ok
    ensures var r := WatchdogSet(m, s, powerOffTime, timeoutTime, a);
      && r.mppt.ops == m.ops + WatchdogOps(powerOffTime, timeoutTime)
      && r.mppt.watchdogManagedByUser == (powerOffTime == 0)
      && r.mppt.values.watchdogEnabled == a.readBack
      && (powerOffTime > 0 ==> r.mppt.values.watchdogPowerOffTime == powerOffTime && r.mppt.values.watchdogCounter == timeoutTime)
      && (powerOffTime == 0 ==> r.mppt.values.watchdogPowerOffTime == m.values.watchdogPowerOffTime
                                && r.mppt.values.watchdogCounter == m.values.watchdogCounter)
      && r.sys.nbError == (if s.nbError > 0 then s.nbError - 1 else 0)
      && r.sys.forceSendTelemetry == (m.values.watchdogEnabled != (powerOffTime > 0) || powerOffTime != m.values.watchdogPowerOffTime)
      && r.mppt.timer == m.timer + [ForcedExpiry]
  {
    if powerOffTime > 0 {
      assert m.ops + [SetWatchdogPoweroff(powerOffTime)] + [SetWatchdogTimeout(timeoutTime)] + [SetWatchdogEnable(true)] + [GetWatchdogEnable]
        == m.ops + WatchdogOps(powerOffTime, timeoutTime);
    } else {
      assert m.ops + [SetWatchdogEnable(false)] + [GetWatchdogEnable] == m.ops + WatchdogOps(powerOffTime, timeoutTime);
    }
  }

  /** Any refused charger call after `begin` leaves the monitor to re-initialise, counts an error and forces no report. */
  lemma WatchdogSetFailure(m: MpptState, s: SysState, powerOffTime: uint16, timeoutTime: byte, a: WatchdogAnswers)
    requires ValidState(s) && (m.init || a.beginOk)
    requires !WatchdogSet(m, s, powerOffTime, timeoutTime, a).ok
    ensures var r := WatchdogSet(m, s, powerOffTime, timeoutTime, a);
      && !r.mppt.init && !r.sys.forceSendTelemetry && r.sys.nbError == (s.nbError + 1) % 256
      && r.mppt.watchdogManagedByUser == m.watchdogManagedByUser
      && r.mppt.timer == m.timer
  {
    var b := if m.init then Step(true, m, s) else Begun(m, s, a.beginOk);
    assert b.ok && b.sys == s && b.mppt.watchdogManagedByUser == m.watchdogManagedByUser && b.mppt.timer == m.timer;
  }

  /** `feedWatchdog` re-arms the watchdog only when it is enabled, there is no alert and the user does not manage it. */
  predicate ShouldFeed(m: MpptState)
  {
    m.values.watchdogEnabled && !m.values.alert && !m.watchdogManagedByUser
  }

  /** A feed never leaves the watchdog user-managed, and a successful one re-arms it with ten seconds and the default timeout. */
  lemma FeedKeepsAutomatic(m: MpptState, s: SysState, a: WatchdogAnswers)
    requires ValidState(s) && ShouldFeed(m)
    ensures var r := WatchdogSet(m, s, FeedPowerOff, WatchdogTimeout, a);
      !r.mppt.watchdogManagedByUser
      && (r.ok ==> r.mppt.values.watchdogPowerOffTime == FeedPowerOff && r.mppt.values.watchdogCounter == WatchdogTimeout)
  {
  }

  // ---------------------------------------------------------------------
  // The object

  class MpptMonitor {
    var init: bool
    /** `status`, `vs`, `is`, `vb`, `ib`, `night`, `alert`, `powerEnabled`, `watchdogEnabled`, `watchdogPowerOffTime`, `watchdogCounter`, `powerOffVoltage`, `powerOnVoltage`, `temperature`. */
    var values: Values
    var watchdogManagedByUser: bool
    /** The calls issued to the charger, oldest first. */
    var ops: seq<Op>
    var timer: seq<TimerAction>

    function State(): MpptState
      reads this
    {
      MpptState(init, values, watchdogManagedByUser, ops, timer)
    }

    constructor ()
      ensures !init && !watchdogManagedByUser && ops == [] && timer == []
    {
      init := false;
      values := Values(0, 0, 0, 0, 0, false, false, false, false, 0, 0, 0, 0, 0);
      watchdogManagedByUser := false;
      ops := [];
      timer := [];
    }

    /** `begin`. */
    method Begin(beginOk: bool, system: System) returns (ok: bool)
      requires system.Valid()
      modifies this`init, this`ops, system`nbError, system`log, system`ledColor
      ensures system.Valid()
      ensures Step(ok, State(), system.State()) == Begun(old(State()), old(system.State()), beginOk)
    {
      ops := ops + [Op.Begin];
      if !beginOk {
        system.SerialError(true);
        return false;
      }
      init := true;
      return true;
    }

    /**
     * The fetch chain of `update`, one fetch after the other in the order of
     * `FetchOps`: each answer is kept as soon as it is read; the first
     * refusal stops the chain.
     */
    method FetchAll(answers: seq<bool>, v: Values) returns (k: nat)
      requires |answers| == FetchCount
      modifies this`values, this`ops
      ensures k == FirstFailure(answers)
      ensures values == Stored(old(values), v, k)
      ensures ops == old(ops) + Issued(FetchOps, answers)
    {
      k := 0;
      while k < FetchCount
        invariant k <= FetchCount
        invariant forall j :: 0 <= j < k ==> answers[j]
        invariant values == Stored(old(values), v, k)
        invariant ops == old(ops) + FetchOps[..k]
      {
        AppendAssoc(old(ops), FetchOps[..k], [FetchOps[k]]);
        assert FetchOps[..k] + [FetchOps[k]] == FetchOps[..k + 1];
        ops := ops + [FetchOps[k]];
        if !answers[k] {
          FirstFailureAt(answers, k);
          return;
        }
        values := StoreOne(values, v, k);
        k := k + 1;
      }
      SucceedsIffAll(answers);
    }

    /** `update(force)`, given whether the timer has expired and the charger's answers. */
    method Update(force: bool, expired: bool, beginOk: bool, answers: seq<bool>, v: Values, system: System) returns (ok: bool)
      requires system.Valid() && |answers| == FetchCount
      modifies this`init, this`values, this`ops, this`timer, system`nbError, system`log, system`ledColor, system`forceSendTelemetry
      ensures system.Valid()
      ensures Step(ok, State(), system.State()) == Updated(old(State()), old(system.State()), force, expired, beginOk, answers, v)
    {
      if !force && !expired {
        return false;
      }
      timer := timer + [Restarted];
      if !init {
        var begun := Begin(beginOk, system);
        if !begun {
          return false;
        }
      }
      ok := FetchAndReport(answers, v, system);
    }

    /** The part of `update` after `begin`: the fetch chain, then the report or the error. */
    method FetchAndReport(answers: seq<bool>, v: Values, system: System) returns (ok: bool)
      requires system.Valid() && |answers| == FetchCount
      modifies this`init, this`values, this`ops, this`timer, system`nbError, system`log, system`ledColor, system`forceSendTelemetry
      ensures system.Valid()
      ensures Step(ok, State(), system.State()) == Fetch(old(State()), old(system.State()), answers, v)
    {
      var before := values;
      var k := FetchAll(answers, v);
      if k < FetchCount {
        system.SerialError(true);
        init := false;
        return false;
      }
      timer := timer + [Restarted];
      if ImportantChange(before, v) {
        system.forceSendTelemetry := true;
      }
      system.RemoveOneError();
      return true;
    }

    /** The error path of `setWatchdog`: `serialError`, re-initialise, no report forced. */
    method WatchdogError(system: System)
      requires system.Valid()
      modifies this`init, system`nbError, system`log, system`ledColor, system`forceSendTelemetry
      ensures system.Valid()
      ensures Step(false, State(), system.State()) == WatchdogFailed(old(State()), old(system.State()))
    {
      system.SerialError(true);
      init := false;
      system.forceSendTelemetry := false;
    }

    /** `setWatchdog(powerOffTime, timeoutTime)`. */
    method SetWatchdog(powerOffTime: uint16, timeoutTime: byte, a: WatchdogAnswers, system: System) returns (ok: bool)
      requires system.Valid()
      modifies this`init, this`values, this`watchdogManagedByUser, this`ops, this`timer
      modifies system`nbError, system`log, system`ledColor, system`forceSendTelemetry
      ensures system.Valid()
      ensures Step(ok, State(), system.State()) == WatchdogSet(old(State()), old(system.State()), powerOffTime, timeoutTime, a)
    {
      if !init {
        var begun := Begin(a.beginOk, system);
        if !begun {
          return false;
        }
      }
      ok := WriteWatchdog(powerOffTime, timeoutTime, a, system);
    }

    /** The charger calls of `setWatchdog` on an initialised monitor. */
    method WriteWatchdog(powerOffTime: uint16, timeoutTime: byte, a: WatchdogAnswers, system: System) returns (ok: bool)
      requires system.Valid()
      modifies this`init, this`values, this`watchdogManagedByUser, this`ops, this`timer
      modifies system`nbError, system`log, system`ledColor, system`forceSendTelemetry
      ensures system.Valid()
      ensures Step(ok, State(), system.State()) == WatchdogWritten(old(State()), old(system.State()), powerOffTime, timeoutTime, a)
    {
      var enabled := powerOffTime > 0;
      system.forceSendTelemetry := values.watchdogEnabled != enabled || powerOffTime != values.watchdogPowerOffTime;
      ghost var m1 := State();
      ghost var s1 := system.State();
      var b := Step(true, m1, s1);
      if enabled {
        var written := WriteTimes(powerOffTime, timeoutTime, a, system);
        b := WatchdogTimesWritten(m1, s1, powerOffTime, timeoutTime, a);
        if !written {
          return false;
        }
      }
      ok := Switch(enabled, a, system);
      assert Step(ok, State(), system.State()) == WatchdogSwitched(b.mppt, b.sys, enabled, a);
    }

    /** `setWatchdogPoweroff`, then `setWatchdogTimeout`. */
    method WriteTimes(powerOffTime: uint16, timeoutTime: byte, a: WatchdogAnswers, system: System) returns (ok: bool)
      requires system.Valid()
      modifies this`init, this`values, this`ops
      modifies system`nbError, system`log, system`ledColor, system`forceSendTelemetry
      ensures system.Valid()
      ensures Step(ok, State(), system.State()) == WatchdogTimesWritten(old(State()), old(system.State()), powerOffTime, timeoutTime, a)
    {
      ops := ops + [SetWatchdogPoweroff(powerOffTime)];
      if !a.poweroffOk {
        WatchdogError(system);
        return false;
      }
      values := values.(watchdogPowerOffTime := powerOffTime);
      ops := ops + [SetWatchdogTimeout(timeoutTime)];
      if !a.timeoutOk {
        WatchdogError(system);
        return false;
      }
      values := values.(watchdogCounter := timeoutTime);
      return true;
    }

    /** `setWatchdogEnable`, then `getWatchdogEnable`, then the watchdog's owner and the timer. */
    method Switch(enabled: bool, a: WatchdogAnswers, system: System) returns (ok: bool)
      requires system.Valid()
      modifies this`init, this`values, this`watchdogManagedByUser, this`ops, this`timer
      modifies system`nbError, system`log, system`ledColor, system`forceSendTelemetry
      ensures system.Valid()
      ensures Step(ok, State(), system.State()) == WatchdogSwitched(old(State()), old(system.State()), enabled, a)
    {
      ops := ops + [SetWatchdogEnable(enabled)];
      if !a.enableOk {
        WatchdogError(system);
        return false;
      }
      ops := ops + [GetWatchdogEnable];
      if !a.readOk {
        WatchdogError(system);
        return false;
      }
      values := values.(watchdogEnabled := a.readBack);
      watchdogManagedByUser := !enabled;
      timer := timer + [ForcedExpiry];
      system.RemoveOneError();
      return true;
    }

    /** `setPowerOnOff(on, off)`: the power-off threshold is written only if the power-on one was. */
    method SetPowerOnOff(powerOnVoltage: uint16, powerOffVoltage: uint16, onOk: bool, offOk: bool) returns (ok: bool)
      modifies this`ops
      ensures ok == (onOk && offOk)
      ensures ops == old(ops) + Issued([SetConfigurationValue(PowerOnThreshold, powerOnVoltage),
                                        SetConfigurationValue(PowerOffThreshold, powerOffVoltage)], [onOk, offOk])
    {
      ops := ops + [SetConfigurationValue(PowerOnThreshold, powerOnVoltage)];
      if !onOk {
        FirstFailureAt([onOk, offOk], 0);
        return false;
      }
      ops := ops + [SetConfigurationValue(PowerOffThreshold, powerOffVoltage)];
      if !offOk {
        FirstFailureAt([onOk, offOk], 1);
      }
      return offOk;
    }

    /** `feedWatchdog`: `setWatchdog(10)` when the watchdog is enabled, without alert and not user-managed. */
    method FeedWatchdog(a: WatchdogAnswers, system: System)
      requires system.Valid()
      modifies this`init, this`values, this`watchdogManagedByUser, this`ops, this`timer
      modifies system`nbError, system`log, system`ledColor, system`forceSendTelemetry
      ensures system.Valid()
      ensures ShouldFeed(old(State())) ==>
        Step(WatchdogSet(old(State()), old(system.State()), FeedPowerOff, WatchdogTimeout, a).ok, State(), system.State())
        == WatchdogSet(old(State()), old(system.State()), FeedPowerOff, WatchdogTimeout, a)
      ensures !ShouldFeed(old(State())) ==> State() == old(State()) && system.State() == old(system.State())
    {
      if values.watchdogEnabled && !values.alert && !watchdogManagedByUser {
        var _ := SetWatchdog(FeedPowerOff, WatchdogTimeout, a, system);
      }
    }
  }
}
