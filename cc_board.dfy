/**
 * The members of the CubeCell `System` (cubecell_monitoring/src/System.cpp)
 * that reach into the objects it owns: the MPPT monitor, the LoRa
 * pipeline and the relays.  `CcSystem.System` holds the system's own
 * fields; the methods here take the objects they touch as parameters.
 */
module CcBoard {
  import opened Ints
  import opened Wrappers
  import opened CcSystem
  import CcMppt
  import opened CcCommunication
  import opened CcGpio

  /** The states `setFunctionAllowed` reaches: the system, the MPPT monitor and the LoRa pipeline. */
  datatype Board = Board(sys: SysState, mppt: CcMppt.MpptState, comm: CommState)

  /** The power-off time `setFunctionAllowed` enables the charger's watchdog with. */
  const MpptWatchdogPowerOff: uint16 := 10

  // ---------------------------------------------------------------------
  // setFunctionAllowed

  /**
   * What `setFunctionAllowed` does beyond the system's own fields: the
   * LoRa TX watchdog restarted, or the charger's watchdog handed back to the
   * automatic feed and then re-armed with ten seconds or switched off.  The
   * charger's answers to the `setWatchdog` call are `a`.
   */
  function FunctionActed(b: Board, fn: byte, allowed: bool, a: CcMppt.WatchdogAnswers): (r: Board)
    requires ValidState(b.sys)
    ensures ValidState(r.sys) && FlagsKept(b.sys, r.sys)
  {
    if fn == AddressWatchdogLoraTx then b.(comm := b.comm.(log := b.comm.log + [TxWatchdogRestart]))
    else if fn == AddressMpptWatchdog then
      var w := CcMppt.WatchdogSet(b.mppt.(watchdogManagedByUser := false), b.sys,
                                  if allowed then MpptWatchdogPowerOff else 0, CcMppt.WatchdogTimeout, a);
      Board(w.sys, w.mppt, b.comm)
    else b
  }

  /**
   * `setFunctionAllowed(function, allowed, save)`: the flag and its EEPROM
   * byte are stored only when saving (`FlagStoredAsWritten`), and the
   * side effects run in every case.
   */
  function FunctionSet(b: Board, fn: byte, allowed: bool, save: bool, a: CcMppt.WatchdogAnswers): (r: Board)
    requires ValidState(b.sys)
    ensures ValidState(r.sys)
    ensures r.sys.functionsAllowed == if save && fn as nat < FunctionCount then b.sys.functionsAllowed[fn := allowed] else b.sys.functionsAllowed
    ensures r.sys.eeprom == if save then b.sys.eeprom[fn := Bit(allowed)] else b.sys.eeprom
  {
    FunctionActed(b.(sys := FlagSideEffects(FlagStoredAsWritten(b.sys, fn, allowed, save), fn, allowed)), fn, allowed, a)
  }

  /** `setFunctionAllowed` with the flag stored as intended (`FlagStored`): the in-memory flag is set even without saving. */
  function FunctionSetIntended(b: Board, fn: byte, allowed: bool, save: bool, a: CcMppt.WatchdogAnswers): (r: Board)
    requires ValidState(b.sys) && fn < FunctionCount
    ensures ValidState(r.sys)
    ensures r.sys.functionsAllowed == b.sys.functionsAllowed[fn := allowed]
    ensures r.sys.eeprom == if save then b.sys.eeprom[fn := Bit(allowed)] else b.sys.eeprom
  {
    FunctionActed(b.(sys := FlagSideEffects(FlagStored(b.sys, fn, allowed, save), fn, allowed)), fn, allowed, a)
  }

  /** Saving, the two agree; without saving, the firmware keeps the flag that the intended call sets. */
  lemma FunctionSetDiscrepancy(b: Board, fn: byte, allowed: bool, save: bool, a: CcMppt.WatchdogAnswers)
    requires ValidState(b.sys) && fn < FunctionCount
    ensures save ==> FunctionSet(b, fn, allowed, save, a) == FunctionSetIntended(b, fn, allowed, save, a)
    ensures !save ==> FunctionSet(b, fn, allowed, save, a).sys.functionsAllowed[fn] == b.sys.functionsAllowed[fn]
    ensures !save ==> FunctionSetIntended(b, fn, allowed, save, a).sys.functionsAllowed[fn] == allowed
  {
    FlagStoredDiscrepancy(b.sys, fn, allowed);
  }

  /**
   * The per-function actions: the error counter is cleared for
   * reset-on-error, the inner watchdog follows its flag, the LoRa TX
   * watchdog is restarted, and the charger's watchdog is given back to the
   * automatic feed, re-armed with ten seconds when allowed and switched off
   * otherwise.  Nothing else reaches the monitor or the pipeline.
   */
  lemma FunctionSetEffects(b: Board, fn: byte, allowed: bool, save: bool, a: CcMppt.WatchdogAnswers)
    requires ValidState(b.sys)
    ensures var r := FunctionSet(b, fn, allowed, save, a);
      && (fn != AddressMpptWatchdog ==>
            && r.mppt == b.mppt
            && r.sys.nbError == (if fn == AddressResetOnError then 0 else b.sys.nbError)
            && r.sys.innerWdt == (if fn == AddressWatchdog then allowed else b.sys.innerWdt)
            && r.sys.log == b.sys.log + [Expire(StateTimer)] + (if fn == AddressWatchdog then [InnerWdt(allowed)] else []))
      && r.comm == (if fn == AddressWatchdogLoraTx then b.comm.(log := b.comm.log + [TxWatchdogRestart]) else b.comm)
      && (fn == AddressMpptWatchdog ==> (r.mppt.watchdogManagedByUser ==> !allowed))
  {
    if fn == AddressMpptWatchdog {
      var m := b.mppt.(watchdogManagedByUser := false);
      var s := FlagSideEffects(FlagStoredAsWritten(b.sys, fn, allowed, save), fn, allowed);
      var p: uint16 := if allowed then MpptWatchdogPowerOff else 0;
      var w := CcMppt.WatchdogSet(m, s, p, CcMppt.WatchdogTimeout, a);
      if w.ok {
        if m.init {
          CcMppt.WatchdogSetSucceeds(m, s, p, CcMppt.WatchdogTimeout, a);
        } else {
          var g := CcMppt.Begun(m, s, a.beginOk);
          CcMppt.WatchdogSetSucceeds(g.mppt, g.sys, p, CcMppt.WatchdogTimeout, a);
        }
      } else if m.init || a.beginOk {
        CcMppt.WatchdogSetFailure(m, s, p, CcMppt.WatchdogTimeout, a);
      }
    }
  }

  /**
   * On an initialised monitor whose charger accepts every call, setting the
   * MPPT watchdog function re-arms the charger's watchdog with ten seconds
   * and the default timeout when allowed, and switches it off otherwise.
   */
  lemma FunctionSetArmsCharger(b: Board, allowed: bool, save: bool, a: CcMppt.WatchdogAnswers)
    requires ValidState(b.sys) && b.mppt.init
    requires a.poweroffOk && a.timeoutOk && a.enableOk && a.readOk
    ensures var r := FunctionSet(b, AddressMpptWatchdog, allowed, save, a);
      && r.mppt.ops == b.mppt.ops + CcMppt.WatchdogOps(if allowed then MpptWatchdogPowerOff else 0, CcMppt.WatchdogTimeout)
      && r.mppt.watchdogManagedByUser == !allowed
      && (allowed ==> r.mppt.values.watchdogPowerOffTime == MpptWatchdogPowerOff)
  {
    var m := b.mppt.(watchdogManagedByUser := false);
    var s := FlagSideEffects(FlagStoredAsWritten(b.sys, AddressMpptWatchdog, allowed, save), AddressMpptWatchdog, allowed);
    var p: uint16 := if allowed then MpptWatchdogPowerOff else 0;
    CcMppt.WatchdogSetSucceeds(m, s, p, CcMppt.WatchdogTimeout, a);
  }

  /** `setFunctionAllowed(function, allowed, save)`. */
  method SetFunctionAllowed(fn: byte, allowed: bool, save: bool, a: CcMppt.WatchdogAnswers,
                            system: System, mppt: CcMppt.MpptMonitor, comm: Communication)
    requires system.Valid()
    modifies system, mppt`init, mppt`values, mppt`watchdogManagedByUser, mppt`ops, mppt`timer, comm`log
    ensures system.Valid()
    ensures Board(system.State(), mppt.State(), comm.State())
         == FunctionSet(Board(old(system.State()), old(mppt.State()), old(comm.State())), fn, allowed, save, a)
  {
    system.StoreFunction(fn, allowed, save);
    Act(fn, allowed, a, system, mppt, comm);
  }

  /** The end of `setFunctionAllowed`: the actions on the LoRa pipeline and on the MPPT monitor. */
  method Act(fn: byte, allowed: bool, a: CcMppt.WatchdogAnswers, system: System, mppt: CcMppt.MpptMonitor, comm: Communication)
    requires system.Valid()
    modifies system`nbError, system`log, system`ledColor, system`forceSendTelemetry
    modifies mppt`init, mppt`values, mppt`watchdogManagedByUser, mppt`ops, mppt`timer, comm`log
    ensures system.Valid()
    ensures Board(system.State(), mppt.State(), comm.State())
         == FunctionActed(Board(old(system.State()), old(mppt.State()), old(comm.State())), fn, allowed, a)
  {
    if fn == AddressWatchdogLoraTx {
      comm.ResetWatchdogLoraTx();
    } else if fn == AddressMpptWatchdog {
      mppt.watchdogManagedByUser := false;
      var _ := mppt.SetWatchdog(if allowed then MpptWatchdogPowerOff else 0, CcMppt.WatchdogTimeout, a, system);
    }
  }

  // ---------------------------------------------------------------------
  // The EEPROM part of begin

  /** The order in which `begin` applies the eight flags. */
  const BeginOrder: seq<byte> := [1, 2, 3, 4, 5, 6, 7, 0]

  /** The position of a function in `BeginOrder`. */
  function Slot(fn: nat): (k: nat)
    requires fn < FunctionCount
    ensures k < FunctionCount && BeginOrder[k] as nat == fn
  {
    if fn == 0 then 7 else fn - 1
  }

  /** The value `begin` gives to flag `fn`: its EEPROM byte when the version matches, the flag in memory otherwise. */
  function Wanted(s: SysState, fn: nat, fromEeprom: bool): bool
    requires ValidState(s) && fn < FunctionCount
  {
    if fromEeprom then s.eeprom[fn] != 0 else s.functionsAllowed[fn]
  }

  /** One call of `begin`'s replay, with the flag storage as written or, when `intended`, as intended. */
  function ReplayCall(p: Board, fn: byte, fromEeprom: bool, intended: bool, a: CcMppt.WatchdogAnswers): (r: Board)
    requires ValidState(p.sys) && fn < FunctionCount
    ensures ValidState(r.sys)
  {
    var value := Wanted(p.sys, fn as nat, fromEeprom);
    if intended then FunctionSetIntended(p, fn, value, !fromEeprom, a) else FunctionSet(p, fn, value, !fromEeprom, a)
  }

  /** The first `k` calls of `begin`: saved when replaying the memory, not when replaying the EEPROM. */
  function Replayed(b: Board, k: nat, fromEeprom: bool, intended: bool, a: CcMppt.WatchdogAnswers): (r: Board)
    requires ValidState(b.sys) && k <= FunctionCount
    ensures ValidState(r.sys)
  {
    if k == 0 then b
    else ReplayCall(Replayed(b, k - 1, fromEeprom, intended, a), BeginOrder[k - 1], fromEeprom, intended, a)
  }

  /** The flags a replay leaves: none move when the firmware replays the EEPROM without saving. */
  function ReplayedFlagsAfter(s: SysState, k: nat, fromEeprom: bool, intended: bool): (f: seq<bool>)
    requires ValidState(s)
    ensures |f| == FunctionCount
  {
    if fromEeprom && !intended then s.functionsAllowed else FlagsAfter(s, k, fromEeprom)
  }

  /** The flags after the first `k` calls: those in the first `k` slots hold their wanted value, the others are untouched. */
  function FlagsAfter(s: SysState, k: nat, fromEeprom: bool): (f: seq<bool>)
    requires ValidState(s)
    ensures |f| == FunctionCount
  {
    seq(FunctionCount, fn requires 0 <= fn < FunctionCount =>
      if Slot(fn) < k then Wanted(s, fn, fromEeprom) else s.functionsAllowed[fn])
  }

  /** The EEPROM after the first `k` calls replaying the memory: the flags in the first `k` slots are saved. */
  function EepromAfter(s: SysState, k: nat): (e: seq<byte>)
    requires ValidState(s)
    ensures |e| == EepromSize
  {
    seq(EepromSize, i requires 0 <= i < EepromSize =>
      if i < FunctionCount && Slot(i) < k then Bit(s.functionsAllowed[i]) else s.eeprom[i])
  }

  /** One more call moves one more flag, the one in slot `k`, to its wanted value. */
  lemma AfterStep(s: SysState, k: nat, fromEeprom: bool)
    requires ValidState(s) && k < FunctionCount
    ensures FlagsAfter(s, k + 1, fromEeprom) == FlagsAfter(s, k, fromEeprom)[BeginOrder[k] := Wanted(s, BeginOrder[k] as nat, fromEeprom)]
    ensures EepromAfter(s, k + 1) == EepromAfter(s, k)[BeginOrder[k] := Bit(s.functionsAllowed[BeginOrder[k]])]
  {
    var fn := BeginOrder[k];
    assert Slot(fn as nat) == k;
    var f1, f0 := FlagsAfter(s, k + 1, fromEeprom), FlagsAfter(s, k, fromEeprom)[fn := Wanted(s, fn as nat, fromEeprom)];
    forall i | 0 <= i < FunctionCount
      ensures f1[i] == f0[i]
    {
      if i != fn as int {
        assert Slot(i) != k;
      }
    }
    var e1, e0 := EepromAfter(s, k + 1), EepromAfter(s, k)[fn := Bit(s.functionsAllowed[fn])];
    forall i | 0 <= i < EepromSize
      ensures e1[i] == e0[i]
    {
      if i != fn as int && i < FunctionCount {
        assert Slot(i) != k;
      }
    }
  }

  /** The call in slot `k` - 1, from a board holding the state after the first `k` - 1 calls, gives the state after `k`. */
  lemma ReplayStep(b: Board, p: Board, k: nat, fromEeprom: bool, intended: bool, a: CcMppt.WatchdogAnswers)
    requires ValidState(b.sys) && ValidState(p.sys) && 0 < k <= FunctionCount
    requires p.sys.functionsAllowed == ReplayedFlagsAfter(b.sys, k - 1, fromEeprom, intended)
    requires p.sys.eeprom == if fromEeprom then b.sys.eeprom else EepromAfter(b.sys, k - 1)
    ensures var r := ReplayCall(p, BeginOrder[k - 1], fromEeprom, intended, a);
      && r.sys.functionsAllowed == ReplayedFlagsAfter(b.sys, k, fromEeprom, intended)
      && r.sys.eeprom == if fromEeprom then b.sys.eeprom else EepromAfter(b.sys, k)
  {
    AfterStep(b.sys, k - 1, fromEeprom);
    var fn := BeginOrder[k - 1];
    assert Slot(fn as nat) == k - 1;
    if !(fromEeprom && !intended) {
      assert p.sys.functionsAllowed == FlagsAfter(b.sys, k - 1, fromEeprom);
      assert Wanted(p.sys, fn as nat, fromEeprom) == Wanted(b.sys, fn as nat, fromEeprom);
    }
  }

  /** After `k` calls the flags are `ReplayedFlagsAfter` and the EEPROM, when replaying the memory, `EepromAfter`. */
  lemma {:induction false} ReplayedFlags(b: Board, k: nat, fromEeprom: bool, intended: bool, a: CcMppt.WatchdogAnswers)
    requires ValidState(b.sys) && k <= FunctionCount
    ensures var r := Replayed(b, k, fromEeprom, intended, a);
      && r.sys.functionsAllowed == ReplayedFlagsAfter(b.sys, k, fromEeprom, intended)
      && r.sys.eeprom == if fromEeprom then b.sys.eeprom else EepromAfter(b.sys, k)
  {
    if k == 0 {
      NothingReplayed(b.sys, fromEeprom);
    } else {
      var p := Replayed(b, k - 1, fromEeprom, intended, a);
      ReplayedFlags(b, k - 1, fromEeprom, intended, a);
      ReplayStep(b, p, k, fromEeprom, intended, a);
    }
  }

  /** Before any call, the flags and the EEPROM are those of the board. */
  lemma NothingReplayed(s: SysState, fromEeprom: bool)
    requires ValidState(s)
    ensures FlagsAfter(s, 0, fromEeprom) == s.functionsAllowed
    ensures EepromAfter(s, 0) == s.eeprom
  {
  }

  /**
   * The EEPROM block of `begin`: with a version byte other than
   * `EepromVersion` the flags in memory are saved and the version written;
   * otherwise every stored flag is replayed without saving.  `intended`
   * chooses the corrected flag storage, under which that replay loads the
   * stored flags into memory.
   */
  function EepromBlock(b: Board, a: CcMppt.WatchdogAnswers, intended: bool): (r: Board)
    requires ValidState(b.sys)
    ensures ValidState(r.sys)
  {
    if b.sys.eeprom[AddressVersion] != EepromVersion then
      var p := Replayed(b, FunctionCount, false, intended, a);
      p.(sys := p.sys.(eeprom := p.sys.eeprom[AddressVersion := EepromVersion]))
    else Replayed(b, FunctionCount, true, intended, a)
  }

  /** The EEPROM block as the firmware has it. */
  function EepromLoaded(b: Board, a: CcMppt.WatchdogAnswers): (r: Board)
    requires ValidState(b.sys)
    ensures ValidState(r.sys)
  {
    EepromBlock(b, a, false)
  }

  /** The EEPROM block with the corrected flag storage. */
  function EepromLoadedIntended(b: Board, a: CcMppt.WatchdogAnswers): (r: Board)
    requires ValidState(b.sys)
    ensures ValidState(r.sys)
  {
    EepromBlock(b, a, true)
  }

  /**
   * As written, with the current version in the EEPROM, `begin` leaves the
   * flags in memory at their compiled-in values and writes nothing: the
   * stored flags only drive the side effects of the replayed calls.
   */
  lemma BeginKeepsCompiledFlags(b: Board, a: CcMppt.WatchdogAnswers)
    requires ValidState(b.sys) && b.sys.eeprom[AddressVersion] == EepromVersion
    ensures var r := EepromLoaded(b, a);
      r.sys.functionsAllowed == b.sys.functionsAllowed && r.sys.eeprom == b.sys.eeprom
  {
    ReplayedFlags(b, FunctionCount, true, false, a);
  }

  /** Each call of that replay is given the byte stored for its flag, unsaved. */
  lemma ReplayUsesStoredByte(b: Board, k: nat, a: CcMppt.WatchdogAnswers)
    requires ValidState(b.sys) && k < FunctionCount
    ensures Replayed(b, k + 1, true, false, a)
         == FunctionSet(Replayed(b, k, true, false, a), BeginOrder[k], b.sys.eeprom[BeginOrder[k]] != 0, false, a)
  {
    ReplayedFlags(b, k, true, false, a);
  }

  /** Corrected, with the current version in the EEPROM, `begin` loads every stored flag and writes nothing. */
  lemma BeginRestoresFlagsIntended(b: Board, a: CcMppt.WatchdogAnswers)
    requires ValidState(b.sys) && b.sys.eeprom[AddressVersion] == EepromVersion
    ensures var r := EepromLoadedIntended(b, a);
      && (forall fn :: 0 <= fn < FunctionCount ==> r.sys.functionsAllowed[fn] == (b.sys.eeprom[fn] != 0))
      && r.sys.eeprom == b.sys.eeprom
  {
    ReplayedFlags(b, FunctionCount, true, true, a);
    var f := FlagsAfter(b.sys, FunctionCount, true);
    assert forall fn :: 0 <= fn < FunctionCount ==> f[fn] == (b.sys.eeprom[fn] != 0);
  }

  /** With another version, `begin` keeps the flags in memory, saves each of them and then the version; both storages agree here. */
  lemma BeginSavesFlags(b: Board, a: CcMppt.WatchdogAnswers, intended: bool)
    requires ValidState(b.sys) && b.sys.eeprom[AddressVersion] != EepromVersion
    ensures var r := EepromBlock(b, a, intended);
      && r.sys.functionsAllowed == b.sys.functionsAllowed
      && (forall fn :: 0 <= fn < FunctionCount ==> r.sys.eeprom[fn] == Bit(b.sys.functionsAllowed[fn]))
      && r.sys.eeprom[AddressVersion] == EepromVersion
      && (forall i :: FunctionCount <= i < EepromSize && i != AddressVersion as int ==> r.sys.eeprom[i] == b.sys.eeprom[i])
  {
    ReplayedFlags(b, FunctionCount, false, intended, a);
    assert FlagsAfter(b.sys, FunctionCount, false) == b.sys.functionsAllowed;
  }

  /**
   * Corrected, a first boot on a foreign EEPROM followed by a reboot (the
   * compiled-in flags again) ends with the same flags as the first boot:
   * what is saved is what is loaded.
   */
  lemma BeginRoundTripIntended(b: Board, reboot: Board, a1: CcMppt.WatchdogAnswers, a2: CcMppt.WatchdogAnswers)
    requires ValidState(b.sys) && b.sys.eeprom[AddressVersion] != EepromVersion
    requires ValidState(reboot.sys) && reboot.sys.eeprom == EepromLoadedIntended(b, a1).sys.eeprom
    ensures EepromLoadedIntended(reboot, a2).sys.functionsAllowed == EepromLoadedIntended(b, a1).sys.functionsAllowed
  {
    BeginSavesFlags(b, a1, true);
    BeginRestoresFlagsIntended(reboot, a2);
  }

  /**
   * As written, a flag saved as `false` (by `set`, say) whose compiled-in
   * value is `true` is `true` again in memory after the next boot.
   */
  lemma BeginForgetsSavedFlag(b: Board, fn: nat, a: CcMppt.WatchdogAnswers)
    requires ValidState(b.sys) && b.sys.eeprom[AddressVersion] == EepromVersion
    requires fn < FunctionCount && b.sys.eeprom[fn] == 0 && b.sys.functionsAllowed[fn]
    ensures EepromLoaded(b, a).sys.functionsAllowed[fn]
    ensures !EepromLoadedIntended(b, a).sys.functionsAllowed[fn]
  {
    BeginKeepsCompiledFlags(b, a);
    BeginRestoresFlagsIntended(b, a);
  }

  /** The EEPROM block of `begin`: the eight `setFunctionAllowed` calls, in `BeginOrder`, then the version when it differed. */
  method LoadEeprom(a: CcMppt.WatchdogAnswers, system: System, mppt: CcMppt.MpptMonitor, comm: Communication)
    requires system.Valid()
    modifies system, mppt`init, mppt`values, mppt`watchdogManagedByUser, mppt`ops, mppt`timer, comm`log
    ensures system.Valid()
    ensures Board(system.State(), mppt.State(), comm.State())
         == EepromLoaded(Board(old(system.State()), old(mppt.State()), old(comm.State())), a)
  {
    ghost var b := Board(system.State(), mppt.State(), comm.State());
    var fromEeprom := system.eeprom[AddressVersion] == EepromVersion;
    for k := 0 to FunctionCount
      invariant system.Valid()
      invariant Board(system.State(), mppt.State(), comm.State()) == Replayed(b, k, fromEeprom, false, a)
    {
      var fn := BeginOrder[k];
      var value := if fromEeprom then system.eeprom[fn] != 0 else system.functionsAllowed[fn];
      SetFunctionAllowed(fn, value, !fromEeprom, a, system, mppt, comm);
    }
    if !fromEeprom {
      system.eeprom := system.eeprom[AddressVersion := EepromVersion];
    }
  }

  // ---------------------------------------------------------------------
  // The send decisions of update

  /** The arguments of `communication->update`. */
  datatype Sends = Sends(telemetry: bool, position: bool, status: bool)

  /**
   * Whether `update` calls the pipeline, and with what: telemetry on its
   * force flag or timer, the position likewise, the status on its timer
   * only.
   */
  function SendsDue(forceTelemetry: bool, forcePosition: bool, telemetryExpired: bool, positionExpired: bool,
                    statusExpired: bool): (r: Option<Sends>)
  {
    if telemetryExpired || positionExpired || statusExpired || forceTelemetry || forcePosition then
      Some(Sends(forceTelemetry || telemetryExpired, forcePosition || positionExpired, statusExpired))
    else None
  }

  /**
   * The pipeline is called iff something is asked of it; a forced report
   * never sends the status, and a force flag alone is enough for its own
   * report.
   */
  lemma SendsDueIff(forceTelemetry: bool, forcePosition: bool, telemetryExpired: bool, positionExpired: bool, statusExpired: bool)
    ensures var r := SendsDue(forceTelemetry, forcePosition, telemetryExpired, positionExpired, statusExpired);
      && (r.Some? ==> r.value.telemetry || r.value.position || r.value.status)
      && (r.None? <==> !forceTelemetry && !forcePosition && !telemetryExpired && !positionExpired && !statusExpired)
      && (forceTelemetry ==> r.Some? && r.value.telemetry)
      && (forcePosition ==> r.Some? && r.value.position)
      && (r.Some? && r.value.status ==> statusExpired)
  {
  }

  /** The timers `update` restarts: those that had expired, in the order telemetry, position, status. */
  function Restarts(telemetryExpired: bool, positionExpired: bool, statusExpired: bool): (e: seq<SysEffect>)
    ensures Restart(TelemetryTimer) in e <==> telemetryExpired
    ensures Restart(PositionTimer) in e <==> positionExpired
    ensures Restart(StatusTimer) in e <==> statusExpired
  {
    (if telemetryExpired then [Restart(TelemetryTimer)] else [])
    + (if positionExpired then [Restart(PositionTimer)] else [])
    + (if statusExpired then [Restart(StatusTimer)] else [])
  }

  /**
   * The sending part of `update`: when due, the pipeline's `update`, then
   * both force flags cleared and the expired timers restarted; otherwise
   * nothing.
   */
  function UpdateSends(c: CommState, s: SysState, telemetryExpired: bool, positionExpired: bool, statusExpired: bool,
                       rd: Readings, weatherError: bool, pressurePositive: bool,
                       encode: Packet -> seq<byte>, busy: seq<seq<bool>>): (r: Step)
    requires ValidState(s) && Channels(busy, 6)
    ensures ValidState(r.sys) && FlagsKept(s, r.sys)
  {
    if telemetryExpired || positionExpired || statusExpired || s.forceSendTelemetry || s.forceSendPosition then
      SendsCleared(UpdateStep(c, s, s.forceSendTelemetry || telemetryExpired, s.forceSendPosition || positionExpired, statusExpired,
                              rd, weatherError, pressurePositive, encode, busy),
                   telemetryExpired, positionExpired, statusExpired)
    else Step(false, c, s)
  }

  /** After the pipeline's `update`: both force flags cleared and the expired timers restarted. */
  function SendsCleared(u: Step, telemetryExpired: bool, positionExpired: bool, statusExpired: bool): (r: Step)
    ensures r.comm == u.comm && FlagsKept(u.sys, r.sys)
  {
    Step(u.ok, u.comm, u.sys.(forceSendTelemetry := false, forceSendPosition := false,
                              log := u.sys.log + Restarts(telemetryExpired, positionExpired, statusExpired)))
  }

  /** The sending part of `update` hands the pipeline exactly the plan of `SendsDue`, and does nothing without one. */
  lemma UpdateSendsFollowsPlan(c: CommState, s: SysState, telemetryExpired: bool, positionExpired: bool, statusExpired: bool,
                               rd: Readings, weatherError: bool, pressurePositive: bool,
                               encode: Packet -> seq<byte>, busy: seq<seq<bool>>)
    requires ValidState(s) && Channels(busy, 6)
    ensures var r := UpdateSends(c, s, telemetryExpired, positionExpired, statusExpired, rd, weatherError, pressurePositive, encode, busy);
      match SendsDue(s.forceSendTelemetry, s.forceSendPosition, telemetryExpired, positionExpired, statusExpired)
      case None => r == Step(false, c, s)
      case Some(d) =>
        r == SendsCleared(UpdateStep(c, s, d.telemetry, d.position, d.status, rd, weatherError, pressurePositive, encode, busy),
                          telemetryExpired, positionExpired, statusExpired)
  {
  }

  /** After the sending part of `update` no report is forced any more, and a forced one was handed to the pipeline. */
  lemma UpdateSendsClearsForce(c: CommState, s: SysState, telemetryExpired: bool, positionExpired: bool, statusExpired: bool,
                               rd: Readings, weatherError: bool, pressurePositive: bool,
                               encode: Packet -> seq<byte>, busy: seq<seq<bool>>)
    requires ValidState(s) && Channels(busy, 6)
    ensures var r := UpdateSends(c, s, telemetryExpired, positionExpired, statusExpired, rd, weatherError, pressurePositive, encode, busy);
      && !r.sys.forceSendTelemetry && !r.sys.forceSendPosition
      && (s.forceSendTelemetry || s.forceSendPosition || telemetryExpired || positionExpired || statusExpired || r == Step(false, c, s))
      && (s.forceSendTelemetry && !s.forceSendPosition && !positionExpired && !statusExpired ==>
            r.comm == UpdateStep(c, s, true, false, false, rd, weatherError, pressurePositive, encode, busy).comm)
  {
    if !(s.forceSendTelemetry || s.forceSendPosition || telemetryExpired || positionExpired || statusExpired) {
      assert !s.forceSendTelemetry && !s.forceSendPosition;
    }
  }

  /** The sending part of `update`. */
  method SendDue(telemetryExpired: bool, positionExpired: bool, statusExpired: bool,
                 rd: Readings, weatherError: bool, pressurePositive: bool,
                 encode: Packet -> seq<byte>, busy: seq<seq<bool>>, system: System, comm: Communication)
    requires comm.Valid() && system.Valid() && Channels(busy, 6)
    modifies comm`log, comm`shouldSendTelemetryParams, comm`telemetrySequenceNumber, comm.buffer
    modifies system`log, system`ledColor, system`nbError, system`forceSendTelemetry, system`forceSendPosition
    ensures system.Valid()
    ensures comm.State() == UpdateSends(old(comm.State()), old(system.State()), telemetryExpired, positionExpired, statusExpired,
                                        rd, weatherError, pressurePositive, encode, busy).comm
    ensures system.State() == UpdateSends(old(comm.State()), old(system.State()), telemetryExpired, positionExpired, statusExpired,
                                          rd, weatherError, pressurePositive, encode, busy).sys
  {
    if telemetryExpired || positionExpired || statusExpired || system.forceSendTelemetry || system.forceSendPosition {
      ghost var u := UpdateStep(comm.State(), system.State(), system.forceSendTelemetry || telemetryExpired,
                                system.forceSendPosition || positionExpired, statusExpired,
                                rd, weatherError, pressurePositive, encode, busy);
      comm.Update(system.forceSendTelemetry || telemetryExpired, system.forceSendPosition || positionExpired, statusExpired,
                  rd, weatherError, pressurePositive, encode, busy, system);
      assert comm.State() == u.comm && system.State() == u.sys;
      SendsDone(telemetryExpired, positionExpired, statusExpired, system);
      assert Step(u.ok, comm.State(), system.State()) == SendsCleared(u, telemetryExpired, positionExpired, statusExpired);
    }
  }

  /** The end of the sending part of `update`: both force flags cleared, the expired timers restarted. */
  method SendsDone(telemetryExpired: bool, positionExpired: bool, statusExpired: bool, system: System)
    modifies system`log, system`forceSendTelemetry, system`forceSendPosition
    ensures system.State() == old(system.State()).(forceSendTelemetry := false, forceSendPosition := false,
      log := old(system.log) + Restarts(telemetryExpired, positionExpired, statusExpired))
  {
    system.forceSendTelemetry := false;
    system.forceSendPosition := false;
    system.log := system.log + Restarts(telemetryExpired, positionExpired, statusExpired);
  }

  /** The levels after switching a relay off when it was on (its pin driven high, the relays being inverted). */
  function SwitchedOff(levels: map<Pin, bool>, pin: Pin, on: bool): map<Pin, bool>
  {
    if on then levels[pin := Level(false, true)] else levels
  }

  /** The relay part of `update`: with the charger's output off, each relay that is on is switched off, relay 2 first. */
  method RelaysOffWhenUnpowered(powerEnabled: bool, gpio: Gpio, system: System)
    modifies gpio`relay1, gpio`relay2, gpio`levels, gpio`reports, system`forceSendTelemetry
    ensures !powerEnabled ==> !gpio.relay1 && !gpio.relay2
    ensures powerEnabled ==> gpio.relay1 == old(gpio.relay1) && gpio.relay2 == old(gpio.relay2)
    ensures gpio.levels == if powerEnabled then old(gpio.levels)
      else SwitchedOff(SwitchedOff(old(gpio.levels), Relay2Pin, old(gpio.relay2)), Relay1Pin, old(gpio.relay1))
    ensures gpio.reports == old(gpio.reports) +
      (if powerEnabled || !gpio.initialized then []
       else (if old(gpio.relay2) then [Report(old(gpio.relay1), false)] else [])
            + (if old(gpio.relay1) then [Report(false, false)] else []))
    ensures system.forceSendTelemetry == (old(system.forceSendTelemetry) || (!powerEnabled && old(gpio.relay2)))
  {
    if !powerEnabled {
      if gpio.relay2 {
        gpio.SetRelay2(false, system);
      }
      if gpio.relay1 {
        gpio.SetRelay1(false);
      }
    }
  }
}
