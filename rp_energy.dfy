/**
 * The energy tasks of the rp2040 firmware: the generic task
 * (src/Threads/EnergyThread.cpp, include/Threads/EnergyThread.h) and its
 * dummy, ADC and MPPT-charger variants (src/Threads/Energy/).
 *
 * A fetcher either fails, succeeds without changing anything (the default
 * fetchers), or succeeds with a new reading; the readings of the ADC and of
 * the charger are inputs.
 */
module RpEnergy {
  import opened RpConfig
  import opened Ints
  import opened Charger
  import opened RpMain
  import opened Wrappers

  /** Battery and solar voltages (mV) and currents (mA), all `int16_t` and 0 at start. */
  datatype Readings = Readings(vBat: int16, iBat: int16, vSol: int16, iSol: int16)

  const InitialReadings: Readings := Readings(0, 0, 0, 0)

  /** Outcome of one fetcher. */
  datatype Fetch = Failed | Kept | Read(value: int16)

  /** Index of each reading in the fetch order of `runOnce`. */
  const IndexVb: nat := 0
  const IndexIb: nat := 1
  const IndexVs: nat := 2
  const IndexIs: nat := 3

  function ApplyFetch(r: Readings, k: nat, f: Fetch): Readings
  {
    if !f.Read? then r
    else if k == IndexVb then r.(vBat := f.value)
    else if k == IndexIb then r.(iBat := f.value)
    else if k == IndexVs then r.(vSol := f.value)
    else r.(iSol := f.value)
  }

  /** The fetchers from index `k` on, stopping at the first failure. */
  function FetchFrom(r: Readings, fetches: seq<Fetch>, k: nat): (res: (bool, Readings))
    requires k <= |fetches|
    ensures res.0 <==> forall i :: k <= i < |fetches| ==> !fetches[i].Failed?
    decreases |fetches| - k
  {
    if k == |fetches| then (true, r)
    else if fetches[k].Failed? then (false, r)
    else FetchFrom(ApplyFetch(r, k, fetches[k]), fetches, k + 1)
  }

  /** `EnergyThread::runOnce`: vb, ib, vs, is in that order, false at the first failure. */
  function RunFetches(r: Readings, fetches: seq<Fetch>): (res: (bool, Readings))
    requires |fetches| == 4
    ensures res.0 <==> forall i :: 0 <= i < 4 ==> !fetches[i].Failed?
  {
    FetchFrom(r, fetches, 0)
  }

  /** A failing fetcher leaves its reading and all later ones unchanged. */
  lemma {:induction false} FetchStopsAtFailure(r: Readings, fetches: seq<Fetch>, k: nat)
    requires |fetches| == 4 && k <= 4
    requires forall i :: k <= i < 4 ==> fetches[i].Failed? || fetches[i].Kept?
    ensures FetchFrom(r, fetches, k).1 == r
    decreases 4 - k
  {
    if k < 4 && !fetches[k].Failed? {
      FetchStopsAtFailure(ApplyFetch(r, k, fetches[k]), fetches, k + 1);
    }
  }

  /** `getCurrentCharge`: `is - ib`, returned as `int16_t`. */
  function CurrentCharge(r: Readings): int16
  {
    WrapInt16(r.iSol - r.iBat)
  }

  /** Default `isNight`: the solar voltage is below 2000 mV. */
  predicate DefaultIsNight(r: Readings)
  {
    r.vSol < 2000
  }

  // ---------------------------------------------------------------------
  // Battery percentage from an open-circuit-voltage table

  /** C division of a signed value by a positive one (truncation toward zero). */
  function TruncDiv(a: int, b: nat): int
    requires b > 0
  {
    if a >= 0 then a / b else -((-a) / b)
  }

  /** The per-cell voltage `getVoltageBattery() / numCells`, stored as `uint16_t`. */
  function CellVoltage(vBat: int16, numCells: nat): uint16
    requires numCells > 0
  {
    Wrap16(TruncDiv(vBat, numCells))
  }

  /** The first table index from `from` on whose voltage is at most `v`. */
  function FirstAtOrBelow(ocv: seq<uint16>, v: int, from: nat): (r: Option<nat>)
    requires from <= |ocv|
    ensures r.Some? ==> from <= r.value < |ocv| && ocv[r.value] <= v
    ensures r.Some? ==> forall j :: from <= j < r.value ==> ocv[j] > v
    ensures r.None? ==> forall j :: from <= j < |ocv| ==> ocv[j] > v
    decreases |ocv| - from
  {
    if from == |ocv| then None
    else if ocv[from] <= v then Some(from)
    else FirstAtOrBelow(ocv, v, from + 1)
  }

  /**
   * `getBatteryPercentage`.  `ocv` is the table (empty for a null table);
   * `interpolate(i)` is the state of charge interpolated between points
   * `i - 1` and `i`, already truncated to an integer (floating point is not
   * part of this model).
   */
  function BatteryPercentage(ocv: seq<uint16>, vBat: int16, numCells: nat, interpolate: nat -> int): (p: nat)
    requires |ocv| == 0 || numCells > 0
    ensures p <= 100
    ensures |ocv| == 0 ==> p == 0
    ensures |ocv| > 0 && CellVoltage(vBat, numCells) >= ocv[0] ==> p == 100
    ensures |ocv| > 0 && (forall j :: 0 <= j < |ocv| ==> ocv[j] > CellVoltage(vBat, numCells)) ==> p == 0
  {
    if |ocv| == 0 then 0
    else
      var soc := match FirstAtOrBelow(ocv, CellVoltage(vBat, numCells), 0)
        case None => 0
        case Some(i) => if i == 0 then 100 else interpolate(i);
      Clamp(Wrap16(soc), 0, 100)
  }

  /** The percentage is interpolated at the first table point at or below the cell voltage. */
  lemma UsesFirstPointBelow(ocv: seq<uint16>, vBat: int16, numCells: nat, interpolate: nat -> int, i: nat)
    requires numCells > 0 && 0 < i < |ocv|
    requires ocv[i] <= CellVoltage(vBat, numCells)
    requires forall j :: 0 <= j < i ==> ocv[j] > CellVoltage(vBat, numCells)
    ensures BatteryPercentage(ocv, vBat, numCells, interpolate) == Clamp(Wrap16(interpolate(i)), 0, 100)
  {
    var r := FirstAtOrBelow(ocv, CellVoltage(vBat, numCells), 0);
    assert r == Some(i);
  }

  /** The loop of `getBatteryPercentage`, scanning the table in order. */
  method GetBatteryPercentage(ocv: seq<uint16>, vBat: int16, numCells: nat, interpolate: nat -> int) returns (p: byte)
    requires |ocv| == 0 || numCells > 0
    ensures p == BatteryPercentage(ocv, vBat, numCells, interpolate)
  {
    if |ocv| == 0 {
      return 0;
    }
    var voltage := CellVoltage(vBat, numCells);
    var soc := 0;
    var i := 0;
    while i < |ocv|
      invariant 0 <= i <= |ocv|
      invariant forall j :: 0 <= j < i ==> ocv[j] > voltage
      invariant soc == 0
    {
      if ocv[i] <= voltage {
        if i == 0 {
          soc := 100;
        } else {
          soc := interpolate(i);
          UsesFirstPointBelow(ocv, vBat, numCells, interpolate, i);
        }
        break;
      }
      i := i + 1;
    }
    p := Clamp(Wrap16(soc), 0, 100);
  }

  /** Table of the MPPT-charger variant (mV), highest first. */
  const MpptOcvTable: seq<uint16> := [12700, 12500, 12420, 12320, 12200, 12060, 11900, 11750, 11580, 11310, 10500]

  // ---------------------------------------------------------------------
  // Variants

  /** EnergyDummyThread: constant readings. */
  const DummyFetches: seq<Fetch> := [Read(12345), Read(123), Read(23456), Read(345)]

  /** After a dummy run the readings are the constants, the charge current is 222 mA and it is never night. */
  lemma DummyRun(r: Readings)
    ensures RunFetches(r, DummyFetches) == (true, Readings(12345, 123, 23456, 345))
    ensures CurrentCharge(RunFetches(r, DummyFetches).1) == 222
    ensures !DefaultIsNight(RunFetches(r, DummyFetches).1)
  {
  }

  function SumSamples(s: seq<uint16>): nat
  {
    if s == [] then 0 else SumSamples(s[..|s| - 1]) + s[|s| - 1]
  }

  /** EnergyAdcThread::fetchVoltageBattery: the integer mean of the samples, stored as `int16_t`; always succeeds. */
  method AdcFetchVoltageBattery(samples: seq<uint16>) returns (ok: bool, vBat: int16)
    requires |samples| == EnergyAdcBatterySenseSamples
    ensures ok && vBat == WrapInt16(SumSamples(samples) / EnergyAdcBatterySenseSamples)
  {
    var raw: uint32 := 0;
    var i := 0;
    while i < EnergyAdcBatterySenseSamples
      invariant 0 <= i <= EnergyAdcBatterySenseSamples
      invariant raw == SumSamples(samples[..i])
      invariant raw <= i * 0xFFFF
    {
      assert samples[..i + 1][..i] == samples[..i];
      raw := raw + samples[i];
      i := i + 1;
    }
    assert samples[..i] == samples;
    vBat := WrapInt16(raw / EnergyAdcBatterySenseSamples);
    ok := true;
  }

  /** Only the battery voltage is fetched by the ADC variant; the other fetchers are the defaults. */
  function AdcFetches(vBat: int16): seq<Fetch>
  {
    [Read(vBat), Kept, Kept, Kept]
  }

  lemma {:induction false} SumBelow(s: seq<uint16>, bound: nat)
    requires forall i :: 0 <= i < |s| ==> s[i] < bound
    ensures SumSamples(s) <= |s| * (if bound == 0 then 0 else bound - 1)
  {
    if s != [] {
      SumBelow(s[..|s| - 1], bound);
    }
  }

  /**
   * With 12-bit samples the mean fits `int16_t`, so the stored voltage is
   * the mean itself; an ADC run changes the battery voltage only.
   */
  lemma AdcMeanFits(samples: seq<uint16>, r: Readings)
    requires |samples| == EnergyAdcBatterySenseSamples
    requires forall i :: 0 <= i < |samples| ==> samples[i] < 4096
    ensures 0 <= SumSamples(samples) / EnergyAdcBatterySenseSamples < 4096
    ensures WrapInt16(SumSamples(samples) / EnergyAdcBatterySenseSamples) == SumSamples(samples) / EnergyAdcBatterySenseSamples
    ensures var v := WrapInt16(SumSamples(samples) / EnergyAdcBatterySenseSamples);
      RunFetches(r, AdcFetches(v)) == (true, r.(vBat := v))
  {
    SumBelow(samples, 4096);
    var v := WrapInt16(SumSamples(samples) / EnergyAdcBatterySenseSamples);
    var f := AdcFetches(v);
    assert FetchFrom(r, f, 0) == FetchFrom(r.(vBat := v), f, 1);
    assert FetchFrom(r.(vBat := v), f, 1) == FetchFrom(r.(vBat := v), f, 2);
    assert FetchFrom(r.(vBat := v), f, 2) == FetchFrom(r.(vBat := v), f, 4);
  }

  /** EnergyMpptChgThread fetchers: each reads one charger register, in the order VB, IB, VS, IS. */
  function MpptFetches(answers: seq<Option<int16>>): (f: seq<Fetch>)
    requires |answers| == 4
    ensures |f| == 4
    ensures forall i :: 0 <= i < 4 ==> (f[i].Failed? <==> answers[i].None?)
    ensures forall i :: 0 <= i < 4 ==> answers[i].Some? ==> f[i] == Read(answers[i].value)
  {
    seq(4, i requires 0 <= i < 4 => if answers[i].None? then Failed else Read(answers[i].value))
  }

  /** The registers read by the MPPT fetchers, in order. */
  const MpptFetchOps: seq<Op> := [GetIndexedValue(VB), GetIndexedValue(IB), GetIndexedValue(VS), GetIndexedValue(IS)]

  /** `setPowerOnOff(on, off)`: the ON threshold, then the OFF threshold. */
  function PowerOnOffOps(powerOn: uint16, powerOff: uint16): seq<Op>
  {
    [SetConfigurationValue(PowerOnThreshold, powerOn), SetConfigurationValue(PowerOffThreshold, powerOff)]
  }

  /** `EnergyMpptChgThread::init` as written: `begin() && setPowerOnOff(mpptPowerOffVoltage, mpptPowerOnVoltage)`. */
  function MpptEnergyInitOps(mpptPowerOnVoltage: uint16, mpptPowerOffVoltage: uint16): seq<Op>
  {
    [Op.Begin] + PowerOnOffOps(mpptPowerOffVoltage, mpptPowerOnVoltage)
  }

  /** As written, the charger's ON threshold receives the configured power-off voltage and the OFF threshold the power-on voltage. */
  lemma MpptEnergyInitSwapsThresholds(mpptPowerOnVoltage: uint16, mpptPowerOffVoltage: uint16)
    ensures MpptEnergyInitOps(mpptPowerOnVoltage, mpptPowerOffVoltage)[1] == SetConfigurationValue(PowerOnThreshold, mpptPowerOffVoltage)
    ensures MpptEnergyInitOps(mpptPowerOnVoltage, mpptPowerOffVoltage)[2] == SetConfigurationValue(PowerOffThreshold, mpptPowerOnVoltage)
    ensures mpptPowerOnVoltage != mpptPowerOffVoltage ==>
      SetConfigurationValue(PowerOnThreshold, mpptPowerOnVoltage) !in MpptEnergyInitOps(mpptPowerOnVoltage, mpptPowerOffVoltage)
  {
  }

  /** The intended `init`: each threshold receives the setting of the same name. */
  function MpptEnergyInitOpsIntended(mpptPowerOnVoltage: uint16, mpptPowerOffVoltage: uint16): (ops: seq<Op>)
    ensures |ops| == 3 && ops[0] == Op.Begin
    ensures SetConfigurationValue(PowerOnThreshold, mpptPowerOnVoltage) in ops
    ensures SetConfigurationValue(PowerOffThreshold, mpptPowerOffVoltage) in ops
    ensures forall i :: 0 <= i < |ops| && ops[i].SetConfigurationValue? ==>
      ops[i].millivolts == (if ops[i].config == PowerOnThreshold then mpptPowerOnVoltage else mpptPowerOffVoltage)
  {
    [Op.Begin] + PowerOnOffOps(mpptPowerOnVoltage, mpptPowerOffVoltage)
  }

  /** `fetchOthersData`: the night flag, then the status, short-circuiting. */
  function FetchOthersOps(nightOk: bool): seq<Op>
  {
    if nightOk then [IsNight, GetStatusValue] else [IsNight]
  }

  /** The state owned by an energy task. */
  class EnergyMonitor {
    var vBat: int16
    var iBat: int16
    var vSol: int16
    var iSol: int16
    /** MPPT variant: last night flag and status read. */
    var night: bool
    var status: uint16
    /** Charger calls issued (MPPT variant). */
    var issued: seq<Op>

    function Current(): Readings
      reads this
    {
      Readings(vBat, iBat, vSol, iSol)
    }

    constructor ()
      ensures Current() == InitialReadings && !night && status == 0 && issued == []
    {
      vBat, iBat, vSol, iSol := 0, 0, 0, 0;
      night := false;
      status := 0;
      issued := [];
    }

    method Apply(k: nat, f: Fetch) returns (ok: bool)
      modifies this
      ensures ok == !f.Failed?
      ensures Current() == ApplyFetch(old(Current()), k, f)
      ensures night == old(night) && status == old(status) && issued == old(issued)
    {
      if f.Failed? {
        return false;
      }
      if f.Read? {
        if k == IndexVb { vBat := f.value; }
        else if k == IndexIb { iBat := f.value; }
        else if k == IndexVs { vSol := f.value; }
        else { iSol := f.value; }
      }
      ok := true;
    }

    /** `EnergyThread::runOnce`. */
    method RunOnce(fetches: seq<Fetch>) returns (ok: bool)
      requires |fetches| == 4
      modifies this
      ensures (ok, Current()) == RunFetches(old(Current()), fetches)
      ensures night == old(night) && status == old(status) && issued == old(issued)
    {
      ok := Apply(IndexVb, fetches[0]);
      if !ok { return; }
      assert FetchFrom(old(Current()), fetches, 0) == FetchFrom(Current(), fetches, 1);
      ok := Apply(IndexIb, fetches[1]);
      if !ok { return; }
      assert FetchFrom(old(Current()), fetches, 0) == FetchFrom(Current(), fetches, 2);
      ok := Apply(IndexVs, fetches[2]);
      if !ok { return; }
      assert FetchFrom(old(Current()), fetches, 0) == FetchFrom(Current(), fetches, 3);
      ok := Apply(IndexIs, fetches[3]);
      if ok {
        assert FetchFrom(old(Current()), fetches, 0) == FetchFrom(Current(), fetches, 4);
      }
    }

    /** `fetchOthersData`: reads the night flag, then the status if that succeeded; its result is ignored by `run`. */
    method FetchOthersData(night: Option<bool>, status: Option<uint16>) returns (ok: bool)
      modifies this
      ensures ok <==> night.Some? && status.Some?
      ensures this.night == (if night.Some? then night.value else old(this.night))
      ensures this.status == (if night.Some? && status.Some? then status.value else old(this.status))
      ensures issued == old(issued) + FetchOthersOps(night.Some?)
      ensures Current() == old(Current())
    {
      issued := issued + [IsNight];
      if night.None? {
        return false;
      }
      this.night := night.value;
      issued := issued + [GetStatusValue];
      if status.None? {
        return false;
      }
      this.status := status.value;
      ok := true;
    }
  }
}
