/**
 * The I2C slave through which the Meshtastic board reads the rp2040's
 * measures (src/I2CSlave.cpp, include/I2CSlave.h): the master writes one
 * byte, the register, then reads two bytes, the register's value, high byte
 * first.
 */
module RpI2c {
  import opened RpConfig
  import opened Ints

  const RegBatteryVoltage: byte := 0x0
  const RegBatteryCurrent: byte := 0x2
  const RegSolarVoltage: byte := 0x4
  const RegSolarCurrent: byte := 0x6
  const RegTemperature: byte := 0x8
  const RegPressure: byte := 0xA
  const RegHumidity: byte := 0xC
  const RegSeconds: byte := 0xE
  const RegMinutes: byte := 0x10
  const RegHours: byte := 0x12
  const RegDays: byte := 0x14
  const RegMonths: byte := 0x16
  const RegYears: byte := 0x18
  const RegPing: byte := 0x1A

  const HasPower: nat := 1
  const HasWeather: nat := 2
  const HasRtc: nat := 4

  /**
   * What the handlers read from the rest of the firmware at the time of a
   * request.  The weather measures are given as the integers the firmware
   * computes from its floating-point readings (temperature × 100, pressure,
   * humidity, truncated toward zero).
   */
  datatype Readings = Readings(
    energyError: bool,
    voltageBattery: int16,
    currentBattery: int16,
    voltageSolar: int16,
    currentSolar: int16,
    weatherEnabled: bool,
    weatherError: bool,
    temperatureCentis: int,
    pressure: int,
    humidity: int,
    rtcEnabled: bool,
    second: byte,
    minute: byte,
    hour: byte,
    day: byte,
    month: byte,
    year: uint16)

  predicate EnergyRegister(reg: byte)
  {
    reg in {RegBatteryVoltage, RegBatteryCurrent, RegSolarVoltage, RegSolarCurrent}
  }

  predicate WeatherRegister(reg: byte)
  {
    reg in {RegTemperature, RegPressure, RegHumidity}
  }

  predicate ClockRegister(reg: byte)
  {
    reg in {RegSeconds, RegMinutes, RegHours, RegDays, RegMonths, RegYears}
  }

  predicate KnownRegister(reg: byte)
  {
    EnergyRegister(reg) || WeatherRegister(reg) || ClockRegister(reg) || reg == RegPing
  }

  /** A signed 16-bit reading stored in the `uint32_t` value. */
  function Widen(x: int16): uint32
  {
    Wrap32(x)
  }

  /** The value `onRequest` computes for a register. */
  function RegisterValue(reg: byte, r: Readings): (v: uint32)
    ensures reg == RegPing ==>
      v == HasPower + (if r.weatherEnabled then HasWeather else 0) + (if r.rtcEnabled then HasRtc else 0)
    ensures EnergyRegister(reg) && r.energyError ==> v == 0
    ensures WeatherRegister(reg) && (!r.weatherEnabled || r.weatherError) ==> v == 0
    ensures !KnownRegister(reg) ==> v == 0
  {
    var weatherOk := r.weatherEnabled && !r.weatherError;
    if reg == RegPing then
      HasPower + (if r.weatherEnabled then HasWeather else 0) + (if r.rtcEnabled then HasRtc else 0)
    else if reg == RegBatteryVoltage then (if !r.energyError then Widen(r.voltageBattery) else 0)
    else if reg == RegBatteryCurrent then (if !r.energyError then Widen(r.currentBattery) else 0)
    else if reg == RegSolarVoltage then (if !r.energyError then Widen(r.voltageSolar) else 0)
    else if reg == RegSolarCurrent then (if !r.energyError then Widen(r.currentSolar) else 0)
    else if reg == RegTemperature then (if weatherOk then Widen(WrapInt16(r.temperatureCentis)) else 0)
    else if reg == RegPressure then (if weatherOk then Widen(WrapInt16(r.pressure)) else 0)
    else if reg == RegHumidity then (if weatherOk then Widen(WrapInt16(r.humidity)) else 0)
    else if reg == RegSeconds then r.second
    else if reg == RegMinutes then r.minute
    else if reg == RegHours then r.hour
    else if reg == RegDays then r.day
    else if reg == RegMonths then r.month
    else if reg == RegYears then r.year
    else 0
  }

  /** The two bytes sent for a value: `value >> 8 & 0xFF`, then `value & 0xFF`. */
  function Encode(v: uint32): (b: seq<byte>)
    ensures |b| == 2
  {
    [(v / TwoTo8) % TwoTo8, v % TwoTo8]
  }

  /** How the master reads the two bytes back, unsigned. */
  function Decode(b: seq<byte>): uint16
    requires |b| == 2
  {
    b[0] * TwoTo8 + b[1]
  }

  /** How the master reads the two bytes back, as a signed 16-bit value. */
  function DecodeSigned(b: seq<byte>): int16
    requires |b| == 2
  {
    var u := Decode(b);
    if u < 0x8000 then u else u - TwoTo16
  }

  lemma Low16(w: nat)
    ensures ((w / TwoTo8) % TwoTo8) * TwoTo8 + w % TwoTo8 == w % TwoTo16
  {
    var q := w / TwoTo16;
    var r := w % TwoTo16;
    assert w == TwoTo16 * q + r;
    assert w / TwoTo8 == TwoTo8 * q + r / TwoTo8;
    assert (w / TwoTo8) % TwoTo8 == r / TwoTo8;
    assert w % TwoTo8 == r % TwoTo8;
  }

  lemma Wrap32Low16(x: int)
    ensures Wrap32(x) % TwoTo16 == x % TwoTo16
  {
    var a := x / TwoTo32;
    assert x == TwoTo32 * a + Wrap32(x);
    assert TwoTo32 * a == TwoTo16 * (TwoTo16 * a);
  }

  /** Only the low 16 bits of a value reach the master, and they do so intact. */
  lemma EncodeKeepsLow16(v: uint32)
    ensures Decode(Encode(v)) == v % TwoTo16
  {
    Low16(v);
  }

  /** A signed reading (voltage, current, temperature × 100, ...) is read back exactly. */
  lemma SignedReadingRoundTrip(x: int16)
    ensures DecodeSigned(Encode(Widen(x))) == x
  {
    EncodeKeepsLow16(Widen(x));
    Wrap32Low16(x);
  }

  /** The three feature bits of `REG_PING` as the master sees them. */
  lemma PingAnnouncesFeatures(r: Readings)
    ensures var u := Decode(Encode(RegisterValue(RegPing, r)));
      u % 2 == 1 && ((u / 2) % 2 == 1 <==> r.weatherEnabled) && ((u / 4) % 2 == 1 <==> r.rtcEnabled) && u < 8
  {
    EncodeKeepsLow16(RegisterValue(RegPing, r));
  }

  /** The weather registers carry the int16 conversion of the measures when the sensor is enabled and healthy. */
  lemma TemperatureReadBack(r: Readings)
    requires r.weatherEnabled && !r.weatherError
    ensures DecodeSigned(Encode(RegisterValue(RegTemperature, r))) == WrapInt16(r.temperatureCentis)
    ensures -0x8000 <= r.temperatureCentis < 0x8000 ==>
      DecodeSigned(Encode(RegisterValue(RegTemperature, r))) == r.temperatureCentis
  {
    SignedReadingRoundTrip(WrapInt16(r.temperatureCentis));
  }

  /** The I2C slave: whether its handlers are registered, and the register to read. */
  class I2CSlave {
    /** `Wire1.begin` succeeded and the handlers are registered. */
    var listening: bool
    /** The address given to `Wire1.begin`. */
    var address: byte
    /** `currentRegToRead`. */
    var currentRegToRead: byte
    /** Every byte written to the master, oldest first. */
    var written: seq<byte>
    /** The times the Meshtastic watchdog was fed from a register write. */
    var feeds: nat

    constructor ()
      ensures !listening && currentRegToRead == 0 && written == [] && feeds == 0
    {
      listening := false;
      address := 0;
      currentRegToRead := 0;
      written := [];
      feeds := 0;
    }

    /** `begin`: the handlers are registered on `address` only when the SDA and the SCL pins are accepted. */
    method Begin(address: byte, sdaOk: bool, sclOk: bool)
      modifies this`listening, this`address
      ensures listening == (old(listening) || (sdaOk && sclOk))
      ensures sdaOk && sclOk ==> this.address == address
      ensures !(sdaOk && sclOk) ==> this.address == old(this.address)
    {
      if !sdaOk {
        return;
      }
      if !sclOk {
        return;
      }
      this.address := address;
      listening := true;
    }

    /** `end`. */
    method End()
      modifies this`listening
      ensures !listening
    {
      listening := false;
    }

    /** `onReceive`: a single byte selects the register and feeds the Meshtastic watchdog when it is enabled; any other count is ignored. */
    method OnReceive(received: seq<byte>, watchdogEnabled: bool)
      modifies this`currentRegToRead, this`feeds
      ensures |received| == 1 ==>
        currentRegToRead == received[0] && feeds == old(feeds) + (if watchdogEnabled then 1 else 0)
      ensures |received| != 1 ==> currentRegToRead == old(currentRegToRead) && feeds == old(feeds)
    {
      if |received| == 1 {
        currentRegToRead := received[0];
        if watchdogEnabled {
          feeds := feeds + 1;
        }
      }
    }

    /** `onRequest`: the two bytes of the selected register's value. */
    method OnRequest(r: Readings)
      modifies this`written
      ensures written == old(written) + Encode(RegisterValue(currentRegToRead, r))
    {
      var value := RegisterValue(currentRegToRead, r);
      written := written + [(value / TwoTo8) % TwoTo8];
      written := written + [value % TwoTo8];
    }
  }

  /** A register write followed by a read sends the two bytes of that register. */
  method WriteThenRead(slave: I2CSlave, reg: byte, watchdogEnabled: bool, r: Readings)
    modifies slave`currentRegToRead, slave`feeds, slave`written
    ensures slave.written == old(slave.written) + Encode(RegisterValue(reg, r))
    ensures Decode(slave.written[|slave.written| - 2..]) == RegisterValue(reg, r) % TwoTo16
  {
    slave.OnReceive([reg], watchdogEnabled);
    slave.OnRequest(r);
    assert slave.written[|slave.written| - 2..] == Encode(RegisterValue(reg, r));
    EncodeKeepsLow16(RegisterValue(reg, r));
  }
}
