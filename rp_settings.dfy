/**
 * The settings record of the rp2040 firmware (include/Settings.h) as seen
 * through the `set`/`get` commands: one `Field` per key the command
 * dispatcher of src/Command.cpp knows, grouped like the sub-structures of
 * the record (`settings.lora`, `settings.aprs`, ...), its C type, the text
 * that `set` parses into it and the text that `get` prints, and the
 * defaults written by `setDefaultSettings` (src/System.cpp).
 *
 * The record is a map from `Field` to `Value`; the key text of a field is
 * `Name(f)`.  Floating-point parsing and printing (`strtof`, `strtod`,
 * `%f`) belong to the C library and are passed in as functions.
 */
module RpSettings {
  import opened RpConfig
  import opened Ints
  import opened Text
  import opened Wrappers

  datatype Width = W8 | W16 | W32 | W64

  /** 2 to the power of the width. */
  function Limit(w: Width): nat
  {
    match w
    case W8 => TwoTo8
    case W16 => TwoTo16
    case W32 => TwoTo32
    case W64 => TwoTo64
  }

  /** The C type of a field and the way `set` and `get` read and write it. */
  datatype Kind =
    | FlagKind
      /**
       * An unsigned field of the given width, parsed with `strtoul` and
       * cast (with `strtoull` for 64 bits), printed in decimal or as
       * `0x%x`; an enum prints with `%d`, so as a signed 32-bit number.
       */
    | NumberKind(width: Width, hex: bool, signed: bool)
    | TextKind
    | CharKind
    | DecimalKind

  datatype Value =
    | Flag(b: bool)
    | Number(n: nat)
    | Text(s: string)
    | Character(c: char)
    | Decimal(r: real)

  const U8: Kind := NumberKind(W8, false, false)
  const U16: Kind := NumberKind(W16, false, false)
  const U64: Kind := NumberKind(W64, false, false)
  /** `static_cast` of `strtoul` into an enum, printed with `%d`. */
  const Enum: Kind := NumberKind(W32, false, true)
  const U8Hex: Kind := NumberKind(W8, true, false)

  /** A value that a field of kind `k` can hold. */
  predicate Fits(v: Value, k: Kind)
  {
    match k
    case FlagKind => v.Flag?
    case NumberKind(w, _, _) => v.Number? && v.n < Limit(w)
    case TextKind => v.Text?
    case CharKind => v.Character?
    case DecimalKind => v.Decimal?
  }

  // ---------------------------------------------------------------------
  // The keys, one datatype per sub-structure of the record

  datatype LoraKey = Frequency | Bandwidth | SpreadingFactor | CodingRate | OutputPower
    | TxEnabled | WatchdogTxEnabled | IntervalTimeoutWatchdogTx

  datatype AprsKey = Call | Destination | Path | Comment | Status | Symbol | SymbolTable
    | Latitude | Longitude | Altitude | DigipeaterEnabled | TelemetryEnabled | IntervalTelemetry
    | StatusEnabled | IntervalStatus | PositionWeatherEnabled | IntervalPositionWeather
    | TelemetryInPosition | TelemetrySequenceNumber

  datatype MeshtasticKey = WatchdogEnabled | IntervalTimeoutWatchdog | Pin | I2cSlaveEnabled | I2cSlaveAddress
    | AprsSendItemEnabled | IntervalSendItem | ItemName | ItemComment | Symbol | SymbolTable
    | Latitude | Longitude | Altitude

  datatype LinuxKey = WatchdogEnabled | IntervalTimeoutWatchdog | Pin | NprPin | WifiPin
    | AprsSendItemEnabled | IntervalSendItem | ItemName | ItemComment | Symbol | SymbolTable
    | Latitude | Longitude | Altitude

  datatype MpptKey = Enabled | Timeout | IntervalFeed | TimeOff

  datatype BoxKey = Enabled | IntervalCheck | Pin

  datatype WeatherKey = Enabled | IntervalCheck

  datatype EnergyKey = IntervalCheck | Type | AdcPin | InaChannelBattery | InaChannelSolar
    | MpptPowerOnVoltage | MpptPowerOffVoltage

  datatype RtcKey = Enabled | WakeUpPin

  /** Every key of the record that the `set` command writes. */
  datatype Field =
    | Lora(lora: LoraKey)
    | Aprs(aprs: AprsKey)
    | Meshtastic(meshtastic: MeshtasticKey)
    | Linux(linux: LinuxKey)
    | MpptWatchdog(mppt: MpptKey)
    | BoxOpened(box: BoxKey)
    | Weather(weather: WeatherKey)
    | Energy(energy: EnergyKey)
    | Rtc(rtc: RtcKey)
    | UseInternalWatchdog

  function LoraName(k: LoraKey): string
  {
    match k
    case Frequency => "frequency"
    case Bandwidth => "bandwidth"
    case SpreadingFactor => "spreadingFactor"
    case CodingRate => "codingRate"
    case OutputPower => "outputPower"
    case TxEnabled => "txEnabled"
    case WatchdogTxEnabled => "watchdogTxEnabled"
    case IntervalTimeoutWatchdogTx => "intervalTimeoutWatchdogTx"
  }

  function AprsName(k: AprsKey): string
  {
    match k
    case Call => "call"
    case Destination => "destination"
    case Path => "path"
    case Comment => "comment"
    case Status => "status"
    case Symbol => "symbol"
    case SymbolTable => "symbolTable"
    case Latitude => "latitude"
    case Longitude => "longitude"
    case Altitude => "altitude"
    case DigipeaterEnabled => "digipeaterEnabled"
    case TelemetryEnabled => "telemetryEnabled"
    case IntervalTelemetry => "intervalTelemetry"
    case StatusEnabled => "statusEnabled"
    case IntervalStatus => "intervalStatus"
    case PositionWeatherEnabled => "positionWeatherEnabled"
    case IntervalPositionWeather => "intervalPositionWeather"
    case TelemetryInPosition => "telemetryInPosition"
    case TelemetrySequenceNumber => "telemetrySequenceNumber"
  }

  function MeshtasticName(k: MeshtasticKey): string
  {
    match k
    case WatchdogEnabled => "watchdogEnabled"
    case IntervalTimeoutWatchdog => "intervalTimeoutWatchdog"
    case Pin => "pin"
    case I2cSlaveEnabled => "i2cSlaveEnabled"
    case I2cSlaveAddress => "i2cSlaveAddress"
    case AprsSendItemEnabled => "aprsSendItemEnabled"
    case IntervalSendItem => "intervalSendItem"
    case ItemName => "itemName"
    case ItemComment => "itemComment"
    case Symbol => "symbol"
    case SymbolTable => "symbolTable"
    case Latitude => "latitude"
    case Longitude => "longitude"
    case Altitude => "altitude"
  }

  function LinuxName(k: LinuxKey): string
  {
    match k
    case WatchdogEnabled => "watchdogEnabled"
    case IntervalTimeoutWatchdog => "intervalTimeoutWatchdog"
    case Pin => "pin"
    case NprPin => "nprPin"
    case WifiPin => "wifiPin"
    case AprsSendItemEnabled => "aprsSendItemEnabled"
    case IntervalSendItem => "intervalSendItem"
    case ItemName => "itemName"
    case ItemComment => "itemComment"
    case Symbol => "symbol"
    case SymbolTable => "symbolTable"
    case Latitude => "latitude"
    case Longitude => "longitude"
    case Altitude => "altitude"
  }

  function MpptName(k: MpptKey): string
  {
    match k
    case Enabled => "enabled"
    case Timeout => "timeout"
    case IntervalFeed => "intervalFeed"
    case TimeOff => "timeOff"
  }

  function BoxName(k: BoxKey): string
  {
    match k
    case Enabled => "enabled"
    case IntervalCheck => "intervalCheck"
    case Pin => "pin"
  }

  function WeatherName(k: WeatherKey): string
  {
    match k
    case Enabled => "enabled"
    case IntervalCheck => "intervalCheck"
  }

  function EnergyName(k: EnergyKey): string
  {
    match k
    case IntervalCheck => "intervalCheck"
    case Type => "type"
    case AdcPin => "adcPin"
    case InaChannelBattery => "inaChannelBattery"
    case InaChannelSolar => "inaChannelSolar"
    case MpptPowerOnVoltage => "mpptPowerOnVoltage"
    case MpptPowerOffVoltage => "mpptPowerOffVoltage"
  }

  function RtcName(k: RtcKey): string
  {
    match k
    case Enabled => "enabled"
    case WakeUpPin => "wakeUpPin"
  }

  /** The name of each sub-structure, the part of a key before its dot. */
  function GroupName(f: Field): string
  {
    match f
    case Lora(_) => "lora"
    case Aprs(_) => "aprs"
    case Meshtastic(_) => "meshtastic"
    case Linux(_) => "linux"
    case MpptWatchdog(_) => "mpptWatchdog"
    case BoxOpened(_) => "boxOpened"
    case Weather(_) => "weather"
    case Energy(_) => "energy"
    case Rtc(_) => "rtc"
    case UseInternalWatchdog => "useInternalWatchdog"
  }

  /** The part of a key after its dot. */
  function MemberName(f: Field): string
  {
    match f
    case Lora(k) => LoraName(k)
    case Aprs(k) => AprsName(k)
    case Meshtastic(k) => MeshtasticName(k)
    case Linux(k) => LinuxName(k)
    case MpptWatchdog(k) => MpptName(k)
    case BoxOpened(k) => BoxName(k)
    case Weather(k) => WeatherName(k)
    case Energy(k) => EnergyName(k)
    case Rtc(k) => RtcName(k)
    case UseInternalWatchdog => ""
  }

  /** The key text of a field, as compared by the dispatcher: `group.member`, or the bare `useInternalWatchdog`. */
  function Name(f: Field): string
  {
    if f.UseInternalWatchdog? then GroupName(f) else GroupName(f) + "." + MemberName(f)
  }

  // ---------------------------------------------------------------------
  // Types (include/Settings.h) and print formats (src/Command.cpp)

  function LoraKind(k: LoraKey): Kind
  {
    match k
    case Frequency => DecimalKind
    case Bandwidth => U16
    case SpreadingFactor | CodingRate | OutputPower => U8
    case TxEnabled | WatchdogTxEnabled => FlagKind
    case IntervalTimeoutWatchdogTx => U64
  }

  function AprsKind(k: AprsKey): Kind
  {
    match k
    case Call | Destination | Path | Comment | Status => TextKind
    case Symbol | SymbolTable => CharKind
    case Latitude | Longitude => DecimalKind
    case Altitude | TelemetrySequenceNumber => U16
    case DigipeaterEnabled | TelemetryEnabled | StatusEnabled | PositionWeatherEnabled | TelemetryInPosition => FlagKind
    case IntervalTelemetry | IntervalStatus | IntervalPositionWeather => U64
  }

  function MeshtasticKind(k: MeshtasticKey): Kind
  {
    match k
    case WatchdogEnabled | I2cSlaveEnabled | AprsSendItemEnabled => FlagKind
    case IntervalTimeoutWatchdog | IntervalSendItem => U64
    case Pin => U8
    case I2cSlaveAddress => U8Hex
    case ItemName | ItemComment => TextKind
    case Symbol | SymbolTable => CharKind
    case Latitude | Longitude => DecimalKind
    case Altitude => U16
  }

  function LinuxKind(k: LinuxKey): Kind
  {
    match k
    case WatchdogEnabled | AprsSendItemEnabled => FlagKind
    case IntervalTimeoutWatchdog | IntervalSendItem => U64
    case Pin | NprPin | WifiPin => U8
    case ItemName | ItemComment => TextKind
    case Symbol | SymbolTable => CharKind
    case Latitude | Longitude => DecimalKind
    case Altitude => U16
  }

  function EnergyKind(k: EnergyKey): Kind
  {
    match k
    case IntervalCheck => U64
    case Type | InaChannelBattery | InaChannelSolar => Enum
    case AdcPin => U8
    case MpptPowerOnVoltage | MpptPowerOffVoltage => U16
  }

  /** The C type of each field and its parse/print format. */
  function KindOf(f: Field): Kind
  {
    match f
    case Lora(k) => LoraKind(k)
    case Aprs(k) => AprsKind(k)
    case Meshtastic(k) => MeshtasticKind(k)
    case Linux(k) => LinuxKind(k)
    case MpptWatchdog(k) =>
      (match k
        case Enabled => FlagKind
        case Timeout | IntervalFeed => U64
        case TimeOff => U16)
    case BoxOpened(k) =>
      (match k
        case Enabled => FlagKind
        case IntervalCheck => U64
        case Pin => U8)
    case Weather(k) => if k.Enabled? then FlagKind else U64
    case Energy(k) => EnergyKind(k)
    case Rtc(k) => if k.Enabled? then FlagKind else U8
    case UseInternalWatchdog => FlagKind
  }

  /** The settings record: every field present, each with a value of its kind. */
  type Record = map<Field, Value>

  ghost predicate Typed(s: Record)
  {
    forall f: Field :: f in s && Fits(s[f], KindOf(f))
  }

  // ---------------------------------------------------------------------
  // Looking a key up

  const AllLora: seq<LoraKey> := [Frequency, Bandwidth, SpreadingFactor, CodingRate, OutputPower,
    TxEnabled, WatchdogTxEnabled, IntervalTimeoutWatchdogTx]
  const AllAprs: seq<AprsKey> := [Call, Destination, Path, Comment, Status, AprsKey.Symbol, AprsKey.SymbolTable,
    AprsKey.Latitude, AprsKey.Longitude, AprsKey.Altitude, DigipeaterEnabled, TelemetryEnabled, IntervalTelemetry,
    StatusEnabled, IntervalStatus, PositionWeatherEnabled, IntervalPositionWeather,
    TelemetryInPosition, TelemetrySequenceNumber]
  const AllMeshtastic: seq<MeshtasticKey> := [MeshtasticKey.WatchdogEnabled, MeshtasticKey.IntervalTimeoutWatchdog,
    MeshtasticKey.Pin, I2cSlaveEnabled, I2cSlaveAddress, MeshtasticKey.AprsSendItemEnabled,
    MeshtasticKey.IntervalSendItem, MeshtasticKey.ItemName, MeshtasticKey.ItemComment, MeshtasticKey.Symbol,
    MeshtasticKey.SymbolTable, MeshtasticKey.Latitude, MeshtasticKey.Longitude, MeshtasticKey.Altitude]
  const AllLinux: seq<LinuxKey> := [LinuxKey.WatchdogEnabled, LinuxKey.IntervalTimeoutWatchdog, LinuxKey.Pin,
    NprPin, WifiPin, LinuxKey.AprsSendItemEnabled, LinuxKey.IntervalSendItem, LinuxKey.ItemName,
    LinuxKey.ItemComment, LinuxKey.Symbol, LinuxKey.SymbolTable, LinuxKey.Latitude, LinuxKey.Longitude,
    LinuxKey.Altitude]
  const AllMppt: seq<MpptKey> := [MpptKey.Enabled, Timeout, IntervalFeed, TimeOff]
  const AllBox: seq<BoxKey> := [BoxKey.Enabled, BoxKey.IntervalCheck, BoxKey.Pin]
  const AllWeather: seq<WeatherKey> := [WeatherKey.Enabled, WeatherKey.IntervalCheck]
  const AllEnergy: seq<EnergyKey> := [EnergyKey.IntervalCheck, Type, AdcPin, InaChannelBattery, InaChannelSolar,
    MpptPowerOnVoltage, MpptPowerOffVoltage]
  const AllRtc: seq<RtcKey> := [RtcKey.Enabled, WakeUpPin]

  /** The fields of one sub-structure, in the order of its keys. */
  function Wrapped<K>(keys: seq<K>, wrap: K -> Field): (r: seq<Field>)
    ensures |r| == |keys|
    ensures forall i :: 0 <= i < |keys| ==> r[i] == wrap(keys[i])
  {
    seq(|keys|, i requires 0 <= i < |keys| => wrap(keys[i]))
  }

  /** The keys in the order the dispatcher compares them. */
  const AllFields: seq<Field> :=
    Wrapped(AllLora, k => Lora(k)) + Wrapped(AllAprs, k => Aprs(k)) + Wrapped(AllMeshtastic, k => Meshtastic(k))
    + Wrapped(AllMppt, k => MpptWatchdog(k)) + Wrapped(AllBox, k => BoxOpened(k)) + Wrapped(AllWeather, k => Weather(k))
    + Wrapped(AllEnergy, k => Energy(k)) + Wrapped(AllLinux, k => Linux(k)) + Wrapped(AllRtc, k => Rtc(k))
    + [UseInternalWatchdog]

  /** The first field whose key text is `s`, as the `strcmp` chain finds it. */
  function FieldNamed(s: string): (r: Option<Field>)
    ensures r.Some? ==> Name(r.value) == s
    ensures r.None? ==> forall f :: f in AllFields ==> Name(f) != s
  {
    FirstNamed(AllFields, s)
  }

  function FirstNamed(fields: seq<Field>, s: string): (r: Option<Field>)
    ensures r.Some? ==> r.value in fields && Name(r.value) == s
    ensures r.None? ==> forall f :: f in fields ==> Name(f) != s
  {
    if fields == [] then None
    else if Name(fields[0]) == s then Some(fields[0])
    else FirstNamed(fields[1..], s)
  }

  /** The dispatcher knows every field. */
  lemma AllFieldsListed(f: Field)
    ensures f in AllFields
  {
    match f
    case Lora(k) =>
      LoraKeysListed(k);
      var i :| 0 <= i < |AllLora| && AllLora[i] == k;
      assert Wrapped(AllLora, k => Lora(k))[i] == f;
    case Aprs(k) =>
      AprsKeysListed(k);
      var i :| 0 <= i < |AllAprs| && AllAprs[i] == k;
      assert Wrapped(AllAprs, k => Aprs(k))[i] == f;
    case Meshtastic(k) =>
      MeshtasticKeysListed(k);
      var i :| 0 <= i < |AllMeshtastic| && AllMeshtastic[i] == k;
      assert Wrapped(AllMeshtastic, k => Meshtastic(k))[i] == f;
    case Linux(k) =>
      LinuxKeysListed(k);
      var i :| 0 <= i < |AllLinux| && AllLinux[i] == k;
      assert Wrapped(AllLinux, k => Linux(k))[i] == f;
    case MpptWatchdog(k) =>
      MpptWatchdogKeysListed(k);
      var i :| 0 <= i < |AllMppt| && AllMppt[i] == k;
      assert Wrapped(AllMppt, k => MpptWatchdog(k))[i] == f;
    case BoxOpened(k) =>
      BoxOpenedKeysListed(k);
      var i :| 0 <= i < |AllBox| && AllBox[i] == k;
      assert Wrapped(AllBox, k => BoxOpened(k))[i] == f;
    case Weather(k) =>
      WeatherKeysListed(k);
      var i :| 0 <= i < |AllWeather| && AllWeather[i] == k;
      assert Wrapped(AllWeather, k => Weather(k))[i] == f;
    case Energy(k) =>
      EnergyKeysListed(k);
      var i :| 0 <= i < |AllEnergy| && AllEnergy[i] == k;
      assert Wrapped(AllEnergy, k => Energy(k))[i] == f;
    case Rtc(k) =>
      RtcKeysListed(k);
      var i :| 0 <= i < |AllRtc| && AllRtc[i] == k;
      assert Wrapped(AllRtc, k => Rtc(k))[i] == f;
    case UseInternalWatchdog =>
  }
  lemma LoraKeysListed(k: LoraKey)
    ensures k in AllLora
  {
    match k { case Frequency => case Bandwidth => case SpreadingFactor => case CodingRate => case OutputPower => case TxEnabled => case WatchdogTxEnabled => case IntervalTimeoutWatchdogTx => }
  }

  lemma AprsKeysListed(k: AprsKey)
    ensures k in AllAprs
  {
    match k { case Call => case Destination => case Path => case Comment => case Status => case Symbol => case SymbolTable => case Latitude => case Longitude => case Altitude => case DigipeaterEnabled => case TelemetryEnabled => case IntervalTelemetry => case StatusEnabled => case IntervalStatus => case PositionWeatherEnabled => case IntervalPositionWeather => case TelemetryInPosition => case TelemetrySequenceNumber => }
  }

  lemma MeshtasticKeysListed(k: MeshtasticKey)
    ensures k in AllMeshtastic
  {
    match k { case WatchdogEnabled => case IntervalTimeoutWatchdog => case Pin => case I2cSlaveEnabled => case I2cSlaveAddress => case AprsSendItemEnabled => case IntervalSendItem => case ItemName => case ItemComment => case Symbol => case SymbolTable => case Latitude => case Longitude => case Altitude => }
  }

  lemma LinuxKeysListed(k: LinuxKey)
    ensures k in AllLinux
  {
    match k { case WatchdogEnabled => case IntervalTimeoutWatchdog => case Pin => case NprPin => case WifiPin => case AprsSendItemEnabled => case IntervalSendItem => case ItemName => case ItemComment => case Symbol => case SymbolTable => case Latitude => case Longitude => case Altitude => }
  }

  lemma MpptWatchdogKeysListed(k: MpptKey)
    ensures k in AllMppt
  {
    match k { case Enabled => case Timeout => case IntervalFeed => case TimeOff => }
  }

  lemma BoxOpenedKeysListed(k: BoxKey)
    ensures k in AllBox
  {
    match k { case Enabled => case IntervalCheck => case Pin => }
  }

  lemma WeatherKeysListed(k: WeatherKey)
    ensures k in AllWeather
  {
    match k { case Enabled => case IntervalCheck => }
  }

  lemma EnergyKeysListed(k: EnergyKey)
    ensures k in AllEnergy
  {
    match k { case IntervalCheck => case Type => case AdcPin => case InaChannelBattery => case InaChannelSolar => case MpptPowerOnVoltage => case MpptPowerOffVoltage => }
  }

  lemma RtcKeysListed(k: RtcKey)
    ensures k in AllRtc
  {
    match k { case Enabled => case WakeUpPin => }
  }

  /** Every key is named by its own text, so `set` and `get` reach every field; an unknown key names none. */
  lemma NamedFieldsResolve(f: Field)
    ensures FieldNamed(Name(f)).Some?
    ensures forall s :: FieldNamed(s).None? ==> Name(f) != s
  {
    AllFieldsListed(f);
  }

  // ---------------------------------------------------------------------
  // strtoul / strtoull with base 0

  predicate IsDigitIn(c: char, base: nat)
  {
    CharValue(c).Some? && CharValue(c).value < base
  }

  /** Length of the leading run of digits of `base`. */
  function LeadingDigits(s: string, base: nat): (k: nat)
    ensures k <= |s|
    ensures forall i :: 0 <= i < k ==> IsDigitIn(s[i], base)
    ensures k < |s| ==> !IsDigitIn(s[k], base)
  {
    if |s| == 0 || !IsDigitIn(s[0], base) then 0 else 1 + LeadingDigits(s[1..], base)
  }

  /** The value of a digit character (0 for anything else). */
  function Digit(c: char): nat
  {
    match CharValue(c)
    case Some(d) => d
    case None => 0
  }

  /** The number written by a run of digits of `base`, most significant first. */
  function DigitsValue(s: string, base: nat): nat
  {
    if |s| == 0 then 0 else DigitsValue(s[..|s| - 1], base) * base + Digit(s[|s| - 1])
  }

  /**
   * `strtoul(s, nullptr, 0)` (or `strtoull`) saturating at `max`: a `0x`
   * prefix selects hexadecimal, a leading `0` octal, anything else
   * decimal; the number is read from the leading digits and is 0 when there
   * are none.
   */
  function StrToUnsigned(s: string, max: nat): (n: nat)
    ensures n <= max
  {
    var hex := |s| >= 3 && s[0] == '0' && (s[1] == 'x' || s[1] == 'X') && IsDigitIn(s[2], 16);
    var digits := if hex then s[2..] else s;
    var base := if hex then 16 else if |s| >= 1 && s[0] == '0' then 8 else 10;
    var v := DigitsValue(digits[..LeadingDigits(digits, base)], base);
    if v > max then max else v
  }

  const ULongMax: nat := TwoTo32 - 1
  const ULongLongMax: nat := TwoTo64 - 1

  /**
   * What `set` stores for a non-empty `value`: `value[0] == '1'` for a flag,
   * the first character for a char, the text itself, the number read by
   * `strtoul` cast to the field's width (or `strtoull`), or `strtod`.
   */
  function ParseValue(k: Kind, value: string, strtod: string -> real): (v: Value)
    requires |value| > 0
    ensures Fits(v, k)
  {
    match k
    case FlagKind => Flag(value[0] == '1')
    case NumberKind(w, _, _) =>
      if w == W64 then Number(StrToUnsigned(value, ULongLongMax))
      else Number(StrToUnsigned(value, ULongMax) % Limit(w))
    case TextKind => Text(value)
    case CharKind => Character(value[0])
    case DecimalKind => Decimal(strtod(value))
  }

  /** What `get` prints for a field: `%d`, `%llu`, `0x%x`, `%s`, `%c` or `%f`. */
  function FormatValue(k: Kind, v: Value, printReal: real -> string): string
    requires Fits(v, k)
  {
    match k
    case FlagKind => if v.b then "1" else "0"
    case NumberKind(w, hex, signed) =>
      if hex then "0x" + FormatNat(v.n, 16)
      else if signed && v.n >= 0x8000_0000 then "-" + FormatNat(Limit(w) - v.n, 10)
      else FormatNat(v.n, 10)
    case TextKind => v.s
    case CharKind => [v.c]
    case DecimalKind => printReal(v.r)
  }

  // ---------------------------------------------------------------------
  // Reading back what `get` prints

  lemma CharValueOfDigit(d: nat)
    requires d < 16
    ensures CharValue(DigitChar(d)) == Some(d)
  {
  }

  /** The digits written for `n` are digits of `base` and read back as `n`. */
  lemma {:induction false} FormatDigits(n: nat, base: nat)
    requires base == 10 || base == 16
    ensures forall i :: 0 <= i < |FormatNat(n, base)| ==> IsDigitIn(FormatNat(n, base)[i], base)
    ensures DigitsValue(FormatNat(n, base), base) == n
    decreases n
  {
    var s := FormatNat(n, base);
    if n < base {
      CharValueOfDigit(n);
    } else {
      FormatDigits(n / base, base);
      CharValueOfDigit(n % base);
      assert s == FormatNat(n / base, base) + [DigitChar(n % base)];
      assert s[..|s| - 1] == FormatNat(n / base, base);
    }
  }

  lemma AllDigitsLeading(s: string, base: nat)
    requires forall i :: 0 <= i < |s| ==> IsDigitIn(s[i], base)
    ensures LeadingDigits(s, base) == |s|
  {
    if |s| > 0 {
      AllDigitsLeading(s[1..], base);
    }
  }

  /** `strtoul` reads back the decimal text `%d` prints. */
  lemma ReadsDecimal(n: nat, max: nat)
    requires n <= max
    ensures StrToUnsigned(FormatNat(n, 10), max) == n
  {
    var s := FormatNat(n, 10);
    FormatDigits(n, 10);
    AllDigitsLeading(s, 10);
    if n == 0 {
      assert s == "0";
      assert IsDigitIn(s[0], 8);
      AllDigitsLeading(s, 8);
      assert s[..1] == s;
      assert DigitsValue(s, 8) == DigitsValue(s[..0], 8) * 8 + Digit('0');
    } else {
      assert s[..|s|] == s;
    }
  }

  /** `strtoul` reads back the `0x%x` text. */
  lemma ReadsHex(n: nat, max: nat)
    requires n <= max
    ensures StrToUnsigned("0x" + FormatNat(n, 16), max) == n
  {
    var h := FormatNat(n, 16);
    var s := "0x" + h;
    FormatDigits(n, 16);
    AllDigitsLeading(h, 16);
    assert s[2..] == h;
    assert s[2] == h[0];
    assert h[..|h|] == h;
  }

  /** `set` of the text `get` printed for a number stores the number back. */
  lemma NumberRoundTrip(w: Width, hex: bool, signed: bool, n: nat, printReal: real -> string, strtod: string -> real)
    requires n < Limit(w) && (signed ==> n < 0x8000_0000)
    ensures ParseValue(NumberKind(w, hex, signed), FormatValue(NumberKind(w, hex, signed), Number(n), printReal), strtod) == Number(n)
  {
    var t := NumberText(hex, n);
    var max := if w == W64 then ULongLongMax else ULongMax;
    if hex { ReadsHex(n, max); } else { ReadsDecimal(n, max); }
    FormatsNumber(w, hex, signed, n, printReal);
    ParsesNumber(w, hex, signed, t, strtod);
    SmallModulo(n, Limit(w));
  }

  /** The text `get` prints for an unsigned number below 2^31. */
  function NumberText(hex: bool, n: nat): string
  {
    if hex then "0x" + FormatNat(n, 16) else FormatNat(n, 10)
  }

  /** What `get` prints for a number that `%d` does not print negative. */
  lemma FormatsNumber(w: Width, hex: bool, signed: bool, n: nat, printReal: real -> string)
    requires n < Limit(w) && (signed ==> n < 0x8000_0000)
    ensures FormatValue(NumberKind(w, hex, signed), Number(n), printReal) == NumberText(hex, n)
  {
  }

  /** What `set` reads from a non-empty text for a number. */
  lemma ParsesNumber(w: Width, hex: bool, signed: bool, t: string, strtod: string -> real)
    requires |t| > 0
    ensures ParseValue(NumberKind(w, hex, signed), t, strtod)
      == Number(if w == W64 then StrToUnsigned(t, ULongLongMax) else StrToUnsigned(t, ULongMax) % Limit(w))
  {
  }

  lemma SmallModulo(n: nat, m: nat)
    requires n < m
    ensures n % m == n
  {
  }

  /**
   * `set` of the text `get` printed stores the value back, for every kind
   * except floating point; a text must be non-empty (an empty value is
   * refused) and an enum must be below 2^31 (`%d` prints it negative).
   */
  lemma SetOfGetRoundTrip(k: Kind, v: Value, printReal: real -> string, strtod: string -> real)
    requires Fits(v, k) && !k.DecimalKind?
    requires k.NumberKind? && k.signed ==> v.n < 0x8000_0000
    requires k.TextKind? ==> |v.s| > 0
    ensures |FormatValue(k, v, printReal)| > 0
    ensures ParseValue(k, FormatValue(k, v, printReal), strtod) == v
  {
    if k.NumberKind? {
      NumberRoundTrip(k.width, k.hex, k.signed, v.n, printReal, strtod);
    }
  }

  // ---------------------------------------------------------------------
  // Defaults written by setDefaultSettings

  /** `TypeEnergySensor`: dummy, mpptchg, ina, adc. */
  const DummyType: nat := 0
  const MpptChgType: nat := 1
  const InaType: nat := 2
  const AdcType: nat := 3

  function LoraDefault(k: LoraKey): (r: Value)
    ensures Fits(r, LoraKind(k))
  {
    match k
    case Frequency => Decimal(433.775)
    case Bandwidth => Number(125)
    case SpreadingFactor => Number(12)
    case CodingRate => Number(5)
    case OutputPower => Number(12)
    case TxEnabled => Flag(true)
    case WatchdogTxEnabled => Flag(true)
    case IntervalTimeoutWatchdogTx => Number(7200000)
  }

  function AprsDefault(k: AprsKey): (r: Value)
    ensures Fits(r, AprsKind(k))
  {
    match k
    case Call => Text("F4HVV-15")
    case Destination => Text("APLV1")
    case Path => Text("WIDE1-1")
    case Symbol => Character('#')
    case SymbolTable => Character('L')
    case Latitude => Decimal(45.325776)
    case Longitude => Decimal(5.636580)
    case Altitude => Number(850)
    case Comment => Text("")
    case Status => Text("Digi LoRa solaire")
    case PositionWeatherEnabled => Flag(true)
    case IntervalPositionWeather => Number(3600000)
    case TelemetryEnabled => Flag(true)
    case TelemetrySequenceNumber => Number(0)
    case TelemetryInPosition => Flag(false)
    case IntervalTelemetry => Number(900000)
    case StatusEnabled => Flag(true)
    case IntervalStatus => Number(86400000)
    case DigipeaterEnabled => Flag(true)
  }

  function MeshtasticDefault(k: MeshtasticKey): (r: Value)
    ensures Fits(r, MeshtasticKind(k))
  {
    match k
    case WatchdogEnabled => Flag(true)
    case IntervalTimeoutWatchdog => Number(300000)
    case Pin => Number(10)
    case I2cSlaveEnabled => Flag(true)
    case I2cSlaveAddress => Number(0x11)
    case AprsSendItemEnabled => Flag(true)
    case IntervalSendItem => Number(3600000)
    case ItemName => Text("MSH")
    case Symbol => Character('#')
    case SymbolTable => Character('\\')
    case ItemComment => Text("Meshtastic LongModerate 869.4625")
    case Latitude => Decimal(45.325734)
    case Longitude => Decimal(5.636680)
    case Altitude => Number(850)
  }

  function LinuxDefault(k: LinuxKey): (r: Value)
    ensures Fits(r, LinuxKind(k))
  {
    match k
    case WatchdogEnabled => Flag(true)
    case IntervalTimeoutWatchdog => Number(1200000)
    case Pin => Number(9)
    case WifiPin => Number(11)
    case NprPin => Number(12)
    case AprsSendItemEnabled => Flag(false)
    case IntervalSendItem => Number(3600000)
    case ItemName => Text("CAMIP")
    case Symbol => Character('I')
    case SymbolTable => Character('/')
    case ItemComment => Text("f4hvv.valentin-saugnier.fr/f4hvv-15")
    case Latitude => Decimal(45.325786)
    case Longitude => Decimal(5.636669)
    case Altitude => Number(850)
  }

  /**
   * The value `setDefaultSettings` writes into a field; the ADC pin and
   * the INA3221 channels are not written and keep their value.
   */
  function DefaultValue(f: Field): (r: Option<Value>)
    ensures r.Some? ==> Fits(r.value, KindOf(f))
    ensures r.None? <==> f in {Energy(AdcPin), Energy(InaChannelBattery), Energy(InaChannelSolar)}
  {
    match f
    case Lora(k) => Some(LoraDefault(k))
    case Aprs(k) => Some(AprsDefault(k))
    case Meshtastic(k) => Some(MeshtasticDefault(k))
    case Linux(k) => Some(LinuxDefault(k))
    case MpptWatchdog(k) =>
      Some(match k
        case Enabled => Flag(true)
        case Timeout => Number(90)
        case TimeOff => Number(10)
        case IntervalFeed => Number(30000))
    case Energy(k) =>
      (match k
        case Type => Some(Number(MpptChgType))
        case IntervalCheck => Some(Number(60000))
        case MpptPowerOffVoltage => Some(Number(11100))
        case MpptPowerOnVoltage => Some(Number(11300))
        case AdcPin | InaChannelBattery | InaChannelSolar => None)
    case Weather(k) => Some(if k.Enabled? then Flag(true) else Number(60000))
    case Rtc(k) => Some(if k.Enabled? then Flag(true) else Number(6))
    case BoxOpened(k) =>
      Some(match k
        case Enabled => Flag(false)
        case Pin => Number(7)
        case IntervalCheck => Number(120000))
    case UseInternalWatchdog => Some(Flag(true))
  }

  /** `setDefaultSettings`: the defaulted fields are overwritten, the others keep their value. */
  function WithDefaults(s: Record): (r: Record)
    requires Typed(s)
    ensures Typed(r)
    ensures forall f :: DefaultValue(f).Some? ==> r[f] == DefaultValue(f).value
    ensures forall f :: DefaultValue(f).None? ==> r[f] == s[f]
  {
    map f: Field | f in s :: if DefaultValue(f).Some? then DefaultValue(f).value else s[f]
  }

  /** Restoring the defaults twice is restoring them once. */
  lemma WithDefaultsIdempotent(s: Record)
    requires Typed(s)
    ensures WithDefaults(WithDefaults(s)) == WithDefaults(s)
  {
  }

  /** The value of a field in a zero-initialised record (`Settings settings{}`). */
  function ZeroValue(k: Kind): (v: Value)
    ensures Fits(v, k)
    ensures v.Flag? ==> !v.b
    ensures v.Number? ==> v.n == 0
    ensures v.Text? ==> v.s == ""
  {
    match k
    case FlagKind => Flag(false)
    case NumberKind(_, _, _) => Number(0)
    case TextKind => Text("")
    case CharKind => Character('\0')
    case DecimalKind => Decimal(0.0)
  }

  /** The record before anything is loaded: every field zero. */
  function ZeroSettings(): (s: Record)
    ensures Typed(s)
  {
    EveryFieldListed();
    map f: Field | f in AllFields :: ZeroValue(KindOf(f))
  }

  lemma EveryFieldListed()
    ensures forall f: Field :: f in AllFields
  {
    forall f: Field
      ensures f in AllFields
    {
      AllFieldsListed(f);
    }
  }
}
