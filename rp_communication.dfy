/**
 * The LoRa-APRS transmission pipeline of the rp2040 firmware
 * (src/Communication.cpp).
 *
 * The APRS codec, the radio and the command interpreter are not part of
 * this model: the encoder is a function parameter `encode`, the radio's
 * answers for one `send` are an `Air` value (the channel samples and the
 * transmit outcome), and the decoded frame and the command's response are
 * inputs.  What the pipeline does to the outside world is recorded, in
 * order, as a log of `Effect`s.
 */
module RpCommunication {
  import opened RpConfig
  import opened Ints
  import opened RpEnergy
  import opened Text
  import opened Wrappers
  import opened Seqs

  /** What the pipeline hands to the APRS encoder (header fields from the settings are implicit). */
  datatype Packet =
    | MessagePacket(destination: string, text: string, ack: string)
    | PositionPacket(comment: string, withWeather: bool, telemetry: Option<TelemetryData>)
    | StatusPacket(comment: string)
    | TelemetryPacket(data: TelemetryData)
    | TelemetryParamsPacket(kind: ParamsKind)
    | ItemPacket(name: string, symbol: char, symbolTable: char, comment: string, alive: bool)
    | RawContentPacket(source: string, path: string, destination: string, content: string)

  /** The three telemetry-parameter frames of section 13 of the APRS Protocol Reference 1.0.1. */
  datatype ParamsKind = Label | Unit | Equation

  /** Integer part of a telemetry report: sequence, comment, the four energy readings and the four flags. */
  datatype TelemetryData = TelemetryData(sequence: uint16, comment: string, readings: Readings, bits: seq<bool>)

  /** Names of the analog and boolean channels announced by the parameter frames. */
  const AnalogNames: seq<string> := ["VBat", "IBat", "VSol", "ISol", "TBox"]
  const BooleanNames: seq<string> := ["Msh", "Lnx", "Lnk", "Err"]

  /** The decoded fields of a received frame that routing looks at. */
  datatype Decoded = Decoded(
    source: string,
    destination: string,
    path: string,
    content: string,
    messageDestination: string,
    messageText: string,
    messageAck: string)

  /** Something the pipeline does outside its own fields. */
  datatype Effect =
    | LedOn
    | LedOff
    | Encoded(packet: Packet)
    | ScanChannel
    | StartReceive
    | BackoffDelay
    | TxDisabledDelay
    | Transmit(frame: seq<byte>)
    | FeedTxWatchdog
    | AfterTxDelay
    | SaveSettings
    | MarkTelemetryRun
    | ForwardToKiss(payload: seq<byte>)
    | AddToHistory(heard: Decoded)
    | RunCommand(text: string)

  /** The radio's answers during one `send`: the three channel samples (true = busy) and whether `transmit` succeeded. */
  datatype Air = Air(busy: seq<bool>, transmitted: bool)

  predicate WellFormed(air: Air)
  {
    |air.busy| == 3
  }

  /** The settings the pipeline reads. */
  datatype Settings = Settings(
    txEnabled: bool,
    txWatchdogEnabled: bool,
    call: string,
    digipeaterEnabled: bool,
    telemetryInPosition: bool)

  /** Result of one step of the pipeline: its boolean result, whether it set `_hasError`, and its effects. */
  datatype Outcome = Outcome(ok: bool, error: bool, effects: seq<Effect>)

  const Nothing: Outcome := Outcome(false, false, [])

  /** Two steps in a row whose results are or-ed (`result |= ...`). */
  function Then(a: Outcome, b: Outcome): (r: Outcome)
    ensures r.ok <==> a.ok || b.ok
    ensures r.error <==> a.error || b.error
    ensures r.effects == a.effects + b.effects
  {
    Outcome(a.ok || b.ok, a.error || b.error, a.effects + b.effects)
  }

  /** The pipeline's result, log and error flag after a step with outcome `o`. */
  function Apply(log: seq<Effect>, hasError: bool, o: Outcome): (bool, seq<Effect>, bool)
  {
    (o.ok, log + o.effects, hasError || o.error)
  }

  /** The 3-byte LoRa-APRS prefix `'<', 0xFF, 0x01`. */
  const LoraPrefix: seq<byte> := [0x3C, 0xFF, 0x01]

  // ---------------------------------------------------------------------
  // send

  /**
   * Value of the counter `i` when the loop `while (i++ < 3 && isChannelActive())`
   * exits, starting from `i`.
   */
  function ChannelWait(busy: seq<bool>, i: nat): (r: nat)
    requires |busy| == 3 && i <= 3
    ensures i < r <= 4
    decreases 3 - i
  {
    if i == 3 then 4
    else if !busy[i] then i + 1
    else ChannelWait(busy, i + 1)
  }

  /** Effects of that loop: a scan per test, and a re-arm and a back-off after each busy one. */
  function WaitEffects(busy: seq<bool>, i: nat): seq<Effect>
    requires |busy| == 3 && i <= 3
    decreases 3 - i
  {
    if i == 3 then []
    else if !busy[i] then [ScanChannel]
    else [ScanChannel, StartReceive, BackoffDelay] + WaitEffects(busy, i + 1)
  }

  /** `sent()`: LED off, feed the TX watchdog if it is enabled, re-arm receive, wait. */
  function SentEffects(cfg: Settings): seq<Effect>
  {
    [LedOff] + (if cfg.txWatchdogEnabled then [FeedTxWatchdog] else []) + [StartReceive, AfterTxDelay]
  }

  /** `send(size)` of the bytes `frame` as written: it gives up iff the counter ends at exactly 3. */
  function SendOutcome(frame: seq<byte>, air: Air, cfg: Settings): Outcome
    requires WellFormed(air)
  {
    var waited := [LedOn] + WaitEffects(air.busy, 0);
    if ChannelWait(air.busy, 0) == 3 then Outcome(false, false, waited)
    else if !cfg.txEnabled then Outcome(true, false, waited + [TxDisabledDelay] + SentEffects(cfg))
    else if air.transmitted then Outcome(true, false, waited + [Transmit(frame)] + SentEffects(cfg))
    else Outcome(false, true, waited + [Transmit(frame)])
  }

  /**
   * The channel check as written gives up when the third sample is the
   * first free one, and goes on to transmit when all three are busy.
   */
  lemma SendGivesUpIff(frame: seq<byte>, air: Air, cfg: Settings)
    requires WellFormed(air)
    ensures ChannelWait(air.busy, 0) == 3 <==> air.busy == [true, true, false]
    ensures air.busy == [true, true, true] && cfg.txEnabled ==>
      Transmit(frame) in SendOutcome(frame, air, cfg).effects
    ensures !SendOutcome(frame, air, cfg).ok <==>
      air.busy == [true, true, false] || (cfg.txEnabled && !air.transmitted)
  {
    if air.busy == [true, true, true] && cfg.txEnabled {
      var e := SendOutcome(frame, air, cfg).effects;
      assert e[|e| - |SentEffects(cfg)| - 1] == Transmit(frame) || e[|e| - 1] == Transmit(frame);
    }
  }

  /** The channel check as intended: give up only if all three samples are busy. */
  function ChannelClearIntended(busy: seq<bool>, i: nat): (clear: bool)
    requires |busy| == 3 && i <= 3
    ensures clear <==> exists k :: i <= k < 3 && !busy[k]
    decreases 3 - i
  {
    if i == 3 then false
    else if !busy[i] then true
    else ChannelClearIntended(busy, i + 1)
  }

  /** The two inputs on which the counter test as written and the intended check disagree. */
  lemma ChannelCheckDiscrepancy()
    ensures ChannelWait([true, true, false], 0) == 3 && ChannelClearIntended([true, true, false], 0)
    ensures ChannelWait([true, true, true], 0) != 3 && !ChannelClearIntended([true, true, true], 0)
  {
    assert ChannelClearIntended([true, true, false], 0) by {
      assert ![true, true, false][2];
    }
  }

  /** On every other input the two agree. */
  lemma ChannelCheckAgreesOtherwise(busy: seq<bool>)
    requires |busy| == 3 && busy != [true, true, false] && busy != [true, true, true]
    ensures (ChannelWait(busy, 0) != 3) == ChannelClearIntended(busy, 0)
  {
    if !busy[0] {
    } else if !busy[1] {
    } else {
      assert busy[2] == false ==> busy == [true, true, false];
    }
  }

  /** With TX disabled nothing is transmitted, but the send still completes and the TX watchdog is still fed. */
  lemma TxDisabledNeverTransmits(frame: seq<byte>, air: Air, cfg: Settings)
    requires WellFormed(air) && !cfg.txEnabled
    ensures forall e :: e in SendOutcome(frame, air, cfg).effects ==> !e.Transmit?
    ensures SendOutcome(frame, air, cfg).ok <==> ChannelWait(air.busy, 0) != 3
    ensures !SendOutcome(frame, air, cfg).error
    ensures cfg.txWatchdogEnabled && ChannelWait(air.busy, 0) != 3 ==> FeedTxWatchdog in SendOutcome(frame, air, cfg).effects
  {
    assert forall i :: 0 <= i <= 3 ==> forall e :: e in WaitEffects(air.busy, i) ==> !e.Transmit? by {
      WaitHasNoTransmit(air.busy, 3);
      WaitHasNoTransmit(air.busy, 2);
      WaitHasNoTransmit(air.busy, 1);
      WaitHasNoTransmit(air.busy, 0);
    }
  }

  lemma WaitHasNoTransmit(busy: seq<bool>, i: nat)
    requires |busy| == 3 && i <= 3
    ensures forall e :: e in WaitEffects(busy, i) ==> !e.Transmit? && !e.Encoded?
    decreases 3 - i
  {
    if i < 3 && busy[i] {
      WaitHasNoTransmit(busy, i + 1);
    }
  }

  // ---------------------------------------------------------------------
  // sendAprsFrame

  /** `sendAprsFrame` of packet `p`: no radio call when the encoding is empty or longer than `TRX_BUFFER - 3`. */
  function FrameOutcome(p: Packet, encode: Packet -> seq<byte>, air: Air, cfg: Settings): Outcome
    requires WellFormed(air)
  {
    var e := encode(p);
    if |e| == 0 || |e| > TrxBuffer - 3 then Outcome(false, false, [Encoded(p)])
    else Then(Outcome(false, false, [Encoded(p)]), SendOutcome(LoraPrefix + e, air, cfg))
  }

  /** Every frame put on the air is the prefix followed by the encoding, and fits the radio buffer. */
  lemma FrameIsPrefixed(p: Packet, encode: Packet -> seq<byte>, air: Air, cfg: Settings, frame: seq<byte>)
    requires WellFormed(air)
    requires Transmit(frame) in FrameOutcome(p, encode, air, cfg).effects
    ensures frame == LoraPrefix + encode(p)
    ensures |frame| == |encode(p)| + 3 <= TrxBuffer
    ensures frame[..3] == LoraPrefix && frame[3..] == encode(p)
  {
    WaitHasNoTransmit(air.busy, 0);
  }

  /** The packets handed to the encoder, in order. */
  function Packets(effects: seq<Effect>): seq<Packet>
  {
    if effects == [] then []
    else (if effects[0].Encoded? then [effects[0].packet] else []) + Packets(effects[1..])
  }

  lemma {:induction false} PacketsAppend(a: seq<Effect>, b: seq<Effect>)
    ensures Packets(a + b) == Packets(a) + Packets(b)
  {
    if a != [] {
      assert (a + b)[0] == a[0];
      assert (a + b)[1..] == a[1..] + b;
      PacketsAppend(a[1..], b);
      AppendAssoc(if a[0].Encoded? then [a[0].packet] else [], Packets(a[1..]), Packets(b));
    } else {
      assert a + b == b;
    }
  }

  lemma {:induction false} NoPackets(effects: seq<Effect>)
    requires forall e :: e in effects ==> !e.Encoded?
    ensures Packets(effects) == []
  {
    if effects != [] {
      NoPackets(effects[1..]);
    }
  }

  /** One `sendAprsFrame` hands exactly its packet to the encoder. */
  lemma FramePackets(p: Packet, encode: Packet -> seq<byte>, air: Air, cfg: Settings)
    requires WellFormed(air)
    ensures Packets(FrameOutcome(p, encode, air, cfg).effects) == [p]
  {
    var e := encode(p);
    if !(|e| == 0 || |e| > TrxBuffer - 3) {
      var s := SendOutcome(LoraPrefix + e, air, cfg).effects;
      WaitHasNoTransmit(air.busy, 0);
      assert forall x :: x in s ==> !x.Encoded?;
      NoPackets(s);
      PacketsAppend([Encoded(p)], s);
      assert Packets([Encoded(p)]) == [p] + Packets([]);
    } else {
      assert Packets([Encoded(p)]) == [p] + Packets([]);
    }
  }

  // ---------------------------------------------------------------------
  // Telemetry

  /**
   * What `prepareTelemetry` reads from the rest of the board: each board
   * watchdog's enabled and fed states and its pin, the Wi-Fi and NPR pins,
   * and the error flags of the weather and energy tasks.
   */
  datatype BoardFlags = BoardFlags(
    meshtasticDogEnabled: bool, meshtasticFed: bool, meshtasticPinOn: bool,
    linuxDogEnabled: bool, linuxFed: bool, linuxPinOn: bool,
    wifiOn: bool, nprOn: bool,
    weatherError: bool, energyError: bool)

  /**
   * The four telemetry flags: each board's fed state when its watchdog is
   * enabled, else its pin; the link; and `System::hasError`, the pipeline's
   * own error flag or-ed with the weather and energy errors.
   */
  function TelemetryBits(f: BoardFlags, commError: bool): (bits: seq<bool>)
    ensures |bits| == |BooleanNames|
    ensures bits[0] == (if f.meshtasticDogEnabled then f.meshtasticFed else f.meshtasticPinOn)
    ensures bits[1] == (if f.linuxDogEnabled then f.linuxFed else f.linuxPinOn)
    ensures bits[2] == (f.wifiOn || f.nprOn)
    ensures bits[3] == (commError || f.weatherError || f.energyError)
  {
    [if f.meshtasticDogEnabled then f.meshtasticFed else f.meshtasticPinOn,
     if f.linuxDogEnabled then f.linuxFed else f.linuxPinOn,
     f.wifiOn || f.nprOn,
     commError || f.weatherError || f.energyError]
  }

  /** The comment `"Bat:%d%% Up:%ld"` of a telemetry report. */
  function TelemetryComment(batteryPercentage: nat, uptimeMs: nat): string
  {
    "Bat:" + FormatNat(batteryPercentage, 10) + "% Up:" + FormatNat(uptimeMs / 1000, 10)
  }

  /**
   * `prepareTelemetry`: the next sequence number (settings value + 1, as
   * `uint16_t`) and the report, whose flags are read at that moment, with
   * the pipeline's error flag as it then is.
   */
  function PrepareTelemetry(settingsSequence: uint16, batteryPercentage: nat, uptimeMs: nat, readings: Readings,
                            f: BoardFlags, commError: bool): (d: TelemetryData)
    ensures d.sequence == (settingsSequence + 1) % TwoTo16
    ensures settingsSequence < 0xFFFF ==> d.sequence == settingsSequence + 1
    ensures settingsSequence == 0xFFFF ==> d.sequence == 0
    ensures d.readings == readings && d.bits == TelemetryBits(f, commError)
  {
    TelemetryData(Wrap16(settingsSequence + 1), TelemetryComment(batteryPercentage, uptimeMs), readings, TelemetryBits(f, commError))
  }

  /** `sendTelemetryParams`: Label, Unit and Equation in that order, each sent whatever the previous result; true if any was sent. */
  function ParamsOutcome(encode: Packet -> seq<byte>, airs: seq<Air>, cfg: Settings): Outcome
    requires |airs| == 3 && forall i :: 0 <= i < 3 ==> WellFormed(airs[i])
  {
    Then(Then(
      FrameOutcome(TelemetryParamsPacket(Label), encode, airs[0], cfg),
      FrameOutcome(TelemetryParamsPacket(Unit), encode, airs[1], cfg)),
      FrameOutcome(TelemetryParamsPacket(Equation), encode, airs[2], cfg))
  }

  lemma ParamsInOrder(encode: Packet -> seq<byte>, airs: seq<Air>, cfg: Settings)
    requires |airs| == 3 && forall i :: 0 <= i < 3 ==> WellFormed(airs[i])
    ensures Packets(ParamsOutcome(encode, airs, cfg).effects) ==
      [TelemetryParamsPacket(Label), TelemetryParamsPacket(Unit), TelemetryParamsPacket(Equation)]
    ensures ParamsOutcome(encode, airs, cfg).ok <==>
      FrameOutcome(TelemetryParamsPacket(Label), encode, airs[0], cfg).ok ||
      FrameOutcome(TelemetryParamsPacket(Unit), encode, airs[1], cfg).ok ||
      FrameOutcome(TelemetryParamsPacket(Equation), encode, airs[2], cfg).ok
  {
    var a := FrameOutcome(TelemetryParamsPacket(Label), encode, airs[0], cfg);
    var b := FrameOutcome(TelemetryParamsPacket(Unit), encode, airs[1], cfg);
    var c := FrameOutcome(TelemetryParamsPacket(Equation), encode, airs[2], cfg);
    FramePackets(TelemetryParamsPacket(Label), encode, airs[0], cfg);
    FramePackets(TelemetryParamsPacket(Unit), encode, airs[1], cfg);
    FramePackets(TelemetryParamsPacket(Equation), encode, airs[2], cfg);
    PacketsAppend(a.effects, b.effects);
    PacketsAppend(a.effects + b.effects, c.effects);
  }

  /** The parameter frames `sendTelemetry` sends first: all three when pending, none otherwise. */
  function PendingParams(paramsPending: bool, encode: Packet -> seq<byte>, paramsAirs: seq<Air>, cfg: Settings): Outcome
    requires |paramsAirs| == 3 && forall i :: 0 <= i < 3 ==> WellFormed(paramsAirs[i])
  {
    if paramsPending then ParamsOutcome(encode, paramsAirs, cfg) else Nothing
  }

  /**
   * The report `sendTelemetry` sends: prepared after the parameter frames,
   * so that a parameter frame that failed on the air raises its Err flag.
   */
  function TelemetryReport(paramsPending: bool, hasError: bool, settingsSequence: uint16, batteryPercentage: nat, uptimeMs: nat,
                           readings: Readings, f: BoardFlags, encode: Packet -> seq<byte>, paramsAirs: seq<Air>, cfg: Settings): TelemetryData
    requires |paramsAirs| == 3 && forall i :: 0 <= i < 3 ==> WellFormed(paramsAirs[i])
  {
    PrepareTelemetry(settingsSequence, batteryPercentage, uptimeMs, readings, f,
                     hasError || PendingParams(paramsPending, encode, paramsAirs, cfg).error)
  }

  /**
   * `sendTelemetry`: the parameter frames first when the one-shot flag is
   * set, then the report; true if any frame was sent.
   */
  function TelemetryOutcome(paramsPending: bool, hasError: bool, settingsSequence: uint16, batteryPercentage: nat, uptimeMs: nat,
                            readings: Readings, f: BoardFlags, encode: Packet -> seq<byte>, paramsAirs: seq<Air>, air: Air, cfg: Settings): Outcome
    requires |paramsAirs| == 3 && forall i :: 0 <= i < 3 ==> WellFormed(paramsAirs[i])
    requires WellFormed(air)
  {
    var d := TelemetryReport(paramsPending, hasError, settingsSequence, batteryPercentage, uptimeMs, readings, f, encode, paramsAirs, cfg);
    Then(Then(
      PendingParams(paramsPending, encode, paramsAirs, cfg),
      Outcome(false, false, [SaveSettings])),
      FrameOutcome(TelemetryPacket(d), encode, air, cfg))
  }

  /** The report is always sent, after the parameters when they are pending; the sequence number is saved before it. */
  lemma TelemetryFrames(paramsPending: bool, hasError: bool, settingsSequence: uint16, batteryPercentage: nat, uptimeMs: nat,
                        readings: Readings, f: BoardFlags, encode: Packet -> seq<byte>, paramsAirs: seq<Air>, air: Air, cfg: Settings)
    requires |paramsAirs| == 3 && forall i :: 0 <= i < 3 ==> WellFormed(paramsAirs[i])
    requires WellFormed(air)
    ensures Packets(TelemetryOutcome(paramsPending, hasError, settingsSequence, batteryPercentage, uptimeMs, readings, f, encode, paramsAirs, air, cfg).effects) ==
      (if paramsPending then [TelemetryParamsPacket(Label), TelemetryParamsPacket(Unit), TelemetryParamsPacket(Equation)] else [])
      + [TelemetryPacket(TelemetryReport(paramsPending, hasError, settingsSequence, batteryPercentage, uptimeMs, readings, f, encode, paramsAirs, cfg))]
  {
    var d := TelemetryReport(paramsPending, hasError, settingsSequence, batteryPercentage, uptimeMs, readings, f, encode, paramsAirs, cfg);
    var p := PendingParams(paramsPending, encode, paramsAirs, cfg);
    if paramsPending {
      ParamsInOrder(encode, paramsAirs, cfg);
    }
    FramePackets(TelemetryPacket(d), encode, air, cfg);
    PacketsAppend(p.effects, [SaveSettings]);
    PacketsAppend(p.effects + [SaveSettings], FrameOutcome(TelemetryPacket(d), encode, air, cfg).effects);
    assert Packets([SaveSettings]) == [];
  }

  /**
   * The report's Err flag is `System::hasError` read after the parameter
   * frames: set when the pipeline was already in error, when the weather
   * or energy task is, or when a pending parameter frame failed on the air.
   */
  lemma TelemetryErrAfterParams(paramsPending: bool, hasError: bool, settingsSequence: uint16, batteryPercentage: nat, uptimeMs: nat,
                                readings: Readings, f: BoardFlags, encode: Packet -> seq<byte>, paramsAirs: seq<Air>, cfg: Settings)
    requires |paramsAirs| == 3 && forall i :: 0 <= i < 3 ==> WellFormed(paramsAirs[i])
    ensures TelemetryReport(paramsPending, hasError, settingsSequence, batteryPercentage, uptimeMs, readings, f, encode, paramsAirs, cfg).bits[3] <==>
      hasError || f.weatherError || f.energyError ||
      (paramsPending && (FrameOutcome(TelemetryParamsPacket(Label), encode, paramsAirs[0], cfg).error ||
                         FrameOutcome(TelemetryParamsPacket(Unit), encode, paramsAirs[1], cfg).error ||
                         FrameOutcome(TelemetryParamsPacket(Equation), encode, paramsAirs[2], cfg).error))
  {
  }

  /**
   * A pending parameter frame that reaches the air and fails to go out
   * (the channel free at the first sample, transmission enabled, the
   * radio refusing) makes the report carry Err, even from a pipeline and
   * tasks without error.
   */
  lemma ParamsFailureRaisesErr(hasError: bool, settingsSequence: uint16, batteryPercentage: nat, uptimeMs: nat,
                               readings: Readings, f: BoardFlags, encode: Packet -> seq<byte>, paramsAirs: seq<Air>, cfg: Settings)
    requires |paramsAirs| == 3 && forall i :: 0 <= i < 3 ==> WellFormed(paramsAirs[i])
    requires WellFormed(paramsAirs[0]) && cfg.txEnabled && !paramsAirs[0].busy[0] && !paramsAirs[0].transmitted
    requires 0 < |encode(TelemetryParamsPacket(Label))| <= TrxBuffer - 3
    ensures TelemetryReport(true, hasError, settingsSequence, batteryPercentage, uptimeMs, readings, f, encode, paramsAirs, cfg).bits[3]
  {
    var first := FrameOutcome(TelemetryParamsPacket(Label), encode, paramsAirs[0], cfg);
    assert ChannelWait(paramsAirs[0].busy, 0) == 1;
    assert first.error;
    TelemetryErrAfterParams(true, hasError, settingsSequence, batteryPercentage, uptimeMs, readings, f, encode, paramsAirs, cfg);
  }

  // ---------------------------------------------------------------------
  // Receive

  /** What `received` needs from outside: the digipeat decision, the command's response and the radio for up to two sends. */
  datatype RxAnswers = RxAnswers(canBeDigipeated: bool, response: string, ackAir: Air, replyAir: Air, digiAir: Air)

  predicate RxWellFormed(rx: RxAnswers)
  {
    WellFormed(rx.ackAir) && WellFormed(rx.replyAir) && WellFormed(rx.digiAir)
  }

  /** The LED goes off at the end unless something was sent. */
  function Finish(o: Outcome): (r: Outcome)
    ensures r.ok == o.ok && r.error == o.error
    ensures r.effects == o.effects + (if o.ok then [] else [LedOff])
  {
    if o.ok then o else o.(effects := o.effects + [LedOff])
  }

  predicate IsLoopback(f: Decoded, cfg: Settings)
  {
    EqualsIgnoreCase(f.source, cfg.call)
  }

  predicate IsForMe(f: Decoded, cfg: Settings)
  {
    Contains(f.messageDestination, cfg.call)
  }

  /** Handling of a message addressed to this station. */
  function ForMeOutcome(f: Decoded, rx: RxAnswers, encode: Packet -> seq<byte>, cfg: Settings): Outcome
    requires RxWellFormed(rx)
  {
    if |f.messageText| == 0 then Nothing
    else
      Then(Then(
        if |f.messageAck| > 0 then FrameOutcome(MessagePacket(f.source, "", f.messageAck), encode, rx.ackAir, cfg) else Nothing,
        Outcome(false, false, [RunCommand(f.messageText)])),
        FrameOutcome(MessagePacket(f.source, rx.response, ""), encode, rx.replyAir, cfg))
  }

  /** `received(payload)`, where `decoded` is the decoder's result on the payload past its 3-byte prefix. */
  function ReceivedOutcome(payload: seq<byte>, decoded: Option<Decoded>, rx: RxAnswers, encode: Packet -> seq<byte>, cfg: Settings): Outcome
    requires RxWellFormed(rx)
  {
    var start := Outcome(false, false, [LedOn]);
    match decoded
    case None => Finish(Then(start, Outcome(false, false, [ForwardToKiss(payload)])))
    case Some(f) =>
      var logged := Then(start, Outcome(false, false, [AddToHistory(f)]));
      if IsLoopback(f, cfg) then logged
      else if IsForMe(f, cfg) then Finish(Then(logged, ForMeOutcome(f, rx, encode, cfg)))
      else if cfg.digipeaterEnabled && rx.canBeDigipeated then
        Finish(Then(logged, FrameOutcome(RawContentPacket(f.source, f.path, f.destination, f.content), encode, rx.digiAir, cfg)))
      else Finish(logged)
  }

  /**
   * A frame that cannot be decoded goes to KISS and nowhere else; a
   * decoded one enters the history first; our own frame coming back is
   * dropped without any send (and the LED is left on).
   */
  lemma ReceivedRouting(payload: seq<byte>, decoded: Option<Decoded>, rx: RxAnswers, encode: Packet -> seq<byte>, cfg: Settings)
    requires RxWellFormed(rx)
    ensures decoded.None? ==> ReceivedOutcome(payload, decoded, rx, encode, cfg).effects == [LedOn, ForwardToKiss(payload), LedOff]
    ensures decoded.Some? ==> ReceivedOutcome(payload, decoded, rx, encode, cfg).effects[..2] == [LedOn, AddToHistory(decoded.value)]
    ensures decoded.Some? && IsLoopback(decoded.value, cfg) ==>
      ReceivedOutcome(payload, decoded, rx, encode, cfg).effects == [LedOn, AddToHistory(decoded.value)]
  {
  }

  /**
   * A non-empty message for this station: the ack (when it carries an id),
   * then the command, then the reply with the command's response.
   */
  lemma MessageForMeAnswered(payload: seq<byte>, f: Decoded, rx: RxAnswers, encode: Packet -> seq<byte>, cfg: Settings)
    requires RxWellFormed(rx)
    requires !IsLoopback(f, cfg) && IsForMe(f, cfg) && |f.messageText| > 0
    ensures Packets(ReceivedOutcome(payload, Some(f), rx, encode, cfg).effects) ==
      (if |f.messageAck| > 0 then [MessagePacket(f.source, "", f.messageAck)] else [])
      + [MessagePacket(f.source, rx.response, "")]
    ensures ReceivedOutcome(payload, Some(f), rx, encode, cfg).ok <==>
      (|f.messageAck| > 0 && FrameOutcome(MessagePacket(f.source, "", f.messageAck), encode, rx.ackAir, cfg).ok) ||
      FrameOutcome(MessagePacket(f.source, rx.response, ""), encode, rx.replyAir, cfg).ok
  {
    var ack := if |f.messageAck| > 0 then FrameOutcome(MessagePacket(f.source, "", f.messageAck), encode, rx.ackAir, cfg) else Nothing;
    var reply := FrameOutcome(MessagePacket(f.source, rx.response, ""), encode, rx.replyAir, cfg);
    var run := Outcome(false, false, [RunCommand(f.messageText)]);
    var logged := Then(Outcome(false, false, [LedOn]), Outcome(false, false, [AddToHistory(f)]));
    var forMe := ForMeOutcome(f, rx, encode, cfg);
    assert forMe == Then(Then(ack, run), reply);
    assert ReceivedOutcome(payload, Some(f), rx, encode, cfg) == Finish(Then(logged, forMe));
    if |f.messageAck| > 0 {
      FramePackets(MessagePacket(f.source, "", f.messageAck), encode, rx.ackAir, cfg);
    }
    FramePackets(MessagePacket(f.source, rx.response, ""), encode, rx.replyAir, cfg);
    NoPackets(logged.effects);
    NoPackets(run.effects);
    ThenPackets(ack, run);
    ThenPackets(Then(ack, run), reply);
    ThenPackets(logged, forMe);
    FinishPackets(Then(logged, forMe));
  }

  lemma ThenPackets(a: Outcome, b: Outcome)
    ensures Packets(Then(a, b).effects) == Packets(a.effects) + Packets(b.effects)
  {
    PacketsAppend(a.effects, b.effects);
  }

  /** Switching the LED off hands no packet to the encoder. */
  lemma FinishPackets(o: Outcome)
    ensures Packets(Finish(o).effects) == Packets(o.effects)
  {
    if !o.ok {
      PacketsAppend(o.effects, [LedOff]);
      NoPackets([LedOff]);
    }
  }

  /** Frames for other stations are repeated only when digipeating is enabled and the path allows it, as a raw copy. */
  lemma DigipeatOnlyWhenAllowed(payload: seq<byte>, f: Decoded, rx: RxAnswers, encode: Packet -> seq<byte>, cfg: Settings)
    requires RxWellFormed(rx)
    requires !IsLoopback(f, cfg) && !IsForMe(f, cfg)
    ensures !(cfg.digipeaterEnabled && rx.canBeDigipeated) ==>
      ReceivedOutcome(payload, Some(f), rx, encode, cfg) == Outcome(false, false, [LedOn, AddToHistory(f), LedOff])
    ensures cfg.digipeaterEnabled && rx.canBeDigipeated ==>
      Packets(ReceivedOutcome(payload, Some(f), rx, encode, cfg).effects) == [RawContentPacket(f.source, f.path, f.destination, f.content)]
  {
    if cfg.digipeaterEnabled && rx.canBeDigipeated {
      var p := RawContentPacket(f.source, f.path, f.destination, f.content);
      var d := FrameOutcome(p, encode, rx.digiAir, cfg);
      FramePackets(p, encode, rx.digiAir, cfg);
      var logged: seq<Effect> := [LedOn] + [AddToHistory(f)];
      var tail: seq<Effect> := if d.ok then [] else [LedOff];
      NoPackets(logged);
      NoPackets(tail);
      PacketsAppend(logged, d.effects);
      PacketsAppend(logged + d.effects, tail);
    }
  }

  /** Minimum length of a packet passed on by `update`. */
  const MinPacketLength: nat := 15

  /**
   * `update` with the interrupt flag `interrupt`: the log and error flag
   * afterwards.
   */
  function UpdateStep(log: seq<Effect>, hasError: bool, interrupt: bool, rxDone: bool, readOk: bool, payload: seq<byte>,
                      decoded: Option<Decoded>, rx: RxAnswers, encode: Packet -> seq<byte>, cfg: Settings): (seq<Effect>, bool)
    requires RxWellFormed(rx)
  {
    if !interrupt then (log, hasError)
    else if !rxDone then (log + [StartReceive], hasError)
    else if readOk && |payload| >= MinPacketLength then
      var r := Apply(log, hasError, ReceivedOutcome(payload, decoded, rx, encode, cfg)); (r.1, r.2)
    else (log, hasError)
  }

  /**
   * Nothing happens without an interrupt; a packet that was not read or is
   * shorter than 15 bytes is dropped silently; any interrupt other than
   * RX_DONE only re-arms receive.
   */
  lemma UpdateFilters(log: seq<Effect>, hasError: bool, interrupt: bool, rxDone: bool, readOk: bool, payload: seq<byte>,
                      decoded: Option<Decoded>, rx: RxAnswers, encode: Packet -> seq<byte>, cfg: Settings)
    requires RxWellFormed(rx)
    ensures !interrupt ==> UpdateStep(log, hasError, interrupt, rxDone, readOk, payload, decoded, rx, encode, cfg) == (log, hasError)
    ensures interrupt && rxDone && (!readOk || |payload| < MinPacketLength) ==>
      UpdateStep(log, hasError, interrupt, rxDone, readOk, payload, decoded, rx, encode, cfg) == (log, hasError)
    ensures interrupt && !rxDone ==>
      UpdateStep(log, hasError, interrupt, rxDone, readOk, payload, decoded, rx, encode, cfg) == (log + [StartReceive], hasError)
    ensures interrupt && rxDone && readOk && |payload| >= MinPacketLength ==>
      UpdateStep(log, hasError, interrupt, rxDone, readOk, payload, decoded, rx, encode, cfg).0 ==
      log + ReceivedOutcome(payload, decoded, rx, encode, cfg).effects
  {
  }

  /** `sendPosition`: with telemetry in the position, the report is prepared and saved and the telemetry task marked run first. */
  function PositionOutcome(comment: string, withWeather: bool, d: TelemetryData, encode: Packet -> seq<byte>, air: Air, cfg: Settings): Outcome
    requires WellFormed(air)
  {
    if cfg.telemetryInPosition then
      Then(Outcome(false, false, [SaveSettings, MarkTelemetryRun]), FrameOutcome(PositionPacket(d.comment + comment, withWeather, Some(d)), encode, air, cfg))
    else FrameOutcome(PositionPacket(comment, withWeather, None), encode, air, cfg)
  }

  // ---------------------------------------------------------------------
  // The pipeline object

  class Communication {
    /** The radio buffer, `TRX_BUFFER` bytes. */
    const buffer: array<byte>
    /** Set by the radio interrupt, consumed by `update`. */
    var hasInterrupt: bool
    var hasError: bool
    /** One-shot request to send the telemetry parameters with the next report. */
    var shouldSendTelemetryParams: bool
    /** Everything done outside the object so far, oldest first. */
    var log: seq<Effect>

    predicate Valid()
      reads this
    {
      buffer.Length == TrxBuffer
    }

    constructor ()
      ensures Valid() && fresh(buffer)
      ensures !hasInterrupt && !hasError && !shouldSendTelemetryParams && log == []
    {
      buffer := new byte[TrxBuffer](_ => 0);
      hasInterrupt := false;
      hasError := false;
      shouldSendTelemetryParams := false;
      log := [];
    }

    /** The channel check of `send`: `while (i++ < 3 && isChannelActive())`, re-arming receive and backing off while busy. */
    method WaitForChannel(air: Air) returns (i: byte)
      requires WellFormed(air)
      modifies this
      ensures i == ChannelWait(air.busy, 0)
      ensures log == old(log) + WaitEffects(air.busy, 0)
      ensures hasError == old(hasError) && hasInterrupt == old(hasInterrupt)
      ensures shouldSendTelemetryParams == old(shouldSendTelemetryParams)
    {
      i := 0;
      ghost var done: seq<Effect> := [];
      var searching := true;
      while searching
        invariant searching ==> i <= 3
        invariant log == old(log) + done
        invariant hasError == old(hasError) && hasInterrupt == old(hasInterrupt)
        invariant shouldSendTelemetryParams == old(shouldSendTelemetryParams)
        invariant searching ==> ChannelWait(air.busy, 0) == ChannelWait(air.busy, i)
        invariant searching ==> WaitEffects(air.busy, 0) == done + WaitEffects(air.busy, i)
        invariant !searching ==> i == ChannelWait(air.busy, 0) && done == WaitEffects(air.busy, 0)
        decreases searching, 3 - i
      {
        if i == 3 {
          i := 4;
          searching := false;
        } else if !air.busy[i] {
          log := log + [ScanChannel];
          AppendAssoc(old(log), done, [ScanChannel]);
          done := done + [ScanChannel];
          i := i + 1;
          searching := false;
        } else {
          var step := [ScanChannel, StartReceive, BackoffDelay];
          log := log + step;
          AppendAssoc(old(log), done, step);
          AppendAssoc(done, step, WaitEffects(air.busy, i + 1));
          done := done + step;
          i := i + 1;
        }
      }
    }

    /** `send(size)`: the channel check, then transmit the first `size` bytes of the buffer. */
    method Send(size: nat, air: Air, cfg: Settings) returns (ok: bool)
      requires Valid() && size <= buffer.Length && WellFormed(air)
      modifies this
      ensures (ok, log, hasError) == Apply(old(log), old(hasError), SendOutcome(buffer[..size], air, cfg))
      ensures hasInterrupt == old(hasInterrupt) && shouldSendTelemetryParams == old(shouldSendTelemetryParams)
    {
      log := log + [LedOn];
      var i := WaitForChannel(air);
      ghost var waited := [LedOn] + WaitEffects(air.busy, 0);
      AppendAssoc(old(log), [LedOn], WaitEffects(air.busy, 0));
      if i == 3 {
        return false;
      }
      var tail: seq<Effect>;
      if cfg.txEnabled {
        if air.transmitted {
          tail := [Transmit(buffer[..size])] + SentEffects(cfg);
          AppendAssoc(waited, [Transmit(buffer[..size])], SentEffects(cfg));
          ok := true;
        } else {
          tail := [Transmit(buffer[..size])];
          hasError := true;
          ok := false;
        }
      } else {
        tail := [TxDisabledDelay] + SentEffects(cfg);
        AppendAssoc(waited, [TxDisabledDelay], SentEffects(cfg));
        ok := true;
      }
      log := log + tail;
      AppendAssoc(old(log), waited, tail);
    }

    /** The buffer filling of `sendAprsFrame`: the prefix, then the encoded bytes. */
    method WriteFrame(e: seq<byte>)
      requires Valid() && 0 < |e| <= TrxBuffer - 3
      modifies buffer
      ensures buffer[..|e| + 3] == LoraPrefix + e
    {
      buffer[0] := 0x3C;
      buffer[1] := 0xFF;
      buffer[2] := 0x01;
      var i := 0;
      while i < |e|
        invariant 0 <= i <= |e|
        invariant buffer[..3] == LoraPrefix
        invariant buffer[3..i + 3] == e[..i]
      {
        buffer[i + 3] := e[i];
        i := i + 1;
      }
      assert buffer[..|e| + 3] == buffer[..3] + buffer[3..|e| + 3];
    }

    /** `sendAprsFrame`: refuse an empty or oversized encoding, otherwise write the frame and `send(size + 3)`. */
    method SendAprsFrame(p: Packet, encode: Packet -> seq<byte>, air: Air, cfg: Settings) returns (ok: bool)
      requires Valid() && WellFormed(air)
      modifies this, buffer
      ensures (ok, log, hasError) == Apply(old(log), old(hasError), FrameOutcome(p, encode, air, cfg))
      ensures hasInterrupt == old(hasInterrupt) && shouldSendTelemetryParams == old(shouldSendTelemetryParams)
    {
      var e := encode(p);
      log := log + [Encoded(p)];
      if |e| == 0 || |e| > TrxBuffer - 3 {
        return false;
      }
      ok := SendFrame(e, air, cfg);
      AppendAssoc(old(log), [Encoded(p)], SendOutcome(LoraPrefix + e, air, cfg).effects);
    }

    /** The buffer filling and `send(size + 3)` of `sendAprsFrame`, for an encoding that fits. */
    method SendFrame(e: seq<byte>, air: Air, cfg: Settings) returns (ok: bool)
      requires Valid() && WellFormed(air) && 0 < |e| <= TrxBuffer - 3
      modifies this, buffer
      ensures (ok, log, hasError) == Apply(old(log), old(hasError), SendOutcome(LoraPrefix + e, air, cfg))
      ensures hasInterrupt == old(hasInterrupt) && shouldSendTelemetryParams == old(shouldSendTelemetryParams)
    {
      WriteFrame(e);
      ok := Send(|e| + 3, air, cfg);
      assert buffer[..|e| + 3] == LoraPrefix + e;
    }

    /** `sendRaw`: payloads longer than the buffer are refused without copying; others are copied and sent as they are. */
    method SendRaw(payload: seq<byte>, air: Air, cfg: Settings) returns (ok: bool)
      requires Valid() && WellFormed(air)
      modifies this, buffer
      ensures |payload| > TrxBuffer ==> !ok && log == old(log) && buffer[..] == old(buffer[..]) && hasError == old(hasError)
      ensures |payload| <= TrxBuffer ==> buffer[..|payload|] == payload
      ensures |payload| <= TrxBuffer ==> (ok, log, hasError) == Apply(old(log), old(hasError), SendOutcome(payload, air, cfg))
      ensures hasInterrupt == old(hasInterrupt) && shouldSendTelemetryParams == old(shouldSendTelemetryParams)
    {
      if |payload| > TrxBuffer {
        return false;
      }
      CopyPayload(payload);
      ok := Send(|payload|, air, cfg);
    }

    /** The `memcpy` of `sendRaw`. */
    method CopyPayload(payload: seq<byte>)
      requires Valid() && |payload| <= TrxBuffer
      modifies buffer
      ensures buffer[..|payload|] == payload
    {
      var i := 0;
      while i < |payload|
        invariant 0 <= i <= |payload|
        invariant buffer[..i] == payload[..i]
      {
        buffer[i] := payload[i];
        i := i + 1;
      }
    }

    /** `sendMessage(destination, message, ack)`; a missing ack is the empty string. */
    method SendMessage(destination: string, text: string, ack: string, encode: Packet -> seq<byte>, air: Air, cfg: Settings) returns (ok: bool)
      requires Valid() && WellFormed(air)
      modifies this, buffer
      ensures (ok, log, hasError) == Apply(old(log), old(hasError), FrameOutcome(MessagePacket(destination, text, ack), encode, air, cfg))
      ensures hasInterrupt == old(hasInterrupt) && shouldSendTelemetryParams == old(shouldSendTelemetryParams)
    {
      ok := SendAprsFrame(MessagePacket(destination, text, ack), encode, air, cfg);
    }

    /** `sendTelemetryParams`. */
    method SendTelemetryParams(encode: Packet -> seq<byte>, airs: seq<Air>, cfg: Settings) returns (ok: bool)
      requires Valid() && |airs| == 3 && forall i :: 0 <= i < 3 ==> WellFormed(airs[i])
      modifies this, buffer
      ensures (ok, log, hasError) == Apply(old(log), old(hasError), ParamsOutcome(encode, airs, cfg))
      ensures hasInterrupt == old(hasInterrupt) && shouldSendTelemetryParams == old(shouldSendTelemetryParams)
    {
      ghost var a := FrameOutcome(TelemetryParamsPacket(Label), encode, airs[0], cfg);
      ghost var b := FrameOutcome(TelemetryParamsPacket(Unit), encode, airs[1], cfg);
      ghost var c := FrameOutcome(TelemetryParamsPacket(Equation), encode, airs[2], cfg);
      ok := SendAprsFrame(TelemetryParamsPacket(Label), encode, airs[0], cfg);
      var unit := SendAprsFrame(TelemetryParamsPacket(Unit), encode, airs[1], cfg);
      ok := ok || unit;
      AppendAssoc(old(log), a.effects, b.effects);
      assert (ok, log, hasError) == Apply(old(log), old(hasError), Then(a, b));
      var equation := SendAprsFrame(TelemetryParamsPacket(Equation), encode, airs[2], cfg);
      ok := ok || equation;
      AppendAssoc(old(log), a.effects + b.effects, c.effects);
      assert ParamsOutcome(encode, airs, cfg) == Then(Then(a, b), c);
    }

    /**
     * `sendTelemetry`.  Returns the new sequence number, which the caller
     * stores in the settings; the flag stays set only if the parameters
     * were pending and none of their frames was sent.  The report is
     * prepared after the parameter frames, from the error flag they left.
     */
    method SendTelemetry(settingsSequence: uint16, batteryPercentage: nat, uptimeMs: nat, readings: Readings, flags: BoardFlags,
                         encode: Packet -> seq<byte>, paramsAirs: seq<Air>, air: Air, cfg: Settings)
      returns (ok: bool, sequence: uint16)
      requires Valid() && WellFormed(air)
      requires |paramsAirs| == 3 && forall i :: 0 <= i < 3 ==> WellFormed(paramsAirs[i])
      modifies this, buffer
      ensures sequence == Wrap16(settingsSequence + 1)
      ensures (ok, log, hasError) == Apply(old(log), old(hasError),
        TelemetryOutcome(old(shouldSendTelemetryParams), old(hasError), settingsSequence, batteryPercentage, uptimeMs, readings, flags,
                         encode, paramsAirs, air, cfg))
      ensures TelemetryReport(old(shouldSendTelemetryParams), old(hasError), settingsSequence, batteryPercentage, uptimeMs, readings, flags,
                              encode, paramsAirs, cfg).bits[3] ==
        (old(hasError) || flags.weatherError || flags.energyError ||
         (old(shouldSendTelemetryParams) && ParamsOutcome(encode, paramsAirs, cfg).error))
      ensures shouldSendTelemetryParams == (old(shouldSendTelemetryParams) && !ParamsOutcome(encode, paramsAirs, cfg).ok)
      ensures hasInterrupt == old(hasInterrupt)
    {
      ok := false;
      ghost var first := PendingParams(shouldSendTelemetryParams, encode, paramsAirs, cfg);
      if shouldSendTelemetryParams {
        ok := SendTelemetryParams(encode, paramsAirs, cfg);
        shouldSendTelemetryParams := !ok;
      } else {
        assert log == old(log) + first.effects;
      }
      var d := PrepareTelemetry(settingsSequence, batteryPercentage, uptimeMs, readings, flags, hasError);
      sequence := d.sequence;
      log := log + [SaveSettings];
      var sent := SendAprsFrame(TelemetryPacket(d), encode, air, cfg);
      ok := ok || sent;
      AppendAssoc(old(log), first.effects, [SaveSettings]);
      AppendAssoc(old(log), first.effects + [SaveSettings], FrameOutcome(TelemetryPacket(d), encode, air, cfg).effects);
    }

    /**
     * `sendPosition(comment)`.  With telemetry in the position, the report
     * is prepared (a new sequence number, saved) from the error flag the
     * pipeline has before the frame, its comment is put in front of
     * `comment` and the telemetry task is marked run.
     */
    method SendPosition(comment: string, withWeather: bool, settingsSequence: uint16, batteryPercentage: nat, uptimeMs: nat,
                        readings: Readings, flags: BoardFlags, encode: Packet -> seq<byte>, air: Air, cfg: Settings)
      returns (ok: bool, sequence: uint16)
      requires Valid() && WellFormed(air)
      modifies this, buffer
      ensures (ok, log, hasError) == Apply(old(log), old(hasError),
        PositionOutcome(comment, withWeather, PrepareTelemetry(settingsSequence, batteryPercentage, uptimeMs, readings, flags, old(hasError)),
                        encode, air, cfg))
      ensures sequence == (if cfg.telemetryInPosition then Wrap16(settingsSequence + 1) else settingsSequence)
      ensures hasInterrupt == old(hasInterrupt) && shouldSendTelemetryParams == old(shouldSendTelemetryParams)
    {
      var p;
      if cfg.telemetryInPosition {
        var d := PrepareTelemetry(settingsSequence, batteryPercentage, uptimeMs, readings, flags, hasError);
        sequence := d.sequence;
        p := PositionPacket(d.comment + comment, withWeather, Some(d));
        log := log + [SaveSettings, MarkTelemetryRun];
      } else {
        sequence := settingsSequence;
        p := PositionPacket(comment, withWeather, None);
      }
      ok := SendAprsFrame(p, encode, air, cfg);
      if cfg.telemetryInPosition {
        AppendAssoc(old(log), [SaveSettings, MarkTelemetryRun], FrameOutcome(p, encode, air, cfg).effects);
      }
    }

    /** `sendStatus(comment)`. */
    method SendStatus(comment: string, encode: Packet -> seq<byte>, air: Air, cfg: Settings) returns (ok: bool)
      requires Valid() && WellFormed(air)
      modifies this, buffer
      ensures (ok, log, hasError) == Apply(old(log), old(hasError), FrameOutcome(StatusPacket(comment), encode, air, cfg))
      ensures hasInterrupt == old(hasInterrupt) && shouldSendTelemetryParams == old(shouldSendTelemetryParams)
    {
      ok := SendAprsFrame(StatusPacket(comment), encode, air, cfg);
    }

    /** `sendItem(name, symbol, symbolTable, comment, ..., alive)` (the item's position is not part of this model). */
    method SendItem(name: string, symbol: char, symbolTable: char, comment: string, alive: bool,
                    encode: Packet -> seq<byte>, air: Air, cfg: Settings) returns (ok: bool)
      requires Valid() && WellFormed(air)
      modifies this, buffer
      ensures (ok, log, hasError) == Apply(old(log), old(hasError), FrameOutcome(ItemPacket(name, symbol, symbolTable, comment, alive), encode, air, cfg))
      ensures hasInterrupt == old(hasInterrupt) && shouldSendTelemetryParams == old(shouldSendTelemetryParams)
    {
      ok := SendAprsFrame(ItemPacket(name, symbol, symbolTable, comment, alive), encode, air, cfg);
    }

    /** `received`; the result is `shouldTx`, which the source keeps local. */
    method Received(payload: seq<byte>, decoded: Option<Decoded>, rx: RxAnswers, encode: Packet -> seq<byte>, cfg: Settings)
      returns (shouldTx: bool)
      requires Valid() && RxWellFormed(rx)
      modifies this, buffer
      ensures (shouldTx, log, hasError) == Apply(old(log), old(hasError), ReceivedOutcome(payload, decoded, rx, encode, cfg))
      ensures hasInterrupt == old(hasInterrupt) && shouldSendTelemetryParams == old(shouldSendTelemetryParams)
    {
      log := log + [LedOn];
      ghost var done: seq<Effect> := [LedOn];
      shouldTx := false;
      if decoded.None? {
        log := log + [ForwardToKiss(payload)];
        AppendAssoc(old(log), done, [ForwardToKiss(payload)]);
        done := done + [ForwardToKiss(payload)];
      } else {
        var f := decoded.value;
        log := log + [AddToHistory(f)];
        AppendAssoc(old(log), done, [AddToHistory(f)]);
        done := done + [AddToHistory(f)];
        if EqualsIgnoreCase(f.source, cfg.call) {
          return;
        }
        if Contains(f.messageDestination, cfg.call) {
          shouldTx := AnswerMessage(f, rx, encode, cfg);
          AppendAssoc(old(log), done, ForMeOutcome(f, rx, encode, cfg).effects);
          done := done + ForMeOutcome(f, rx, encode, cfg).effects;
        } else if cfg.digipeaterEnabled {
          shouldTx := rx.canBeDigipeated;
          if shouldTx {
            var p := RawContentPacket(f.source, f.path, f.destination, f.content);
            shouldTx := SendAprsFrame(p, encode, rx.digiAir, cfg);
            AppendAssoc(old(log), done, FrameOutcome(p, encode, rx.digiAir, cfg).effects);
            done := done + FrameOutcome(p, encode, rx.digiAir, cfg).effects;
          }
        }
      }
      if !shouldTx {
        log := log + [LedOff];
        AppendAssoc(old(log), done, [LedOff]);
      }
    }

    /** The branch of `received` for a message addressed to this station. */
    method AnswerMessage(f: Decoded, rx: RxAnswers, encode: Packet -> seq<byte>, cfg: Settings) returns (shouldTx: bool)
      requires Valid() && RxWellFormed(rx)
      modifies this, buffer
      ensures (shouldTx, log, hasError) == Apply(old(log), old(hasError), ForMeOutcome(f, rx, encode, cfg))
      ensures hasInterrupt == old(hasInterrupt) && shouldSendTelemetryParams == old(shouldSendTelemetryParams)
    {
      shouldTx := false;
      if |f.messageText| > 0 {
        ghost var ack := Nothing;
        if |f.messageAck| > 0 {
          shouldTx := SendMessage(f.source, "", f.messageAck, encode, rx.ackAir, cfg);
          ack := FrameOutcome(MessagePacket(f.source, "", f.messageAck), encode, rx.ackAir, cfg);
        } else {
          assert log == old(log) + ack.effects;
        }
        log := log + [RunCommand(f.messageText)];
        var replied := SendMessage(f.source, rx.response, "", encode, rx.replyAir, cfg);
        shouldTx := shouldTx || replied;
        AppendAssoc(old(log), ack.effects, [RunCommand(f.messageText)]);
        AppendAssoc(old(log), ack.effects + [RunCommand(f.messageText)],
                  FrameOutcome(MessagePacket(f.source, rx.response, ""), encode, rx.replyAir, cfg).effects);
      } else {
        assert log == old(log) + Nothing.effects;
      }
    }

    /**
     * `update`: only when the interrupt flag is set, which it clears; a
     * received packet (`rxDone`) is passed on when it was read and is at
     * least 15 bytes long, any other interrupt re-arms receive.
     */
    method Update(rxDone: bool, readOk: bool, payload: seq<byte>, decoded: Option<Decoded>, rx: RxAnswers,
                  encode: Packet -> seq<byte>, cfg: Settings)
      requires Valid() && RxWellFormed(rx)
      modifies this, buffer
      ensures !hasInterrupt
      ensures (log, hasError) == UpdateStep(old(log), old(hasError), old(hasInterrupt), rxDone, readOk, payload, decoded, rx, encode, cfg)
      ensures shouldSendTelemetryParams == old(shouldSendTelemetryParams)
    {
      if hasInterrupt {
        hasInterrupt := false;
        if rxDone {
          if readOk && |payload| >= MinPacketLength {
            var _ := Received(payload, decoded, rx, encode, cfg);
          }
        } else {
          log := log + [StartReceive];
        }
      }
    }
  }
}
