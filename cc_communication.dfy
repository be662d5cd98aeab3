/**
 * The LoRa-APRS side of the CubeCell variant
 * (cubecell_monitoring/src/Communication.cpp, include/Communication.h).
 *
 * The APRS codec and the radio are not part of this model: the encoder is a
 * function parameter `encode`, the decoded frame is an input, and the radio's
 * answers to the status checks of one `send` are a sequence `busy` of five
 * samples.  What the pipeline does to the radio is recorded, in order, in its
 * own log of `RadioEffect`s; what it does to the board (LED, delays, errors)
 * goes through `CcSystem` and lands in the system's log.
 */
module CcCommunication {
  import opened Ints
  import opened Seqs
  import opened Text
  import opened Wrappers
  import opened CcSystem
  import CcMppt

  /** TRX_BUFFER: 256 payload bytes and the 3-byte LoRa-APRS prefix. */
  const TrxBuffer: nat := 259
  /** The number of radio status checks of `send`. */
  const SendTries: nat := 5
  /** The wait after each busy status check. */
  const ChannelBackoffMs: nat := 2500
  /** The wait at the start of every `send`. */
  const SettleMs: nat := 100
  /** APRS_CALLSIGN, APRS_COMMENT, APRS_STATUS. */
  const Callsign: string := "F4HVV-15"
  const AprsComment: string := "f4hvv.valentin-saugnier.fr"
  const AprsStatus: string := "Digi & Meshtastic Gaulix 868"
  /** APRS_TELEMETRY_IN_POSITION. */
  const TelemetryInPosition: bool := false

  /** The 3-byte LoRa-APRS prefix `'<', 0xFF, 0x01`. */
  const LoraPrefix: seq<byte> := [0x3C, 0xFF, 0x01]

  /** The three telemetry-parameter frames of section 13 of the APRS Protocol Reference 1.0.1. */
  datatype ParamsKind = Label | Unit | Equation

  /** A telemetry report: sequence number, comment, five analog channels and eight flags. */
  datatype TelemetryData = TelemetryData(sequence: uint16, comment: string, analog: seq<int>, bits: seq<bool>)

  /** What the pipeline hands to the APRS encoder (the header fields from the configuration are implicit). */
  datatype Packet =
    | MessagePacket(destination: string, text: string, ack: string)
    | TelemetryPacket(data: TelemetryData)
    | TelemetryParamsPacket(kind: ParamsKind)
    | PositionPacket(data: TelemetryData, withTelemetry: bool, withWeather: bool)
    | StatusPacket(comment: string)
    | RawContentPacket(source: string, path: string, destination: string, content: string)

  /** What the pipeline does to the radio and to its own TX watchdog timer. */
  datatype RadioEffect =
    | Encoded(packet: Packet)
    | Transmit(frame: seq<byte>)
    | RxBoosted
    | TxWatchdogRestart
    | RunCommand(text: string)

  /** The fields of `Communication` this model tracks. */
  datatype CommState = CommState(shouldSendTelemetryParams: bool, telemetrySequenceNumber: uint16, log: seq<RadioEffect>)

  /** The result of one step: the boolean the source returns, and the new states of the pipeline and of the system. */
  datatype Step = Step(ok: bool, comm: CommState, sys: SysState)

  /** The readings a report is made of: the charger's values and status text, the uptime, the box sensor and the relays. */
  datatype Readings = Readings(
    charger: CcMppt.Values,
    chargerStatus: string,
    uptimeMs: uint32,
    boxOpened: bool,
    relay1: bool,
    relay2: bool)

  /** The fields of a received frame that routing looks at. */
  datatype Decoded = Decoded(
    source: string,
    destination: string,
    path: string,
    content: string,
    messageDestination: string,
    messageText: string,
    messageAck: string)

  /** The answers `received` depends on: the channel samples of its sends, the command's result, `canBeDigipeated`. */
  datatype RxAnswers = RxAnswers(
    ackBusy: seq<bool>,
    replyBusy: seq<bool>,
    digiBusy: seq<bool>,
    commandOk: bool,
    canBeDigipeated: bool)

  predicate RxWellFormed(rx: RxAnswers)
  {
    |rx.ackBusy| == SendTries && |rx.replyBusy| == SendTries && |rx.digiBusy| == SendTries
  }

  /** `n` sets of channel samples, one per `send`. */
  predicate Channels(busy: seq<seq<bool>>, n: nat)
  {
    |busy| == n && forall i :: 0 <= i < n ==> |busy[i]| == SendTries
  }

  // ---------------------------------------------------------------------
  // send

  /**
   * Value of `rxTry` when the loop
   * `while (rxTry++ < 5 && !(status is RX_RUNNING or IDLE))` exits, starting
   * from `i`: one past the first free sample, or 6 when all are busy.
   */
  function ChannelWait(busy: seq<bool>, i: nat): (r: nat)
    requires |busy| == SendTries && i <= SendTries
    ensures i < r <= SendTries + 1
    decreases SendTries - i
  {
    if i == SendTries then SendTries + 1
    else if !busy[i] then i + 1
    else ChannelWait(busy, i + 1)
  }

  /** The `delayWdt(2500)` after each busy sample, from sample `i` on. */
  function Backoff(busy: seq<bool>, i: nat, wdt: bool): seq<SysEffect>
    requires |busy| == SendTries && i <= SendTries
    decreases SendTries - i
  {
    if i == SendTries || !busy[i] then [] else DelayPlan(ChannelBackoffMs, wdt) + Backoff(busy, i + 1, wdt)
  }

  /** The system after the status-check loop. */
  function Waited(s: SysState, busy: seq<bool>): (r: SysState)
    requires |busy| == SendTries
  {
    s.(log := s.log + Backoff(busy, 0, s.innerWdt))
  }

  /** Whether `send` of `p` succeeds: the loop did not give up and the encoding's `uint8_t` size is not 0. */
  predicate SendOk(p: Packet, encode: Packet -> seq<byte>, busy: seq<bool>)
    requires |busy| == SendTries
  {
    ChannelWait(busy, 0) != SendTries && |encode(p)| % TwoTo8 != 0
  }

  /** The frame `send` puts on the air for the encoding `e`: the prefix, then the first `size` bytes, `size` being `uint8_t`. */
  function Frame(e: seq<byte>): (frame: seq<byte>)
    ensures |frame| == |e| % TwoTo8 + 3 <= TrxBuffer - 1
    ensures frame[..3] == LoraPrefix
    ensures |e| < TwoTo8 ==> frame == LoraPrefix + e
  {
    LoraPrefix + e[..|e| % TwoTo8]
  }

  /**
   * `send()` of the packet `p` as written: wait 100 ms, yellow LED, the
   * status checks; give up with an error iff the counter ends at exactly 5;
   * red LED, encode; a zero size is an error not counted; else the frame is
   * transmitted and the LED stays red until `sent`.
   */
  function SendStep(c: CommState, s: SysState, p: Packet, encode: Packet -> seq<byte>, busy: seq<bool>): (r: Step)
    requires ValidState(s) && |busy| == SendTries
    ensures ValidState(r.sys) && SameSetup(s, r.sys)
    ensures r.comm == c.(log := r.comm.log)
    ensures r.ok <==> SendOk(p, encode, busy)
  {
    var s1 := Waited(TurnedOn(Delayed(s, SettleMs), ColorYellow), busy);
    if ChannelWait(busy, 0) == SendTries then Step(false, c, SerialErrored(s1, true))
    else
      var s2 := TurnedOn(s1, ColorRed);
      var e := encode(p);
      var encoded := c.(log := c.log + [Encoded(p)]);
      if |e| % TwoTo8 == 0 then Step(false, encoded, SerialErrored(s2, false))
      else Step(true, encoded.(log := encoded.log + [Transmit(Frame(e))]), s2)
  }

  /**
   * The status check as written gives up when the fifth sample is the first
   * free one, and goes on to transmit when all five are busy.
   */
  lemma SendGivesUpIff(c: CommState, s: SysState, p: Packet, encode: Packet -> seq<byte>, busy: seq<bool>)
    requires ValidState(s) && |busy| == SendTries
    ensures ChannelWait(busy, 0) == SendTries <==> busy == [true, true, true, true, false]
    ensures busy == [true, true, true, true, true] && |encode(p)| % TwoTo8 != 0 ==>
      SendStep(c, s, p, encode, busy).comm.log == c.log + [Encoded(p), Transmit(Frame(encode(p)))]
  {
    if ChannelWait(busy, 0) == SendTries {
      assert busy[0] && busy[1] && busy[2] && busy[3] && !busy[4];
    }
  }

  /** The status check as intended: go on only if one of the samples from `i` on is free. */
  function ChannelClearIntended(busy: seq<bool>, i: nat): (clear: bool)
    requires |busy| == SendTries && i <= SendTries
    ensures clear <==> exists k :: i <= k < SendTries && !busy[k]
    decreases SendTries - i
  {
    if i == SendTries then false
    else if !busy[i] then true
    else ChannelClearIntended(busy, i + 1)
  }

  /** The two inputs on which the counter test as written and the intended check disagree. */
  lemma ChannelCheckDiscrepancy()
    ensures ChannelWait([true, true, true, true, false], 0) == SendTries
    ensures ChannelClearIntended([true, true, true, true, false], 0)
    ensures ChannelWait([true, true, true, true, true], 0) != SendTries
    ensures !ChannelClearIntended([true, true, true, true, true], 0)
  {
    assert ChannelClearIntended([true, true, true, true, false], 0) by {
      assert ![true, true, true, true, false][4];
    }
  }

  /** Those two are the only inputs on which they disagree. */
  lemma ChannelCheckAgreesOtherwise(busy: seq<bool>)
    requires |busy| == SendTries
    ensures (ChannelWait(busy, 0) != SendTries) != ChannelClearIntended(busy, 0) <==>
      busy == [true, true, true, true, false] || busy == [true, true, true, true, true]
  {
    if busy[0] && busy[1] && busy[2] && busy[3] {
      if busy[4] {
        assert busy == [true, true, true, true, true];
      } else {
        assert busy == [true, true, true, true, false];
      }
    }
  }

  /** Busy samples seen from sample `i` on: each costs one back-off. */
  function BusyChecks(busy: seq<bool>, i: nat): nat
    requires |busy| == SendTries && i <= SendTries
  {
    if ChannelWait(busy, i) == SendTries + 1 then SendTries - i else ChannelWait(busy, i) - 1 - i
  }

  /** The loop waits 2500 ms after each busy sample, at most five times, and feeds the inner watchdog through the waits. */
  lemma {:induction false} BackoffWaits(busy: seq<bool>, i: nat, wdt: bool)
    requires |busy| == SendTries && i <= SendTries
    ensures TotalWait(Backoff(busy, i, wdt)) == ChannelBackoffMs * BusyChecks(busy, i)
    ensures Feeds(Backoff(busy, i, wdt)) == if wdt then 2 * BusyChecks(busy, i) else 0
    ensures SoftwareReset !in Backoff(busy, i, wdt)
    decreases SendTries - i
  {
    if i < SendTries && busy[i] {
      BackoffWaits(busy, i + 1, wdt);
      DelayPlanTotals(ChannelBackoffMs, wdt);
      TotalsAppend(DelayPlan(ChannelBackoffMs, wdt), Backoff(busy, i + 1, wdt));
    }
  }

  /**
   * The error accounting of `send`: giving up on the channel counts an
   * error, a zero-size encoding shows the error LED without counting one,
   * and a transmission leaves the counter alone with the LED red.
   */
  lemma SendErrors(c: CommState, s: SysState, p: Packet, encode: Packet -> seq<byte>, busy: seq<bool>)
    requires ValidState(s) && |busy| == SendTries
    ensures ChannelWait(busy, 0) == SendTries ==> SendStep(c, s, p, encode, busy).sys.nbError == (s.nbError + 1) % 256
    ensures ChannelWait(busy, 0) != SendTries ==> SendStep(c, s, p, encode, busy).sys.nbError == s.nbError
    ensures !SendStep(c, s, p, encode, busy).ok ==> SendStep(c, s, p, encode, busy).sys.ledColor == 0
    ensures SendStep(c, s, p, encode, busy).ok ==> SendStep(c, s, p, encode, busy).sys.ledColor == ColorRed
  {
    var s1 := Waited(TurnedOn(Delayed(s, SettleMs), ColorYellow), busy);
    if ChannelWait(busy, 0) == SendTries {
      SerialErrorCounts(s1, true);
    } else {
      var s2 := TurnedOn(s1, ColorRed);
      TurnedOnShowsColor(s1, ColorRed);
      SerialErrorCounts(s2, false);
    }
  }

  /** Every frame put on the air is the prefix and the encoding truncated to its `uint8_t` size, and fits the radio buffer. */
  lemma FrameIsPrefixed(c: CommState, s: SysState, p: Packet, encode: Packet -> seq<byte>, busy: seq<bool>, frame: seq<byte>)
    requires ValidState(s) && |busy| == SendTries
    requires Transmit(frame) in SendStep(c, s, p, encode, busy).comm.log[|c.log|..]
    ensures frame == LoraPrefix + encode(p)[..|encode(p)| % TwoTo8]
    ensures |frame| < TrxBuffer && frame[..3] == LoraPrefix
    ensures |encode(p)| < TwoTo8 ==> frame[3..] == encode(p)
  {
    var r := SendStep(c, s, p, encode, busy);
    if SendOk(p, encode, busy) {
      assert r.comm.log[|c.log|..] == [Encoded(p), Transmit(Frame(encode(p)))];
    }
  }

  // ---------------------------------------------------------------------
  // The packets handed to the encoder

  /** The packets handed to the encoder, in order. */
  function Packets(log: seq<RadioEffect>): seq<Packet>
  {
    if log == [] then []
    else (if log[0].Encoded? then [log[0].packet] else []) + Packets(log[1..])
  }

  lemma {:induction false} PacketsAppend(a: seq<RadioEffect>, b: seq<RadioEffect>)
    ensures Packets(a + b) == Packets(a) + Packets(b)
  {
    if a != [] {
      assert (a + b)[0] == a[0];
      assert (a + b)[1..] == a[1..] + b;
      PacketsAppend(a[1..], b);
      AppendAssoc(if a[0].Encoded? then [a[0].packet] else [], Packets(a[1..]), Packets(b));
    } else {
      assert a + b == b;
    }
  }

  /** The packet of a `send` that got past the status checks, else nothing. */
  function Attempted(p: Packet, busy: seq<bool>): seq<Packet>
    requires |busy| == SendTries
  {
    if ChannelWait(busy, 0) != SendTries then [p] else []
  }

  /** A `send` encodes its packet only once the status checks let it through, and only appends to the log. */
  lemma SendPackets(c: CommState, s: SysState, p: Packet, encode: Packet -> seq<byte>, busy: seq<bool>)
    requires ValidState(s) && |busy| == SendTries
    ensures |c.log| <= |SendStep(c, s, p, encode, busy).comm.log|
    ensures SendStep(c, s, p, encode, busy).comm.log[..|c.log|] == c.log
    ensures Packets(SendStep(c, s, p, encode, busy).comm.log) == Packets(c.log) + Attempted(p, busy)
  {
    var r := SendStep(c, s, p, encode, busy);
    if ChannelWait(busy, 0) != SendTries {
      var tail := if SendOk(p, encode, busy) then [Encoded(p), Transmit(Frame(encode(p)))] else [Encoded(p)];
      assert r.comm.log == c.log + tail;
      PacketsAppend(c.log, tail);
      assert Packets(tail) == [p] by {
        if SendOk(p, encode, busy) {
          assert tail[1..] == [Transmit(Frame(encode(p)))];
          assert Packets(tail[1..][1..]) == [];
        } else {
          assert Packets(tail[1..]) == [];
        }
      }
    } else {
      assert Packets(c.log) + [] == Packets(c.log);
    }
  }

  // ---------------------------------------------------------------------
  // Messages, telemetry, position, status

  /** The five analog channels: battery voltage and current, solar voltage and current, the watchdog counter when it is enabled. */
  function Analog(v: CcMppt.Values): (a: seq<int>)
    ensures |a| == 5
  {
    [v.voltageBattery, v.currentBattery, v.voltageSolar, v.currentSolar, if v.watchdogEnabled then v.watchdogCounter else 0]
  }

  /** The eight flags: night, alert, watchdog, 5V, box, relay 1, relay 2, and whether an error is counted. */
  function Bits(r: Readings, nbError: byte): (b: seq<bool>)
    ensures |b| == 8
  {
    [r.charger.night, r.charger.alert, r.charger.watchdogEnabled, r.charger.powerEnabled, r.boxOpened, r.relay1, r.relay2, nbError > 0]
  }

  /** The comment `"Chg:%s Up:%ld"` of a telemetry report. */
  function TelemetryComment(r: Readings): string
  {
    "Chg:" + r.chargerStatus + " Up:" + FormatNat(r.uptimeMs / 1000, 10)
  }

  /** `sendTelemetryParams`: Label, Unit, Equation, their results or-ed. */
  function ParamsStep(c: CommState, s: SysState, encode: Packet -> seq<byte>, busy: seq<seq<bool>>): (r: Step)
    requires ValidState(s) && Channels(busy, 3)
    ensures ValidState(r.sys) && SameSetup(s, r.sys)
    ensures r.comm == c.(log := r.comm.log)
  {
    var a := SendStep(c, s, TelemetryParamsPacket(Label), encode, busy[0]);
    var b := SendStep(a.comm, a.sys, TelemetryParamsPacket(Unit), encode, busy[1]);
    var d := SendStep(b.comm, b.sys, TelemetryParamsPacket(Equation), encode, busy[2]);
    Step(a.ok || b.ok || d.ok, d.comm, d.sys)
  }

  /** The parameter frames go Label, Unit, Equation; the result says whether any of them was sent. */
  lemma ParamsInOrder(c: CommState, s: SysState, encode: Packet -> seq<byte>, busy: seq<seq<bool>>)
    requires ValidState(s) && Channels(busy, 3)
    ensures Packets(ParamsStep(c, s, encode, busy).comm.log) == Packets(c.log)
      + Attempted(TelemetryParamsPacket(Label), busy[0])
      + Attempted(TelemetryParamsPacket(Unit), busy[1])
      + Attempted(TelemetryParamsPacket(Equation), busy[2])
    ensures ParamsStep(c, s, encode, busy).ok <==>
      SendOk(TelemetryParamsPacket(Label), encode, busy[0]) ||
      SendOk(TelemetryParamsPacket(Unit), encode, busy[1]) ||
      SendOk(TelemetryParamsPacket(Equation), encode, busy[2])
  {
    var a := SendStep(c, s, TelemetryParamsPacket(Label), encode, busy[0]);
    var b := SendStep(a.comm, a.sys, TelemetryParamsPacket(Unit), encode, busy[1]);
    SendPackets(c, s, TelemetryParamsPacket(Label), encode, busy[0]);
    SendPackets(a.comm, a.sys, TelemetryParamsPacket(Unit), encode, busy[1]);
    SendPackets(b.comm, b.sys, TelemetryParamsPacket(Equation), encode, busy[2]);
  }

  /** The pending-parameters part of `sendTelemetry`: the flag stays set only if none of the parameter frames was sent. */
  function PendingParamsStep(c: CommState, s: SysState, encode: Packet -> seq<byte>, busy: seq<seq<bool>>): (r: Step)
    requires ValidState(s) && Channels(busy, 3)
    ensures ValidState(r.sys) && SameSetup(s, r.sys)
    ensures r.comm.telemetrySequenceNumber == c.telemetrySequenceNumber
  {
    if c.shouldSendTelemetryParams then
      var p := ParamsStep(c, s, encode, busy);
      Step(p.ok, p.comm.(shouldSendTelemetryParams := !p.ok), p.sys)
    else Step(false, c, s)
  }

  /** The report part of `sendTelemetry`: numbered by the post-incremented `uint16_t` counter. */
  function ReportStep(c: CommState, s: SysState, rd: Readings, encode: Packet -> seq<byte>, busy: seq<bool>): (r: Step)
    requires ValidState(s) && |busy| == SendTries
    ensures ValidState(r.sys) && SameSetup(s, r.sys)
  {
    var n := c.telemetrySequenceNumber;
    var d := TelemetryData(n, TelemetryComment(rd), Analog(rd.charger), Bits(rd, s.nbError));
    SendStep(c.(telemetrySequenceNumber := Wrap16(n as int + 1)), s, TelemetryPacket(d), encode, busy)
  }

  /**
   * `sendTelemetry`: the parameters first when they are pending, then the
   * report; the error flag of the report is read after the parameter
   * frames.
   */
  function TelemetryStep(c: CommState, s: SysState, rd: Readings, encode: Packet -> seq<byte>,
                         paramsBusy: seq<seq<bool>>, busy: seq<bool>): (r: Step)
    requires ValidState(s) && Channels(paramsBusy, 3) && |busy| == SendTries
    ensures ValidState(r.sys) && SameSetup(s, r.sys)
  {
    var p := PendingParamsStep(c, s, encode, paramsBusy);
    var t := ReportStep(p.comm, p.sys, rd, encode, busy);
    Step(p.ok || t.ok, t.comm, t.sys)
  }

  /**
   * One telemetry send advances the counter by one (wrapping at 2^16); the
   * parameter flag is cleared exactly when the parameters were pending and
   * one of their frames was sent; the result says whether any frame went.
   */
  lemma TelemetryNumbering(c: CommState, s: SysState, rd: Readings, encode: Packet -> seq<byte>,
                           paramsBusy: seq<seq<bool>>, busy: seq<bool>)
    requires ValidState(s) && Channels(paramsBusy, 3) && |busy| == SendTries
    ensures var r := TelemetryStep(c, s, rd, encode, paramsBusy, busy);
      r.comm.telemetrySequenceNumber == (c.telemetrySequenceNumber + 1) % TwoTo16 &&
      (r.comm.shouldSendTelemetryParams <==> c.shouldSendTelemetryParams && !ParamsStep(c, s, encode, paramsBusy).ok)
    ensures var p := PendingParamsStep(c, s, encode, paramsBusy);
      TelemetryStep(c, s, rd, encode, paramsBusy, busy).ok <==>
      (c.shouldSendTelemetryParams && ParamsStep(c, s, encode, paramsBusy).ok) ||
      SendOk(TelemetryPacket(TelemetryData(c.telemetrySequenceNumber, TelemetryComment(rd), Analog(rd.charger), Bits(rd, p.sys.nbError))),
             encode, busy)
  {
    var p := PendingParamsStep(c, s, encode, paramsBusy);
    var n := c.telemetrySequenceNumber;
    var d := TelemetryData(n, TelemetryComment(rd), Analog(rd.charger), Bits(rd, p.sys.nbError));
    var t := SendStep(p.comm.(telemetrySequenceNumber := Wrap16(n as int + 1)), p.sys, TelemetryPacket(d), encode, busy);
    assert t == ReportStep(p.comm, p.sys, rd, encode, busy);
  }

  /** The report is handed to the encoder after the pending parameter frames, carrying the counter's old value. */
  lemma TelemetryAfterParams(c: CommState, s: SysState, rd: Readings, encode: Packet -> seq<byte>,
                             paramsBusy: seq<seq<bool>>, busy: seq<bool>)
    requires ValidState(s) && Channels(paramsBusy, 3) && |busy| == SendTries
    ensures var pk := Packets(TelemetryStep(c, s, rd, encode, paramsBusy, busy).comm.log);
      var params := if c.shouldSendTelemetryParams then
        Attempted(TelemetryParamsPacket(Label), paramsBusy[0]) + Attempted(TelemetryParamsPacket(Unit), paramsBusy[1]) +
        Attempted(TelemetryParamsPacket(Equation), paramsBusy[2]) else [];
      |pk| >= |Packets(c.log)| + |params| && pk[..|Packets(c.log)| + |params|] == Packets(c.log) + params &&
      (ChannelWait(busy, 0) != SendTries ==>
        |pk| == |Packets(c.log)| + |params| + 1 && pk[|pk| - 1].TelemetryPacket? && pk[|pk| - 1].data.sequence == c.telemetrySequenceNumber)
  {
    var p := PendingParamsStep(c, s, encode, paramsBusy);
    var n := c.telemetrySequenceNumber;
    var d := TelemetryData(n, TelemetryComment(rd), Analog(rd.charger), Bits(rd, p.sys.nbError));
    var numbered := p.comm.(telemetrySequenceNumber := Wrap16(n as int + 1));
    var params := if c.shouldSendTelemetryParams then
      Attempted(TelemetryParamsPacket(Label), paramsBusy[0]) + Attempted(TelemetryParamsPacket(Unit), paramsBusy[1]) +
      Attempted(TelemetryParamsPacket(Equation), paramsBusy[2]) else [];
    if c.shouldSendTelemetryParams {
      ParamsInOrder(c, s, encode, paramsBusy);
      AppendAssoc(Packets(c.log), Attempted(TelemetryParamsPacket(Label), paramsBusy[0]),
        Attempted(TelemetryParamsPacket(Unit), paramsBusy[1]));
      AppendAssoc(Packets(c.log), Attempted(TelemetryParamsPacket(Label), paramsBusy[0]) + Attempted(TelemetryParamsPacket(Unit), paramsBusy[1]),
        Attempted(TelemetryParamsPacket(Equation), paramsBusy[2]));
    }
    assert Packets(p.comm.log) == Packets(c.log) + params;
    SendPackets(numbered, p.sys, TelemetryPacket(d), encode, busy);
  }

  /**
   * The position packet of `sendPosition` with the counter at `n`: with
   * telemetry in the position (configured, or forced by a weather sensor
   * error) it carries the counter's second post-increment and the comment
   * `"Up:%ld"`; otherwise the packet's comment stays empty.  The weather
   * flag is the pressure test.
   */
  function PositionPacketOf(n: uint16, rd: Readings, nbError: byte, weatherError: bool, pressurePositive: bool): (p: Packet)
    ensures p.PositionPacket? && p.withTelemetry == weatherError && p.withWeather == pressurePositive
    ensures p.data.sequence == if weatherError then (n + 1) % TwoTo16 else n
    ensures p.data.analog == Analog(rd.charger) && p.data.bits == Bits(rd, nbError)
  {
    var withTelemetry := TelemetryInPosition || weatherError;
    var d := if withTelemetry then TelemetryData(Wrap16(n as int + 1), "Up:" + FormatNat(rd.uptimeMs / 1000, 10), Analog(rd.charger), Bits(rd, nbError))
             else TelemetryData(n, "", Analog(rd.charger), Bits(rd, nbError));
    PositionPacket(d, withTelemetry, pressurePositive)
  }

  /** The counter after `sendPosition`: one post-increment, and a second one with telemetry in the position. */
  function PositionNext(n: uint16, weatherError: bool): (next: uint16)
    ensures next == (n + (if weatherError then 2 else 1)) % TwoTo16
  {
    var once := Wrap16(n as int + 1);
    if TelemetryInPosition || weatherError then Wrap16(once as int + 1) else once
  }

  /** `sendPosition(comment)`; the `comment` argument is not used. */
  function PositionStep(c: CommState, s: SysState, comment: string, rd: Readings, weatherError: bool, pressurePositive: bool,
                        encode: Packet -> seq<byte>, busy: seq<bool>): (r: Step)
    requires ValidState(s) && |busy| == SendTries
    ensures ValidState(r.sys) && SameSetup(s, r.sys)
  {
    var n := c.telemetrySequenceNumber;
    SendStep(c.(telemetrySequenceNumber := PositionNext(n, weatherError)), s,
             PositionPacketOf(n, rd, s.nbError, weatherError, pressurePositive), encode, busy)
  }

  /**
   * The counter goes up by one per position, by two when the weather
   * sensor is in error, and the position is handed to the encoder when the
   * status checks let it through; whatever the comment argument.
   */
  lemma PositionNumbering(c: CommState, s: SysState, comment: string, rd: Readings, weatherError: bool, pressurePositive: bool,
                          encode: Packet -> seq<byte>, busy: seq<bool>)
    requires ValidState(s) && |busy| == SendTries
    ensures var r := PositionStep(c, s, comment, rd, weatherError, pressurePositive, encode, busy);
      r.comm.telemetrySequenceNumber == (c.telemetrySequenceNumber + (if weatherError then 2 else 1)) % TwoTo16 &&
      Packets(r.comm.log) == Packets(c.log) +
        Attempted(PositionPacketOf(c.telemetrySequenceNumber, rd, s.nbError, weatherError, pressurePositive), busy) &&
      r == PositionStep(c, s, "", rd, weatherError, pressurePositive, encode, busy)
  {
    var n := c.telemetrySequenceNumber;
    SendPackets(c.(telemetrySequenceNumber := PositionNext(n, weatherError)), s,
                PositionPacketOf(n, rd, s.nbError, weatherError, pressurePositive), encode, busy);
  }

  /** `sent()`: LED off, the TX watchdog timer restarted, receive re-armed. */
  function SentComm(c: CommState): (r: CommState)
    ensures |c.log| <= |r.log| && r.log[..|c.log|] == c.log && TxWatchdogRestart in r.log[|c.log|..]
  {
    c.(log := c.log + [TxWatchdogRestart, RxBoosted])
  }

  // ---------------------------------------------------------------------
  // received

  /**
   * `received` after the decode: a message for this station with a text is
   * acknowledged (even with an empty ack id), the command is run and "OK"
   * or "KO" is sent back; any other frame is digipeated when the
   * digipeater function is allowed and the library says it can be.
   */
  function RoutedStep(c: CommState, s: SysState, f: Decoded, rx: RxAnswers, encode: Packet -> seq<byte>): (r: Step)
    requires ValidState(s) && RxWellFormed(rx)
    ensures ValidState(r.sys) && r.sys.functionsAllowed == s.functionsAllowed
  {
    if Contains(f.messageDestination, Callsign) then
      if |f.messageText| > 0 then
        var a := SendStep(c, s, MessagePacket(f.source, "", f.messageAck), encode, rx.ackBusy);
        var run := a.comm.(log := a.comm.log + [RunCommand(f.messageText)]);
        var k := SendStep(run, a.sys, MessagePacket(f.source, if rx.commandOk then "OK" else "KO", ""), encode, rx.replyBusy);
        Step(a.ok || k.ok, k.comm, k.sys)
      else Step(false, c, s)
    else if s.functionsAllowed[AddressAprsDigipeater] && rx.canBeDigipeated then
      SendStep(c, s, RawContentPacket(f.source, f.path, f.destination, f.content), encode, rx.digiBusy)
    else Step(false, c, s)
  }

  /** `received(payload)`: green flash, decode (a failure is an error not counted), route, and re-arm receive unless a frame went out. */
  function ReceivedStep(c: CommState, s: SysState, decoded: Option<Decoded>, rx: RxAnswers, encode: Packet -> seq<byte>): (r: Step)
    requires ValidState(s) && RxWellFormed(rx)
    ensures ValidState(r.sys)
  {
    var flashed := TurnedOn(TurnedOn(s, ColorGreen), 0);
    var routed := if decoded.None? then Step(false, c, SerialErrored(flashed, false))
                  else RoutedStep(c, flashed, decoded.value, rx, encode);
    if routed.ok then routed
    else Step(false, routed.comm.(log := routed.comm.log + [RxBoosted]), TurnedOn(routed.sys, 0))
  }

  /**
   * A message for this station is always answered twice, the ack-style
   * message (its ack id possibly empty) and then the command's verdict, with
   * the command run in between; there is no loopback check.
   */
  lemma MessageForMeAnswered(c: CommState, s: SysState, f: Decoded, rx: RxAnswers, encode: Packet -> seq<byte>)
    requires ValidState(s) && RxWellFormed(rx)
    requires Contains(f.messageDestination, Callsign) && |f.messageText| > 0
    requires ChannelWait(rx.ackBusy, 0) != SendTries && ChannelWait(rx.replyBusy, 0) != SendTries
    ensures Packets(RoutedStep(c, s, f, rx, encode).comm.log) ==
      Packets(c.log) + [MessagePacket(f.source, "", f.messageAck), MessagePacket(f.source, if rx.commandOk then "OK" else "KO", "")]
    ensures RunCommand(f.messageText) in RoutedStep(c, s, f, rx, encode).comm.log[|c.log|..]
  {
    var a := SendStep(c, s, MessagePacket(f.source, "", f.messageAck), encode, rx.ackBusy);
    var run := a.comm.(log := a.comm.log + [RunCommand(f.messageText)]);
    var k := SendStep(run, a.sys, MessagePacket(f.source, if rx.commandOk then "OK" else "KO", ""), encode, rx.replyBusy);
    SendPackets(c, s, MessagePacket(f.source, "", f.messageAck), encode, rx.ackBusy);
    SendPackets(run, a.sys, MessagePacket(f.source, if rx.commandOk then "OK" else "KO", ""), encode, rx.replyBusy);
    PacketsAppend(a.comm.log, [RunCommand(f.messageText)]);
    assert Packets([RunCommand(f.messageText)]) == [];
    AppendAssoc(Packets(c.log), [MessagePacket(f.source, "", f.messageAck)], [MessagePacket(f.source, if rx.commandOk then "OK" else "KO", "")]);
    assert k.comm.log[|c.log|..][|a.comm.log| - |c.log|] == RunCommand(f.messageText);
  }

  /** A frame not for this station is re-sent only when digipeating is allowed and possible, as the same raw content. */
  lemma DigipeatOnlyWhenAllowed(c: CommState, s: SysState, f: Decoded, rx: RxAnswers, encode: Packet -> seq<byte>)
    requires ValidState(s) && RxWellFormed(rx) && !Contains(f.messageDestination, Callsign)
    ensures !(s.functionsAllowed[AddressAprsDigipeater] && rx.canBeDigipeated) ==>
      RoutedStep(c, s, f, rx, encode) == Step(false, c, s)
    ensures s.functionsAllowed[AddressAprsDigipeater] && rx.canBeDigipeated ==>
      Packets(RoutedStep(c, s, f, rx, encode).comm.log) ==
        Packets(c.log) + Attempted(RawContentPacket(f.source, f.path, f.destination, f.content), rx.digiBusy)
  {
    if s.functionsAllowed[AddressAprsDigipeater] && rx.canBeDigipeated {
      SendPackets(c, s, RawContentPacket(f.source, f.path, f.destination, f.content), encode, rx.digiBusy);
    }
  }

  /** A frame that fails to decode is an error not counted; receive is re-armed whenever nothing was sent. */
  lemma ReceivedRearms(c: CommState, s: SysState, decoded: Option<Decoded>, rx: RxAnswers, encode: Packet -> seq<byte>)
    requires ValidState(s) && RxWellFormed(rx)
    ensures decoded.None? ==> ReceivedStep(c, s, decoded, rx, encode).sys.nbError == s.nbError
    ensures decoded.None? ==> ReceivedStep(c, s, decoded, rx, encode).comm == c.(log := c.log + [RxBoosted])
    ensures !ReceivedStep(c, s, decoded, rx, encode).ok ==>
      ReceivedStep(c, s, decoded, rx, encode).comm.log[|ReceivedStep(c, s, decoded, rx, encode).comm.log| - 1] == RxBoosted
    ensures !ReceivedStep(c, s, decoded, rx, encode).ok ==> ReceivedStep(c, s, decoded, rx, encode).sys.ledColor == 0
  {
    var flashed := TurnedOn(TurnedOn(s, ColorGreen), 0);
    TurnedOnShowsColor(s, ColorGreen);
    TurnedOnShowsColor(TurnedOn(s, ColorGreen), 0);
    SerialErrorCounts(flashed, false);
    var routed := if decoded.None? then Step(false, c, SerialErrored(flashed, false))
                  else RoutedStep(c, flashed, decoded.value, rx, encode);
    TurnedOnShowsColor(routed.sys, 0);
  }

  // ---------------------------------------------------------------------
  // update

  /** The status part of `update`: sent when due and the APRS position function is allowed. */
  function StatusDue(c: CommState, s: SysState, due: bool, encode: Packet -> seq<byte>, busy: seq<bool>): (r: Step)
    requires ValidState(s) && |busy| == SendTries
    ensures ValidState(r.sys) && SameSetup(s, r.sys)
  {
    if due && s.functionsAllowed[AddressAprsPosition] then SendStep(c, s, StatusPacket(AprsStatus), encode, busy)
    else Step(false, c, s)
  }

  /** The position part of `update`: sent when due and the APRS position function is allowed. */
  function PositionDue(c: CommState, s: SysState, due: bool, rd: Readings, weatherError: bool, pressurePositive: bool,
                       encode: Packet -> seq<byte>, busy: seq<bool>): (r: Step)
    requires ValidState(s) && |busy| == SendTries
    ensures ValidState(r.sys) && SameSetup(s, r.sys)
  {
    if due && s.functionsAllowed[AddressAprsPosition] then PositionStep(c, s, AprsComment, rd, weatherError, pressurePositive, encode, busy)
    else Step(false, c, s)
  }

  /** The telemetry part of `update`: sent when due and the APRS telemetry function is allowed. */
  function TelemetryDue(c: CommState, s: SysState, due: bool, rd: Readings, encode: Packet -> seq<byte>, busy: seq<seq<bool>>): (r: Step)
    requires ValidState(s) && Channels(busy, 4)
    ensures ValidState(r.sys) && SameSetup(s, r.sys)
  {
    if due && s.functionsAllowed[AddressAprsTelemetry] then TelemetryStep(c, s, rd, encode, busy[..3], busy[3])
    else Step(false, c, s)
  }

  /**
   * `update(sendTelemetry, sendPosition, sendStatus)`: the status, then the
   * position, then the telemetry.  `ok` says whether any send succeeded
   * (the source returns nothing).
   */
  function UpdateStep(c: CommState, s: SysState, sendTelemetry: bool, sendPosition: bool, sendStatus: bool,
                      rd: Readings, weatherError: bool, pressurePositive: bool,
                      encode: Packet -> seq<byte>, busy: seq<seq<bool>>): (r: Step)
    requires ValidState(s) && Channels(busy, 6)
    ensures ValidState(r.sys) && SameSetup(s, r.sys)
  {
    var st := StatusDue(c, s, sendStatus, encode, busy[0]);
    var po := PositionDue(st.comm, st.sys, sendPosition, rd, weatherError, pressurePositive, encode, busy[1]);
    var te := TelemetryDue(po.comm, po.sys, sendTelemetry, rd, encode, busy[2..]);
    Step(st.ok || po.ok || te.ok, te.comm, te.sys)
  }

  /** With both APRS functions disallowed, `update` sends nothing whatever it is asked. */
  lemma UpdateGated(c: CommState, s: SysState, sendTelemetry: bool, sendPosition: bool, sendStatus: bool,
                    rd: Readings, weatherError: bool, pressurePositive: bool,
                    encode: Packet -> seq<byte>, busy: seq<seq<bool>>)
    requires ValidState(s) && Channels(busy, 6)
    ensures !s.functionsAllowed[AddressAprsPosition] && !s.functionsAllowed[AddressAprsTelemetry] ==>
      UpdateStep(c, s, sendTelemetry, sendPosition, sendStatus, rd, weatherError, pressurePositive, encode, busy) == Step(false, c, s)
    ensures !sendTelemetry && !sendPosition && !sendStatus ==>
      UpdateStep(c, s, sendTelemetry, sendPosition, sendStatus, rd, weatherError, pressurePositive, encode, busy) == Step(false, c, s)
  {
  }

  /** Status first, then position: with both due and allowed, the status packet precedes the position packet. */
  lemma UpdateStatusBeforePosition(c: CommState, s: SysState, rd: Readings, weatherError: bool, pressurePositive: bool,
                                   encode: Packet -> seq<byte>, busy: seq<seq<bool>>)
    requires ValidState(s) && Channels(busy, 6)
    requires s.functionsAllowed[AddressAprsPosition] && !s.functionsAllowed[AddressAprsTelemetry]
    requires ChannelWait(busy[0], 0) != SendTries && ChannelWait(busy[1], 0) != SendTries
    ensures var pk := Packets(UpdateStep(c, s, true, true, true, rd, weatherError, pressurePositive, encode, busy).comm.log);
      |pk| == |Packets(c.log)| + 2 && pk[|pk| - 2] == StatusPacket(AprsStatus) && pk[|pk| - 1].PositionPacket?
  {
    var st := SendStep(c, s, StatusPacket(AprsStatus), encode, busy[0]);
    SendPackets(c, s, StatusPacket(AprsStatus), encode, busy[0]);
    PositionNumbering(st.comm, st.sys, AprsComment, rd, weatherError, pressurePositive, encode, busy[1]);
    AppendAssoc(Packets(c.log), [StatusPacket(AprsStatus)],
      [PositionPacketOf(st.comm.telemetrySequenceNumber, rd, st.sys.nbError, weatherError, pressurePositive)]);
  }

  // ---------------------------------------------------------------------
  // The object

  class Communication {
    var shouldSendTelemetryParams: bool
    var telemetrySequenceNumber: uint16
    var log: seq<RadioEffect>
    /** The frame buffer handed to `Radio.Send`. */
    const buffer: array<byte>

    function State(): CommState
      reads this
    {
      CommState(shouldSendTelemetryParams, telemetrySequenceNumber, log)
    }

    predicate Valid()
      reads this
    {
      buffer.Length == TrxBuffer
    }

    /** A fresh pipeline: no parameters pending, counter at 0. */
    constructor ()
      ensures Valid() && fresh(buffer)
      ensures State() == CommState(false, 0, [])
    {
      shouldSendTelemetryParams := false;
      telemetrySequenceNumber := 0;
      log := [];
      buffer := new byte[TrxBuffer];
    }

    /** The status-check loop of `send`; returns the final `rxTry`. */
    method WaitForChannel(busy: seq<bool>, system: System) returns (rxTry: byte)
      requires |busy| == SendTries
      modifies system`log
      ensures rxTry == ChannelWait(busy, 0)
      ensures system.State() == Waited(old(system.State()), busy)
    {
      rxTry := 0;
      ghost var done: seq<SysEffect> := [];
      ghost var wdt := system.innerWdt;
      var searching := true;
      while searching
        invariant rxTry <= SendTries + 1
        invariant searching ==> rxTry <= SendTries
        invariant system.State() == old(system.State()).(log := old(system.log) + done)
        invariant searching ==> ChannelWait(busy, 0) == ChannelWait(busy, rxTry)
        invariant searching ==> Backoff(busy, 0, wdt) == done + Backoff(busy, rxTry, wdt)
        invariant !searching ==> rxTry == ChannelWait(busy, 0) && done == Backoff(busy, 0, wdt)
        decreases SendTries + 1 - rxTry
      {
        var below := rxTry < SendTries;
        rxTry := rxTry + 1;
        if !below || !busy[rxTry - 1] {
          searching := false;
        } else {
          AppendAssoc(done, DelayPlan(ChannelBackoffMs, wdt), Backoff(busy, rxTry, wdt));
          AppendAssoc(old(system.log), done, DelayPlan(ChannelBackoffMs, wdt));
          system.DelayWdt(ChannelBackoffMs);
          done := done + DelayPlan(ChannelBackoffMs, wdt);
        }
      }
    }

    /** Puts the prefix and then `e` in the buffer. */
    method WriteFrame(e: seq<byte>)
      requires Valid() && |e| <= TrxBuffer - 3
      modifies buffer
      ensures buffer[..|e| + 3] == LoraPrefix + e
    {
      buffer[0] := 0x3C;
      buffer[1] := 0xFF;
      buffer[2] := 0x01;
      var i := 0;
      while i < |e|
        invariant 0 <= i <= |e|
        invariant buffer[..3] == LoraPrefix
        invariant buffer[3..i + 3] == e[..i]
      {
        buffer[i + 3] := e[i];
        i := i + 1;
      }
      assert buffer[..|e| + 3] == buffer[..3] + buffer[3..|e| + 3];
    }

    /** `send()` of the packet `p`. */
    method Send(p: Packet, encode: Packet -> seq<byte>, busy: seq<bool>, system: System) returns (ok: bool)
      requires Valid() && system.Valid() && |busy| == SendTries
      modifies this`log, buffer, system`log, system`ledColor, system`nbError
      ensures system.Valid()
      ensures Step(ok, State(), system.State()) == SendStep(old(State()), old(system.State()), p, encode, busy)
    {
      system.DelayWdt(SettleMs);
      system.TurnOnRgb(ColorYellow);
      var rxTry := WaitForChannel(busy, system);
      if rxTry == SendTries {
        system.SerialError(true);
        return false;
      }
      system.TurnOnRgb(ColorRed);
      var e := encode(p);
      log := log + [Encoded(p)];
      var size := |e| % TwoTo8;
      if size == 0 {
        system.SerialError(false);
        return false;
      }
      WriteFrame(e[..size]);
      log := log + [Transmit(buffer[..size + 3])];
      ok := true;
    }

    /** `sendMessage(destination, message, ackToConfirm)`; a missing ack is the empty string. */
    method SendMessage(destination: string, text: string, ack: string, encode: Packet -> seq<byte>, busy: seq<bool>, system: System)
      returns (ok: bool)
      requires Valid() && system.Valid() && |busy| == SendTries
      modifies this`log, buffer, system`log, system`ledColor, system`nbError
      ensures system.Valid()
      ensures Step(ok, State(), system.State()) == SendStep(old(State()), old(system.State()), MessagePacket(destination, text, ack), encode, busy)
    {
      ok := Send(MessagePacket(destination, text, ack), encode, busy, system);
    }

    /** `sendTelemetryParams`. */
    method SendTelemetryParams(encode: Packet -> seq<byte>, busy: seq<seq<bool>>, system: System) returns (ok: bool)
      requires Valid() && system.Valid() && Channels(busy, 3)
      modifies this`log, buffer, system`log, system`ledColor, system`nbError
      ensures system.Valid()
      ensures Step(ok, State(), system.State()) == ParamsStep(old(State()), old(system.State()), encode, busy)
    {
      ok := Send(TelemetryParamsPacket(Label), encode, busy[0], system);
      var unit := Send(TelemetryParamsPacket(Unit), encode, busy[1], system);
      ok := ok || unit;
      var equation := Send(TelemetryParamsPacket(Equation), encode, busy[2], system);
      ok := ok || equation;
    }

    /** `sendTelemetry`, with the readings of the monitor, the box sensor and the relays. */
    method SendTelemetry(rd: Readings, encode: Packet -> seq<byte>, paramsBusy: seq<seq<bool>>, busy: seq<bool>, system: System)
      returns (ok: bool)
      requires Valid() && system.Valid() && Channels(paramsBusy, 3) && |busy| == SendTries
      modifies this`log, this`shouldSendTelemetryParams, this`telemetrySequenceNumber, buffer
      modifies system`log, system`ledColor, system`nbError
      ensures system.Valid()
      ensures Step(ok, State(), system.State()) == TelemetryStep(old(State()), old(system.State()), rd, encode, paramsBusy, busy)
    {
      ok := SendPendingParams(encode, paramsBusy, system);
      var sent := SendReport(rd, encode, busy, system);
      ok := ok || sent;
    }

    /** The parameter frames of `sendTelemetry`, when pending. */
    method SendPendingParams(encode: Packet -> seq<byte>, busy: seq<seq<bool>>, system: System) returns (ok: bool)
      requires Valid() && system.Valid() && Channels(busy, 3)
      modifies this`log, this`shouldSendTelemetryParams, buffer, system`log, system`ledColor, system`nbError
      ensures system.Valid()
      ensures Step(ok, State(), system.State()) == PendingParamsStep(old(State()), old(system.State()), encode, busy)
    {
      ok := false;
      if shouldSendTelemetryParams {
        ok := SendTelemetryParams(encode, busy, system);
        shouldSendTelemetryParams := !ok;
      }
    }

    /** The report of `sendTelemetry`. */
    method SendReport(rd: Readings, encode: Packet -> seq<byte>, busy: seq<bool>, system: System) returns (ok: bool)
      requires Valid() && system.Valid() && |busy| == SendTries
      modifies this`log, this`telemetrySequenceNumber, buffer, system`log, system`ledColor, system`nbError
      ensures system.Valid()
      ensures Step(ok, State(), system.State()) == ReportStep(old(State()), old(system.State()), rd, encode, busy)
    {
      var d := TelemetryData(telemetrySequenceNumber, TelemetryComment(rd), Analog(rd.charger), Bits(rd, system.nbError));
      telemetrySequenceNumber := Wrap16(telemetrySequenceNumber as int + 1);
      ok := Send(TelemetryPacket(d), encode, busy, system);
    }

    /** `sendPosition(comment)`, with the weather sensor's error flag and whether the pressure read is positive. */
    method SendPosition(comment: string, rd: Readings, weatherError: bool, pressurePositive: bool,
                        encode: Packet -> seq<byte>, busy: seq<bool>, system: System) returns (ok: bool)
      requires Valid() && system.Valid() && |busy| == SendTries
      modifies this`log, this`telemetrySequenceNumber, buffer, system`log, system`ledColor, system`nbError
      ensures system.Valid()
      ensures Step(ok, State(), system.State()) ==
        PositionStep(old(State()), old(system.State()), comment, rd, weatherError, pressurePositive, encode, busy)
    {
      var d := TelemetryData(telemetrySequenceNumber, "", Analog(rd.charger), Bits(rd, system.nbError));
      telemetrySequenceNumber := Wrap16(telemetrySequenceNumber as int + 1);
      var withTelemetry := TelemetryInPosition || weatherError;
      if withTelemetry {
        d := d.(sequence := telemetrySequenceNumber, comment := "Up:" + FormatNat(rd.uptimeMs / 1000, 10));
        telemetrySequenceNumber := Wrap16(telemetrySequenceNumber as int + 1);
      }
      ok := Send(PositionPacket(d, withTelemetry, pressurePositive), encode, busy, system);
    }

    /** `sendStatus(comment)`. */
    method SendStatus(comment: string, encode: Packet -> seq<byte>, busy: seq<bool>, system: System) returns (ok: bool)
      requires Valid() && system.Valid() && |busy| == SendTries
      modifies this`log, buffer, system`log, system`ledColor, system`nbError
      ensures system.Valid()
      ensures Step(ok, State(), system.State()) == SendStep(old(State()), old(system.State()), StatusPacket(comment), encode, busy)
    {
      ok := Send(StatusPacket(comment), encode, busy, system);
    }

    /** `sent()`, the radio's TX-done callback. */
    method Sent(system: System)
      modifies this`log, system`log, system`ledColor
      ensures State() == SentComm(old(State()))
      ensures system.State() == TurnedOn(old(system.State()), 0)
    {
      system.TurnOffRgb();
      log := log + [TxWatchdogRestart];
      log := log + [RxBoosted];
    }

    /** `resetWatchdogLoraTx`: the TX watchdog timer restarts. */
    method ResetWatchdogLoraTx()
      modifies this`log
      ensures State() == old(State()).(log := old(log) + [TxWatchdogRestart])
    {
      log := log + [TxWatchdogRestart];
    }

    /** `received(payload)`, with the decoder's result; the result is `shouldTx`, which the source keeps local. */
    method Received(decoded: Option<Decoded>, rx: RxAnswers, encode: Packet -> seq<byte>, system: System) returns (shouldTx: bool)
      requires Valid() && system.Valid() && RxWellFormed(rx)
      modifies this`log, buffer, system`log, system`ledColor, system`nbError
      ensures system.Valid()
      ensures Step(shouldTx, State(), system.State()) == ReceivedStep(old(State()), old(system.State()), decoded, rx, encode)
    {
      system.TurnOnRgb(ColorGreen);
      system.TurnOffRgb();
      shouldTx := false;
      if decoded.None? {
        system.SerialError(false);
      } else {
        shouldTx := Route(decoded.value, rx, encode, system);
      }
      if !shouldTx {
        system.TurnOffRgb();
        log := log + [RxBoosted];
      }
    }

    /** The branches of `received` after a successful decode. */
    method Route(f: Decoded, rx: RxAnswers, encode: Packet -> seq<byte>, system: System) returns (shouldTx: bool)
      requires Valid() && system.Valid() && RxWellFormed(rx)
      modifies this`log, buffer, system`log, system`ledColor, system`nbError
      ensures system.Valid()
      ensures Step(shouldTx, State(), system.State()) == RoutedStep(old(State()), old(system.State()), f, rx, encode)
    {
      shouldTx := false;
      if Contains(f.messageDestination, Callsign) {
        if |f.messageText| > 0 {
          shouldTx := SendMessage(f.source, "", f.messageAck, encode, rx.ackBusy, system);
          log := log + [RunCommand(f.messageText)];
          var replied := SendMessage(f.source, if rx.commandOk then "OK" else "KO", "", encode, rx.replyBusy, system);
          shouldTx := shouldTx || replied;
        }
      } else if system.IsFunctionAllowed(AddressAprsDigipeater) && rx.canBeDigipeated {
        shouldTx := Send(RawContentPacket(f.source, f.path, f.destination, f.content), encode, rx.digiBusy, system);
      }
    }

    /** `update(sendTelemetry, sendPosition, sendStatus)`. */
    method Update(sendTelemetry: bool, sendPosition: bool, sendStatus: bool, rd: Readings, weatherError: bool, pressurePositive: bool,
                  encode: Packet -> seq<byte>, busy: seq<seq<bool>>, system: System)
      requires Valid() && system.Valid() && Channels(busy, 6)
      modifies this`log, this`shouldSendTelemetryParams, this`telemetrySequenceNumber, buffer
      modifies system`log, system`ledColor, system`nbError
      ensures system.Valid()
      ensures State() == UpdateStep(old(State()), old(system.State()), sendTelemetry, sendPosition, sendStatus, rd,
                                    weatherError, pressurePositive, encode, busy).comm
      ensures system.State() == UpdateStep(old(State()), old(system.State()), sendTelemetry, sendPosition, sendStatus, rd,
                                           weatherError, pressurePositive, encode, busy).sys
    {
      var _ := UpdateStatus(sendStatus, encode, busy[0], system);
      var _ := UpdatePosition(sendPosition, rd, weatherError, pressurePositive, encode, busy[1], system);
      var _ := UpdateTelemetry(sendTelemetry, rd, encode, busy[2..], system);
    }

    /** The status part of `update`. */
    method UpdateStatus(due: bool, encode: Packet -> seq<byte>, busy: seq<bool>, system: System) returns (ok: bool)
      requires Valid() && system.Valid() && |busy| == SendTries
      modifies this`log, buffer, system`log, system`ledColor, system`nbError
      ensures system.Valid()
      ensures Step(ok, State(), system.State()) == StatusDue(old(State()), old(system.State()), due, encode, busy)
    {
      ok := false;
      if due && system.IsFunctionAllowed(AddressAprsPosition) {
        ok := SendStatus(AprsStatus, encode, busy, system);
      }
    }

    /** The position part of `update`. */
    method UpdatePosition(due: bool, rd: Readings, weatherError: bool, pressurePositive: bool,
                          encode: Packet -> seq<byte>, busy: seq<bool>, system: System) returns (ok: bool)
      requires Valid() && system.Valid() && |busy| == SendTries
      modifies this`log, this`telemetrySequenceNumber, buffer, system`log, system`ledColor, system`nbError
      ensures system.Valid()
      ensures Step(ok, State(), system.State()) ==
        PositionDue(old(State()), old(system.State()), due, rd, weatherError, pressurePositive, encode, busy)
    {
      ok := false;
      if due && system.IsFunctionAllowed(AddressAprsPosition) {
        ok := SendPosition(AprsComment, rd, weatherError, pressurePositive, encode, busy, system);
      }
    }

    /** The telemetry part of `update`. */
    method UpdateTelemetry(due: bool, rd: Readings, encode: Packet -> seq<byte>, busy: seq<seq<bool>>, system: System) returns (ok: bool)
      requires Valid() && system.Valid() && Channels(busy, 4)
      modifies this`log, this`shouldSendTelemetryParams, this`telemetrySequenceNumber, buffer
      modifies system`log, system`ledColor, system`nbError
      ensures system.Valid()
      ensures Step(ok, State(), system.State()) == TelemetryDue(old(State()), old(system.State()), due, rd, encode, busy)
    {
      ok := false;
      if due && system.IsFunctionAllowed(AddressAprsTelemetry) {
        ok := SendTelemetry(rd, encode, busy[..3], busy[3], system);
      }
    }
  }
}
