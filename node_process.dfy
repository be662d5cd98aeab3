/**
 * The two pieces of state of the Node.js station controller
 * (src/services/process.service.ts) that change step by step: the DTMF
 * listener of `runDtmfDecoder`, which collects the digits heard after a
 * beacon and acts on `*`, and the shutdown guard of `exitHandler`.
 *
 * The audio decoder, the voice, SSTV, radio, APRS and watchdog services are
 * libraries: what they are asked to do is recorded, and each completion
 * callback is a method the environment calls.
 */
module NodeProcess {
  import opened Wrappers
  import opened Text

  /** A result of the multimon decoder: a 1750 Hz tone, or a DTMF key. */
  datatype Decoded = Tone | Dtmf(data: string)

  /** What the listener asks of the other services. */
  datatype Request = Voice(text: string) | Image

  /** The listener's configuration. */
  datatype DtmfConfig = DtmfConfig(voiceEnabled: bool, voiceSentence: string, sstvEnabled: bool, sstvCode: Option<string>)

  datatype DtmfState = DtmfState(
    code: string,
    /** Whether the listener is idle, that is free to act on events and to time out. */
    shouldStop: bool,
    /** Whether the first result, which `skip(1)` drops, was seen. */
    skipped: bool,
    /** Whether the decoder and the timer are still subscribed. */
    listening: bool,
    radioOff: bool,
    requests: seq<Request>)

  /** The voice answer to `*` when the code is recognised but SSTV is disabled. */
  function DisabledText(sentence: string): string
  {
    "Fonction demand\U{E9}e d\U{E9}sactiv\U{E9}e. " + sentence
  }

  /** The voice answer to `*` when the code is not recognised. */
  function ErrorText(code: string, sentence: string): string
  {
    "Erreur code, " + code + ". " + sentence
  }

  /** The code typed matches the configured SSTV code. */
  predicate Recognised(code: string, cfg: DtmfConfig)
  {
    cfg.sstvCode == Some(code)
  }

  /** The request sent when `*` is pressed after `code`. */
  function StarRequest(code: string, cfg: DtmfConfig): (r: Request)
    ensures r == Image <==> Recognised(code, cfg) && cfg.sstvEnabled
    ensures r.Voice? ==> EndsWith(r.text, cfg.voiceSentence)
  {
    var r := if Recognised(code, cfg) then (if cfg.sstvEnabled then Image else Voice(DisabledText(cfg.voiceSentence)))
             else Voice(ErrorText(code, cfg.voiceSentence));
    assert r.Voice? ==> r.text[|r.text| - |cfg.voiceSentence|..] == cfg.voiceSentence;
    r
  }

  /** One decoded result delivered to the subscriber. */
  function DtmfStep(s: DtmfState, r: Decoded, cfg: DtmfConfig): DtmfState
  {
    if !s.listening then s
    else if !s.skipped then s.(skipped := true)
    else if !s.shouldStop then s
    else match r
      case Tone =>
        if cfg.voiceEnabled then s.(code := "", shouldStop := false, requests := s.requests + [Voice(cfg.voiceSentence)])
        else s.(code := "")
      case Dtmf(data) =>
        if data == "#" then s.(code := "")
        else if data == "*" then s.(code := "", shouldStop := false, requests := s.requests + [StarRequest(s.code, cfg)])
        else if EndsWith(s.code, data) then s
        else s.(code := s.code + data)
  }

  /** A tick of the timeout timer: the listener stops when idle, and waits for the next tick otherwise. */
  function TimerStep(s: DtmfState): DtmfState
  {
    if s.listening && s.shouldStop then s.(listening := false, radioOff := true) else s
  }

  /** Nothing happens while a request is running or once the listener has stopped. */
  lemma IgnoredWhenBusy(s: DtmfState, r: Decoded, cfg: DtmfConfig)
    requires s.skipped && (!s.shouldStop || !s.listening)
    ensures DtmfStep(s, r, cfg) == s
    ensures !s.shouldStop ==> TimerStep(s) == s
  {
  }

  /** A tone or `#` clears the code; a tone asks for the voice sentence when the voice is enabled. */
  lemma ResetEvents(s: DtmfState, cfg: DtmfConfig)
    requires s.listening && s.skipped && s.shouldStop
    ensures DtmfStep(s, Dtmf("#"), cfg) == s.(code := "")
    ensures DtmfStep(s, Tone, cfg).code == ""
    ensures DtmfStep(s, Tone, cfg).requests == s.requests + if cfg.voiceEnabled then [Voice(cfg.voiceSentence)] else []
    ensures DtmfStep(s, Tone, cfg).shouldStop <==> !cfg.voiceEnabled
  {
  }

  /**
   * `*` always clears the code and makes the listener busy, with exactly one
   * request: the image exactly when the code is the configured one and SSTV
   * is enabled.
   */
  lemma StarActs(s: DtmfState, cfg: DtmfConfig)
    requires s.listening && s.skipped && s.shouldStop
    ensures var t := DtmfStep(s, Dtmf("*"), cfg);
      && t.code == "" && !t.shouldStop && t.listening
      && |t.requests| == |s.requests| + 1 && t.requests[..|s.requests|] == s.requests
      && (t.requests[|s.requests|] == Image <==> Recognised(s.code, cfg) && cfg.sstvEnabled)
  {
    var t := DtmfStep(s, Dtmf("*"), cfg);
    assert t.requests[..|s.requests|] == s.requests;
  }

  /** No two neighbouring keys of a code are the same. */
  predicate NoRepeats(code: string)
  {
    forall i :: 0 < i < |code| ==> code[i - 1] != code[i]
  }

  /**
   * A key pressed again is ignored, so the code never holds the same key
   * twice in a row (the decoder reports a key once per character).
   */
  lemma DtmfKeepsNoRepeats(s: DtmfState, r: Decoded, cfg: DtmfConfig)
    requires NoRepeats(s.code)
    requires r.Dtmf? ==> |r.data| == 1
    ensures NoRepeats(DtmfStep(s, r, cfg).code)
    ensures r.Dtmf? && s.listening && s.skipped && s.shouldStop && r.data != "#" && r.data != "*" ==>
      DtmfStep(s, r, cfg).code == if |s.code| > 0 && s.code[|s.code| - 1] == r.data[0] then s.code else s.code + r.data
  {
    if r.Dtmf? && |s.code| > 0 {
      assert EndsWith(s.code, r.data) <==> s.code[|s.code| - 1] == r.data[0] by {
        assert s.code[|s.code| - |r.data|..] == [s.code[|s.code| - 1]];
      }
    }
  }

  /**
   * A configured code with the same key twice in a row can never be
   * entered: `*` then never sends the image.
   */
  lemma RepeatedCodeUnreachable(s: DtmfState, cfg: DtmfConfig, i: nat)
    requires NoRepeats(s.code) && s.listening && s.skipped && s.shouldStop
    requires cfg.sstvCode.Some? && 0 < i < |cfg.sstvCode.value| && cfg.sstvCode.value[i - 1] == cfg.sstvCode.value[i]
    ensures DtmfStep(s, Dtmf("*"), cfg).requests[|s.requests|] != Image
  {
  }

  class DtmfListener {
    const cfg: DtmfConfig

    var code: string
    var shouldStop: bool
    var skipped: bool
    var listening: bool
    var radioOff: bool
    var requests: seq<Request>

    function State(): DtmfState
      reads this
    {
      DtmfState(code, shouldStop, skipped, listening, radioOff, requests)
    }

    /** `runDtmfDecoder`: listening with an empty code, idle. */
    constructor (cfg: DtmfConfig)
      ensures this.cfg == cfg
      ensures State() == DtmfState("", true, false, true, false, [])
    {
      this.cfg := cfg;
      code := "";
      shouldStop := true;
      skipped := false;
      listening := true;
      radioOff := false;
      requests := [];
    }

    /** The subscriber of the decoder. */
    method OnDecoded(r: Decoded)
      modifies this
      ensures State() == DtmfStep(old(State()), r, cfg)
    {
      if !listening {
        return;
      }
      if !skipped {
        skipped := true;
        return;
      }
      if !shouldStop {
        return;
      }
      match r
      case Tone =>
        code := "";
        if cfg.voiceEnabled {
          shouldStop := false;
          requests := requests + [Voice(cfg.voiceSentence)];
        }
      case Dtmf(data) =>
        if data == "#" {
          code := "";
        } else if data == "*" {
          shouldStop := false;
          requests := requests + [StarRequest(code, cfg)];
          code := "";
        } else if !EndsWith(code, data) {
          code := code + data;
        }
    }

    /** The completion of a voice or image request: the listener is idle again. */
    method OnRequestDone()
      modifies this`shouldStop
      ensures State() == old(State()).(shouldStop := true)
    {
      shouldStop := true;
    }

    /** The timeout timer. */
    method OnTimer()
      modifies this`listening, this`radioOff
      ensures State() == TimerStep(old(State()))
    {
      if listening && shouldStop {
        listening := false;
        radioOff := true;
      }
    }
  }

  /** The events `exitHandler` is called with; only the charger alert matters. */
  datatype ExitEvent = MpptAlert | Signal | ProcessExit

  /** What the shutdown asks of the services and of the system. */
  datatype Effect =
    | UnsubscribeMppt
    | StopWatchdog
    | SendBeacon
    | SendTelemetry
    | PttOff
    | LogStopped
    | Halt
    | Exit

  /** The outcome of the services the shutdown chain calls. */
  datatype ChainOutcome = ChainOutcome(beaconOk: bool, telemetryOk: bool, pttOk: bool)

  /**
   * The shutdown chain: the charger stream is dropped and its watchdog
   * stopped (not on a charger alert), the last beacon and telemetry are
   * sent, then the transmitter is released; any failure of these is caught
   * by releasing the transmitter once more.
   */
  function ShutdownChain(event: ExitEvent, mpptRunning: bool, aprsEnabled: bool, o: ChainOutcome): (r: seq<Effect>)
    ensures PttOff in r
    ensures StopWatchdog in r <==> mpptRunning && event != MpptAlert
    ensures SendTelemetry in r ==> aprsEnabled && o.beaconOk
  {
    var mppt := if mpptRunning then [UnsubscribeMppt] + (if event != MpptAlert then [StopWatchdog] else []) else [];
    var aprs := if !aprsEnabled then [] else if o.beaconOk then [SendBeacon, SendTelemetry] else [SendBeacon];
    var failed := aprsEnabled && !(o.beaconOk && o.telemetryOk);
    var ptt := if failed || o.pttOk then [PttOff] else [PttOff, PttOff];
    assert PttOff in ptt;
    assert (mppt + aprs + ptt)[|mppt + aprs|] == PttOff;
    mppt + aprs + ptt
  }

  /** What the subscription to the chain does once it completes: "Stopped" only when already stopped, then halt and exit. */
  function Finish(stopDirectly: bool, debug: bool): (r: seq<Effect>)
    ensures |r| > 0 && r[|r| - 1] == Exit
    ensures Halt in r <==> !debug
    ensures LogStopped in r <==> stopDirectly
  {
    (if stopDirectly then [LogStopped] else []) + (if debug then [] else [Halt]) + [Exit]
  }

  class Process {
    /** `ProcessService.debug`: no `halt` in debug mode. */
    const debug: bool
    const aprsEnabled: bool

    /** Whether the charger stream was subscribed; the subscription is never cleared. */
    const mpptRunning: bool
    var stopDirectly: bool
    /** The shutdown chains started and not yet completed. */
    var pending: nat
    var effects: seq<Effect>

    constructor (debug: bool, aprsEnabled: bool, mpptRunning: bool)
      ensures this.debug == debug && this.aprsEnabled == aprsEnabled && this.mpptRunning == mpptRunning
      ensures !stopDirectly && pending == 0 && effects == []
    {
      this.debug := debug;
      this.aprsEnabled := aprsEnabled;
      this.mpptRunning := mpptRunning;
      stopDirectly := false;
      pending := 0;
      effects := [];
    }

    /**
     * `exitHandler(event)`: the first time, the shutdown chain starts and
     * completes later; once a chain has completed, the process is stopped
     * directly.
     */
    method ExitHandler(event: ExitEvent, o: ChainOutcome)
      modifies this`pending, this`effects
      ensures old(stopDirectly) ==> effects == old(effects) + Finish(true, debug) && pending == old(pending)
      ensures !old(stopDirectly) ==> effects == old(effects) + ShutdownChain(event, mpptRunning, aprsEnabled, o)
                                     && pending == old(pending) + 1
    {
      if stopDirectly {
        effects := effects + Finish(stopDirectly, debug);
        return;
      }
      effects := effects + ShutdownChain(event, mpptRunning, aprsEnabled, o);
      pending := pending + 1;
    }

    /** The subscriber of a shutdown chain, called when it completes. */
    method ChainCompleted()
      requires pending > 0
      modifies this`pending, this`effects, this`stopDirectly
      ensures effects == old(effects) + Finish(old(stopDirectly), debug)
      ensures stopDirectly && pending == old(pending) - 1
    {
      effects := effects + Finish(stopDirectly, debug);
      stopDirectly := true;
      pending := pending - 1;
    }
  }

  /** Once a chain has completed, a later call runs no step of the shutdown again. */
  lemma StoppedOnce(debug: bool, e: Effect)
    requires e in Finish(true, debug)
    ensures e !in {UnsubscribeMppt, StopWatchdog, SendBeacon, SendTelemetry, PttOff}
  {
  }
}
