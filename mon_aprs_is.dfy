/**
 * The APRS-IS gateway of the Monitor
 * (Monitor/Monitor/Workers/Enableables/AprsIsApp.cs): which packets heard
 * on the Internet are sent on to the radio, in the third-party format of
 * chapter 17 of the APRS Protocol Reference 1.0.1, and the item beacon it
 * sends to the Internet.
 *
 * The APRS-IS client and the TCP connection are libraries: a received
 * packet is its sender, its path and its information field (absent where
 * encoding it throws); the connection state, the clock, the radio log read
 * from the database and the success of a TCP send are parameters.
 */
module MonAprsIs {
  import opened Wrappers
  import opened Text

  /** A packet received from APRS-IS. */
  datatype IsPacket = IsPacket(sender: string, path: seq<string>, info: Option<string>)

  /** A row of the radio log: sent or received, when, and on which network. */
  datatype LoRaRecord = LoRaRecord(isTx: bool, createdAt: int, isMeshtastic: bool)

  /** The path elements that mark a packet as not for the radio. */
  const NoGate: set<string> := {"?", "qAX", "RFONLY", "NOGATE", "TCPXX"}

  predicate PathAllowsRf(path: seq<string>)
  {
    forall k :: 0 <= k < |path| ==> path[k] !in NoGate
  }

  /**
   * `HasStationHeard`: an APRS station (not Meshtastic) was received within
   * `durationHeard` of `now`; always true when there is no such duration
   * (`AlwaysTx`).
   */
  predicate HasStationHeard(durationHeard: Option<int>, loras: seq<LoRaRecord>, now: int)
  {
    durationHeard.None?
    || exists k :: 0 <= k < |loras| && !loras[k].isTx && loras[k].createdAt >= now - durationHeard.value && !loras[k].isMeshtastic
  }

  /** `CALL>DEST,PATH:}`: the header of the gateway's own frame. */
  function ThirdPartyHeader(callsign: string, destination: string, path: string): string
  {
    callsign + ">" + destination + "," + path + ":}"
  }

  /** `SENDER>FIRSTPATH,TCPIP,CALL*:INFO`: the packet heard, with its path after the first element replaced. */
  function InnerPacket(callsign: string, sender: string, firstPath: string, info: string): string
  {
    sender + ">" + firstPath + ",TCPIP," + callsign + "*:" + info
  }

  /** The third-party frame sent on the radio. */
  function ThirdPartyFrame(callsign: string, destination: string, path: string, sender: string, firstPath: string, info: string): (r: string)
    ensures StartsWith(r, ThirdPartyHeader(callsign, destination, path))
    ensures r[|ThirdPartyHeader(callsign, destination, path)|..] == InnerPacket(callsign, sender, firstPath, info)
    ensures EndsWith(r, "*:" + info)
  {
    var header := ThirdPartyHeader(callsign, destination, path);
    var inner := InnerPacket(callsign, sender, firstPath, info);
    assert (header + inner)[..|header|] == header;
    assert (header + inner)[|header|..] == inner;
    assert inner[|inner| - |"*:" + info|..] == "*:" + info;
    header + inner
  }

  /** The frame `ComputeReceivedPacket` sends, or `None` when it drops the packet or throws building it. */
  function Forwarded(callsign: string, destination: string, path: string, durationHeard: Option<int>,
                     p: IsPacket, loras: seq<LoRaRecord>, now: int): Option<string>
  {
    if p.sender == callsign then None
    else if !PathAllowsRf(p.path) then None
    else if !HasStationHeard(durationHeard, loras, now) then None
    else if |p.path| == 0 || p.info.None? then None
    else Some(ThirdPartyFrame(callsign, destination, path, p.sender, p.path[0], p.info.value))
  }

  /** A packet reaches the radio exactly when it is not the gateway's own, its path allows it, a station was heard, and it can be encoded. */
  lemma ForwardedIff(callsign: string, destination: string, path: string, durationHeard: Option<int>,
                     p: IsPacket, loras: seq<LoRaRecord>, now: int)
    ensures Forwarded(callsign, destination, path, durationHeard, p, loras, now).Some?
        <==> p.sender != callsign && PathAllowsRf(p.path) && HasStationHeard(durationHeard, loras, now)
             && |p.path| > 0 && p.info.Some?
    ensures durationHeard.None? ==> HasStationHeard(durationHeard, loras, now)
  {
  }

  /** A path holding one of the marks keeps the packet off the radio. */
  lemma NoGateDropped(callsign: string, destination: string, path: string, durationHeard: Option<int>,
                      p: IsPacket, loras: seq<LoRaRecord>, now: int, k: nat)
    requires k < |p.path| && p.path[k] in NoGate
    ensures Forwarded(callsign, destination, path, durationHeard, p, loras, now) == None
  {
  }

  /**
   * The item beacon `CALL>TCPIP:)NAME` then '!' when alive or '_' when
   * killed, the encoded position and the comment: "Eteint" when killed.
   */
  function Beacon(callsign: string, name: string, position: string, comment: string, uptime: string, alive: bool): (r: string)
    ensures StartsWith(r, callsign + ">TCPIP:)" + name) && |r| > |callsign + ">TCPIP:)" + name|
    ensures r[|callsign + ">TCPIP:)" + name|] == if alive then '!' else '_'
    ensures !alive ==> EndsWith(r, "Eteint")
  {
    var head := callsign + ">TCPIP:)" + name;
    var text := if alive then comment + " Up:" + uptime else "Eteint";
    var r := head + [if alive then '!' else '_'] + position + text;
    assert r[..|head|] == head;
    assert r[|r| - |text|..] == text;
    r
  }

  class AprsIsApp {
    const callsign: string
    const destination: string
    const path: string
    /** No duration when `AlwaysTx`. */
    const durationHeard: Option<int>
    /** Whether the item beacon is configured. */
    const objectEnabled: bool
    const objectName: string
    /** The object's comment, empty when not configured. */
    const objectComment: string
    /** The encoded position of the object. */
    const objectPosition: string

    /** The frames handed to the board for the radio. */
    var lora: seq<string>
    /** The lines sent on the APRS-IS connection. */
    var tcp: seq<string>
    /** The connection attempts. */
    var connects: nat
    /** Whether the client was told to disconnect. */
    var disconnected: bool

    constructor (callsign: string, destination: string, path: string, alwaysTx: bool, objectEnabled: bool,
                 objectName: string, objectComment: string, objectPosition: string)
      ensures this.callsign == callsign && this.destination == destination && this.path == path
      ensures durationHeard == if alwaysTx then None else Some(30 * 60)
      ensures this.objectEnabled == objectEnabled
      ensures this.objectName == objectName && this.objectComment == objectComment && this.objectPosition == objectPosition
      ensures lora == [] && tcp == [] && connects == 0 && !disconnected
    {
      this.callsign := callsign;
      this.destination := destination;
      this.path := path;
      durationHeard := if alwaysTx then None else Some(30 * 60);
      this.objectEnabled := objectEnabled;
      this.objectName := objectName;
      this.objectComment := objectComment;
      this.objectPosition := objectPosition;
      lora := [];
      tcp := [];
      connects := 0;
      disconnected := false;
    }

    /** `ComputeReceivedPacket`: the third-party frame of a packet to send on, if any. */
    method ComputeReceivedPacket(p: IsPacket, loras: seq<LoRaRecord>, now: int)
      modifies this`lora
      ensures var f := Forwarded(callsign, destination, path, durationHeard, p, loras, now);
        lora == old(lora) + if f.Some? then [f.value] else []
    {
      if p.sender == callsign {
        return;
      }
      if exists k :: 0 <= k < |p.path| && p.path[k] in NoGate {
        return;
      }
      if !HasStationHeard(durationHeard, loras, now) {
        return;
      }
      if |p.path| == 0 || p.info.None? {
        return;
      }
      lora := lora + [ThirdPartyFrame(callsign, destination, path, p.sender, p.path[0], p.info.value)];
    }

    /**
     * `SendBeaconObjectPacket(alive)`: when logged in, the beacon and a line
     * end on the connection, true unless the send throws; otherwise a new
     * connection attempt and false.
     */
    method SendBeaconObjectPacket(alive: bool, loggedIn: bool, uptime: string, sendOk: bool) returns (sent: bool)
      modifies this`tcp, this`connects
      ensures sent <==> loggedIn && sendOk
      ensures connects == old(connects) + if loggedIn then 0 else 1
      ensures tcp == old(tcp) + if loggedIn && sendOk then [Beacon(callsign, objectName, objectPosition, objectComment, uptime, alive) + "\n"] else []
    {
      if !loggedIn {
        connects := connects + 1;
        return false;
      }
      var packet := Beacon(callsign, objectName, objectPosition, objectComment, uptime, alive);
      if !sendOk {
        return false;
      }
      tcp := tcp + [packet + "\n"];
      return true;
    }

    /**
     * `Stop`: a killed beacon first when the object is configured, then the
     * client is disconnected.
     */
    method Stop(loggedIn: bool, uptime: string, sendOk: bool)
      modifies this`tcp, this`connects, this`disconnected
      ensures disconnected
      ensures objectEnabled && loggedIn && sendOk ==> tcp == old(tcp) + [Beacon(callsign, objectName, objectPosition, objectComment, uptime, false) + "\n"]
      ensures !(objectEnabled && loggedIn && sendOk) ==> tcp == old(tcp)
      ensures connects == old(connects) + if objectEnabled && !loggedIn then 1 else 0
    {
      if objectEnabled {
        var _ := SendBeaconObjectPacket(false, loggedIn, uptime, sendOk);
      }
      disconnected := true;
    }
  }
}
