/**
 * The Meshtastic side of the Monitor
 * (Monitor/Monitor/Workers/Enableables/MeshtasticApp.cs): the hop limit of
 * answers, and what a received packet triggers: an echo, a command for the
 * board, or the mailbox (BBS) kept in the database.
 *
 * The radio connection, the message factories and the database are
 * libraries: a packet is the fields the handlers read, an answer the fields
 * they set, and the mailbox table is a sequence of rows kept in creation
 * order.  The clock is the parameter `now`, the formatting of a date is the
 * function `showDate`, and the board's answer to a command is `commandOk`.
 */
module MonMeshtastic {
  import opened Ints
  import opened Wrappers
  import opened Text
  import opened DotNet
  import opened MonExtensions
  import opened Seqs

  const NodeBroadcast: uint32 := 0xFFFF_FFFF
  /** The hop limit used when the device does not report its own. */
  const DefaultHopMax: uint32 := 7

  // ---------------------------------------------------------------------
  // Hop limit of an answer

  function HopMax(configured: Option<uint32>): uint32
  {
    if configured.Some? then configured.value else DefaultHopMax
  }

  /** The hops a request used; a request claiming fewer hops left than it started with counts as the whole limit. */
  function HopsUsed(hopStart: uint32, hopLimit: uint32, hopMax: uint32): uint32
  {
    if hopStart < hopLimit then hopMax else hopStart - hopLimit
  }

  /**
   * `GetHopLimitForResponse`: the hops the request used plus a margin of
   * two, within the limit, or as many as it used when that is beyond the
   * limit; the limit itself for a request that does not say how it started.
   * The addition is on 32 bits.
   */
  function HopLimitForResponse(hopStart: uint32, hopLimit: uint32, configured: Option<uint32>): (r: uint32)
    ensures hopStart == 0 ==> r == HopMax(configured)
  {
    var hopMax := HopMax(configured);
    if hopStart != 0 then
      var used := HopsUsed(hopStart, hopLimit, hopMax);
      if used > hopMax then used
      else if Wrap32(used + 2) < hopMax then Wrap32(used + 2)
      else hopMax
    else hopMax
  }

  /**
   * An answer gets at least the hops its request used, two more when the
   * limit allows, and never more than the larger of the limit and the hops
   * used.
   */
  lemma HopLimitCoversRequest(hopStart: uint32, hopLimit: uint32, configured: Option<uint32>)
    requires hopStart != 0 && HopMax(configured) < TwoTo32 - 2
    ensures var hopMax := HopMax(configured);
      var used := HopsUsed(hopStart, hopLimit, hopMax);
      var r := HopLimitForResponse(hopStart, hopLimit, configured);
      && r >= used
      && (r <= hopMax || r == used)
      && r >= if used + 2 <= hopMax then used + 2 else hopMax
  {
  }

  // ---------------------------------------------------------------------
  // Packets

  /** The fields of a received packet the handlers read; `decoded` is false for an encrypted packet. */
  datatype MeshPacket = MeshPacket(
    decoded: bool,
    from: uint32,
    to: uint32,
    channel: uint32,
    isText: bool,
    payload: string,
    hopStart: uint32,
    hopLimit: uint32)

  /** A packet handed to the device: a text (with `WantAck` when set) or the station's position. */
  datatype Outgoing =
    | TextOut(to: uint32, channel: uint32, text: string, hopLimit: uint32, wantAck: Option<bool>)
    | PositionOut

  /** A text message sent to this node. */
  predicate ToMe(p: MeshPacket, myNode: uint32)
  {
    p.to == myNode && p.isText
  }

  /** The answer to `p`: back to its sender on its channel. */
  function Answer(p: MeshPacket, text: string, configured: Option<uint32>): Outgoing
  {
    TextOut(p.from, p.channel, text, HopLimitForResponse(p.hopStart, p.hopLimit, configured), None)
  }

  /** `DoEcho` applies to a text to this node starting with '?', when echo is enabled. */
  predicate EchoApplies(p: MeshPacket, myNode: uint32, echoEnabled: bool)
  {
    echoEnabled && ToMe(p, myNode) && StartsWith(p.payload, "?")
  }

  /** `DoCommand` applies to a text to this node starting with '!'. */
  predicate CommandApplies(p: MeshPacket, myNode: uint32)
  {
    ToMe(p, myNode) && StartsWith(p.payload, "!")
  }

  /** The answer to a command: the text, then " OK" or " KO" as the board accepted it. */
  function CommandAnswer(payload: string, commandOk: bool): (r: string)
    ensures StartsWith(r, ">" + payload)
    ensures EndsWith(r, " OK") <==> commandOk
  {
    var suffix := if commandOk then " OK" else " KO";
    var r := ">" + (payload + suffix);
    assert r[|r| - 3..] == suffix;
    r
  }

  // ---------------------------------------------------------------------
  // The mailbox

  datatype BbsMessage = BbsMessage(
    createdAt: int,
    from: string,
    to: string,
    message: string,
    remindedAt: Option<int>,
    readAt: Option<int>)

  predicate IsUnreadFor(m: BbsMessage, node: string)
  {
    m.to == node && m.readAt.None?
  }

  /** The rows of the messages to `node` not read yet, oldest first. */
  function Unread(ms: seq<BbsMessage>, node: string): (r: seq<nat>)
    ensures forall k :: 0 <= k < |r| ==> r[k] < |ms| && IsUnreadFor(ms[r[k]], node)
    ensures forall i :: 0 <= i < |ms| && IsUnreadFor(ms[i], node) ==> i in r
    ensures forall j, k :: 0 <= j < k < |r| ==> r[j] < r[k]
  {
    if |ms| == 0 then []
    else
      var n := |ms| - 1;
      var before := Unread(ms[..n], node);
      if IsUnreadFor(ms[n], node) then before + [n] else before
  }

  /** One line of a listing: `\n:l N -> FROM - DATE`. */
  function Line(number: nat, m: BbsMessage, showDate: int -> string): string
  {
    "\n:l " + FormatNat(number, 10) + " -> " + m.from + " - " + showDate(m.createdAt)
  }

  /** The lines of the messages at rows `rows`, numbered from 1. */
  function Lines(ms: seq<BbsMessage>, rows: seq<nat>, showDate: int -> string): string
    requires forall k :: 0 <= k < |rows| ==> rows[k] < |ms|
  {
    if |rows| == 0 then ""
    else Lines(ms, rows[..|rows| - 1], showDate) + Line(|rows|, ms[rows[|rows| - 1]], showDate)
  }

  /** `Msg (COUNT)` followed by the lines. */
  function Listing(ms: seq<BbsMessage>, rows: seq<nat>, showDate: int -> string): string
    requires forall k :: 0 <= k < |rows| ==> rows[k] < |ms|
  {
    "Msg (" + FormatNat(|rows|, 10) + ")" + Lines(ms, rows, showDate)
  }

  /** A message reminded less than `interval` ago. */
  predicate RecentlyReminded(m: BbsMessage, now: int, interval: int)
  {
    m.remindedAt.Some? && now - m.remindedAt.value < interval
  }

  /** The rows in `rows` stamped as reminded at `now`. */
  function Stamped(ms: seq<BbsMessage>, rows: seq<nat>, now: int): (r: seq<BbsMessage>)
    ensures |r| == |ms|
  {
    seq(|ms|, i requires 0 <= i < |ms| => if i in rows then ms[i].(remindedAt := Some(now)) else ms[i])
  }

  /** Stamping one more row. */
  lemma StampedStep(ms: seq<BbsMessage>, rows: seq<nat>, k: nat, now: int)
    requires k < |rows| && rows[k] < |ms|
    ensures var before := Stamped(ms, rows[..k], now);
      Stamped(ms, rows[..k + 1], now) == before[rows[k] := before[rows[k]].(remindedAt := Some(now))]
  {
    var before := Stamped(ms, rows[..k], now);
    var after := Stamped(ms, rows[..k + 1], now);
    forall i | 0 <= i < |ms|
      ensures after[i] == before[rows[k] := before[rows[k]].(remindedAt := Some(now))][i]
    {
      assert i in rows[..k + 1] <==> i in rows[..k] || i == rows[k] by {
        assert rows[..k + 1] == rows[..k] + [rows[k]];
      }
    }
  }

  /** The reply that ends an exchange with a reader. */
  function ReplyTrailer(from: string): string
  {
    "\n\n:e " + from + " TEXTE -> répondre"
  }

  const BbsHelp: string := "BBS cmd:\n:r -> Voir mes messages\n:e !NODEID Ici le message -> Écrire\n:l INDEX -> Lire"

  /** What `DoBbs` did: handled or not (`None` where it throws), the table, and the packets it sent. */
  datatype BbsOutcome = BbsOutcome(handled: Option<bool>, messages: seq<BbsMessage>, sent: seq<Outgoing>)

  /** The answer to `:l N`: the message and the table with it read, or a refusal. */
  datatype ReadOutcome = ReadOutcome(answer: string, messages: seq<BbsMessage>)

  function ReadCommand(ms: seq<BbsMessage>, rows: seq<nat>, indexText: string, now: int, showDate: int -> string): (r: ReadOutcome)
    requires forall k :: 0 <= k < |rows| ==> rows[k] < |ms|
    ensures |r.messages| == |ms|
  {
    match ParseInt32(indexText)
    case None => ReadOutcome("KO index", ms)
    case Some(n) =>
      if n - 1 < 0 || n - 1 >= |rows| then ReadOutcome("KO index impossible", ms)
      else
        var m := ms[rows[n - 1]];
        ReadOutcome(m.from + " - " + showDate(m.createdAt) + "\n" + m.message + ReplyTrailer(m.from),
                    ms[rows[n - 1] := m.(readAt := Some(now))])
  }

  /** The answer to `:e !NODE TEXT`: the table, the forwarded text (if any), the answer, and whether it threw. */
  datatype LeaveOutcome = LeaveOutcome(answer: string, messages: seq<BbsMessage>, forwarded: seq<Outgoing>, threw: bool)

  function LeaveCommand(ms: seq<BbsMessage>, p: MeshPacket, tokens: seq<string>, now: int, configured: Option<uint32>): (r: LeaveOutcome)
    requires |tokens| >= 1
  {
    var nodeId := if |tokens| > 1 then Some(tokens[1]) else None;
    if IsNullOrWhiteSpace(nodeId) || !StartsWith(nodeId.value, "!") then LeaveOutcome("KO node id", ms, [], false)
    else
      var from := ToHexString(p.from);
      var text := Join(tokens[2..], ' ');
      var stored := ms + [BbsMessage(now, from, nodeId.value, text, Some(now), None)];
      match ToInteger(nodeId.value)
      case None => LeaveOutcome("", stored, [], true)
      case Some(dest) =>
        var forward := TextOut(dest, p.channel, "BSS: De " + from + ":\n" + text + ReplyTrailer(from),
                               HopLimitForResponse(p.hopStart, p.hopLimit, configured), None);
        LeaveOutcome("OK envoyé", stored, [forward], false)
  }

  /** `DoBbs` on one packet. */
  function BbsStep(ms: seq<BbsMessage>, p: MeshPacket, myNode: uint32, bbsEnabled: bool, interval: int,
                   configured: Option<uint32>, now: int, showDate: int -> string): (r: BbsOutcome)
  {
    var rows := Unread(ms, ToHexString(p.from));
    if !bbsEnabled then BbsOutcome(Some(false), ms, [])
    else if !ToMe(p, myNode) then
      if p.to != NodeBroadcast || !(exists k :: 0 <= k < |rows| && RecentlyReminded(ms[rows[k]], now, interval)) then
        BbsOutcome(Some(false), ms, [])
      else
        var reminder := TextOut(p.from, p.channel, Listing(ms, rows, showDate),
                                HopLimitForResponse(p.hopStart, p.hopLimit, configured), Some(false));
        BbsOutcome(Some(true), Stamped(ms, rows, now), [reminder])
    else if !StartsWith(p.payload, ":") then BbsOutcome(Some(false), ms, [])
    else CommandStep(ms, p, rows, configured, now, showDate)
  }

  /** A ':' text to this node: `:r`, `:e`, `:l`, or the help for anything else; an empty command throws. */
  function CommandStep(ms: seq<BbsMessage>, p: MeshPacket, rows: seq<nat>, configured: Option<uint32>,
                       now: int, showDate: int -> string): (r: BbsOutcome)
    requires forall k :: 0 <= k < |rows| ==> rows[k] < |ms|
  {
    var command := TrimStart(p.payload, ':');
    if |command| == 0 then BbsOutcome(None, ms, [])
    else
      var tokens := Split(p.payload, ' ');
      if command[0] == 'r' then
        BbsOutcome(Some(true), ms, [Answer(p, ">" + Listing(ms, rows, showDate), configured)])
      else if command[0] == 'e' then
        var e := LeaveCommand(ms, p, tokens, now, configured);
        if e.threw then BbsOutcome(None, e.messages, [])
        else BbsOutcome(Some(true), e.messages, e.forwarded + [Answer(p, ">" + e.answer, configured)])
      else if command[0] == 'l' then
        var l := ReadCommand(ms, rows, tokens[|tokens| - 1], now, showDate);
        BbsOutcome(Some(true), l.messages, [Answer(p, ">" + l.answer, configured)])
      else
        BbsOutcome(Some(true), ms, [Answer(p, ">" + BbsHelp, configured)])
  }

  /**
   * `:l N` reads the N-th unread message exactly when 1 <= N <= the number
   * of unread messages; it then leaves the other rows alone and the reader
   * has one unread message fewer.
   */
  lemma ReadAcceptsIndex(ms: seq<BbsMessage>, node: string, n: int, now: int, showDate: int -> string)
    requires Int32Min <= n <= Int32Max
    ensures var rows := Unread(ms, node);
      var l := ReadCommand(ms, rows, FormatInt(n), now, showDate);
      && (1 <= n <= |rows| ==>
            && l.messages == ms[rows[n - 1] := ms[rows[n - 1]].(readAt := Some(now))]
            && |Unread(l.messages, node)| == |rows| - 1)
      && (!(1 <= n <= |rows|) ==> l == ReadOutcome("KO index impossible", ms))
  {
    var rows := Unread(ms, node);
    ParseInt32FormatInt(n);
    if 1 <= n <= |rows| {
      UnreadAfterRead(ms, node, rows[n - 1], now);
    }
  }

  /** `n` in decimal, with a '-' when negative. */
  function FormatInt(n: int): string
  {
    if n < 0 then "-" + FormatNat(-n, 10) else FormatNat(n, 10)
  }

  lemma ParseInt32FormatInt(n: int)
    requires Int32Min <= n <= Int32Max
    ensures ParseInt32(FormatInt(n)) == Some(n)
  {
    if n >= 0 {
      ParseInt32Format(n);
    } else {
      var digits := FormatNat(-n, 10);
      ParseFormat(-n, 10);
      TrimParseWhiteOfDigits(digits);
      assert TrimParseWhite("-" + digits) == "-" + digits;
      assert ("-" + digits)[1..] == digits;
    }
  }

  /** Reading an unread row removes exactly that row from the reader's unread ones. */
  lemma UnreadAfterRead(ms: seq<BbsMessage>, node: string, i: nat, now: int)
    requires i < |ms| && IsUnreadFor(ms[i], node)
    ensures |Unread(ms[i := ms[i].(readAt := Some(now))], node)| == |Unread(ms, node)| - 1
  {
    var read := ms[i := ms[i].(readAt := Some(now))];
    UnreadCounted(ms, node);
    UnreadCounted(read, node);
    CountAfterRead(ms, node, i, now);
  }

  /** How many rows are unread for `node`. */
  function UnreadCount(ms: seq<BbsMessage>, node: string): nat
  {
    if |ms| == 0 then 0
    else UnreadCount(ms[..|ms| - 1], node) + if IsUnreadFor(ms[|ms| - 1], node) then 1 else 0
  }

  lemma {:induction false} UnreadCounted(ms: seq<BbsMessage>, node: string)
    ensures |Unread(ms, node)| == UnreadCount(ms, node)
    decreases |ms|
  {
    if |ms| > 0 {
      UnreadCounted(ms[..|ms| - 1], node);
    }
  }

  lemma {:induction false} CountAfterRead(ms: seq<BbsMessage>, node: string, i: nat, now: int)
    requires i < |ms| && IsUnreadFor(ms[i], node)
    ensures UnreadCount(ms[i := ms[i].(readAt := Some(now))], node) == UnreadCount(ms, node) - 1
    decreases |ms|
  {
    var read := ms[i := ms[i].(readAt := Some(now))];
    var n := |ms| - 1;
    if i < n {
      CountAfterRead(ms[..n], node, i, now);
      assert read[..n] == ms[..n][i := ms[i].(readAt := Some(now))];
    } else {
      assert read[..n] == ms[..n];
    }
  }

  /**
   * The reminder rule as written: a broadcast from a reader triggers a
   * reminder when one of its unread messages was reminded less than the
   * interval ago, and the reminder stamps them all again, so every
   * broadcast within the interval triggers another.
   */
  lemma ReminderRepeats(ms: seq<BbsMessage>, p: MeshPacket, myNode: uint32, interval: int,
                        configured: Option<uint32>, now: int, later: int, showDate: int -> string)
    requires p.to == NodeBroadcast && myNode != NodeBroadcast && now <= later < now + interval
    requires BbsStep(ms, p, myNode, true, interval, configured, now, showDate).sent != []
    ensures var first := BbsStep(ms, p, myNode, true, interval, configured, now, showDate);
      BbsStep(first.messages, p, myNode, true, interval, configured, later, showDate).sent != []
  {
    var node := ToHexString(p.from);
    var rows := Unread(ms, node);
    ReminderDue(ms, p, myNode, interval, configured, now, showDate);
    var first := BbsStep(ms, p, myNode, true, interval, configured, now, showDate);
    var k :| 0 <= k < |rows| && RecentlyReminded(ms[rows[k]], now, interval);
    StampedKeepsUnread(ms, rows, now, node);
    ReminderDue(first.messages, p, myNode, interval, configured, later, showDate);
    assert RecentlyReminded(first.messages[rows[k]], later, interval);
  }

  /** A broadcast gets a reminder exactly when a listed message was reminded recently; all listed rows are stamped. */
  lemma ReminderDue(ms: seq<BbsMessage>, p: MeshPacket, myNode: uint32, interval: int,
                    configured: Option<uint32>, now: int, showDate: int -> string)
    requires p.to == NodeBroadcast && myNode != NodeBroadcast
    ensures var rows := Unread(ms, ToHexString(p.from));
      var b := BbsStep(ms, p, myNode, true, interval, configured, now, showDate);
      && (b.sent != [] <==> exists k :: 0 <= k < |rows| && RecentlyReminded(ms[rows[k]], now, interval))
      && (b.sent != [] ==> b.messages == Stamped(ms, rows, now))
  {
    assert !ToMe(p, myNode);
  }

  /** Stamping changes no message's reader or read date. */
  lemma {:induction false} StampedKeepsUnread(ms: seq<BbsMessage>, rows: seq<nat>, now: int, node: string)
    ensures Unread(Stamped(ms, rows, now), node) == Unread(ms, node)
    decreases |ms|
  {
    if |ms| > 0 {
      var n := |ms| - 1;
      StampedKeepsUnread(ms[..n], rows, now, node);
      assert Stamped(ms, rows, now)[..n] == Stamped(ms[..n], rows, now);
    }
  }

  // ---------------------------------------------------------------------
  // The worker

  /** What the worker did on one received packet. */
  datatype AppState = AppState(sent: seq<Outgoing>, commands: seq<string>, messages: seq<BbsMessage>)

  /**
   * `PacketReceived`: the position when it is due, then nothing for an
   * undecoded packet or one of this node's own, else the first of echo,
   * command and mailbox that handles it.  `threw` where the mailbox throws.
   */
  function ReceivedStep(s: AppState, p: MeshPacket, myNode: uint32, echoEnabled: bool, bbsEnabled: bool, interval: int,
                        configured: Option<uint32>, positionDue: bool, commandOk: bool, now: int, showDate: int -> string): (r: (bool, AppState))
  {
    var s1 := if positionDue then s.(sent := s.sent + [PositionOut]) else s;
    HandleStep(s1, p, myNode, echoEnabled, bbsEnabled, interval, configured, commandOk, now, showDate)
  }

  /** What a received packet triggers once the position is dealt with. */
  function HandleStep(s: AppState, p: MeshPacket, myNode: uint32, echoEnabled: bool, bbsEnabled: bool, interval: int,
                      configured: Option<uint32>, commandOk: bool, now: int, showDate: int -> string): (bool, AppState)
  {
    if !p.decoded || p.from == myNode then (false, s)
    else if EchoApplies(p, myNode, echoEnabled) then (false, s.(sent := s.sent + [Answer(p, ">" + p.payload, configured)]))
    else if CommandApplies(p, myNode) then
      (false, s.(sent := s.sent + [Answer(p, CommandAnswer(p.payload, commandOk), configured)],
                 commands := s.commands + [TrimStart(p.payload, '!')]))
    else
      var b := BbsStep(s.messages, p, myNode, bbsEnabled, interval, configured, now, showDate);
      (b.handled.None?, s.(sent := s.sent + b.sent, messages := b.messages))
  }

  /** A packet from this node itself, or one not decoded, is answered by nothing. */
  lemma OwnPacketsIgnored(s: AppState, p: MeshPacket, myNode: uint32, echoEnabled: bool, bbsEnabled: bool, interval: int,
                          configured: Option<uint32>, commandOk: bool, now: int, showDate: int -> string)
    requires !p.decoded || p.from == myNode
    ensures ReceivedStep(s, p, myNode, echoEnabled, bbsEnabled, interval, configured, false, commandOk, now, showDate) == (false, s)
  {
  }

  /**
   * A text to this node starting with '!' always reaches the board (its
   * text without the leading '!'), whether or not echo is enabled, and gets
   * exactly one answer.
   */
  lemma CommandsReachBoard(s: AppState, p: MeshPacket, myNode: uint32, echoEnabled: bool, bbsEnabled: bool, interval: int,
                           configured: Option<uint32>, commandOk: bool, now: int, showDate: int -> string)
    requires p.decoded && p.from != myNode && CommandApplies(p, myNode)
    ensures var r := ReceivedStep(s, p, myNode, echoEnabled, bbsEnabled, interval, configured, false, commandOk, now, showDate);
      && r.1.commands == s.commands + [TrimStart(p.payload, '!')]
      && r.1.sent == s.sent + [Answer(p, CommandAnswer(p.payload, commandOk), configured)]
      && r.1.messages == s.messages
  {
    assert !EchoApplies(p, myNode, echoEnabled) by {
      assert p.payload[0] == '!';
    }
  }

  class MeshtasticApp {
    const myNode: uint32
    const echoEnabled: bool
    const bbsEnabled: bool
    /** The device's configured hop limit, when it reports one. */
    const configured: Option<uint32>
    const reminderInterval: int

    /** The packets handed to the device. */
    var sent: seq<Outgoing>
    /** The commands passed to the board. */
    var commands: seq<string>
    /** The mailbox table. */
    var messages: seq<BbsMessage>

    function State(): AppState
      reads this
    {
      AppState(sent, commands, messages)
    }

    constructor (myNode: uint32, echoEnabled: bool, bbsEnabled: bool, configured: Option<uint32>, reminderInterval: int, messages: seq<BbsMessage>)
      ensures this.myNode == myNode && this.echoEnabled == echoEnabled && this.bbsEnabled == bbsEnabled
      ensures this.configured == configured && this.reminderInterval == reminderInterval
      ensures State() == AppState([], [], messages)
    {
      this.myNode := myNode;
      this.echoEnabled := echoEnabled;
      this.bbsEnabled := bbsEnabled;
      this.configured := configured;
      this.reminderInterval := reminderInterval;
      this.messages := messages;
      sent := [];
      commands := [];
    }

    /** `DoEcho`: answers ">" and the text to a '?' text sent to this node. */
    method DoEcho(p: MeshPacket) returns (handled: bool)
      modifies this`sent
      ensures handled <==> EchoApplies(p, myNode, echoEnabled)
      ensures sent == old(sent) + if handled then [Answer(p, ">" + p.payload, configured)] else []
      ensures !handled ==> sent == old(sent)
    {
      if !echoEnabled {
        return false;
      }
      if p.to != myNode || !p.isText {
        return false;
      }
      if !StartsWith(p.payload, "?") {
        return false;
      }
      sent := sent + [Answer(p, ">" + p.payload, configured)];
      return true;
    }

    /** `DoCommand`: passes a '!' text sent to this node to the board and answers with the outcome. */
    method DoCommand(p: MeshPacket, commandOk: bool) returns (handled: bool)
      modifies this`sent, this`commands
      ensures handled <==> CommandApplies(p, myNode)
      ensures sent == old(sent) + if handled then [Answer(p, CommandAnswer(p.payload, commandOk), configured)] else []
      ensures commands == old(commands) + if handled then [TrimStart(p.payload, '!')] else []
      ensures !handled ==> sent == old(sent) && commands == old(commands)
    {
      if p.to != myNode || !p.isText {
        return false;
      }
      if !StartsWith(p.payload, "!") {
        return false;
      }
      commands := commands + [TrimStart(p.payload, '!')];
      var answer := p.payload + if commandOk then " OK" else " KO";
      sent := sent + [Answer(p, ">" + answer, configured)];
      return true;
    }

    /** Stamps the rows `rows` as reminded at `now`, one at a time. */
    method StampReminded(rows: seq<nat>, now: int)
      requires forall k :: 0 <= k < |rows| ==> rows[k] < |messages|
      modifies this`messages
      ensures messages == Stamped(old(messages), rows, now)
    {
      ghost var ms := messages;
      for k := 0 to |rows|
        invariant |messages| == |ms|
        invariant messages == Stamped(ms, rows[..k], now)
      {
        StampedStep(ms, rows, k, now);
        messages := messages[rows[k] := messages[rows[k]].(remindedAt := Some(now))];
      }
      assert rows[..|rows|] == rows;
    }

    /** The `:r` listing and the reminder's text, built line by line. */
    method ListUnread(rows: seq<nat>, showDate: int -> string) returns (answer: string)
      requires forall k :: 0 <= k < |rows| ==> rows[k] < |messages|
      ensures answer == Listing(messages, rows, showDate)
    {
      var head := "Msg (" + FormatNat(|rows|, 10) + ")";
      answer := head;
      for k := 0 to |rows|
        invariant answer == head + Lines(messages, rows[..k], showDate)
      {
        assert rows[..k + 1][..k] == rows[..k];
        AppendAssoc(head, Lines(messages, rows[..k], showDate), Line(k + 1, messages[rows[k]], showDate));
        answer := answer + Line(k + 1, messages[rows[k]], showDate);
      }
      assert rows[..|rows|] == rows;
    }

    /** The reminder: the listing, sent without acknowledgement, and every listed row stamped. */
    method Remind(p: MeshPacket, rows: seq<nat>, now: int, showDate: int -> string)
      requires forall k :: 0 <= k < |rows| ==> rows[k] < |messages|
      modifies this`sent, this`messages
      ensures messages == Stamped(old(messages), rows, now)
      ensures sent == old(sent) + [TextOut(p.from, p.channel, Listing(old(messages), rows, showDate),
                                           HopLimitForResponse(p.hopStart, p.hopLimit, configured), Some(false))]
    {
      var payload := ListUnread(rows, showDate);
      StampReminded(rows, now);
      sent := sent + [TextOut(p.from, p.channel, payload, HopLimitForResponse(p.hopStart, p.hopLimit, configured), Some(false))];
    }

    /** A mailbox command sent to this node. */
    method Command(p: MeshPacket, rows: seq<nat>, now: int, showDate: int -> string) returns (handled: Option<bool>)
      requires forall k :: 0 <= k < |rows| ==> rows[k] < |messages|
      modifies this`sent, this`messages
      ensures var b := CommandStep(old(messages), p, rows, configured, now, showDate);
        handled == b.handled && messages == b.messages && sent == old(sent) + b.sent
    {
      var command := TrimStart(p.payload, ':');
      if |command| == 0 {
        return None;
      }
      var tokens := Split(p.payload, ' ');
      var answer: string;
      ghost var forwarded: seq<Outgoing> := [];
      if command[0] == 'r' {
        answer := ListUnread(rows, showDate);
      } else if command[0] == 'e' {
        var e := LeaveCommand(messages, p, tokens, now, configured);
        messages := e.messages;
        if e.threw {
          return None;
        }
        sent := sent + e.forwarded;
        forwarded := e.forwarded;
        answer := e.answer;
      } else if command[0] == 'l' {
        var l := ReadCommand(messages, rows, tokens[|tokens| - 1], now, showDate);
        messages := l.messages;
        answer := l.answer;
      } else {
        answer := BbsHelp;
      }
      AppendAssoc(old(sent), forwarded, [Answer(p, ">" + answer, configured)]);
      sent := sent + [Answer(p, ">" + answer, configured)];
      return Some(true);
    }

    /** `DoBbs`: the mailbox commands and the reminder of unread messages. */
    method DoBbs(p: MeshPacket, now: int, showDate: int -> string) returns (handled: Option<bool>)
      modifies this`sent, this`messages
      ensures var b := BbsStep(old(messages), p, myNode, bbsEnabled, reminderInterval, configured, now, showDate);
        handled == b.handled && messages == b.messages && sent == old(sent) + b.sent
    {
      if !bbsEnabled {
        return Some(false);
      }
      var rows := Unread(messages, ToHexString(p.from));
      if p.to != myNode || !p.isText {
        if p.to != NodeBroadcast {
          return Some(false);
        }
        if !(exists k :: 0 <= k < |rows| && RecentlyReminded(messages[rows[k]], now, reminderInterval)) {
          return Some(false);
        }
        Remind(p, rows, now, showDate);
        return Some(true);
      }
      if !StartsWith(p.payload, ":") {
        return Some(false);
      }
      handled := Command(p, rows, now, showDate);
    }

    /** `PacketReceived`. */
    method PacketReceived(p: MeshPacket, positionDue: bool, commandOk: bool, now: int, showDate: int -> string) returns (threw: bool)
      modifies this`sent, this`commands, this`messages
      ensures (threw, State()) == ReceivedStep(old(State()), p, myNode, echoEnabled, bbsEnabled, reminderInterval,
                                                configured, positionDue, commandOk, now, showDate)
    {
      if positionDue {
        sent := sent + [PositionOut];
      }
      threw := Handle(p, commandOk, now, showDate);
    }

    /** The handlers of `PacketReceived`: nothing for an undecoded or own packet, else echo, command, mailbox. */
    method Handle(p: MeshPacket, commandOk: bool, now: int, showDate: int -> string) returns (threw: bool)
      modifies this`sent, this`commands, this`messages
      ensures (threw, State()) == HandleStep(old(State()), p, myNode, echoEnabled, bbsEnabled, reminderInterval,
                                              configured, commandOk, now, showDate)
    {
      if !p.decoded || p.from == myNode {
        return false;
      }
      var handled := DoEcho(p);
      if handled {
        return false;
      }
      handled := DoCommand(p, commandOk);
      if handled {
        return false;
      }
      assert State() == old(State());
      var b := DoBbs(p, now, showDate);
      return b.None?;
    }
  }
}
