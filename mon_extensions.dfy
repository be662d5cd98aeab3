/**
 * The extension methods of the Monitor (Monitor/Monitor/Extensions): a
 * Meshtastic node number written as `!` and lower-case hexadecimal, read
 * back with `ToInteger`, and the fallback `ToAprsPacket` uses when the APRS
 * parser (a library, given here as a function) refuses a text.
 */
module MonExtensions {
  import opened Ints
  import opened Wrappers
  import opened Text
  import opened DotNet

  /** `ToHexString`: `!` then the number in lower-case hexadecimal, without leading zeros. */
  function ToHexString(n: uint32): (r: string)
    ensures 2 <= |r| <= 9 && r[0] == '!'
    ensures forall i :: 1 <= i < |r| ==> IsLowerDigit(r[i])
    ensures n == 0 <==> r == "!0"
    ensures n > 0 ==> r[1] != '0'
  {
    FormatLength(n, 16, 8);
    var digits := FormatNat(n, 16);
    assert ("!" + digits)[1..] == digits;
    "!" + digits
  }

  /**
   * `ToInteger`: every leading `!` dropped, then `uint.Parse` in hexadecimal;
   * `None` where the parse throws (no digit, a non-hexadecimal character, or
   * a value beyond 32 bits).
   */
  function ToInteger(s: string): (r: Option<uint32>)
    ensures r.Some? ==> ParseNat(TrimParseWhite(TrimStart(s, '!')), 16) == Some(r.value as nat)
  {
    ParseHex32(TrimStart(s, '!'))
  }

  /** Reading a node number written by `ToHexString` gives it back. */
  lemma HexRoundTrip(n: uint32)
    ensures ToInteger(ToHexString(n)) == Some(n)
  {
    var digits := FormatNat(n, 16);
    assert TrimStart(ToHexString(n), '!') == digits;
    TrimParseWhiteOfDigits(digits);
    ParseFormat(n, 16);
  }

  /** Any number of leading `!` is accepted. */
  lemma ToIntegerStripsBangs(s: string)
    ensures ToInteger("!" + s) == ToInteger(s)
  {
    assert ("!" + s)[1..] == s;
  }

  /** The digits are read in either case. */
  lemma {:induction false} ParseNatIgnoresCase(s: string)
    ensures ParseNat(UpperText(s), 16) == ParseNat(s, 16)
    decreases |s|
  {
    if |s| > 1 {
      ParseNatIgnoresCase(s[..|s| - 1]);
      assert UpperText(s)[..|s| - 1] == UpperText(s[..|s| - 1]);
    }
  }

  /** ASCII upper-casing of a text. */
  function UpperText(s: string): (r: string)
    ensures |r| == |s| && forall i :: 0 <= i < |s| ==> r[i] == UpperChar(s[i])
  {
    seq(|s|, i requires 0 <= i < |s| => UpperChar(s[i]))
  }

  /** "!FF" and "!ff" name the same node. */
  lemma ToIntegerIgnoresCase(digits: string)
    requires forall i :: 0 <= i < |digits| ==> IsLowerDigit(digits[i])
    ensures ToInteger("!" + UpperText(digits)) == ToInteger("!" + digits)
  {
    ToIntegerStripsBangs(digits);
    ToIntegerStripsBangs(UpperText(digits));
    if |digits| > 0 {
      assert UpperText(digits)[0] != '!';
    }
    assert TrimStart(UpperText(digits), '!') == UpperText(digits);
    assert TrimStart(digits, '!') == digits;
    TrimParseWhiteOfDigits(digits);
    UpperOfDigitsTrims(digits);
    ParseNatIgnoresCase(digits);
  }

  lemma UpperOfDigitsTrims(digits: string)
    requires forall i :: 0 <= i < |digits| ==> IsLowerDigit(digits[i])
    ensures TrimParseWhite(UpperText(digits)) == UpperText(digits)
  {
    var u := UpperText(digits);
    assert forall i :: 0 <= i < |u| ==> !IsParseWhite(u[i]);
  }

  /** Nothing to read fails. */
  lemma ToIntegerEmpty(bangs: nat)
    ensures ToInteger(seq(bangs, _ => '!')) == None
  {
    assert TrimStart(seq(bangs, _ => '!'), '!') == "";
  }

  /** A character that is neither a digit nor surrounding white space fails. */
  lemma {:induction false} ParseNatRejects(s: string, i: nat)
    requires i < |s| && CharValue(s[i]).None?
    ensures ParseNat(s, 16) == None
    decreases |s|
  {
    if i < |s| - 1 {
      ParseNatRejects(s[..|s| - 1], i);
    }
  }

  /** A number beyond 32 bits fails, however it is written. */
  lemma ToIntegerOverflow(n: nat)
    requires n >= TwoTo32
    ensures ToInteger(FormatNat(n, 16)) == None && ToInteger("!" + FormatNat(n, 16)) == None
  {
    var digits := FormatNat(n, 16);
    assert TrimStart(digits, '!') == digits;
    TrimParseWhiteOfDigits(digits);
    ParseFormat(n, 16);
    ToIntegerStripsBangs(digits);
  }

  /** `value.Split(":")[0] + ": "`: the header before the first colon, with an empty body. */
  function FallbackText(value: string): (r: string)
    ensures EndsWith(r, ": ") && ':' !in r[..|r| - 2]
  {
    Split(value, ':')[0] + ": "
  }

  /**
   * `ToAprsPacket`: the parsed text, or when the parser throws the parse of
   * its header alone; `None` when that throws as well.
   */
  function ToAprsPacket<P>(value: string, parse: string -> Option<P>): (r: Option<P>)
    ensures parse(value).Some? ==> r == parse(value)
  {
    match parse(value)
    case Some(p) => Some(p)
    case None => parse(FallbackText(value))
  }

  /** The fallback keeps the text up to the first colon: all of it when it has none. */
  lemma ToAprsPacketFallback<P>(value: string, parse: string -> Option<P>)
    requires parse(value).None?
    ensures ToAprsPacket(value, parse) == parse(FallbackText(value))
    ensures ':' in value ==> exists i :: 0 <= i < |value| && value[i] == ':' && FallbackText(value) == value[..i] + ": "
    ensures ':' !in value ==> FallbackText(value) == value + ": "
  {
    SplitFirst(value, ':');
    if ':' in value {
      var i := |Split(value, ':')[0]|;
      assert value[i] == ':';
    }
  }
}
