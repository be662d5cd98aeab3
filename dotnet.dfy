/**
 * The few .NET string operations the Monitor helpers rely on, over strings
 * as sequences of UTF-16 code units: `char.IsWhiteSpace`,
 * `string.IsNullOrWhiteSpace`, `TrimStart(char)`, `Split(char)` and the
 * number parsing of `int.TryParse` and `uint.Parse(s, HexNumber)`.
 */
module DotNet {
  import opened Ints
  import opened Wrappers
  import opened Text

  /** `char.IsWhiteSpace`: the Unicode separators and the control characters 9 to 13 and 0x85. */
  predicate IsWhiteSpace(c: char)
  {
    || '\t' <= c <= '\r' || c == ' ' || c == '\U{85}' || c == '\U{A0}' || c == '\U{1680}'
    || '\U{2000}' <= c <= '\U{200A}' || c == '\U{2028}' || c == '\U{2029}' || c == '\U{202F}'
    || c == '\U{205F}' || c == '\U{3000}'
  }

  /** `string.IsNullOrWhiteSpace`: no text, or only white space. */
  predicate IsNullOrWhiteSpace(s: Option<string>)
  {
    s.None? || forall i :: 0 <= i < |s.value| ==> IsWhiteSpace(s.value[i])
  }

  /** The white space that number parsing skips around the digits. */
  predicate IsParseWhite(c: char)
  {
    '\t' <= c <= '\r' || c == ' '
  }

  /** `s.TrimStart(c)`: `s` without every leading `c`. */
  function TrimStart(s: string, c: char): (r: string)
    ensures |r| <= |s| && r == s[|s| - |r|..]
    ensures forall i :: 0 <= i < |s| - |r| ==> s[i] == c
    ensures r == [] || r[0] != c
  {
    if |s| > 0 && s[0] == c then TrimStart(s[1..], c) else s
  }

  /** `s` without the parse white space at either end. */
  function TrimParseWhite(s: string): (r: string)
    ensures |r| <= |s|
    ensures r == [] || (!IsParseWhite(r[0]) && !IsParseWhite(r[|r| - 1]))
  {
    if |s| > 0 && IsParseWhite(s[0]) then TrimParseWhite(s[1..])
    else if |s| > 0 && IsParseWhite(s[|s| - 1]) then TrimParseWhite(s[..|s| - 1])
    else s
  }

  /** The first position of `c` in `s`. */
  function IndexOf(s: string, c: char): (r: Option<nat>)
    ensures r.None? <==> c !in s
    ensures r.Some? ==> r.value < |s| && s[r.value] == c && c !in s[..r.value]
  {
    if |s| == 0 then None
    else if s[0] == c then Some(0)
    else match IndexOf(s[1..], c)
      case None => None
      case Some(i) =>
        assert s[..i + 1] == [s[0]] + s[1..][..i];
        Some(i + 1)
  }

  /** `s.Split(c)`: the pieces between the occurrences of `c`, empty ones included. */
  function Split(s: string, c: char): (r: seq<string>)
    ensures |r| >= 1
    ensures forall k :: 0 <= k < |r| ==> c !in r[k]
    decreases |s|
  {
    match IndexOf(s, c)
    case None => [s]
    case Some(i) => [s[..i]] + Split(s[i + 1..], c)
  }

  /** `string.Join(c, parts)`. */
  function Join(parts: seq<string>, c: char): string
  {
    if |parts| == 0 then ""
    else if |parts| == 1 then parts[0]
    else parts[0] + [c] + Join(parts[1..], c)
  }

  /** Splitting loses nothing: joining the pieces back gives the text again. */
  lemma {:induction false} JoinSplit(s: string, c: char)
    ensures Join(Split(s, c), c) == s
    decreases |s|
  {
    match IndexOf(s, c)
    case None =>
    case Some(i) =>
      JoinSplit(s[i + 1..], c);
      var rest := Split(s[i + 1..], c);
      assert Split(s, c) == [s[..i]] + rest;
      assert Join(Split(s, c), c) == s[..i] + [c] + Join(rest, c);
      assert s == s[..i] + [c] + s[i + 1..];
  }

  /** The first piece of `s.Split(c)`: the text before the first `c`, or all of it. */
  lemma SplitFirst(s: string, c: char)
    ensures var first := Split(s, c)[0];
      && c !in first
      && (c in s ==> s[..|first|] == first && s[|first|] == c)
      && (c !in s ==> first == s)
  {
  }

  /** The range of `int`. */
  const Int32Min: int := -0x8000_0000
  const Int32Max: int := 0x7FFF_FFFF

  /** `int.TryParse(s, out n)`: optional white space, an optional sign, decimal digits, within 32 bits. */
  function ParseInt32(s: string): (r: Option<int>)
    ensures r.Some? ==> Int32Min <= r.value <= Int32Max
  {
    var t := TrimParseWhite(s);
    var negative := |t| > 0 && t[0] == '-';
    var digits := if |t| > 0 && (t[0] == '-' || t[0] == '+') then t[1..] else t;
    match ParseNat(digits, 10)
    case None => None
    case Some(v) =>
      var n: int := if negative then -(v as int) else v;
      if Int32Min <= n <= Int32Max then Some(n) else None
  }

  /** The decimal text of a number parses back to it. */
  lemma ParseInt32Format(n: nat)
    requires n <= Int32Max
    ensures ParseInt32(FormatNat(n, 10)) == Some(n)
  {
    var s := FormatNat(n, 10);
    ParseFormat(n, 10);
    TrimParseWhiteOfDigits(s);
  }

  /** Text made of digits has no white space to trim. */
  lemma TrimParseWhiteOfDigits(s: string)
    requires forall i :: 0 <= i < |s| ==> IsLowerDigit(s[i])
    ensures TrimParseWhite(s) == s
  {
  }

  /** `uint.Parse(s, NumberStyles.HexNumber)`: white space around hexadecimal digits of either case, within 32 bits. */
  function ParseHex32(s: string): (r: Option<uint32>)
  {
    match ParseNat(TrimParseWhite(s), 16)
    case None => None
    case Some(v) => if v < TwoTo32 then Some(v) else None
  }
}
