/**
 * Character-string helpers shared by the models: the C library's `strstr`,
 * `strcasecmp` and `%d`/`%x` formatting, and the unsigned-number parsing that
 * `%x`/`%d` output is read back with.  Strings are sequences of characters.
 */
module Text {
  import opened Wrappers

  /** `strstr(hay, needle) != NULL`: `needle` occurs in `hay`. */
  predicate Contains(hay: string, needle: string)
  {
    exists i :: 0 <= i <= |hay| && OccursAt(hay, needle, i)
  }

  predicate OccursAt(hay: string, needle: string, i: int)
  {
    0 <= i <= |hay| - |needle| && hay[i..i + |needle|] == needle
  }

  predicate StartsWith(s: string, prefix: string)
  {
    |prefix| <= |s| && s[..|prefix|] == prefix
  }

  predicate EndsWith(s: string, suffix: string)
  {
    |suffix| <= |s| && s[|s| - |suffix|..] == suffix
  }

  /** ASCII upper-casing of one character (`toupper`). */
  function UpperChar(c: char): char
  {
    if 'a' <= c <= 'z' then (c as int - 32) as char else c
  }

  /** `strcasecmp(a, b) == 0` for ASCII text. */
  predicate EqualsIgnoreCase(a: string, b: string)
  {
    |a| == |b| && forall i :: 0 <= i < |a| ==> UpperChar(a[i]) == UpperChar(b[i])
  }

  /** The character of digit `d`, lower-case for 10 to 15 (as printed by `%x`). */
  function DigitChar(d: nat): char
    requires d < 16
  {
    if d < 10 then ('0' as int + d) as char else ('a' as int + d - 10) as char
  }

  /** The value of a hexadecimal or decimal digit character of either case. */
  function CharValue(c: char): Option<nat>
  {
    if '0' <= c <= '9' then Some(c as int - '0' as int)
    else if 'a' <= c <= 'f' then Some(c as int - 'a' as int + 10)
    else if 'A' <= c <= 'F' then Some(c as int - 'A' as int + 10)
    else None
  }

  predicate IsLowerDigit(c: char)
  {
    '0' <= c <= '9' || 'a' <= c <= 'f'
  }

  /**
   * `n` written in `base` (10 or 16) with no leading zero: `%d`/`%llu` and
   * `%x` of an unsigned value.
   */
  function FormatNat(n: nat, base: nat): (r: string)
    requires base == 10 || base == 16
    ensures |r| >= 1
    ensures n == 0 <==> r == "0"
    ensures n > 0 ==> r[0] != '0'
    ensures forall i :: 0 <= i < |r| ==> IsLowerDigit(r[i])
    decreases n
  {
    if n < base then [DigitChar(n)] else FormatNat(n / base, base) + [DigitChar(n % base)]
  }

  /** Reads an unsigned number written in `base` with digits of either case; fails on an empty or non-digit text. */
  function ParseNat(s: string, base: nat): Option<nat>
    requires base == 10 || base == 16
  {
    if |s| == 0 then None
    else
      var last := CharValue(s[|s| - 1]);
      if last.None? || last.value >= base then None
      else if |s| == 1 then Some(last.value)
      else match ParseNat(s[..|s| - 1], base)
        case None => None
        case Some(v) => Some(v * base + last.value)
  }

  function Pow(base: nat, k: nat): nat
  {
    if k == 0 then 1 else base * Pow(base, k - 1)
  }

  /** Reading back what was written gives the number again. */
  lemma {:induction false} ParseFormat(n: nat, base: nat)
    requires base == 10 || base == 16
    ensures ParseNat(FormatNat(n, base), base) == Some(n)
    decreases n
  {
    var s := FormatNat(n, base);
    if n >= base {
      ParseFormat(n / base, base);
      assert s[..|s| - 1] == FormatNat(n / base, base);
      assert s[|s| - 1] == DigitChar(n % base);
    }
  }

  /** A number below `base^k` is written with at most `k` digits. */
  lemma {:induction false} FormatLength(n: nat, base: nat, k: nat)
    requires base == 10 || base == 16
    requires k >= 1 && n < Pow(base, k)
    ensures |FormatNat(n, base)| <= k
    decreases k
  {
    if n >= base {
      FormatLength(n / base, base, k - 1);
    }
  }
}
