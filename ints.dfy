/**
 * The C integer types both firmwares compute with, as bounded subsets of
 * `int`, and the C conversions into them.
 */
module Ints {
  const TwoTo8: nat := 0x100
  const TwoTo16: nat := 0x1_0000
  const TwoTo32: nat := 0x1_0000_0000
  const TwoTo64: nat := 0x1_0000_0000_0000_0000

  type byte = b: int | 0 <= b < TwoTo8
  type uint16 = n: int | 0 <= n < TwoTo16
  type uint32 = n: int | 0 <= n < TwoTo32
  type uint64 = n: int | 0 <= n < TwoTo64
  type int16 = n: int | -0x8000 <= n < 0x8000
  type int32 = n: int | -0x8000_0000 <= n < 0x8000_0000
  type int64 = n: int | -0x8000_0000_0000_0000 <= n < 0x8000_0000_0000_0000

  /** C conversion of an integer to an unsigned integer of width 2^bits (wrap-around). */
  function Wrap8(n: int): byte { n % TwoTo8 }
  function Wrap16(n: int): uint16 { n % TwoTo16 }
  function Wrap32(n: int): uint32 { n % TwoTo32 }
  function Wrap64(n: int): uint64 { n % TwoTo64 }

  /** C conversion of an integer to int16_t (two's complement wrap-around). */
  function WrapInt16(n: int): int16
  {
    var u := n % TwoTo16;
    if u < 0x8000 then u else u - TwoTo16
  }

  /** C conversion of an integer to a 32-bit `int` (two's complement wrap-around). */
  function WrapInt32(n: int): int32
  {
    var u := n % TwoTo32;
    if u < 0x8000_0000 then u else u - TwoTo32
  }

  /** C conversion of an integer to int64_t (two's complement wrap-around). */
  function WrapInt64(n: int): int64
  {
    var u := n % TwoTo64;
    if u < 0x8000_0000_0000_0000 then u else u - TwoTo64
  }
}
