/**
 * Java's fixed-width integers. Dafny's `int` is unbounded, so the 32-bit
 * wrap-around of Java `int` arithmetic is written out here.
 */
module JavaInt {
  const INT_MIN: int := -0x8000_0000
  const INT_MAX: int := 0x7fff_ffff
  const LONG_MIN: int := -0x8000_0000_0000_0000
  const LONG_MAX: int := 0x7fff_ffff_ffff_ffff
  const TWO_TO_32: int := 0x1_0000_0000

  /** A Java `int`. */
  type Int32 = x: int | -0x8000_0000 <= x <= 0x7fff_ffff

  /** A Java `long`; every `int` widens to one. */
  type Int64 = x: int | -0x8000_0000_0000_0000 <= x <= 0x7fff_ffff_ffff_ffff

  /**
   * The two's-complement reading of the low 32 bits of `x`: the one `int`
   * congruent to `x` modulo 2^32.
   */
  function WrapInt32(x: int): (r: Int32)
    ensures (x - r) % TWO_TO_32 == 0
    ensures INT_MIN <= x <= INT_MAX ==> r == x
  {
    (x + 0x8000_0000) % TWO_TO_32 - 0x8000_0000
  }

  /** Java `a * b` on two `int` operands. */
  function MulInt32(a: Int32, b: Int32): (r: Int32)
    ensures (a * b - r) % TWO_TO_32 == 0
  {
    WrapInt32(a * b)
  }

  /** Seconds up to 2147483 in magnitude convert to milliseconds exactly. */
  lemma SecondsToMillisExact(s: Int32)
    requires -2147483 <= s <= 2147483
    ensures MulInt32(s, 1000) == s * 1000
  {
  }

  /**
   * One step past that bound the product wraps: 2147484 to 4294967 seconds
   * give a negative number of milliseconds, and their negations a positive one.
   */
  lemma SecondsToMillisWraps(s: Int32)
    requires 2147484 <= s <= 4294967 || -4294967 <= s <= -2147484
    ensures s > 0 ==> MulInt32(s, 1000) == s * 1000 - TWO_TO_32 < 0
    ensures s < 0 ==> MulInt32(s, 1000) == s * 1000 + TWO_TO_32 > 0
  {
  }
}
