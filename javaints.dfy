/**
 * Java's fixed-width integers, kept as their two's-complement bit patterns.
 *
 * A Java `byte` is signed: the sign is an interpretation of the pattern, and
 * every widening of a `byte`, `short` or `int` copies the sign bit into the new
 * high bits (sign extension), while every narrowing cast keeps the low bits.
 * The shift operators take their distance modulo the width of the left
 * operand, so `x << 56` on an `int` shifts by 24.
 */
module JavaInts {

  /** The bit pattern of a Java `byte`. */
  type JByte = bv8
  /** The bit pattern of a Java `short`. */
  type JShort = bv16
  /** The bit pattern of a Java `int`. */
  type JInt = bv32
  /** The bit pattern of a Java `long`. */
  type JLong = bv64

  /** The numeric value of a `byte`. */
  function ByteValue(b: JByte): (r: int)
    ensures -0x80 <= r < 0x80
    ensures (r - b as int) % 0x100 == 0
  {
    if b < 0x80 then b as int else b as int - 0x100
  }

  /** The numeric value of an `int`. */
  function IntValue(x: JInt): int
  {
    if x < 0x8000_0000 then x as int else x as int - 0x1_0000_0000
  }

  /** The unsigned value of an `int` known to lie in [0, 255], such as `x & 0xFF`. */
  function SmallValue(x: JInt): (r: int)
    requires x < 0x100
    ensures 0 <= r < 0x100
  {
    (x as bv8) as int
  }

  /*
   * The widenings below are written as "flip the sign bit, then subtract it",
   * which sign-extends without a case split; the lemmas after them give the
   * case-split reading.
   */

  /** Widening `byte` to `int`: the sign bit fills bits 8 to 31. */
  function ByteToInt(b: JByte): JInt
  {
    ((b as JInt) ^ 0x80) - 0x80
  }

  /** Widening `short` to `int`: the sign bit fills bits 16 to 31. */
  function ShortToInt(s: JShort): JInt
  {
    ((s as JInt) ^ 0x8000) - 0x8000
  }

  /** Widening `int` to `long`: the sign bit fills bits 32 to 63. */
  function IntToLong(x: JInt): JLong
  {
    ((x as JLong) ^ 0x8000_0000) - 0x8000_0000
  }

  /** A non-negative `byte` widens to itself; a negative one gets bits 8 to 31 set. */
  lemma ByteToIntSignExtends(b: JByte)
    ensures b < 0x80 ==> ByteToInt(b) == b as JInt
    ensures b >= 0x80 ==> ByteToInt(b) == (b as JInt) | 0xFFFF_FF00
  {
  }

  /** A non-negative `short` widens to itself; a negative one gets bits 16 to 31 set. */
  lemma ShortToIntSignExtends(s: JShort)
    ensures s < 0x8000 ==> ShortToInt(s) == s as JInt
    ensures s >= 0x8000 ==> ShortToInt(s) == (s as JInt) | 0xFFFF_0000
  {
  }

  /** A non-negative `int` widens to itself; a negative one gets bits 32 to 63 set. */
  lemma IntToLongSignExtends(x: JInt)
    ensures x < 0x8000_0000 ==> IntToLong(x) == x as JLong
    ensures x >= 0x8000_0000 ==> IntToLong(x) == (x as JLong) | 0xFFFF_FFFF_0000_0000
  {
  }

  /** The cast `(byte) x` on an `int`: keeps bits 0 to 7. */
  function IntToByte(x: JInt): JByte
  {
    (x & 0xFF) as JByte
  }

  /** The cast `(short) x` on an `int`: keeps bits 0 to 15. */
  function IntToShort(x: JInt): JShort
  {
    (x & 0xFFFF) as JShort
  }

  /** The cast `(int) x` on a `long`: keeps bits 0 to 31. */
  function LongToInt(x: JLong): JInt
  {
    (x & 0xFFFF_FFFF) as JInt
  }

  /** `x << s` on `int`: only the low five bits of the distance count. */
  function ShlInt(x: JInt, s: JInt): JInt
  {
    x << (s & 31)
  }

  /** `x >>> s` on `int`: zeros shift in; only the low five bits of the distance count. */
  function UshrInt(x: JInt, s: JInt): JInt
  {
    x >> (s & 31)
  }

  /** `x << s` on `long`: only the low six bits of the distance count. */
  function ShlLong(x: JLong, s: JLong): JLong
  {
    x << (s & 63)
  }

  /** `x >>> s` on `long`: zeros shift in; only the low six bits of the distance count. */
  function UshrLong(x: JLong, s: JLong): JLong
  {
    x >> (s & 63)
  }

  /** Shifting an `int` by 32 to 63 is the same as shifting it by the distance minus 32. */
  lemma ShlIntWraps(x: JInt, s: JInt)
    requires 32 <= s < 64
    ensures ShlInt(x, s) == ShlInt(x, s - 32)
    ensures s == 32 ==> ShlInt(x, s) == x
  {
  }
}
