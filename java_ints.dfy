/**
 * Fixed-width integer arithmetic of the JVM, written out explicitly: Dafny's
 * `int` is unbounded, Java's `int` and `long` wrap around in two's complement.
 */
module JavaInts {

  const TWO_31: int := 0x8000_0000
  const TWO_32: int := 0x1_0000_0000
  const TWO_63: int := 0x8000_0000_0000_0000
  const TWO_64: int := 0x1_0000_0000_0000_0000

  /** A Java/Kotlin `int`. */
  type Int32 = x: int | -0x8000_0000 <= x < 0x8000_0000

  /** A Java/Kotlin `long`. */
  type Int64 = x: int | -0x8000_0000_0000_0000 <= x < 0x8000_0000_0000_0000

  /** The `int` a JVM computes for the exact integer `v`: `v` modulo 2^32, read as signed. */
  function Wrap32(v: int): (r: Int32)
    ensures (r - v) % TWO_32 == 0
    ensures -TWO_31 <= v < TWO_31 ==> r == v
  {
    (v + TWO_31) % TWO_32 - TWO_31
  }

  /** The `long` a JVM computes for the exact integer `v`: `v` modulo 2^64, read as signed. */
  function Wrap64(v: int): (r: Int64)
    ensures (r - v) % TWO_64 == 0
    ensures -TWO_63 <= v < TWO_63 ==> r == v
  {
    (v + TWO_63) % TWO_64 - TWO_63
  }

  /** Java's `v << 4` on an `int`: multiplication by 16 that wraps around. */
  function Shl4(v: Int32): (r: Int32)
    ensures r % 16 == 0
    ensures -0x800_0000 <= v < 0x800_0000 ==> r == 16 * v
  {
    Wrap32(v * 16)
  }

  /**
   * Java's `v | 15` on an `int`: sets the four low bits of the two's-complement
   * representation; Dafny's `%` is Euclidean, so `v % 16` is exactly those bits.
   */
  function Or15(v: Int32): (r: Int32)
    ensures r % 16 == 15
    ensures v <= r && r - v < 16
    ensures r / 16 == v / 16
  {
    v - v % 16 + 15
  }

  /** Kotlin's `(i and 255).toByte()`: the low eight bits, read as a signed byte. */
  function LowByte(i: int): (r: int)
    ensures -128 <= r < 128
    ensures (r - i) % 256 == 0
    ensures -128 <= i < 128 ==> r == i
  {
    var u := i % 256;
    if u >= 128 then u - 256 else u
  }
}
