/** The fixed-width machine integers of the original, as subset types of `int`. */
module Words {

  type Byte = x: int | 0 <= x < 0x100
  type UInt16 = x: int | 0 <= x < 0x1_0000
  type UInt32 = x: int | 0 <= x < 0x1_0000_0000
  type UInt64 = x: int | 0 <= x < TWO_64
  type Int32 = x: int | -0x8000_0000 <= x < 0x8000_0000

  const TWO_64: int := 0x1_0000_0000_0000_0000

  /** Conversion to a signed 32-bit value, modulo 2^32 (C++20 and later). */
  function Wrap32(x: int): (r: Int32)
    ensures (x - r) % 0x1_0000_0000 == 0
  {
    (x + 0x8000_0000) % 0x1_0000_0000 - 0x8000_0000
  }

  // Quotients and remainders of numbers written as a high and a low part.

  lemma Split4(high: int, low: int)
    requires 0 <= low < 4
    ensures (4 * high + low) / 4 == high && (4 * high + low) % 4 == low
  {
  }

  lemma Split16(high: int, low: int)
    requires 0 <= low < 16
    ensures (16 * high + low) / 16 == high && (16 * high + low) % 16 == low
  {
  }

  lemma Split64(high: int, low: int)
    requires 0 <= low < 64
    ensures (64 * high + low) / 64 == high && (64 * high + low) % 64 == low
  {
  }

  lemma Split512(high: int, low: int)
    requires 0 <= low < 512
    ensures (512 * high + low) / 512 == high && (512 * high + low) % 512 == low
  {
  }

  lemma Split65536(high: int, low: int)
    requires 0 <= low < 0x1_0000
    ensures (0x1_0000 * high + low) / 0x1_0000 == high && (0x1_0000 * high + low) % 0x1_0000 == low
  {
  }
}
