/** Fixed-width unsigned arithmetic of C++, written out over unbounded integers.

    `uint32_t` and `uint8_t` values are integers in a bounded range; every operation
    that can leave the range reduces modulo the width, as C++ unsigned arithmetic does.
 */
module Unsigned {

  const U32_LIMIT: nat := 0x1_0000_0000
  const U8_LIMIT: nat := 0x100

  /** A `uint32_t` value. */
  type u32 = x: int | 0 <= x < U32_LIMIT

  /** A `uint8_t` value. */
  type u8 = x: int | 0 <= x < U8_LIMIT

  /** `a - b` on `uint32_t`: wraps around below zero. */
  function Sub(a: u32, b: u32): (r: u32)
    ensures a >= b ==> r == a - b
    ensures a < b ==> r == a - b + U32_LIMIT
  {
    (a - b) % U32_LIMIT
  }

  /** `a + b` on `uint32_t`: wraps around past the top of the range. */
  function Add(a: u32, b: u32): (r: u32)
    ensures a + b < U32_LIMIT ==> r == a + b
    ensures a + b >= U32_LIMIT ==> r == a + b - U32_LIMIT
  {
    (a + b) % U32_LIMIT
  }

  /** `a << 2` on `uint32_t`: the two high bits are lost. */
  function ShiftLeft2(a: u32): (r: u32)
    ensures r % 4 == 0
    ensures a < U32_LIMIT / 4 ==> r == 4 * a
  {
    (4 * a) % U32_LIMIT
  }

  /** `a >> 4` on `uint32_t`. */
  function ShiftRight4(a: u32): (r: u32)
    ensures 16 * r <= a < 16 * r + 16
  {
    a / 16
  }

  /** Conversion of a `uint32_t` to `uint8_t`: keeps the low eight bits. */
  function ToU8(a: u32): (r: u8)
    ensures a < U8_LIMIT ==> r == a
    ensures (a - r) % U8_LIMIT == 0
  {
    a % U8_LIMIT
  }
}
