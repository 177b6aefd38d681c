/** 32-bit unsigned integers and the two saturating operations the health value uses. */
module Unsigned {

  const U32_LIMIT: int := 0x1_0000_0000

  /** The largest value a `u32` holds. */
  const U32_MAX: int := U32_LIMIT - 1

  type u32 = x: int | 0 <= x < U32_LIMIT

  /** Addition that stops at `U32_MAX` instead of wrapping around.
      The result is the exact sum when it fits, and the largest `u32` otherwise. */
  function SaturatingAdd(a: u32, b: u32): (r: u32)
    ensures r <= a + b
    ensures r == a + b || r == U32_MAX
  {
    if a + b > U32_MAX then U32_MAX else a + b
  }

  /** Subtraction that stops at zero instead of wrapping around.
      The result is the exact difference when it is not negative, and zero otherwise. */
  function SaturatingSub(a: u32, b: u32): (r: u32)
    ensures r >= a - b
    ensures r == a - b || r == 0
  {
    if b >= a then 0 else a - b
  }
}
