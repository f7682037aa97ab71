/**
 * Fixed-width unsigned integers as the C++ source uses them: `unsigned`
 * (32 bits, the remaining-task counter) and `tw_lpid` (64 bits, the global
 * logical-process identifiers). Arithmetic on them wraps around.
 */
module Unsigned {

  const U32_MODULUS: nat := 0x1_0000_0000
  const U64_MODULUS: nat := 0x1_0000_0000_0000_0000

  type u32 = x: int | 0 <= x < 0x1_0000_0000
  type u64 = x: int | 0 <= x < 0x1_0000_0000_0000_0000

  /** `x--` on an unsigned 32-bit value. */
  function Dec32(x: u32): (r: u32)
    ensures x > 0 ==> r == x - 1
    ensures x == 0 ==> r == U32_MODULUS - 1
  {
    (x + U32_MODULUS - 1) % U32_MODULUS
  }

  /** `x++` on an unsigned 32-bit value. */
  function Inc32(x: u32): (r: u32)
    ensures x < U32_MODULUS - 1 ==> r == x + 1
    ensures x == U32_MODULUS - 1 ==> r == 0
  {
    (x + 1) % U32_MODULUS
  }

  /** Increment and decrement undo each other for every counter value, wrap-around included. */
  lemma IncDecInverse(x: u32)
    ensures Inc32(Dec32(x)) == x
    ensures Dec32(Inc32(x)) == x
  {
  }

  /** `x - y` on two unsigned 64-bit values. */
  function Sub64(x: u64, y: u64): (r: u64)
    ensures y <= x ==> r == x - y
    ensures x < y ==> r == x + U64_MODULUS - y
  {
    (x + U64_MODULUS - y) % U64_MODULUS
  }

  /** `x + y` on two unsigned 64-bit values. */
  function Add64(x: u64, y: u64): (r: u64)
    ensures x + y < U64_MODULUS ==> r == x + y
    ensures x + y >= U64_MODULUS ==> r == x + y - U64_MODULUS
  {
    (x + y) % U64_MODULUS
  }
}
