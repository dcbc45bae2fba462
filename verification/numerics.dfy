/**
 * The 32-bit signed integers of the .NET runtime and its default, unchecked
 * arithmetic: a sum or difference that leaves the range wraps around.
 */
module Numerics {

  const INT_MIN: int := -0x8000_0000
  const INT_MAX: int := 0x7FFF_FFFF
  const MODULUS: int := 0x1_0000_0000

  /** The values of C#'s `int`. */
  type Int32 = x: int | INT_MIN <= x <= INT_MAX

  /** The `int` that unchecked arithmetic produces for the exact result `x`. */
  function Wrap(x: int): (r: Int32)
    ensures INT_MIN <= x <= INT_MAX ==> r == x
    ensures INT_MAX < x <= INT_MAX + MODULUS ==> r == x - MODULUS
    ensures INT_MIN - MODULUS <= x < INT_MIN ==> r == x + MODULUS
    ensures (x - r) % MODULUS == 0
  {
    (x - INT_MIN) % MODULUS + INT_MIN
  }
}
