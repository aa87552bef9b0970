/**
  The integer conversions the row formatter relies on: C++ `size_t` arithmetic
  (64-bit unsigned, wrapping modulo 2^64) and the conversion of a `size_t` into a
  32-bit `int` (two's complement truncation).
 */
module Native {

  const SIZE_T_MODULUS: int := 0x1_0000_0000_0000_0000
  const INT_MODULUS: int := 0x1_0000_0000
  const INT_MAX: int := 0x7FFF_FFFF
  const INT_MIN: int := -0x8000_0000

  /** The `size_t` value of a mathematical integer: the unique representative modulo 2^64 in [0, 2^64). */
  function AsSize(x: int): (r: nat)
    ensures r < SIZE_T_MODULUS
    ensures 0 <= x < SIZE_T_MODULUS ==> r == x
    ensures -SIZE_T_MODULUS <= x < 0 ==> r == x + SIZE_T_MODULUS
  {
    x % SIZE_T_MODULUS
  }

  /** The `int` value of a `size_t`: the unique representative modulo 2^32 in [INT_MIN, INT_MAX]. */
  function AsInt(x: nat): (r: int)
    ensures INT_MIN <= r <= INT_MAX
    ensures x <= INT_MAX ==> r == x
    ensures SIZE_T_MODULUS + INT_MIN <= x < SIZE_T_MODULUS ==> r == x - SIZE_T_MODULUS
  {
    var m := x % INT_MODULUS;
    if m <= INT_MAX then m else m - INT_MODULUS
  }
}
