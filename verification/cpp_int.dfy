/** C++ integer semantics the modelled code depends on: 32-bit int range, the conversion of an int to a
    64-bit size_t, the conversion of an int to a 32-bit unsigned int, and float-to-int truncation. */
module CppInt {

  const INT_MIN: int := -0x8000_0000
  const INT_MAX: int := 0x7FFF_FFFF
  const SIZE_T_MODULUS: int := 0x1_0000_0000_0000_0000
  const UINT_MODULUS: int := 0x1_0000_0000

  predicate InInt(v: int) {
    INT_MIN <= v <= INT_MAX
  }

  /** static_cast<size_t>(v) for a 32-bit int v: a negative value wraps around 2^64. */
  function ToSizeT(v: int): (r: nat)
    requires InInt(v)
    ensures r < SIZE_T_MODULUS
    ensures v >= 0 ==> r == v
    ensures v < 0 ==> r == SIZE_T_MODULUS + v
  {
    if v >= 0 then v else SIZE_T_MODULUS + v
  }

  /** The conversion of an int to unsigned int: the value modulo 2^32, so a negative v becomes 2^32 + v. */
  function ToUnsigned(v: int): (r: nat)
    ensures r < UINT_MODULUS
    ensures 0 <= v < UINT_MODULUS ==> r == v
    ensures -UINT_MODULUS <= v < 0 ==> r == UINT_MODULUS + v
  {
    v % UINT_MODULUS
  }

  /** The float-to-int conversion of C++: truncation toward zero. */
  function Trunc(x: real): (n: int)
    ensures x >= 0.0 ==> n as real <= x < n as real + 1.0 && n >= 0
    ensures x < 0.0 ==> n as real - 1.0 < x <= n as real && n <= 0
  {
    if x >= 0.0 then x.Floor else -((-x).Floor)
  }
}
