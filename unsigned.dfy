/** Arithmetic on C++ `unsigned` values. The adapter's widths, heights and
    subsampling factors are `unsigned`, taken here to be 32 bits wide: every
    operation is computed exactly and then reduced modulo 2^32. */
module CppUnsigned {

  const MODULUS: int := 0x1_0000_0000

  newtype u32 = x: int | 0 <= x < 0x1_0000_0000

  /** The low 32 bits of an exact result. */
  function Wrap(x: nat): (r: u32)
    ensures x < MODULUS ==> r as int == x
    ensures MODULUS <= x < 2 * MODULUS ==> r as int == x - MODULUS
  {
    (x % MODULUS) as u32
  }

  /** `a + b`: wraps around once the exact sum reaches 2^32. */
  function Add(a: u32, b: u32): (r: u32)
    ensures a as int + b as int < MODULUS ==> r as int == a as int + b as int
    ensures a as int + b as int >= MODULUS ==> r as int == a as int + b as int - MODULUS
  {
    Wrap(a as int + b as int)
  }

  /** `a * b`: the low 32 bits of the product, which is the product itself when it fits. */
  function Mul(a: u32, b: u32): (r: u32)
    ensures a as int * b as int < MODULUS ==> r as int == a as int * b as int
  {
    Wrap(a as int * b as int)
  }

  /** `a / b`: the quotient truncated toward zero (the operands are never negative). */
  function Div(a: u32, b: u32): (r: u32)
    requires b != 0
    ensures r as int * b as int <= a as int < (r as int + 1) * b as int
  {
    (a as int / b as int) as u32
  }
}
