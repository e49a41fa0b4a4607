/** The finite values of Python's `float`. */
module Doubles {

  function PowerOfTwo(e: int): (p: real)
    decreases if e < 0 then -e else e
  {
    if e == 0 then 1.0 else if e > 0 then 2.0 * PowerOfTwo(e - 1) else PowerOfTwo(e + 1) / 2.0
  }

  const MANTISSA := 0x20_0000_0000_0000

  /** IEEE 754 binary64: a significand of 53 bits and an exponent. */
  ghost predicate Encodes(significand: int, exponent: int, x: real) {
    -MANTISSA < significand < MANTISSA && -1074 <= exponent <= 971 && x == significand as real * PowerOfTwo(exponent)
  }

  ghost predicate IsDouble(x: real) {
    exists significand, exponent :: Encodes(significand, exponent, x)
  }

  lemma SmallIntegerIsDouble(n: int)
    requires -MANTISSA < n < MANTISSA
    ensures IsDouble(n as real)
  {
    assert Encodes(n, 0, n as real);
  }

  type Double = x: real | IsDouble(x) witness (SmallIntegerIsDouble(0); 0.0)
}
