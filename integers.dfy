/**
 * Fixed-width unsigned integers of the firmware (`uint8_t`, `uint16_t`) and the
 * C++ conversions into them. Converting an integer to an unsigned type keeps the
 * unique value of that type congruent to it modulo 2^width; Dafny's `%` is
 * Euclidean, so `x % m` is that value for negative `x` as well.
 */
module Integers {

  type Uint8 = x: int | 0 <= x < 0x100
  type Uint16 = x: int | 0 <= x < 0x1_0000

  /** The C++ conversion `(uint8_t)x`. */
  function ToUint8(x: int): (r: Uint8)
    ensures (x - r) % 0x100 == 0
    ensures 0 <= x < 0x100 ==> r == x
  {
    x % 0x100
  }

  /** The C++ conversion `(uint16_t)x`. */
  function ToUint16(x: int): (r: Uint16)
    ensures (x - r) % 0x1_0000 == 0
    ensures 0 <= x < 0x1_0000 ==> r == x
  {
    x % 0x1_0000
  }

  /** Wrapping after each addition gives the same byte as wrapping once at the end. */
  lemma ToUint8OfSum(x: int, y: int)
    ensures ToUint8(ToUint8(x) + y) == ToUint8(x + y)
  {
    var q := x / 0x100;
    assert x == 0x100 * q + ToUint8(x);
    assert x + y == (ToUint8(x) + y) + 0x100 * q;
  }

  /** Two values whose bytes agree differ by a multiple of 256. */
  lemma ToUint8Difference(x: int, y: int)
    ensures (ToUint8(x + y) - ToUint8(x)) % 0x100 == ToUint8(y)
  {
    var qx := x / 0x100;
    var qs := (x + y) / 0x100;
    assert x == 0x100 * qx + ToUint8(x);
    assert x + y == 0x100 * qs + ToUint8(x + y);
    assert ToUint8(x + y) - ToUint8(x) == y + 0x100 * (qx - qs);
  }
}
