/**
 * Java's 32-bit `int` arithmetic, written out: the renderer's fields and
 * coordinates are Java ints, whose `+`, `-` and `*` wrap around modulo 2^32
 * and whose `/` truncates toward zero.
 */
module JavaInt {

  const MinInt: int := -0x8000_0000
  const MaxInt: int := 0x7fff_ffff

  /** The values a Java `int` can hold. */
  type Int32 = x: int | MinInt <= x <= MaxInt

  /** Two's-complement wrap-around of an unbounded integer into an `int`. */
  function ToInt32(x: int): (r: Int32)
    ensures MinInt <= x <= MaxInt ==> r == x
    ensures (r - x) % 0x1_0000_0000 == 0
  {
    (x - MinInt) % 0x1_0000_0000 + MinInt
  }

  /** Java `a + b` on ints. */
  function Add(a: Int32, b: Int32): (r: Int32)
    ensures MinInt <= a + b <= MaxInt ==> r == a + b
  {
    ToInt32(a + b)
  }

  /** Java `a - b` on ints. */
  function Sub(a: Int32, b: Int32): (r: Int32)
    ensures MinInt <= a - b <= MaxInt ==> r == a - b
  {
    ToInt32(a - b)
  }

  /** Java `a * b` on ints. */
  function Mul(a: Int32, b: Int32): (r: Int32)
    ensures MinInt <= a * b <= MaxInt ==> r == a * b
  {
    ToInt32(a * b)
  }

  /**
   * Java `a / b` for a positive divisor: the quotient is truncated toward
   * zero, so it is the floor for a non-negative dividend and the ceiling
   * for a negative one.
   */
  function Div(a: int, b: int): (q: int)
    requires b > 0
    ensures a >= 0 ==> q * b <= a < q * b + b
    ensures a < 0 ==> q <= 0 && q * b - b < a <= q * b
  {
    if a >= 0 then a / b else -((-a) / b)
  }
}
