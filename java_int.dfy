/** Java's fixed-width integers: `int` and `long` arithmetic wraps around. */
module JavaInt {

  const TWO_32: int := 0x1_0000_0000
  const TWO_64: int := 0x1_0000_0000_0000_0000

  /** The values of a Java `int`. */
  type Int32 = x: int | -0x8000_0000 <= x < 0x8000_0000

  /** The values of a Java `long`. */
  type Int64 = x: int | -0x8000_0000_0000_0000 <= x < 0x8000_0000_0000_0000

  /** The `int` that Java stores for the mathematical value `x` (two's complement wrap-around). */
  function WrapInt(x: int): (r: Int32)
    ensures (r - x) % TWO_32 == 0
    ensures -0x8000_0000 <= x < 0x8000_0000 ==> r == x
  {
    var m := (x + 0x8000_0000) % TWO_32;
    m - 0x8000_0000
  }

  /** Values that agree modulo 2^32 are stored as the same `int`. */
  lemma WrapIntCongruent(a: int, b: int)
    requires (a - b) % TWO_32 == 0
    ensures WrapInt(a) == WrapInt(b)
  {
    var d := WrapInt(a) - WrapInt(b);
    assert (d - (a - b)) % TWO_32 == 0 by {
      ModDifference(WrapInt(a) - a, b - WrapInt(b));
    }
    ModDifference(d - (a - b), a - b);
  }

  /** Multiples of 2^32 are closed under addition. */
  lemma ModDifference(x: int, y: int)
    requires x % TWO_32 == 0 && y % TWO_32 == 0
    ensures (x + y) % TWO_32 == 0
  {
    var p, q := x / TWO_32, y / TWO_32;
    assert x == TWO_32 * p && y == TWO_32 * q;
    assert x + y == TWO_32 * (p + q);
  }

  /** The `long` that Java stores for the mathematical value `x`. */
  function WrapLong(x: int): (r: Int64)
    ensures (r - x) % TWO_64 == 0
    ensures -0x8000_0000_0000_0000 <= x < 0x8000_0000_0000_0000 ==> r == x
  {
    var m := (x + 0x8000_0000_0000_0000) % TWO_64;
    m - 0x8000_0000_0000_0000
  }

  /** Java's `a + b` on two `int`s. */
  function AddInt(a: Int32, b: Int32): Int32 { WrapInt(a + b) }

  /** Java's `a + b` on two `long`s (`Long::sum`). */
  function AddLong(a: Int64, b: Int64): Int64 { WrapLong(a + b) }
}
