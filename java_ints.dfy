/**
 * Java's `int`: 32-bit two's complement, where `+` and `*` wrap around
 * modulo 2^32 instead of overflowing.
 */
module JavaInts {
  const Modulus: int := 0x1_0000_0000
  const MinInt: int := -0x8000_0000
  const MaxInt: int := 0x7fff_ffff

  predicate IsInt(x: int) { MinInt <= x <= MaxInt }

  /** The `int` that the mathematical integer `x` wraps around to. */
  function Wrap(x: int): (r: int)
    ensures IsInt(r)
    ensures IsInt(x) ==> r == x
  {
    (x - MinInt) % Modulus + MinInt
  }

  /** Integers that differ by a multiple of 2^32 wrap to the same `int`. */
  lemma WrapCongruent(x: int, y: int, k: int)
    requires x == y + k * Modulus
    ensures Wrap(x) == Wrap(y)
  {
    var a := x - MinInt;
    var b := y - MinInt;
    assert a == b + k * Modulus;
    assert a / Modulus == b / Modulus + k && a % Modulus == b % Modulus by {
      var q := b / Modulus;
      var m := b % Modulus;
      assert b == q * Modulus + m && 0 <= m < Modulus;
      assert a == (q + k) * Modulus + m;
    }
  }

  /**
   * Wrapping an intermediate result changes nothing: `prime * result + h`
   * evaluated in `int` arithmetic step by step wraps to the same value as
   * the whole expression evaluated exactly and wrapped once.
   */
  lemma {:induction false} WrapStep(prime: int, x: int, h: int)
    ensures Wrap(prime * Wrap(x) + h) == Wrap(prime * x + h)
  {
    var a := x - MinInt;
    var q := a / Modulus;
    assert Wrap(x) == x - q * Modulus;
    assert prime * Wrap(x) + h == prime * x + h + (-prime * q) * Modulus;
    WrapCongruent(prime * Wrap(x) + h, prime * x + h, -prime * q);
  }
}
