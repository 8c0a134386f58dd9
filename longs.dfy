/** Java's 32-bit `int` and 64-bit `long`, and the two's-complement
    wrap-around of `long` subtraction and addition. */
module Longs {

  const TWO_TO_THE_64: int := 0x1_0000_0000_0000_0000
  const MIN_LONG: int := -0x8000_0000_0000_0000
  const MAX_LONG: int := 0x7FFF_FFFF_FFFF_FFFF

  type Int32 = x: int | -0x8000_0000 <= x <= 0x7FFF_FFFF
  type Int64 = x: int | MIN_LONG <= x <= MAX_LONG

  /** Reduces a mathematical integer to the `long` that Java's arithmetic
      yields for it: the unique `long` congruent to x modulo 2^64. */
  function Wrap(x: int): (r: Int64)
    ensures (r - x) % TWO_TO_THE_64 == 0
    ensures MIN_LONG <= x <= MAX_LONG ==> r == x
  {
    ((x - MIN_LONG) % TWO_TO_THE_64) + MIN_LONG
  }

  /** Two `long`s congruent modulo 2^64 are equal. */
  lemma CongruentLongsAreEqual(x: int, y: Int64)
    requires (x - y) % TWO_TO_THE_64 == 0
    ensures Wrap(x) == y
  {
    var r := Wrap(x);
    var q := (r - x) / TWO_TO_THE_64;
    var p := (x - y) / TWO_TO_THE_64;
    assert r - x == q * TWO_TO_THE_64;
    assert x - y == p * TWO_TO_THE_64;
    assert r - y == (q + p) * TWO_TO_THE_64;
  }

  /** Java's `a - b` on `long`. */
  function Sub(a: Int64, b: Int64): (r: Int64)
    ensures MIN_LONG <= a - b <= MAX_LONG ==> r == a - b
  {
    Wrap(a - b)
  }

  /** Java's `a + b` on `long`. */
  function Add(a: Int64, b: Int64): (r: Int64)
    ensures MIN_LONG <= a + b <= MAX_LONG ==> r == a + b
  {
    Wrap(a + b)
  }

  /** Subtracting and adding back the same `long` gives the original value,
      even when the subtraction wraps around. */
  lemma SubThenAdd(a: Int64, b: Int64)
    ensures Add(Sub(a, b), b) == a
  {
    var d := Sub(a, b);
    var q := (d - (a - b)) / TWO_TO_THE_64;
    assert d - (a - b) == q * TWO_TO_THE_64;
    assert (d + b) - a == q * TWO_TO_THE_64;
    CongruentLongsAreEqual(d + b, a);
  }
}
