/** Go's `int32`, whose arithmetic wraps around modulo 2^32. */
module GoInt32 {

  const Modulus: int := 0x1_0000_0000

  type int32 = x: int | -0x8000_0000 <= x < 0x8000_0000

  predicate InRange(x: int) {
    -0x8000_0000 <= x < 0x8000_0000
  }

  /** The `int32` that a Go conversion or an overflowing `int32` operation yields for the exact value `x`. */
  function Wrap(x: int): (r: int32)
    ensures (r - x) % Modulus == 0
    ensures InRange(x) ==> r == x
  {
    var m := x % Modulus;
    if m < 0x8000_0000 then m else m - Modulus
  }

  /** Two values congruent modulo 2^32 wrap to the same `int32`. */
  lemma WrapCongruent(x: int, y: int)
    requires (x - y) % Modulus == 0
    ensures Wrap(x) == Wrap(y)
  {
    var k := (x - y) / Modulus;
    assert x == y + k * Modulus;
    ModShift(y, k);
  }

  lemma {:induction false} ModShift(y: int, k: int)
    ensures (y + k * Modulus) % Modulus == y % Modulus
  {
    var q := y / Modulus;
    var m := y % Modulus;
    assert y + k * Modulus == (q + k) * Modulus + m;
  }

  /** Wrapping after every step of a sum or product is the same as wrapping once at the end. */
  lemma WrapAdd(x: int, y: int)
    ensures Wrap(Wrap(x) + y) == Wrap(x + y)
  {
    WrapCongruent(Wrap(x) + y, x + y);
  }

  lemma WrapMul(x: int, y: int)
    ensures Wrap(Wrap(x) * y) == Wrap(x * y)
  {
    var k := (Wrap(x) - x) / Modulus;
    assert Wrap(x) == x + k * Modulus;
    assert Wrap(x) * y == x * y + (k * y) * Modulus;
    WrapCongruent(Wrap(x) * y, x * y);
  }
}
