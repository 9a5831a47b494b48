/** Java's 32-bit signed `int`: its range, and the wrap-around of `+`. */
module JavaInt {

  const INT32_MIN: int := -0x8000_0000
  const INT32_MAX: int := 0x7fff_ffff
  const TWO_TO_32: int := 0x1_0000_0000

  predicate IsInt32(x: int)
  {
    INT32_MIN <= x <= INT32_MAX
  }

  /** The value Java stores for the mathematical result `x`: `x` reduced
      modulo 2^32 into the signed range. */
  function Wrap32(x: int): (r: int)
    ensures IsInt32(r)
    ensures (r - x) % TWO_TO_32 == 0
    ensures IsInt32(x) ==> r == x
  {
    (x - INT32_MIN) % TWO_TO_32 + INT32_MIN
  }

  /** Adding to an already wrapped value wraps to the same value as adding
      to the exact one: a Java accumulator `result += x` holds the exact sum
      modulo 2^32. */
  lemma WrapAdd(a: int, b: int)
    ensures Wrap32(Wrap32(a) + b) == Wrap32(a + b)
  {
    var u := a - INT32_MIN;
    var q := u / TWO_TO_32;
    assert u == q * TWO_TO_32 + u % TWO_TO_32;
    assert Wrap32(a) + b - INT32_MIN == u % TWO_TO_32 + b;
    assert a + b - INT32_MIN == (u % TWO_TO_32 + b) + q * TWO_TO_32;
    ModShift(u % TWO_TO_32 + b, q);
  }

  lemma ModShift(y: int, q: int)
    ensures (y + q * TWO_TO_32) % TWO_TO_32 == y % TWO_TO_32
  {
  }
}
