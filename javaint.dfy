/** Java's 32-bit `int`, the type of every weight in the cart. */
module JavaInt {

  const MinInt32: int := -0x8000_0000
  const MaxInt32: int := 0x7fff_ffff
  const Modulus32: int := 0x1_0000_0000

  type Int32 = x: int | -0x8000_0000 <= x <= 0x7fff_ffff

  /** The two's-complement result of Java's `int` addition: the unique 32-bit value
      congruent to `x` modulo 2^32. */
  function Wrap32(x: int): (r: Int32)
    ensures MinInt32 <= x <= MaxInt32 ==> r == x
    ensures (x - r) % Modulus32 == 0
  {
    (x - MinInt32) % Modulus32 + MinInt32
  }

  /** Going one past the largest `int` lands on the smallest one. */
  lemma Wrap32Overflow()
    ensures Wrap32(MaxInt32 + 1) == MinInt32
    ensures Wrap32(MinInt32 - 1) == MaxInt32
  {
  }
}
