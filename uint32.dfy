/** Arithmetic of C++ `uint32` values, which wrap around modulo 2^32. */
module UInt32 {
  const MODULUS: int := 0x1_0000_0000

  /** The value an `int` takes once converted to `uint32`. Dafny's `%` is
      Euclidean, so a negative operand also lands in [0, 2^32), as in C++. */
  function Wrap(v: int): (r: nat)
    ensures r < MODULUS
    ensures 0 <= v < MODULUS ==> r == v
    ensures (v - r) % MODULUS == 0
  {
    v % MODULUS
  }

  /** Adding to an already wrapped accumulator is the same as wrapping the exact sum. */
  lemma WrapAdd(a: int, b: int)
    ensures Wrap(Wrap(a) + b) == Wrap(a + b)
  {
  }
}
