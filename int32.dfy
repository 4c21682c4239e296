/** C#'s 32-bit `int` under the default unchecked context: addition and
    subtraction wrap around modulo 2^32, and `/` truncates toward zero. */
module CSharpInt {

  const Int32Min: int := -0x8000_0000
  const Int32Max: int := 0x7FFF_FFFF
  /** 2^32, the modulus of two's-complement wrap-around. */
  const Modulus: int := 0x1_0000_0000

  predicate IsInt32(n: int) { Int32Min <= n <= Int32Max }

  type Int32 = n: int | IsInt32(n)

  /** The value an unchecked C# `int` expression yields when the exact result is `n`. */
  function Wrap32(n: int): (r: Int32)
    ensures (n - r) % Modulus == 0
    ensures IsInt32(n) ==> r == n
  {
    (n - Int32Min) % Modulus + Int32Min
  }

  /** Wrapping an intermediate result does not change the final one. */
  lemma WrapAdd(a: int, b: int)
    ensures Wrap32(Wrap32(a) + b) == Wrap32(a + b)
  {
  }

  /** Subtracting `k` and adding it back, each step wrapping, restores any
      `int`: the identity behind every corner/centre conversion in Pong. */
  lemma ShiftRoundTrip(v: Int32, k: int)
    ensures Wrap32(Wrap32(v - k) + k) == v
  {
    WrapAdd(v - k, k);
  }

  /** C#'s `n / 2` on an `int`: the quotient truncated toward zero (Dafny's
      own `/` rounds toward negative infinity for negative `n`). */
  function CsHalf(n: Int32): (r: Int32)
    ensures 0 <= n ==> 0 <= n - 2 * r <= 1
    ensures n < 0 ==> -1 <= n - 2 * r <= 0
  {
    var q: int := if 0 <= n then n / 2 else -((-(n as int)) / 2);
    assert IsInt32(n) && n - 1 <= 2 * q <= n + 1;
    q
  }
}
