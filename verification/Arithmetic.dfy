/** Facts about natural numbers that several modules need. */
module Arithmetic {

  predicate IsPowerOfTwo(n: nat) {
    n == 1 || (n > 1 && n % 2 == 0 && IsPowerOfTwo(n / 2))
  }

  lemma DoubleIsPowerOfTwo(n: nat)
    requires IsPowerOfTwo(n)
    ensures IsPowerOfTwo(2 * n)
  {
    assert (2 * n) / 2 == n && (2 * n) % 2 == 0;
  }

  lemma Euclid(n: nat, u: nat)
    requires u >= 1
    ensures n == (n / u) * u + n % u && 0 <= n % u < u
  {}

  lemma MulMonotone(a: nat, b: nat, c: nat)
    requires a <= b
    ensures a * c <= b * c
  {}

  lemma Distribute(q: nat, u: nat)
    ensures (q + 1) * u == q * u + u
  {}
}
