/** Multiplication and remainder facts on natural numbers. */
module Arithmetic {

  /** The numbers 0, 1, ..., n - 1. */
  function UpTo(n: nat): (numbers: seq<int>)
    ensures |numbers| == n
  {
    seq(n, i => i)
  }

  lemma Scaled(a: nat, b: nat, factor: nat)
    ensures a <= b ==> a * factor <= b * factor
  {
  }

  lemma QuotientUnique(x: nat, m: nat, q: nat, r: nat)
    requires m > 0 && r < m && x == q * m + r
    ensures x / m == q && x % m == r
  {
    var q' := x / m;
    assert x == q' * m + x % m;
    Scaled(q' + 1, q, m);
    Scaled(q + 1, q', m);
  }

  lemma Exact(x: nat, m: nat)
    requires m > 0 && x % m == 0
    ensures x == x / m * m
  {
  }

  lemma ModStep(x: nat, m: nat)
    requires m > 0
    ensures (x + m) % m == x % m
  {
    QuotientUnique(x + m, m, x / m + 1, x % m);
  }

  lemma {:induction false} ModShift(x: nat, q: nat, m: nat)
    requires m > 0
    ensures (x + q * m) % m == x % m
    decreases q
  {
    if q > 0 {
      ModShift(x, q - 1, m);
      assert x + q * m == (x + (q - 1) * m) + m;
      ModStep(x + (q - 1) * m, m);
    }
  }
}
