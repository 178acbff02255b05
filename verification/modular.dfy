/** Arithmetic facts about Euclidean division shared by the cyclic slide indices. */
module Modular {

  /** Division by `n` is determined by any quotient and in-range remainder. */
  lemma DivModUnique(a: int, n: int, q: int, r: int)
    requires n > 0 && 0 <= r < n && a == q * n + r
    ensures a / n == q && a % n == r
  {
    var d := q - a / n;
    assert d * n == a % n - r;
  }
}
