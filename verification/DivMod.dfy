/** Two facts about division that the solver needs spelled out. */
module DivMod {

  /** Between -m and m the only multiple of m is zero. */
  lemma MultipleGap(m: int, k: int)
    requires m > 0
    ensures -m < m * k < m ==> k == 0
  {
    if k >= 1 {
      assert m * k >= m * 1;
    } else if k <= -1 {
      assert m * k <= m * -1;
    }
  }

  /** Quotient and remainder of a number given as a multiple plus a remainder. */
  lemma DivModUnique(n: int, m: nat, q: int, r: nat)
    requires m > 0 && r < m && n == m * q + r
    ensures n / m == q && n % m == r
  {
    var k := n / m - q;
    assert n == m * (n / m) + n % m;
    assert m * (n / m) - m * q == m * k;
    MultipleGap(m, k);
  }
}
