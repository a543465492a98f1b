/** Division with remainder. */
module Arithmetic {

  lemma {:induction false} MultiplesGrow(n: nat, a: nat, b: nat)
    requires a < b
    ensures a * n + n <= b * n
    decreases b
  {
    assert b * n == (b - 1) * n + n;
    if a < b - 1 {
      MultiplesGrow(n, a, b - 1);
    }
  }

  lemma DivModUnique(x: nat, n: nat, q: nat, r: nat)
    requires n > 0 && x == q * n + r && r < n
    ensures x / n == q && x % n == r
  {
    var q' := x / n;
    assert x == q' * n + x % n;
    if q' > q {
      MultiplesGrow(n, q, q');
    } else if q' < q {
      MultiplesGrow(n, q', q);
    }
  }
}
