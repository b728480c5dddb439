/** Division facts the number-heavy modules share. */
module Arith {

  lemma QuotientIs(b: nat, k: nat, q: nat, r: nat)
    requires k > 0 && b == q * k + r && r < k
    ensures b / k == q && b % k == r
  {
    var d := b / k - q;
    assert d >= 1 ==> d * k >= k;
    assert d <= -1 ==> d * k + k <= 0;
    assert d * k == b / k * k - q * k;
  }

  lemma DivMod(x: nat, k: nat)
    requires k > 0
    ensures x == x / k * k + x % k && x % k < k
  {}

  lemma DivideTwice(x: nat, k: nat, m: nat)
    requires k > 0 && m > 0
    ensures m * k > 0 && x / k / m == x / (m * k)
  {
    var q, r := x / k, x % k;
    var q2, t := q / m, q % m;
    DivMod(x, k);
    DivMod(q, m);
    Recompose(q2, m, t, k, r);
    QuotientIs(x, m * k, q2, t * k + r);
  }

  lemma Recompose(q: nat, m: nat, t: nat, k: nat, r: nat)
    requires t < m && r < k
    ensures (q * m + t) * k + r == q * (m * k) + (t * k + r) && t * k + r < m * k
    ensures m * k > 0
  {
    Regroup(q, m, t, k);
    assert (t + 1) * k <= m * k;
  }

  lemma Regroup(q: nat, m: nat, t: nat, k: nat)
    ensures (q * m + t) * k == q * (m * k) + t * k
  {
    assert (q * m + t) * k == q * m * k + t * k;
  }

  lemma DivisionKeepsOrder(a: nat, b: nat, k: nat)
    requires a <= b && k > 0
    ensures a / k <= b / k
  {
    var q, p := a / k, b / k;
    assert p < q ==> (p + 1) * k <= q * k;
    assert a == q * k + a % k && b == p * k + b % k;
  }
}
