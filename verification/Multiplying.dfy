/** Products with a common factor, and quotients by it. */
module Multiplying {

  lemma Monotone(a: nat, b: nat, k: nat)
    requires a <= b
    ensures a * k <= b * k && k * a <= k * b
  {
  }

  lemma Below(n: nat, d: nat, q: nat, r: nat)
    requires n == d * q + r && r < d
    ensures n / d == q && n % d == r
  {
    if n / d < q {
      Monotone(n / d + 1, q, d);
      assert false;
    } else if n / d > q {
      Monotone(q + 1, n / d, d);
      assert false;
    }
  }
}
