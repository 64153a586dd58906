/** Facts about multiplication and division that the other modules share. */
module Arithmetic {
  /** The number of values of a 32-bit word. */
  const TWO32: nat := 0x1_0000_0000

  lemma {:induction false} MulAtLeast(k: nat, d: nat)
    requires k >= 1
    ensures k * d >= d
  {
    if k > 1 {
      MulAtLeast(k - 1, d);
      assert k * d == (k - 1) * d + d;
    }
  }

  /** Quotient and remainder are the only pair with their property. */
  lemma DivModUnique(n: nat, d: nat, q: nat, r: nat)
    requires n == q * d + r && r < d
    ensures n / d == q && n % d == r
  {
    var p, s := n / d, n % d;
    assert n == p * d + s;
    if q > p {
      assert (q - p) * d == q * d - p * d;
      MulAtLeast(q - p, d);
      assert false;
    } else if q < p {
      assert (p - q) * d == p * d - q * d;
      MulAtLeast(p - q, d);
      assert false;
    }
  }

  lemma ModStep(n: nat, d: nat)
    requires 0 < d <= n
    ensures n % d == (n - d) % d && n / d == (n - d) / d + 1
  {
    var q, r := (n - d) / d, (n - d) % d;
    assert (q + 1) * d == q * d + d;
    DivModUnique(n, d, q + 1, r);
  }
}
