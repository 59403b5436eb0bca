/** Decimal rounding on scaled integers. */
module Rounding {

  /** n / d to the nearest integer, halves up. */
  function HalfUp(n: nat, d: int): (r: nat)
    requires d > 0
    ensures -d < 2 * (d * r - n) <= d
    ensures n % d == 0 ==> d * r == n
  {
    var q, rest := n / d, n % d;
    assert n == d * q + rest;
    if 2 * rest >= d then assert d * (q + 1) == d * q + d; q + 1 else q
  }

  /** Price units (0.00000001) in one money unit (0.0001). */
  const QUANTUM := 10000

  /** Price units to money units, halves away from zero. */
  function ToMoney(x: int): (r: int)
    ensures -QUANTUM <= 2 * (QUANTUM * r - x) <= QUANTUM
    ensures x % QUANTUM == 0 ==> QUANTUM * r == x
    ensures x >= 0 ==> r >= 0
  {
    if x >= 0 then HalfUp(x, QUANTUM) else -(HalfUp(-x, QUANTUM) as int)
  }

  lemma AtLeastOnce(d: int, k: int)
    requires d > 0
    ensures k >= 1 ==> d * k >= d
    ensures k <= -1 ==> d * k <= -d
  {
    if k >= 1 {
      assert d * (k - 1) >= 0;
    } else {
      assert d * -k >= 0;
      assert k <= -1 ==> d * (-k - 1) >= 0;
    }
  }

  /** Quotient and remainder are determined by what they satisfy. */
  lemma DivModUnique(n: int, d: int, q: int, rest: int)
    requires d > 0 && n == d * q + rest && 0 <= rest < d
    ensures n / d == q && n % d == rest
  {
    var p := n / d;
    assert n == d * p + n % d;
    assert d * (q - p) == n % d - rest;
    AtLeastOnce(d, q - p);
  }
}
