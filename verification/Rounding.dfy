/** Rounding to the nearest integer, ties to even, as the decimal printing of a big.Float does. */
module Rounding {

  function RoundHalfEven(x: real): (n: int)
    ensures x - 0.5 <= n as real <= x + 0.5
    ensures n as real == x - 0.5 || n as real == x + 0.5 ==> n % 2 == 0
  {
    var below := x.Floor;
    var rest := x - below as real;
    if rest < 0.5 then below
    else if rest > 0.5 then below + 1
    else if below % 2 == 0 then below
    else below + 1
  }

  /** A product under a name of its own, so that the solver does not multiply it out. */
  function Times(a: real, b: real): real { a * b }

  lemma TimesDistributes(a: real, b: real, c: real)
    ensures Times(a, b + c) == Times(a, b) + Times(a, c)
  {}

  lemma TimesQuotient(a: real, t: real)
    requires a > 0.0
    ensures Times(a, t / a) == t
  {}

  lemma TimesHalf(a: real)
    ensures Times(a, 0.5) == a / 2.0
  {}

  lemma TimesMonotone(p: real, a: real, b: real)
    requires p >= 0.0 && a <= b
    ensures Times(p, a) <= Times(p, b)
  {
    TimesDistributes(p, a, b - a);
    assert a + (b - a) == b;
    assert Times(p, b - a) >= 0.0;
  }

  lemma {:induction false} ProductAsReal(p: nat, n: int)
    ensures (p * n) as real == Times(p as real, n as real)
    decreases p
  {
    if p > 0 {
      ProductAsReal(p - 1, n);
      assert p * n == (p - 1) * n + n;
      assert Times(p as real, n as real) == Times((p - 1) as real, n as real) + n as real;
    }
  }

  lemma TimesNearby(p: real, q: real, n: real)
    requires p > 0.0 && q <= n + 0.5 && n <= q + 0.5
    ensures Times(p, q) - p / 2.0 <= Times(p, n) <= Times(p, q) + p / 2.0
  {
    TimesMonotone(p, q, n + 0.5);
    TimesDistributes(p, n, 0.5);
    TimesMonotone(p, n, q + 0.5);
    TimesDistributes(p, q, 0.5);
    TimesHalf(p);
  }

  /** Dividing a total by a price and rounding misses the total by at most half a price. */
  lemma RoundedQuotient(total: real, price: nat)
    requires price > 0
    ensures var n := RoundHalfEven(total / (price as real));
            total - price as real / 2.0 <= (price * n) as real <= total + price as real / 2.0
  {
    var q := total / (price as real);
    var n := RoundHalfEven(q);
    ProductAsReal(price, n);
    TimesQuotient(price as real, total);
    TimesNearby(price as real, q, n as real);
  }
}
