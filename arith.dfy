/** Small facts about multiplication and division that the solver does not find on its own. */
module Arith {

  /**
   * a * b as repeated addition. A predicate that only carries a product
   * along states it with Times, so that the solver meets no nonlinear term
   * until TimesIsMul is called.
   */
  function Times(a: nat, b: int): int
  {
    if a == 0 then 0 else Times(a - 1, b) + b
  }

  lemma {:induction false} TimesIsMul(a: nat, b: int)
    ensures Times(a, b) == a * b
  {
    if a > 0 {
      TimesIsMul(a - 1, b);
      MulDistributes(b, a - 1, 1);
    }
  }

  lemma MulNonNegative(a: int, b: int)
    requires 0 <= a && 0 <= b
    ensures 0 <= a * b
  {
  }

  lemma MulDistributes(a: int, b: int, c: int)
    ensures a * (b + c) == a * b + a * c
  {
  }

  lemma MulMonotone(x: int, y: int, m: int)
    requires 0 <= m && x <= y
    ensures x * m <= y * m
  {
    MulNonNegative(y - x, m);
    MulDistributes(m, x, y - x);
  }

  /** Floor division brackets its dividend: q*m <= n < (q+1)*m. */
  lemma DivBrackets(n: int, m: int)
    requires m > 0
    ensures (n / m) * m <= n < (n / m + 1) * m
  {
    MulDistributes(m, n / m, 1);
  }

  /** A multiple of m divided by m gives back the factor. */
  lemma DivOfMultiple(a: int, m: int)
    requires m > 0
    ensures (a * m) / m == a
  {
    var q := (a * m) / m;
    DivBrackets(a * m, m);
    if q < a {
      MulMonotone(q + 1, a, m);
    } else if q > a {
      MulMonotone(a + 1, q, m);
      MulDistributes(m, a, 1);
    }
  }
}
