/**
 * The numeric primitives the analyzer and the calculator take from their
 * libraries: the standard normal CDF and quantile function (scipy's
 * `norm.cdf`, `norm.ppf`) and the square root (`np.sqrt`). They are not
 * computed here; they are parameters, and `Sound` is all the model assumes
 * of them.
 */
module Numerics {

  datatype Primitives = Primitives(cdf: real -> real, ppf: real -> real, sqrt: real -> real)

  /** The properties of the primitives that the model relies on. */
  ghost predicate Sound(m: Primitives) {
    && (forall x :: 0.0 <= m.cdf(x) <= 1.0)
    && (forall x, y :: x <= y ==> m.cdf(x) <= m.cdf(y))
    && m.cdf(0.0) == 0.5
    && (forall p :: 0.5 <= p ==> 0.0 <= m.ppf(p))
    && (forall x :: 0.0 <= x ==> 0.0 <= m.sqrt(x) && m.sqrt(x) * m.sqrt(x) == x)
    // two consequences of the line above, stated because the solver does not
    // derive sign facts about squares reliably
    && (forall x :: 0.0 < x ==> 0.0 < m.sqrt(x))
    && m.sqrt(0.0) == 0.0
  }

  function Abs(x: real): (r: real)
    ensures r >= 0.0 && (r == x || r == -x)
  {
    if x < 0.0 then -x else x
  }

  /** Two-sided critical value `norm.ppf(1 - alpha/2)`. */
  function Critical(m: Primitives, alpha: real): (z: real)
    requires Sound(m)
    ensures alpha <= 1.0 ==> z >= 0.0
  {
    m.ppf(1.0 - alpha / 2.0)
  }

  /** Two-tailed p-value `2 * (1 - norm.cdf(|z|))`. */
  function TwoSidedP(m: Primitives, z: real): (p: real)
    requires Sound(m)
    ensures 0.0 <= p <= 1.0
    ensures z == 0.0 ==> p == 1.0
  {
    assert m.cdf(0.0) <= m.cdf(Abs(z));
    2.0 * (1.0 - m.cdf(Abs(z)))
  }

  /** cdf(x) >= 1/2 for non-negative x: the one-sided half of the power statement. */
  lemma CdfAtLeastHalf(m: Primitives, x: real)
    requires Sound(m) && x >= 0.0
    ensures m.cdf(x) >= 0.5
  {
    assert m.cdf(0.0) <= m.cdf(x);
  }

  // Small facts of real arithmetic, kept apart so the solver sees them one at a time.

  lemma NonNegativeProduct(a: real, b: real)
    requires a >= 0.0 && b >= 0.0
    ensures a * b >= 0.0
  {
  }

  lemma PositiveProduct(a: real, b: real)
    requires a > 0.0 && b > 0.0
    ensures a * b > 0.0
  {
  }

  lemma PositiveQuotient(a: real, b: real)
    requires a > 0.0 && b > 0.0
    ensures a / b > 0.0
  {
  }

  lemma SquareNonNegative(a: real)
    ensures a * a >= 0.0
  {
    if a < 0.0 {
      assert a * a == (-a) * (-a);
    }
  }

  lemma NonNegativeQuotient(a: real, b: real)
    requires a >= 0.0 && b > 0.0
    ensures a / b >= 0.0
  {
    if a > 0.0 {
      PositiveQuotient(a, b);
    }
  }
}
