/**
 * The transcendental functions the risk models use (`np.exp` inside `logistic`, `np.log10`,
 * `np.sqrt`) cannot be computed exactly over the reals. They are passed to the model as
 * function values, and each comes with the laws the real function obeys that the proofs use.
 */
module Numerics {

  /**
   * Laws of the logistic function 1 / (1 + exp(-z)): its values lie strictly between 0 and 1,
   * it is strictly increasing, it is 1/2 at 0, and its slope never exceeds 1/4.
   */
  ghost predicate LogisticLaws(logistic: real -> real) {
    && (forall z :: 0.0 < logistic(z) < 1.0)
    && (forall x, y :: x < y ==> logistic(x) < logistic(y))
    && logistic(0.0) == 0.5
    && (forall x, y :: x <= y ==> logistic(y) - logistic(x) <= (y - x) / 4.0)
  }

  /** Laws of log10 used here: it is strictly increasing on the positive reals. */
  ghost predicate Log10Laws(log10: real -> real) {
    forall x, y :: 0.0 < x < y ==> log10(x) < log10(y)
  }

  /** Laws of the square root: on non-negative reals it is the non-negative root. */
  ghost predicate SqrtLaws(sqrt: real -> real) {
    forall x :: 0.0 <= x ==> 0.0 <= sqrt(x) && sqrt(x) * sqrt(x) == x
  }

  /** The square root of a positive number is positive. */
  lemma SqrtPositive(sqrt: real -> real, x: real)
    requires SqrtLaws(sqrt)
    requires 0.0 < x
    ensures 0.0 < sqrt(x)
  {
    assert 0.0 <= sqrt(x) && sqrt(x) * sqrt(x) == x;
  }

  function Abs(x: real): (r: real)
    ensures 0.0 <= r && (r == x || r == -x)
  {
    if x < 0.0 then -x else x
  }

  /** A rational sigmoid, 1/2 + z / (4 (1 + |z|)); it shows that LogisticLaws can be met. */
  function RationalSigmoid(z: real): (p: real) {
    0.5 + z / (4.0 * (1.0 + Abs(z)))
  }

  lemma DivideByAtLeastOne(a: real, d: real)
    requires 0.0 <= a && 1.0 <= d
    ensures 0.0 <= a / d <= a
    ensures 0.0 < a ==> 0.0 < a / d
  {
    assert a / d * d == a;
  }

  lemma FractionDifference(u: real, a: real, v: real, b: real)
    requires 0.0 < a && 0.0 < b
    ensures u / a - v / b == (u * b - v * a) / (a * b)
  {
    assert u / a == (u * b) / (a * b);
    assert v / b == (v * a) / (a * b);
  }

  lemma RatioStepNonNegative(x: real, y: real)
    requires 0.0 <= x <= y
    ensures 0.0 <= y / (1.0 + y) - x / (1.0 + x) <= y - x
    ensures x < y ==> 0.0 < y / (1.0 + y) - x / (1.0 + x)
  {
    var d := (1.0 + y) * (1.0 + x);
    FractionDifference(y, 1.0 + y, x, 1.0 + x);
    assert y * (1.0 + x) - x * (1.0 + y) == y - x;
    assert d == 1.0 + x + y + x * y;
    assert 0.0 <= x * y;
    DivideByAtLeastOne(y - x, d);
  }

  lemma RatioStepNonPositive(x: real, y: real)
    requires x <= y <= 0.0
    ensures 0.0 <= y / (1.0 - y) - x / (1.0 - x) <= y - x
    ensures x < y ==> 0.0 < y / (1.0 - y) - x / (1.0 - x)
  {
    var d := (1.0 - y) * (1.0 - x);
    FractionDifference(y, 1.0 - y, x, 1.0 - x);
    assert y * (1.0 - x) - x * (1.0 - y) == y - x;
    assert d == 1.0 - x - y + x * y;
    assert 0.0 <= x * y;
    DivideByAtLeastOne(y - x, d);
  }

  lemma RatioStepAcrossZero(x: real, y: real)
    requires x < 0.0 < y
    ensures 0.0 < y / (1.0 + y) - x / (1.0 - x) <= y - x
  {
    DivideByAtLeastOne(y, 1.0 + y);
    DivideByAtLeastOne(-x, 1.0 - x);
    assert x / (1.0 - x) == -((-x) / (1.0 - x));
  }

  /** The slope of z / (1 + |z|) lies between 0 and 1. */
  lemma BoundedRatioStep(x: real, y: real)
    requires x <= y
    ensures 0.0 <= y / (1.0 + Abs(y)) - x / (1.0 + Abs(x)) <= y - x
    ensures x < y ==> x / (1.0 + Abs(x)) < y / (1.0 + Abs(y))
  {
    if 0.0 <= x {
      assert Abs(x) == x && Abs(y) == y;
      RatioStepNonNegative(x, y);
    } else if y <= 0.0 {
      assert Abs(x) == -x && Abs(y) == -y;
      RatioStepNonPositive(x, y);
    } else {
      assert Abs(x) == -x && Abs(y) == y;
      RatioStepAcrossZero(x, y);
    }
  }

  lemma RationalSigmoidStep(x: real, y: real)
    requires x <= y
    ensures 0.0 <= RationalSigmoid(y) - RationalSigmoid(x) <= (y - x) / 4.0
    ensures x < y ==> RationalSigmoid(x) < RationalSigmoid(y)
  {
    BoundedRatioStep(x, y);
    var gx, gy := x / (1.0 + Abs(x)), y / (1.0 + Abs(y));
    assert RationalSigmoid(x) == 0.5 + gx / 4.0;
    assert RationalSigmoid(y) == 0.5 + gy / 4.0;
  }

  lemma RationalSigmoidRange(z: real)
    ensures 0.0 < RationalSigmoid(z) < 1.0
  {
    var g := z / (1.0 + Abs(z));
    assert -1.0 < g < 1.0;
  }

  /** LogisticLaws is not contradictory: RationalSigmoid satisfies every law. */
  lemma LogisticLawsSatisfiable()
    ensures LogisticLaws(RationalSigmoid)
  {
    forall z ensures 0.0 < RationalSigmoid(z) < 1.0 {
      RationalSigmoidRange(z);
    }
    forall x, y | x < y ensures RationalSigmoid(x) < RationalSigmoid(y) {
      RationalSigmoidStep(x, y);
    }
    forall x, y | x <= y ensures RationalSigmoid(y) - RationalSigmoid(x) <= (y - x) / 4.0 {
      RationalSigmoidStep(x, y);
    }
  }
}
