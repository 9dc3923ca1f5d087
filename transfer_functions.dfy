/** Activation functions of the network and their derivatives, selected by a
    closed tag. Math.Exp and Math.Sqrt are not defined over the reals here: they
    are uninterpreted constants whose types record the only facts the proofs
    use (the exponential is positive; the square root maps [1, oo) into [1, oo)). */
module TransferFunctions {

  /** Reals strictly above zero: the range of the exponential. */
  type Positive = r: real | 0.0 < r witness 1.0

  /** Functions that send every argument of at least 1 to a value of at least 1,
      as the square root does. */
  type RootLike = f: real -> real | forall y :: 1.0 <= y ==> 1.0 <= f(y)
    witness (y: real) => if 1.0 <= y then y else 1.0

  /** Math.Exp, known only to be positive. */
  const Exp: real -> Positive

  /** Math.Sqrt, known only to keep [1, oo) inside [1, oo). */
  const Sqrt: RootLike

  /** The activation of a layer. None marks the synthetic input layer. */
  datatype TransferFunction = None | Sigmoid | Linear | Gaussian | RationalSigmoid

  /** The activation value of `tf` at the pre-activation `x`: zero for the
      input-layer tag, x itself for Linear, inside (0, 1) for Sigmoid,
      positive for Gaussian, and of the sign of x for RationalSigmoid. */
  function Evaluate(tf: TransferFunction, x: real): (y: real)
    ensures tf == None ==> y == 0.0
    ensures tf == Linear ==> y == x
    ensures tf == Sigmoid ==> 0.0 < y < 1.0
    ensures tf == Gaussian ==> 0.0 < y
    ensures tf == RationalSigmoid ==> (y < 0.0 <==> x < 0.0) && (y == 0.0 <==> x == 0.0)
  {
    match tf
    case Sigmoid => SigmoidValue(x)
    case Linear => LinearValue(x)
    case Gaussian => GaussianValue(x)
    case RationalSigmoid => RationalSigmoidValue(x)
    case None => 0.0
  }

  /** The derivative of `tf`, always taken at the raw pre-activation `x`:
      zero for the input-layer tag, 1 for Linear, inside (0, 1/4] for Sigmoid
      and (0, 1/2] for RationalSigmoid, and zero for Gaussian only at x = 0. */
  function EvaluateDerivative(tf: TransferFunction, x: real): (d: real)
    ensures tf == None ==> d == 0.0
    ensures tf == Linear ==> d == 1.0
    ensures tf == Sigmoid ==> 0.0 < d <= 0.25
    ensures tf == RationalSigmoid ==> 0.0 < d <= 0.5
    ensures tf == Gaussian ==> (d == 0.0 <==> x == 0.0)
  {
    match tf
    case Sigmoid => SigmoidDerivative(x)
    case Linear => LinearDerivative(x)
    case Gaussian => GaussianDerivative(x)
    case RationalSigmoid => RationalSigmoidDerivative(x)
    case None => 0.0
  }

  /** The logistic function 1 / (1 + e^-x); it lies strictly between 0 and 1. */
  function SigmoidValue(x: real): (s: real)
    ensures 0.0 < s < 1.0
  {
    1.0 / (1.0 + Exp(-x))
  }

  /** s * (1 - s) with s recomputed from x; it lies in (0, 1/4]. */
  function SigmoidDerivative(x: real): (d: real)
    ensures 0.0 < d <= 0.25
  {
    var s := SigmoidValue(x);
    assert 0.25 - s * (1.0 - s) == (s - 0.5) * (s - 0.5);
    s * (1.0 - s)
  }

  /** The identity activation: it keeps the sign of x and is zero only at 0. */
  function LinearValue(x: real): (y: real)
    ensures y < 0.0 <==> x < 0.0
    ensures y == 0.0 <==> x == 0.0
  {
    x
  }

  /** The slope of the identity: positive and at most 1, like every
      monotone activation's here (it is the constant 1). */
  function LinearDerivative(x: real): (d: real)
    ensures 0.0 < d <= 1.0
  {
    1.0
  }

  /** e^(-x^2); positive everywhere. */
  function GaussianValue(x: real): (g: real)
    ensures 0.0 < g
  {
    Exp(-(x * x))
  }

  /** -2x * e^(-x^2); its sign is the opposite of the sign of x. */
  function GaussianDerivative(x: real): (d: real)
    ensures d < 0.0 <==> 0.0 < x
    ensures d == 0.0 <==> x == 0.0
  {
    var g := GaussianValue(x);
    assert 0.0 < x ==> -2.0 * x * g < 0.0;
    assert x < 0.0 ==> -2.0 * x * g > 0.0;
    -2.0 * x * g
  }

  /** x / (1 + sqrt(1 + x^2)): it has the sign of x and at most half its size. */
  function RationalSigmoidValue(x: real): (r: real)
    ensures r < 0.0 <==> x < 0.0
    ensures r == 0.0 <==> x == 0.0
    ensures -0.5 * x <= r <= 0.5 * x || 0.5 * x <= r <= -0.5 * x
  {
    var v := Sqrt(1.0 + x * x);
    assert 1.0 <= v;
    var r := x / (1.0 + v);
    assert r * (1.0 + v) == x;
    SignBoundOfQuotient(x, 1.0 + v);
    r
  }

  /** 1 / (v (1 + v)) with v = sqrt(1 + x^2) >= 1; it lies in (0, 1/2]. */
  function RationalSigmoidDerivative(x: real): (d: real)
    ensures 0.0 < d <= 0.5
  {
    var v := Sqrt(1.0 + x * x);
    assert 1.0 <= v;
    assert 2.0 <= v * (1.0 + v) by {
      assert v * (1.0 + v) == v + v * v;
      assert 1.0 <= v * v;
    }
    1.0 / (v * (1.0 + v))
  }

  /** Dividing by a denominator of at least 2 keeps the sign and at most halves the size. */
  lemma SignBoundOfQuotient(x: real, q: real)
    requires 2.0 <= q
    ensures x / q < 0.0 <==> x < 0.0
    ensures x / q == 0.0 <==> x == 0.0
    ensures -0.5 * x <= x / q <= 0.5 * x || 0.5 * x <= x / q <= -0.5 * x
  {
    var r := x / q;
    assert r * q == x;
    if 0.0 <= x {
      assert 0.0 <= r;
      assert r * 2.0 <= r * q;
    } else {
      assert r < 0.0;
      assert r * q <= r * 2.0;
    }
  }

  /** The input-layer tag evaluates, and differentiates, to zero everywhere. */
  lemma NoneIsZero(x: real)
    ensures Evaluate(None, x) == 0.0 && EvaluateDerivative(None, x) == 0.0
  {
  }

  /** The linear activation is the identity and its derivative the constant 1. */
  lemma LinearIsIdentity(x: real)
    ensures Evaluate(Linear, x) == x && EvaluateDerivative(Linear, x) == 1.0
  {
  }

  /** The sigmoid derivative is s (1 - s) for the sigmoid value s at the same raw argument. */
  lemma SigmoidDerivativeFromValue(x: real)
    ensures EvaluateDerivative(Sigmoid, x) == Evaluate(Sigmoid, x) * (1.0 - Evaluate(Sigmoid, x))
  {
  }

  /** The Gaussian derivative is -2x times the Gaussian value at the same raw argument. */
  lemma GaussianDerivativeFromValue(x: real)
    ensures EvaluateDerivative(Gaussian, x) == -2.0 * x * Evaluate(Gaussian, x)
  {
  }

  /** The derivative vanishes exactly for the input-layer tag and for the
      Gaussian at its peak; every other derivative is nonzero. */
  lemma DerivativeZeroIff(tf: TransferFunction, x: real)
    ensures EvaluateDerivative(tf, x) == 0.0 <==> tf == None || (tf == Gaussian && x == 0.0)
  {
  }

  /** The monotone activations (sigmoid, linear, rational sigmoid) have a
      positive derivative, bounded by 1. */
  lemma MonotoneDerivativeBounds(tf: TransferFunction, x: real)
    requires tf == Sigmoid || tf == Linear || tf == RationalSigmoid
    ensures 0.0 < EvaluateDerivative(tf, x) <= 1.0
  {
  }
}
