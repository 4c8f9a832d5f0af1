/**
 * The activation function family of a network (sigmoid, tanh, identity) and
 * the derivative the trainer uses for each.
 *
 * The floating-point `exp`, `tanh` and `cosh` are not modelled: they are the
 * fields of a `Libm` value passed in by the caller. The only facts assumed of
 * them are that `exp` and `cosh` are positive, which is what makes the
 * divisions below defined.
 */
module Activation {

  type PositiveReal = r: real | r > 0.0 witness 1.0

  /** The transcendental functions of the floating-point library. */
  datatype Libm = Libm(exp: real -> PositiveReal, tanh: real -> real, cosh: real -> PositiveReal)

  datatype ActivationFunction = Sigmoid | Tanh | Identity

  /** The activation of pre-activation value `x` in a layer with coefficient `coeff`. */
  function Activate(af: ActivationFunction, m: Libm, x: real, coeff: real): real {
    match af
    case Sigmoid => 1.0 / (1.0 + m.exp(-x * coeff))
    case Tanh => m.tanh(x * coeff)
    case Identity => x * coeff
  }

  /**
   * The slope the trainer uses for back-propagation. For `Tanh` this is
   * `coeff / cosh(x * coeff)`, exactly as the trainer computes it (the
   * derivative of `tanh(coeff x)` would divide by `cosh` squared).
   */
  function Derivative(af: ActivationFunction, m: Libm, x: real, coeff: real): real {
    match af
    case Sigmoid => coeff * Activate(af, m, x, coeff) * (1.0 - Activate(af, m, x, coeff))
    case Tanh => coeff / m.cosh(x * coeff)
    case Identity => coeff
  }

  /** A sigmoid activation is strictly between 0 and 1. */
  lemma SigmoidBounds(m: Libm, x: real, coeff: real)
    ensures 0.0 < Activate(Sigmoid, m, x, coeff) < 1.0
  {
    var e := m.exp(-x * coeff);
    ReciprocalBelowOne(1.0 + e);
  }

  /**
   * For sigmoid and tanh the slope has the sign of the coefficient, so with a
   * positive coefficient back-propagation never flips the sign of an error.
   */
  lemma DerivativeSign(af: ActivationFunction, m: Libm, x: real, coeff: real)
    requires af != Identity
    ensures coeff > 0.0 ==> Derivative(af, m, x, coeff) > 0.0
    ensures coeff < 0.0 ==> Derivative(af, m, x, coeff) < 0.0
    ensures coeff == 0.0 ==> Derivative(af, m, x, coeff) == 0.0
  {
    if af == Sigmoid {
      SigmoidBounds(m, x, coeff);
      var f := Activate(af, m, x, coeff);
      ScaledBySign(coeff, f, 1.0 - f);
    } else {
      QuotientSign(coeff, m.cosh(x * coeff));
    }
  }

  /** For the identity family the slope is exact: the activation is linear in `x` with that slope. */
  lemma IdentitySlopeExact(m: Libm, x: real, h: real, coeff: real)
    ensures Activate(Identity, m, x + h, coeff) - Activate(Identity, m, x, coeff) == Derivative(Identity, m, x, coeff) * h
  {
    Distributes(x, h, coeff);
  }

  // Arithmetic facts about reals, kept apart from the uninterpreted functions.

  lemma ReciprocalBelowOne(d: real)
    requires d > 1.0
    ensures 0.0 < 1.0 / d < 1.0
  {
  }

  lemma ScaledBySign(c: real, a: real, b: real)
    requires a > 0.0 && b > 0.0
    ensures c > 0.0 ==> c * a * b > 0.0
    ensures c < 0.0 ==> c * a * b < 0.0
    ensures c == 0.0 ==> c * a * b == 0.0
  {
    assert a * b > 0.0;
    assert c * a * b == c * (a * b);
  }

  lemma QuotientSign(c: real, d: real)
    requires d > 0.0
    ensures c > 0.0 ==> c / d > 0.0
    ensures c < 0.0 ==> c / d < 0.0
    ensures c == 0.0 ==> c / d == 0.0
  {
  }

  lemma Distributes(x: real, h: real, c: real)
    ensures (x + h) * c - x * c == c * h
  {
  }
}
