/** The parts of JavaScript's `Math` that the drawing helpers rely on.
    Floating point is modelled by exact reals; the transcendental functions
    are not computed here but handed in as values, together with the laws
    the proofs need of them. */
module JsMath {

  /** `Math.PI`, as the decimal literal of the double it denotes. */
  const Pi: real := 3.141592653589793

  /** One result of `Math.random()`: a number in [0, 1). */
  type UnitDraw = u: real | 0.0 <= u < 1.0

  /** The successive results of `Math.random()` during one call:
      `noise(k)` is the k-th draw the call makes, counting from 0. */
  type Noise = nat -> UnitDraw

  /** `Math.cos`, `Math.sin` and `Math.sqrt`, left uninterpreted. */
  datatype MathFns = MathFns(cos: real -> real, sin: real -> real, sqrt: real -> real)

  /** The laws of the real functions that the proofs use. */
  ghost predicate Sound(m: MathFns)
  {
    (forall t :: m.cos(t) * m.cos(t) + m.sin(t) * m.sin(t) == 1.0) &&
    (forall x :: 0.0 <= x ==> 0.0 <= m.sqrt(x) && m.sqrt(x) * m.sqrt(x) == x)
  }

  /** How a JavaScript statement ends: normally with a value, or by throwing
      the TypeError raised when a property of `undefined` is read. */
  datatype Completion<T> = Normal(value: T) | TypeError

  /** An optional argument or property: absent (`undefined`) or present. */
  datatype Option<T> = None | Some(value: T)

  /** `Math.min` on integers. */
  function Min(a: int, b: int): (r: int)
    ensures r <= a && r <= b && (r == a || r == b)
  {
    if a <= b then a else b
  }

  /** Sign laws of real products, which the solver does not find unaided
      inside larger proofs. */
  lemma MulPositive(a: real, b: real)
    requires 0.0 < a && 0.0 < b
    ensures 0.0 < a * b
  {
  }

  lemma MulNonNegative(a: real, b: real)
    requires 0.0 <= a && 0.0 <= b
    ensures 0.0 <= a * b
  {
  }

  lemma NonZeroProduct(a: real, b: real)
    requires a != 0.0 && b != 0.0
    ensures a * b != 0.0
  {
  }

  lemma SquareMonotone(a: real, b: real)
    requires 0.0 <= a <= b
    ensures a * a <= b * b
  {
    MulNonNegative(b - a, b + a);
  }

  lemma PositiveFactor(a: real, b: real)
    requires 0.0 < a * b && 0.0 < b
    ensures 0.0 < a
  {
  }
}
