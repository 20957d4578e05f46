/** The parts of the C math library that the simulation core calls.

    The model computes over exact reals, so `sqrtf`, `sinf` and `cosf` are not
    defined here: the caller supplies them as a `MathLib` value. The only fact
    the model assumes of them is the one every square root has (see `Valid`);
    sine and cosine are left entirely uninterpreted. */
module CMath {

  datatype MathLib = MathLib(sqrtf: real -> real, sinf: real -> real, cosf: real -> real)
  {
    /** `sqrtf` returns the non-negative square root of a non-negative argument. */
    ghost predicate Valid()
    {
      forall x: real :: RootOf(x, sqrtf(x))
    }
  }

  /** `r` is the non-negative square root of `x`, when `x` has one. */
  predicate RootOf(x: real, r: real)
  {
    0.0 <= x ==> 0.0 <= r && Sq(r) == x
  }

  /** Absolute value of a real (`abs`/`fabs`). */
  function Abs(x: real): (r: real)
    ensures 0.0 <= r && (r == x || r == -x)
  {
    if x < 0.0 then -x else x
  }

  /** `x * x`. Squares are kept behind this function so that the solver
      reasons about them through the lemmas below. */
  function Sq(x: real): real
  {
    x * x
  }

  /** `x * y`, for the same reason as `Sq`. */
  function Product(x: real, y: real): real
  {
    x * y
  }

  /** The product of two positive reals is positive. */
  lemma ProductPositive(x: real, y: real)
    requires 0.0 < x && 0.0 < y
    ensures 0.0 < Product(x, y)
  {
  }

  /** The product of two non-negative reals is non-negative. */
  lemma ProductNonNegative(x: real, y: real)
    requires 0.0 <= x && 0.0 <= y
    ensures 0.0 <= Product(x, y)
  {
    if 0.0 < x && 0.0 < y {
      ProductPositive(x, y);
    }
  }

  /** Multiplying by a non-negative real keeps the order of two reals. */
  lemma ProductMonotone(c: real, d: real, l: real)
    requires c <= d && 0.0 <= l
    ensures c * l <= d * l
  {
    ProductNonNegative(d - c, l);
  }

  /** The square of a positive real is positive. */
  lemma PositiveSquare(x: real)
    requires 0.0 < x
    ensures 0.0 < Sq(x)
  {
    ProductPositive(x, x);
  }

  /** A negated real has the same square. */
  lemma SquareNegate(x: real)
    ensures Sq(-x) == Sq(x)
  {
  }

  /** The square of a non-zero real is positive. */
  lemma SquarePositive(a: real)
    requires a != 0.0
    ensures 0.0 < Sq(a)
  {
    if 0.0 < a {
      PositiveSquare(a);
    } else {
      PositiveSquare(-a);
      SquareNegate(a);
    }
  }

  /** A square is never negative. */
  lemma SquareNonNegative(a: real)
    ensures 0.0 <= Sq(a)
  {
    if a != 0.0 {
      SquarePositive(a);
    }
  }

  /** Only zero squares to zero. */
  lemma SquareZero(a: real)
    requires Sq(a) == 0.0
    ensures a == 0.0
  {
    if a != 0.0 {
      SquarePositive(a);
    }
  }

  /** A sum of two squares is positive unless both terms are zero. */
  lemma SumOfSquaresPositive(a: real, b: real)
    requires a != 0.0 || b != 0.0
    ensures 0.0 < Sq(a) + Sq(b)
  {
    SquareNonNegative(a);
    SquareNonNegative(b);
    if a != 0.0 {
      SquarePositive(a);
    } else {
      SquarePositive(b);
    }
  }

  /** Two non-negative reals with the same square are equal. */
  lemma SquareRootUnique(p: real, q: real)
    requires 0.0 <= p && 0.0 <= q
    requires Sq(p) == Sq(q)
    ensures p == q
  {
    assert (p - q) * (p + q) == Sq(p) - Sq(q);
    if p + q == 0.0 {
      assert p == 0.0 && q == 0.0;
    }
  }
}
