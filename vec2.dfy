/** The two-dimensional vector value type `Vec2` of include/vec2.hpp. */
module Vectors {
  import opened CMath

  datatype Vec2 = Vec2(x: real, y: real)
  {
    /** `a + b` */
    function Add(o: Vec2): Vec2
    {
      Vec2(x + o.x, y + o.y)
    }

    /** `a - b` */
    function Sub(o: Vec2): Vec2
    {
      Vec2(x - o.x, y - o.y)
    }

    /** `v * f` */
    function Mul(f: real): Vec2
    {
      Vec2(x * f, y * f)
    }

    /** `v / f`; the quotient by zero is an IEEE infinity or NaN, which the model does not have. */
    function Div(f: real): Vec2
      requires f != 0.0
    {
      Vec2(x / f, y / f)
    }

    /** `v += o`: updates `x`, then `y`, and leaves the receiver equal to `v + o`. */
    method AddAssign(o: Vec2) returns (v: Vec2)
      ensures v == Add(o)
      ensures v.Sub(o) == this
    {
      v := this;
      v := v.(x := v.x + o.x);
      v := v.(y := v.y + o.y);
    }

    /** `v -= o`: updates `x`, then `y`, and leaves the receiver equal to `v - o`. */
    method SubAssign(o: Vec2) returns (v: Vec2)
      ensures v == Sub(o)
      ensures v.Add(o) == this
    {
      v := this;
      v := v.(x := v.x - o.x);
      v := v.(y := v.y - o.y);
    }

    /** `v *= f`: updates `x`, then `y`, and leaves the receiver equal to `v * f`. */
    method MulAssign(f: real) returns (v: Vec2)
      ensures v == Mul(f)
      ensures v == Scale(f, this)
    {
      v := this;
      v := v.(x := v.x * f);
      v := v.(y := v.y * f);
    }

    /** `Vec2::dot(a, b)` */
    static function Dot(a: Vec2, b: Vec2): real
    {
      a.x * b.x + a.y * b.y
    }

    /** `length()`: the Euclidean norm, via the supplied `sqrtf`. */
    function Length(m: MathLib): (r: real)
      requires m.Valid()
      ensures 0.0 <= r && Sq(r) == Dot(this, this)
    {
      m.sqrtf(Dot(this, this))
    }
  }

  /** The vector `{0, 0}` (`{}` for a `Vec2`). */
  const Zero := Vec2(0.0, 0.0)

  /** The free `float * Vec2`, defined as `v * f`. */
  function Scale(f: real, v: Vec2): Vec2
  {
    v.Mul(f)
  }

  /** `+` and `-` are componentwise, and subtracting `b` undoes adding `b`. */
  lemma AddSubInverse(a: Vec2, b: Vec2)
    ensures a.Add(b) == Vec2(a.x + b.x, a.y + b.y)
    ensures a.Sub(b) == Vec2(a.x - b.x, a.y - b.y)
    ensures a.Add(b).Sub(b) == a
  {
  }

  /** `f * v` scales both components and equals `v * f`. */
  lemma ScaleCommutes(f: real, v: Vec2)
    ensures Scale(f, v) == Vec2(f * v.x, f * v.y)
    ensures Scale(f, v) == v.Mul(f)
  {
  }

  /** Dividing by `f` is multiplying by `1/f`. */
  lemma DivIsMulByReciprocal(v: Vec2, f: real)
    requires f != 0.0
    ensures v.Div(f) == v.Mul(1.0 / f)
  {
  }

  /** A difference is zero exactly when its operands are equal. */
  lemma SubZero(b: Vec2, a: Vec2)
    ensures b.Sub(a) == Zero <==> a == b
  {
  }

  /** Subtracting what was added to `a` gives the addend back. */
  lemma AddThenSub(a: Vec2, b: Vec2)
    ensures a.Add(b).Sub(a) == b
  {
  }

  /** `{0,0}` is the identity of `+`. */
  lemma AddZero(v: Vec2)
    ensures v.Add(Zero) == v
  {
  }

  /** Scaling `{0,0}` gives `{0,0}`. */
  lemma MulZero(f: real)
    ensures Zero.Mul(f) == Zero
  {
  }

  /** Dividing `{0,0}` gives `{0,0}`. */
  lemma DivZero(f: real)
    requires f != 0.0
    ensures Zero.Div(f) == Zero
  {
  }

  /** `dot` is symmetric. */
  lemma DotSymmetric(a: Vec2, b: Vec2)
    ensures Vec2.Dot(a, b) == Vec2.Dot(b, a)
  {
  }

  /** `dot(v, v)` is the sum of the squared components. */
  lemma DotSelf(v: Vec2)
    ensures Vec2.Dot(v, v) == Sq(v.x) + Sq(v.y)
  {
  }

  /** `dot(v, v)` is positive for every non-zero vector. */
  lemma DotSelfPositive(v: Vec2)
    requires v != Zero
    ensures 0.0 < Vec2.Dot(v, v)
  {
    DotSelf(v);
    SumOfSquaresPositive(v.x, v.y);
  }

  /** The length is zero exactly for the zero vector. */
  lemma LengthZero(v: Vec2, m: MathLib)
    requires m.Valid()
    ensures v.Length(m) == 0.0 <==> v == Zero
  {
    if v != Zero {
      DotSelfPositive(v);
    } else {
      SquareZero(v.Length(m));
    }
  }

  /** Scaling a vector by `c` scales its length by `|c|`. */
  lemma LengthScale(v: Vec2, c: real, m: MathLib)
    requires m.Valid()
    ensures v.Mul(c).Length(m) == Abs(c) * v.Length(m)
  {
    var l := v.Length(m);
    var lc := v.Mul(c).Length(m);
    assert Sq(lc) == Vec2.Dot(v.Mul(c), v.Mul(c));
    ScaledDot(v.x, v.y, c);
    assert Sq(lc) == Sq(c) * Sq(l);
    SquareOfScaledAbs(c, l);
    SquareRootUnique(lc, Abs(c) * l);
  }

  /** `(xc)² + (yc)² == c² (x² + y²)`. */
  lemma ScaledDot(x: real, y: real, c: real)
    ensures (x * c) * (x * c) + (y * c) * (y * c) == Sq(c) * (x * x + y * y)
  {
  }

  /** `(|c| l)² == c² l²`, and `|c| l` is non-negative when `l` is. */
  lemma SquareOfScaledAbs(c: real, l: real)
    ensures Sq(Abs(c) * l) == Sq(c) * Sq(l)
    ensures 0.0 <= l ==> 0.0 <= Abs(c) * l
  {
    assert Sq(Abs(c)) == Sq(c);
    if 0.0 <= l {
      ProductNonNegative(Abs(c), l);
    }
  }
}
