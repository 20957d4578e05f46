/** The path interface of include/path.hpp and its only implementation,
    `LinePath` (impl/path.cpp): a straight segment from `a` to `b` traversed
    with the smoothstep easing `3t^2 - 2t^3`, so that it starts and ends at
    rest. */
module Paths {
  import opened CMath
  import opened Vectors

  /** The smoothstep easing `3t^2 - 2t^3`, written as the source writes it. */
  function Smoothstep(t: real): real
  {
    3.0 * t * t - 2.0 * t * t * t
  }

  /** Its first derivative `6t - 6t^2`. */
  function SmoothstepSlope(t: real): real
  {
    6.0 * t - 6.0 * t * t
  }

  /** Its second derivative `6 - 12t`. */
  function SmoothstepCurvature(t: real): real
  {
    6.0 - 12.0 * t
  }

  /** The point a fraction `u` of the way from `a` to `b`. */
  function Lerp(a: Vec2, b: Vec2, u: real): Vec2
  {
    a.Mul(1.0 - u).Add(b.Mul(u))
  }

  /** `Path`; `LinePath(a, b)` is its only implementation. */
  datatype Path = LinePath(a: Vec2, b: Vec2)
  {
    /** `sample_position(t)`: `(b - a) * smoothstep(t) + a`. */
    function SamplePosition(t: real): Vec2
    {
      b.Sub(a).Mul(Smoothstep(t)).Add(a)
    }

    /** `max_acceleration()`: `6 * |b - a|`. */
    function MaxAcceleration(m: MathLib): (r: real)
      requires m.Valid()
      ensures 0.0 <= r
    {
      6.0 * b.Sub(a).Length(m)
    }

    /** The velocity `d/dt sample_position(t)`. */
    function Velocity(t: real): Vec2
    {
      b.Sub(a).Mul(SmoothstepSlope(t))
    }

    /** The acceleration `d^2/dt^2 sample_position(t)`. */
    function Acceleration(t: real): Vec2
    {
      b.Sub(a).Mul(SmoothstepCurvature(t))
    }
  }

  // ---------------------------------------------------------------------
  // The easing curve
  // ---------------------------------------------------------------------

  /** Smoothstep fixes 0, 1/2 and 1. */
  lemma SmoothstepFixedPoints()
    ensures Smoothstep(0.0) == 0.0
    ensures Smoothstep(0.5) == 0.5
    ensures Smoothstep(1.0) == 1.0
  {
  }

  /** Smoothstep is point-symmetric about `(1/2, 1/2)`. */
  lemma SmoothstepSymmetric(t: real)
    ensures Smoothstep(1.0 - t) == 1.0 - Smoothstep(t)
  {
    assert Smoothstep(1.0 - t) == 3.0 * (1.0 - t) * (1.0 - t) - 2.0 * (1.0 - t) * (1.0 - t) * (1.0 - t);
  }

  /** The two factorisations behind the bounds: `s = t^2 (3 - 2t)` and
      `1 - s = (1 - t)^2 (1 + 2t)`. */
  lemma SmoothstepFactors(t: real)
    ensures Smoothstep(t) == Product(Sq(t), 3.0 - 2.0 * t)
    ensures 1.0 - Smoothstep(t) == Product(Sq(1.0 - t), 1.0 + 2.0 * t)
  {
  }

  /** On `[0, 1]` smoothstep stays within `[0, 1]`. */
  lemma SmoothstepBounds(t: real)
    requires 0.0 <= t <= 1.0
    ensures 0.0 <= Smoothstep(t) <= 1.0
  {
    SmoothstepFactors(t);
    SquareNonNegative(t);
    SquareNonNegative(1.0 - t);
    ProductNonNegative(Sq(t), 3.0 - 2.0 * t);
    ProductNonNegative(Sq(1.0 - t), 1.0 + 2.0 * t);
  }

  /** The difference of two smoothstep values, factored. */
  lemma SmoothstepDifference(t: real, u: real)
    ensures Smoothstep(u) - Smoothstep(t)
         == Product(u - t, 3.0 * (u + t) - 2.0 * (Sq(u) + Product(u, t) + Sq(t)))
  {
  }

  /** On `[0, 1]` smoothstep never decreases. */
  lemma SmoothstepMonotone(t: real, u: real)
    requires 0.0 <= t <= u <= 1.0
    ensures Smoothstep(t) <= Smoothstep(u)
  {
    SmoothstepDifference(t, u);
    // each of u^2, ut and t^2 is bounded by a linear term on [0, 1]
    UnitProductBound(u, u);
    UnitProductBound(u, t);
    UnitProductBound(t, t);
    ProductNonNegative(u - t, 3.0 * (u + t) - 2.0 * (Sq(u) + Product(u, t) + Sq(t)));
  }

  /** For `x, y` in `[0, 1]`, `x * y` is at most either factor. */
  lemma UnitProductBound(x: real, y: real)
    requires 0.0 <= x <= 1.0 && 0.0 <= y <= 1.0
    ensures Product(x, y) <= x && Product(x, y) <= y
    ensures x == y ==> Sq(x) == Product(x, y)
  {
    ProductNonNegative(x, 1.0 - y);
    ProductNonNegative(1.0 - x, y);
  }

  /** The slope of smoothstep is zero at both ends: the path starts and stops at rest. */
  lemma SmoothstepFlatEnds()
    ensures SmoothstepSlope(0.0) == 0.0 && SmoothstepSlope(1.0) == 0.0
  {
  }

  /** `SmoothstepSlope` is the derivative of `Smoothstep`: the symmetric
      difference quotient equals it up to the exact cubic remainder. */
  lemma SmoothstepSlopeIsDerivative(t: real, h: real)
    ensures Smoothstep(t + h) - Smoothstep(t - h) == 2.0 * h * SmoothstepSlope(t) - 4.0 * h * Sq(h)
  {
  }

  /** `SmoothstepCurvature` is the second derivative of `Smoothstep`: for a
      cubic the second central difference is exact. */
  lemma SmoothstepCurvatureIsSecondDerivative(t: real, h: real)
    ensures Smoothstep(t + h) - 2.0 * Smoothstep(t) + Smoothstep(t - h) == Sq(h) * SmoothstepCurvature(t)
  {
  }

  /** On `[0, 1]` the curvature lies in `[-6, 6]`, reaching `6` at `t = 0`
      and `-6` at `t = 1`. */
  lemma CurvatureBounds(t: real)
    requires 0.0 <= t <= 1.0
    ensures Abs(SmoothstepCurvature(t)) <= 6.0
    ensures SmoothstepCurvature(0.0) == 6.0 && SmoothstepCurvature(1.0) == -6.0
  {
  }

  // ---------------------------------------------------------------------
  // The line path
  // ---------------------------------------------------------------------

  /** The path starts at `a`, passes the midpoint of the segment at `t = 1/2`
      and ends at `b`. */
  lemma LinePathEndpoints(p: Path)
    ensures p.SamplePosition(0.0) == p.a
    ensures p.SamplePosition(0.5) == Lerp(p.a, p.b, 0.5)
    ensures p.SamplePosition(1.0) == p.b
  {
    SmoothstepFixedPoints();
  }

  /** Every sample is the point a fraction `smoothstep(t)` along the segment;
      for `t` in `[0, 1]` that fraction is in `[0, 1]`, so the sample lies on
      the segment from `a` to `b`. */
  lemma SampleOnSegment(p: Path, t: real)
    ensures p.SamplePosition(t) == Lerp(p.a, p.b, Smoothstep(t))
    ensures 0.0 <= t <= 1.0 ==> 0.0 <= Smoothstep(t) <= 1.0
  {
    var s := Smoothstep(t);
    assert p.SamplePosition(t).x == p.a.x * (1.0 - s) + p.b.x * s;
    assert p.SamplePosition(t).y == p.a.y * (1.0 - s) + p.b.y * s;
    if 0.0 <= t <= 1.0 {
      SmoothstepBounds(t);
    }
  }

  /** Samples move monotonically from `a` towards `b`: a later time is never
      a smaller fraction of the segment. */
  lemma SampleProgress(p: Path, t: real, u: real)
    requires 0.0 <= t <= u <= 1.0
    ensures p.SamplePosition(t) == Lerp(p.a, p.b, Smoothstep(t))
    ensures p.SamplePosition(u) == Lerp(p.a, p.b, Smoothstep(u))
    ensures Smoothstep(t) <= Smoothstep(u)
  {
    SampleOnSegment(p, t);
    SampleOnSegment(p, u);
    SmoothstepMonotone(t, u);
  }

  /** Running the reversed segment is running the segment backwards in time. */
  lemma ReversedPath(a: Vec2, b: Vec2, t: real)
    ensures LinePath(b, a).SamplePosition(1.0 - t) == LinePath(a, b).SamplePosition(t)
  {
    SmoothstepSymmetric(t);
    var s := Smoothstep(t);
    assert LinePath(b, a).SamplePosition(1.0 - t).x == (a.x - b.x) * (1.0 - s) + b.x;
    assert LinePath(b, a).SamplePosition(1.0 - t).y == (a.y - b.y) * (1.0 - s) + b.y;
  }

  /** An affine image `d * s + a` turns a second difference of the `s` into
      `d` times that second difference; when that difference is `c * k`, the
      image's is `d` scaled by `k` and then by `c`. */
  lemma AffineSecondDifference(d: Vec2, a: Vec2, s0: real, s1: real, s2: real, c: real, k: real)
    requires s2 - 2.0 * s1 + s0 == c * k
    ensures d.Mul(s2).Add(a).Sub(d.Mul(s1).Add(a).Mul(2.0)).Add(d.Mul(s0).Add(a))
         == d.Mul(k).Mul(c)
  {
    assert d.x * s2 + a.x - (d.x * s1 + a.x) * 2.0 + (d.x * s0 + a.x) == d.x * (s2 - 2.0 * s1 + s0);
    assert d.y * s2 + a.y - (d.y * s1 + a.y) * 2.0 + (d.y * s0 + a.y) == d.y * (s2 - 2.0 * s1 + s0);
    assert d.x * (c * k) == d.x * k * c;
    assert d.y * (c * k) == d.y * k * c;
  }

  /** `Acceleration` is the second derivative of `SamplePosition`, exactly. */
  lemma AccelerationIsSecondDerivative(p: Path, t: real, h: real)
    ensures p.SamplePosition(t + h).Sub(p.SamplePosition(t).Mul(2.0)).Add(p.SamplePosition(t - h))
         == p.Acceleration(t).Mul(Sq(h))
  {
    SmoothstepCurvatureIsSecondDerivative(t, h);
    AffineSecondDifference(p.b.Sub(p.a), p.a, Smoothstep(t - h), Smoothstep(t), Smoothstep(t + h),
                           Sq(h), SmoothstepCurvature(t));
  }

  /** The path is at rest at both ends. */
  lemma RestAtEnds(p: Path)
    ensures p.Velocity(0.0) == Zero && p.Velocity(1.0) == Zero
  {
    SmoothstepFlatEnds();
  }

  /** The bound is zero exactly for a segment that does not move. */
  lemma MaxAccelerationZero(p: Path, m: MathLib)
    requires m.Valid()
    ensures p.MaxAcceleration(m) == 0.0 <==> p.a == p.b
  {
    var d := p.b.Sub(p.a);
    var l := d.Length(m);
    assert p.MaxAcceleration(m) == 6.0 * l;
    LengthZero(d, m);
    assert l == 0.0 <==> d == Zero;
    SubZero(p.b, p.a);
  }

  /** `max_acceleration` is what its comment says: an upper bound on the norm
      of the acceleration over `[0, 1]`. */
  lemma MaxAccelerationIsBound(p: Path, t: real, m: MathLib)
    requires m.Valid()
    requires 0.0 <= t <= 1.0
    ensures p.Acceleration(t).Length(m) <= p.MaxAcceleration(m)
  {
    var d := p.b.Sub(p.a);
    var l := d.Length(m);
    var c := SmoothstepCurvature(t);
    CurvatureBounds(t);
    LengthScale(d, c, m);
    assert p.Acceleration(t).Length(m) == Abs(c) * l;
    ProductMonotone(Abs(c), 6.0, l);
    assert Abs(c) * l <= 6.0 * l;
  }

  /** The bound is attained at the start and at the end of the path. */
  lemma MaxAccelerationAttained(p: Path, m: MathLib)
    requires m.Valid()
    ensures p.Acceleration(0.0).Length(m) == p.MaxAcceleration(m)
    ensures p.Acceleration(1.0).Length(m) == p.MaxAcceleration(m)
  {
    var d := p.b.Sub(p.a);
    CurvatureBounds(0.0);
    assert p.Acceleration(0.0) == d.Mul(6.0);
    assert p.Acceleration(1.0) == d.Mul(-6.0);
    assert Abs(6.0) == 6.0 && Abs(-6.0) == 6.0;
    LengthScale(d, 6.0, m);
    LengthScale(d, -6.0, m);
    assert d.Mul(6.0).Length(m) == Abs(6.0) * d.Length(m);
    assert d.Mul(6.0).Length(m) == 6.0 * d.Length(m);
    assert d.Mul(-6.0).Length(m) == 6.0 * d.Length(m);
  }
}
