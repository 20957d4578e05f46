/** The PID controller template `PIDController<T, K>` of include/pid.hpp.

    The source instantiates it twice: with `T = Vec2` and scalar gains for the
    robot's velocity and the follower's position, and with `T = K = float` for
    the angular loops. Dafny has no operator overloading over a type parameter,
    so each instantiation is its own class. Both are specified by the pure
    functions below, and `VectorMatchesScalar` shows that the vector controller
    is the scalar one applied to each component. */
module Pids {
  import opened Vectors

  /** The three gains `kP`, `kI`, `kD` (always scalars in the source). */
  datatype PidGains = PidGains(kP: real, kI: real, kD: real)

  /** What a scalar controller remembers between updates. */
  datatype ScalarMemory = ScalarMemory(lastError: real, accumError: real)

  /** What a vector controller remembers between updates. */
  datatype VectorMemory = VectorMemory(lastError: Vec2, accumError: Vec2)

  /** The memory of a new or reset controller: both errors value-initialised. */
  const FreshScalar := ScalarMemory(0.0, 0.0)
  const FreshVector := VectorMemory(Zero, Zero)

  // ---------------------------------------------------------------------
  // Specification of `update` for T = float
  // ---------------------------------------------------------------------

  /** The memory after one `update` whose error is `e`. */
  function ScalarAdvance(s: ScalarMemory, e: real, dt: real): ScalarMemory
  {
    ScalarMemory(e, s.accumError + e * dt)
  }

  /** The value one `update` returns, from the memory `s` it starts with. */
  function ScalarOutput(g: PidGains, s: ScalarMemory, e: real, dt: real): real
    requires dt != 0.0
  {
    g.kP * e + g.kI * ScalarAdvance(s, e, dt).accumError + g.kD * ((e - s.lastError) / dt)
  }

  /** The memory after `n` updates that all see the same error `e`. */
  function ScalarAdvanceN(s: ScalarMemory, e: real, dt: real, n: nat): ScalarMemory
  {
    if n == 0 then s else ScalarAdvance(ScalarAdvanceN(s, e, dt, n - 1), e, dt)
  }

  // ---------------------------------------------------------------------
  // Specification of `update` for T = Vec2, K = float
  // ---------------------------------------------------------------------

  /** The memory after one `update` whose error is `e`. */
  function VectorAdvance(s: VectorMemory, e: Vec2, dt: real): VectorMemory
  {
    VectorMemory(e, s.accumError.Add(e.Mul(dt)))
  }

  /** The value one `update` returns, from the memory `s` it starts with. */
  function VectorOutput(g: PidGains, s: VectorMemory, e: Vec2, dt: real): Vec2
    requires dt != 0.0
  {
    Scale(g.kP, e)
      .Add(Scale(g.kI, VectorAdvance(s, e, dt).accumError))
      .Add(Scale(g.kD, e.Sub(s.lastError).Div(dt)))
  }

  /** The x components of a vector controller's memory. */
  function XMemory(s: VectorMemory): ScalarMemory
  {
    ScalarMemory(s.lastError.x, s.accumError.x)
  }

  /** The y components of a vector controller's memory. */
  function YMemory(s: VectorMemory): ScalarMemory
  {
    ScalarMemory(s.lastError.y, s.accumError.y)
  }

  // ---------------------------------------------------------------------
  // Properties
  // ---------------------------------------------------------------------

  /** The vector controller is the scalar controller run on each axis
      separately: outputs and memories agree component by component. */
  lemma VectorMatchesScalar(g: PidGains, s: VectorMemory, e: Vec2, dt: real)
    requires dt != 0.0
    ensures VectorOutput(g, s, e, dt) == Vec2(ScalarOutput(g, XMemory(s), e.x, dt), ScalarOutput(g, YMemory(s), e.y, dt))
    ensures XMemory(VectorAdvance(s, e, dt)) == ScalarAdvance(XMemory(s), e.x, dt)
    ensures YMemory(VectorAdvance(s, e, dt)) == ScalarAdvance(YMemory(s), e.y, dt)
  {
    OutputX(g, s, e, dt);
    OutputY(g, s, e, dt);
  }

  /** The x component of `VectorMatchesScalar`'s first property. */
  lemma OutputX(g: PidGains, s: VectorMemory, e: Vec2, dt: real)
    requires dt != 0.0
    ensures VectorOutput(g, s, e, dt).x == ScalarOutput(g, XMemory(s), e.x, dt)
  {
    var acc := VectorAdvance(s, e, dt).accumError;
    assert VectorOutput(g, s, e, dt).x == e.x * g.kP + acc.x * g.kI + ((e.x - s.lastError.x) / dt) * g.kD;
  }

  /** The y component of `VectorMatchesScalar`'s first property. */
  lemma OutputY(g: PidGains, s: VectorMemory, e: Vec2, dt: real)
    requires dt != 0.0
    ensures VectorOutput(g, s, e, dt).y == ScalarOutput(g, YMemory(s), e.y, dt)
  {
    var acc := VectorAdvance(s, e, dt).accumError;
    assert VectorOutput(g, s, e, dt).y == e.y * g.kP + acc.y * g.kI + ((e.y - s.lastError.y) / dt) * g.kD;
  }

  /** With `kI = kD = 0` the controller is purely proportional. */
  lemma ProportionalOnly(kP: real, s: ScalarMemory, e: real, dt: real)
    requires dt != 0.0
    ensures ScalarOutput(PidGains(kP, 0.0, 0.0), s, e, dt) == kP * e
  {
  }

  /** A fresh controller that sees no error outputs zero and stays fresh. */
  lemma ZeroErrorAtRest(g: PidGains, dt: real)
    requires dt != 0.0
    ensures ScalarOutput(g, FreshScalar, 0.0, dt) == 0.0
    ensures ScalarAdvance(FreshScalar, 0.0, dt) == FreshScalar
  {
    assert (0.0 - 0.0) / dt == 0.0;
  }

  /** The same for the vector controller. */
  lemma ZeroVectorErrorAtRest(g: PidGains, dt: real)
    requires dt != 0.0
    ensures VectorOutput(g, FreshVector, Zero, dt) == Zero
    ensures VectorAdvance(FreshVector, Zero, dt) == FreshVector
  {
    VectorMatchesScalar(g, FreshVector, Zero, dt);
    ZeroErrorAtRest(g, dt);
  }

  /** Once the remembered error equals the current one, the derivative term
      vanishes and only the proportional and integral terms remain. */
  lemma ConstantErrorNoDerivative(g: PidGains, s: ScalarMemory, e: real, dt: real)
    requires dt != 0.0
    ensures ScalarOutput(g, ScalarAdvance(s, e, dt), e, dt)
         == g.kP * e + g.kI * (s.accumError + 2.0 * e * dt)
  {
    var s1 := ScalarAdvance(s, e, dt);
    assert (e - s1.lastError) / dt == 0.0;
    assert ScalarAdvance(s1, e, dt).accumError == s.accumError + 2.0 * e * dt;
  }

  /** After `n > 0` updates with the same error `e`, the last error is `e`
      and the accumulated error has grown by exactly `n * e * dt`. */
  lemma {:induction false} AccumulateConstantError(s: ScalarMemory, e: real, dt: real, n: nat)
    ensures ScalarAdvanceN(s, e, dt, n).accumError == s.accumError + (n as real) * (e * dt)
    ensures n > 0 ==> ScalarAdvanceN(s, e, dt, n).lastError == e
  {
    if n > 0 {
      AccumulateConstantError(s, e, dt, n - 1);
      assert (n as real) * (e * dt) == ((n - 1) as real) * (e * dt) + e * dt;
    }
  }

  // ---------------------------------------------------------------------
  // The two instantiations as mutable objects
  // ---------------------------------------------------------------------

  /** `PIDController<float>`. */
  class ScalarPid {
    var kP: real
    var kI: real
    var kD: real
    var lastError: real
    var accumError: real

    function Gains(): PidGains
      reads this
    {
      PidGains(kP, kI, kD)
    }

    function Memory(): ScalarMemory
      reads this
    {
      ScalarMemory(lastError, accumError)
    }

    /** `PIDController(kP, kI, kD)`: the errors start value-initialised. */
    constructor(kP: real, kI: real, kD: real)
      ensures Gains() == PidGains(kP, kI, kD)
      ensures Memory() == FreshScalar
    {
      this.kP := kP;
      this.kI := kI;
      this.kD := kD;
      lastError := 0.0;
      accumError := 0.0;
    }

    /** `update(target, current, dt)`. */
    method Update(target: real, current: real, dt: real) returns (r: real)
      requires dt != 0.0
      modifies this
      ensures Gains() == old(Gains())
      ensures Memory() == ScalarAdvance(old(Memory()), target - current, dt)
      ensures r == ScalarOutput(Gains(), old(Memory()), target - current, dt)
    {
      var error := target - current;
      accumError := accumError + error * dt;
      var diffError := (error - lastError) / dt;
      lastError := error;
      r := kP * error + kI * accumError + kD * diffError;
    }

    /** `reset()`: both errors back to zero; the gains are kept. */
    method Reset()
      modifies this
      ensures Gains() == old(Gains())
      ensures Memory() == FreshScalar
    {
      accumError := 0.0;
      lastError := accumError;
    }
  }

  /** `PIDController<Vec2, float>`. */
  class VectorPid {
    var kP: real
    var kI: real
    var kD: real
    var lastError: Vec2
    var accumError: Vec2

    function Gains(): PidGains
      reads this
    {
      PidGains(kP, kI, kD)
    }

    function Memory(): VectorMemory
      reads this
    {
      VectorMemory(lastError, accumError)
    }

    /** `PIDController(kP, kI, kD)`: the errors start value-initialised. */
    constructor(kP: real, kI: real, kD: real)
      ensures Gains() == PidGains(kP, kI, kD)
      ensures Memory() == FreshVector
    {
      this.kP := kP;
      this.kI := kI;
      this.kD := kD;
      lastError := Zero;
      accumError := Zero;
    }

    /** `update(target, current, dt)`. */
    method Update(target: Vec2, current: Vec2, dt: real) returns (r: Vec2)
      requires dt != 0.0
      modifies this
      ensures Gains() == old(Gains())
      ensures Memory() == VectorAdvance(old(Memory()), target.Sub(current), dt)
      ensures r == VectorOutput(Gains(), old(Memory()), target.Sub(current), dt)
    {
      var error := target.Sub(current);
      accumError := accumError.AddAssign(error.Mul(dt));
      var diffError := error.Sub(lastError).Div(dt);
      lastError := error;
      r := Scale(kP, error).Add(Scale(kI, accumError)).Add(Scale(kD, diffError));
    }

    /** `reset()`: both errors back to zero; the gains are kept. */
    method Reset()
      modifies this
      ensures Gains() == old(Gains())
      ensures Memory() == FreshVector
    {
      accumError := Zero;
      lastError := accumError;
    }
  }
}
