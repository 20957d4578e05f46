/** The simulated robot of include/robot.hpp and impl/robot.cpp: a holonomic
    drivetrain whose linear and angular velocities are driven towards their
    setpoints by two PID loops, with the loop outputs saturated as wheel
    voltages, and whose pose is integrated by a semi-implicit Euler step. */
module Robots {
  import opened CMath
  import opened Vectors
  import opened Pids

  // ---------------------------------------------------------------------
  // Drivetrain constants (`static constexpr` members of `Robot`)
  // ---------------------------------------------------------------------

  const Mass: real := 50.0               // kg
  const Wheelbase: real := 60.0          // cm, side length
  const WheelDist: real := 42.0          // cm
  const Moi: real := 3.0                 // kg m^2
  const WheelTorque: real := 35.0        // N cm
  const WheelRadius: real := 4.375       // cm

  // The derived constants are compile-time constants in the source; they are
  // written out here and `DrivetrainConstants` checks them against the
  // formulas the source computes them with.
  const WheelTorqueM: real := 0.35            // N m
  const WheelRadiusM: real := 0.04375         // m
  const WheelDistM: real := 0.42              // m
  const WheelGroundForce: real := 8.0         // N
  const WheelGroundTorque: real := 3.36       // N m
  const BotAcceleration: real := 0.64         // m/s^2
  const BotAngularAcceleration: real := 4.48  // rad/s^2

  /** The voltage that drives a wheel at full power. */
  const FullVoltage: real := 12.0

  /** The gains of `velocity_pid` and `angular_velocity_pid`. */
  const VelocityGains := PidGains(1.0, 0.0, 0.0)
  const AngularVelocityGains := PidGains(5.0, 0.1, 0.0)

  /** The derived constants are what the source's formulas give. */
  lemma DrivetrainConstants()
    ensures WheelTorqueM == WheelTorque / 100.0
    ensures WheelRadiusM == WheelRadius / 100.0
    ensures WheelDistM == WheelDist / 100.0
    ensures WheelGroundForce == WheelTorqueM / WheelRadiusM
    ensures WheelGroundTorque == WheelGroundForce * WheelDistM
    ensures BotAcceleration == 4.0 * WheelGroundForce / Mass
    ensures BotAngularAcceleration == 4.0 * WheelGroundTorque / Moi
  {
    assert 0.35 / 0.04375 == 8.0;
  }

  // ---------------------------------------------------------------------
  // `apply_voltages`, as functions
  // ---------------------------------------------------------------------

  /** The linear wheel command: `xy / 12`, scaled back onto the unit circle
      when it is longer than 1. */
  function WheelPercent(xy: Vec2, m: MathLib): (p: Vec2)
    requires m.Valid()
    ensures p.Length(m) <= 1.0
    ensures xy.Div(FullVoltage).Length(m) <= 1.0 ==> p == xy.Div(FullVoltage)
    ensures xy.Div(FullVoltage).Length(m) > 1.0 ==>
              p.Length(m) == 1.0 && p.Mul(xy.Div(FullVoltage).Length(m)) == xy.Div(FullVoltage)
  {
    var q := xy.Div(FullVoltage);
    var l := q.Length(m);
    if l > 1.0 then
      UnitRescale(q, m);
      q.Mul(1.0 / l)
    else
      q
  }

  /** Dividing a vector longer than 1 by its length leaves it of length 1,
      pointing the same way. */
  lemma UnitRescale(q: Vec2, m: MathLib)
    requires m.Valid()
    requires q.Length(m) > 1.0
    ensures q.Mul(1.0 / q.Length(m)).Length(m) == 1.0
    ensures q.Mul(1.0 / q.Length(m)).Mul(q.Length(m)) == q
  {
    var l := q.Length(m);
    LengthScale(q, 1.0 / l, m);
    assert Abs(1.0 / l) == 1.0 / l;
    assert (1.0 / l) * l == 1.0;
    var p := q.Mul(1.0 / l);
    assert p.Mul(l).x == q.x * ((1.0 / l) * l);
    assert p.Mul(l).y == q.y * ((1.0 / l) * l);
  }

  /** The angular wheel command: `r / 12`, divided by its magnitude when that
      exceeds 1. */
  function RotationalPercent(r: real): (p: real)
    ensures -1.0 <= p <= 1.0
    ensures Abs(r / FullVoltage) <= 1.0 ==> p == r / FullVoltage
    ensures Abs(r / FullVoltage) > 1.0 ==> p == (if r < 0.0 then -1.0 else 1.0)
  {
    var q := r / FullVoltage;
    if Abs(q) > 1.0 then
      SignQuotient(q);
      q / Abs(q)
    else
      q
  }

  /** A non-zero number divided by its magnitude is its sign. */
  lemma SignQuotient(q: real)
    requires q != 0.0
    ensures q / Abs(q) == (if q < 0.0 then -1.0 else 1.0)
  {
    if q < 0.0 {
      assert q / (-q) == -1.0;
    } else {
      assert q / q == 1.0;
    }
  }

  /** The linear acceleration the wheels produce for the voltage `xy`; its
      magnitude never exceeds `bot_acceleration`. */
  function LinearAcceleration(xy: Vec2, m: MathLib): (acc: Vec2)
    requires m.Valid()
    ensures acc.Length(m) <= BotAcceleration
  {
    var p := WheelPercent(xy, m);
    LengthScale(p, BotAcceleration, m);
    assert Abs(BotAcceleration) == BotAcceleration;
    ProductMonotone(p.Length(m), 1.0, BotAcceleration);
    p.Mul(BotAcceleration)
  }

  /** The angular acceleration the wheels produce for the voltage `r`; its
      magnitude never exceeds `bot_angular_acceleration`. */
  function AngularAcceleration(r: real): (acc: real)
    ensures Abs(acc) <= BotAngularAcceleration
  {
    RotationalPercent(r) * BotAngularAcceleration
  }

  // ---------------------------------------------------------------------
  // `tick`, as a function of the robot's whole state
  // ---------------------------------------------------------------------

  /** Everything `tick` reads or writes: the pose, the velocities, the
      setpoints and the memories of the two PID loops. */
  datatype RobotState = RobotState(
    frameCenter: Vec2,
    velocity: Vec2,
    rotationRadians: real,
    angularVelocity: real,
    velocitySetpoint: Vec2,
    angularVelocitySetpoint: real,
    velocityMemory: VectorMemory,
    angularVelocityMemory: ScalarMemory)

  /** The output of the velocity loop in a `tick` from `s`. */
  function LinearCommand(s: RobotState, dt: real): Vec2
    requires dt != 0.0
  {
    VectorOutput(VelocityGains, s.velocityMemory, s.velocitySetpoint.Sub(s.velocity), dt)
  }

  /** The output of the angular velocity loop in a `tick` from `s`. */
  function AngularCommand(s: RobotState, dt: real): real
    requires dt != 0.0
  {
    ScalarOutput(AngularVelocityGains, s.angularVelocityMemory, s.angularVelocitySetpoint - s.angularVelocity, dt)
  }

  /** The linear velocity after `apply_voltages` in a `tick` from `s`. */
  function NextVelocity(s: RobotState, dt: real, m: MathLib): Vec2
    requires dt != 0.0 && m.Valid()
  {
    s.velocity.Add(LinearAcceleration(LinearCommand(s, dt), m).Mul(dt))
  }

  /** The angular velocity after `apply_voltages` in a `tick` from `s`. */
  function NextAngularVelocity(s: RobotState, dt: real): real
    requires dt != 0.0
  {
    EulerStep(s.angularVelocity, AngularAcceleration(AngularCommand(s, dt)), dt)
  }

  /** `x += rate * dt` on a scalar, as `tick` and `apply_voltages` update
      the rotation and the angular velocity. */
  function EulerStep(x: real, rate: real, dt: real): real
  {
    x + rate * dt
  }

  /** One `tick(dt)`: run both loops, apply their outputs as voltages, then
      move the pose with the updated velocities. */
  function Step(s: RobotState, dt: real, m: MathLib): RobotState
    requires dt != 0.0 && m.Valid()
  {
    var v := NextVelocity(s, dt, m);
    var w := NextAngularVelocity(s, dt);
    RobotState(
      s.frameCenter.Add(v.Mul(dt)),
      v,
      EulerStep(s.rotationRadians, w, dt),
      w,
      s.velocitySetpoint,
      s.angularVelocitySetpoint,
      VectorAdvance(s.velocityMemory, s.velocitySetpoint.Sub(s.velocity), dt),
      ScalarAdvance(s.angularVelocityMemory, s.angularVelocitySetpoint - s.angularVelocity, dt))
  }

  /** A robot that is still, commanded to stay still, and whose loops hold
      no error that could move it. */
  predicate AtRest(s: RobotState)
  {
    && s.velocity == Zero
    && s.angularVelocity == 0.0
    && s.velocitySetpoint == Zero
    && s.angularVelocitySetpoint == 0.0
    && s.velocityMemory.lastError == Zero
    && s.angularVelocityMemory == FreshScalar
  }

  /** `tick` applied once for every time step in `dts`. */
  function Run(s: RobotState, dts: seq<real>, m: MathLib): RobotState
    requires m.Valid()
    requires forall i :: 0 <= i < |dts| ==> dts[i] != 0.0
    decreases |dts|
  {
    if |dts| == 0 then s else Run(Step(s, dts[0], m), dts[1..], m)
  }

  /** The velocity loop has gains (1, 0, 0): its output is its error,
      whatever it remembers. */
  lemma VelocityLoopIsProportional(mem: VectorMemory, e: Vec2, dt: real)
    requires dt != 0.0
    ensures VectorOutput(VelocityGains, mem, e, dt) == e
  {
    VectorMatchesScalar(VelocityGains, mem, e, dt);
    ProportionalOnly(1.0, XMemory(mem), e.x, dt);
    ProportionalOnly(1.0, YMemory(mem), e.y, dt);
  }

  /** `tick` integrates semi-implicitly: the pose moves with the velocities
      just updated, and the setpoints are left alone. */
  lemma StepIsSemiImplicit(s: RobotState, dt: real, m: MathLib)
    requires dt != 0.0 && m.Valid()
    ensures Step(s, dt, m).frameCenter == s.frameCenter.Add(Step(s, dt, m).velocity.Mul(dt))
    ensures Step(s, dt, m).rotationRadians == s.rotationRadians + Step(s, dt, m).angularVelocity * dt
    ensures Step(s, dt, m).velocitySetpoint == s.velocitySetpoint
    ensures Step(s, dt, m).angularVelocitySetpoint == s.angularVelocitySetpoint
  {
  }

  /** A vector no longer than `bound`, scaled by `dt`, is no longer than
      `bound * |dt|`. */
  lemma ScaledLengthBound(v: Vec2, bound: real, dt: real, m: MathLib)
    requires m.Valid()
    requires v.Length(m) <= bound
    ensures v.Mul(dt).Length(m) <= bound * Abs(dt)
  {
    LengthScale(v, dt, m);
    ProductMonotone(v.Length(m), bound, Abs(dt));
  }

  /** The velocity a `tick` adds is the acceleration times `dt`. */
  lemma VelocityIncrement(s: RobotState, dt: real, m: MathLib)
    requires dt != 0.0 && m.Valid()
    ensures Step(s, dt, m).velocity.Sub(s.velocity) == LinearAcceleration(LinearCommand(s, dt), m).Mul(dt)
  {
    AddThenSub(s.velocity, LinearAcceleration(LinearCommand(s, dt), m).Mul(dt));
  }

  /** One `tick` changes the linear velocity by at most `bot_acceleration * |dt|`. */
  lemma VelocityChangeBounded(s: RobotState, dt: real, m: MathLib)
    requires dt != 0.0 && m.Valid()
    ensures Step(s, dt, m).velocity.Sub(s.velocity).Length(m) <= BotAcceleration * Abs(dt)
  {
    VelocityIncrement(s, dt, m);
    ScaledLengthBound(LinearAcceleration(LinearCommand(s, dt), m), BotAcceleration, dt, m);
  }

  /** One `tick` changes the angular velocity by at most
      `bot_angular_acceleration * |dt|`. */
  lemma AngularVelocityChangeBounded(s: RobotState, dt: real, m: MathLib)
    requires dt != 0.0 && m.Valid()
    ensures Abs(Step(s, dt, m).angularVelocity - s.angularVelocity) <= BotAngularAcceleration * Abs(dt)
  {
    var alpha := AngularAcceleration(AngularCommand(s, dt));
    assert Step(s, dt, m).angularVelocity == EulerStep(s.angularVelocity, alpha, dt);
    EulerStepIncrement(s.angularVelocity, alpha, dt);
    ScaledAbsBound(alpha, BotAngularAcceleration, dt);
  }

  /** An Euler step changes its value by exactly `rate * dt`. */
  lemma EulerStepIncrement(x: real, rate: real, dt: real)
    ensures EulerStep(x, rate, dt) - x == rate * dt
  {
  }

  /** A real no larger than `bound` in magnitude, times `dt`, is no larger
      than `bound * |dt|` in magnitude. */
  lemma ScaledAbsBound(a: real, bound: real, dt: real)
    requires Abs(a) <= bound
    ensures Abs(a * dt) <= bound * Abs(dt)
  {
    AbsProduct(a, dt);
    ProductMonotone(Abs(a), bound, Abs(dt));
  }

  /** The zero vector has length zero, so `apply_voltages` leaves it unscaled. */
  lemma ZeroCommandIsShort(m: MathLib)
    requires m.Valid()
    ensures Zero.Div(FullVoltage).Length(m) <= 1.0
  {
    DivZero(FullVoltage);
    LengthZero(Zero, m);
  }

  /** A command no longer than 1 after division by 12 is passed through. */
  lemma ShortCommandPassesThrough(xy: Vec2, m: MathLib)
    requires m.Valid() && xy.Div(FullVoltage).Length(m) <= 1.0
    ensures WheelPercent(xy, m) == xy.Div(FullVoltage)
  {
  }

  /** No linear voltage, no wheel command. */
  lemma WheelPercentOfZero(m: MathLib)
    requires m.Valid()
    ensures WheelPercent(Zero, m) == Zero
  {
    ZeroCommandIsShort(m);
    ShortCommandPassesThrough(Zero, m);
    DivZero(FullVoltage);
  }

  /** No linear voltage, no linear acceleration. */
  lemma LinearAccelerationOfZero(m: MathLib)
    requires m.Valid()
    ensures LinearAcceleration(Zero, m) == Zero
  {
    WheelPercentOfZero(m);
    MulZero(BotAcceleration);
  }

  /** No angular voltage, no angular acceleration. */
  lemma AngularAccelerationOfZero()
    ensures AngularAcceleration(0.0) == 0.0
  {
  }

  /** When the velocity equals its setpoint, the velocity loop outputs zero. */
  lemma LinearCommandSteady(s: RobotState, dt: real)
    requires dt != 0.0
    requires s.velocitySetpoint == s.velocity
    ensures LinearCommand(s, dt) == Zero
  {
    var e := s.velocitySetpoint.Sub(s.velocity);
    SubZero(s.velocitySetpoint, s.velocity);
    VelocityLoopIsProportional(s.velocityMemory, e, dt);
  }

  /** A robot whose velocity already equals its setpoint keeps that velocity. */
  lemma SteadyVelocity(s: RobotState, dt: real, m: MathLib)
    requires dt != 0.0 && m.Valid()
    requires s.velocitySetpoint == s.velocity
    ensures Step(s, dt, m).velocity == s.velocity
  {
    LinearCommandSteady(s, dt);
    LinearAccelerationOfZero(m);
    MulZero(dt);
    AddZero(s.velocity);
  }

  /** At rest, the angular velocity loop outputs zero and stays fresh. */
  lemma AngularCommandAtRest(s: RobotState, dt: real)
    requires dt != 0.0
    requires AtRest(s)
    ensures AngularCommand(s, dt) == 0.0
    ensures ScalarAdvance(s.angularVelocityMemory, s.angularVelocitySetpoint - s.angularVelocity, dt) == FreshScalar
  {
    ZeroErrorAtRest(AngularVelocityGains, dt);
  }

  /** At rest, the velocity loop's memory does not change. */
  lemma VelocityMemoryAtRest(s: RobotState, dt: real)
    requires AtRest(s)
    ensures VectorAdvance(s.velocityMemory, s.velocitySetpoint.Sub(s.velocity), dt) == s.velocityMemory
  {
    SubZero(Zero, Zero);
    MulZero(dt);
    AddZero(s.velocityMemory.accumError);
  }

  /** At rest, the angular velocity stays zero. */
  lemma AngularVelocityAtRest(s: RobotState, dt: real)
    requires dt != 0.0
    requires AtRest(s)
    ensures NextAngularVelocity(s, dt) == 0.0
  {
    AngularCommandAtRest(s, dt);
    AngularAccelerationOfZero();
  }

  /** At rest, the linear velocity stays zero. */
  lemma VelocityAtRest(s: RobotState, dt: real, m: MathLib)
    requires dt != 0.0 && m.Valid()
    requires AtRest(s)
    ensures NextVelocity(s, dt, m) == Zero
  {
    LinearCommandSteady(s, dt);
    LinearAccelerationOfZero(m);
    MulZero(dt);
    AddZero(Zero);
  }

  /** A robot at rest stays exactly where it is. */
  lemma RestIsFixedPoint(s: RobotState, dt: real, m: MathLib)
    requires dt != 0.0 && m.Valid()
    requires AtRest(s)
    ensures Step(s, dt, m) == s
  {
    VelocityAtRest(s, dt, m);
    AngularVelocityAtRest(s, dt);
    AngularCommandAtRest(s, dt);
    VelocityMemoryAtRest(s, dt);
    MulZero(dt);
    AddZero(s.frameCenter);
  }

  /** A state that every step leaves alone is left alone by any run. */
  lemma {:induction false} FixedPointPersists(s: RobotState, dts: seq<real>, m: MathLib)
    requires m.Valid()
    requires forall i :: 0 <= i < |dts| ==> dts[i] != 0.0
    requires forall i :: 0 <= i < |dts| ==> Step(s, dts[i], m) == s
    ensures Run(s, dts, m) == s
  {
    if |dts| > 0 {
      RunFirst(s, dts, m);
      assert Step(s, dts[0], m) == s;
      FixedPointPersists(s, dts[1..], m);
    }
  }

  /** `Run` takes its first step first. */
  lemma RunFirst(s: RobotState, dts: seq<real>, m: MathLib)
    requires m.Valid()
    requires forall i :: 0 <= i < |dts| ==> dts[i] != 0.0
    requires |dts| > 0
    ensures Run(s, dts, m) == Run(Step(s, dts[0], m), dts[1..], m)
  {
  }

  /** ... however many ticks of whatever lengths follow. */
  lemma RestPersists(s: RobotState, dts: seq<real>, m: MathLib)
    requires m.Valid()
    requires forall i :: 0 <= i < |dts| ==> dts[i] != 0.0
    requires AtRest(s)
    ensures Run(s, dts, m) == s
  {
    RestIsFixedPointForAll(s, m);
    FixedPointPersists(s, dts, m);
  }

  /** `RestIsFixedPoint` for every non-zero time step at once. */
  lemma RestIsFixedPointForAll(s: RobotState, m: MathLib)
    requires m.Valid()
    requires AtRest(s)
    ensures forall dt :: dt != 0.0 ==> Step(s, dt, m) == s
  {
    forall dt | dt != 0.0
      ensures Step(s, dt, m) == s
    {
      RestIsFixedPoint(s, dt, m);
    }
  }

  /** `|x * y| = |x| * |y|`. */
  lemma AbsProduct(x: real, y: real)
    ensures Abs(x * y) == Abs(x) * Abs(y)
  {
    if x < 0.0 && y < 0.0 {
      assert x * y == (-x) * (-y);
      ProductPositive(-x, -y);
    } else if x < 0.0 && 0.0 < y {
      ProductPositive(-x, y);
    } else if 0.0 < x && y < 0.0 {
      ProductPositive(x, -y);
    } else if 0.0 < x && 0.0 < y {
      ProductPositive(x, y);
    }
  }

  // ---------------------------------------------------------------------
  // The robot object
  // ---------------------------------------------------------------------

  /** `Robot`. */
  class Robot {
    var frameCenter: Vec2
    var velocity: Vec2
    var rotationRadians: real
    var angularVelocity: real
    var velocitySetpoint: Vec2
    var angularVelocitySetpoint: real
    const velocityPid: VectorPid
    const angularVelocityPid: ScalarPid

    /** The loops keep the gains the robot gave them. */
    ghost predicate Valid()
      reads this, velocityPid, angularVelocityPid
    {
      velocityPid.Gains() == VelocityGains && angularVelocityPid.Gains() == AngularVelocityGains
    }

    /** The robot's state as a value. */
    function State(): RobotState
      reads this, velocityPid, angularVelocityPid
    {
      RobotState(frameCenter, velocity, rotationRadians, angularVelocity,
                 velocitySetpoint, angularVelocitySetpoint,
                 velocityPid.Memory(), angularVelocityPid.Memory())
    }

    /** `Robot()`: at the origin, facing +x, still, with both setpoints zero. */
    constructor()
      ensures Valid()
      ensures State() == RobotState(Zero, Zero, 0.0, 0.0, Zero, 0.0, FreshVector, FreshScalar)
      ensures fresh(velocityPid) && fresh(angularVelocityPid)
    {
      frameCenter := Zero;
      velocity := Zero;
      rotationRadians := 0.0;
      angularVelocity := 0.0;
      velocitySetpoint := Zero;
      angularVelocitySetpoint := 0.0;
      velocityPid := new VectorPid(1.0, 0.0, 0.0);
      angularVelocityPid := new ScalarPid(5.0, 0.1, 0.0);
    }

    /** `forward()`: the unit heading `(cos r, sin r)`. */
    function Forward(m: MathLib): Vec2
      reads this
    {
      Vec2(m.cosf(rotationRadians), m.sinf(rotationRadians))
    }

    /** `right()`: the heading turned a quarter turn clockwise, so it is
        always perpendicular to `forward()`. */
    function Right(m: MathLib): (r: Vec2)
      reads this
      ensures r == Vec2(Forward(m).y, -Forward(m).x)
      ensures Vec2.Dot(r, Forward(m)) == 0.0
    {
      Vec2(m.sinf(rotationRadians), -m.cosf(rotationRadians))
    }

    /** The pose and velocity read by the path follower. */
    function GetFrameCenter(): Vec2
      reads this
    {
      frameCenter
    }

    function GetRotationRadians(): real
      reads this
    {
      rotationRadians
    }

    function GetVelocity(): Vec2
      reads this
    {
      velocity
    }

    /** `set_velocity_setpoint(v)`. */
    method SetVelocitySetpoint(v: Vec2)
      modifies this`velocitySetpoint
      ensures velocitySetpoint == v
    {
      velocitySetpoint := v;
    }

    /** `set_angular_velocity_setpoint(w)`. */
    method SetAngularVelocitySetpoint(w: real)
      modifies this`angularVelocitySetpoint
      ensures angularVelocitySetpoint == w
    {
      angularVelocitySetpoint := w;
    }

    /** `apply_voltages(xy, r, dt)`: saturate the commands and integrate the
        resulting accelerations into the velocities. */
    method ApplyVoltages(xy: Vec2, r: real, dt: real, m: MathLib)
      requires m.Valid()
      modifies this`velocity, this`angularVelocity
      ensures velocity == old(velocity).Add(LinearAcceleration(xy, m).Mul(dt))
      ensures angularVelocity == EulerStep(old(angularVelocity), AngularAcceleration(r), dt)
    {
      var xyWheelPercent := xy.Div(FullVoltage);
      if xyWheelPercent.Length(m) > 1.0 {
        xyWheelPercent := xyWheelPercent.MulAssign(1.0 / xyWheelPercent.Length(m));
      }
      var xyRobotAcceleration := xyWheelPercent.Mul(BotAcceleration);

      var rWheelPercent := r / FullVoltage;
      if Abs(rWheelPercent) > 1.0 {
        rWheelPercent := rWheelPercent / Abs(rWheelPercent);
      }
      var rRobotAcceleration := rWheelPercent * BotAngularAcceleration;

      velocity := velocity.AddAssign(xyRobotAcceleration.Mul(dt));
      angularVelocity := EulerStep(angularVelocity, rRobotAcceleration, dt);
    }

    /** `tick(dt)`. */
    method Tick(dt: real, m: MathLib)
      requires Valid() && dt != 0.0 && m.Valid()
      modifies this, velocityPid, angularVelocityPid
      ensures Valid()
      ensures State() == Step(old(State()), dt, m)
    {
      ghost var s0 := State();
      var xyPid := velocityPid.Update(velocitySetpoint, velocity, dt);
      var rPid := angularVelocityPid.Update(angularVelocitySetpoint, angularVelocity, dt);
      assert xyPid == LinearCommand(s0, dt);
      assert rPid == AngularCommand(s0, dt);

      ApplyVoltages(xyPid, rPid, dt, m);
      assert velocity == NextVelocity(s0, dt, m);
      assert angularVelocity == NextAngularVelocity(s0, dt);

      frameCenter := frameCenter.AddAssign(velocity.Mul(dt));
      rotationRadians := EulerStep(rotationRadians, angularVelocity, dt);
    }
  }
}
