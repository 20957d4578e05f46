/** The path follower of include/path_follower.hpp and impl/path_follower.cpp.

    As the source stands, `tick` does not yet read the path: it drives the
    robot towards the origin with heading zero, using a position controller
    whose derivative gain grows with the robot's speed. */
module PathFollowers {
  import opened CMath
  import opened Vectors
  import opened Pids
  import opened Paths
  import opened Robots

  /** A pointer that may be null. */
  datatype Option<T> = None | Some(value: T)

  /** The gains `position_pid(20.0, 0.0, 2.0)` the follower starts with. */
  const PositionGains := PidGains(20.0, 0.0, 2.0)

  /** The gains `angle_pid(7.5, 0.0, 1.5)`. */
  const AngleGains := PidGains(7.5, 0.0, 1.5)

  /** Where `tick` steers the robot: the origin, facing along +x. */
  const PositionSetpoint := Zero
  const AngleSetpoint := 0.0

  /** The derivative gain `tick` gives the position loop: ten times the
      robot's speed. */
  function SpeedDerivativeGain(velocity: Vec2, m: MathLib): (kD: real)
    requires m.Valid()
    ensures 0.0 <= kD
    ensures kD == 0.0 <==> velocity == Zero
  {
    LengthZero(velocity, m);
    10.0 * velocity.Length(m)
  }

  /** The velocity setpoint one `tick` hands the robot. */
  function PositionCommand(g: PidGains, s: VectorMemory, pose: Vec2, dt: real): Vec2
    requires dt != 0.0
  {
    VectorOutput(g, s, PositionSetpoint.Sub(pose), dt)
  }

  /** The angular velocity setpoint one `tick` hands the robot. */
  function HeadingCommand(g: PidGains, s: ScalarMemory, heading: real, dt: real): real
    requires dt != 0.0
  {
    ScalarOutput(g, s, AngleSetpoint - heading, dt)
  }

  /** The error the position loop sees is the way back to the origin. */
  lemma PositionErrorPointsHome(pose: Vec2)
    ensures PositionSetpoint.Sub(pose) == pose.Mul(-1.0)
    ensures pose.Add(PositionSetpoint.Sub(pose)) == Zero
  {
  }

  /** On the first tick after construction (both controllers fresh, `kI = 0`)
      the velocity setpoint points straight back at the origin, scaled by
      `kP + kD / dt`, and the angular setpoint turns the heading back to
      zero with gain `7.5 + 1.5 / dt`. */
  lemma FirstCommand(kD: real, pose: Vec2, heading: real, dt: real)
    requires dt != 0.0
    ensures PositionCommand(PositionGains.(kD := kD), FreshVector, pose, dt)
         == pose.Mul(-(20.0 + kD / dt))
    ensures HeadingCommand(AngleGains, FreshScalar, heading, dt)
         == -(7.5 + 1.5 / dt) * heading
  {
    var g := PositionGains.(kD := kD);
    var e := PositionSetpoint.Sub(pose);
    VectorMatchesScalar(g, FreshVector, e, dt);
    FirstScalarCommand(g.kP, kD, pose.x, dt);
    FirstScalarCommand(g.kP, kD, pose.y, dt);
    FirstScalarCommand(7.5, 1.5, heading, dt);
  }

  /** The scalar step of `FirstCommand`: a fresh controller with `kI = 0`
      and error `-p` outputs `-(kP + kD / dt) * p`. */
  lemma FirstScalarCommand(kP: real, kD: real, p: real, dt: real)
    requires dt != 0.0
    ensures ScalarOutput(PidGains(kP, 0.0, kD), FreshScalar, 0.0 - p, dt) == -(kP + kD / dt) * p
  {
    assert (0.0 - p - 0.0) / dt == -(p / dt);
    assert kD * -(p / dt) == -(kD / dt) * p;
  }

  /** A robot at the origin with heading zero gets zero setpoints from fresh
      controllers, whatever its speed. */
  lemma AtOriginCommandsNothing(kD: real, dt: real)
    requires dt != 0.0
    ensures PositionCommand(PositionGains.(kD := kD), FreshVector, Zero, dt) == Zero
    ensures HeadingCommand(AngleGains, FreshScalar, 0.0, dt) == 0.0
  {
    FirstCommand(kD, Zero, 0.0, dt);
    MulZero(-(20.0 + kD / dt));
  }

  /** `PathFollower`. */
  class PathFollower {
    var time: real
    var duration: real
    var feedforward: real
    var path: Option<Path>
    const robot: Robot
    const positionPid: VectorPid
    var target: Vec2
    const anglePid: ScalarPid

    /** The follower's controllers are its own: neither is one of the
        robot's loops. */
    ghost predicate Valid()
      reads this
    {
      positionPid != robot.velocityPid && anglePid != robot.angularVelocityPid
    }

    /** `PathFollower(robot)`: fresh controllers with the fixed gains, no
        path, `time = 0`, `duration = 10`, `feedforward = 0.6`. The source
        leaves `target` uninitialised; here it is an arbitrary vector. */
    constructor(robot: Robot)
      ensures Valid()
      ensures this.robot == robot
      ensures positionPid.Gains() == PositionGains && positionPid.Memory() == FreshVector
      ensures anglePid.Gains() == AngleGains && anglePid.Memory() == FreshScalar
      ensures path == None
      ensures time == 0.0 && duration == 10.0 && feedforward == 0.6
      ensures fresh(positionPid) && fresh(anglePid)
    {
      this.robot := robot;
      positionPid := new VectorPid(20.0, 0.0, 2.0);
      anglePid := new ScalarPid(7.5, 0.0, 1.5);
      path := None;
      time := 0.0;
      duration := 10.0;
      feedforward := 0.6;
    }

    /** `tick(dt)`: set the position loop's `kD` from the robot's speed, run
        both loops towards the origin and heading zero, and hand their outputs
        to the robot as its setpoints. Nothing else about the robot changes. */
    method Tick(dt: real, m: MathLib)
      requires Valid() && dt != 0.0 && m.Valid()
      modifies positionPid, anglePid, robot`velocitySetpoint, robot`angularVelocitySetpoint
      ensures positionPid.Gains() == old(positionPid.Gains()).(kD := SpeedDerivativeGain(robot.velocity, m))
      ensures positionPid.Memory() == VectorAdvance(old(positionPid.Memory()), PositionSetpoint.Sub(robot.frameCenter), dt)
      ensures anglePid.Gains() == old(anglePid.Gains())
      ensures anglePid.Memory() == ScalarAdvance(old(anglePid.Memory()), AngleSetpoint - robot.rotationRadians, dt)
      ensures robot.State() == old(robot.State()).(
                velocitySetpoint := PositionCommand(positionPid.Gains(), old(positionPid.Memory()), robot.frameCenter, dt),
                angularVelocitySetpoint := HeadingCommand(anglePid.Gains(), old(anglePid.Memory()), robot.rotationRadians, dt))
    {
      var posSetpoint := PositionSetpoint;
      var angleSetpoint := AngleSetpoint;

      var pos := robot.GetFrameCenter();
      var angle := robot.GetRotationRadians();

      positionPid.kD := 10.0 * robot.GetVelocity().Length(m);

      var velocitySetpoint := positionPid.Update(posSetpoint, pos, dt);
      var angularVelocitySetpoint := anglePid.Update(angleSetpoint, angle, dt);

      robot.SetVelocitySetpoint(velocitySetpoint);
      robot.SetAngularVelocitySetpoint(angularVelocitySetpoint);
    }
  }
}
