# frc-pathgen control core in Dafny

frc-pathgen is a small SDL program that simulates a holonomic FRC robot on a
field and will, in time, make it follow generated paths. This project models
the parts of it that compute:

- the `Vec2` value type;
- the generic `PIDController`, used with `Vec2` errors and scalar gains and
  with plain floats;
- the `Path` interface and its `LinePath`, a straight segment run with a
  smoothstep profile, together with its `max_acceleration` bound;
- the `Robot`, which runs two velocity loops on each `tick`, saturates their
  outputs as wheel voltages and integrates the result;
- the `PathFollower`, which on each `tick` drives the robot towards the origin
  and heading zero;
- the `Viewport` mapping from world coordinates through normalised device
  coordinates (NDC) to pixels. `Viewports.Viewport.WorldToNdc` and
  `WorldToPx` are the source's maps as written; `WorldToNdcCorrected` and
  `WorldToPxCorrected` are the fix described under Findings.

Floats are modelled as exact reals. `sqrtf`, `sinf` and `cosf` are supplied
by the caller as a `CMath.MathLib` value. The model assumes only that its
`sqrtf` returns the non-negative square root of a non-negative argument
(`MathLib.Valid`).

Modules and files:

| file | module | models |
|---|---|---|
| cmath.dfy | `CMath` | `sqrtf`/`sinf`/`cosf` as parameters, `abs`, sign facts about squares and products |
| vec2.dfy | `Vectors` | include/vec2.hpp |
| pid.dfy | `Pids` | include/pid.hpp, as the pure functions `ScalarOutput`/`VectorOutput` and the classes `ScalarPid`/`VectorPid` |
| path.dfy | `Paths` | include/path.hpp, impl/path.cpp |
| robot.dfy | `Robots` | include/robot.hpp, impl/robot.cpp |
| path_follower.dfy | `PathFollowers` | include/path_follower.hpp, impl/path_follower.cpp |
| viewport.dfy | `Viewports` | include/viewport.hpp |

Objects whose fields the source updates in place (`PIDController`, `Robot`,
`PathFollower`) are classes. Each mutating method is specified by a pure
function of the old state:

- `Robot.Tick` ensures `State() == Step(old(State()), dt, m)`.
- The properties of a tick are proved as lemmas about `Step` and `Run`.

## Model

| member | source | states |
|---|---|---|
| Vectors.Vec2.Add | include/vec2.hpp:20 | definition: `{x + o.x, y + o.y}` |
| Vectors.Vec2.Sub | include/vec2.hpp:21 | definition: `{x - o.x, y - o.y}` |
| Vectors.Vec2.Mul | include/vec2.hpp:22 | definition: `{x * f, y * f}` |
| Vectors.Vec2.Div | include/vec2.hpp:23 | definition: `{x / f, y / f}`, for `f != 0` |
| Vectors.Vec2.Dot | include/vec2.hpp:28 | definition: `a.x*b.x + a.y*b.y` |
| Vectors.Scale | include/vec2.hpp:31-33 | definition: the free `f * v` is `v * f` |
| Vectors.Vec2.AddAssign | include/vec2.hpp:24 | `+=` leaves the receiver equal to `v + o`, and subtracting `o` gives the old value back |
| Vectors.Vec2.SubAssign | include/vec2.hpp:25 | `-=` leaves the receiver equal to `v - o`, and adding `o` gives the old value back |
| Vectors.Vec2.MulAssign | include/vec2.hpp:26 | for a factor `f` that is not one of the receiver's own components, `*=` leaves the receiver equal to `v * f`, which is also the free `f * v` (the aliased case is under Left out) |
| Vectors.Vec2.Length | include/vec2.hpp:18 | the length is non-negative and its square is `dot(v, v)` |
| Vectors.AddSubInverse | include/vec2.hpp:20-21 | `+` and `-` act componentwise, and `(a + b) - b == a` |
| Vectors.ScaleCommutes | include/vec2.hpp:31-33 | `f * v` scales both components and equals `v * f` |
| Vectors.DivIsMulByReciprocal | include/vec2.hpp:22-23 | `v / f == v * (1/f)` for `f != 0` |
| Vectors.SubZero | include/vec2.hpp:21 | `b - a` is the zero vector exactly when `a == b` |
| Vectors.DotSymmetric | include/vec2.hpp:28 | `dot(a, b) == dot(b, a)` |
| Vectors.DotSelfPositive | include/vec2.hpp:28 | `dot(v, v) > 0` for every non-zero `v` |
| Vectors.LengthZero | include/vec2.hpp:18 | `length()` is zero exactly for the zero vector |
| Vectors.LengthScale | include/vec2.hpp:18-22 | `(v * c).length() == abs(c) * v.length()` |
| Pids.ScalarAdvance | include/pid.hpp:18-21 | definition: the memory after one `update` with error `e` is `(e, accum + e·dt)` |
| Pids.ScalarOutput | include/pid.hpp:17-23 | definition: `kP·e + kI·(accum + e·dt) + kD·(e − last)/dt`, for `dt != 0` |
| Pids.VectorAdvance | include/pid.hpp:18-21 | definition: the same memory update with `Vec2` errors |
| Pids.VectorOutput | include/pid.hpp:17-23 | definition: the same output with `Vec2` errors and scalar gains, `kP * error` being the free `float * Vec2` |
| Pids.ScalarPid.constructor | include/pid.hpp:13 | the gains are the arguments; both errors start at zero |
| Pids.ScalarPid.Update | include/pid.hpp:17-24 | the gains do not change; the memory advances to (error, accumulated + error·dt); the result is `kP·e + kI·accum + kD·(e − last)/dt` from the new accumulated error |
| Pids.ScalarPid.Reset | include/pid.hpp:26-28 | both errors return to zero; the gains are kept |
| Pids.VectorPid.constructor | include/pid.hpp:13 | the same, for `Vec2` errors |
| Pids.VectorPid.Update | include/pid.hpp:17-24 | the same as `ScalarPid.Update`, with `Vec2` errors and scalar gains |
| Pids.VectorPid.Reset | include/pid.hpp:26-28 | both errors return to the zero vector; the gains are kept |
| Pids.VectorMatchesScalar | include/pid.hpp:11-24 | the `Vec2` controller is the float controller run on each axis separately: outputs and memories agree componentwise |
| Pids.ProportionalOnly | include/pid.hpp:23 | with `kI = kD = 0` the output is `kP·e` whatever the memory |
| Pids.ZeroErrorAtRest | include/pid.hpp:17-30 | a fresh controller that sees zero error outputs zero and stays fresh |
| Pids.ZeroVectorErrorAtRest | include/pid.hpp:17-30 | the same for the `Vec2` controller |
| Pids.ConstantErrorNoDerivative | include/pid.hpp:19-23 | a second update with the same error has no derivative term |
| Pids.AccumulateConstantError | include/pid.hpp:19-21 | after `n` updates with error `e` the accumulated error has grown by exactly `n·e·dt`, and the last error is `e` |
| Paths.Smoothstep | impl/path.cpp:17 | definition: `3t² − 2t³` |
| Paths.Path.SamplePosition | impl/path.cpp:16-18 | definition: `(b − a)·(3t² − 2t³) + a` |
| Paths.Path.MaxAcceleration | impl/path.cpp:20-22 | `max_acceleration()` is never negative |
| Paths.SmoothstepFixedPoints | impl/path.cpp:17 | the smoothstep profile fixes 0, 1/2 and 1 |
| Paths.SmoothstepSymmetric | impl/path.cpp:17 | `s(1 − t) == 1 − s(t)` |
| Paths.SmoothstepBounds | impl/path.cpp:17 | on `[0, 1]` the profile stays in `[0, 1]` |
| Paths.SmoothstepMonotone | impl/path.cpp:17 | on `[0, 1]` the profile never decreases |
| Paths.SmoothstepFlatEnds | impl/path.cpp:17 | the profile's slope is zero at `t = 0` and `t = 1` |
| Paths.SmoothstepSlopeIsDerivative | impl/path.cpp:17 | `6t − 6t²` is the derivative of the profile: the symmetric difference quotient differs from it by exactly `2h²` |
| Paths.SmoothstepCurvatureIsSecondDerivative | impl/path.cpp:17 | `6 − 12t` is the exact second difference quotient of the profile |
| Paths.CurvatureBounds | impl/path.cpp:17 | on `[0, 1]` the second derivative lies in `[−6, 6]`, with `6` at 0 and `−6` at 1 |
| Paths.LinePathEndpoints | impl/path.cpp:13-18 | `sample_position` is `a` at 0, the midpoint at 1/2 and `b` at 1 |
| Paths.SampleOnSegment | impl/path.cpp:16-18 | every sample is the point `s(t)` of the way from `a` to `b`, with `s(t)` in `[0, 1]` for `t` in `[0, 1]` |
| Paths.SampleProgress | impl/path.cpp:16-18 | a later time in `[0, 1]` is never further back along the segment |
| Paths.ReversedPath | impl/path.cpp:16-18 | running `LinePath(b, a)` is running `LinePath(a, b)` backwards in time |
| Paths.AccelerationIsSecondDerivative | impl/path.cpp:16-18 | `(b − a)·(6 − 12t)` is the exact second difference quotient of `sample_position` |
| Paths.RestAtEnds | impl/path.cpp:16-18 | the velocity along the path is zero at both ends |
| Paths.MaxAccelerationZero | impl/path.cpp:20-22 | the bound is zero exactly when `a == b` |
| Paths.MaxAccelerationIsBound | include/path.hpp:20-21 | `max_acceleration()` bounds the norm of the second derivative of `sample_position` on `[0, 1]`, as its comment says |
| Paths.MaxAccelerationAttained | include/path.hpp:20-21 | the bound is attained at `t = 0` and `t = 1`, so it is the maximum |
| Robots.DrivetrainConstants | include/robot.hpp:52-69 | the derived constants follow from the base constants by the source's formulas |
| Robots.WheelPercent | impl/robot.cpp:90-93 | the linear wheel command has length at most 1; it is `xy/12` when that is no longer than 1, and otherwise `xy/12` rescaled to length 1 |
| Robots.UnitRescale | impl/robot.cpp:91-93 | dividing a vector longer than 1 by its length leaves length 1 and keeps its direction |
| Robots.RotationalPercent | impl/robot.cpp:97-98 | the angular wheel command lies in `[−1, 1]`; it is `r/12` when that is within range, and otherwise its sign |
| Robots.LinearAcceleration | impl/robot.cpp:90-95 | the linear acceleration never exceeds `bot_acceleration` in length |
| Robots.AngularAcceleration | impl/robot.cpp:97-100 | the angular acceleration never exceeds `bot_angular_acceleration` in magnitude |
| Robots.VelocityLoopIsProportional | include/robot.hpp:44 | the velocity loop's gains (1, 0, 0) make its output equal its error |
| Robots.Step | impl/robot.cpp:79-104 | definition: one `tick(dt)` on the whole state. Both loops run on the old state, `apply_voltages` adds the saturated accelerations times `dt` to the velocities, and the pose then moves with the new velocities |
| Robots.StepIsSemiImplicit | impl/robot.cpp:79-87 | `tick` moves the pose with the velocities it has just updated; the setpoints are unchanged |
| Robots.VelocityIncrement | impl/robot.cpp:83-102 | the velocity a `tick` adds is the saturated acceleration times `dt` |
| Robots.VelocityChangeBounded | impl/robot.cpp:79-104 | one `tick` changes the linear velocity by at most `bot_acceleration·|dt|` |
| Robots.AngularVelocityChangeBounded | impl/robot.cpp:79-104 | one `tick` changes the angular velocity by at most `bot_angular_acceleration·|dt|` |
| Robots.ShortCommandPassesThrough | impl/robot.cpp:90-93 | a command whose twelfth is no longer than 1 is not rescaled |
| Robots.WheelPercentOfZero | impl/robot.cpp:90-93 | no linear voltage gives no wheel command |
| Robots.LinearAccelerationOfZero | impl/robot.cpp:90-95 | no linear voltage gives no linear acceleration |
| Robots.AngularAccelerationOfZero | impl/robot.cpp:97-100 | no angular voltage gives no angular acceleration |
| Robots.LinearCommandSteady | impl/robot.cpp:80 | when the velocity equals its setpoint the velocity loop outputs zero |
| Robots.SteadyVelocity | impl/robot.cpp:79-104 | a robot whose velocity equals its setpoint keeps that velocity through a `tick` |
| Robots.AngularCommandAtRest | impl/robot.cpp:81 | at rest the angular loop outputs zero and its memory stays fresh |
| Robots.VelocityMemoryAtRest | impl/robot.cpp:80 | at rest the velocity loop's memory does not change |
| Robots.AngularVelocityAtRest | impl/robot.cpp:81-103 | at rest the angular velocity stays zero |
| Robots.VelocityAtRest | impl/robot.cpp:80-102 | at rest the linear velocity stays zero |
| Robots.RestIsFixedPoint | impl/robot.cpp:79-87 | a robot at rest (the state the constructor creates) is left exactly as it is by a `tick` |
| Robots.RestIsFixedPointForAll | impl/robot.cpp:79-87 | every non-zero `tick` leaves a robot at rest unchanged |
| Robots.FixedPointPersists | impl/robot.cpp:79-87 | a state that every `tick` leaves alone is left alone by any sequence of ticks |
| Robots.RestPersists | impl/robot.cpp:79-87 | a robot at rest stays at rest through any sequence of ticks of any non-zero lengths |
| Robots.Robot.constructor | include/robot.hpp:21 | the robot starts at the origin, facing +x, still, with zero setpoints, fresh loops and the gains (1,0,0) and (5,0.1,0) |
| Robots.Robot.Forward | include/robot.hpp:23-25 | definition: `(cos r, sin r)` through the supplied `cosf`/`sinf` |
| Robots.Robot.Right | include/robot.hpp:26-28 | `right()` is `forward()` turned a quarter turn clockwise, so the two are perpendicular |
| Robots.Robot.SetVelocitySetpoint | impl/robot.cpp:72-74 | only the velocity setpoint changes, to the argument |
| Robots.Robot.SetAngularVelocitySetpoint | impl/robot.cpp:75-77 | only the angular velocity setpoint changes, to the argument |
| Robots.Robot.GetFrameCenter | impl/path_follower.cpp:25 | definition: reads `frame_center` |
| Robots.Robot.GetRotationRadians | impl/path_follower.cpp:26 | definition: reads `rotation_radians` |
| Robots.Robot.GetVelocity | impl/path_follower.cpp:28 | definition: reads `velocity` |
| Robots.Robot.ApplyVoltages | impl/robot.cpp:89-104 | only the two velocities change; each grows by its saturated acceleration times `dt` |
| Robots.Robot.Tick | impl/robot.cpp:79-87 | the new state is `Step` of the old one; the loops keep their gains |
| PathFollowers.SpeedDerivativeGain | impl/path_follower.cpp:28 | the derivative gain `10·|velocity|` is non-negative and zero exactly when the robot is still |
| PathFollowers.PositionCommand | impl/path_follower.cpp:22-30 | definition: the position loop's output for the error `{0,0} − pos` |
| PathFollowers.HeadingCommand | impl/path_follower.cpp:23-31 | definition: the angle loop's output for the error `0 − angle` |
| PathFollowers.PositionErrorPointsHome | impl/path_follower.cpp:22-30 | the position loop's error is the vector from the robot back to the origin |
| PathFollowers.FirstCommand | impl/path_follower.cpp:13-31 | on the first tick the velocity setpoint is `−(20 + kD/dt)` times the position, pointing at the origin, and the angular setpoint is `−(7.5 + 1.5/dt)` times the heading |
| PathFollowers.AtOriginCommandsNothing | impl/path_follower.cpp:13-31 | a robot at the origin with heading zero gets zero setpoints from fresh loops, whatever its speed |
| PathFollowers.PathFollower.constructor | impl/path_follower.cpp:13-15 | the follower keeps the robot, starts fresh loops with gains (20,0,2) and (7.5,0,1.5), has no path, and `time = 0`, `duration = 10`, `feedforward = 0.6` |
| PathFollowers.PathFollower.Tick | impl/path_follower.cpp:21-35 | `kD` becomes `10·|velocity|`; both loops advance with the errors to the origin and to heading 0; the robot's setpoints become the loops' outputs and nothing else about the robot changes |
| Viewports.Viewport.WorldToNdc | include/viewport.hpp:19-22 | definition, as written: `c = (world − center) / (units_per_vw · 2)`, then `{c.x, −c.y}`, for `units_per_vw != 0` |
| Viewports.Viewport.WorldToNdcCorrected | include/viewport.hpp:15-22 | definition of the corrected map from Findings: `c = (world − center) / (units_per_vw / 2)`, then `{c.x, −c.y}` |
| Viewports.Viewport.NdcToPx | include/viewport.hpp:24-29 | definition: `((x·0.5 + 0.5)·w, (y·0.5 + 0.5)·w + h/2 − w/2)` |
| Viewports.Viewport.WorldToPx | include/viewport.hpp:31-33 | definition, as written: `ndc_to_px(world_to_ndc(world))` |
| Viewports.Viewport.WorldToPxCorrected | include/viewport.hpp:31-33 | definition of the corrected map from Findings: `ndc_to_px` after `WorldToNdcCorrected` |
| Viewports.DefaultViewport | include/viewport.hpp:14-17 | the default member initialisers `center = {0,0}` and `units_per_vw = 1`, with the size as a parameter: the span is non-zero and the world origin is drawn at `(width/2, height/2)` |
| Viewports.NdcToPxAffine | include/viewport.hpp:24-29 | `ndc_to_px` is affine: x goes from [−1, 1] onto [0, width], and y goes to `height/2 + y·width/2` |
| Viewports.NdcEdges | include/viewport.hpp:24-29 | NDC x of −1 and 1 land on pixel columns 0 and `width`; the NDC origin lands in the middle of the window |
| Viewports.NdcRoundTrip | include/viewport.hpp:24-29 | for a non-zero width, `ndc_to_px` has an inverse: dividing by `width/2` and subtracting the offsets gives the NDC point back |
| Viewports.NdcToPxInjective | include/viewport.hpp:24-29 | for a non-zero width, distinct NDC points land on distinct pixels |
| Viewports.WorldToNdcOffset | include/viewport.hpp:19-22 | `world_to_ndc` as written: NDC is the offset from the centre divided by `2·units_per_vw`, with y flipped |
| Viewports.WorldToNdcCorrectedOffset | include/viewport.hpp:14-22 | corrected (`WorldToNdcCorrected`), NDC is the offset from the centre divided by `units_per_vw/2`, with y flipped |
| Viewports.AsWrittenIsQuarterScale | include/viewport.hpp:15-22 | the as-written NDC is a quarter of the corrected NDC |
| Viewports.CenterIsMiddle | include/viewport.hpp:14-33 | both versions map the viewport's centre to NDC origin and to pixel `(width/2, height/2)` |
| Viewports.WorldToPxOrientation | include/viewport.hpp:19-33 | for a positive span and a non-zero width, a point higher in the world is drawn higher on screen and horizontal order is kept, both by the source's `world_to_px` (`WorldToPx`) and by the corrected `WorldToPxCorrected` |
| Viewports.AsWrittenSpanCoversMiddleQuarter | include/viewport.hpp:15-33 | as written, `center.x ± units_per_vw/2` is drawn at 3/8 and 5/8 of the width, not at its edges |
| Viewports.SpanFillsWidth | include/viewport.hpp:15-33 | corrected, `center.x ± units_per_vw/2` is drawn at pixel columns 0 and `width` |
| Viewports.QuarterPixelPerStep | include/viewport.hpp:19-33 | as written, a step of `units_per_vw/width` world units moves the drawing by only a quarter of a pixel, right or up |
| Viewports.UnitsPerPixel | include/viewport.hpp:15-33 | corrected (`WorldToPxCorrected`), a step of `units_per_vw/width` world units moves the drawing by exactly one pixel, right or up |

## Left out

- Drawing, event handling, the SDL window, fonts, the grid and the
  application loop are not modelled. This covers `draw` and `consume_event`
  on every class, camera_controller.cpp, world.cpp, gfx.cpp, app.cpp and
  main.cpp; they are SDL calls.
- IEEE-754 single precision is not modelled: rounding, infinities and NaN
  are absent. Every operation that divides by `dt` requires `dt != 0`, and
  the viewport functions require `units_per_vw != 0`. The source would
  produce infinities or NaN there.
- `sqrtf`, `sinf` and `cosf` are parameters (`CMath.MathLib`). Only the
  square root is given a property, so nothing is proved about
  `Robot.Forward` having unit length.
- Vectors.Vec2.MulAssign: the factor is taken by value. In
  include/vec2.hpp:26 it is a `const float&` that is read again after `x`
  is scaled, so `v *= v.x` gives `(x², x²·y)` there; that aliased case is
  not modelled. The only call in the core, impl/robot.cpp:92, passes a
  temporary.
- Robots.RotationalPercent: `abs` in impl/robot.cpp:98 is modelled as the
  real absolute value. Which overload the unqualified `abs` of a `float`
  resolves to depends on the headers in scope, and the integer `abs` would
  truncate.
- `PathFollower::set_path` is declared in include/path_follower.hpp:24 but
  has no definition, so it is not modelled. The `path`, `time`, `duration`,
  `feedforward` and `target` fields are modelled, but `tick` never reads
  them.
- `PathFollower::target` is left uninitialised by the source; the model
  leaves it unconstrained.
- `Robot::get_frame_center`, `get_rotation_radians` and `get_velocity` are
  called by impl/path_follower.cpp but declared nowhere. They are modelled
  as the field reads their names describe.
- `Path` is an abstract class with one implementation. It is modelled as a
  datatype with the single constructor `LinePath`; virtual dispatch and the
  destructor are not modelled.
- `Viewport::px_to_world` is called by camera_controller.cpp but is not in
  include/viewport.hpp; it is not part of this model.
- `width` and `height` are `unsigned int` and are modelled as `nat`. The
  source leaves both uninitialised; both are free parameters of the
  `Viewport` datatype here. The defaults `center = {0,0}` and
  `units_per_vw = 1` are `Viewports.DefaultViewport`; the datatype's
  constructor itself takes every field as a parameter.
- `Robot` is specified by the pure `Robots.Step`, and PID aliasing is ruled
  out by `Valid`. That means no follower loop is one of the robot's loops,
  which the constructors guarantee with fresh objects.

## Findings

| source | as written | input that shows it | evidently intended | confidence | as-written member | corrected member |
|---|---|---|---|---|---|---|
| include/viewport.hpp:19-22 | `world_to_ndc` divides the offset from the centre by `units_per_vw * 2`, so one viewport width spans `4·units_per_vw` world units | a viewport with `units_per_vw = 250`, `width = 800`: the world point `center + (125, 0)` is drawn at pixel x = 500 (5/8 of the width), while world.cpp:38-39 treat it as the right edge and camera_controller.cpp:35 pans `units_per_vw/width` units per pixel | the field comment at include/viewport.hpp:15 (world units per viewport width): divide by `units_per_vw / 2`, so that `center.x ± units_per_vw/2` are the left and right edges | not executed | Viewports.AsWrittenSpanCoversMiddleQuarter | Viewports.SpanFillsWidth |
