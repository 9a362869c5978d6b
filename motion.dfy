/** The motion controller of the hardware binding layer, on its mock path:
    every chassis command overwrites the four simulated wheel speeds, and
    servo commands (Board.setPWMServoAngle on the hardware path) are recorded
    in an abstract command log. */
module Motion {
  import opened Wrappers
  import Text

  /** One `Board.setPWMServoAngle(servo, angle)` command. */
  datatype ServoCommand = ServoCommand(servo: int, angle: int)

  /** The defaults of MOTOR_MAX_SPEED and SERVO_MAX_ANGLE. */
  const DefaultMaxSpeed: nat := 80
  const DefaultServoMaxAngle: nat := 180

  /** `yidong_xy` clamps each axis to this range instead of `max_speed`. */
  const AxisLimit: int := 100

  /** The angle `reset_servos` sends to every servo. */
  const ResetAngle: int := 90

  function Min(a: int, b: int): int { if a <= b then a else b }
  function Max(a: int, b: int): int { if a >= b then a else b }

  /** Every entry of `speeds` lies within [-bound, bound]. */
  predicate WithinBound(speeds: seq<int>, bound: int) {
    forall i :: 0 <= i < |speeds| ==> -bound <= speeds[i] <= bound
  }

  /** The axis clamp of `yidong_xy`: `max(-100, min(100, v))`. */
  function ClampAxis(v: int): (r: int)
    ensures -AxisLimit <= r <= AxisLimit
    ensures -AxisLimit <= v <= AxisLimit ==> r == v
    ensures v > AxisLimit ==> r == AxisLimit
    ensures v < -AxisLimit ==> r == -AxisLimit
  {
    Max(-AxisLimit, Min(AxisLimit, v))
  }

  /** Python's `int(v)` on a float: truncation toward zero. */
  function TruncToInt(v: real): (n: int)
    ensures v >= 0.0 ==> 0 <= n && n as real <= v < n as real + 1.0
    ensures v < 0.0 ==> n <= 0 && n as real - 1.0 < v <= n as real
  {
    if v >= 0.0 then v.Floor else -((-v).Floor)
  }

  /** A whole number passes through `int` unchanged. */
  lemma TruncWhole(k: int)
    ensures TruncToInt(k as real) == k
  {
  }

  /** The commands `reset_servos` issues: servos 1 to 6, each to 90 degrees. */
  function ResetCommands(): (cmds: seq<ServoCommand>)
    ensures |cmds| == 6
    ensures forall i :: 0 <= i < 6 ==> cmds[i] == ServoCommand(i + 1, ResetAngle)
  {
    seq(6, i => ServoCommand(i + 1, ResetAngle))
  }

  class MotionController {
    /** MOTOR_MAX_SPEED and SERVO_MAX_ANGLE, read once at construction. */
    const maxSpeed: nat
    const servoMaxAngle: nat
    /** `_motor_speeds`: [front-left, front-right, rear-left, rear-right]. */
    var motorSpeeds: seq<int>
    /** The servo commands issued so far. */
    var servoCommands: seq<ServoCommand>

    ghost predicate Valid()
      reads this
    {
      |motorSpeeds| == 4
    }

    constructor (maxSpeed: nat := DefaultMaxSpeed, servoMaxAngle: nat := DefaultServoMaxAngle)
      ensures Valid()
      ensures this.maxSpeed == maxSpeed && this.servoMaxAngle == servoMaxAngle
      ensures motorSpeeds == [0, 0, 0, 0] && servoCommands == []
    {
      this.maxSpeed := maxSpeed;
      this.servoMaxAngle := servoMaxAngle;
      motorSpeeds := [0, 0, 0, 0];
      servoCommands := [];
    }

    /** `_clamp_speed`: the nearest speed within [-max_speed, max_speed]. */
    function ClampSpeed(speed: int): (r: int)
      ensures -(maxSpeed as int) <= r <= maxSpeed
      ensures -(maxSpeed as int) <= speed <= maxSpeed ==> r == speed
      ensures speed > maxSpeed ==> r == maxSpeed
      ensures speed < -(maxSpeed as int) ==> r == -(maxSpeed as int)
    {
      Max(-(maxSpeed as int), Min(maxSpeed, speed))
    }

    /** `_clamp_angle`: the nearest angle within [0, servo_max_angle]. */
    function ClampAngle(angle: int): (r: int)
      ensures 0 <= r <= servoMaxAngle
      ensures 0 <= angle <= servoMaxAngle ==> r == angle
      ensures angle > servoMaxAngle ==> r == servoMaxAngle
      ensures angle < 0 ==> r == 0
    {
      Max(0, Min(servoMaxAngle, angle))
    }

    /** `qianjin`: forward, all four wheels at the clamped speed. */
    method Qianjin(speed: int := 50)
      modifies this`motorSpeeds
      ensures var s := ClampSpeed(speed); motorSpeeds == [s, s, s, s]
      ensures Valid() && WithinBound(motorSpeeds, maxSpeed)
    {
      var s := ClampSpeed(speed);
      motorSpeeds := [s, s, s, s];
    }

    /** `houtui`: backward, all four wheels at the negated clamped speed. */
    method Houtui(speed: int := 50)
      modifies this`motorSpeeds
      ensures var s := ClampSpeed(speed); motorSpeeds == [-s, -s, -s, -s]
      ensures Valid() && WithinBound(motorSpeeds, maxSpeed)
    {
      var s := ClampSpeed(speed);
      motorSpeeds := [-s, -s, -s, -s];
    }

    /** `zuopingyi`: strafe left. */
    method Zuopingyi(speed: int := 50)
      modifies this`motorSpeeds
      ensures var s := ClampSpeed(speed); motorSpeeds == [-s, s, s, -s]
      ensures Valid() && WithinBound(motorSpeeds, maxSpeed)
    {
      var s := ClampSpeed(speed);
      motorSpeeds := [-s, s, s, -s];
    }

    /** `youpingyi`: strafe right. */
    method Youpingyi(speed: int := 50)
      modifies this`motorSpeeds
      ensures var s := ClampSpeed(speed); motorSpeeds == [s, -s, -s, s]
      ensures Valid() && WithinBound(motorSpeeds, maxSpeed)
    {
      var s := ClampSpeed(speed);
      motorSpeeds := [s, -s, -s, s];
    }

    /** `xuanzhuan`: rotate clockwise on the spot. */
    method Xuanzhuan(speed: int := 50)
      modifies this`motorSpeeds
      ensures var s := ClampSpeed(speed); motorSpeeds == [s, -s, s, -s]
      ensures Valid() && WithinBound(motorSpeeds, maxSpeed)
    {
      var s := ClampSpeed(speed);
      motorSpeeds := [s, -s, s, -s];
    }

    /** `fxuanzhuan`: rotate counter-clockwise on the spot. */
    method Fxuanzhuan(speed: int := 50)
      modifies this`motorSpeeds
      ensures var s := ClampSpeed(speed); motorSpeeds == [-s, s, -s, s]
      ensures Valid() && WithinBound(motorSpeeds, maxSpeed)
    {
      var s := ClampSpeed(speed);
      motorSpeeds := [-s, s, -s, s];
    }

    /** `tingzhi`: every wheel stopped; calling it again changes nothing. */
    method Tingzhi()
      modifies this`motorSpeeds
      ensures motorSpeeds == [0, 0, 0, 0]
      ensures Valid() && WithinBound(motorSpeeds, 0)
    {
      motorSpeeds := [0, 0, 0, 0];
    }

    /** `yidong_xy`: each axis truncated toward zero by `int`, clamped to
        [-100, 100] (not to max_speed), then mixed as
        [vy+vx, vy-vx, vy-vx, vy+vx]; the sums reach +-200. */
    method YidongXy(vx: real, vy: real)
      modifies this`motorSpeeds
      ensures var x, y := ClampAxis(TruncToInt(vx)), ClampAxis(TruncToInt(vy));
              motorSpeeds == [y + x, y - x, y - x, y + x]
      ensures Valid() && WithinBound(motorSpeeds, 2 * AxisLimit)
    {
      var x := ClampAxis(TruncToInt(vx));
      var y := ClampAxis(TruncToInt(vy));
      motorSpeeds := [y + x, y - x, y - x, y + x];
    }

    /** `set_servo`: an id outside 1..6 raises ValueError before anything is
        sent; otherwise one command with the clamped angle is issued. */
    method SetServo(servoId: int, angle: int) returns (o: Outcome)
      modifies this`servoCommands
      ensures (servoId < 1 || servoId > 6) <==> o.Raised?
      ensures o.Raised? ==>
        o.error == ValueError("无效的舵机ID: " + Text.IntToDecimal(servoId))
        && servoCommands == old(servoCommands)
      ensures o.Done? ==> servoCommands == old(servoCommands) + [ServoCommand(servoId, ClampAngle(angle))]
    {
      if servoId < 1 || servoId > 6 {
        return Raised(ValueError("无效的舵机ID: " + Text.IntToDecimal(servoId)));
      }
      var a := ClampAngle(angle);
      servoCommands := servoCommands + [ServoCommand(servoId, a)];
      o := Done;
    }

    /** `reset_servos`: servos 1 through 6, in order, each to 90 degrees. */
    method ResetServos()
      modifies this`servoCommands
      ensures servoCommands == old(servoCommands) + ResetCommands()
    {
      for i := 1 to 7
        invariant servoCommands == old(servoCommands) + ResetCommands()[..i - 1]
      {
        assert ResetCommands()[..i] == ResetCommands()[..i - 1] + [ServoCommand(i, ResetAngle)];
        servoCommands := servoCommands + [ServoCommand(i, ResetAngle)];
      }
      assert ResetCommands()[..6] == ResetCommands();
    }
  }

  /** The wheel speeds of `yidong_xy(50, 30)`; a request beyond the speed
      limit: `yidong_xy(100, 100)` drives two wheels at 200 while every other
      command is held to `max_speed` (80 by default); and fractional inputs:
      `yidong_xy(2.7, -0.5)` moves as (2, 0). */
  lemma YidongXyExamples()
    ensures var x, y := ClampAxis(TruncToInt(50.0)), ClampAxis(TruncToInt(30.0));
            [y + x, y - x, y - x, y + x] == [80, -20, -20, 80]
    ensures var x, y := ClampAxis(TruncToInt(100.0)), ClampAxis(TruncToInt(100.0)); y + x == 200 > DefaultMaxSpeed
    ensures ClampAxis(TruncToInt(2.7)) == 2 && ClampAxis(TruncToInt(-0.5)) == 0
  {
    TruncWhole(50);
    TruncWhole(30);
    TruncWhole(100);
  }
}
