/** The two-servo camera gimbal: a horizontal servo (id 2) and a vertical
    servo (id 1), each held within 0..180 degrees, both centred at 90. Every
    move sends one servo command and records the new angle. */
module Gimbal {
  import opened Motion

  /** The servo ids are crossed relative to their names in the wiring. */
  const ServoHorizontal: int := 2
  const ServoVertical: int := 1
  const MinAngle: int := 0
  const MaxAngle: int := 180
  const CenterAngle: int := 90
  const StepAngle: int := 10
  /** The largest offset from centre the absolute commands accept. */
  const MaxOffset: int := 90
  const DefaultOffset: int := 30

  /** `_clamp_angle`. */
  function ClampAngle(angle: int): (r: int)
    ensures MinAngle <= r <= MaxAngle
    ensures MinAngle <= angle <= MaxAngle ==> r == angle
    ensures angle > MaxAngle ==> r == MaxAngle
    ensures angle < MinAngle ==> r == MinAngle
  {
    Max(MinAngle, Min(MaxAngle, angle))
  }

  /** A relative step and the opposite step cancel away from the limits. */
  lemma StepsCancel(angle: int)
    requires MinAngle <= angle <= MaxAngle - StepAngle
    ensures ClampAngle(ClampAngle(angle + StepAngle) - StepAngle) == angle
    ensures MinAngle + StepAngle <= ClampAngle(angle + StepAngle)
  {
  }

  /** At a limit, a further step in that direction changes nothing. */
  lemma StepSaturates(angle: int)
    requires MinAngle <= angle <= MaxAngle
    ensures angle == MaxAngle ==> ClampAngle(angle + StepAngle) == angle
    ensures angle == MinAngle ==> ClampAngle(angle - StepAngle) == angle
  {
  }

  /** `max(0, min(90, angle))`, the offset the `yuntai_*` commands use. */
  function ClampOffset(angle: int): (r: int)
    ensures 0 <= r <= MaxOffset
    ensures 0 <= angle <= MaxOffset ==> r == angle
  {
    Max(0, Min(MaxOffset, angle))
  }

  /** The absolute targets of `yuntai_shang`/`yuntai_you` and of
      `yuntai_xia`/`yuntai_zuo`. */
  function UpTarget(angle: int): int { CenterAngle + ClampOffset(angle) }
  function DownTarget(angle: int): int { CenterAngle - ClampOffset(angle) }

  /** The two targets lie within the servo range, mirror each other about
      the centre, and are never clamped again by `set_vertical` or
      `set_horizontal`. */
  lemma TargetsMirror(angle: int)
    ensures UpTarget(angle) + DownTarget(angle) == 2 * CenterAngle
    ensures CenterAngle <= UpTarget(angle) <= MaxAngle
    ensures MinAngle <= DownTarget(angle) <= CenterAngle
    ensures ClampAngle(UpTarget(angle)) == UpTarget(angle)
    ensures ClampAngle(DownTarget(angle)) == DownTarget(angle)
  {
  }

  datatype Position = Position(horizontal: int, vertical: int)

  class GimbalController {
    var horizontalAngle: int
    var verticalAngle: int
    /** The servo commands sent so far. */
    var servoLog: seq<ServoCommand>

    ghost predicate Valid()
      reads this
    {
      MinAngle <= horizontalAngle <= MaxAngle && MinAngle <= verticalAngle <= MaxAngle
    }

    /** Both servos are centred and commanded there. */
    constructor ()
      ensures Valid()
      ensures horizontalAngle == CenterAngle && verticalAngle == CenterAngle
      ensures servoLog == [ServoCommand(ServoHorizontal, CenterAngle), ServoCommand(ServoVertical, CenterAngle)]
    {
      horizontalAngle := CenterAngle;
      verticalAngle := CenterAngle;
      servoLog := [ServoCommand(ServoHorizontal, CenterAngle), ServoCommand(ServoVertical, CenterAngle)];
    }

    /** `_move_horizontal`: positive to the right. */
    method MoveHorizontal(delta: int)
      modifies this
      ensures horizontalAngle == ClampAngle(old(horizontalAngle) + delta)
      ensures verticalAngle == old(verticalAngle)
      ensures servoLog == old(servoLog) + [ServoCommand(ServoHorizontal, horizontalAngle)]
      ensures old(Valid()) ==> Valid()
    {
      var newAngle := ClampAngle(horizontalAngle + delta);
      servoLog := servoLog + [ServoCommand(ServoHorizontal, newAngle)];
      horizontalAngle := newAngle;
    }

    /** `_move_vertical`: positive is up. */
    method MoveVertical(delta: int)
      modifies this
      ensures verticalAngle == ClampAngle(old(verticalAngle) + delta)
      ensures horizontalAngle == old(horizontalAngle)
      ensures servoLog == old(servoLog) + [ServoCommand(ServoVertical, verticalAngle)]
      ensures old(Valid()) ==> Valid()
    {
      var newAngle := ClampAngle(verticalAngle + delta);
      servoLog := servoLog + [ServoCommand(ServoVertical, newAngle)];
      verticalAngle := newAngle;
    }

    method Shang()
      modifies this
      ensures verticalAngle == ClampAngle(old(verticalAngle) + StepAngle) && horizontalAngle == old(horizontalAngle)
      ensures servoLog == old(servoLog) + [ServoCommand(ServoVertical, verticalAngle)]
      ensures old(Valid()) ==> Valid()
    {
      MoveVertical(StepAngle);
    }

    method Xia()
      modifies this
      ensures verticalAngle == ClampAngle(old(verticalAngle) - StepAngle) && horizontalAngle == old(horizontalAngle)
      ensures servoLog == old(servoLog) + [ServoCommand(ServoVertical, verticalAngle)]
      ensures old(Valid()) ==> Valid()
    {
      MoveVertical(-StepAngle);
    }

    method Zuo()
      modifies this
      ensures horizontalAngle == ClampAngle(old(horizontalAngle) - StepAngle) && verticalAngle == old(verticalAngle)
      ensures servoLog == old(servoLog) + [ServoCommand(ServoHorizontal, horizontalAngle)]
      ensures old(Valid()) ==> Valid()
    {
      MoveHorizontal(-StepAngle);
    }

    method You()
      modifies this
      ensures horizontalAngle == ClampAngle(old(horizontalAngle) + StepAngle) && verticalAngle == old(verticalAngle)
      ensures servoLog == old(servoLog) + [ServoCommand(ServoHorizontal, horizontalAngle)]
      ensures old(Valid()) ==> Valid()
    {
      MoveHorizontal(StepAngle);
    }

    /** `fuwei`: both servos back to centre, horizontal first. */
    method Fuwei()
      modifies this
      ensures Valid() && horizontalAngle == CenterAngle && verticalAngle == CenterAngle
      ensures servoLog == old(servoLog) + [ServoCommand(ServoHorizontal, CenterAngle), ServoCommand(ServoVertical, CenterAngle)]
    {
      servoLog := servoLog + [ServoCommand(ServoHorizontal, CenterAngle), ServoCommand(ServoVertical, CenterAngle)];
      horizontalAngle := CenterAngle;
      verticalAngle := CenterAngle;
    }

    method SetHorizontal(angle: int)
      modifies this
      ensures old(Valid()) ==> Valid()
      ensures horizontalAngle == ClampAngle(angle) && verticalAngle == old(verticalAngle)
      ensures servoLog == old(servoLog) + [ServoCommand(ServoHorizontal, horizontalAngle)]
    {
      var a := ClampAngle(angle);
      servoLog := servoLog + [ServoCommand(ServoHorizontal, a)];
      horizontalAngle := a;
    }

    method SetVertical(angle: int)
      modifies this
      ensures old(Valid()) ==> Valid()
      ensures verticalAngle == ClampAngle(angle) && horizontalAngle == old(horizontalAngle)
      ensures servoLog == old(servoLog) + [ServoCommand(ServoVertical, verticalAngle)]
    {
      var a := ClampAngle(angle);
      servoLog := servoLog + [ServoCommand(ServoVertical, a)];
      verticalAngle := a;
    }

    method GetPosition() returns (p: Position)
      requires Valid()
      ensures p == Position(horizontalAngle, verticalAngle)
      ensures MinAngle <= p.horizontal <= MaxAngle && MinAngle <= p.vertical <= MaxAngle
    {
      p := Position(horizontalAngle, verticalAngle);
    }
  }

  /** `yuntai_shang(angle)`: look up to an absolute `90 + offset`. */
  method YuntaiShang(g: GimbalController, angle: int := DefaultOffset)
    modifies g
    ensures g.verticalAngle == UpTarget(angle) && g.horizontalAngle == old(g.horizontalAngle)
    ensures g.servoLog == old(g.servoLog) + [ServoCommand(ServoVertical, UpTarget(angle))]
  {
    TargetsMirror(angle);
    g.SetVertical(UpTarget(angle));
  }

  /** `yuntai_xia(angle)`: look down to an absolute `90 - offset`. */
  method YuntaiXia(g: GimbalController, angle: int := DefaultOffset)
    modifies g
    ensures g.verticalAngle == DownTarget(angle) && g.horizontalAngle == old(g.horizontalAngle)
    ensures g.servoLog == old(g.servoLog) + [ServoCommand(ServoVertical, DownTarget(angle))]
  {
    TargetsMirror(angle);
    g.SetVertical(DownTarget(angle));
  }

  /** `yuntai_zuo(angle)`: turn left to an absolute `90 - offset`. */
  method YuntaiZuo(g: GimbalController, angle: int := DefaultOffset)
    modifies g
    ensures g.horizontalAngle == DownTarget(angle) && g.verticalAngle == old(g.verticalAngle)
    ensures g.servoLog == old(g.servoLog) + [ServoCommand(ServoHorizontal, DownTarget(angle))]
  {
    TargetsMirror(angle);
    g.SetHorizontal(DownTarget(angle));
  }

  /** `yuntai_you(angle)`: turn right to an absolute `90 + offset`. */
  method YuntaiYou(g: GimbalController, angle: int := DefaultOffset)
    modifies g
    ensures g.horizontalAngle == UpTarget(angle) && g.verticalAngle == old(g.verticalAngle)
    ensures g.servoLog == old(g.servoLog) + [ServoCommand(ServoHorizontal, UpTarget(angle))]
  {
    TargetsMirror(angle);
    g.SetHorizontal(UpTarget(angle));
  }

  /** `yuntai_fuwei()`: the shared controller's `fuwei`. */
  method YuntaiFuwei(g: GimbalController)
    modifies g
    ensures g.Valid() && g.horizontalAngle == CenterAngle && g.verticalAngle == CenterAngle
    ensures g.servoLog == old(g.servoLog) + [ServoCommand(ServoHorizontal, CenterAngle), ServoCommand(ServoVertical, CenterAngle)]
  {
    g.Fuwei();
  }

  /** The absolute commands are idempotent: repeating one leaves the angle
      where the first put it, while a relative step keeps moving. */
  method RepeatedCommands() returns (absolute: Position, relative: Position)
    ensures absolute == Position(CenterAngle, UpTarget(DefaultOffset)) && absolute.vertical == 120
    ensures relative == Position(CenterAngle, 110)
  {
    var g := new GimbalController();
    YuntaiShang(g);
    YuntaiShang(g);
    absolute := g.GetPosition();
    g.Fuwei();
    g.Shang();
    g.Shang();
    relative := g.GetPosition();
  }
}
