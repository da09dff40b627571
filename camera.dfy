/**
 The orbit camera (`CameraManager`): look input, scaled by a per-axis
 sensitivity, a per-axis sign and the frame time, accumulates into a yaw and a
 pitch angle; the pitch is clamped into a configured range after every frame,
 the yaw is never clamped.
 */
module Camera {
  import opened Engine

  /** Per-axis gains and invert flags, fixed after load. */
  datatype MouseSensitivity = MouseSensitivity(
    horizontal: real, vertical: real, invertHorizontal: bool, invertVertical: bool)

  /** The two accumulated angles, in degrees. */
  datatype CameraRotation = CameraRotation(pitch: real, yaw: real)

  /** The range the pitch is kept in. */
  datatype CameraAngle = CameraAngle(min: real, max: real)

  /** The sign applied to an axis: `true` gives +1 and `false` gives -1, so an
      invert flag left at `false` is the one that flips the axis. */
  function BoolToInt(b: bool): (r: int)
    ensures r == 1 || r == -1
    ensures r == 1 <==> b
  {
    if b then 1 else -1
  }

  /** What one frame adds to the yaw. */
  function YawDelta(input: Vec2, s: MouseSensitivity, dt: real): real
  {
    input.x * s.horizontal * (BoolToInt(s.invertHorizontal) as real) * dt
  }

  /** What one frame adds to the pitch before the clamp. */
  function PitchDelta(input: Vec2, s: MouseSensitivity, dt: real): real
  {
    input.y * s.vertical * (BoolToInt(s.invertVertical) as real) * dt
  }

  /** One frame of the camera: the angles after `Update` ran with the given
      input and frame time. */
  function CameraStep(rot: CameraRotation, input: Vec2, s: MouseSensitivity, angle: CameraAngle, dt: real)
    : (r: CameraRotation)
    ensures r.yaw == rot.yaw + YawDelta(input, s, dt)
    ensures r.pitch == Clamp(rot.pitch + PitchDelta(input, s, dt), angle.min, angle.max)
    ensures angle.min <= angle.max ==> angle.min <= r.pitch <= angle.max
    ensures input == Zero2 || dt == 0.0 ==> r.yaw == rot.yaw && r.pitch == Clamp(rot.pitch, angle.min, angle.max)
    ensures input == Zero2 && angle.min <= rot.pitch <= angle.max ==> r == rot
  {
    var yawed := rot.(yaw := rot.yaw + YawDelta(input, s, dt));
    var pitched := yawed.(pitch := yawed.pitch + PitchDelta(input, s, dt));
    pitched.(pitch := Clamp(pitched.pitch, angle.min, angle.max))
  }

  /** A frame with no look input, or with no elapsed time, only clamps: a
      second such frame changes nothing more. */
  lemma QuietFrameIdempotent(rot: CameraRotation, input: Vec2, s: MouseSensitivity, angle: CameraAngle, dt: real)
    requires input == Zero2 || dt == 0.0
    requires angle.min <= angle.max
    ensures var once := CameraStep(rot, input, s, angle, dt);
            CameraStep(once, input, s, angle, dt) == once
  {
  }

  /** The look input and the frame time of one frame. */
  datatype Frame = Frame(input: Vec2, dt: real)

  /** The angles after a run of frames, first frame first. */
  function CameraRun(rot: CameraRotation, frames: seq<Frame>, s: MouseSensitivity, angle: CameraAngle)
    : CameraRotation
    decreases |frames|
  {
    if frames == [] then rot
    else CameraRun(CameraStep(rot, frames[0].input, s, angle, frames[0].dt), frames[1..], s, angle)
  }

  /** The yaw the frames add up to. */
  function TotalYaw(frames: seq<Frame>, s: MouseSensitivity): real
    decreases |frames|
  {
    if frames == [] then 0.0 else YawDelta(frames[0].input, s, frames[0].dt) + TotalYaw(frames[1..], s)
  }

  /** Over any number of frames the yaw is the plain sum of the per-frame
      increments: it is never clamped. */
  lemma {:induction false} CameraRunYaw(rot: CameraRotation, frames: seq<Frame>, s: MouseSensitivity, angle: CameraAngle)
    ensures CameraRun(rot, frames, s, angle).yaw == rot.yaw + TotalYaw(frames, s)
    decreases |frames|
  {
    if frames != [] {
      CameraRunYaw(CameraStep(rot, frames[0].input, s, angle, frames[0].dt), frames[1..], s, angle);
    }
  }

  /** Whatever the input magnitudes and however many frames ran, the pitch is
      in range once at least one frame ran (or if it started in range). */
  lemma {:induction false} CameraRunPitchInRange(rot: CameraRotation, frames: seq<Frame>, s: MouseSensitivity, angle: CameraAngle)
    requires angle.min <= angle.max
    requires frames != [] || angle.min <= rot.pitch <= angle.max
    ensures angle.min <= CameraRun(rot, frames, s, angle).pitch <= angle.max
    decreases |frames|
  {
    if frames != [] {
      CameraRunPitchInRange(CameraStep(rot, frames[0].input, s, angle, frames[0].dt), frames[1..], s, angle);
    }
  }

  /** The camera component: its settings, the last look input it received and
      the angles it accumulates. */
  class CameraManager {
    const mouseSensitivity: MouseSensitivity
    const cameraAngle: CameraAngle
    var input: Vec2
    var cameraRotation: CameraRotation

    constructor (mouseSensitivity: MouseSensitivity, cameraAngle: CameraAngle)
      ensures this.mouseSensitivity == mouseSensitivity && this.cameraAngle == cameraAngle
      ensures input == Zero2 && cameraRotation == CameraRotation(0.0, 0.0)
    {
      this.mouseSensitivity := mouseSensitivity;
      this.cameraAngle := cameraAngle;
      input := Zero2;
      cameraRotation := CameraRotation(0.0, 0.0);
    }

    /** The look callback: remember the latest look input. */
    method Look(value: Vec2)
      modifies this`input
      ensures input == value
    {
      input := value;
    }

    /** The per-frame update: accumulate yaw, accumulate pitch, clamp pitch. */
    method Update(dt: real)
      modifies this`cameraRotation
      ensures cameraRotation == CameraStep(old(cameraRotation), input, mouseSensitivity, cameraAngle, dt)
      ensures cameraAngle.min <= cameraAngle.max ==> cameraAngle.min <= cameraRotation.pitch <= cameraAngle.max
    {
      cameraRotation := cameraRotation.(yaw := cameraRotation.yaw
        + input.x * mouseSensitivity.horizontal * (BoolToInt(mouseSensitivity.invertHorizontal) as real) * dt);
      cameraRotation := cameraRotation.(pitch := cameraRotation.pitch
        + input.y * mouseSensitivity.vertical * (BoolToInt(mouseSensitivity.invertVertical) as real) * dt);
      cameraRotation := cameraRotation.(pitch := Clamp(cameraRotation.pitch, cameraAngle.min, cameraAngle.max));
    }
  }
}
