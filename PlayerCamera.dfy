// The hinge camera the player owns (game/src/player/camera_controller.rs):
// mouse motion turns the camera without bound around the vertical axis (yaw)
// and tilts it up and down (pitch), the tilt clamped to a quarter turn either
// way. Once per tick the pivot node's rotation is set from yaw and pitch.
module PlayerCamera {
  import opened Algebra
  import opened Input

  /** pi, as the real number the f32 constant stands for. */
  const Pi: real := 3.14159265358979323846

  /** Radians of turn per unit of mouse motion. */
  const MouseSensitivity: real := 0.0025

  /** `90f32.to_radians()`: the largest tilt up or down. */
  const MaxPitch: real := 90.0 * (Pi / 180.0)

  /** The two angles the controller accumulates. */
  datatype Angles = Angles(yaw: real, pitch: real)

  predicate PitchInRange(pitch: real)
  {
    -MaxPitch <= pitch <= MaxPitch
  }

  /** `pitch.max(-MaxPitch).min(MaxPitch)`. */
  function ClampPitch(pitch: real): (r: real)
    ensures PitchInRange(r)
    ensures PitchInRange(pitch) ==> r == pitch
    ensures pitch > MaxPitch ==> r == MaxPitch
    ensures pitch < -MaxPitch ==> r == -MaxPitch
  {
    var atLeast := if pitch >= -MaxPitch then pitch else -MaxPitch;
    if atLeast <= MaxPitch then atLeast else MaxPitch
  }

  /** The effect of one device event on the angles. */
  function Look(a: Angles, e: DeviceEvent): Angles
  {
    match e
    case MouseMotion(dx, dy) =>
      Angles(a.yaw - dx * MouseSensitivity, ClampPitch(a.pitch + dy * MouseSensitivity))
    case _ => a
  }

  /** The effect of a sequence of device events, delivered in order. */
  function LookAll(a: Angles, events: seq<DeviceEvent>): Angles
    decreases |events|
  {
    if events == [] then a else LookAll(Look(a, events[0]), events[1..])
  }

  /** The horizontal motion of a mouse event; 0 for any other event. */
  function DeltaX(e: DeviceEvent): real
  {
    if e.MouseMotion? then e.dx else 0.0
  }

  /** The total horizontal mouse motion in a sequence of events. */
  function TotalDeltaX(events: seq<DeviceEvent>): real
    decreases |events|
  {
    if events == [] then 0.0 else DeltaX(events[0]) + TotalDeltaX(events[1..])
  }

  /** The rotation `update` writes to the pivot: the turn about the vertical
      (y) axis composed with the tilt about the x axis, each produced by
      `axisAngle`, the engine's axis-angle constructor. */
  function PivotRotation(a: Angles, axisAngle: (Vec3, real) -> Quat): Quat
  {
    Mul(axisAngle(YAxis, a.yaw), axisAngle(XAxis, a.pitch))
  }

  /** On mouse motion the yaw decreases by the horizontal motion times the
      sensitivity, and the pitch moves with the vertical motion and is clamped;
      every other event leaves both angles alone. */
  lemma LookMouseMotion(a: Angles, dx: real, dy: real)
    ensures Look(a, MouseMotion(dx, dy)).yaw == a.yaw - dx * 0.0025
    ensures PitchInRange(a.pitch + dy * 0.0025) ==> Look(a, MouseMotion(dx, dy)).pitch == a.pitch + dy * 0.0025
    ensures a.pitch + dy * 0.0025 > MaxPitch ==> Look(a, MouseMotion(dx, dy)).pitch == MaxPitch
    ensures a.pitch + dy * 0.0025 < -MaxPitch ==> Look(a, MouseMotion(dx, dy)).pitch == -MaxPitch
  {
  }

  lemma LookOtherEvent(a: Angles, e: DeviceEvent)
    requires !e.MouseMotion?
    ensures Look(a, e) == a
  {
  }

  /** Once the camera looks straight up, moving the mouse further up (or not at
      all vertically) keeps it there; likewise straight down. */
  lemma PitchSaturates(a: Angles, dx: real, dy: real)
    ensures a.pitch == MaxPitch && dy >= 0.0 ==> Look(a, MouseMotion(dx, dy)).pitch == MaxPitch
    ensures a.pitch == -MaxPitch && dy <= 0.0 ==> Look(a, MouseMotion(dx, dy)).pitch == -MaxPitch
  {
  }

  /** Whatever the events, the pitch never leaves [-90 degrees, 90 degrees]
      once it starts there. */
  lemma {:induction false} PitchStaysInRange(a: Angles, events: seq<DeviceEvent>)
    requires PitchInRange(a.pitch)
    ensures PitchInRange(LookAll(a, events).pitch)
    decreases |events|
  {
    if events != [] {
      PitchStaysInRange(Look(a, events[0]), events[1..]);
    }
  }

  /** The yaw is not clamped: it is the starting yaw minus the sensitivity
      times all horizontal motion, however large that is. */
  lemma {:induction false} YawAccumulates(a: Angles, events: seq<DeviceEvent>)
    ensures LookAll(a, events).yaw == a.yaw - TotalDeltaX(events) * MouseSensitivity
    decreases |events|
  {
    if events != [] {
      var b := Look(a, events[0]);
      assert b.yaw == a.yaw - DeltaX(events[0]) * MouseSensitivity;
      YawAccumulates(b, events[1..]);
    }
  }

  /** When the engine's axis-angle constructor gives unit quaternions for
      both angles, the pivot rotation is a unit quaternion too (nothing
      re-normalises the product). */
  lemma PivotRotationIsUnit(a: Angles, axisAngle: (Vec3, real) -> Quat)
    requires IsUnit(axisAngle(YAxis, a.yaw)) && IsUnit(axisAngle(XAxis, a.pitch))
    ensures IsUnit(PivotRotation(a, axisAngle))
  {
    UnitMul(axisAngle(YAxis, a.yaw), axisAngle(XAxis, a.pitch));
  }

  /** The pivot, with the hinge angles it is driven by. */
  class CameraController {
    var yaw: real
    var pitch: real
    /** The rotation of the pivot node's local transform. */
    var pivotRotation: Quat
    /** The position of the pivot node's local transform. */
    var pivotPosition: Vec3

    ghost predicate Valid()
      reads this
    {
      PitchInRange(pitch)
    }

    function Facing(): Angles
      reads this
    {
      Angles(yaw, pitch)
    }

    /** Yaw and pitch start at 0; a freshly built pivot sits at the origin
        with no rotation. */
    constructor ()
      ensures Valid()
      ensures yaw == 0.0 && pitch == 0.0
      ensures pivotRotation == Identity && pivotPosition == Zero
    {
      yaw, pitch := 0.0, 0.0;
      pivotRotation, pivotPosition := Identity, Zero;
    }

    method HandleDeviceEvent(e: DeviceEvent)
      requires Valid()
      modifies this`yaw, this`pitch
      ensures Valid()
      ensures Facing() == Look(old(Facing()), e)
    {
      if e.MouseMotion? {
        yaw := yaw - e.dx * MouseSensitivity;
        pitch := ClampPitch(pitch + e.dy * MouseSensitivity);
      }
    }

    /** Writes the hinge rotation to the pivot; the angles are only read. */
    method Update(axisAngle: (Vec3, real) -> Quat)
      modifies this`pivotRotation
      ensures pivotRotation == PivotRotation(Facing(), axisAngle)
      ensures yaw == old(yaw) && pitch == old(pitch)
    {
      pivotRotation := Mul(axisAngle(YAxis, yaw), axisAngle(XAxis, pitch));
    }
  }

  /** From a new controller, no sequence of device events can tilt the camera
      past vertical. */
  lemma PitchBoundedFromNew(events: seq<DeviceEvent>)
    ensures PitchInRange(LookAll(Angles(0.0, 0.0), events).pitch)
  {
    PitchStaysInRange(Angles(0.0, 0.0), events);
  }
}
