// The free camera script (game/src/camera_controller.rs): mouse motion adds to
// yaw and pitch with a configurable sensitivity and no clamp; roll is part of
// the state and of the composed rotation, but no input ever changes it. The
// engine forwards OS events to the script and calls `on_update` once per tick.
module FreeCamera {
  import opened Algebra
  import opened Input

  /** The fixed factor the configured sensitivity is multiplied by. */
  const SensitivityScale: real := 0.001

  /** The three angles the script accumulates. */
  datatype Orientation = Orientation(yaw: real, pitch: real, roll: real)

  /** The effect of one device event, for a given mouse sensitivity. */
  function Turn(o: Orientation, sensitivity: real, e: DeviceEvent): Orientation
  {
    match e
    case MouseMotion(dx, dy) =>
      Orientation(o.yaw - dx * sensitivity * SensitivityScale,
                  o.pitch + dy * sensitivity * SensitivityScale,
                  o.roll + 0.0)
    case _ => o
  }

  /** `on_os_event` hands the device event inside an OS event to the script;
      every other OS event is dropped. */
  function DeviceEventOf(e: Event): Option<DeviceEvent>
  {
    match e
    case DeviceEvent(d) => Some(d)
    case _ => None
  }

  /** The effect of one OS event. */
  function OnEvent(o: Orientation, sensitivity: real, e: Event): Orientation
  {
    match DeviceEventOf(e)
    case Some(d) => Turn(o, sensitivity, d)
    case None => o
  }

  /** The effect of a sequence of OS events, delivered in order. */
  function OnEvents(o: Orientation, sensitivity: real, events: seq<Event>): Orientation
    decreases |events|
  {
    if events == [] then o else OnEvents(OnEvent(o, sensitivity, events[0]), sensitivity, events[1..])
  }

  /** The mouse motion an OS event carries; (0, 0) when it carries none. */
  function MotionOf(e: Event): (real, real)
  {
    match DeviceEventOf(e)
    case Some(MouseMotion(dx, dy)) => (dx, dy)
    case _ => (0.0, 0.0)
  }

  function TotalDeltaX(events: seq<Event>): real
    decreases |events|
  {
    if events == [] then 0.0 else MotionOf(events[0]).0 + TotalDeltaX(events[1..])
  }

  function TotalDeltaY(events: seq<Event>): real
    decreases |events|
  {
    if events == [] then 0.0 else MotionOf(events[0]).1 + TotalDeltaY(events[1..])
  }

  /** The rotation `on_update` writes to the pivot: yaw about y, then pitch
      about x, then roll about z, each produced by `axisAngle`, the engine's
      axis-angle constructor, and multiplied left to right. */
  function PivotRotation(o: Orientation, axisAngle: (Vec3, real) -> Quat): Quat
  {
    Mul(Mul(axisAngle(YAxis, o.yaw), axisAngle(XAxis, o.pitch)), axisAngle(ZAxis, o.roll))
  }

  /** One mouse motion moves yaw against dx and pitch with dy, scaled by the
      sensitivity and 0.001, without any clamp, and leaves roll alone. */
  lemma TurnMouseMotion(o: Orientation, sensitivity: real, dx: real, dy: real)
    ensures Turn(o, sensitivity, MouseMotion(dx, dy))
         == Orientation(o.yaw - dx * sensitivity * 0.001, o.pitch + dy * sensitivity * 0.001, o.roll)
  {
    assert Turn(o, sensitivity, MouseMotion(dx, dy)).yaw == o.yaw - dx * sensitivity * 0.001;
    assert Turn(o, sensitivity, MouseMotion(dx, dy)).pitch == o.pitch + dy * sensitivity * 0.001;
    assert Turn(o, sensitivity, MouseMotion(dx, dy)).roll == o.roll;
  }

  /** Events that are not device events, and device events that are not mouse
      motion, change nothing. */
  lemma OnEventIgnores(o: Orientation, sensitivity: real, e: Event)
    requires !(e.DeviceEvent? && e.event.MouseMotion?)
    ensures OnEvent(o, sensitivity, e) == o
  {
  }

  /** One OS event moves yaw and pitch by the motion it carries. */
  lemma OnEventMoves(o: Orientation, sensitivity: real, e: Event)
    ensures OnEvent(o, sensitivity, e)
         == Orientation(o.yaw - MotionOf(e).0 * (sensitivity * SensitivityScale),
                        o.pitch + MotionOf(e).1 * (sensitivity * SensitivityScale),
                        o.roll)
  {
    if e.DeviceEvent? && e.event.MouseMotion? {
      var dx, dy := e.event.dx, e.event.dy;
      assert dx * sensitivity * SensitivityScale == dx * (sensitivity * SensitivityScale);
      assert dy * sensitivity * SensitivityScale == dy * (sensitivity * SensitivityScale);
    }
  }

  /** Over any sequence of OS events, yaw and pitch move by the total mouse
      motion times the sensitivity, and roll does not move at all. */
  lemma {:induction false} OnEventsAccumulate(o: Orientation, sensitivity: real, events: seq<Event>)
    ensures OnEvents(o, sensitivity, events)
         == Orientation(o.yaw - TotalDeltaX(events) * (sensitivity * SensitivityScale),
                        o.pitch + TotalDeltaY(events) * (sensitivity * SensitivityScale),
                        o.roll)
    decreases |events|
  {
    if events != [] {
      var k := sensitivity * SensitivityScale;
      var p := OnEvent(o, sensitivity, events[0]);
      OnEventMoves(o, sensitivity, events[0]);
      OnEventsAccumulate(p, sensitivity, events[1..]);
      Distribute(MotionOf(events[0]).0, TotalDeltaX(events[1..]), k);
      Distribute(MotionOf(events[0]).1, TotalDeltaY(events[1..]), k);
    }
  }

  lemma Distribute(a: real, b: real, k: real)
    ensures (a + b) * k == a * k + b * k
  {
  }

  /** Roll is never changed by any event. */
  lemma RollNeverChanges(o: Orientation, sensitivity: real, events: seq<Event>)
    ensures OnEvents(o, sensitivity, events).roll == o.roll
  {
    OnEventsAccumulate(o, sensitivity, events);
  }

  /** With the default sensitivity of 0, no events move the camera. */
  lemma ZeroSensitivityFreezes(o: Orientation, events: seq<Event>)
    ensures OnEvents(o, 0.0, events) == o
  {
    OnEventsAccumulate(o, 0.0, events);
  }

  /** Because roll stays at 0 and a zero-angle axis-angle rotation is the
      identity, the composed rotation is just yaw then pitch. */
  lemma RollContributesIdentity(o: Orientation, axisAngle: (Vec3, real) -> Quat)
    requires o.roll == 0.0 && axisAngle(ZAxis, 0.0) == Identity
    ensures PivotRotation(o, axisAngle) == Mul(axisAngle(YAxis, o.yaw), axisAngle(XAxis, o.pitch))
  {
    MulIdentity(Mul(axisAngle(YAxis, o.yaw), axisAngle(XAxis, o.pitch)));
  }

  /** When the axis-angle constructor gives unit quaternions for all three
      angles, the composed rotation is a unit quaternion. */
  lemma PivotRotationIsUnit(o: Orientation, axisAngle: (Vec3, real) -> Quat)
    requires IsUnit(axisAngle(YAxis, o.yaw)) && IsUnit(axisAngle(XAxis, o.pitch))
    requires IsUnit(axisAngle(ZAxis, o.roll))
    ensures IsUnit(PivotRotation(o, axisAngle))
  {
    UnitMul(axisAngle(YAxis, o.yaw), axisAngle(XAxis, o.pitch));
    UnitMul(Mul(axisAngle(YAxis, o.yaw), axisAngle(XAxis, o.pitch)), axisAngle(ZAxis, o.roll));
  }

  /** The script's state: the configured sensitivity, the three angles and
      the rotation of the pivot node it drives. */
  class CameraController {
    var mouseSensitivity: real
    var yaw: real
    var pitch: real
    var roll: real
    /** The rotation of the pivot node's local transform. */
    var pivotRotation: Quat

    function Facing(): Orientation
      reads this
    {
      Orientation(yaw, pitch, roll)
    }

    /** `Default`: sensitivity and all angles 0. */
    constructor Default()
      ensures mouseSensitivity == 0.0 && Facing() == Orientation(0.0, 0.0, 0.0)
      ensures pivotRotation == Identity
    {
      mouseSensitivity := 0.0;
      yaw, pitch, roll := 0.0, 0.0, 0.0;
      pivotRotation := Identity;
    }

    /** The state after the engine has filled in the sensitivity configured
        for the script in the scene. */
    constructor Configured(sensitivity: real)
      ensures mouseSensitivity == sensitivity && Facing() == Orientation(0.0, 0.0, 0.0)
      ensures pivotRotation == Identity
    {
      mouseSensitivity := sensitivity;
      yaw, pitch, roll := 0.0, 0.0, 0.0;
      pivotRotation := Identity;
    }

    method HandleDeviceEvent(e: DeviceEvent)
      modifies this`yaw, this`pitch, this`roll
      ensures Facing() == Turn(old(Facing()), mouseSensitivity, e)
    {
      if e.MouseMotion? {
        yaw := yaw - e.dx * mouseSensitivity * SensitivityScale;
        pitch := pitch + e.dy * mouseSensitivity * SensitivityScale;
        roll := roll + 0.0;
      }
    }

    method OnOsEvent(e: Event)
      modifies this`yaw, this`pitch, this`roll
      ensures Facing() == OnEvent(old(Facing()), mouseSensitivity, e)
    {
      if e.DeviceEvent? {
        HandleDeviceEvent(e.event);
      }
    }

    /** Writes the composed rotation to the pivot; the angles and the
        sensitivity are only read. */
    method OnUpdate(axisAngle: (Vec3, real) -> Quat)
      modifies this`pivotRotation
      ensures pivotRotation == PivotRotation(Facing(), axisAngle)
      ensures Facing() == old(Facing()) && mouseSensitivity == old(mouseSensitivity)
    {
      pivotRotation := Mul(Mul(axisAngle(YAxis, yaw), axisAngle(XAxis, pitch)), axisAngle(ZAxis, roll));
    }
  }
}
