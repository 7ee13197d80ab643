// The player (game/src/player/mod.rs): six movement keys set thrust flags;
// every tick the flags become a body-local thrust vector, which is rotated by
// the camera pivot's rotation, scaled and added to a persistent momentum; the
// momentum is then added to the body's position and the camera pivot is moved
// onto the body.
module Player {
  import opened Algebra
  import opened Input
  import opened Rotation
  import PlayerCamera

  /** The six movement flags. Opposite flags may both be set. */
  datatype Thrust = Thrust(forward: bool, back: bool, up: bool, down: bool, left: bool, right: bool)

  /** `Thrust::default()`: no key held. */
  const NoThrust: Thrust := Thrust(false, false, false, false, false, false)

  datatype Direction = Forward | Back | Up | Down | Left | Right

  /** The flag for one direction. */
  function Flag(t: Thrust, d: Direction): bool
  {
    match d
    case Forward => t.forward
    case Back => t.back
    case Up => t.up
    case Down => t.down
    case Left => t.left
    case Right => t.right
  }

  /** The thrust with the flag for `d` set to `b` and every other flag kept. */
  function SetFlag(t: Thrust, d: Direction, b: bool): (r: Thrust)
    ensures forall e :: Flag(r, e) == if e == d then b else Flag(t, e)
  {
    match d
    case Forward => t.(forward := b)
    case Back => t.(back := b)
    case Up => t.(up := b)
    case Down => t.(down := b)
    case Left => t.(left := b)
    case Right => t.(right := b)
  }

  /** The key bindings: W/S forward/back, A/D left/right, left Shift up and
      left Control down. */
  function Binding(code: VirtualKeyCode): Option<Direction>
  {
    match code
    case W => Some(Forward)
    case S => Some(Back)
    case A => Some(Left)
    case D => Some(Right)
    case LShift => Some(Up)
    case LControl => Some(Down)
    case OtherKey(_) => None
  }

  /** The direction a key event is about, if it is about one. */
  function BoundDirection(key: KeyboardInput): Option<Direction>
  {
    match key.virtualKeycode
    case Some(code) => Binding(code)
    case None => None
  }

  /** The flags after one key event: the bound flag records whether the key is
      now pressed; events without a bound key change nothing. */
  function ApplyKey(t: Thrust, key: KeyboardInput): Thrust
  {
    match BoundDirection(key)
    case Some(d) => SetFlag(t, d, key.state == Pressed)
    case None => t
  }

  /** `b as i8`, as a real. */
  function Indicator(b: bool): real
  {
    if b then 1.0 else 0.0
  }

  /** What one axis of the thrust vector means: +1 exactly when only the
      positive key is held, -1 exactly when only the negative one is, and 0
      exactly when both or neither are. */
  predicate AxisReflects(c: real, positive: bool, negative: bool)
  {
    (c == 1.0 <==> positive && !negative) &&
    (c == -1.0 <==> negative && !positive) &&
    (c == 0.0 <==> positive == negative)
  }

  /** `Thrust::to_vector`: x is left minus right, y up minus down and z
      forward minus back. Not normalised. */
  function ToVector(t: Thrust): (r: Vec3)
    ensures AxisReflects(r.x, t.left, t.right)
    ensures AxisReflects(r.y, t.up, t.down)
    ensures AxisReflects(r.z, t.forward, t.back)
  {
    Vec3(Indicator(t.left) - Indicator(t.right),
         Indicator(t.up) - Indicator(t.down),
         Indicator(t.forward) - Indicator(t.back))
  }

  /** `Thrust::to_rotated_vector`. */
  function ToRotatedVector(t: Thrust, rotation: Quat): Vec3
  {
    Rotate(ToVector(t), rotation)
  }

  /** The factor the rotated thrust is scaled by, besides the tick's length. */
  const ThrustScale: real := 0.25

  /** The state `update` integrates: the momentum and the body's position. */
  datatype Kinematics = Kinematics(momentum: Vec3, position: Vec3)

  /** One tick of `update`: the momentum gains the world-space thrust times
      dt times 0.25, with no drag, and the position gains the new momentum. */
  function Integrate(m: Kinematics, worldThrust: Vec3, dt: real): Kinematics
  {
    Kinematics(Add(m.momentum, Scale(Scale(worldThrust, dt), ThrustScale)),
               Add(m.position, Add(m.momentum, Scale(Scale(worldThrust, dt), ThrustScale))))
  }

  /** `n` ticks with the same world-space thrust and tick length. */
  function IntegrateN(m: Kinematics, worldThrust: Vec3, dt: real, n: nat): Kinematics
    decreases n
  {
    if n == 0 then m else IntegrateN(Integrate(m, worldThrust, dt), worldThrust, dt, n - 1)
  }

  // Key events

  /** A key event sets the flag of the direction its key is bound to, to
      whether the key is now pressed, and leaves the other five alone. */
  lemma ApplyKeySetsBoundFlag(t: Thrust, key: KeyboardInput, d: Direction)
    ensures Flag(ApplyKey(t, key), d)
         == if BoundDirection(key) == Some(d) then key.state == Pressed else Flag(t, d)
  {
  }

  /** Any other key, and an event without a virtual key code, change no flag. */
  lemma UnboundKeyIgnored(t: Thrust, key: KeyboardInput)
    requires key.virtualKeycode.None? || key.virtualKeycode.value.OtherKey?
    ensures ApplyKey(t, key) == t
  {
  }

  /** Repeating the same key event changes nothing more. */
  lemma ApplyKeyIdempotent(t: Thrust, key: KeyboardInput)
    ensures ApplyKey(ApplyKey(t, key), key) == ApplyKey(t, key)
  {
    ThrustExtensional(ApplyKey(ApplyKey(t, key), key), ApplyKey(t, key));
  }

  /** Of two events for the same key, the later one decides. */
  lemma ApplyKeyLastWins(t: Thrust, first: KeyboardInput, second: KeyboardInput)
    requires first.virtualKeycode == second.virtualKeycode
    ensures ApplyKey(ApplyKey(t, first), second) == ApplyKey(t, second)
  {
    ThrustExtensional(ApplyKey(ApplyKey(t, first), second), ApplyKey(t, second));
  }

  /** Events for keys bound to different directions may arrive in either
      order. */
  lemma ApplyKeyCommutes(t: Thrust, k1: KeyboardInput, k2: KeyboardInput)
    requires BoundDirection(k1) != BoundDirection(k2)
    ensures ApplyKey(ApplyKey(t, k1), k2) == ApplyKey(ApplyKey(t, k2), k1)
  {
    ThrustExtensional(ApplyKey(ApplyKey(t, k1), k2), ApplyKey(ApplyKey(t, k2), k1));
  }

  lemma ThrustExtensional(a: Thrust, b: Thrust)
    requires forall d :: Flag(a, d) == Flag(b, d)
    ensures a == b
  {
    assert Flag(a, Forward) == Flag(b, Forward) && Flag(a, Back) == Flag(b, Back);
    assert Flag(a, Up) == Flag(b, Up) && Flag(a, Down) == Flag(b, Down);
    assert Flag(a, Left) == Flag(b, Left) && Flag(a, Right) == Flag(b, Right);
  }

  /** The flags after a sequence of key events, delivered in order. */
  function ApplyKeys(t: Thrust, keys: seq<KeyboardInput>): Thrust
    decreases |keys|
  {
    if keys == [] then t else ApplyKey(ApplyKeys(t, keys[..|keys| - 1]), keys[|keys| - 1])
  }

  /** The pressed state carried by the last event bound to `d`, if any. */
  function LastState(keys: seq<KeyboardInput>, d: Direction): Option<bool>
    decreases |keys|
  {
    if keys == [] then None
    else if BoundDirection(keys[|keys| - 1]) == Some(d) then Some(keys[|keys| - 1].state == Pressed)
    else LastState(keys[..|keys| - 1], d)
  }

  /** After any sequence of key events, each flag is the pressed state of the
      last event for its key, or what it was if there was none: the flags are
      a pure function of the most recent transition per key. */
  lemma {:induction false} ApplyKeysRemembersLast(t: Thrust, keys: seq<KeyboardInput>, d: Direction)
    ensures Flag(ApplyKeys(t, keys), d)
         == match LastState(keys, d) case Some(b) => b case None => Flag(t, d)
    decreases |keys|
  {
    if keys != [] {
      ApplyKeysRemembersLast(t, keys[..|keys| - 1], d);
      ApplyKeySetsBoundFlag(ApplyKeys(t, keys[..|keys| - 1]), keys[|keys| - 1], d);
    }
  }

  // The thrust vector

  /** With no key held the thrust vector is zero. */
  lemma NoThrustIsZero()
    ensures ToVector(NoThrust) == Zero
  {
  }

  /** The number of axes on which exactly one of the two keys is held. */
  function ActiveAxes(t: Thrust): nat
  {
    (if t.left != t.right then 1 else 0) +
    (if t.up != t.down then 1 else 0) +
    (if t.forward != t.back then 1 else 0)
  }

  /** The thrust vector is not normalised: its squared length is the number
      of active axes, so a diagonal pushes harder than a single key. */
  lemma ToVectorLength(t: Thrust)
    ensures NormSq(ToVector(t)) == ActiveAxes(t) as real
  {
  }

  /** Forward and left together give (1, 0, 1), of squared length 2. */
  lemma ForwardLeftDiagonal()
    ensures ToVector(NoThrust.(forward := true, left := true)) == Vec3(1.0, 0.0, 1.0)
    ensures NormSq(ToVector(NoThrust.(forward := true, left := true))) == 2.0
  {
  }

  /** For a unit quaternion the rotated thrust is as long as the thrust. */
  lemma RotatedThrustKeepsLength(t: Thrust, q: Quat)
    requires IsUnit(q)
    ensures NormSq(ToRotatedVector(t, q)) == NormSq(ToVector(t))
  {
    RotateScalesLength(ToVector(t), q);
  }

  /** Through the player's camera rig: when the axis-angle constructor gives
      unit quaternions, the thrust in world space is as long as the thrust
      the keys ask for. */
  lemma WorldThrustKeepsLength(t: Thrust, a: PlayerCamera.Angles, axisAngle: (Vec3, real) -> Quat)
    requires IsUnit(axisAngle(YAxis, a.yaw)) && IsUnit(axisAngle(XAxis, a.pitch))
    ensures NormSq(ToRotatedVector(t, PlayerCamera.PivotRotation(a, axisAngle))) == NormSq(ToVector(t))
  {
    PlayerCamera.PivotRotationIsUnit(a, axisAngle);
    RotatedThrustKeepsLength(t, PlayerCamera.PivotRotation(a, axisAngle));
  }

  // Integration

  /** A tick of length 0, or one with no thrust, leaves the momentum as it is
      (there is no drag) and still moves the body by that momentum. */
  lemma IntegrateWithoutThrust(m: Kinematics, worldThrust: Vec3, dt: real)
    requires dt == 0.0 || worldThrust == Zero
    ensures Integrate(m, worldThrust, dt) == Kinematics(m.momentum, Add(m.position, m.momentum))
  {
  }

  /** With no key held, whatever the rotation, the momentum does not change. */
  lemma NoKeysKeepMomentum(m: Kinematics, rotation: Quat, dt: real)
    ensures Integrate(m, ToRotatedVector(NoThrust, rotation), dt).momentum == m.momentum
  {
    NoThrustIsZero();
    RotateZero(rotation);
  }

  /** One component of the position after `k` ticks that start at `p0` with
      momentum `m0` and gain `a` per tick: p0 + k m0 + k (k + 1) / 2 a. */
  function Coast(p0: real, m0: real, a: real, k: real): real
  {
    p0 + m0 * k + a * (k * (k + 1.0) / 2.0)
  }

  /** Where `k` ticks of constant acceleration `a` lead from `m`: momentum
      m0 + k a and, per component, the position `Coast` gives. */
  function Ballistic(m: Kinematics, a: Vec3, k: real): Kinematics
  {
    Kinematics(Add(m.momentum, Scale(a, k)),
               Vec3(Coast(m.position.x, m.momentum.x, a.x, k),
                    Coast(m.position.y, m.momentum.y, a.y, k),
                    Coast(m.position.z, m.momentum.z, a.z, k)))
  }

  lemma MomentumShiftScalar(m0: real, a: real, k: real)
    ensures (m0 + a) + a * k == m0 + a * (k + 1.0)
  {
  }

  lemma CoastShift(p0: real, m0: real, a: real, k: real)
    ensures Coast(p0 + (m0 + a), m0 + a, a, k) == Coast(p0, m0, a, k + 1.0)
  {
  }

  lemma MomentumShift(m: Kinematics, a: Vec3, k: real)
    ensures Ballistic(Kinematics(Add(m.momentum, a), Add(m.position, Add(m.momentum, a))), a, k).momentum
         == Ballistic(m, a, k + 1.0).momentum
  {
    MomentumShiftScalar(m.momentum.x, a.x, k);
    MomentumShiftScalar(m.momentum.y, a.y, k);
    MomentumShiftScalar(m.momentum.z, a.z, k);
  }

  lemma PositionShift(m: Kinematics, a: Vec3, k: real)
    ensures Ballistic(Kinematics(Add(m.momentum, a), Add(m.position, Add(m.momentum, a))), a, k).position
         == Ballistic(m, a, k + 1.0).position
  {
    CoastShift(m.position.x, m.momentum.x, a.x, k);
    CoastShift(m.position.y, m.momentum.y, a.y, k);
    CoastShift(m.position.z, m.momentum.z, a.z, k);
  }

  /** One tick followed by k more is k + 1 ticks. */
  lemma BallisticShift(m: Kinematics, a: Vec3, k: real)
    ensures Ballistic(Kinematics(Add(m.momentum, a), Add(m.position, Add(m.momentum, a))), a, k)
         == Ballistic(m, a, k + 1.0)
  {
    MomentumShift(m, a, k);
    PositionShift(m, a, k);
  }

  /** Under the same thrust for n ticks the momentum grows linearly, without
      bound, and the position quadratically. */
  lemma {:induction false} IntegrateNClosedForm(m: Kinematics, worldThrust: Vec3, dt: real, n: nat)
    ensures IntegrateN(m, worldThrust, dt, n)
         == Ballistic(m, Scale(Scale(worldThrust, dt), ThrustScale), n as real)
    decreases n
  {
    var a := Scale(Scale(worldThrust, dt), ThrustScale);
    if n > 0 {
      IntegrateNClosedForm(Integrate(m, worldThrust, dt), worldThrust, dt, n - 1);
      BallisticShift(m, a, (n - 1) as real);
      assert (n - 1) as real + 1.0 == n as real;
    } else {
      assert Scale(a, 0.0) == Zero && Scale(m.momentum, 0.0) == Zero;
    }
  }

  /** The player script's state. The body and the camera pivot are scene
      nodes; the model keeps the body's position here and the pivot's
      transform in the camera controller. */
  class Player {
    const cameraController: PlayerCamera.CameraController
    var thrust: Thrust
    var momentum: Vec3
    /** The position of the rigid body's local transform. */
    var bodyPosition: Vec3

    ghost predicate Valid()
      reads this, cameraController
    {
      cameraController.Valid()
    }

    /** No key held, no momentum, the body at the origin and a new camera
        controller. */
    constructor ()
      ensures Valid() && fresh(cameraController)
      ensures thrust == NoThrust && momentum == Zero && bodyPosition == Zero
      ensures cameraController.Facing() == PlayerCamera.Angles(0.0, 0.0)
    {
      cameraController := new PlayerCamera.CameraController();
      thrust := NoThrust;
      momentum := Zero;
      bodyPosition := Zero;
    }

    /** Device events go to the camera controller. */
    method HandleDeviceEvent(e: DeviceEvent)
      requires Valid()
      modifies cameraController`yaw, cameraController`pitch
      ensures Valid()
      ensures cameraController.Facing() == PlayerCamera.Look(old(cameraController.Facing()), e)
    {
      cameraController.HandleDeviceEvent(e);
    }

    method HandleKeyEvent(key: KeyboardInput)
      modifies this`thrust
      ensures thrust == ApplyKey(old(thrust), key)
    {
      if key.virtualKeycode.Some? {
        var pressed := key.state == Pressed;
        match key.virtualKeycode.value {
          case W => thrust := thrust.(forward := pressed);
          case S => thrust := thrust.(back := pressed);
          case A => thrust := thrust.(left := pressed);
          case D => thrust := thrust.(right := pressed);
          case LShift => thrust := thrust.(up := pressed);
          case LControl => thrust := thrust.(down := pressed);
          case OtherKey(_) =>
        }
      }
    }

    /** One tick: the camera writes its rotation to the pivot, the thrust is
        rotated by that rotation and integrated, and the pivot is moved onto
        the body's new position. */
    method Update(dt: real, axisAngle: (Vec3, real) -> Quat)
      requires Valid()
      modifies this`momentum, this`bodyPosition
      modifies cameraController`pivotRotation, cameraController`pivotPosition
      ensures Valid()
      ensures cameraController.pivotRotation == PlayerCamera.PivotRotation(cameraController.Facing(), axisAngle)
      ensures Kinematics(momentum, bodyPosition)
           == Integrate(old(Kinematics(momentum, bodyPosition)), ToRotatedVector(thrust, cameraController.pivotRotation), dt)
      ensures cameraController.pivotPosition == bodyPosition
    {
      cameraController.Update(axisAngle);
      var rotation := cameraController.pivotRotation;
      momentum := Add(momentum, Scale(Scale(ToRotatedVector(thrust, rotation), dt), ThrustScale));
      bodyPosition := Add(bodyPosition, momentum);
      var newPosition := bodyPosition;
      cameraController.pivotPosition := newPosition;
    }
  }
}
