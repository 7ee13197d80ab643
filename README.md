# Player locomotion and camera rig of sphere-survival, in Dafny

This project models the part of the sphere-survival game (a small Fyrox
game written in Rust) that computes something: how the player flies and
how the cameras turn.

- **Player** (`game/src/player/mod.rs`). Six movement keys set six thrust
  flags. Each tick the flags become a body-local thrust vector. That vector
  is rotated by the camera pivot's rotation with the closed-form
  quaternion product, scaled by `dt * 0.25` and added to a persistent
  momentum. The momentum is added to the body's position, and the camera
  pivot is moved onto the body.
- **Hinge camera** (`game/src/player/camera_controller.rs`). Mouse motion
  turns the camera without bound about the vertical axis (yaw). It tilts
  the camera up and down (pitch), clamped to a quarter turn either way.
  Each tick the pivot's rotation is set to yaw then pitch.
- **Free camera script** (`game/src/camera_controller.rs`). Mouse motion is
  accumulated into yaw and pitch with a configurable sensitivity and no
  clamp. Roll is stored and composed but only ever incremented by 0. Each
  tick the pivot's rotation is set to yaw, then pitch, then roll.

Modules:

- `Algebra`: vectors and quaternions over the reals.
- `Input`: the key, device and OS events the scripts receive.
- `Rotation`: the closed-form rotation of `to_rotated_vector`.
- `Player`, `PlayerCamera` and `FreeCamera`: one module per source file.

Each stateful entity is a class whose fields the methods update:

- `Player.Player`
- `PlayerCamera.CameraController`
- `FreeCamera.CameraController`

Each method is proved against a pure function of the old state:

- `ApplyKey` and `Integrate` for the player;
- `Look` for the hinge camera;
- `Turn` and `OnEvent` for the free camera;
- `PivotRotation` for both cameras.

The lemmas about those functions state what the source promises.

The engine's axis-angle constructor (`UnitQuaternion::from_axis_angle`) is
trigonometry. The model takes it as a parameter `axisAngle` of the update
methods, so nothing is assumed about it. Where a property needs unit
quaternions, the lemma requires them of `axisAngle`'s results.

The model follows the code on one point where a zero-length tick is
sometimes described as leaving the position unchanged. `Player::update`
adds the momentum to the position whatever `dt` is, so a tick with
`dt = 0` keeps the momentum but still moves the body by it
(`Player.IntegrateWithoutThrust`).

## Model

| member | source | states |
|---|---|---|
| Player.ToVector | game/src/player/mod.rs:31-37 | each component is +1 exactly when only its positive key is held, -1 exactly when only its negative key is, and 0 exactly when both or neither are (so it is always -1, 0 or 1); x is left/right, y up/down, z forward/back |
| Player.NoThrustIsZero | game/src/player/mod.rs:20-37 | with the default (all false) flags the thrust vector is zero |
| Player.ToVectorLength | game/src/player/mod.rs:31-37 | the vector is not normalised: its squared length is the number of axes with exactly one key held |
| Player.ForwardLeftDiagonal | game/src/player/mod.rs:32-36 | forward plus left gives (1, 0, 1), of squared length 2 |
| Rotation.RotateIsSandwich | game/src/player/mod.rs:39-48 | the closed form v(s^2 - u.u) + 2u(u.v) + 2s(u x v) equals the vector part of q v q*, whose scalar part is 0, for every quaternion |
| Rotation.RotateIdentity | game/src/player/mod.rs:39-48 | the identity rotation (scalar 1, vector part zero) returns the vector unchanged |
| Rotation.RotateZero | game/src/player/mod.rs:39-48 | the zero vector rotates to zero under any quaternion |
| Rotation.RotateScalesLength | game/src/player/mod.rs:39-48 | the closed form multiplies the squared length by the square of the quaternion's squared norm |
| Player.RotatedThrustKeepsLength | game/src/player/mod.rs:39-48 | for a unit quaternion the rotated thrust has the squared length of the thrust |
| Player.WorldThrustKeepsLength | game/src/player/mod.rs:114-119 | when the axis-angle rotations are unit quaternions, the thrust rotated by the hinge camera's pivot rotation is as long as the thrust the keys ask for |
| Player.SetFlag | game/src/player/mod.rs:102-107 | exactly the chosen flag takes the new value; the other five keep theirs |
| Player.ApplyKeySetsBoundFlag | game/src/player/mod.rs:99-111 | a key event sets the flag of the direction its key is bound to (W forward, S back, A left, D right, left Shift up, left Control down) to whether it is pressed, and leaves every other flag alone |
| Player.UnboundKeyIgnored | game/src/player/mod.rs:100-108 | any other key, or an event without a virtual key code, changes no flag |
| Player.ApplyKeyIdempotent | game/src/player/mod.rs:99-111 | repeating the same key event changes nothing more |
| Player.ApplyKeyLastWins | game/src/player/mod.rs:99-111 | of two events for the same key, the later decides the flags |
| Player.ApplyKeyCommutes | game/src/player/mod.rs:99-111 | events for keys bound to different directions commute |
| Player.ApplyKeysRemembersLast | game/src/player/mod.rs:99-111 | after any sequence of key events each flag is the pressed state of the last event for its key, or its old value if there was none |
| Player.Player.HandleKeyEvent | game/src/player/mod.rs:99-111 | the flags become `ApplyKey` of the old flags and the event; nothing else changes |
| Player.Player.constructor | game/src/player/mod.rs:85-92 | no flag set, zero momentum, the body at the origin and a new hinge camera at yaw 0 and pitch 0 |
| Player.Player.HandleDeviceEvent | game/src/player/mod.rs:95-97 | the event goes to the hinge camera: its angles become `Look` of the old angles and the event |
| Player.Player.Update | game/src/player/mod.rs:113-128 | the camera writes its rotation first; momentum and position become `Integrate` of the old ones with the thrust rotated by that new rotation; the pivot ends at the body's new position |
| Player.IntegrateWithoutThrust | game/src/player/mod.rs:119-122 | with dt = 0 or no thrust the momentum is unchanged (there is no drag) and the body still moves by the momentum |
| Player.NoKeysKeepMomentum | game/src/player/mod.rs:119 | with no key held, whatever the camera rotation, a tick leaves the momentum unchanged |
| Player.IntegrateNClosedForm | game/src/player/mod.rs:119-122 | n ticks of the same thrust give momentum m0 + n a and position p0 + n m0 + n(n+1)/2 a, with a = thrust * dt * 0.25: momentum grows without bound |
| PlayerCamera.ClampPitch | game/src/player/camera_controller.rs:59-62 | the result lies in [-90 degrees, 90 degrees]; it is the input when the input does; otherwise it is the bound the input passed |
| PlayerCamera.LookMouseMotion | game/src/player/camera_controller.rs:54-63 | on mouse motion yaw becomes yaw - dx * 0.0025 (no clamp) and pitch becomes pitch + dy * 0.0025 clamped to the quarter turn |
| PlayerCamera.LookOtherEvent | game/src/player/camera_controller.rs:55 | any other device event leaves yaw and pitch alone |
| PlayerCamera.PitchSaturates | game/src/player/camera_controller.rs:59-62 | at +90 degrees with dy >= 0 the pitch stays at +90 degrees; at -90 degrees with dy <= 0 it stays at -90 degrees |
| PlayerCamera.PitchStaysInRange | game/src/player/camera_controller.rs:54-63 | from a pitch in range, any sequence of device events keeps the pitch in range |
| PlayerCamera.PitchBoundedFromNew | game/src/player/camera_controller.rs:49-62 | from a new controller no sequence of device events tilts the camera past vertical |
| PlayerCamera.YawAccumulates | game/src/player/camera_controller.rs:56-58 | after any sequence of events the yaw is the starting yaw minus 0.0025 times the total horizontal motion, however large |
| PlayerCamera.PivotRotationIsUnit | game/src/player/camera_controller.rs:70-73 | when both axis-angle rotations are unit quaternions, so is the pivot rotation |
| PlayerCamera.CameraController.constructor | game/src/player/camera_controller.rs:46-51 | yaw and pitch start at 0 (so the pitch is in range) |
| PlayerCamera.CameraController.HandleDeviceEvent | game/src/player/camera_controller.rs:54-64 | the angles become `Look` of the old angles and the event, and the pitch stays in range |
| PlayerCamera.CameraController.Update | game/src/player/camera_controller.rs:66-74 | the pivot rotation becomes the yaw rotation about y times the pitch rotation about x; yaw and pitch are not changed |
| FreeCamera.TurnMouseMotion | game/src/camera_controller.rs:74-80 | on mouse motion yaw becomes yaw - dx * sensitivity * 0.001 and pitch becomes pitch + dy * sensitivity * 0.001, with no clamp; roll does not change |
| FreeCamera.OnEventIgnores | game/src/camera_controller.rs:48-52 | OS events other than device events, and device events other than mouse motion, change no angle |
| FreeCamera.OnEventMoves | game/src/camera_controller.rs:48-52 | one OS event moves yaw and pitch by the mouse motion it carries, and never moves roll |
| FreeCamera.OnEventsAccumulate | game/src/camera_controller.rs:74-80 | over any sequence of OS events yaw and pitch move by the total mouse motion times sensitivity * 0.001 and roll stays where it was |
| FreeCamera.RollNeverChanges | game/src/camera_controller.rs:78 | no sequence of events changes roll |
| FreeCamera.ZeroSensitivityFreezes | game/src/camera_controller.rs:16-18 | with the default sensitivity 0 no sequence of events moves the camera |
| FreeCamera.RollContributesIdentity | game/src/camera_controller.rs:55-57 | with roll at 0 and a zero-angle rotation being the identity, the composed rotation is yaw then pitch alone |
| FreeCamera.PivotRotationIsUnit | game/src/camera_controller.rs:55-57 | when all three axis-angle rotations are unit quaternions, so is the composed rotation |
| FreeCamera.CameraController.Default | game/src/camera_controller.rs:16-24 | `Default`: sensitivity and all three angles 0 |
| FreeCamera.CameraController.Configured | game/src/camera_controller.rs:16-23 | the state with a sensitivity filled in by the engine and all three angles 0 |
| FreeCamera.CameraController.HandleDeviceEvent | game/src/camera_controller.rs:74-80 | the angles become `Turn` of the old angles, the sensitivity and the event |
| FreeCamera.CameraController.OnOsEvent | game/src/camera_controller.rs:48-52 | the angles become `OnEvent` of the old angles, the sensitivity and the OS event |
| FreeCamera.CameraController.OnUpdate | game/src/camera_controller.rs:54-62 | the pivot rotation becomes yaw about y times pitch about x times roll about z; the angles and the sensitivity are not changed |

## Left out

- Floating point: `f32` values are reals. The `f64` to `f32` casts of the mouse deltas, rounding and the `f32` value of 90 degrees in radians (here `90 * pi / 180` with a 20-digit pi) are not modelled.
- `UnitQuaternion::from_axis_angle` is trigonometry. It is the parameter `axisAngle` of the update methods. That the composed rotations are unit quaternions is proved only on condition that `axisAngle`'s results are.
- Scene graph: the `Handle<Node>` indexing is replaced by plain fields. These are the body's position (`Player.Player.bodyPosition`), the hinge pivot's position and rotation, and the free camera's pivot rotation.
- Scene building: the rigid body, the capsule collider, the camera node 2 units behind the pivot and its far plane are not modelled. This covers `Player::new` (game/src/player/mod.rs:60-84) and `CameraController::new` (game/src/player/camera_controller.rs:30-44); only the initial field values are kept.
- The physics engine: the rigid body is simulated with gravity scale 0 and zero friction. Anything the simulation itself does to the body between ticks is not part of this model, so the model assumes only `update` writes the body's transform.
- FreeCamera.CameraController.Configured: the engine fills in `mouse_sensitivity` through reflection from scene data, which is not modelled. The constructor accepts any real.
- The free camera's `on_init`, `on_start`, `on_deinit`, `restore_resources`, `id` and `type_uuid` are empty hooks or identifiers with nothing to model.
- Velocity clamping, damping and the boundary bounce: no source file of the core implements them.
- game/src/lib.rs (plugin registration, scene loading, frame-rate text) is not part of this model. Nor are the ball and balls scripts, the user interface and the web front end; these are engine, I/O and asynchronous glue.
- Composition of rotations: `Rotate(Rotate(v, q), p) == Rotate(v, p * q)` would need associativity of the quaternion product, which is not proved. The cameras' rotations are only stated as products.
