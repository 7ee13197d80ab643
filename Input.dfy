// The input events the player and camera scripts consume, as the windowing
// layer delivers them already decoded. Only the parts the scripts inspect are
// kept: the virtual key code and pressed/released state of a key, and the
// (dx, dy) delta of a mouse motion.
module Input {

  datatype Option<+T> = None | Some(value: T)

  datatype ElementState = Pressed | Released

  /** The virtual key codes the player binds; every other key is `OtherKey`. */
  datatype VirtualKeyCode = W | S | A | D | LShift | LControl | OtherKey(code: nat)

  /** A key transition: `virtualKeycode` is `None` when the platform reports
      only a scan code. */
  datatype KeyboardInput = KeyboardInput(virtualKeycode: Option<VirtualKeyCode>, state: ElementState)

  /** Raw device events. Only `MouseMotion` carries data the scripts read. */
  datatype DeviceEvent =
    | Added
    | Removed
    | MouseMotion(dx: real, dy: real)
    | MouseWheel
    | Motion
    | Button
    | Key
    | Text

  /** Events of the OS event loop; a `DeviceEvent` wraps a raw device event. */
  datatype Event =
    | NewEvents
    | WindowEvent
    | DeviceEvent(event: DeviceEvent)
    | UserEvent
    | Suspended
    | Resumed
    | MainEventsCleared
    | RedrawRequested
    | RedrawEventsCleared
    | LoopDestroyed
}
