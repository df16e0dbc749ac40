/** The window-system events the viewer reacts to. */
module Winit {
  import opened Wgpu

  datatype PhysicalSize = PhysicalSize(width: uint32, height: uint32)

  datatype KeyCode = KeyQ | KeyW | KeyA | KeyS | KeyD | Space | ShiftLeft | Escape | OtherKey(id: nat)

  datatype PhysicalKey = Code(code: KeyCode) | Unidentified

  datatype WindowEvent =
    | Focused(focused: bool)
    | RedrawRequested
    | Resized(size: PhysicalSize)
    | CloseRequested
    | MouseInput
    | CursorMoved
    | KeyboardInput(key: PhysicalKey, pressed: bool)
    | OtherWindowEvent

  /** What handling an event does to the event loop. */
  datatype LoopEffect = Continue | ExitLoop | Panic
}
