/**
 * The input-processor surface shared by the screen and the player system:
 * one constructor per callback of libGDX's InputProcessor, and the key codes
 * of libGDX's Input.Keys that the core compares against.
 */
module Input {

  const KeyCodeUp: int := 19
  const KeyCodeD: int := 32

  /** One delivered input callback with its arguments. */
  datatype InputEvent =
    | KeyDown(keycode: int)
    | KeyUp(keycode: int)
    | KeyTyped(character: char)
    | TouchDown(screenX: int, screenY: int, pointer: int, button: int)
    | TouchUp(screenX: int, screenY: int, pointer: int, button: int)
    | TouchDragged(screenX: int, screenY: int, pointer: int)
    | MouseMoved(screenX: int, screenY: int)
    | Scrolled(amount: int)
}
