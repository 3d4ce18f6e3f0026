/** The enumerations of the windowing backend (GLFW, through its Rust
    binding) that the engine translates: keys, key and button actions, mouse
    buttons, and the window events delivered by a poll. */
module Glfw {

  /** Keyboard keys, in the order the engine's translation table lists them. */
  datatype Key =
    Space | Apostrophe | Comma | Minus | Period | Slash | Num0 | Num1 | Num2 | Num3 | Num4 |
    Num5 | Num6 | Num7 | Num8 | Num9 | Semicolon | Equal | A | B | C | D | E | F | G | H | I |
    J | K | L | M | N | O | P | Q | R | S | T | U | V | W | X | Y | Z | LeftBracket |
    Backslash | RightBracket | GraveAccent | World1 | World2 | Escape | Enter | Tab |
    Backspace | Insert | Delete | Right | Left | Down | Up | PageUp | PageDown | Home | End |
    CapsLock | ScrollLock | NumLock | PrintScreen | Pause | F1 | F2 | F3 | F4 | F5 | F6 | F7 |
    F8 | F9 | F10 | F11 | F12 | F13 | F14 | F15 | F16 | F17 | F18 | F19 | F20 | F21 | F22 |
    F23 | F24 | F25 | Kp0 | Kp1 | Kp2 | Kp3 | Kp4 | Kp5 | Kp6 | Kp7 | Kp8 | Kp9 | KpDecimal |
    KpDivide | KpMultiply | KpSubtract | KpAdd | KpEnter | KpEqual | LeftShift | LeftControl |
    LeftAlt | LeftSuper | RightShift | RightControl | RightAlt | RightSuper | Menu | Unknown

  /** The transition a key or button event reports. */
  datatype Action = Release | Press | Repeat

  datatype MouseButton = Button1 | Button2 | Button3 | Button4 | Button5 | Button6 | Button7 | Button8

  /** A polled window event. Only key and mouse-button events matter to the
      engine; the scancode and modifier fields it ignores are dropped, and
      every other kind of event (cursor motion, scrolling, resizing, ...) is
      `OtherEvent`. A mouse-button event also carries `cursorX` and
      `cursorY`, the position the window's cursor query reports when the
      engine handles that event: the engine asks once per mouse-button
      event, so two clicks of one poll can see different positions. */
  datatype WindowEvent =
    | KeyEvent(key: Key, action: Action)
    | MouseButtonEvent(button: MouseButton, action: Action, cursorX: real, cursorY: real)
    | OtherEvent
}
