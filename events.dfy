/** The engine's input vocabulary and the tables that translate the
    windowing backend's input events into it: the keys, actions and mouse
    buttons the engine reports, the entries of its action queue, and the
    conversion `update` applies to each polled event. Every table has an
    inverse here, so that the laws about the tables can be stated. */
module Events {
  import opened Ints
  import Glfw

  /** The engine's keys, in the order the engine declares them. */
  datatype GsnKey =
    Escape | Space | Up | Down | Left | Right | Apostrophe | Comma | Minus | Period | Slash |
    A | B | C | D | E | F | G | H | I | J | K | L | M | N | O | P | Q | R | S | T | U | V | W |
    X | Y | Z | Unknown | Num0 | Num1 | Num2 | Num3 | Num4 | Num5 | Num6 | Num7 | Num8 | Num9 |
    Kp0 | Kp1 | Kp2 | Kp3 | Kp4 | Kp5 | Kp6 | Kp7 | Kp8 | Kp9 | F1 | F2 | F3 | F4 | F5 | F6 |
    F7 | F8 | F9 | F10 | F11 | F12 | F13 | F14 | F15 | F16 | F17 | F18 | F19 | F20 | F21 |
    F22 | F23 | F24 | F25 | Enter | Grave | LeftBracket | RightBracket | SemiColon |
    Backslash | Equal | World1 | World2 | Tab | Backspace | Insert | Delete | PageUp |
    PageDown | Home | End | CapsLock | ScrollLock | NumLock | PrintScreen | Pause | KpDecimal |
    KpDivide | KpMultiply | KpSubtract | KpAdd | KpEnter | KpEqual | LeftShift | LeftControl |
    LeftAlt | LeftSuper | RightShift | RightControl | RightAlt | RightSuper | Menu

  datatype GsnAction = Press | Release | Repeat

  /** A mouse button, numbered from 1 (the primary button). */
  type GsnButton = U8

  /** A cursor position in window pixels. */
  datatype MousePos = MousePos(x: U32, y: U32)

  /** An entry of the action queue. */
  datatype GsnEvent =
    | Init
    | Draw
    | KeyPress(key: GsnKey, action: GsnAction)
    | MousePress(button: GsnButton, action: GsnAction, pos: MousePos)

  datatype Option<T> = None | Some(value: T)

  // ---------------------------------------------------------------------
  // Translation tables
  // ---------------------------------------------------------------------

  /** Each backend action becomes the engine action of the same name. */
  function MapAction(action: Glfw.Action): (r: GsnAction)
    ensures r == Press <==> action == Glfw.Press
    ensures r == Release <==> action == Glfw.Release
    ensures r == Repeat <==> action == Glfw.Repeat
  {
    match action
    case Press => Press
    case Release => Release
    case Repeat => Repeat
  }

  /** The backend action an engine action stands for. */
  function NativeAction(action: GsnAction): Glfw.Action
  {
    match action
    case Press => Glfw.Press
    case Release => Glfw.Release
    case Repeat => Glfw.Repeat
  }

  /** Button N becomes the number N. */
  function MapMouseButton(button: Glfw.MouseButton): (n: GsnButton)
    ensures 1 <= n <= 8
  {
    match button
    case Button1 => 1
    case Button2 => 2
    case Button3 => 3
    case Button4 => 4
    case Button5 => 5
    case Button6 => 6
    case Button7 => 7
    case Button8 => 8
  }

  /** The backend button a number stands for, if any. */
  function NativeMouseButton(n: GsnButton): Option<Glfw.MouseButton>
  {
    if n == 1 then Some(Glfw.Button1)
    else if n == 2 then Some(Glfw.Button2)
    else if n == 3 then Some(Glfw.Button3)
    else if n == 4 then Some(Glfw.Button4)
    else if n == 5 then Some(Glfw.Button5)
    else if n == 6 then Some(Glfw.Button6)
    else if n == 7 then Some(Glfw.Button7)
    else if n == 8 then Some(Glfw.Button8)
    else None
  }

  /** Each backend key becomes the engine key of the same meaning; the
      backend's unknown key becomes `Unknown`. */
  function MapKeys(key: Glfw.Key): (r: GsnKey)
    ensures key == Glfw.Escape ==> r == Escape
    ensures r == Unknown <==> key == Glfw.Unknown
  {
    match key
    case Space => Space
    case Apostrophe => Apostrophe
    case Comma => Comma
    case Minus => Minus
    case Period => Period
    case Slash => Slash
    case Num0 => Num0
    case Num1 => Num1
    case Num2 => Num2
    case Num3 => Num3
    case Num4 => Num4
    case Num5 => Num5
    case Num6 => Num6
    case Num7 => Num7
    case Num8 => Num8
    case Num9 => Num9
    case Semicolon => SemiColon
    case Equal => Equal
    case A => A
    case B => B
    case C => C
    case D => D
    case E => E
    case F => F
    case G => G
    case H => H
    case I => I
    case J => J
    case K => K
    case L => L
    case M => M
    case N => N
    case O => O
    case P => P
    case Q => Q
    case R => R
    case S => S
    case T => T
    case U => U
    case V => V
    case W => W
    case X => X
    case Y => Y
    case Z => Z
    case LeftBracket => LeftBracket
    case Backslash => Backslash
    case RightBracket => RightBracket
    case GraveAccent => Grave
    case World1 => World1
    case World2 => World2
    case Escape => Escape
    case Enter => Enter
    case Tab => Tab
    case Backspace => Backspace
    case Insert => Insert
    case Delete => Delete
    case Right => Right
    case Left => Left
    case Down => Down
    case Up => Up
    case PageUp => PageUp
    case PageDown => PageDown
    case Home => Home
    case End => End
    case CapsLock => CapsLock
    case ScrollLock => ScrollLock
    case NumLock => NumLock
    case PrintScreen => PrintScreen
    case Pause => Pause
    case F1 => F1
    case F2 => F2
    case F3 => F3
    case F4 => F4
    case F5 => F5
    case F6 => F6
    case F7 => F7
    case F8 => F8
    case F9 => F9
    case F10 => F10
    case F11 => F11
    case F12 => F12
    case F13 => F13
    case F14 => F14
    case F15 => F15
    case F16 => F16
    case F17 => F17
    case F18 => F18
    case F19 => F19
    case F20 => F20
    case F21 => F21
    case F22 => F22
    case F23 => F23
    case F24 => F24
    case F25 => F25
    case Kp0 => Kp0
    case Kp1 => Kp1
    case Kp2 => Kp2
    case Kp3 => Kp3
    case Kp4 => Kp4
    case Kp5 => Kp5
    case Kp6 => Kp6
    case Kp7 => Kp7
    case Kp8 => Kp8
    case Kp9 => Kp9
    case KpDecimal => KpDecimal
    case KpDivide => KpDivide
    case KpMultiply => KpMultiply
    case KpSubtract => KpSubtract
    case KpAdd => KpAdd
    case KpEnter => KpEnter
    case KpEqual => KpEqual
    case LeftShift => LeftShift
    case LeftControl => LeftControl
    case LeftAlt => LeftAlt
    case LeftSuper => LeftSuper
    case RightShift => RightShift
    case RightControl => RightControl
    case RightAlt => RightAlt
    case RightSuper => RightSuper
    case Menu => Menu
    case Unknown => Unknown
  }

  /** The backend key an engine key stands for. */
  function NativeKey(key: GsnKey): Glfw.Key
  {
    match key
    case Space => Glfw.Space
    case Apostrophe => Glfw.Apostrophe
    case Comma => Glfw.Comma
    case Minus => Glfw.Minus
    case Period => Glfw.Period
    case Slash => Glfw.Slash
    case Num0 => Glfw.Num0
    case Num1 => Glfw.Num1
    case Num2 => Glfw.Num2
    case Num3 => Glfw.Num3
    case Num4 => Glfw.Num4
    case Num5 => Glfw.Num5
    case Num6 => Glfw.Num6
    case Num7 => Glfw.Num7
    case Num8 => Glfw.Num8
    case Num9 => Glfw.Num9
    case SemiColon => Glfw.Semicolon
    case Equal => Glfw.Equal
    case A => Glfw.A
    case B => Glfw.B
    case C => Glfw.C
    case D => Glfw.D
    case E => Glfw.E
    case F => Glfw.F
    case G => Glfw.G
    case H => Glfw.H
    case I => Glfw.I
    case J => Glfw.J
    case K => Glfw.K
    case L => Glfw.L
    case M => Glfw.M
    case N => Glfw.N
    case O => Glfw.O
    case P => Glfw.P
    case Q => Glfw.Q
    case R => Glfw.R
    case S => Glfw.S
    case T => Glfw.T
    case U => Glfw.U
    case V => Glfw.V
    case W => Glfw.W
    case X => Glfw.X
    case Y => Glfw.Y
    case Z => Glfw.Z
    case LeftBracket => Glfw.LeftBracket
    case Backslash => Glfw.Backslash
    case RightBracket => Glfw.RightBracket
    case Grave => Glfw.GraveAccent
    case World1 => Glfw.World1
    case World2 => Glfw.World2
    case Escape => Glfw.Escape
    case Enter => Glfw.Enter
    case Tab => Glfw.Tab
    case Backspace => Glfw.Backspace
    case Insert => Glfw.Insert
    case Delete => Glfw.Delete
    case Right => Glfw.Right
    case Left => Glfw.Left
    case Down => Glfw.Down
    case Up => Glfw.Up
    case PageUp => Glfw.PageUp
    case PageDown => Glfw.PageDown
    case Home => Glfw.Home
    case End => Glfw.End
    case CapsLock => Glfw.CapsLock
    case ScrollLock => Glfw.ScrollLock
    case NumLock => Glfw.NumLock
    case PrintScreen => Glfw.PrintScreen
    case Pause => Glfw.Pause
    case F1 => Glfw.F1
    case F2 => Glfw.F2
    case F3 => Glfw.F3
    case F4 => Glfw.F4
    case F5 => Glfw.F5
    case F6 => Glfw.F6
    case F7 => Glfw.F7
    case F8 => Glfw.F8
    case F9 => Glfw.F9
    case F10 => Glfw.F10
    case F11 => Glfw.F11
    case F12 => Glfw.F12
    case F13 => Glfw.F13
    case F14 => Glfw.F14
    case F15 => Glfw.F15
    case F16 => Glfw.F16
    case F17 => Glfw.F17
    case F18 => Glfw.F18
    case F19 => Glfw.F19
    case F20 => Glfw.F20
    case F21 => Glfw.F21
    case F22 => Glfw.F22
    case F23 => Glfw.F23
    case F24 => Glfw.F24
    case F25 => Glfw.F25
    case Kp0 => Glfw.Kp0
    case Kp1 => Glfw.Kp1
    case Kp2 => Glfw.Kp2
    case Kp3 => Glfw.Kp3
    case Kp4 => Glfw.Kp4
    case Kp5 => Glfw.Kp5
    case Kp6 => Glfw.Kp6
    case Kp7 => Glfw.Kp7
    case Kp8 => Glfw.Kp8
    case Kp9 => Glfw.Kp9
    case KpDecimal => Glfw.KpDecimal
    case KpDivide => Glfw.KpDivide
    case KpMultiply => Glfw.KpMultiply
    case KpSubtract => Glfw.KpSubtract
    case KpAdd => Glfw.KpAdd
    case KpEnter => Glfw.KpEnter
    case KpEqual => Glfw.KpEqual
    case LeftShift => Glfw.LeftShift
    case LeftControl => Glfw.LeftControl
    case LeftAlt => Glfw.LeftAlt
    case LeftSuper => Glfw.LeftSuper
    case RightShift => Glfw.RightShift
    case RightControl => Glfw.RightControl
    case RightAlt => Glfw.RightAlt
    case RightSuper => Glfw.RightSuper
    case Menu => Glfw.Menu
    case Unknown => Glfw.Unknown
  }


  /** A polled event's cursor coordinate, a float, converted with Rust's
      `as u32`: truncated toward zero, with negative values becoming 0 and
      values past the range saturating at the largest u32. */
  function CursorCoord(v: real): (r: U32)
    ensures v <= 0.0 ==> r == 0
    ensures 0.0 <= v < (U32_LIMIT - 1) as real ==> r as real <= v < r as real + 1.0
    ensures (U32_LIMIT - 1) as real <= v ==> r == U32_LIMIT - 1
  {
    if v <= 0.0 then 0
    else if (U32_LIMIT - 1) as real <= v then U32_LIMIT - 1
    else v.Floor
  }

  /** The mouse position recorded with a mouse press. */
  function CursorPos(cx: real, cy: real): MousePos
  {
    MousePos(CursorCoord(cx), CursorCoord(cy))
  }

  /** The queue entries that report input: key and mouse presses. */
  predicate IsInput(g: GsnEvent)
  {
    g.KeyPress? || g.MousePress?
  }

  /** The queue entries `update` adds for one polled event: a key event
      gives a key press of the translated key and action, a mouse-button
      event a mouse press at the cursor position queried for it, and any
      other event nothing. */
  function Translate(event: Glfw.WindowEvent): (r: seq<GsnEvent>)
    ensures |r| == if event.OtherEvent? then 0 else 1
    ensures forall g | g in r :: IsInput(g)
    ensures forall g | g in r :: g.KeyPress? <==> event.KeyEvent?
    ensures event.MouseButtonEvent? ==>
      forall g | g in r :: g.MousePress? && g.pos == CursorPos(event.cursorX, event.cursorY)
  {
    match event
    case KeyEvent(key, action) => [KeyPress(MapKeys(key), MapAction(action))]
    case MouseButtonEvent(button, action, cx, cy) =>
      [MousePress(MapMouseButton(button), MapAction(action), CursorPos(cx, cy))]
    case OtherEvent => []
  }

  /** The positions of the mouse presses among `entries`, in order. */
  function PressPositions(entries: seq<GsnEvent>): seq<MousePos>
  {
    if entries == [] then []
    else
      var last := entries[|entries| - 1];
      PressPositions(entries[..|entries| - 1]) + if last.MousePress? then [last.pos] else []
  }

  /** The cursor positions queried for the mouse-button events of a batch,
      in order. */
  function ClickPositions(events: seq<Glfw.WindowEvent>): seq<MousePos>
  {
    if events == [] then []
    else
      var last := events[|events| - 1];
      ClickPositions(events[..|events| - 1]) +
        if last.MouseButtonEvent? then [CursorPos(last.cursorX, last.cursorY)] else []
  }

  /** The entries added for a batch of polled events, in the order polled. */
  function TranslateAll(events: seq<Glfw.WindowEvent>): (r: seq<GsnEvent>)
    ensures |r| <= |events|
    ensures forall g | g in r :: IsInput(g)
  {
    if events == [] then []
    else TranslateAll(events[..|events| - 1]) + Translate(events[|events| - 1])
  }

  /** The polled events the engine reacts to, in order: the key and
      mouse-button events. */
  function InputEvents(events: seq<Glfw.WindowEvent>): (r: seq<Glfw.WindowEvent>)
    ensures |r| <= |events|
    ensures forall e | e in r :: !e.OtherEvent?
  {
    if events == [] then []
    else
      var last := events[|events| - 1];
      InputEvents(events[..|events| - 1]) + if last.OtherEvent? then [] else [last]
  }

  /** The backend event a queue entry reports, if it reports one. */
  function Untranslate(g: GsnEvent): Option<Glfw.WindowEvent>
  {
    match g
    case KeyPress(key, action) => Some(Glfw.KeyEvent(NativeKey(key), NativeAction(action)))
    case MousePress(button, action, pos) =>
      (match NativeMouseButton(button)
       case Some(b) => Some(Glfw.MouseButtonEvent(b, NativeAction(action), pos.x as real, pos.y as real))
       case None => None)
    case _ => None
  }

  /** A polled event as its queue entry records it: a mouse-button event's
      cursor position becomes the whole-pixel position of `CursorPos`. */
  function Recorded(event: Glfw.WindowEvent): Glfw.WindowEvent
  {
    match event
    case MouseButtonEvent(button, action, cx, cy) =>
      var pos := CursorPos(cx, cy);
      Glfw.MouseButtonEvent(button, action, pos.x as real, pos.y as real)
    case _ => event
  }
}
