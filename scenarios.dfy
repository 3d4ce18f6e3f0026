/** Small end-to-end uses of the sprite and the engine, each with the
    outcome stated as its postcondition. */
module Scenarios {
  import Glfw
  import opened Events
  import Renderer
  import Engine

  /** On a black 4 x 4 sprite, a 2 x 2 red square at (1, 1) colours its
      four cells and leaves the other twelve black. */
  method FillSquare() returns (s: Renderer.Sprite)
    ensures s.width == 4 && s.height == 4 && s.data.Length == 16
    ensures forall cx, cy :: 0 <= cx < 4 && 0 <= cy < 4 ==>
      Renderer.At(s.data[..], 4, 4, cx, cy)
        == if 1 <= cx < 3 && 1 <= cy < 3 then Renderer.Red else Renderer.Black
  {
    s := new Renderer.Sprite.Allocate(4, 4);
    s.Clear(Renderer.Black);
    ghost var black := s.data[..];
    s.FillRect(1, 1, 2, 2, Renderer.Red);
    forall cx, cy | 0 <= cx < 4 && 0 <= cy < 4
      ensures Renderer.At(black, 4, 4, cx, cy) == Renderer.Black
    {
      Renderer.IndexInBounds(4, 4, cx, cy);
    }
  }

  /** A rectangle reaching past the corner of a 4 x 4 sprite is cut to the
      sprite: only the corner cell changes. */
  method FillPastCorner() returns (s: Renderer.Sprite)
    ensures s.width == 4 && s.height == 4 && s.data.Length == 16
    ensures forall cx, cy :: 0 <= cx < 4 && 0 <= cy < 4 ==>
      Renderer.At(s.data[..], 4, 4, cx, cy)
        == if cx == 3 && cy == 3 then Renderer.Blue else Renderer.Black
  {
    s := new Renderer.Sprite.Allocate(4, 4);
    s.Clear(Renderer.Black);
    ghost var black := s.data[..];
    s.FillRect(3, 3, 5, 5, Renderer.Blue);
    forall cx, cy | 0 <= cx < 4 && 0 <= cy < 4
      ensures Renderer.At(black, 4, 4, cx, cy) == Renderer.Black
    {
      Renderer.IndexInBounds(4, 4, cx, cy);
    }
  }

  /** Reading one column past the right edge of row 0 of a 2 x 2 sprite
      returns the first cell of row 1. */
  method ReadPastRightEdge() returns (p: Renderer.Pixel)
    ensures p == Renderer.Red
  {
    var s := new Renderer.Sprite.Allocate(2, 2);
    s.Clear(Renderer.Black);
    var ok := s.SetPixel(0, 1, Renderer.Red);
    p := s.GetPixel(2, 0);
  }

  /** A tick in which Escape is pressed: the queue holds the start-up action,
      the key press, and the two draws of the tick. */
  method PressEscape() returns (queue: seq<GsnEvent>)
    ensures queue == [Init, KeyPress(Escape, Press), Draw, Draw]
  {
    var e := new Engine.Engine(4, 4);
    var events := [Glfw.KeyEvent(Glfw.Escape, Glfw.Press)];
    e.Update(events);
    queue := e.actions;
  }

  /** A tick with two clicks among other events: only the clicks are
      queued, each with the cursor position queried for it, truncated and
      clamped to unsigned values. */
  method ClicksAmongOtherEvents() returns (queue: seq<GsnEvent>)
    ensures queue == [Init, MousePress(1, Press, MousePos(10, 0)),
                      MousePress(2, Release, MousePos(3, 7)), Draw, Draw]
  {
    var e := new Engine.Engine(4, 4);
    var events := [Glfw.OtherEvent, Glfw.MouseButtonEvent(Glfw.Button1, Glfw.Press, 10.7, -3.0),
                   Glfw.OtherEvent, Glfw.MouseButtonEvent(Glfw.Button2, Glfw.Release, 3.5, 7.0)];
    assert TranslateAll(events[..2]) == [MousePress(1, Press, MousePos(10, 0))] by {
      assert events[..2][..1] == [Glfw.OtherEvent];
    }
    assert TranslateAll(events) == TranslateAll(events[..3]) + Translate(events[3]);
    assert events[..3][..2] == events[..2];
    e.Update(events);
    queue := e.actions;
  }
}
