/** The engine facade (`GsnEngine`): it owns the renderer and the queue of
    actions it hands to the application. Window creation, event polling,
    the cursor query and buffer presentation belong to the windowing
    backend; the events one poll delivers, each mouse-button event with the
    cursor position queried for it, are a parameter here. */
module Engine {
  import opened Ints
  import Glfw
  import opened Events
  import Renderer

  class Engine {
    var renderer: Renderer.Renderer
    /** The actions produced so far, oldest first. */
    var actions: seq<GsnEvent>

    ghost predicate Valid()
      reads this, renderer, renderer.buffer
    {
      renderer.Valid()
    }

    /** `GsnEngine::new`: a renderer set up for a `width` by `height` window,
        with an all-black buffer, and a queue holding the `Init` action. */
    constructor (width: U32, height: U32)
      requires width * height < U32_LIMIT
      ensures Valid() && actions == [Init]
      ensures Width() == width && Height() == height
      ensures fresh(renderer) && fresh(renderer.buffer) && fresh(renderer.buffer.data)
      ensures renderer.buffer.data.Length == width * height
      ensures forall i :: 0 <= i < renderer.buffer.data.Length ==>
        renderer.buffer.data[i] == Renderer.Black
    {
      actions := [Init];
      var r := new Renderer.Renderer();
      r.Initialize(width, height);
      renderer := r;
    }

    /** The width of the frame buffer. */
    function Width(): (w: U32)
      reads this, renderer, renderer.buffer
      ensures Valid() ==> w == renderer.width
      ensures Valid() ==> renderer.buffer.data.Length == w * renderer.buffer.height
    {
      renderer.buffer.width
    }

    /** The height of the frame buffer. */
    function Height(): (h: U32)
      reads this, renderer, renderer.buffer
      ensures Valid() ==> h == renderer.height
      ensures Valid() ==> renderer.buffer.data.Length == renderer.buffer.width * h
    {
      renderer.buffer.height
    }

    /** `render`: records a `Draw` action; drawing the buffer and swapping
        the window's buffers are the backend's. */
    method Render()
      modifies this`actions
      ensures actions == old(actions) + [Draw]
    {
      actions := actions + [Draw];
    }

    /** `update`: appends the actions for the events one poll delivered, in
        the order delivered, then a `Draw`, then renders (another `Draw`).
        Each mouse-button event carries the cursor position the backend
        reports when it is handled. */
    method Update(events: seq<Glfw.WindowEvent>)
      modifies this`actions
      ensures actions == old(actions) + TranslateAll(events) + [Draw, Draw]
    {
      for k := 0 to |events|
        invariant actions == old(actions) + TranslateAll(events[..k])
      {
        assert events[..k + 1][..k] == events[..k];
        match events[k]
        case KeyEvent(key, action) =>
          actions := actions + [KeyPress(MapKeys(key), MapAction(action))];
        case MouseButtonEvent(button, action, cx, cy) =>
          actions := actions + [MousePress(MapMouseButton(button), MapAction(action), CursorPos(cx, cy))];
        case OtherEvent =>
      }
      assert events[..|events|] == events;
      actions := actions + [Draw];
      Render();
    }
  }
}
