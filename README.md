# GSN engine core in Dafny

This project models the CPU-side core of a small Rust game engine. The engine is built on GLFW and OpenGL and made of two parts:

- **The sprite** (`GsnSprite`): a `width` x `height` pixel buffer stored row by row in one vector. It supports writing a pixel, reading a pixel, filling a rectangle and clearing. The renderer (`GsnRenderer`) owns one sprite as its frame buffer. `initialize` allocates that buffer and paints it black.
- **The engine facade** (`GsnEngine`): it translates the backend's key and mouse-button events into the engine's own vocabulary, through three match tables: `map_keys`, `map_action` and `map_mouse_button`. It then appends the results to a queue of actions (`actions`) for the application. Creating the engine queues `Init`. Every tick (`update`) queues the tick's input events in arrival order, then a `Draw`, then another `Draw` from `render`.

Files:

- `ints.dfy`: the unsigned integer ranges and `clamp`.
- `renderer.dfy`: module `Renderer`. It holds cell addressing, the specification of a rectangle fill, the `Sprite` class over an `array` and the `Renderer` class.
- `glfw.dfy`: module `Glfw`, the backend enumerations.
- `events.dfy`: module `Events`. It holds the engine's keys, actions and queue entries, and the translation tables with their inverses.
- `laws.dfy`: module `EventLaws`. It proves that the tables are undone by their inverses and that a batch of events is reported in order.
- `engine.dfy`: module `Engine`, the `Engine` class with its action queue.
- `scenarios.dfy`: module `Scenarios`, concrete runs with their outcomes stated.

Modelling choices:

- A `Pixel` keeps the three 8-bit channel values given to `pixel_rgb`. The source stores each channel as the float `c / 255`, with alpha 1.0. Every pixel the engine builds has that shape.
- `u32` is the subset type `U32`. Where a source `u32` product or sum could overflow, the operation requires that it does not (see "Left out").
- Sprite cell `(x, y)` lives at `Index(width, x, y)`. This is `y * width + x`, written recursively so that the solver sees the product only where a proof asks for it. `At` reads a cell of a buffer snapshot.
- A rectangle fill is specified by `Painted`, which holds `p` exactly on the cells of the clipped rectangle and the old colour elsewhere. The fill's nested loops are proved against `PaintRect` and `PaintColumn`, which follow the order of the writes. `PaintRectIsPainted` proves that the two agree.
- Events arrive as a parameter of `Update`. The engine asks the window for the cursor position once per mouse-button event, while the loop handles that event, so each `MouseButtonEvent` carries the position that query returns. Two clicks of one tick can carry different positions. Events other than key and mouse-button events are `OtherEvent`.
- Each table has a hand-written inverse (`NativeAction`, `NativeMouseButton`, `NativeKey`) so that the laws can be stated as round trips. `NativeKeyOfMapKeys` is proved one key at a time, then by case analysis over all 121 keys. For each key, `MapKeys…` evaluates map_keys at that key, `NativeKey…` evaluates the inverse at the result, and `RoundTrip…` joins the two.

## Model

| member | source | states |
|---|---|---|
| Ints.Clamp | engine/src/renderer.rs:113-116 | `clamp(lo, hi)` gives a value in [lo, hi]: the value itself inside, the nearer bound outside |
| Renderer.IndexValue | engine/src/renderer.rs:98 | the row-by-row index of cell (x, y) is `y * width + x` |
| Renderer.IndexInBounds | engine/src/renderer.rs:96-99 | every cell with x < width and y < height has an index inside the `width * height` vector, so `set_pixel`'s write is in range |
| Renderer.IndexCoords | engine/src/renderer.rs:98 | the index of a cell gives back its column (remainder by width) and row (quotient), so distinct cells have distinct indices |
| Renderer.CellOfIndex | engine/src/renderer.rs:98 | every index of the vector is the index of the in-bounds cell (i % width, i / width); `IndexCoords` makes that cell the only one |
| Renderer.WriteAt | engine/src/renderer.rs:98-99 | writing the index of (x, y) changes cell (x, y) and no other cell |
| Renderer.PaintedAt | engine/src/renderer.rs:112-122 | in coordinates, a painted buffer holds `p` exactly inside the rectangle and the old colour elsewhere |
| Renderer.PaintedEmpty | engine/src/renderer.rs:117-118 | a rectangle with no columns or no rows changes nothing |
| Renderer.PaintedWhole | engine/src/renderer.rs:124-126 | the rectangle of all columns and all rows paints every cell |
| Renderer.PaintColumn | engine/src/renderer.rs:118-120 | the writes of one column of a fill keep the vector's length |
| Renderer.PaintRect | engine/src/renderer.rs:117-121 | the writes of a whole fill keep the vector's length |
| Renderer.PaintColumnIsPainted | engine/src/renderer.rs:118-120 | writing rows [y0, y1) of column x in order gives exactly that column's cells painted |
| Renderer.PaintRectIsPainted | engine/src/renderer.rs:117-121 | writing the columns of a rectangle in order gives exactly the rectangle's cells painted |
| Renderer.ClampedIndexAliasesNextRow | engine/src/renderer.rs:105-109 | as written, `get_pixel` with x >= width on row y reads the index of cell (0, y + 1) |
| Renderer.ClampedIndexPastEnd | engine/src/renderer.rs:105-109 | as written, `get_pixel` with y >= height indexes at or past the end of the vector |
| Renderer.NearestIndexIsNearest | engine/src/renderer.rs:105-109 | the corrected clamp (to width - 1 and height - 1) always lands inside the vector: on the cell itself when in bounds, otherwise on the nearest border cell |
| Renderer.GetPixelAliasExample | engine/src/renderer.rs:105-109 | in a 2 x 2 buffer, reading (2, 0) as written takes index 2, which is cell (0, 1); the nearest cell is index 1 |
| Renderer.GetPixelPastEndExample | engine/src/renderer.rs:105-109 | in a 2 x 2 buffer, reading (0, 2) as written takes index 4 of a 4-cell vector; the nearest cell is index 2 |
| Renderer.Sprite.Allocate | engine/src/renderer.rs:135-139 | a sprite of the given dimensions whose fresh data has `width * height` cells |
| Renderer.Sprite.SetPixel | engine/src/renderer.rs:96-103 | returns true exactly when (x, y) is in bounds. If so, it writes that cell alone, and the cell then reads back `pixel`. Otherwise nothing changes |
| Renderer.Sprite.GetPixel | engine/src/renderer.rs:105-110 | as written: it reads cell (x, y) when in bounds and cell (0, y + 1) when x >= width. It is defined only where the clamped index lies inside the vector, since the source panics elsewhere |
| Renderer.Sprite.GetPixelNearest | engine/src/renderer.rs:105-110 | corrected read: the cell itself when in bounds, otherwise the nearest border cell of the same row or column, or the corner |
| Renderer.Sprite.FillRect | engine/src/renderer.rs:112-123 | afterwards the buffer is the old one painted on the rectangle clipped to the sprite: cell (cx, cy) is `p` iff x <= cx < x + w and y <= cy < y + h, and otherwise unchanged |
| Renderer.Sprite.Clear | engine/src/renderer.rs:124-126 | every cell is `p` afterwards |
| Renderer.Renderer.constructor | engine/src/renderer.rs:45-63 | a renderer with zero dimensions and an empty buffer |
| Renderer.Renderer.Initialize | engine/src/renderer.rs:130-144 | records the dimensions and installs a fresh buffer of `width * height` cells, all black |
| Events.MapAction | engine/src/lib.rs:148-154 | each backend action becomes the engine action of the same name, and only that one does |
| Events.MapMouseButton | engine/src/lib.rs:155-166 | every button becomes a number in 1..8 |
| Events.MapKeys | engine/src/lib.rs:167-290 | Escape becomes Escape, and a key becomes Unknown exactly when it is the backend's Unknown |
| Events.CursorCoord | engine/src/lib.rs:131-133 | `as u32` on a cursor coordinate: 0 for values up to 0, truncation toward zero inside the range, the largest u32 beyond it |
| Events.Translate | engine/src/lib.rs:123-136 | a key or mouse-button event gives one key press or mouse press; any other event gives none; a mouse press carries the cursor position queried for its event, converted by `as u32` |
| Events.TranslateAll | engine/src/lib.rs:122-137 | a batch gives at most one entry per event, all of them key or mouse presses |
| Events.InputEvents | engine/src/lib.rs:123-137 | the events of a batch that the loop reacts to, none of them an `OtherEvent` |
| EventLaws.MapActionBijective | engine/src/lib.rs:148-154 | `map_action` is a bijection undone by `NativeAction` |
| EventLaws.MapMouseButtonInverse | engine/src/lib.rs:155-166 | `map_mouse_button` is injective and onto 1..8; `NativeMouseButton` undoes it and refuses every other number |
| EventLaws.NativeKeyOfMapKeys | engine/src/lib.rs:167-290 | `NativeKey` undoes `map_keys` on each of the 121 backend keys |
| EventLaws.MapKeysInjective | engine/src/lib.rs:167-290 | no two backend keys become the same engine key |
| EventLaws.TranslateRoundTrip | engine/src/lib.rs:123-136 | the key or button, the action and, for a click, the whole-pixel cursor position of an event can be read back from its queue entry |
| EventLaws.PressPositionsTranslate | engine/src/lib.rs:129-133 | appending one event's entries adds the cursor position queried for it when it is a mouse-button event, and no position otherwise |
| EventLaws.TranslateAllPositions | engine/src/lib.rs:122-137 | the mouse presses of a batch's entries carry, in order, the cursor positions queried for the batch's mouse-button events, one query per event |
| EventLaws.TranslateAllAppend | engine/src/lib.rs:122-137 | translating two batches one after the other gives the entries of the joined batch |
| EventLaws.TranslateAllReportsInputs | engine/src/lib.rs:122-137 | entry i of a batch is the translation of the batch's i-th key or mouse-button event, one entry per such event in arrival order, and reads back as that event with its cursor position cut to whole pixels |
| Engine.Engine.constructor | engine/src/lib.rs:70-94 | the queue holds only `Init`; the renderer is initialized to the requested dimensions with an all-black buffer |
| Engine.Engine.Width | engine/src/lib.rs:107-109 | the buffer's width, which is the renderer's width; the buffer holds width x height cells |
| Engine.Engine.Height | engine/src/lib.rs:111-113 | the buffer's height, which is the renderer's height; the buffer holds width x height cells |
| Engine.Engine.Render | engine/src/lib.rs:97-101 | appends one `Draw` to the queue and changes nothing else of the engine |
| Engine.Engine.Update | engine/src/lib.rs:119-140 | appends the translation of the tick's events in arrival order, each click at the position queried for it, then two `Draw`s (one from `update`, one from `render`) |
| Scenarios.FillSquare | engine/src/renderer.rs:112-123 | on a black 4 x 4 sprite, a 2 x 2 red fill at (1, 1) colours its four cells and leaves the other twelve black |
| Scenarios.FillPastCorner | engine/src/renderer.rs:112-123 | a 5 x 5 fill at (3, 3) of a black 4 x 4 sprite makes the corner cell blue and leaves the other fifteen black |
| Scenarios.ReadPastRightEdge | engine/src/renderer.rs:105-110 | in a 2 x 2 sprite with only (0, 1) red, `get_pixel(2, 0)` returns red |
| Scenarios.PressEscape | engine/src/lib.rs:119-140 | a tick with an Escape press leaves the queue `[Init, KeyPress(Escape, Press), Draw, Draw]` |
| Scenarios.ClicksAmongOtherEvents | engine/src/lib.rs:119-140 | a tick with clicks at (10.7, -3.0) and (3.5, 7.0) among other events queues two mouse presses, at (10, 0) and (3, 7), between `Init` and the two `Draw`s |

## Left out

- The OpenGL side of the renderer: vertex arrays, shaders, the texture upload in `render`, the clear colour, and `get_shader`. These are foreign calls with floating-point data.
- The GLFW window: creating it, making it current, enabling polling, `poll_events`, `swap_buffers` and `exit`. These are effects of the backend. The events a poll delivers are a parameter of `Engine.Engine.Update`, and the cursor query's answer for each mouse-button event is a field of that event.
- The title and window-mode parameters of `GsnEngine::new`, which only reach the window.
- `GsnEngine::buffer`, which hands out a mutable reference to the sprite. Callers use the sprite's own methods instead.
- `new_pixel`, which calls `Pixel::from_rgb`; no `from_rgb` and no `impl Pixel` is defined in the source, so the function has no body to model. The float representation of a pixel is also left out (see "Modelling choices").
- `GsnModifiers` and the empty `engine::Pixel` struct, which nothing uses.
- The scancode and modifier fields of key and button events, which the engine ignores.
- The two executables. `src/main.rs` drives GLFW and OpenGL directly and does not use the engine. `example/src/main.rs` is a client of the engine, written against an older interface.
- Events.CursorCoord: NaN and infinite cursor coordinates are not modelled; Rust's `as u32` maps them to 0 and the largest u32.
- Renderer.Sprite.FillRect: requires `min(x, width) + w` and `min(y, height) + h` to fit in a u32. Beyond that the source's addition overflows, which panics in a debug build and wraps in a release build.
- Renderer.Renderer.Initialize: requires `width * height` to fit in a u32, for the same overflow reason. It also takes `Vec::with_capacity` to give exactly the capacity requested, which the source relies on when it sets the length to the capacity.
- Engine.Engine.constructor: the same requirement as `Initialize`, which it calls.
- Renderer.Sprite.GetPixel: requires the clamped index to lie inside the vector. The source panics otherwise (see "Findings").

## Findings

| source | as written | input that shows it | evidently intended | confidence | as-written member | corrected member |
|---|---|---|---|---|---|---|
| engine/src/renderer.rs:106 | x is clamped to [0, width] with width included, so x >= width reads index y * width + width, the first cell of the next row | a 2 x 2 sprite, `get_pixel(2, 0)` returns cell (0, 1) | clamp x to width - 1, returning the last cell of row y | high, not executed | Scenarios.ReadPastRightEdge | Renderer.Sprite.GetPixelNearest |
| engine/src/renderer.rs:107 | y is clamped to [0, height] with height included, so y >= height indexes at or past the end of the vector and the read panics | a 2 x 2 sprite, `get_pixel(0, 2)` indexes cell 4 of 4 | clamp y to height - 1, returning the cell of the last row | high, not executed | Renderer.ClampedIndexPastEnd | Renderer.NearestIndexIsNearest |
