/** The CPU-side pixel buffer of the renderer (`GsnSprite`) and the part of
    `GsnRenderer` that allocates it. The GPU side (quad geometry, shaders,
    texture upload) is not part of this model. */
module Renderer {
  import opened Ints

  /** A colour. `pixel_rgb(r, g, b)` stores each 8-bit channel c as the
      float c / 255 and sets alpha to 1.0; every pixel the engine builds has
      that shape, so the model keeps the three 8-bit numerators. */
  datatype Pixel = Pixel(r: U8, g: U8, b: U8)

  function PixelRgb(r: U8, g: U8, b: U8): Pixel { Pixel(r, g, b) }

  const White: Pixel := PixelRgb(255, 255, 255)
  const Black: Pixel := PixelRgb(0, 0, 0)
  const Red: Pixel := PixelRgb(255, 0, 0)
  const Green: Pixel := PixelRgb(0, 255, 0)
  const Blue: Pixel := PixelRgb(0, 0, 255)

  // ---------------------------------------------------------------------
  // Addressing: cell (x, y) of a buffer `width` cells wide lives at
  // y * width + x of the flat data vector.
  // ---------------------------------------------------------------------

  /** The flat index of cell (x, y), y * width + x, written as y whole rows
      followed by x cells so that the solver unfolds the product only where
      a proof asks for it (IndexValue). */
  function Index(width: nat, x: nat, y: nat): nat
    decreases y
  {
    if y == 0 then x else Index(width, x, y - 1) + width
  }

  lemma {:induction false} IndexValue(width: nat, x: nat, y: nat)
    ensures Index(width, x, y) == y * width + x
    decreases y
  {
    if y > 0 {
      IndexValue(width, x, y - 1);
    }
  }

  lemma MulMonotone(a: nat, b: nat, c: nat)
    requires a <= b
    ensures a * c <= b * c
  {
  }

  /** Every in-bounds cell has an index inside the `width * height` vector. */
  lemma IndexInBounds(width: nat, height: nat, x: nat, y: nat)
    requires x < width && y < height
    ensures Index(width, x, y) < width * height
  {
    IndexValue(width, x, y);
    MulMonotone(y + 1, height, width);
    assert (y + 1) * width == y * width + width;
  }

  /** The index of a cell determines the cell: its column and row are
      recovered by remainder and quotient. */
  lemma IndexCoords(width: nat, x: nat, y: nat)
    requires x < width
    ensures Index(width, x, y) % width == x
    ensures Index(width, x, y) / width == y
  {
    IndexValue(width, x, y);
    var i := y * width + x;
    var q, r := i / width, i % width;
    assert i == q * width + r && 0 <= r < width;
    if q < y {
      MulMonotone(q + 1, y, width);
      assert false;
    } else if q > y {
      MulMonotone(y + 1, q, width);
      assert false;
    }
  }

  /** Every index of a `width * height` vector is the index of a cell. */
  lemma CellOfIndex(width: nat, height: nat, i: nat)
    requires i < width * height
    ensures width > 0
    ensures i % width < width && i / width < height
    ensures Index(width, i % width, i / width) == i
  {
    if width == 0 {
      assert false;
    }
    var q := i / width;
    assert i == q * width + i % width;
    if q >= height {
      MulMonotone(height, q, width);
      assert false;
    }
    IndexValue(width, i % width, q);
  }

  /** The colour of cell (x, y) of a `width` x `height` buffer. */
  function At(s: seq<Pixel>, width: nat, height: nat, x: nat, y: nat): Pixel
    requires |s| == width * height && x < width && y < height
  {
    IndexInBounds(width, height, x, y);
    s[Index(width, x, y)]
  }

  /** Writing the index of cell (x, y) changes that cell and no other. */
  lemma {:induction false} WriteAt(s: seq<Pixel>, width: nat, height: nat, x: nat, y: nat, p: Pixel,
                                   cx: nat, cy: nat)
    requires |s| == width * height && x < width && y < height
    requires cx < width && cy < height
    ensures Index(width, x, y) < |s|
    ensures At(s[Index(width, x, y) := p], width, height, cx, cy) ==
              if cx == x && cy == y then p else At(s, width, height, cx, cy)
  {
    IndexInBounds(width, height, x, y);
    IndexInBounds(width, height, cx, cy);
    if cx != x || cy != y {
      IndexCoords(width, x, y);
      IndexCoords(width, cx, cy);
      assert Index(width, x, y) != Index(width, cx, cy);
    }
  }

  // ---------------------------------------------------------------------
  // The effect of a rectangle fill on the flat data vector.
  // ---------------------------------------------------------------------

  /** Flat index i lies in columns [x0, x1) and rows [y0, y1). */
  predicate InRect(width: nat, i: nat, x0: int, x1: int, y0: int, y1: int)
  {
    width > 0 && x0 <= i % width < x1 && y0 <= i / width < y1
  }

  /** `s` with every cell of columns [x0, x1) and rows [y0, y1) set to `p`. */
  function Painted(s: seq<Pixel>, width: nat, x0: int, x1: int, y0: int, y1: int, p: Pixel): seq<Pixel>
  {
    seq(|s|, i requires 0 <= i < |s| => if InRect(width, i, x0, x1, y0, y1) then p else s[i])
  }

  /** Read in coordinates, a painted buffer holds `p` exactly inside the
      rectangle and the old colour everywhere else. */
  lemma PaintedAt(s: seq<Pixel>, width: nat, height: nat, x0: int, x1: int, y0: int, y1: int,
                  p: Pixel, x: nat, y: nat)
    requires |s| == width * height
    requires x < width && y < height
    ensures At(Painted(s, width, x0, x1, y0, y1, p), width, height, x, y) ==
            if x0 <= x < x1 && y0 <= y < y1 then p else At(s, width, height, x, y)
  {
    IndexInBounds(width, height, x, y);
    IndexCoords(width, x, y);
  }

  /** A rectangle without columns or without rows changes nothing. */
  lemma PaintedEmpty(s: seq<Pixel>, width: nat, x0: int, x1: int, y0: int, y1: int, p: Pixel)
    requires x1 <= x0 || y1 <= y0
    ensures Painted(s, width, x0, x1, y0, y1, p) == s
  {
  }

  /** The rectangle covering all columns and rows paints every cell. */
  lemma {:induction false} PaintedWhole(s: seq<Pixel>, width: nat, height: nat, p: Pixel)
    requires |s| == width * height
    ensures forall i :: 0 <= i < |s| ==> Painted(s, width, 0, width, 0, height, p)[i] == p
  {
    forall i | 0 <= i < |s|
      ensures Painted(s, width, 0, width, 0, height, p)[i] == p
    {
      CellOfIndex(width, height, i);
    }
  }

  /** The writes of one column of a fill, in order: rows [y0, y1) of
      column x set to `p`. */
  function PaintColumn(s: seq<Pixel>, width: nat, height: nat, x: nat, y0: nat, y1: nat, p: Pixel): (r: seq<Pixel>)
    requires |s| == width * height && x < width && y1 <= height
    ensures |r| == |s|
    decreases y1
  {
    if y1 <= y0 then s
    else
      IndexInBounds(width, height, x, y1 - 1);
      PaintColumn(s, width, height, x, y0, y1 - 1, p)[Index(width, x, y1 - 1) := p]
  }

  /** The writes of a whole fill, in order: columns [x0, x1), each of them
      over rows [y0, y1). */
  function PaintRect(s: seq<Pixel>, width: nat, height: nat, x0: nat, x1: nat, y0: nat, y1: nat, p: Pixel): (r: seq<Pixel>)
    requires |s| == width * height && x1 <= width && y1 <= height
    ensures |r| == |s|
    decreases x1
  {
    if x1 <= x0 then s
    else PaintColumn(PaintRect(s, width, height, x0, x1 - 1, y0, y1, p), width, height, x1 - 1, y0, y1, p)
  }

  /** Painting a column in order sets exactly that column's rows to `p`. */
  lemma {:induction false} PaintColumnIsPainted(s: seq<Pixel>, width: nat, height: nat, x: nat, y0: nat, y1: nat, p: Pixel)
    requires |s| == width * height && x < width && y1 <= height
    ensures PaintColumn(s, width, height, x, y0, y1, p) == Painted(s, width, x, x + 1, y0, y1, p)
    decreases y1
  {
    if y1 > y0 {
      PaintColumnIsPainted(s, width, height, x, y0, y1 - 1, p);
      var k := Index(width, x, y1 - 1);
      IndexCoords(width, x, y1 - 1);
      forall i | 0 <= i < |s|
        ensures PaintColumn(s, width, height, x, y0, y1, p)[i] == Painted(s, width, x, x + 1, y0, y1, p)[i]
      {
        if i != k {
          CellOfIndex(width, height, i);
        }
      }
    }
  }

  /** Painting a rectangle column by column sets exactly its cells to `p`. */
  lemma {:induction false} PaintRectIsPainted(s: seq<Pixel>, width: nat, height: nat, x0: nat, x1: nat, y0: nat, y1: nat, p: Pixel)
    requires |s| == width * height && x1 <= width && y1 <= height
    ensures PaintRect(s, width, height, x0, x1, y0, y1, p) == Painted(s, width, x0, x1, y0, y1, p)
    decreases x1
  {
    if x1 > x0 {
      var before := PaintRect(s, width, height, x0, x1 - 1, y0, y1, p);
      PaintRectIsPainted(s, width, height, x0, x1 - 1, y0, y1, p);
      PaintColumnIsPainted(before, width, height, x1 - 1, y0, y1, p);
    }
  }

  // ---------------------------------------------------------------------
  // Reading a cell.
  // ---------------------------------------------------------------------

  /** The index `get_pixel` reads: x clamped into [0, width] and y into
      [0, height], both bounds included. */
  function ClampedIndex(width: U32, height: U32, x: U32, y: U32): nat
  {
    Index(width, Clamp(x, 0, width), Clamp(y, 0, height))
  }

  /** A read past the end of a row reads the first cell of the next row. */
  lemma ClampedIndexAliasesNextRow(width: U32, height: U32, x: U32, y: U32)
    requires width <= x && y < height
    ensures ClampedIndex(width, height, x, y) == Index(width, 0, y + 1)
  {
    IndexValue(width, width, y);
    IndexValue(width, 0, y + 1);
  }

  /** A read at or below the last row indexes past the end of the vector. */
  lemma ClampedIndexPastEnd(width: U32, height: U32, x: U32, y: U32)
    requires height <= y
    ensures ClampedIndex(width, height, x, y) >= width * height
  {
    IndexValue(width, Clamp(x, 0, width), height);
  }

  /** The index of the in-bounds cell nearest to (x, y): each coordinate
      clamped into [0, width - 1] and [0, height - 1]. */
  function NearestIndex(width: U32, height: U32, x: U32, y: U32): nat
    requires width > 0 && height > 0
  {
    Index(width, Clamp(x, 0, width - 1), Clamp(y, 0, height - 1))
  }

  /** The nearest-cell read always lands on a cell of the buffer, is the cell
      itself when (x, y) is in bounds, and otherwise the border cell on the
      same row or column. */
  lemma NearestIndexIsNearest(width: U32, height: U32, x: U32, y: U32)
    requires width > 0 && height > 0
    ensures NearestIndex(width, height, x, y) < width * height
    ensures x < width && y < height ==> NearestIndex(width, height, x, y) == Index(width, x, y)
    ensures width <= x && y < height ==> NearestIndex(width, height, x, y) == Index(width, width - 1, y)
    ensures x < width && height <= y ==> NearestIndex(width, height, x, y) == Index(width, x, height - 1)
    ensures width <= x && height <= y ==>
              NearestIndex(width, height, x, y) == Index(width, width - 1, height - 1)
  {
    IndexInBounds(width, height, Clamp(x, 0, width - 1), Clamp(y, 0, height - 1));
  }

  /** Concretely, in a 2 x 2 buffer, reading (2, 0) yields cell 2, which is
      (0, 1), rather than its nearest cell 1, which is (1, 0). */
  lemma GetPixelAliasExample()
    ensures ClampedIndex(2, 2, 2, 0) == 2
    ensures NearestIndex(2, 2, 2, 0) == 1
  {
  }

  /** Concretely, in a 2 x 2 buffer, reading (0, 2) indexes cell 4 of a
      vector of four cells; the nearest cell is 2, which is (0, 1). */
  lemma GetPixelPastEndExample()
    ensures ClampedIndex(2, 2, 0, 2) == 4
    ensures NearestIndex(2, 2, 0, 2) == 2
  {
  }

  // ---------------------------------------------------------------------
  // GsnSprite
  // ---------------------------------------------------------------------

  /** A `width` x `height` grid of pixels stored row by row in `data`. */
  class Sprite {
    var width: U32
    var height: U32
    var data: array<Pixel>

    ghost predicate Valid()
      reads this
    {
      data.Length == width * height
    }

    /** The struct literal of `initialize`: a vector of `width * height`
        cells whose contents are not yet defined. */
    constructor Allocate(width: U32, height: U32)
      requires width * height < U32_LIMIT
      ensures Valid() && fresh(data)
      ensures this.width == width && this.height == height
    {
      this.width := width;
      this.height := height;
      MulMonotone(0, width, height);
      data := new Pixel[width * height];
    }

    /** Writes cell (x, y) when it is in bounds and reports whether it did. */
    method SetPixel(x: U32, y: U32, pixel: Pixel) returns (ok: bool)
      requires Valid()
      modifies data
      ensures ok <==> x < width && y < height
      ensures ok ==> Index(width, x, y) < data.Length &&
                     data[..] == old(data[..])[Index(width, x, y) := pixel]
      ensures !ok ==> data[..] == old(data[..])
      ensures forall cx, cy :: 0 <= cx < width && 0 <= cy < height ==>
                At(data[..], width, height, cx, cy) ==
                  if ok && cx == x && cy == y then pixel else At(old(data[..]), width, height, cx, cy)
      ensures ok ==> GetPixel(x, y) == pixel
    {
      ghost var s0 := data[..];
      if x < width && y < height {
        IndexInBounds(width, height, x, y);
        data[Index(width, x, y)] := pixel;
        ok := true;
        forall cx, cy | 0 <= cx < width && 0 <= cy < height
          ensures At(data[..], width, height, cx, cy) ==
                    if cx == x && cy == y then pixel else At(s0, width, height, cx, cy)
        {
          WriteAt(s0, width, height, x, y, pixel, cx, cy);
        }
      } else {
        ok := false;
      }
    }

    /** Reads the cell at the clamped coordinates. The clamp keeps x up to
        `width` and y up to `height` inclusive, so the read is defined only
        where the resulting index lies inside the vector; at x == width it
        reads the first cell of the next row. */
    function GetPixel(x: U32, y: U32): (p: Pixel)
      reads this, data
      requires Valid()
      requires ClampedIndex(width, height, x, y) < data.Length
      ensures x < width && y < height ==> p == At(data[..], width, height, x, y)
      ensures width <= x && y + 1 < height ==> p == At(data[..], width, height, 0, y + 1)
    {
      if width <= x && y < height then
        ClampedIndexAliasesNextRow(width, height, x, y);
        data[ClampedIndex(width, height, x, y)]
      else
        data[ClampedIndex(width, height, x, y)]
    }

    /** The read the clamp evidently intends: the nearest in-bounds cell. */
    function GetPixelNearest(x: U32, y: U32): (p: Pixel)
      reads this, data
      requires Valid() && width > 0 && height > 0
      ensures x < width && y < height ==> p == At(data[..], width, height, x, y)
      ensures width <= x && y < height ==> p == At(data[..], width, height, width - 1, y)
      ensures x < width && height <= y ==> p == At(data[..], width, height, x, height - 1)
      ensures width <= x && height <= y ==> p == At(data[..], width, height, width - 1, height - 1)
    {
      NearestIndexIsNearest(width, height, x, y);
      data[NearestIndex(width, height, x, y)]
    }

    /** Sets every cell of the rectangle (x, y, w, h), cut to the buffer, to
        `p`, through one `SetPixel` per cell, column by column. */
    method FillRect(x: U32, y: U32, w: U32, h: U32, p: Pixel)
      requires Valid()
      requires Min(x, width) + w < U32_LIMIT && Min(y, height) + h < U32_LIMIT
      modifies data
      ensures data[..] == Painted(old(data[..]), width, Min(x, width), Min(x + w, width),
                                  Min(y, height), Min(y + h, height), p)
      ensures forall cx, cy :: 0 <= cx < width && 0 <= cy < height ==>
                At(data[..], width, height, cx, cy) ==
                  if x <= cx < x + w && y <= cy < y + h then p else At(old(data[..]), width, height, cx, cy)
    {
      ghost var s0 := data[..];
      var x0 := Clamp(x, 0, width);
      var y0 := Clamp(y, 0, height);
      var x1 := Clamp(x0 + w, 0, width);
      var y1 := Clamp(y0 + h, 0, height);
      for dx := x0 to x1
        invariant data[..] == PaintRect(s0, width, height, x0, dx, y0, y1, p)
      {
        ghost var before := data[..];
        for dy := y0 to y1
          invariant data[..] == PaintColumn(before, width, height, dx, y0, dy, p)
        {
          var ok := SetPixel(dx, dy, p);
          assert ok;
        }
      }
      PaintRectIsPainted(s0, width, height, x0, x1, y0, y1, p);
      forall cx, cy | 0 <= cx < width && 0 <= cy < height
        ensures At(data[..], width, height, cx, cy) ==
                  if x <= cx < x + w && y <= cy < y + h then p else At(s0, width, height, cx, cy)
      {
        PaintedAt(s0, width, height, x0, x1, y0, y1, p, cx, cy);
      }
    }

    /** Sets every cell to `p`: a fill of the whole buffer. */
    method Clear(p: Pixel)
      requires Valid()
      modifies data
      ensures forall i :: 0 <= i < data.Length ==> data[i] == p
    {
      ghost var s0 := data[..];
      FillRect(0, 0, width, height, p);
      PaintedWhole(s0, width, height, p);
      assert forall i :: 0 <= i < data.Length ==> data[i] == data[..][i];
    }
  }

  // ---------------------------------------------------------------------
  // GsnRenderer: only the dimensions and the pixel buffer it owns.
  // ---------------------------------------------------------------------

  class Renderer {
    var width: U32
    var height: U32
    var buffer: Sprite

    ghost predicate Valid()
      reads this, buffer
    {
      buffer.Valid() && buffer.width == width && buffer.height == height
    }

    /** `new_gsn_renderer`: zero dimensions and an empty buffer. */
    constructor ()
      ensures Valid() && width == 0 && height == 0 && buffer.data.Length == 0
      ensures fresh(buffer) && fresh(buffer.data)
    {
      width, height := 0, 0;
      buffer := new Sprite.Allocate(0, 0);
    }

    /** Records the dimensions and replaces the buffer by a fresh one of
        `width * height` cells, each set to black. */
    method Initialize(width: U32, height: U32)
      requires width * height < U32_LIMIT
      modifies this
      ensures Valid() && this.width == width && this.height == height
      ensures fresh(buffer) && fresh(buffer.data)
      ensures buffer.data.Length == width * height
      ensures forall i :: 0 <= i < buffer.data.Length ==> buffer.data[i] == PixelRgb(0, 0, 0)
    {
      this.width := width;
      this.height := height;
      var sprite := new Sprite.Allocate(width, height);
      var cells := sprite.data;
      for i := 0 to cells.Length
        modifies cells
        invariant forall k :: 0 <= k < i ==> cells[k] == PixelRgb(0, 0, 0)
      {
        cells[i] := PixelRgb(0, 0, 0);
      }
      buffer := sprite;
    }
  }
}
