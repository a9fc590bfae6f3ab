/**
  The food (`sprites/fruit/fruit.py`): a box of fixed size whose position is
  set directly or picked at random so that the whole box lies in a given
  range, by default the display.
 */
module Fruits {
  import opened Wrappers
  import opened Geometry

  const DefaultFruitSize := 32

  /** A range as given, or the default running from 0 to the display extent. */
  function RangeOrDefault(range: Option<(int, int)>, extent: int): (r: (int, int))
    ensures range.Some? ==> r == range.value
    ensures range.None? ==> r == (0, extent)
  {
    match range
    case Some(given) => given
    case None => (0, extent)
  }

  /** The inclusive range of top-left coordinates that keep a box of `size` inside `range`. */
  function PickRange(range: (int, int), size: int): (r: (int, int))
    ensures r.0 == range.0 && r.1 + size == range.1
  {
    (range.0, range.1 - size)
  }

  /** Every coordinate in the pick range keeps the whole box inside the original range. */
  lemma PickKeepsBoxInside(range: (int, int), size: int, v: int)
    requires PickRange(range, size).0 <= v <= PickRange(range, size).1
    ensures range.0 <= v && v + size <= range.1
  {
  }

  class Fruit {
    const width: int
    const height: int
    var x: int
    var y: int
    var rect: Rect

    constructor (x: int, y: int, width: int, height: int)
      ensures this.x == x && this.y == y && this.width == width && this.height == height
      ensures rect == Rect(x, y, width, height)
    {
      this.width, this.height := width, height;
      this.x, this.y := x, y;
      new;
      UpdateRect();
    }

    /** Moves the stored position only; the rectangle follows at the next `UpdateRect`. */
    method SetPosTo(cx: int, cy: int)
      modifies this`x, this`y
      ensures x == cx && y == cy
    {
      x, y := cx, cy;
    }

    /**
      Picks the top-left corner, each coordinate an arbitrary value of its
      inclusive pick range, so that the whole box lies in the ranges. The
      random choice is nondeterministic here; an empty pick range is what
      the random generator refuses.
     */
    method SetRandomPos(xRange: Option<(int, int)>, yRange: Option<(int, int)>, displayWidth: nat, displayHeight: nat)
      requires PickRange(RangeOrDefault(xRange, displayWidth), width).0 <= PickRange(RangeOrDefault(xRange, displayWidth), width).1
      requires PickRange(RangeOrDefault(yRange, displayHeight), height).0 <= PickRange(RangeOrDefault(yRange, displayHeight), height).1
      modifies this`x, this`y, this`rect
      ensures PickRange(RangeOrDefault(xRange, displayWidth), width).0 <= x <= PickRange(RangeOrDefault(xRange, displayWidth), width).1
      ensures PickRange(RangeOrDefault(yRange, displayHeight), height).0 <= y <= PickRange(RangeOrDefault(yRange, displayHeight), height).1
      ensures rect == Rect(x, y, width, height)
      ensures RangeOrDefault(xRange, displayWidth).0 <= rect.x && rect.Right() <= RangeOrDefault(xRange, displayWidth).1
      ensures RangeOrDefault(yRange, displayHeight).0 <= rect.y && rect.Bottom() <= RangeOrDefault(yRange, displayHeight).1
    {
      var xs := PickRange(RangeOrDefault(xRange, displayWidth), width);
      var ys := PickRange(RangeOrDefault(yRange, displayHeight), height);
      var px :| xs.0 <= px <= xs.1;
      x := px;
      var py :| ys.0 <= py <= ys.1;
      y := py;
      UpdateRect();
    }

    method UpdateRect()
      modifies this`rect
      ensures rect == Rect(x, y, width, height)
    {
      rect := Rect(x, y, width, height);
    }
  }
}
