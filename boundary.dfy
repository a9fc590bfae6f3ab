/**
  The playing-field frame (`game/boundary.py`): four edge lines, the
  separator above the stats bar, and two vertical separators inside the bar,
  all placed from the display size.
 */
module Boundaries {
  import opened Geometry

  const DefaultThickness := 8
  const DefaultStatsSepYOffset := 65

  datatype BoundaryRects = BoundaryRects(
    topLine: Rect, leftLine: Rect, rightLine: Rect, bottomLine: Rect,
    statsSeparator: Rect, scoreSeparator: Rect, highscoreSeparator: Rect)

  /**
    The layout for a display of `width` x `height`. The top line's height is
    the graphics library's conversion of a fractional value, so it is taken
    as the parameter `topHeight`.
   */
  function Layout(width: nat, height: nat, thickness: int, topHeight: int, offset: int): (b: BoundaryRects)
    ensures b.topLine == Rect(0, 0, width, topHeight)
    ensures b.leftLine == Rect(0, 0, thickness, height)
    ensures b.rightLine.Right() == width && b.rightLine.w == thickness
            && b.rightLine.y == 0 && b.rightLine.h == height
    ensures b.bottomLine.Bottom() == height && b.bottomLine.h == thickness
            && b.bottomLine.x == 0 && b.bottomLine.w == width
    ensures b.statsSeparator == Rect(0, height - offset, width, thickness)
    ensures b.highscoreSeparator.x == width / 4
    ensures b.highscoreSeparator.x + b.scoreSeparator.x == width
    ensures 0 <= b.highscoreSeparator.x <= b.scoreSeparator.x <= width
    ensures forall r :: r in [b.scoreSeparator, b.highscoreSeparator] ==>
              r.y == height - offset && r.Bottom() == height && r.w == thickness
  {
    var highscoreSeparatorX := width / 4;
    var scoreSeparatorX := width - highscoreSeparatorX;
    var statsSepY := height - offset;
    BoundaryRects(
      Rect(0, 0, width, topHeight),
      Rect(0, 0, thickness, height),
      Rect(width - thickness, 0, thickness, height),
      Rect(0, height - thickness, width, thickness),
      Rect(0, statsSepY, width, thickness),
      Rect(scoreSeparatorX, statsSepY, thickness, offset),
      Rect(highscoreSeparatorX, statsSepY, thickness, offset))
  }

  class Boundary {
    const thickness: int
    const statsSepYOffset: int
    const topLineHeight: int
    var topLine: Rect
    var leftLine: Rect
    var rightLine: Rect
    var bottomLine: Rect
    var statsSeparator: Rect
    var scoreSeparator: Rect
    var highscoreSeparator: Rect

    function Rects(): BoundaryRects
      reads this
    {
      BoundaryRects(topLine, leftLine, rightLine, bottomLine,
                    statsSeparator, scoreSeparator, highscoreSeparator)
    }

    constructor (displayWidth: nat, displayHeight: nat, thickness: int, statsSepYOffset: int, topLineHeight: int)
      ensures this.thickness == thickness && this.statsSepYOffset == statsSepYOffset
      ensures this.topLineHeight == topLineHeight
      ensures Rects() == Layout(displayWidth, displayHeight, thickness, topLineHeight, statsSepYOffset)
    {
      this.thickness := thickness;
      this.statsSepYOffset := statsSepYOffset;
      this.topLineHeight := topLineHeight;
      new;
      UpdateRects(displayWidth, displayHeight);
    }

    /** Re-places all seven rectangles for the current display size. */
    method UpdateRects(displayWidth: nat, displayHeight: nat)
      modifies this
      ensures Rects() == Layout(displayWidth, displayHeight, thickness, topLineHeight, statsSepYOffset)
    {
      var b := Layout(displayWidth, displayHeight, thickness, topLineHeight, statsSepYOffset);
      topLine, leftLine, rightLine, bottomLine := b.topLine, b.leftLine, b.rightLine, b.bottomLine;
      statsSeparator, scoreSeparator, highscoreSeparator := b.statsSeparator, b.scoreSeparator, b.highscoreSeparator;
    }
  }
}
