/** Optional values, used for lookups and parses that may fail. */
module Wrappers {
  datatype Option<T> = None | Some(value: T)
}

/**
  Axis-aligned integer rectangles, standing in for the graphics library's `Rect`:
  a top-left corner (x, y), a width and a height, with `right = x + w` and
  `bottom = y + h`.
 */
module Geometry {

  datatype Rect = Rect(x: int, y: int, w: int, h: int) {
    function Right(): int { x + w }
    function Bottom(): int { y + h }

    /** The same corner with width and height exchanged. */
    function Swapped(): (r: Rect)
      ensures r.x == x && r.y == y && r.w == h && r.h == w
    {
      Rect(x, y, h, w)
    }

    /** The same size, moved by the vector (dx, dy). */
    function Translated(dx: int, dy: int): (r: Rect)
      ensures r.x - x == dx && r.y - y == dy && r.w == w && r.h == h
    {
      Rect(x + dx, y + dy, w, h)
    }
  }

  /**
    The rectangle-overlap test: both axis projections overlap as open
    intervals, so rectangles that only touch along an edge do not collide.
   */
  predicate Overlaps(a: Rect, b: Rect) {
    a.x < b.Right() && b.x < a.Right() && a.y < b.Bottom() && b.y < a.Bottom()
  }

  /** Two rectangles that share a stretch of an edge of positive length. */
  predicate Touching(a: Rect, b: Rect) {
    var xOverlap := a.x < b.Right() && b.x < a.Right();
    var yOverlap := a.y < b.Bottom() && b.y < a.Bottom();
    ((a.Bottom() == b.y || b.Bottom() == a.y) && xOverlap)
    || ((a.Right() == b.x || b.Right() == a.x) && yOverlap)
  }

  lemma OverlapsSymmetric(a: Rect, b: Rect)
    ensures Overlaps(a, b) <==> Overlaps(b, a)
  {
  }

  /** Moving by a vector and then by its negation restores a rectangle. */
  lemma TranslateBack(r: Rect, dx: int, dy: int)
    ensures r.Translated(dx, dy).Translated(-dx, -dy) == r
  {
  }

  /** Whether some rectangle of `rs`, scanned front to back, overlaps `r`. */
  function AnyOverlaps(rs: seq<Rect>, r: Rect): (b: bool)
    ensures b <==> exists i :: 0 <= i < |rs| && Overlaps(rs[i], r)
    ensures rs == [] ==> !b
  {
    if rs == [] then false
    else if Overlaps(rs[0], r) then true
    else
      var rest := AnyOverlaps(rs[1..], r);
      assert forall i :: 1 <= i < |rs| ==> rs[i] == rs[1..][i - 1];
      rest
  }
}
