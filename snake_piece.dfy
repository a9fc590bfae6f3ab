/**
  One segment of the snake (`sprites/snake/snake_piece.py`): a rectangle with a
  facing direction. Turning between horizontal and vertical travel exchanges
  the rectangle's width and height once, tracked by a "swapped" flag.
 */
module SnakePieces {
  import opened Wrappers
  import opened Geometry

  datatype Direction = Up | Down | Left | Right
  datatype Orientation = Horizontal | Vertical

  /** The one-letter code the game uses for each direction. */
  function Code(d: Direction): string {
    match d
    case Right => "r"
    case Left => "l"
    case Up => "u"
    case Down => "d"
  }

  /** The direction setter's validation: only "r", "l", "u" and "d" are accepted. */
  function ParseDirection(s: string): (d: Option<Direction>)
    ensures d.Some? <==> s in {"r", "l", "u", "d"}
    ensures d.Some? ==> Code(d.value) == s
  {
    if s == "r" then Some(Right)
    else if s == "l" then Some(Left)
    else if s == "u" then Some(Up)
    else if s == "d" then Some(Down)
    else None
  }

  /** Every direction's code is accepted and read back as that direction. */
  lemma ParseCode(d: Direction)
    ensures ParseDirection(Code(d)) == Some(d)
  {
  }

  /**
    The orientation setter's validation: the short and long names are
    accepted, and the long names are normalised to the short ones.
   */
  function ParseOrient(s: string): (o: Option<Orientation>)
    ensures o == Some(Vertical) <==> s in {"v", "vertical"}
    ensures o == Some(Horizontal) <==> s in {"h", "horizontal"}
    ensures o.None? <==> s !in {"v", "vertical", "h", "horizontal"}
  {
    if s == "v" || s == "vertical" then Some(Vertical)
    else if s == "h" || s == "horizontal" then Some(Horizontal)
    else None
  }

  /** The orientation a direction implies: left and right travel is horizontal. */
  function OrientOf(d: Direction): (o: Orientation)
    ensures o == Horizontal <==> d in {Left, Right}
    ensures o == Vertical <==> d in {Up, Down}
  {
    match d
    case Right | Left => Horizontal
    case Up | Down => Vertical
  }

  /**
    The top-left corner at which a follower of size fw x fh sits flush
    against the trailing edge of a segment at `r` travelling in direction `d`.
   */
  function Behind(d: Direction, r: Rect, fw: int, fh: int): (p: (int, int))
    ensures d == Down ==> p.0 == r.x && p.1 + fh == r.y
    ensures d == Up ==> p.0 == r.x && p.1 == r.Bottom()
    ensures d == Left ==> p.0 == r.Right() && p.1 == r.y
    ensures d == Right ==> p.0 + fw == r.x && p.1 == r.y
  {
    match d
    case Down => (r.x, r.y - fh)
    case Left => (r.Right(), r.y)
    case Right => (r.x - fw, r.y)
    case Up => (r.x, r.Bottom())
  }

  /**
    A follower placed behind a segment, both of positive size, shares a
    stretch of the segment's trailing edge and does not overlap it.
   */
  lemma BehindIsFlush(d: Direction, r: Rect, fw: int, fh: int)
    requires r.w > 0 && r.h > 0 && fw > 0 && fh > 0
    ensures var p := Behind(d, r, fw, fh);
            var f := Rect(p.0, p.1, fw, fh);
            !Overlaps(f, r) && Touching(f, r)
  {
  }

  class SnakePiece {
    var rect: Rect
    var direction: Direction
    var orient: Orientation
    /** True when the rectangle is in the (width, height) layout it was built with. */
    var swapped: bool
    /** The width and height the piece was constructed with. */
    ghost const baseW: int
    ghost const baseH: int

    /**
      The orientation invariant: the rectangle is (baseW, baseH) when
      horizontal and (baseH, baseW) when vertical, and the flag says which.
     */
    ghost predicate Valid()
      reads this
    {
      && swapped == (orient == Horizontal)
      && (orient == Horizontal ==> rect.w == baseW && rect.h == baseH)
      && (orient == Vertical ==> rect.w == baseH && rect.h == baseW)
    }

    /** The orientation agrees with the direction of travel. */
    ghost predicate Aligned()
      reads this
    {
      orient == OrientOf(direction)
    }

    constructor (x: int, y: int, width: int, height: int, initialDirection: Direction)
      ensures Valid() && Aligned()
      ensures direction == initialDirection
      ensures rect.x == x && rect.y == y
      ensures baseW == width && baseH == height
    {
      orient := Vertical;
      swapped := true;
      rect := Rect(x, y, width, height);
      direction := initialDirection;
      baseW, baseH := width, height;
      new;
      AssignDirection(initialDirection);
    }

    /**
      The orientation setter once its argument is validated: the rectangle's
      width and height are exchanged exactly when the flag flips, so setting
      the orientation it already has changes nothing.
     */
    method Reorient(o: Orientation)
      modifies this
      ensures orient == o && swapped == (o == Horizontal)
      ensures rect == if swapped == old(swapped) then old(rect) else old(rect).Swapped()
      ensures direction == old(direction)
      ensures old(Valid()) ==> Valid()
      ensures old(Valid()) && o == old(orient) ==> rect == old(rect) && swapped == old(swapped)
    {
      orient := o;
      if orient == Vertical {
        if swapped {
          rect := rect.(w := rect.h, h := rect.w);
          swapped := false;
        }
      } else if !swapped {
        rect := rect.(w := rect.h, h := rect.w);
        swapped := true;
      }
    }

    /** The orientation setter: an unknown name is rejected and changes nothing. */
    method SetOrient(val: string) returns (ok: bool)
      modifies this
      ensures ok == ParseOrient(val).Some?
      ensures !ok ==> rect == old(rect) && orient == old(orient) && swapped == old(swapped)
      ensures ok ==> orient == ParseOrient(val).value && swapped == (orient == Horizontal)
      ensures ok ==> rect == if swapped == old(swapped) then old(rect) else old(rect).Swapped()
      ensures direction == old(direction)
      ensures old(Valid()) ==> Valid()
    {
      var o := ParseOrient(val);
      ok := o.Some?;
      if ok {
        Reorient(o.value);
      }
    }

    /** The direction setter once its argument is validated. */
    method AssignDirection(d: Direction)
      modifies this
      ensures direction == d && Aligned()
      ensures swapped == (orient == Horizontal)
      ensures rect == if swapped == old(swapped) then old(rect) else old(rect).Swapped()
      ensures old(Valid()) ==> Valid()
    {
      direction := d;
      Reorient(OrientOf(d));
    }

    /** The direction setter: a value other than "r", "l", "u", "d" is rejected and changes nothing. */
    method SetDirection(val: string) returns (ok: bool)
      modifies this
      ensures ok <==> val in {"r", "l", "u", "d"}
      ensures !ok ==> rect == old(rect) && direction == old(direction)
                      && orient == old(orient) && swapped == old(swapped)
      ensures ok ==> Code(direction) == val && Aligned()
      ensures ok ==> rect == if swapped == old(swapped) then old(rect) else old(rect).Swapped()
      ensures old(Valid()) ==> Valid()
    {
      var d := ParseDirection(val);
      ok := d.Some?;
      if ok {
        AssignDirection(d.value);
      }
    }
  }

  /** In a valid piece the size is fixed by the orientation and the construction size. */
  lemma SizeFromOrient(p: SnakePiece)
    requires p.Valid()
    ensures p.rect.w * p.rect.h == p.baseW * p.baseH
    ensures p.orient == Horizontal ==> (p.rect.w, p.rect.h) == (p.baseW, p.baseH)
    ensures p.orient == Vertical ==> (p.rect.w, p.rect.h) == (p.baseH, p.baseW)
  {
  }
}
