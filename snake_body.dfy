/**
  The chain of segments trailing the head (`sprites/snake/snake_body.py`).
  Growth is deferred: `Extend` raises the target count and each `Render` adds
  at most one piece. `Move` is the follow-the-leader shift: processed from the
  tail, every piece takes the position and direction its predecessor had, and
  the first piece is placed behind the head.
 */
module SnakeBodies {
  import opened Geometry
  import opened SnakePieces
  import opened SnakeHeads

  const DefaultPieceWidth := 16
  const DefaultPieceHeight := 32
  const DefaultExtendBy := 3
  /** What `Extend` adds to the target count; the stored `extendBy` is never read. */
  const Growth := 3

  /** The piece count after one growth step towards `target`. */
  function GrowthStep(len: nat, target: int): (r: nat)
    ensures len <= r <= len + 1
    ensures r == len + 1 <==> len < target
  {
    if len < target then len + 1 else len
  }

  /** The piece count after `ticks` growth steps. */
  function CountAfter(len: nat, target: int, ticks: nat): nat
    decreases ticks
  {
    if ticks == 0 then len else CountAfter(GrowthStep(len, target), target, ticks - 1)
  }

  /**
    Starting at or below the target, the count climbs by one per step until it
    reaches the target and then stays there.
   */
  lemma {:induction false} CountAfterTicks(len: nat, target: int, ticks: nat)
    requires len <= target
    ensures CountAfter(len, target, ticks) == if len + ticks <= target then len + ticks else target
    decreases ticks
  {
    if ticks > 0 {
      CountAfterTicks(GrowthStep(len, target), target, ticks - 1);
    }
  }

  /** Above the target, growth steps change nothing. */
  lemma {:induction false} CountAfterAboveTarget(len: nat, target: int, ticks: nat)
    requires len >= target
    ensures CountAfter(len, target, ticks) == len
    decreases ticks
  {
    if ticks > 0 {
      CountAfterAboveTarget(GrowthStep(len, target), target, ticks - 1);
    }
  }

  class SnakeBody {
    const head: SnakeHead
    const pieceWidth: int
    const pieceHeight: int
    const extendBy: int
    var pieces: seq<SnakePiece>
    /** The target count, raised by `Extend`. */
    var noPieces: int
    var moving: bool

    /** A piece of this body: valid, oriented by its direction, and of the body's piece size. */
    ghost predicate PieceOk(p: SnakePiece)
      reads this, p
    {
      p.Valid() && p.Aligned() && p.baseW == pieceWidth && p.baseH == pieceHeight
    }

    /** The pieces are distinct objects, none of them the head's, each in good shape. */
    ghost predicate Valid()
      reads this, pieces
    {
      && head.piece !in pieces
      && (forall i, j :: 0 <= i < j < |pieces| ==> pieces[i] != pieces[j])
      && (forall i :: 0 <= i < |pieces| ==> PieceOk(pieces[i]))
    }

    /** No more pieces than the target count. */
    predicate WithinTarget()
      reads this
    {
      |pieces| <= noPieces
    }

    /** The rectangles of the pieces, front to back. */
    function Rects(): (rs: seq<Rect>)
      reads this, pieces
      ensures |rs| == |pieces|
      ensures forall i :: 0 <= i < |pieces| ==> rs[i] == pieces[i].rect
    {
      seq(|pieces|, i reads this, pieces requires 0 <= i < |pieces| => pieces[i].rect)
    }

    constructor (head: SnakeHead, pieceWidth: int, pieceHeight: int, extendBy: int)
      ensures Valid() && WithinTarget()
      ensures this.head == head && this.pieceWidth == pieceWidth
      ensures this.pieceHeight == pieceHeight && this.extendBy == extendBy
      ensures pieces == [] && noPieces == 0 && !moving
    {
      this.head := head;
      this.pieceWidth := pieceWidth;
      this.pieceHeight := pieceHeight;
      this.extendBy := extendBy;
      pieces := [];
      noPieces := 0;
      moving := false;
    }

    method Start()
      modifies this`moving
      ensures moving
    {
      moving := true;
    }

    method Stop()
      modifies this`moving
      ensures !moving
    {
      moving := false;
    }

    /** Back to the state of a new body (the moving flag is left alone). */
    method Reset()
      modifies this`pieces, this`noPieces
      ensures Valid() && WithinTarget()
      ensures pieces == [] && noPieces == 0
    {
      pieces := [];
      noPieces := 0;
    }

    /** Whether some piece overlaps `other`; an empty body never does. */
    function CollidingWith(other: Rect): (c: bool)
      reads this, pieces
      ensures c <==> exists i :: 0 <= i < |pieces| && Overlaps(pieces[i].rect, other)
      ensures pieces == [] ==> !c
    {
      AnyOverlaps(Rects(), other)
    }

    /** The piece a new piece goes behind: the tail, or the head when there is none. */
    function Tail(): SnakePiece
      reads this
    {
      if pieces == [] then head.piece else pieces[|pieces| - 1]
    }

    /**
      Appends one new piece, with the previous tail's direction (the head's if
      the body is empty), placed flush behind that previous tail.
     */
    method AddPiece() returns (newPiece: SnakePiece)
      requires Valid()
      modifies this`pieces
      ensures Valid() && fresh(newPiece)
      ensures pieces == old(pieces) + [newPiece]
      ensures var prev := old(Tail());
              && newPiece.direction == prev.direction
              && (newPiece.rect.x, newPiece.rect.y)
                 == Behind(prev.direction, prev.rect, newPiece.rect.w, newPiece.rect.h)
    {
      var previous := if pieces != [] then pieces[|pieces| - 1] else head.piece;
      newPiece := new SnakePiece(0, 0, pieceWidth, pieceHeight, previous.direction);
      var (px, py) := Behind(previous.direction, previous.rect, newPiece.rect.w, newPiece.rect.h);
      newPiece.rect := newPiece.rect.(x := px, y := py);
      pieces := pieces + [newPiece];
    }

    /** Raises the target count by three; the pieces themselves are untouched. */
    method Extend()
      modifies this`noPieces
      ensures noPieces == old(noPieces) + Growth
      ensures old(WithinTarget()) ==> WithinTarget()
    {
      noPieces := noPieces + 3;
    }

    function Length(): (n: nat)
      reads this
      ensures n == |pieces|
      ensures WithinTarget() ==> n <= noPieces
    {
      |pieces|
    }

    /** One step of the shift: piece k takes the direction and position of piece k - 1. */
    method ShiftInto(k: nat)
      requires Valid() && 1 <= k < |pieces|
      modifies pieces[k]
      ensures Valid()
      ensures pieces[k].direction == old(pieces[k - 1].direction)
      ensures pieces[k].rect == old(pieces[k - 1].rect)
    {
      var piece := pieces[k];
      var next := pieces[k - 1];
      piece.AssignDirection(next.direction);
      piece.rect := piece.rect.(x := next.rect.x);
      piece.rect := piece.rect.(y := next.rect.y);
    }

    /** The last step of the shift: the first piece turns like the head and goes behind it. */
    method PlaceFirst()
      requires Valid() && pieces != []
      modifies pieces[0]
      ensures Valid()
      ensures pieces[0].direction == head.piece.direction
      ensures (pieces[0].rect.x, pieces[0].rect.y)
              == Behind(head.piece.direction, head.piece.rect, pieces[0].rect.w, pieces[0].rect.h)
    {
      var first := pieces[0];
      first.AssignDirection(head.piece.direction);
      var (px, py) := Behind(head.piece.direction, head.piece.rect, first.rect.w, first.rect.h);
      first.rect := first.rect.(x := px);
      first.rect := first.rect.(y := py);
    }

    /**
      The follow-the-leader shift. When the body has pieces and is moving,
      every piece but the first takes the direction and rectangle its
      predecessor had, and the first takes the head's direction and sits
      behind the head; otherwise nothing changes.
     */
    method Move()
      requires Valid()
      modifies pieces
      ensures Valid()
      ensures !(pieces != [] && moving) ==>
                forall i :: 0 <= i < |pieces| ==>
                  pieces[i].direction == old(pieces[i].direction) && pieces[i].rect == old(pieces[i].rect)
      ensures pieces != [] && moving ==>
                forall i :: 1 <= i < |pieces| ==>
                  pieces[i].direction == old(pieces[i - 1].direction) && pieces[i].rect == old(pieces[i - 1].rect)
      ensures pieces != [] && moving ==>
                && pieces[0].direction == head.piece.direction
                && (pieces[0].rect.x, pieces[0].rect.y)
                   == Behind(head.piece.direction, head.piece.rect, pieces[0].rect.w, pieces[0].rect.h)
    {
      if !(pieces != [] && moving) {
        return;
      }
      var n := |pieces|;
      var idx := 0;
      while idx < n - 1
        invariant 0 <= idx <= n - 1
        invariant Valid()
        invariant forall k :: n - 1 - idx < k < n ==>
                    pieces[k].direction == old(pieces[k - 1].direction) && pieces[k].rect == old(pieces[k - 1].rect)
        invariant forall k :: 0 <= k <= n - 1 - idx ==>
                    pieces[k].direction == old(pieces[k].direction) && pieces[k].rect == old(pieces[k].rect)
      {
        ShiftInto(n - 1 - idx);
        idx := idx + 1;
      }
      PlaceFirst();
    }

    /**
      One frame without the drawing: the growth step (at most one new piece,
      and only below the target count) followed by `Move`.
     */
    method Render()
      requires Valid()
      modifies this`pieces, pieces
      ensures Valid()
      ensures |pieces| == GrowthStep(old(|pieces|), noPieces)
      ensures pieces[..old(|pieces|)] == old(pieces)
      ensures |pieces| > old(|pieces|) ==> fresh(pieces[|pieces| - 1])
      ensures old(WithinTarget()) ==> WithinTarget()
      ensures !moving ==> forall i :: 0 <= i < old(|pieces|) ==>
                pieces[i].direction == old(pieces[i].direction) && pieces[i].rect == old(pieces[i].rect)
      ensures !moving && |pieces| > old(|pieces|) ==>
                var prev := old(Tail());
                var p := pieces[|pieces| - 1];
                && p.direction == prev.direction
                && (p.rect.x, p.rect.y) == Behind(prev.direction, prev.rect, p.rect.w, p.rect.h)
      ensures pieces != [] && moving ==>
                && pieces[0].direction == head.piece.direction
                && (pieces[0].rect.x, pieces[0].rect.y)
                   == Behind(head.piece.direction, head.piece.rect, pieces[0].rect.w, pieces[0].rect.h)
    {
      if |pieces| < noPieces {
        var _ := AddPiece();
      }
      Move();
    }
  }
}
