/**
  The player-controlled head of the snake (`sprites/snake/snake_head.py`):
  a segment with a speed, four direction commands, and a step that moves it
  by the velocity vector of its direction. The source's head is a subclass of
  the segment; here it holds its segment as `piece`.
 */
module SnakeHeads {
  import opened Geometry
  import opened SnakePieces

  const DefaultHeadWidth := 32
  const DefaultHeadHeight := 32

  /** The velocity table: the step a head moving in `d` at `speed` pixels per tick takes. */
  function Velocity(d: Direction, speed: int): (v: (int, int))
    ensures OrientOf(d) == Horizontal ==> v.1 == 0
    ensures OrientOf(d) == Vertical ==> v.0 == 0
    ensures v.0 + v.1 == if d in {Down, Right} then speed else -speed
  {
    match d
    case Up => (0, -speed)
    case Down => (0, speed)
    case Left => (-speed, 0)
    case Right => (speed, 0)
  }

  /** With a nonzero speed exactly one component of the velocity is nonzero. */
  lemma VelocityOnOneAxis(d: Direction, speed: int)
    requires speed != 0
    ensures (Velocity(d, speed).0 != 0) != (Velocity(d, speed).1 != 0)
  {
  }

  function Opposite(d: Direction): (o: Direction)
    ensures o != d && OrientOf(o) == OrientOf(d)
  {
    match d
    case Up => Down
    case Down => Up
    case Left => Right
    case Right => Left
  }

  /** Opposite directions have negated velocity vectors. */
  lemma VelocityOpposite(d: Direction, speed: int)
    ensures Velocity(Opposite(d), speed) == (-Velocity(d, speed).0, -Velocity(d, speed).1)
  {
  }

  /** A step one way followed by a step the opposite way returns a rectangle to where it was. */
  lemma StepThereAndBack(r: Rect, d: Direction, speed: int)
    ensures var v := Velocity(d, speed);
            var w := Velocity(Opposite(d), speed);
            r.Translated(v.0, v.1).Translated(w.0, w.1) == r
  {
    VelocityOpposite(d, speed);
    TranslateBack(r, Velocity(d, speed).0, Velocity(d, speed).1);
  }

  /**
    Where Python stores an attribute written `name` inside the body of class
    `cls`: a private name (two leading underscores, not ending in two) is
    stored as `_cls__name`.
   */
  function StoredName(cls: string, name: string): string {
    if |name| > 2 && name[0] == '_' && name[1] == '_' && !(name[|name| - 2] == '_' && name[|name| - 1] == '_')
    then "_" + cls + name
    else name
  }

  /**
    The attribute names reachable on a head: the instance attributes the two
    constructors assign, and the properties and methods of both classes.
   */
  function HeadAttributes(): set<string> {
    {"display", "outline_width", "color", "outline_color", "rect",
     StoredName("SnakePiece", "__orient"), StoredName("SnakePiece", "__swapped_dimensions"),
     StoredName("SnakePiece", "__direction"),
     "eye_color", "eye_width", "eye_height", "eye_front_distance", "eye_side_distance", "velocity",
     "direction", "orient", "colliding_with", "behind", "render",
     "up", "down", "left", "right", "_get_eye_coordinates", "_get_velocity", "draw_eye", "move"}
  }

  /** How the three private fields of the segment class are stored. */
  lemma MangledSegmentFields()
    ensures StoredName("SnakePiece", "__direction") == "_SnakePiece__direction"
    ensures StoredName("SnakePiece", "__orient") == "_SnakePiece__orient"
    ensures StoredName("SnakePiece", "__swapped_dimensions") == "_SnakePiece__swapped_dimensions"
  {
    var d, o, s := "__direction", "__orient", "__swapped_dimensions";
    assert |d| == 11 && d[0] == '_' && d[1] == '_' && d[10] == 'n';
    assert |o| == 8 && o[0] == '_' && o[1] == '_' && o[7] == 't';
    assert |s| == 20 && s[0] == '_' && s[1] == '_' && s[19] == 's';
  }

  /** The segment stores its direction under the mangled name, so a head has no `_direction`. */
  lemma NoPlainDirectionAttribute()
    ensures "_direction" !in HeadAttributes()
  {
    MangledSegmentFields();
  }

  class SnakeHead {
    const piece: SnakePiece
    /** Pixels travelled per step. */
    const velocity: int

    ghost predicate Valid()
      reads this, piece
    {
      piece.Valid() && piece.Aligned()
    }

    constructor (x: int, y: int, velocity: int, width: int, height: int, initialDirection: Direction)
      ensures Valid() && fresh(piece)
      ensures this.velocity == velocity
      ensures piece.direction == initialDirection
      ensures piece.rect.x == x && piece.rect.y == y
      ensures piece.baseW == width && piece.baseH == height
    {
      this.velocity := velocity;
      piece := new SnakePiece(x, y, width, height, initialDirection);
    }

    method Up()
      requires Valid()
      modifies piece
      ensures Valid() && piece.direction == Direction.Up
      ensures piece.rect.x == old(piece.rect.x) && piece.rect.y == old(piece.rect.y)
      ensures piece.rect == Rect(old(piece.rect.x), old(piece.rect.y), piece.baseH, piece.baseW)
      ensures piece.baseW == piece.baseH ==> piece.rect == old(piece.rect)
    {
      var ok := piece.SetDirection("u");
    }

    method Down()
      requires Valid()
      modifies piece
      ensures Valid() && piece.direction == Direction.Down
      ensures piece.rect.x == old(piece.rect.x) && piece.rect.y == old(piece.rect.y)
      ensures piece.rect == Rect(old(piece.rect.x), old(piece.rect.y), piece.baseH, piece.baseW)
      ensures piece.baseW == piece.baseH ==> piece.rect == old(piece.rect)
    {
      var ok := piece.SetDirection("d");
    }

    method Left()
      requires Valid()
      modifies piece
      ensures Valid() && piece.direction == Direction.Left
      ensures piece.rect.x == old(piece.rect.x) && piece.rect.y == old(piece.rect.y)
      ensures piece.rect == Rect(old(piece.rect.x), old(piece.rect.y), piece.baseW, piece.baseH)
      ensures piece.baseW == piece.baseH ==> piece.rect == old(piece.rect)
    {
      var ok := piece.SetDirection("l");
    }

    method Right()
      requires Valid()
      modifies piece
      ensures Valid() && piece.direction == Direction.Right
      ensures piece.rect.x == old(piece.rect.x) && piece.rect.y == old(piece.rect.y)
      ensures piece.rect == Rect(old(piece.rect.x), old(piece.rect.y), piece.baseW, piece.baseH)
      ensures piece.baseW == piece.baseH ==> piece.rect == old(piece.rect)
    {
      var ok := piece.SetDirection("r");
    }

    /** One step: the rectangle moves by the velocity of the current direction, nothing else changes. */
    method Move()
      requires Valid()
      modifies piece
      ensures Valid()
      ensures piece.rect == old(piece.rect).Translated(Velocity(piece.direction, velocity).0,
                                                       Velocity(piece.direction, velocity).1)
      ensures piece.direction == old(piece.direction)
      ensures piece.orient == old(piece.orient) && piece.swapped == old(piece.swapped)
    {
      var (dx, dy) := Velocity(piece.direction, velocity);
      piece.rect := piece.rect.(x := piece.rect.x + dx);
      piece.rect := piece.rect.(y := piece.rect.y + dy);
    }

    /**
      The step as the source writes it: it looks up the direction under the
      attribute name `_direction`, which no head has, so the lookup fails
      (an AttributeError) before anything moves: `ok` is whether the lookup
      succeeds.
     */
    method MoveAsWritten() returns (ok: bool)
      ensures !ok
    {
      NoPlainDirectionAttribute();
      ok := "_direction" in HeadAttributes();
    }
  }
}
