/**
  The older coordinate-list snake (`sprites/snake/snake.py`): a list of
  coordinates of which `Move` displaces only the first, by a fixed speed of 5
  along a direction held as an unvalidated string.
 */
module LegacySnakes {
  import opened Wrappers
  import SnakePieces
  import SnakeHeads

  const LegacyVelocity := 5

  /** The `direction_map` of `move`: displacement per direction code. */
  function DirectionMap(v: int): (m: map<string, (int, int)>)
    ensures m.Keys == {"u", "d", "l", "r"}
    ensures forall k :: k in m ==> (m[k].0 == 0) != (m[k].1 == 0) || v == 0
  {
    map["u" := (0, -v), "d" := (0, v), "l" := (-v, 0), "r" := (v, 0)]
  }

  /** The legacy table agrees with the head's velocity table for every direction. */
  lemma DirectionMapMatchesVelocity(d: SnakePieces.Direction, v: int)
    ensures SnakePieces.Code(d) in DirectionMap(v)
    ensures DirectionMap(v)[SnakePieces.Code(d)] == SnakeHeads.Velocity(d, v)
  {
  }

  class Snake {
    const x: int
    const y: int
    const width: int
    const height: int
    var coordinates: seq<(int, int)>
    var velocity: int
    /** Any string may be stored here; only `Move` finds out whether it is a direction. */
    var direction: string

    constructor (x: int, y: int, width: int, height: int, initialDirection: string)
      ensures coordinates == [(x, y)] && velocity == LegacyVelocity
      ensures direction == initialDirection
      ensures this.x == x && this.y == y && this.width == width && this.height == height
    {
      this.x, this.y := x, y;
      this.width, this.height := width, height;
      coordinates := [(x, y)];
      velocity := 5;
      direction := initialDirection;
    }

    /**
      Displaces the first coordinate by the direction's vector. An unknown
      direction (a failed map lookup) or an empty list (a failed index) makes
      the step fail with nothing changed.
     */
    method Move() returns (ok: bool)
      modifies this`coordinates
      ensures ok <==> old(coordinates) != [] && direction in {"u", "d", "l", "r"}
      ensures !ok ==> coordinates == old(coordinates)
      ensures ok ==> |coordinates| == |old(coordinates)|
                     && coordinates[1..] == old(coordinates)[1..]
                     && coordinates[0].0 == old(coordinates)[0].0 + DirectionMap(velocity)[direction].0
                     && coordinates[0].1 == old(coordinates)[0].1 + DirectionMap(velocity)[direction].1
    {
      var directionMap := DirectionMap(velocity);
      if coordinates == [] || direction !in directionMap {
        return false;
      }
      var (dx, dy) := directionMap[direction];
      coordinates := coordinates[0 := (coordinates[0].0 + dx, coordinates[0].1)];
      coordinates := coordinates[0 := (coordinates[0].0, coordinates[0].1 + dy)];
      ok := true;
    }
  }
}
