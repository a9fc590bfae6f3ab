/**
  The game-over state machine (`game/gameover.py`): a collision query with a
  fixed priority, a latching game-over flag with its reason, and a reset that
  only acts once the game is over. The stored callbacks are code outside the
  model: a method reports whether it would call its callback.
 */
module GameOvers {
  import opened Wrappers
  import opened Geometry
  import opened Boundaries

  const SelfCollisionReason := "SNAKE BUMPED INTO ITSELF"
  const BoundaryReason := "SNAKE MOVED OUT OF THE BOUNDARY"

  /**
    Whether the snake touches one of the lines that end the game: the four
    edges and the stats separator, not the two separators inside the stats
    bar. `snakeHits` is the snake's own collision test.
   */
  predicate HitsBoundary(b: BoundaryRects, snakeHits: Rect -> bool) {
    snakeHits(b.topLine) || snakeHits(b.bottomLine) || snakeHits(b.leftLine)
    || snakeHits(b.rightLine) || snakeHits(b.statsSeparator)
  }

  /**
    The collision query: the body against the head's rectangle first, then
    the snake against the boundary lines. The flag is set exactly when a
    reason is given.
   */
  function CheckGameOver(bodyRects: seq<Rect>, headRect: Rect, b: BoundaryRects, snakeHits: Rect -> bool)
    : (r: (bool, string))
    ensures r.0 <==> r.1 != ""
    ensures r.1 == SelfCollisionReason <==> AnyOverlaps(bodyRects, headRect)
    ensures r.1 == BoundaryReason <==> !AnyOverlaps(bodyRects, headRect) && HitsBoundary(b, snakeHits)
    ensures r.1 in {"", SelfCollisionReason, BoundaryReason}
  {
    if AnyOverlaps(bodyRects, headRect) then (true, SelfCollisionReason)
    else if HitsBoundary(b, snakeHits) then (true, BoundaryReason)
    else (false, "")
  }

  /** The score and highscore separators play no part in the query. */
  lemma SeparatorsIgnored(bodyRects: seq<Rect>, headRect: Rect, b: BoundaryRects, snakeHits: Rect -> bool,
                          score: Rect, highscore: Rect)
    ensures CheckGameOver(bodyRects, headRect, b, snakeHits)
            == CheckGameOver(bodyRects, headRect, b.(scoreSeparator := score, highscoreSeparator := highscore), snakeHits)
  {
  }

  /**
    A head on any body piece ends the game as a self-collision, whatever the
    boundary test says.
   */
  lemma SelfCollisionTakesPriority(bodyRects: seq<Rect>, headRect: Rect, b: BoundaryRects, snakeHits: Rect -> bool, i: int)
    requires 0 <= i < |bodyRects| && Overlaps(bodyRects[i], headRect)
    ensures CheckGameOver(bodyRects, headRect, b, snakeHits) == (true, SelfCollisionReason)
  {
  }

  class GameOver {
    var gameOver: bool
    /** The reason text; `None` until the first check assigns it. */
    var reason: Option<string>
    const hasGameoverCallback: bool
    const hasRestartCallback: bool

    constructor (hasGameoverCallback: bool, hasRestartCallback: bool)
      ensures !gameOver && reason == None
      ensures this.hasGameoverCallback == hasGameoverCallback
      ensures this.hasRestartCallback == hasRestartCallback
    {
      this.hasGameoverCallback := hasGameoverCallback;
      this.hasRestartCallback := hasRestartCallback;
      gameOver := false;
      reason := None;
      new;
      var restarted := Reset();
      assert !restarted;
    }

    /**
      Leaves a running game alone; ends a finished one: the flag is cleared,
      the reason emptied, and the restart callback called once.
     */
    method Reset() returns (restartFired: bool)
      modifies this`gameOver, this`reason
      ensures !old(gameOver) ==> gameOver == old(gameOver) && reason == old(reason) && !restartFired
      ensures old(gameOver) ==> !gameOver && reason == Some("") && restartFired == hasRestartCallback
    {
      if !gameOver {
        return false;
      }
      gameOver := false;
      reason := Some("");
      restartFired := hasRestartCallback;
    }

    /**
      While the game runs, re-evaluates the collision query and records its
      verdict; the game-over callback fires exactly on the change to over.
      Once over, the flag and the reason stay as they are.
     */
    method HandleGameOver(bodyRects: seq<Rect>, headRect: Rect, b: BoundaryRects, snakeHits: Rect -> bool)
      returns (gameoverFired: bool)
      modifies this`gameOver, this`reason
      ensures old(gameOver) ==> gameOver && reason == old(reason) && !gameoverFired
      ensures !old(gameOver) ==>
                && gameOver == CheckGameOver(bodyRects, headRect, b, snakeHits).0
                && reason == Some(CheckGameOver(bodyRects, headRect, b, snakeHits).1)
                && gameoverFired == (gameOver && hasGameoverCallback)
    {
      gameoverFired := false;
      if !gameOver {
        var (over, why) := CheckGameOver(bodyRects, headRect, b, snakeHits);
        gameOver, reason := over, Some(why);
        if gameOver && hasGameoverCallback {
          gameoverFired := true;
        }
      }
    }
  }
}
