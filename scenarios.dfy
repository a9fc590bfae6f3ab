/**
  Clients that use only the contracts of the model, for the game's
  end-to-end situations.
 */
module Scenarios {
  import opened Wrappers
  import opened Geometry
  import opened SnakePieces
  import opened SnakeHeads
  import opened SnakeBodies
  import opened Scores
  import opened GameOvers
  import opened Boundaries
  import opened Fruits

  /** A head at (100, 100) moving right at 16 pixels per step is at (116, 100) after one step. */
  method HeadStep() {
    var head := new SnakeHead(100, 100, 16, DefaultHeadWidth, DefaultHeadHeight, Direction.Right);
    head.Move();
    assert head.piece.rect.x == 116 && head.piece.rect.y == 100;
  }

  /** After one extension, three frames grow a standing body to one, two and three pieces, each behind its predecessor. */
  method GrowthOverThreeFrames() {
    var head := new SnakeHead(100, 100, 16, DefaultHeadWidth, DefaultHeadHeight, Direction.Right);
    var body := new SnakeBody(head, DefaultPieceWidth, DefaultPieceHeight, DefaultExtendBy);
    body.Extend();
    body.Render();
    assert |body.pieces| == 1;
    assert body.pieces[0].direction == Direction.Right;
    assert body.pieces[0].rect.x + body.pieces[0].rect.w == 100;
    body.Render();
    assert |body.pieces| == 2;
    body.Render();
    assert |body.pieces| == 3;
    body.Render();
    assert |body.pieces| == 3;
  }

  /** A head overlapping the only body piece is a self-collision. */
  lemma HeadOnOnlyPiece(boundary: Boundaries.BoundaryRects, snakeHits: Rect -> bool)
    ensures CheckGameOver([Rect(0, 0, 16, 32)], Rect(8, 8, 32, 32), boundary, snakeHits) == (true, SelfCollisionReason)
  {
    SelfCollisionTakesPriority([Rect(0, 0, 16, 32)], Rect(8, 8, 32, 32), boundary, snakeHits, 0);
  }

  /** A head on a body piece ends the game as a self-collision; a restart returns to play. */
  method SelfCollisionThenRestart(boundary: Boundaries.BoundaryRects, snakeHits: Rect -> bool) {
    var g := new GameOver(true, true);
    var bodyRects := [Rect(0, 0, 16, 32)];
    var headRect := Rect(8, 8, 32, 32);
    HeadOnOnlyPiece(boundary, snakeHits);
    var fired := g.HandleGameOver(bodyRects, headRect, boundary, snakeHits);
    assert g.gameOver && g.reason == Some(SelfCollisionReason) && fired;
    fired := g.HandleGameOver([], headRect, boundary, snakeHits);
    assert g.reason == Some(SelfCollisionReason) && !fired;
    var restarted := g.Reset();
    assert !g.gameOver && restarted;
    restarted := g.Reset();
    assert !restarted;
  }

  /** With score and highscore at 4, eating raises both to 5 at once; below the record, eating notifies no one. */
  method RecordOnIncrement() {
    var s := new Score();
    var n := s.SetScore(4);
    assert s.score == 4 && s.highscore == 4;
    n := s.IncrementScore();
    assert s.score == 5 && s.highscore == 5;
    n := s.ResetScore();
    assert s.score == 0 && s.highscore == 5 && n == None;
    s.hasHighscoreCallback := true;
    n := s.IncrementScore();
    assert s.score == 1 && s.highscore == 5 && n == None;
  }

  /** A 640 x 480 display with the default boundary: the vertical stats separators sit at 160 and 480. */
  method DefaultBoundary(topLineHeight: int) {
    var b := new Boundary(640, 480, DefaultThickness, DefaultStatsSepYOffset, topLineHeight);
    assert b.highscoreSeparator.x == 160 && b.scoreSeparator.x == 480;
    assert b.statsSeparator == Rect(0, 415, 640, 8);
    assert b.rightLine.x == 632 && b.bottomLine.y == 472;
  }

  /** A default-size fruit placed at random on a 640 x 480 display lies wholly on it. */
  method DefaultFruitOnDisplay() {
    var f := new Fruit(0, 0, DefaultFruitSize, DefaultFruitSize);
    f.SetRandomPos(None, None, 640, 480);
    assert 0 <= f.rect.x && f.rect.Right() <= 640;
    assert 0 <= f.rect.y && f.rect.Bottom() <= 480;
  }
}
