# Snake game: a verified model of the snake and its game state

This project models the moving parts of a small pygame snake game.

- **Segments.** The snake is a head followed by a chain of rectangular segments ("pieces"). Each piece has a direction: `r`, `l`, `u` or `d`. Turning between horizontal and vertical travel exchanges the piece's width and height.
- **Body.** The body grows lazily. `extend` raises a target count by three, and each frame adds at most one piece, flush behind the current tail. Each frame the body also shifts follow-the-leader style: processed from the tail, every piece takes its predecessor's old position and direction, and the first piece goes behind the head.
- **Head.** The head steps by the velocity vector of its direction.
- **Legacy snake.** An older coordinate-list snake moves only its first coordinate.
- **Game state.**
  - The game-over state machine ranks self-collision above hitting the boundary, latches the game-over flag, and has a reset that only acts on a finished game.
  - The score keeps a running-maximum highscore.
  - The boundary places seven rectangles from the display size.
  - The fruit is placed at random so that its whole box lies in a range.

In the model:

- A graphics `Rect` is the datatype `Geometry.Rect` over unbounded integers, with `right = x + w` and `bottom = y + h`.
- Rectangle collision is strict overlap of both axis projections, `Geometry.Overlaps`.
- Objects whose fields the game mutates in place are Dafny classes: pieces, head, body, legacy snake, score, game over, boundary and fruit.
- Pure queries are functions, with lemmas beside them.

Files:

| file | contents |
|---|---|
| `geometry.dfy` | `Option`, `Rect`, overlap and edge contact |
| `snake_piece.dfy` | directions, orientations, the swap invariant, `Behind` |
| `snake_head.dfy` | the velocity table and the head's commands and step |
| `snake_body.dfy` | growth, piece appending and the follow-the-leader shift |
| `snake.dfy` | the legacy coordinate-list snake |
| `gameover.dfy` | the collision query and the game-over state machine |
| `score.dfy` | score and highscore |
| `boundary.dfy` | the boundary layout |
| `fruit.dfy` | fruit placement |
| `scenarios.dfy` | client methods that use only the contracts, for a few concrete situations |

The model follows the code in three places where a reader might expect otherwise:

- The head has no reversal guard. `Up`, `Down`, `Left` and `Right` always set the direction.
- The head has no start or stop of its own.
- `extend` ignores its stored `extend_by` and always adds three.

## Model

| member | source | states |
|---|---|---|
| Geometry.OverlapsSymmetric | sprites/snake/snake_piece.py:42-44 | The collision test between two rectangles does not depend on their order. |
| Geometry.TranslateBack | sprites/snake/snake_head.py:90-93 | Moving a rectangle by a vector and then by its negation restores it. |
| Geometry.AnyOverlaps | sprites/snake/snake_body.py:68-70 | The scan over a list of rectangles is true exactly when some rectangle overlaps the given one; an empty list never collides. |
| SnakePieces.ParseDirection | sprites/snake/snake_piece.py:59-61 | A direction value is accepted exactly when it is one of "r", "l", "u", "d", and the accepted direction has that code. |
| SnakePieces.ParseCode | sprites/snake/snake_piece.py:59-61 | Every direction's code is accepted and parsed back to that direction. |
| SnakePieces.ParseOrient | sprites/snake/snake_piece.py:101-103 | "v"/"vertical" give vertical, "h"/"horizontal" give horizontal, and every other value is rejected. |
| SnakePieces.OrientOf | sprites/snake/snake_piece.py:62 | Left and right travel is horizontal; up and down travel is vertical. |
| SnakePieces.Behind | sprites/snake/snake_piece.py:75-83 | Per direction, the follower's corner keeps the other coordinate. Down: its bottom is the piece's top. Up: its top is the piece's bottom. Left: its left is the piece's right. Right: its right is the piece's left. |
| SnakePieces.BehindIsFlush | sprites/snake/snake_piece.py:75-83 | For positive sizes, a follower placed behind a piece shares a stretch of its edge and does not overlap it. |
| SnakePieces.SnakePiece.constructor | sprites/snake/snake_piece.py:37-40 | A new piece satisfies the swap invariant, its orientation matches its direction, and it has the given corner. |
| SnakePieces.SnakePiece.Reorient | sprites/snake/snake_piece.py:105-112 | Width and height are exchanged exactly when the swapped flag flips. Re-setting the current orientation changes nothing. The swap invariant is preserved. |
| SnakePieces.SnakePiece.SetOrient | sprites/snake/snake_piece.py:101-112 | An unknown orientation name is rejected with nothing changed. An accepted one reorients, with the invariant preserved. |
| SnakePieces.SnakePiece.AssignDirection | sprites/snake/snake_piece.py:61-62 | The direction is stored and the orientation follows it: horizontal for r/l, vertical for u/d. |
| SnakePieces.SnakePiece.SetDirection | sprites/snake/snake_piece.py:59-62 | Succeeds exactly for "r", "l", "u", "d". A rejected value leaves the piece unchanged. An accepted one stores the direction with the matching orientation. |
| SnakePieces.SizeFromOrient | sprites/snake/snake_piece.py:105-112 | In a valid piece the size is (width, height) when horizontal and (height, width) when vertical, so the area never changes. |
| SnakeHeads.Velocity | sprites/snake/snake_head.py:69-82 | Horizontal directions have no vertical component and vice versa. Down and right are +speed; up and left are -speed. |
| SnakeHeads.VelocityOnOneAxis | sprites/snake/snake_head.py:69-82 | With a nonzero speed, exactly one component of the velocity is nonzero. |
| SnakeHeads.VelocityOpposite | sprites/snake/snake_head.py:69-82 | Opposite directions have negated velocity vectors. |
| SnakeHeads.StepThereAndBack | sprites/snake/snake_head.py:90-93 | A step one way followed by a step the opposite way restores the rectangle. |
| SnakeHeads.MangledSegmentFields | sprites/snake/snake_piece.py:37-38 | The segment's private fields are stored under the names `_SnakePiece__direction`, `_SnakePiece__orient` and `_SnakePiece__swapped_dimensions`. |
| SnakeHeads.NoPlainDirectionAttribute | sprites/snake/snake_head.py:91 | No attribute of a head is named `_direction`. |
| SnakeHeads.SnakeHead.constructor | sprites/snake/snake_head.py:29-41 | A new head is a valid, aligned piece with the given corner, size, direction and speed. |
| SnakeHeads.SnakeHead.Up | sprites/snake/snake_head.py:43 | The direction becomes up, unconditionally. The corner stays and the size becomes (height, width) of the construction size, so a square head keeps its rectangle. |
| SnakeHeads.SnakeHead.Down | sprites/snake/snake_head.py:44 | The direction becomes down, unconditionally. The corner stays and the size becomes (height, width) of the construction size, so a square head keeps its rectangle. |
| SnakeHeads.SnakeHead.Left | sprites/snake/snake_head.py:45 | The direction becomes left, unconditionally. The corner stays and the size becomes (width, height) of the construction size, so a square head keeps its rectangle. |
| SnakeHeads.SnakeHead.Right | sprites/snake/snake_head.py:46 | The direction becomes right, unconditionally. The corner stays and the size becomes (width, height) of the construction size, so a square head keeps its rectangle. |
| SnakeHeads.SnakeHead.Move | sprites/snake/snake_head.py:90-93 | The rectangle moves by the velocity of the current direction. Direction, orientation and size stay. |
| SnakeHeads.SnakeHead.MoveAsWritten | sprites/snake/snake_head.py:91 | The direction lookup under `_direction` fails on every head. |
| SnakeBodies.GrowthStep | sprites/snake/snake_body.py:113-114 | One frame adds a piece exactly when the count is below the target, and never more than one. |
| SnakeBodies.CountAfterTicks | sprites/snake/snake_body.py:111-114 | From at or below the target, n frames give min(count + n, target) pieces. |
| SnakeBodies.CountAfterAboveTarget | sprites/snake/snake_body.py:113-114 | At or above the target, frames add nothing. |
| SnakeBodies.SnakeBody.constructor | sprites/snake/snake_body.py:34-48 | A new body has no pieces, target 0 and is not moving. |
| SnakeBodies.SnakeBody.Start | sprites/snake/snake_body.py:50-52 | Sets the moving flag and nothing else. |
| SnakeBodies.SnakeBody.Stop | sprites/snake/snake_body.py:54-56 | Clears the moving flag and nothing else. |
| SnakeBodies.SnakeBody.Reset | sprites/snake/snake_body.py:58-61 | Returns to no pieces and target 0. |
| SnakeBodies.SnakeBody.CollidingWith | sprites/snake/snake_body.py:68-70 | True exactly when some piece overlaps the rectangle; an empty body never collides. |
| SnakeBodies.SnakeBody.AddPiece | sprites/snake/snake_body.py:72-86 | Appends exactly one fresh piece, keeping the earlier ones. It has the previous tail's direction (the head's for an empty body) and sits behind that tail. |
| SnakeBodies.SnakeBody.Extend | sprites/snake/snake_body.py:88-90 | The target grows by exactly three. The pieces are untouched and the count stays within the target. |
| SnakeBodies.SnakeBody.Length | sprites/snake/snake_body.py:92-94 | The number of pieces, at most the target. |
| SnakeBodies.SnakeBody.ShiftInto | sprites/snake/snake_body.py:102-105 | Piece k takes piece k-1's direction and rectangle. |
| SnakeBodies.SnakeBody.PlaceFirst | sprites/snake/snake_body.py:106-109 | The first piece takes the head's direction and sits behind the head at its own reoriented size. |
| SnakeBodies.SnakeBody.Move | sprites/snake/snake_body.py:98-109 | Empty or not moving: nothing changes. Otherwise every piece after the first has its predecessor's old direction and rectangle, and the first is behind the head. |
| SnakeBodies.SnakeBody.Render | sprites/snake/snake_body.py:111-114 | The count follows one growth step, keeping the earlier pieces and the within-target invariant. A body at rest keeps its pieces and adds the new one behind the old tail. A moving body puts its first piece behind the head. |
| LegacySnakes.DirectionMap | sprites/snake/snake.py:78-83 | The map has exactly the keys "u", "d", "l", "r", each displacing along one axis. |
| LegacySnakes.DirectionMapMatchesVelocity | sprites/snake/snake.py:78-83 | The legacy table gives the same vector as the head's velocity table for every direction. |
| LegacySnakes.Snake.constructor | sprites/snake/snake.py:35-39 | A new snake holds the single coordinate (x, y), velocity 5 and the given direction. |
| LegacySnakes.Snake.Move | sprites/snake/snake.py:77-85 | Succeeds exactly for a non-empty list and a known direction, and then displaces only the first coordinate. Otherwise nothing changes. |
| Scores.RunningMaximum | game/score.py:56-58 | After any sequence of assignments, the highscore is at least the starting highscore and every value assigned, and equals one of them. |
| Scores.Score.constructor | game/score.py:41-45 | Score and highscore start at 0, with no callback. |
| Scores.Score.UpdateHighscore | game/score.py:56-60 | The highscore becomes max(highscore, score). The callback gets the new highscore only on a strict increase. |
| Scores.Score.SetScore | game/score.py:51-54 | The score is stored and the highscore becomes the maximum. The highscore never decreases and stays at least the score. The callback fires only on a strict record. |
| Scores.Score.IncrementScore | game/score.py:56-64 | Adds exactly 1 and raises the highscore to the maximum. The callback gets the new score exactly when it beats the old highscore; when score equals highscore, both rise together. |
| Scores.Score.ResetScore | game/score.py:66-68 | The score becomes 0. A valid highscore is kept and no callback fires. |
| Boundaries.Layout | game/boundary.py:31-48 | Edge lines: the top line starts at the origin and spans the width. The left line is (0, 0, thickness, H). The right line ends at W. The bottom line spans the width and ends at H. Separators: the stats separator is (0, H - offset, W, thickness). The highscore separator is at W div 4, and the two vertical separators' x positions sum to W. Both vertical separators end at H. |
| Boundaries.Boundary.constructor | game/boundary.py:11-29 | The seven rectangles are the layout for the display size. |
| Boundaries.Boundary.UpdateRects | game/boundary.py:31-48 | The seven rectangles become the layout for the current display size. |
| GameOvers.CheckGameOver | game/gameover.py:55-70 | The flag is set exactly when a reason is given. The self-collision reason is given exactly when the head overlaps a body piece. The boundary reason is given exactly when there is no self-collision and the snake hits an edge or the stats separator. Otherwise the result is (false, ""). |
| GameOvers.SeparatorsIgnored | game/gameover.py:64-68 | The score and highscore separators do not affect the verdict. |
| GameOvers.SelfCollisionTakesPriority | game/gameover.py:62-63 | A head on any body piece gives the self-collision verdict, whatever the boundary. |
| GameOvers.GameOver.constructor | game/gameover.py:42-44 | A new game is not over and has no reason yet. The constructor's reset fires no restart. |
| GameOvers.GameOver.Reset | game/gameover.py:46-53 | A running game is left alone. A finished one is cleared with reason "" and the restart callback fires. |
| GameOvers.GameOver.HandleGameOver | game/gameover.py:72-77 | While the game runs, flag and reason become the query's verdict, and the callback fires exactly on the change to over. Once over, flag and reason stay. |
| Scenarios.HeadOnOnlyPiece | game/gameover.py:62-63 | A head overlapping the only body piece is judged a self-collision. |
| Fruits.RangeOrDefault | sprites/fruit/fruit.py:42-43 | An omitted range defaults to (0, display extent). |
| Fruits.PickRange | sprites/fruit/fruit.py:44-46 | The pick range keeps the low end and lowers the high end by the fruit size. |
| Fruits.PickKeepsBoxInside | sprites/fruit/fruit.py:44-49 | Every coordinate in the pick range keeps the whole box inside the original range. |
| Fruits.Fruit.constructor | sprites/fruit/fruit.py:21-32 | A new fruit's rect is (x, y, width, height). |
| Fruits.Fruit.SetPosTo | sprites/fruit/fruit.py:34-36 | Sets x and y only; the rect is left until the next update. |
| Fruits.Fruit.SetRandomPos | sprites/fruit/fruit.py:38-50 | x and y lie in their inclusive pick ranges, the rect matches them, and the whole box lies inside the ranges. |
| Fruits.Fruit.UpdateRect | sprites/fruit/fruit.py:52-54 | The rect becomes (x, y, width, height). |

## Left out

- Drawing is not modelled. This covers every `render`, pygame drawing and blitting, fonts, image loading and `render_gameover_text`. It is output to the graphics library; `Render` of the body keeps only its growth step and `Move`.
- Eye placement is not modelled, in both the head and the legacy snake. It is drawing with fractional sizes.
- The score's icon and text layout is not modelled. It depends on the graphics library's rectangle centring.
- `game/utils.py`, `game/game.py` and `snake_game.py` are not part of this model. They hold event handling, the main loop, the clock and text layout.
- The random pick of `set_random_pos` is a nondeterministic choice. The random generator's error on an empty range is a precondition of `Fruits.Fruit.SetRandomPos`.
- The top line's height is `thickness + 1.5`, a fraction whose conversion to an integer belongs to the graphics library. It is the parameter `topLineHeight`.
- `GameOvers.CheckGameOver` does not model how the composite snake tests collision with a rectangle. That snake is not part of this model, so its test is the parameter `snakeHits`, and the head and body rectangles are given directly.
- Rectangle collision does not model the graphics library's special case for rectangles of zero or negative size.
- The callbacks are code outside the model. Each method returns whether it would call its callback, and with which value.
- The graphics objects (display, colours, outline widths, fonts) are not modelled.
- `SnakePieces.SnakePiece.constructor` takes an already valid direction. A raw direction string is validated by `SetDirection`, and its error path is modelled there.
- `SnakeBodies.SnakeBody.Render`: for a moving body it states only the placement of the first piece. The shift of the other pieces is the contract of `SnakeBodies.SnakeBody.Move`.
- Inheritance of the head from the segment class is modelled by composition: a head holds its segment as `piece`.
- `Boundaries.Layout` uses unbounded integers, so it does not model the floating-point rounding of `int(W / 4)` for very large widths.
- The fruit's width and height never change after construction. This is not stated separately, because they are `const` fields.

## Findings

| source | as written | input that shows it | evidently intended | confidence | as-written member | corrected member |
|---|---|---|---|---|---|---|
| sprites/snake/snake_head.py:91 | `move` reads the direction as `self._direction`, but the segment class stores it under the private name `__direction`, kept as `_SnakePiece__direction`, so the lookup raises AttributeError. `draw_eye` (line 85) has the same lookup. | any head, e.g. one built at (100, 100) heading right, on its first `move` | read the `direction` property and step by its velocity | not executed | SnakeHeads.SnakeHead.MoveAsWritten | SnakeHeads.SnakeHead.Move |
