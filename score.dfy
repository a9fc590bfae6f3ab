/**
  Score keeping (`game/score.py`): every assignment of the score updates the
  highscore to a running maximum, and a callback is told of each strict new
  record.
 */
module Scores {
  import opened Wrappers

  function Max(a: int, b: int): (m: int)
    ensures m >= a && m >= b && (m == a || m == b)
  {
    if a >= b then a else b
  }

  /** The highscore after the score is assigned each of `vals` in turn, starting from highscore `h`. */
  function HighscoreAfter(h: int, vals: seq<int>): int
    decreases |vals|
  {
    if vals == [] then h else HighscoreAfter(Max(h, vals[0]), vals[1..])
  }

  /**
    The highscore is the running maximum: after any sequence of assignments
    it is at least the starting highscore and every value assigned, and it is
    one of them.
   */
  lemma {:induction false} RunningMaximum(h: int, vals: seq<int>)
    ensures HighscoreAfter(h, vals) >= h
    ensures forall i :: 0 <= i < |vals| ==> HighscoreAfter(h, vals) >= vals[i]
    ensures HighscoreAfter(h, vals) == h || exists i :: 0 <= i < |vals| && HighscoreAfter(h, vals) == vals[i]
    decreases |vals|
  {
    if vals != [] {
      var rest := vals[1..];
      RunningMaximum(Max(h, vals[0]), rest);
      assert forall i :: 1 <= i < |vals| ==> vals[i] == rest[i - 1];
    }
  }

  class Score {
    var score: int
    var highscore: int
    /** Whether an `on_new_highscore` callback is installed. */
    var hasHighscoreCallback: bool

    /** The highscore is never negative and never below the score. */
    ghost predicate Valid()
      reads this
    {
      0 <= highscore && score <= highscore
    }

    constructor ()
      ensures Valid()
      ensures score == 0 && highscore == 0 && !hasHighscoreCallback
    {
      score := 0;
      highscore := 0;
      hasHighscoreCallback := false;
    }

    /**
      Raises the highscore to the score when the score is higher. The result
      is the value handed to the callback, present only on a strict new
      record with a callback installed.
     */
    method UpdateHighscore() returns (notified: Option<int>)
      modifies this`highscore
      ensures highscore == Max(old(highscore), score)
      ensures notified == if score > old(highscore) && hasHighscoreCallback then Some(highscore) else None
    {
      notified := None;
      if score > highscore {
        highscore := score;
        if hasHighscoreCallback {
          notified := Some(highscore);
        }
      }
    }

    /** The score setter: stores the value, then updates the highscore. */
    method SetScore(val: int) returns (notified: Option<int>)
      modifies this`score, this`highscore
      ensures score == val && highscore == Max(old(highscore), val)
      ensures highscore >= score && highscore >= old(highscore)
      ensures old(Valid()) ==> Valid()
      ensures notified == if val > old(highscore) && hasHighscoreCallback then Some(val) else None
    {
      score := val;
      notified := UpdateHighscore();
    }

    method IncrementScore() returns (notified: Option<int>)
      modifies this`score, this`highscore
      ensures score == old(score) + 1 && highscore == Max(old(highscore), score)
      ensures old(Valid()) ==> Valid()
      ensures notified == if score > old(highscore) && hasHighscoreCallback then Some(score) else None
      ensures old(score) == old(highscore) ==>
                highscore == score && notified == if hasHighscoreCallback then Some(score) else None
    {
      notified := SetScore(score + 1);
    }

    /** Sets the score to 0; a valid highscore is kept and no callback fires. */
    method ResetScore() returns (notified: Option<int>)
      modifies this`score, this`highscore
      ensures score == 0 && highscore == Max(old(highscore), 0)
      ensures old(Valid()) ==> Valid() && highscore == old(highscore) && notified == None
    {
      notified := SetScore(0);
    }
  }
}
