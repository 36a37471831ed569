/** `MainWindow.ease` (app.py lines 312-327): a piecewise-quadratic curve that
    rises from 0 to 3 between t = 10 and t = 30, stays at 3 until t = 40 and
    falls back to 0 at t = 60 (`EASE_MAX`). */
module Ease {

  const EaseMax: real := 60.0
  const MaxVal: real := 3.0

  /** The coefficient max_val / 2 / 10**2 that every quadratic piece uses. */
  const K: real := MaxVal / 2.0 / 100.0

  function Sq(x: real): real {
    x * x
  }

  /** The curve, branch for branch as the source writes it. */
  function Ease(t: real): real {
    if t < 10.0 then 0.0
    else if t < 20.0 then (MaxVal / 2.0 / Sq(20.0 - 10.0)) * Sq(t - 10.0)
    else if t < 30.0 then -(MaxVal / 2.0 / Sq(20.0 - 30.0)) * Sq(t - 30.0) + MaxVal
    else if t < 40.0 then MaxVal
    else if t < 50.0 then -(MaxVal / 2.0 / Sq(50.0 - 40.0)) * Sq(t - 40.0) + MaxVal
    else (MaxVal / 2.0 / Sq(50.0 - EaseMax)) * Sq(t - EaseMax)
  }

  function Abs(x: real): real {
    if x < 0.0 then -x else x
  }

  /** The value at each breakpoint 10, 20, 30, 40, 50, 60. */
  lemma EaseBreakpoints()
    ensures Ease(10.0) == 0.0 && Ease(20.0) == 1.5 && Ease(30.0) == 3.0
    ensures Ease(40.0) == 3.0 && Ease(50.0) == 1.5 && Ease(60.0) == 0.0
  {}

  /** Flat before 10 and at the top on [30, 40). */
  lemma EaseFlat(t: real)
    ensures t < 10.0 ==> Ease(t) == 0.0
    ensures 30.0 <= t < 40.0 ==> Ease(t) == 3.0
  {}

  /** Up to `EASE_MAX` the curve stays within [0, 3]. */
  lemma EaseBounds(t: real)
    requires t <= EaseMax
    ensures 0.0 <= Ease(t) <= MaxVal
  {
    if 10.0 <= t < 20.0 {
      SquareBetween(t - 10.0, 10.0);
    } else if 20.0 <= t < 30.0 {
      SquareBetween(t - 30.0, 10.0);
    } else if 40.0 <= t < 50.0 {
      SquareBetween(t - 40.0, 10.0);
    } else if 50.0 <= t {
      SquareBetween(t - 60.0, 10.0);
    }
  }

  /** |x| <= w gives 0 <= x^2 <= w^2. */
  lemma SquareBetween(x: real, w: real)
    requires -w <= x <= w
    ensures 0.0 <= Sq(x) <= w * w
  {
    if x >= 0.0 {
      assert x * x <= w * x;
      assert w * x <= w * w;
    } else {
      assert x * x <= -w * x;
      assert -w * x <= w * w;
    }
  }

  /** The slope bound of one quadratic piece k (t - c)^2 on [c - 10, c + 10]:
      the change is at most 0.3 per unit of t. */
  lemma PieceSlope(s: real, t: real, c: real)
    requires s <= t && c - 10.0 <= s && t <= c + 10.0
    ensures Abs(K * Sq(t - c) - K * Sq(s - c)) <= 0.3 * (t - s)
  {
    var d, e := t - s, t + s - 2.0 * c;
    assert Sq(t - c) - Sq(s - c) == d * e;
    assert -20.0 <= e <= 20.0;
    assert d * e <= 20.0 * d;
    assert -(d * e) <= 20.0 * d;
  }

  /** The curve is Lipschitz with constant 0.3 up to `EASE_MAX`, and so
      continuous there, in particular at every breakpoint. */
  lemma {:induction false} EaseLipschitz(s: real, t: real)
    requires s <= t <= EaseMax
    ensures Abs(Ease(t) - Ease(s)) <= 0.3 * (t - s)
    decreases Piece(t) - Piece(s)
  {
    if Piece(s) == Piece(t) {
      SamePiece(s, t);
    } else {
      var b := NextBreak(s);
      SamePiece(s, b);
      EaseLipschitz(b, t);
    }
  }

  /** Which of the six pieces t falls into, counting from 0. */
  function Piece(t: real): (n: nat)
    ensures n <= 5
  {
    if t < 10.0 then 0
    else if t < 20.0 then 1
    else if t < 30.0 then 2
    else if t < 40.0 then 3
    else if t < 50.0 then 4
    else 5
  }

  /** The breakpoint that ends the piece of s. */
  function NextBreak(s: real): (b: real)
    requires Piece(s) < 5
    ensures s < b && Piece(b) == Piece(s) + 1
    ensures b == 10.0 * (Piece(s) + 1) as real
  {
    10.0 * (Piece(s) + 1) as real
  }

  /** Within one piece, and from a point of a piece to the breakpoint that
      closes it, the change is bounded by 0.3 per unit. */
  lemma SamePiece(s: real, t: real)
    requires s <= t <= EaseMax
    requires Piece(s) == Piece(t) || (Piece(s) < 5 && t == NextBreak(s))
    ensures Abs(Ease(t) - Ease(s)) <= 0.3 * (t - s)
  {
    var p := Piece(s);
    if p == 1 {
      PieceSlope(s, t, 10.0);
    } else if p == 2 {
      PieceSlope(s, t, 30.0);
      assert Ease(t) - Ease(s) == -(K * Sq(t - 30.0) - K * Sq(s - 30.0));
    } else if p == 4 {
      PieceSlope(s, t, 40.0);
      assert Ease(t) - Ease(s) == -(K * Sq(t - 40.0) - K * Sq(s - 40.0));
    } else if p == 5 {
      PieceSlope(s, t, 60.0);
    }
  }

}
