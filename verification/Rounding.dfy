/** Python's `round`: to nearest, ties to even. */
module Rounding {
  import opened Planar

  function RoundHalfEven(x: real): (r: int)
    ensures -0.5 <= x - r as real <= 0.5
    ensures x - r as real == 0.5 || x - r as real == -0.5 ==> r % 2 == 0
  {
    var f := x.Floor;
    var part := x - f as real;
    if part < 0.5 || (part == 0.5 && f % 2 == 0) then f else f + 1
  }

  /** `round(x, 1)`. */
  function RoundTenth(x: real): (r: real)
    ensures -0.05 <= x - r <= 0.05
  {
    RoundHalfEven(x * 10.0) as real / 10.0
  }

  /** `round(x, 2)`. */
  function RoundHundredth(x: real): (r: real)
    ensures -0.005 <= x - r <= 0.005
  {
    RoundHalfEven(x * 100.0) as real / 100.0
  }

  /** Both coordinates rounded to 0.1 m. */
  function RoundPoint(p: Point): Point {
    Point(RoundTenth(p.n), RoundTenth(p.e))
  }

  /** Rounding to 0.1 m moves a point by less than 0.071 m. */
  lemma RoundPointMoves(h: Length, p: Point)
    requires IsHypot(h)
    ensures Dist(h, RoundPoint(p), p) < 0.071
  {
    var q := RoundPoint(p);
    DistSquared(h, q, p);
    SmallSquare(q.n - p.n, 0.05);
    SmallSquare(q.e - p.e, 0.05);
    assert Sq(0.05) == 0.0025 && Sq(0.071) == 0.005041;
    SquareOrder(0.071, Dist(h, q, p));
  }

  lemma RoundMonotone(x: real, y: real)
    requires x <= y
    ensures RoundHalfEven(x) <= RoundHalfEven(y)
  {
  }

  lemma RoundOfInteger(k: int)
    ensures RoundHalfEven(k as real) == k
  {
  }
}
