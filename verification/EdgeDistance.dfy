/** The fleet API's distance from a point to a polygon's outline (`fleet_api/geofence.py`). */
module EdgeDistance {
  import opened Planar

  /** Squared length of the edge. */
  function Len2(x: Edge): real {
    Norm2(x.b.n - x.a.n, x.b.e - x.a.e)
  }

  /** How far `p` lies along the edge's direction, times the edge's length. */
  function Dot(p: Point, x: Edge): real {
    Inner(p.n - x.a.n, p.e - x.a.e, x.b.n - x.a.n, x.b.e - x.a.e)
  }

  function Parabola(a: real, b: real, t: real): real {
    t * t * a - 2.0 * t * b
  }

  /** Where along the edge the point is projected: clamped to the edge, 0 on an edge of no length. */
  function ProjectionFraction(p: Point, x: Edge): real {
    if Len2(x) == 0.0 then 0.0 else Max(0.0, Min(1.0, Dot(p, x) / Len2(x)))
  }

  function Max(x: real, y: real): real {
    if x >= y then x else y
  }

  function Min(x: real, y: real): real {
    if x <= y then x else y
  }

  /** No point of the edge is closer to `p` than `d`. */
  ghost predicate NotCloser(p: Point, x: Edge, d: real) {
    forall s: real :: 0.0 <= s <= 1.0 ==> Sq(d) <= Dist2(p, Along(x.a, x.b, s))
  }

  /** Some point of the edge is at distance `d` from `p`. */
  ghost predicate Touches(p: Point, x: Edge, d: real) {
    exists s: real :: 0.0 <= s <= 1.0 && Sq(d) == Dist2(p, Along(x.a, x.b, s))
  }

  /** Nothing on the edge is closer to `p` than its projection. */
  lemma ProjectionIsNearest(h: Length, p: Point, x: Edge)
    requires IsHypot(h)
    ensures (var d := Dist(h, p, Along(x.a, x.b, ProjectionFraction(p, x)));
             d >= 0.0 && NotCloser(p, x, d) && Touches(p, x, d))
  {
    var t := ProjectionFraction(p, x);
    var q := Along(x.a, x.b, t);
    var d := Dist(h, p, q);
    DistSquared(h, p, q);
    assert 0.0 <= t <= 1.0;
    forall s: real | 0.0 <= s <= 1.0
      ensures Sq(d) <= Dist2(p, Along(x.a, x.b, s))
    {
      ProjectionNotFarther(p, x, s);
    }
  }

  lemma ProjectionNotFarther(p: Point, x: Edge, s: real)
    requires 0.0 <= s <= 1.0
    ensures Dist2(p, Along(x.a, x.b, ProjectionFraction(p, x))) <= Dist2(p, Along(x.a, x.b, s))
  {
    if x.a.n == x.b.n && x.a.e == x.b.e {
      NoLength(x, s);
      NoLength(x, ProjectionFraction(p, x));
    } else {
      Dist2AlongEdge(p, x, s);
      Dist2AlongEdge(p, x, ProjectionFraction(p, x));
      ClampMinimizes(Len2(x), Dot(p, x), s, ProjectionFraction(p, x));
    }
  }

  lemma NoLength(x: Edge, t: real)
    requires x.a.n == x.b.n && x.a.e == x.b.e
    ensures Along(x.a, x.b, t) == x.a
  {
  }

  /** A parabola opening upwards is lowest, within [0, 1], at its vertex clamped to [0, 1]. */
  lemma ClampMinimizes(len2: real, dot: real, s: real, t: real)
    requires len2 > 0.0
    requires 0.0 <= s <= 1.0 && t == Max(0.0, Min(1.0, dot / len2))
    ensures Parabola(len2, dot, t) <= Parabola(len2, dot, s)
  {
    var free := dot / len2;
    assert free * len2 == dot;
    ClampTowards(s, t, free);
    var lift := (s - t) * (s - t) + 2.0 * ((s - t) * (t - free));
    NonNegativeProduct(len2, lift);
    assert lift == (s * s - 2.0 * (s * free)) - (t * t - 2.0 * (t * free));
    assert 2.0 * s * dot == 2.0 * (s * free) * len2;
    assert 2.0 * t * dot == 2.0 * (t * free) * len2;
  }

  lemma Dist2AlongEdge(p: Point, x: Edge, t: real)
    ensures Dist2(p, Along(x.a, x.b, t)) == Dist2(p, x.a) + Parabola(Len2(x), Dot(p, x), t)
  {
    var q := Along(x.a, x.b, t);
    SquaredAlong(p.n - x.a.n, p.e - x.a.e, x.b.n - x.a.n, x.b.e - x.a.e, t, p.n - q.n, p.e - q.e);
  }

  lemma SquaredAlong(pn: real, pe: real, dn: real, de: real, t: real, qn: real, qe: real)
    requires qn == pn - dn * t && qe == pe - de * t
    ensures Norm2(qn, qe) == Norm2(pn, pe) + Parabola(Norm2(dn, de), Inner(pn, pe, dn, de), t)
  {
    SquareOfDifference(pn, dn, t);
    SquareOfDifference(pe, de, t);
    assert t * t * (dn * dn + de * de) == t * t * (dn * dn) + t * t * (de * de);
    assert 2.0 * t * (pn * dn + pe * de) == 2.0 * t * (pn * dn) + 2.0 * t * (pe * de);
  }

  lemma SquareOfDifference(u: real, d: real, t: real)
    ensures (u - d * t) * (u - d * t) == u * u - 2.0 * t * (u * d) + t * t * (d * d)
  {
    var m := d * t;
    assert (u - m) * (u - m) == u * u - 2.0 * (u * m) + m * m;
    assert u * m == t * (u * d);
    assert m * m == t * t * (d * d);
  }

  /** A clamped number never lies past the free one, seen from inside the interval. */
  lemma ClampTowards(s: real, t: real, free: real)
    requires 0.0 <= s <= 1.0 && t == Max(0.0, Min(1.0, free))
    ensures (s - t) * (s - t) >= 0.0
    ensures (s - t) * (t - free) >= 0.0
  {
    if free < 0.0 {
      NonNegativeProduct(s - t, t - free);
    } else if free > 1.0 {
      NonNegativeProduct(t - s, free - t);
    }
  }

  /** `d` is the distance from `p` to the outline: nothing on it is closer, and some point is exactly there. */
  ghost predicate IsOutlineDistance(p: Point, es: seq<Edge>, d: real) {
    && d >= 0.0
    && (forall i :: 0 <= i < |es| ==> NotCloser(p, es[i], d))
    && (exists i :: 0 <= i < |es| && Touches(p, es[i], d))
  }

  /** `edge_distance`; `None` stands for the infinity it returns for a polygon without vertices. */
  method OutlineDistance(h: Length, p: Point, poly: seq<Point>) returns (best: Option<real>)
    requires IsHypot(h)
    ensures best.None? <==> poly == []
    ensures best.Some? ==> IsOutlineDistance(p, Edges(poly), best.value)
  {
    best := None;
    var es := Edges(poly);
    for i := 0 to |es|
      invariant best.None? <==> i == 0
      invariant best.Some? ==> IsOutlineDistance(p, es[..i], best.value)
    {
      var t := ProjectionFraction(p, es[i]);
      var d := Dist(h, p, Along(es[i].a, es[i].b, t));
      ProjectionIsNearest(h, p, es[i]);
      if best.None? {
        best := Some(d);
        assert Touches(p, es[..i + 1][i], d);
      } else {
        ExtendOutlineDistance(p, es, i, best.value, d);
        best := Some(Min(best.value, d));
      }
    }
    assert es[..|es|] == es;
  }

  lemma NotCloserMonotone(p: Point, x: Edge, d: real, shorter: real)
    requires NotCloser(p, x, d) && 0.0 <= shorter <= d
    ensures NotCloser(p, x, shorter)
  {
    SquareOrder(shorter, d);
  }

  lemma ExtendOutlineDistance(p: Point, es: seq<Edge>, i: nat, before: real, d: real)
    requires i < |es|
    requires IsOutlineDistance(p, es[..i], before)
    requires d >= 0.0 && NotCloser(p, es[i], d) && Touches(p, es[i], d)
    ensures IsOutlineDistance(p, es[..i + 1], Min(before, d))
  {
    var best, more := Min(before, d), es[..i + 1];
    forall k | 0 <= k < |more|
      ensures NotCloser(p, more[k], best)
    {
      if k < i {
        assert more[k] == es[..i][k];
        NotCloserMonotone(p, more[k], before, best);
      } else {
        NotCloserMonotone(p, more[k], d, best);
      }
    }
    if best == before {
      var k :| 0 <= k < i && Touches(p, es[..i][k], before);
      assert more[k] == es[..i][k];
    } else {
      assert Touches(p, more[i], best);
    }
  }

  /** The distance is determined by the outline. */
  lemma OutlineDistanceUnique(p: Point, es: seq<Edge>, d: real, d': real)
    requires IsOutlineDistance(p, es, d) && IsOutlineDistance(p, es, d')
    ensures d == d'
  {
    var i :| 0 <= i < |es| && Touches(p, es[i], d);
    var i' :| 0 <= i' < |es| && Touches(p, es[i'], d');
    assert NotCloser(p, es[i], d') && NotCloser(p, es[i'], d);
    assert Sq(d) >= Sq(d') && Sq(d') >= Sq(d);
    SquareOrder(d, d');
    SquareOrder(d', d);
  }
}
