/** How the answer of the point-in-polygon test changes along a leg (`inside` in `fleet_api/geofence.py`). */
module SegmentCrossing {
  import opened Planar
  import opened PointInPolygon

  predicate Above(x: Edge, v: Point) {
    x.a.e != x.b.e && v.n > NorthAt(x, v.e)
  }

  predicate Below(x: Edge, v: Point) {
    x.a.e != x.b.e && v.n < NorthAt(x, v.e)
  }

  function West(x: Edge): Point {
    if x.a.e <= x.b.e then x.a else x.b
  }

  function East(x: Edge): Point {
    if x.a.e <= x.b.e then x.b else x.a
  }

  /** The leg between two points, its western end first. */
  function Leg(p: Point, q: Point): (l: Edge)
    ensures l.a.e <= l.b.e
  {
    if p.e <= q.e then Edge(p, q) else Edge(q, p)
  }

  /** Where the two begin to share columns, the edge is north of the leg. */
  predicate NorthInWest(l: Edge, x: Edge) {
    if West(x).e <= l.a.e then Below(x, l.a) else Above(l, West(x))
  }

  /** Where they cease to, it is. */
  predicate NorthInEast(l: Edge, x: Edge) {
    if l.b.e < East(x).e then Below(x, l.b) else Above(l, East(x))
  }

  /** The edge crosses the leg: over the columns they share it gets from north of it to not north of it, or back. */
  predicate Crosses(l: Edge, x: Edge) {
    && l.a.e < East(x).e && West(x).e <= l.b.e
    && NorthInWest(l, x) != NorthInEast(l, x)
  }

  /** An odd number of the polygon's edges cross the leg from `p` to `q`. */
  predicate OddlyCrossed(p: Point, q: Point, poly: seq<Point>) {
    Parity(Edges(poly), (x: Edge) => Crosses(Leg(p, q), x))
  }

  // ---- The answer changes exactly at crossings ----

  /** The vertex is in a column of the leg, its western end's left out, and north of it. */
  predicate InStripNorth(l: Edge, v: Point) {
    l.a.e < v.e <= l.b.e && Above(l, v)
  }

  lemma CrossingOrPassing(l: Edge, x: Edge)
    requires l.a.e <= l.b.e
    ensures (NorthTest(l.a)(x) != NorthTest(l.b)(x))
         == ((InStripNorth(l, x.a) != InStripNorth(l, x.b)) != Crosses(l, x))
  {
    hide CrossesNorth, NorthAt, Above, Below;
    NorthTestIsBelow(l.a, x);
    NorthTestIsBelow(l.b, x);
    NothingAboveUpright(l, x.a);
    NothingAboveUpright(l, x.b);
  }

  lemma NorthTestIsBelow(p: Point, x: Edge)
    ensures CrossesNorth(p, x.a, x.b) == (West(x).e <= p.e < East(x).e && Below(x, p))
  {
    hide NorthAt;
  }

  lemma NothingAboveUpright(l: Edge, v: Point)
    ensures l.a.e == l.b.e ==> !Above(l, v)
  {
  }

  /** For any two points and any closed polygon, the test answers differently exactly if an odd number of edges cross the
    leg between them. */
  lemma AnswerChangesExactlyAcross(p: Point, q: Point, poly: seq<Point>)
    ensures InsideByNorth(p, poly) != InsideByNorth(q, poly) <==> OddlyCrossed(p, q, poly)
  {
    var es, l := Edges(poly), Leg(p, q);
    var passing := (x: Edge) => InStripNorth(l, x.a) != InStripNorth(l, x.b);
    var crossing := (x: Edge) => Crosses(l, x);
    var either := (x: Edge) => passing(x) != crossing(x);
    ChangesAreEven(poly, (v: Point) => InStripNorth(l, v));
    ParityPointwise(es, es, passing, (x: Edge) => ((v: Point) => InStripNorth(l, v))(x.a) != ((v: Point) => InStripNorth(l, v))(x.b));
    ParityOfXor(es, passing, crossing, either);
    forall k | 0 <= k < |es|
      ensures either(es[k]) == (NorthTest(l.a)(es[k]) != NorthTest(l.b)(es[k]))
    {
      CrossingOrPassing(l, es[k]);
    }
    ParityOfXor(es, NorthTest(l.a), NorthTest(l.b), either);
    ParityPointwise(es, es, crossing, (x: Edge) => Crosses(Leg(p, q), x));
  }

  // ---- An edge that crosses meets ----

  ghost predicate Meets(l: Edge, x: Edge) {
    exists r :: OnEdge(r, l) && OnEdge(r, x)
  }

  lemma NorthAtEnds(x: Edge)
    requires x.a.e != x.b.e
    ensures NorthAt(x, x.a.e) == x.a.n && NorthAt(x, x.b.e) == x.b.n
  {
    assert (x.b.n - x.a.n) * (x.b.e - x.a.e) / (x.b.e - x.a.e) == x.b.n - x.a.n;
  }

  lemma NorthAtFraction(x: Edge, t: real)
    requires x.a.e != x.b.e
    ensures NorthAt(x, Along(x.a, x.b, t).e) == Along(x.a, x.b, t).n
  {
    Quotient(x.b.n - x.a.n, x.b.e - x.a.e, t);
  }

  lemma Quotient(u: real, d: real, t: real)
    requires d != 0.0
    ensures u * (d * t) / d == u * t
  {
    assert u * (d * t) == (u * t) * d;
  }

  /** A point of the edge is at the edge's north, in a column of it. */
  lemma OnEdgeAt(x: Edge, r: Point)
    requires OnEdge(r, x)
    ensures West(x).e <= r.e <= East(x).e
    ensures x.a.e != x.b.e ==> r.n == NorthAt(x, r.e)
    ensures Between(x.a.n, r.n, x.b.n)
  {
    hide NorthAt;
    var t :| 0.0 <= t <= 1.0 && r == Along(x.a, x.b, t);
    AlongBetween(x.a.e, x.b.e, t);
    AlongBetween(x.a.n, x.b.n, t);
    if x.a.e != x.b.e {
      NorthAtFraction(x, t);
    }
  }

  predicate Between(u: real, x: real, v: real) {
    u <= x <= v || v <= x <= u
  }

  lemma AlongBetween(u: real, v: real, t: real)
    requires 0.0 <= t <= 1.0
    ensures Between(u, u + (v - u) * t, v)
  {
    if u <= v {
      NonNegativeProduct(v - u, t);
      NonNegativeProduct(v - u, 1.0 - t);
    } else {
      NonNegativeProduct(u - v, t);
      NonNegativeProduct(u - v, 1.0 - t);
    }
  }

  lemma FractionBetween(u: real, x: real, v: real) returns (t: real)
    requires Between(u, x, v) && u != v
    ensures 0.0 <= t <= 1.0 && u + (v - u) * t == x
  {
    t := (x - u) / (v - u);
    assert t * (v - u) == x - u;
    UnitFraction(x - u, v - u, t);
  }

  /** The edge's point in one of its columns. */
  lemma PointAt(x: Edge, e: real)
    requires x.a.e != x.b.e && West(x).e <= e <= East(x).e
    ensures OnEdge(Point(NorthAt(x, e), e), x)
  {
    hide NorthAt;
    var t := FractionBetween(x.a.e, e, x.b.e);
    NorthAtFraction(x, t);
    var r := Along(x.a, x.b, t);
    assert r.e == e;
    assert r == Point(NorthAt(x, e), e);
  }

  /** A point on an upright edge. */
  lemma PointOnUpright(x: Edge, n: real)
    requires x.a.e == x.b.e && Between(x.a.n, n, x.b.n)
    ensures OnEdge(Point(n, x.a.e), x)
  {
    if x.a.n == x.b.n {
      assert Point(n, x.a.e) == Along(x.a, x.b, 0.0);
    } else {
      var t := FractionBetween(x.a.n, n, x.b.n);
      assert Point(n, x.a.e) == Along(x.a, x.b, t);
    }
  }

  lemma NorthAtAffine(x: Edge, w: real, z: real, u: real, e: real)
    requires x.a.e != x.b.e && e == w + (z - w) * u
    ensures NorthAt(x, e) == NorthAt(x, w) + Product(NorthAt(x, z) - NorthAt(x, w), u)
  {
    SlopeForm(x, w);
    SlopeForm(x, z);
    SlopeForm(x, e);
    hide NorthAt;
    OnOneLine((x.b.n - x.a.n) / (x.b.e - x.a.e), x.a.e, w, z, u, e, NorthAt(x, w), NorthAt(x, z));
  }

  lemma OnOneLine(slope: real, a: real, w: real, z: real, u: real, e: real, nw: real, nz: real)
    requires e == w + (z - w) * u && nz - nw == slope * (z - a) - slope * (w - a)
    ensures slope * (e - a) == slope * (w - a) + Product(nz - nw, u)
  {
    assert nz - nw == slope * (z - w);
    assert (slope * (z - w)) * u == slope * ((z - w) * u);
  }

  lemma SlopeForm(x: Edge, e: real)
    requires x.a.e != x.b.e
    ensures NorthAt(x, e) == (x.b.n - x.a.n) / (x.b.e - x.a.e) * (e - x.a.e) + x.a.n
  {
  }

  /** Between a positive and a non-positive value there is a zero. */
  lemma ZeroBetween(fw: real, fz: real) returns (u: real)
    requires (fw > 0.0) != (fz > 0.0)
    ensures 0.0 <= u <= 1.0 && fw + Product(fz - fw, u) == 0.0
  {
    u := fw / (fw - fz);
    assert u * (fw - fz) == fw;
    UnitFraction(fw, fw - fz, u);
  }

  /** The first and the last column the two share. */
  function FirstColumn(l: Edge, x: Edge): real {
    if West(x).e <= l.a.e then l.a.e else West(x).e
  }

  function LastColumn(l: Edge, x: Edge): real {
    if l.b.e < East(x).e then l.b.e else East(x).e
  }

  /** How far north of the leg the edge is. */
  function Lead(l: Edge, x: Edge, e: real): real
    requires l.a.e != l.b.e && x.a.e != x.b.e
  {
    NorthAt(x, e) - NorthAt(l, e)
  }

  lemma NorthIsLead(l: Edge, x: Edge)
    requires l.a.e < l.b.e && x.a.e != x.b.e
    ensures NorthInWest(l, x) == (Lead(l, x, FirstColumn(l, x)) > 0.0)
    ensures NorthInEast(l, x) == (Lead(l, x, LastColumn(l, x)) > 0.0)
  {
    NorthAtEnds(l);
    NorthAtEnds(x);
    hide NorthAt;
  }

  lemma LeadAffine(l: Edge, x: Edge, w: real, z: real, u: real, e: real)
    requires l.a.e != l.b.e && x.a.e != x.b.e && e == w + (z - w) * u
    ensures Lead(l, x, e) == Lead(l, x, w) + Product(Lead(l, x, z) - Lead(l, x, w), u)
  {
    NorthAtAffine(x, w, z, u, e);
    NorthAtAffine(l, w, z, u, e);
    hide NorthAt;
    Spread(NorthAt(x, z) - NorthAt(x, w), NorthAt(l, z) - NorthAt(l, w), u, Lead(l, x, z) - Lead(l, x, w));
  }

  lemma Spread(a: real, b: real, u: real, c: real)
    requires c == a - b
    ensures Product(c, u) == Product(a, u) - Product(b, u)
  {
  }

  lemma CrossingMeets(l: Edge, x: Edge)
    requires l.a.e <= l.b.e && Crosses(l, x)
    ensures Meets(l, x)
  {
    hide NorthAt, OnEdge;
    if l.a.e == l.b.e {
      PointAt(x, l.a.e);
      PointOnUpright(l, NorthAt(x, l.a.e));
    } else if x.a.e == x.b.e {
      PointAt(l, x.a.e);
      PointOnUpright(x, NorthAt(l, x.a.e));
    } else {
      var w, z := FirstColumn(l, x), LastColumn(l, x);
      NorthIsLead(l, x);
      hide Lead;
      var u := ZeroBetween(Lead(l, x, w), Lead(l, x, z));
      var e := w + (z - w) * u;
      LeadAffine(l, x, w, z, u, e);
      AlongBetween(w, z, u);
      PointAt(l, e);
      PointAt(x, e);
      LeadZero(l, x, e);
    }
  }

  lemma LeadZero(l: Edge, x: Edge, e: real)
    requires l.a.e != l.b.e && x.a.e != x.b.e
    ensures Lead(l, x, e) == 0.0 <==> NorthAt(l, e) == NorthAt(x, e)
  {
  }

  /** No end of either lies on the other. */
  ghost predicate Apart(l: Edge, x: Edge) {
    !OnEdge(l.a, x) && !OnEdge(l.b, x) && !OnEdge(x.a, l) && !OnEdge(x.b, l)
  }

  /** So an edge that touches the leg with no end, nor is touched by the leg's ends, crosses it exactly if they meet. */
  lemma CrossesExactlyIfMeets(l: Edge, x: Edge)
    requires l.a.e <= l.b.e && Apart(l, x)
    ensures Crosses(l, x) <==> Meets(l, x)
  {
    if Crosses(l, x) {
      CrossingMeets(l, x);
    }
    if r :| OnEdge(r, l) && OnEdge(r, x) {
      MeetingCrosses(l, x, r);
    }
  }

  lemma EndsOnEdge(x: Edge)
    ensures OnEdge(x.a, x) && OnEdge(x.b, x)
  {
    assert x.a == Along(x.a, x.b, 0.0) && x.b == Along(x.a, x.b, 1.0);
  }

  lemma MeetingCrosses(l: Edge, x: Edge, r: Point)
    requires l.a.e <= l.b.e && Apart(l, x) && OnEdge(r, l) && OnEdge(r, x)
    ensures Crosses(l, x)
  {
    EndsOnEdge(l);
    EndsOnEdge(x);
    OnEdgeAt(l, r);
    OnEdgeAt(x, r);
    hide NorthAt, OnEdge;
    if l.a.e == l.b.e && x.a.e == x.b.e {
      UprightsTouch(l, x, r);
    } else if l.a.e == l.b.e {
      NorthAtEnds(x);
      assert r.n != l.a.n && r.n != l.b.n;
    } else if x.a.e == x.b.e {
      NorthAtEnds(l);
      assert r.n != x.a.n && r.n != x.b.n;
    } else {
      MeetingSlopesCross(l, x, r);
    }
  }

  lemma UprightsTouch(l: Edge, x: Edge, r: Point)
    requires l.a.e == l.b.e == x.a.e == x.b.e && Between(l.a.n, r.n, l.b.n) && Between(x.a.n, r.n, x.b.n)
    ensures !Apart(l, x)
  {
    if Between(x.a.n, l.a.n, x.b.n) {
      PointOnUpright(x, l.a.n);
    } else if Between(x.a.n, l.b.n, x.b.n) {
      PointOnUpright(x, l.b.n);
    } else {
      PointOnUpright(l, x.a.n);
    }
  }

  lemma MeetingSlopesCross(l: Edge, x: Edge, r: Point)
    requires l.a.e < l.b.e && x.a.e != x.b.e && Apart(l, x)
    requires West(x).e <= r.e <= East(x).e && l.a.e <= r.e <= l.b.e && r.n == NorthAt(l, r.e) == NorthAt(x, r.e)
    ensures Crosses(l, x)
  {
    hide NorthAt, OnEdge;
    var w, z := FirstColumn(l, x), LastColumn(l, x);
    LeadNotZero(l, x, w);
    LeadNotZero(l, x, z);
    LeadZero(l, x, r.e);
    NorthIsLead(l, x);
    hide Lead;
    var u := 0.0;
    if w != z {
      u := FractionBetween(w, r.e, z);
    }
    LeadAffine(l, x, w, z, u, r.e);
    SignsDiffer(Lead(l, x, w), Lead(l, x, z), u);
  }

  /** In a column where one of them ends, the two are not equally far north. */
  lemma LeadNotZero(l: Edge, x: Edge, e: real)
    requires l.a.e < l.b.e && x.a.e != x.b.e && Apart(l, x)
    requires West(x).e <= e <= East(x).e && l.a.e <= e <= l.b.e && e in {l.a.e, l.b.e, x.a.e, x.b.e}
    ensures Lead(l, x, e) != 0.0
  {
    PointAt(l, e);
    PointAt(x, e);
    NorthAtEnds(l);
    NorthAtEnds(x);
    hide NorthAt, OnEdge;
  }

  lemma SignsDiffer(fw: real, fz: real, u: real)
    requires 0.0 <= u <= 1.0 && fw != 0.0 && fz != 0.0 && fw + Product(fz - fw, u) == 0.0
    ensures (fw > 0.0) != (fz > 0.0)
  {
    AlongBetween(fw, fz, u);
  }

  // ---- What follows for legs ----

  /** No edge of the polygon meets the leg. */
  ghost predicate Avoids(p: Point, q: Point, poly: seq<Point>) {
    forall k :: 0 <= k < |poly| ==> !Meets(Leg(p, q), Edges(poly)[k])
  }

  /** Along a leg that meets no edge the answer stays. */
  lemma AvoidedKeepsSide(p: Point, q: Point, poly: seq<Point>)
    requires Avoids(p, q, poly)
    ensures InsideByNorth(p, poly) == InsideByNorth(q, poly)
  {
    hide Crosses, Meets;
    var es := Edges(poly);
    forall k | 0 <= k < |es|
      ensures !Crosses(Leg(p, q), es[k])
    {
      if Crosses(Leg(p, q), es[k]) {
        CrossingMeets(Leg(p, q), es[k]);
      }
    }
    ParityOfNone(es, (x: Edge) => Crosses(Leg(p, q), x));
    AnswerChangesExactlyAcross(p, q, poly);
  }

  ghost predicate OffEdges(p: Point, poly: seq<Point>) {
    forall k :: 0 <= k < |poly| ==> !OnEdge(p, Edges(poly)[k])
  }

  lemma BetweenShorter(p: real, u: real, v: real)
    requires Between(p, u, v)
    ensures Sq(p - u) <= Sq(p - v)
  {
    NonNegativeProduct(if p <= v then v - u else u - v, if p <= v then (v - p) + (u - p) else (p - v) + (p - u));
    assert Sq(p - v) - Sq(p - u) == (v - u) * ((v - p) + (u - p));
  }

  /** A point of the leg from `p` to `q` is no farther from `p` than `q` is. */
  lemma LegPointsAreNearer(p: Point, q: Point, r: Point)
    requires OnEdge(r, Leg(p, q))
    ensures Dist2(p, r) <= Dist2(p, q)
  {
    OnEdgeAt(Leg(p, q), r);
    hide OnEdge, Sq;
    BetweenShorter(p.n, r.n, q.n);
    BetweenShorter(p.e, r.e, q.e);
  }

  /** Every point closer to `p` than all the edges is on the same side of the outline as `p`. */
  lemma SameSideWithinClearance(p: Point, q: Point, poly: seq<Point>)
    requires forall x: Point :: Dist2(p, x) <= Dist2(p, q) ==> OffEdges(x, poly)
    ensures InsideByNorth(q, poly) == InsideByNorth(p, poly)
  {
    hide OnEdge, Dist2;
    forall k | 0 <= k < |poly|
      ensures !Meets(Leg(p, q), Edges(poly)[k])
    {
      forall r | OnEdge(r, Leg(p, q))
        ensures !OnEdge(r, Edges(poly)[k])
      {
        LegPointsAreNearer(p, q, r);
      }
    }
    AvoidedKeepsSide(p, q, poly);
  }

  /** A piece of a leg from its start meets no more than the whole. */
  lemma PrefixAvoids(p: Point, q: Point, t: real, poly: seq<Point>)
    requires 0.0 <= t <= 1.0 && Avoids(p, q, poly)
    ensures Avoids(p, Along(p, q, t), poly)
  {
    hide OnEdge;
    forall k | 0 <= k < |poly|
      ensures !Meets(Leg(p, Along(p, q, t)), Edges(poly)[k])
    {
      forall r | OnEdge(r, Leg(p, Along(p, q, t)))
        ensures !OnEdge(r, Edges(poly)[k])
      {
        PrefixPoint(p, q, t, r);
        assert !Meets(Leg(p, q), Edges(poly)[k]);
      }
    }
  }

  lemma PrefixPoint(p: Point, q: Point, t: real, r: Point)
    requires 0.0 <= t <= 1.0 && OnEdge(r, Leg(p, Along(p, q, t)))
    ensures OnEdge(r, Leg(p, q))
  {
    hide Along;
    var m := Along(p, q, t);
    EitherWay(p, m, r);
    var u :| 0.0 <= u <= 1.0 && r == Along(p, m, u);
    NonNegativeProduct(t, u);
    NonNegativeProduct(t, 1.0 - u);
    AlongTwice(p, q, t, u);
    EitherWay(p, q, r);
  }

  lemma AlongTwice(p: Point, q: Point, t: real, u: real)
    ensures Along(p, Along(p, q, t), u) == Along(p, q, t * u)
  {
    TwiceOnAxis(p.n, q.n, t, u, Along(p, q, t).n);
    TwiceOnAxis(p.e, q.e, t, u, Along(p, q, t).e);
  }

  lemma TwiceOnAxis(a: real, b: real, t: real, u: real, m: real)
    requires m == a + (b - a) * t
    ensures a + (m - a) * u == a + (b - a) * (t * u)
  {
    assert (m - a) * u == ((b - a) * t) * u;
  }

  /** The points of a leg are those along the way from either end. */
  lemma EitherWay(p: Point, q: Point, r: Point)
    ensures OnEdge(r, Leg(p, q)) <==> exists t: real :: 0.0 <= t <= 1.0 && r == Along(p, q, t)
  {
    hide Along;
    if t: real :| 0.0 <= t <= 1.0 && r == Along(p, q, t) {
      AlongBack(p, q, t);
    }
    if t: real :| 0.0 <= t <= 1.0 && r == Along(q, p, t) {
      AlongBack(q, p, t);
    }
  }

  lemma AlongBack(p: Point, q: Point, t: real)
    ensures Along(q, p, 1.0 - t) == Along(p, q, t)
  {
  }
}
