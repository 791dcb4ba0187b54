/** The two point-in-polygon tests of the system: the fleet API's, which casts its ray along
  north (`fleet_api/geofence.py`), and the fence-check plugin's, which casts it along east
  (`plugins/perimeter/service.py`). */
module PointInPolygon {
  import opened Planar

  /** How far north the edge's line is at a distance east. */
  function NorthAt(x: Edge, e: real): real
    requires x.a.e != x.b.e
  {
    (x.b.n - x.a.n) * (e - x.a.e) / (x.b.e - x.a.e) + x.a.n
  }

  /** The edge crosses the ray that leaves `p` towards larger north. */
  predicate CrossesNorth(p: Point, a: Point, b: Point) {
    && (a.e > p.e) != (b.e > p.e)
    && p.n < NorthAt(Edge(a, b), p.e)
  }

  /** The edge crosses the ray that leaves `p` towards larger east. */
  predicate CrossesEast(p: Point, a: Point, b: Point) {
    && (a.n > p.n) != (b.n > p.n)
    && p.e < a.e + (p.n - a.n) * (b.e - a.e) / (b.n - a.n)
  }

  /** Whether an odd number of the edges satisfy `f`. */
  function Parity(es: seq<Edge>, f: Edge -> bool): bool {
    if es == [] then false else f(es[0]) != Parity(es[1..], f)
  }

  function NorthTest(p: Point): Edge -> bool {
    (x: Edge) => CrossesNorth(p, x.a, x.b)
  }

  function EastTest(p: Point): Edge -> bool {
    (x: Edge) => CrossesEast(p, x.a, x.b)
  }

  /** An odd number of edges cross the ray towards north. */
  predicate InsideByNorth(p: Point, poly: seq<Point>) {
    Parity(Edges(poly), NorthTest(p))
  }

  /** An odd number of edges cross the ray towards east. */
  predicate InsideByEast(p: Point, poly: seq<Point>) {
    Parity(Edges(poly), EastTest(p))
  }

  /** The fleet API's `inside`: walks the vertices with the previous one beside it. */
  method GeofenceInside(p: Point, poly: seq<Point>) returns (hit: bool)
    ensures hit == InsideByNorth(p, poly)
  {
    hit := false;
    var j := |poly| - 1;
    for i := 0 to |poly|
      invariant j == if i == 0 then |poly| - 1 else i - 1
      invariant hit == Parity(EdgesFromPrevious(poly)[..i], NorthTest(p))
    {
      ghost var es := EdgesFromPrevious(poly);
      ParityOfSnoc(es[..i], es[i], NorthTest(p));
      assert es[..i + 1] == es[..i] + [es[i]];
      if CrossesNorth(p, poly[i], poly[j]) {
        hit := !hit;
      }
      j := i;
    }
    assert EdgesFromPrevious(poly)[..|poly|] == EdgesFromPrevious(poly);
    WalkOrderIrrelevant(p, poly);
  }

  /** The perimeter plugin's `inside`: walks the edges in order. */
  method PerimeterInside(p: Point, poly: seq<Point>) returns (hit: bool)
    ensures hit == InsideByEast(p, poly)
  {
    hit := false;
    var es := Edges(poly);
    for i := 0 to |es|
      invariant hit == Parity(es[..i], EastTest(p))
    {
      ParityOfSnoc(es[..i], es[i], EastTest(p));
      assert es[..i + 1] == es[..i] + [es[i]];
      if CrossesEast(p, es[i].a, es[i].b) {
        hit := !hit;
      }
    }
    assert es[..|es|] == es;
  }

  // ---- Parity ----

  lemma {:induction false} ParityOfConcat(xs: seq<Edge>, ys: seq<Edge>, f: Edge -> bool)
    ensures Parity(xs + ys, f) == (Parity(xs, f) != Parity(ys, f))
  {
    if xs == [] {
      assert xs + ys == ys;
    } else {
      assert (xs + ys)[1..] == xs[1..] + ys;
      ParityOfConcat(xs[1..], ys, f);
    }
  }

  lemma ParityOfSnoc(xs: seq<Edge>, y: Edge, f: Edge -> bool)
    ensures Parity(xs + [y], f) == (Parity(xs, f) != f(y))
  {
    ParityOfConcat(xs, [y], f);
  }

  /** Parity depends only on the truth value at each position. */
  lemma {:induction false} ParityPointwise(xs: seq<Edge>, ys: seq<Edge>, f: Edge -> bool, g: Edge -> bool)
    requires |xs| == |ys|
    requires forall k :: 0 <= k < |xs| ==> f(xs[k]) == g(ys[k])
    ensures Parity(xs, f) == Parity(ys, g)
  {
    if xs != [] {
      ParityPointwise(xs[1..], ys[1..], f, g);
    }
  }

  lemma {:induction false} ParityOfXor(es: seq<Edge>, f: Edge -> bool, g: Edge -> bool, h: Edge -> bool)
    requires forall k :: 0 <= k < |es| ==> h(es[k]) == (f(es[k]) != g(es[k]))
    ensures Parity(es, h) == (Parity(es, f) != Parity(es, g))
  {
    if es != [] {
      ParityOfXor(es[1..], f, g, h);
    }
  }

  lemma {:induction false} ParityOfNone(es: seq<Edge>, f: Edge -> bool)
    requires forall k :: 0 <= k < |es| ==> !f(es[k])
    ensures !Parity(es, f)
  {
    if es != [] {
      ParityOfNone(es[1..], f);
    }
  }

  // ---- Order of the walk ----

  function Flip(x: Edge): Edge {
    Edge(x.b, x.a)
  }

  /** The edges as the fleet API's loop meets them: each vertex with the one before it. */
  function EdgesFromPrevious(poly: seq<Point>): (es: seq<Edge>)
    ensures |es| == |poly|
  {
    seq(|poly|, i requires 0 <= i < |poly| => Edge(poly[i], poly[if i == 0 then |poly| - 1 else i - 1]))
  }

  lemma CrossesNorthFlips(p: Point, a: Point, b: Point)
    ensures CrossesNorth(p, a, b) == CrossesNorth(p, b, a)
  {
    hide NorthAt;
    if a.e != b.e {
      NorthAtFlips(a, b, p.e);
    }
  }

  lemma NorthAtFlips(a: Point, b: Point, e: real)
    requires a.e != b.e
    ensures NorthAt(Edge(a, b), e) == NorthAt(Edge(b, a), e)
  {
    var t, u := (e - a.e) / (b.e - a.e), (e - b.e) / (a.e - b.e);
    FractionOf(b.n - a.n, e - a.e, b.e - a.e);
    FractionOf(a.n - b.n, e - b.e, a.e - b.e);
    SharesAddUp(a.e, b.e, e, t, u);
    assert (b.n - a.n) * t + a.n == (a.n - b.n) * u + b.n;
  }

  lemma SharesAddUp(a: real, b: real, e: real, t: real, u: real)
    requires a != b && t == (e - a) / (b - a) && u == (e - b) / (a - b)
    ensures t + u == 1.0
  {
    assert t * (b - a) == e - a && u * (a - b) == e - b;
    ZeroFactor(t + u - 1.0, b - a);
  }

  /** Starting at the closing edge and reading each edge backwards gives the same parity. */
  lemma WalkOrderIrrelevant(p: Point, poly: seq<Point>)
    ensures Parity(EdgesFromPrevious(poly), NorthTest(p)) == InsideByNorth(p, poly)
  {
    if poly != [] {
      var last := |poly| - 1;
      var es, back := Edges(poly), EdgesFromPrevious(poly);
      var rotated := [es[last]] + es[..last];
      forall k | 0 <= k < |poly|
        ensures NorthTest(p)(back[k]) == NorthTest(p)(rotated[k])
      {
        assert rotated[k] == Flip(back[k]);
        CrossesNorthFlips(p, back[k].a, back[k].b);
      }
      ParityPointwise(back, rotated, NorthTest(p), NorthTest(p));
      ParityOfConcat([es[last]], es[..last], NorthTest(p));
      ParityOfConcat(es[..last], [es[last]], NorthTest(p));
      assert es == es[..last] + [es[last]];
    }
  }

  // ---- Agreement of the two rays ----

  /** The vertex lies strictly north and strictly east of `p`. */
  predicate NorthEast(p: Point, v: Point) {
    v.n > p.n && v.e > p.e
  }

  /** The edge runs through `p` itself, from its strict north-east quarter into its south-west one. */
  predicate RunsThrough(p: Point, x: Edge) {
    && NorthEast(p, x.a) != NorthEast(p, x.b)
    && (x.a.n > p.n) != (x.b.n > p.n)
    && (x.a.e > p.e) != (x.b.e > p.e)
    && (x.a.n - p.n) * (x.b.e - p.e) == (x.a.e - p.e) * (x.b.n - p.n)
  }

  /** `p` is one of the edge's points. */
  ghost predicate OnEdge(p: Point, x: Edge) {
    exists t: real :: 0.0 <= t <= 1.0 && p == Along(x.a, x.b, t)
  }

  /** Where the line of an edge that changes sides in `e` meets the ray line, as a ratio of products. */
  lemma NorthCrossingSign(p: Point, a: Point, b: Point)
    requires a.e > p.e >= b.e
    ensures CrossesNorth(p, a, b) <==> (b.n - p.n) * (a.e - p.e) - (a.n - p.n) * (b.e - p.e) > 0.0
  {
    var d := a.e - b.e;
    var m := (b.n - a.n) * (p.e - a.e) / (b.e - a.e);
    assert m * (b.e - a.e) == (b.n - a.n) * (p.e - a.e);
    var k := m + a.n - p.n;
    assert k * d == (b.n - p.n) * (a.e - p.e) - (a.n - p.n) * (b.e - p.e);
    SignOfProduct(k, d);
  }

  lemma EastCrossingSign(p: Point, a: Point, b: Point)
    requires a.n > p.n >= b.n
    ensures CrossesEast(p, a, b) <==> (b.e - p.e) * (a.n - p.n) - (a.e - p.e) * (b.n - p.n) > 0.0
  {
    var d := a.n - b.n;
    var m := (p.n - a.n) * (b.e - a.e) / (b.n - a.n);
    assert m * (b.n - a.n) == (p.n - a.n) * (b.e - a.e);
    var k := m + a.e - p.e;
    assert k * d == (b.e - p.e) * (a.n - p.n) - (a.e - p.e) * (b.n - p.n);
    SignOfProduct(k, d);
  }

  lemma SignOfProduct(k: real, d: real)
    requires d > 0.0
    ensures k * d > 0.0 <==> k > 0.0
  {
    if k > 0.0 {
      assert k * d > 0.0;
    } else {
      assert (-k) * d >= 0.0;
    }
  }

  lemma CrossesEastFlips(p: Point, a: Point, b: Point)
    ensures CrossesEast(p, a, b) == CrossesEast(p, b, a)
  {
    if a.n > p.n >= b.n {
      EastCrossingSign(p, a, b);
      EastSignFlipped(p, b, a);
    } else if b.n > p.n >= a.n {
      EastCrossingSign(p, b, a);
      EastSignFlipped(p, a, b);
    }
  }

  lemma EastSignFlipped(p: Point, a: Point, b: Point)
    requires b.n > p.n >= a.n
    ensures CrossesEast(p, a, b) <==> (a.e - p.e) * (b.n - p.n) - (b.e - p.e) * (a.n - p.n) > 0.0
  {
    var d := b.n - a.n;
    var m := (p.n - a.n) * (b.e - a.e) / (b.n - a.n);
    assert m * (b.n - a.n) == (p.n - a.n) * (b.e - a.e);
    var k := m + a.e - p.e;
    assert k * d == (a.e - p.e) * (b.n - p.n) - (b.e - p.e) * (a.n - p.n);
    SignOfProduct(k, d);
  }

  /** One edge, read from its more eastern end: its two crossings differ exactly when it leaves the
    north-east quarter, unless it runs through `p`. */
  lemma QuarterChangeFromEast(p: Point, a: Point, b: Point)
    requires a.e > p.e >= b.e
    ensures (CrossesNorth(p, a, b) != CrossesEast(p, a, b))
         == ((NorthEast(p, a) != NorthEast(p, b)) != RunsThrough(p, Edge(a, b)))
  {
    var an, ae, bn, be := a.n - p.n, a.e - p.e, b.n - p.n, b.e - p.e;
    NorthCrossingSign(p, a, b);
    if an > 0.0 && bn > 0.0 {
      assert bn * ae > 0.0 && an * be <= 0.0;
    } else if an <= 0.0 && bn <= 0.0 {
      assert bn * ae <= 0.0 && an * be >= 0.0;
    } else if an > 0.0 {
      EastCrossingSign(p, a, b);
    } else {
      CrossesEastFlips(p, a, b);
      EastCrossingSign(p, b, a);
    }
  }

  lemma QuarterChange(p: Point, x: Edge)
    ensures (CrossesNorth(p, x.a, x.b) != CrossesEast(p, x.a, x.b))
         == ((NorthEast(p, x.a) != NorthEast(p, x.b)) != RunsThrough(p, x))
  {
    if x.a.e > p.e >= x.b.e {
      QuarterChangeFromEast(p, x.a, x.b);
    } else if x.b.e > p.e >= x.a.e {
      QuarterChangeFromEast(p, x.b, x.a);
      CrossesNorthFlips(p, x.a, x.b);
      CrossesEastFlips(p, x.a, x.b);
    } else if x.a.e > p.e && x.b.e > p.e {
      if x.a.n > p.n >= x.b.n {
        EastCrossingSign(p, x.a, x.b);
        SameSideEast(p, x.a, x.b);
      } else if x.b.n > p.n >= x.a.n {
        CrossesEastFlips(p, x.a, x.b);
        EastCrossingSign(p, x.b, x.a);
        SameSideEast(p, x.b, x.a);
      }
    } else {
      if x.a.n > p.n >= x.b.n {
        EastCrossingSign(p, x.a, x.b);
        SameSideWest(p, x.a, x.b);
      } else if x.b.n > p.n >= x.a.n {
        CrossesEastFlips(p, x.a, x.b);
        EastCrossingSign(p, x.b, x.a);
        SameSideWest(p, x.b, x.a);
      }
    }
  }

  lemma SameSideEast(p: Point, a: Point, b: Point)
    requires a.n > p.n >= b.n && a.e > p.e && b.e > p.e
    ensures (b.e - p.e) * (a.n - p.n) - (a.e - p.e) * (b.n - p.n) > 0.0
  {
    assert Product(b.e - p.e, a.n - p.n) > 0.0;
    assert Product(a.e - p.e, p.n - b.n) >= 0.0;
  }

  lemma SameSideWest(p: Point, a: Point, b: Point)
    requires a.n > p.n >= b.n && a.e <= p.e && b.e <= p.e
    ensures (b.e - p.e) * (a.n - p.n) - (a.e - p.e) * (b.n - p.n) <= 0.0
  {
    assert Product(p.e - b.e, a.n - p.n) >= 0.0;
    assert Product(p.e - a.e, p.n - b.n) >= 0.0;
  }

  /** Going once round a closed polygon, any yes/no property of the vertices changes an even number of times. */
  lemma ChangesAreEven(poly: seq<Point>, q: Point -> bool)
    ensures !Parity(Edges(poly), (x: Edge) => q(x.a) != q(x.b))
  {
    if poly != [] {
      var f := (x: Edge) => q(x.a) != q(x.b);
      var es, last := Edges(poly), |poly| - 1;
      ChangesTelescope(poly, q, last);
      ParityOfSnoc(es[..last], es[last], f);
      assert es == es[..last] + [es[last]];
    }
  }

  lemma {:induction false} ChangesTelescope(poly: seq<Point>, q: Point -> bool, k: nat)
    requires k < |poly|
    ensures Parity(Edges(poly)[..k], (x: Edge) => q(x.a) != q(x.b)) == (q(poly[0]) != q(poly[k]))
  {
    var f := (x: Edge) => q(x.a) != q(x.b);
    if k > 0 {
      ChangesTelescope(poly, q, k - 1);
      var es := Edges(poly);
      ParityOfSnoc(es[..k - 1], es[k - 1], f);
      assert es[..k] == es[..k - 1] + [es[k - 1]];
    }
  }

  /** For every closed polygon and every point, the two tests differ exactly when an odd number of
    edges run through the point from its strict north-east quarter to its south-west one. */
  lemma RaysDisagreeExactly(p: Point, poly: seq<Point>)
    ensures (InsideByNorth(p, poly) != InsideByEast(p, poly)) <==> Parity(Edges(poly), (x: Edge) => RunsThrough(p, x))
  {
    var es := Edges(poly);
    var turn := (x: Edge) => NorthEast(p, x.a) != NorthEast(p, x.b);
    var through := (x: Edge) => RunsThrough(p, x);
    var either := (x: Edge) => turn(x) != through(x);
    ChangesAreEven(poly, (v: Point) => NorthEast(p, v));
    ParityPointwise(es, es, turn, (x: Edge) => ((v: Point) => NorthEast(p, v))(x.a) != ((v: Point) => NorthEast(p, v))(x.b));
    ParityOfXor(es, turn, through, either);
    forall k | 0 <= k < |es|
      ensures either(es[k]) == (NorthTest(p)(es[k]) != EastTest(p)(es[k]))
    {
      QuarterChange(p, es[k]);
    }
    ParityOfXor(es, NorthTest(p), EastTest(p), either);
  }

  lemma RunsThroughIsOnEdge(p: Point, x: Edge)
    requires RunsThrough(p, x)
    ensures OnEdge(p, x)
  {
    var t := (p.n - x.a.n) / (x.b.n - x.a.n);
    assert t * (x.b.n - x.a.n) == p.n - x.a.n;
    UnitFraction(p.n - x.a.n, x.b.n - x.a.n, t);
    var an, ae, bn, be := x.a.n - p.n, x.a.e - p.e, x.b.n - p.n, x.b.e - p.e;
    assert t * (bn - an) == -an;
    assert (ae + (be - ae) * t) * (bn - an) == ae * (bn - an) + (be - ae) * (t * (bn - an));
    assert ae * (bn - an) - (be - ae) * an == ae * bn - be * an == 0.0;
    ZeroFactor(ae + (be - ae) * t, bn - an);
    assert p == Along(x.a, x.b, t);
  }

  lemma UnitFraction(u: real, d: real, t: real)
    requires d != 0.0 && t * d == u
    requires 0.0 <= u <= d || d <= u <= 0.0
    ensures 0.0 <= t <= 1.0
  {
    var size, share := if d > 0.0 then d else -d, if d > 0.0 then u else -u;
    assert t * size == share;
    if t < 0.0 {
      assert false;
    }
  }

  lemma ZeroFactor(x: real, d: real)
    requires x * d == 0.0 && d != 0.0
    ensures x == 0.0
  {
  }

  /** On every closed polygon, self-crossing ones included, the two tests agree at every point off its edges. */
  lemma RaysAgreeOffEdges(p: Point, poly: seq<Point>)
    requires forall k :: 0 <= k < |poly| ==> !OnEdge(p, Edges(poly)[k])
    ensures InsideByNorth(p, poly) == InsideByEast(p, poly)
  {
    var es := Edges(poly);
    forall k | 0 <= k < |es|
      ensures !RunsThrough(p, es[k])
    {
      if RunsThrough(p, es[k]) {
        RunsThroughIsOnEdge(p, es[k]);
      }
    }
    ParityOfNone(es, (x: Edge) => RunsThrough(p, x));
    RaysDisagreeExactly(p, poly);
  }

  /** The condition cannot be dropped: at the middle of a slanted edge the two tests differ. */
  lemma RaysDisagreeOnSlantedEdge()
    ensures var triangle := [Point(-1.0, -1.0), Point(1.0, 1.0), Point(-1.0, 1.0)];
            var p := Point(0.0, 0.0);
            InsideByNorth(p, triangle) != InsideByEast(p, triangle)
  {
    var triangle := [Point(-1.0, -1.0), Point(1.0, 1.0), Point(-1.0, 1.0)];
    var p := Point(0.0, 0.0);
    var es := Edges(triangle);
    var f := (x: Edge) => RunsThrough(p, x);
    assert es == [es[0], es[1], es[2]];
    assert f(es[0]) && !f(es[1]) && !f(es[2]);
    assert Parity(es[1..][1..], f) == (f(es[2]) != Parity(es[1..][1..][1..], f));
    RaysDisagreeExactly(p, triangle);
  }

  // ---- Properties of one test ----

  /** An even number of edges change sides of any level line: the level through the ray included. */
  lemma StraddlesAreEven(p: Point, poly: seq<Point>)
    ensures !Parity(Edges(poly), (x: Edge) => (x.a.e > p.e) != (x.b.e > p.e))
  {
    ChangesAreEven(poly, (v: Point) => v.e > p.e);
    ParityPointwise(Edges(poly), Edges(poly), (x: Edge) => (x.a.e > p.e) != (x.b.e > p.e),
                    (x: Edge) => ((v: Point) => v.e > p.e)(x.a) != ((v: Point) => v.e > p.e)(x.b));
  }

  /** A crossed edge has an end on each side of the level of `p`, and one beyond `p` along the ray. */
  lemma CrossedEdgeReaches(p: Point, a: Point, b: Point)
    requires CrossesNorth(p, a, b)
    ensures a.e > p.e >= b.e || b.e > p.e >= a.e
    ensures a.n > p.n || b.n > p.n
  {
    var hi, lo := if a.e > p.e then a else b, if a.e > p.e then b else a;
    CrossesNorthFlips(p, a, b);
    NorthCrossingSign(p, hi, lo);
    if hi.n <= p.n && lo.n <= p.n {
      NonNegativeProduct(p.n - lo.n, hi.e - p.e);
      NonNegativeProduct(p.n - hi.n, p.e - lo.e);
    }
  }

  /** A point inside has vertices on all four sides of it: the test never accepts outside the bounding box. */
  lemma InsideBoundingBox(p: Point, poly: seq<Point>)
    requires InsideByNorth(p, poly)
    ensures exists v :: v in poly && v.n > p.n
    ensures exists v :: v in poly && v.n <= p.n
    ensures exists v :: v in poly && v.e > p.e
    ensures exists v :: v in poly && v.e <= p.e
  {
    var es := Edges(poly);
    if forall k :: 0 <= k < |es| ==> !NorthTest(p)(es[k]) {
      ParityOfNone(es, NorthTest(p));
    }
    var k :| 0 <= k < |es| && NorthTest(p)(es[k]);
    CrossedEdgeReaches(p, es[k].a, es[k].b);
    assert es[k].a in poly && es[k].b in poly;
    if forall v :: v in poly ==> v.n > p.n {
      AllNorthIsOutside(p, poly);
    }
  }

  lemma AllNorthIsOutside(p: Point, poly: seq<Point>)
    requires forall v :: v in poly ==> v.n > p.n
    ensures !InsideByNorth(p, poly)
  {
    var es := Edges(poly);
    var straddles := (x: Edge) => (x.a.e > p.e) != (x.b.e > p.e);
    forall k | 0 <= k < |es|
      ensures NorthTest(p)(es[k]) == straddles(es[k])
    {
      var x := es[k];
      assert x.a in poly && x.b in poly;
      QuarterChange(p, x);
      assert !CrossesEast(p, x.a, x.b) && !RunsThrough(p, x);
    }
    StraddlesAreEven(p, poly);
    ParityPointwise(es, es, NorthTest(p), straddles);
  }

  /** The order of the vertices around the polygon does not matter: start anywhere. */
  lemma InsideIgnoresStart(p: Point, poly: seq<Point>, k: nat)
    requires k <= |poly|
    ensures InsideByNorth(p, poly[k..] + poly[..k]) == InsideByNorth(p, poly)
  {
    var es, turned := Edges(poly), Edges(poly[k..] + poly[..k]);
    assert turned == es[k..] + es[..k];
    assert es == es[..k] + es[k..];
    ParityOfConcat(es[..k], es[k..], NorthTest(p));
    ParityOfConcat(es[k..], es[..k], NorthTest(p));
  }

  function Reversed(poly: seq<Point>): (r: seq<Point>)
    ensures |r| == |poly|
    ensures forall i :: 0 <= i < |poly| ==> r[i] == poly[|poly| - 1 - i]
  {
    seq(|poly|, i requires 0 <= i < |poly| => poly[|poly| - 1 - i])
  }

  /** Nor does the direction in which they are listed. */
  lemma InsideIgnoresDirection(p: Point, poly: seq<Point>)
    ensures InsideByNorth(p, Reversed(poly)) == InsideByNorth(p, poly)
  {
    var back, es := EdgesFromPrevious(Reversed(poly)), Edges(poly);
    WalkOrderIrrelevant(p, Reversed(poly));
    ParityOfReverse(es, back, NorthTest(p));
  }

  lemma {:induction false} ParityOfReverse(es: seq<Edge>, back: seq<Edge>, f: Edge -> bool)
    requires |es| == |back|
    requires forall i :: 0 <= i < |es| ==> f(back[i]) == f(es[|es| - 1 - i])
    ensures Parity(es, f) == Parity(back, f)
  {
    if es != [] {
      var last := |es| - 1;
      ParityOfReverse(es[1..], back[..last], f);
      ParityOfSnoc(back[..last], back[last], f);
      assert back == back[..last] + [back[last]];
    }
  }
}
