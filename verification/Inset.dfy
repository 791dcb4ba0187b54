/** The fence line moved inwards (`shrink` in `plugins/perimeter/service.py`). */
module Inset {
  import opened Planar
  import opened PointInPolygon

  /** A line by a point on it and its direction. */
  datatype Line = Line(p: Point, dn: real, de: real)

  datatype InsetError = EdgeWithoutLength

  const PARALLEL: real := 0.000000001

  /** Twice the area, positive for a polygon listed anticlockwise with east to the right. */
  function Area2(es: seq<Edge>): real {
    if es == [] then 0.0
    else Area2(es[..|es| - 1]) + (es[|es| - 1].a.e * es[|es| - 1].b.n - es[|es| - 1].b.e * es[|es| - 1].a.n)
  }

  /** Which side is inside: 1 when the polygon's area is positive, else -1. */
  function Side(poly: seq<Point>): (s: real)
    ensures s == 1.0 || s == -1.0
  {
    if Area2(Edges(poly)) > 0.0 then 1.0 else -1.0
  }

  predicate HasLength(x: Edge) {
    x.a.n != x.b.n || x.a.e != x.b.e
  }

  function EdgeLength(h: Length, x: Edge): real {
    h(x.b.e - x.a.e, x.b.n - x.a.n)
  }

  lemma LengthPositive(h: Length, x: Edge)
    requires IsHypot(h)
    ensures EdgeLength(h, x) != 0.0 <==> HasLength(x)
  {
    HypotZero(h, x.b.e - x.a.e, x.b.n - x.a.n);
  }

  /** The edge's line shifted by `d` along the inside normal. */
  function Shifted(h: Length, x: Edge, s: real, d: real): Line
    requires EdgeLength(h, x) != 0.0
  {
    var de, dn := x.b.e - x.a.e, x.b.n - x.a.n;
    var k := d / EdgeLength(h, x);
    Line(Point(x.a.n + de * k * s, x.a.e + -dn * k * s), dn, de)
  }

  function Cross(l: Line, m: Line): real {
    l.de * m.dn - l.dn * m.de
  }

  function Abs(x: real): real {
    if x < 0.0 then -x else x
  }

  predicate NearlyParallel(l: Line, m: Line) {
    Abs(Cross(l, m)) < PARALLEL
  }

  /** Where the second line meets the first; the first line's own point if they are nearly parallel. */
  function Corner(l: Line, m: Line): Point {
    var cross := Cross(l, m);
    var t := if Abs(cross) < PARALLEL then 0.0 else ((m.p.e - l.p.e) * m.dn - (m.p.n - l.p.n) * m.de) / cross;
    Point(l.p.n + l.dn * t, l.p.e + l.de * t)
  }

  /** How far the vector leads across the direction, times the direction's length. */
  function Across(n: real, e: real, dn: real, de: real): real {
    n * de - e * dn
  }

  predicate OnLine(q: Point, l: Line) {
    Across(q.n - l.p.n, q.e - l.p.e, l.dn, l.de) == 0.0
  }

  /** `Shrink` moves the outline when every edge has a length; otherwise the division fails. */
  method Shrink(h: Length, poly: seq<Point>, d: real) returns (r: Result<seq<Point>, InsetError>)
    requires IsHypot(h)
    ensures r.Ok? <==> forall i :: 0 <= i < |poly| ==> HasLength(Edges(poly)[i])
    ensures r.Ok? ==> Shrinkable(h, poly) && r.value == InsetOf(h, poly, d)
  {
    var area := ShoelaceSum(Edges(poly));
    var lines :- ShiftLines(h, Edges(poly), if area > 0.0 then 1.0 else -1.0, d);
    var out: seq<Point> := [];
    for i := 0 to |lines|
      invariant |out| == i
      invariant forall k :: 0 <= k < i ==> out[k] == Corner(lines[Previous(|lines|, k)], lines[k])
    {
      out := out + [Corner(lines[Previous(|lines|, i)], lines[i])];
    }
    return Ok(out);
  }

  method ShoelaceSum(es: seq<Edge>) returns (area: real)
    ensures area == Area2(es)
  {
    area := 0.0;
    for i := 0 to |es|
      invariant area == Area2(es[..i])
    {
      assert es[..i + 1][..i] == es[..i];
      area := area + (es[i].a.e * es[i].b.n - es[i].b.e * es[i].a.n);
    }
    assert es[..|es|] == es;
  }

  /** The shifted lines of edges that all have a length. */
  function ShiftedLines(h: Length, es: seq<Edge>, s: real, d: real): (lines: seq<Line>)
    requires forall k :: 0 <= k < |es| ==> EdgeLength(h, es[k]) != 0.0
    ensures |lines| == |es|
  {
    if es == [] then [] else ShiftedLines(h, es[..|es| - 1], s, d) + [Shifted(h, es[|es| - 1], s, d)]
  }

  lemma {:induction false} ShiftedLineAt(h: Length, es: seq<Edge>, s: real, d: real, k: nat)
    requires forall i :: 0 <= i < |es| ==> EdgeLength(h, es[i]) != 0.0
    requires k < |es|
    ensures ShiftedLines(h, es, s, d)[k] == Shifted(h, es[k], s, d)
  {
    if k < |es| - 1 {
      ShiftedLineAt(h, es[..|es| - 1], s, d, k);
    }
  }

  method ShiftLines(h: Length, es: seq<Edge>, s: real, d: real) returns (r: Result<seq<Line>, InsetError>)
    requires IsHypot(h)
    ensures r.Ok? <==> forall i :: 0 <= i < |es| ==> HasLength(es[i])
    ensures r.Ok? ==> forall i :: 0 <= i < |es| ==> EdgeLength(h, es[i]) != 0.0
    ensures r.Ok? ==> r.value == ShiftedLines(h, es, s, d)
  {
    var lines: seq<Line> := [];
    for i := 0 to |es|
      invariant forall k :: 0 <= k < i ==> HasLength(es[k]) && EdgeLength(h, es[k]) != 0.0
      invariant lines == ShiftedLines(h, es[..i], s, d)
    {
      LengthPositive(h, es[i]);
      if EdgeLength(h, es[i]) == 0.0 {
        return Err(EdgeWithoutLength);
      }
      assert es[..i + 1][..i] == es[..i];
      lines := lines + [Shifted(h, es[i], s, d)];
    }
    assert es[..|es|] == es;
    return Ok(lines);
  }

  /** The index before `i`, around the end. */
  function Previous(n: nat, i: nat): (k: nat)
    requires i < n
    ensures k < n
  {
    if i == 0 then n - 1 else i - 1
  }

  ghost predicate Shrinkable(h: Length, poly: seq<Point>) {
    forall i :: 0 <= i < |poly| ==> EdgeLength(h, Edges(poly)[i]) != 0.0
  }

  /** The division works exactly when every edge has a length. */
  lemma ShrinkableExactly(h: Length, poly: seq<Point>)
    requires IsHypot(h)
    ensures Shrinkable(h, poly) <==> forall i :: 0 <= i < |poly| ==> HasLength(Edges(poly)[i])
  {
    forall i | 0 <= i < |poly|
      ensures EdgeLength(h, Edges(poly)[i]) != 0.0 <==> HasLength(Edges(poly)[i])
    {
      LengthPositive(h, Edges(poly)[i]);
    }
  }

  /** The edge that ends at vertex `i`. */
  function Before(poly: seq<Point>, i: nat): Edge
    requires i < |poly|
  {
    Edges(poly)[Previous(|poly|, i)]
  }

  /** The moved corner of vertex `i`: where the edge before it meets the edge after it. */
  ghost function InsetCorner(h: Length, poly: seq<Point>, d: real, i: nat): Point
    requires i < |poly| && Shrinkable(h, poly)
  {
    var lines := ShiftedLines(h, Edges(poly), Side(poly), d);
    Corner(lines[Previous(|poly|, i)], lines[i])
  }

  ghost function InsetOf(h: Length, poly: seq<Point>, d: real): (out: seq<Point>)
    requires Shrinkable(h, poly)
    ensures |out| == |poly|
  {
    seq(|poly|, i requires 0 <= i < |poly| => InsetCorner(h, poly, d, i))
  }

  // ---- Where the moved corners lie ----

  /** How far `q` lies on the inside of the edge's line, times the edge's length. */
  function Inward(x: Edge, s: real, q: Point): real {
    s * Across(q.n - x.a.n, q.e - x.a.e, x.b.n - x.a.n, x.b.e - x.a.e)
  }

  /** Twice the area as seen from `o`. */
  function AreaFrom(es: seq<Edge>, o: Point): real {
    if es == [] then 0.0 else AreaFrom(es[..|es| - 1], o) + Inward(es[|es| - 1], 1.0, o)
  }

  /** What a chain from `a` to `b` leaves over. */
  function LeftOver(o: Point, a: Point, b: Point): real {
    o.n * (a.e - b.e) + o.e * (b.n - a.n)
  }

  lemma LeftOverAdds(o: Point, a: Point, b: Point, c: Point)
    ensures LeftOver(o, a, c) == LeftOver(o, a, b) + LeftOver(o, b, c)
    ensures LeftOver(o, a, a) == 0.0
  {
  }

  lemma InwardTerm(x: Edge, o: Point)
    ensures Area2([x]) == Inward(x, 1.0, o) + LeftOver(o, x.a, x.b)
  {
    assert [x][..0] == [];
  }

  /** Along a chain of edges the two areas differ by what its ends leave over. */
  lemma {:induction false} AreaFromAnywhere(es: seq<Edge>, o: Point)
    requires es != [] && forall i :: 0 <= i < |es| - 1 ==> es[i].b == es[i + 1].a
    ensures Area2(es) == AreaFrom(es, o) + LeftOver(o, es[0].a, es[|es| - 1].b)
  {
    var k := |es| - 1;
    InwardTerm(es[k], o);
    hide Inward, LeftOver;
    AreaOneMore(es);
    if k > 0 {
      AreaFromAnywhere(es[..k], o);
      LeftOverAdds(o, es[0].a, es[k].a, es[k].b);
    } else {
      assert es[..0] == [];
    }
  }

  lemma AreaOneMore(es: seq<Edge>)
    requires es != []
    ensures Area2(es) == Area2(es[..|es| - 1]) + Area2([es[|es| - 1]])
  {
    var x := es[|es| - 1];
    assert [x][..0] == [];
  }

  lemma {:induction false} AreaFromSide(es: seq<Edge>, o: Point, s: real)
    requires (s == 1.0 || s == -1.0) && forall i :: 0 <= i < |es| ==> Inward(es[i], s, o) >= 0.0
    ensures s * AreaFrom(es, o) >= 0.0
    ensures (exists i :: 0 <= i < |es| && Inward(es[i], s, o) > 0.0) ==> s * AreaFrom(es, o) > 0.0
  {
    if es != [] {
      var k := |es| - 1;
      AreaFromSide(es[..k], o, s);
      assert Inward(es[k], s, o) == s * Inward(es[k], 1.0, o);
      hide Inward;
      if i :| 0 <= i < |es| && Inward(es[i], s, o) > 0.0 {
        assert i < k ==> Inward(es[..k][i], s, o) > 0.0;
      }
    }
  }

  /** The side taken for the inside is the inside: where a point sees all edges of the polygon from one side (any vertex of a
      convex polygon does), that is the side the edges are moved to. */
  lemma SideIsInside(poly: seq<Point>, o: Point, s: real)
    requires (s == 1.0 || s == -1.0) && forall i :: 0 <= i < |poly| ==> Inward(Edges(poly)[i], s, o) >= 0.0
    requires exists i :: 0 <= i < |poly| && Inward(Edges(poly)[i], s, o) > 0.0
    ensures Side(poly) == s
  {
    hide Inward, LeftOver;
    var es := Edges(poly);
    AreaFromSide(es, o, s);
    AreaFromAnywhere(es, o);
    assert es[0].a == es[|es| - 1].b;
    LeftOverAdds(o, es[0].a, es[0].a, es[0].a);
  }

  lemma CornerOnFirstLine(l: Line, m: Line)
    ensures OnLine(Corner(l, m), l)
  {
  }

  lemma CornerOnSecondLine(l: Line, m: Line)
    requires !NearlyParallel(l, m)
    ensures OnLine(Corner(l, m), m)
  {
    var num := (m.p.e - l.p.e) * m.dn - (m.p.n - l.p.n) * m.de;
    var t := num / Cross(l, m);
    assert t * Cross(l, m) == num;
    MeetingPoint(l.p.n - m.p.n, l.p.e - m.p.e, l.dn, l.de, m.dn, m.de, t);
  }

  lemma MeetingPoint(pn: real, pe: real, un: real, ue: real, vn: real, ve: real, t: real)
    requires t * (ue * vn - un * ve) == -pe * vn + pn * ve
    ensures (pn + un * t) * ve == (pe + ue * t) * vn
  {
    assert (pn + un * t) * ve == pn * ve + t * (un * ve);
    assert (pe + ue * t) * vn == pe * vn + t * (ue * vn);
    assert t * (ue * vn - un * ve) == t * (ue * vn) - t * (un * ve);
  }

  /** Every point of a shifted line is exactly `d` inside the edge it came from. */
  lemma ShiftedLineIsInset(h: Length, x: Edge, s: real, d: real, q: Point)
    requires IsHypot(h) && EdgeLength(h, x) != 0.0 && (s == 1.0 || s == -1.0)
    requires OnLine(q, Shifted(h, x, s, d))
    ensures Inward(x, s, q) == d * EdgeLength(h, x)
  {
    hide IsHypot, EdgeLength, Shifted, Across;
    var l := Shifted(h, x, s, d);
    var m := ShiftedStart(h, x, s, d);
    InsetAmount(q, x.a, l.p, l.dn, l.de, m, s, EdgeLength(h, x), d);
  }

  lemma ShiftedStart(h: Length, x: Edge, s: real, d: real) returns (m: real)
    requires IsHypot(h) && EdgeLength(h, x) != 0.0
    ensures m * EdgeLength(h, x) == d * s
    ensures (var l, de, dn := Shifted(h, x, s, d), x.b.e - x.a.e, x.b.n - x.a.n;
             && Sq(EdgeLength(h, x)) == Norm2(de, dn) && l.de == de && l.dn == dn
             && l.p.n == x.a.n + de * m && l.p.e == x.a.e + -dn * m)
  {
    var k := d / EdgeLength(h, x);
    m := k * s;
    Regrouped(x.b.e - x.a.e, k, s, EdgeLength(h, x), d);
    Regrouped(-(x.b.n - x.a.n), k, s, EdgeLength(h, x), d);
    assert Sq(h(x.b.e - x.a.e, x.b.n - x.a.n)) == Norm2(x.b.e - x.a.e, x.b.n - x.a.n);
  }

  lemma Regrouped(g: real, k: real, s: real, r: real, d: real)
    requires k * r == d
    ensures g * k * s == g * (k * s) && k * s * r == d * s
  {
  }

  lemma InsetAmount(q: Point, a: Point, p: Point, dn: real, de: real, m: real, s: real, r: real, d: real)
    requires (s == 1.0 || s == -1.0) && m * r == d * s && Sq(r) == Norm2(de, dn)
    requires p.n == a.n + de * m && p.e == a.e + -dn * m
    requires Across(q.n - p.n, q.e - p.e, dn, de) == 0.0
    ensures s * Across(q.n - a.n, q.e - a.e, dn, de) == d * r
  {
    ScaledNormal(q.n - a.n, q.e - a.e, q.n - p.n, q.e - p.e, dn, de, m);
    hide Across, Norm2;
    SignTwice(m, s, r, d);
  }

  lemma SignTwice(m: real, s: real, r: real, d: real)
    requires (s == 1.0 || s == -1.0) && m * r == d * s
    ensures s * Product(m, Sq(r)) == d * r
  {
    assert m * (r * r) == (m * r) * r;
  }

  lemma ScaledNormal(an: real, ae: real, pn: real, pe: real, dn: real, de: real, m: real)
    requires pn == an - de * m && pe == ae - -dn * m && Across(pn, pe, dn, de) == 0.0
    ensures Across(an, ae, dn, de) == Product(m, Norm2(de, dn))
  {
  }

  /** The start of the edge before, shifted, against the edge after. */
  lemma InwardOfShiftedStart(h: Length, x: Edge, y: Edge, s: real, d: real)
    requires IsHypot(h) && EdgeLength(h, x) != 0.0 && x.b == y.a && (s == 1.0 || s == -1.0)
    ensures Inward(y, s, Shifted(h, x, s, d).p) * EdgeLength(h, x)
         == s * Turn(x, y) * EdgeLength(h, x) + d * Inner(x.b.n - x.a.n, x.b.e - x.a.e, y.b.n - y.a.n, y.b.e - y.a.e)
  {
    hide Across, Shifted, Inner, EdgeLength, IsHypot;
    var p, dn, de, vn, ve := Shifted(h, x, s, d).p, x.b.n - x.a.n, x.b.e - x.a.e, y.b.n - y.a.n, y.b.e - y.a.e;
    var m := ShiftedStart(h, x, s, d);
    StartAmount(dn, de, vn, ve, m, p.n - y.a.n, p.e - y.a.e);
    ScaleSum(Turn(x, y), m, Inner(dn, de, vn, ve), EdgeLength(h, x), d, s);
  }

  lemma StartAmount(dn: real, de: real, vn: real, ve: real, m: real, pn: real, pe: real)
    requires pn == de * m - dn && pe == -dn * m - de
    ensures Across(pn, pe, vn, ve) == Across(vn, ve, dn, de) + m * Inner(dn, de, vn, ve)
  {
  }

  lemma ScaleSum(turn: real, m: real, inner: real, r: real, d: real, s: real)
    requires (s == 1.0 || s == -1.0) && m * r == d * s
    ensures s * (turn + m * inner) * r == s * turn * r + d * inner
  {
    assert m * inner * r == (d * s) * inner;
  }

  /** The cross product of two edges' directions, as `shrink` computes it. */
  function Turn(x: Edge, y: Edge): real {
    Across(y.b.n - y.a.n, y.b.e - y.a.e, x.b.n - x.a.n, x.b.e - x.a.e)
  }

  /** Two edges that meet so that even the shifted start of the first lies `d` inside the second: the
    straight continuation, or a turn too slight to be told from one. */
  predicate SlightTurn(h: Length, x: Edge, y: Edge, s: real, d: real) {
    s * Turn(x, y) * EdgeLength(h, x)
    == d * (EdgeLength(h, x) * EdgeLength(h, y) - Inner(x.b.n - x.a.n, x.b.e - x.a.e, y.b.n - y.a.n, y.b.e - y.a.e))
  }

  lemma ParallelCornerInset(h: Length, x: Edge, y: Edge, s: real, d: real)
    requires IsHypot(h) && EdgeLength(h, x) != 0.0 && x.b == y.a && (s == 1.0 || s == -1.0)
    ensures Inward(y, s, Shifted(h, x, s, d).p) == d * EdgeLength(h, y) <==> SlightTurn(h, x, y, s, d)
  {
    hide Inward, Shifted, Turn, Inner, EdgeLength, IsHypot;
    InwardOfShiftedStart(h, x, y, s, d);
    ScaledComparison(Inward(y, s, Shifted(h, x, s, d).p), s * Turn(x, y) * EdgeLength(h, x), d,
                     Inner(x.b.n - x.a.n, x.b.e - x.a.e, y.b.n - y.a.n, y.b.e - y.a.e), EdgeLength(h, x), EdgeLength(h, y));
  }

  lemma ScaledComparison(inward: real, turn: real, d: real, inner: real, size: real, size': real)
    requires size != 0.0 && inward * size == turn + d * inner
    ensures inward == d * size' <==> turn == d * (size * size' - inner)
  {
    assert Product(inward - d * size', size) == inward * size - d * size' * size;
    assert d * (size * size' - inner) == d * size' * size - d * inner;
  }

  /** The corner `c` is `d` inside the first edge's line; it is `d` inside the second's exactly when the
    edges are not taken for parallel, or are a slight turn. */
  predicate InsetBetween(h: Length, x: Edge, y: Edge, s: real, d: real, c: Point) {
    && Inward(x, s, c) == d * EdgeLength(h, x)
    && (Inward(y, s, c) == d * EdgeLength(h, y) <==> Abs(Turn(x, y)) >= PARALLEL || SlightTurn(h, x, y, s, d))
  }

  lemma CrossIsTurn(h: Length, x: Edge, y: Edge, s: real, d: real)
    requires EdgeLength(h, x) != 0.0 && EdgeLength(h, y) != 0.0
    ensures Cross(Shifted(h, x, s, d), Shifted(h, y, s, d)) == Turn(x, y)
  {
  }

  lemma CornerBetween(h: Length, x: Edge, y: Edge, s: real, d: real)
    requires IsHypot(h) && EdgeLength(h, x) != 0.0 && EdgeLength(h, y) != 0.0
    requires x.b == y.a && (s == 1.0 || s == -1.0)
    ensures InsetBetween(h, x, y, s, d, Corner(Shifted(h, x, s, d), Shifted(h, y, s, d)))
  {
    hide Inward, Shifted, Cross, Turn, Corner, SlightTurn, OnLine, EdgeLength, IsHypot;
    var l, m := Shifted(h, x, s, d), Shifted(h, y, s, d);
    CrossIsTurn(h, x, y, s, d);
    CornerOnFirstLine(l, m);
    ShiftedLineIsInset(h, x, s, d, Corner(l, m));
    if NearlyParallel(l, m) {
      CornerOfParallels(l, m);
      ParallelCornerInset(h, x, y, s, d);
    } else {
      CornerOnSecondLine(l, m);
      ShiftedLineIsInset(h, y, s, d, Corner(l, m));
    }
  }

  /** Each moved corner lies as `InsetBetween` says between the edge before its vertex and the one after. */
  lemma CornerIsInset(h: Length, poly: seq<Point>, d: real, i: nat)
    requires IsHypot(h) && i < |poly| && Shrinkable(h, poly)
    ensures InsetBetween(h, Before(poly, i), Edges(poly)[i], Side(poly), d, InsetOf(h, poly, d)[i])
  {
    ShiftedLineAt(h, Edges(poly), Side(poly), d, Previous(|poly|, i));
    ShiftedLineAt(h, Edges(poly), Side(poly), d, i);
    CornerBetween(h, Before(poly, i), Edges(poly)[i], Side(poly), d);
  }

  lemma CornerOfParallels(l: Line, m: Line)
    requires NearlyParallel(l, m)
    ensures Corner(l, m) == l.p
  {
  }

  // ---- Where along the lines: at the vertex's own mitre ----

  /** The edges' lengths multiplied, plus their inner product: zero exactly where the outline turns straight back. */
  function Opening(h: Length, x: Edge, y: Edge): real {
    Product(EdgeLength(h, x), EdgeLength(h, y)) + Inner(x.b.n - x.a.n, x.b.e - x.a.e, y.b.n - y.a.n, y.b.e - y.a.e)
  }

  /** The two edges' inside normals added, up to the sign of the side and the product of the lengths. */
  function NormalsNorth(h: Length, x: Edge, y: Edge): real {
    Product(x.b.e - x.a.e, EdgeLength(h, y)) + Product(y.b.e - y.a.e, EdgeLength(h, x))
  }

  function NormalsEast(h: Length, x: Edge, y: Edge): real {
    -(Product(x.b.n - x.a.n, EdgeLength(h, y)) + Product(y.b.n - y.a.n, EdgeLength(h, x)))
  }

  /** `c` is the mitre point of the vertex between the edges: from the vertex along the sum of their inside normals, to where
    it is `d` inside both. */
  predicate IsMitre(h: Length, x: Edge, y: Edge, s: real, d: real, c: Point) {
    && Opening(h, x, y) > 0.0
    && Product(c.n - y.a.n, Opening(h, x, y)) == Product(d * s, NormalsNorth(h, x, y))
    && Product(c.e - y.a.e, Opening(h, x, y)) == Product(d * s, NormalsEast(h, x, y))
  }

  /** Edges taken for parallel whose shifted start happens to be the mitre point. */
  predicate Coincidence(h: Length, x: Edge, y: Edge, s: real, d: real) {
    Opening(h, x, y) > 0.0 && Product(EdgeLength(h, x), Opening(h, x, y)) == Product(d * s, Turn(x, y))
  }

  lemma LengthSquared(h: Length, x: Edge)
    requires IsHypot(h)
    ensures EdgeLength(h, x) >= 0.0 && Sq(EdgeLength(h, x)) == Norm2(x.b.n - x.a.n, x.b.e - x.a.e)
  {
    assert Sq(h(x.b.e - x.a.e, x.b.n - x.a.n)) == Norm2(x.b.e - x.a.e, x.b.n - x.a.n);
  }

  lemma OpensWhenTurning(h: Length, x: Edge, y: Edge)
    requires IsHypot(h) && Turn(x, y) != 0.0
    ensures Opening(h, x, y) > 0.0
  {
    hide IsHypot, EdgeLength;
    LengthSquared(h, x);
    LengthSquared(h, y);
    LongerThanInner(x.b.n - x.a.n, x.b.e - x.a.e, y.b.n - y.a.n, y.b.e - y.a.e, EdgeLength(h, x), EdgeLength(h, y));
  }

  lemma LongerThanInner(dn: real, de: real, vn: real, ve: real, r: real, t: real)
    requires r >= 0.0 && t >= 0.0 && Sq(r) == Norm2(dn, de) && Sq(t) == Norm2(vn, ve) && Across(vn, ve, dn, de) != 0.0
    ensures Product(r, t) + Inner(dn, de, vn, ve) > 0.0
  {
    var inner := Inner(dn, de, vn, ve);
    LagrangeIdentity(dn, de, vn, ve);
    ProductOfSquares(r, t);
    assert dn * ve - de * vn == -Across(vn, ve, dn, de);
    OppositeSquare(inner);
    NonNegativeProduct(r, t);
    hide Sq, Inner, Across;
    if inner < 0.0 {
      SquareOrder(-inner, r * t);
    }
  }

  /** A point `d` inside both of two edges that turn is the mitre point. */
  lemma InsideBothIsMitre(h: Length, x: Edge, y: Edge, s: real, d: real, c: Point)
    requires IsHypot(h) && x.b == y.a && (s == 1.0 || s == -1.0) && Turn(x, y) != 0.0
    requires Inward(x, s, c) == d * EdgeLength(h, x) && Inward(y, s, c) == d * EdgeLength(h, y)
    ensures IsMitre(h, x, y, s, d, c)
  {
    hide IsHypot, EdgeLength, Inward, Across, Inner, Product, Sq, Norm2;
    OpensWhenTurning(h, x, y);
    LengthSquared(h, x);
    LengthSquared(h, y);
    var dn, de, vn, ve, r, t := x.b.n - x.a.n, x.b.e - x.a.e, y.b.n - y.a.n, y.b.e - y.a.e, EdgeLength(h, x), EdgeLength(h, y);
    var wn, we, open := c.n - y.a.n, c.e - y.a.e, Opening(h, x, y);
    AcrossAmounts(x, y, s, d, c, r, t);
    Solve(dn, de, vn, ve, wn, we, d * s, r, t);
    SpreadNorth(dn, de, vn, ve, r, t, open, NormalsNorth(h, x, y));
    SpreadEast(dn, de, vn, ve, r, t, open, NormalsEast(h, x, y));
    hide Opening, NormalsNorth, NormalsEast, Spread;
    Cancel(wn, open, d * s, Spread(r, vn, t, dn), NormalsNorth(h, x, y), Turn(x, y));
    Cancel(we, open, d * s, Spread(r, ve, t, de), NormalsEast(h, x, y), Turn(x, y));
  }

  lemma AcrossAmounts(x: Edge, y: Edge, s: real, d: real, c: Point, r: real, t: real)
    requires x.b == y.a && (s == 1.0 || s == -1.0) && Inward(x, s, c) == d * r && Inward(y, s, c) == d * t
    ensures Across(c.n - y.a.n, c.e - y.a.e, x.b.n - x.a.n, x.b.e - x.a.e) == Product(d * s, r)
    ensures Across(c.n - y.a.n, c.e - y.a.e, y.b.n - y.a.n, y.b.e - y.a.e) == Product(d * s, t)
  {
    AcrossFromEnd(c.n - x.a.n, c.e - x.a.e, c.n - y.a.n, c.e - y.a.e, x.b.n - x.a.n, x.b.e - x.a.e);
    hide Across;
    SignedAmount(s, Across(c.n - y.a.n, c.e - y.a.e, x.b.n - x.a.n, x.b.e - x.a.e), d, r);
    SignedAmount(s, Across(c.n - y.a.n, c.e - y.a.e, y.b.n - y.a.n, y.b.e - y.a.e), d, t);
  }

  function Spread(r: real, v: real, t: real, d: real): real {
    r * v - t * d
  }

  lemma AcrossFromEnd(an: real, ae: real, bn: real, be: real, dn: real, de: real)
    requires an == bn + dn && ae == be + de
    ensures Across(an, ae, dn, de) == Across(bn, be, dn, de)
  {
  }

  lemma SignedAmount(s: real, across: real, d: real, size: real)
    requires (s == 1.0 || s == -1.0) && s * across == d * size
    ensures across == Product(d * s, size)
  {
  }

  lemma Solve(dn: real, de: real, vn: real, ve: real, wn: real, we: real, k: real, r: real, t: real)
    requires Across(wn, we, dn, de) == Product(k, r) && Across(wn, we, vn, ve) == Product(k, t)
    ensures Product(wn, Across(vn, ve, dn, de)) == Product(k, Spread(r, vn, t, dn))
    ensures Product(we, Across(vn, ve, dn, de)) == Product(k, Spread(r, ve, t, de))
  {
    assert Product(wn, Across(vn, ve, dn, de)) == Product(vn, Across(wn, we, dn, de)) - Product(dn, Across(wn, we, vn, ve));
    assert Product(we, Across(vn, ve, dn, de)) == Product(ve, Across(wn, we, dn, de)) - Product(de, Across(wn, we, vn, ve));
    Factor(vn, dn, k, r, t);
    Factor(ve, de, k, r, t);
  }

  lemma Factor(v: real, d: real, k: real, r: real, t: real)
    ensures Product(v, Product(k, r)) - Product(d, Product(k, t)) == Product(k, Spread(r, v, t, d))
  {
  }

  lemma SpreadNorth(dn: real, de: real, vn: real, ve: real, r: real, t: real, open: real, b: real)
    requires Sq(r) == Norm2(dn, de) && Sq(t) == Norm2(vn, ve)
    requires open == Product(r, t) + Inner(dn, de, vn, ve) && b == Product(de, t) + Product(ve, r)
    ensures Product(Spread(r, vn, t, dn), open) == Product(b, Across(vn, ve, dn, de))
  {
    SpreadProduct(dn, de, vn, ve, r, t);
    hide Product, Spread, Inner, Across, Sq, Norm2;
  }

  lemma SpreadProduct(dn: real, de: real, vn: real, ve: real, r: real, t: real)
    requires Sq(r) == Norm2(dn, de) && Sq(t) == Norm2(vn, ve)
    ensures Product(Spread(r, vn, t, dn), Product(r, t) + Inner(dn, de, vn, ve))
         == Product(Product(de, t) + Product(ve, r), Across(vn, ve, dn, de))
  {
    Gap(dn, de, vn, ve);
    OtherGap(dn, de, vn, ve);
    hide Inner, Across, Norm2;
    SpreadTerms(dn, de, vn, ve, r, t, Inner(dn, de, vn, ve), Across(vn, ve, dn, de));
  }

  lemma OtherGap(dn: real, de: real, vn: real, ve: real)
    ensures Product(vn, Inner(dn, de, vn, ve)) - Product(dn, Norm2(vn, ve)) == Product(ve, Across(vn, ve, dn, de))
  {
  }

  lemma SpreadTerms(dn: real, de: real, vn: real, ve: real, r: real, t: real, inner: real, turn: real)
    requires Product(-dn, inner) - Product(-vn, Sq(r)) == Product(de, turn)
    requires Product(vn, inner) - Product(dn, Sq(t)) == Product(ve, turn)
    ensures Product(Spread(r, vn, t, dn), Product(r, t) + inner) == Product(Product(de, t) + Product(ve, r), turn)
  {
    SpreadOpened(vn, dn, r, t, inner);
    Times(t, Product(-dn, inner), Product(-vn, Sq(r)), Product(de, turn));
    Times(r, Product(vn, inner), Product(dn, Sq(t)), Product(ve, turn));
    assert Product(Product(de, t) + Product(ve, r), turn) == t * Product(de, turn) + r * Product(ve, turn);
    hide Product, Sq;
  }

  lemma SpreadOpened(vn: real, dn: real, r: real, t: real, inner: real)
    ensures Product(Spread(r, vn, t, dn), Product(r, t) + inner)
         == t * Product(-dn, inner) - t * Product(-vn, Sq(r)) + r * Product(vn, inner) - r * Product(dn, Sq(t))
  {
    assert (r * vn - t * dn) * (r * t) == t * (vn * (r * r)) - r * (dn * (t * t));
    assert (r * vn - t * dn) * inner == r * (vn * inner) - t * (dn * inner);
  }

  lemma Times(t: real, a: real, b: real, c: real)
    requires a - b == c
    ensures t * a - t * b == t * c
  {
  }

  lemma SpreadEast(dn: real, de: real, vn: real, ve: real, r: real, t: real, open: real, b: real)
    requires Sq(r) == Norm2(dn, de) && Sq(t) == Norm2(vn, ve)
    requires open == Product(r, t) + Inner(dn, de, vn, ve) && b == -(Product(dn, t) + Product(vn, r))
    ensures Product(Spread(r, ve, t, de), open) == Product(b, Across(vn, ve, dn, de))
  {
    Rotated(dn, de, vn, ve, r, t);
    SpreadProduct(de, -dn, ve, -vn, r, t);
    hide Product, Spread, Inner, Across, Sq, Norm2;
  }

  /** Turning both edges by a right angle changes neither their lengths nor the angle between them. */
  lemma Rotated(dn: real, de: real, vn: real, ve: real, r: real, t: real)
    ensures Norm2(de, -dn) == Norm2(dn, de) && Norm2(ve, -vn) == Norm2(vn, ve)
    ensures Inner(de, -dn, ve, -vn) == Inner(dn, de, vn, ve) && Across(ve, -vn, de, -dn) == Across(vn, ve, dn, de)
    ensures Product(-dn, t) + Product(-vn, r) == -(Product(dn, t) + Product(vn, r))
  {
    OppositeSquare(dn);
    OppositeSquare(vn);
  }

  /** From the product with a factor that is not zero to the product itself. */
  lemma Cancel(w: real, open: real, k: real, a: real, b: real, turn: real)
    requires turn != 0.0 && Product(w, turn) == Product(k, a) && Product(a, open) == Product(b, turn)
    ensures Product(w, open) == Product(k, b)
  {
    assert (w * turn) * open == (k * a) * open == k * (a * open) == k * (b * turn);
    assert Product(w * open - k * b, turn) == (w * turn) * open - k * (b * turn);
  }

  /** Where the shifted start of the first edge lies, seen from the edge's end. */
  lemma StartFromVertex(h: Length, x: Edge, s: real, d: real)
    requires IsHypot(h) && EdgeLength(h, x) != 0.0 && (s == 1.0 || s == -1.0)
    ensures (var p, dn, de, r := Shifted(h, x, s, d).p, x.b.n - x.a.n, x.b.e - x.a.e, EdgeLength(h, x);
             && Product(r, p.n - x.b.n) == Product(de, d * s) - Product(dn, r)
             && Product(r, p.e - x.b.e) == Product(-dn, d * s) - Product(de, r)
             && Dist2(p, x.b) == Sq(d) + Sq(r))
  {
    hide IsHypot, EdgeLength, Shifted, Product, Sq;
    var p, dn, de, r := Shifted(h, x, s, d).p, x.b.n - x.a.n, x.b.e - x.a.e, EdgeLength(h, x);
    var m := ShiftedStart(h, x, s, d);
    StartOnAxis(dn, de, m, s, r, d, p.n - x.b.n);
    StartOnAxis(de, -dn, m, s, r, d, p.e - x.b.e);
    RotatedSum(dn, de, m, s, r, d, p.n - x.b.n, p.e - x.b.e);
  }

  lemma StartOnAxis(c: real, g: real, m: real, s: real, r: real, d: real, w: real)
    requires m * r == d * s && w == g * m - c
    ensures Product(r, w) == Product(g, d * s) - Product(c, r)
  {
    assert r * (g * m) == g * (m * r);
  }

  lemma RotatedSum(dn: real, de: real, m: real, s: real, r: real, d: real, wn: real, we: real)
    requires (s == 1.0 || s == -1.0) && m * r == d * s && Sq(r) == Norm2(de, dn)
    requires wn == de * m - dn && we == -dn * m - de
    ensures Norm2(wn, we) == Sq(d) + Sq(r)
  {
    hide Norm2, Sq, Product;
    SquareOut(dn, de, m, wn, we);
    ProductOfSquares(m, r);
    SignedSquare(d, s);
  }

  lemma SignedSquare(d: real, s: real)
    requires s == 1.0 || s == -1.0
    ensures Sq(d * s) == Sq(d)
  {
  }

  lemma SquareOut(dn: real, de: real, m: real, wn: real, we: real)
    requires wn == de * m - dn && we == -dn * m - de
    ensures Norm2(wn, we) == Product(Sq(m), Norm2(de, dn)) + Norm2(de, dn)
  {
    hide Sq, Product;
    CrossTerms(dn, de, m);
    TwoSquares(de * m, dn * m, dn, de, wn, we);
    ScaledSquare(de, m, de * m);
    ScaledSquare(dn, m, dn * m);
    Distribute(Sq(m), Sq(de), Sq(dn));
  }

  lemma CrossTerms(dn: real, de: real, m: real)
    ensures de * m * dn == dn * m * de && -dn * m == -(dn * m)
  {
  }

  lemma TwoSquares(a: real, b: real, dn: real, de: real, wn: real, we: real)
    requires a * dn == b * de && wn == a - dn && we == -b - de
    ensures Norm2(wn, we) == Sq(a) + Sq(b) + Norm2(de, dn)
  {
    assert Sq(a - dn) == Sq(a) - 2.0 * (a * dn) + Sq(dn);
    assert Sq(-b - de) == Sq(b) + 2.0 * (b * de) + Sq(de);
  }

  /** What keeps the shifted start from the mitre point. */
  lemma NormalGap(dn: real, de: real, vn: real, ve: real, r: real, t: real, open: real, north: real, east: real)
    requires Sq(r) == Norm2(dn, de) && open == Product(r, t) + Inner(dn, de, vn, ve)
    requires north == Product(de, t) + Product(ve, r) && east == -(Product(dn, t) + Product(vn, r))
    ensures Product(de, open) - Product(r, north) == Product(dn, Across(vn, ve, dn, de))
    ensures Product(-dn, open) - Product(r, east) == Product(de, Across(vn, ve, dn, de))
  {
    hide Inner, Across, Norm2, Product, Sq;
    Gap(dn, de, vn, ve);
    OneGap(de, ve, r, t, Inner(dn, de, vn, ve), open, north);
    OppositeProduct(dn, t);
    OppositeProduct(vn, r);
    OneGap(-dn, -vn, r, t, Inner(dn, de, vn, ve), open, east);
  }

  lemma Gap(dn: real, de: real, vn: real, ve: real)
    ensures Product(de, Inner(dn, de, vn, ve)) - Product(ve, Norm2(dn, de)) == Product(dn, Across(vn, ve, dn, de))
    ensures Product(-dn, Inner(dn, de, vn, ve)) - Product(-vn, Norm2(dn, de)) == Product(de, Across(vn, ve, dn, de))
  {
  }

  lemma OppositeProduct(x: real, y: real)
    ensures Product(-x, y) == -Product(x, y)
  {
  }

  lemma OneGap(g: real, v: real, r: real, t: real, inner: real, open: real, normal: real)
    requires open == Product(r, t) + inner && normal == Product(g, t) + Product(v, r)
    ensures Product(g, open) - Product(r, normal) == Product(g, inner) - Product(v, Sq(r))
  {
    assert g * open == g * (r * t) + g * inner;
    assert r * normal == g * (r * t) + v * (r * r);
  }

  lemma AxisGap(r: real, w: real, c: real, g: real, q: real, open: real, normal: real, turn: real)
    requires Product(r, w) == Product(g, q) - Product(c, r)
    requires Product(g, open) - Product(r, normal) == Product(c, turn)
    ensures Product(r, Product(w, open) - Product(q, normal)) == Product(c, Product(q, turn) - Product(r, open))
  {
    assert r * (w * open) == (r * w) * open == (g * q) * open - (c * r) * open;
    assert q * (g * open - r * normal) == q * (c * turn);
  }

  /** Of two edges taken for parallel, the shifted start of the first is the mitre point only by coincidence. */
  lemma StartIsMitreExactly(h: Length, x: Edge, y: Edge, s: real, d: real)
    requires IsHypot(h) && EdgeLength(h, x) != 0.0 && x.b == y.a && (s == 1.0 || s == -1.0)
    ensures IsMitre(h, x, y, s, d, Shifted(h, x, s, d).p) <==> Coincidence(h, x, y, s, d)
  {
    hide IsHypot, EdgeLength, Shifted, Across, Inner, Product, Sq, Norm2;
    var p, dn, de, r := Shifted(h, x, s, d).p, x.b.n - x.a.n, x.b.e - x.a.e, EdgeLength(h, x);
    var open, north, east, turn := Opening(h, x, y), NormalsNorth(h, x, y), NormalsEast(h, x, y), Turn(x, y);
    StartFromVertex(h, x, s, d);
    LengthSquared(h, x);
    NormalGap(dn, de, y.b.n - y.a.n, y.b.e - y.a.e, r, EdgeLength(h, y), open, north, east);
    hide Opening, NormalsNorth, NormalsEast, Turn;
    AxisGap(r, p.n - x.b.n, dn, de, d * s, open, north, turn);
    AxisGap(r, p.e - x.b.e, de, -dn, d * s, open, east, turn);
  }

  /** The moved corner of a vertex is the vertex's mitre point exactly if the outline turns there by more than counts as
    parallel, or by that coincidence. */
  lemma CornerAtMitreExactly(h: Length, poly: seq<Point>, d: real, i: nat)
    requires IsHypot(h) && i < |poly| && Shrinkable(h, poly)
    ensures (var x, y := Before(poly, i), Edges(poly)[i];
             IsMitre(h, x, y, Side(poly), d, InsetOf(h, poly, d)[i])
             <==> Abs(Turn(x, y)) >= PARALLEL || Coincidence(h, x, y, Side(poly), d))
  {
    hide IsHypot, EdgeLength, Shifted, IsMitre, Coincidence, Turn, Cross, SlightTurn, Inward, Side;
    var x, y, s := Before(poly, i), Edges(poly)[i], Side(poly);
    ShiftedLineAt(h, Edges(poly), s, d, Previous(|poly|, i));
    ShiftedLineAt(h, Edges(poly), s, d, i);
    CrossIsTurn(h, x, y, s, d);
    CornerIsInset(h, poly, d, i);
    if Abs(Turn(x, y)) >= PARALLEL {
      InsideBothIsMitre(h, x, y, s, d, InsetOf(h, poly, d)[i]);
    } else {
      CornerOfParallels(Shifted(h, x, s, d), Shifted(h, y, s, d));
      StartIsMitreExactly(h, x, y, s, d);
    }
  }

  /** The mitre point's distance from the vertex. */
  lemma MitreDistance(h: Length, x: Edge, y: Edge, s: real, d: real, c: Point)
    requires IsHypot(h) && (s == 1.0 || s == -1.0) && IsMitre(h, x, y, s, d, c)
    ensures Dist2(c, y.a) * Opening(h, x, y) == 2.0 * Sq(d) * Product(EdgeLength(h, x), EdgeLength(h, y))
  {
    hide IsHypot, EdgeLength, Inner, Product, Sq;
    LengthSquared(h, x);
    LengthSquared(h, y);
    var open, north, east, r, t := Opening(h, x, y), NormalsNorth(h, x, y), NormalsEast(h, x, y), EdgeLength(h, x), EdgeLength(h, y);
    SumOfNormals(x.b.n - x.a.n, x.b.e - x.a.e, y.b.n - y.a.n, y.b.e - y.a.e, r, t, open, north, east);
    hide Opening, NormalsNorth, NormalsEast;
    MitreSquares(c.n - y.a.n, c.e - y.a.e, open, d, s, north, east, Product(r, t));
  }

  lemma SumOfNormals(dn: real, de: real, vn: real, ve: real, r: real, t: real, open: real, north: real, east: real)
    requires Sq(r) == Norm2(dn, de) && Sq(t) == Norm2(vn, ve) && open == Product(r, t) + Inner(dn, de, vn, ve)
    requires north == Product(de, t) + Product(ve, r) && east == -(Product(dn, t) + Product(vn, r))
    ensures Norm2(north, east) == 2.0 * Product(r, t) * open
  {
    OneNormal(de, ve, r, t);
    OneNormal(dn, vn, r, t);
    OppositeSquare(Product(dn, t) + Product(vn, r));
    Distribute(Sq(t), Sq(dn), Sq(de));
    Distribute(Sq(r), Sq(vn), Sq(ve));
    SumOfParts(Product(r, t), Inner(dn, de, vn, ve), dn * vn, de * ve, open);
    ProductOfSquares(r, t);
    assert Product(Sq(t), Sq(r)) == Product(Sq(r), Sq(t)) == Sq(Product(r, t));
    hide Sq, Product;
  }

  lemma OneNormal(g: real, v: real, r: real, t: real)
    ensures Sq(Product(g, t) + Product(v, r)) == Product(Sq(t), Sq(g)) + 2.0 * Product(Product(r, t), g * v) + Product(Sq(r), Sq(v))
  {
    SquareOfSum(g * t, v * r);
    ProductOfSquares(g, t);
    ProductOfSquares(v, r);
    assert (g * t) * (v * r) == (r * t) * (g * v);
  }

  lemma SumOfParts(area: real, inner: real, a: real, b: real, open: real)
    requires open == area + inner && inner == a + b
    ensures 2.0 * area * open == 2.0 * Sq(area) + 2.0 * Product(area, a) + 2.0 * Product(area, b)
  {
  }

  lemma MitreSquares(wn: real, we: real, open: real, d: real, s: real, north: real, east: real, area: real)
    requires open > 0.0 && (s == 1.0 || s == -1.0) && Norm2(north, east) == 2.0 * area * open
    requires Product(wn, open) == Product(d * s, north) && Product(we, open) == Product(d * s, east)
    ensures Norm2(wn, we) * open == 2.0 * Sq(d) * area
  {
    SameSquares(wn, open, d * s, north);
    SameSquares(we, open, d * s, east);
    Distribute(Sq(open), Sq(wn), Sq(we));
    Distribute(Sq(d * s), Sq(north), Sq(east));
    SignedSquare(d, s);
    CancelOpening(Norm2(wn, we), open, Sq(d), area);
  }

  lemma SameSquares(w: real, open: real, q: real, normal: real)
    requires Product(w, open) == Product(q, normal)
    ensures Product(Sq(open), Sq(w)) == Product(Sq(q), Sq(normal))
  {
    ProductOfSquares(w, open);
    ProductOfSquares(q, normal);
  }

  lemma CancelOpening(norm: real, open: real, square: real, area: real)
    requires open > 0.0 && Product(Sq(open), norm) == Product(square, 2.0 * area * open)
    ensures norm * open == 2.0 * square * area
  {
    assert Product(norm * open - 2.0 * square * area, open) == norm * open * open - 2.0 * square * area * open;
  }

  /** Where the edges count as parallel, the moved corner is not near its own vertex but at the vertex before, shifted; where
    they are parallel, so that the outline runs straight on or back, that is never the mitre point. */
  lemma StraightVertexMovesBack(h: Length, poly: seq<Point>, d: real, i: nat)
    requires IsHypot(h) && i < |poly| && Shrinkable(h, poly)
    requires Abs(Turn(Before(poly, i), Edges(poly)[i])) < PARALLEL
    ensures (var x, y, c := Before(poly, i), Edges(poly)[i], InsetOf(h, poly, d)[i];
             && c == Shifted(h, x, Side(poly), d).p
             && Dist2(c, poly[i]) == Sq(d) + Sq(EdgeLength(h, x))
             && (Turn(x, y) == 0.0 ==> !IsMitre(h, x, y, Side(poly), d, c)))
  {
    hide IsHypot, EdgeLength, Shifted, IsMitre, Turn, Cross, Opening, Side, Product, Sq;
    var x, y, s := Before(poly, i), Edges(poly)[i], Side(poly);
    ShiftedLineAt(h, Edges(poly), s, d, Previous(|poly|, i));
    ShiftedLineAt(h, Edges(poly), s, d, i);
    CrossIsTurn(h, x, y, s, d);
    CornerOfParallels(Shifted(h, x, s, d), Shifted(h, y, s, d));
    StartFromVertex(h, x, s, d);
    CornerAtMitreExactly(h, poly, d, i);
    LengthSquared(h, x);
  }

  /** A vertex on a straight stretch: its moved corner is the shifted start of that stretch, which can lie
    on the fence itself. Here it lands on the neighbouring edge, for every inset below 100 m. */
  lemma StraightVertexOntoFence(h: Length, d: real)
    requires IsHypot(h) && 0.0 < d < 100.0
    ensures (var poly := [Point(0.0, 0.0), Point(0.0, 50.0), Point(0.0, 100.0), Point(100.0, 100.0), Point(100.0, 0.0)];
             && Shrinkable(h, poly)
             && InsetOf(h, poly, d)[1] == Point(d, 0.0)
             && OnEdge(InsetOf(h, poly, d)[1], Edges(poly)[4]))
  {
    var poly := [Point(0.0, 0.0), Point(0.0, 50.0), Point(0.0, 100.0), Point(100.0, 100.0), Point(100.0, 0.0)];
    var es := Edges(poly);
    assert es == [Edge(poly[0], poly[1]), Edge(poly[1], poly[2]), Edge(poly[2], poly[3]), Edge(poly[3], poly[4]), Edge(poly[4], poly[0])];
    forall i | 0 <= i < |poly|
      ensures EdgeLength(h, es[i]) != 0.0
    {
      LengthPositive(h, es[i]);
    }
    SquareArea(poly, es);
    LengthAlongNorth(h, 50.0);
    ShiftedLineAt(h, es, 1.0, d, 0);
    ShiftedLineAt(h, es, 1.0, d, 1);
    var l, m := Shifted(h, es[0], 1.0, d), Shifted(h, es[1], 1.0, d);
    assert l.p == Point(d, 0.0);
    CornerOfParallels(l, m);
    assert Along(es[4].a, es[4].b, (100.0 - d) / 100.0) == Point(d, 0.0);
  }

  lemma SquareArea(poly: seq<Point>, es: seq<Edge>)
    requires poly == [Point(0.0, 0.0), Point(0.0, 50.0), Point(0.0, 100.0), Point(100.0, 100.0), Point(100.0, 0.0)]
    requires es == Edges(poly)
    ensures Side(poly) == 1.0
  {
    assert es[..1][..0] == [] && es[..2][..1] == es[..1] && es[..3][..2] == es[..2] && es[..4][..3] == es[..3];
    assert Area2(es[..1]) == 0.0;
    assert Area2(es[..2]) == 0.0;
    assert Area2(es[..3]) == 10000.0;
    assert Area2(es[..4]) == 20000.0;
  }
}
