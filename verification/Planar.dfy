/** Points in local north/east meters, and what is assumed of `hypot`.

  Real square roots cannot be computed here, so every member that needs a length takes the
  length function as an argument and requires `IsHypot` of it: non-negative, with the right square. */
module Planar {

  datatype Point = Point(n: real, e: real)

  datatype Edge = Edge(a: Point, b: Point)

  datatype Option<+T> = None | Some(value: T)

  datatype Result<+T, +E> = Ok(value: T) | Err(error: E) {
    predicate IsFailure() {
      Err?
    }

    function PropagateFailure<U>(): Result<U, E>
      requires Err?
    {
      Err(error)
    }

    function Extract(): T
      requires Ok?
    {
      value
    }
  }

  type Length = (real, real) -> real

  /** A product whose sign is known by name. */
  function Product(x: real, y: real): (r: real)
    ensures r > 0.0 <==> (x > 0.0 && y > 0.0) || (x < 0.0 && y < 0.0)
    ensures r == 0.0 <==> x == 0.0 || y == 0.0
  {
    x * y
  }

  function Sq(x: real): (r: real)
    ensures r >= 0.0
    ensures r == 0.0 <==> x == 0.0
  {
    Product(x, x)
  }

  /** Squared length of a vector. */
  function Norm2(x: real, y: real): (r: real)
    ensures r >= 0.0
    ensures r == 0.0 <==> x == 0.0 && y == 0.0
  {
    Sq(x) + Sq(y)
  }

  /** Inner product of two vectors. */
  function Inner(x: real, y: real, x': real, y': real): real {
    x * x' + y * y'
  }

  ghost predicate IsHypot(h: Length) {
    forall x: real, y: real {:trigger Sq(h(x, y))} :: h(x, y) >= 0.0 && Sq(h(x, y)) == Norm2(x, y)
  }

  /** Squared distance. */
  function Dist2(p: Point, q: Point): real {
    Norm2(p.n - q.n, p.e - q.e)
  }

  /** `math.hypot` of the difference of two points. */
  function Dist(h: Length, p: Point, q: Point): real {
    h(p.n - q.n, p.e - q.e)
  }

  /** The point a fraction `t` of the way from `a` to `b`. */
  function Along(a: Point, b: Point, t: real): Point {
    Point(a.n + (b.n - a.n) * t, a.e + (b.e - a.e) * t)
  }

  /** One coordinate after `i` of `k` steps. */
  function Stepped(a: real, b: real, i: real, k: real): real
    requires k != 0.0
  {
    a + (b - a) * i / k
  }

  /** The edge's point after `i` of `k` steps. */
  function StepPoint(x: Edge, i: real, k: real): Point
    requires k != 0.0
  {
    Point(Stepped(x.a.n, x.b.n, i, k), Stepped(x.a.e, x.b.e, i, k))
  }

  /** The closed polygon's edges: each vertex to the next, the last back to the first. */
  function Edges(poly: seq<Point>): (es: seq<Edge>)
    ensures |es| == |poly|
  {
    seq(|poly|, i requires 0 <= i < |poly| => Edge(poly[i], poly[if i + 1 == |poly| then 0 else i + 1]))
  }

  /** What `hypot` gives for the distance of two points. */
  lemma DistSquared(h: Length, p: Point, q: Point)
    requires IsHypot(h)
    ensures Dist(h, p, q) >= 0.0
    ensures Sq(Dist(h, p, q)) == Dist2(p, q)
  {
  }

  lemma OppositeSquare(x: real)
    ensures Sq(-x) == Sq(x)
  {
  }

  lemma Dist2Symmetric(p: Point, q: Point)
    ensures Dist2(p, q) == Dist2(q, p)
  {
    OppositeSquare(p.n - q.n);
    OppositeSquare(p.e - q.e);
  }

  lemma DistSymmetric(h: Length, p: Point, q: Point)
    requires IsHypot(h)
    ensures Dist(h, p, q) == Dist(h, q, p)
  {
    DistSquared(h, p, q);
    DistSquared(h, q, p);
    Dist2Symmetric(p, q);
    SquareOrder(Dist(h, p, q), Dist(h, q, p));
    SquareOrder(Dist(h, q, p), Dist(h, p, q));
  }

  /** Non-negative numbers compare like their squares. */
  lemma SquareOrder(x: real, y: real)
    requires x >= 0.0 && y >= 0.0
    ensures x <= y <==> Sq(x) <= Sq(y)
    ensures x < y <==> Sq(x) < Sq(y)
  {
    assert Product(y - x, y + x) == Sq(y) - Sq(x);
  }

  lemma HypotZero(h: Length, x: real, y: real)
    requires IsHypot(h)
    ensures h(x, y) == 0.0 <==> x == 0.0 && y == 0.0
  {
    assert Sq(h(x, y)) == Norm2(x, y);
  }

  lemma LengthAlongNorth(h: Length, x: real)
    requires IsHypot(h) && x >= 0.0
    ensures h(x, 0.0) == x
  {
    assert Sq(h(x, 0.0)) == Norm2(x, 0.0) == Sq(x);
    SquareOrder(h(x, 0.0), x);
    SquareOrder(x, h(x, 0.0));
  }

  lemma FractionOf(d: real, i: real, k: real)
    requires k != 0.0
    ensures d * i / k == d * (i / k)
  {
  }

  lemma ScaledSquare(d: real, r: real, m: real)
    requires m == d * r
    ensures Sq(m) == Product(Sq(r), Sq(d))
  {
  }

  lemma Distribute(x: real, y: real, z: real)
    ensures Product(x, y + z) == Product(x, y) + Product(x, z)
  {
  }

  lemma StepPointOnLeg(x: Edge, i: real, k: real)
    requires k != 0.0
    ensures StepPoint(x, i, k) == Along(x.a, x.b, i / k)
  {
    FractionOf(x.b.n - x.a.n, i, k);
    FractionOf(x.b.e - x.a.e, i, k);
  }

  /** One step along an edge covers the edge's length divided by the number of steps. */
  lemma StepCovers(x: Edge, i: real, k: real)
    requires k > 0.0
    ensures Dist2(StepPoint(x, i, k), StepPoint(x, i + 1.0, k)) == Product(Sq(1.0 / k), Dist2(x.b, x.a))
  {
    hide Sq, Product, Stepped;
    StepOnOneAxis(x.a.n, x.b.n, i, k);
    StepOnOneAxis(x.a.e, x.b.e, i, k);
    Distribute(Sq(1.0 / k), Sq(x.b.n - x.a.n), Sq(x.b.e - x.a.e));
  }

  lemma StepOnOneAxis(a: real, b: real, i: real, k: real)
    requires k > 0.0
    ensures Sq(Stepped(a, b, i, k) - Stepped(a, b, i + 1.0, k)) == Product(Sq(1.0 / k), Sq(b - a))
  {
    hide Product, Sq;
    var d, step := b - a, 1.0 / k;
    FractionOf(d, i, k);
    FractionOf(d, i + 1.0, k);
    assert (i + 1.0) / k == i / k + step;
    StepOf(d, i / k, step);
    ScaledSquare(d, step, d * step);
    OppositeSquare(d * step);
    assert Stepped(a, b, i, k) - Stepped(a, b, i + 1.0, k) == -(d * step);
  }

  lemma StepOf(d: real, s: real, step: real)
    ensures d * s - d * (s + step) == -(d * step)
  {
  }

  /** The step nearest to a fraction of the way. */
  function NearestStep(n: nat, t: real): (k: nat)
    requires n >= 1 && 0.0 <= t <= 1.0
    ensures k <= n
    ensures -0.5 <= t * n as real - k as real <= 0.5
  {
    var k := (t * n as real + 0.5).Floor;
    assert t * n as real <= n as real;
    k
  }

  lemma Dist2OnLeg(a: Point, b: Point, s: real, t: real)
    ensures Dist2(Along(a, b, s), Along(a, b, t)) == Product(Sq(s - t), Dist2(b, a))
  {
    ScaledSquare(b.n - a.n, s - t, Along(a, b, s).n - Along(a, b, t).n);
    ScaledSquare(b.e - a.e, s - t, Along(a, b, s).e - Along(a, b, t).e);
    Distribute(Sq(s - t), Sq(b.n - a.n), Sq(b.e - a.e));
  }

  lemma NonNegativeProduct(x: real, y: real)
    requires x >= 0.0 && y >= 0.0
    ensures x * y >= 0.0
  {
  }

  // ---- Lengths and inner products ----

  lemma InnerBoundByLengths(xn: real, xe: real, pn: real, pe: real, r: real, s: real)
    requires r >= 0.0 && s >= 0.0 && Sq(r) == Norm2(xn, xe) && Sq(s) == Norm2(pn, pe)
    ensures Inner(xn, xe, pn, pe) <= r * s
  {
    var inner := Inner(xn, xe, pn, pe);
    LagrangeIdentity(xn, xe, pn, pe);
    ProductOfSquares(r, s);
    assert Sq(inner) <= Sq(r * s);
    assert Product(r, s) >= 0.0;
    if inner > 0.0 {
      SquareOrder(inner, r * s);
    }
  }

  lemma LagrangeIdentity(xn: real, xe: real, pn: real, pe: real)
    ensures Product(Norm2(xn, xe), Norm2(pn, pe)) == Sq(Inner(xn, xe, pn, pe)) + Sq(xn * pe - xe * pn)
  {
    var a, b, c, d := xn * pn, xe * pe, xn * pe, xe * pn;
    FourProducts(Sq(xn), Sq(xe), Sq(pn), Sq(pe));
    ProductOfSquares(xn, pn);
    ProductOfSquares(xe, pe);
    ProductOfSquares(xn, pe);
    ProductOfSquares(xe, pn);
    SquareOfSum(a, b);
    SquareOfSum(c, -d);
    OppositeSquare(d);
    hide Sq, Product;
    assert a * b == c * d == -(c * -d);
  }

  lemma FourProducts(a: real, b: real, c: real, d: real)
    ensures Product(a + b, c + d) == Product(a, c) + Product(b, d) + Product(a, d) + Product(b, c)
  {
  }

  lemma ProductOfSquares(r: real, s: real)
    ensures Sq(r * s) == Product(Sq(r), Sq(s))
  {
  }

  lemma SquareOfSum(x: real, y: real)
    ensures Sq(x + y) == Sq(x) + 2.0 * (x * y) + Sq(y)
  {
  }

  lemma TriangleStep(n: real, e: real, dn: real, de: real, r: real, m: real, s: real)
    requires r >= 0.0 && m >= 0.0 && s >= 0.0
    requires Sq(r) == Norm2(n, e) && Sq(m) == Norm2(dn, de) && Sq(s) == Norm2(n + dn, e + de)
    requires Inner(n, e, dn, de) <= r * m
    ensures s <= r + m
  {
    SquareOfSum(n, dn);
    SquareOfSum(e, de);
    SquareOfSum(r, m);
    SquareOrder(s, r + m);
  }

  lemma SmallSquare(x: real, bound: real)
    requires -bound <= x <= bound
    ensures Sq(x) <= Sq(bound)
  {
    assert Product(bound - x, bound + x) >= 0.0;
    assert Product(bound - x, bound + x) == bound * bound - x * x;
  }

  /** The triangle inequality, for lengths known by their squares. */
  lemma TriangleBySquares(un: real, ue: real, vn: real, ve: real, r: real, m: real, wn: real, we: real, s: real)
    requires r >= 0.0 && m >= 0.0 && s >= 0.0
    requires Sq(r) == Norm2(un, ue) && Sq(m) == Norm2(vn, ve) && Sq(s) == Norm2(wn, we)
    requires wn == un + vn && we == ue + ve
    ensures s <= r + m
  {
    InnerBoundByLengths(un, ue, vn, ve, r, m);
    TriangleStep(un, ue, vn, ve, r, m, s);
  }
}
