/** Photo stops along the inset fence line (`stops` in `plugins/perimeter/service.py`). */
module Stops {
  import opened Planar
  import opened PointInPolygon
  import opened Rounding
  import Inset

  datatype SiteFence = SiteFence(inclusion: seq<Point>, radius: Option<real>, exclusions: seq<seq<Point>>)

  datatype StopsError = DivisionByZero

  /** The radius the drone is kept in: 10^9 m when it is unknown or zero. */
  function Reach(radius: Option<real>): real {
    if radius.None? || radius.value == 0.0 then 1000000000.0 else radius.value
  }

  /** The limit the stops are clamped to: 10 m less. */
  function Limit(radius: Option<real>): real {
    Reach(radius) - 10.0
  }

  /** Rounded up, at least 1. */
  function StopCount(length: real, spacing: real): (k: nat)
    requires spacing > 0.0
    ensures k >= 1
  {
    var k := Ceil(length / spacing);
    if k >= 1 then k else 1
  }

  function Ceil(x: real): (k: int)
    ensures k as real - 1.0 < x <= k as real
  {
    -((-x).Floor)
  }

  function SideLength(h: Length, x: Edge): real {
    h(x.b.n - x.a.n, x.b.e - x.a.e)
  }

  /** The stops of one side, its far end left to the next side. */
  function SideStops(h: Length, x: Edge, spacing: real): (s: seq<Point>)
    requires spacing > 0.0
    ensures |s| == StopCount(SideLength(h, x), spacing)
  {
    var k := StopCount(SideLength(h, x), spacing);
    seq(k, i requires 0 <= i < k => StepPoint(x, i as real, k as real))
  }

  function AllSides(h: Length, es: seq<Edge>, spacing: real): (sides: seq<seq<Point>>)
    requires spacing > 0.0
    ensures |sides| == |es|
  {
    seq(|es|, j requires 0 <= j < |es| => SideStops(h, es[j], spacing))
  }

  function Flatten<T>(lists: seq<seq<T>>): seq<T> {
    if lists == [] then [] else Flatten(lists[..|lists| - 1]) + lists[|lists| - 1]
  }

  /** All stops of the line, before clamping, dropping and rounding. */
  function LineStops(h: Length, es: seq<Edge>, spacing: real): seq<Point>
    requires spacing > 0.0
  {
    Flatten(AllSides(h, es, spacing))
  }

  function Radius(h: Length, p: Point): real {
    h(p.n, p.e)
  }

  /** Pulled towards home onto the limit, if beyond it. */
  function Clamp(h: Length, limit: real, p: Point): Point
    requires limit >= 0.0 || Radius(h, p) != 0.0
  {
    var r := Radius(h, p);
    if r > limit then Point(p.n * limit / r, p.e * limit / r) else p
  }

  predicate InNoFlyArea(p: Point, exclusions: seq<seq<Point>>) {
    exists i :: 0 <= i < |exclusions| && InsideByEast(p, exclusions[i])
  }

  /** The clamping divides by the distance from home. */
  predicate Clampable(h: Length, limit: real, p: Point) {
    limit >= 0.0 || Radius(h, p) != 0.0
  }

  /** What becomes of one stop: clamped, dropped in a no-fly area, else rounded. */
  function Keep(h: Length, limit: real, exclusions: seq<seq<Point>>, p: Point): (kept: seq<Point>)
    requires Clampable(h, limit, p)
    ensures |kept| <= 1
  {
    var q := Clamp(h, limit, p);
    if InNoFlyArea(q, exclusions) then [] else [RoundPoint(q)]
  }

  ghost predicate AllClampable(h: Length, limit: real, raw: seq<Point>) {
    forall i :: 0 <= i < |raw| ==> Clampable(h, limit, raw[i])
  }

  ghost function KeepAll(h: Length, limit: real, exclusions: seq<seq<Point>>, raw: seq<Point>): seq<Point>
    requires AllClampable(h, limit, raw)
  {
    if raw == [] then []
    else KeepAll(h, limit, exclusions, raw[..|raw| - 1]) + Keep(h, limit, exclusions, raw[|raw| - 1])
  }

  lemma {:induction false} KeepAllConcat(h: Length, limit: real, exclusions: seq<seq<Point>>, xs: seq<Point>, ys: seq<Point>)
    requires AllClampable(h, limit, xs) && AllClampable(h, limit, ys)
    ensures AllClampable(h, limit, xs + ys)
    ensures KeepAll(h, limit, exclusions, xs + ys) == KeepAll(h, limit, exclusions, xs) + KeepAll(h, limit, exclusions, ys)
  {
    hide Keep, Clampable;
    ClampableConcat(h, limit, xs, ys);
    if ys == [] {
      assert xs + ys == xs;
    } else {
      var n := |ys| - 1;
      KeepAllConcat(h, limit, exclusions, xs, ys[..n]);
      assert (xs + ys)[..|xs| + n] == xs + ys[..n];
    }
  }

  lemma ClampableConcat(h: Length, limit: real, xs: seq<Point>, ys: seq<Point>)
    requires AllClampable(h, limit, xs) && AllClampable(h, limit, ys)
    ensures AllClampable(h, limit, xs + ys)
  {
    hide Clampable;
  }

  /** The loops of `stops` over the sides of an inset line. */
  method StopsOnLine(h: Length, line: seq<Point>, limit: real, exclusions: seq<seq<Point>>, spacing: real)
    returns (r: Result<seq<Point>, StopsError>)
    requires IsHypot(h) && spacing > 0.0
    ensures r.Ok? <==> AllClampable(h, limit, LineStops(h, Edges(line), spacing))
    ensures r.Ok? ==> r.value == KeepAll(h, limit, exclusions, LineStops(h, Edges(line), spacing))
  {
    hide Keep, Clampable, SideStops, IsHypot, Flatten;
    var es := Edges(line);
    var out: seq<Point> := [];
    ghost var sides := AllSides(h, es, spacing);
    FlattenNext(sides, 0);
    for j := 0 to |es|
      invariant AllClampable(h, limit, Flatten(sides[..j]))
      invariant out == KeepAll(h, limit, exclusions, Flatten(sides[..j]))
    {
      var kept := StopsOnSide(h, es[j], limit, exclusions, spacing);
      FlattenNext(sides, j + 1);
      if kept.Err? {
        SideFails(h, limit, sides, j);
        return Err(kept.error);
      }
      KeepAllConcat(h, limit, exclusions, Flatten(sides[..j]), sides[j]);
      out := out + kept.value;
    }
    assert sides[..|es|] == sides;
    return Ok(out);
  }

  lemma FlattenNext<T>(lists: seq<seq<T>>, j: nat)
    requires j <= |lists|
    ensures Flatten(lists[..j]) == if j == 0 then [] else Flatten(lists[..j - 1]) + lists[j - 1]
  {
    if j > 0 {
      assert lists[..j][..j - 1] == lists[..j - 1];
    }
  }

  lemma SideFails(h: Length, limit: real, sides: seq<seq<Point>>, j: nat)
    requires j < |sides| && !AllClampable(h, limit, sides[j])
    ensures !AllClampable(h, limit, Flatten(sides))
  {
    hide Clampable, Flatten;
    var i :| 0 <= i < |sides[j]| && !Clampable(h, limit, sides[j][i]);
    FlattenNext(sides, j + 1);
    FlattenPrefix(sides, j + 1);
    var earlier := Flatten(sides[..j]);
    assert (earlier + sides[j])[|earlier| + i] == sides[j][i];
  }

  /** The inner loop: one side. */
  method StopsOnSide(h: Length, x: Edge, limit: real, exclusions: seq<seq<Point>>, spacing: real)
    returns (r: Result<seq<Point>, StopsError>)
    requires IsHypot(h) && spacing > 0.0
    ensures r.Ok? <==> AllClampable(h, limit, SideStops(h, x, spacing))
    ensures r.Ok? ==> r.value == KeepAll(h, limit, exclusions, SideStops(h, x, spacing))
  {
    hide Keep, Clampable, StepPoint, IsHypot;
    var k := StopCount(SideLength(h, x), spacing);
    var out: seq<Point> := [];
    ghost var side := SideStops(h, x, spacing);
    for i := 0 to k
      invariant AllClampable(h, limit, side[..i])
      invariant out == KeepAll(h, limit, exclusions, side[..i])
    {
      var p := StepPoint(x, i as real, k as real);
      var kept := KeepStop(h, limit, exclusions, p);
      if kept.Err? {
        assert side[i] == p;
        return Err(kept.error);
      }
      assert side[..i + 1][..i] == side[..i];
      out := out + kept.value;
    }
    assert side[..k] == side;
    return Ok(out);
  }

  /** The body of the loop: clamp, drop or round. */
  method KeepStop(h: Length, limit: real, exclusions: seq<seq<Point>>, p: Point) returns (r: Result<seq<Point>, StopsError>)
    requires IsHypot(h)
    ensures r.Ok? <==> Clampable(h, limit, p)
    ensures r.Ok? ==> r.value == Keep(h, limit, exclusions, p)
  {
    assert Radius(h, p) >= 0.0 by {
      assert Sq(h(p.n, p.e)) == Norm2(p.n, p.e);
    }
    if Radius(h, p) > limit && Radius(h, p) == 0.0 {
      return Err(DivisionByZero);
    }
    var q := Clamp(h, limit, p);
    var barred := AnyInside(q, exclusions);
    return Ok(if barred then [] else [RoundPoint(q)]);
  }

  method AnyInside(p: Point, polys: seq<seq<Point>>) returns (found: bool)
    ensures found == InNoFlyArea(p, polys)
  {
    for i := 0 to |polys|
      invariant forall k :: 0 <= k < i ==> !InsideByEast(p, polys[k])
    {
      var hit := PerimeterInside(p, polys[i]);
      if hit {
        return true;
      }
    }
    return false;
  }

  lemma {:induction false} FlattenPrefix<T>(lists: seq<seq<T>>, j: nat)
    requires j <= |lists|
    ensures Flatten(lists[..j]) <= Flatten(lists)
    decreases |lists| - j
  {
    if j < |lists| {
      FlattenPrefix(lists, j + 1);
      assert lists[..j + 1][..j] == lists[..j];
    } else {
      assert lists[..j] == lists;
    }
  }

  ghost predicate OutsideAll(p: Point, polys: seq<seq<Point>>) {
    forall k :: 0 <= k < |polys| ==> !InsideByEast(p, polys[k])
  }

  /** `kept` are those of the first `n` stops of the line that are flown: in the line's order, exactly those whose clamped
    point is in no exclusion, each flown at that point rounded to 0.1 m. */
  ghost predicate PlannedUpTo(h: Length, limit: real, exclusions: seq<seq<Point>>, raw: seq<Point>, n: nat, stops: seq<Point>,
                              kept: seq<nat>)
    requires AllClampable(h, limit, raw) && n <= |raw|
  {
    && |kept| == |stops|
    && (forall m, m' :: 0 <= m < m' < |kept| ==> kept[m] < kept[m'])
    && (forall m :: 0 <= m < |kept| ==> kept[m] < n && stops[m] == RoundPoint(Clamp(h, limit, raw[kept[m]])))
    && (forall i: nat :: i < n ==> (i in kept <==> OutsideAll(Clamp(h, limit, raw[i]), exclusions)))
  }

  ghost predicate Planned(h: Length, limit: real, exclusions: seq<seq<Point>>, raw: seq<Point>, stops: seq<Point>, kept: seq<nat>)
    requires AllClampable(h, limit, raw)
  {
    PlannedUpTo(h, limit, exclusions, raw, |raw|, stops, kept)
  }

  lemma {:induction false} KeptArePlanned(h: Length, limit: real, exclusions: seq<seq<Point>>, raw: seq<Point>, n: nat)
    returns (kept: seq<nat>)
    requires AllClampable(h, limit, raw) && n <= |raw|
    ensures AllClampable(h, limit, raw[..n])
    ensures PlannedUpTo(h, limit, exclusions, raw, n, KeepAll(h, limit, exclusions, raw[..n]), kept)
  {
    hide RoundPoint, Clamp, Radius, OutsideAll, InNoFlyArea, PlannedUpTo;
    if n == 0 {
      kept := [];
      NonePlanned(h, limit, exclusions, raw);
    } else {
      var before := KeptArePlanned(h, limit, exclusions, raw, n - 1);
      kept := if InNoFlyArea(Clamp(h, limit, raw[n - 1]), exclusions) then before else before + [n - 1];
      assert raw[..n][..n - 1] == raw[..n - 1];
      PlannedOneMore(h, limit, exclusions, raw, n - 1, KeepAll(h, limit, exclusions, raw[..n - 1]), before);
    }
  }

  lemma NonePlanned(h: Length, limit: real, exclusions: seq<seq<Point>>, raw: seq<Point>)
    requires AllClampable(h, limit, raw)
    ensures PlannedUpTo(h, limit, exclusions, raw, 0, [], [])
  {
  }

  lemma PlannedOneMore(h: Length, limit: real, exclusions: seq<seq<Point>>, raw: seq<Point>, n: nat, stops: seq<Point>, before: seq<nat>)
    requires AllClampable(h, limit, raw) && n < |raw| && PlannedUpTo(h, limit, exclusions, raw, n, stops, before)
    ensures PlannedUpTo(h, limit, exclusions, raw, n + 1, stops + Keep(h, limit, exclusions, raw[n]),
                        if InNoFlyArea(Clamp(h, limit, raw[n]), exclusions) then before else before + [n])
  {
    var q := Clamp(h, limit, raw[n]);
    assert OutsideAll(q, exclusions) <==> !InNoFlyArea(q, exclusions);
    assert n !in before;
    hide RoundPoint, Clamp, OutsideAll, InNoFlyArea, AllClampable, Clampable;
    if !InNoFlyArea(q, exclusions) {
      PlannedKept(h, limit, exclusions, raw, n, stops, before);
    } else {
      assert stops + [] == stops;
    }
  }

  lemma PlannedKept(h: Length, limit: real, exclusions: seq<seq<Point>>, raw: seq<Point>, n: nat, stops: seq<Point>, before: seq<nat>)
    requires AllClampable(h, limit, raw) && n < |raw| && PlannedUpTo(h, limit, exclusions, raw, n, stops, before)
    requires OutsideAll(Clamp(h, limit, raw[n]), exclusions)
    ensures PlannedUpTo(h, limit, exclusions, raw, n + 1, stops + [RoundPoint(Clamp(h, limit, raw[n]))], before + [n])
  {
    hide RoundPoint, Clamp, OutsideAll, InNoFlyArea, Radius;
    var kept := before + [n];
    forall i: nat | i < n + 1
      ensures i in kept <==> OutsideAll(Clamp(h, limit, raw[i]), exclusions)
    {
      assert i in kept <==> i in before || i == n;
    }
  }

  /** `stops`: the inset line, then the stops along it; an edge without length or a division by zero ends it. */
  method PlanStops(h: Length, fence: SiteFence, d: real, spacing: real) returns (r: Result<seq<Point>, StopsError>)
    requires IsHypot(h) && spacing > 0.0
    ensures var limit := (if fence.radius.None? || fence.radius.value == 0.0 then 1000000000.0 else fence.radius.value) - 10.0;
            && (r.Ok? <==>
                  && Inset.Shrinkable(h, fence.inclusion)
                  && AllClampable(h, limit, LineStops(h, Edges(Inset.InsetOf(h, fence.inclusion, d)), spacing)))
            && (r.Ok? ==> exists kept ::
                  Planned(h, limit, fence.exclusions, LineStops(h, Edges(Inset.InsetOf(h, fence.inclusion, d)), spacing), r.value, kept))
  {
    Inset.ShrinkableExactly(h, fence.inclusion);
    var line := Inset.Shrink(h, fence.inclusion, d);
    if line.Err? {
      return Err(DivisionByZero);
    }
    hide LineStops, AllClampable, PlannedUpTo, KeepAll, IsHypot;
    r := StopsOnLine(h, line.value, Limit(fence.radius), fence.exclusions, spacing);
    if r.Ok? {
      ghost var raw := LineStops(h, Edges(line.value), spacing);
      ghost var kept := KeptArePlanned(h, Limit(fence.radius), fence.exclusions, raw, |raw|);
      assert raw[..|raw|] == raw;
    }
  }

  // ---- Spacing ----

  function Next(n: nat, i: nat): (k: nat)
    requires i < n
    ensures k < n
  {
    if i + 1 == n then 0 else i + 1
  }

  lemma SideStep(x: Edge, length: real, spacing: real, i: real, k: real)
    requires length >= 0.0 && Sq(length) == Norm2(x.b.n - x.a.n, x.b.e - x.a.e)
    requires spacing > 0.0 && k >= 1.0 && k >= length / spacing
    ensures Dist2(StepPoint(x, i, k), StepPoint(x, i + 1.0, k)) <= Sq(spacing)
  {
    StepCovers(x, i, k);
    StepFits(length, spacing, k);
    ScaledSquare(length, 1.0 / k, length * (1.0 / k));
  }

  lemma StepFits(length: real, spacing: real, k: real)
    requires length >= 0.0 && spacing > 0.0 && k >= 1.0 && k >= length / spacing
    ensures Sq(length * (1.0 / k)) <= Sq(spacing)
  {
    var step := length * (1.0 / k);
    assert step * k == length;
    assert length / spacing * spacing == length;
    assert Product(k - length / spacing, spacing) >= 0.0;
    assert Product(step - spacing, k) == length - spacing * k <= 0.0;
    assert Product(length, 1.0 / k) >= 0.0;
    SquareOrder(step, spacing);
  }

  lemma SideEnds(x: Edge, k: real)
    requires k != 0.0
    ensures StepPoint(x, 0.0, k) == x.a && StepPoint(x, k, k) == x.b
  {
    assert (x.b.n - x.a.n) * k / k == x.b.n - x.a.n;
    assert (x.b.e - x.a.e) * k / k == x.b.e - x.a.e;
  }

  /** Within a list, and from each list to the next one, every element is close to its successor. */
  ghost predicate Linked<T>(lists: seq<seq<T>>, close: (T, T) -> bool) {
    && (forall j :: 0 <= j < |lists| ==> lists[j] != [])
    && (forall j, i :: 0 <= j < |lists| && 0 <= i < |lists[j]| - 1 ==> close(lists[j][i], lists[j][i + 1]))
    && (forall j :: 0 <= j < |lists| - 1 ==> close(lists[j][|lists[j]| - 1], lists[j + 1][0]))
  }

  lemma {:induction false} LinkedFlatten<T>(lists: seq<seq<T>>, close: (T, T) -> bool)
    requires lists != [] && Linked(lists, close)
    ensures (var flat := Flatten(lists);
             && flat != []
             && flat[0] == lists[0][0]
             && flat[|flat| - 1] == lists[|lists| - 1][|lists[|lists| - 1]| - 1]
             && forall i :: 0 <= i < |flat| - 1 ==> close(flat[i], flat[i + 1]))
  {
    var n := |lists| - 1;
    var head, tail, flat := Flatten(lists[..n]), lists[n], Flatten(lists);
    assert flat == head + tail;
    if n > 0 {
      assert forall j :: 0 <= j < n ==> lists[..n][j] == lists[j];
      LinkedFlatten(lists[..n], close);
    }
    forall i | 0 <= i < |flat| - 1
      ensures close(flat[i], flat[i + 1])
    {
      if i < |head| - 1 {
        assert flat[i] == head[i] && flat[i + 1] == head[i + 1];
      } else if i >= |head| {
        assert flat[i] == tail[i - |head|] && flat[i + 1] == tail[i - |head| + 1];
      } else {
        assert flat[i] == lists[n - 1][|lists[n - 1]| - 1] && flat[i + 1] == tail[0];
      }
    }
  }

  predicate CloseEnough(p: Point, q: Point, spacing: real) {
    Dist2(p, q) <= Sq(spacing)
  }

  /** On one side: each stop is within the spacing of the next, the last of the side's far end. */
  lemma SideSpacing(h: Length, x: Edge, spacing: real, i: nat)
    requires IsHypot(h) && spacing > 0.0 && i < |SideStops(h, x, spacing)|
    ensures (var side := SideStops(h, x, spacing);
             && side[0] == x.a
             && CloseEnough(side[i], if i + 1 < |side| then side[i + 1] else x.b, spacing))
  {
    var k := StopCount(SideLength(h, x), spacing) as real;
    SideEnds(x, k);
    assert Sq(h(x.b.n - x.a.n, x.b.e - x.a.e)) == Norm2(x.b.n - x.a.n, x.b.e - x.a.e);
    SideStep(x, SideLength(h, x), spacing, i as real, k);
  }

  lemma SidesAreLinked(h: Length, line: seq<Point>, spacing: real)
    requires IsHypot(h) && spacing > 0.0
    ensures (var es, sides := Edges(line), AllSides(h, Edges(line), spacing);
             && Linked(sides, (p: Point, q: Point) => CloseEnough(p, q, spacing))
             && forall j :: 0 <= j < |es| ==> sides[j][0] == es[j].a && CloseEnough(sides[j][|sides[j]| - 1], es[j].b, spacing))
  {
    hide CloseEnough;
    var es, sides := Edges(line), AllSides(h, Edges(line), spacing);
    forall j | 0 <= j < |sides|
      ensures sides[j][0] == es[j].a && CloseEnough(sides[j][|sides[j]| - 1], es[j].b, spacing)
      ensures forall m :: 0 <= m < |sides[j]| - 1 ==> CloseEnough(sides[j][m], sides[j][m + 1], spacing)
    {
      SideSpacing(h, es[j], spacing, |sides[j]| - 1);
      forall m | 0 <= m < |sides[j]| - 1
        ensures CloseEnough(sides[j][m], sides[j][m + 1], spacing)
      {
        SideSpacing(h, es[j], spacing, m);
      }
    }
    forall j | 0 <= j < |sides| - 1
      ensures CloseEnough(sides[j][|sides[j]| - 1], sides[j + 1][0], spacing)
    {
      assert sides[j + 1][0] == es[j + 1].a == es[j].b;
    }
  }

  /** Around the whole closed line, the stops before clamping are at most `spacing` apart. */
  lemma RawStopsSpacing(h: Length, line: seq<Point>, spacing: real, i: nat)
    requires IsHypot(h) && spacing > 0.0
    requires i < |LineStops(h, Edges(line), spacing)|
    ensures (var raw := LineStops(h, Edges(line), spacing);
             CloseEnough(raw[i], raw[Next(|raw|, i)], spacing))
  {
    hide CloseEnough, SideStops, Linked;
    var es, sides := Edges(line), AllSides(h, Edges(line), spacing);
    SidesAreLinked(h, line, spacing);
    LinkedFlatten(sides, (p: Point, q: Point) => CloseEnough(p, q, spacing));
    var last := |sides| - 1;
    assert sides[0][0] == es[0].a == es[last].b;
  }

  /** No more stops on a side than it takes: with one fewer they would be further apart. */
  lemma FewestStops(h: Length, x: Edge, spacing: real)
    requires IsHypot(h) && spacing > 0.0
    ensures (var k := |SideStops(h, x, spacing)| as real;
             && k >= 1.0 && SideLength(h, x) <= Product(k, spacing)
             && (k > 1.0 ==> SideLength(h, x) > Product(k - 1.0, spacing)))
  {
    var k, q := StopCount(SideLength(h, x), spacing) as real, SideLength(h, x) / spacing;
    assert Product(q, spacing) == SideLength(h, x);
    assert Product(k - q, spacing) >= 0.0;
    if k > 1.0 {
      assert Product(q - (k - 1.0), spacing) > 0.0;
    }
  }

  lemma {:induction false} InFlat<T>(lists: seq<seq<T>>, j: nat, m: nat)
    requires j < |lists| && m < |lists[j]|
    ensures lists[j][m] in Flatten(lists)
  {
    var n := |lists| - 1;
    if j < n {
      InFlat(lists[..n], j, m);
    }
  }

  lemma {:induction false} OfFlat<T>(lists: seq<seq<T>>, x: T) returns (j: nat, m: nat)
    requires x in Flatten(lists)
    ensures j < |lists| && m < |lists[j]| && lists[j][m] == x
  {
    var n := |lists| - 1;
    if x in Flatten(lists[..n]) {
      j, m := OfFlat(lists[..n], x);
    } else {
      j := n;
      m :| m < |lists[n]| && lists[n][m] == x;
    }
  }

  /** Every stop is on the line: a whole number of equal steps along one of its sides, the far end left out. */
  lemma StopsAreOnLine(h: Length, line: seq<Point>, spacing: real, stop: Point) returns (j: nat, m: nat)
    requires spacing > 0.0 && stop in LineStops(h, Edges(line), spacing)
    ensures j < |line|
    ensures (var x := Edges(line)[j];
             m < |SideStops(h, x, spacing)| && stop == Along(x.a, x.b, m as real / |SideStops(h, x, spacing)| as real))
  {
    j, m := OfFlat(AllSides(h, Edges(line), spacing), stop);
    var x := Edges(line)[j];
    StepPointOnLeg(x, m as real, |SideStops(h, x, spacing)| as real);
  }

  /** And every point of the line is within half the spacing of a stop. */
  lemma LineIsCovered(h: Length, line: seq<Point>, spacing: real, j: nat, t: real) returns (stop: Point)
    requires IsHypot(h) && spacing > 0.0 && j < |line| && 0.0 <= t <= 1.0
    ensures stop in LineStops(h, Edges(line), spacing)
    ensures Dist2(Along(Edges(line)[j].a, Edges(line)[j].b, t), stop) <= Sq(spacing / 2.0)
  {
    hide IsHypot, Flatten;
    var es, sides := Edges(line), AllSides(h, Edges(line), spacing);
    var x := es[j];
    var k := |SideStops(h, x, spacing)|;
    var m := NearestStep(k, t);
    stop := StepPoint(x, m as real, k as real);
    if m < k {
      InFlat(sides, j, m);
    } else {
      SideEnds(x, k as real);
      var next := Next(|line|, j);
      SideEnds(es[next], |sides[next]| as real);
      InFlat(sides, next, 0);
    }
    NearStop(h, x, spacing, t, m as real, k as real);
  }

  lemma NearStop(h: Length, x: Edge, spacing: real, t: real, m: real, k: real)
    requires IsHypot(h) && spacing > 0.0 && k == |SideStops(h, x, spacing)| as real && -0.5 <= t * k - m <= 0.5
    ensures Dist2(Along(x.a, x.b, t), StepPoint(x, m, k)) <= Sq(spacing / 2.0)
  {
    hide Dist2, Along, Sq, Product, StepPoint, SideStops;
    FewestStops(h, x, spacing);
    StepPointOnLeg(x, m, k);
    SideLengthSquared(h, x);
    NearOnLeg(x, t, m, k, SideLength(h, x), spacing);
  }

  lemma SideLengthSquared(h: Length, x: Edge)
    requires IsHypot(h)
    ensures SideLength(h, x) >= 0.0 && Sq(SideLength(h, x)) == Dist2(x.b, x.a)
  {
    DistSquared(h, x.b, x.a);
  }

  lemma NearOnLeg(x: Edge, t: real, m: real, k: real, length: real, spacing: real)
    requires k >= 1.0 && -0.5 <= t * k - m <= 0.5
    requires 0.0 <= length <= Product(k, spacing) && spacing > 0.0 && Sq(length) == Dist2(x.b, x.a)
    ensures Dist2(Along(x.a, x.b, t), Along(x.a, x.b, m / k)) <= Sq(spacing / 2.0)
  {
    var f := m / k;
    assert f * k == m;
    assert (t - f) * k == t * k - f * k;
    hide Dist2, Along, Sq, Product;
    var off := t - f;
    HalfStep(off, k, t * k - m, length, spacing);
    Dist2OnLeg(x.a, x.b, t, f);
    var moved := length * off;
    ScaledSquare(length, off, moved);
    assert Dist2(Along(x.a, x.b, t), Along(x.a, x.b, f)) == Product(Sq(off), Dist2(x.b, x.a)) == Sq(moved);
  }

  lemma HalfStep(off: real, k: real, steps: real, length: real, spacing: real)
    requires k >= 1.0 && off * k == steps && -0.5 <= steps <= 0.5
    requires 0.0 <= length <= Product(k, spacing) && spacing > 0.0
    ensures Sq(length * off) <= Sq(spacing / 2.0)
  {
    var size := if off >= 0.0 then off else -off;
    assert Product(size, k) <= 0.5;
    assert Product(size, Product(k, spacing) - length) >= 0.0;
    assert Product(0.5 - Product(size, k), spacing) >= 0.0;
    assert length * size <= spacing / 2.0;
    assert Product(length, size) >= 0.0;
    SmallSquare(length * off, spacing / 2.0);
  }

  // ---- The limit around home ----

  /** The inner product of two vectors is at most the product of their lengths. */
  lemma InnerBound(h: Length, x: Point, p: Point)
    requires IsHypot(h)
    ensures Inner(x.n, x.e, p.n, p.e) <= Product(Radius(h, x), Radius(h, p))
  {
    assert Sq(h(x.n, x.e)) == Norm2(x.n, x.e);
    assert Sq(h(p.n, p.e)) == Norm2(p.n, p.e);
    InnerBoundByLengths(x.n, x.e, p.n, p.e, Radius(h, x), Radius(h, p));
  }

  /** A point beyond the limit is scaled to it. */
  lemma ClampScales(h: Length, limit: real, p: Point) returns (f: real)
    requires IsHypot(h) && Radius(h, p) > limit && Radius(h, p) != 0.0
    ensures f * Radius(h, p) == limit && (limit >= 0.0 ==> 0.0 <= f < 1.0)
    ensures Clamp(h, limit, p) == Point(p.n * f, p.e * f)
  {
    var r := Radius(h, p);
    f := limit / r;
    FractionOf(p.n, limit, r);
    FractionOf(p.e, limit, r);
    if limit >= 0.0 {
      FractionBelowOne(limit, r, f);
    }
  }

  lemma FractionBelowOne(limit: real, r: real, f: real)
    requires r > limit >= 0.0 && f == limit / r
    ensures 0.0 <= f < 1.0 && f * r == limit
  {
    assert f * r == limit;
    assert Product(1.0 - f, r) == r - limit;
    assert Product(f, r) == limit;
  }

  /** A clamped point is within the limit. */
  lemma ClampedWithinLimit(h: Length, limit: real, p: Point)
    requires IsHypot(h) && limit >= 0.0
    ensures Radius(h, Clamp(h, limit, p)) <= limit
  {
    if Radius(h, p) > limit {
      var f := ClampScales(h, limit, p);
      hide Clamp;
      var q := Clamp(h, limit, p);
      assert Sq(h(p.n, p.e)) == Norm2(p.n, p.e);
      assert Sq(h(q.n, q.e)) == Norm2(q.n, q.e);
      ScaledNorm(p.n, p.e, f, Radius(h, p), q.n, q.e);
      SquareOrder(Radius(h, q), f * Radius(h, p));
    }
  }

  lemma ScaledNorm(n: real, e: real, f: real, r: real, qn: real, qe: real)
    requires Sq(r) == Norm2(n, e) && qn == n * f && qe == e * f
    ensures Norm2(qn, qe) == Sq(f * r)
  {
    ScaledSquare(n, f, qn);
    ScaledSquare(e, f, qe);
    Distribute(Sq(f), Sq(n), Sq(e));
    ProductOfSquares(f, r);
    hide Sq;
  }

  /** Seen from the clamped point, nothing within the limit lies towards the original one. */
  lemma ClampedIsNearest(h: Length, limit: real, p: Point, x: Point)
    requires IsHypot(h) && limit >= 0.0 && Radius(h, x) <= limit
    ensures (var c := Clamp(h, limit, p); Inner(x.n - c.n, x.e - c.e, p.n - c.n, p.e - c.e) <= 0.0)
  {
    hide Inner, Product, Sq;
    var r := Radius(h, p);
    if r > limit {
      assert Sq(h(p.n, p.e)) == Norm2(p.n, p.e);
      hide IsHypot, Radius;
      var f := ClampScales(h, limit, p);
      InnerBound(h, x, p);
      hide Clamp;
      var c := Clamp(h, limit, p);
      WithinTimes(Radius(h, x), limit, r, Inner(x.n, x.e, p.n, p.e));
      Pulled(p.n, p.e, x.n, x.e, f, r, limit, c.n, c.e);
    } else {
      InnerZero(x.n - p.n, x.e - p.e);
    }
  }

  lemma WithinTimes(x: real, limit: real, r: real, inner: real)
    requires x <= limit && r >= 0.0 && inner <= Product(x, r)
    ensures inner <= Product(limit, r)
  {
    assert Product(limit - x, r) >= 0.0;
  }

  lemma InnerZero(u: real, v: real)
    ensures Inner(u, v, 0.0, 0.0) == 0.0
  {
  }

  lemma Pulled(pn: real, pe: real, xn: real, xe: real, f: real, r: real, limit: real, cn: real, ce: real)
    requires 0.0 <= f < 1.0 && cn == pn * f && ce == pe * f
    requires Sq(r) == Norm2(pn, pe) && f * r == limit && Inner(xn, xe, pn, pe) <= Product(limit, r)
    ensures Inner(xn - cn, xe - ce, pn - cn, pe - ce) <= 0.0
  {
    PulledInner(pn, pe, xn, xe, f);
    ShrunkSign(f, r, Inner(xn, xe, pn, pe), Norm2(pn, pe));
    hide Inner, Norm2;
  }

  lemma ShrunkSign(f: real, r: real, inner: real, norm: real)
    requires 0.0 <= f < 1.0 && norm == Sq(r) && inner <= f * r * r
    ensures (1.0 - f) * (inner - f * norm) <= 0.0
  {
    assert f * norm == f * r * r;
    assert Product(1.0 - f, f * norm - inner) >= 0.0;
  }

  lemma PulledInner(pn: real, pe: real, xn: real, xe: real, f: real)
    ensures Inner(xn - pn * f, xe - pe * f, pn - pn * f, pe - pe * f) == (1.0 - f) * (Inner(xn, xe, pn, pe) - f * Norm2(pn, pe))
  {
    PulledTerm(pn, xn, f);
    PulledTerm(pe, xe, f);
    assert (1.0 - f) * (Inner(xn, xe, pn, pe) - f * Norm2(pn, pe))
        == (1.0 - f) * (xn * pn - f * (pn * pn)) + (1.0 - f) * (xe * pe - f * (pe * pe));
  }

  lemma PulledTerm(p: real, x: real, f: real)
    ensures (x - p * f) * (p - p * f) == (1.0 - f) * (x * p - f * (p * p))
  {
    assert (x - p * f) * (p - p * f) == ((x - p * f) * p) * (1.0 - f);
  }

  /** Clamping never moves two points further apart. */
  lemma ClampNeverSpreads(h: Length, limit: real, p: Point, q: Point)
    requires IsHypot(h) && limit >= 0.0
    ensures Dist2(Clamp(h, limit, p), Clamp(h, limit, q)) <= Dist2(p, q)
  {
    var c, d := Clamp(h, limit, p), Clamp(h, limit, q);
    ClampedWithinLimit(h, limit, p);
    ClampedWithinLimit(h, limit, q);
    ClampedIsNearest(h, limit, p, d);
    ClampedIsNearest(h, limit, q, c);
    hide Clamp;
    Shorter(c.n - d.n, c.e - d.e, p.n - c.n, p.e - c.e, q.n - d.n, q.e - d.e, p.n - q.n, p.e - q.e);
  }

  /** What the clamping gives is the point of the disc nearest to the stop; a stop inside the disc stays. */
  lemma ClampGivesNearest(h: Length, limit: real, p: Point, x: Point)
    requires IsHypot(h) && limit >= 0.0
    ensures Radius(h, Clamp(h, limit, p)) <= limit && (Radius(h, p) <= limit ==> Clamp(h, limit, p) == p)
    ensures Radius(h, x) <= limit ==> Dist2(p, Clamp(h, limit, p)) <= Dist2(p, x)
  {
    hide Inner, Dist2;
    ClampedWithinLimit(h, limit, p);
    if Radius(h, x) <= limit {
      ClampedIsNearest(h, limit, p, x);
      Farther(x, p, Clamp(h, limit, p));
    }
  }

  lemma Farther(x: Point, p: Point, c: Point)
    requires Inner(x.n - c.n, x.e - c.e, p.n - c.n, p.e - c.e) <= 0.0
    ensures Dist2(p, c) <= Dist2(p, x)
  {
    hide Sq, Product;
    FartherBy(x.n - c.n, p.n - c.n, p.n - x.n);
    FartherBy(x.e - c.e, p.e - c.e, p.e - x.e);
  }

  lemma FartherBy(u: real, v: real, w: real)
    requires w == v - u
    ensures Sq(w) >= Sq(v) - 2.0 * (u * v)
  {
    SquareOfSum(v, -u);
    OppositeSquare(u);
    assert v * -u == -(u * v);
  }

  lemma Shorter(an: real, ae: real, bn: real, be: real, cn: real, ce: real, dn: real, de: real)
    requires Inner(-an, -ae, bn, be) <= 0.0 && Inner(an, ae, cn, ce) <= 0.0
    requires dn == an + bn - cn && de == ae + be - ce
    ensures Norm2(an, ae) <= Norm2(dn, de)
  {
    SquareOfStep(an, bn, cn, dn);
    SquareOfStep(ae, be, ce, de);
    assert (-an) * bn == -(an * bn) && (-ae) * be == -(ae * be);
    hide Sq;
  }

  lemma SquareOfStep(a: real, b: real, c: real, d: real)
    requires d == a + b - c
    ensures Sq(d) >= Sq(a) + 2.0 * (a * b) - 2.0 * (a * c)
  {
    assert Sq(b - c) >= 0.0;
    SquareOfSum(a, b - c);
    assert a * (b - c) == a * b - a * c;
  }

  /** The stops that are flown keep the spacing even after clamping. */
  lemma ClampedStopsSpacing(h: Length, line: seq<Point>, spacing: real, limit: real, i: nat)
    requires IsHypot(h) && spacing > 0.0 && limit >= 0.0
    requires i < |LineStops(h, Edges(line), spacing)|
    ensures (var raw := LineStops(h, Edges(line), spacing);
             CloseEnough(Clamp(h, limit, raw[i]), Clamp(h, limit, raw[Next(|raw|, i)]), spacing))
  {
    var raw := LineStops(h, Edges(line), spacing);
    RawStopsSpacing(h, line, spacing, i);
    ClampNeverSpreads(h, limit, raw[i], raw[Next(|raw|, i)]);
  }

  /** A negative limit sends every stop to the far side of home, at the limit's distance. */
  lemma NegativeLimitFlips(h: Length, limit: real, p: Point) returns (f: real)
    requires IsHypot(h) && limit < 0.0 && Clampable(h, limit, p)
    ensures f < 0.0 && Clamp(h, limit, p) == Point(p.n * f, p.e * f)
    ensures Radius(h, Clamp(h, limit, p)) == -limit
  {
    var r := Radius(h, p);
    assert Sq(h(p.n, p.e)) == Norm2(p.n, p.e);
    f := ClampScales(h, limit, p);
    hide Clamp;
    var q := Clamp(h, limit, p);
    assert Sq(h(q.n, q.e)) == Norm2(q.n, q.e);
    ScaledNorm(p.n, p.e, f, r, q.n, q.e);
    OppositeSquare(limit);
    SquareOrder(Radius(h, q), -limit);
    SquareOrder(-limit, Radius(h, q));
    assert Product(-f, r) == -limit;
  }

  /** A stop that can be clamped ends within the limit exactly when the limit is not negative, and within the radius
    exactly when that is at least 5 m. */
  lemma LimitKeptExactly(h: Length, radius: Option<real>, p: Point)
    requires IsHypot(h) && Clampable(h, Limit(radius), p)
    ensures Radius(h, Clamp(h, Limit(radius), p)) <= Limit(radius) <==> Limit(radius) >= 0.0
    ensures Radius(h, Clamp(h, Limit(radius), p)) <= Reach(radius) <==> Reach(radius) >= 5.0
  {
    hide Clamp;
    if Limit(radius) >= 0.0 {
      ClampedWithinLimit(h, Limit(radius), p);
    } else {
      var _ := NegativeLimitFlips(h, Limit(radius), p);
    }
  }

  /** With a radius of 4 m, a stop 10 m north of home becomes one 6 m south of it. */
  lemma SmallRadiusFlipsAStop(h: Length, stops: seq<Point>, kept: seq<nat>)
    requires IsHypot(h)
    requires AllClampable(h, Limit(Some(4.0)), [Point(10.0, 0.0)])
    requires Planned(h, Limit(Some(4.0)), [], [Point(10.0, 0.0)], stops, kept)
    ensures stops == [Point(-6.0, 0.0)]
  {
    var p := Point(10.0, 0.0);
    LengthAlongNorth(h, 10.0);
    assert Clamp(h, -6.0, p) == Point(-6.0, 0.0);
    RoundOfInteger(-60);
    RoundOfInteger(0);
    assert RoundPoint(Point(-6.0, 0.0)) == Point(-6.0, 0.0);
    assert 0 in kept;
    FirstOnly(kept);
  }

  lemma FirstOnly(kept: seq<nat>)
    requires 0 in kept && (forall m, m' :: 0 <= m < m' < |kept| ==> kept[m] < kept[m']) && forall i :: i in kept ==> i < 1
    ensures kept == [0]
  {
    LastIsLarge(kept);
    assert kept[|kept| - 1] in kept;
  }

  lemma {:induction false} LastIsLarge(kept: seq<nat>)
    requires kept != [] && forall m, m' :: 0 <= m < m' < |kept| ==> kept[m] < kept[m']
    ensures kept[|kept| - 1] >= |kept| - 1
  {
    if |kept| > 1 {
      LastIsLarge(kept[..|kept| - 1]);
    }
  }

  /** Rounding changes the distance from home by less than 0.071 m. */
  lemma RoundedRadius(h: Length, p: Point)
    requires IsHypot(h)
    ensures Radius(h, p) - 0.071 < Radius(h, RoundPoint(p)) < Radius(h, p) + 0.071
  {
    var q := RoundPoint(p);
    assert Sq(h(p.n, p.e)) == Norm2(p.n, p.e);
    assert Sq(h(q.n, q.e)) == Norm2(q.n, q.e);
    DistSquared(h, q, p);
    DistSquared(h, p, q);
    RoundPointMoves(h, p);
    DistSymmetric(h, p, q);
    TriangleBySquares(p.n, p.e, q.n - p.n, q.e - p.e, Radius(h, p), Dist(h, q, p), q.n, q.e, Radius(h, q));
    TriangleBySquares(q.n, q.e, p.n - q.n, p.e - q.e, Radius(h, q), Dist(h, p, q), p.n, p.e, Radius(h, p));
  }

  /** Every stop that is flown is nearer home than the radius if that is 5.0355 m or more, and farther if it is 4.9645 m or
    less; in between the rounding decides. */
  lemma KeptStopsWithinRadius(h: Length, radius: Option<real>, exclusions: seq<seq<Point>>, raw: seq<Point>, stops: seq<Point>,
                              kept: seq<nat>, m: nat)
    requires IsHypot(h) && AllClampable(h, Limit(radius), raw)
    requires Planned(h, Limit(radius), exclusions, raw, stops, kept) && m < |stops|
    ensures (var r := Radius(h, stops[m]);
             && (Reach(radius) >= 5.0355 ==> r < Reach(radius))
             && (Reach(radius) <= 4.9645 ==> r > Reach(radius)))
  {
    var limit, p := Limit(radius), raw[kept[m]];
    assert Clampable(h, limit, p);
    hide Clamp, Radius, RoundPoint;
    if limit >= 0.0 {
      ClampedWithinLimit(h, limit, p);
    } else {
      var _ := NegativeLimitFlips(h, limit, p);
    }
    RoundedRadius(h, Clamp(h, limit, p));
  }
}
