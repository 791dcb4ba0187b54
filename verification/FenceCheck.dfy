/** The property fence: what `Geofence.check` accepts (`fleet_api/geofence.py`). */
module FenceCheck {
  import opened Planar
  import opened PointInPolygon
  import opened EdgeDistance

  const MARGIN_M: real := 3.0

  datatype LatLon = LatLon(lat: real, lon: real)

  datatype Fence = Fence(inclusion: seq<LatLon>, exclusions: seq<seq<LatLon>>, maxAltitude: real)

  /** The fence in meters around a drone's home. */
  datatype LocalFence = LocalFence(maxAltitude: real, inclusion: seq<Point>, exclusions: seq<seq<Point>>)

  datatype Sample = Sample(p: Point, target: bool)

  datatype FenceError =
    | TooHigh
    | Outside(onTheWay: bool)
    | NearEdge
    | InNoFlyArea(onTheWay: bool)

  /** `to_ne`: home, then a place, to meters from home. */
  type Projection = (LatLon, LatLon) -> Point

  // ---- What the check looks at ----

  /** Number of steps a leg is cut into: the whole number of 2 m in it, at least one. */
  function LegSteps(h: Length, leg: Edge): (n: nat)
    requires IsHypot(h)
    ensures n >= 1
  {
    var steps := (Dist(h, leg.b, leg.a) / 2.0).Floor;
    if steps >= 1 then steps else 1
  }

  /** The checked points of a leg, both ends included. */
  function LegSamples(h: Length, leg: Edge): (s: seq<Point>)
    requires IsHypot(h)
    ensures |s| == LegSteps(h, leg) + 1
  {
    var n := LegSteps(h, leg);
    seq(n + 1, k requires 0 <= k <= n => StepPoint(leg, k as real, n as real))
  }

  function Mark(points: seq<Point>, target: bool): (s: seq<Sample>)
    ensures |s| == |points|
  {
    seq(|points|, k requires 0 <= k < |points| => Sample(points[k], target))
  }

  function PathSamples(h: Length, path: seq<Edge>): seq<Sample>
    requires IsHypot(h)
  {
    if path == [] then []
    else PathSamples(h, path[..|path| - 1]) + Mark(LegSamples(h, path[|path| - 1]), false)
  }

  function Samples(h: Length, points: seq<Point>, path: seq<Edge>): seq<Sample>
    requires IsHypot(h)
  {
    Mark(points, true) + PathSamples(h, path)
  }

  // ---- What it accepts ----

  /** Inside the inclusion polygon and in no exclusion. */
  predicate Allowed(loc: LocalFence, p: Point) {
    && InsideByNorth(p, loc.inclusion)
    && forall i :: 0 <= i < |loc.exclusions| ==> !InsideByNorth(p, loc.exclusions[i])
  }

  /** No point of the outline is closer to `p` than `d`. */
  ghost predicate Clears(p: Point, poly: seq<Point>, d: real) {
    forall i :: 0 <= i < |poly| ==> NotCloser(p, Edges(poly)[i], d)
  }

  ghost predicate GoodSample(loc: LocalFence, s: Sample) {
    Allowed(loc, s.p) && (s.target ==> Clears(s.p, loc.inclusion, MARGIN_M))
  }

  predicate AltitudeAllowed(loc: LocalFence, altitude: Option<real>) {
    altitude.Some? ==> altitude.value <= loc.maxAltitude
  }

  ghost predicate Accepted(h: Length, loc: LocalFence, points: seq<Point>, path: seq<Edge>, altitude: Option<real>)
    requires IsHypot(h)
  {
    && AltitudeAllowed(loc, altitude)
    && forall s :: s in Samples(h, points, path) ==> GoodSample(loc, s)
  }

  /** The error names what is wrong with this sample, the tests taken in order. */
  ghost predicate Explains(loc: LocalFence, s: Sample, error: FenceError) {
    match error
    case TooHigh => false
    case Outside(onTheWay) =>
      onTheWay == !s.target && !InsideByNorth(s.p, loc.inclusion)
    case NearEdge =>
      s.target && InsideByNorth(s.p, loc.inclusion) && !Clears(s.p, loc.inclusion, MARGIN_M)
    case InNoFlyArea(onTheWay) =>
      && onTheWay == !s.target
      && InsideByNorth(s.p, loc.inclusion)
      && (s.target ==> Clears(s.p, loc.inclusion, MARGIN_M))
      && exists i :: 0 <= i < |loc.exclusions| && InsideByNorth(s.p, loc.exclusions[i])
  }

  /** Why the check refuses: the altitude, or else the first bad sample. */
  ghost predicate RefusedBecause(h: Length, loc: LocalFence, points: seq<Point>, path: seq<Edge>,
                                 altitude: Option<real>, error: FenceError)
    requires IsHypot(h)
  {
    if error.TooHigh? then
      !AltitudeAllowed(loc, altitude)
    else
      var all := Samples(h, points, path);
      && AltitudeAllowed(loc, altitude)
      && exists k :: 0 <= k < |all| && Explains(loc, all[k], error) && forall i :: 0 <= i < k ==> GoodSample(loc, all[i])
  }

  /** A polygon seen from home, vertex by vertex. */
  ghost predicate SeenFrom(home: LatLon, toNE: Projection, poly: seq<LatLon>, local: seq<Point>) {
    |local| == |poly| && forall i :: 0 <= i < |poly| ==> local[i] == toNE(home, poly[i])
  }

  /** The fence in local meters: the same height, the same polygons. */
  ghost predicate IsLocal(fence: Fence, home: LatLon, toNE: Projection, loc: LocalFence) {
    && loc.maxAltitude == fence.maxAltitude
    && SeenFrom(home, toNE, fence.inclusion, loc.inclusion)
    && |loc.exclusions| == |fence.exclusions|
    && forall k :: 0 <= k < |fence.exclusions| ==> SeenFrom(home, toNE, fence.exclusions[k], loc.exclusions[k])
  }

  lemma LocalIsUnique(fence: Fence, home: LatLon, toNE: Projection, loc: LocalFence, loc': LocalFence)
    requires IsLocal(fence, home, toNE, loc) && IsLocal(fence, home, toNE, loc')
    ensures loc == loc'
  {
    assert loc.inclusion == loc'.inclusion;
    forall k | 0 <= k < |fence.exclusions|
      ensures loc.exclusions[k] == loc'.exclusions[k]
    {
      assert SeenFrom(home, toNE, fence.exclusions[k], loc.exclusions[k]);
      assert SeenFrom(home, toNE, fence.exclusions[k], loc'.exclusions[k]);
    }
  }

  function Project(poly: seq<LatLon>, home: LatLon, toNE: Projection): (local: seq<Point>)
    ensures SeenFrom(home, toNE, poly, local)
  {
    seq(|poly|, i requires 0 <= i < |poly| => toNE(home, poly[i]))
  }

  class Geofence {
    var fence: Option<Fence>

    constructor ()
      ensures fence == None
    {
      fence := None;
    }

    method Set(f: Fence)
      modifies this
      ensures fence == Some(f)
    {
      fence := Some(f);
    }

    method Clear()
      modifies this
      ensures fence == None
    {
      fence := None;
    }

    /** `_local`: the fence in local meters, where it applies: home is known and inside it. */
    method Local(home: Option<LatLon>, toNE: Projection) returns (loc: Option<LocalFence>)
      ensures loc.Some? ==>
                && fence.Some? && home.Some? && IsLocal(fence.value, home.value, toNE, loc.value)
                && InsideByNorth(Point(0.0, 0.0), loc.value.inclusion)
      ensures loc.None? && fence.Some? && home.Some? ==>
                exists l :: IsLocal(fence.value, home.value, toNE, l) && !InsideByNorth(Point(0.0, 0.0), l.inclusion)
    {
      if fence.None? || home.None? {
        return None;
      }
      var f, inclusion := fence.value, Project(fence.value.inclusion, home.value, toNE);
      var exclusions := seq(|f.exclusions|, k requires 0 <= k < |f.exclusions| => Project(f.exclusions[k], home.value, toNE));
      var l := LocalFence(f.maxAltitude, inclusion, exclusions);
      assert IsLocal(f, home.value, toNE, l);
      var homeInside := GeofenceInside(Point(0.0, 0.0), inclusion);
      return if homeInside then Some(l) else None;
    }

    /** `check`: where there is a fence and home lies in it, what `Accepted` says of the fence seen from home; else
      everything passes. */
    method Check(h: Length, toNE: Projection, home: Option<LatLon>, points: seq<Point>, path: seq<Edge>,
                 altitude: Option<real>)
      returns (r: Result<(), FenceError>)
      requires IsHypot(h)
      ensures fence.None? || home.None? ==> r.Ok?
      ensures fence.Some? && home.Some? ==>
                forall loc :: IsLocal(fence.value, home.value, toNE, loc) ==>
                  if InsideByNorth(Point(0.0, 0.0), loc.inclusion)
                  then (r.Ok? <==> Accepted(h, loc, points, path, altitude))
                       && (r.Err? ==> RefusedBecause(h, loc, points, path, altitude, r.error))
                  else r.Ok?
    {
      var found := Local(home, toNE);
      if found.None? {
        if fence.Some? && home.Some? {
          ghost var l :| IsLocal(fence.value, home.value, toNE, l) && !InsideByNorth(Point(0.0, 0.0), l.inclusion);
          forall loc | IsLocal(fence.value, home.value, toNE, loc)
            ensures loc == l
          {
            LocalIsUnique(fence.value, home.value, toNE, loc, l);
          }
        }
        return Ok(());
      }
      r := CheckLocal(h, found.value, points, path, altitude);
      forall loc | IsLocal(fence.value, home.value, toNE, loc)
        ensures loc == found.value
      {
        LocalIsUnique(fence.value, home.value, toNE, loc, found.value);
      }
    }
  }

  /** The check against the fence in local meters. */
  method CheckLocal(h: Length, loc: LocalFence, points: seq<Point>, path: seq<Edge>, altitude: Option<real>)
    returns (r: Result<(), FenceError>)
    requires IsHypot(h)
    ensures r.Ok? <==> Accepted(h, loc, points, path, altitude)
    ensures r.Err? ==> RefusedBecause(h, loc, points, path, altitude, r.error)
  {
    if altitude.Some? && altitude.value > loc.maxAltitude {
      return Err(TooHigh);
    }
    var samples := Mark(points, true);
    for i := 0 to |path|
      invariant samples == Samples(h, points, path[..i])
    {
      samples := samples + Mark(LegSamples(h, path[i]), false);
      assert path[..i + 1][..i] == path[..i];
    }
    assert path[..|path|] == path;
    for k := 0 to |samples|
      invariant forall i :: 0 <= i < k ==> GoodSample(loc, samples[i])
    {
      var wrong := CheckSample(h, loc, samples[k]);
      if wrong.Some? {
        assert samples[k] in samples;
        return Err(wrong.value);
      }
    }
    return Ok(());
  }

  /** The body of the check's loop over samples. */
  method CheckSample(h: Length, loc: LocalFence, s: Sample) returns (wrong: Option<FenceError>)
    requires IsHypot(h)
    ensures wrong.None? <==> GoodSample(loc, s)
    ensures wrong.Some? ==> Explains(loc, s, wrong.value)
  {
    var within := GeofenceInside(s.p, loc.inclusion);
    if !within {
      return Some(Outside(!s.target));
    }
    if s.target {
      var d := OutlineDistance(h, s.p, loc.inclusion);
      DistanceDecidesClearance(s.p, loc.inclusion, d.value, MARGIN_M);
      if d.value < MARGIN_M {
        return Some(NearEdge);
      }
    }
    for i := 0 to |loc.exclusions|
      invariant forall k :: 0 <= k < i ==> !InsideByNorth(s.p, loc.exclusions[k])
    {
      var barred := GeofenceInside(s.p, loc.exclusions[i]);
      if barred {
        return Some(InNoFlyArea(!s.target));
      }
    }
    return None;
  }

  lemma DistanceDecidesClearance(p: Point, poly: seq<Point>, d: real, margin: real)
    requires IsOutlineDistance(p, Edges(poly), d) && margin >= 0.0
    ensures d >= margin <==> Clears(p, poly, margin)
  {
    var es := Edges(poly);
    if d >= margin {
      forall i | 0 <= i < |poly|
        ensures NotCloser(p, es[i], margin)
      {
        NotCloserMonotone(p, es[i], d, margin);
      }
    } else {
      var i :| 0 <= i < |es| && Touches(p, es[i], d);
      SquareOrder(d, margin);
      assert !NotCloser(p, es[i], margin);
    }
  }
}
