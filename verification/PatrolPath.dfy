/** What an accepted patrol flies: the mission `cmd_patrol` uploads (`fleet_api/fleet.py`) against the
  legs `command_shape` had checked (`fleet_api/geofence.py`). */
module PatrolPath {
  import opened Planar
  import opened PointInPolygon
  import opened EdgeDistance
  import opened FenceCheck
  import opened SegmentCrossing

  const HOME := Point(0.0, 0.0)

  datatype Item = Waypoint(p: Point) | ReturnHome

  datatype PatrolError = BadRoute | BadLoops

  datatype Command =
    | Takeoff
    | Goto(target: Point)
    | Patrol(route: seq<Point>)
    | Other

  datatype Shape = Shape(targets: seq<Point>, legs: seq<Edge>, altitude: Option<real>)

  /** Each point to the next. */
  function Chain(points: seq<Point>): (legs: seq<Edge>)
    ensures points == [] ==> legs == []
    ensures points != [] ==> |legs| == |points| - 1
  {
    if points == [] then [] else seq(|points| - 1, i requires 0 <= i < |points| - 1 => Edge(points[i], points[i + 1]))
  }

  /** `command_shape`, without the orbit. */
  function CommandShape(command: Command, altitude: Option<real>, here: Point): Shape {
    match command
    case Takeoff => Shape([], [], altitude)
    case Goto(t) => Shape([t], [Edge(here, t)], altitude)
    case Patrol(route) =>
      if route == [] then Shape([], [], altitude)
      else
        var last := route[|route| - 1];
        Shape(route, [Edge(here, route[0])] + Chain(route) + [Edge(last, route[0]), Edge(last, HOME)], altitude)
    case Other => Shape([], [], None)
  }

  function Repeat(route: seq<Point>, loops: nat): (path: seq<Point>)
    ensures |path| == loops * |route|
  {
    if loops == 0 then [] else route + Repeat(route, loops - 1)
  }

  /** The mission items `cmd_patrol` builds: the route once per loop, then return home and land. */
  method MissionItems(route: seq<Point>, loops: int) returns (r: Result<seq<Item>, PatrolError>)
    ensures r.Ok? <==> 1 <= |route| <= 100 && 1 <= loops <= 50 && |route| * loops <= 500
    ensures r.Ok? ==> Flown(r.value) == Repeat(route, loops) + [HOME]
    ensures r.Err? ==> (r.error.BadRoute? <==> !(1 <= |route| <= 100))
  {
    if !(1 <= |route| <= 100) {
      return Err(BadRoute);
    }
    if !(1 <= loops <= 50) || |route| * loops > 500 {
      return Err(BadLoops);
    }
    var items: seq<Item> := [];
    for pass := 0 to loops
      invariant Flown(items) == Repeat(route, pass)
    {
      ghost var before := items;
      for i := 0 to |route|
        invariant Flown(items) == Flown(before) + route[..i]
      {
        assert Flown(items + [Waypoint(route[i])]) == Flown(items) + [route[i]];
        assert route[..i + 1] == route[..i] + [route[i]];
        items := items + [Waypoint(route[i])];
      }
      assert route[..|route|] == route;
      RepeatAppends(route, pass);
    }
    return Ok(items + [ReturnHome]);
  }

  /** Where the drone is sent, item by item. */
  function Flown(items: seq<Item>): (points: seq<Point>)
    ensures |points| == |items|
  {
    seq(|items|, i requires 0 <= i < |items| => if items[i].Waypoint? then items[i].p else HOME)
  }

  lemma {:induction false} RepeatAppends(route: seq<Point>, loops: nat)
    ensures Repeat(route, loops + 1) == Repeat(route, loops) + route
  {
    if loops > 0 {
      RepeatAppends(route, loops - 1);
      assert route + (Repeat(route, loops - 1) + route) == (route + Repeat(route, loops - 1)) + route;
    }
  }

  /** Position within the route of the flight's point `i`. */
  function Wrapped(i: nat, m: nat): (r: nat)
    requires m >= 1
    ensures r < m
  {
    if i < m then i else Wrapped(i - m, m)
  }

  lemma {:induction false} NextInLoop(i: nat, m: nat)
    requires m >= 1
    ensures Wrapped(i + 1, m) == if Wrapped(i, m) == m - 1 then 0 else Wrapped(i, m) + 1
  {
    if i >= m {
      NextInLoop(i - m, m);
    }
  }

  /** Which route point each flown point is. */
  lemma {:induction false} RepeatAt(route: seq<Point>, loops: nat, i: nat)
    requires route != [] && i < |Repeat(route, loops)|
    ensures Repeat(route, loops)[i] == route[Wrapped(i, |route|)]
  {
    if i >= |route| {
      RepeatAt(route, loops - 1, i - |route|);
    }
  }

  lemma {:induction false} LastOfLastLoop(route: seq<Point>, loops: nat)
    requires route != [] && loops >= 1
    ensures |Repeat(route, loops)| >= 1
    ensures Wrapped(|Repeat(route, loops)| - 1, |route|) == |route| - 1
  {
    if loops > 1 {
      LastOfLastLoop(route, loops - 1);
    } else {
      assert Repeat(route, 0) == [];
    }
  }

  /** `command_shape` lists every leg of the whole flight, whatever the number of loops. */
  lemma EveryLegIsListed(route: seq<Point>, loops: nat, here: Point, altitude: Option<real>, i: nat)
    requires route != [] && loops >= 1 && i <= |Repeat(route, loops)|
    ensures (var path := [here] + Repeat(route, loops) + [HOME];
             Edge(path[i], path[i + 1]) in CommandShape(Patrol(route), altitude, here).legs)
  {
    var m, repeated := |route|, Repeat(route, loops);
    var path := [here] + repeated + [HOME];
    var leg := Edge(path[i], path[i + 1]);
    var legs := CommandShape(Patrol(route), altitude, here).legs;
    LastOfLastLoop(route, loops);
    if i == 0 {
      RepeatAt(route, loops, 0);
      assert legs[0] == leg;
    } else if i == |repeated| {
      RepeatAt(route, loops, i - 1);
      assert legs[m + 1] == leg;
    } else {
      RepeatAt(route, loops, i - 1);
      RepeatAt(route, loops, i);
      NextInLoop(i - 1, m);
      if Wrapped(i, m) == 0 {
        assert legs[m] == leg;
      } else {
        assert legs[Wrapped(i, m)] == leg;
      }
    }
  }

  /** And no other leg: with two loops or more, each listed leg is flown. */
  lemma EveryListedLegIsFlown(route: seq<Point>, loops: nat, here: Point, altitude: Option<real>, leg: Edge) returns (i: nat)
    requires route != [] && loops >= 2 && leg in CommandShape(Patrol(route), altitude, here).legs
    ensures i <= |Repeat(route, loops)|
    ensures (var path := [here] + Repeat(route, loops) + [HOME]; leg == Edge(path[i], path[i + 1]))
  {
    var m, repeated, again := |route|, Repeat(route, loops), Repeat(route, loops - 1);
    var legs := CommandShape(Patrol(route), altitude, here).legs;
    i :| i < |legs| && legs[i] == leg;
    assert repeated == route + again && again == route + Repeat(route, loops - 2);
    if i == m + 1 {
      LastOfLastLoop(route, loops);
      i := |repeated|;
      RepeatAt(route, loops, i - 1);
    } else {
      hide Repeat, Wrapped;
      FirstRound(route, again, here, i);
    }
  }

  /** The flight's first legs: out, along the route, and back to its start. */
  lemma FirstRound(route: seq<Point>, again: seq<Point>, here: Point, i: nat)
    requires route != [] && route <= again && i <= |route|
    ensures (var path, legs := [here] + (route + again) + [HOME], [Edge(here, route[0])] + Chain(route) + [Edge(route[|route| - 1], route[0])];
             Edge(path[i], path[i + 1]) == legs[i])
  {
  }

  // ---- How far from a checked point the drone can be ----

  /** A leg's steps are shorter than 2 m plus 2 m shared among them. */
  lemma StepLength(h: Length, leg: Edge)
    requires IsHypot(h)
    ensures Dist(h, leg.b, leg.a) < 2.0 * (LegSteps(h, leg) + 1) as real
  {
  }

  /** Every point of a leg is less than 2 m from one of its samples. */
  lemma SampleWithinTwoMeters(h: Length, leg: Edge, t: real) returns (k: nat)
    requires IsHypot(h) && 0.0 <= t <= 1.0
    ensures k < |LegSamples(h, leg)|
    ensures Dist2(Along(leg.a, leg.b, t), LegSamples(h, leg)[k]) < 4.0
  {
    var n := LegSteps(h, leg);
    k := NearestStep(n, t);
    StepPointOnLeg(leg, k as real, n as real);
    StepLength(h, leg);
    DistSquared(h, leg.b, leg.a);
    NearStep(leg, Dist(h, leg.b, leg.a), t, k as real, n as real);
  }

  lemma NearStep(leg: Edge, length: real, t: real, k: real, n: real)
    requires n >= 1.0 && -0.5 <= t * n - k <= 0.5
    requires 0.0 <= length < 2.0 * (n + 1.0) && Sq(length) == Dist2(leg.b, leg.a)
    ensures Dist2(Along(leg.a, leg.b, t), Along(leg.a, leg.b, k / n)) < 4.0
  {
    var off := t - k / n;
    OffsetInSteps(t, k, n);
    Dist2OnLeg(leg.a, leg.b, t, k / n);
    ShortOffset(off, n, t * n - k, length);
    ScaledSquare(length, off, length * off);
    assert Sq(2.0) == 4.0;
  }

  lemma OffsetInSteps(t: real, k: real, n: real)
    requires n != 0.0
    ensures (t - k / n) * n == t * n - k
  {
    assert k / n * n == k;
  }

  lemma ShortOffset(off: real, n: real, steps: real, length: real)
    requires n >= 1.0 && off * n == steps && -0.5 <= steps <= 0.5
    requires 0.0 <= length < 2.0 * (n + 1.0)
    ensures Sq(length * off) < Sq(2.0)
  {
    var size, part := if off >= 0.0 then off else -off, if off >= 0.0 then steps else -steps;
    assert size * n == part;
    assert Product(size, n - 1.0) >= 0.0;
    assert size <= 0.5;
    if size > 0.0 {
      assert Product(size, 2.0 * (n + 1.0) - length) > 0.0;
      assert length * size < 2.0 * part + 2.0 * size;
    }
    assert Product(length, size) >= 0.0;
    SquareOrder(length * size, 2.0);
    SameSquare(length, off, size);
  }

  lemma SameSquare(x: real, y: real, z: real)
    requires z == y || z == -y
    ensures Sq(x * y) == Sq(x * z)
  {
    if z == -y {
      assert x * z == -(x * y);
    }
  }

  lemma {:induction false} LegSamplesAreChecked(h: Length, path: seq<Edge>, i: nat, k: nat)
    requires IsHypot(h) && i < |path| && k < |LegSamples(h, path[i])|
    ensures Sample(LegSamples(h, path[i])[k], false) in PathSamples(h, path)
  {
    var last := |path| - 1;
    var mine := Mark(LegSamples(h, path[last]), false);
    if i < last {
      LegSamplesAreChecked(h, path[..last], i, k);
    } else {
      assert mine[k] in mine;
    }
  }

  /** An accepted patrol: every point of the flight, for every number of loops, is less than 2 m from a
    point that was found inside the inclusion polygon and in no exclusion. */
  lemma AcceptedPatrolStaysNearCheckedPoints(h: Length, loc: LocalFence, route: seq<Point>, loops: nat, here: Point,
                                             altitude: Option<real>, i: nat, t: real)
    returns (checked: Point)
    requires IsHypot(h)
    requires route != [] && loops >= 1
    requires var shape := CommandShape(Patrol(route), altitude, here);
             Accepted(h, loc, shape.targets, shape.legs, shape.altitude)
    requires i <= |Repeat(route, loops)| && 0.0 <= t <= 1.0
    ensures var path := [here] + Repeat(route, loops) + [HOME];
            Dist2(Along(path[i], path[i + 1], t), checked) < 4.0
    ensures Allowed(loc, checked)
    ensures var shape := CommandShape(Patrol(route), altitude, here);
            Sample(checked, false) in Samples(h, shape.targets, shape.legs)
  {
    var shape := CommandShape(Patrol(route), altitude, here);
    var path := [here] + Repeat(route, loops) + [HOME];
    var leg := Edge(path[i], path[i + 1]);
    EveryLegIsListed(route, loops, here, altitude, i);
    checked := AcceptedLegStaysNear(h, loc, shape.targets, shape.legs, shape.altitude, leg, t);
  }

  /** Points closer to `p` than the outline is are on the same side of it. */
  lemma SameSideWithRoom(p: Point, q: Point, poly: seq<Point>, d: real)
    requires Clears(p, poly, d) && Dist2(p, q) < Sq(d)
    ensures InsideByNorth(q, poly) == InsideByNorth(p, poly)
  {
    forall x: Point | Dist2(p, x) <= Dist2(p, q)
      ensures OffEdges(x, poly)
    {
      forall i | 0 <= i < |poly|
        ensures !OnEdge(x, Edges(poly)[i])
      {
        assert NotCloser(p, Edges(poly)[i], d);
      }
    }
    SameSideWithinClearance(p, q, poly);
  }

  /** An accepted target of any command: the open disc of 3 m around it lies wholly inside the
    inclusion polygon, and the target is in no exclusion. */
  lemma AcceptedTargetHasRoom(h: Length, loc: LocalFence, points: seq<Point>, path: seq<Edge>, altitude: Option<real>,
                              p: Point, q: Point)
    requires IsHypot(h)
    requires Accepted(h, loc, points, path, altitude) && p in points
    requires Dist2(p, q) < Sq(MARGIN_M)
    ensures Allowed(loc, p) && InsideByNorth(q, loc.inclusion)
  {
    AcceptedTarget(h, loc, points, path, altitude, p);
    SameSideWithRoom(p, q, loc.inclusion, MARGIN_M);
  }

  /** Every leg listed for an accepted command: each of its points is less than 2 m from an allowed one. */
  lemma AcceptedLegStaysNear(h: Length, loc: LocalFence, points: seq<Point>, path: seq<Edge>, altitude: Option<real>, leg: Edge, t: real)
    returns (checked: Point)
    requires IsHypot(h)
    requires Accepted(h, loc, points, path, altitude) && leg in path && 0.0 <= t <= 1.0
    ensures Dist2(Along(leg.a, leg.b, t), checked) < 4.0 && Allowed(loc, checked)
    ensures Sample(checked, false) in Samples(h, points, path)
  {
    hide Allowed, Along, LegSamples;
    var j :| 0 <= j < |path| && path[j] == leg;
    var k := SampleWithinTwoMeters(h, leg, t);
    checked := LegSamples(h, leg)[k];
    LegSamplesAreChecked(h, path, j, k);
    assert Sample(checked, false) in Samples(h, points, path);
    assert GoodSample(loc, Sample(checked, false));
  }

  /** What it means for each command to be accepted: its altitude is within the limit; every place it is sent to is allowed,
    with 3 m of room; and the way to a goto's target is never 2 m from an allowed point. */
  lemma AcceptedCommandKeepsRules(h: Length, loc: LocalFence, command: Command, altitude: Option<real>, here: Point,
                                  target: Point, q: Point, t: real)
    requires IsHypot(h)
    requires var shape := CommandShape(command, altitude, here);
             Accepted(h, loc, shape.targets, shape.legs, shape.altitude)
    ensures !command.Other? && altitude.Some? ==> altitude.value <= loc.maxAltitude
    ensures command == Goto(target) || (command.Patrol? && target in command.route) ==>
              Allowed(loc, target) && (Dist2(target, q) < 9.0 ==> InsideByNorth(q, loc.inclusion))
    ensures command == Goto(target) && 0.0 <= t <= 1.0 ==>
              exists checked :: Dist2(Along(here, target, t), checked) < 4.0 && Allowed(loc, checked)
  {
    hide Allowed, Along, Dist2, Samples, GoodSample;
    var shape := CommandShape(command, altitude, here);
    if command == Goto(target) || (command.Patrol? && target in command.route) {
      assert Sq(MARGIN_M) == 9.0;
      AcceptedTarget(h, loc, shape.targets, shape.legs, shape.altitude, target);
      if Dist2(target, q) < 9.0 {
        AcceptedTargetHasRoom(h, loc, shape.targets, shape.legs, shape.altitude, target, q);
      }
    }
    if command == Goto(target) && 0.0 <= t <= 1.0 {
      var checked := AcceptedLegStaysNear(h, loc, shape.targets, shape.legs, shape.altitude, Edge(here, target), t);
    }
  }

  /** A takeoff is checked for its altitude alone, and any other command for nothing. */
  lemma TakeoffIsCheckedForHeight(h: Length, loc: LocalFence, command: Command, altitude: Option<real>, here: Point)
    requires IsHypot(h) && (command.Takeoff? || command.Other?)
    ensures var shape := CommandShape(command, altitude, here);
            Accepted(h, loc, shape.targets, shape.legs, shape.altitude)
            <==> command.Takeoff? && altitude.Some? ==> altitude.value <= loc.maxAltitude
  {
  }

  lemma AcceptedTarget(h: Length, loc: LocalFence, points: seq<Point>, path: seq<Edge>, altitude: Option<real>, p: Point)
    requires IsHypot(h)
    requires Accepted(h, loc, points, path, altitude) && p in points
    ensures Allowed(loc, p) && Clears(p, loc.inclusion, MARGIN_M)
  {
    hide Allowed, Clears;
    var k :| 0 <= k < |points| && points[k] == p;
    assert Mark(points, true)[k] == Sample(p, true);
    assert Sample(p, true) in Samples(h, points, path);
    assert GoodSample(loc, Sample(p, true));
  }

  /** No outline of the fence is closer than 2 m. */
  ghost predicate HasRoom(loc: LocalFence, p: Point) {
    Clears(p, loc.inclusion, 2.0) && forall i :: 0 <= i < |loc.exclusions| ==> Clears(p, loc.exclusions[i], 2.0)
  }

  /** An accepted patrol with 2 m of room around every checked point keeps to the fence everywhere, not only there. */
  lemma RoomyPatrolStaysAllowed(h: Length, loc: LocalFence, route: seq<Point>, loops: nat, here: Point,
                                altitude: Option<real>, i: nat, t: real)
    requires IsHypot(h)
    requires route != [] && loops >= 1
    requires var shape := CommandShape(Patrol(route), altitude, here);
             && Accepted(h, loc, shape.targets, shape.legs, shape.altitude)
             && forall s :: s in Samples(h, shape.targets, shape.legs) ==> HasRoom(loc, s.p)
    requires i <= |Repeat(route, loops)| && 0.0 <= t <= 1.0
    ensures var path := [here] + Repeat(route, loops) + [HOME];
            Allowed(loc, Along(path[i], path[i + 1], t))
  {
    hide Accepted, CommandShape, Samples, Clears;
    var path := [here] + Repeat(route, loops) + [HOME];
    var q := Along(path[i], path[i + 1], t);
    var p := AcceptedPatrolStaysNearCheckedPoints(h, loc, route, loops, here, altitude, i, t);
    Dist2Symmetric(p, q);
    assert Sq(2.0) == 4.0;
    assert HasRoom(loc, Sample(p, false).p);
    SameSideWithRoom(p, q, loc.inclusion, 2.0);
    forall k | 0 <= k < |loc.exclusions|
      ensures !InsideByNorth(q, loc.exclusions[k])
    {
      SameSideWithRoom(p, q, loc.exclusions[k], 2.0);
    }
  }

  /** The start of every leg of an accepted patrol's flight is allowed. */
  lemma LegStartsAreAllowed(h: Length, loc: LocalFence, route: seq<Point>, loops: nat, here: Point, altitude: Option<real>, i: nat)
    requires IsHypot(h)
    requires route != [] && loops >= 1
    requires var shape := CommandShape(Patrol(route), altitude, here);
             Accepted(h, loc, shape.targets, shape.legs, shape.altitude)
    requires i <= |Repeat(route, loops)|
    ensures Allowed(loc, ([here] + Repeat(route, loops) + [HOME])[i])
  {
    hide StepPoint, Allowed;
    var shape := CommandShape(Patrol(route), altitude, here);
    var path := [here] + Repeat(route, loops) + [HOME];
    EveryLegIsListed(route, loops, here, altitude, i);
    var j :| 0 <= j < |shape.legs| && shape.legs[j] == Edge(path[i], path[i + 1]);
    StepZero(shape.legs[j], LegSteps(h, shape.legs[j]) as real);
    LegSamplesAreChecked(h, shape.legs, j, 0);
    assert Sample(path[i], false) in Samples(h, shape.targets, shape.legs);
    assert GoodSample(loc, Sample(path[i], false));
  }

  lemma StepZero(leg: Edge, n: real)
    requires n != 0.0
    ensures StepPoint(leg, 0.0, n) == leg.a
  {
    StepPointOnLeg(leg, 0.0, n);
  }

  /** The leg stays on its start's side of every outline of the fence: none is crossed an odd number of times. */
  predicate EvenlyCrossed(loc: LocalFence, p: Point, q: Point) {
    && !OddlyCrossed(p, q, loc.inclusion)
    && forall k :: 0 <= k < |loc.exclusions| ==> !OddlyCrossed(p, q, loc.exclusions[k])
  }

  lemma AllowedAlongExactly(loc: LocalFence, p: Point, q: Point)
    requires Allowed(loc, p)
    ensures Allowed(loc, q) ==> EvenlyCrossed(loc, p, q)
    ensures EvenlyCrossed(loc, p, q) ==> Allowed(loc, q)
  {
    hide OddlyCrossed, InsideByNorth;
    AnswerChangesExactlyAcross(p, q, loc.inclusion);
    forall k | 0 <= k < |loc.exclusions|
      ensures InsideByNorth(q, loc.exclusions[k]) == OddlyCrossed(p, q, loc.exclusions[k])
    {
      AnswerChangesExactlyAcross(p, q, loc.exclusions[k]);
    }
  }

  /** An accepted patrol's flight is inside the inclusion and in no exclusion at a point exactly if the leg up to that point
    crosses no outline an odd number of times. */
  lemma FlightAllowedExactly(h: Length, loc: LocalFence, route: seq<Point>, loops: nat, here: Point, altitude: Option<real>,
                             i: nat, t: real)
    requires IsHypot(h)
    requires route != [] && loops >= 1
    requires var shape := CommandShape(Patrol(route), altitude, here);
             Accepted(h, loc, shape.targets, shape.legs, shape.altitude)
    requires i <= |Repeat(route, loops)| && 0.0 <= t <= 1.0
    ensures var path := [here] + Repeat(route, loops) + [HOME];
            var p := Along(path[i], path[i + 1], t);
            Allowed(loc, p) <==> EvenlyCrossed(loc, path[i], p)
  {
    hide Allowed, EvenlyCrossed, Accepted, CommandShape;
    var path := [here] + Repeat(route, loops) + [HOME];
    LegStartsAreAllowed(h, loc, route, loops, here, altitude, i);
    AllowedAlongExactly(loc, path[i], Along(path[i], path[i + 1], t));
  }

  /** No outline of the fence meets the leg. */
  ghost predicate ClearLeg(loc: LocalFence, p: Point, q: Point) {
    Avoids(p, q, loc.inclusion) && forall k :: 0 <= k < |loc.exclusions| ==> Avoids(p, q, loc.exclusions[k])
  }

  /** So a leg of an accepted patrol that meets no outline is allowed throughout. */
  lemma ClearLegIsAllowed(h: Length, loc: LocalFence, route: seq<Point>, loops: nat, here: Point, altitude: Option<real>,
                          i: nat, t: real)
    requires IsHypot(h)
    requires route != [] && loops >= 1
    requires var shape := CommandShape(Patrol(route), altitude, here);
             Accepted(h, loc, shape.targets, shape.legs, shape.altitude)
    requires i <= |Repeat(route, loops)| && 0.0 <= t <= 1.0
    requires var path := [here] + Repeat(route, loops) + [HOME];
             ClearLeg(loc, path[i], path[i + 1])
    ensures var path := [here] + Repeat(route, loops) + [HOME];
            Allowed(loc, Along(path[i], path[i + 1], t))
  {
    hide Avoids, Along, Accepted, CommandShape, InsideByNorth;
    var path := [here] + Repeat(route, loops) + [HOME];
    var p, q := path[i], Along(path[i], path[i + 1], t);
    LegStartsAreAllowed(h, loc, route, loops, here, altitude, i);
    PrefixAvoids(p, path[i + 1], t, loc.inclusion);
    AvoidedKeepsSide(p, q, loc.inclusion);
    forall k | 0 <= k < |loc.exclusions|
      ensures !InsideByNorth(q, loc.exclusions[k])
    {
      PrefixAvoids(p, path[i + 1], t, loc.exclusions[k]);
      AvoidedKeepsSide(p, q, loc.exclusions[k]);
    }
  }

  /** Neighbouring samples are at most 2 m apart exactly on legs of up to 2 m and on legs of a whole number of them. */
  lemma TwoMetersApartExactly(h: Length, leg: Edge, k: nat)
    requires IsHypot(h) && k < LegSteps(h, leg)
    ensures (var length := Dist(h, leg.b, leg.a);
             Dist2(LegSamples(h, leg)[k], LegSamples(h, leg)[k + 1]) <= 4.0
             <==> length <= 2.0 || length == 2.0 * LegSteps(h, leg) as real)
  {
    var n := LegSteps(h, leg) as real;
    StepCovers(leg, k as real, n);
    DistSquared(h, leg.b, leg.a);
    OneStepApart(Dist(h, leg.b, leg.a), n);
  }

  lemma OneStepApart(length: real, n: real)
    requires n >= 1.0 && length >= 0.0
    ensures Product(Sq(1.0 / n), Sq(length)) <= 4.0 <==> length <= 2.0 * n
  {
    var step := 1.0 / n;
    assert step * n == 1.0;
    ScaledSquare(length, step, length * step);
    assert Product(length, step) >= 0.0;
    SquareOrder(length * step, 2.0);
    assert Sq(2.0) == 4.0;
    assert Product(step, 2.0 * n - length) == 2.0 * (step * n) - length * step;
  }

  /** The samples are not 2 m apart: a leg shorter than 4 m is checked at its two ends only. */
  lemma ShortLegCheckedAtItsEnds(h: Length, leg: Edge)
    requires IsHypot(h) && Dist(h, leg.b, leg.a) < 4.0
    ensures LegSamples(h, leg) == [leg.a, leg.b]
  {
    OneStepEnds(leg);
  }

  lemma OneStepEnds(leg: Edge)
    ensures StepPoint(leg, 0.0, 1.0) == leg.a && StepPoint(leg, 1.0, 1.0) == leg.b
  {
  }

  // ---- A no-fly area between the samples ----

  const FIELD := [Point(-50.0, -50.0), Point(50.0, -50.0), Point(50.0, 50.0), Point(-50.0, 50.0)]
  const AREA := [Point(1.5, -1.0), Point(2.4, -1.0), Point(1.95, 3.0)]

  /** So "near a checked point" cannot be strengthened to "allowed": the check accepts this patrol, to a point 3.9 m north and
    back, and half way there it is in the no-fly area. */
  lemma NoFlyAreaBetweenSamples(h: Length)
    requires IsHypot(h)
    ensures (var loc, route := LocalFence(60.0, FIELD, [AREA]), [Point(3.9, 0.0)];
             var shape, path := CommandShape(Patrol(route), None, HOME), [HOME] + Repeat(route, 1) + [HOME];
             && Accepted(h, loc, shape.targets, shape.legs, shape.altitude)
             && !Allowed(loc, Along(path[0], path[1], 0.5)))
  {
    hide InsideByNorth, Along, Accepted;
    var target := Point(3.9, 0.0);
    var shape := CommandShape(Patrol([target]), None, HOME);
    assert shape.legs == [Edge(HOME, target), Edge(target, target), Edge(target, HOME)];
    FieldAccepts(h, target);
    AnswersThere();
    HalfWay();
    assert Repeat([target], 1) == [target] + Repeat([target], 0) == [target];
    assert LocalFence(60.0, FIELD, [AREA]).exclusions[0] == AREA;
  }

  lemma HalfWay()
    ensures Along(HOME, Point(3.9, 0.0), 0.5) == Point(1.95, 0.0)
  {
  }

  lemma FieldAccepts(h: Length, target: Point)
    requires IsHypot(h) && target == Point(3.9, 0.0)
    ensures Accepted(h, LocalFence(60.0, FIELD, [AREA]), [target], [Edge(HOME, target), Edge(target, target), Edge(target, HOME)], None)
  {
    hide InsideByNorth, Clears, Samples;
    var loc, legs := LocalFence(60.0, FIELD, [AREA]), [Edge(HOME, target), Edge(target, target), Edge(target, HOME)];
    AnswersThere();
    ClearOfField(target);
    forall s | s in Samples(h, [target], legs)
      ensures GoodSample(loc, s)
    {
      OnlyTwoPoints(h, target, s);
    }
  }

  lemma AnswersThere()
    ensures InsideByNorth(HOME, FIELD) && InsideByNorth(Point(3.9, 0.0), FIELD) && InsideByNorth(Point(1.95, 0.0), AREA)
    ensures !InsideByNorth(HOME, AREA) && !InsideByNorth(Point(3.9, 0.0), AREA)
  {
    TriangleParity(Point(1.95, 0.0), AREA[0], AREA[1], AREA[2]);
    TriangleParity(HOME, AREA[0], AREA[1], AREA[2]);
    TriangleParity(Point(3.9, 0.0), AREA[0], AREA[1], AREA[2]);
    QuadrangleParity(HOME, FIELD[0], FIELD[1], FIELD[2], FIELD[3]);
    QuadrangleParity(Point(3.9, 0.0), FIELD[0], FIELD[1], FIELD[2], FIELD[3]);
  }

  /** The field's outline is more than 3 m away. */
  lemma ClearOfField(p: Point)
    requires -40.0 <= p.n <= 40.0 && -40.0 <= p.e <= 40.0
    ensures Clears(p, FIELD, MARGIN_M)
  {
    forall i | 0 <= i < |FIELD|
      ensures NotCloser(p, Edges(FIELD)[i], MARGIN_M)
    {
      var x := Edges(FIELD)[i];
      forall t: real | 0.0 <= t <= 1.0
        ensures Dist2(p, Along(x.a, x.b, t)) >= Sq(MARGIN_M)
      {
        var q := Along(x.a, x.b, t);
        assert q.n - p.n >= 3.0 || p.n - q.n >= 3.0 || q.e - p.e >= 3.0 || p.e - q.e >= 3.0;
        FarOnOneAxis(p, q);
      }
    }
  }

  lemma FarOnOneAxis(p: Point, q: Point)
    requires q.n - p.n >= 3.0 || p.n - q.n >= 3.0 || q.e - p.e >= 3.0 || p.e - q.e >= 3.0
    ensures Dist2(p, q) >= Sq(MARGIN_M)
  {
    OppositeSquare(p.n - q.n);
    OppositeSquare(p.e - q.e);
    if p.n - q.n >= 3.0 {
      SquareOrder(MARGIN_M, p.n - q.n);
    } else if q.n - p.n >= 3.0 {
      SquareOrder(MARGIN_M, q.n - p.n);
    } else if p.e - q.e >= 3.0 {
      SquareOrder(MARGIN_M, p.e - q.e);
    } else {
      SquareOrder(MARGIN_M, q.e - p.e);
    }
  }

  /** The samples of that patrol are its target and the ends of its legs. */
  lemma OnlyTwoPoints(h: Length, target: Point, s: Sample)
    requires IsHypot(h) && target == Point(3.9, 0.0)
    requires s in Samples(h, [target], [Edge(HOME, target), Edge(target, target), Edge(target, HOME)])
    ensures s.p in {HOME, target} && (s.target ==> s.p == target)
  {
    hide StepPoint;
    var a, b, c := Edge(HOME, target), Edge(target, target), Edge(target, HOME);
    LengthAlongNorth(h, 3.9);
    LengthAlongNorth(h, 0.0);
    DistSymmetric(h, target, HOME);
    ShortLegCheckedAtItsEnds(h, a);
    ShortLegCheckedAtItsEnds(h, b);
    ShortLegCheckedAtItsEnds(h, c);
    hide LegSamples, Dist, IsHypot;
    ThreeLegs(h, a, b, c);
    var path := Mark([HOME, target], false) + Mark([target, target], false) + Mark([target, HOME], false);
    assert Samples(h, [target], [a, b, c]) == Mark([target], true) + path;
  }

  lemma ThreeLegs(h: Length, a: Edge, b: Edge, c: Edge)
    requires IsHypot(h)
    ensures PathSamples(h, [a, b, c])
         == Mark(LegSamples(h, a), false) + Mark(LegSamples(h, b), false) + Mark(LegSamples(h, c), false)
  {
    hide LegSamples, Mark;
    assert [a, b, c][..2] == [a, b] && [a, b][..1] == [a] && [a][..0] == [];
    assert PathSamples(h, [a]) == Mark(LegSamples(h, a), false);
    assert PathSamples(h, [a, b]) == PathSamples(h, [a]) + Mark(LegSamples(h, b), false);
  }

  lemma TriangleParity(p: Point, a: Point, b: Point, c: Point)
    ensures InsideByNorth(p, [a, b, c]) == (CrossesNorth(p, a, b) != (CrossesNorth(p, b, c) != CrossesNorth(p, c, a)))
  {
    hide CrossesNorth;
    assert Edges([a, b, c]) == [Edge(a, b), Edge(b, c), Edge(c, a)];
    ThreeEdges(Edge(a, b), Edge(b, c), Edge(c, a), NorthTest(p));
  }

  lemma QuadrangleParity(p: Point, a: Point, b: Point, c: Point, d: Point)
    ensures InsideByNorth(p, [a, b, c, d])
         == (CrossesNorth(p, a, b) != (CrossesNorth(p, b, c) != (CrossesNorth(p, c, d) != CrossesNorth(p, d, a))))
  {
    hide CrossesNorth;
    var es := [Edge(a, b), Edge(b, c), Edge(c, d), Edge(d, a)];
    assert Edges([a, b, c, d]) == es;
    ThreeEdges(es[1], es[2], es[3], NorthTest(p));
    assert es[1..] == [es[1], es[2], es[3]];
  }

  lemma ThreeEdges(x: Edge, y: Edge, z: Edge, f: Edge -> bool)
    ensures Parity([x, y, z], f) == (f(x) != (f(y) != f(z)))
  {
    assert [x, y, z][1..] == [y, z] && [y, z][1..] == [z] && [z][1..] == [];
    assert Parity([y, z], f) == (f(y) != Parity([z], f));
  }
}
