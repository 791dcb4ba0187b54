# DroneOS in Dafny

A model of the parts of DroneOS that decide something on their own, with proofs of what they decide.
`dafny verify dfyconfig.toml` checks the whole project. Each file models one component and names its source.

| file | component |
|---|---|
| `PointInPolygon`, `SegmentCrossing`, `EdgeDistance`, `FenceCheck`, `PatrolPath` | the property fence: two point-in-polygon tests, how the answer changes along a leg, the distance to the outline, the check of a command's path, and what an accepted patrol really flies |
| `Inset`, `Stops` | the fence-check plugin: the fence moved inwards and the photo stops along it |
| `Tracking`, `Sightings` | detections tied together across frames, and the remembered sightings of confirmed objects |
| `Tiling` | the object detector's tile grid |
| `CommandQueue` | one PX4 command at a time, with replies, timeouts and callbacks that send more commands |
| `Patrol` | the PATROL flight mode and its executor |
| `JobControl`, `JobWatch` | holds on drones, jobs flown by plugins, and the watchdog over the plugins |
| `FenceLoader` | the exchange that loads the fence into PX4 and vouches for it |
| `ClientSweep` | the DDS agent's client map and the cursor that sweeps over it |
| `Follow` | the follow plugin's estimate of the followed person |
| `Planar`, `Rounding` | points, lengths and Python's rounding |

Coordinates are reals, in meters north and east of home. Real square roots cannot be computed, so whatever needs a
length takes `hypot` as a parameter and requires only that it is non-negative with the right square. Code that
changes objects in place is a class whose methods are proved to do what a function on values says; what holds over
whole runs is then proved of that function. Concurrency is a sequence of steps in any order, one step per locked or
single-threaded stretch of the source. Beside what must never happen, the runs are shown to get somewhere: what is seen is
remembered, what is sent is answered, what is launched arrives.

## What does not hold

Each of these has a concrete input, given first, and the exact condition under which the property does hold, given second.

- The two point-in-polygon tests differ on some points of an outline (`RaysDisagreeOnSlantedEdge`; `RaysDisagreeExactly`).
- The fence check does not look "every 2 m along each leg", as `fleet_api/geofence.py:148` says: a leg under 4 m is
  checked at its ends only (`ShortLegCheckedAtItsEnds`; `TwoMetersApartExactly`). The model follows the code.
- So an accepted patrol can fly through a no-fly area (`NoFlyAreaBetweenSamples`; `FlightAllowedExactly`).
- Where the fence line runs straight through a vertex, the corner of the inset line is not at that vertex but at the one
  before, and can lie on the fence itself (`StraightVertexOntoFence`; `CornerAtMitreExactly`, `StraightVertexMovesBack`).
- With a radius under 10 m the photo stops flip to the far side of home, and under 5 m they end outside the radius
  (`SmallRadiusFlipsAStop`; `LimitKeptExactly`, `NegativeLimitFlips`).
- A tile taller than the frame runs past its bottom edge (`TallTileRunsOut`; `TilesInsideFrameExactly`).
- A plan that arrives while the PATROL mode holds at a point makes it pass the new plan's first item from anywhere, and one
  that arrives while the mode's success is on its way can leave a patrol both finished and failed
  (`PlanMidLegSkipsItsFirstItem`, `PlanMidStepFinishesAndFails`; `PlanBreaksExactly`).
- Once the plugin's hold has lapsed, someone else gets the drone while the job runs on (`LapsedHoldIsTaken`;
  `LapseLetsOthersIn`).
- A malformed fence message that meets a failing upload can make the loader's status name a fence that PX4 does not
  hold (`BadMessageCanHideAFailure`; `TruthfulThroughoutExactly`).

## Model

| member | source | states |
|---|---|---|
| PointInPolygon.GeofenceInside | fleet_api/geofence.py:35-46 | the loop over (vertex, previous vertex) says whether an odd number of the polygon's edges cross the ray towards north |
| PointInPolygon.PerimeterInside | plugins/perimeter/service.py:41-46 | the loop over (vertex, next vertex) says whether an odd number of edges cross the ray towards east |
| PointInPolygon.RaysDisagreeExactly | plugins/perimeter/service.py:41-46 | on every closed polygon the two tests differ exactly if an odd number of edges run through the point itself from its strict north-east quarter to its south-west one |
| PointInPolygon.RaysAgreeOffEdges | fleet_api/geofence.py:35-46 | on every closed polygon, self-crossing or not, the two tests agree at every point off the edges |
| PointInPolygon.RaysDisagreeOnSlantedEdge | fleet_api/geofence.py:35-46 | at the middle of a slanted edge of a triangle they differ |
| PointInPolygon.StraddlesAreEven | fleet_api/geofence.py:40-46 | an even number of edges of a closed polygon change sides of any level line |
| PointInPolygon.InsideBoundingBox | fleet_api/geofence.py:35-46 | a point inside has vertices on all four sides of it |
| PointInPolygon.InsideIgnoresStart | fleet_api/geofence.py:35-46 | listing the vertices from another start does not change the answer |
| PointInPolygon.InsideIgnoresDirection | fleet_api/geofence.py:35-46 | nor does listing them backwards |
| SegmentCrossing.AnswerChangesExactlyAcross | fleet_api/geofence.py:35-46 | for any two points and any closed polygon the test answers differently exactly if an odd number of edges cross the leg between them, each edge taken from where it begins to share columns with the leg to where it ceases to |
| SegmentCrossing.CrossesExactlyIfMeets | fleet_api/geofence.py:35-46 | an edge crosses a leg in that sense exactly if they have a point in common, unless an end of one lies on the other |
| SegmentCrossing.CrossingMeets | fleet_api/geofence.py:35-46 | an edge that crosses a leg has a point in common with it |
| SegmentCrossing.AvoidedKeepsSide | fleet_api/geofence.py:35-46 | along a leg that meets no edge the answer stays |
| SegmentCrossing.SameSideWithinClearance | fleet_api/geofence.py:35-46 | two points with no edge as near to the first as the second is are on the same side |
| EdgeDistance.ProjectionIsNearest | fleet_api/geofence.py:49-57 | the clamped projection is the nearest point of an edge, also of one without length |
| EdgeDistance.OutlineDistance | fleet_api/geofence.py:49-57 | the loop's result is attained on the outline and no point of any edge is closer; none only for a polygon without vertices |
| EdgeDistance.OutlineDistanceUnique | fleet_api/geofence.py:49-57 | only one number is the distance to an outline |
| FenceCheck.Geofence.Set | fleet_api/geofence.py:107-116 | the given fence replaces the old one |
| FenceCheck.Geofence.Clear | fleet_api/geofence.py:118-122 | no fence is left |
| FenceCheck.Geofence.Local | fleet_api/geofence.py:125-132 | gives a fence exactly if there is one, home is known and home lies inside it as seen from home; the fence given is the stored one seen from home, height, inclusion and every exclusion, vertex by vertex |
| FenceCheck.Geofence.Check | fleet_api/geofence.py:137-159 | of the stored fence seen from home vertex by vertex: where home is not inside it, or there is none, everything passes; elsewhere a command passes exactly if the altitude is within the limit and every sample is inside, in no exclusion and, for targets, 3 m from the outline; a refusal names the first thing wrong |
| FenceCheck.CheckLocal | fleet_api/geofence.py:145-159 | the same of a fence already in local meters: samples collected, then tested in order |
| FenceCheck.CheckSample | fleet_api/geofence.py:151-159 | one sample passes exactly if it is good, else the error names the first failed test |
| FenceCheck.DistanceDecidesClearance | fleet_api/geofence.py:155-156 | the computed distance is at least the margin exactly if no point of the outline is closer |
| PatrolPath.MissionItems | fleet_api/fleet.py:506-564 | exactly the routes and loop counts within the limits give a mission: the route once per loop, then home |
| PatrolPath.EveryLegIsListed | fleet_api/geofence.py:188-191 | for every number of loops, every leg of the whole flight is among the legs listed for the check |
| PatrolPath.EveryListedLegIsFlown | fleet_api/geofence.py:188-191 | with two loops or more, every leg listed for the check is flown |
| PatrolPath.SampleWithinTwoMeters | fleet_api/geofence.py:148-150 | every point of a leg is less than 2 m from one of its samples |
| PatrolPath.AcceptedPatrolStaysNearCheckedPoints | fleet_api/geofence.py:145-159 | if the check accepts a patrol, every point of its whole flight is less than 2 m from a checked point inside the inclusion and in no exclusion |
| PatrolPath.FlightAllowedExactly | fleet_api/geofence.py:145-159 | an accepted patrol's flight is inside the inclusion and in no exclusion at a point exactly if the leg up to that point crosses no outline an odd number of times |
| PatrolPath.ClearLegIsAllowed | fleet_api/geofence.py:145-159 | so a leg of it that meets no outline is allowed throughout |
| PatrolPath.RoomyPatrolStaysAllowed | fleet_api/geofence.py:145-159 | if no outline is within 2 m of a checked point, the whole flight is allowed |
| PatrolPath.AcceptedTargetHasRoom | fleet_api/geofence.py:151-156 | the open disc of 3 m around an accepted target lies inside the inclusion |
| PatrolPath.AcceptedCommandKeepsRules | fleet_api/geofence.py:174-192 | whatever the command, if it is accepted its altitude is within the limit, every place it names is allowed with 3 m of room, and the way to a goto's target stays within 2 m of allowed points |
| PatrolPath.TakeoffIsCheckedForHeight | fleet_api/geofence.py:174-192 | a takeoff is accepted exactly if its altitude is within the limit, any other command without a shape always |
| PatrolPath.TwoMetersApartExactly | fleet_api/geofence.py:148-150 | neighbouring samples are at most 2 m apart exactly on legs up to 2 m and on legs of a whole number of 2 m |
| PatrolPath.ShortLegCheckedAtItsEnds | fleet_api/geofence.py:148-150 | a leg under 4 m has its two ends as only samples |
| PatrolPath.NoFlyAreaBetweenSamples | fleet_api/geofence.py:148-159 | a fence and a patrol that the check accepts and whose flight passes through a no-fly area |
| Inset.Shrink | plugins/perimeter/service.py:23-38 | the two loops give the inset polygon exactly if every edge has a length, else the division fails |
| Inset.ShrinkableExactly | plugins/perimeter/service.py:28-32 | the division works exactly if no two neighbouring vertices coincide |
| Inset.SideIsInside | plugins/perimeter/service.py:25-31 | where a point sees all edges from one side, as any vertex of a convex polygon does, that is the side the sign of the area picks, and the edges are moved to |
| Inset.ShiftedLineIsInset | plugins/perimeter/service.py:28-32 | every point of a shifted line is exactly d on the inside of its edge |
| Inset.CornerOnSecondLine | plugins/perimeter/service.py:34-37 | unless the lines count as parallel, the corner is on the second line too |
| Inset.CornerIsInset | plugins/perimeter/service.py:33-38 | every corner is d inside the edge before its vertex, and d inside the edge after it exactly if the two do not count as parallel or turn just so slightly |
| Inset.CornerAtMitreExactly | plugins/perimeter/service.py:33-38 | a corner is its own vertex's mitre point exactly if the edges do not count as parallel, or by an explicit coincidence of nearly parallel ones |
| Inset.MitreDistance | plugins/perimeter/service.py:33-38 | the mitre point's distance from the vertex, from the edges' lengths and their angle |
| Inset.StraightVertexMovesBack | plugins/perimeter/service.py:35-37 | where the edges count as parallel, the corner is the vertex before, shifted, at squared distance d squared plus the edge's length squared from its own vertex, and on a straight stretch never the mitre point |
| Inset.StraightVertexOntoFence | plugins/perimeter/service.py:35-37 | a polygon with a straight vertex whose inset has a corner on the polygon's outline |
| Stops.PlanStops | plugins/perimeter/service.py:49-63 | a plan comes exactly if no division by zero occurs; its stops are, in the order of the inset line, exactly those line stops whose clamped point is inside no exclusion, each at that point rounded to 0.1 m |
| Stops.StopsOnLine | plugins/perimeter/service.py:54-63 | the loop over the sides keeps every stop of the whole line in order |
| Stops.KeptArePlanned | plugins/perimeter/service.py:54-63 | of the line's stops exactly those outside every exclusion once clamped are flown, by an increasing map of indices |
| Stops.FewestStops | plugins/perimeter/service.py:55 | a side gets the least number of stops that keeps them within the spacing |
| Stops.StopsAreOnLine | plugins/perimeter/service.py:54-57 | every stop before clamping is a whole number of equal steps along a side of the inset line |
| Stops.LineIsCovered | plugins/perimeter/service.py:54-57 | every point of the inset line is within half the spacing of a stop before clamping |
| Stops.ClampGivesNearest | plugins/perimeter/service.py:58-60 | clamping gives the point of the disc nearest to the stop, and leaves a stop inside the disc where it is |
| Stops.KeepStop | plugins/perimeter/service.py:57-62 | one stop is clamped, then dropped or rounded |
| Stops.RawStopsSpacing | plugins/perimeter/service.py:54-57 | around the whole closed line consecutive stops are at most the spacing apart |
| Stops.ClampNeverSpreads | plugins/perimeter/service.py:58-60 | clamping to the disc never increases the distance of two points |
| Stops.ClampedStopsSpacing | plugins/perimeter/service.py:54-60 | the clamped stops keep the spacing |
| Stops.NegativeLimitFlips | plugins/perimeter/service.py:58-60 | a negative limit sends every stop to the far side of home, at the limit's distance |
| Stops.LimitKeptExactly | plugins/perimeter/service.py:52-60 | a clamped stop is within the limit exactly if the limit is not negative, and within the radius exactly if that is at least 5 m |
| Stops.SmallRadiusFlipsAStop | plugins/perimeter/service.py:52-62 | with a radius of 4 m a stop 10 m north of home is flown 6 m south of it |
| Stops.KeptStopsWithinRadius | plugins/perimeter/service.py:52-62 | rounding included, every stop kept is nearer home than the radius if that is 5.0355 m or more, and farther if it is 4.9645 m or less |
| Tiling.Windows | src/object_detector/camera_object_detector.py:208-226 | the nested loops give the grid row by row, with the whole frame in front if asked for or if there is no tile |
| Tiling.TilesRowByRow | src/object_detector/camera_object_detector.py:219-223 | tile i of row j is at its place in the list, which has as many tiles as rows times columns |
| Tiling.CountIsLeast | src/object_detector/camera_object_detector.py:217-218 | the number of tiles is the least that can cover the stretch |
| Tiling.NoGap | src/object_detector/camera_object_detector.py:220-222 | despite rounding ties to even, neighbouring origins are never more than a tile apart |
| Tiling.OriginsSpreadEvenly | src/object_detector/camera_object_detector.py:220-222 | neighbouring origins are an equal share of the stretch apart, to within a pixel |
| Tiling.BandCovered | src/object_detector/camera_object_detector.py:213-223 | every pixel of the band is in some tile |
| Tiling.AskedRowsAreTiled | src/object_detector/camera_object_detector.py:214-223 | every pixel of the rows from tile_top to tile_bottom of the height is in some tile |
| Tiling.TilesKeepToAskedRows | src/object_detector/camera_object_detector.py:214-223 | and no tile reaches more than a row's rounding beyond those rows, if one tile fits between them |
| Tiling.TilesInsideBand | src/object_detector/camera_object_detector.py:213-223 | every tile is a full square inside the band, which ends in the frame exactly if the tile is not taller than the frame |
| Tiling.TilesInsideFrameExactly | src/object_detector/camera_object_detector.py:213-223 | all tiles are inside the frame exactly if the tile is not taller than it |
| Tiling.TallTileRunsOut | src/object_detector/camera_object_detector.py:213-223 | a 300-pixel tile on a frame 200 pixels high |
| Tracking.DetectionTracker.Update | fleet_api/fleet.py:685-713 | each object ends in its own track; a gated pair that was not chosen gave way to a match of its object or track at no larger distance, before smoothing; each live track took exactly its hit; the rest are new; exactly the newly confirmed are returned |
| Tracking.DetectionTracker.AddTracks | fleet_api/fleet.py:702-712 | the unmatched objects get new tracks with fresh ids, in order |
| Tracking.GatedPairs | fleet_api/fleet.py:690-695 | the nested loops list exactly the pairs that pass the gate |
| Tracking.MatchNearest | fleet_api/fleet.py:696-701 | going through the sorted pairs settles each of them |
| Tracking.FramesKeepTracksSound | fleet_api/fleet.py:718-733 | a frame keeps every track's hits recent and confirms a track only with three hits in four seconds |
| Tracking.TakenExactly | fleet_api/fleet.py:666-701 | a track known before takes only objects of its group and within reach, 3 m and a tenth of the range on the ground or 0.06 in the image; where one within reach did not go to it, the object or the track was taken by something no further away |
| Tracking.SameGroupExactly | fleet_api/fleet.py:652 | cars, trucks, buses and motorcycles are one group, every other label its own |
| Tracking.HitMovesCloser | fleet_api/fleet.py:718-723 | a hit moves a track three tenths of the way to its object, on the ground only if both have a spot |
| Tracking.SeenThriceIsConfirmed | fleet_api/fleet.py:685-733 | an object that is new and alone of its group, seen in three frames within 4 s at spots within 3 m of each other, is confirmed in the third and not before |
| Sightings.SightingLog.Update | fleet_api/fleet.py:767-805 | adds, refreshes and prunes as the frame's step on values says; returns one sighting for exactly those new tracks with a spot near which there was none yet, of earlier frames or of the tracks before, in order |
| Sightings.SightingLog.AddNew | fleet_api/fleet.py:769-795 | the loop over the newly confirmed tracks |
| Sightings.ProcessFrame | fleet_api/fleet.py:210-215 | a frame goes to the tracker, then to the sightings |
| Sightings.FrameKeepsInv | fleet_api/fleet.py:767-805 | a frame no earlier than the last keeps sightings apart and every live confirmed track's sighting as fresh as the track |
| Sightings.RunKeepsTracksSound | fleet_api/fleet.py:718-733 | in every run a track's hits end with its last and are at most four seconds older, and an unconfirmed one has fewer than three |
| Sightings.ConfirmedMeansSeenThrice | fleet_api/fleet.py:718-733 | in every run a confirmed track had, at some moment, three hits within four seconds |
| Sightings.SightingsWereSeenThrice | fleet_api/fleet.py:767-805 | in every run every remembered sighting is of the group and at the spot of some track at a moment when it had three hits within four seconds |
| Sightings.ConfirmedIsRemembered | fleet_api/fleet.py:767-805 | in every run a track with a spot that a frame confirms has, after it, a sighting of its group within 8 m, seen in that frame, unless 200 others are remembered |
| Sightings.SeenThriceIsRemembered | fleet_api/fleet.py:685-805 | so what is seen for the first time in three such frames of a run, alone of its group, is then a remembered sighting |
| Sightings.SightingStaysExactly | fleet_api/fleet.py:802 | in every run a sighting stays through a frame exactly if it was seen in the 600 s before and 200 later ones do not crowd it out; it stays where it was |
| Sightings.SightingsStayApart | fleet_api/fleet.py:767-805 | in every run, at every moment, two remembered sightings of one group are more than 7.9 m apart |
| CommandQueue.DroneAgent.SendVehicleCommand | src/drone_core/src/drone_core/drone_agent.cpp:46-69 | the command is queued, and sent at once if none is in flight |
| CommandQueue.DroneAgent.SendVehicleCommandFull | src/drone_core/src/drone_core/drone_agent.cpp:71-94 | the same, with the callback told of timeouts |
| CommandQueue.DroneAgent.SendCommand | src/drone_core/src/drone_core/drone_agent.cpp:96-118 | the same, with the full ack |
| CommandQueue.DroneAgent.SendNextCommand | src/drone_core/src/drone_core/drone_agent.cpp:168-251 | the oldest waiting command goes out with the next number and its callbacks stand ready for its timeout |
| CommandQueue.DroneAgent.ReplyArrived | src/drone_core/src/drone_core/drone_agent.cpp:193-216 | a reply that is not to the command in flight changes nothing; else the callbacks run, submitting more if they like, and the next command goes out |
| CommandQueue.DroneAgent.TimerFired | src/drone_core/src/drone_core/drone_agent.cpp:221-250 | a timeout sends the next command first, then runs the callbacks it owes |
| CommandQueue.DroneAgent.RunTimeoutCallbacks | src/drone_core/src/drone_core/drone_agent.cpp:239-248 | which callbacks a timeout owes, by the effect seen |
| CommandQueue.DroneAgent.FinishCommand | src/drone_core/src/drone_core/drone_agent.cpp:253-264 | only the command in flight can be finished |
| CommandQueue.StepKeepsInv | src/drone_core/src/drone_core/drone_agent.cpp:168-264 | every submission, reply and timeout keeps the books: who is in flight, who is owed a callback, who has had one |
| CommandQueue.CommandsGoOutInOrder | src/drone_core/src/drone_core/drone_agent.cpp:168-180 | in every run the commands sent, then those waiting, are those submitted in order; nothing waits while none is in flight; sent is acked plus unacked plus the one in flight |
| CommandQueue.LateReplyIsIgnored | src/drone_core/src/drone_core/drone_agent.cpp:196-198 | a reply or timer of an ended command changes nothing |
| CommandQueue.ReplyEndsItsCommand | src/drone_core/src/drone_core/drone_agent.cpp:193-216 | in every run a reply to the command in flight ends that command and no other, counts as answered, and its callbacks were told just what the reply says |
| CommandQueue.TimerEndsItsCommand | src/drone_core/src/drone_core/drone_agent.cpp:221-250 | in every run the timer of the command in flight ends that command and no other by the effect seen: the counters say so, and its callbacks were told 0 if the effect was seen and 255 if not, a plain one only the former |
| CommandQueue.SubmittedArrives | src/drone_core/src/drone_core/drone_agent.cpp:46-118 | in every run each event adds to the submitted commands just what it submits, callbacks included, in order |
| CommandQueue.CallbacksRunOnce | src/drone_core/src/drone_core/drone_agent.cpp:193-250 | in every run, the very calls made for each command: none until it ends; then its own callback once with the result (after a timeout only if it hears of those or the effect was seen) and its own ack callback once with the reply's fields |
| CommandQueue.QueueDrains | src/drone_core/src/drone_core/drone_agent.cpp:221-264 | even without any reply, one timer after the other ends every command submitted |
| Patrol.Progress.Fail | src/drone_patrol/src/patrol_node.cpp:47-51 | a failed patrol is no longer running |
| Patrol.PatrolMode.StartLeg | src/drone_patrol/src/patrol_node.cpp:142-153 | a leg starts now, not reached, with its timeout |
| Patrol.PatrolMode.UpdateSetpoint | src/drone_patrol/src/patrol_node.cpp:77-139 | one tick does what the step on values says, and reports what it says |
| Patrol.PatrolExecutor.OnActivate | src/drone_patrol/src/patrol_node.cpp:203-237 | the executor takes off first, patrols, or fails |
| Patrol.PatrolExecutor.OnStepEnded | src/drone_patrol/src/patrol_node.cpp:230-288 | the end of its step makes it patrol, finish or fail |
| Patrol.OnPlan | src/drone_patrol/src/patrol_node.cpp:345-358 | a plan resets the progress, not the mode's leg |
| Patrol.LegTimeoutRange | src/drone_patrol/src/patrol_node.cpp:146-149 | a leg's timeout is 10 to 300 s times the multiplier |
| Patrol.RunStaysOnRoute | src/drone_patrol/src/patrol_node.cpp:43-46 | in every run the current item is at or after the start item and no item passed was an end item; a running patrol has neither finished nor failed |
| Patrol.RunsExactlyInCharge | src/drone_patrol/src/patrol_node.cpp:203-288 | in every run a patrol runs only while the executor is in charge, and while it waits for a step exactly if it has not failed |
| Patrol.CurrentMovesByOne | src/drone_patrol/src/patrol_node.cpp:112-139 | the current item moves by one exactly at a tick with the point reached and held, and such a tick neither fails nor finishes the patrol |
| Patrol.TickFailsExactly | src/drone_patrol/src/patrol_node.cpp:119-129 | in every run a tick that flies fails the patrol exactly if no tick of this leg was at its item's point and the leg's first tick is as long ago as the timeout for the distance seen then |
| Patrol.FailsExactlyWhen | src/drone_patrol/src/patrol_node.cpp:77-288 | in every run what fails a patrol: no plan, a lost position, a leg's time being up, a start from the ground without takeoff altitude, a step that failed |
| Patrol.FinishesExactlyWhen | src/drone_patrol/src/patrol_node.cpp:250-263 | in every run a patrol finishes exactly at the end of the executor's patrol step once the mode reported success |
| Patrol.FinishedMeansFlown | src/drone_patrol/src/patrol_node.cpp:77-139 | while plans come only when they may, a patrol never both finishes and fails, finishes at the first end item only, and every item it passed was flown to within its radius and held for its time |
| Patrol.PlanBreaksExactly | src/drone_patrol/src/patrol_node.cpp:345-358 | that stays so in every continuation without another plan exactly if the plan finds no point reached, unless it has nothing to fly, and no success under way, unless it has items and nothing to fly |
| Patrol.PlanMidLegSkipsItsFirstItem | src/drone_patrol/src/patrol_node.cpp:345-358 | a plan that comes during a hold is advanced past an item 1000 m away |
| Patrol.PlanMidStepFinishesAndFails | src/drone_patrol/src/patrol_node.cpp:253-263 | a plan that comes between the mode's success and its callback ends finished and failed |
| Patrol.PatrolEnds | src/drone_patrol/src/patrol_node.cpp:77-151 | an active patrol with an unchanged plan ends: 300 s times the multiplier, the hold time and three ticks per leg bound its time, wherever the drone flies |
| Patrol.PatrolFliesItsRoute | src/drone_patrol/src/patrol_node.cpp:77-153 | a drone that closes in on each item at least at the plan's pace, with a valid position and legs within the 300 s cap, never fails the patrol and gets to its end item |
| Patrol.LaunchedPatrolFinishes | src/drone_patrol/src/patrol_node.cpp:77-263 | from the arrival of any plan with items, in the air or after a takeoff, such a drone finishes the patrol |
| JobControl.Control.WhoHolds | fleet_api/app.py:84-91 | the holder, unless the hold is over 15 minutes old, in which case it is gone |
| JobControl.Control.Claim | fleet_api/app.py:93-104 | granted exactly if forced, free or one's own; names whom it was taken from; keeps the start of one's own hold |
| JobControl.Control.Release | fleet_api/app.py:106-114 | granted exactly if forced, free or one's own |
| JobControl.JobStore.Begin | fleet_api/jobs.py:275-285 | a job begins exactly if the drone has none |
| JobControl.JobStore.EndJob | fleet_api/jobs.py:298-310 | the drone's job moves to the history, but not if another job's id is given |
| JobControl.FleetApi.StopJobOf | fleet_api/app.py:664-681 | anyone but the job's plugin ends it as stopped and frees the plugin's hold |
| JobControl.FleetApi.HandleTakeControl | fleet_api/app.py:630-640 | a take-over stops the job |
| JobControl.FleetApi.HandleReleaseControl | fleet_api/app.py:643-649 | a release does not touch the job |
| JobControl.FleetApi.HandleStartJob | fleet_api/app.py:739-771 | a job begins and its plugin gets the hold, both undone if the plugin refuses; else its reply is the job's text |
| JobControl.FleetApi.HandleUpdateJob | fleet_api/app.py:774-780 | only the job's plugin updates it |
| JobControl.FleetApi.HandleEndJob | fleet_api/app.py:783-797 | the plugin ends its job with a result, anyone else stops it |
| JobControl.FleetApi.HandleCommand | fleet_api/app.py:837-847 | before a command: safety commands need no hold, others do; the drone is claimed if it may be |
| JobControl.FleetApi.HandleCommandDone | fleet_api/app.py:853-855 | after it went through, with other handlers in between: landing, returning and killing stop the job |
| JobControl.FleetApi.EndOrphan | fleet_api/app.py:276-281 | the job of a landed drone ends as failed |
| JobControl.FleetApi.EndLost | fleet_api/app.py:355-358 | only the job with the given id ends |
| JobControl.StepKeepsPluginsHold | fleet_api/app.py:630-856 | every handler keeps each drone with a job held by the job's plugin, unless a hold lapsed or was released |
| JobControl.PluginHoldsItsDrone | fleet_api/app.py:630-856 | so it is throughout every run without a lapse or a release during a job |
| JobControl.ReleaseBreaksPluginsHold | fleet_api/app.py:643-649 | a release breaks it exactly if the drone has a job and the release is forced or by the job's plugin |
| JobControl.LapseLetsOthersIn | fleet_api/app.py:84-104 | someone else gets a drone whose job goes on exactly if the plugin's hold has lapsed |
| JobControl.LapsedHoldIsTaken | fleet_api/app.py:84-104 | a run in which that happens, 901 s after a job began |
| JobControl.JobEndsExactlyWhen | fleet_api/app.py:630-856 | a job ends exactly by a forced take-over, a landing, return or kill by anyone but the plugin, its end under the right id, or a watchdog; the history then has it with the plugin's result, or stopped, or failed, and the drone is free or its new holder's; until then only its plugin changes its text |
| JobControl.JobBeginsExactlyWhen | fleet_api/app.py:739-771 | a drone gets a job exactly if it has none, the plugin is known and accepts, and nobody but the starter or the plugin holds the drone; the plugin then holds it, and its reply is the job's text; a refused one is in the history as failed and the drone is free |
| JobControl.HoldIsLostExactly | fleet_api/app.py:630-856 | a person's hold is lost exactly by a forced take-over by another, their release or a forced one, or a job they start |
| JobControl.CommandTakesHold | fleet_api/app.py:837-847 | who commands or takes a free drone or their own holds it from then on, with their start kept; another's is refused but for safety commands and force |
| JobControl.HoldIsExclusive | fleet_api/app.py:630-856 | through any run of events, a person who holds a drone keeps it and others' commands are refused, until they lose it or 15 minutes pass |
| JobControl.StepKeepsLedger | fleet_api/jobs.py:275-310 | every handler keeps each begun job in one place and the history as it was |
| JobControl.EveryJobIsKeptOnce | fleet_api/jobs.py:275-310 | in every run, lapses and releases included, every job ever begun is active or in the history, never both and never twice, and the history only grows |
| JobWatch.PluginWatch.Prune | fleet_api/app.py:329-331 | jobs no longer active are forgotten |
| JobWatch.PluginWatch.Check | fleet_api/app.py:336-351 | a job is given up exactly if its plugin does not answer, has not for 15 s, and nothing onboard flies it |
| JobWatch.CheckKeepsFailing | fleet_api/app.py:336-351 | a job counts as lost since a check from which on every check of it failed |
| JobWatch.WatchdogEndsOnlyLostJobs | fleet_api/app.py:325-358 | whatever other handlers do in between, the watchdog ends only the very job it checked, and only after every check of that job over at least 15 s failed and nothing onboard was flying it at the last one |
| JobWatch.LostJobIsGivenUp | fleet_api/app.py:325-351 | after a failed check of a job, whatever goes on meanwhile, the first check 15 s or more later that finds nothing flying it gives it up, unless its plugin is heard from |
| ClientSweep.Root.CreateClient | Micro-XRCE-DDS-Agent/src/cpp/Root.cpp:52-156 | valid requests register the client, replace it on a new session and leave it on the same one; the cursor stays |
| ClientSweep.Root.Erase | Micro-XRCE-DDS-Agent/src/cpp/Root.cpp:181-187 | the client is gone and a cursor at it moves to the next key |
| ClientSweep.Root.DeleteClient | Micro-XRCE-DDS-Agent/src/cpp/Root.cpp:176-204 | a registered client is erased, an unknown one reported |
| ClientSweep.Root.GetClient | Micro-XRCE-DDS-Agent/src/cpp/Root.cpp:206-216 | the client under the key, if there is one |
| ClientSweep.Root.GetNextClient | Micro-XRCE-DDS-Agent/src/cpp/Root.cpp:218-233 | the client at the cursor, which moves on; at the end none, and the cursor goes back to the first key |
| ClientSweep.Root.Reset | Micro-XRCE-DDS-Agent/src/cpp/Root.cpp:303-313 | no client is left and the cursor is at the end |
| ClientSweep.RegisteredExactly | Micro-XRCE-DDS-Agent/src/cpp/Root.cpp:77-313 | in every interleaving a client is registered with a session exactly if the last thing that happened to its key was its creation with that session |
| ClientSweep.ProxyStaysExactly | Micro-XRCE-DDS-Agent/src/cpp/Root.cpp:117-129 | a client that comes again with its session keeps its proxy, with another it gets a new one, and no step changes another client's |
| ClientSweep.CursorStaysLive | Micro-XRCE-DDS-Agent/src/cpp/Root.cpp:176-233 | in every interleaving the cursor is at a registered client or at the end |
| ClientSweep.SweepReturnsEachOnce | Micro-XRCE-DDS-Agent/src/cpp/Root.cpp:176-233 | between two empty-handed calls the clients come in key order, none twice, and each one registered all along exactly once |
| ClientSweep.SweepEnds | Micro-XRCE-DDS-Agent/src/cpp/Root.cpp:218-233 | a sweep left alone ends after as many calls as there are clients ahead |
| FenceLoader.ToItems | src/geofence_loader/geofence_loader.py:137-155 | a fence becomes items exactly if every polygon has three vertices on the globe once its closing vertex is dropped, and all fit |
| FenceLoader.FenceRoundTrip | src/geofence_loader/geofence_loader.py:137-155 | grouping the items by their counts gives back the inclusion, then the exclusions |
| FenceLoader.KeptPasses | src/geofence_loader/geofence_loader.py:158-160 | a PX4 that keeps the integers it was sent always passes the comparison |
| FenceLoader.SameIsTheFence | src/geofence_loader/geofence_loader.py:158-160 | what passes the comparison groups into the same polygons, each vertex within 2e-7 degrees |
| FenceLoader.Upload | src/geofence_loader/geofence_loader.py:71-94 | goes as the attempts on values go; on success every item was sent in the last attempt, under its index and as its integers, and nothing else |
| FenceLoader.AskingForAllSucceeds | src/geofence_loader/geofence_loader.py:76-92 | asking for every item, in any order and repeatedly, and then accepting makes the upload succeed |
| FenceLoader.AttemptSucceedsExactly | src/geofence_loader/geofence_loader.py:76-92 | an attempt succeeds exactly if PX4 accepts the fence after asking for every item, and before that neither fell silent, nor asked for an item that is not there, nor answered about the fence |
| FenceLoader.SilenceIsRetriedTwice | src/geofence_loader/geofence_loader.py:73-94 | an attempt that PX4 leaves unanswered is followed by another, up to the third |
| FenceLoader.Loader.OnFence | src/geofence_loader/geofence_loader.py:184-199 | a good message becomes the wanted fence, a bad one only sets the error |
| FenceLoader.Loader.Apply | src/geofence_loader/geofence_loader.py:201-217 | succeeds exactly if the link, the upload, the read-back, the comparison and the ceiling all do |
| FenceLoader.Loader.Wake | src/geofence_loader/geofence_loader.py:222-244 | the worker applies what is new, what failed 15 s ago, and what PX4 no longer holds after 30 s |
| FenceLoader.Loader.Work | src/geofence_loader/geofence_loader.py:245-256 | the status names the fence on success and none on failure |
| FenceLoader.WorkerActsExactly | src/geofence_loader/geofence_loader.py:222-244 | in every run a worker that wakes applies the wanted fence exactly if it is new, or has failed and was last tried 15 s ago or more, or is in force, was last looked at over 30 s ago and PX4 gives back another |
| FenceLoader.TriesAreApart | src/geofence_loader/geofence_loader.py:222-256 | in every run two tries without a new fence in between are at least 15 s apart |
| FenceLoader.MessageIsLoaded | src/geofence_loader/geofence_loader.py:137-256 | from the arrival of any fence that fits, over a good link to a PX4 that asks for all and keeps what it is sent: PX4 then holds the inclusion and the exclusions of that message, closing vertices dropped, with its ceiling, and the status names it |
| FenceLoader.ClearIsLoaded | src/geofence_loader/geofence_loader.py:184-256 | a message without a fence clears it, with a ceiling of 120 m |
| FenceLoader.MessageIsGoodExactly | src/geofence_loader/geofence_loader.py:184-195 | a message is a good one exactly if it clears, or its fence fits and its ceiling is above 0 and at most 10000 m |
| FenceLoader.TruthfulThroughoutExactly | src/geofence_loader/geofence_loader.py:184-257 | in every run the status names the last fence applied and read back, or none after a failure, throughout exactly if every bad message's status is stored with the hash that is there by then |
| FenceLoader.HashIsVouchedFor | src/geofence_loader/geofence_loader.py:184-257 | in every such run a hash in the status is that of the last fence applied, with no failure since: the link, the upload, the read-back and the ceiling all went through, and PX4 gave back exactly its polygons |
| FenceLoader.StaleStatusLies | src/geofence_loader/geofence_loader.py:184-257 | a step keeps the status truthful exactly if it stores no other hash than the one there |
| FenceLoader.BadMessageCanHideAFailure | src/geofence_loader/geofence_loader.py:193 | a run of eight events after which the status names a fence though the last attempt failed |
| FenceLoader.FaithfulPx4Loads | src/geofence_loader/geofence_loader.py:201-248 | over a good link to a PX4 that asks for all and keeps what it is sent, the fence gets loaded |
| Follow.Target.Pick | plugins/follow/service.py:76-93 | the first of the acceptable people nearest to the prediction, none only if nobody is acceptable |
| Follow.Target.NoteBystanders | plugins/follow/service.py:53-61 | everyone else confirmed over 4 m away refreshes the first bystander within 3 m or becomes one |
| Follow.Target.Update | plugins/follow/service.py:65-106 | the chosen person moves the estimate; without one only old bystanders are forgotten |
| Follow.FoundExactly | plugins/follow/service.py:65-95 | a frame finds the followed person exactly if someone in it is near enough to the prediction and to the last fix and not where a bystander of the last two minutes stood, unless the followed person stands near one too; and it takes one nearest to the prediction |
| Follow.SpeedStaysBelowWalking | plugins/follow/service.py:97-106 | in every run the estimated speed stays below 3 m/s |
| Follow.PredictionStaysNear | plugins/follow/service.py:49-51 | so a prediction for any time is less than 9 m from the last fix |
| Follow.StillPersonIsFound | plugins/follow/service.py:65-106 | a person first seen within 1 m who stands still, alone in frames at even intervals over 0.2 and up to 3 s, is found in every one, and the squared distance of the estimate from them halves from frame to frame, up to a factor of 1.8 |
| Follow.BystanderIsNotTaken | plugins/follow/service.py:53-92 | whoever was seen aside is not taken for the followed person at the same spot for two minutes, unless the followed person stands at a bystander's place |
| Follow.BystandersWereAside | plugins/follow/service.py:53-70 | a frame makes nobody a bystander but those confirmed over 4 m from the person it took |

## Left out

- Floating-point error and NaN: coordinates, times and degrees are reals; rounding to 0.1 m, 0.01 s, whole pixels and 1e-7 degrees is modelled.
- Projection and trigonometry: `to_ne` is a parameter of the fence check; orbits, ground points, headings and courses are not modelled.
- Fence validation: the reader of fence files and messages (size, closing, saving) is not part of this model.
- FenceCheck.Geofence.Set: the body's validation, its time stamp and author, and saving are left out.
- FenceCheck.Geofence.Check: exclusions are looked at in the samples and without a margin, as in the code; what keeps the path between samples out of them is `PatrolPath.FlightAllowedExactly`.
- PatrolPath.MissionItems: altitude, hold, radius and speed limits, takeoff and the mission upload are left out.
- Tracking: labels, scores, boxes and counts of a track are not kept; a detection's box is its centre.
- Sightings: label, score, latitude and longitude, frames and first_seen are not kept, and a sighting is known by its id where the code shares the object.
- Tiling: tile sizes below 1 pixel, inference, overlap and the suppression of double detections.
- CommandQueue.DroneAgent.ReplyArrived: the callback is the caller's or the default one that does nothing; an empty function object, which would throw, is not modelled.
- CommandQueue: the wait for the service and its client are not modelled; counters do not wrap.
- Patrol: status text and reasons, headings and setpoints, and what PX4 does after the executor asks for return, landing or hold; the library reports to the executor the mode's own first result.
- JobControl: each handler is one step at one clock reading, and the plugin set does not change; only a command, which takes a while between its two steps, and `check_plugins`, whose end of a job names the job, are interleaved with others.
- JobControl.FleetApi.EndOrphan: when `check_orphans` gives a job up (landed for 120 s) is left to the caller.
- JobWatch: the order in which a round visits its drones is arbitrary, which includes the code's.
- FenceLoader.Upload: waiting times are the silence heard; the download's retries and `set_param` are outcomes given to `Apply`.
- ClientSweep: sessions, properties and the release of middleware entities.
- Follow.Target.Update: the camera operator loop around it, with its standoff and fence, is not modelled.
- Accounts, tokens, roles, plugin installation, dispatch, the AI bridge, recordings, photos and the web pages: table look-ups, network and display.
