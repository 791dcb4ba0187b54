/** Remembered sightings of confirmed objects (`Sightings` in `fleet_api/fleet.py`), and what holds of
  them in every run together with the tracker that feeds them. */
module Sightings {
  import opened Planar
  import opened Rounding
  import opened Tracking

  const SIGHTING_RADIUS := 8.0
  const SIGHTING_MEMORY := 600.0
  const KEEP_AT_MOST := 200

  /** The closest two remembered sightings of one group can be: the radius less what rounding can take. */
  const APART := 7.9

  datatype Sighting = Sighting(id: nat, group: string, at: Point, lastSeen: real)

  /** The sightings, which sighting each track belongs to, and the id counter. */
  datatype Log = Log(list: seq<Sighting>, byTrack: map<nat, nat>, next: nat)

  predicate Remembered(s: Sighting, now: real) {
    now - s.lastSeen <= SIGHTING_MEMORY
  }

  predicate Near(h: Length, s: Sighting, t: Track, now: real)
    requires t.spot.Some?
  {
    s.group == t.group && Remembered(s, now) && Dist(h, s.at, t.spot.value) <= SIGHTING_RADIUS
  }

  /** The first sighting near the track. */
  function FirstNear(h: Length, list: seq<Sighting>, t: Track, now: real): (r: Option<nat>)
    requires t.spot.Some?
    ensures r.Some? ==> r.value < |list| && Near(h, list[r.value], t, now)
    ensures r.None? ==> forall x :: 0 <= x < |list| ==> !Near(h, list[x], t, now)
  {
    if list == [] then None
    else
      var before := FirstNear(h, list[..|list| - 1], t, now);
      if before.Some? then before
      else if Near(h, list[|list| - 1], t, now) then Some(|list| - 1)
      else None
  }

  /** A newly confirmed track: that sighting again, or a new one. Tracks without a ground spot are no place. */
  function AddTrack(h: Length, log: Log, t: Track, now: real): Log {
    if t.spot.None? then log
    else
      var near := FirstNear(h, log.list, t, now);
      if near.Some? then log.(byTrack := log.byTrack[t.id := log.list[near.value].id])
      else
        Log(log.list + [Sighting(log.next, t.group, RoundPoint(t.spot.value), RoundHundredth(now))],
            log.byTrack[t.id := log.next], log.next + 1)
  }

  function AddTracks(h: Length, log: Log, tracks: seq<Track>, now: real): Log {
    if tracks == [] then log else AddTrack(h, AddTracks(h, log, tracks[..|tracks| - 1], now), tracks[|tracks| - 1], now)
  }

  function Seen(list: seq<Sighting>, id: nat, now: real): (r: seq<Sighting>)
    ensures |r| == |list|
  {
    seq(|list|, x requires 0 <= x < |list| => if list[x].id == id then list[x].(lastSeen := RoundHundredth(now)) else list[x])
  }

  /** A confirmed object in the frame keeps its sighting fresh. */
  function Refresh(log: Log, m: Mark, now: real): Log {
    if m.confirmed && m.track in log.byTrack then log.(list := Seen(log.list, log.byTrack[m.track], now)) else log
  }

  function RefreshAll(log: Log, marks: seq<Mark>, now: real): Log {
    if marks == [] then log else Refresh(RefreshAll(log, marks[..|marks| - 1], now), marks[|marks| - 1], now)
  }

  function Unexpired(list: seq<Sighting>, now: real): (r: seq<Sighting>)
    ensures forall s :: s in r <==> s in list && Remembered(s, now)
  {
    if list == [] then []
    else Unexpired(list[..|list| - 1], now) + (if Remembered(list[|list| - 1], now) then [list[|list| - 1]] else [])
  }

  function Newest<T>(list: seq<T>, n: nat): seq<T> {
    if |list| <= n then list else list[|list| - n..]
  }

  predicate HasSighting(list: seq<Sighting>, id: nat) {
    exists x :: 0 <= x < |list| && list[x].id == id
  }

  predicate HasTrack(tracks: seq<Track>, id: nat) {
    exists j :: 0 <= j < |tracks| && tracks[j].id == id
  }

  /** Expired sightings and the oldest over 200 go, and with them the tracks that pointed to them or died. */
  function Prune(log: Log, tracks: seq<Track>, now: real): Log {
    var kept := Newest(Unexpired(log.list, now), KEEP_AT_MOST);
    log.(list := kept,
         byTrack := map k | k in log.byTrack && HasSighting(kept, log.byTrack[k]) && HasTrack(tracks, k) :: log.byTrack[k])
  }

  /** One frame's update. */
  function LogStep(h: Length, log: Log, newly: seq<Track>, now: real, marks: seq<Mark>, tracks: seq<Track>): Log {
    Prune(RefreshAll(AddTracks(h, log, newly, now), marks, now), tracks, now)
  }

  /** The sighting is of the track's group, at the track's spot to 0.1 m. */
  predicate Placed(s: Sighting, t: Track) {
    t.spot.Some? && s.group == t.group && s.at == RoundPoint(t.spot.value)
  }

  /** `made` are the tracks a sighting was found for: exactly those with a spot near which there was none yet, neither of
    the earlier frames nor of the tracks before. */
  ghost predicate MadeFor(h: Length, list: seq<Sighting>, newly: seq<Track>, now: real, found: seq<Sighting>, made: seq<nat>) {
    && |made| == |found|
    && (forall m, m' :: 0 <= m < m' < |made| ==> made[m] < made[m'])
    && (forall m :: 0 <= m < |made| ==>
          made[m] < |newly| && Placed(found[m], newly[made[m]]) && found[m].lastSeen == RoundHundredth(now))
    && (forall k: nat :: k < |newly| ==> (k in made <==> NewPlace(h, list, newly[k], now, found, made, k)))
  }

  ghost predicate NewPlace(h: Length, list: seq<Sighting>, t: Track, now: real, found: seq<Sighting>, made: seq<nat>, k: nat)
    requires |made| == |found|
  {
    && t.spot.Some?
    && (forall x :: 0 <= x < |list| ==> !Near(h, list[x], t, now))
    && (forall m :: 0 <= m < |made| && made[m] < k ==> !Near(h, found[m], t, now))
  }

  class SightingLog {
    var list: seq<Sighting>
    var byTrack: map<nat, nat>
    var next: nat

    ghost function State(): Log
      reads this
    {
      Log(list, byTrack, next)
    }

    constructor ()
      ensures State() == Log([], map[], 1)
    {
      list, byTrack, next := [], map[], 1;
    }

    /** `found` are the sightings that are new with this frame. */
    method Update(h: Length, newly: seq<Track>, now: real, marks: seq<Mark>, tracks: seq<Track>) returns (found: seq<Sighting>)
      modifies this
      ensures State() == LogStep(h, old(State()), newly, now, marks, tracks)
      ensures exists made :: MadeFor(h, old(list), newly, now, found, made)
    {
      hide AddTracks, MadeFor;
      found := AddNew(h, newly, now);
      ghost var added := State();
      for i := 0 to |marks|
        invariant State() == RefreshAll(added, marks[..i], now)
      {
        assert marks[..i + 1][..i] == marks[..i];
        if marks[i].track in byTrack && marks[i].confirmed {
          list := Seen(list, byTrack[marks[i].track], now);
        }
      }
      assert marks[..|marks|] == marks;
      list := Newest(Unexpired(list, now), KEEP_AT_MOST);
      byTrack := map k | k in byTrack && HasSighting(list, byTrack[k]) && HasTrack(tracks, k) :: byTrack[k];
    }

    /** The loop over the newly confirmed tracks. */
    method AddNew(h: Length, newly: seq<Track>, now: real) returns (found: seq<Sighting>)
      modifies this
      ensures State() == AddTracks(h, old(State()), newly, now)
      ensures exists made :: MadeFor(h, old(list), newly, now, found, made)
    {
      hide RoundPoint, RoundHundredth, MadeFor;
      found := [];
      ghost var made: seq<nat> := [];
      MadeForNone(h, list, now);
      assert newly[..0] == [];
      for i := 0 to |newly|
        invariant State() == AddTracks(h, old(State()), newly[..i], now)
        invariant list == old(list) + found && MadeFor(h, old(list), newly[..i], now, found, made)
      {
        assert newly[..i + 1][..i] == newly[..i];
        var t := newly[i];
        if t.spot.None? {
          MadeNowhere(h, old(list), newly, i, now, found, made);
        } else {
          var near := FirstNear(h, list, t, now);
          if near.Some? {
            MadeNoMore(h, old(list), newly, i, now, found, made, near.value);
            byTrack := byTrack[t.id := list[near.value].id];
          } else {
            var s := Sighting(next, t.group, RoundPoint(t.spot.value), RoundHundredth(now));
            MadeOneMore(h, old(list), newly, i, now, found, made, s);
            made := made + [i];
            list := list + [s];
            found := found + [s];
            byTrack := byTrack[t.id := next];
            next := next + 1;
          }
        }
      }
      assert newly[..|newly|] == newly;
    }
  }

  lemma MadeForNone(h: Length, list: seq<Sighting>, now: real)
    ensures MadeFor(h, list, [], now, [], [])
  {
  }

  /** A track with a spot near which there is none yet: one more. */
  lemma MadeOneMore(h: Length, list: seq<Sighting>, newly: seq<Track>, i: nat, now: real, found: seq<Sighting>, made: seq<nat>, s: Sighting)
    requires i < |newly| && MadeFor(h, list, newly[..i], now, found, made)
    requires newly[i].spot.Some? && Placed(s, newly[i]) && s.lastSeen == RoundHundredth(now)
    requires forall x :: 0 <= x < |list + found| ==> !Near(h, (list + found)[x], newly[i], now)
    ensures MadeFor(h, list, newly[..i + 1], now, found + [s], made + [i])
  {
    hide Placed, Near;
    forall k: nat | k < i
      ensures k in made + [i] <==> NewPlace(h, list, newly[..i + 1][k], now, found + [s], made + [i], k)
    {
      assert k in made <==> NewPlace(h, list, newly[..i][k], now, found, made, k);
      LaterOnesDoNotMatter(h, list, newly[k], now, found, made, k, s, i);
    }
    forall m | 0 <= m < |made|
      ensures !Near(h, found[m], newly[i], now)
    {
      assert (list + found)[|list| + m] == found[m];
    }
    forall x | 0 <= x < |list|
      ensures !Near(h, list[x], newly[i], now)
    {
      assert (list + found)[x] == list[x];
    }
  }

  lemma LaterOnesDoNotMatter(h: Length, list: seq<Sighting>, t: Track, now: real, found: seq<Sighting>, made: seq<nat>, k: nat,
                             s: Sighting, i: nat)
    requires |made| == |found| && k < i
    ensures k in made + [i] <==> k in made
    ensures NewPlace(h, list, t, now, found + [s], made + [i], k) <==> NewPlace(h, list, t, now, found, made, k)
  {
    hide Near;
    if NewPlace(h, list, t, now, found + [s], made + [i], k) {
      forall m | 0 <= m < |made| && made[m] < k
        ensures !Near(h, found[m], t, now)
      {
        assert (found + [s])[m] == found[m] && (made + [i])[m] == made[m];
      }
    }
  }

  /** One that is near a sighting: no more. */
  lemma MadeNoMore(h: Length, list: seq<Sighting>, newly: seq<Track>, i: nat, now: real, found: seq<Sighting>, made: seq<nat>, x: nat)
    requires i < |newly| && MadeFor(h, list, newly[..i], now, found, made)
    requires newly[i].spot.Some? && x < |list + found| && Near(h, (list + found)[x], newly[i], now)
    ensures MadeFor(h, list, newly[..i + 1], now, found, made)
  {
    hide Placed, Near;
    forall k: nat | k < i
      ensures k in made <==> NewPlace(h, list, newly[..i + 1][k], now, found, made, k)
    {
      assert k in made <==> NewPlace(h, list, newly[..i][k], now, found, made, k);
    }
  }

  lemma MadeNowhere(h: Length, list: seq<Sighting>, newly: seq<Track>, i: nat, now: real, found: seq<Sighting>, made: seq<nat>)
    requires i < |newly| && MadeFor(h, list, newly[..i], now, found, made) && newly[i].spot.None?
    ensures MadeFor(h, list, newly[..i + 1], now, found, made)
  {
    hide Placed, Near;
    forall k: nat | k < i
      ensures k in made <==> NewPlace(h, list, newly[..i + 1][k], now, found, made, k)
    {
      assert k in made <==> NewPlace(h, list, newly[..i][k], now, found, made, k);
    }
  }

  // ---- Runs ----

  /** Tracker, sightings and the time of the last frame. */
  datatype Watch = Watch(tracker: Tracker, log: Log, clock: real)

  /** What one frame's detections at time `now` do. */
  ghost predicate FrameStep(h: Length, before: Watch, objs: seq<Detection>, origin: Option<Point>, after: Watch) {
    exists marks, newly :: FrameWith(h, before, objs, origin, marks, newly, after)
  }

  ghost predicate FrameWith(h: Length, before: Watch, objs: seq<Detection>, origin: Option<Point>,
                            marks: seq<Mark>, newly: seq<Track>, after: Watch) {
    && FrameResult(h, before.tracker, objs, after.clock, origin, after.tracker, marks, newly)
    && after.log == LogStep(h, before.log, newly, after.clock, marks, after.tracker.tracks)
  }

  /** A frame from the detector: the tracker first, then the sightings. */
  method ProcessFrame(h: Length, tracker: DetectionTracker, log: SightingLog, objs: seq<Detection>, ghost clock: real, now: real,
                      origin: Option<Point>)
    returns (marks: seq<Mark>, found: seq<Sighting>)
    requires Valid(tracker.State())
    modifies tracker, log
    ensures FrameStep(h, Watch(old(tracker.State()), old(log.State()), clock), objs, origin,
                      Watch(tracker.State(), log.State(), now))
  {
    hide FrameResult, LogStep;
    ghost var before := Watch(tracker.State(), log.State(), clock);
    var newly: seq<Track>;
    marks, newly := tracker.Update(h, objs, now, origin);
    found := log.Update(h, newly, now, marks, tracker.tracks);
    assert FrameWith(h, before, objs, origin, marks, newly, Watch(tracker.State(), log.State(), now));
  }

  predicate FarApart(s: Sighting, s': Sighting) {
    s.group == s'.group ==> Dist2(s.at, s'.at) > Sq(APART)
  }

  /** No two sightings of one group are close. */
  predicate Separated(list: seq<Sighting>) {
    forall i, j :: 0 <= i < j < |list| ==> FarApart(list[i], list[j])
  }

  /** The same for those still remembered now. */
  predicate SeparatedNow(list: seq<Sighting>, now: real) {
    forall i, j :: 0 <= i < j < |list| && Remembered(list[i], now) && Remembered(list[j], now) ==> FarApart(list[i], list[j])
  }

  /** The sighting of a track was seen no earlier than the track, up to rounding. */
  predicate SeenSince(list: seq<Sighting>, id: nat, t: real) {
    forall x :: 0 <= x < |list| && list[x].id == id ==> list[x].lastSeen >= t - 0.005
  }

  /** The sighting a track points to is remembered now. */
  predicate PointsToRemembered(log: Log, k: nat, now: real) {
    k in log.byTrack ==> forall x :: 0 <= x < |log.list| && log.list[x].id == log.byTrack[k] ==> Remembered(log.list[x], now)
  }

  /** Sightings are numbered in the order they were made, all below the counter. */
  predicate Numbered(log: Log) {
    && (forall x :: 0 <= x < |log.list| ==> log.list[x].id < log.next)
    && (forall x, y :: 0 <= x < y < |log.list| ==> log.list[x].id < log.list[y].id)
  }

  /** What holds between frames. */
  ghost predicate Inv(w: Watch) {
    && Valid(w.tracker)
    && Separated(w.log.list)
    && (forall t :: t in w.tracker.tracks ==> t.last <= w.clock)
    && Numbered(w.log)
    && (forall k :: k in w.log.byTrack ==> k < w.tracker.next && w.log.byTrack[k] < w.log.next)
    && (forall t :: t in w.tracker.tracks && t.id in w.log.byTrack ==> t.confirmed && SeenSince(w.log.list, w.log.byTrack[t.id], t.last))
  }

  lemma InvAtStart(clock: real)
    ensures Inv(Watch(Tracker([], 1), Log([], map[], 1), clock))
  {
  }

  /** Rounding a spot that is more than the radius away leaves it further than `APART`. */
  lemma RoundingKeepsApart(h: Length, p: Point, q: Point)
    requires IsHypot(h) && Dist(h, p, q) > SIGHTING_RADIUS
    ensures Dist2(p, RoundPoint(q)) > Sq(APART)
  {
    var r := RoundPoint(q);
    DistSquared(h, p, r);
    DistSquared(h, p, q);
    DistSquared(h, r, q);
    RoundPointMoves(h, q);
    TriangleBySquares(p.n - r.n, p.e - r.e, r.n - q.n, r.e - q.e, Dist(h, p, r), Dist(h, r, q), p.n - q.n, p.e - q.e, Dist(h, p, q));
    SquareOrder(APART, Dist(h, p, r));
  }

  // ---- One frame keeps the invariant ----

  predicate HitNow(marks: seq<Mark>, id: nat) {
    exists i :: 0 <= i < |marks| && marks[i].track == id
  }

  /** What the sightings need to know of the tracker's frame. */
  ghost predicate TrackerFacts(tracker: Tracker, marks: seq<Mark>, newly: seq<Track>, now: real) {
    && (forall t :: t in newly ==> HitNow(marks, t.id) && t.id < tracker.next)
    && (forall t, t' :: t in newly && t' in tracker.tracks && t'.id == t.id ==> t'.confirmed)
    && (forall t :: t in tracker.tracks ==> t.last <= now)
    && (forall i :: 0 <= i < |marks| ==> NamesTrack(tracker.tracks, marks[i]))
  }

  /** A track that points to a sighting is confirmed, and was hit now or last hit no later than the sighting. */
  ghost predicate TrackFollowsSighting(log: Log, marks: seq<Mark>, t: Track) {
    t.id in log.byTrack ==>
      t.confirmed && (HitNow(marks, t.id) || SeenSince(log.list, log.byTrack[t.id], t.last))
  }

  /** What holds within a frame, until expired sightings go. */
  ghost predicate Mid(log: Log, tracker: Tracker, marks: seq<Mark>, now: real) {
    && SeparatedNow(log.list, now)
    && Numbered(log)
    && (forall k :: k in log.byTrack ==> k < tracker.next && log.byTrack[k] < log.next)
    && (forall k :: k in log.byTrack && HitNow(marks, k) ==> PointsToRemembered(log, k, now))
    && (forall t :: t in tracker.tracks ==> TrackFollowsSighting(log, marks, t))
  }

  lemma AddTrackKeepsMid(h: Length, log: Log, t: Track, tracker: Tracker, marks: seq<Mark>, newly: seq<Track>, now: real)
    requires IsHypot(h)
    requires Mid(log, tracker, marks, now) && TrackerFacts(tracker, marks, newly, now) && t in newly
    ensures Mid(AddTrack(h, log, t, now), tracker, marks, now)
  {
    hide FarApart, RoundPoint;
    var after := AddTrack(h, log, t, now);
    if t.spot.Some? && FirstNear(h, log.list, t, now).None? {
      var s := Sighting(log.next, t.group, RoundPoint(t.spot.value), RoundHundredth(now));
      forall x | 0 <= x < |log.list| && Remembered(log.list[x], now)
        ensures FarApart(log.list[x], s)
      {
        NewIsFar(h, log.list[x], t, now, s);
      }
    }
    forall u | u in tracker.tracks
      ensures TrackFollowsSighting(after, marks, u)
    {
      assert TrackFollowsSighting(log, marks, u);
    }
  }

  lemma NewIsFar(h: Length, earlier: Sighting, t: Track, now: real, s: Sighting)
    requires IsHypot(h)
    requires t.spot.Some? && Remembered(earlier, now) && !Near(h, earlier, t, now)
    requires s.group == t.group && s.at == RoundPoint(t.spot.value)
    ensures FarApart(earlier, s)
  {
    if earlier.group == s.group {
      RoundingKeepsApart(h, earlier.at, t.spot.value);
    }
  }

  lemma {:induction false} AddTracksKeepsMid(h: Length, log: Log, added: seq<Track>, tracker: Tracker, marks: seq<Mark>,
                                             newly: seq<Track>, now: real)
    requires IsHypot(h)
    requires Mid(log, tracker, marks, now) && TrackerFacts(tracker, marks, newly, now)
    requires forall t :: t in added ==> t in newly
    ensures Mid(AddTracks(h, log, added, now), tracker, marks, now)
  {
    hide Mid, TrackerFacts, AddTrack;
    if added != [] {
      var n := |added| - 1;
      AddTracksKeepsMid(h, log, added[..n], tracker, marks, newly, now);
      AddTrackKeepsMid(h, AddTracks(h, log, added[..n], now), added[n], tracker, marks, newly, now);
    }
  }

  /** The objects handled so far have their sightings seen now. */
  ghost predicate SeenFor(log: Log, marks: seq<Mark>, now: real) {
    forall i :: 0 <= i < |marks| && marks[i].track in log.byTrack ==> SeenSince(log.list, log.byTrack[marks[i].track], now)
  }

  lemma {:induction false} RefreshKeepsMid(log: Log, done: seq<Mark>, tracker: Tracker, marks: seq<Mark>, newly: seq<Track>, now: real)
    requires Mid(log, tracker, marks, now) && TrackerFacts(tracker, marks, newly, now)
    requires done <= marks
    ensures (var after := RefreshAll(log, done, now);
             && Mid(after, tracker, marks, now) && SeenFor(after, done, now)
             && after.byTrack == log.byTrack && after.next == log.next)
  {
    hide Mid, TrackerFacts, Refresh;
    if done != [] {
      var n := |done| - 1;
      RefreshKeepsMid(log, done[..n], tracker, marks, newly, now);
      assert done[n] == marks[n];
      RefreshOneKeepsMid(RefreshAll(log, done[..n], now), done[..n], n, tracker, marks, newly, now);
      assert done == done[..n] + [marks[n]];
    }
  }

  lemma RefreshOneKeepsMid(log: Log, done: seq<Mark>, n: nat, tracker: Tracker, marks: seq<Mark>, newly: seq<Track>, now: real)
    requires Mid(log, tracker, marks, now) && TrackerFacts(tracker, marks, newly, now)
    requires SeenFor(log, done, now) && n < |marks|
    ensures (var after := Refresh(log, marks[n], now);
             && Mid(after, tracker, marks, now) && SeenFor(after, done + [marks[n]], now)
             && after.byTrack == log.byTrack && after.next == log.next)
  {
    hide FarApart;
    var m, after := marks[n], Refresh(log, marks[n], now);
    if m.track in log.byTrack {
      MarkIsConfirmed(log, n, tracker, marks, newly, now);
      var id := log.byTrack[m.track];
      assert HitNow(marks, m.track);
      assert PointsToRemembered(log, m.track, now);
      assert after.list == Seen(log.list, id, now);
      forall x | 0 <= x < |log.list|
        ensures Remembered(after.list[x], now) == Remembered(log.list[x], now)
        ensures after.list[x].id == log.list[x].id && after.list[x].at == log.list[x].at && after.list[x].group == log.list[x].group
      {
      }
      SameFarApart(log.list, after.list);
      forall t | t in tracker.tracks
        ensures TrackFollowsSighting(after, marks, t)
      {
        assert TrackFollowsSighting(log, marks, t);
      }
    }
  }

  lemma SameFarApart(list: seq<Sighting>, after: seq<Sighting>)
    requires |list| == |after|
    requires forall x :: 0 <= x < |list| ==> after[x].at == list[x].at && after[x].group == list[x].group
    ensures forall i, j :: 0 <= i < j < |list| ==> FarApart(after[i], after[j]) == FarApart(list[i], list[j])
  {
  }

  lemma MarkIsConfirmed(log: Log, n: nat, tracker: Tracker, marks: seq<Mark>, newly: seq<Track>, now: real)
    requires Mid(log, tracker, marks, now) && TrackerFacts(tracker, marks, newly, now)
    requires n < |marks| && marks[n].track in log.byTrack
    ensures marks[n].confirmed
  {
  }

  lemma {:induction false} UnexpiredAreSeparated(list: seq<Sighting>, now: real)
    requires SeparatedNow(list, now)
    requires forall x, y :: 0 <= x < y < |list| ==> list[x].id < list[y].id
    ensures Separated(Unexpired(list, now))
    ensures forall x, y :: 0 <= x < y < |Unexpired(list, now)| ==> Unexpired(list, now)[x].id < Unexpired(list, now)[y].id
  {
    hide FarApart;
    if list != [] {
      var n := |list| - 1;
      var head := Unexpired(list[..n], now);
      UnexpiredAreSeparated(list[..n], now);
      forall x | 0 <= x < |head|
        ensures Remembered(list[n], now) ==> FarApart(head[x], list[n])
        ensures head[x].id < list[n].id
      {
        assert head[x] in head;
        var y :| 0 <= y < n && list[..n][y] == head[x];
      }
    }
  }

  lemma PruneGivesInv(log: Log, tracker: Tracker, marks: seq<Mark>, newly: seq<Track>, now: real)
    requires Mid(log, tracker, marks, now) && TrackerFacts(tracker, marks, newly, now) && SeenFor(log, marks, now)
    requires Valid(tracker)
    ensures Inv(Watch(tracker, Prune(log, tracker.tracks, now), now))
  {
    hide FarApart, SeenSince, SeenFor, PointsToRemembered;
    UnexpiredAreSeparated(log.list, now);
    var unexpired := Unexpired(log.list, now);
    var after := Prune(log, tracker.tracks, now);
    forall x | 0 <= x < |after.list|
      ensures after.list[x] in log.list
    {
      assert after.list[x] in unexpired;
    }
    forall t | t in tracker.tracks && t.id in after.byTrack
      ensures t.confirmed && SeenSince(after.list, after.byTrack[t.id], t.last)
    {
      assert TrackFollowsSighting(log, marks, t);
      SightingOfTrack(log, marks, t, now);
      StillSeenSince(log.list, after.list, log.byTrack[t.id], t.last);
    }
  }

  lemma StillSeenSince(list: seq<Sighting>, after: seq<Sighting>, id: nat, t: real)
    requires SeenSince(list, id, t) && forall x :: 0 <= x < |after| ==> after[x] in list
    ensures SeenSince(after, id, t)
  {
  }

  lemma SightingOfTrack(log: Log, marks: seq<Mark>, t: Track, now: real)
    requires TrackFollowsSighting(log, marks, t) && SeenFor(log, marks, now)
    requires t.id in log.byTrack && t.last <= now
    ensures SeenSince(log.list, log.byTrack[t.id], t.last)
  {
  }

  /** A track of the tracker after the frame: the one it was, hit now, or new. */
  lemma WhereTrackCameFrom(h: Length, before: Tracker, objs: seq<Detection>, now: real, origin: Option<Point>, after: Tracker,
                           marks: seq<Mark>, newly: seq<Track>, j: nat)
    requires FrameResult(h, before, objs, now, origin, after, marks, newly) && j < |after.tracks|
    ensures (var live, t := Live(before.tracks, now), after.tracks[j];
             || (j < |live| && t == live[j] && t in before.tracks)
             || (j < |live| && t.id == live[j].id && live[j] in before.tracks && t.last == now
                 && (live[j].confirmed ==> t.confirmed) && HitNow(marks, t.id))
             || (j >= |live| && t.id >= before.next && t.last == now && !t.confirmed && HitNow(marks, t.id)))
  {
  }

  lemma FrameGivesFacts(h: Length, w: Watch, objs: seq<Detection>, origin: Option<Point>, marks: seq<Mark>, newly: seq<Track>, w': Watch)
    requires Inv(w) && FrameWith(h, w, objs, origin, marks, newly, w') && w'.clock >= w.clock
    ensures TrackerFacts(w'.tracker, marks, newly, w'.clock)
  {
    var now, after := w'.clock, w'.tracker;
    var live := Live(w.tracker.tracks, now);
    forall t | t in after.tracks
      ensures t.last <= now
    {
      var j :| 0 <= j < |after.tracks| && after.tracks[j] == t;
      WhereTrackCameFrom(h, w.tracker, objs, now, origin, after, marks, newly, j);
    }
    forall t | t in newly
      ensures HitNow(marks, t.id) && t.id < after.next
      ensures forall t' :: t' in after.tracks && t'.id == t.id ==> t'.confirmed
    {
      assert ConfirmedNow(live, after.tracks, t);
      var j :| 0 <= j < |live| && after.tracks[j] == t && t.confirmed && !live[j].confirmed;
      WhereTrackCameFrom(h, w.tracker, objs, now, origin, after, marks, newly, j);
      SameIdSameTrack(after, j);
    }
  }

  lemma SameIdSameTrack(tracker: Tracker, j: nat)
    requires Valid(tracker) && j < |tracker.tracks|
    ensures forall t :: t in tracker.tracks && t.id == tracker.tracks[j].id ==> t == tracker.tracks[j]
  {
  }

  lemma FrameStartsMid(h: Length, w: Watch, objs: seq<Detection>, origin: Option<Point>, marks: seq<Mark>, newly: seq<Track>, w': Watch)
    requires Inv(w) && FrameWith(h, w, objs, origin, marks, newly, w') && w'.clock >= w.clock
    ensures Mid(w.log, w'.tracker, marks, w'.clock)
  {
    hide FarApart, Live, LogStep;
    var now, log, after := w'.clock, w.log, w'.tracker;
    var live := Live(w.tracker.tracks, now);
    forall k | k in log.byTrack && HitNow(marks, k)
      ensures PointsToRemembered(log, k, now)
    {
      var i :| 0 <= i < |marks| && marks[i].track == k;
      HitTrackWasLive(h, w.tracker, objs, now, origin, after, marks, newly, i);
    }
    forall t | t in after.tracks
      ensures TrackFollowsSighting(log, marks, t)
    {
      var j :| 0 <= j < |after.tracks| && after.tracks[j] == t;
      WhereTrackCameFrom(h, w.tracker, objs, now, origin, after, marks, newly, j);
    }
  }

  /** An object that went to a track known before the frame: the track was live. */
  lemma HitTrackWasLive(h: Length, before: Tracker, objs: seq<Detection>, now: real, origin: Option<Point>, after: Tracker,
                        marks: seq<Mark>, newly: seq<Track>, i: nat)
    requires FrameResult(h, before, objs, now, origin, after, marks, newly)
    requires i < |marks| && marks[i].track < before.next
    ensures exists t :: t in before.tracks && t.id == marks[i].track && now - t.last <= TRACK_TTL
  {
  }

  /** Every frame, at a time no earlier than the last one's, keeps the invariant. */
  lemma FrameKeepsInv(h: Length, w: Watch, objs: seq<Detection>, origin: Option<Point>, w': Watch)
    requires IsHypot(h)
    requires Inv(w) && FrameStep(h, w, objs, origin, w') && w'.clock >= w.clock
    ensures Inv(w')
  {
    var marks, newly :| FrameWith(h, w, objs, origin, marks, newly, w');
    FrameGivesFacts(h, w, objs, origin, marks, newly, w');
    FrameStartsMid(h, w, objs, origin, marks, newly, w');
    AddTracksKeepsMid(h, w.log, newly, w'.tracker, marks, newly, w'.clock);
    var added := AddTracks(h, w.log, newly, w'.clock);
    RefreshKeepsMid(added, marks, w'.tracker, marks, newly, w'.clock);
    PruneGivesInv(RefreshAll(added, marks, w'.clock), w'.tracker, marks, newly, w'.clock);
  }

  /** A run: the tracker and the sightings start empty; each frame comes no earlier than the last. */
  ghost predicate IsRun(h: Length, run: seq<Watch>) {
    && run != []
    && run[0].tracker == Tracker([], 1) && run[0].log == Log([], map[], 1)
    && forall i :: 0 <= i < |run| - 1 ==> run[i + 1].clock >= run[i].clock && AnyFrame(h, run[i], run[i + 1])
  }

  ghost predicate AnyFrame(h: Length, w: Watch, w': Watch) {
    exists objs, origin :: FrameStep(h, w, objs, origin, w')
  }

  lemma {:induction false} RunKeepsInv(h: Length, run: seq<Watch>, n: nat)
    requires IsHypot(h) && IsRun(h, run) && n < |run|
    ensures Inv(run[n])
  {
    hide Inv, FrameStep;
    if n == 0 {
      InvAtStart(run[0].clock);
    } else {
      RunKeepsInv(h, run, n - 1);
      assert AnyFrame(h, run[n - 1], run[n - 1 + 1]);
      var objs, origin :| FrameStep(h, run[n - 1], objs, origin, run[n]);
      FrameKeepsInv(h, run[n - 1], objs, origin, run[n]);
    }
  }

  // ---- What is confirmed was seen three times ----

  /** A confirmed track with three hits of the last four seconds to show for it. */
  ghost predicate Earned(t: Track) {
    Sound(t) && t.confirmed && |t.hits| >= CONFIRM_HITS
  }

  /** At some moment up to the n-th, the track with this id had earned its confirmation. */
  ghost predicate EarnedBy(run: seq<Watch>, n: nat, id: nat) {
    exists m: nat, u: Track :: m <= n && m < |run| && u in run[m].tracker.tracks && u.id == id && Earned(u)
  }

  /** A confirmed track was confirmed before the frame, or has just earned it. */
  lemma ConfirmedBeforeOrEarned(h: Length, before: Tracker, objs: seq<Detection>, now: real, origin: Option<Point>, after: Tracker,
                                marks: seq<Mark>, newly: seq<Track>, t: Track)
    requires FrameResult(h, before, objs, now, origin, after, marks, newly)
    requires (forall u :: u in before.tracks ==> Sound(u)) && t in after.tracks && t.confirmed
    ensures Earned(t) || exists u :: u in before.tracks && u.id == t.id && u.confirmed
  {
    hide Sound, Hit, Gate, GaveWay, NamesTrack, TookLive;
    var live := Live(before.tracks, now);
    FramesKeepTracksSound(h, before, objs, now, origin, after, marks, newly);
    var j :| 0 <= j < |after.tracks| && after.tracks[j] == t;
    WhereTrackCameFrom(h, before, objs, now, origin, after, marks, newly, j);
    if j < |live| && !live[j].confirmed {
      assert ConfirmedNow(live, after.tracks, t);
    }
  }

  lemma {:induction false} RunKeepsTracksSound(h: Length, run: seq<Watch>, n: nat)
    requires IsHypot(h) && IsRun(h, run) && n < |run|
    ensures forall t :: t in run[n].tracker.tracks ==> Sound(t)
  {
    hide FrameResult, LogStep, Sound;
    if n > 0 {
      RunKeepsTracksSound(h, run, n - 1);
      assert AnyFrame(h, run[n - 1], run[n - 1 + 1]);
      var objs, origin :| FrameStep(h, run[n - 1], objs, origin, run[n]);
      var marks, newly :| FrameWith(h, run[n - 1], objs, origin, marks, newly, run[n]);
      FramesKeepTracksSound(h, run[n - 1].tracker, objs, run[n].clock, origin, run[n].tracker, marks, newly);
    }
  }

  /** In every run: a confirmed track had, at some moment, three hits within four seconds. */
  lemma {:induction false} ConfirmedMeansSeenThrice(h: Length, run: seq<Watch>, n: nat, t: Track)
    requires IsHypot(h) && IsRun(h, run) && n < |run| && t in run[n].tracker.tracks && t.confirmed
    ensures EarnedBy(run, n, t.id)
  {
    hide FrameResult, LogStep, Earned, Sound;
    if n > 0 {
      RunKeepsTracksSound(h, run, n - 1);
      assert AnyFrame(h, run[n - 1], run[n - 1 + 1]);
      var objs, origin :| FrameStep(h, run[n - 1], objs, origin, run[n]);
      var marks, newly :| FrameWith(h, run[n - 1], objs, origin, marks, newly, run[n]);
      ConfirmedBeforeOrEarned(h, run[n - 1].tracker, objs, run[n].clock, origin, run[n].tracker, marks, newly, t);
      if !Earned(t) {
        var u :| u in run[n - 1].tracker.tracks && u.id == t.id && u.confirmed;
        ConfirmedMeansSeenThrice(h, run, n - 1, u);
      }
    }
  }

  predicate SamePlace(s: Sighting, s': Sighting) {
    s.id == s'.id && s.group == s'.group && s.at == s'.at
  }

  lemma {:induction false} AddedArePlaced(h: Length, log: Log, added: seq<Track>, now: real, s: Sighting)
    requires s in AddTracks(h, log, added, now).list
    ensures s in log.list || exists t :: t in added && Placed(s, t)
  {
    hide FirstNear, RoundPoint;
    if added != [] {
      var n := |added| - 1;
      if s in AddTracks(h, log, added[..n], now).list {
        AddedArePlaced(h, log, added[..n], now, s);
      } else {
        assert Placed(s, added[n]);
      }
    }
  }

  lemma {:induction false} RefreshedAreInPlace(log: Log, marks: seq<Mark>, now: real, s: Sighting)
    requires s in RefreshAll(log, marks, now).list
    ensures exists s' :: s' in log.list && SamePlace(s, s')
  {
    if marks != [] {
      var n := |marks| - 1;
      var before := RefreshAll(log, marks[..n], now);
      var x :| 0 <= x < |Refresh(before, marks[n], now).list| && Refresh(before, marks[n], now).list[x] == s;
      RefreshedAreInPlace(log, marks[..n], now, before.list[x]);
    } else {
      assert SamePlace(s, s);
    }
  }

  /** A sighting after a frame was there before it, or is where a track confirmed in the frame was. */
  lemma SightingsComeFromTracks(h: Length, log: Log, newly: seq<Track>, now: real, marks: seq<Mark>, tracks: seq<Track>, s: Sighting)
    requires s in LogStep(h, log, newly, now, marks, tracks).list
    ensures (exists s' :: s' in log.list && SamePlace(s, s')) || exists t :: t in newly && Placed(s, t)
  {
    hide RefreshAll, AddTracks, RoundPoint;
    var added := AddTracks(h, log, newly, now);
    var refreshed := RefreshAll(added, marks, now);
    assert s in Unexpired(refreshed.list, now);
    RefreshedAreInPlace(added, marks, now, s);
    var s' :| s' in added.list && SamePlace(s, s');
    AddedArePlaced(h, log, newly, now, s');
    if t :| t in newly && Placed(s', t) {
      assert Placed(s, t);
    }
  }

  /** At some moment up to the n-th, a track that had earned its confirmation was where the sighting is. */
  ghost predicate SeenThere(run: seq<Watch>, n: nat, s: Sighting) {
    exists m: nat, u: Track :: m <= n && m < |run| && u in run[m].tracker.tracks && Earned(u) && Placed(s, u)
  }

  /** In every run: every remembered sighting is where some track, seen three times within four seconds, was confirmed. */
  lemma {:induction false} SightingsWereSeenThrice(h: Length, run: seq<Watch>, n: nat, s: Sighting)
    requires IsHypot(h) && IsRun(h, run) && n < |run| && s in run[n].log.list
    ensures SeenThere(run, n, s)
  {
    hide FrameResult, LogStep, Sound, RoundPoint;
    if n > 0 {
      RunKeepsTracksSound(h, run, n - 1);
      assert AnyFrame(h, run[n - 1], run[n - 1 + 1]);
      var objs, origin :| FrameStep(h, run[n - 1], objs, origin, run[n]);
      var marks, newly :| FrameWith(h, run[n - 1], objs, origin, marks, newly, run[n]);
      SightingsComeFromTracks(h, run[n - 1].log, newly, run[n].clock, marks, run[n].tracker.tracks, s);
      if s' :| s' in run[n - 1].log.list && SamePlace(s, s') {
        SightingsWereSeenThrice(h, run, n - 1, s');
        var m: nat, u: Track :| m <= n - 1 && u in run[m].tracker.tracks && Earned(u) && Placed(s', u);
        assert Placed(s, u);
      } else {
        var t :| t in newly && Placed(s, t);
        NewlyAreEarned(h, run[n - 1].tracker, objs, run[n].clock, origin, run[n].tracker, marks, newly, t);
      }
    }
  }

  lemma NewlyAreEarned(h: Length, before: Tracker, objs: seq<Detection>, now: real, origin: Option<Point>, after: Tracker,
                       marks: seq<Mark>, newly: seq<Track>, t: Track)
    requires FrameResult(h, before, objs, now, origin, after, marks, newly)
    requires (forall u :: u in before.tracks ==> Sound(u)) && t in newly
    ensures t in after.tracks && Earned(t)
  {
    FramesKeepTracksSound(h, before, objs, now, origin, after, marks, newly);
    hide Sound;
    assert ConfirmedNow(Live(before.tracks, now), after.tracks, t);
  }

  // ---- What is confirmed is remembered ----

  /** The track points to a remembered sighting of its group within the radius. */
  ghost predicate PointsNear(h: Length, log: Log, t: Track, now: real)
    requires t.spot.Some?
  {
    t.id in log.byTrack && exists x :: 0 <= x < |log.list| && log.list[x].id == log.byTrack[t.id] && Near(h, log.list[x], t, now)
  }

  lemma {:induction false} AddedPointsNear(h: Length, log: Log, added: seq<Track>, now: real, t: Track)
    requires IsHypot(h)
    requires t in added && t.spot.Some? && forall u :: u in added && u.id == t.id ==> u == t
    ensures PointsNear(h, AddTracks(h, log, added, now), t, now)
  {
    hide RoundPoint, RoundHundredth, IsHypot;
    var n := |added| - 1;
    var before, u := AddTracks(h, log, added[..n], now), added[n];
    if u == t {
      NewIsNear(h, before, t, now);
    } else {
      AddedPointsNear(h, log, added[..n], now, t);
      var x :| 0 <= x < |before.list| && before.list[x].id == before.byTrack[t.id] && Near(h, before.list[x], t, now);
      assert AddTrack(h, before, u, now).list[x] == before.list[x];
    }
  }

  /** A new track points to the sighting that is near, and its own new one is. */
  lemma NewIsNear(h: Length, log: Log, t: Track, now: real)
    requires IsHypot(h) && t.spot.Some?
    ensures PointsNear(h, AddTrack(h, log, t, now), t, now)
  {
    hide RoundPoint;
    var near, after := FirstNear(h, log.list, t, now), AddTrack(h, log, t, now);
    var x := if near.Some? then near.value else |log.list|;
    RoundPointMoves(h, t.spot.value);
    assert Near(h, after.list[x], t, now);
  }

  /** A confirmed object of the frame belongs to this sighting. */
  predicate SeenIn(byTrack: map<nat, nat>, marks: seq<Mark>, id: nat) {
    exists i :: 0 <= i < |marks| && marks[i].confirmed && marks[i].track in byTrack && byTrack[marks[i].track] == id
  }

  lemma {:induction false} RefreshedExactly(log: Log, marks: seq<Mark>, now: real, x: nat)
    requires x < |log.list|
    ensures (var after := RefreshAll(log, marks, now);
             && |after.list| == |log.list| && after.byTrack == log.byTrack && after.next == log.next
             && after.list[x] == if SeenIn(log.byTrack, marks, log.list[x].id) then log.list[x].(lastSeen := RoundHundredth(now))
                                 else log.list[x])
  {
    hide RoundHundredth;
    if marks != [] {
      var n := |marks| - 1;
      RefreshedExactly(log, marks[..n], now, x);
      SeenInOneMore(log.byTrack, marks, log.list[x].id);
    }
  }

  lemma SeenInOneMore(byTrack: map<nat, nat>, marks: seq<Mark>, id: nat)
    requires marks != []
    ensures var m := marks[|marks| - 1];
            SeenIn(byTrack, marks, id)
            <==> SeenIn(byTrack, marks[..|marks| - 1], id) || (m.confirmed && m.track in byTrack && byTrack[m.track] == id)
  {
    var n := |marks| - 1;
    if SeenIn(byTrack, marks[..n], id) {
      var i :| 0 <= i < n && marks[..n][i].confirmed && marks[i].track in byTrack && byTrack[marks[i].track] == id;
      assert marks[i].confirmed;
    }
    if SeenIn(byTrack, marks, id) {
      var i :| 0 <= i <= n && marks[i].confirmed && marks[i].track in byTrack && byTrack[marks[i].track] == id;
      assert i < n ==> marks[..n][i].confirmed;
    }
  }

  predicate Ascending(list: seq<Sighting>) {
    forall x, y :: 0 <= x < y < |list| ==> list[x].id < list[y].id
  }

  lemma {:induction false} UnexpiredAscends(list: seq<Sighting>, now: real)
    requires Ascending(list)
    ensures Ascending(Unexpired(list, now))
  {
    if list != [] {
      var n := |list| - 1;
      var head := Unexpired(list[..n], now);
      UnexpiredAscends(list[..n], now);
      forall x | 0 <= x < |head|
        ensures head[x].id < list[n].id
      {
        assert head[x] in head;
        var y :| 0 <= y < n && list[..n][y] == head[x];
      }
    }
  }

  /** The list is full of sightings made later. */
  predicate CrowdedOut(list: seq<Sighting>, id: nat) {
    |list| == 200 && forall x :: 0 <= x < |list| ==> list[x].id > id
  }

  lemma NewestKeeps(list: seq<Sighting>, s: Sighting)
    requires Ascending(list) && s in list
    ensures s in Newest(list, 200) <==> !CrowdedOut(Newest(list, 200), s.id)
  {
    var cut, kept := |list| - 200, Newest(list, 200);
    var k :| 0 <= k < |list| && list[k] == s;
    if cut > 0 {
      assert forall j :: 0 <= j < 200 ==> kept[j] == list[cut + j];
      assert k >= cut ==> kept[k - cut] == s;
    }
  }

  lemma OnlyOneOfId(list: seq<Sighting>, kept: seq<Sighting>, s: Sighting)
    requires Ascending(list) && s in list && forall k :: k in kept ==> k in list
    ensures HasSighting(kept, s.id) <==> s in kept
  {
    if x :| 0 <= x < |kept| && kept[x].id == s.id {
      assert kept[x] in kept;
      var y :| 0 <= y < |list| && list[y] == kept[x];
      var z :| 0 <= z < |list| && list[z] == s;
    }
  }

  /** A sighting stays exactly if it was seen in the last 600 s and 200 later ones do not take its place. */
  lemma KeptExactly(list: seq<Sighting>, now: real, s: Sighting)
    requires Ascending(list) && s in list
    ensures (var kept := Newest(Unexpired(list, now), KEEP_AT_MOST);
             && (HasSighting(kept, s.id) <==> now - s.lastSeen <= 600.0 && !CrowdedOut(kept, s.id))
             && (HasSighting(kept, s.id) ==> s in kept))
  {
    hide CrowdedOut, HasSighting, Ascending;
    var u := Unexpired(list, now);
    UnexpiredAscends(list, now);
    assert forall k :: k in Newest(u, KEEP_AT_MOST) ==> k in u;
    OnlyOneOfId(list, Newest(u, KEEP_AT_MOST), s);
    assert s in u <==> Remembered(s, now);
    if s in u {
      NewestKeeps(u, s);
    }
  }

  /** The frame's result between two states of a run, as far as the sightings see it. */
  lemma FrameFacts(h: Length, w: Watch, objs: seq<Detection>, origin: Option<Point>, marks: seq<Mark>, newly: seq<Track>, w': Watch)
    requires IsHypot(h)
    requires Inv(w) && FrameWith(h, w, objs, origin, marks, newly, w') && w'.clock >= w.clock
    ensures (var added := AddTracks(h, w.log, newly, w'.clock);
             && TrackerFacts(w'.tracker, marks, newly, w'.clock)
             && Mid(added, w'.tracker, marks, w'.clock)
             && Mid(RefreshAll(added, marks, w'.clock), w'.tracker, marks, w'.clock)
             && RefreshAll(added, marks, w'.clock).byTrack == added.byTrack)
  {
    hide Inv, FrameWith, Mid, TrackerFacts;
    FrameGivesFacts(h, w, objs, origin, marks, newly, w');
    FrameStartsMid(h, w, objs, origin, marks, newly, w');
    AddTracksKeepsMid(h, w.log, newly, w'.tracker, marks, newly, w'.clock);
    RefreshKeepsMid(AddTracks(h, w.log, newly, w'.clock), marks, w'.tracker, marks, newly, w'.clock);
  }

  /** The track has its sighting: of its group, within 8 m of its spot, seen in this frame. */
  ghost predicate IsRemembered(h: Length, log: Log, t: Track, now: real)
    requires t.spot.Some?
  {
    exists s ::
      && s in log.list && t.id in log.byTrack && log.byTrack[t.id] == s.id
      && s.group == t.group && Dist(h, s.at, t.spot.value) <= 8.0 && s.lastSeen == RoundHundredth(now)
  }

  /** In every run: a track with a ground spot that a frame confirms has its sighting after that frame, unless 200 others
      are remembered. */
  lemma ConfirmedIsRemembered(h: Length, run: seq<Watch>, n: nat, objs: seq<Detection>, origin: Option<Point>, marks: seq<Mark>,
                              newly: seq<Track>, t: Track)
    requires IsHypot(h) && IsRun(h, run) && n + 1 < |run|
    requires FrameWith(h, run[n], objs, origin, marks, newly, run[n + 1]) && t in newly && t.spot.Some?
    ensures IsRemembered(h, run[n + 1].log, t, run[n + 1].clock) || |run[n + 1].log.list| == 200
  {
    hide Inv, FrameWith, Mid, RoundHundredth, Dist, Unexpired, Newest;
    var w, w' := run[n], run[n + 1];
    var now, added := w'.clock, AddTracks(h, w.log, newly, w'.clock);
    RunKeepsInv(h, run, n);
    FrameFacts(h, w, objs, origin, marks, newly, w');
    NewlyAreTracks(h, w, objs, origin, marks, newly, w', t);
    AddedPointsNear(h, w.log, newly, now, t);
    var x :| 0 <= x < |added.list| && added.list[x].id == added.byTrack[t.id] && Near(h, added.list[x], t, now);
    RefreshedExactly(added, marks, now, x);
    var refreshed := RefreshAll(added, marks, now);
    var s := refreshed.list[x];
    MidAscends(refreshed, w'.tracker, marks, now);
    KeptExactly(refreshed.list, now, s);
    LogAfterFrame(h, w, objs, origin, marks, newly, w');
    assert now - s.lastSeen <= 600.0 by { RoundedSeen(now); }
    if !CrowdedOut(w'.log.list, s.id) {
      assert s in w'.log.list && t.id in w'.log.byTrack;
    }
  }

  lemma RoundedSeen(now: real)
    ensures now - RoundHundredth(now) <= 600.0
  {
  }

  lemma MidAscends(log: Log, tracker: Tracker, marks: seq<Mark>, now: real)
    requires Mid(log, tracker, marks, now)
    ensures Ascending(log.list)
  {
  }

  lemma LogAfterFrame(h: Length, w: Watch, objs: seq<Detection>, origin: Option<Point>, marks: seq<Mark>, newly: seq<Track>, w': Watch)
    requires FrameWith(h, w, objs, origin, marks, newly, w')
    ensures w'.log == Prune(RefreshAll(AddTracks(h, w.log, newly, w'.clock), marks, w'.clock), w'.tracker.tracks, w'.clock)
  {
  }

  /** A track confirmed by the frame is among the tracker's, was hit by an object marked confirmed, and is the only one of its id. */
  lemma NewlyAreTracks(h: Length, w: Watch, objs: seq<Detection>, origin: Option<Point>, marks: seq<Mark>, newly: seq<Track>, w': Watch,
                       t: Track)
    requires Inv(w) && FrameWith(h, w, objs, origin, marks, newly, w') && w'.clock >= w.clock && t in newly
    ensures HasTrack(w'.tracker.tracks, t.id) && forall u :: u in newly && u.id == t.id ==> u == t
    ensures exists i :: 0 <= i < |marks| && marks[i].confirmed && marks[i].track == t.id
  {
    hide LogStep, Live, Stable;
    var after, live := w'.tracker, Live(w.tracker.tracks, w'.clock);
    FrameGivesFacts(h, w, objs, origin, marks, newly, w');
    forall u | u in newly
      ensures u in after.tracks
    {
      assert ConfirmedNow(live, after.tracks, u);
    }
    var j :| 0 <= j < |after.tracks| && after.tracks[j] == t;
    SameIdSameTrack(after, j);
    var i :| 0 <= i < |marks| && marks[i].track == t.id;
    assert NamesTrack(after.tracks, marks[i]);
  }

  /** So what is seen for the first time in three such frames of a run, alone of its group, is confirmed in the third and then
      has its sighting. */
  lemma SeenThriceIsRemembered(h: Length, run: seq<Watch>, n: nat, f: seq<Frame>, i: seq<nat>, group: string) returns (t: Track)
    requires IsHypot(h) && IsRun(h, run) && n + 3 < |run|
    requires SeenThrice(h, [run[n].tracker, run[n + 1].tracker, run[n + 2].tracker, run[n + 3].tracker], f, i, group)
    requires forall u :: u in Live(run[n].tracker.tracks, f[0].now) ==> u.group != group
    requires FrameWith(h, run[n + 2], f[2].objs, f[2].origin, f[2].marks, f[2].newly, run[n + 3])
    ensures t in f[2].newly && t.group == group && t.spot.Some? && t.hits == [f[0].now, f[1].now, f[2].now]
    ensures IsRemembered(h, run[n + 3].log, t, run[n + 3].clock) || |run[n + 3].log.list| == 200
  {
    hide FrameOf, IsOnly, IsRun, FrameWith, IsRemembered;
    var s := [run[n].tracker, run[n + 1].tracker, run[n + 2].tracker, run[n + 3].tracker];
    RunKeepsInv(h, run, n);
    t := SeenThriceIsConfirmed(h, s, f, i, group);
    assert run[n + 3] == run[n + 2 + 1];
    ConfirmedIsRemembered(h, run, n + 2, f[2].objs, f[2].origin, f[2].marks, f[2].newly, t);
  }

  lemma {:induction false} AddTracksExtends(h: Length, log: Log, added: seq<Track>, now: real)
    ensures log.list <= AddTracks(h, log, added, now).list
  {
    if added != [] {
      AddTracksExtends(h, log, added[..|added| - 1], now);
    }
  }

  /** In every run: a sighting stays through a frame exactly if it was seen in the 600 s before and is not crowded out by 200
      made later; and it stays where it was, seen now or when it was. */
  lemma SightingStaysExactly(h: Length, run: seq<Watch>, n: nat, s: Sighting)
    requires IsHypot(h) && IsRun(h, run) && n + 1 < |run| && s in run[n].log.list
    ensures (var list, now := run[n + 1].log.list, run[n + 1].clock;
             && (HasSighting(list, s.id) <==> now - s.lastSeen <= 600.0 && !CrowdedOut(list, s.id))
             && (HasSighting(list, s.id) ==> s in list || s.(lastSeen := RoundHundredth(now)) in list))
  {
    hide Inv, FrameWith, Mid, RoundHundredth, Unexpired, Newest;
    var w, w' := run[n], run[n + 1];
    var now := w'.clock;
    assert AnyFrame(h, run[n], run[n + 1]);
    var objs, origin :| FrameStep(h, w, objs, origin, w');
    var marks, newly :| FrameWith(h, w, objs, origin, marks, newly, w');
    var added := AddTracks(h, w.log, newly, now);
    RunKeepsInv(h, run, n);
    FrameFacts(h, w, objs, origin, marks, newly, w');
    AddTracksExtends(h, w.log, newly, now);
    var x :| 0 <= x < |w.log.list| && w.log.list[x] == s;
    RefreshedExactly(added, marks, now, x);
    var refreshed := RefreshAll(added, marks, now);
    MidAscends(refreshed, w'.tracker, marks, now);
    KeptExactly(refreshed.list, now, refreshed.list[x]);
    LogAfterFrame(h, w, objs, origin, marks, newly, w');
    if SeenIn(added.byTrack, marks, s.id) {
      SeenIsRemembered(added, w'.tracker, marks, now, x);
      RoundedSeen(now);
    }
  }

  /** A sighting seen in this frame was remembered. */
  lemma SeenIsRemembered(log: Log, tracker: Tracker, marks: seq<Mark>, now: real, x: nat)
    requires Mid(log, tracker, marks, now) && x < |log.list| && SeenIn(log.byTrack, marks, log.list[x].id)
    ensures now - log.list[x].lastSeen <= 600.0
  {
    var i :| 0 <= i < |marks| && marks[i].track in log.byTrack && log.byTrack[marks[i].track] == log.list[x].id;
    assert HitNow(marks, marks[i].track);
    assert PointsToRemembered(log, marks[i].track, now);
  }

  // ---- What is remembered is far apart ----

  /** In every run, at every moment, two remembered sightings of the same group are more than 7.9 m apart. */
  lemma SightingsStayApart(h: Length, run: seq<Watch>, n: nat, i: nat, j: nat)
    requires IsHypot(h) && IsRun(h, run) && n < |run|
    requires i < j < |run[n].log.list| && run[n].log.list[i].group == run[n].log.list[j].group
    ensures Dist2(run[n].log.list[i].at, run[n].log.list[j].at) > Sq(APART)
  {
    RunKeepsInv(h, run, n);
  }
}
