/** Tying one drone's detections together across frames (`DetectionTracker` in `fleet_api/fleet.py`). */
module Tracking {
  import opened Planar

  const CONFIRM_HITS := 3
  const CONFIRM_WINDOW := 4.0
  const TRACK_TTL := 3.0

  /** One detected object: label, ground spot if it has one, and the centre of its box. */
  datatype Detection = Detection(kind: string, ground: Option<Point>, u: real, v: real)

  /** A track; it lives on the ground when it has a spot, else in the image. */
  datatype Track = Track(id: nat, group: string, spot: Option<Point>, u: real, v: real,
                         hits: seq<real>, last: real, confirmed: bool)

  /** What the frame's result says of an object. */
  datatype Mark = Mark(track: nat, confirmed: bool)

  datatype Tracker = Tracker(tracks: seq<Track>, next: nat)

  /** A gated object-track pair of one frame: its distance, the object's and the track's index. */
  datatype Pair = Pair(d: real, o: nat, t: nat)

  function Group(kind: string): string {
    if kind in ["car", "truck", "bus", "motorcycle"] then "vehicle" else kind
  }

  /** Distance from the track to the object, or None if it cannot belong to it. */
  function Gate(h: Length, t: Track, o: Detection, origin: Option<Point>): Option<real> {
    if Group(o.kind) != t.group then None
    else if o.ground.Some? && t.spot.Some? then
      var d := Dist(h, o.ground.value, t.spot.value);
      var range := if origin.Some? then Dist(h, o.ground.value, origin.value) else 0.0;
      if d <= 3.0 + 0.1 * range then Some(d) else None
    else if o.ground.None? && t.spot.None? then
      var d := h(o.u - t.u, o.v - t.v);
      if d <= 0.06 then Some(d) else None
    else None
  }

  function Towards(from: real, to: real): real {
    from + 0.3 * (to - from)
  }

  function Recent(hits: seq<real>, now: real): (r: seq<real>)
    ensures forall x :: x in r ==> x in hits && now - x <= CONFIRM_WINDOW
  {
    if hits == [] then []
    else Recent(hits[..|hits| - 1], now) + (if now - hits[|hits| - 1] <= CONFIRM_WINDOW then [hits[|hits| - 1]] else [])
  }

  /** The track after one more hit. */
  function Hit(t: Track, o: Detection, now: real): (r: Track)
    ensures r.id == t.id && r.group == t.group && r.last == now
    ensures t.confirmed ==> r.confirmed
  {
    var hits := Recent(t.hits, now) + [now];
    var spot := if o.ground.Some? && t.spot.Some?
      then Some(Point(Towards(t.spot.value.n, o.ground.value.n), Towards(t.spot.value.e, o.ground.value.e)))
      else t.spot;
    Track(t.id, t.group, spot, Towards(t.u, o.u), Towards(t.v, o.v), hits, now, t.confirmed || |hits| >= CONFIRM_HITS)
  }

  function NewTrack(id: nat, o: Detection, now: real): (r: Track)
    ensures r.id == id && r.last == now && !r.confirmed
  {
    Track(id, Group(o.kind), o.ground, o.u, o.v, [now], now, false)
  }

  /** The tracks not yet expired. */
  function Live(tracks: seq<Track>, now: real): (r: seq<Track>)
    ensures forall t :: t in r <==> t in tracks && now - t.last <= TRACK_TTL
  {
    if tracks == [] then []
    else
      Live(tracks[..|tracks| - 1], now)
      + (if now - tracks[|tracks| - 1].last <= TRACK_TTL then [tracks[|tracks| - 1]] else [])
  }

  predicate DistinctIds(tracks: seq<Track>) {
    forall i, j :: 0 <= i < j < |tracks| ==> tracks[i].id != tracks[j].id
  }

  /** Ids are distinct and below the counter. */
  predicate Valid(s: Tracker) {
    DistinctIds(s.tracks) && forall t :: t in s.tracks ==> t.id < s.next
  }

  lemma {:induction false} LiveKeepsDistinct(tracks: seq<Track>, now: real)
    requires DistinctIds(tracks)
    ensures DistinctIds(Live(tracks, now))
  {
    if tracks != [] {
      var n := |tracks| - 1;
      LiveKeepsDistinct(tracks[..n], now);
      var head := Live(tracks[..n], now);
      forall i | 0 <= i < |head|
        ensures head[i].id != tracks[n].id
      {
        assert head[i] in head;
        var k :| 0 <= k < n && tracks[..n][k] == head[i];
      }
    }
  }

  // ---- One frame ----

  ghost predicate IsGated(h: Length, live: seq<Track>, objs: seq<Detection>, origin: Option<Point>, p: Pair) {
    p.o < |objs| && p.t < |live| && Gate(h, live[p.t], objs[p.o], origin) == Some(p.d)
  }

  /** Object `i` went to the live track `j`. */
  predicate Matched(live: seq<Track>, marks: seq<Mark>, i: nat, j: nat)
    requires i < |marks| && j < |live|
  {
    marks[i].track == live[j].id
  }

  /** Different objects end in different tracks. */
  predicate OneToOne(marks: seq<Mark>) {
    forall i, k :: 0 <= i < k < |marks| ==> marks[i].track != marks[k].track
  }

  /** Every gated pair gave way, if at all, to a pair with its object or its track and no larger distance.
    All distances are measured before the frame moves any track. */
  ghost predicate Stable(h: Length, live: seq<Track>, objs: seq<Detection>, origin: Option<Point>, marks: seq<Mark>)
    requires |marks| == |objs|
  {
    forall p :: IsGated(h, live, objs, origin, p) ==> GaveWay(h, live, objs, origin, marks, p)
  }

  ghost predicate GaveWay(h: Length, live: seq<Track>, objs: seq<Detection>, origin: Option<Point>, marks: seq<Mark>, p: Pair)
    requires |marks| == |objs|
  {
    exists q ::
      && IsGated(h, live, objs, origin, q)
      && Matched(live, marks, q.o, q.t)
      && q.d <= p.d && (q.o == p.o || q.t == p.t)
  }

  /** A live track after the frame: hit by the object that went to it, or as it was. */
  ghost predicate TrackFollows(live: seq<Track>, objs: seq<Detection>, marks: seq<Mark>, now: real, j: nat, t: Track)
    requires j < |live| && |marks| == |objs|
  {
    && (forall i :: 0 <= i < |objs| && Matched(live, marks, i, j) ==> t == Hit(live[j], objs[i], now))
    && ((forall i :: 0 <= i < |objs| ==> !Matched(live, marks, i, j)) ==> t == live[j])
  }

  /** A live track took the object: one it was gated with. */
  ghost predicate TookLive(h: Length, live: seq<Track>, objs: seq<Detection>, origin: Option<Point>, marks: seq<Mark>, i: nat)
    requires i < |marks| == |objs|
  {
    exists j :: 0 <= j < |live| && Matched(live, marks, i, j) && Gate(h, live[j], objs[i], origin).Some?
  }

  /** A track after the live ones is the new track of one object, and has a new id. */
  ghost predicate IsNewTrackOf(objs: seq<Detection>, marks: seq<Mark>, now: real, firstId: nat, t: Track)
    requires |marks| == |objs|
  {
    exists i ::
      && 0 <= i < |objs| && marks[i] == Mark(t.id, false) && t.id >= firstId
      && t == Track(t.id, Group(objs[i].kind), objs[i].ground, objs[i].u, objs[i].v, [now], now, false)
  }

  /** The mark is that of one of the tracks. */
  ghost predicate NamesTrack(tracks: seq<Track>, m: Mark) {
    exists j :: 0 <= j < |tracks| && tracks[j].id == m.track && tracks[j].confirmed == m.confirmed
  }

  /** A live track that became confirmed. */
  ghost predicate ConfirmedNow(live: seq<Track>, tracks: seq<Track>, t: Track)
    requires |tracks| >= |live|
  {
    exists j :: 0 <= j < |live| && tracks[j] == t && t.confirmed && !live[j].confirmed
  }

  /** Everything one frame does to the tracker. */
  ghost predicate FrameResult(h: Length, before: Tracker, objs: seq<Detection>, now: real, origin: Option<Point>,
                              after: Tracker, marks: seq<Mark>, newly: seq<Track>) {
    var live := Live(before.tracks, now);
    && |marks| == |objs|
    && OneToOne(marks)
    && Stable(h, live, objs, origin, marks)
    && |after.tracks| >= |live|
    && (forall j :: 0 <= j < |live| ==> TrackFollows(live, objs, marks, now, j, after.tracks[j]))
    && (forall j :: |live| <= j < |after.tracks| ==> IsNewTrackOf(objs, marks, now, before.next, after.tracks[j]))
    && (forall i :: 0 <= i < |objs| ==> NamesTrack(after.tracks, marks[i]))
    && (forall i :: 0 <= i < |objs| ==> TookLive(h, live, objs, origin, marks, i) || marks[i].track >= before.next)
    && (forall t :: t in newly <==> ConfirmedNow(live, after.tracks, t))
    && Valid(after) && after.next >= before.next
  }

  // ---- Sorting ----

  /** Python's order on `(d, i, j)`. */
  predicate Before(p: Pair, q: Pair) {
    p.d < q.d || (p.d == q.d && (p.o < q.o || (p.o == q.o && p.t <= q.t)))
  }

  predicate Ordered(ps: seq<Pair>) {
    forall i, j :: 0 <= i < j < |ps| ==> Before(ps[i], ps[j])
  }

  function Insert(p: Pair, ps: seq<Pair>): (r: seq<Pair>)
    requires Ordered(ps)
    ensures forall x :: x in r <==> x == p || x in ps
    ensures Ordered(r)
  {
    if ps == [] then [p]
    else if Before(p, ps[0]) then [p] + ps
    else
      var rest := Insert(p, ps[1..]);
      assert forall x :: x in ps[1..] ==> Before(ps[0], x);
      assert forall k :: 0 <= k < |rest| ==> rest[k] in rest;
      [ps[0]] + rest
  }

  /** `sorted(pairs)`. */
  function Sorted(ps: seq<Pair>): (r: seq<Pair>)
    ensures forall x :: x in r <==> x in ps
    ensures Ordered(r)
  {
    if ps == [] then [] else Insert(ps[0], Sorted(ps[1..]))
  }

  // ---- The tracker ----

  /** Which object went to which live track: gated pairs, no track twice. */
  ghost predicate MatchOk(h: Length, live: seq<Track>, objs: seq<Detection>, origin: Option<Point>, chosen: map<nat, nat>) {
    && (forall i :: i in chosen ==> i < |objs| && chosen[i] < |live| && Gate(h, live[chosen[i]], objs[i], origin).Some?)
    && (forall i, k :: i in chosen && k in chosen && i != k ==> chosen[i] != chosen[k])
  }

  /** The tracks after those hits. */
  ghost predicate TracksOk(live: seq<Track>, objs: seq<Detection>, now: real, chosen: map<nat, nat>,
                           tracks: seq<Track>, confirmed: map<nat, bool>) {
    && |tracks| == |live|
    && confirmed.Keys == chosen.Keys
    && (forall i :: i in chosen ==> HitBy(live, objs, now, tracks, confirmed, i, chosen[i]))
    && (forall j :: 0 <= j < |live| && j !in chosen.Values ==> tracks[j] == live[j])
  }

  ghost predicate HitBy(live: seq<Track>, objs: seq<Detection>, now: real, tracks: seq<Track>, confirmed: map<nat, bool>,
                        i: nat, j: nat)
    requires |tracks| == |live| && i in confirmed
  {
    && i < |objs| && j < |live|
    && tracks[j] == Hit(live[j], objs[i], now)
    && confirmed[i] == tracks[j].confirmed
  }

  /** The pair, or one that took its object or its track at no larger distance, is in the match. */
  ghost predicate Settled(h: Length, live: seq<Track>, objs: seq<Detection>, origin: Option<Point>,
                          chosen: map<nat, nat>, p: Pair) {
    exists q ::
      && IsGated(h, live, objs, origin, q)
      && q.o in chosen && chosen[q.o] == q.t
      && q.d <= p.d && (q.o == p.o || q.t == p.t)
  }

  class DetectionTracker {
    var tracks: seq<Track>
    var next: nat

    ghost function State(): Tracker
      reads this
    {
      Tracker(tracks, next)
    }

    constructor ()
      ensures State() == Tracker([], 1)
      ensures Valid(State())
    {
      tracks, next := [], 1;
    }

    /** One frame: nearest pairs first, one object per track, a new track for each object left over. */
    method Update(h: Length, objs: seq<Detection>, now: real, origin: Option<Point>)
      returns (marks: seq<Mark>, newly: seq<Track>)
      requires Valid(State())
      modifies this
      ensures FrameResult(h, old(State()), objs, now, origin, State(), marks, newly)
    {
      var live := Live(tracks, now);
      LiveKeepsDistinct(tracks, now);
      var pairs := GatedPairs(h, live, objs, origin);
      var chosen, moved, confirmed, confirmedNow := MatchNearest(h, live, objs, origin, now, Sorted(pairs));
      ghost var firstId := next;
      marks := AddTracks(objs, now, live, chosen, confirmed, moved);
      newly := confirmedNow;
      FrameFollows(h, old(State()), objs, now, origin, chosen, confirmed, moved, State(), marks, newly);
    }

    /** The loop over the objects left over: a new track for each. */
    method AddTracks(objs: seq<Detection>, now: real, live: seq<Track>, chosen: map<nat, nat>, confirmed: map<nat, bool>,
                     moved: seq<Track>)
      returns (marks: seq<Mark>)
      requires forall i :: i in chosen ==> i < |objs| && chosen[i] < |live| && i in confirmed
      modifies this
      ensures tracks == moved + NewTracks(objs, chosen.Keys, old(next), now, |objs|)
      ensures next == old(next) + Rank(objs, chosen.Keys, |objs|)
      ensures marks == Marks(objs, live, chosen, confirmed, old(next), |objs|)
    {
      tracks, marks := moved, [];
      for i := 0 to |objs|
        invariant tracks == moved + NewTracks(objs, chosen.Keys, old(next), now, i)
        invariant next == old(next) + Rank(objs, chosen.Keys, i)
        invariant marks == Marks(objs, live, chosen, confirmed, old(next), i)
      {
        hide NewTrack;
        if i in chosen {
          marks := marks + [Mark(live[chosen[i]].id, confirmed[i])];
        } else {
          tracks := tracks + [NewTrack(next, objs[i], now)];
          marks := marks + [Mark(next, false)];
          next := next + 1;
        }
      }
    }
  }

  /** How many of the first `n` objects no track took. */
  function Rank(objs: seq<Detection>, matched: set<nat>, n: nat): nat {
    if n == 0 then 0 else Rank(objs, matched, n - 1) + (if n - 1 in matched then 0 else 1)
  }

  /** Their new tracks, numbered on from `firstId`. */
  function NewTracks(objs: seq<Detection>, matched: set<nat>, firstId: nat, now: real, n: nat): (r: seq<Track>)
    requires n <= |objs|
    ensures |r| == Rank(objs, matched, n)
  {
    if n == 0 then []
    else
      NewTracks(objs, matched, firstId, now, n - 1)
      + (if n - 1 in matched then [] else [NewTrack(firstId + Rank(objs, matched, n - 1), objs[n - 1], now)])
  }

  /** The marks of the first `n` objects. */
  function Marks(objs: seq<Detection>, live: seq<Track>, chosen: map<nat, nat>, confirmed: map<nat, bool>, firstId: nat, n: nat): (r: seq<Mark>)
    requires n <= |objs|
    requires forall i :: i in chosen ==> chosen[i] < |live| && i in confirmed
    ensures |r| == n
  {
    if n == 0 then []
    else Marks(objs, live, chosen, confirmed, firstId, n - 1) + [MarkOf(objs, live, chosen, confirmed, firstId, n - 1)]
  }

  function MarkOf(objs: seq<Detection>, live: seq<Track>, chosen: map<nat, nat>, confirmed: map<nat, bool>, firstId: nat, i: nat): Mark
    requires forall i :: i in chosen ==> chosen[i] < |live| && i in confirmed
  {
    if i in chosen then Mark(live[chosen[i]].id, confirmed[i]) else Mark(firstId + Rank(objs, chosen.Keys, i), false)
  }

  lemma {:induction false} MarksAt(objs: seq<Detection>, live: seq<Track>, chosen: map<nat, nat>, confirmed: map<nat, bool>,
                                   firstId: nat, n: nat, i: nat)
    requires i < n <= |objs|
    requires forall i :: i in chosen ==> chosen[i] < |live| && i in confirmed
    ensures Marks(objs, live, chosen, confirmed, firstId, n)[i] == MarkOf(objs, live, chosen, confirmed, firstId, i)
  {
    if i < n - 1 {
      MarksAt(objs, live, chosen, confirmed, firstId, n - 1, i);
    }
  }

  lemma {:induction false} RankGrows(objs: seq<Detection>, matched: set<nat>, i: nat, n: nat)
    requires i < n
    ensures Rank(objs, matched, i) <= Rank(objs, matched, n)
    ensures i !in matched ==> Rank(objs, matched, i) < Rank(objs, matched, n)
  {
    if i < n - 1 {
      RankGrows(objs, matched, i, n - 1);
    }
  }

  /** The new track of an object that none took. */
  lemma {:induction false} NewTrackAt(objs: seq<Detection>, matched: set<nat>, firstId: nat, now: real, n: nat, i: nat)
    requires i < n <= |objs| && i !in matched
    ensures Rank(objs, matched, i) < Rank(objs, matched, n)
    ensures NewTracks(objs, matched, firstId, now, n)[Rank(objs, matched, i)]
         == NewTrack(firstId + Rank(objs, matched, i), objs[i], now)
  {
    hide NewTrack;
    RankGrows(objs, matched, i, n);
    if i < n - 1 {
      NewTrackAt(objs, matched, firstId, now, n - 1, i);
    }
  }

  /** The object of a new track. */
  lemma {:induction false} ObjectOfNewTrack(objs: seq<Detection>, matched: set<nat>, firstId: nat, now: real, n: nat, j: nat)
    returns (i: nat)
    requires n <= |objs| && j < Rank(objs, matched, n)
    ensures i < n && i !in matched && Rank(objs, matched, i) == j
    ensures NewTracks(objs, matched, firstId, now, n)[j] == NewTrack(firstId + j, objs[i], now)
  {
    hide NewTrack;
    if j < Rank(objs, matched, n - 1) {
      i := ObjectOfNewTrack(objs, matched, firstId, now, n - 1, j);
    } else {
      i := n - 1;
    }
  }

  // ---- The frame's result ----

  /** The match and the additions together. */
  ghost predicate Finished(h: Length, before: Tracker, objs: seq<Detection>, now: real, origin: Option<Point>,
                           chosen: map<nat, nat>, confirmed: map<nat, bool>, moved: seq<Track>, after: Tracker, marks: seq<Mark>) {
    var live := Live(before.tracks, now);
    && MatchOk(h, live, objs, origin, chosen) && TracksOk(live, objs, now, chosen, moved, confirmed)
    && (forall p :: IsGated(h, live, objs, origin, p) ==> Settled(h, live, objs, origin, chosen, p))
    && after.tracks == moved + NewTracks(objs, chosen.Keys, before.next, now, |objs|)
    && after.next == before.next + Rank(objs, chosen.Keys, |objs|)
    && marks == Marks(objs, live, chosen, confirmed, before.next, |objs|)
    && Valid(before)
  }

  lemma MatchedExactly(h: Length, before: Tracker, objs: seq<Detection>, now: real, origin: Option<Point>,
                       chosen: map<nat, nat>, confirmed: map<nat, bool>, moved: seq<Track>, after: Tracker, marks: seq<Mark>, i: nat, j: nat)
    requires Finished(h, before, objs, now, origin, chosen, confirmed, moved, after, marks)
    requires i < |objs| && j < |Live(before.tracks, now)|
    ensures Matched(Live(before.tracks, now), marks, i, j) <==> i in chosen && chosen[i] == j
  {
    hide Gate, Hit, Settled, Live, NewTracks, Marks, Rank;
    var live := Live(before.tracks, now);
    LiveKeepsDistinct(before.tracks, now);
    MarksAt(objs, live, chosen, confirmed, before.next, |objs|, i);
    assert live[j] in live;
  }

  lemma ObjectsKeepApart(h: Length, before: Tracker, objs: seq<Detection>, now: real, origin: Option<Point>,
                         chosen: map<nat, nat>, confirmed: map<nat, bool>, moved: seq<Track>, after: Tracker, marks: seq<Mark>, i: nat, k: nat)
    requires Finished(h, before, objs, now, origin, chosen, confirmed, moved, after, marks)
    requires i < k < |objs|
    ensures marks[i].track != marks[k].track
  {
    hide Gate, Hit, Settled, Live, NewTracks, Marks, Rank;
    var live := Live(before.tracks, now);
    LiveKeepsDistinct(before.tracks, now);
    MarksAt(objs, live, chosen, confirmed, before.next, |objs|, i);
    MarksAt(objs, live, chosen, confirmed, before.next, |objs|, k);
    RankGrows(objs, chosen.Keys, i, k);
    if i in chosen {
      assert live[chosen[i]] in live;
    }
    if k in chosen {
      assert live[chosen[k]] in live;
    }
  }

  lemma PairGaveWay(h: Length, before: Tracker, objs: seq<Detection>, now: real, origin: Option<Point>,
                    chosen: map<nat, nat>, confirmed: map<nat, bool>, moved: seq<Track>, after: Tracker, marks: seq<Mark>, p: Pair)
    requires Finished(h, before, objs, now, origin, chosen, confirmed, moved, after, marks)
    requires IsGated(h, Live(before.tracks, now), objs, origin, p)
    ensures GaveWay(h, Live(before.tracks, now), objs, origin, marks, p)
  {
    hide Gate, Hit, Live, NewTracks, Marks, Rank, MatchOk, TracksOk;
    var live := Live(before.tracks, now);
    assert Settled(h, live, objs, origin, chosen, p);
    var q :| IsGated(h, live, objs, origin, q) && q.o in chosen && chosen[q.o] == q.t && q.d <= p.d && (q.o == p.o || q.t == p.t);
    MatchedExactly(h, before, objs, now, origin, chosen, confirmed, moved, after, marks, q.o, q.t);
  }

  lemma LiveTrackFollows(h: Length, before: Tracker, objs: seq<Detection>, now: real, origin: Option<Point>,
                         chosen: map<nat, nat>, confirmed: map<nat, bool>, moved: seq<Track>, after: Tracker, marks: seq<Mark>, j: nat)
    requires Finished(h, before, objs, now, origin, chosen, confirmed, moved, after, marks)
    requires j < |moved|
    ensures TrackFollows(Live(before.tracks, now), objs, marks, now, j, after.tracks[j])
  {
    hide Gate, Hit, Live, Settled, NewTracks, Marks, Rank;
    var live := Live(before.tracks, now);
    forall i | 0 <= i < |objs|
      ensures Matched(live, marks, i, j) <==> i in chosen && chosen[i] == j
    {
      MatchedExactly(h, before, objs, now, origin, chosen, confirmed, moved, after, marks, i, j);
    }
    if j in chosen.Values {
      var i :| i in chosen && chosen[i] == j;
      assert Matched(live, marks, i, j);
    }
  }

  lemma MarkHasTrack(h: Length, before: Tracker, objs: seq<Detection>, now: real, origin: Option<Point>,
                     chosen: map<nat, nat>, confirmed: map<nat, bool>, moved: seq<Track>, after: Tracker, marks: seq<Mark>, i: nat)
    requires Finished(h, before, objs, now, origin, chosen, confirmed, moved, after, marks)
    requires i < |objs|
    ensures NamesTrack(after.tracks, marks[i])
    ensures TookLive(h, Live(before.tracks, now), objs, origin, marks, i) || marks[i].track >= before.next
  {
    hide Gate, Hit, Live, Settled, NewTracks, Marks, Rank, NewTrack;
    var live := Live(before.tracks, now);
    MarksAt(objs, live, chosen, confirmed, before.next, |objs|, i);
    if i in chosen {
      assert after.tracks[chosen[i]] == moved[chosen[i]];
      assert Matched(live, marks, i, chosen[i]);
    } else {
      NewTrackAt(objs, chosen.Keys, before.next, now, |objs|, i);
      assert after.tracks[|moved| + Rank(objs, chosen.Keys, i)].id == marks[i].track;
    }
  }

  lemma AddedTrackIsNew(h: Length, before: Tracker, objs: seq<Detection>, now: real, origin: Option<Point>,
                        chosen: map<nat, nat>, confirmed: map<nat, bool>, moved: seq<Track>, after: Tracker, marks: seq<Mark>, j: nat)
    requires Finished(h, before, objs, now, origin, chosen, confirmed, moved, after, marks)
    requires |moved| <= j < |after.tracks|
    ensures IsNewTrackOf(objs, marks, now, before.next, after.tracks[j])
    ensures after.tracks[j].id == before.next + (j - |moved|)
  {
    hide Gate, Hit, Live, Settled, NewTracks, Marks, Rank;
    var i := ObjectOfNewTrack(objs, chosen.Keys, before.next, now, |objs|, j - |moved|);
    MarksAt(objs, Live(before.tracks, now), chosen, confirmed, before.next, |objs|, i);
  }

  lemma IdsStayDistinct(h: Length, before: Tracker, objs: seq<Detection>, now: real, origin: Option<Point>,
                        chosen: map<nat, nat>, confirmed: map<nat, bool>, moved: seq<Track>, after: Tracker, marks: seq<Mark>)
    requires Finished(h, before, objs, now, origin, chosen, confirmed, moved, after, marks)
    ensures Valid(after)
  {
    hide Gate, Hit, Settled, Live, NewTracks, Marks, Rank;
    var live := Live(before.tracks, now);
    LiveKeepsDistinct(before.tracks, now);
    forall j | 0 <= j < |after.tracks|
      ensures j < |live| ==> after.tracks[j].id == live[j].id < before.next
      ensures j >= |live| ==> after.tracks[j].id == before.next + (j - |moved|)
    {
      if j < |live| {
        assert after.tracks[j] == moved[j] && live[j] in live;
        if j in chosen.Values {
          var i :| i in chosen && chosen[i] == j;
        }
      } else {
        AddedTrackIsNew(h, before, objs, now, origin, chosen, confirmed, moved, after, marks, j);
      }
    }
  }

  lemma FrameFollows(h: Length, before: Tracker, objs: seq<Detection>, now: real, origin: Option<Point>,
                     chosen: map<nat, nat>, confirmed: map<nat, bool>, moved: seq<Track>, after: Tracker, marks: seq<Mark>, newly: seq<Track>)
    requires Finished(h, before, objs, now, origin, chosen, confirmed, moved, after, marks)
    requires |moved| == |Live(before.tracks, now)|
    requires forall t :: t in newly <==> ConfirmedNow(Live(before.tracks, now), moved, t)
    ensures FrameResult(h, before, objs, now, origin, after, marks, newly)
  {
    hide Gate, Hit, Live, NewTrack, Settled, IsNewTrackOf, TrackFollows, TookLive, NamesTrack, GaveWay, NewTracks, Marks, Rank, MatchOk, TracksOk;
    var live := Live(before.tracks, now);
    forall i, k | 0 <= i < k < |marks|
      ensures marks[i].track != marks[k].track
    {
      ObjectsKeepApart(h, before, objs, now, origin, chosen, confirmed, moved, after, marks, i, k);
    }
    forall p | IsGated(h, live, objs, origin, p)
      ensures GaveWay(h, live, objs, origin, marks, p)
    {
      PairGaveWay(h, before, objs, now, origin, chosen, confirmed, moved, after, marks, p);
    }
    forall j | 0 <= j < |live|
      ensures TrackFollows(live, objs, marks, now, j, after.tracks[j])
    {
      LiveTrackFollows(h, before, objs, now, origin, chosen, confirmed, moved, after, marks, j);
    }
    forall j | |live| <= j < |after.tracks|
      ensures IsNewTrackOf(objs, marks, now, before.next, after.tracks[j])
    {
      AddedTrackIsNew(h, before, objs, now, origin, chosen, confirmed, moved, after, marks, j);
    }
    forall i | 0 <= i < |objs|
      ensures NamesTrack(after.tracks, marks[i])
      ensures TookLive(h, live, objs, origin, marks, i) || marks[i].track >= before.next
    {
      MarkHasTrack(h, before, objs, now, origin, chosen, confirmed, moved, after, marks, i);
    }
    IdsStayDistinct(h, before, objs, now, origin, chosen, confirmed, moved, after, marks);
    forall t
      ensures ConfirmedNow(live, after.tracks, t) <==> ConfirmedNow(live, moved, t)
    {
      assert forall j :: 0 <= j < |moved| ==> after.tracks[j] == moved[j];
    }
  }

  // ---- Matching ----

  method GatedPairs(h: Length, live: seq<Track>, objs: seq<Detection>, origin: Option<Point>) returns (pairs: seq<Pair>)
    ensures forall p :: p in pairs <==> IsGated(h, live, objs, origin, p)
  {
    pairs := [];
    for i := 0 to |objs|
      invariant forall p :: p in pairs <==> p.o < i && IsGated(h, live, objs, origin, p)
    {
      for j := 0 to |live|
        invariant forall p :: p in pairs <==> (p.o < i || (p.o == i && p.t < j)) && IsGated(h, live, objs, origin, p)
      {
        var d := Gate(h, live[j], objs[i], origin);
        if d.Some? {
          pairs := pairs + [Pair(d.value, i, j)];
        }
      }
    }
  }

  /** The loop over the sorted pairs; `newly` are the tracks it confirms. */
  method MatchNearest(h: Length, live: seq<Track>, objs: seq<Detection>, origin: Option<Point>, now: real, pairs: seq<Pair>)
    returns (chosen: map<nat, nat>, tracks: seq<Track>, confirmed: map<nat, bool>, newly: seq<Track>)
    requires Ordered(pairs)
    requires forall p :: p in pairs <==> IsGated(h, live, objs, origin, p)
    ensures MatchOk(h, live, objs, origin, chosen) && TracksOk(live, objs, now, chosen, tracks, confirmed)
    ensures forall p :: IsGated(h, live, objs, origin, p) ==> Settled(h, live, objs, origin, chosen, p)
    ensures forall t :: t in newly <==> ConfirmedNow(live, tracks, t)
  {
    hide Gate, Hit, Settled, MatchOk, TracksOk, MatchIsFrom, ConfirmedNow;
    var usedO: set<nat>, usedT: set<nat> := {}, {};
    chosen, tracks, confirmed, newly := map[], live, map[], [];
    NothingMatched(h, live, objs, origin, now);
    for k := 0 to |pairs|
      invariant usedO == chosen.Keys && usedT == chosen.Values && |tracks| == |live|
      invariant MatchOk(h, live, objs, origin, chosen) && TracksOk(live, objs, now, chosen, tracks, confirmed)
      invariant forall m :: 0 <= m < k ==> Settled(h, live, objs, origin, chosen, pairs[m])
      invariant MatchIsFrom(chosen, pairs[..k])
      invariant forall t :: t in newly <==> ConfirmedNow(live, tracks, t)
    {
      var p := pairs[k];
      assert p in pairs;
      assert pairs[..k + 1] == pairs[..k] + [p];
      if p.o in usedO || p.t in usedT {
        UsedIsSettled(h, live, objs, origin, chosen, pairs, k);
        FromMore(chosen, pairs[..k], p);
      } else {
        var t := Hit(live[p.t], objs[p.o], now);
        ValuesAfter(chosen, p.o, p.t);
        MatchStep(h, live, objs, origin, chosen, p);
        TracksStep(live, objs, now, chosen, tracks, confirmed, p.o, p.t);
        ConfirmedStep(live, tracks, p.t, t);
        FromMatched(chosen, pairs[..k], p);
        ghost var before := chosen;
        usedO, usedT := usedO + {p.o}, usedT + {p.t};
        chosen, confirmed := chosen[p.o := p.t], confirmed[p.o := t.confirmed];
        forall m | 0 <= m <= k
          ensures Settled(h, live, objs, origin, chosen, pairs[m])
        {
          SettledStays(h, live, objs, origin, before, p, pairs[m]);
        }
        ghost var newlyBefore := newly;
        if t.confirmed && !live[p.t].confirmed {
          newly := newly + [t];
        }
        assert forall x :: x in newly <==> x in newlyBefore || (x == t && t.confirmed && !live[p.t].confirmed);
        tracks := tracks[p.t := t];
      }
    }
    forall p | IsGated(h, live, objs, origin, p)
      ensures Settled(h, live, objs, origin, chosen, p)
    {
      assert p in pairs;
    }
  }

  lemma NothingMatched(h: Length, live: seq<Track>, objs: seq<Detection>, origin: Option<Point>, now: real)
    ensures MatchOk(h, live, objs, origin, map[]) && TracksOk(live, objs, now, map[], live, map[])
    ensures MatchIsFrom(map[], [])
    ensures forall t :: !ConfirmedNow(live, live, t)
  {
  }

  lemma FromMore(chosen: map<nat, nat>, pairs: seq<Pair>, p: Pair)
    requires MatchIsFrom(chosen, pairs)
    ensures MatchIsFrom(chosen, pairs + [p])
  {
  }

  lemma FromMatched(chosen: map<nat, nat>, pairs: seq<Pair>, p: Pair)
    requires MatchIsFrom(chosen, pairs)
    ensures MatchIsFrom(chosen[p.o := p.t], pairs + [p])
  {
  }

  /** Every matched pair is one of these. */
  ghost predicate MatchIsFrom(chosen: map<nat, nat>, pairs: seq<Pair>) {
    forall o :: o in chosen ==> exists q :: q in pairs && q.o == o && q.t == chosen[o]
  }

  lemma ConfirmedStep(live: seq<Track>, tracks: seq<Track>, j: nat, t: Track)
    requires |tracks| == |live| && j < |live| && tracks[j] == live[j]
    ensures forall x :: ConfirmedNow(live, tracks[j := t], x) <==>
              ConfirmedNow(live, tracks, x) || (x == t && t.confirmed && !live[j].confirmed)
  {
    var after := tracks[j := t];
    forall x
      ensures ConfirmedNow(live, after, x) <==> ConfirmedNow(live, tracks, x) || (x == t && t.confirmed && !live[j].confirmed)
    {
      if ConfirmedNow(live, tracks, x) {
        var i :| 0 <= i < |live| && tracks[i] == x && x.confirmed && !live[i].confirmed;
        assert after[i] == x;
      }
      if x == t && t.confirmed && !live[j].confirmed {
        assert after[j] == x;
      }
    }
  }

  lemma MatchStep(h: Length, live: seq<Track>, objs: seq<Detection>, origin: Option<Point>, chosen: map<nat, nat>, p: Pair)
    requires MatchOk(h, live, objs, origin, chosen)
    requires IsGated(h, live, objs, origin, p) && p.o !in chosen && p.t !in chosen.Values
    ensures MatchOk(h, live, objs, origin, chosen[p.o := p.t])
  {
  }

  lemma TracksStep(live: seq<Track>, objs: seq<Detection>, now: real, chosen: map<nat, nat>, tracks: seq<Track>,
                   confirmed: map<nat, bool>, o: nat, j: nat)
    requires TracksOk(live, objs, now, chosen, tracks, confirmed)
    requires o < |objs| && j < |live| && o !in chosen && j !in chosen.Values
    ensures |tracks| == |live| && tracks[j] == live[j]
    ensures (var t := Hit(live[j], objs[o], now);
             TracksOk(live, objs, now, chosen[o := j], tracks[j := t], confirmed[o := t.confirmed]))
  {
    hide Hit;
    var t := Hit(live[j], objs[o], now);
    var after, moved, flags := chosen[o := j], tracks[j := t], confirmed[o := t.confirmed];
    ValuesAfter(chosen, o, j);
    forall i | i in after
      ensures HitBy(live, objs, now, moved, flags, i, after[i])
    {
      if i != o {
        assert chosen[i] in chosen.Values;
        assert HitBy(live, objs, now, tracks, confirmed, i, chosen[i]);
      }
    }
  }

  lemma ValuesAfter(chosen: map<nat, nat>, o: nat, t: nat)
    requires o !in chosen
    ensures chosen[o := t].Values == chosen.Values + {t}
  {
    var after := chosen[o := t];
    assert after[o] == t;
    forall j | j in chosen.Values
      ensures j in after.Values
    {
      var i :| i in chosen && chosen[i] == j;
      assert after[i] == j;
    }
  }

  lemma UsedIsSettled(h: Length, live: seq<Track>, objs: seq<Detection>, origin: Option<Point>,
                      chosen: map<nat, nat>, pairs: seq<Pair>, k: nat)
    requires k < |pairs| && Ordered(pairs)
    requires forall p :: p in pairs <==> IsGated(h, live, objs, origin, p)
    requires MatchIsFrom(chosen, pairs[..k])
    requires pairs[k].o in chosen || pairs[k].t in chosen.Values
    ensures Settled(h, live, objs, origin, chosen, pairs[k])
  {
  }

  lemma SettledStays(h: Length, live: seq<Track>, objs: seq<Detection>, origin: Option<Point>,
                     before: map<nat, nat>, p: Pair, x: Pair)
    requires IsGated(h, live, objs, origin, p) && p.o !in before
    requires Settled(h, live, objs, origin, before, x) || x == p
    ensures Settled(h, live, objs, origin, before[p.o := p.t], x)
  {
  }

  // ---- What a frame keeps ----

  /** The hits end with the last one, all recent, and fewer than three while unconfirmed. */
  ghost predicate Sound(t: Track) {
    && t.hits != [] && t.hits[|t.hits| - 1] == t.last
    && (forall x :: x in t.hits ==> t.last - x <= CONFIRM_WINDOW)
    && (!t.confirmed ==> |t.hits| < CONFIRM_HITS)
  }

  lemma HitIsSound(t: Track, o: Detection, now: real)
    ensures Sound(Hit(t, o, now))
    ensures Hit(t, o, now).confirmed && !t.confirmed ==> |Hit(t, o, now).hits| >= CONFIRM_HITS
  {
  }

  /** Over every frame, all tracks stay sound, and a track becomes confirmed only with three hits of the last
    four seconds to show for it. */
  lemma FramesKeepTracksSound(h: Length, before: Tracker, objs: seq<Detection>, now: real, origin: Option<Point>,
                              after: Tracker, marks: seq<Mark>, newly: seq<Track>)
    requires FrameResult(h, before, objs, now, origin, after, marks, newly)
    requires forall t :: t in before.tracks ==> Sound(t)
    ensures forall t :: t in after.tracks ==> Sound(t)
    ensures forall t :: t in newly ==> |t.hits| >= CONFIRM_HITS && t.last == now && t in after.tracks
  {
    hide Gate, Hit, Live, GaveWay, NamesTrack, TookLive, NewTrack;
    var live := Live(before.tracks, now);
    forall j | 0 <= j < |after.tracks|
      ensures Sound(after.tracks[j])
      ensures j < |live| && after.tracks[j].confirmed && !live[j].confirmed ==>
                |after.tracks[j].hits| >= CONFIRM_HITS && after.tracks[j].last == now
    {
      LiveIsPart(before.tracks, now);
      var t := after.tracks[j];
      if j < |live| {
        assert live[j] in live;
        if i :| 0 <= i < |objs| && Matched(live, marks, i, j) {
          HitIsSound(live[j], objs[i], now);
        }
      } else {
        assert IsNewTrackOf(objs, marks, now, before.next, t);
        NewIsSound(t.id, objs, now);
      }
    }
  }

  lemma NewIsSound(id: nat, objs: seq<Detection>, now: real)
    ensures forall o :: o in objs ==> Sound(NewTrack(id, o, now))
  {
  }

  lemma LiveIsPart(tracks: seq<Track>, now: real)
    ensures forall t :: t in Live(tracks, now) ==> t in tracks && now - t.last <= TRACK_TTL
  {
  }

  // ---- Which objects a track takes, and where it moves ----

  /** Vehicles are one group; every other kind is its own. */
  lemma SameGroupExactly(kind: string, kind': string)
    ensures Group(kind) == Group(kind') <==> kind == kind' || (IsVehicle(kind) && IsVehicle(kind'))
  {
  }

  predicate IsVehicle(kind: string) {
    kind == "car" || kind == "truck" || kind == "bus" || kind == "motorcycle" || kind == "vehicle"
  }

  /** The object may be the track's: of its group, and either both have a spot, no further apart than 3 m and a tenth of the
    drone's distance, or neither has one and their boxes are close. */
  ghost predicate Fits(h: Length, t: Track, o: Detection, origin: Option<Point>) {
    && Group(o.kind) == t.group
    && if o.ground.Some? && t.spot.Some?
       then Dist(h, o.ground.value, t.spot.value) <= 3.0 + 0.1 * (if origin.Some? then Dist(h, o.ground.value, origin.value) else 0.0)
       else o.ground.None? && t.spot.None? && h(o.u - t.u, o.v - t.v) <= 0.06
  }

  /** Where the object did not go to the track, the one or the other went elsewhere no further away. */
  ghost predicate NearerTaken(h: Length, live: seq<Track>, objs: seq<Detection>, marks: seq<Mark>, i: nat, j: nat)
    requires |marks| == |objs| && i < |objs| && j < |live|
  {
    exists i': nat, j': nat ::
      && i' < |objs| && j' < |live| && (i' == i || j' == j)
      && Matched(live, marks, i', j') && Apart(h, live[j'], objs[i']) <= Apart(h, live[j], objs[i])
  }

  lemma GateIsFit(h: Length, t: Track, o: Detection, origin: Option<Point>)
    ensures Gate(h, t, o, origin) == if Fits(h, t, o, origin) then Some(Apart(h, t, o)) else None
  {
  }

  /** Over every frame: a track known before takes only an object that fits it; and where one that fits did not go to it, the
    object or the track was taken by something no further away. */
  lemma TakenExactly(h: Length, before: Tracker, f: Frame, after: Tracker, i: nat, j: nat)
    requires FrameOf(h, before, f, after) && Valid(before) && i < |f.objs|
    requires j < |Live(before.tracks, f.now)|
    ensures (var live := Live(before.tracks, f.now);
             && (Matched(live, f.marks, i, j) ==> Fits(h, live[j], f.objs[i], f.origin))
             && (Fits(h, live[j], f.objs[i], f.origin) ==> NearerTaken(h, live, f.objs, f.marks, i, j)))
  {
    hide Hit, Fits, Apart, Gate, IsNewTrackOf, TrackFollows, NamesTrack, Stable, GaveWay, NearerTaken;
    var live := Live(before.tracks, f.now);
    LiveKeepsDistinct(before.tracks, f.now);
    assert live[j] in live;
    GateIsFit(h, live[j], f.objs[i], f.origin);
    if Fits(h, live[j], f.objs[i], f.origin) {
      WhatFitsGaveWay(h, live, f.objs, f.origin, f.marks, i, j);
    }
  }

  lemma WhatFitsGaveWay(h: Length, live: seq<Track>, objs: seq<Detection>, origin: Option<Point>, marks: seq<Mark>, i: nat, j: nat)
    requires |marks| == |objs| && i < |objs| && j < |live|
    requires Stable(h, live, objs, origin, marks) && Fits(h, live[j], objs[i], origin)
    ensures NearerTaken(h, live, objs, marks, i, j)
  {
    hide Fits, Apart, Gate;
    GateIsFit(h, live[j], objs[i], origin);
    var p := Pair(Apart(h, live[j], objs[i]), i, j);
    assert IsGated(h, live, objs, origin, p) && GaveWay(h, live, objs, origin, marks, p);
    var q :| IsGated(h, live, objs, origin, q) && Matched(live, marks, q.o, q.t) && q.d <= p.d && (q.o == p.o || q.t == p.t);
    GateIsFit(h, live[q.t], objs[q.o], origin);
  }

  /** The distance that counts: on the ground if both have a spot, else in the image. */
  function Apart(h: Length, t: Track, o: Detection): real {
    if o.ground.Some? && t.spot.Some? then Dist(h, o.ground.value, t.spot.value) else h(o.u - t.u, o.v - t.v)
  }

  /** A hit moves the track three tenths of the way to the object, in the image and, if both have a spot, on the ground. */
  lemma HitMovesCloser(t: Track, o: Detection, now: real)
    ensures Hit(t, o, now).u - o.u == 0.7 * (t.u - o.u) && Hit(t, o, now).v - o.v == 0.7 * (t.v - o.v)
    ensures t.spot.None? || o.ground.None? ==> Hit(t, o, now).spot == t.spot
    ensures t.spot.Some? && o.ground.Some? ==>
              && Hit(t, o, now).spot.Some?
              && (var a, b, p := t.spot.value, o.ground.value, Hit(t, o, now).spot.value;
                  p == Along(a, b, 0.3) && Dist2(p, b) == 0.49 * Dist2(a, b))
  {
    if t.spot.Some? && o.ground.Some? {
      var a, b := t.spot.value, o.ground.value;
      MoveOnAxis(a.n, b.n);
      MoveOnAxis(a.e, b.e);
      hide Sq;
    }
  }

  lemma MoveOnAxis(a: real, b: real)
    ensures Sq(Towards(a, b) - b) == 0.49 * Sq(a - b)
  {
    assert Towards(a, b) - b == 0.7 * (a - b);
  }

  // ---- An object seen three times is confirmed ----

  /** One frame: what came in and what the tracker made of it. */
  datatype Frame = Frame(objs: seq<Detection>, now: real, origin: Option<Point>, marks: seq<Mark>, newly: seq<Track>)

  ghost predicate FrameOf(h: Length, before: Tracker, f: Frame, after: Tracker) {
    FrameResult(h, before, f.objs, f.now, f.origin, after, f.marks, f.newly)
  }

  /** The frame's only object of the group, and it has a ground spot. */
  predicate IsOnly(objs: seq<Detection>, group: string, i: nat) {
    && i < |objs| && Group(objs[i].kind) == group && objs[i].ground.Some?
    && forall k :: 0 <= k < |objs| && Group(objs[k].kind) == group ==> k == i
  }

  /** The only track of its group. */
  ghost predicate IsOnlyTrack(tracks: seq<Track>, t: Track) {
    t in tracks && forall u :: u in tracks && u.group == t.group ==> u == t
  }

  lemma FirstSight(h: Length, before: Tracker, f: Frame, after: Tracker, group: string, i: nat) returns (t: Track)
    requires FrameOf(h, before, f, after) && Valid(before) && IsOnly(f.objs, group, i)
    requires forall u :: u in Live(before.tracks, f.now) ==> u.group != group
    ensures IsOnlyTrack(after.tracks, t) && t == NewTrack(t.id, f.objs[i], f.now)
    ensures forall u :: u in f.newly ==> u.group != group
  {
    hide FrameResult, Live;
    var j := NewTrackOfOnly(h, before, f, after, group, i);
    t := after.tracks[j];
    forall u | u in after.tracks && u.group == group
      ensures u == t
    {
      var k :| 0 <= k < |after.tracks| && after.tracks[k] == u;
      NewTrackOfGroup(h, before, f, after, group, i, k);
    }
    NoneNewly(h, before, f, after, group);
  }

  lemma NoneNewly(h: Length, before: Tracker, f: Frame, after: Tracker, group: string)
    requires FrameOf(h, before, f, after) && Valid(before)
    requires forall u :: u in Live(before.tracks, f.now) ==> u.group != group
    ensures forall u :: u in f.newly ==> u.group != group
  {
    hide Stable, TrackFollows, IsNewTrackOf, NamesTrack, TookLive, Live;
    var live := Live(before.tracks, f.now);
    OldTracksKeepGroup(h, before, f, after);
    forall u | u in f.newly
      ensures u.group != group
    {
      assert ConfirmedNow(live, after.tracks, u);
      var k :| 0 <= k < |live| && after.tracks[k] == u;
      assert live[k] in live;
    }
  }

  /** The object finds no track of its group, so it gets a new one. */
  lemma NewTrackOfOnly(h: Length, before: Tracker, f: Frame, after: Tracker, group: string, i: nat) returns (j: nat)
    requires FrameOf(h, before, f, after) && Valid(before) && IsOnly(f.objs, group, i)
    requires forall u :: u in Live(before.tracks, f.now) ==> u.group != group
    ensures |Live(before.tracks, f.now)| <= j < |after.tracks| && after.tracks[j].id == f.marks[i].track
    ensures after.tracks[j] == NewTrack(after.tracks[j].id, f.objs[i], f.now)
    ensures forall k :: 0 <= k < |Live(before.tracks, f.now)| ==> after.tracks[k].group != group
  {
    hide Hit, Stable, TrackFollows, IsNewTrackOf, NewTrack, Live;
    var live := Live(before.tracks, f.now);
    assert !TookLive(h, live, f.objs, f.origin, f.marks, i);
    assert NamesTrack(after.tracks, f.marks[i]);
    j :| 0 <= j < |after.tracks| && after.tracks[j].id == f.marks[i].track;
    OldTracksKeepGroup(h, before, f, after);
    NewTrackIs(h, before, f, after, i, j);
    forall k | 0 <= k < |live|
      ensures after.tracks[k].group != group
    {
      assert live[k] in live;
    }
  }

  /** Tracks known before keep their id and group. */
  lemma OldTracksKeepGroup(h: Length, before: Tracker, f: Frame, after: Tracker)
    requires FrameOf(h, before, f, after) && Valid(before)
    ensures (var live := Live(before.tracks, f.now);
             forall k :: 0 <= k < |live| ==>
               after.tracks[k].id == live[k].id < before.next && after.tracks[k].group == live[k].group)
  {
    hide Hit, Stable, GaveWay;
    var live := Live(before.tracks, f.now);
    forall k | 0 <= k < |live|
      ensures after.tracks[k].id == live[k].id < before.next && after.tracks[k].group == live[k].group
    {
      assert live[k] in live && TrackFollows(live, f.objs, f.marks, f.now, k, after.tracks[k]);
      if i :| 0 <= i < |f.objs| && Matched(live, f.marks, i, k) {
        assert after.tracks[k] == Hit(live[k], f.objs[i], f.now);
      }
    }
  }

  /** A track after the live ones whose id the object was given is the object's new one. */
  lemma NewTrackIs(h: Length, before: Tracker, f: Frame, after: Tracker, i: nat, j: nat)
    requires FrameOf(h, before, f, after) && i < |f.objs|
    requires |Live(before.tracks, f.now)| <= j < |after.tracks| && after.tracks[j].id == f.marks[i].track
    ensures after.tracks[j] == NewTrack(after.tracks[j].id, f.objs[i], f.now)
  {
    hide Stable, Live;
    assert IsNewTrackOf(f.objs, f.marks, f.now, before.next, after.tracks[j]);
    var k :| 0 <= k < |f.objs| && f.marks[k] == Mark(after.tracks[j].id, false)
             && after.tracks[j] == NewTrack(after.tracks[j].id, f.objs[k], f.now);
    assert k == i;
  }

  /** A new track of the group is that of its only object. */
  lemma NewTrackOfGroup(h: Length, before: Tracker, f: Frame, after: Tracker, group: string, i: nat, k: nat)
    requires FrameOf(h, before, f, after) && IsOnly(f.objs, group, i)
    requires k < |after.tracks| && after.tracks[k].group == group
    ensures k >= |Live(before.tracks, f.now)| ==> after.tracks[k].id == f.marks[i].track
    ensures forall j :: 0 <= j < |after.tracks| && after.tracks[j].id == after.tracks[k].id ==> j == k
  {
    hide Stable, Live;
    if k >= |Live(before.tracks, f.now)| {
      assert IsNewTrackOf(f.objs, f.marks, f.now, before.next, after.tracks[k]);
    }
  }

  lemma NextSight(h: Length, before: Tracker, f: Frame, after: Tracker, group: string, i: nat, t: Track)
    requires IsHypot(h)
    requires FrameOf(h, before, f, after) && Valid(before) && IsOnly(f.objs, group, i)
    requires IsOnlyTrack(before.tracks, t) && t.group == group && t.spot.Some? && f.now - t.last <= 3.0
    requires Dist(h, f.objs[i].ground.value, t.spot.value) <= 3.0
    ensures IsOnlyTrack(after.tracks, Hit(t, f.objs[i], f.now))
    ensures forall u :: u in f.newly && u.group == group <==> u == Hit(t, f.objs[i], f.now) && u.confirmed && !t.confirmed
  {
    hide Hit, FrameResult, Live, IsOnly;
    var live := Live(before.tracks, f.now);
    var j := OnlyTrackIsHit(h, before, f, after, group, i, t);
    forall u | u in after.tracks && u.group == group
      ensures u == after.tracks[j]
    {
      var k :| 0 <= k < |after.tracks| && after.tracks[k] == u;
      OnlyTrackStays(h, before, f, after, group, i, t, j, k);
    }
    NewlyIs(h, before, f, after, group, t, j);
  }

  lemma NewlyIs(h: Length, before: Tracker, f: Frame, after: Tracker, group: string, t: Track, j: nat)
    requires FrameOf(h, before, f, after) && t.group == group
    requires j < |Live(before.tracks, f.now)| && Live(before.tracks, f.now)[j] == t && after.tracks[j].group == group
    requires forall u :: u in after.tracks && u.group == group ==> u == after.tracks[j]
    requires DistinctIds(after.tracks)
    ensures forall u :: u in f.newly && u.group == group <==> u == after.tracks[j] && u.confirmed && !t.confirmed
  {
    hide Stable, TrackFollows, IsNewTrackOf, NamesTrack, TookLive, Live;
    var live := Live(before.tracks, f.now);
    forall u
      ensures u in f.newly && u.group == group <==> u == after.tracks[j] && u.confirmed && !t.confirmed
    {
      assert u in f.newly <==> ConfirmedNow(live, after.tracks, u);
    }
  }

  lemma OnlyTrackIsHit(h: Length, before: Tracker, f: Frame, after: Tracker, group: string, i: nat, t: Track) returns (j: nat)
    requires IsHypot(h)
    requires FrameOf(h, before, f, after) && Valid(before) && IsOnly(f.objs, group, i)
    requires IsOnlyTrack(before.tracks, t) && t.group == group && t.spot.Some? && f.now - t.last <= 3.0
    requires Dist(h, f.objs[i].ground.value, t.spot.value) <= 3.0
    ensures j < |Live(before.tracks, f.now)| && Live(before.tracks, f.now)[j] == t && j < |after.tracks|
    ensures after.tracks[j] == Hit(t, f.objs[i], f.now) && Matched(Live(before.tracks, f.now), f.marks, i, j)
    ensures DistinctIds(after.tracks)
  {
    hide Hit, Stable, IsHypot, Dist;
    var live := Live(before.tracks, f.now);
    LiveKeepsDistinct(before.tracks, f.now);
    assert t in live;
    j :| 0 <= j < |live| && live[j] == t;
    OnlyPairMatches(h, before, f, after, group, i, t, j);
    assert TrackFollows(live, f.objs, f.marks, f.now, j, after.tracks[j]);
  }

  /** Any track of the group after the frame is the one that was hit. */
  lemma OnlyTrackStays(h: Length, before: Tracker, f: Frame, after: Tracker, group: string, i: nat, t: Track, j: nat, k: nat)
    requires FrameOf(h, before, f, after) && Valid(before) && IsOnly(f.objs, group, i)
    requires IsOnlyTrack(before.tracks, t) && t.group == group
    requires j < |Live(before.tracks, f.now)| && Live(before.tracks, f.now)[j] == t
    requires Matched(Live(before.tracks, f.now), f.marks, i, j)
    requires k < |after.tracks| && after.tracks[k].group == group
    ensures k == j
  {
    hide FrameResult, Live, IsOnly;
    var live := Live(before.tracks, f.now);
    OldTracksKeepGroup(h, before, f, after);
    LiveKeepsDistinct(before.tracks, f.now);
    NewTrackOfGroup(h, before, f, after, group, i, k);
    if k < |live| {
      LiveIsPart(before.tracks, f.now);
      assert live[k] in live;
    }
  }

  /** Nothing can come between the group's only object and its only track. */
  lemma OnlyPairMatches(h: Length, before: Tracker, f: Frame, after: Tracker, group: string, i: nat, t: Track, j: nat)
    requires IsHypot(h)
    requires FrameOf(h, before, f, after) && IsOnly(f.objs, group, i)
    requires IsOnlyTrack(before.tracks, t) && t.group == group && t.spot.Some?
    requires j < |Live(before.tracks, f.now)| && Live(before.tracks, f.now)[j] == t
    requires Dist(h, f.objs[i].ground.value, t.spot.value) <= 3.0
    requires DistinctIds(Live(before.tracks, f.now))
    ensures Matched(Live(before.tracks, f.now), f.marks, i, j)
  {
    hide Hit, NewTrack, IsNewTrackOf, TrackFollows, NamesTrack;
    var live, o := Live(before.tracks, f.now), f.objs[i];
    if f.origin.Some? {
      DistSquared(h, o.ground.value, f.origin.value);
    }
    var p := Pair(Dist(h, o.ground.value, t.spot.value), i, j);
    assert IsGated(h, live, f.objs, f.origin, p) && GaveWay(h, live, f.objs, f.origin, f.marks, p);
    var q :| IsGated(h, live, f.objs, f.origin, q) && Matched(live, f.marks, q.o, q.t) && (q.o == p.o || q.t == p.t);
    assert live[q.t] in live;
  }

  /** A spot within 3 m of two points is within 3 m of the track between them. */
  lemma NearBothNearTrack(h: Length, p: Point, a: Point, b: Point)
    requires IsHypot(h) && Dist(h, p, a) <= 3.0 && Dist(h, p, b) <= 3.0
    ensures Dist(h, p, Along(a, b, 0.3)) <= 3.0
  {
    var q := Along(a, b, 0.3);
    DistSquared(h, p, a);
    DistSquared(h, p, b);
    DistSquared(h, p, q);
    ScaledPair(p.n - a.n, p.e - a.e, 0.7, Dist(h, p, a));
    ScaledPair(p.n - b.n, p.e - b.e, 0.3, Dist(h, p, b));
    hide Sq;
    TriangleBySquares((p.n - a.n) * 0.7, (p.e - a.e) * 0.7, (p.n - b.n) * 0.3, (p.e - b.e) * 0.3,
                      0.7 * Dist(h, p, a), 0.3 * Dist(h, p, b), p.n - q.n, p.e - q.e, Dist(h, p, q));
  }

  lemma ScaledPair(n: real, e: real, f: real, r: real)
    requires Sq(r) == Norm2(n, e)
    ensures Sq(f * r) == Norm2(n * f, e * f)
  {
    ScaledSquare(n, f, n * f);
    ScaledSquare(e, f, e * f);
    Distribute(Sq(f), Sq(n), Sq(e));
    ProductOfSquares(f, r);
    hide Sq;
  }

  /** Three frames, each with one object of the group and no gap over 3 s, its spots within 3 m of each other and 4 s in all. */
  ghost predicate SeenThrice(h: Length, s: seq<Tracker>, f: seq<Frame>, i: seq<nat>, group: string) {
    && |s| == 4 && |f| == |i| == 3
    && (forall k :: 0 <= k < 3 ==> FrameOf(h, s[k], f[k], s[k + 1]) && IsOnly(f[k].objs, group, i[k]))
    && f[0].now <= f[1].now <= f[0].now + 3.0 && f[1].now <= f[2].now <= f[1].now + 3.0 && f[2].now <= f[0].now + 4.0
    && (forall k, m :: 0 <= k < m < 3 ==> Dist(h, f[m].objs[i[m]].ground.value, f[k].objs[i[k]].ground.value) <= 3.0)
  }

  /** An object that is new and alone of its group is confirmed in the third of such frames, and not before. */
  lemma SeenThriceIsConfirmed(h: Length, s: seq<Tracker>, f: seq<Frame>, i: seq<nat>, group: string) returns (t: Track)
    requires IsHypot(h)
    requires SeenThrice(h, s, f, i, group) && Valid(s[0])
    requires forall u :: u in Live(s[0].tracks, f[0].now) ==> u.group != group
    ensures t in f[2].newly && t.group == group && t.confirmed && t.hits == [f[0].now, f[1].now, f[2].now] && t.spot.Some?
    ensures forall u :: u in f[0].newly || u in f[1].newly ==> u.group != group
  {
    hide Dist, FrameResult, Live, IsHypot, Along;
    var o0, o1, o2 := f[0].objs[i[0]], f[1].objs[i[1]], f[2].objs[i[2]];
    ValidAfter(h, s[0], f[0], s[1]);
    ValidAfter(h, s[1], f[1], s[2]);
    var t0 := FirstSight(h, s[0], f[0], s[1], group, i[0]);
    NextSight(h, s[1], f[1], s[2], group, i[1], t0);
    var t1 := Hit(t0, o1, f[1].now);
    TwoHits(t0, o0, o1, f[0].now, f[1].now);
    HitMovesCloser(t0, o1, f[1].now);
    NearBothNearTrack(h, o2.ground.value, o0.ground.value, o1.ground.value);
    NextSight(h, s[2], f[2], s[3], group, i[2], t1);
    t := Hit(t1, o2, f[2].now);
    ThirdHit(t1, o2, f[0].now, f[1].now, f[2].now);
  }

  lemma ValidAfter(h: Length, before: Tracker, f: Frame, after: Tracker)
    requires FrameOf(h, before, f, after)
    ensures Valid(after)
  {
  }

  lemma TwoHits(t: Track, o: Detection, o': Detection, first: real, second: real)
    requires t == NewTrack(t.id, o, first) && second - first <= CONFIRM_WINDOW
    ensures Hit(t, o', second).hits == [first, second] && !Hit(t, o', second).confirmed
  {
    assert [first][..0] == [];
    assert Recent([first], second) == [first];
  }

  lemma ThirdHit(t: Track, o: Detection, first: real, second: real, third: real)
    requires t.hits == [first, second] && first <= second <= third <= first + CONFIRM_WINDOW
    ensures Hit(t, o, third).hits == [first, second, third] && Hit(t, o, third).confirmed
    ensures t.spot.Some? ==> Hit(t, o, third).spot.Some?
  {
    assert [first, second][..1] == [first] && [first][..0] == [];
    assert Recent([first], third) == [first];
  }
}
