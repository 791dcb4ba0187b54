/** Keeping track of the followed person (`Target` in `plugins/follow/service.py`). */
module Follow {
  import opened Planar

  /** A person of this frame; `confirmed` is true where the frame does not say. */
  datatype Person = Person(at: Point, confirmed: bool)

  /** Where someone else stood, and when they were last seen there. */
  datatype Bystander = Bystander(at: Point, last: real)

  datatype Walker = Walker(at: Point, v: Point, t: real, seen: real, bystanders: seq<Bystander>)

  const MAX_SPEED := 3.0
  const MEMORY := 120.0

  function Ahead(w: Walker, t: real): (r: real)
    ensures 0.0 <= r <= 3.0
  {
    var dt := if t - w.t > 0.0 then t - w.t else 0.0;
    if dt < 3.0 then dt else 3.0
  }

  /** Where they should be by now. */
  function Predict(w: Walker, t: real): Point {
    Point(w.at.n + w.v.n * Ahead(w, t), w.at.e + w.v.e * Ahead(w, t))
  }

  function Remembered(bs: seq<Bystander>, t: real): (r: seq<Bystander>)
    ensures forall b :: b in r <==> b in bs && t - b.last < MEMORY
  {
    if bs == [] then []
    else Remembered(bs[..|bs| - 1], t) + (if t - bs[|bs| - 1].last < MEMORY then [bs[|bs| - 1]] else [])
  }

  predicate NearBystander(h: Length, bs: seq<Bystander>, p: Point) {
    exists i :: 0 <= i < |bs| && Dist(h, p, bs[i].at) < 3.0
  }

  /** As far as walking allows since the last fix. */
  function Reach(w: Walker, t: real): real {
    3.0 + 2.0 * (t - w.seen)
  }

  function Gate(w: Walker, t: real, confirmed: bool): real {
    var gate := 4.0 + 1.5 * (t - w.seen);
    if !confirmed then 3.0 else if gate < Reach(w, t) then gate else Reach(w, t)
  }

  /** May this person be the one followed? */
  predicate Acceptable(h: Length, w: Walker, t: real, p: Person) {
    var bs := Remembered(w.bystanders, t);
    && (NearBystander(h, bs, p.at) ==> NearBystander(h, bs, w.at))
    && Dist(h, p.at, Predict(w, t)) <= Gate(w, t, p.confirmed) && Dist(h, p.at, w.at) <= Reach(w, t)
  }

  /** The first of the acceptable people nearest to the prediction. */
  predicate Chosen(h: Length, w: Walker, people: seq<Person>, t: real, i: nat) {
    && i < |people| && Acceptable(h, w, t, people[i])
    && forall j :: 0 <= j < |people| && Acceptable(h, w, t, people[j]) ==>
         var d, d' := Dist(h, people[i].at, Predict(w, t)), Dist(h, people[j].at, Predict(w, t));
         d <= d' && (j < i ==> d < d')
  }

  function FirstNear(h: Length, bs: seq<Bystander>, p: Point): (r: nat)
    ensures r <= |bs|
    ensures r < |bs| ==> Dist(h, p, bs[r].at) < 3.0
    ensures r == |bs| ==> !NearBystander(h, bs, p)
  {
    if bs == [] then 0 else if Dist(h, p, bs[0].at) < 3.0 then 0 else FirstNear(h, bs[1..], p) + 1
  }

  /** One more person seen aside. */
  function Noted(h: Length, bs: seq<Bystander>, p: Point, t: real): seq<Bystander> {
    var i := FirstNear(h, bs, p);
    if i < |bs| then bs[i := Bystander(bs[i].at, t)] else bs + [Bystander(p, t)]
  }

  predicate Aside(h: Length, people: seq<Person>, best: nat, k: nat)
    requires best < |people| && k < |people|
  {
    k != best && people[k].confirmed && Dist(h, people[k].at, people[best].at) > 4.0
  }

  /** The bystanders after the first `k` people. */
  function NotedAll(h: Length, bs: seq<Bystander>, people: seq<Person>, best: nat, t: real, k: nat): seq<Bystander>
    requires best < |people| && k <= |people|
  {
    if k == 0 then bs
    else
      var before := NotedAll(h, bs, people, best, t, k - 1);
      if Aside(h, people, best, k - 1) then Noted(h, before, people[k - 1].at, t) else before
  }

  /** Halfway between the prediction and the fix. */
  function Between(w: Walker, p: Point, t: real): Point {
    var predicted := Predict(w, t);
    Point(predicted.n + 0.5 * (p.n - predicted.n), predicted.e + 0.5 * (p.e - predicted.e))
  }

  function Blend(v: real, moved: real): real {
    v + 0.3 * (moved - v)
  }

  /** The velocity after a move to `at`; what looks faster than walking is noise. */
  function Velocity(h: Length, w: Walker, at: Point, t: real): Point {
    var dt := t - w.t;
    if dt <= 0.2 then w.v
    else
      var vn, ve := (at.n - w.at.n) / dt, (at.e - w.at.e) / dt;
      if h(vn, ve) < MAX_SPEED then Point(Blend(w.v.n, vn), Blend(w.v.e, ve)) else w.v
  }

  function Fixed(h: Length, w: Walker, people: seq<Person>, best: nat, t: real): Walker
    requires best < |people|
  {
    var at := Between(w, people[best].at, t);
    Walker(at, Velocity(h, w, at, t), t, t, NotedAll(h, Remembered(w.bystanders, t), people, best, t, |people|))
  }

  /** One frame: the first nearest acceptable person is them, or there is none. */
  ghost predicate Frame(h: Length, w: Walker, people: seq<Person>, t: real, found: bool, w': Walker) {
    if found then exists i: nat :: Chosen(h, w, people, t, i) && w' == Fixed(h, w, people, i, t)
    else (forall j :: 0 <= j < |people| ==> !Acceptable(h, w, t, people[j])) && w' == w.(bystanders := Remembered(w.bystanders, t))
  }

  class Target {
    var at: Point
    var v: Point
    var t: real
    var seen: real
    var bystanders: seq<Bystander>

    function Now(): Walker
      reads this
    {
      Walker(at, v, t, seen, bystanders)
    }

    constructor (at: Point, t: real)
      ensures Now() == Walker(at, Point(0.0, 0.0), t, t, [])
    {
      this.at, this.v, this.t, this.seen, this.bystanders := at, Point(0.0, 0.0), t, t, [];
    }

    method NoteBystanders(h: Length, people: seq<Person>, best: nat, now: real)
      requires best < |people|
      modifies this`bystanders
      ensures bystanders == NotedAll(h, old(bystanders), people, best, now, |people|)
    {
      for k := 0 to |people|
        invariant bystanders == NotedAll(h, old(bystanders), people, best, now, k)
      {
        var p := people[k];
        if k != best && p.confirmed && Dist(h, p.at, people[best].at) > 4.0 {
          var hit := FirstNear(h, bystanders, p.at);
          if hit < |bystanders| {
            bystanders := bystanders[hit := Bystander(bystanders[hit].at, now)];
          } else {
            bystanders := bystanders + [Bystander(p.at, now)];
          }
        }
      }
    }

    /** The first of the acceptable people nearest to the prediction. */
    method Pick(h: Length, people: seq<Person>, now: real) returns (best: Option<nat>)
      ensures best.None? ==> forall j :: 0 <= j < |people| ==> !Acceptable(h, Now(), now, people[j])
      ensures best.Some? ==> Chosen(h, Now(), people, now, best.value)
    {
      hide Acceptable;
      var predicted := Predict(Now(), now);
      best := None;
      for k := 0 to |people|
        invariant best.None? ==> forall j :: 0 <= j < k ==> !Acceptable(h, Now(), now, people[j])
        invariant best.Some? ==> best.value < k && Chosen(h, Now(), people[..k], now, best.value)
      {
        assert people[..k + 1][..k] == people[..k] && people[..k + 1][k] == people[k];
        var d := Dist(h, people[k].at, predicted);
        if Acceptable(h, Now(), now, people[k]) && (best.None? || d < Dist(h, people[best.value].at, predicted)) {
          best := Some(k);
        }
      }
      assert people[..|people|] == people;
    }

    /** One frame's people; true if one of them is the followed person. */
    method Update(h: Length, people: seq<Person>, now: real) returns (found: bool)
      modifies this
      ensures Frame(h, old(Now()), people, now, found, Now())
    {
      hide Acceptable, Remembered, Predict;
      ghost var w := Now();
      var predicted := Predict(Now(), now);
      var best := Pick(h, people, now);
      bystanders := Remembered(bystanders, now);
      if best.None? {
        return false;
      }
      NoteBystanders(h, people, best.value, now);
      var dt := now - t;
      var fix := people[best.value].at;
      var n := predicted.n + 0.5 * (fix.n - predicted.n);
      var e := predicted.e + 0.5 * (fix.e - predicted.e);
      if dt > 0.2 {
        var vn, ve := (n - at.n) / dt, (e - at.e) / dt;
        if h(vn, ve) < MAX_SPEED {
          v := Point(Blend(v.n, vn), Blend(v.e, ve));
        }
      }
      at, t, seen := Point(n, e), now, now;
      assert Now() == Fixed(h, w, people, best.value, now);
      return true;
    }
  }

  // ---- Runs ----

  datatype Seen = Seen(people: seq<Person>, now: real, found: bool)

  /** A run: the walker before each frame and after the last. */
  ghost predicate IsRun(h: Length, frames: seq<Seen>, run: seq<Walker>) {
    && |run| == |frames| + 1 && run[0].v == Point(0.0, 0.0)
    && forall k :: 0 <= k < |frames| ==> Frame(h, run[k], frames[k].people, frames[k].now, frames[k].found, run[k + 1])
  }

  /** A blend of two numbers has the blended square less a square. */
  lemma BlendSquare(v: real, x: real)
    ensures Sq(Blend(v, x)) <= 0.7 * Sq(v) + 0.3 * Sq(x)
  {
    assert Sq(v - x) >= 0.0;
    assert Sq(v - x) == v * v - 2.0 * (v * x) + x * x;
    assert Sq(Blend(v, x)) == 0.49 * (v * v) + 0.42 * (v * x) + 0.09 * (x * x);
  }

  lemma VelocityStaysSlow(h: Length, w: Walker, at: Point, t: real)
    requires IsHypot(h) && Norm2(w.v.n, w.v.e) < 9.0
    ensures (var v := Velocity(h, w, at, t); Norm2(v.n, v.e) < 9.0)
  {
    hide Blend, Norm2;
    var dt := t - w.t;
    if dt > 0.2 {
      var vn, ve := (at.n - w.at.n) / dt, (at.e - w.at.e) / dt;
      if h(vn, ve) < MAX_SPEED {
        assert Sq(h(vn, ve)) == Norm2(vn, ve);
        SquareOrder(h(vn, ve), 3.0);
        BlendStaysSlow(w.v.n, w.v.e, vn, ve);
      }
    }
  }

  lemma BlendStaysSlow(vn: real, ve: real, xn: real, xe: real)
    requires Norm2(vn, ve) < 9.0 && Norm2(xn, xe) < Sq(3.0)
    ensures Norm2(Blend(vn, xn), Blend(ve, xe)) < 9.0
  {
    BlendSquare(vn, xn);
    BlendSquare(ve, xe);
    hide Blend;
    assert Sq(3.0) == 9.0;
  }

  /** The estimated speed stays below 3 m/s, whatever is seen and when. */
  lemma {:induction false} SpeedStaysBelowWalking(h: Length, frames: seq<Seen>, run: seq<Walker>, k: nat)
    requires IsHypot(h) && IsRun(h, frames, run) && k < |run|
    ensures Norm2(run[k].v.n, run[k].v.e) < 9.0
  {
    hide Norm2, Velocity, Acceptable, Between, NotedAll;
    if k == 0 {
      assert Norm2(0.0, 0.0) == 0.0;
    } else {
      SpeedStaysBelowWalking(h, frames, run, k - 1);
      var w, f := run[k - 1], frames[k - 1];
      assert Frame(h, run[k - 1], f.people, f.now, f.found, run[k - 1 + 1]);
      if f.found {
        var i: nat :| Chosen(h, w, f.people, f.now, i) && run[k] == Fixed(h, w, f.people, i, f.now);
        VelocityStaysSlow(h, w, Between(w, f.people[i].at, f.now), f.now);
      }
    }
  }

  /** So a prediction, for any time, is less than 9 m from the last fix. */
  lemma PredictionStaysNear(h: Length, frames: seq<Seen>, run: seq<Walker>, k: nat, t: real)
    requires IsHypot(h) && IsRun(h, frames, run) && k < |run|
    ensures Dist2(Predict(run[k], t), run[k].at) < 81.0
  {
    var w, dt := run[k], Ahead(run[k], t);
    SpeedStaysBelowWalking(h, frames, run, k);
    hide IsRun;
    ScaledSquare(w.v.n, dt, w.v.n * dt);
    ScaledSquare(w.v.e, dt, w.v.e * dt);
    SmallSquare(dt, 3.0);
    ScaledDown(Sq(dt), Sq(w.v.n) + Sq(w.v.e));
    Distribute(Sq(dt), Sq(w.v.n), Sq(w.v.e));
  }

  lemma ScaledDown(x: real, y: real)
    requires 0.0 <= x <= 9.0 && 0.0 <= y < 9.0
    ensures Product(x, y) < 81.0
  {
    NonNegativeProduct(9.0 - x, y);
  }

  // ---- Bystanders ----

  /** Someone near `q` is remembered, seen at `since` or later. */
  predicate Known(h: Length, bs: seq<Bystander>, q: Point, since: real) {
    exists b :: b in bs && Dist(h, q, b.at) < 3.0 && b.last >= since
  }

  lemma NotedKeepsKnown(h: Length, bs: seq<Bystander>, p: Point, t: real, q: Point, since: real)
    requires since <= t && Known(h, bs, q, since)
    ensures Known(h, Noted(h, bs, p, t), q, since)
  {
    var b :| b in bs && Dist(h, q, b.at) < 3.0 && b.last >= since;
    var i, next := FirstNear(h, bs, p), Noted(h, bs, p, t);
    var k :| 0 <= k < |bs| && bs[k] == b;
    assert next[k].at == b.at && next[k].last >= since && next[k] in next;
  }

  lemma NotedIsKnown(h: Length, bs: seq<Bystander>, p: Point, t: real)
    requires IsHypot(h)
    ensures Known(h, Noted(h, bs, p, t), p, t)
  {
    var i, next := FirstNear(h, bs, p), Noted(h, bs, p, t);
    assert next[i] in next;
    HypotZero(h, 0.0, 0.0);
  }

  lemma {:induction false} NotedAllKeepsKnown(h: Length, bs: seq<Bystander>, people: seq<Person>, best: nat, t: real, k: nat,
                                              q: Point, since: real)
    requires best < |people| && k <= |people| && since <= t && Known(h, bs, q, since)
    ensures Known(h, NotedAll(h, bs, people, best, t, k), q, since)
  {
    hide Known, Noted;
    if k > 0 {
      NotedAllKeepsKnown(h, bs, people, best, t, k - 1, q, since);
      NotedKeepsKnown(h, NotedAll(h, bs, people, best, t, k - 1), people[k - 1].at, t, q, since);
    }
  }

  lemma {:induction false} AsideIsKnown(h: Length, bs: seq<Bystander>, people: seq<Person>, best: nat, t: real, k: nat, j: nat)
    requires IsHypot(h) && best < |people| && j < k <= |people| && Aside(h, people, best, j)
    ensures Known(h, NotedAll(h, bs, people, best, t, k), people[j].at, t)
  {
    hide Known, Noted;
    var before := NotedAll(h, bs, people, best, t, k - 1);
    if j == k - 1 {
      NotedIsKnown(h, before, people[j].at, t);
    } else {
      AsideIsKnown(h, bs, people, best, t, k - 1, j);
      NotedKeepsKnown(h, before, people[k - 1].at, t, people[j].at, t);
    }
  }

  /** A frame keeps whoever is known, for two minutes. */
  lemma FrameKeepsKnown(h: Length, w: Walker, people: seq<Person>, t: real, found: bool, w': Walker, q: Point, since: real)
    requires Frame(h, w, people, t, found, w') && Known(h, w.bystanders, q, since) && since <= t && t - since < MEMORY
    ensures Known(h, Remembered(w.bystanders, t), q, since) && Known(h, w'.bystanders, q, since)
  {
    hide Acceptable, NotedAll;
    var b :| b in w.bystanders && Dist(h, q, b.at) < 3.0 && b.last >= since;
    assert b in Remembered(w.bystanders, t);
    if found {
      var i: nat :| Chosen(h, w, people, t, i) && w' == Fixed(h, w, people, i, t);
      NotedAllKeepsKnown(h, Remembered(w.bystanders, t), people, i, t, |people|, q, since);
    }
  }

  /** The bystander was known at this place, or is one of the people aside. */
  ghost predicate ComesFrom(h: Length, bs: seq<Bystander>, people: seq<Person>, best: nat, t: real, b: Bystander)
    requires best < |people|
  {
    || b in bs
    || (exists x :: x in bs && b == Bystander(x.at, t))
    || (exists j :: 0 <= j < |people| && Aside(h, people, best, j) && b == Bystander(people[j].at, t))
  }

  lemma {:induction false} OnlyAsideAreNoted(h: Length, bs: seq<Bystander>, people: seq<Person>, best: nat, t: real, k: nat, b: Bystander)
    requires best < |people| && k <= |people| && b in NotedAll(h, bs, people, best, t, k)
    ensures ComesFrom(h, bs, people, best, t, b)
  {
    hide Aside, Dist;
    if k > 0 {
      var before := NotedAll(h, bs, people, best, t, k - 1);
      if b in before {
        OnlyAsideAreNoted(h, bs, people, best, t, k - 1, b);
      } else {
        var i := FirstNear(h, before, people[k - 1].at);
        if i < |before| {
          assert before[i] in before;
          OnlyAsideAreNoted(h, bs, people, best, t, k - 1, before[i]);
        }
      }
    }
  }

  /** A frame makes nobody a bystander but those confirmed over 4 m from the person it took, and keeps the others' places. */
  lemma BystandersWereAside(h: Length, w: Walker, people: seq<Person>, t: real, found: bool, w': Walker, b: Bystander)
    requires Frame(h, w, people, t, found, w') && b in w'.bystanders
    ensures found ==> exists i: nat :: Chosen(h, w, people, t, i) && ComesFrom(h, w.bystanders, people, i, t, b)
    ensures !found ==> b in w.bystanders && t - b.last < 120.0
  {
    hide Acceptable, NotedAll, Aside;
    if found {
      var i: nat :| Chosen(h, w, people, t, i) && w' == Fixed(h, w, people, i, t);
      OnlyAsideAreNoted(h, Remembered(w.bystanders, t), people, i, t, |people|, b);
      assert ComesFrom(h, w.bystanders, people, i, t, b);
    }
  }

  /** Frames in time order, all of them less than two minutes after frame `i`. */
  predicate Soon(frames: seq<Seen>, i: nat, j: nat) {
    i < |frames| && forall k :: i <= k <= j && k < |frames| ==> frames[i].now <= frames[k].now < frames[i].now + MEMORY
  }

  lemma {:induction false} StaysKnown(h: Length, frames: seq<Seen>, run: seq<Walker>, i: nat, j: nat, q: Point)
    requires IsRun(h, frames, run) && i < j <= |frames| && Soon(frames, i, j)
    requires Known(h, run[i + 1].bystanders, q, frames[i].now)
    ensures Known(h, run[j].bystanders, q, frames[i].now)
  {
    hide Known, Frame;
    if j > i + 1 {
      StaysKnown(h, frames, run, i, j - 1, q);
      var f := frames[j - 1];
      assert Frame(h, run[j - 1], f.people, f.now, f.found, run[j - 1 + 1]);
      FrameKeepsKnown(h, run[j - 1], f.people, f.now, f.found, run[j], q, frames[i].now);
    }
  }

  /** Whoever was confirmed over 4 m from the followed person is not taken for them at the same spot in the next two
      minutes, unless the followed person's own place is one where a bystander stood. */
  lemma BystanderIsNotTaken(h: Length, frames: seq<Seen>, run: seq<Walker>, i: nat, best: nat, other: nat, j: nat, p: Person)
    requires IsHypot(h) && IsRun(h, frames, run) && i < j < |frames| && Soon(frames, i, j)
    requires best < |frames[i].people| && other < |frames[i].people| && Aside(h, frames[i].people, best, other)
    requires run[i + 1] == Fixed(h, run[i], frames[i].people, best, frames[i].now)
    requires p.at == frames[i].people[other].at
    requires !NearBystander(h, Remembered(run[j].bystanders, frames[j].now), run[j].at)
    ensures !Acceptable(h, run[j], frames[j].now, p)
  {
    hide Chosen, NotedAll, Frame, Gate, Reach, Predict, Between, Velocity;
    var people, t, t' := frames[i].people, frames[i].now, frames[j].now;
    AsideIsKnown(h, Remembered(run[i].bystanders, t), people, best, t, |people|, other);
    StaysKnown(h, frames, run, i, j, p.at);
    var bs := Remembered(run[j].bystanders, t');
    var b :| b in run[j].bystanders && Dist(h, p.at, b.at) < 3.0 && b.last >= t;
    assert t' < t + MEMORY;
    assert b in bs;
    var k :| 0 <= k < |bs| && bs[k] == b;
    assert NearBystander(h, bs, p.at);
  }

  // ---- Who is taken, and how fast the estimate gets there ----

  /** A bystander of the last two minutes stood within 3 m of there. */
  ghost predicate WasAside(h: Length, w: Walker, t: real, p: Point) {
    exists b :: b in w.bystanders && t - b.last < 120.0 && Dist(h, p, b.at) < 3.0
  }

  /** The person is near enough to where the followed one should be, and no further from their last fix than walking allows;
    and no bystander stood there, unless one stood near the followed person too. */
  ghost predicate MayBe(h: Length, w: Walker, t: real, p: Person) {
    var lost := t - w.seen;
    && (WasAside(h, w, t, p.at) ==> WasAside(h, w, t, w.at))
    && Dist(h, p.at, w.at) <= 3.0 + 2.0 * lost
    && (if p.confirmed then Dist(h, p.at, Predict(w, t)) <= 4.0 + 1.5 * lost && Dist(h, p.at, Predict(w, t)) <= 3.0 + 2.0 * lost
        else Dist(h, p.at, Predict(w, t)) <= 3.0)
  }

  lemma NearIsAside(h: Length, w: Walker, t: real, p: Point)
    ensures NearBystander(h, Remembered(w.bystanders, t), p) <==> WasAside(h, w, t, p)
  {
    var bs := Remembered(w.bystanders, t);
    if WasAside(h, w, t, p) {
      var b :| b in w.bystanders && t - b.last < 120.0 && Dist(h, p, b.at) < 3.0;
      assert b in bs;
      var i :| 0 <= i < |bs| && bs[i] == b;
    }
    if i :| 0 <= i < |bs| && Dist(h, p, bs[i].at) < 3.0 {
      assert bs[i] in bs;
    }
  }

  lemma AcceptableExactly(h: Length, w: Walker, t: real, p: Person)
    ensures Acceptable(h, w, t, p) <==> MayBe(h, w, t, p)
  {
    hide NearBystander, WasAside, Remembered, Predict, Dist;
    NearIsAside(h, w, t, p.at);
    NearIsAside(h, w, t, w.at);
  }

  /** A frame finds the followed person exactly if someone in it may be them, and then takes the first nearest of those to the
    prediction. */
  lemma FoundExactly(h: Length, w: Walker, people: seq<Person>, t: real, found: bool, w': Walker)
    requires Frame(h, w, people, t, found, w')
    ensures found <==> exists j :: 0 <= j < |people| && MayBe(h, w, t, people[j])
    ensures found ==> exists i: nat :: TakesNearest(h, w, people, t, i) && w' == Fixed(h, w, people, i, t)
  {
    hide MayBe, Acceptable, Fixed, Predict;
    forall j | 0 <= j < |people|
      ensures Acceptable(h, w, t, people[j]) <==> MayBe(h, w, t, people[j])
    {
      AcceptableExactly(h, w, t, people[j]);
    }
    if found {
      var i: nat :| Chosen(h, w, people, t, i) && w' == Fixed(h, w, people, i, t);
      assert TakesNearest(h, w, people, t, i);
    }
  }

  ghost predicate TakesNearest(h: Length, w: Walker, people: seq<Person>, t: real, i: nat) {
    && i < |people| && MayBe(h, w, t, people[i])
    && forall j :: 0 <= j < |people| && MayBe(h, w, t, people[j]) ==>
         Dist(h, people[i].at, Predict(w, t)) <= Dist(h, people[j].at, Predict(w, t))
  }

  /** How far off the estimate is along one axis: by `e` in place and by `m` in what it expects to move until the next frame. */
  function Energy(e: real, m: real): real {
    0.15 * Sq(e) - 0.35 * (e * m) + 0.5 * Sq(m)
  }

  function Off(w: Walker, q: Point, dt: real): real {
    Energy(w.at.n - q.n, w.v.n * dt) + Energy(w.at.e - q.e, w.v.e * dt)
  }

  lemma EnergyHalves(e: real, m: real)
    ensures 2.0 * Energy(0.5 * (e + m), 0.85 * m - 0.15 * e) == Energy(e, m)
  {
    var x := e * m;
    assert Sq(0.5 * (e + m)) == 0.25 * Sq(e) + 0.5 * x + 0.25 * Sq(m);
    assert Sq(0.85 * m - 0.15 * e) == 0.7225 * Sq(m) - 0.255 * x + 0.0225 * Sq(e);
    assert (0.5 * (e + m)) * (0.85 * m - 0.15 * e) == 0.35 * x + 0.425 * Sq(m) - 0.075 * Sq(e);
  }

  /** The energy bounds the error in place, the prediction's and the move. */
  lemma EnergyBounds(e: real, m: real)
    ensures Sq(e) <= 12.0 * Energy(e, m) && Sq(e + m) <= 24.0 * Energy(e, m) && Sq(0.5 * (m - e)) <= 2.0 * Energy(e, m)
  {
    var x := e * m;
    assert Sq(e - 2.0 * m) == Sq(e) - 4.0 * x + 4.0 * Sq(m);
    assert Sq(e - 2.625 * m) == Sq(e) - 5.25 * x + 6.890625 * Sq(m);
    assert Sq(e + m) == Sq(e) + 2.0 * x + Sq(m);
    assert Sq(0.5 * (m - e)) == 0.25 * (Sq(e) - 2.0 * x + Sq(m));
  }

  /** One axis over one frame that finds the person at `q`. */
  lemma AxisHalves(a: real, v: real, dt: real, q: real, a': real, v': real, e: real, m: real, e': real, m': real)
    requires dt > 0.0 && a' == a + m + 0.5 * (q - (a + m)) && v' == Blend(v, (a' - a) / dt)
    requires e == a - q && m == v * dt && e' == a' - q && m' == v' * dt
    ensures 2.0 * Energy(e', m') == Energy(e, m)
  {
    var moved := (a' - a) / dt;
    assert moved * dt == a' - a;
    assert v' * dt == v * dt + 0.3 * (moved * dt - v * dt);
    EnergyHalves(e, m);
    hide Energy, Blend;
    assert m' == 0.85 * m - 0.15 * e && e' == 0.5 * (e + m);
  }

  lemma OffIs(w: Walker, q: Point, dt: real, en: real, ee: real, mn: real, me: real)
    requires en == w.at.n - q.n && ee == w.at.e - q.e && mn == w.v.n * dt && me == w.v.e * dt
    ensures Off(w, q, dt) == Energy(en, mn) + Energy(ee, me)
  {
  }

  /** Both axes together. */
  lemma OffBounds(w: Walker, q: Point, dt: real, en: real, ee: real, mn: real, me: real)
    requires en == w.at.n - q.n && ee == w.at.e - q.e && mn == w.v.n * dt && me == w.v.e * dt
    ensures Norm2(en, ee) <= 12.0 * Off(w, q, dt) && Norm2(en + mn, ee + me) <= 24.0 * Off(w, q, dt)
    ensures Norm2(0.5 * (mn - en), 0.5 * (me - ee)) <= 2.0 * Off(w, q, dt) && Off(w, q, dt) >= 0.0
  {
    hide Energy, Sq, Off;
    OffIs(w, q, dt, en, ee, mn, me);
    EnergyBounds(en, mn);
    EnergyBounds(ee, me);
  }

  /** A frame in which the followed person stands at `q` alone: they are found, and the estimate's energy halves. */
  lemma StillFrameHalves(h: Length, w: Walker, p: Person, t: real, found: bool, w': Walker, dt: real)
    requires IsHypot(h) && 0.2 < dt <= 3.0
    requires Frame(h, w, [p], t, found, w') && w.bystanders == [] && w.t == w.seen && t == w.t + dt && Off(w, p.at, dt) <= 0.15
    ensures found && w'.bystanders == [] && w'.t == w'.seen == t && 2.0 * Off(w', p.at, dt) == Off(w, p.at, dt)
  {
    hide Energy, IsHypot, Frame, Blend, Off;
    var en, ee, mn, me := w.at.n - p.at.n, w.at.e - p.at.e, w.v.n * dt, w.v.e * dt;
    var en', ee', mn', me' := w'.at.n - p.at.n, w'.at.e - p.at.e, w'.v.n * dt, w'.v.e * dt;
    OffIs(w, p.at, dt, en, ee, mn, me);
    OffIs(w', p.at, dt, en', ee', mn', me');
    StillFrameIs(h, w, p, t, found, w', dt, mn, me);
    AxisHalves(w.at.n, w.v.n, dt, p.at.n, w'.at.n, w'.v.n, en, mn, en', mn');
    AxisHalves(w.at.e, w.v.e, dt, p.at.e, w'.at.e, w'.v.e, ee, me, ee', me');
  }

  /** What such a frame makes of the estimate. */
  lemma StillFrameIs(h: Length, w: Walker, p: Person, t: real, found: bool, w': Walker, dt: real, mn: real, me: real)
    requires IsHypot(h) && 0.2 < dt <= 3.0 && mn == w.v.n * dt && me == w.v.e * dt
    requires Frame(h, w, [p], t, found, w') && w.bystanders == [] && w.t == w.seen && t == w.t + dt && Off(w, p.at, dt) <= 0.15
    ensures found && w'.bystanders == [] && w'.t == w'.seen == t
    ensures w'.at.n == w.at.n + mn + 0.5 * (p.at.n - (w.at.n + mn)) && w'.v.n == Blend(w.v.n, (w'.at.n - w.at.n) / dt)
    ensures w'.at.e == w.at.e + me + 0.5 * (p.at.e - (w.at.e + me)) && w'.v.e == Blend(w.v.e, (w'.at.e - w.at.e) / dt)
  {
    StillIsAcceptable(h, w, p, t, dt);
    SlowMove(h, w, p.at, t, dt);
    hide MayBe, Off, IsHypot, Blend, Acceptable, Velocity, Between;
    FoundExactly(h, w, [p], t, found, w');
    assert [p][0] == p;
    var i: nat :| Chosen(h, w, [p], t, i) && w' == Fixed(h, w, [p], i, t);
    AloneIsNoBystander(h, p, t);
    FixIs(h, w, p.at, t, dt, mn, me);
  }

  /** The fix of a move that is believed. */
  lemma FixIs(h: Length, w: Walker, q: Point, t: real, dt: real, mn: real, me: real)
    requires 0.2 < dt <= 3.0 && t == w.t + dt && mn == w.v.n * dt && me == w.v.e * dt
    requires var at := Between(w, q, t); h((at.n - w.at.n) / dt, (at.e - w.at.e) / dt) < 3.0
    ensures (var at, v := Between(w, q, t), Velocity(h, w, Between(w, q, t), t);
             && at.n == w.at.n + mn + 0.5 * (q.n - (w.at.n + mn)) && v.n == Blend(w.v.n, (at.n - w.at.n) / dt)
             && at.e == w.at.e + me + 0.5 * (q.e - (w.at.e + me)) && v.e == Blend(w.v.e, (at.e - w.at.e) / dt))
  {
    assert t - w.t == dt;
    hide Blend;
  }

  lemma AloneIsNoBystander(h: Length, p: Person, t: real)
    ensures NotedAll(h, Remembered([], t), [p], 0, t, 1) == []
  {
    assert NotedAll(h, [], [p], 0, t, 0) == [];
  }

  lemma StillIsAcceptable(h: Length, w: Walker, p: Person, t: real, dt: real)
    requires IsHypot(h) && 0.2 < dt <= 3.0
    requires w.bystanders == [] && w.t == w.seen && t == w.t + dt && Off(w, p.at, dt) <= 0.15
    ensures MayBe(h, w, t, p)
  {
    var en, ee, mn, me := w.at.n - p.at.n, w.at.e - p.at.e, w.v.n * dt, w.v.e * dt;
    hide Off, Norm2;
    OffBounds(w, p.at, dt, en, ee, mn, me);
    Within3(h, p.at, w.at, en, ee);
    Within3(h, p.at, Predict(w, t), en + mn, ee + me);
  }

  lemma Within3(h: Length, p: Point, q: Point, dn: real, de: real)
    requires IsHypot(h) && dn == q.n - p.n && de == q.e - p.e && Norm2(dn, de) <= 3.6
    ensures Dist(h, p, q) <= 3.0
  {
    DistSquared(h, p, q);
    OppositeSquare(dn);
    OppositeSquare(de);
    SquareOrder(Dist(h, p, q), 3.0);
    assert Sq(3.0) == 9.0;
  }

  /** The move is slow enough to be believed. */
  lemma SlowMove(h: Length, w: Walker, q: Point, t: real, dt: real)
    requires IsHypot(h) && 0.2 < dt <= 3.0 && t == w.t + dt && Off(w, q, dt) <= 0.15
    ensures (var at := Between(w, q, t);
             h((at.n - w.at.n) / dt, (at.e - w.at.e) / dt) < 3.0)
  {
    var at := Between(w, q, t);
    var en, ee, mn, me := w.at.n - q.n, w.at.e - q.e, w.v.n * dt, w.v.e * dt;
    assert at.n - w.at.n == 0.5 * (mn - en) && at.e - w.at.e == 0.5 * (me - ee);
    hide Off, Norm2, Between;
    OffBounds(w, q, dt, en, ee, mn, me);
    SlowerThan3(h, at.n - w.at.n, at.e - w.at.e, dt);
  }

  lemma SlowerThan3(h: Length, n: real, e: real, dt: real)
    requires IsHypot(h) && dt > 0.2 && Norm2(n, e) <= 0.3
    ensures h(n / dt, e / dt) < 3.0
  {
    var vn, ve := n / dt, e / dt;
    assert Sq(h(vn, ve)) == Norm2(vn, ve) && h(vn, ve) >= 0.0;
    hide IsHypot;
    ScaledSquare(vn, dt, n);
    ScaledSquare(ve, dt, e);
    Distribute(Sq(dt), Sq(vn), Sq(ve));
    AtMostNine(Sq(dt), Norm2(vn, ve));
    SquareOrder(h(vn, ve), 3.0);
  }

  lemma AtMostNine(y: real, x: real)
    requires Product(y, x) <= 0.3 && x >= 0.0 && y >= 0.04
    ensures x < Sq(3.0)
  {
    assert Product(y - 0.04, x) >= 0.0;
    assert Sq(3.0) == 9.0;
  }

  function Pow2(k: nat): (r: real)
    ensures r >= 1.0
  {
    if k == 0 then 1.0 else 2.0 * Pow2(k - 1)
  }

  /** The followed person, first seen within 1 m of where they are, stands still at `q`, alone in frames at even intervals. */
  ghost predicate StandsStill(h: Length, frames: seq<Seen>, run: seq<Walker>, q: Point, dt: real) {
    && IsRun(h, frames, run) && 0.2 < dt <= 3.0
    && run[0].bystanders == [] && run[0].t == run[0].seen && Dist2(run[0].at, q) <= 1.0
    && forall k :: 0 <= k < |frames| ==>
         |frames[k].people| == 1 && frames[k].people[0].at == q && frames[k].now == (if k == 0 then run[0].t else frames[k - 1].now) + dt
  }

  /** The estimate at time `t`, whose energy is this share of the total. */
  predicate ClosingIn(w: Walker, q: Point, dt: real, t: real, share: real, total: real) {
    && w.bystanders == [] && w.t == w.seen == t
    && share >= 1.0 && Product(share, Off(w, q, dt)) == total <= 0.15
  }

  lemma StillStep(h: Length, w: Walker, f: Seen, w': Walker, q: Point, dt: real, t: real, share: real, total: real)
    requires IsHypot(h) && 0.2 < dt <= 3.0 && ClosingIn(w, q, dt, t, share, total)
    requires Frame(h, w, f.people, f.now, f.found, w') && |f.people| == 1 && f.people[0].at == q && f.now == t + dt
    ensures f.found && ClosingIn(w', q, dt, f.now, 2.0 * share, total)
  {
    hide Frame, Off, Product, IsHypot;
    assert f.people == [f.people[0]];
    OffIsPositive(w, q, dt);
    SmallerPart(share, Off(w, q, dt), 0.15);
    StillFrameHalves(h, w, f.people[0], f.now, f.found, w', dt);
    HalfTwice(share, Off(w, q, dt), Off(w', q, dt));
  }

  lemma {:induction false} EnergyHalvesEachFrame(h: Length, frames: seq<Seen>, run: seq<Walker>, q: Point, dt: real, k: nat)
    requires IsHypot(h) && StandsStill(h, frames, run, q, dt) && k <= |frames|
    ensures ClosingIn(run[k], q, dt, if k == 0 then run[0].t else frames[k - 1].now, Pow2(k), Off(run[0], q, dt))
    ensures forall j :: 0 <= j < k ==> frames[j].found
  {
    hide Frame, Off, Product, IsHypot, Dist2;
    if k == 0 {
      StartsAtRest(h, frames, run);
      OffAtStart(run[0], q, dt);
    } else {
      hide ClosingIn;
      EnergyHalvesEachFrame(h, frames, run, q, dt, k - 1);
      var f := frames[k - 1];
      assert Frame(h, run[k - 1], f.people, f.now, f.found, run[k - 1 + 1]);
      StillStep(h, run[k - 1], f, run[k], q, dt, f.now - dt, Pow2(k - 1), Off(run[0], q, dt));
    }
  }

  lemma OffIsPositive(w: Walker, q: Point, dt: real)
    ensures Off(w, q, dt) >= 0.0 && Dist2(w.at, q) <= 12.0 * Off(w, q, dt)
  {
    OffBounds(w, q, dt, w.at.n - q.n, w.at.e - q.e, w.v.n * dt, w.v.e * dt);
    hide Off;
  }

  lemma OffAtStart(w: Walker, q: Point, dt: real)
    requires w.v == Point(0.0, 0.0) && Dist2(w.at, q) <= 1.0
    ensures Product(1.0, Off(w, q, dt)) == Off(w, q, dt) == 0.15 * Dist2(w.at, q) <= 0.15
  {
  }

  lemma SmallerPart(x: real, y: real, bound: real)
    requires x >= 1.0 && y >= 0.0 && Product(x, y) <= bound
    ensures y <= bound
  {
    assert Product(x - 1.0, y) >= 0.0;
  }

  lemma HalfTwice(x: real, y: real, y': real)
    requires 2.0 * y' == y
    ensures Product(2.0 * x, y') == Product(x, y)
  {
  }

  /** Then every frame finds them, and the estimate closes in on them: the square of its distance is halved from frame to
    frame, up to a constant 1.8. */
  lemma StillPersonIsFound(h: Length, frames: seq<Seen>, run: seq<Walker>, q: Point, dt: real, k: nat)
    requires IsHypot(h) && StandsStill(h, frames, run, q, dt) && k <= |frames|
    ensures Product(Pow2(k), Dist2(run[k].at, q)) <= 1.8 * Dist2(run[0].at, q)
    ensures forall j :: 0 <= j < k ==> frames[j].found
  {
    hide Frame, Product, Pow2, Off, Dist2;
    EnergyHalvesEachFrame(h, frames, run, q, dt, k);
    StartsAtRest(h, frames, run);
    OffAtStart(run[0], q, dt);
    OffIsPositive(run[k], q, dt);
    TimesLess(Pow2(k), Dist2(run[k].at, q), Off(run[k], q, dt));
  }

  lemma StartsAtRest(h: Length, frames: seq<Seen>, run: seq<Walker>)
    requires IsRun(h, frames, run)
    ensures run[0].v == Point(0.0, 0.0)
  {
  }

  lemma TimesLess(x: real, d: real, off: real)
    requires x >= 1.0 && d <= 12.0 * off
    ensures Product(x, d) <= 12.0 * Product(x, off)
  {
    assert Product(x, 12.0 * off - d) >= 0.0;
  }
}
