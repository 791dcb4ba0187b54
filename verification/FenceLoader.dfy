/** Loading a fence into PX4 and vouching for it (`src/geofence_loader/geofence_loader.py`). */
module FenceLoader {
  import opened Planar
  import opened Rounding

  const MAX_ITEMS := 64
  const VER_DEFAULT := 120.0

  /** A vertex in degrees. */
  datatype Vertex = Vertex(lat: real, lon: real)

  datatype Kind = Inclusion | Exclusion

  datatype Polygon = Polygon(kind: Kind, ring: seq<Vertex>)

  datatype Fence = Fence(inclusion: seq<Vertex>, exclusions: seq<seq<Vertex>>)

  /** One vertex as PX4 keeps it: each carries its polygon's vertex count. */
  datatype Item = Item(kind: Kind, at: Vertex, count: nat)

  datatype FenceError = TooFewVertices | OutOfRange | TooManyItems

  // ---- From a fence to items and back ----

  /** A closed ring without its repeated last vertex. */
  function Open(ring: seq<Vertex>): seq<Vertex> {
    if |ring| >= 2 && ring[0] == ring[|ring| - 1] then ring[..|ring| - 1] else ring
  }

  function Polygons(f: Fence): seq<Polygon> {
    [Polygon(Inclusion, Open(f.inclusion))] + seq(|f.exclusions|, i requires 0 <= i < |f.exclusions| => Polygon(Exclusion, Open(f.exclusions[i])))
  }

  predicate OnEarth(v: Vertex) {
    -90.0 <= v.lat <= 90.0 && -180.0 <= v.lon <= 180.0
  }

  predicate Loadable(p: Polygon) {
    |p.ring| >= 3 && forall i :: 0 <= i < |p.ring| ==> OnEarth(p.ring[i])
  }

  function ItemsOf(p: Polygon): (r: seq<Item>)
    ensures |r| == |p.ring|
  {
    seq(|p.ring|, i requires 0 <= i < |p.ring| => Item(p.kind, p.ring[i], |p.ring|))
  }

  function Flat(ps: seq<Polygon>): seq<Item> {
    if ps == [] then [] else Flat(ps[..|ps| - 1]) + ItemsOf(ps[|ps| - 1])
  }

  predicate Fits(f: Fence) {
    (forall k :: 0 <= k < |Polygons(f)| ==> Loadable(Polygons(f)[k])) && |Flat(Polygons(f))| <= MAX_ITEMS
  }

  /** The fence's items, which it has exactly if every polygon can be loaded and all fit. */
  method ToItems(f: Fence) returns (r: Result<seq<Item>, FenceError>)
    ensures r.Ok? <==> Fits(f)
    ensures r.Ok? ==> r.value == Flat(Polygons(f))
    ensures r == Err(TooManyItems) ==> forall k :: 0 <= k < |Polygons(f)| ==> Loadable(Polygons(f)[k])
  {
    hide Polygons, OnEarth;
    var polys := Polygons(f);
    var items: seq<Item> := [];
    for k := 0 to |polys|
      invariant forall j :: 0 <= j < k ==> Loadable(polys[j])
      invariant items == Flat(polys[..k])
    {
      var poly := polys[k];
      if |poly.ring| < 3 {
        return Err(TooFewVertices);
      }
      for i := 0 to |poly.ring|
        invariant forall j :: 0 <= j < i ==> OnEarth(poly.ring[j])
        invariant items == Flat(polys[..k]) + ItemsOf(poly)[..i]
      {
        if !OnEarth(poly.ring[i]) {
          return Err(OutOfRange);
        }
        assert ItemsOf(poly)[..i + 1] == ItemsOf(poly)[..i] + [ItemsOf(poly)[i]];
        items := items + [Item(poly.kind, poly.ring[i], |poly.ring|)];
      }
      assert ItemsOf(poly)[..|poly.ring|] == ItemsOf(poly);
      assert polys[..k + 1][..k] == polys[..k];
    }
    assert polys[..|polys|] == polys;
    if |items| > MAX_ITEMS {
      return Err(TooManyItems);
    }
    return Ok(items);
  }

  /** Polygons read off the items: each begins with a vertex that says how many it has. */
  function Grouped(items: seq<Item>): seq<Polygon> {
    if items == [] then []
    else
      var n := items[0].count;
      if n == 0 || n > |items| then []
      else [Polygon(items[0].kind, seq(n, i requires 0 <= i < n => items[i].at))] + Grouped(items[n..])
  }

  lemma {:induction false} FlatBoth(xs: seq<Polygon>, ys: seq<Polygon>)
    ensures Flat(xs + ys) == Flat(xs) + Flat(ys)
  {
    hide ItemsOf;
    if ys == [] {
      assert xs + ys == xs;
    } else {
      var k := |ys| - 1;
      assert (xs + ys)[..|xs| + k] == xs + ys[..k];
      FlatBoth(xs, ys[..k]);
    }
  }

  lemma FlatFromFront(ps: seq<Polygon>)
    requires ps != []
    ensures Flat(ps) == ItemsOf(ps[0]) + Flat(ps[1..])
  {
    assert Flat([ps[0]]) == ItemsOf(ps[0]) by { assert [ps[0]][..0] == []; }
    hide Flat, ItemsOf;
    FlatBoth([ps[0]], ps[1..]);
    assert ps == [ps[0]] + ps[1..];
  }

  /** The items of a polygon at the front come off as that polygon. */
  lemma GroupedFront(p: Polygon, rest: seq<Item>)
    requires p.ring != []
    ensures Grouped(ItemsOf(p) + rest) == [p] + Grouped(rest)
  {
    var items, n := ItemsOf(p) + rest, |p.ring|;
    assert items[0] == Item(p.kind, p.ring[0], n);
    assert items[n..] == rest;
    assert seq(n, i requires 0 <= i < n => items[i].at) == p.ring;
  }

  /** Round trip: the items' own counts give back the polygons, in order. */
  lemma {:induction false} GroupingUndoesFlattening(ps: seq<Polygon>)
    requires forall k :: 0 <= k < |ps| ==> ps[k].ring != []
    ensures Grouped(Flat(ps)) == ps
  {
    if ps != [] {
      FlatFromFront(ps);
      GroupingUndoesFlattening(ps[1..]);
      GroupedFront(ps[0], Flat(ps[1..]));
    }
  }

  /** A fence that fits comes back as its inclusion, then its exclusions, closing vertices dropped. */
  lemma FenceRoundTrip(f: Fence)
    requires Fits(f)
    ensures Grouped(Flat(Polygons(f))) == Polygons(f)
  {
    GroupingUndoesFlattening(Polygons(f));
  }

  // ---- Reading back ----

  /** Closer than 2e-7 degrees. */
  predicate Close(x: real, y: real) {
    -0.0000002 < x - y < 0.0000002
  }

  predicate SameItem(x: Item, y: Item) {
    x.kind == y.kind && x.count == y.count && Close(x.at.lat, y.at.lat) && Close(x.at.lon, y.at.lon)
  }

  predicate Same(a: seq<Item>, b: seq<Item>) {
    |a| == |b| && forall i :: 0 <= i < |a| ==> SameItem(a[i], b[i])
  }

  /** Degrees as the integer sent, and the integer as the degrees read back. */
  function ToE7(degrees: real): int {
    RoundHalfEven(degrees * 10000000.0)
  }

  function FromE7(x: int): real {
    x as real / 10000000.0
  }

  /** What a PX4 that keeps the sent integers reads back. */
  function Kept(items: seq<Item>): seq<Item> {
    seq(|items|, i requires 0 <= i < |items| =>
      Item(items[i].kind, Vertex(FromE7(ToE7(items[i].at.lat)), FromE7(ToE7(items[i].at.lon))), items[i].count))
  }

  lemma DegreesSurvive(x: real)
    ensures -0.00000005 <= x - FromE7(ToE7(x)) <= 0.00000005
  {
    var k := ToE7(x) as real;
    assert -0.5 <= x * 10000000.0 - k <= 0.5;
    assert x - k / 10000000.0 == (x * 10000000.0 - k) / 10000000.0;
  }

  /** A PX4 that keeps what it was sent always passes the comparison. */
  lemma KeptPasses(items: seq<Item>)
    ensures Same(items, Kept(items))
  {
    forall i | 0 <= i < |items|
      ensures SameItem(items[i], Kept(items)[i])
    {
      DegreesSurvive(items[i].at.lat);
      DegreesSurvive(items[i].at.lon);
    }
  }

  lemma KeptIsAsLong(items: seq<Item>)
    ensures |Kept(items)| == |items|
  {
  }

  predicate CloseTo(p: Polygon, q: Polygon) {
    && p.kind == q.kind && |p.ring| == |q.ring|
    && forall i :: 0 <= i < |p.ring| ==> Close(p.ring[i].lat, q.ring[i].lat) && Close(p.ring[i].lon, q.ring[i].lon)
  }

  predicate AllClose(ps: seq<Polygon>, qs: seq<Polygon>) {
    |ps| == |qs| && forall k :: 0 <= k < |ps| ==> CloseTo(ps[k], qs[k])
  }

  /** What passes the comparison is the fence asked for: the same polygons, each vertex within 2e-7 degrees. */
  lemma {:induction false} SameIsTheFence(ps: seq<Polygon>, back: seq<Item>)
    requires (forall k :: 0 <= k < |ps| ==> ps[k].ring != []) && Same(Flat(ps), back)
    ensures AllClose(ps, Grouped(back))
  {
    if ps != [] {
      var n, items := |ps[0].ring|, Flat(ps);
      FlatFromFront(ps);
      assert items[0] == ItemsOf(ps[0])[0] && SameItem(items[0], back[0]);
      assert items[n..] == Flat(ps[1..]);
      forall i | 0 <= i < |back[n..]|
        ensures SameItem(items[n..][i], back[n..][i])
      {
        assert SameItem(items[n + i], back[n + i]);
      }
      SameIsTheFence(ps[1..], back[n..]);
      var q := Polygon(back[0].kind, seq(n, i requires 0 <= i < n => back[i].at));
      forall i | 0 <= i < n
        ensures Close(ps[0].ring[i].lat, q.ring[i].lat) && Close(ps[0].ring[i].lon, q.ring[i].lon)
      {
        assert items[i] == ItemsOf(ps[0])[i] && SameItem(items[i], back[i]);
      }
      assert Grouped(back) == [q] + Grouped(back[n..]);
      forall k | 0 <= k < |ps|
        ensures CloseTo(ps[k], Grouped(back)[k])
      {
        if k > 0 {
          assert CloseTo(ps[1..][k - 1], Grouped(back[n..])[k - 1]);
        }
      }
    }
  }

  // ---- The upload ----

  /** What the loader hears next; `Silent` also when the attempt's time is over. `fence`: the reply is about a fence. */
  datatype Heard = Silent | Request(index: nat) | Reply(fence: bool, accepted: bool)

  datatype UploadError = Refused | AskedBeyond | GaveUp

  /** One item on the wire. */
  datatype Sent = Sent(index: nat, kind: Kind, lat: int, lon: int, count: nat)

  function Wire(items: seq<Item>, index: nat): Sent
    requires index < |items|
  {
    Sent(index, items[index].kind, ToE7(items[index].at.lat), ToE7(items[index].at.lon), items[index].count)
  }

  /** How an attempt goes: None when it times out, and how much was heard. */
  function Attempt(n: nat, inbox: seq<Heard>, sent: set<nat>): (r: (Option<Result<bool, UploadError>>, nat))
    ensures r.1 <= |inbox|
  {
    if inbox == [] then (None, 0)
    else
      match inbox[0]
      case Silent => (None, 1)
      case Reply(false, _) => var (r, used) := Attempt(n, inbox[1..], sent); (r, used + 1)
      case Reply(true, accepted) => (Some(if accepted && |sent| == n then Ok(true) else Err(Refused)), 1)
      case Request(index) =>
        if index >= n then (Some(Err(AskedBeyond)), 1)
        else var (r, used) := Attempt(n, inbox[1..], sent + {index}); (r, used + 1)
  }

  function Attempts(n: nat, inbox: seq<Heard>, tries: nat): Result<bool, UploadError> {
    if tries == 0 then Err(GaveUp)
    else
      var (r, used) := Attempt(n, inbox, {});
      if r.Some? then r.value else Attempts(n, inbox[used..], tries - 1)
  }

  ghost predicate SentAll(items: seq<Item>, wire: seq<Sent>) {
    && (forall s :: s in wire ==> s.index < |items| && s == Wire(items, s.index))
    && (forall i :: 0 <= i < |items| ==> Wire(items, i) in wire)
  }

  /** `wire` is what the last attempt sent. */
  method Upload(items: seq<Item>, inbox: seq<Heard>) returns (r: Result<bool, UploadError>, wire: seq<Sent>)
    ensures r == Attempts(|items|, inbox, 3)
    ensures r.Ok? ==> SentAll(items, wire)
  {
    var n := |items|;
    var rest := inbox;
    for attempt := 0 to 3
      invariant Attempts(n, inbox, 3) == Attempts(n, rest, 3 - attempt)
    {
      var sent: set<nat> := {};
      var i := 0;
      wire := [];
      while i < |rest| && rest[i] != Silent
        invariant i <= |rest|
        invariant (var (a, used) := Attempt(n, rest, {}); var (a', used') := Attempt(n, rest[i..], sent); a == a' && used == i + used')
        invariant forall k :: k in sent ==> k < n && Wire(items, k) in wire
        invariant forall s :: s in wire ==> s.index < n && s == Wire(items, s.index)
        decreases |rest| - i
      {
        assert rest[i..][1..] == rest[i + 1..];
        match rest[i] {
        case Reply(fence, accepted) =>
          if fence {
            if accepted && |sent| == n {
              AllSent(sent, n);
              return Ok(true), wire;
            }
            return Err(Refused), wire;
          }
        case Request(index) =>
          if index >= n {
            return Err(AskedBeyond), wire;
          }
          wire := wire + [Wire(items, index)];
          sent := sent + {index};
        }
        i := i + 1;
      }
      rest := if i < |rest| then rest[i + 1..] else [];
    }
    return Err(GaveUp), [];
  }

  /** n different indices below n are all of them. */
  lemma {:induction false} AllSent(sent: set<nat>, n: nat)
    requires (forall k :: k in sent ==> k < n) && |sent| == n
    ensures forall k :: 0 <= k < n ==> k in sent
  {
    if n > 0 {
      if n - 1 !in sent {
        AtMost(sent, n - 1);
      } else {
        AllSent(sent - {n - 1}, n - 1);
      }
    }
  }

  lemma {:induction false} AtMost(sent: set<nat>, n: nat)
    requires forall k :: k in sent ==> k < n
    ensures |sent| <= n
  {
    if n == 0 {
      assert sent == {};
    } else {
      AtMost(sent - {n - 1}, n - 1);
    }
  }

  function Asked(inbox: seq<Heard>): set<nat> {
    set h | h in inbox && h.Request? :: h.index
  }

  function Below(n: nat): (r: set<nat>)
    ensures |r| == n && forall k: nat :: k in r <==> k < n
  {
    if n == 0 then {} else Below(n - 1) + {n - 1}
  }

  lemma AskedFirst(inbox: seq<Heard>)
    requires inbox != [] && inbox[0].Request?
    ensures Asked(inbox) == {inbox[0].index} + Asked(inbox[1..])
  {
  }

  /** A PX4 that asks for every item, in whatever order and however often, and then accepts, is uploaded to. */
  lemma {:induction false} AskingForAllSucceeds(n: nat, inbox: seq<Heard>, sent: set<nat>)
    requires (forall h :: h in inbox ==> h.Request? && h.index < n) && sent + Asked(inbox) == Below(n)
    ensures Attempt(n, inbox + [Reply(true, true)], sent).0 == Some(Ok(true))
  {
    var all := inbox + [Reply(true, true)];
    if inbox == [] {
      assert sent == sent + Asked(inbox);
    } else {
      assert all[1..] == inbox[1..] + [Reply(true, true)];
      AskedFirst(inbox);
      hide Asked;
      assert inbox[0] in inbox && all[0] == inbox[0];
      assert (sent + {inbox[0].index}) + Asked(inbox[1..]) == sent + Asked(inbox);
      AskingForAllSucceeds(n, inbox[1..], sent + {inbox[0].index});
    }
  }

  /** At message `k` PX4 accepts the fence, after requests for items there are and replies about other missions only, and every
      item has been asked for. */
  ghost predicate AcceptsAt(n: nat, inbox: seq<Heard>, sent: set<nat>, k: nat) {
    && k < |inbox| && inbox[k] == Reply(true, true)
    && (forall j :: 0 <= j < k ==> (inbox[j].Request? && inbox[j].index < n) || (inbox[j].Reply? && !inbox[j].fence))
    && (forall i: nat :: i < n ==> i in sent || Request(i) in inbox[..k])
  }

  /** An attempt succeeds exactly if PX4 accepts like that. */
  lemma {:induction false} AttemptSucceedsExactly(n: nat, inbox: seq<Heard>, sent: set<nat>)
    requires forall i :: i in sent ==> i < n
    ensures Attempt(n, inbox, sent).0 == Some(Ok(true)) <==> exists k: nat :: AcceptsAt(n, inbox, sent, k)
  {
    if inbox != [] {
      match inbox[0]
      case Silent => NotFromHere(n, inbox, sent);
      case Reply(fence, accepted) =>
        if fence {
          AcceptedHere(n, inbox, sent);
        } else {
          AttemptSucceedsExactly(n, inbox[1..], sent);
          AcceptsLater(n, inbox, sent, sent);
        }
      case Request(index) =>
        if index < n {
          AttemptSucceedsExactly(n, inbox[1..], sent + {index});
          AcceptsLater(n, inbox, sent, sent + {index});
        } else {
          NotFromHere(n, inbox, sent);
        }
    }
  }

  lemma NotFromHere(n: nat, inbox: seq<Heard>, sent: set<nat>)
    requires inbox != [] && (inbox[0] == Silent || (inbox[0].Request? && inbox[0].index >= n))
    ensures forall k: nat :: !AcceptsAt(n, inbox, sent, k)
  {
  }

  lemma AcceptedHere(n: nat, inbox: seq<Heard>, sent: set<nat>)
    requires (forall i :: i in sent ==> i < n) && inbox != [] && inbox[0].Reply? && inbox[0].fence
    ensures (exists k: nat :: AcceptsAt(n, inbox, sent, k)) <==> inbox[0].accepted && |sent| == n
  {
    if inbox[0].accepted && |sent| == n {
      AllSent(sent, n);
      assert AcceptsAt(n, inbox, sent, 0);
    }
    if k: nat :| AcceptsAt(n, inbox, sent, k) {
      assert k == 0 && inbox[..0] == [];
      assert sent == Below(n);
    }
  }

  lemma AcceptsLater(n: nat, inbox: seq<Heard>, sent: set<nat>, more: set<nat>)
    requires inbox != [] && more == (if inbox[0].Request? then sent + {inbox[0].index} else sent)
    requires (inbox[0].Request? && inbox[0].index < n) || (inbox[0].Reply? && !inbox[0].fence)
    ensures (exists k: nat :: AcceptsAt(n, inbox, sent, k)) <==> exists k: nat :: AcceptsAt(n, inbox[1..], more, k)
  {
    var rest := inbox[1..];
    if k: nat :| AcceptsAt(n, inbox, sent, k) {
      assert inbox[..k] == [inbox[0]] + rest[..k - 1];
      assert AcceptsAt(n, rest, more, k - 1);
    }
    if k: nat :| AcceptsAt(n, rest, more, k) {
      assert inbox[..k + 1] == [inbox[0]] + rest[..k];
      assert AcceptsAt(n, inbox, sent, k + 1);
    }
  }

  /** An attempt that PX4 leaves unanswered is followed by another, up to the third. */
  lemma SilenceIsRetriedTwice(n: nat, inbox: seq<Heard>)
    ensures Attempts(n, [Silent, Silent] + inbox, 3)
            == (if Attempt(n, inbox, {}).0.Some? then Attempt(n, inbox, {}).0.value else Err(GaveUp))
    ensures Attempts(n, [Silent] + inbox, 3) == Attempts(n, inbox, 2)
  {
    assert ([Silent, Silent] + inbox)[1..] == [Silent] + inbox;
    assert ([Silent] + inbox)[1..] == inbox;
    assert Attempts(n, [Silent] + inbox, 2) == Attempts(n, inbox, 1);
    assert forall rest :: Attempts(n, rest, 0) == Err(GaveUp);
  }

  // ---- The loader ----

  /** What is to be loaded: the fence's items, or None to clear. */
  datatype Want = Want(hash: string, items: Option<seq<Item>>, ceiling: real)

  datatype Report = Report(hash: Option<string>, error: bool, points: nat)

  /** How PX4 answers while a fence is applied; None where an answer fails to come. */
  datatype Trial = Trial(connected: bool, inbox: seq<Heard>, cleared: bool, back: Option<seq<Item>>, ceilingSet: bool)

  /** A fence that PX4 gave back as asked, and how PX4 answered while it was applied. */
  datatype Verified = Verified(want: Want, back: seq<Item>, trial: Trial)

  datatype FenceMessage = Broken | Clear(hash: string) | Load(hash: string, fence: Fence, ceiling: real)

  /** `heard` is the status half-made for a bad message; `busy` what the worker is applying. `verified` is the last
      fence applied, until an application fails. */
  datatype State = State(want: Option<Want>, dirty: bool, status: Report, loaded: seq<Item>, lastVerify: real,
                         heard: Option<Report>, busy: Option<Want>, verified: Option<Verified>)

  const Boot := State(None, false, Report(None, false, 0), [], 0.0, None, None, None)

  /** What a message asks for, if it is in order. */
  function Parsed(m: FenceMessage): Option<Want> {
    match m
    case Broken => None
    case Clear(hash) => Some(Want(hash, None, VER_DEFAULT))
    case Load(hash, fence, ceiling) =>
      if Fits(fence) && 0.0 < ceiling <= 10000.0 then Some(Want(hash, Some(Flat(Polygons(fence))), ceiling)) else None
  }

  /** What PX4 gave back is what was asked for. */
  predicate Matches(want: Want, back: seq<Item>) {
    if want.items.None? then back == [] else Same(want.items.value, back)
  }

  /** The read-back fence if the application succeeds. */
  function Applied(want: Want, t: Trial): Option<seq<Item>> {
    var done := if want.items.None? then t.cleared else Attempts(|want.items.value|, t.inbox, 3).Ok?;
    if t.connected && done && t.back.Some? && Matches(want, t.back.value) && t.ceilingSet then t.back else None
  }

  /** The worker's choice when it wakes: `back` is PX4's fence, if it can be read. */
  function Chosen(s: State, now: real, back: Option<seq<Item>>): State {
    var t := s.(dirty := false);
    if s.want.None? then t
    else
      var current := s.status.hash == Some(s.want.value.hash);
      if s.dirty || (!current && !(s.status.error && now - s.lastVerify < 15.0)) then t.(busy := s.want, lastVerify := now)
      else if current && now - s.lastVerify > 30.0 then
        t.(lastVerify := now, busy := if back.Some? && !Same(back.value, s.loaded) then s.want else None)
      else t
  }

  function Finished(s: State, trial: Trial): State {
    if s.busy.None? then s
    else
      var want, back := s.busy.value, Applied(s.busy.value, trial);
      if back.None? then s.(busy := None, status := Report(None, true, 0), verified := None)
      else s.(busy := None, loaded := back.value, status := Report(Some(want.hash), false, |back.value|),
              verified := Some(Verified(want, back.value, trial)))
  }

  class Loader {
    var want: Option<Want>
    var dirty: bool
    var status: Report
    var loaded: seq<Item>
    var lastVerify: real
    var busy: Option<Want>
    ghost var heard: Option<Report>
    ghost var verified: Option<Verified>

    ghost function Now(): State
      reads this
    {
      State(want, dirty, status, loaded, lastVerify, heard, busy, verified)
    }

    constructor ()
      ensures Now() == Boot
    {
      want, dirty, status, loaded, lastVerify, busy := None, false, Report(None, false, 0), [], 0.0, None;
      heard, verified := None, None;
    }

    method OnFence(m: FenceMessage)
      modifies this
      ensures Parsed(m).Some? ==> Now() == old(Now()).(want := Parsed(m), dirty := true)
      ensures Parsed(m).None? ==> Now() == old(Now()).(status := Report(old(status.hash), true, old(status.points)))
    {
      match m
      case Broken =>
        status := Report(status.hash, true, status.points);
      case Clear(hash) =>
        want, dirty := Some(Want(hash, None, VER_DEFAULT)), true;
      case Load(hash, fence, ceiling) =>
        var items := ToItems(fence);
        if items.Err? || !(0.0 < ceiling <= 10000.0) {
          status := Report(status.hash, true, status.points);
          return;
        }
        want, dirty := Some(Want(hash, Some(items.value), ceiling)), true;
    }

    method Apply(w: Want, trial: Trial) returns (back: Option<seq<Item>>)
      modifies this
      ensures back == Applied(w, trial)
      ensures Now() == if back.Some? then old(Now()).(loaded := back.value) else old(Now())
    {
      if !trial.connected {
        return None;
      }
      if w.items.None? {
        if !trial.cleared || trial.back.None? || trial.back.value != [] {
          return None;
        }
      } else {
        var up, _ := Upload(w.items.value, trial.inbox);
        if up.Err? || trial.back.None? || !Same(w.items.value, trial.back.value) {
          return None;
        }
      }
      if !trial.ceilingSet {
        return None;
      }
      loaded := trial.back.value;
      return trial.back;
    }

    /** The worker wakes, and decides what to apply. */
    method Wake(now: real, back: Option<seq<Item>>)
      requires busy.None?
      modifies this
      ensures Now() == Chosen(old(Now()), now, back)
    {
      var wasDirty := dirty;
      dirty := false;
      if want.None? {
        return;
      }
      if !wasDirty && now - lastVerify > 30.0 && status.hash == Some(want.value.hash) {
        lastVerify := now;
        if back.None? || Same(back.value, loaded) {
          return;
        }
      } else if !wasDirty && status.hash == Some(want.value.hash) {
        return;
      } else if !wasDirty && status.error && now - lastVerify < 15.0 {
        return;
      }
      lastVerify := now;
      busy := want;
    }

    /** The worker's attempt at what it chose. */
    method Work(trial: Trial)
      modifies this
      ensures Now() == Finished(old(Now()), trial)
    {
      if busy.None? {
        return;
      }
      var w := busy.value;
      var back := Apply(w, trial);
      busy := None;
      if back.Some? {
        status := Report(Some(w.hash), false, |back.value|);
        verified := Some(Verified(w, back.value, trial));
      } else {
        status := Report(None, true, 0);
        verified := None;
      }
    }
  }

  // ---- Runs: the worker has its own thread ----

  /** A bad message makes its status from the present one in one step and stores it in another. */
  datatype Event =
    | FenceArrives(want: Want)
    | BadMessage
    | BadMessageStored
    | WorkerWakes(now: real, back: Option<seq<Item>>)
    | WorkerWorks(trial: Trial)

  function Step(s: State, e: Event): State {
    match e
    case FenceArrives(want) => s.(want := Some(want), dirty := true)
    case BadMessage => s.(heard := Some(Report(s.status.hash, true, s.status.points)))
    case BadMessageStored => if s.heard.None? then s else s.(status := s.heard.value, heard := None)
    case WorkerWakes(now, back) => if s.busy.Some? then s else Chosen(s, now, back)
    case WorkerWorks(trial) => Finished(s, trial)
  }

  function Run(events: seq<Event>): State {
    if events == [] then Boot else Step(Run(events[..|events| - 1]), events[|events| - 1])
  }

  /** The link was there, PX4 took the fence, gave it back as asked and set the ceiling. */
  predicate WentThrough(v: Verified) {
    && v.trial.connected && v.trial.ceilingSet && v.trial.back == Some(v.back)
    && (if v.want.items.None? then v.trial.cleared && v.back == []
        else Attempts(|v.want.items.value|, v.trial.inbox, 3).Ok? && Same(v.want.items.value, v.back))
  }

  /** The status names the fence last applied, with which everything went through, or none after a failure. */
  predicate Truthful(s: State) {
    && s.status.hash == (if s.verified.Some? then Some(s.verified.value.want.hash) else None)
    && (s.verified.Some? ==> WentThrough(s.verified.value) && s.loaded == s.verified.value.back)
  }

  /** A bad message's status is stored with the hash that is in the status anyway. */
  predicate Current(s: State, e: Event) {
    e.BadMessageStored? && s.heard.Some? ==> s.heard.value.hash == s.status.hash
  }

  /** A step keeps the status truthful exactly if it stores no other hash than the one that is there. */
  lemma StaleStatusLies(s: State, e: Event)
    requires Truthful(s)
    ensures Truthful(Step(s, e)) <==> Current(s, e)
  {
    hide Same, Attempts;
  }

  lemma BootIsTruthful()
    ensures Truthful(Boot)
  {
  }

  predicate AllCurrent(events: seq<Event>) {
    events == []
    || (AllCurrent(events[..|events| - 1]) && Current(Run(events[..|events| - 1]), events[|events| - 1]))
  }

  /** The status is truthful now and was after every event before. */
  predicate TruthfulThroughout(events: seq<Event>) {
    Truthful(Run(events)) && (events == [] || TruthfulThroughout(events[..|events| - 1]))
  }

  /** In every run: the status is truthful throughout exactly if every bad message's status is stored with the hash that
      is in the status by then. */
  lemma {:induction false} TruthfulThroughoutExactly(events: seq<Event>)
    ensures TruthfulThroughout(events) <==> AllCurrent(events)
  {
    hide Truthful, Current, Step;
    if events == [] {
      BootIsTruthful();
    } else {
      var before := events[..|events| - 1];
      TruthfulThroughoutExactly(before);
      if Truthful(Run(before)) {
        StaleStatusLies(Run(before), events[|events| - 1]);
      }
    }
  }

  /** In every such run: a hash in the status is that of the last fence applied, no attempt has failed since, and PX4
      gave back exactly its polygons, each vertex within 2e-7 degrees (or nothing, if it was to be cleared). */
  lemma HashIsVouchedFor(events: seq<Event>, ps: seq<Polygon>)
    requires AllCurrent(events) && Run(events).status.hash.Some?
    ensures (var s := Run(events);
             && s.verified.Some? && s.status.hash == Some(s.verified.value.want.hash) && WentThrough(s.verified.value)
             && (s.verified.value.want.items.None? ==> s.verified.value.back == [])
             && (s.verified.value.want.items == Some(Flat(ps)) && (forall k :: 0 <= k < |ps| ==> ps[k].ring != []) ==>
                   AllClose(ps, Grouped(s.verified.value.back))))
  {
    hide Same, Run, AllClose;
    TruthfulThroughoutExactly(events);
    var v := Run(events).verified;
    if v.Some? && v.value.want.items == Some(Flat(ps)) && forall k :: 0 <= k < |ps| ==> ps[k].ring != [] {
      SameIsTheFence(ps, v.value.back);
    }
  }

  // ---- When the worker acts ----

  /** In every run, a worker that wakes applies the wanted fence exactly if it is new, or has failed and was last tried 15 s
      ago or more, or is in force, was last looked at over 30 s ago and PX4 now gives back another. */
  lemma WorkerActsExactly(events: seq<Event>, now: real, back: Option<seq<Item>>)
    requires Run(events).busy.None? && Run(events).want.Some?
    ensures (var s, t := Run(events), Step(Run(events), WorkerWakes(now, back));
             var current := s.status.hash == Some(s.want.value.hash);
             && (t.busy == s.want
                 || (t.busy == None && !s.dirty && (current || (s.status.error && now - s.lastVerify < 15.0))))
             && (s.dirty || (!current && (!s.status.error || now - s.lastVerify >= 15.0)) ==> t.busy == s.want)
             && (!s.dirty && current ==>
                   (t.busy == s.want <==> now - s.lastVerify > 30.0 && back.Some? && !Same(back.value, s.loaded)))
             && !t.dirty && t.want == s.want && t.status == s.status)
  {
    hide Same, Run;
  }

  /** Without a new message, the worker does not try again within 15 s of its last try. */
  predicate Quiet(events: seq<Event>) {
    forall k :: 0 <= k < |events| ==> !events[k].FenceArrives?
  }

  /** Wake times do not go back. */
  predicate InTime(since: real, events: seq<Event>) {
    forall k :: 0 <= k < |events| && events[k].WorkerWakes? ==> events[k].now >= since
  }

  function After(s: State, events: seq<Event>): State {
    if events == [] then s else Step(After(s, events[..|events| - 1]), events[|events| - 1])
  }

  /** The wanted fence is being applied, is in force, or has failed; the last look or try was no earlier than `since`. */
  predicate Settling(s: State, since: real) {
    && s.want.Some? && !s.dirty && s.lastVerify >= since
    && (s.busy.Some? ==> s.busy == s.want)
    && (s.busy.None? ==> s.status.hash == Some(s.want.value.hash) || s.status.error)
    && (s.heard.Some? ==> s.heard.value.error)
  }

  lemma StepKeepsSettling(s: State, e: Event, since: real)
    requires Settling(s, since) && !e.FenceArrives? && (e.WorkerWakes? ==> e.now >= since)
    ensures Settling(Step(s, e), since)
  {
    hide Same, Attempts;
  }

  lemma {:induction false} StaysSettling(s: State, events: seq<Event>, since: real)
    requires Settling(s, since) && Quiet(events) && InTime(since, events)
    ensures Settling(After(s, events), since)
  {
    if events != [] {
      hide Step, Settling;
      StaysSettling(s, events[..|events| - 1], since);
      StepKeepsSettling(After(s, events[..|events| - 1]), events[|events| - 1], since);
    }
  }

  lemma {:induction false} HeardIsAnError(events: seq<Event>)
    ensures Run(events).heard.Some? ==> Run(events).heard.value.error
  {
    if events != [] {
      HeardIsAnError(events[..|events| - 1]);
      HeardStaysAnError(Run(events[..|events| - 1]), events[|events| - 1]);
      hide Step;
    }
  }

  lemma HeardStaysAnError(s: State, e: Event)
    requires s.heard.Some? ==> s.heard.value.error
    ensures Step(s, e).heard.Some? ==> Step(s, e).heard.value.error
  {
    hide Same, Attempts;
  }

  /** In every run: between two tries of the worker there are at least 15 s, unless a new fence comes in between. */
  lemma TriesAreApart(events: seq<Event>, first: real, back: Option<seq<Item>>, later: seq<Event>, second: real,
                      back': Option<seq<Item>>)
    requires Run(events).busy.None? && Step(Run(events), WorkerWakes(first, back)).busy.Some?
    requires Quiet(later) && InTime(first, later)
    requires var t := After(Step(Run(events), WorkerWakes(first, back)), later);
             t.busy.None? && Step(t, WorkerWakes(second, back')).busy.Some?
    ensures second - first >= 15.0
  {
    hide Same, Attempts, Run, After;
    HeardIsAnError(events);
    StaysSettling(Step(Run(events), WorkerWakes(first, back)), later, first);
  }

  /** The polygon is the ring, without its repeated last vertex, each vertex within 2e-7 degrees. */
  predicate IsRing(p: Polygon, kind: Kind, ring: seq<Vertex>) {
    && p.kind == kind
    && |p.ring| == (if |ring| >= 2 && ring[0] == ring[|ring| - 1] then |ring| - 1 else |ring|)
    && forall i :: 0 <= i < |p.ring| ==> Close(p.ring[i].lat, ring[i].lat) && Close(p.ring[i].lon, ring[i].lon)
  }

  lemma LoadedPolygons(f: Fence)
    requires Fits(f)
    ensures (var back := Grouped(Kept(Flat(Polygons(f))));
             && |back| == 1 + |f.exclusions| && IsRing(back[0], Inclusion, f.inclusion)
             && forall k :: 0 <= k < |f.exclusions| ==> IsRing(back[k + 1], Exclusion, f.exclusions[k]))
  {
    hide Flat, Kept, Grouped, OnEarth, Close;
    var ps := Polygons(f);
    KeptPasses(Flat(ps));
    assert forall k :: 0 <= k < |ps| ==> Loadable(ps[k]);
    SameIsTheFence(ps, Kept(Flat(ps)));
    var back := Grouped(Kept(Flat(ps)));
    assert CloseTo(ps[0], back[0]);
    CloseRing(ps[0], back[0], f.inclusion);
    forall k | 0 <= k < |f.exclusions|
      ensures IsRing(back[k + 1], Exclusion, f.exclusions[k])
    {
      assert CloseTo(ps[k + 1], back[k + 1]);
      CloseRing(ps[k + 1], back[k + 1], f.exclusions[k]);
    }
  }

  lemma CloseRing(p: Polygon, q: Polygon, ring: seq<Vertex>)
    requires CloseTo(p, q) && p.ring == Open(ring)
    ensures IsRing(q, p.kind, ring)
  {
  }

  /** End to end: when a message with a fence that fits arrives, the worker applies it at its next waking; over a good link to
      a PX4 that asks for every item and keeps what it is sent, PX4 then holds the inclusion and the exclusions of that very
      message, with its ceiling, and the status names it. */
  lemma MessageIsLoaded(s: State, hash: string, f: Fence, ceiling: real, now: real, seen: Option<seq<Item>>, inbox: seq<Heard>)
    requires s.busy.None? && Fits(f) && 0.0 < ceiling <= 10000.0
    requires var n := |Flat(Polygons(f))|; (forall h :: h in inbox ==> h.Request? && h.index < n) && Asked(inbox) == Below(n)
    ensures Parsed(Load(hash, f, ceiling)).Some?
    ensures (var want := Parsed(Load(hash, f, ceiling)).value;
             var trial := Trial(true, inbox + [Reply(true, true)], true, Some(Kept(Flat(Polygons(f)))), true);
             var t := Step(Step(Step(s, FenceArrives(want)), WorkerWakes(now, seen)), WorkerWorks(trial));
             && t.status == Report(Some(hash), false, |Flat(Polygons(f))|)
             && t.verified.Some? && t.verified.value.want.ceiling == ceiling
             && (var back := Grouped(t.loaded);
                 && |back| == 1 + |f.exclusions| && IsRing(back[0], Inclusion, f.inclusion)
                 && forall k :: 0 <= k < |f.exclusions| ==> IsRing(back[k + 1], Exclusion, f.exclusions[k])))
  {
    hide Same, Fits, Flat, Polygons, Kept, Attempts, Asked, Below, IsRing;
    LoadedPolygons(f);
    var want := Parsed(Load(hash, f, ceiling)).value;
    assert want == Want(hash, Some(Flat(Polygons(f))), ceiling);
    var chosen := Step(Step(s, FenceArrives(want)), WorkerWakes(now, seen));
    assert chosen.busy == Some(want);
    FaithfulPx4Loads(want, inbox, chosen);
    AppliedKeepsBack(want, Trial(true, inbox + [Reply(true, true)], true, Some(Kept(Flat(Polygons(f)))), true), chosen);
  }

  /** A message without a fence clears it, with the default ceiling of 120 m. */
  lemma ClearIsLoaded(s: State, hash: string, now: real, seen: Option<seq<Item>>, inbox: seq<Heard>)
    requires s.busy.None?
    ensures Parsed(Clear(hash)).Some?
    ensures (var t := Step(Step(Step(s, FenceArrives(Parsed(Clear(hash)).value)), WorkerWakes(now, seen)),
                           WorkerWorks(Trial(true, inbox, true, Some([]), true)));
             && t.status == Report(Some(hash), false, 0) && t.loaded == []
             && t.verified.Some? && t.verified.value.want.ceiling == 120.0)
  {
  }

  /** Every other message is a bad one: no fence, one that does not fit, or a ceiling that is not above 0 and at most 10000 m. */
  lemma MessageIsGoodExactly(m: FenceMessage)
    ensures Parsed(m).Some? <==> m.Clear? || (m.Load? && Fits(m.fence) && 0.0 < m.ceiling <= 10000.0)
  {
  }

  lemma AppliedKeepsBack(want: Want, trial: Trial, s: State)
    requires s.busy == Some(want) && trial.back.Some? && !Finished(s, trial).status.error
    ensures Finished(s, trial).loaded == trial.back.value
    ensures Finished(s, trial).verified.Some? && Finished(s, trial).verified.value.want == want
  {
    hide Same, Attempts;
  }

  lemma RunOfFour(events: seq<Event>, a: Event, b: Event, c: Event, d: Event)
    ensures Run(events + [a, b, c, d]) == Step(Step(Step(Step(Run(events), a), b), c), d)
  {
    hide Step;
    var run, n := events + [a, b, c, d], |events|;
    assert run[..n] == events && run[..n + 4] == run;
    assert run[..n + 4][..n + 3] == run[..n + 3] && run[..n + 3][..n + 2] == run[..n + 2];
    assert run[..n + 2][..n + 1] == run[..n + 1] && run[..n + 1][..n] == run[..n];
    assert Run(run[..n + 2]) == Step(Step(Run(events), a), b);
  }

  /** The two threads can make the status lie: a fence is loaded, a bad message is half handled, the next attempt fails,
      and the stored status vouches for a fence that PX4 no longer gives back. */
  lemma BadMessageCanHideAFailure(want: Want, good: Trial, dead: Trial)
    requires want.items.None? && good == Trial(true, [], true, Some([]), true) && !dead.connected
    ensures (var s := Run([FenceArrives(want), WorkerWakes(100.0, None), WorkerWorks(good), BadMessage, FenceArrives(want),
                           WorkerWakes(200.0, None), WorkerWorks(dead), BadMessageStored]);
             s.status.hash == Some(want.hash) && s.verified.None?)
  {
    var loaded := [FenceArrives(want), WorkerWakes(100.0, None), WorkerWorks(good), BadMessage];
    var failed := [FenceArrives(want), WorkerWakes(200.0, None), WorkerWorks(dead), BadMessageStored];
    RunOfFour([], loaded[0], loaded[1], loaded[2], loaded[3]);
    assert [] + loaded == loaded;
    RunOfFour(loaded, failed[0], failed[1], failed[2], failed[3]);
    assert loaded + failed == [FenceArrives(want), WorkerWakes(100.0, None), WorkerWorks(good), BadMessage, FenceArrives(want),
                               WorkerWakes(200.0, None), WorkerWorks(dead), BadMessageStored];
  }

  /** A good link to a PX4 that asks for every item and keeps the integers it is sent: the fence gets loaded. */
  lemma FaithfulPx4Loads(want: Want, inbox: seq<Heard>, s: State)
    requires want.items.Some? && s.busy == Some(want)
    requires (forall h :: h in inbox ==> h.Request? && h.index < |want.items.value|) && Asked(inbox) == Below(|want.items.value|)
    ensures (var t := Finished(s, Trial(true, inbox + [Reply(true, true)], true, Some(Kept(want.items.value)), true));
             t.status == Report(Some(want.hash), false, |want.items.value|))
  {
    hide Same, Kept;
    var n, all := |want.items.value|, inbox + [Reply(true, true)];
    assert {} + Asked(inbox) == Asked(inbox);
    AskingForAllSucceeds(n, inbox, {});
    KeptPasses(want.items.value);
    assert Attempts(n, all, 3) == Ok(true);
    assert |Kept(want.items.value)| == n by { KeptIsAsLong(want.items.value); }
    hide Attempts, Attempt, Asked, Below;
  }
}
