/** The agent's clients and the cursor that sweeps over them (`Micro-XRCE-DDS-Agent/src/cpp/Root.cpp`). */
module ClientSweep {
  import opened Planar

  /** Client keys in the order of the agent's map; 0 is the invalid one. */
  type Key = nat

  const INVALID_KEY := 0

  /** One proxy object; a client that comes back with a new session gets a new one. */
  datatype Client = Client(proxy: nat, session: nat)

  datatype Status = StatusOk | InvalidData | Incompatible | UnknownReference

  /** `cursor` is None at the end of the map. */
  datatype State = State(clients: map<Key, Client>, cursor: Option<Key>)

  // ---- The ordered map ----

  predicate IsLeast(keys: set<Key>, x: Key) {
    x in keys && forall y :: y in keys ==> x <= y
  }

  lemma LeastExists(keys: set<Key>)
    requires keys != {}
    ensures exists x :: IsLeast(keys, x)
  {
    var x :| x in keys;
    if keys - {x} == {} {
      assert forall z :: z in keys ==> z == x || z in keys - {x};
      assert IsLeast(keys, x);
    } else {
      LeastExists(keys - {x});
      var y :| IsLeast(keys - {x}, y);
      assert forall z :: z in keys ==> z == x || z in keys - {x};
      assert IsLeast(keys, if x < y then x else y);
    }
  }

  function Begin(keys: set<Key>): (r: Option<Key>)
    ensures r.None? <==> keys == {}
    ensures r.Some? ==> IsLeast(keys, r.value)
  {
    if keys == {} then None
    else
      LeastExists(keys);
      var x :| IsLeast(keys, x);
      Some(x)
  }

  /** The key after this one. */
  function Following(keys: set<Key>, key: Key): (r: Option<Key>)
    ensures r.None? ==> forall y :: y in keys ==> y <= key
    ensures r.Some? ==> r.value in keys && r.value > key && forall y :: y in keys && y > key ==> r.value <= y
  {
    var later := set y | y in keys && y > key;
    assert forall y :: y in keys && y > key ==> y in later;
    Begin(later)
  }

  // ---- The steps on values ----

  function Created(s: State, key: Key, session: nat, proxy: nat): State {
    if key in s.clients && s.clients[key].session == session then s
    else s.(clients := s.clients[key := Client(proxy, session)])
  }

  function Erased(s: State, key: Key): State {
    State(s.clients - {key}, if s.cursor == Some(key) then Following(s.clients.Keys, key) else s.cursor)
  }

  /** After a call for the next client. */
  function Advanced(s: State): State {
    s.(cursor := if s.cursor.Some? then Following(s.clients.Keys, s.cursor.value) else Begin(s.clients.Keys))
  }

  class Root {
    var clients: map<Key, Client>
    var cursor: Option<Key>

    function Now(): State
      reads this
    {
      State(clients, cursor)
    }

    constructor ()
      ensures Now() == State(map[], None)
    {
      clients, cursor := map[], None;
    }

    /** `cookie` and `version` say whether the request's are the agent's; `proxy` names the object made if one is. */
    method CreateClient(key: Key, session: nat, cookie: bool, version: bool, proxy: nat) returns (status: Status)
      modifies this
      ensures status == if key == INVALID_KEY || !cookie then InvalidData else if !version then Incompatible else StatusOk
      ensures Now() == if status == StatusOk then Created(old(Now()), key, session, proxy) else old(Now())
    {
      if key == INVALID_KEY {
        return InvalidData;
      }
      if !cookie {
        return InvalidData;
      }
      if !version {
        return Incompatible;
      }
      if key !in clients {
        clients := clients[key := Client(proxy, session)];
      } else if session != clients[key].session {
        clients := clients[key := Client(proxy, session)];
      }
      return StatusOk;
    }

    method GetClient(key: Key) returns (client: Option<Client>)
      ensures client == if key in clients then Some(clients[key]) else None
    {
      if key in clients {
        return Some(clients[key]);
      }
      return None;
    }

    /** The second, locked half of a deletion; the client found in the first half may be gone or replaced by now. */
    method Erase(key: Key)
      modifies this
      ensures Now() == Erased(old(Now()), key)
    {
      if cursor != None && key == cursor.value {
        cursor := Following(clients.Keys, key);
      }
      clients := clients - {key};
    }

    method DeleteClient(key: Key) returns (status: Status)
      modifies this
      ensures status == if key in old(clients) then StatusOk else UnknownReference
      ensures Now() == if status == StatusOk then Erased(old(Now()), key) else old(Now())
    {
      var client := GetClient(key);
      if client.None? {
        return UnknownReference;
      }
      Erase(key);
      return StatusOk;
    }

    method GetNextClient() returns (next: Option<Client>)
      requires cursor.Some? ==> cursor.value in clients
      modifies this
      ensures next == if old(cursor).Some? then Some(old(clients)[old(cursor).value]) else None
      ensures Now() == Advanced(old(Now()))
    {
      if cursor.Some? {
        next := Some(clients[cursor.value]);
        cursor := Following(clients.Keys, cursor.value);
      } else {
        next := None;
        cursor := Begin(clients.Keys);
      }
    }

    method Reset()
      modifies this
      ensures Now() == State(map[], None)
    {
      clients := map[];
      cursor := Begin(clients.Keys);
    }
  }

  // ---- Runs ----

  /** The locked steps, in any interleaving; a deletion's lookup changes nothing, so only its erasure is a step. */
  datatype Step =
    | Create(key: Key, session: nat, proxy: nat)
    | Delete(key: Key)
    | Next
    | Clear

  function Do(s: State, e: Step): State {
    match e
    case Create(key, session, proxy) => Created(s, key, session, proxy)
    case Delete(key) => Erased(s, key)
    case Next => Advanced(s)
    case Clear => State(map[], None)
  }

  function After(s: State, steps: seq<Step>): State {
    if steps == [] then s else Do(After(s, steps[..|steps| - 1]), steps[|steps| - 1])
  }

  /** The keys of the clients returned by the steps' calls for the next client. */
  function Returned(s: State, steps: seq<Step>): seq<Key> {
    if steps == [] then []
    else
      var before, e := After(s, steps[..|steps| - 1]), steps[|steps| - 1];
      Returned(s, steps[..|steps| - 1]) + (if e.Next? && before.cursor.Some? then [before.cursor.value] else [])
  }

  /** The cursor is at a registered client or at the end. */
  predicate Live(s: State) {
    s.cursor.Some? ==> s.cursor.value in s.clients
  }

  lemma {:induction false} CursorStaysLive(s: State, steps: seq<Step>)
    requires Live(s)
    ensures Live(After(s, steps))
  {
    if steps != [] {
      CursorStaysLive(s, steps[..|steps| - 1]);
    }
  }

  // ---- Who is registered ----

  predicate Concerns(e: Step, key: Key) {
    e.Clear? || ((e.Create? || e.Delete?) && e.key == key)
  }

  /** The last step that concerns this key created it with this session. */
  ghost predicate LastCreated(steps: seq<Step>, key: Key, session: nat) {
    exists k :: 0 <= k < |steps| && CreatedAt(steps, key, session, k)
  }

  predicate CreatedAt(steps: seq<Step>, key: Key, session: nat, k: nat)
    requires k < |steps|
  {
    && steps[k].Create? && steps[k].key == key && steps[k].session == session
    && forall m :: k < m < |steps| ==> !Concerns(steps[m], key)
  }

  lemma LastCreatedOneMore(steps: seq<Step>, e: Step, key: Key, session: nat)
    ensures LastCreated(steps + [e], key, session)
            <==> if Concerns(e, key) then e.Create? && e.session == session else LastCreated(steps, key, session)
  {
    var all, n := steps + [e], |steps|;
    assert all[n] == e;
    if LastCreated(all, key, session) {
      var k :| 0 <= k < |all| && CreatedAt(all, key, session, k);
      if k < n {
        assert forall m :: k < m < n ==> steps[m] == all[m];
        assert CreatedAt(steps, key, session, k);
      }
    }
    if !Concerns(e, key) && LastCreated(steps, key, session) {
      var k :| 0 <= k < n && CreatedAt(steps, key, session, k);
      assert CreatedAt(all, key, session, k);
    }
    if e.Create? && e.key == key && e.session == session {
      assert CreatedAt(all, key, session, n);
    }
  }

  /** In every interleaving: a client is registered with a session exactly if the last thing that happened to its key was its
      creation with that session. */
  lemma {:induction false} RegisteredExactly(steps: seq<Step>, key: Key, session: nat)
    ensures (var s := After(State(map[], None), steps);
             key in s.clients && s.clients[key].session == session <==> LastCreated(steps, key, session))
  {
    hide LastCreated, Following, Begin;
    if steps == [] {
      NoneCreated(key, session);
    } else {
      var n := |steps| - 1;
      RegisteredExactly(steps[..n], key, session);
      assert steps == steps[..n] + [steps[n]];
      LastCreatedOneMore(steps[..n], steps[n], key, session);
    }
  }

  lemma NoneCreated(key: Key, session: nat)
    ensures !LastCreated([], key, session)
  {
  }

  /** A client that comes again with its session keeps its proxy; any other creation makes the client anew, and no step
      touches another client's proxy. */
  lemma ProxyStaysExactly(s: State, e: Step, key: Key)
    requires key in s.clients && key in Do(s, e).clients
    ensures Do(s, e).clients[key]
            == if e.Create? && e.key == key && e.session != s.clients[key].session then Client(e.proxy, e.session) else s.clients[key]
  {
  }

  // ---- One sweep ----

  /** No call in these steps came back empty-handed. */
  predicate NoEnd(s: State, steps: seq<Step>) {
    forall k :: 0 <= k < |steps| && steps[k].Next? ==> After(s, steps[..k]).cursor.Some?
  }

  predicate RegisteredThroughout(s: State, steps: seq<Step>, key: Key) {
    forall k :: 0 <= k <= |steps| ==> key in After(s, steps[..k]).clients
  }

  predicate Increasing(keys: seq<Key>) {
    forall i, j :: 0 <= i < j < |keys| ==> keys[i] < keys[j]
  }

  /** A sweep so far: it came up in key order and is now at the cursor. */
  predicate SweptTo(cursor: Option<Key>, returned: seq<Key>) {
    Increasing(returned) && (cursor.Some? ==> forall i :: 0 <= i < |returned| ==> returned[i] < cursor.value)
  }

  lemma {:induction false} SweepInOrder(s: State, steps: seq<Step>)
    requires Live(s) && NoEnd(s, steps)
    ensures SweptTo(After(s, steps).cursor, Returned(s, steps))
  {
    if steps != [] {
      var n := |steps| - 1;
      StepsBefore(s, steps);
      SweepInOrder(s, steps[..n]);
      CursorStaysLive(s, steps[..n]);
    }
  }

  lemma StepsBefore(s: State, steps: seq<Step>)
    requires steps != []
    ensures NoEnd(s, steps) ==> NoEnd(s, steps[..|steps| - 1])
    ensures forall key :: RegisteredThroughout(s, steps, key) ==> RegisteredThroughout(s, steps[..|steps| - 1], key)
  {
    var n := |steps| - 1;
    forall k | 0 <= k <= n
      ensures steps[..n][..k] == steps[..k]
    {
    }
  }

  /** What was registered all along has been returned exactly if the cursor is past it. */
  lemma {:induction false} SweepMissesNone(s: State, steps: seq<Step>, key: Key)
    requires Live(s) && s.cursor == Begin(s.clients.Keys) && NoEnd(s, steps) && RegisteredThroughout(s, steps, key)
    ensures key in Returned(s, steps) <==> (After(s, steps).cursor.Some? ==> key < After(s, steps).cursor.value)
  {
    hide Begin, Following;
    if steps == [] {
      assert steps[..0] == [];
    } else {
      var n := |steps| - 1;
      StepsBefore(s, steps);
      SweepMissesNone(s, steps[..n], key);
      CursorStaysLive(s, steps[..n]);
      SweepInOrder(s, steps[..n]);
      assert key in After(s, steps[..n]).clients && key in After(s, steps[..n + 1]).clients;
      assert steps[..n + 1] == steps;
    }
  }

  function Count(keys: seq<Key>, key: Key): nat {
    if keys == [] then 0 else Count(keys[..|keys| - 1], key) + (if keys[|keys| - 1] == key then 1 else 0)
  }

  lemma {:induction false} IncreasingCount(keys: seq<Key>, key: Key)
    requires Increasing(keys)
    ensures Count(keys, key) == if key in keys then 1 else 0
  {
    if keys != [] {
      IncreasingCount(keys[..|keys| - 1], key);
    }
  }

  /** Between two calls that come back empty-handed, whatever is created and deleted meanwhile: the clients come in key
      order, none twice, and each one registered all along comes exactly once. */
  lemma SweepReturnsEachOnce(s: State, steps: seq<Step>, key: Key)
    requires Live(s) && s.cursor.None?
    requires NoEnd(Advanced(s), steps) && After(Advanced(s), steps).cursor.None?
    ensures Increasing(Returned(Advanced(s), steps))
    ensures Count(Returned(Advanced(s), steps), key) <= 1
    ensures RegisteredThroughout(Advanced(s), steps, key) ==> Count(Returned(Advanced(s), steps), key) == 1
  {
    SweepInOrder(Advanced(s), steps);
    IncreasingCount(Returned(Advanced(s), steps), key);
    if RegisteredThroughout(Advanced(s), steps, key) {
      SweepMissesNone(Advanced(s), steps, key);
    }
  }

  function Calls(n: nat): seq<Step> {
    seq(n, _ => Next)
  }

  /** The clients the sweep has still to come to. */
  function Ahead(s: State): set<Key> {
    set k | k in s.clients && s.cursor.Some? && k >= s.cursor.value
  }

  lemma OneLessAhead(s: State)
    requires Live(s) && s.cursor.Some?
    ensures Ahead(s) == Ahead(Advanced(s)) + {s.cursor.value} && s.cursor.value !in Ahead(Advanced(s))
    ensures Live(Advanced(s))
  {
  }

  /** Left alone, a sweep comes to its end: each call takes the cursor past one more client. */
  lemma {:induction false} SweepEnds(s: State, n: nat)
    requires Live(s) && n == |Ahead(s)|
    ensures After(s, Calls(n)).cursor.None? && NoEnd(s, Calls(n))
    decreases n
  {
    hide Advanced, NoEnd;
    if s.cursor.None? {
      assert Ahead(s) == {};
      NothingCalled(s);
    } else {
      OneLessAhead(s);
      hide Ahead, After;
      SweepEnds(Advanced(s), n - 1);
      assert Calls(n) == [Next] + Calls(n - 1);
      OneCallThen(s, Calls(n - 1));
    }
  }

  lemma NothingCalled(s: State)
    ensures After(s, Calls(0)) == s && NoEnd(s, Calls(0))
  {
  }

  lemma {:induction false} AfterOneThen(s: State, e: Step, steps: seq<Step>)
    ensures After(s, [e] + steps) == After(Do(s, e), steps)
  {
    if steps == [] {
      assert [e] + steps == [e] && [e][..0] == [];
    } else {
      AfterOneThen(s, e, steps[..|steps| - 1]);
      assert ([e] + steps)[..|steps|] == [e] + steps[..|steps| - 1];
    }
  }

  lemma OneCallThen(s: State, steps: seq<Step>)
    requires s.cursor.Some? && NoEnd(Advanced(s), steps)
    ensures After(s, [Next] + steps) == After(Advanced(s), steps) && NoEnd(s, [Next] + steps)
  {
    AfterOneThen(s, Next, steps);
    var all := [Next] + steps;
    forall k | 0 <= k < |all| && all[k].Next?
      ensures After(s, all[..k]).cursor.Some?
    {
      if k > 0 {
        assert all[..k] == [Next] + steps[..k - 1];
        AfterOneThen(s, Next, steps[..k - 1]);
      }
    }
  }
}
