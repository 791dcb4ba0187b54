/** One PX4 command at a time: the queue of `DroneAgent` (`src/drone_core/src/drone_core/drone_agent.cpp`). */
module CommandQueue {
  import opened Planar

  const NO_REPLY := 255

  /** A callback of the caller, or the empty one. */
  datatype Callback = Nothing | User(id: nat)

  datatype Ack = Ack(command: int, replied: bool, result: int, param1: int, param2: int, effectSeen: bool)

  datatype Reply = Reply(command: int, result: int, param1: int, param2: int)

  /** `notify`: the callback also hears that no reply came. */
  datatype Pending = Pending(command: int, callback: Callback, notify: bool, ack: Option<nat>)

  /** One callback run, on behalf of the command sent as number `number`. */
  datatype Call =
    | ResultCall(number: nat, to: nat, result: int)
    | AckCall(number: nat, to: nat, ack: Ack)

  /** What the caller's callbacks submit when they run. */
  type Reaction = Call -> seq<Pending>

  /** How a sent command ended; `effect` is 1 when the vehicle status shows what the command asked for. */
  datatype Outcome = Answered(reply: Reply) | Missed(effect: int)

  /** `requests` holds the commands sent, number k at index k - 1; `arrived` the submitted ones in order. */
  datatype State = State(queue: seq<Pending>, inFlight: bool, requests: seq<Pending>,
                         onTimeout: Callback, onTimeoutAck: Option<nat>, onTimeoutPlain: Callback,
                         sent: nat, acked: nat, noAck: nat, noAckEffect: nat,
                         arrived: seq<Pending>, outcomes: seq<Outcome>, calls: seq<Call>)

  datatype Event =
    | Submit(p: Pending)
    | ReplyArrives(number: nat, reply: Reply, react: Reaction)
    | TimerFires(number: nat, effect: int, react: Reaction)

  const Start := State([], false, [], Nothing, None, Nothing, 0, 0, 0, 0, [], [], [])

  // ---- The steps on values ----

  function SendNext(s: State): State {
    if s.queue == [] then s.(inFlight := false)
    else
      var p := s.queue[0];
      s.(queue := s.queue[1..], inFlight := true, requests := s.requests + [p],
         onTimeout := if p.notify then p.callback else Nothing,
         onTimeoutAck := p.ack,
         onTimeoutPlain := if p.notify then Nothing else p.callback,
         sent := s.sent + 1)
  }

  function Enqueue(s: State, p: Pending): State {
    var t := s.(queue := s.queue + [p], arrived := s.arrived + [p]);
    if t.inFlight then t else SendNext(t)
  }

  function EnqueueAll(s: State, ps: seq<Pending>): State {
    if ps == [] then s else Enqueue(EnqueueAll(s, ps[..|ps| - 1]), ps[|ps| - 1])
  }

  function Invoke(s: State, call: Call, react: Reaction): State {
    EnqueueAll(s.(calls := s.calls + [call]), react(call))
  }

  function InvokeResult(s: State, number: nat, to: Callback, result: int, react: Reaction): State {
    if to.Nothing? then s else Invoke(s, ResultCall(number, to.id, result), react)
  }

  function InvokeAck(s: State, number: nat, to: Option<nat>, ack: Ack, react: Reaction): State {
    if to.None? then s else Invoke(s, AckCall(number, to.value, ack), react)
  }

  function Finish(s: State, number: nat): State {
    if number != |s.requests| || !s.inFlight then s else SendNext(s.(inFlight := false))
  }

  function Disarmed(s: State): State {
    s.(onTimeout := Nothing, onTimeoutAck := None, onTimeoutPlain := Nothing)
  }

  function AckOf(p: Pending, o: Outcome): Ack {
    match o
    case Answered(r) => Ack(p.command, r.command == p.command, r.result, r.param1, r.param2, false)
    case Missed(effect) => Ack(p.command, false, NO_REPLY, 0, 0, effect == 1)
  }

  function OnReply(s: State, number: nat, reply: Reply, react: Reaction): State {
    if number != |s.requests| || !s.inFlight || s.requests == [] then s
    else
      var p := s.requests[number - 1];
      var a := Disarmed(s).(acked := s.acked + 1, outcomes := s.outcomes + [Answered(reply)]);
      var b := InvokeResult(a, number, p.callback, reply.result, react);
      var c := InvokeAck(b, number, p.ack, AckOf(p, Answered(reply)), react);
      Finish(c, number)
  }

  /** The callbacks a timeout owes, after the next command went out. */
  function TimeoutCallbacks(s: State, number: nat, cb: Callback, pcb: Callback, acb: Option<nat>, effect: int, ack: Ack,
                            react: Reaction): State {
    var b := InvokeResult(s, number, cb, if effect == 1 then 0 else NO_REPLY, react);
    var c := if effect == 1 then InvokeResult(b, number, pcb, 0, react) else b;
    InvokeAck(c, number, acb, ack, react)
  }

  function OnTimer(s: State, number: nat, effect: int, react: Reaction): State {
    if number != |s.requests| || !s.inFlight || s.requests == [] then s
    else
      var p := s.requests[number - 1];
      var a := Finish(Disarmed(s).(noAck := s.noAck + 1, noAckEffect := s.noAckEffect + (if effect == 1 then 1 else 0),
                                   outcomes := s.outcomes + [Missed(effect)]), number);
      TimeoutCallbacks(a, number, s.onTimeout, s.onTimeoutPlain, s.onTimeoutAck, effect, AckOf(p, Missed(effect)), react)
  }

  function Step(s: State, e: Event): State {
    match e
    case Submit(p) => Enqueue(s, p)
    case ReplyArrives(number, reply, react) => OnReply(s, number, reply, react)
    case TimerFires(number, effect, react) => OnTimer(s, number, effect, react)
  }

  function Run(events: seq<Event>): State {
    if events == [] then Start else Step(Run(events[..|events| - 1]), events[|events| - 1])
  }

  // ---- The agent ----

  class DroneAgent {
    var queue: seq<Pending>
    var inFlight: bool
    /** What each request's reply handler captured; `command_seq_` is its length. */
    var handlers: seq<Pending>
    var onTimeout: Callback
    var onTimeoutAck: Option<nat>
    var onTimeoutPlain: Callback
    var sent: nat
    var acked: nat
    var noAck: nat
    var noAckEffect: nat
    ghost var arrived: seq<Pending>
    ghost var outcomes: seq<Outcome>
    ghost var calls: seq<Call>

    ghost function Now(): State
      reads this
    {
      State(queue, inFlight, handlers, onTimeout, onTimeoutAck, onTimeoutPlain, sent, acked, noAck, noAckEffect,
            arrived, outcomes, calls)
    }

    constructor ()
      ensures Now() == Start
    {
      queue, inFlight, handlers := [], false, [];
      onTimeout, onTimeoutAck, onTimeoutPlain := Nothing, None, Nothing;
      sent, acked, noAck, noAckEffect := 0, 0, 0, 0;
      arrived, outcomes, calls := [], [], [];
    }

    method SendVehicleCommand(command: int, callback: Callback)
      modifies this
      ensures Now() == Enqueue(old(Now()), Pending(command, callback, false, None))
    {
      Push(Pending(command, callback, false, None));
    }

    method SendVehicleCommandFull(command: int, callback: Callback)
      modifies this
      ensures Now() == Enqueue(old(Now()), Pending(command, callback, true, None))
    {
      Push(Pending(command, callback, true, None));
    }

    method SendCommand(command: int, ack: Option<nat>)
      modifies this
      ensures Now() == Enqueue(old(Now()), Pending(command, Nothing, false, ack))
    {
      Push(Pending(command, Nothing, false, ack));
    }

    method Push(p: Pending)
      modifies this
      ensures Now() == Enqueue(old(Now()), p)
    {
      queue := queue + [p];
      arrived := arrived + [p];
      if !inFlight {
        SendNextCommand();
      }
    }

    method SendNextCommand()
      modifies this
      ensures Now() == SendNext(old(Now()))
    {
      if queue == [] {
        inFlight := false;
        return;
      }
      var next := queue[0];
      queue := queue[1..];
      inFlight := true;
      handlers := handlers + [next];
      onTimeout := if next.notify then next.callback else Nothing;
      onTimeoutAck := next.ack;
      onTimeoutPlain := if next.notify then Nothing else next.callback;
      sent := sent + 1;
    }

    method FinishCommand(number: nat)
      modifies this
      ensures Now() == Finish(old(Now()), number)
    {
      if number != |handlers| || !inFlight {
        return;
      }
      inFlight := false;
      SendNextCommand();
    }

    /** Runs a callback of the caller, which may submit more commands. */
    method Callback(call: Call, react: Reaction)
      modifies this
      ensures Now() == Invoke(old(Now()), call, react)
    {
      calls := calls + [call];
      var submitted := react(call);
      ghost var before := Now();
      for i := 0 to |submitted|
        invariant Now() == EnqueueAll(before, submitted[..i])
      {
        assert submitted[..i + 1][..i] == submitted[..i];
        Push(submitted[i]);
      }
      assert submitted[..|submitted|] == submitted;
    }

    method ResultCallback(number: nat, to: Callback, result: int, react: Reaction)
      modifies this
      ensures Now() == InvokeResult(old(Now()), number, to, result, react)
    {
      if to.User? {
        Callback(ResultCall(number, to.id, result), react);
      }
    }

    method AckCallback(number: nat, to: Option<nat>, ack: Ack, react: Reaction)
      modifies this
      ensures Now() == InvokeAck(old(Now()), number, to, ack, react)
    {
      if to.Some? {
        Callback(AckCall(number, to.value, ack), react);
      }
    }

    /** PX4's reply to the request with this number. */
    method ReplyArrived(number: nat, reply: Reply, react: Reaction)
      requires 1 <= number <= |handlers|
      modifies this
      ensures Now() == OnReply(old(Now()), number, reply, react)
    {
      hide InvokeResult, InvokeAck, Finish;
      var p := handlers[number - 1];
      if number != |handlers| || !inFlight {
        return;
      }
      onTimeout, onTimeoutAck, onTimeoutPlain := Nothing, None, Nothing;
      acked := acked + 1;
      outcomes := outcomes + [Answered(reply)];
      var ack := Ack(p.command, true, reply.result, reply.param1, reply.param2, false);
      if reply.command != p.command {
        ack := ack.(replied := false);
      }
      ResultCallback(number, p.callback, reply.result, react);
      AckCallback(number, p.ack, ack, react);
      FinishCommand(number);
    }

    /** The reply timer of the request with this number; `effect` is what the vehicle status shows. */
    method TimerFired(number: nat, effect: int, react: Reaction)
      requires 1 <= number <= |handlers|
      modifies this
      ensures Now() == OnTimer(old(Now()), number, effect, react)
    {
      hide TimeoutCallbacks, Finish;
      var command := handlers[number - 1].command;
      if number != |handlers| || !inFlight {
        return;
      }
      var cb, acb, pcb := onTimeout, onTimeoutAck, onTimeoutPlain;
      onTimeout, onTimeoutAck, onTimeoutPlain := Nothing, None, Nothing;
      noAck := noAck + 1;
      if effect == 1 {
        noAckEffect := noAckEffect + 1;
      }
      outcomes := outcomes + [Missed(effect)];
      FinishCommand(number);
      RunTimeoutCallbacks(number, cb, pcb, acb, effect, Ack(command, false, NO_REPLY, 0, 0, effect == 1), react);
    }

    method RunTimeoutCallbacks(number: nat, cb: Callback, pcb: Callback, acb: Option<nat>, effect: int, ack: Ack, react: Reaction)
      modifies this
      ensures Now() == TimeoutCallbacks(old(Now()), number, cb, pcb, acb, effect, ack, react)
    {
      hide InvokeResult, InvokeAck;
      if effect == 1 {
        ResultCallback(number, cb, 0, react);
        ResultCallback(number, pcb, 0, react);
      } else {
        ResultCallback(number, cb, NO_REPLY, react);
      }
      AckCallback(number, acb, ack, react);
    }
  }

  // ---- What every run keeps ----

  function Bit(b: bool): (r: nat)
    ensures r == 1 <==> b
  {
    if b then 1 else 0
  }

  /** Does the caller's plain callback hear of this outcome? */
  predicate Hears(p: Pending, o: Outcome) {
    p.callback.User? && (o.Answered? || p.notify || o.effect == 1)
  }

  function Heard(o: Outcome): int {
    match o
    case Answered(r) => r.result
    case Missed(effect) => if effect == 1 then 0 else NO_REPLY
  }

  /** The callbacks a command's end calls for. */
  function CallsFor(number: nat, p: Pending, o: Outcome): seq<Call> {
    (if Hears(p, o) then [ResultCall(number, p.callback.id, Heard(o))] else [])
    + (if p.ack.Some? then [AckCall(number, p.ack.value, AckOf(p, o))] else [])
  }

  /** The callbacks due for the first commands, one after the other. */
  function Due(requests: seq<Pending>, outcomes: seq<Outcome>): seq<Call>
    requires |outcomes| <= |requests|
  {
    if outcomes == [] then []
    else
      var n := |outcomes|;
      Due(requests, outcomes[..n - 1]) + CallsFor(n, requests[n - 1], outcomes[n - 1])
  }

  function Answers(outcomes: seq<Outcome>): (r: nat)
    ensures r <= |outcomes|
  {
    if outcomes == [] then 0 else Answers(outcomes[..|outcomes| - 1]) + Bit(outcomes[|outcomes| - 1].Answered?)
  }

  function EffectsSeen(outcomes: seq<Outcome>): nat {
    if outcomes == [] then 0
    else EffectsSeen(outcomes[..|outcomes| - 1]) + Bit(outcomes[|outcomes| - 1] == Missed(1))
  }

  /** The queue's bookkeeping, which also holds between two callbacks. */
  predicate Flow(s: State) {
    && s.arrived == s.requests + s.queue
    && s.sent == |s.requests|
    && (!s.inFlight ==> s.queue == [])
    && (s.inFlight ==> s.requests != [])
  }

  /** The in-flight command's callbacks stand ready for its timeout. */
  predicate Armed(s: State) {
    s.inFlight && s.requests != [] ==>
      var p := s.requests[|s.requests| - 1];
      s.onTimeout == (if p.notify then p.callback else Nothing)
      && s.onTimeoutPlain == (if p.notify then Nothing else p.callback)
      && s.onTimeoutAck == p.ack
  }

  /** Every command sent has ended, but for the one in flight; the statistics and the callbacks say so. */
  predicate Settled(s: State) {
    && |s.requests| == |s.outcomes| + Bit(s.inFlight)
    && s.acked == Answers(s.outcomes)
    && s.acked + s.noAck == |s.outcomes| && s.noAckEffect == EffectsSeen(s.outcomes)
    && s.calls == Due(s.requests, s.outcomes)
  }

  predicate Inv(s: State) {
    Flow(s) && Armed(s) && Settled(s)
  }

  /** `t` is `s` after callers submitted more. */
  predicate Grown(s: State, t: State) {
    && s.requests <= t.requests && s.arrived <= t.arrived
    && |t.requests| - Bit(t.inFlight) == |s.requests| - Bit(s.inFlight)
    && t.outcomes == s.outcomes && t.calls == s.calls && t.acked == s.acked && t.noAck == s.noAck
    && t.noAckEffect == s.noAckEffect
  }

  lemma EnqueueGrows(s: State, p: Pending)
    requires Flow(s) && Armed(s)
    ensures Flow(Enqueue(s, p)) && Armed(Enqueue(s, p)) && Grown(s, Enqueue(s, p))
  {
  }

  lemma {:induction false} EnqueueAllGrows(s: State, ps: seq<Pending>)
    requires Flow(s) && Armed(s)
    ensures Flow(EnqueueAll(s, ps)) && Armed(EnqueueAll(s, ps)) && Grown(s, EnqueueAll(s, ps))
  {
    if ps != [] {
      EnqueueAllGrows(s, ps[..|ps| - 1]);
      EnqueueGrows(EnqueueAll(s, ps[..|ps| - 1]), ps[|ps| - 1]);
    }
  }

  /** While a command is in flight, submitting only queues. */
  lemma {:induction false} EnqueueAllQueues(s: State, ps: seq<Pending>)
    requires s.inFlight
    ensures EnqueueAll(s, ps) == s.(queue := s.queue + ps, arrived := s.arrived + ps)
  {
    if ps == [] {
      assert s.queue + ps == s.queue && s.arrived + ps == s.arrived;
    } else {
      var k := |ps| - 1;
      EnqueueAllQueues(s, ps[..k]);
      assert ps == ps[..k] + [ps[k]];
      assert (s.queue + ps[..k]) + [ps[k]] == s.queue + ps;
      assert (s.arrived + ps[..k]) + [ps[k]] == s.arrived + ps;
    }
  }

  lemma {:induction false} DuePrefix(requests: seq<Pending>, more: seq<Pending>, outcomes: seq<Outcome>)
    requires requests <= more && |outcomes| <= |requests|
    ensures Due(requests, outcomes) == Due(more, outcomes)
  {
    if outcomes != [] {
      DuePrefix(requests, more, outcomes[..|outcomes| - 1]);
    }
  }

  lemma SendNextFlows(s: State)
    requires s.arrived == s.requests + s.queue && s.sent == |s.requests| && !s.inFlight
    ensures Flow(SendNext(s)) && Armed(SendNext(s)) && Grown(s, SendNext(s))
  {
  }

  lemma ReplyKeepsInv(s: State, number: nat, reply: Reply, react: Reaction)
    requires Inv(s)
    ensures Inv(OnReply(s, number, reply, react))
  {
    hide SendNext, Due, Finish, InvokeResult, InvokeAck;
    if number == |s.requests| && s.inFlight {
      ReplyEndsCommand(s, number, reply, react);
      DueGrows(s, Answered(reply), OnReply(s, number, reply, react));
    }
  }

  /** The reply to the command in flight: its callbacks have run, and the next command went out after them. */
  lemma ReplyEndsCommand(s: State, number: nat, reply: Reply, react: Reaction)
    requires Inv(s) && number == |s.requests| && s.inFlight
    ensures (var t, o := OnReply(s, number, reply, react), Answered(reply);
             && Flow(t) && Armed(t)
             && s.requests <= t.requests && |t.requests| - Bit(t.inFlight) == number
             && t.outcomes == s.outcomes + [o] && t.acked == s.acked + 1 && t.noAck == s.noAck && t.noAckEffect == s.noAckEffect
             && t.calls == s.calls + CallsFor(number, s.requests[number - 1], o))
  {
    hide SendNext, Due;
    var p, o := s.requests[number - 1], Answered(reply);
    var a := Disarmed(s).(acked := s.acked + 1, outcomes := s.outcomes + [o]);
    var b := InvokeResult(a, number, p.callback, reply.result, react);
    QuietInvokeResult(a, number, p.callback, reply.result, react);
    var c := InvokeAck(b, number, p.ack, AckOf(p, o), react);
    QuietInvokeAck(b, number, p.ack, AckOf(p, o), react);
    SendNextFlows(c.(inFlight := false));
    assert c.calls == s.calls + CallsFor(number, p, o);
  }

  /** A callback that runs while its command is in flight only queues what it submits. */
  lemma QuietInvoke(s: State, call: Call, react: Reaction)
    requires s.inFlight && s.arrived == s.requests + s.queue
    ensures (var t := Invoke(s, call, react);
             t == s.(queue := t.queue, arrived := t.arrived, calls := s.calls + [call]) && t.arrived == t.requests + t.queue)
  {
    EnqueueAllQueues(s.(calls := s.calls + [call]), react(call));
    assert (s.requests + s.queue) + react(call) == s.requests + (s.queue + react(call));
  }

  lemma QuietInvokeResult(s: State, number: nat, to: Callback, result: int, react: Reaction)
    requires s.inFlight && s.arrived == s.requests + s.queue
    ensures (var t := InvokeResult(s, number, to, result, react);
             && t == s.(queue := t.queue, arrived := t.arrived,
                        calls := s.calls + (if to.User? then [ResultCall(number, to.id, result)] else []))
             && t.arrived == t.requests + t.queue)
  {
    if to.User? {
      QuietInvoke(s, ResultCall(number, to.id, result), react);
    }
  }

  lemma QuietInvokeAck(s: State, number: nat, to: Option<nat>, ack: Ack, react: Reaction)
    requires s.inFlight && s.arrived == s.requests + s.queue
    ensures (var t := InvokeAck(s, number, to, ack, react);
             && t == s.(queue := t.queue, arrived := t.arrived,
                        calls := s.calls + (if to.Some? then [AckCall(number, to.value, ack)] else []))
             && t.arrived == t.requests + t.queue)
  {
    if to.Some? {
      QuietInvoke(s, AckCall(number, to.value, ack), react);
    }
  }

  /** One more ended command adds its callbacks to those due. */
  lemma DueGrows(s: State, o: Outcome, t: State)
    requires Inv(s) && s.inFlight && s.requests <= t.requests && t.outcomes == s.outcomes + [o]
    ensures Due(t.requests, t.outcomes) == s.calls + CallsFor(|s.requests|, s.requests[|s.requests| - 1], o)
    ensures Answers(t.outcomes) == s.acked + Bit(o.Answered?)
    ensures EffectsSeen(t.outcomes) == s.noAckEffect + Bit(o == Missed(1))
  {
    assert t.outcomes[..|s.outcomes|] == s.outcomes;
    DuePrefix(s.requests, t.requests, s.outcomes);
  }

  /** Command `number` has missed its reply, the next one may be out, and these are the callbacks run so far. */
  predicate TimedOut(s: State, o: Outcome, calls: seq<Call>, t: State) {
    && Flow(t) && Armed(t)
    && s.requests <= t.requests && |t.requests| - Bit(t.inFlight) == |s.requests|
    && t.outcomes == s.outcomes + [o] && t.acked == s.acked && t.noAck == s.noAck + 1
    && t.noAckEffect == s.noAckEffect + Bit(o == Missed(1)) && t.calls == calls
  }

  /** Callbacks that run after the next command went out: one more call each, and the queue keeps its books. */
  lemma LoudInvokeResult(s: State, o: Outcome, calls: seq<Call>, t: State, number: nat, to: Callback, result: int, react: Reaction)
    requires TimedOut(s, o, calls, t)
    ensures TimedOut(s, o, calls + (if to.User? then [ResultCall(number, to.id, result)] else []),
                     InvokeResult(t, number, to, result, react))
  {
    if to.User? {
      EnqueueAllGrows(t.(calls := t.calls + [ResultCall(number, to.id, result)]), react(ResultCall(number, to.id, result)));
    }
  }

  lemma LoudInvokeAck(s: State, o: Outcome, calls: seq<Call>, t: State, number: nat, to: Option<nat>, ack: Ack, react: Reaction)
    requires TimedOut(s, o, calls, t)
    ensures TimedOut(s, o, calls + (if to.Some? then [AckCall(number, to.value, ack)] else []),
                     InvokeAck(t, number, to, ack, react))
  {
    if to.Some? {
      EnqueueAllGrows(t.(calls := t.calls + [AckCall(number, to.value, ack)]), react(AckCall(number, to.value, ack)));
    }
  }

  lemma TimedOutSettles(s: State, o: Outcome, t: State)
    requires Inv(s) && s.inFlight && o.Missed?
    requires TimedOut(s, o, s.calls + CallsFor(|s.requests|, s.requests[|s.requests| - 1], o), t)
    ensures Inv(t)
  {
    DueGrows(s, o, t);
  }

  lemma TimerKeepsInv(s: State, number: nat, effect: int, react: Reaction)
    requires Inv(s)
    ensures Inv(OnTimer(s, number, effect, react))
  {
    hide Inv, TimedOut, TimeoutCallbacks;
    if number == |s.requests| && s.inFlight && s.requests != [] {
      TimerEndsCommand(s, number, effect, react);
      TimedOutSettles(s, Missed(effect), OnTimer(s, number, effect, react));
    }
  }

  /** The timer of the command in flight: it ends, and the callbacks it is owed have run. */
  lemma TimerEndsCommand(s: State, number: nat, effect: int, react: Reaction)
    requires Inv(s) && number == |s.requests| && s.inFlight && s.requests != []
    ensures (var o := Missed(effect);
             TimedOut(s, o, s.calls + CallsFor(number, s.requests[number - 1], o), OnTimer(s, number, effect, react)))
  {
    hide SendNext, Inv, InvokeResult, InvokeAck, TimedOut;
    var p, o := s.requests[number - 1], Missed(effect);
    var a := NextSent(s, effect);
    CallbacksStandReady(s);
    var code := if effect == 1 then 0 else NO_REPLY;
    LoudInvokeResult(s, o, s.calls, a, number, s.onTimeout, code, react);
    var b := InvokeResult(a, number, s.onTimeout, code, react);
    var calls := s.calls + (if s.onTimeout.User? then [ResultCall(number, s.onTimeout.id, code)] else []);
    LoudInvokeResult(s, o, calls, b, number, s.onTimeoutPlain, 0, react);
    var c := if effect == 1 then InvokeResult(b, number, s.onTimeoutPlain, 0, react) else b;
    var calls' := s.calls + (if Hears(p, o) then [ResultCall(number, p.callback.id, Heard(o))] else []);
    assert calls' == if effect == 1 then calls + (if s.onTimeoutPlain.User? then [ResultCall(number, s.onTimeoutPlain.id, 0)] else [])
                     else calls;
    LoudInvokeAck(s, o, calls', c, number, s.onTimeoutAck, AckOf(p, o), react);
    assert calls' + (if p.ack.Some? then [AckCall(number, p.ack.value, AckOf(p, o))] else [])
        == s.calls + CallsFor(number, p, o);
  }

  lemma CallbacksStandReady(s: State)
    requires Inv(s) && s.inFlight && s.requests != []
    ensures (var p := s.requests[|s.requests| - 1];
             s.onTimeout == (if p.notify then p.callback else Nothing)
             && s.onTimeoutPlain == (if p.notify then Nothing else p.callback)
             && s.onTimeoutAck == p.ack)
  {
  }

  /** The timeout's first half: the command ends, and the next one goes out before any callback runs. */
  lemma NextSent(s: State, effect: int) returns (a: State)
    requires Inv(s) && s.inFlight && s.requests != []
    ensures a == Finish(Disarmed(s).(noAck := s.noAck + 1, noAckEffect := s.noAckEffect + (if effect == 1 then 1 else 0),
                                     outcomes := s.outcomes + [Missed(effect)]), |s.requests|)
    ensures TimedOut(s, Missed(effect), s.calls, a)
  {
    var z := Disarmed(s).(noAck := s.noAck + 1, noAckEffect := s.noAckEffect + (if effect == 1 then 1 else 0),
                          outcomes := s.outcomes + [Missed(effect)]);
    SendNextFlows(z.(inFlight := false));
    a := Finish(z, |s.requests|);
  }

  lemma StepKeepsInv(s: State, e: Event)
    requires Inv(s)
    ensures Inv(Step(s, e))
  {
    hide Inv, OnReply, OnTimer, Enqueue;
    match e
    case Submit(p) =>
      SubmitKeepsInv(s, p);
    case ReplyArrives(number, reply, react) =>
      ReplyKeepsInv(s, number, reply, react);
    case TimerFires(number, effect, react) =>
      TimerKeepsInv(s, number, effect, react);
  }

  lemma SubmitKeepsInv(s: State, p: Pending)
    requires Inv(s)
    ensures Inv(Enqueue(s, p))
  {
    EnqueueGrows(s, p);
    DuePrefix(s.requests, Enqueue(s, p).requests, s.outcomes);
  }

  lemma {:induction false} RunKeepsInv(events: seq<Event>)
    ensures Inv(Run(events))
  {
    hide Inv, Step;
    if events == [] {
      StartsSettled();
    } else {
      RunKeepsInv(events[..|events| - 1]);
      StepKeepsInv(Run(events[..|events| - 1]), events[|events| - 1]);
    }
  }

  lemma StartsSettled()
    ensures Inv(Start)
  {
  }

  /** Commands go out in the order they were submitted, none lost or repeated; nothing waits while none is in
      flight; and what was sent is what was answered, what was not, and the one in flight. */
  lemma CommandsGoOutInOrder(events: seq<Event>)
    ensures (var s := Run(events);
             && s.arrived == s.requests + s.queue
             && (s.queue != [] ==> s.inFlight)
             && s.sent == s.acked + s.noAck + Bit(s.inFlight)
             && s.acked == Answers(s.outcomes) && s.noAckEffect == EffectsSeen(s.outcomes))
  {
    RunKeepsInv(events);
  }

  /** A reply or a timer of a command that has ended changes nothing, whatever is in flight by then. */
  lemma LateReplyIsIgnored(events: seq<Event>, number: nat, reply: Reply, effect: int, react: Reaction)
    requires number <= |Run(events).outcomes|
    ensures Step(Run(events), ReplyArrives(number, reply, react)) == Run(events)
    ensures Step(Run(events), TimerFires(number, effect, react)) == Run(events)
  {
    hide Run, Armed, InvokeResult, InvokeAck, Finish;
    RunKeepsInv(events);
  }

  // ---- What each command's callbacks were told ----

  /** The calls made on behalf of one command. */
  function CallsOf(calls: seq<Call>, number: nat): seq<Call> {
    if calls == [] then []
    else CallsOf(calls[..|calls| - 1], number) + (if calls[|calls| - 1].number == number then [calls[|calls| - 1]] else [])
  }

  lemma {:induction false} CallsOfBoth(xs: seq<Call>, ys: seq<Call>, number: nat)
    ensures CallsOf(xs + ys, number) == CallsOf(xs, number) + CallsOf(ys, number)
  {
    if ys == [] {
      assert xs + ys == xs;
    } else {
      var k := |ys| - 1;
      assert (xs + ys)[..|xs| + k] == xs + ys[..k];
      CallsOfBoth(xs, ys[..k], number);
    }
  }

  lemma {:induction false} CallsOfSame(calls: seq<Call>, n: nat, number: nat)
    requires forall c :: c in calls ==> c.number == n
    ensures CallsOf(calls, number) == if n == number then calls else []
  {
    if calls != [] {
      CallsOfSame(calls[..|calls| - 1], n, number);
      assert calls == calls[..|calls| - 1] + [calls[|calls| - 1]];
    }
  }

  lemma {:induction false} DueOf(requests: seq<Pending>, outcomes: seq<Outcome>, number: nat)
    requires |outcomes| <= |requests|
    ensures CallsOf(Due(requests, outcomes), number)
            == if 1 <= number <= |outcomes| then CallsFor(number, requests[number - 1], outcomes[number - 1]) else []
  {
    hide CallsFor;
    if outcomes != [] {
      var n := |outcomes|;
      DueOf(requests, outcomes[..n - 1], number);
      CallsOfOneMore(Due(requests, outcomes[..n - 1]), n, requests[n - 1], outcomes[n - 1], number);
      hide CallsOf;
    }
  }

  lemma CallsOfOneMore(calls: seq<Call>, n: nat, p: Pending, o: Outcome, number: nat)
    ensures CallsOf(calls + CallsFor(n, p, o), number) == CallsOf(calls, number) + if n == number then CallsFor(n, p, o) else []
  {
    CallsOfBoth(calls, CallsFor(n, p, o), number);
    CallsForOne(n, p, o);
    CallsOfSame(CallsFor(n, p, o), n, number);
    hide CallsOf, CallsFor;
  }

  lemma CallsForOne(n: nat, p: Pending, o: Outcome)
    ensures forall c :: c in CallsFor(n, p, o) ==> c.number == n
  {
  }

  /** In every run, the calls made for the command submitted as number `number`, in order. None while it waits or is in
      flight. Once answered: its callback with the result, then its ack callback with the reply's fields, `replied` unless
      the reply names another command. Once timed out: its callback only if it asked to hear of timeouts or the effect was
      seen, told of acceptance in the latter case, then its ack callback. Each runs once. */
  lemma CallbacksRunOnce(events: seq<Event>, number: nat)
    requires 1 <= number <= |Run(events).arrived|
    ensures (var s := Run(events);
             var p := s.arrived[number - 1];
             CallsOf(s.calls, number) ==
               if number > |s.outcomes| then []
               else
                 match s.outcomes[number - 1]
                 case Answered(r) =>
                   (if p.callback.User? then [ResultCall(number, p.callback.id, r.result)] else [])
                   + (if p.ack.Some?
                      then [AckCall(number, p.ack.value, Ack(p.command, r.command == p.command, r.result, r.param1, r.param2, false))]
                      else [])
                 case Missed(effect) =>
                   (if p.callback.User? && (p.notify || effect == 1)
                    then [ResultCall(number, p.callback.id, if effect == 1 then 0 else NO_REPLY)] else [])
                   + (if p.ack.Some? then [AckCall(number, p.ack.value, Ack(p.command, false, NO_REPLY, 0, 0, effect == 1))] else []))
  {
    hide Run;
    var s := Run(events);
    RunKeepsInv(events);
    DueOf(s.requests, s.outcomes, number);
    assert number <= |s.outcomes| ==> s.arrived[number - 1] == s.requests[number - 1];
  }

  /** The timer of the command in flight ends that command, and no other, by what the vehicle status shows: the counters say
      so, and the command's callbacks were told acceptance if the effect was seen and no reply if not, the plain one only
      the former. */
  lemma TimerEndsItsCommand(events: seq<Event>, number: nat, effect: int, react: Reaction)
    requires 1 <= number == |Run(events).requests| && Run(events).inFlight
    ensures (var s, t := Run(events), Run(events + [TimerFires(number, effect, react)]);
             var p := s.requests[number - 1];
             && t.outcomes == s.outcomes + [Missed(effect)] && |s.outcomes| == number - 1
             && t.noAck == s.noAck + 1 && t.noAckEffect == s.noAckEffect + (if effect == 1 then 1 else 0)
             && CallsOf(t.calls, number) ==
                  (if p.callback.Nothing? then []
                   else if effect == 1 then [ResultCall(number, p.callback.id, 0)]
                   else if p.notify then [ResultCall(number, p.callback.id, 255)]
                   else [])
                  + (if p.ack.Some? then [AckCall(number, p.ack.value, Ack(p.command, false, 255, 0, 0, effect == 1))] else []))
  {
    hide OnTimer, Due, CallsOf;
    var s, e := Run(events), TimerFires(number, effect, react);
    RunOneMore(events, e);
    RunKeepsInv(events);
    TimerEndsCommand(s, number, effect, react);
    CallbacksRunOnce(events + [e], number);
  }

  lemma RunOneMore(events: seq<Event>, e: Event)
    ensures Run(events + [e]) == Step(Run(events), e)
  {
    hide Step;
    assert (events + [e])[..|events|] == events;
  }

  /** And the reply to it ends that command, and no other, with the callbacks told what the reply says. */
  lemma ReplyEndsItsCommand(events: seq<Event>, number: nat, reply: Reply, react: Reaction)
    requires 1 <= number == |Run(events).requests| && Run(events).inFlight
    ensures (var s, t := Run(events), Run(events + [ReplyArrives(number, reply, react)]);
             var p := s.requests[number - 1];
             && t.outcomes == s.outcomes + [Answered(reply)] && |s.outcomes| == number - 1 && t.acked == s.acked + 1
             && CallsOf(t.calls, number) ==
                  (if p.callback.User? then [ResultCall(number, p.callback.id, reply.result)] else [])
                  + (if p.ack.Some?
                     then [AckCall(number, p.ack.value,
                                   Ack(p.command, reply.command == p.command, reply.result, reply.param1, reply.param2, false))]
                     else []))
  {
    hide OnReply, Due, CallsOf;
    var s, e := Run(events), ReplyArrives(number, reply, react);
    RunOneMore(events, e);
    RunKeepsInv(events);
    ReplyEndsCommand(s, number, reply, react);
    CallbacksRunOnce(events + [e], number);
  }

  // ---- What is submitted arrives ----

  /** What the callbacks submit in these calls, in order. */
  function Submitted(calls: seq<Call>, react: Reaction): seq<Pending> {
    if calls == [] then [] else Submitted(calls[..|calls| - 1], react) + react(calls[|calls| - 1])
  }

  /** From `s` to `t` some callbacks ran, and exactly what they submitted arrived. */
  predicate Fed(s: State, t: State, react: Reaction) {
    s.calls <= t.calls && t.arrived == s.arrived + Submitted(t.calls[|s.calls|..], react)
  }

  lemma {:induction false} EnqueueAllArrives(s: State, ps: seq<Pending>)
    ensures EnqueueAll(s, ps).arrived == s.arrived + ps && EnqueueAll(s, ps).calls == s.calls
  {
    if ps != [] {
      EnqueueAllArrives(s, ps[..|ps| - 1]);
      assert ps == ps[..|ps| - 1] + [ps[|ps| - 1]];
    }
  }

  lemma OneCallMore(before: seq<Call>, calls: seq<Call>, call: Call, react: Reaction)
    requires before <= calls
    ensures Submitted((calls + [call])[|before|..], react) == Submitted(calls[|before|..], react) + react(call)
  {
    var more := calls[|before|..];
    assert (calls + [call])[|before|..] == more + [call];
    assert (more + [call])[..|more|] == more;
  }

  lemma InvokeFeeds(s: State, t: State, call: Call, react: Reaction)
    requires Fed(s, t, react)
    ensures Fed(s, Invoke(t, call, react), react)
  {
    hide Submitted;
    EnqueueAllArrives(t.(calls := t.calls + [call]), react(call));
    OneCallMore(s.calls, t.calls, call, react);
    hide EnqueueAll;
    assert s.arrived + (Submitted(t.calls[|s.calls|..], react) + react(call)) == t.arrived + react(call);
  }

  lemma SameIsFed(s: State, t: State, react: Reaction)
    requires t.calls == s.calls && t.arrived == s.arrived
    ensures Fed(s, t, react)
  {
    assert t.calls[|s.calls|..] == [];
  }

  lemma ReplyFeeds(s: State, number: nat, reply: Reply, react: Reaction)
    ensures Fed(s, OnReply(s, number, reply, react), react)
  {
    hide Invoke, Fed;
    SameIsFed(s, s, react);
    if number == |s.requests| && s.inFlight && s.requests != [] {
      var p := s.requests[number - 1];
      var a := Disarmed(s).(acked := s.acked + 1, outcomes := s.outcomes + [Answered(reply)]);
      SameIsFed(s, a, react);
      if p.callback.User? {
        InvokeFeeds(s, a, ResultCall(number, p.callback.id, reply.result), react);
      }
      var b := InvokeResult(a, number, p.callback, reply.result, react);
      if p.ack.Some? {
        InvokeFeeds(s, b, AckCall(number, p.ack.value, AckOf(p, Answered(reply))), react);
      }
      FinishFeeds(s, InvokeAck(b, number, p.ack, AckOf(p, Answered(reply)), react), number, react);
    }
  }

  lemma FinishFeeds(s: State, t: State, number: nat, react: Reaction)
    requires Fed(s, t, react)
    ensures Fed(s, Finish(t, number), react)
  {
  }

  lemma TimerFeeds(s: State, number: nat, effect: int, react: Reaction)
    ensures Fed(s, OnTimer(s, number, effect, react), react)
  {
    hide Invoke, Fed, Finish;
    SameIsFed(s, s, react);
    if number == |s.requests| && s.inFlight && s.requests != [] {
      var p := s.requests[number - 1];
      var z := Disarmed(s).(noAck := s.noAck + 1, noAckEffect := s.noAckEffect + (if effect == 1 then 1 else 0),
                            outcomes := s.outcomes + [Missed(effect)]);
      SameIsFed(s, z, react);
      FinishFeeds(s, z, number, react);
      var a, code := Finish(z, number), if effect == 1 then 0 else NO_REPLY;
      if s.onTimeout.User? {
        InvokeFeeds(s, a, ResultCall(number, s.onTimeout.id, code), react);
      }
      var b := InvokeResult(a, number, s.onTimeout, code, react);
      if s.onTimeoutPlain.User? {
        InvokeFeeds(s, b, ResultCall(number, s.onTimeoutPlain.id, 0), react);
      }
      var c := if effect == 1 then InvokeResult(b, number, s.onTimeoutPlain, 0, react) else b;
      if s.onTimeoutAck.Some? {
        InvokeFeeds(s, c, AckCall(number, s.onTimeoutAck.value, AckOf(p, Missed(effect))), react);
      }
    }
  }

  /** Every event adds to the submitted commands just what it submits: a submission its command, a reply or a timer what the
      callbacks that it runs submit. */
  lemma SubmittedArrives(events: seq<Event>, e: Event)
    ensures (var s, t := Run(events), Run(events + [e]);
             && (e.Submit? ==> t.arrived == s.arrived + [e.p] && t.calls == s.calls)
             && (!e.Submit? ==> Fed(s, t, e.react)))
  {
    hide OnReply, OnTimer, Fed;
    RunOneMore(events, e);
    match e
    case Submit(p) =>
    case ReplyArrives(number, reply, react) => ReplyFeeds(Run(events), number, reply, react);
    case TimerFires(number, effect, react) => TimerFeeds(Run(events), number, effect, react);
  }

  // ---- The queue drains ----

  function Silence(call: Call): seq<Pending> {
    []
  }

  /** The timers of the commands still to end, in turn. */
  function Timers(first: nat, count: nat): seq<Event> {
    seq(count, i requires 0 <= i < count => TimerFires(first + i, 0, Silence))
  }

  /** Even if PX4 never answers again, one timer after the other ends every command submitted. */
  lemma {:induction false} QueueDrains(events: seq<Event>, count: nat)
    requires count <= |Run(events).arrived| - |Run(events).outcomes|
    ensures (var s, t := Run(events), Run(events + Timers(|Run(events).outcomes| + 1, count));
             t.arrived == s.arrived && |t.outcomes| == |s.outcomes| + count)
    ensures count == |Run(events).arrived| - |Run(events).outcomes| ==>
              !Run(events + Timers(|Run(events).outcomes| + 1, count)).inFlight
  {
    hide Inv, OnTimer;
    var s, first := Run(events), |Run(events).outcomes| + 1;
    var run := events + Timers(first, count);
    if count == 0 {
      assert run == events;
      RunKeepsInv(events);
      EndedMeansIdle(Run(events));
    } else {
      QueueDrains(events, count - 1);
      var before := events + Timers(first, count - 1);
      assert run[..|run| - 1] == before;
      assert run[|run| - 1] == TimerFires(first + count - 1, 0, Silence);
      RunKeepsInv(before);
      SilentTimer(Run(before));
      RunKeepsInv(run);
      EndedMeansIdle(Run(run));
    }
  }

  lemma EndedMeansIdle(s: State)
    requires Inv(s)
    ensures s.inFlight <==> |s.outcomes| < |s.arrived|
  {
  }

  lemma SilentTimer(s: State)
    requires Inv(s) && |s.outcomes| < |s.arrived|
    ensures (var t := OnTimer(s, |s.outcomes| + 1, 0, Silence);
             t.arrived == s.arrived && |t.outcomes| == |s.outcomes| + 1)
  {
  }
}
