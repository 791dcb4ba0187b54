/** The PATROL mode and its executor (`src/drone_patrol/src/patrol_node.cpp`). */
module Patrol {
  import opened Planar

  const RTL := 20
  const LAND := 21

  /** One item of a plan; where it is enters through the distance of each tick. */
  datatype Item = Item(command: int, acceptance: real, hold: real)

  /** `takeoff`: the plan carries a takeoff altitude. */
  datatype Plan = Plan(items: seq<Item>, cruise: real, multiplier: real, startItem: nat, takeoff: bool) {
    /** The number of items is kept in 16 bits. */
    function Total(): nat {
      |items| % 65536
    }

    predicate EndItem(i: nat) {
      i >= Total() || items[i].command == RTL || items[i].command == LAND
    }
  }

  datatype Status = Status(plan: Plan, planValid: bool, current: nat, running: bool, finished: bool, failed: bool)

  datatype Leg = Leg(started: bool, reached: bool, begin: real, reachedAt: real, timeout: real)

  datatype Outcome = Success | ModeFailure | TimedOut | Deactivated | OtherFailure

  /** What the mode sees at a tick: the clock, the local position's validity, the distance to the item's point. */
  datatype Reading = Reading(now: real, valid: bool, dist: real)

  /** What the executor waits for; RTL, landing and Hold report nothing that matters here. */
  datatype Waiting = Nothing | Takeoff | Patrolling

  // ---- The steps on values ----

  function Failed(p: Status): Status {
    p.(failed := true, running := false)
  }

  function Radius(item: Item): real {
    if item.acceptance > 0.0 then item.acceptance else 2.0
  }

  function Multiplier(plan: Plan): (r: real)
    ensures r > 0.0
  {
    if plan.multiplier > 0.0 then plan.multiplier else 2.0
  }

  /** The time a leg should take. */
  function Expected(plan: Plan, dist: real): real {
    var cruise := if plan.cruise > 0.1 then plan.cruise else 5.0;
    var expected := if dist / cruise + 10.0 < 300.0 then dist / cruise + 10.0 else 300.0;
    if expected > 5.0 then expected else 5.0
  }

  function LegTimeout(plan: Plan, dist: real): real {
    Expected(plan, dist) * Multiplier(plan)
  }

  /** The leg a tick works on: the one under way, or a new one. */
  function LegAt(plan: Plan, m: Leg, t: Reading): Leg {
    if m.started then m else Leg(true, false, t.now, m.reachedAt, LegTimeout(plan, t.dist))
  }

  function Arriving(item: Item, m: Leg, t: Reading): Leg {
    if !m.reached && t.dist <= Radius(item) then m.(reached := true, reachedAt := t.now) else m
  }

  /** Does a tick fly towards the current item? */
  predicate Flies(p: Status, t: Reading) {
    p.planValid && !p.failed && !p.finished && !p.plan.EndItem(p.current) && t.valid
  }

  function Tick(p: Status, m: Leg, t: Reading): (Status, Leg, Option<Outcome>) {
    if !p.planValid then (Failed(p), m, Some(ModeFailure))
    else if p.failed || p.finished then (p, m, Some(ModeFailure))
    else if p.plan.EndItem(p.current) then (p, m, Some(Success))
    else if !t.valid then (Failed(p), m, Some(ModeFailure))
    else
      var item := p.plan.items[p.current];
      var leg := Arriving(item, LegAt(p.plan, m, t), t);
      if !leg.reached then
        if t.now - leg.begin >= leg.timeout then (Failed(p), leg, Some(TimedOut)) else (p, leg, None)
      else if t.now - leg.reachedAt < item.hold then (p, leg, None)
      else
        var q := p.(current := p.current + 1);
        (q, leg.(started := false), if q.plan.EndItem(q.current) then Some(Success) else None)
  }

  function Activated(p: Status, airborne: Option<bool>): (Status, Waiting) {
    if !p.planValid then (Failed(p), Nothing)
    else if p.finished || p.failed then (p, Nothing)
    else
      var q := p.(running := true);
      var landed := if airborne.Some? then !airborne.value else p.plan.takeoff;
      if !landed then (q, Patrolling)
      else if !p.plan.takeoff then (Failed(q), Nothing)
      else (q, Takeoff)
  }

  function StepEnded(p: Status, w: Waiting, r: Outcome): (Status, Waiting) {
    if r == Deactivated || w == Nothing then (p, Nothing)
    else if r != Success then (if p.failed then p else Failed(p), Nothing)
    else if w == Takeoff then (p, Patrolling)
    else (p.(running := false, finished := true), Nothing)
  }

  function Replaced(plan: Plan, inCharge: bool): Status {
    Status(plan, plan.items != [], plan.startItem, inCharge, false, false)
  }

  // ---- The objects ----

  /** The mission progress shared by the mode, the executor and the node. */
  class Progress {
    var plan: Plan
    var planValid: bool
    var current: nat
    var running: bool
    var finished: bool
    var failed: bool

    function Now(): Status
      reads this
    {
      Status(plan, planValid, current, running, finished, failed)
    }

    constructor ()
      ensures Now() == Replaced(Plan([], 0.0, 0.0, 0, false), false)
    {
      plan, planValid, current := Plan([], 0.0, 0.0, 0, false), false, 0;
      running, finished, failed := false, false, false;
    }

    method Fail()
      modifies this
      ensures Now() == Failed(old(Now()))
    {
      failed := true;
      running := false;
    }
  }

  class PatrolMode {
    const p: Progress
    var started: bool
    var reached: bool
    var begin: real
    var reachedAt: real
    var timeout: real

    function Now(): Leg
      reads this
    {
      Leg(started, reached, begin, reachedAt, timeout)
    }

    constructor (p: Progress)
      ensures this.p == p && Now() == Leg(false, false, 0.0, 0.0, 60.0)
    {
      this.p := p;
      started, reached, begin, reachedAt, timeout := false, false, 0.0, 0.0, 60.0;
    }

    method OnActivate()
      modifies this
      ensures Now() == old(Now()).(started := false)
    {
      started := false;
    }

    method OnDeactivate()
      modifies this
      ensures Now() == old(Now()).(started := false)
    {
      started := false;
    }

    method StartLeg(t: Reading)
      modifies this
      ensures Now() == old(Now()).(started := true, reached := false, begin := t.now, timeout := LegTimeout(p.plan, t.dist))
    {
      var cruise := if p.plan.cruise > 0.1 then p.plan.cruise else 5.0;
      var expected := t.dist / cruise + 10.0;
      if 300.0 <= expected {
        expected := 300.0;
      }
      if expected < 5.0 {
        expected := 5.0;
      }
      timeout := expected * (if p.plan.multiplier > 0.0 then p.plan.multiplier else 2.0);
      begin := t.now;
      started := true;
      reached := false;
    }

    /** One tick; the outcome is what the mode reports as completed, if it does. */
    method UpdateSetpoint(t: Reading) returns (done: Option<Outcome>)
      modifies this, p
      ensures (p.Now(), Now(), done) == Tick(old(p.Now()), old(Now()), t)
    {
      if !p.planValid || p.failed || p.finished {
        if !p.planValid {
          p.Fail();
        }
        return Some(ModeFailure);
      }
      if p.plan.EndItem(p.current) {
        return Some(Success);
      }
      if !t.valid {
        p.Fail();
        return Some(ModeFailure);
      }
      var item := p.plan.items[p.current];
      if !started {
        StartLeg(t);
      }
      if !reached && t.dist <= Radius(item) {
        reached := true;
        reachedAt := t.now;
      }
      if !reached {
        if t.now - begin >= timeout {
          p.Fail();
          return Some(TimedOut);
        }
        return None;
      }
      if t.now - reachedAt < item.hold {
        return None;
      }
      p.current := p.current + 1;
      started := false;
      return if p.plan.EndItem(p.current) then Some(Success) else None;
    }
  }

  class PatrolExecutor {
    const p: Progress
    var waiting: Waiting

    constructor (p: Progress)
      ensures this.p == p && waiting == Nothing
    {
      this.p := p;
      waiting := Nothing;
    }

    /** `airborne` is what a recent vehicle status says, if there is one. */
    method OnActivate(airborne: Option<bool>)
      modifies this, p
      ensures (p.Now(), waiting) == Activated(old(p.Now()), airborne)
    {
      waiting := Nothing;
      if !p.planValid {
        p.Fail();
        return;
      }
      if p.finished || p.failed {
        return;
      }
      p.running := true;
      var landed := p.plan.takeoff;
      if airborne.Some? {
        landed := !airborne.value;
      }
      if landed {
        if !p.plan.takeoff {
          p.Fail();
          return;
        }
        waiting := Takeoff;
      } else {
        waiting := Patrolling;
      }
    }

    method OnDeactivate()
      modifies this, p
      ensures p.Now() == old(p.Now()).(running := false) && waiting == Nothing
    {
      waiting := Nothing;
      if p.running {
        p.running := false;
      }
    }

    /** The callback of the step the executor waits for. */
    method OnStepEnded(r: Outcome)
      modifies this, p
      ensures (p.Now(), waiting) == StepEnded(old(p.Now()), old(waiting), r)
    {
      var w := waiting;
      waiting := Nothing;
      if r == Deactivated || w == Nothing {
        return;
      }
      if r != Success {
        if !p.failed {
          p.Fail();
        }
        return;
      }
      if w == Takeoff {
        waiting := Patrolling;
      } else {
        p.running := false;
        p.finished := true;
      }
    }
  }

  /** A plan arrives; the mode's leg is not told. */
  method OnPlan(p: Progress, plan: Plan, inCharge: bool)
    modifies p
    ensures p.Now() == Replaced(plan, inCharge)
  {
    p.plan := plan;
    p.planValid := plan.items != [];
    p.current := plan.startItem;
    p.running := inCharge;
    p.finished := false;
    p.failed := false;
  }

  // ---- Runs ----

  /** A tick that flew towards item `item` of `route`, the plan that came as number `plan`. */
  datatype Flown = Flown(plan: nat, item: nat, at: real, dist: real, route: Plan)

  /** `legFrom`: how many ticks had flown when the mode last came on or off, or last ended a leg. */
  datatype System = System(p: Status, leg: Leg, modeOn: bool, inCharge: bool, waiting: Waiting,
                           reported: Option<Outcome>, plans: nat, flown: seq<Flown>, legFrom: nat)

  datatype Event =
    | PlanArrives(plan: Plan)
    | ModeOn
    | ModeOff
    | TickAt(reading: Reading)
    | TakeCharge(airborne: Option<bool>)
    | LoseCharge
    | StepEnds(outcome: Outcome)

  const Boot := System(Replaced(Plan([], 0.0, 0.0, 0, false), false), Leg(false, false, 0.0, 0.0, 60.0),
                       false, false, Nothing, None, 0, [], 0)

  /** While the executor waits for the patrol, the mode's first report is the one it will get. */
  function Report(s: System, done: Option<Outcome>): Option<Outcome> {
    if s.waiting == Patrolling && s.reported.None? then done else s.reported
  }

  function Step(s: System, e: Event): System {
    match e
    case PlanArrives(plan) => s.(p := Replaced(plan, s.inCharge), plans := s.plans + 1)
    case ModeOn => s.(modeOn := true, leg := s.leg.(started := false), legFrom := |s.flown|)
    case ModeOff => s.(modeOn := false, leg := s.leg.(started := false), legFrom := |s.flown|)
    case TickAt(t) =>
      if !s.modeOn then s
      else
        var (p, leg, done) := Tick(s.p, s.leg, t);
        var flown := if Flies(s.p, t) then s.flown + [Flown(s.plans, s.p.current, t.now, t.dist, s.p.plan)] else s.flown;
        s.(p := p, leg := leg, reported := Report(s, done), flown := flown,
           legFrom := if p.current != s.p.current then |flown| else s.legFrom)
    case TakeCharge(airborne) =>
      if s.inCharge then s
      else
        var (p, waiting) := Activated(s.p, airborne);
        s.(p := p, inCharge := true, waiting := waiting, reported := None)
    case LoseCharge => s.(p := s.p.(running := false), inCharge := false, waiting := Nothing, reported := None)
    case StepEnds(r) =>
      if s.waiting == Patrolling && (r == Success) != (s.reported == Some(Success)) then s  // the mode's own report decides
      else
        var (p, waiting) := StepEnded(s.p, s.waiting, r);
        s.(p := p, waiting := waiting, reported := None)
  }

  function After(s: System, events: seq<Event>): System {
    if events == [] then s else Step(After(s, events[..|events| - 1]), events[|events| - 1])
  }

  function Run(events: seq<Event>): System {
    After(Boot, events)
  }

  // ---- Every run ----

  lemma LegTimeoutRange(plan: Plan, dist: real)
    requires dist >= 0.0
    ensures 10.0 * Multiplier(plan) <= LegTimeout(plan, dist) <= 300.0 * Multiplier(plan)
  {
    hide Expected, Multiplier;
    ExpectedRange(plan, dist);
    ScaleBounds(10.0, Expected(plan, dist), 300.0, Multiplier(plan));
  }

  lemma ExpectedRange(plan: Plan, dist: real)
    requires dist >= 0.0
    ensures 10.0 <= Expected(plan, dist) <= 300.0
  {
    var cruise := if plan.cruise > 0.1 then plan.cruise else 5.0;
    assert dist / cruise >= 0.0;
  }

  lemma ScaleBounds(low: real, x: real, high: real, m: real)
    requires low <= x <= high && m > 0.0
    ensures low * m <= x * m <= high * m
  {
  }

  /** The current item is at or after the start item, and no item passed was an end item. */
  predicate OnRoute(p: Status) {
    p.plan.startItem <= p.current && forall i :: p.plan.startItem <= i < p.current ==> !p.plan.EndItem(i)
  }

  /** A running patrol has neither finished nor failed. */
  predicate Flags(p: Status) {
    p.running ==> !p.finished && !p.failed
  }

  lemma TickStaysOnRoute(p: Status, m: Leg, t: Reading)
    requires OnRoute(p) && Flags(p)
    ensures OnRoute(Tick(p, m, t).0) && Flags(Tick(p, m, t).0)
  {
    hide LegTimeout, Radius;
  }

  lemma StepStaysOnRoute(s: System, e: Event)
    requires OnRoute(s.p) && Flags(s.p)
    ensures OnRoute(Step(s, e).p) && Flags(Step(s, e).p)
  {
    hide Tick;
    if e.TickAt? {
      TickStaysOnRoute(s.p, s.leg, e.reading);
    }
  }

  lemma {:induction false} RunStaysOnRoute(events: seq<Event>)
    ensures OnRoute(Run(events).p) && Flags(Run(events).p)
  {
    if events != [] {
      hide Step, OnRoute, Flags;
      RunStaysOnRoute(events[..|events| - 1]);
      StepStaysOnRoute(Run(events[..|events| - 1]), events[|events| - 1]);
    }
  }

  /** Only an executor in charge has a running patrol; while it waits for a step, the patrol runs exactly if it has not failed. */
  predicate RunsInCharge(s: System) {
    && (s.p.running ==> s.inCharge)
    && (s.waiting != Nothing ==> s.inCharge && (s.p.running <==> !s.p.failed))
  }

  lemma StepKeepsRunning(s: System, e: Event)
    requires RunsInCharge(s) && Flags(s.p)
    ensures RunsInCharge(Step(s, e))
  {
    hide LegTimeout, Radius;
  }

  lemma {:induction false} RunsExactlyInCharge(events: seq<Event>)
    ensures RunsInCharge(Run(events))
  {
    if events != [] {
      hide Step, RunsInCharge, Flags;
      RunsExactlyInCharge(events[..|events| - 1]);
      RunStaysOnRoute(events[..|events| - 1]);
      StepKeepsRunning(Run(events[..|events| - 1]), events[|events| - 1]);
    }
  }

  /** The item's point is reached, now or earlier in this leg, and its hold time is over. */
  predicate Held(p: Status, m: Leg, t: Reading)
    requires Flies(p, t)
  {
    var item := p.plan.items[p.current];
    if m.started && m.reached then t.now - m.reachedAt >= item.hold
    else t.dist <= Radius(item) && item.hold <= 0.0
  }

  /** Every event leaves the current item alone, but for a plan, which sets it, and the tick that ends a leg: it moves on
      by one, after a held arrival, and neither fails nor finishes the patrol. */
  lemma CurrentMovesByOne(events: seq<Event>, e: Event)
    requires !e.PlanArrives?
    ensures (var s, t := Run(events), Step(Run(events), e);
             && (t.p.current == s.p.current || t.p.current == s.p.current + 1)
             && (t.p.current == s.p.current + 1 <==> e.TickAt? && s.modeOn && Flies(s.p, e.reading) && Held(s.p, s.leg, e.reading))
             && (t.p.current == s.p.current + 1 ==> !t.p.failed && !t.p.finished))
  {
  }

  // ---- When a patrol fails, and when it finishes ----

  /** The tick was at its item's point. */
  predicate At(f: Flown) {
    f.item < |f.route.items| && f.dist <= (if f.route.items[f.item].acceptance > 0.0 then f.route.items[f.item].acceptance else 2.0)
  }

  /** The mode's leg is the one the ticks since `legFrom` flew. */
  ghost predicate LegIsFlown(s: System) {
    && s.legFrom <= |s.flown|
    && (s.leg.started <==> s.legFrom < |s.flown|)
    && (s.leg.started ==>
          && s.leg.begin == s.flown[s.legFrom].at
          && s.leg.timeout == LegTimeout(s.flown[s.legFrom].route, s.flown[s.legFrom].dist)
          && (s.leg.reached <==> exists k :: s.legFrom <= k < |s.flown| && At(s.flown[k])))
  }

  lemma StepKeepsLegFlown(s: System, e: Event)
    requires LegIsFlown(s)
    ensures LegIsFlown(Step(s, e))
  {
    hide LegTimeout;
    if e.TickAt? && s.modeOn && Flies(s.p, e.reading) {
      FlownTickKeepsLeg(s, e.reading);
    }
  }

  lemma FlownTickKeepsLeg(s: System, t: Reading)
    requires LegIsFlown(s) && s.modeOn && Flies(s.p, t)
    ensures LegIsFlown(Step(s, TickAt(t)))
  {
    hide LegTimeout;
    var s' := Step(s, TickAt(t));
    assert At(s'.flown[|s.flown|]) <==> t.dist <= Radius(s.p.plan.items[s.p.current]);
    forall k | s.legFrom <= k < |s.flown|
      ensures At(s'.flown[k]) <==> At(s.flown[k])
    {
    }
    if s.leg.started && s.leg.reached {
      var k :| s.legFrom <= k < |s.flown| && At(s.flown[k]);
      assert At(s'.flown[k]);
    }
  }

  lemma {:induction false} RunKeepsLegFlown(events: seq<Event>)
    ensures LegIsFlown(Run(events))
  {
    if events != [] {
      hide Step, LegIsFlown;
      RunKeepsLegFlown(events[..|events| - 1]);
      StepKeepsLegFlown(Run(events[..|events| - 1]), events[|events| - 1]);
    }
  }

  /** This tick's leg, itself included, was never at its item's point, and its first tick is as long ago as the timeout for
      the distance seen then. */
  ghost predicate TimeIsUp(flown: seq<Flown>, legFrom: nat) {
    && legFrom < |flown|
    && (forall k :: legFrom <= k < |flown| ==> !At(flown[k]))
    && flown[|flown| - 1].at - flown[legFrom].at >= LegTimeout(flown[legFrom].route, flown[legFrom].dist)
  }

  /** In every run: a tick that flies fails the patrol exactly if the item's point was not reached in this leg and the leg's
      time is up. */
  lemma TickFailsExactly(events: seq<Event>, t: Reading)
    requires Run(events).modeOn && Flies(Run(events).p, t)
    ensures (var s, s' := Run(events), Step(Run(events), TickAt(t));
             var flown := s.flown + [Flown(s.plans, s.p.current, t.now, t.dist, s.p.plan)];
             s'.p.failed <==> TimeIsUp(flown, s.legFrom))
  {
    hide LegTimeout;
    var s := Run(events);
    RunKeepsLegFlown(events);
    hide Run;
    var flown := s.flown + [Flown(s.plans, s.p.current, t.now, t.dist, s.p.plan)];
    assert At(flown[|s.flown|]) <==> t.dist <= Radius(s.p.plan.items[s.p.current]);
    forall k | s.legFrom <= k < |s.flown|
      ensures At(flown[k]) <==> At(s.flown[k])
    {
    }
    if s.leg.started && s.leg.reached {
      var k :| s.legFrom <= k < |s.flown| && At(s.flown[k]);
      assert At(flown[k]);
    }
  }

  /** In every run, what fails a patrol: a mode or an executor without a plan, a position lost on the way, a leg's time being
      up, a start from the ground without a takeoff altitude, and a step that fails for another reason than being taken over. */
  lemma FailsExactlyWhen(events: seq<Event>, e: Event)
    requires !Run(events).p.failed
    ensures (var s := Run(events);
             Step(s, e).p.failed <==>
               match e
               case TickAt(t) =>
                 && s.modeOn
                 && (|| !s.p.planValid
                     || (!s.p.finished && !s.p.plan.EndItem(s.p.current)
                         && (!t.valid
                             || TimeIsUp(s.flown + [Flown(s.plans, s.p.current, t.now, t.dist, s.p.plan)], s.legFrom))))
               case TakeCharge(airborne) =>
                 && !s.inCharge
                 && (!s.p.planValid || (!s.p.finished && airborne == Some(false) && !s.p.plan.takeoff))
               case StepEnds(r) =>
                 && s.waiting != Nothing && r != Success && r != Deactivated
                 && (s.waiting == Patrolling ==> s.reported != Some(Success))
               case _ => false)
  {
    hide TimeIsUp, LegTimeout;
    RunKeepsLegFlown(events);
    if e.TickAt? && Run(events).modeOn && Flies(Run(events).p, e.reading) {
      TickFailsExactly(events, e.reading);
    }
  }

  /** In every run, what finishes a patrol: the end of the executor's patrol step, once the mode has reported success. */
  lemma FinishesExactlyWhen(events: seq<Event>, e: Event)
    requires !Run(events).p.finished
    ensures (var s := Run(events);
             Step(s, e).p.finished <==> e == StepEnds(Success) && s.waiting == Patrolling && s.reported == Some(Success))
  {
  }

  // ---- Runs in which no plan cuts in ----

  /** The plan finds no leg whose point is reached, nor a success still on its way, unless there is nothing to fly in it;
    and none of the latter if it is empty. */
  predicate MayCome(s: System, plan: Plan) {
    && (s.leg.started && s.leg.reached ==> plan.EndItem(plan.startItem))
    && (s.reported == Some(Success) ==> plan.items != [] && plan.EndItem(plan.startItem))
  }

  predicate Fits(s: System, e: Event) {
    e.PlanArrives? ==> MayCome(s, e.plan)
  }

  predicate Calm(events: seq<Event>) {
    events == [] || (Calm(events[..|events| - 1]) && Fits(Run(events[..|events| - 1]), events[|events| - 1]))
  }

  /** An arrival at item `i` of the present plan. */
  predicate Arrival(s: System, i: nat, f: Flown)
    requires i < |s.p.plan.items|
  {
    f.plan == s.plans && f.item == i && f.dist <= Radius(s.p.plan.items[i])
  }

  /** Item `i` was reached at tick `j`, and flown on to until its hold time was over at tick `k`. */
  predicate Visit(s: System, i: nat, j: nat, k: nat) {
    && i < |s.p.plan.items| && j <= k < |s.flown| && Arrival(s, i, s.flown[j])
    && s.flown[k].plan == s.plans && s.flown[k].item == i
    && s.flown[k].at - s.flown[j].at >= s.p.plan.items[i].hold
  }

  ghost predicate Visited(s: System, i: nat) {
    exists j, k :: Visit(s, i, j, k)
  }

  ghost predicate ReachedBefore(s: System) {
    s.p.current < |s.p.plan.items|
    && exists j :: 0 <= j < |s.flown| && Arrival(s, s.p.current, s.flown[j]) && s.flown[j].at == s.leg.reachedAt
  }

  /** What the flags say is what was flown. */
  ghost predicate Honest(s: System) {
    && OnRoute(s.p)
    && (forall j :: 0 <= j < |s.flown| ==> s.flown[j].plan <= s.plans)
    && (s.leg.started ==> s.modeOn)
    && (s.leg.started && s.leg.reached ==> s.p.plan.EndItem(s.p.current) || ReachedBefore(s))
    && forall i :: s.p.plan.startItem <= i < s.p.current ==> Visited(s, i)
  }

  /** The executor finishes at an end item only, and nothing fails after that. */
  predicate Coherent(s: System) {
    && (s.waiting != Nothing ==> s.inCharge && !s.p.finished)
    && (s.reported.Some? ==> s.waiting == Patrolling)
    && (s.reported == Some(Success) ==> s.p.planValid && !s.p.failed && s.p.plan.EndItem(s.p.current))
    && (s.p.finished ==> s.p.planValid && !s.p.failed && s.p.plan.EndItem(s.p.current))
  }

  lemma StepKeepsCoherent(s: System, e: Event)
    requires Coherent(s) && Fits(s, e)
    ensures Coherent(Step(s, e))
  {
  }

  /** Ticks add to what was flown, so what was visited stays visited. */
  lemma VisitedStays(s: System, t: System, i: nat)
    requires t.p.plan == s.p.plan && t.plans == s.plans && s.flown <= t.flown
    requires Visited(s, i)
    ensures Visited(t, i)
  {
    var j, k :| Visit(s, i, j, k);
    assert Visit(t, i, j, k);
  }

  lemma TickKeepsHonest(s: System, t: Reading)
    requires Honest(s) && s.modeOn
    ensures Honest(Step(s, TickAt(t)))
  {
    hide Visited;
    var s' := Step(s, TickAt(t));
    forall i | s.p.plan.startItem <= i < s.p.current
      ensures Visited(s', i)
    {
      VisitedStays(s, s', i);
    }
    if Flies(s.p, t) {
      FlownTickIsHonest(s, t);
    }
  }

  lemma FlownTickIsHonest(s: System, t: Reading)
    requires Honest(s) && s.modeOn && Flies(s.p, t)
    ensures (var s' := Step(s, TickAt(t));
             && (s'.leg.started && s'.leg.reached ==> ReachedBefore(s'))
             && (s'.p.current != s.p.current ==> Visited(s', s.p.current)))
  {
    hide LegTimeout;
    var s', i, n := Step(s, TickAt(t)), s.p.current, |s.flown|;
    var leg := Arriving(s.p.plan.items[i], LegAt(s.p.plan, s.leg, t), t);
    if leg.reached {
      var j: nat := n;
      if s.leg.started && s.leg.reached {
        j :| 0 <= j < n && Arrival(s, i, s.flown[j]) && s.flown[j].at == s.leg.reachedAt;
      }
      assert Arrival(s', i, s'.flown[j]) && s'.flown[j].at == leg.reachedAt;
      if s'.p.current != i {
        assert Visit(s', i, j, n);
      }
    }
  }

  lemma StepKeepsHonest(s: System, e: Event)
    requires Honest(s) && Fits(s, e)
    ensures Honest(Step(s, e))
  {
    hide Visited;
    if e.TickAt? && s.modeOn {
      TickKeepsHonest(s, e.reading);
    } else if !e.PlanArrives? {
      forall i | s.p.plan.startItem <= i < s.p.current
        ensures Visited(Step(s, e), i)
      {
        VisitedStays(s, Step(s, e), i);
      }
    }
  }

  lemma {:induction false} CalmRunKeeps(events: seq<Event>)
    requires Calm(events)
    ensures Honest(Run(events)) && Coherent(Run(events))
  {
    hide Honest, Coherent, Step;
    if events == [] {
      BootIsHonest();
    } else {
      var before := events[..|events| - 1];
      CalmRunKeeps(before);
      StepKeepsHonest(Run(before), events[|events| - 1]);
      StepKeepsCoherent(Run(before), events[|events| - 1]);
    }
  }

  lemma BootIsHonest()
    ensures Honest(Boot) && Coherent(Boot)
  {
  }

  /** A patrol never both finishes and fails; it finishes at the first end item from the start item on; and every item it
    passed on the way was flown to within its radius and held for its time. */
  ghost predicate Kept(s: System) {
    && !(s.p.finished && s.p.failed)
    && (s.p.finished ==> s.p.plan.EndItem(s.p.current))
    && (forall i :: s.p.plan.startItem <= i < s.p.current ==> !s.p.plan.EndItem(i) && Visited(s, i))
  }

  /** While plans come only when they may, that is so. */
  lemma FinishedMeansFlown(events: seq<Event>)
    requires Calm(events)
    ensures Kept(Run(events))
  {
    CalmRunKeeps(events);
  }

  predicate PlanFree(events: seq<Event>) {
    forall k :: 0 <= k < |events| ==> !events[k].PlanArrives?
  }

  lemma {:induction false} PlanFreeKeeps(s: System, events: seq<Event>)
    requires Honest(s) && Coherent(s) && PlanFree(events)
    ensures Honest(After(s, events)) && Coherent(After(s, events))
  {
    hide Honest, Coherent, Step;
    if events != [] {
      var before := events[..|events| - 1];
      PlanFreeKeeps(s, before);
      StepKeepsHonest(After(s, before), events[|events| - 1]);
      StepKeepsCoherent(After(s, before), events[|events| - 1]);
    }
  }

  /** The tick after a plan that finds a reached leg: the plan's first item is passed without being flown to. */
  lemma StaleArrivalBreaks(s: System, plan: Plan) returns (e: Event)
    requires Honest(s) && s.leg.started && s.leg.reached && !plan.EndItem(plan.startItem)
    ensures !e.PlanArrives? && !Kept(Step(Step(s, PlanArrives(plan)), e))
  {
    hide LegTimeout;
    var item := plan.items[plan.startItem];
    e := TickAt(Reading(s.leg.reachedAt + item.hold, true, Radius(item) + 1.0));
    var t := Step(Step(s, PlanArrives(plan)), e);
    assert t.p.current == plan.startItem + 1;
    forall j: nat, k: nat
      ensures !Visit(t, plan.startItem, j, k)
    {
    }
  }

  /** A success that was on its way when the plan came: it finishes a plan with something to fly, or a failed one. */
  lemma StaleSuccessBreaks(s: System, plan: Plan) returns (events: seq<Event>)
    requires Coherent(s) && s.reported == Some(Success) && !(plan.items != [] && plan.EndItem(plan.startItem))
    ensures PlanFree(events) && !Kept(After(Step(s, PlanArrives(plan)), events))
  {
    var t := Step(s, PlanArrives(plan));
    if plan.items != [] {
      events := [StepEnds(Success)];
      OneEvent(t, events[0]);
    } else {
      events := [ModeOn, TickAt(Reading(0.0, true, 0.0)), StepEnds(Success)];
      ThreeEvents(t, events[0], events[1], events[2]);
    }
  }

  lemma OneEvent(s: System, e: Event)
    ensures After(s, [e]) == Step(s, e)
  {
    assert [e][..0] == [];
  }

  lemma ThreeEvents(s: System, a: Event, b: Event, c: Event)
    ensures After(s, [a, b, c]) == Step(Step(Step(s, a), b), c)
  {
    hide Step;
    var run := [a, b, c];
    assert run[..3] == run && run[..2] == [a, b] && [a, b][..1] == [a];
    OneEvent(s, a);
  }

  /** After a calm run, a plan may come exactly if, however the run goes on without another plan, the patrol stays as it
    should be. */
  lemma PlanBreaksExactly(events: seq<Event>, plan: Plan)
    requires Calm(events)
    ensures MayCome(Run(events), plan)
            <==> forall later :: PlanFree(later) ==> Kept(After(Step(Run(events), PlanArrives(plan)), later))
  {
    var s := Run(events);
    var t := Step(s, PlanArrives(plan));
    CalmRunKeeps(events);
    hide Honest, Coherent, Step, Kept;
    if MayCome(s, plan) {
      StepKeepsHonest(s, PlanArrives(plan));
      StepKeepsCoherent(s, PlanArrives(plan));
      forall later | PlanFree(later)
        ensures Kept(After(t, later))
      {
        PlanFreeKeeps(t, later);
        HonestIsKept(After(t, later));
      }
    } else if s.leg.started && s.leg.reached && !plan.EndItem(plan.startItem) {
      var e := StaleArrivalBreaks(s, plan);
      OneEvent(t, e);
      assert PlanFree([e]) && !Kept(After(t, [e]));
    } else {
      var later := StaleSuccessBreaks(s, plan);
      assert PlanFree(later) && !Kept(After(t, later));
    }
  }

  lemma HonestIsKept(s: System)
    requires Honest(s) && Coherent(s)
    ensures Kept(s)
  {
  }

  // ---- A plan that does cut in ----

  /** A plan that comes while the mode holds at a point: the next tick passes the new plan's first item, 1000 m away. */
  lemma PlanMidLegSkipsItsFirstItem(plan: Plan)
    requires plan.items == [Item(16, 2.0, 10.0), Item(16, 2.0, 10.0)] && plan.startItem == 0
    ensures (var s := Run([PlanArrives(plan), ModeOn, TickAt(Reading(0.0, true, 1.0)), PlanArrives(plan),
                           TickAt(Reading(20.0, true, 1000.0))]);
             && s.p.current == 1 && !s.p.failed
             && forall f :: f in s.flown && f.plan == s.plans ==> f.dist == 1000.0)
  {
    RunOfFive(PlanArrives(plan), ModeOn, TickAt(Reading(0.0, true, 1.0)), PlanArrives(plan), TickAt(Reading(20.0, true, 1000.0)));
  }

  lemma RunOfFive(a: Event, b: Event, c: Event, d: Event, e: Event)
    ensures Run([a, b, c, d, e]) == Step(Step(Step(Step(Step(Boot, a), b), c), d), e)
  {
    hide Step;
    var run := [a, b, c, d, e];
    forall n | 0 < n <= 5
      ensures Run(run[..n]) == Step(Run(run[..n - 1]), run[n - 1])
    {
      assert run[..n][..n - 1] == run[..n - 1];
    }
    assert run[..5] == run && run[..0] == [];
    assert Run(run[..1]) == Step(Boot, a);
    assert Run(run[..2]) == Step(Step(Boot, a), b);
    assert Run(run[..3]) == Step(Step(Step(Boot, a), b), c);
  }

  /** An empty plan that comes after the mode reported its success: one tick fails it, then the report finishes it. */
  lemma PlanMidStepFinishesAndFails(plan: Plan)
    requires plan.items == [Item(RTL, 2.0, 0.0)] && plan.startItem == 0
    ensures (var s := Run([PlanArrives(plan), TakeCharge(Some(true)), ModeOn, TickAt(Reading(0.0, true, 1.0)),
                           PlanArrives(plan.(items := []))]);
             var end := Step(Step(s, TickAt(Reading(1.0, true, 1.0))), StepEnds(Success));
             end.p.finished && end.p.failed)
  {
    RunOfFive(PlanArrives(plan), TakeCharge(Some(true)), ModeOn, TickAt(Reading(0.0, true, 1.0)), PlanArrives(plan.(items := [])));
  }

  // ---- A patrol ends ----

  /** Nothing is left for the mode to fly. */
  predicate Ended(p: Status) {
    !p.planValid || p.failed || p.finished || p.plan.EndItem(p.current)
  }

  function Hold(item: Item): (r: real)
    ensures r >= 0.0
  {
    if item.hold > 0.0 then item.hold else 0.0
  }

  /** The longest the legs from item `i` on can take, with ticks at most `gap` apart. */
  function Rest(plan: Plan, i: nat, gap: real): (r: real)
    requires gap >= 0.0
    ensures r >= 0.0
    decreases plan.Total() - i
  {
    if plan.EndItem(i) then 0.0
    else 300.0 * Multiplier(plan) + Hold(plan.items[i]) + 3.0 * gap + Rest(plan, i + 1, gap)
  }

  /** When the patrol has ended at the latest; the last tick was at `last`. */
  function Deadline(p: Status, m: Leg, last: real, gap: real): real
    requires gap >= 0.0 && !Ended(p)
  {
    var hold := Hold(p.plan.items[p.current]);
    if !m.started then last + Rest(p.plan, p.current, gap)
    else (if m.reached then m.reachedAt else m.begin + m.timeout + gap) + hold + gap + Rest(p.plan, p.current + 1, gap)
  }

  /** Neither the leg's timeout nor its hold time was over at the last tick. */
  predicate Underway(p: Status, m: Leg, last: real)
    requires !Ended(p)
  {
    m.started ==> if m.reached then last - m.reachedAt < p.plan.items[p.current].hold else last - m.begin < m.timeout
  }

  lemma TickKeepsDeadline(p: Status, m: Leg, last: real, t: Reading, gap: real)
    requires !Ended(p) && Underway(p, m, last) && last <= t.now <= last + gap && t.dist >= 0.0
    ensures (var (p', m', _) := Tick(p, m, t);
             && p'.plan == p.plan
             && (Ended(p') || (Underway(p', m', t.now) && Deadline(p', m', t.now, gap) <= Deadline(p, m, last, gap))))
  {
    hide LegTimeout;
    LegTimeoutRange(p.plan, t.dist);
  }

  lemma DeadlineAhead(p: Status, m: Leg, last: real, gap: real)
    requires gap >= 0.0 && !Ended(p) && Underway(p, m, last)
    ensures last <= Deadline(p, m, last, gap)
  {
  }

  function Ticks(p: Status, m: Leg, ts: seq<Reading>): (Status, Leg) {
    if ts == [] then (p, m)
    else
      var (q, n) := Ticks(p, m, ts[..|ts| - 1]);
      var (p', m', _) := Tick(q, n, ts[|ts| - 1]);
      (p', m')
  }

  /** The time of the last tick, or of the mode's activation. */
  function LastTime(begin: real, ts: seq<Reading>): real {
    if ts == [] then begin else ts[|ts| - 1].now
  }

  predicate Steady(begin: real, ts: seq<Reading>, gap: real) {
    forall k :: 0 <= k < |ts| ==> ts[k].dist >= 0.0 && LastTime(begin, ts[..k]) <= ts[k].now <= LastTime(begin, ts[..k]) + gap
  }

  lemma {:induction false} TicksKeepDeadline(p: Status, m: Leg, begin: real, ts: seq<Reading>, gap: real)
    requires gap >= 0.0 && !Ended(p) && Underway(p, m, begin) && Steady(begin, ts, gap)
    ensures (var (p', m') := Ticks(p, m, ts);
             || Ended(p')
             || (Underway(p', m', LastTime(begin, ts)) && Deadline(p', m', LastTime(begin, ts), gap) <= Deadline(p, m, begin, gap)))
  {
    hide Tick, Underway, Deadline;
    if ts != [] {
      var k := |ts| - 1;
      forall i | 0 <= i < k
        ensures ts[..k][i].dist >= 0.0
        ensures LastTime(begin, ts[..k][..i]) <= ts[..k][i].now <= LastTime(begin, ts[..k][..i]) + gap
      {
        assert ts[..k][..i] == ts[..i];
      }
      TicksKeepDeadline(p, m, begin, ts[..k], gap);
      var (q, n) := Ticks(p, m, ts[..k]);
      if Ended(q) {
        EndedStays(q, n, ts[k]);
      } else {
        TickKeepsDeadline(q, n, LastTime(begin, ts[..k]), ts[k], gap);
      }
    }
  }

  lemma EndedStays(p: Status, m: Leg, t: Reading)
    requires Ended(p)
    ensures Ended(Tick(p, m, t).0)
  {
  }

  /** A patrol that stays active with its plan unchanged ends, wherever the drone flies: once the ticks have gone on for
      300 s times the multiplier, the hold time and three ticks for every leg, nothing is left to fly. */
  lemma PatrolEnds(p: Status, m: Leg, begin: real, ts: seq<Reading>, gap: real)
    requires gap >= 0.0 && !m.started && Steady(begin, ts, gap)
    requires LastTime(begin, ts) > begin + Rest(p.plan, p.current, gap)
    ensures Ended(Ticks(p, m, ts).0)
  {
    if Ended(p) {
      TicksStayEnded(p, m, ts);
    } else {
      TicksKeepDeadline(p, m, begin, ts, gap);
      var (p', m') := Ticks(p, m, ts);
      if !Ended(p') {
        DeadlineAhead(p', m', LastTime(begin, ts), gap);
      }
    }
  }

  lemma {:induction false} TicksStayEnded(p: Status, m: Leg, ts: seq<Reading>)
    requires Ended(p)
    ensures Ended(Ticks(p, m, ts).0)
  {
    if ts != [] {
      TicksStayEnded(p, m, ts[..|ts| - 1]);
      var (q, n) := Ticks(p, m, ts[..|ts| - 1]);
      EndedStays(q, n, ts[|ts| - 1]);
    }
  }

  // ---- A patrol that keeps its pace is flown to its end ----

  /** The plan's speed, 5 m/s if it has none. */
  function Pace(plan: Plan): (r: real)
    ensures r > 0.0
  {
    if plan.cruise > 0.1 then plan.cruise else 5.0
  }

  /** Tick `t`, which comes after `before`: a new leg is at most 290 s long at the plan's pace; on the way to an item the
    drone has come closer at that pace since the tick before, or has arrived. */
  predicate KeepsPace(p: Status, m: Leg, before: Option<Reading>, t: Reading)
    requires !Ended(p)
  {
    && t.valid
    && (!m.started ==> t.dist <= 290.0 * Pace(p.plan))
    && (m.started && !m.reached ==>
          || t.dist <= Radius(p.plan.items[p.current])
          || (before.Some? && t.dist <= before.value.dist - Product(Pace(p.plan), t.now - before.value.now)))
  }

  function LastOf(ts: seq<Reading>): Option<Reading> {
    if ts == [] then None else Some(ts[|ts| - 1])
  }

  /** Every tick keeps the pace, while there is something to fly. */
  predicate AllKeepPace(p: Status, m: Leg, ts: seq<Reading>) {
    ts == []
    || (var n := |ts| - 1;
        var (q, l) := Ticks(p, m, ts[..n]);
        AllKeepPace(p, m, ts[..n]) && (!Ended(q) ==> KeepsPace(q, l, LastOf(ts[..n]), ts[n])))
  }

  /** On the way to an item, the last tick was as close as the pace since the leg's first tick makes it. */
  predicate OnPace(p: Status, m: Leg, before: Option<Reading>) {
    && p.planValid && !p.failed && !p.finished
    && (!p.plan.EndItem(p.current) && m.started && !m.reached ==>
          && before.Some?
          && m.timeout >= TimeNeeded(Pace(p.plan), before.value, m.begin) + 10.0)
  }

  /** The time a leg takes in all, at the pace: what has gone by since it began, and what its rest takes. */
  function TimeNeeded(pace: real, t: Reading, begin: real): (r: real)
    requires pace > 0.0
    ensures Product(r, pace) == t.dist + Product(pace, t.now - begin)
  {
    (t.dist + Product(pace, t.now - begin)) / pace
  }

  lemma StaysOnPace(p: Status, m: Leg, before: Option<Reading>, t: Reading)
    requires OnPace(p, m, before) && Multiplier(p.plan) >= 1.0 && t.dist >= 0.0
    requires !Ended(p) ==> KeepsPace(p, m, before, t)
    ensures OnPace(Tick(p, m, t).0, Tick(p, m, t).1, Some(t))
  {
    hide LegTimeout, Pace, TimeNeeded;
    if !p.plan.EndItem(p.current) {
      var pace := Pace(p.plan);
      if !m.started {
        FirstTickOnPace(p.plan, t);
      } else if !m.reached && t.dist > Radius(p.plan.items[p.current]) {
        LaterTickOnPace(pace, before.value, t, m.begin, m.timeout);
      }
    }
  }

  /** A leg's timeout leaves 10 s more than its distance takes at the pace. */
  lemma FirstTickOnPace(plan: Plan, t: Reading)
    requires 0.0 <= t.dist <= 290.0 * Pace(plan) && Multiplier(plan) >= 1.0
    ensures LegTimeout(plan, t.dist) >= TimeNeeded(Pace(plan), t, t.now) + 10.0
    ensures LegTimeout(plan, t.dist) > 0.0
  {
    var pace, need := Pace(plan), TimeNeeded(Pace(plan), t, t.now);
    assert Product(pace, t.now - t.now) == 0.0;
    Between(need, 290.0, pace);
    ExpectedAtPace(plan, t.dist, need);
    assert LegTimeout(plan, t.dist) == Product(Expected(plan, t.dist), Multiplier(plan));
    hide LegTimeout, Expected, Multiplier, TimeNeeded, Product;
    AtLeastItself(Expected(plan, t.dist), Multiplier(plan));
  }

  lemma Between(x: real, high: real, pace: real)
    requires pace > 0.0 && 0.0 <= Product(x, pace) <= high * pace
    ensures 0.0 <= x <= high
  {
    assert Product(high - x, pace) == high * pace - Product(x, pace);
  }

  lemma ExpectedAtPace(plan: Plan, dist: real, need: real)
    requires 0.0 <= need <= 290.0 && Product(need, Pace(plan)) == dist
    ensures Expected(plan, dist) == need + 10.0
  {
    assert dist / Pace(plan) == need;
  }

  lemma AtLeastItself(x: real, m: real)
    requires x >= 0.0 && m >= 1.0
    ensures Product(x, m) >= x
  {
    NonNegativeProduct(x, m - 1.0);
    assert x * (m - 1.0) == x * m - x;
  }

  lemma LaterTickOnPace(pace: real, before: Reading, t: Reading, begin: real, timeout: real)
    requires pace > 0.0 && t.dist >= 0.0 && t.dist <= before.dist - Product(pace, t.now - before.now)
    requires timeout >= TimeNeeded(pace, before, begin) + 10.0
    ensures timeout >= TimeNeeded(pace, t, begin) + 10.0
    ensures t.now - begin < timeout
  {
    var x, y := TimeNeeded(pace, before, begin), TimeNeeded(pace, t, begin);
    hide TimeNeeded;
    Distribute(pace, t.now - before.now, before.now - begin);
    assert (t.now - before.now) + (before.now - begin) == t.now - begin;
    assert Product(y, pace) <= Product(x, pace);
    ProductOrder(y, x, pace);
    assert Product(t.now - begin, pace) == Product(pace, t.now - begin);
    ProductOrder(t.now - begin, y, pace);
  }

  lemma ProductOrder(x: real, y: real, pace: real)
    requires pace > 0.0 && Product(x, pace) <= Product(y, pace)
    ensures x <= y
  {
    assert Product(y - x, pace) == Product(y, pace) - Product(x, pace);
  }

  lemma {:induction false} PaceIsKept(p: Status, m: Leg, ts: seq<Reading>)
    requires p.planValid && !p.failed && !p.finished && !m.started && Multiplier(p.plan) >= 1.0
    requires AllKeepPace(p, m, ts) && forall k :: 0 <= k < |ts| ==> ts[k].dist >= 0.0
    ensures (var (q, l) := Ticks(p, m, ts); q.plan == p.plan && OnPace(q, l, LastOf(ts)))
  {
    if ts != [] {
      hide OnPace, Multiplier, KeepsPace, LegTimeout;
      var n := |ts| - 1;
      PaceIsKept(p, m, ts[..n]);
      var (q, l) := Ticks(p, m, ts[..n]);
      StaysOnPace(q, l, LastOf(ts[..n]), ts[n]);
    }
  }

  /** A drone that keeps the pace with a valid position never fails the patrol, and gets to its end item: from readings alone,
    for every plan whose multiplier is at least 1, once the ticks have gone on as long as a patrol can take. */
  lemma PatrolFliesItsRoute(p: Status, m: Leg, begin: real, ts: seq<Reading>, gap: real)
    requires gap >= 0.0 && p.planValid && !p.failed && !p.finished && !m.started && Multiplier(p.plan) >= 1.0
    requires Steady(begin, ts, gap) && AllKeepPace(p, m, ts)
    requires LastTime(begin, ts) > begin + Rest(p.plan, p.current, gap)
    ensures (var q := Ticks(p, m, ts).0;
             q.plan == p.plan && q.planValid && !q.failed && !q.finished && q.plan.EndItem(q.current))
  {
    hide Steady, AllKeepPace;
    PatrolEnds(p, m, begin, ts, gap);
    assert forall k :: 0 <= k < |ts| ==> ts[k].dist >= 0.0 by { SteadyIsNear(begin, ts, gap); }
    PaceIsKept(p, m, ts);
  }

  lemma SteadyIsNear(begin: real, ts: seq<Reading>, gap: real)
    requires Steady(begin, ts, gap)
    ensures forall k :: 0 <= k < |ts| ==> ts[k].dist >= 0.0
  {
  }

  function TickEvents(ts: seq<Reading>): seq<Event> {
    seq(|ts|, k requires 0 <= k < |ts| => TickAt(ts[k]))
  }

  /** What the mode has reported to an executor that waits for it: nothing on the way, success at the end item. */
  predicate ReportedSoFar(s: System, ticked: bool) {
    && s.modeOn && s.waiting == Patrolling
    && (s.reported == if ticked && s.p.plan.EndItem(s.p.current) then Some(Success) else None)
  }

  lemma TickReports(s: System, t: Reading, ticked: bool)
    requires ReportedSoFar(s, ticked) && s.p.planValid && !s.p.failed && !s.p.finished
    requires !Tick(s.p, s.leg, t).0.failed
    ensures ReportedSoFar(Step(s, TickAt(t)), true)
  {
    hide LegTimeout;
  }

  lemma {:induction false} TicksReport(s: System, ts: seq<Reading>)
    requires ReportedSoFar(s, false) && s.p.planValid && !s.p.failed && !s.p.finished && !s.leg.started
    requires Multiplier(s.p.plan) >= 1.0 && AllKeepPace(s.p, s.leg, ts) && forall k :: 0 <= k < |ts| ==> ts[k].dist >= 0.0
    ensures (var t := After(s, TickEvents(ts));
             (t.p, t.leg) == Ticks(s.p, s.leg, ts) && ReportedSoFar(t, ts != []))
  {
    hide Tick, Step, Multiplier, KeepsPace, ReportedSoFar;
    if ts != [] {
      var n := |ts| - 1;
      assert TickEvents(ts)[..n] == TickEvents(ts[..n]);
      TicksReport(s, ts[..n]);
      PaceIsKept(s.p, s.leg, ts[..n]);
      PaceIsKept(s.p, s.leg, ts);
      var before := After(s, TickEvents(ts[..n]));
      TickReports(before, ts[n], n > 0);
      TickStep(before, ts[n], n > 0);
    }
  }

  lemma TickStep(s: System, t: Reading, ticked: bool)
    requires ReportedSoFar(s, ticked)
    ensures (var (p, leg, _) := Tick(s.p, s.leg, t); (Step(s, TickAt(t)).p, Step(s, TickAt(t)).leg) == (p, leg))
  {
    hide Tick;
  }

  /** The events that bring a drone with this plan into the patrol: in the air at once, on the ground after a takeoff. */
  function Launch(plan: Plan, airborne: bool): seq<Event> {
    if airborne then [PlanArrives(plan), TakeCharge(Some(true)), ModeOn]
    else [PlanArrives(plan), TakeCharge(Some(false)), StepEnds(Success), ModeOn]
  }

  lemma LaunchedPatrols(plan: Plan, airborne: bool)
    requires plan.items != [] && (airborne || plan.takeoff)
    ensures (var s := Run(Launch(plan, airborne));
             && s.p.plan == plan && s.p.current == plan.startItem && s.p.planValid && !s.p.failed && !s.p.finished
             && !s.leg.started && ReportedSoFar(s, false))
  {
    if airborne {
      ThreeEvents(Boot, PlanArrives(plan), TakeCharge(Some(true)), ModeOn);
    } else {
      ThreeEvents(Boot, PlanArrives(plan), TakeCharge(Some(false)), StepEnds(Success));
      AfterOneMore(Boot, [PlanArrives(plan), TakeCharge(Some(false)), StepEnds(Success)], ModeOn);
      assert Launch(plan, false) == [PlanArrives(plan), TakeCharge(Some(false)), StepEnds(Success)] + [ModeOn];
    }
  }

  lemma AfterOneMore(s: System, events: seq<Event>, e: Event)
    ensures After(s, events + [e]) == Step(After(s, events), e)
  {
    hide Step;
    assert (events + [e])[..|events|] == events;
  }

  lemma {:induction false} AfterBoth(s: System, xs: seq<Event>, ys: seq<Event>)
    ensures After(s, xs + ys) == After(After(s, xs), ys)
  {
    hide Step;
    if ys == [] {
      assert xs + ys == xs;
    } else {
      var k := |ys| - 1;
      AfterBoth(s, xs, ys[..k]);
      assert (xs + ys)[..|xs| + k] == xs + ys[..k];
    }
  }

  /** From the arrival of any plan with items to its end: a drone that takes off, if it has to, and then keeps the pace
      finishes the patrol, whose items up to the end item it all flew. */
  lemma LaunchedPatrolFinishes(plan: Plan, airborne: bool, begin: real, ts: seq<Reading>, gap: real)
    requires plan.items != [] && (airborne || plan.takeoff) && Multiplier(plan) >= 1.0
    requires gap >= 0.0 && Steady(begin, ts, gap) && LastTime(begin, ts) > begin + Rest(plan, plan.startItem, gap)
    requires var s := Run(Launch(plan, airborne)); AllKeepPace(s.p, s.leg, ts)
    ensures (var end := Run(Launch(plan, airborne) + TickEvents(ts) + [StepEnds(Success)]);
             end.p.finished && !end.p.failed && end.p.plan == plan && plan.EndItem(end.p.current))
  {
    hide Step, Tick, Steady, AllKeepPace, Launch, Multiplier;
    var launch := Launch(plan, airborne);
    var s := Run(launch);
    LaunchedPatrols(plan, airborne);
    SteadyIsNear(begin, ts, gap);
    TicksReport(s, ts);
    PatrolFliesItsRoute(s.p, s.leg, begin, ts, gap);
    AfterBoth(Boot, launch, TickEvents(ts));
    AfterOneMore(Boot, launch + TickEvents(ts), StepEnds(Success));
    var t := After(s, TickEvents(ts));
    assert ts != [] by { RestIsNotNegative(plan, gap); }
    ReportedFinishes(t);
  }

  lemma RestIsNotNegative(plan: Plan, gap: real)
    requires gap >= 0.0
    ensures Rest(plan, plan.startItem, gap) >= 0.0
  {
  }

  lemma ReportedFinishes(s: System)
    requires ReportedSoFar(s, true) && s.p.plan.EndItem(s.p.current)
    ensures Step(s, StepEnds(Success)).p == s.p.(running := false, finished := true)
  {
  }
}
