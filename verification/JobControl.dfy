/** Holds on drones and jobs flown by plugins (`fleet_api/app.py`, `fleet_api/jobs.py`). */
module JobControl {
  import opened Planar

  type Drone = nat
  type Operator = nat
  type Plugin = nat

  const CONTROL_TIMEOUT := 900.0
  const PLUGIN_LOST := 15.0

  datatype Hold = Hold(operator: Operator, since: real, last: real)

  datatype Job = Job(id: nat, drone: Drone, plugin: Plugin, starter: Operator, text: string, result: Option<string>)

  /** The two tables, and the ids of the jobs begun so far. `plugins` gives each plugin's operator. */
  datatype State = State(plugins: map<Plugin, Operator>, holders: map<Drone, Hold>, active: map<Drone, Job>,
                         history: seq<Job>, begun: seq<nat>)

  // ---- Holds ----

  /** The hold's age is within the limit. */
  predicate Lasts(holders: map<Drone, Hold>, drone: Drone, now: real) {
    drone in holders && now - holders[drone].last <= CONTROL_TIMEOUT
  }

  function Holder(holders: map<Drone, Hold>, drone: Drone, now: real): Option<Operator> {
    if Lasts(holders, drone, now) then Some(holders[drone].operator) else None
  }

  /** The holds after someone asked for this drone's: a lapsed one is gone. */
  function Asked(holders: map<Drone, Hold>, drone: Drone, now: real): map<Drone, Hold> {
    if Lasts(holders, drone, now) then holders else holders - {drone}
  }

  predicate MayClaim(holders: map<Drone, Hold>, drone: Drone, operator: Operator, force: bool, now: real) {
    force || Holder(holders, drone, now) in {None, Some(operator)}
  }

  function Claimed(holders: map<Drone, Hold>, drone: Drone, operator: Operator, now: real): map<Drone, Hold> {
    var since := if Holder(holders, drone, now) == Some(operator) then holders[drone].since else now;
    holders[drone := Hold(operator, since, now)]
  }

  predicate MayRelease(holders: map<Drone, Hold>, drone: Drone, operator: Operator, force: bool, now: real) {
    force || Holder(holders, drone, now) in {None, Some(operator)}
  }

  class Control {
    var holders: map<Drone, Hold>

    constructor ()
      ensures holders == map[]
    {
      holders := map[];
    }

    method WhoHolds(drone: Drone, now: real) returns (h: Option<Operator>)
      modifies this
      ensures h == Holder(old(holders), drone, now)
      ensures holders == Asked(old(holders), drone, now)
    {
      if drone in holders && now - holders[drone].last > CONTROL_TIMEOUT {
        holders := holders - {drone};
      }
      if drone !in holders {
        assert holders - {drone} == holders;
        return None;
      }
      return Some(holders[drone].operator);
    }

    /** Ok with the previous holder if the drone was taken over, Err with the holder who stands in the way. */
    method Claim(drone: Drone, operator: Operator, force: bool, now: real) returns (r: Result<Option<Operator>, Operator>)
      modifies this
      ensures r.Ok? <==> MayClaim(old(holders), drone, operator, force, now)
      ensures r.Err? ==> Holder(old(holders), drone, now) == Some(r.error) && holders == old(holders)
      ensures r.Ok? ==> holders == Claimed(old(holders), drone, operator, now)
      ensures r.Ok? ==> r.value == if Holder(old(holders), drone, now) == Some(operator) then None else Holder(old(holders), drone, now)
    {
      var current := WhoHolds(drone, now);
      if current.Some? && current.value != operator && !force {
        return Err(current.value);
      }
      var since := now;
      if drone in holders && current == Some(operator) {
        since := holders[drone].since;
      }
      holders := holders[drone := Hold(operator, since, now)];
      return Ok(if current == Some(operator) then None else current);
    }

    method Release(drone: Drone, operator: Operator, force: bool, now: real) returns (r: Result<bool, Operator>)
      modifies this
      ensures r.Ok? <==> MayRelease(old(holders), drone, operator, force, now)
      ensures holders == if r.Ok? then old(holders) - {drone} else old(holders)
    {
      var current := WhoHolds(drone, now);
      if current.None? {
        return Ok(false);
      }
      if current.value != operator && !force {
        return Err(current.value);
      }
      holders := holders - {drone};
      return Ok(true);
    }
  }

  // ---- Jobs ----

  function Begun(s: State, job: Job): State {
    s.(active := s.active[job.drone := job], begun := s.begun + [job.id])
  }

  /** `jobId`: only that job, if given. */
  predicate Ends(s: State, drone: Drone, jobId: Option<nat>) {
    drone in s.active && (jobId.Some? ==> s.active[drone].id == jobId.value)
  }

  function End(s: State, drone: Drone, result: string, jobId: Option<nat>): State {
    if !Ends(s, drone, jobId) then s
    else s.(active := s.active - {drone}, history := s.history + [s.active[drone].(result := Some(result))])
  }

  function Updated(s: State, drone: Drone, text: string): State {
    if drone !in s.active then s else s.(active := s.active[drone := s.active[drone].(text := text)])
  }

  class JobStore {
    var active: map<Drone, Job>
    var history: seq<Job>
    ghost var begun: seq<nat>

    constructor ()
      ensures active == map[] && history == [] && begun == []
    {
      active, history, begun := map[], [], [];
    }

    ghost predicate Holds(s: State)
      reads this
    {
      active == s.active && history == s.history && begun == s.begun
    }

    /** `id` is the new job's, made from the clock and random digits. */
    method Begin(ghost s: State, drone: Drone, plugin: Plugin, operator: Operator, id: nat) returns (r: Result<Job, Plugin>)
      requires Holds(s)
      modifies this
      ensures r.Ok? <==> drone !in s.active
      ensures r.Ok? ==> r.value == Job(id, drone, plugin, operator, "", None) && Holds(Begun(s, r.value))
      ensures r.Err? ==> Holds(s)
    {
      if drone in active {
        return Err(active[drone].plugin);
      }
      var j := Job(id, drone, plugin, operator, "", None);
      active := active[drone := j];
      begun := begun + [id];
      return Ok(j);
    }

    method UpdateJob(ghost s: State, drone: Drone, text: string)
      requires Holds(s)
      modifies this
      ensures Holds(Updated(s, drone, text))
    {
      if drone in active {
        active := active[drone := active[drone].(text := text)];
      }
    }

    method EndJob(ghost s: State, drone: Drone, result: string, jobId: Option<nat>) returns (ended: Option<Job>)
      requires Holds(s)
      modifies this
      ensures Holds(End(s, drone, result, jobId))
      ensures ended == if Ends(s, drone, jobId) then Some(s.active[drone].(result := Some(result))) else None
    {
      if drone !in active || (jobId.Some? && active[drone].id != jobId.value) {
        return None;
      }
      var j := active[drone].(result := Some(result));
      active := active - {drone};
      history := history + [j];
      return Some(j);
    }
  }

  // ---- The handlers on values ----

  /** After a job of this plugin ended: its hold is given up. */
  function Freed(s: State, drone: Drone, plugin: Plugin, now: real): State {
    if plugin !in s.plugins then s
    else if Holder(s.holders, drone, now) == Some(s.plugins[plugin]) then s.(holders := s.holders - {drone})
    else s.(holders := Asked(s.holders, drone, now))
  }

  predicate FliesJob(s: State, drone: Drone, operator: Operator)
    requires drone in s.active
  {
    s.active[drone].plugin in s.plugins && operator == s.plugins[s.active[drone].plugin]
  }

  function StopJob(s: State, drone: Drone, operator: Operator, now: real): State {
    if drone !in s.active || FliesJob(s, drone, operator) then s
    else Freed(End(s, drone, "stopped", None), drone, s.active[drone].plugin, now)
  }

  datatype Command = Ending | Safety | Other

  datatype Event =
    | TakeControl(drone: Drone, operator: Operator, force: bool, now: real)
    | ReleaseControl(drone: Drone, operator: Operator, force: bool, now: real)
    | StartJob(drone: Drone, plugin: Plugin, operator: Operator, id: nat, answer: Option<string>, now: real)
    | UpdateJob(drone: Drone, operator: Operator, text: string, now: real)
    | EndJob(drone: Drone, operator: Operator, jobId: Option<nat>, result: string, now: real)
    | RunCommand(drone: Drone, operator: Operator, command: Command, now: real)
    | CommandDone(drone: Drone, operator: Operator, command: Command, now: real)
    | Orphaned(drone: Drone, now: real)
    | PluginLost(drone: Drone, lost: nat, now: real)

  function Took(s: State, drone: Drone, operator: Operator, force: bool, now: real): State {
    if !MayClaim(s.holders, drone, operator, force, now) then s
    else
      var t := s.(holders := Claimed(s.holders, drone, operator, now));
      if Holder(s.holders, drone, now) in {None, Some(operator)} then t else StopJob(t, drone, operator, now)
  }

  function Started(s: State, drone: Drone, plugin: Plugin, operator: Operator, id: nat, answer: Option<string>, now: real): State {
    if plugin !in s.plugins then s
    else
      var a := s.(holders := Asked(s.holders, drone, now));
      if Holder(s.holders, drone, now) !in {None, Some(operator), Some(s.plugins[plugin])} || drone in s.active then a
      else
        var b := Begun(a, Job(id, drone, plugin, operator, "", None));
        var c := b.(holders := Claimed(b.holders, drone, s.plugins[plugin], now));
        if answer.Some? then Updated(c, drone, answer.value) else
          var d := End(c, drone, "failed", None);
          d.(holders := d.holders - {drone})
  }

  function EndedBy(s: State, drone: Drone, operator: Operator, jobId: Option<nat>, result: string, now: real): State {
    if !Ends(s, drone, jobId) then s
    else if FliesJob(s, drone, operator) then Freed(End(s, drone, result, None), drone, s.active[drone].plugin, now)
    else StopJob(s, drone, operator, now)
  }

  predicate MayCommand(s: State, drone: Drone, operator: Operator, command: Command, now: real) {
    command != Other || Holder(s.holders, drone, now) in {None, Some(operator)}
  }

  /** Before the command is carried out. */
  function Commanded(s: State, drone: Drone, operator: Operator, command: Command, now: real): State {
    if Holder(s.holders, drone, now) !in {None, Some(operator)} then s
    else s.(holders := Claimed(s.holders, drone, operator, now))
  }

  /** After the command went through, which takes a while. */
  function AfterCommand(s: State, drone: Drone, operator: Operator, command: Command, now: real): State {
    if command == Ending then StopJob(s, drone, operator, now) else s
  }

  function Step(s: State, e: Event): State {
    match e
    case TakeControl(drone, operator, force, now) => Took(s, drone, operator, force, now)
    case ReleaseControl(drone, operator, force, now) =>
      if MayRelease(s.holders, drone, operator, force, now) then s.(holders := s.holders - {drone}) else s
    case StartJob(drone, plugin, operator, id, answer, now) => Started(s, drone, plugin, operator, id, answer, now)
    case UpdateJob(drone, operator, text, now) =>
      if drone in s.active && FliesJob(s, drone, operator) then Updated(s, drone, text) else s
    case EndJob(drone, operator, jobId, result, now) => EndedBy(s, drone, operator, jobId, result, now)
    case RunCommand(drone, operator, command, now) => Commanded(s, drone, operator, command, now)
    case CommandDone(drone, operator, command, now) => AfterCommand(s, drone, operator, command, now)
    case Orphaned(drone, now) =>
      if drone !in s.active then s else Freed(End(s, drone, "failed", None), drone, s.active[drone].plugin, now)
    case PluginLost(drone, jobId, now) =>
      if !Ends(s, drone, Some(jobId)) then s else Freed(End(s, drone, "failed", Some(jobId)), drone, s.active[drone].plugin, now)
  }

  // ---- The fleet API ----

  class FleetApi {
    const plugins: map<Plugin, Operator>
    const control: Control
    const jobs: JobStore

    constructor (plugins: map<Plugin, Operator>)
      ensures this.plugins == plugins && fresh(control) && fresh(jobs)
      ensures Now() == State(plugins, map[], map[], [], [])
    {
      this.plugins := plugins;
      control := new Control();
      jobs := new JobStore();
    }

    ghost function Now(): State
      reads control, jobs
    {
      State(plugins, control.holders, jobs.active, jobs.history, jobs.begun)
    }

    method FreeDrone(drone: Drone, plugin: Plugin, now: real)
      modifies control
      ensures Now() == Freed(old(Now()), drone, plugin, now)
    {
      if plugin in plugins {
        var holder := control.WhoHolds(drone, now);
        if holder == Some(plugins[plugin]) {
          var _ := control.Release(drone, plugins[plugin], true, now);
        }
      }
    }

    method StopJobOf(drone: Drone, operator: Operator, now: real)
      modifies control, jobs
      ensures Now() == StopJob(old(Now()), drone, operator, now)
    {
      if drone !in jobs.active {
        return;
      }
      var plugin := jobs.active[drone].plugin;
      if plugin in plugins && operator == plugins[plugin] {
        return;
      }
      var _ := jobs.EndJob(Now(), drone, "stopped", None);
      FreeDrone(drone, plugin, now);
    }

    method HandleTakeControl(drone: Drone, operator: Operator, force: bool, now: real)
      modifies control, jobs
      ensures Now() == Step(old(Now()), TakeControl(drone, operator, force, now))
    {
      var claimed := control.Claim(drone, operator, force, now);
      if claimed.Ok? && claimed.value.Some? {
        StopJobOf(drone, operator, now);
      }
    }

    method HandleReleaseControl(drone: Drone, operator: Operator, force: bool, now: real)
      modifies control
      ensures Now() == Step(old(Now()), ReleaseControl(drone, operator, force, now))
    {
      var _ := control.Release(drone, operator, force, now);
    }

    /** `id` is the new job's id, `answer` the text of the plugin's reply if it accepts. */
    method HandleStartJob(drone: Drone, plugin: Plugin, operator: Operator, id: nat, answer: Option<string>, now: real)
      modifies control, jobs
      ensures Now() == Step(old(Now()), StartJob(drone, plugin, operator, id, answer, now))
    {
      if plugin !in plugins {
        return;
      }
      var m := plugins[plugin];
      var holder := control.WhoHolds(drone, now);
      if holder.Some? && holder.value != operator && holder.value != m {
        return;
      }
      var job := jobs.Begin(Now(), drone, plugin, operator, id);
      if job.Err? {
        return;
      }
      var _ := control.Claim(drone, m, true, now);
      if answer.Some? {
        jobs.UpdateJob(Now(), drone, answer.value);
      } else {
        var _ := jobs.EndJob(Now(), drone, "failed", None);
        var _ := control.Release(drone, m, true, now);
      }
    }

    method HandleUpdateJob(drone: Drone, operator: Operator, text: string, now: real)
      modifies jobs
      ensures Now() == Step(old(Now()), UpdateJob(drone, operator, text, now))
    {
      if drone in jobs.active {
        var plugin := jobs.active[drone].plugin;
        if plugin in plugins && operator == plugins[plugin] {
          jobs.UpdateJob(Now(), drone, text);
        }
      }
    }

    method HandleEndJob(drone: Drone, operator: Operator, jobId: Option<nat>, result: string, now: real)
      modifies control, jobs
      ensures Now() == Step(old(Now()), EndJob(drone, operator, jobId, result, now))
    {
      if drone !in jobs.active || (jobId.Some? && jobs.active[drone].id != jobId.value) {
        return;
      }
      var plugin := jobs.active[drone].plugin;
      if plugin in plugins && operator == plugins[plugin] {
        var _ := jobs.EndJob(Now(), drone, result, None);
        FreeDrone(drone, plugin, now);
      } else {
        StopJobOf(drone, operator, now);
      }
    }

    /** The handler up to the command itself, which it carries out if `may`. */
    method HandleCommand(drone: Drone, operator: Operator, command: Command, now: real) returns (may: bool)
      modifies control
      ensures may == MayCommand(old(Now()), drone, operator, command, now)
      ensures Now() == Step(old(Now()), RunCommand(drone, operator, command, now))
    {
      var holder := control.WhoHolds(drone, now);
      if command != Other {
        if holder == None || holder == Some(operator) {
          var _ := control.Claim(drone, operator, false, now);
        }
        return true;
      }
      var claimed := control.Claim(drone, operator, false, now);
      return claimed.Ok?;
    }

    /** The rest of the handler, once the command went through. */
    method HandleCommandDone(drone: Drone, operator: Operator, command: Command, now: real)
      modifies control, jobs
      ensures Now() == Step(old(Now()), CommandDone(drone, operator, command, now))
    {
      if command == Ending {
        StopJobOf(drone, operator, now);
      }
    }

    /** `check_orphans` gives up on the job of a drone that landed. */
    method EndOrphan(drone: Drone, now: real)
      modifies control, jobs
      ensures Now() == Step(old(Now()), Orphaned(drone, now))
    {
      if drone in jobs.active {
        var plugin := jobs.active[drone].plugin;
        var _ := jobs.EndJob(Now(), drone, "failed", None);
        FreeDrone(drone, plugin, now);
      }
    }

    /** `check_plugins` gives up on a job; it may have ended meanwhile. */
    method EndLost(drone: Drone, jobId: nat, plugin: Plugin, now: real)
      requires drone in jobs.active && jobs.active[drone].id == jobId ==> jobs.active[drone].plugin == plugin
      modifies control, jobs
      ensures Now() == Step(old(Now()), PluginLost(drone, jobId, now))
    {
      var ended := jobs.EndJob(Now(), drone, "failed", Some(jobId));
      if ended.Some? {
        FreeDrone(drone, plugin, now);
      }
    }
  }

  // ---- Every job's drone is held by its plugin ----

  predicate PluginHolds(s: State, drone: Drone)
    requires drone in s.active
  {
    && drone in s.holders && s.active[drone].plugin in s.plugins
    && s.holders[drone].operator == s.plugins[s.active[drone].plugin]
  }

  /** Every drone with a job is held by the job's plugin. */
  predicate PluginsHold(s: State) {
    forall d :: d in s.active ==> PluginHolds(s, d)
  }

  /** No hold of a drone with a job has lapsed. */
  predicate NoLapse(s: State, now: real) {
    forall d :: d in s.active ==> Lasts(s.holders, d, now)
  }

  /** Not a release of a drone that has a job, by its plugin or by force. */
  predicate Tame(s: State, e: Event) {
    e.ReleaseControl? && e.drone in s.active ==> !e.force && !FliesJob(s, e.drone, e.operator)
  }

  /** Stopping a job is in order whoever holds the drone by now. */
  lemma StopKeepsPluginsHold(s: State, drone: Drone, operator: Operator, now: real)
    requires forall d :: d in s.active && d != drone ==> PluginHolds(s, d)
    requires drone in s.active && FliesJob(s, drone, operator) ==> PluginHolds(s, drone)
    ensures PluginsHold(StopJob(s, drone, operator, now))
  {
  }

  lemma StepKeepsPluginsHold(s: State, e: Event)
    requires PluginsHold(s) && NoLapse(s, e.now) && Tame(s, e)
    ensures PluginsHold(Step(s, e))
  {
    hide StopJob;
    match e
    case TakeControl(drone, operator, force, now) =>
      StopKeepsPluginsHold(s.(holders := Claimed(s.holders, drone, operator, now)), drone, operator, now);
    case EndJob(drone, operator, jobId, result, now) =>
      StopKeepsPluginsHold(s, drone, operator, now);
    case CommandDone(drone, operator, command, now) =>
      StopKeepsPluginsHold(s, drone, operator, now);
    case _ =>
  }

  /** While nothing has lapsed, a release of a drone that has a job is all that breaks it. */
  lemma ReleaseBreaksPluginsHold(s: State, drone: Drone, operator: Operator, force: bool, now: real)
    requires PluginsHold(s) && NoLapse(s, now)
    ensures PluginsHold(Step(s, ReleaseControl(drone, operator, force, now)))
            <==> Tame(s, ReleaseControl(drone, operator, force, now))
  {
  }

  /** A drone with a job can be had by someone else without ending the job exactly when the plugin's hold has lapsed. */
  lemma LapseLetsOthersIn(s: State, drone: Drone, operator: Operator, force: bool, now: real)
    requires PluginsHold(s) && drone in s.active && !FliesJob(s, drone, operator)
    ensures (var t := Step(s, TakeControl(drone, operator, force, now));
             drone in t.active && Holder(t.holders, drone, now) == Some(operator) <==> !Lasts(s.holders, drone, now))
  {
  }

  /** What ends a job: its plugin or anyone else saying so, a take-over, a command that brings the drone down by anyone
      but the plugin, and the watchdogs. Holding, and the plugin's own landing, do not. */
  predicate Finishes(s: State, e: Event, drone: Drone)
    requires drone in s.active
  {
    e.drone == drone &&
      match e
      case TakeControl(_, operator, force, now) => force && !FliesJob(s, drone, operator)
      case CommandDone(_, operator, command, now) => command == Ending && !FliesJob(s, drone, operator)
      case EndJob(_, operator, jobId, result, now) => jobId.Some? ==> jobId.value == s.active[drone].id
      case Orphaned(_, now) => true
      case PluginLost(_, lost, now) => lost == s.active[drone].id
      case _ => false
  }

  /** Then the history gains the job, with the plugin's result, or as stopped by someone else or failed by a watchdog, and the
      drone is free, or whoever took it over has it; and until then only its plugin changes its text, and nothing else of it changes. */
  lemma JobEndsExactlyWhen(s: State, e: Event, drone: Drone)
    requires PluginsHold(s) && NoLapse(s, e.now) && drone in s.active
    ensures drone !in Step(s, e).active <==> Finishes(s, e, drone)
    ensures Finishes(s, e, drone) ==>
              (var how := if e.EndJob? && FliesJob(s, drone, e.operator) then e.result
                          else if e.Orphaned? || e.PluginLost? then "failed" else "stopped";
               && Step(s, e).history == s.history + [s.active[drone].(result := Some(how))]
               && Holder(Step(s, e).holders, drone, e.now) == if e.TakeControl? then Some(e.operator) else None)
    ensures drone in Step(s, e).active ==>
              Step(s, e).active[drone]
              == if e.UpdateJob? && e.drone == drone && FliesJob(s, drone, e.operator) then s.active[drone].(text := e.text)
                 else s.active[drone]
  {
  }

  /** May this start a job of the plugin on the drone? The plugin is known, and the drone has no job and is free, or held by
      whoever starts it or by the plugin. */
  predicate MayStart(s: State, drone: Drone, plugin: Plugin, operator: Operator, now: real) {
    && plugin in s.plugins && drone !in s.active
    && (Holder(s.holders, drone, now).Some? ==> Holder(s.holders, drone, now).value in {operator, s.plugins[plugin]})
  }

  /** A drone without a job gets one exactly if someone who may starts it and its plugin accepts; the plugin then holds the
      drone. One the plugin refuses is in the history as failed, and the drone is free. */
  lemma JobBeginsExactlyWhen(s: State, e: Event, drone: Drone)
    requires drone !in s.active
    ensures (var t := Step(s, e);
             var starts := e.StartJob? && e.drone == drone && MayStart(s, drone, e.plugin, e.operator, e.now);
             && (drone in t.active <==> starts && e.answer.Some?)
             && (starts && e.answer.Some? ==>
                   && t.active[drone] == Job(e.id, drone, e.plugin, e.operator, e.answer.value, None)
                   && t.begun == s.begun + [e.id] && Holder(t.holders, drone, e.now) == Some(s.plugins[e.plugin]))
             && (starts && e.answer.None? ==>
                   && t.history == s.history + [Job(e.id, drone, e.plugin, e.operator, "", Some("failed"))]
                   && t.begun == s.begun + [e.id] && Holder(t.holders, drone, e.now) == None)
             && (!e.StartJob? || !MayStart(s, e.drone, e.plugin, e.operator, e.now) ==> t.begun == s.begun))
  {
  }

  // ---- Who holds a drone ----

  /** What takes a drone from a person who holds it: someone who takes it over by force, their release or a forced one, and a
      job that they start themselves. */
  predicate Loses(s: State, e: Event, drone: Drone, operator: Operator) {
    e.drone == drone &&
      match e
      case TakeControl(_, other, force, _) => force && other != operator
      case ReleaseControl(_, other, force, _) => force || other == operator
      case StartJob(_, plugin, other, _, _, _) => other == operator && plugin in s.plugins && drone !in s.active
      case _ => false
  }

  /** A person's hold outlasts everything else, commands and jobs of others included. */
  lemma HoldIsLostExactly(s: State, e: Event, drone: Drone, operator: Operator)
    requires Holder(s.holders, drone, e.now) == Some(operator)
    requires forall m :: m in s.plugins ==> s.plugins[m] != operator
    ensures Holder(Step(s, e).holders, drone, e.now) == Some(operator) <==> !Loses(s, e, drone, operator)
  {
  }

  /** A free drone, or one's own, is held by whoever commands it or takes it, from then on; someone else's is not, unless it
      is taken by force. */
  lemma CommandTakesHold(s: State, drone: Drone, operator: Operator, command: Command, force: bool, now: real)
    ensures (var free := Holder(s.holders, drone, now).None? || Holder(s.holders, drone, now).value == operator;
             && (MayCommand(s, drone, operator, command, now) <==> command != Other || free)
             && Holder(Step(s, RunCommand(drone, operator, command, now)).holders, drone, now)
                == (if free then Some(operator) else Holder(s.holders, drone, now))
             && Holder(Step(s, TakeControl(drone, operator, force, now)).holders, drone, now)
                == (if free || force then Some(operator) else Holder(s.holders, drone, now))
             && (free ==> Step(s, RunCommand(drone, operator, command, now)).holders[drone]
                          == Hold(operator, if Lasts(s.holders, drone, now) then s.holders[drone].since else now, now)))
  {
  }

  // ---- Every job is kept once ----

  predicate Running(s: State, id: nat) {
    exists d :: d in s.active && s.active[d].id == id
  }

  predicate Over(s: State, id: nat) {
    exists k :: 0 <= k < |s.history| && s.history[k].id == id
  }

  /** The active jobs and the history hold each begun job once, and no other. */
  predicate Ledger(s: State) {
    && (forall d :: d in s.active ==> s.active[d].drone == d && s.active[d].id in s.begun && s.active[d].result.None?)
    && (forall d, d' :: d in s.active && d' in s.active && d != d' ==> s.active[d].id != s.active[d'].id)
    && (forall k :: 0 <= k < |s.history| ==> s.history[k].id in s.begun && s.history[k].result.Some?)
    && (forall k, k' :: 0 <= k < k' < |s.history| ==> s.history[k].id != s.history[k'].id)
    && (forall d, k :: d in s.active && 0 <= k < |s.history| ==> s.active[d].id != s.history[k].id)
    && (forall id :: id in s.begun ==> Running(s, id) || Over(s, id))
  }

  /** A new job's id is new. */
  predicate NewId(s: State, e: Event) {
    e.StartJob? ==> e.id !in s.begun
  }

  /** A begun job is still somewhere after the end of one. */
  lemma EndLosesNone(s: State, drone: Drone, result: string, jobId: Option<nat>, id: nat)
    requires Ends(s, drone, jobId) && (Running(s, id) || Over(s, id))
    ensures Running(End(s, drone, result, jobId), id) || Over(End(s, drone, result, jobId), id)
  {
    var t := End(s, drone, result, jobId);
    if Running(s, id) {
      var d :| d in s.active && s.active[d].id == id;
      assert d == drone ==> t.history[|s.history|].id == id;
      assert d != drone ==> d in t.active && t.active[d].id == id;
    } else {
      var k :| 0 <= k < |s.history| && s.history[k].id == id;
      assert t.history[k].id == id;
    }
  }

  lemma EndKeepsLedger(s: State, drone: Drone, result: string, jobId: Option<nat>)
    requires Ledger(s)
    ensures Ledger(End(s, drone, result, jobId)) && s.history <= End(s, drone, result, jobId).history
  {
    hide Running, Over;
    if Ends(s, drone, jobId) {
      forall id | id in s.begun
        ensures Running(End(s, drone, result, jobId), id) || Over(End(s, drone, result, jobId), id)
      {
        EndLosesNone(s, drone, result, jobId, id);
      }
    }
  }

  lemma BeginKeepsLedger(s: State, job: Job)
    requires Ledger(s) && job.drone !in s.active && job.id !in s.begun && job.result.None?
    ensures Ledger(Begun(s, job))
  {
    var t := Begun(s, job);
    forall id | id in t.begun
      ensures Running(t, id) || Over(t, id)
    {
      if id == job.id {
        assert t.active[job.drone].id == id;
      } else if Running(s, id) {
        var d :| d in s.active && s.active[d].id == id;
        assert t.active[d].id == id;
      } else {
        assert Over(s, id);
      }
    }
  }

  lemma UpdateKeepsLedger(s: State, drone: Drone, text: string)
    requires Ledger(s)
    ensures Ledger(Updated(s, drone, text))
  {
    var t := Updated(s, drone, text);
    forall id | id in t.begun
      ensures Running(t, id) || Over(t, id)
    {
      if Running(s, id) {
        var d :| d in s.active && s.active[d].id == id;
        assert t.active[d].id == id;
      } else {
        assert Over(s, id);
      }
    }
  }

  /** The holds play no part in the ledger. */
  lemma HoldsDoNotMatter(s: State, t: State)
    requires Ledger(s) && t == s.(holders := t.holders)
    ensures Ledger(t)
  {
  }

  lemma EndAndFreeKeepLedger(s: State, drone: Drone, result: string, jobId: Option<nat>, plugin: Plugin, now: real)
    requires Ledger(s)
    ensures (var t := Freed(End(s, drone, result, jobId), drone, plugin, now);
             Ledger(t) && s.history <= t.history)
  {
    hide Ledger;
    var t := End(s, drone, result, jobId);
    EndKeepsLedger(s, drone, result, jobId);
    HoldsDoNotMatter(t, Freed(t, drone, plugin, now));
  }

  lemma StopKeepsLedger(s: State, drone: Drone, operator: Operator, now: real)
    requires Ledger(s)
    ensures Ledger(StopJob(s, drone, operator, now)) && s.history <= StopJob(s, drone, operator, now).history
  {
    hide Ledger, Freed, End;
    if drone in s.active {
      EndAndFreeKeepLedger(s, drone, "stopped", None, s.active[drone].plugin, now);
    }
  }

  lemma StartKeepsLedger(s: State, drone: Drone, plugin: Plugin, operator: Operator, id: nat, answer: Option<string>, now: real)
    requires Ledger(s) && id !in s.begun
    ensures (var t := Started(s, drone, plugin, operator, id, answer, now);
             Ledger(t) && s.history <= t.history)
  {
    hide Ledger;
    var a := s.(holders := Asked(s.holders, drone, now));
    HoldsDoNotMatter(s, a);
    if plugin in s.plugins && drone !in s.active {
      var job := Job(id, drone, plugin, operator, "", None);
      var b := Begun(a, job);
      BeginKeepsLedger(a, job);
      var c := b.(holders := Claimed(b.holders, drone, s.plugins[plugin], now));
      HoldsDoNotMatter(b, c);
      if answer.Some? {
        UpdateKeepsLedger(c, drone, answer.value);
        UpdateKeepsHistory(c, drone, answer.value);
      }
      EndKeepsLedger(c, drone, "failed", None);
      var d := End(c, drone, "failed", None);
      HoldsDoNotMatter(d, d.(holders := d.holders - {drone}));
    }
  }

  /** Every handler keeps the ledger, whatever lapses and whoever releases; and what is in the history stays as it is. */
  lemma StepKeepsLedger(s: State, e: Event)
    requires Ledger(s) && NewId(s, e)
    ensures Ledger(Step(s, e)) && s.history <= Step(s, e).history
  {
    hide Ledger, StopJob, Started, End, Freed, Updated;
    match e
    case TakeControl(drone, operator, force, now) =>
      var t := s.(holders := Claimed(s.holders, drone, operator, now));
      HoldsDoNotMatter(s, t);
      StopKeepsLedger(t, drone, operator, now);
    case ReleaseControl(drone, operator, force, now) =>
      HoldsDoNotMatter(s, s.(holders := s.holders - {drone}));
    case StartJob(drone, plugin, operator, id, answer, now) =>
      StartKeepsLedger(s, drone, plugin, operator, id, answer, now);
    case UpdateJob(drone, operator, text, now) =>
      UpdateKeepsLedger(s, drone, text);
      assert Updated(s, drone, text).history == s.history by { UpdateKeepsHistory(s, drone, text); }
    case EndJob(drone, operator, jobId, result, now) =>
      if drone in s.active {
        EndAndFreeKeepLedger(s, drone, result, None, s.active[drone].plugin, now);
      }
      StopKeepsLedger(s, drone, operator, now);
    case RunCommand(drone, operator, command, now) =>
      HoldsDoNotMatter(s, s.(holders := Claimed(s.holders, drone, operator, now)));
    case CommandDone(drone, operator, command, now) =>
      StopKeepsLedger(s, drone, operator, now);
    case Orphaned(drone, now) =>
      if drone in s.active {
        EndAndFreeKeepLedger(s, drone, "failed", None, s.active[drone].plugin, now);
      }
    case PluginLost(drone, lost, now) =>
      if drone in s.active {
        EndAndFreeKeepLedger(s, drone, "failed", Some(lost), s.active[drone].plugin, now);
      }
  }

  lemma UpdateKeepsHistory(s: State, drone: Drone, text: string)
    ensures Updated(s, drone, text).history == s.history
  {
  }

  // ---- Runs ----

  function Run(plugins: map<Plugin, Operator>, events: seq<Event>): State {
    if events == [] then State(plugins, map[], map[], [], [])
    else Step(Run(plugins, events[..|events| - 1]), events[|events| - 1])
  }

  predicate NewIds(plugins: map<Plugin, Operator>, events: seq<Event>) {
    forall k :: 0 <= k < |events| ==> NewId(Run(plugins, events[..k]), events[k])
  }

  /** No hold of a drone with a job lapses, and none is released. */
  predicate HoldsStay(plugins: map<Plugin, Operator>, events: seq<Event>) {
    forall k :: 0 <= k < |events| ==>
      Tame(Run(plugins, events[..k]), events[k]) && NoLapse(Run(plugins, events[..k]), events[k].now)
  }

  lemma {:induction false} RunKeepsLedger(plugins: map<Plugin, Operator>, events: seq<Event>, n: nat)
    requires NewIds(plugins, events) && n <= |events|
    ensures Ledger(Run(plugins, events[..n]))
  {
    hide Step, Ledger;
    if n == 0 {
      EmptyLedger(plugins);
    } else {
      RunKeepsLedger(plugins, events, n - 1);
      assert events[..n][..n - 1] == events[..n - 1];
      StepKeepsLedger(Run(plugins, events[..n - 1]), events[n - 1]);
    }
  }

  lemma EmptyLedger(plugins: map<Plugin, Operator>)
    ensures Ledger(State(plugins, map[], map[], [], []))
  {
  }

  /** In every run, every job ever begun is active or over, never both, on one drone or in one place of the history;
      and what the history held earlier it still holds, unchanged. */
  lemma {:induction false} EveryJobIsKeptOnce(plugins: map<Plugin, Operator>, events: seq<Event>, n: nat)
    requires NewIds(plugins, events) && n <= |events|
    ensures (var s, earlier := Run(plugins, events), Run(plugins, events[..n]);
             && (forall id :: id in s.begun ==> Running(s, id) != Over(s, id))
             && (forall d, d' :: d in s.active && d' in s.active && s.active[d].id == s.active[d'].id ==> d == d')
             && (forall k, k' :: 0 <= k < |s.history| && 0 <= k' < |s.history| && s.history[k].id == s.history[k'].id ==> k == k')
             && earlier.history <= s.history)
    decreases |events| - n
  {
    if n == |events| {
      assert events[..n] == events;
      RunKeepsLedger(plugins, events, n);
    } else {
      EveryJobIsKeptOnce(plugins, events, n + 1);
      RunKeepsLedger(plugins, events, n);
      assert events[..n + 1][..n] == events[..n];
      StepKeepsLedger(Run(plugins, events[..n]), events[n]);
    }
  }

  /** In every run without a lapse or a release during a job, a drone with a job is held by the job's plugin. */
  lemma {:induction false} PluginHoldsItsDrone(plugins: map<Plugin, Operator>, events: seq<Event>, n: nat)
    requires HoldsStay(plugins, events) && n <= |events|
    ensures PluginsHold(Run(plugins, events[..n]))
  {
    hide Step, PluginsHold, NoLapse, Tame;
    if n == 0 {
      NoJobsNoHolds(plugins);
    } else {
      PluginHoldsItsDrone(plugins, events, n - 1);
      assert events[..n][..n - 1] == events[..n - 1];
      StepKeepsPluginsHold(Run(plugins, events[..n - 1]), events[n - 1]);
    }
  }

  lemma NoJobsNoHolds(plugins: map<Plugin, Operator>)
    ensures PluginsHold(State(plugins, map[], map[], [], []))
  {
  }

  /** A run in which someone gets a drone while its job goes on: the plugin's hold lapsed after 15 minutes. */
  lemma LapsedHoldIsTaken(plugins: map<Plugin, Operator>)
    requires plugins == map[0 := 100]
    ensures (var s := Run(plugins, [StartJob(5, 0, 1, 7, Some("patrol"), 0.0), TakeControl(5, 2, false, 901.0)]);
             5 in s.active && s.active[5].id == 7 && Holder(s.holders, 5, 901.0) == Some(2))
  {
    var e := [StartJob(5, 0, 1, 7, Some("patrol"), 0.0), TakeControl(5, 2, false, 901.0)];
    assert e[..1] == [e[0]] && e[..1][..0] == [];
    assert Run(plugins, e[..1]) == Step(State(plugins, map[], map[], [], []), e[0]);
  }

  function After(s: State, events: seq<Event>): State {
    if events == [] then s else Step(After(s, events[..|events| - 1]), events[|events| - 1])
  }

  predicate Holds(s: State, drone: Drone, operator: Operator) {
    drone in s.holders && s.holders[drone].operator == operator
  }

  /** None of the events takes the hold, and it lapses before none of them. */
  predicate HoldUntouched(s: State, events: seq<Event>, drone: Drone, operator: Operator) {
    events == []
    || (var before, e := After(s, events[..|events| - 1]), events[|events| - 1];
        && HoldUntouched(s, events[..|events| - 1], drone, operator)
        && !Loses(before, e, drone, operator) && Lasts(before.holders, drone, e.now))
  }

  /** In every run: a person who has a drone keeps it through all that follows, and any command of someone else but a safety
      command is refused, until they lose it or it lapses. */
  lemma {:induction false} HoldIsExclusive(s: State, events: seq<Event>, drone: Drone, operator: Operator)
    requires Holds(s, drone, operator) && forall m :: m in s.plugins ==> s.plugins[m] != operator
    requires HoldUntouched(s, events, drone, operator)
    ensures (var t := After(s, events);
             && Holds(t, drone, operator) && t.plugins == s.plugins
             && forall now, other :: Lasts(t.holders, drone, now) && other != operator ==> !MayCommand(t, drone, other, Other, now))
  {
    if events != [] {
      hide Step, Loses;
      var n := |events| - 1;
      HoldIsExclusive(s, events[..n], drone, operator);
      StepKeepsPlugins(After(s, events[..n]), events[n]);
      HoldIsLostExactly(After(s, events[..n]), events[n], drone, operator);
    }
  }

  lemma StepKeepsPlugins(s: State, e: Event)
    ensures Step(s, e).plugins == s.plugins
  {
  }
}
