/** The watchdog over the plugins (`check_plugins` in `fleet_api/app.py`), among other handlers. */
module JobWatch {
  import opened Planar
  import opened JobControl

  /** One liveness check: of which job, in the round of which time, did the plugin answer, was its onboard part flying. */
  datatype Probe = Probe(job: nat, at: real, answered: bool, flying: bool)

  /** Jobs whose plugin does not answer, each with the time of its first failed check; and all checks so far. */
  datatype Watch = Watch(lost: map<nat, real>, probes: seq<Probe>)

  // ---- The watchdog's steps on values ----

  function Pruned(w: Watch, ids: set<nat>): Watch {
    w.(lost := map id | id in w.lost && id in ids :: w.lost[id])
  }

  /** The time of the first failed check of the row that this one belongs to. */
  function Since(w: Watch, p: Probe): real {
    if p.job in w.lost then w.lost[p.job] else p.at
  }

  predicate GivesUp(w: Watch, p: Probe) {
    !p.answered && p.at - Since(w, p) >= PLUGIN_LOST && !p.flying
  }

  function Checked(w: Watch, p: Probe): Watch {
    Watch(if p.answered || GivesUp(w, p) then w.lost - {p.job} else w.lost[p.job := Since(w, p)], w.probes + [p])
  }

  class PluginWatch {
    var lost: map<nat, real>
    ghost var probes: seq<Probe>

    ghost function Now(): Watch
      reads this
    {
      Watch(lost, probes)
    }

    constructor ()
      ensures Now() == Watch(map[], [])
    {
      lost, probes := map[], [];
    }

    /** A round starts: jobs that are no longer active are forgotten. */
    method Prune(ids: set<nat>)
      modifies this
      ensures Now() == Pruned(old(Now()), ids)
      ensures forall id :: id in lost <==> id in old(lost) && id in ids
    {
      lost := map id | id in lost && id in ids :: lost[id];
    }

    /** The liveness check of one job; true when the job is to be ended. */
    method Check(job: nat, at: real, answered: bool, flying: bool) returns (giveUp: bool)
      modifies this
      ensures Now() == Checked(old(Now()), Probe(job, at, answered, flying))
      ensures giveUp == GivesUp(old(Now()), Probe(job, at, answered, flying))
    {
      probes := probes + [Probe(job, at, answered, flying)];
      if answered {
        lost := lost - {job};
        return false;
      }
      if job !in lost {
        lost := lost[job := at];
      }
      if at - lost[job] < PLUGIN_LOST || flying {
        return false;
      }
      lost := lost - {job};
      return true;
    }
  }

  // ---- Runs among other handlers ----

  /** `round` is what the round saw at its start and its time; `doomed` the job about to be ended. */
  datatype System = System(s: State, w: Watch, round: map<Drone, Job>, at: real, doomed: Option<Job>)

  datatype Move =
    | Handler(e: Event)
    | RoundStarts(now: real)
    | CheckDrone(drone: Drone, starting: bool, answered: bool, flying: bool)
    | EndDoomed(now: real)

  function Ids(jobs: map<Drone, Job>): set<nat> {
    set d | d in jobs :: jobs[d].id
  }

  function Next(y: System, m: Move): System {
    match m
    case Handler(e) => if e.PluginLost? then y else y.(s := Step(y.s, e))
    case RoundStarts(now) =>
      if y.doomed.Some? then y else y.(round := y.s.active, at := now, w := Pruned(y.w, Ids(y.s.active)))
    case CheckDrone(drone, starting, answered, flying) =>
      if y.doomed.Some? || drone !in y.round || starting then y
      else
        var p := Probe(y.round[drone].id, y.at, answered, flying);
        y.(w := Checked(y.w, p), doomed := if GivesUp(y.w, p) then Some(y.round[drone]) else None)
    case EndDoomed(now) =>
      if y.doomed.None? then y
      else y.(s := Step(y.s, PluginLost(y.doomed.value.drone, y.doomed.value.id, now)), doomed := None)
  }

  function Run(plugins: map<Plugin, Operator>, moves: seq<Move>): System {
    if moves == [] then System(State(plugins, map[], map[], [], []), Watch(map[], []), map[], 0.0, None)
    else Next(Run(plugins, moves[..|moves| - 1]), moves[|moves| - 1])
  }

  // ---- What the watchdog may do ----

  /** Every check of the job from check `k` on failed. */
  predicate Failing(probes: seq<Probe>, job: nat, k: nat) {
    forall i :: k <= i < |probes| && probes[i].job == job ==> !probes[i].answered
  }

  predicate FailingSince(probes: seq<Probe>, job: nat, since: real, k: nat) {
    k < |probes| && probes[k].job == job && probes[k].at == since && Failing(probes, job, k)
  }

  /** A job counts as lost since a check from which on every check of it failed. */
  ghost predicate LostIsFailing(w: Watch) {
    forall id :: id in w.lost ==> exists k: nat :: FailingSince(w.probes, id, w.lost[id], k)
  }

  /** The last check was of this job and found nothing flying it, and from some check at least 15 s before it on, every
      check of the job failed. */
  ghost predicate Condemned(probes: seq<Probe>, job: nat) {
    && probes != []
    && (var last := probes[|probes| - 1];
        && last.job == job && !last.flying
        && exists k: nat :: k < |probes| && last.at - probes[k].at >= PLUGIN_LOST && FailingSince(probes, job, probes[k].at, k))
  }

  lemma CheckKeepsFailing(w: Watch, p: Probe)
    requires LostIsFailing(w)
    ensures LostIsFailing(Checked(w, p))
    ensures GivesUp(w, p) ==> Condemned(Checked(w, p).probes, p.job)
  {
    var t := Checked(w, p);
    forall id | id in w.lost && (id == p.job ==> !p.answered)
      ensures exists k: nat :: FailingSince(t.probes, id, w.lost[id], k)
    {
      var k: nat :| FailingSince(w.probes, id, w.lost[id], k);
      assert FailingSince(t.probes, id, w.lost[id], k);
    }
    if p.job !in w.lost && !p.answered {
      assert FailingSince(t.probes, p.job, p.at, |w.probes|);
    }
    if GivesUp(w, p) {
      var k: nat :| FailingSince(t.probes, p.job, Since(w, p), k);
      assert t.probes[|t.probes| - 1] == p;
      assert FailingSince(t.probes, p.job, t.probes[k].at, k);
    }
  }

  ghost predicate Sound(y: System) {
    LostIsFailing(y.w) && (y.doomed.Some? ==> Condemned(y.w.probes, y.doomed.value.id))
  }

  lemma MoveKeepsSound(y: System, m: Move)
    requires Sound(y)
    ensures Sound(Next(y, m))
  {
    hide Condemned, FailingSince, Step, GivesUp;
    if m.CheckDrone? && y.doomed.None? && m.drone in y.round {
      CheckKeepsFailing(y.w, Probe(y.round[m.drone].id, y.at, m.answered, m.flying));
    }
  }

  lemma {:induction false} RunIsSound(plugins: map<Plugin, Operator>, moves: seq<Move>)
    ensures Sound(Run(plugins, moves))
  {
    if moves != [] {
      hide Next, Sound;
      RunIsSound(plugins, moves[..|moves| - 1]);
      MoveKeepsSound(Run(plugins, moves[..|moves| - 1]), moves[|moves| - 1]);
    }
  }

  /** In every run, whatever the other handlers do between the watchdog's check and its end: the watchdog ends no job but
      the one it checked, by that job's id, and only if that job's plugin failed every check over at least 15 s and its
      onboard part was not flying it. */
  lemma WatchdogEndsOnlyLostJobs(plugins: map<Plugin, Operator>, moves: seq<Move>, m: Move, drone: Drone)
    requires !m.Handler? && drone in Run(plugins, moves).s.active
    ensures (var y, t := Run(plugins, moves), Next(Run(plugins, moves), m);
             var job := y.s.active[drone];
             || (drone in t.s.active && t.s.active[drone] == job)
             || (m.EndDoomed? && y.doomed.Some? && y.doomed.value.id == job.id && Condemned(y.w.probes, job.id)
                 && t.s.history == y.s.history + [job.(result := Some("failed"))]))
  {
    hide Condemned, Run, Checked, Pruned, GivesUp, LostIsFailing;
    RunIsSound(plugins, moves);
  }

  // ---- And does ----

  function After(y: System, moves: seq<Move>): System {
    if moves == [] then y else Next(After(y, moves[..|moves| - 1]), moves[|moves| - 1])
  }

  /** The move checks this job. */
  predicate Checks(y: System, m: Move, job: nat) {
    m.CheckDrone? && !m.starting && y.doomed.None? && m.drone in y.round && y.round[m.drone].id == job
  }

  predicate IsDoomed(y: System, job: nat) {
    y.doomed.Some? && y.doomed.value.id == job
  }

  /** Through these moves the job is active, not given up yet, and not answered for. */
  predicate Unheard(y: System, moves: seq<Move>, job: nat) {
    moves == []
    || (var z, m := After(y, moves[..|moves| - 1]), moves[|moves| - 1];
        && Unheard(y, moves[..|moves| - 1], job)
        && job in Ids(z.s.active) && !IsDoomed(z, job) && (Checks(z, m, job) ==> !m.answered))
  }

  predicate LostBy(y: System, job: nat, since: real) {
    job in y.w.lost && y.w.lost[job] <= since
  }

  lemma MoveKeepsLost(y: System, m: Move, job: nat, since: real)
    requires LostBy(y, job, since) && job in Ids(y.s.active) && (Checks(y, m, job) ==> !m.answered)
    ensures LostBy(Next(y, m), job, since) || IsDoomed(Next(y, m), job)
  {
    hide Step, Ids;
  }

  lemma {:induction false} StaysLost(y: System, moves: seq<Move>, job: nat, since: real)
    requires LostBy(y, job, since) && Unheard(y, moves, job)
    ensures LostBy(After(y, moves), job, since) || IsDoomed(After(y, moves), job)
  {
    if moves != [] {
      hide Next, LostBy, IsDoomed, Ids;
      var n := |moves| - 1;
      StaysLost(y, moves[..n], job, since);
      MoveKeepsLost(After(y, moves[..n]), moves[n], job, since);
    }
  }

  /** After a failed check of a job, whatever goes on meanwhile: unless its plugin is heard from, the first check 15 s or more
      later that finds nothing flying it gives it up. */
  lemma LostJobIsGivenUp(y: System, first: Move, moves: seq<Move>, last: Move, job: nat)
    requires Checks(y, first, job) && !first.answered && (job in y.w.lost ==> y.w.lost[job] <= y.at)
    requires Unheard(Next(y, first), moves, job)
    requires var z := After(Next(y, first), moves);
             Checks(z, last, job) && !last.answered && !last.flying && z.at - y.at >= 15.0
    ensures (var z := After(Next(y, first), moves); Next(z, last).doomed == Some(z.round[last.drone]))
  {
    hide Ids, Step;
    if moves != [] {
      NotDoomedAtStart(Next(y, first), moves, job);
    }
    StaysLost(Next(y, first), moves, job, y.at);
  }

  lemma {:induction false} NotDoomedAtStart(y: System, moves: seq<Move>, job: nat)
    requires moves != [] && Unheard(y, moves, job)
    ensures !IsDoomed(y, job)
  {
    if |moves| > 1 {
      NotDoomedAtStart(y, moves[..|moves| - 1], job);
    } else {
      assert moves[..0] == [];
    }
  }
}
