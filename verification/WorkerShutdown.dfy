/**
 One worker process: its scheduled jobs, and its way from a signal to having closed the
 application. The order is fixed (readiness, drain delay, server, jobs, application) and every
 wait is bounded, so a worker whose own close is quick ends before the primary would kill it.
 */
module WorkerShutdown {
  import opened Wrappers
  import ClusterPrimary

  // ---------- The objects ----------

  class ShutdownState {
    var shuttingDown: bool

    constructor ()
      ensures !shuttingDown
    {
      shuttingDown := false;
    }

    /** True for the first caller only. */
    method Begin() returns (first: bool)
      modifies this
      ensures shuttingDown && first == !old(shuttingDown)
    {
      if shuttingDown {
        return false;
      }
      shuttingDown := true;
      return true;
    }
  }

  /** Ticks of a job, and its runs started, skipped and ended. */
  datatype Counts = Counts(ticks: nat, starts: nat, skips: nat, ends: nat)

  const NO_RUNS := Counts(0, 0, 0, 0)

  /** The jobs of one process: which are mid-run, whether the crons still tick, and the runs so far. */
  datatype Jobs = Jobs(running: set<nat>, cronsActive: bool, counts: map<nat, Counts>)

  function Ticked(jobs: Jobs, job: nat): Jobs
    requires job in jobs.counts
  {
    var c := jobs.counts[job];
    if job in jobs.running
    then jobs.(counts := jobs.counts[job := c.(ticks := c.ticks + 1, skips := c.skips + 1)])
    else jobs.(counts := jobs.counts[job := c.(ticks := c.ticks + 1, starts := c.starts + 1)],
               running := jobs.running + {job})
  }

  function RunEnded(jobs: Jobs, job: nat): Jobs
    requires job in jobs.counts
  {
    var c := jobs.counts[job];
    jobs.(counts := jobs.counts[job := c.(ends := c.ends + 1)], running := jobs.running - {job})
  }

  class JobRunner {
    var current: bool
    ghost var counts: Counts

    constructor ()
      ensures !current && counts == NO_RUNS
    {
      current, counts := false, NO_RUNS;
    }

    /** A cron tick: starts the job unless its previous run is still going. */
    method Run() returns (started: bool)
      modifies this
      ensures current && started == !old(current)
      ensures var c := old(counts);
              counts == if started then c.(ticks := c.ticks + 1, starts := c.starts + 1)
                        else c.(ticks := c.ticks + 1, skips := c.skips + 1)
    {
      if current {
        counts := counts.(ticks := counts.ticks + 1, skips := counts.skips + 1);
        return false;
      }
      current := true;
      counts := counts.(ticks := counts.ticks + 1, starts := counts.starts + 1);
      return true;
    }

    /** The run has ended, well or with an error. */
    method Ended()
      modifies this
      ensures !current && counts == old(counts).(ends := old(counts).ends + 1)
    {
      current := false;
      counts := counts.(ends := counts.ends + 1);
    }
  }

  class JobScheduler {
    var registered: seq<JobRunner>
    var cronsActive: bool

    ghost predicate Valid()
      reads this
    {
      && (forall i, j :: 0 <= i < j < |registered| ==> registered[i] != registered[j])
      && (registered == [] ==> !cronsActive)
    }

    ghost function View(): Jobs
      reads this, registered
    {
      Jobs((set i: nat | i < |registered| && registered[i].current),
           cronsActive,
           (map i: nat | i < |registered| :: registered[i].counts))
    }

    constructor ()
      ensures registered == [] && !cronsActive && Valid()
    {
      registered, cronsActive := [], false;
    }

    /** Registers one runner per job, on the leader only when clustered. */
    method Bootstrap(jobs: nat, enabled: bool, clusterEnabled: bool, isLeader: bool)
      requires registered == [] && !cronsActive
      modifies this
      ensures Valid() && forall r <- registered :: fresh(r)
      ensures var n := if ClusterPrimary.SchedulesJobs(enabled, clusterEnabled, isLeader) then jobs else 0;
              View() == NewJobs(n) && |registered| == n
    {
      if enabled && !(clusterEnabled && !isLeader) {
        var index := 0;
        while index < jobs
          invariant 0 <= index <= jobs && |registered| == index && cronsActive == (index > 0)
          invariant Valid()
          invariant forall r <- registered :: fresh(r) && !r.current && r.counts == NO_RUNS
        {
          var runner := new JobRunner();
          registered := registered + [runner];
          cronsActive := true;
          index := index + 1;
        }
      }
      assert View().running == {} && View().counts == NoRuns(|registered|);
    }

    /** The cron of job `i` fires. */
    method Tick(i: nat)
      requires Valid() && i < |registered|
      modifies registered[i]
      ensures View() == Ticked(old(View()), i)
    {
      ghost var before := View();
      var started := registered[i].Run();
      assert forall k :: 0 <= k < |registered| && k != i ==> registered[k] != registered[i];
      assert View().running == before.running + {i};
    }

    method JobEnds(i: nat)
      requires Valid() && i < |registered|
      modifies registered[i]
      ensures View() == RunEnded(old(View()), i)
    {
      ghost var before := View();
      registered[i].Ended();
      assert forall k :: 0 <= k < |registered| && k != i ==> registered[k] != registered[i];
      assert View().running == before.running - {i};
    }

    /** The synchronous part of `stop`: who is mid-run, then no more ticks. */
    method StopCrons() returns (running: set<nat>)
      requires Valid()
      modifies this`cronsActive
      ensures Valid() && View() == old(View()).(cronsActive := false)
      ensures running == View().running
    {
      running := {};
      if registered == [] {
        return;
      }
      var i := 0;
      while i < |registered|
        invariant 0 <= i <= |registered|
        invariant running == set k: nat | k < i && registered[k].current
      {
        if registered[i].current {
          running := running + {i};
        }
        i := i + 1;
      }
      cronsActive := false;
    }
  }

  /** The jobs right after boot, `n` of them (none when the process does not schedule). */
  function NewJobs(n: nat): Jobs {
    Jobs({}, n > 0, NoRuns(n))
  }

  function NoRuns(n: nat): (counts: map<nat, Counts>)
    ensures forall i: nat :: i in counts <==> i < n
    ensures forall i <- counts :: counts[i] == NO_RUNS
  {
    if n == 0 then map[] else NoRuns(n - 1)[n - 1 := NO_RUNS]
  }

  // ---------- The process as a machine ----------

  datatype Config = Config(drainDelayMs: nat, forceAfterMs: nat, jobDrainMs: nat)

  datatype Stage =
    | Serving
    | DrainDelay(since: int)
    | ClosingServer(since: int)
    | DrainingJobs(since: int)
    | ClosingApp(since: int)
    | Finished

  datatype World = World(
    stage: Stage,
    jobs: Jobs,
    serverClosedAt: Option<int>,
    cut: bool,
    appCloses: nat,
    signalledAt: Option<int>,
    now: int)

  datatype Event =
    | Tick(job: nat, at: int)
    | JobEnds(job: nat, at: int)
    | Signal(at: int)
    | DelayOver(at: int)
    | ForceCut(at: int)
    | ServerClosed(at: int)
    | JobsIdle(at: int)
    | JobDrainTimeout(at: int)
    | AppClosed(at: int)

  /** A process with `n` scheduled jobs. */
  function Start(n: nat): World {
    World(Serving, NewJobs(n), None, false, 0, None, 0)
  }

  predicate Enabled(cfg: Config, w: World, e: Event) {
    && w.now <= e.at
    && match e
       case Tick(job, _) => job in w.jobs.counts && w.jobs.cronsActive
       case JobEnds(job, _) => job in w.jobs.running && job in w.jobs.counts
       case Signal(_) => true
       case DelayOver(at) => w.stage.DrainDelay? && at >= w.stage.since + cfg.drainDelayMs
       case ForceCut(at) => w.stage.ClosingServer? && !w.cut && at >= w.stage.since + cfg.forceAfterMs
       case ServerClosed(_) => w.stage.ClosingServer?
       case JobsIdle(_) => w.stage.DrainingJobs? && w.jobs.running == {}
       case JobDrainTimeout(at) => w.stage.DrainingJobs? && at >= w.stage.since + cfg.jobDrainMs
       case AppClosed(_) => w.stage.ClosingApp?
  }

  function BeginAppClose(w: World, at: int): World {
    w.(stage := ClosingApp(at), appCloses := w.appCloses + 1, now := at)
  }

  function Apply(cfg: Config, w: World, e: Event): World
    requires Enabled(cfg, w, e)
  {
    match e
    case Tick(job, at) => w.(jobs := Ticked(w.jobs, job), now := at)
    case JobEnds(job, at) => w.(jobs := RunEnded(w.jobs, job), now := at)
    case Signal(at) =>
      if w.stage.Serving? then w.(stage := DrainDelay(at), signalledAt := Some(at), now := at) else w.(now := at)
    case DelayOver(at) => w.(stage := ClosingServer(at), now := at)
    case ForceCut(at) => w.(cut := true, now := at)
    case ServerClosed(at) =>
      var stopped := w.(serverClosedAt := Some(at), jobs := w.jobs.(cronsActive := false), now := at);
      if w.jobs.running == {} then BeginAppClose(stopped, at) else stopped.(stage := DrainingJobs(at))
    case JobsIdle(at) => BeginAppClose(w, at)
    case JobDrainTimeout(at) => BeginAppClose(w, at)
    case AppClosed(at) => w.(stage := Finished, now := at)
  }

  ghost predicate ValidRun(cfg: Config, w: World, es: seq<Event>)
    decreases |es|
  {
    es == [] || (Enabled(cfg, w, es[0]) && ValidRun(cfg, Apply(cfg, w, es[0]), es[1..]))
  }

  ghost function RunFrom(cfg: Config, w: World, es: seq<Event>): World
    requires ValidRun(cfg, w, es)
    decreases |es|
  {
    if es == [] then w else RunFrom(cfg, Apply(cfg, w, es[0]), es[1..])
  }

  /** Ticks are starts plus skips, and at most one run of a job is open. */
  ghost predicate CountsAddUp(w: World) {
    && w.jobs.running <= w.jobs.counts.Keys
    && forall j :: j in w.jobs.counts ==>
         var c := w.jobs.counts[j];
         && c.ticks == c.starts + c.skips
         && c.starts == c.ends + (if j in w.jobs.running then 1 else 0)
  }

  ghost predicate StagesInOrder(cfg: Config, w: World) {
    && (w.stage.Serving? <==> w.signalledAt == None)
    && (w.stage.DrainDelay? ==> w.signalledAt == Some(w.stage.since))
    && (w.stage.ClosingServer? ==> w.now >= w.stage.since >= w.signalledAt.value + cfg.drainDelayMs)
    && (w.serverClosedAt.Some? ==>
          w.signalledAt.Some? && w.serverClosedAt.value >= w.signalledAt.value + cfg.drainDelayMs)
    && w.appCloses == (if w.stage.ClosingApp? || w.stage.Finished? then 1 else 0)
    && (w.stage.DrainingJobs? || w.stage.ClosingApp? || w.stage.Finished? ==>
          w.serverClosedAt.Some? && !w.jobs.cronsActive)
    && (w.stage.DrainingJobs? ==> w.serverClosedAt == Some(w.stage.since))
    && (w.appCloses > 0 ==> w.jobs.running == {} || w.now >= w.serverClosedAt.value + cfg.jobDrainMs)
  }

  lemma StepKeepsCounts(cfg: Config, w: World, e: Event)
    requires CountsAddUp(w) && Enabled(cfg, w, e)
    ensures CountsAddUp(Apply(cfg, w, e))
  {
  }

  lemma StepKeepsOrder(cfg: Config, w: World, e: Event)
    requires StagesInOrder(cfg, w) && Enabled(cfg, w, e)
    ensures StagesInOrder(cfg, Apply(cfg, w, e))
  {
  }

  lemma StepKeepsInv(cfg: Config, w: World, e: Event)
    requires CountsAddUp(w) && StagesInOrder(cfg, w) && Enabled(cfg, w, e)
    ensures CountsAddUp(Apply(cfg, w, e)) && StagesInOrder(cfg, Apply(cfg, w, e))
  {
    StepKeepsCounts(cfg, w, e);
    StepKeepsOrder(cfg, w, e);
  }

  lemma {:induction false} RunsKeepInv(cfg: Config, w: World, es: seq<Event>)
    requires CountsAddUp(w) && StagesInOrder(cfg, w) && ValidRun(cfg, w, es)
    ensures CountsAddUp(RunFrom(cfg, w, es)) && StagesInOrder(cfg, RunFrom(cfg, w, es))
    decreases |es|
  {
    if es == [] {
    } else {
      StepKeepsInv(cfg, w, es[0]);
      RunsKeepInv(cfg, Apply(cfg, w, es[0]), es[1..]);
    }
  }

  /** In every interleaving runs of one job never overlap, and no tick is unaccounted for. */
  lemma JobsNeverOverlap(cfg: Config, jobs: nat, es: seq<Event>, job: nat)
    requires ValidRun(cfg, Start(jobs), es) && job in RunFrom(cfg, Start(jobs), es).jobs.counts
    ensures var c := RunFrom(cfg, Start(jobs), es).jobs.counts[job];
            c.ticks == c.starts + c.skips && c.ends <= c.starts <= c.ends + 1
  {
    RunsKeepInv(cfg, Start(jobs), es);
  }

  /**
   The application closes at most once, only after a signal and after the server has closed, which
   goes on serving for the drain delay, and only when no job is running or the job drain time has passed.
   */
  lemma AppClosesLast(cfg: Config, jobs: nat, es: seq<Event>)
    requires ValidRun(cfg, Start(jobs), es)
    ensures var w := RunFrom(cfg, Start(jobs), es);
            && w.appCloses <= 1
            && (w.appCloses == 1 ==>
                  && w.signalledAt.Some? && w.serverClosedAt.Some? && !w.jobs.cronsActive
                  && w.serverClosedAt.value >= w.signalledAt.value + cfg.drainDelayMs
                  && (w.jobs.running == {} || w.now >= w.serverClosedAt.value + cfg.jobDrainMs))
  {
    RunsKeepInv(cfg, Start(jobs), es);
  }

  /** The close itself happens on such a moment, not merely before one. */
  lemma CloseMomentIsSafe(cfg: Config, jobs: nat, es: seq<Event>, e: Event)
    requires ValidRun(cfg, Start(jobs), es) && Enabled(cfg, RunFrom(cfg, Start(jobs), es), e)
    requires var w := RunFrom(cfg, Start(jobs), es); Apply(cfg, w, e).appCloses > w.appCloses
    ensures var w' := Apply(cfg, RunFrom(cfg, Start(jobs), es), e);
            && w'.serverClosedAt.Some?
            && (w'.jobs.running == {} || e.at >= w'.serverClosedAt.value + cfg.jobDrainMs)
  {
    RunsKeepInv(cfg, Start(jobs), es);
    StepKeepsInv(cfg, RunFrom(cfg, Start(jobs), es), e);
  }

  /** Connections are cut at most once, while the server is closing, and not before it had its time. */
  lemma ConnectionsAreCutOnce(cfg: Config, w: World, e: Event, again: Event)
    requires Enabled(cfg, w, e)
    ensures e.ForceCut? ==> w.stage.ClosingServer? && e.at >= w.stage.since + cfg.forceAfterMs
    ensures Apply(cfg, w, e).cut <==> w.cut || e.ForceCut?
    ensures w.cut && again.ForceCut? ==> !Enabled(cfg, w, again)
  {
  }

  // ---------- The process as it is ----------

  /** The server process: `runGracefulShutdown` resumes once per event it waits for. */
  class WorkerProcess {
    const cfg: Config
    const shutdown: ShutdownState
    const scheduler: JobScheduler
    var stage: Stage
    var serverClosedAt: Option<int>
    var cut: bool
    var appCloses: nat
    var signalledAt: Option<int>
    var now: int

    ghost function View(): World
      reads this, scheduler, scheduler.registered
    {
      World(stage, scheduler.View(), serverClosedAt, cut, appCloses, signalledAt, now)
    }

    /** Besides the bookkeeping: runs never overlap, and the application closes last. */
    ghost predicate Valid()
      reads this, shutdown, scheduler, scheduler.registered
    {
      && scheduler.Valid() && (shutdown.shuttingDown <==> !stage.Serving?)
      && CountsAddUp(View()) && StagesInOrder(cfg, View())
    }

    /** A process that has booted with its scheduler. */
    constructor (cfg: Config, scheduler: JobScheduler, ghost n: nat)
      requires scheduler.Valid() && scheduler.View() == NewJobs(n)
      ensures this.cfg == cfg && this.scheduler == scheduler && fresh(shutdown)
      ensures Valid() && View() == Start(n)
    {
      this.cfg, this.scheduler := cfg, scheduler;
      stage, serverClosedAt, cut, appCloses, signalledAt, now := Serving, None, false, 0, None, 0;
      shutdown := new ShutdownState();
      new;
      assert View() == Start(n);
    }

    method OnTick(job: nat, at: int)
      requires Valid() && Enabled(cfg, View(), Tick(job, at))
      modifies this, scheduler.registered
      ensures Valid() && View() == Apply(cfg, old(View()), Tick(job, at))
    {
      ghost var after := Apply(cfg, View(), Tick(job, at));
      StepKeepsInv(cfg, View(), Tick(job, at));
      scheduler.Tick(job);
      now := at;
      assert View() == after;
    }

    method OnJobEnd(job: nat, at: int)
      requires Valid() && Enabled(cfg, View(), JobEnds(job, at))
      modifies this, scheduler.registered
      ensures Valid() && View() == Apply(cfg, old(View()), JobEnds(job, at))
    {
      ghost var after := Apply(cfg, View(), JobEnds(job, at));
      StepKeepsInv(cfg, View(), JobEnds(job, at));
      scheduler.JobEnds(job);
      now := at;
      assert View() == after;
    }

    /** False for every signal but the first. */
    method OnSignal(at: int) returns (accepted: bool)
      requires Valid() && now <= at
      modifies this, shutdown
      ensures Valid() && View() == Apply(cfg, old(View()), Signal(at))
      ensures accepted == old(stage).Serving?
    {
      ghost var after := Apply(cfg, View(), Signal(at));
      StepKeepsInv(cfg, View(), Signal(at));
      accepted := shutdown.Begin();
      now := at;
      if accepted {
        stage, signalledAt := DrainDelay(at), Some(at);
      }
      assert View() == after;
    }

    method OnDelayOver(at: int)
      requires Valid() && Enabled(cfg, View(), DelayOver(at))
      modifies this
      ensures Valid() && View() == Apply(cfg, old(View()), DelayOver(at))
    {
      ghost var after := Apply(cfg, View(), DelayOver(at));
      StepKeepsInv(cfg, View(), DelayOver(at));
      stage, now := ClosingServer(at), at;
      assert View() == after;
    }

    method OnForceTimer(at: int)
      requires Valid() && Enabled(cfg, View(), ForceCut(at))
      modifies this
      ensures Valid() && View() == Apply(cfg, old(View()), ForceCut(at))
    {
      ghost var after := Apply(cfg, View(), ForceCut(at));
      StepKeepsInv(cfg, View(), ForceCut(at));
      cut, now := true, at;
      assert View() == after;
    }

    /** The server has closed: stop the crons, and wait for the jobs that are mid-run, if any. */
    method OnServerClosed(at: int)
      requires Valid() && Enabled(cfg, View(), ServerClosed(at))
      modifies this, scheduler
      ensures Valid() && View() == Apply(cfg, old(View()), ServerClosed(at))
    {
      ghost var after := Apply(cfg, View(), ServerClosed(at));
      StepKeepsInv(cfg, View(), ServerClosed(at));
      serverClosedAt, now := Some(at), at;
      var running := scheduler.StopCrons();
      assert running == old(View()).jobs.running && scheduler.View() == old(View()).jobs.(cronsActive := false);
      if running == {} {
        CloseApp(at);
      } else {
        stage := DrainingJobs(at);
      }
      assert View() == after;
    }

    method CloseApp(at: int)
      modifies this
      ensures scheduler.View() == old(scheduler.View()) && View() == BeginAppClose(old(View()), at)
    {
      stage, appCloses, now := ClosingApp(at), appCloses + 1, at;
    }

    /** The wait for the jobs ends, because they are idle or because it has lasted long enough. */
    method OnJobsDrained(timeout: bool, at: int)
      requires Valid() && Enabled(cfg, View(), if timeout then JobDrainTimeout(at) else JobsIdle(at))
      modifies this
      ensures Valid() && View() == Apply(cfg, old(View()), if timeout then JobDrainTimeout(at) else JobsIdle(at))
    {
      ghost var after := Apply(cfg, View(), if timeout then JobDrainTimeout(at) else JobsIdle(at));
      StepKeepsInv(cfg, View(), if timeout then JobDrainTimeout(at) else JobsIdle(at));
      CloseApp(at);
      assert View() == after;
    }

    method OnAppClosed(at: int)
      requires Valid() && Enabled(cfg, View(), AppClosed(at))
      modifies this
      ensures Valid() && View() == Apply(cfg, old(View()), AppClosed(at))
    {
      ghost var after := Apply(cfg, View(), AppClosed(at));
      StepKeepsInv(cfg, View(), AppClosed(at));
      stage, now := Finished, at;
      assert View() == after;
    }
  }

  // ---------- The time it takes ----------

  /** The latest instant at which the present stage ends, when closing the application takes `closeMs`. */
  function Deadline(cfg: Config, closeMs: nat, stage: Stage): int
    requires !stage.Serving? && !stage.Finished?
  {
    match stage
    case DrainDelay(since) => since + cfg.drainDelayMs
    case ClosingServer(since) => since + cfg.forceAfterMs
    case DrainingJobs(since) => since + cfg.jobDrainMs
    case ClosingApp(since) => since + closeMs
  }

  /** Timers fire on time, the server closes once its connections are cut, and the app closes in `closeMs`. */
  ghost predicate Prompt(cfg: Config, closeMs: nat, w: World, es: seq<Event>)
    requires ValidRun(cfg, w, es)
    decreases |es|
  {
    es == [] ||
    (&& (w.stage.Serving? || w.stage.Finished? || es[0].at <= Deadline(cfg, closeMs, w.stage))
     && Prompt(cfg, closeMs, Apply(cfg, w, es[0]), es[1..]))
  }

  /** The stage began within the budget of the stages before it. */
  ghost predicate OnSchedule(cfg: Config, w: World, signalledAt: int) {
    match w.stage
    case Serving => false
    case DrainDelay(since) => since <= signalledAt
    case ClosingServer(since) => since <= signalledAt + cfg.drainDelayMs
    case DrainingJobs(since) => since <= signalledAt + cfg.drainDelayMs + cfg.forceAfterMs
    case ClosingApp(since) => since <= signalledAt + cfg.drainDelayMs + cfg.forceAfterMs + cfg.jobDrainMs
    case Finished => true
  }

  /** Every step until the end falls within the summed budget of the signal. */
  lemma {:induction false} EndsWithinBudget(cfg: Config, closeMs: nat, w: World, es: seq<Event>, signalledAt: int)
    requires OnSchedule(cfg, w, signalledAt)
    requires ValidRun(cfg, w, es) && Prompt(cfg, closeMs, w, es)
    ensures var end := RunFrom(cfg, w, es);
            var budget := signalledAt + cfg.drainDelayMs + cfg.forceAfterMs + cfg.jobDrainMs + closeMs;
            && OnSchedule(cfg, end, signalledAt)
            && (!end.stage.Finished? ==> Deadline(cfg, closeMs, end.stage) <= budget)
            && (forall i :: 0 <= i < |es| && es[i].AppClosed? ==> es[i].at <= budget)
    decreases |es|
  {
    if es == [] {
    } else {
      var w1 := Apply(cfg, w, es[0]);
      EndsWithinBudget(cfg, closeMs, w1, es[1..], signalledAt);
      forall i | 0 <= i < |es| && es[i].AppClosed?
        ensures es[i].at <= signalledAt + cfg.drainDelayMs + cfg.forceAfterMs + cfg.jobDrainMs + closeMs
      {
        if i > 0 {
          assert es[i] == es[1..][i - 1];
        }
      }
    }
  }

  // ---------- It does end ----------

  /** The steps of the shutdown itself, as against ticks, ends of jobs, further signals and the force timer. */
  predicate Progress(e: Event) {
    e.DelayOver? || e.ServerClosed? || e.JobsIdle? || e.JobDrainTimeout? || e.AppClosed?
  }

  /** How many of them can still come. */
  function Rank(stage: Stage): nat {
    match stage
    case Serving => 5
    case DrainDelay(_) => 4
    case ClosingServer(_) => 3
    case DrainingJobs(_) => 2
    case ClosingApp(_) => 1
    case Finished => 0
  }

  /** Every such step moves on to a later stage, the timeout of a job that hangs included. */
  lemma ProgressLowersRank(cfg: Config, w: World, e: Event)
    requires Enabled(cfg, w, e)
    ensures Progress(e) ==> Rank(Apply(cfg, w, e).stage) < Rank(w.stage)
    ensures !Progress(e) ==> Rank(Apply(cfg, w, e).stage) <= Rank(w.stage)
    ensures e.Signal? ==> !Apply(cfg, w, e).stage.Serving?
  {
  }

  function ProgressOf(es: seq<Event>): nat
    decreases |es|
  {
    if es == [] then 0 else (if Progress(es[0]) then 1 else 0) + ProgressOf(es[1..])
  }

  /** So at most four of them follow the signal, and after four the worker has finished. */
  lemma {:induction false} ProgressIsBounded(cfg: Config, w: World, es: seq<Event>)
    requires ValidRun(cfg, w, es)
    ensures ProgressOf(es) + Rank(RunFrom(cfg, w, es).stage) <= Rank(w.stage)
    decreases |es|
  {
    if es == [] {
    } else {
      ProgressLowersRank(cfg, w, es[0]);
      ProgressIsBounded(cfg, Apply(cfg, w, es[0]), es[1..]);
    }
  }

  /** The step that the present stage waits for, at the latest instant it is due. */
  function DueStep(cfg: Config, closeMs: nat, stage: Stage): Event
    requires !stage.Serving? && !stage.Finished?
  {
    var at := Deadline(cfg, closeMs, stage);
    match stage
    case DrainDelay(_) => DelayOver(at)
    case ClosingServer(_) => ServerClosed(at)
    case DrainingJobs(_) => JobDrainTimeout(at)
    case ClosingApp(_) => AppClosed(at)
  }

  /** Nothing is waited for longer than until its deadline: then the next step is due, whatever the jobs do. */
  ghost predicate InTime(cfg: Config, closeMs: nat, w: World) {
    !w.stage.Serving? && (!w.stage.Finished? ==> w.now <= Deadline(cfg, closeMs, w.stage))
  }

  lemma DueStepIsPrompt(cfg: Config, closeMs: nat, w: World, signalledAt: int)
    requires OnSchedule(cfg, w, signalledAt) && InTime(cfg, closeMs, w) && !w.stage.Finished?
    ensures var e := DueStep(cfg, closeMs, w.stage);
            && Enabled(cfg, w, e) && Progress(e)
            && e.at <= signalledAt + cfg.drainDelayMs + cfg.forceAfterMs + cfg.jobDrainMs + closeMs
            && OnSchedule(cfg, Apply(cfg, w, e), signalledAt) && InTime(cfg, closeMs, Apply(cfg, w, e))
  {
  }

  /**
   The worker does finish: from any moment of a shutdown that is on schedule, the steps that are due,
   each taken at the latest by its deadline, lead to the end within the summed budget; at most four of
   them, and none of them an end of a job.
   */
  lemma {:induction false} DueStepsFinish(cfg: Config, closeMs: nat, w: World, signalledAt: int)
    returns (es: seq<Event>)
    requires OnSchedule(cfg, w, signalledAt) && InTime(cfg, closeMs, w)
    ensures ValidRun(cfg, w, es) && Prompt(cfg, closeMs, w, es) && |es| <= Rank(w.stage)
    ensures forall i :: 0 <= i < |es| ==>
              && Progress(es[i])
              && es[i].at <= signalledAt + cfg.drainDelayMs + cfg.forceAfterMs + cfg.jobDrainMs + closeMs
    ensures RunFrom(cfg, w, es).stage.Finished?
    decreases Rank(w.stage)
  {
    if w.stage.Finished? {
      es := [];
    } else {
      var e := DueStep(cfg, closeMs, w.stage);
      DueStepIsPrompt(cfg, closeMs, w, signalledAt);
      ProgressLowersRank(cfg, w, e);
      var rest := DueStepsFinish(cfg, closeMs, Apply(cfg, w, e), signalledAt);
      es := [e] + rest;
      assert es[1..] == rest;
    }
  }

  /** A prompt run stays in time. */
  lemma {:induction false} PromptStaysInTime(cfg: Config, closeMs: nat, w: World, es: seq<Event>)
    requires InTime(cfg, closeMs, w) && ValidRun(cfg, w, es) && Prompt(cfg, closeMs, w, es)
    ensures InTime(cfg, closeMs, RunFrom(cfg, w, es))
    decreases |es|
  {
    if es == [] {
    } else {
      PromptStaysInTime(cfg, closeMs, Apply(cfg, w, es[0]), es[1..]);
    }
  }

  /**
   A run in which every due step happens by its deadline has finished once the budget is over: a
   worker whose clock has passed it is done, jobs that hang or not.
   */
  lemma FinishedByBudget(cfg: Config, closeMs: nat, w: World, es: seq<Event>, signalledAt: int)
    requires OnSchedule(cfg, w, signalledAt) && InTime(cfg, closeMs, w)
    requires ValidRun(cfg, w, es) && Prompt(cfg, closeMs, w, es)
    requires RunFrom(cfg, w, es).now > signalledAt + cfg.drainDelayMs + cfg.forceAfterMs + cfg.jobDrainMs + closeMs
    ensures RunFrom(cfg, w, es).stage.Finished?
  {
    PromptStaysInTime(cfg, closeMs, w, es);
    EndsWithinBudget(cfg, closeMs, w, es, signalledAt);
  }

  /**
   Primary and worker together: a worker signalled when the primary begins to wait, whose
   application closes in less than the slack, has to be done before the primary may send SIGKILL.
   */
  lemma DoneBeforeTheKill(primary: ClusterPrimary.Config, closeMs: nat, w: World, es: seq<Event>, signalledAt: int,
                          cluster: ClusterPrimary.World, kill: ClusterPrimary.Event)
    requires closeMs < ClusterPrimary.SHUTDOWN_SLACK_MS
    requires var cfg := Config(primary.drainDelayMs, primary.forceAfterMs, primary.jobDrainMs);
             && w.stage == DrainDelay(signalledAt)
             && ValidRun(cfg, w, es) && Prompt(cfg, closeMs, w, es)
    requires cluster.stage == ClusterPrimary.Waiting(signalledAt)
    requires kill.TimedOut? && ClusterPrimary.Enabled(primary, cluster, kill)
    ensures var cfg := Config(primary.drainDelayMs, primary.forceAfterMs, primary.jobDrainMs);
            var end := RunFrom(cfg, w, es);
            && OnSchedule(cfg, end, signalledAt)
            && (!end.stage.Finished? ==> Deadline(cfg, closeMs, end.stage) < kill.at)
            && (forall i :: 0 <= i < |es| && es[i].AppClosed? ==> es[i].at < kill.at)
  {
    var cfg := Config(primary.drainDelayMs, primary.forceAfterMs, primary.jobDrainMs);
    EndsWithinBudget(cfg, closeMs, w, es, signalledAt);
  }
}
