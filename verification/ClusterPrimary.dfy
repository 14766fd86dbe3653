/**
 The cluster primary: it forks the workers, marks one as scheduler leader, replaces workers that
 exit unless too many were replaced within the last minute, and on a signal shuts the pool down
 within a bounded wait.
 */
module ClusterPrimary {
  import opened Wrappers

  const SHUTDOWN_SLACK_MS := 2000
  const RESPAWN_WINDOW_MS := 60_000

  datatype Config = Config(
    workers: nat,
    respawn: bool,
    respawnMaxPerMinute: nat,
    memoryStore: bool,
    metricsServer: bool,
    drainDelayMs: nat,
    forceAfterMs: nat,
    jobDrainMs: nat)
  {
    predicate Valid() {
      respawnMaxPerMinute >= 1
    }

    function WaitMs(): nat {
      drainDelayMs + forceAfterMs + jobDrainMs + SHUTDOWN_SLACK_MS
    }
  }

  /** The configured count; one per CPU when none is configured; and never less than one. */
  function ResolveWorkerCount(configured: nat, cpuCount: nat): (n: nat)
    ensures n >= 1
    ensures configured > 0 ==> n == configured
    ensures configured == 0 && cpuCount > 0 ==> n == cpuCount
  {
    var requested := if configured > 0 then configured else cpuCount;
    if requested > 1 then requested else 1
  }

  /** The boot check: an in-memory claim store is refused with more than one worker. */
  predicate Boots(cfg: Config, workerCount: nat) {
    workerCount > 1 ==> !cfg.memoryStore
  }

  /** The variables of the primary; `drainWait` is set while shutdown waits for the last exit. */
  datatype Primary = Primary(
    live: set<nat>,
    stamps: seq<int>,
    leader: Option<nat>,
    shuttingDown: bool,
    drainWait: bool,
    drained: bool)

  /** Timestamps before the window start leave from the front. */
  function Prune(stamps: seq<int>, windowStart: int): seq<int>
    decreases |stamps|
  {
    if stamps != [] && stamps[0] < windowStart then Prune(stamps[1..], windowStart) else stamps
  }

  function IdSet(ids: seq<nat>): set<nat> {
    set id | id in ids
  }

  /** What an exit leads to besides forgetting the worker. */
  datatype Reaction = Stays | LeftAlone | Replaced(asLeader: bool)

  /**
   A worker has exited; the clock is read at `first` for the window and at `second` for the new
   timestamp, and a replacement would get the id `freshId`.
   */
  function OnExit(cfg: Config, p: Primary, worker: nat, first: int, second: int, freshId: nat): (Primary, Reaction) {
    var wasLeader := p.leader == Some(worker);
    var live := p.live - {worker};
    var p1 := p.(live := live, drained := p.drained || (live == {} && p.drainWait));
    var lost := p1.(leader := if wasLeader then None else p1.leader);
    if p.shuttingDown then (p1, Stays)
    else if !cfg.respawn then (lost, LeftAlone)
    else
      var kept := Prune(p.stamps, first - RESPAWN_WINDOW_MS);
      if |kept| >= cfg.respawnMaxPerMinute then (lost.(stamps := kept), LeftAlone)
      else (p1.(live := live + {freshId}, stamps := kept + [second],
                leader := if wasLeader then Some(freshId) else p1.leader),
            Replaced(wasLeader))
  }

  class ClusterPrimary {
    const cfg: Config
    var liveWorkers: set<nat>
    var respawnTimestamps: seq<int>
    var leaderId: Option<nat>
    var shuttingDown: bool
    var notifyDrained: bool
    var drained: bool

    function View(): Primary
      reads this
    {
      Primary(liveWorkers, respawnTimestamps, leaderId, shuttingDown, notifyDrained, drained)
    }

    /** Forks `ids`, the first of them as leader. */
    constructor (cfg: Config, ids: seq<nat>)
      requires ids != []
      ensures this.cfg == cfg
      ensures View() == Primary(IdSet(ids), [], Some(ids[0]), false, false, false)
    {
      this.cfg := cfg;
      liveWorkers, respawnTimestamps, leaderId := {}, [], None;
      shuttingDown, notifyDrained, drained := false, false, false;
      new;
      var index := 0;
      while index < |ids|
        invariant 0 <= index <= |ids|
        invariant liveWorkers == IdSet(ids[..index])
        invariant leaderId == if index == 0 then None else Some(ids[0])
        invariant respawnTimestamps == [] && !shuttingDown && !notifyDrained && !drained
      {
        ForkWorker(index == 0, ids[index]);
        index := index + 1;
      }
      assert ids[..index] == ids;
    }

    method ForkWorker(isLeader: bool, id: nat)
      modifies this`liveWorkers, this`leaderId
      ensures liveWorkers == old(liveWorkers) + {id}
      ensures leaderId == if isLeader then Some(id) else old(leaderId)
    {
      liveWorkers := liveWorkers + {id};
      if isLeader {
        leaderId := Some(id);
      }
    }

    /** Timestamps that fell out of the window leave from the front. */
    method PruneTimestamps(windowStart: int)
      modifies this`respawnTimestamps
      ensures respawnTimestamps == Prune(old(respawnTimestamps), windowStart)
    {
      while |respawnTimestamps| > 0 && respawnTimestamps[0] < windowStart
        invariant Prune(respawnTimestamps, windowStart) == Prune(old(respawnTimestamps), windowStart)
      {
        respawnTimestamps := respawnTimestamps[1..];
      }
    }

    method HandleExit(worker: nat, first: int, second: int, freshId: nat) returns (reaction: Reaction)
      modifies this
      ensures (View(), reaction) == OnExit(cfg, old(View()), worker, first, second, freshId)
    {
      var wasLeader := leaderId == Some(worker);
      liveWorkers := liveWorkers - {worker};
      if liveWorkers == {} && notifyDrained {
        drained := true;
      }
      if shuttingDown {
        return Stays;
      }
      if !cfg.respawn {
        if wasLeader {
          leaderId := None;
        }
        return LeftAlone;
      }
      var windowStart := first - RESPAWN_WINDOW_MS;
      PruneTimestamps(windowStart);
      if |respawnTimestamps| >= cfg.respawnMaxPerMinute {
        if wasLeader {
          leaderId := None;
        }
        return LeftAlone;
      }
      respawnTimestamps := respawnTimestamps + [second];
      ForkWorker(wasLeader, freshId);
      return Replaced(wasLeader);
    }

    /** The synchronous start of `shutdown`; returns the workers the signal was forwarded to. */
    method BeginShutdown() returns (signalled: set<nat>)
      modifies this
      ensures (View(), signalled) == StartShutdown(old(View()))
    {
      if shuttingDown {
        return {};
      }
      shuttingDown := true;
      signalled := liveWorkers;
      if liveWorkers == {} {
        drained := true;
        return;
      }
      notifyDrained := true;
    }
  }

  /** The first signal is forwarded to every live worker; later ones are ignored. */
  function StartShutdown(p: Primary): (Primary, set<nat>) {
    if p.shuttingDown then (p, {})
    else (p.(shuttingDown := true,
             drained := p.drained || p.live == {},
             drainWait := p.drainWait || p.live != {}),
          p.live)
  }

  // ---------- The primary among its workers ----------

  datatype Stage = Serving | Waiting(since: int) | ClosingMetrics | Exited

  /**
   The rest of the world: the leader flag each worker was forked with, the instants of all
   replacements, how many exits were left alone and whether the leader's was one of them, who was
   signalled and who was killed.
   */
  datatype World = World(
    primary: Primary,
    flags: map<nat, bool>,
    respawns: seq<int>,
    leftAlone: nat,
    leaderLeftAlone: bool,
    signalled: set<nat>,
    killed: set<nat>,
    exitCalls: nat,
    stage: Stage,
    now: int)

  datatype Event =
    | WorkerExit(worker: nat, first: int, at: int, freshId: nat)
    | Signal(at: int)
    | DrainedFirst(at: int)
    | TimedOut(at: int)
    | MetricsClosed(at: int)

  ghost predicate Distinct(ids: seq<nat>) {
    forall i, j :: 0 <= i < j < |ids| ==> ids[i] != ids[j]
  }

  ghost function Start(ids: seq<nat>): World
    requires ids != []
  {
    World(Primary(IdSet(ids), [], Some(ids[0]), false, false, false),
          map id | id in ids :: id == ids[0],
          [], 0, false, {}, {}, 0, Serving, 0)
  }

  predicate Enabled(cfg: Config, w: World, e: Event) {
    && w.now <= e.at && !w.stage.Exited?
    && match e
       case WorkerExit(worker, first, at, freshId) =>
         worker in w.primary.live && w.now <= first <= at && freshId !in w.flags
       case Signal(_) => true
       case DrainedFirst(_) => w.stage.Waiting? && w.primary.drained
       case TimedOut(at) => w.stage.Waiting? && at >= w.stage.since + cfg.WaitMs()
       case MetricsClosed(_) => w.stage.ClosingMetrics?
  }

  /** After the wait: the metrics server, if there is one, is closed before the process exits. */
  function AfterWait(cfg: Config, w: World, at: int): World {
    if cfg.metricsServer then w.(stage := ClosingMetrics, now := at)
    else w.(stage := Exited, exitCalls := w.exitCalls + 1, now := at)
  }

  function Apply(cfg: Config, w: World, e: Event): World
    requires Enabled(cfg, w, e)
  {
    match e
    case WorkerExit(worker, first, at, freshId) =>
      var (p, reaction) := OnExit(cfg, w.primary, worker, first, at, freshId);
      (match reaction
       case Stays => w.(primary := p, now := at)
       case LeftAlone =>
         w.(primary := p, leftAlone := w.leftAlone + 1,
            leaderLeftAlone := w.leaderLeftAlone || w.primary.leader == Some(worker), now := at)
       case Replaced(asLeader) =>
         w.(primary := p, flags := w.flags[freshId := asLeader], respawns := w.respawns + [at], now := at))
    case Signal(at) =>
      var (p, signalled) := StartShutdown(w.primary);
      w.(primary := p, signalled := w.signalled + signalled,
         stage := if w.primary.shuttingDown then w.stage else Waiting(at), now := at)
    case DrainedFirst(at) => AfterWait(cfg, w, at)
    case TimedOut(at) => AfterWait(cfg, w.(killed := w.killed + w.primary.live), at)
    case MetricsClosed(at) => w.(stage := Exited, exitCalls := w.exitCalls + 1, now := at)
  }

  ghost predicate ValidRun(cfg: Config, w: World, es: seq<Event>)
    decreases |es|
  {
    es == [] || (Enabled(cfg, w, es[0]) && ValidRun(cfg, Apply(cfg, w, es[0]), es[1..]))
  }

  ghost function RunFrom(cfg: Config, w: World, es: seq<Event>): World
    requires ValidRun(cfg, w, es)
    decreases |es|
  {
    if es == [] then w else RunFrom(cfg, Apply(cfg, w, es[0]), es[1..])
  }

  // ---------- The rate cap ----------

  predicate Sorted(s: seq<int>) {
    forall i, j :: 0 <= i < j < |s| ==> s[i] <= s[j]
  }

  /** The queue is the recent end of the history, and what left it is older than any window from `now` on. */
  ghost predicate QueueFits(cap: nat, stamps: seq<int>, history: seq<int>, now: int) {
    && Sorted(history)
    && (forall i :: 0 <= i < |history| ==> history[i] <= now)
    && |stamps| <= |history| && stamps == history[|history| - |stamps|..]
    && (forall i :: 0 <= i < |history| - |stamps| ==> history[i] < now - RESPAWN_WINDOW_MS)
    && (forall i :: 0 <= i && i + cap < |history| ==> history[i + cap] - history[i] > RESPAWN_WINDOW_MS)
  }

  lemma {:induction false} PruneKeepsSuffix(stamps: seq<int>, windowStart: int)
    ensures var kept := Prune(stamps, windowStart);
            && |kept| <= |stamps| && kept == stamps[|stamps| - |kept|..]
            && (forall i :: 0 <= i < |stamps| - |kept| ==> stamps[i] < windowStart)
            && (kept != [] ==> kept[0] >= windowStart)
    decreases |stamps|
  {
    if stamps != [] && stamps[0] < windowStart {
      PruneKeepsSuffix(stamps[1..], windowStart);
      var kept := Prune(stamps, windowStart);
      forall i | 0 <= i < |stamps| - |kept| ensures stamps[i] < windowStart {
        assert i > 0 ==> stamps[i] == stamps[1..][i - 1];
      }
    }
  }

  lemma PruneFits(cap: nat, stamps: seq<int>, history: seq<int>, now: int, first: int)
    requires QueueFits(cap, stamps, history, now) && now <= first
    ensures QueueFits(cap, Prune(stamps, first - RESPAWN_WINDOW_MS), history, first)
  {
    PruneKeepsSuffix(stamps, first - RESPAWN_WINDOW_MS);
    var kept := Prune(stamps, first - RESPAWN_WINDOW_MS);
    var d := |history| - |stamps|;
    forall i | 0 <= i < |history| - |kept| ensures history[i] < first - RESPAWN_WINDOW_MS {
      assert i >= d ==> history[i] == stamps[i - d];
    }
  }

  lemma PushFits(cap: nat, stamps: seq<int>, history: seq<int>, first: int, second: int)
    requires QueueFits(cap, stamps, history, first) && |stamps| < cap && first <= second
    ensures QueueFits(cap, stamps + [second], history + [second], second)
  {
    var longer := history + [second];
    assert longer[|longer| - |stamps| - 1..] == stamps + [second];
    forall i | 0 <= i && i + cap < |longer| ensures longer[i + cap] - longer[i] > RESPAWN_WINDOW_MS {
      if i + cap == |history| {
        assert i < |history| - |stamps|;
      }
    }
  }

  /** How many replacements fell into the closed window [from, from + 60 000]. */
  function InWindow(history: seq<int>, from: int): nat
    decreases |history|
  {
    if history == [] then 0
    else (if from <= history[0] <= from + RESPAWN_WINDOW_MS then 1 else 0) + InWindow(history[1..], from)
  }

  lemma {:induction false} SpreadBoundsWindow(cap: nat, history: seq<int>, from: int)
    requires cap >= 1 && Sorted(history)
    requires forall i :: 0 <= i && i + cap < |history| ==> history[i + cap] - history[i] > RESPAWN_WINDOW_MS
    ensures InWindow(history, from) <= cap
    decreases |history|
  {
    if history == [] {
    } else {
      assert forall i, j :: 0 <= i < j < |history[1..]| ==>
          history[1..][i] == history[i + 1] && history[1..][j] == history[j + 1];
      if from <= history[0] <= from + RESPAWN_WINDOW_MS {
        WindowEnds(history, from, cap);
      } else {
        SpreadBoundsWindow(cap, history[1..], from);
      }
    }
  }

  /** Once the window is open, only entries within its length of the first can be in it. */
  lemma {:induction false} WindowEnds(history: seq<int>, from: int, n: nat)
    requires history != [] && Sorted(history) && from <= history[0]
    requires n < |history| ==> history[n] > from + RESPAWN_WINDOW_MS
    ensures InWindow(history, from) <= n
    decreases |history|
  {
    if n == 0 {
      NothingInWindow(history, from);
    } else if |history| > 1 {
      assert forall i, j :: 0 <= i < j < |history[1..]| ==>
          history[1..][i] == history[i + 1] && history[1..][j] == history[j + 1];
      WindowEnds(history[1..], from, n - 1);
    } else {
      assert InWindow(history[1..], from) == 0;
    }
  }

  lemma {:induction false} NothingInWindow(history: seq<int>, from: int)
    requires forall i :: 0 <= i < |history| ==> history[i] > from + RESPAWN_WINDOW_MS || history[i] < from
    ensures InWindow(history, from) == 0
    decreases |history|
  {
    if history == [] {
    } else {
      NothingInWindow(history[1..], from);
    }
  }

  // ---------- The invariant ----------

  /** At most one leader is alive and it is the recorded one; every exit is made up for or counted. */
  ghost predicate LeaderInv(w: World, initial: nat) {
    var p := w.primary;
    && p.live <= w.flags.Keys
    && (forall id :: id in p.live && w.flags[id] ==> p.leader == Some(id))
    && (!p.shuttingDown && p.leader.Some? ==> p.leader.value in p.live && w.flags[p.leader.value])
    && (p.leader == None ==> forall id :: id in p.live ==> !w.flags[id])
    && (p.leader == None <==> w.leaderLeftAlone)
    && (w.leaderLeftAlone ==> w.leftAlone > 0)
    && (!p.shuttingDown ==> |p.live| + w.leftAlone == initial)
    && |p.live| <= initial
  }

  /** Who was signalled and killed, what the wait is for, and how often the process has exited. */
  ghost predicate ShutdownInv(w: World) {
    var p := w.primary;
    && (p.shuttingDown <==> !w.stage.Serving?)
    && (p.shuttingDown ==> p.live <= w.signalled)
    && (!p.shuttingDown ==> w.signalled == {} && w.killed == {} && !p.drained && !p.drainWait)
    && (p.drainWait ==> (p.drained <==> p.live == {}))
    && (p.shuttingDown ==> p.drainWait || (p.drained && p.live == {}))
    && (w.stage.Waiting? ==> w.killed == {})
    && w.killed <= w.signalled
    && w.exitCalls == (if w.stage.Exited? then 1 else 0)
  }

  ghost predicate Inv(cfg: Config, w: World, initial: nat) {
    && LeaderInv(w, initial) && ShutdownInv(w) && (w.stage.ClosingMetrics? ==> cfg.metricsServer)
    && QueueFits(cfg.respawnMaxPerMinute, w.primary.stamps, w.respawns, w.now)
  }

  lemma StartInv(cfg: Config, ids: seq<nat>)
    requires ids != [] && Distinct(ids)
    ensures Inv(cfg, Start(ids), |ids|)
  {
    DistinctCount(ids);
  }

  lemma {:induction false} DistinctCount(ids: seq<nat>)
    requires Distinct(ids)
    ensures |IdSet(ids)| == |ids|
    decreases |ids|
  {
    if ids == [] {
    } else {
      var n := |ids| - 1;
      DistinctCount(ids[..n]);
      assert ids[n] !in ids[..n];
      assert IdSet(ids) == IdSet(ids[..n]) + {ids[n]};
    }
  }

  lemma LaterFits(cap: nat, stamps: seq<int>, history: seq<int>, now: int, later: int)
    requires QueueFits(cap, stamps, history, now) && now <= later
    ensures QueueFits(cap, stamps, history, later)
  {
  }

  /** What a step does to the queue and the history: push on both after pruning, only prune, or nothing. */
  lemma QueueMoves(cfg: Config, w: World, e: Event)
    requires Enabled(cfg, w, e)
    ensures var w' := Apply(cfg, w, e);
            && w'.now == e.at
            && if e.WorkerExit? && !w.primary.shuttingDown && cfg.respawn then
                 var kept := Prune(w.primary.stamps, e.first - RESPAWN_WINDOW_MS);
                 if |kept| < cfg.respawnMaxPerMinute
                 then w'.primary.stamps == kept + [e.at] && w'.respawns == w.respawns + [e.at]
                 else w'.primary.stamps == kept && w'.respawns == w.respawns
               else w'.primary.stamps == w.primary.stamps && w'.respawns == w.respawns
  {
  }

  lemma QueueStep(cfg: Config, w: World, e: Event)
    requires Enabled(cfg, w, e)
    requires QueueFits(cfg.respawnMaxPerMinute, w.primary.stamps, w.respawns, w.now)
    ensures var w' := Apply(cfg, w, e);
            QueueFits(cfg.respawnMaxPerMinute, w'.primary.stamps, w'.respawns, w'.now)
  {
    QueueMoves(cfg, w, e);
    var (cap, stamps) := (cfg.respawnMaxPerMinute, w.primary.stamps);
    if e.WorkerExit? && !w.primary.shuttingDown && cfg.respawn {
      PruneFits(cap, stamps, w.respawns, w.now, e.first);
      var kept := Prune(stamps, e.first - RESPAWN_WINDOW_MS);
      if |kept| < cap {
        PushFits(cap, kept, w.respawns, e.first, e.at);
      } else {
        LaterFits(cap, kept, w.respawns, e.first, e.at);
      }
    } else {
      LaterFits(cap, stamps, w.respawns, w.now, e.at);
    }
  }

  /** An exit takes one worker away, a replacement makes up for it. */
  lemma ExitCounts(live: set<nat>, worker: nat, freshId: nat)
    requires worker in live && freshId !in live
    ensures |live - {worker}| == |live| - 1 && |live - {worker} + {freshId}| == |live|
  {
  }

  lemma ExitKeepsLeader(cfg: Config, w: World, e: Event, initial: nat)
    requires LeaderInv(w, initial) && Enabled(cfg, w, e) && e.WorkerExit?
    ensures LeaderInv(Apply(cfg, w, e), initial)
  {
    assert e.freshId !in w.primary.live;
    ExitCounts(w.primary.live, e.worker, e.freshId);
    var (p, reaction) := OnExit(cfg, w.primary, e.worker, e.first, e.at, e.freshId);
    var left := w.primary.live - {e.worker};
    assert p.live == if reaction.Replaced? then left + {e.freshId} else left;
  }

  lemma LeaderStep(cfg: Config, w: World, e: Event, initial: nat)
    requires LeaderInv(w, initial) && Enabled(cfg, w, e)
    ensures LeaderInv(Apply(cfg, w, e), initial)
  {
    if e.WorkerExit? {
      ExitKeepsLeader(cfg, w, e, initial);
    }
  }

  lemma ShutdownStep(cfg: Config, w: World, e: Event)
    requires ShutdownInv(w) && Enabled(cfg, w, e)
    ensures ShutdownInv(Apply(cfg, w, e))
  {
  }

  lemma StepKeepsInv(cfg: Config, w: World, e: Event, initial: nat)
    requires Inv(cfg, w, initial) && Enabled(cfg, w, e)
    ensures Inv(cfg, Apply(cfg, w, e), initial)
  {
    LeaderStep(cfg, w, e, initial);
    ShutdownStep(cfg, w, e);
    QueueStep(cfg, w, e);
  }

  lemma {:induction false} RunsKeepInv(cfg: Config, w: World, es: seq<Event>, initial: nat)
    requires Inv(cfg, w, initial) && ValidRun(cfg, w, es)
    ensures Inv(cfg, RunFrom(cfg, w, es), initial)
    decreases |es|
  {
    if es == [] {
    } else {
      StepKeepsInv(cfg, w, es[0], initial);
      RunsKeepInv(cfg, Apply(cfg, w, es[0]), es[1..], initial);
    }
  }

  // ---------- Main results ----------

  /** Every closed window of a minute contains at most `respawnMaxPerMinute` replacements. */
  lemma RespawnsAreCapped(cfg: Config, ids: seq<nat>, es: seq<Event>, from: int)
    requires cfg.Valid() && ids != [] && Distinct(ids) && ValidRun(cfg, Start(ids), es)
    ensures InWindow(RunFrom(cfg, Start(ids), es).respawns, from) <= cfg.respawnMaxPerMinute
  {
    StartInv(cfg, ids);
    RunsKeepInv(cfg, Start(ids), es, |ids|);
    SpreadBoundsWindow(cfg.respawnMaxPerMinute, RunFrom(cfg, Start(ids), es).respawns, from);
  }

  lemma {:induction false} WindowIsSuffix(history: seq<int>, kept: nat, from: int)
    requires kept <= |history|
    requires forall i :: 0 <= i < |history| - kept ==> history[i] < from
    requires forall i :: |history| - kept <= i < |history| ==> from <= history[i] <= from + RESPAWN_WINDOW_MS
    ensures InWindow(history, from) == kept
    decreases |history|
  {
    if history == [] {
    } else {
      WindowIsSuffix(history[1..], if kept < |history| then kept else kept - 1, from);
    }
  }

  /**
   The cap is exact: an unexpected exit is left without a replacement if and only if replacement
   is off or the minute up to it already holds the full number of replacements.
   */
  lemma LeftAloneIff(cfg: Config, ids: seq<nat>, es: seq<Event>, e: Event)
    requires cfg.Valid() && ids != [] && Distinct(ids) && ValidRun(cfg, Start(ids), es)
    requires var w := RunFrom(cfg, Start(ids), es);
             Enabled(cfg, w, e) && e.WorkerExit? && !w.primary.shuttingDown
    ensures var w := RunFrom(cfg, Start(ids), es);
            OnExit(cfg, w.primary, e.worker, e.first, e.at, e.freshId).1 == LeftAlone <==>
            (!cfg.respawn || InWindow(w.respawns, e.first - RESPAWN_WINDOW_MS) >= cfg.respawnMaxPerMinute)
  {
    StartInv(cfg, ids);
    RunsKeepInv(cfg, Start(ids), es, |ids|);
    LeftAloneAt(cfg, RunFrom(cfg, Start(ids), es), e);
  }

  lemma LeftAloneAt(cfg: Config, w: World, e: Event)
    requires QueueFits(cfg.respawnMaxPerMinute, w.primary.stamps, w.respawns, w.now)
    requires e.WorkerExit? && w.now <= e.first && !w.primary.shuttingDown
    ensures OnExit(cfg, w.primary, e.worker, e.first, e.at, e.freshId).1 == LeftAlone <==>
            (!cfg.respawn || InWindow(w.respawns, e.first - RESPAWN_WINDOW_MS) >= cfg.respawnMaxPerMinute)
  {
    PrunedQueueCounts(cfg.respawnMaxPerMinute, w.primary.stamps, w.respawns, w.now, e.first);
  }

  /** After pruning, the queue holds exactly the replacements of the minute up to now. */
  lemma PrunedQueueCounts(cap: nat, stamps: seq<int>, history: seq<int>, now: int, first: int)
    requires QueueFits(cap, stamps, history, now) && now <= first
    ensures |Prune(stamps, first - RESPAWN_WINDOW_MS)| == InWindow(history, first - RESPAWN_WINDOW_MS)
  {
    var from := first - RESPAWN_WINDOW_MS;
    PruneFits(cap, stamps, history, now, first);
    PruneKeepsSuffix(stamps, from);
    RecentEndCounts(history, |Prune(stamps, from)|, from);
  }

  /** If the last `kept` entries begin within the window and the others lie before it, it holds just those. */
  lemma RecentEndCounts(history: seq<int>, kept: nat, from: int)
    requires Sorted(history) && kept <= |history|
    requires forall i :: 0 <= i < |history| ==> history[i] <= from + RESPAWN_WINDOW_MS
    requires forall i :: 0 <= i < |history| - kept ==> history[i] < from
    requires kept > 0 ==> history[|history| - kept] >= from
    ensures InWindow(history, from) == kept
  {
    WindowIsSuffix(history, kept, from);
  }

  /** Whether a worker registers the cron jobs at boot. */
  predicate SchedulesJobs(schedulerEnabled: bool, clusterEnabled: bool, isLeader: bool) {
    schedulerEnabled && (!clusterEnabled || isLeader)
  }

  /**
   At every moment at most one live worker was forked as leader, and it is the recorded one, so
   at most one live worker schedules jobs.
   */
  lemma AtMostOneScheduler(cfg: Config, ids: seq<nat>, es: seq<Event>, schedulerEnabled: bool, a: nat, b: nat)
    requires ids != [] && Distinct(ids) && ValidRun(cfg, Start(ids), es)
    requires var w := RunFrom(cfg, Start(ids), es);
             && a in w.primary.live && b in w.primary.live && {a, b} <= w.flags.Keys
             && SchedulesJobs(schedulerEnabled, true, w.flags[a]) && SchedulesJobs(schedulerEnabled, true, w.flags[b])
    ensures a == b && RunFrom(cfg, Start(ids), es).primary.leader == Some(a)
  {
    StartInv(cfg, ids);
    RunsKeepInv(cfg, Start(ids), es, |ids|);
  }

  /**
   Until shutdown exactly one live worker was forked as leader, and so schedules jobs, if and only
   if no leader's exit was left alone: a leader that is replaced at all is replaced by a leader.
   */
  lemma LeaderMissingIff(cfg: Config, ids: seq<nat>, es: seq<Event>, schedulerEnabled: bool)
    requires ids != [] && Distinct(ids) && ValidRun(cfg, Start(ids), es)
    requires !RunFrom(cfg, Start(ids), es).primary.shuttingDown
    ensures var w := RunFrom(cfg, Start(ids), es);
            && w.primary.live <= w.flags.Keys
            && ((exists id :: id in w.primary.live && SchedulesJobs(schedulerEnabled, true, w.flags[id])) <==>
                schedulerEnabled && !w.leaderLeftAlone)
            && (forall a, b :: a in w.primary.live && b in w.primary.live && w.flags[a] && w.flags[b] ==> a == b)
            && (w.leftAlone == 0 ==> w.primary.leader.Some?)
  {
    StartInv(cfg, ids);
    RunsKeepInv(cfg, Start(ids), es, |ids|);
    var w := RunFrom(cfg, Start(ids), es);
    if w.primary.leader.Some? && schedulerEnabled {
      assert SchedulesJobs(schedulerEnabled, true, w.flags[w.primary.leader.value]);
    }
  }

  /** Outside a cluster a process schedules its jobs whenever the scheduler is on. */
  lemma StandaloneSchedules(schedulerEnabled: bool, isLeader: bool)
    ensures SchedulesJobs(schedulerEnabled, false, isLeader) <==> schedulerEnabled
  {
  }

  /** Before shutdown, live workers are the initial ones less those not replaced; there are never more. */
  lemma LiveWorkersAreCounted(cfg: Config, ids: seq<nat>, es: seq<Event>)
    requires ids != [] && Distinct(ids) && ValidRun(cfg, Start(ids), es)
    ensures var w := RunFrom(cfg, Start(ids), es);
            && (!w.primary.shuttingDown ==> |w.primary.live| == |ids| - w.leftAlone)
            && |w.primary.live| <= |ids|
            && (Boots(cfg, |ids|) && cfg.memoryStore ==> |w.primary.live| <= 1)
  {
    StartInv(cfg, ids);
    RunsKeepInv(cfg, Start(ids), es, |ids|);
  }

  /** Once the leader is lost without a replacement, no later worker is ever leader. */
  lemma {:induction false} LostLeaderStaysLost(cfg: Config, w: World, es: seq<Event>, initial: nat)
    requires Inv(cfg, w, initial) && w.primary.leader == None && ValidRun(cfg, w, es)
    ensures var end := RunFrom(cfg, w, es);
            && end.primary.leader == None
            && forall id :: id in end.primary.live ==> id in end.flags && !end.flags[id]
    decreases |es|
  {
    if es == [] {
    } else {
      StepKeepsInv(cfg, w, es[0], initial);
      LostLeaderStaysLost(cfg, Apply(cfg, w, es[0]), es[1..], initial);
    }
  }

  /**
   From the first signal on: nothing is forked, no second round of signals goes out, workers only
   leave, and whoever is still alive has been signalled.
   */
  lemma {:induction false} ShutdownForksNothing(cfg: Config, w: World, es: seq<Event>, initial: nat)
    requires Inv(cfg, w, initial) && w.primary.shuttingDown && ValidRun(cfg, w, es)
    ensures var end := RunFrom(cfg, w, es);
            && end.primary.shuttingDown
            && end.flags == w.flags && end.respawns == w.respawns && end.signalled == w.signalled
            && end.primary.live <= w.primary.live && end.primary.live <= end.signalled
    decreases |es|
  {
    if es == [] {
    } else {
      StepKeepsInv(cfg, w, es[0], initial);
      ShutdownForksNothing(cfg, Apply(cfg, w, es[0]), es[1..], initial);
    }
  }

  /** The first signal reaches exactly the workers alive at that moment. */
  lemma FirstSignalReachesAll(cfg: Config, w: World, at: int, initial: nat)
    requires Inv(cfg, w, initial) && !w.primary.shuttingDown && Enabled(cfg, w, Signal(at))
    ensures var w' := Apply(cfg, w, Signal(at)); w'.primary.shuttingDown && w'.signalled == w.primary.live
  {
  }

  /**
   SIGKILL goes out only at the end of the full wait, and then exactly to the signalled workers that
   have not exited by then, whoever they are.
   */
  lemma KillsOnlyStragglers(cfg: Config, w: World, e: Event, initial: nat)
    requires Inv(cfg, w, initial) && Enabled(cfg, w, e)
    ensures Apply(cfg, w, e).killed != w.killed ==> e.TimedOut?
    ensures e.TimedOut? ==>
              && w.stage.Waiting? && e.at >= w.stage.since + cfg.WaitMs()
              && w.killed == {} && Apply(cfg, w, e).killed == w.primary.live <= w.signalled
  {
  }

  /** The process exits at most once, and only after a signal. */
  lemma ExitsAtMostOnce(cfg: Config, ids: seq<nat>, es: seq<Event>)
    requires ids != [] && Distinct(ids) && ValidRun(cfg, Start(ids), es)
    ensures var w := RunFrom(cfg, Start(ids), es);
            w.exitCalls <= 1 && (w.exitCalls == 1 ==> w.primary.shuttingDown)
  {
    StartInv(cfg, ids);
    RunsKeepInv(cfg, Start(ids), es, |ids|);
  }

  /** Shutdown cannot hang: at every moment of it something other than a worker's exit is due or becomes due. */
  lemma ShutdownMovesOn(cfg: Config, w: World, initial: nat)
    requires Inv(cfg, w, initial) && w.primary.shuttingDown && !w.stage.Exited?
    ensures exists e: Event :: !e.WorkerExit? && !e.Signal? && Enabled(cfg, w, e)
  {
    if w.stage.Waiting? {
      var due := w.stage.since + cfg.WaitMs();
      assert Enabled(cfg, w, TimedOut(if w.now > due then w.now else due));
    } else {
      assert Enabled(cfg, w, MetricsClosed(w.now));
    }
  }

  /** How many steps of the shutdown itself are still to come. */
  function Rank(stage: Stage): nat {
    match stage
    case Serving => 3
    case Waiting(_) => 2
    case ClosingMetrics => 1
    case Exited => 0
  }

  /** Each step of the shutdown brings the exit nearer, so after two of them the process has exited. */
  lemma ShutdownStepLowersRank(cfg: Config, w: World, e: Event)
    requires ShutdownInv(w) && Enabled(cfg, w, e)
    ensures Rank(Apply(cfg, w, e).stage) <= Rank(w.stage)
    ensures !e.WorkerExit? && !e.Signal? ==> Rank(Apply(cfg, w, e).stage) < Rank(w.stage)
  {
  }

  /** With a metrics server, the process exits only once that has closed; without one, right after the wait. */
  lemma MetricsCloseFirst(cfg: Config, w: World, e: Event, initial: nat)
    requires Inv(cfg, w, initial) && Enabled(cfg, w, e) && Apply(cfg, w, e).exitCalls > w.exitCalls
    ensures if cfg.metricsServer then e.MetricsClosed? else w.stage.Waiting? && (e.DrainedFirst? || e.TimedOut?)
    ensures Apply(cfg, w, e).stage.Exited?
  {
  }
}
