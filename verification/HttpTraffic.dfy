/**
 Any number of requests to one origin, interleaved at their awaits, over the one breaker they
 share. Each request is the client's loop; the breaker's own theorems carry over because the
 traffic only ever drives it through calls that are asked for and later reported.
 */
module HttpTraffic {
  import opened Wrappers
  import opened HttpClient
  import CB = CircuitBreaker

  datatype Phase = Asking(attempt: nat) | Sending(attempt: nat) | Waiting(attempt: nat) | Ended(result: Result)

  datatype Call = Call(retries: int, retryable: bool, phase: Phase, sends: nat, waited: real)

  /** `admitted` and `recorded` count the calls let through and the outcomes recorded. */
  datatype World = World(circuit: CB.World, calls: map<nat, Call>, admitted: nat, recorded: nat)

  datatype Event =
    | Begin(id: nat, retries: int, retryable: bool)
    | Ask(id: nat, at: int)
    | Answer(id: nat, at: int, reply: Reply, jitter: nat)
    | Wake(id: nat)

  const START := World(CB.START, map[], 0, 0)

  predicate Enabled(w: World, e: Event) {
    match e
    case Begin(id, _, _) => id !in w.calls
    case Ask(id, at) => id in w.calls && w.calls[id].phase.Asking? && w.circuit.now <= at && id !in w.circuit.inFlight
    case Answer(id, at, _, _) =>
      id in w.calls && w.calls[id].phase.Sending? && w.circuit.now <= at && id in w.circuit.inFlight
    case Wake(id) => id in w.calls && w.calls[id].phase.Waiting?
  }

  /** What a call becomes when its answer is in. */
  function Answered(cfg: Config, c: Call, reply: Reply, jitter: nat, at: int): Call
    requires c.phase.Sending?
  {
    var attempt := c.phase.attempt;
    if CanRetry(c.retries, c.retryable, attempt, reply)
    then c.(phase := Waiting(attempt), waited := c.waited + WaitAfter(cfg, attempt, reply, jitter, at))
    else c.(phase := Ended(Final(reply)))
  }

  /** Without a circuit nothing is ever refused and no breaker changes. */
  function Blocked(cfg: Config, circuit: CB.World, at: int): Option<int> {
    if cfg.circuit == None then None else CB.BlockedForMs(cfg.circuit.value, circuit.breaker, at).0
  }

  function Asked(cfg: Config, circuit: CB.World, id: nat, at: int): CB.World
    requires CB.Enabled(circuit, CB.Ask(id, at))
  {
    if cfg.circuit == None then circuit.(inFlight := circuit.inFlight + {id}, now := at)
    else CB.Apply(cfg.circuit.value, circuit, CB.Ask(id, at))
  }

  function Reported(cfg: Config, circuit: CB.World, id: nat, ok: bool, at: int): CB.World
    requires CB.Enabled(circuit, CB.Report(id, ok, at))
  {
    if cfg.circuit == None then circuit.(inFlight := circuit.inFlight - {id}, now := at)
    else CB.Apply(cfg.circuit.value, circuit, CB.Report(id, ok, at))
  }

  function Apply(cfg: Config, w: World, e: Event): World
    requires Enabled(w, e)
  {
    match e
    case Begin(id, retries, retryable) =>
      w.(calls := w.calls[id := Call(retries, retryable, Asking(0), 0, 0.0)])
    case Ask(id, at) =>
      var c := w.calls[id];
      var circuit := Asked(cfg, w.circuit, id, at);
      (match Blocked(cfg, w.circuit, at)
       case Some(ms) => w.(circuit := circuit, calls := w.calls[id := c.(phase := Ended(Refused(ms)))])
       case None =>
         World(circuit, w.calls[id := c.(phase := Sending(c.phase.attempt), sends := c.sends + 1)],
               w.admitted + 1, w.recorded))
    case Answer(id, at, reply, jitter) =>
      World(Reported(cfg, w.circuit, id, CountsAsSuccess(reply), at),
            w.calls[id := Answered(cfg, w.calls[id], reply, jitter, at)],
            w.admitted, w.recorded + 1)
    case Wake(id) =>
      var c := w.calls[id];
      w.(calls := w.calls[id := c.(phase := Asking(c.phase.attempt + 1))])
  }

  ghost predicate ValidRun(cfg: Config, w: World, es: seq<Event>)
    decreases |es|
  {
    es == [] || (Enabled(w, es[0]) && ValidRun(cfg, Apply(cfg, w, es[0]), es[1..]))
  }

  ghost function RunFrom(cfg: Config, w: World, es: seq<Event>): World
    requires ValidRun(cfg, w, es)
    decreases |es|
  {
    if es == [] then w else RunFrom(cfg, Apply(cfg, w, es[0]), es[1..])
  }

  // ---------- Each call stays within its budget ----------

  /** Sends and waiting of a call fit its phase, and a retry happens only to a retryable call. */
  predicate WithinBudget(cfg: Config, c: Call) {
    var budget := Budget(c.retries);
    match c.phase
    case Asking(a) => a <= budget && c.sends == a && (a > 0 ==> c.retryable) && c.waited <= Scaled(a, cfg.maxDelayMs)
    case Sending(a) =>
      a <= budget && c.sends == a + 1 && (a > 0 ==> c.retryable) && c.waited <= Scaled(a, cfg.maxDelayMs)
    case Waiting(a) => a < budget && c.sends == a + 1 && c.retryable && c.waited <= Scaled(a + 1, cfg.maxDelayMs)
    case Ended(result) =>
      && c.sends <= budget + 1 && (!c.retryable ==> c.sends <= 1)
      && c.waited <= Scaled(budget, cfg.maxDelayMs)
      && (c.retryable && (result.Failed? || (result.Answered? && IsRetryableStatus(result.status))) ==>
            c.sends == budget + 1)
  }

  /** Upper bound on the steps a call can still take. */
  function StepsLeft(c: Call): int {
    var budget := Budget(c.retries);
    match c.phase
    case Asking(a) => 3 * (budget - a) + 2
    case Sending(a) => 3 * (budget - a) + 1
    case Waiting(a) => 3 * (budget - a)
    case Ended(_) => 0
  }

  lemma ScaledGrows(a: int, b: int, x: int)
    requires a <= b && x >= 1
    ensures Scaled(a, x) <= Scaled(b, x)
  {
    assert a * x <= b * x;
  }

  lemma AnswerKeepsBudget(cfg: Config, c: Call, reply: Reply, jitter: nat, at: int)
    requires cfg.Valid() && c.phase.Sending? && WithinBudget(cfg, c)
    ensures WithinBudget(cfg, Answered(cfg, c, reply, jitter, at))
    ensures 0 <= StepsLeft(Answered(cfg, c, reply, jitter, at)) < StepsLeft(c)
  {
    var a := c.phase.attempt;
    WaitIsBounded(cfg, a, reply, jitter, at);
    ScaledStep(a, cfg.maxDelayMs);
    ScaledGrows(a, Budget(c.retries), cfg.maxDelayMs);
  }

  // ---------- The breaker and its callers ----------

  /** The calls in flight on the breaker are exactly the requests awaiting an answer. */
  ghost predicate Tallied(cfg: Config, w: World) {
    && (forall id :: id in w.circuit.inFlight <==> id in w.calls && w.calls[id].phase.Sending?)
    && w.admitted == w.recorded + |w.circuit.inFlight|
    && (forall id <- w.calls :: WithinBudget(cfg, w.calls[id]))
  }

  ghost predicate CircuitInv(cfg: Config, circuit: CB.World) {
    match cfg.circuit
    case Some(o) => CB.Inv(o, circuit)
    case None => circuit.breaker == CB.NEW_BREAKER
  }

  ghost predicate Inv(cfg: Config, w: World) {
    CircuitInv(cfg, w.circuit) && Tallied(cfg, w)
  }

  lemma CircuitKeepsInv(cfg: Config, w: World, e: Event)
    requires cfg.Valid() && CircuitInv(cfg, w.circuit) && Enabled(w, e)
    ensures CircuitInv(cfg, Apply(cfg, w, e).circuit)
  {
    if cfg.circuit == None {
      return;
    }
    var o := cfg.circuit.value;
    match e {
      case Ask(id, at) => CB.AskKeepsInv(o, w.circuit, CB.Ask(id, at));
      case Answer(id, at, reply, _) => CB.ReportKeepsInv(o, w.circuit, CB.Report(id, CountsAsSuccess(reply), at));
      case _ =>
    }
  }

  /** What one step does to the calls: `e.id` moves on within its budget, the others stay. */
  ghost predicate MovesOn(cfg: Config, w: World, e: Event, w': World) {
    && e.id in w'.calls && WithinBudget(cfg, w'.calls[e.id])
    && (!e.Begin? && e.id in w.calls ==> 0 <= StepsLeft(w'.calls[e.id]) < StepsLeft(w.calls[e.id]))
    && w'.calls == w.calls[e.id := w'.calls[e.id]]
  }

  lemma StepMovesOn(cfg: Config, w: World, e: Event)
    requires cfg.Valid() && Enabled(w, e)
    requires e.id in w.calls ==> WithinBudget(cfg, w.calls[e.id])
    ensures MovesOn(cfg, w, e, Apply(cfg, w, e))
  {
    match e {
      case Begin(_, _, _) =>
      case Ask(id, at) => ScaledGrows(w.calls[id].phase.attempt, Budget(w.calls[id].retries), cfg.maxDelayMs);
      case Answer(id, at, reply, jitter) => AnswerKeepsBudget(cfg, w.calls[id], reply, jitter, at);
      case Wake(id) =>
    }
  }

  /** The breaker's set of calls in flight follows the phase of call `id`, and so do the counters. */
  ghost predicate Follows(w: World, w': World, id: nat) {
    && id in w'.calls
    && w'.circuit.inFlight ==
       (if w'.calls[id].phase.Sending? then w.circuit.inFlight + {id} else w.circuit.inFlight - {id})
    && w'.admitted - w'.recorded - |w'.circuit.inFlight| == w.admitted - w.recorded - |w.circuit.inFlight|
  }

  lemma AskFollows(cfg: Config, w: World, e: Event)
    requires Enabled(w, e) && e.Ask? && e.id !in w.circuit.inFlight
    ensures Follows(w, Apply(cfg, w, e), e.id)
  {
    var circuit := Asked(cfg, w.circuit, e.id, e.at);
    if Blocked(cfg, w.circuit, e.at) == None {
      assert circuit.inFlight == w.circuit.inFlight + {e.id};
    } else {
      assert circuit.inFlight == w.circuit.inFlight == w.circuit.inFlight - {e.id};
    }
  }

  lemma AnswerFollows(cfg: Config, w: World, e: Event)
    requires Enabled(w, e) && e.Answer? && e.id in w.circuit.inFlight
    ensures Follows(w, Apply(cfg, w, e), e.id)
  {
    var circuit := Reported(cfg, w.circuit, e.id, CountsAsSuccess(e.reply), e.at);
    assert circuit.inFlight == w.circuit.inFlight - {e.id};
  }

  lemma InFlightFollows(cfg: Config, w: World, e: Event)
    requires Enabled(w, e)
    requires e.id in w.circuit.inFlight <==> e.id in w.calls && w.calls[e.id].phase.Sending?
    ensures Follows(w, Apply(cfg, w, e), e.id)
  {
    match e {
      case Ask(_, _) => AskFollows(cfg, w, e);
      case Answer(_, _, _, _) => AnswerFollows(cfg, w, e);
      case _ => assert w.circuit.inFlight - {e.id} == w.circuit.inFlight;
    }
  }

  lemma StepKeepsTally(cfg: Config, w: World, e: Event)
    requires cfg.Valid() && Tallied(cfg, w) && Enabled(w, e)
    ensures Tallied(cfg, Apply(cfg, w, e)) && MovesOn(cfg, w, e, Apply(cfg, w, e))
  {
    StepMovesOn(cfg, w, e);
    InFlightFollows(cfg, w, e);
    var w' := Apply(cfg, w, e);
    forall id ensures id in w'.circuit.inFlight <==> id in w'.calls && w'.calls[id].phase.Sending? {
      assert id != e.id ==> (id in w'.calls <==> id in w.calls);
    }
    forall id | id in w'.calls ensures WithinBudget(cfg, w'.calls[id]) {
      assert id != e.id ==> id in w.calls && w'.calls[id] == w.calls[id];
    }
  }

  lemma StepKeepsInv(cfg: Config, w: World, e: Event)
    requires cfg.Valid() && Inv(cfg, w) && Enabled(w, e)
    ensures Inv(cfg, Apply(cfg, w, e))
  {
    CircuitKeepsInv(cfg, w, e);
    StepKeepsTally(cfg, w, e);
  }

  lemma {:induction false} RunsKeepInv(cfg: Config, w: World, es: seq<Event>)
    requires cfg.Valid() && Inv(cfg, w) && ValidRun(cfg, w, es)
    ensures Inv(cfg, RunFrom(cfg, w, es))
    decreases |es|
  {
    if es == [] {
    } else {
      StepKeepsInv(cfg, w, es[0]);
      RunsKeepInv(cfg, Apply(cfg, w, es[0]), es[1..]);
    }
  }

  /**
   In every interleaving: each admitted call records exactly one outcome, the ones that have not
   yet are the ones awaiting an answer, and a half-open circuit is always waiting for one of them.
   */
  lemma OneOutcomePerAdmission(cfg: Config, es: seq<Event>)
    requires cfg.Valid() && ValidRun(cfg, START, es)
    ensures var w := RunFrom(cfg, START, es);
            && w.admitted == w.recorded + |w.circuit.inFlight|
            && (forall id :: id in w.circuit.inFlight <==> id in w.calls && w.calls[id].phase.Sending?)
            && (w.circuit.breaker.trialInFlight ==>
                  && w.circuit.trial.Some?
                  && w.circuit.trial.value in w.calls
                  && w.calls[w.circuit.trial.value].phase.Sending?)
            && (w.circuit.inFlight == {} ==> w.circuit.breaker.state != CB.HalfOpen && w.admitted == w.recorded)
  {
    RunsKeepInv(cfg, START, es);
  }

  /** Every call, at every moment of every interleaving, is within its send and waiting budget. */
  lemma CallsStayWithinBudget(cfg: Config, es: seq<Event>, id: nat)
    requires cfg.Valid() && ValidRun(cfg, START, es) && id in RunFrom(cfg, START, es).calls
    ensures var c := RunFrom(cfg, START, es).calls[id];
            && c.sends <= Budget(c.retries) + 1
            && (!c.retryable ==> c.sends <= 1)
            && c.waited <= Scaled(Budget(c.retries), cfg.maxDelayMs)
  {
    RunsKeepInv(cfg, START, es);
    var c := RunFrom(cfg, START, es).calls[id];
    assert WithinBudget(cfg, c);
    if !c.phase.Ended? {
      ScaledGrows(if c.phase.Waiting? then c.phase.attempt + 1 else c.phase.attempt, Budget(c.retries), cfg.maxDelayMs);
    }
  }

  function StepsOf(es: seq<Event>, id: nat): nat
    decreases |es|
  {
    if es == [] then 0 else (if es[0].id == id then 1 else 0) + StepsOf(es[1..], id)
  }

  /** Termination: whatever the others do, a call that has begun takes a bounded number of steps. */
  lemma {:induction false} CallsTerminate(cfg: Config, w: World, es: seq<Event>, id: nat)
    requires cfg.Valid() && Tallied(cfg, w) && ValidRun(cfg, w, es) && id in w.calls
    ensures id in RunFrom(cfg, w, es).calls
    ensures StepsOf(es, id) + StepsLeft(RunFrom(cfg, w, es).calls[id]) <= StepsLeft(w.calls[id])
    ensures StepsLeft(w.calls[id]) <= 3 * Budget(w.calls[id].retries) + 2
    decreases |es|
  {
    assert WithinBudget(cfg, w.calls[id]);
    if es == [] {
    } else {
      StepKeepsTally(cfg, w, es[0]);
      CallsTerminate(cfg, Apply(cfg, w, es[0]), es[1..], id);
    }
  }

  /** A call that has not ended can always be moved on: by itself, or by its answer or its timer. */
  lemma NoCallIsStuck(cfg: Config, es: seq<Event>, id: nat)
    requires cfg.Valid() && ValidRun(cfg, START, es) && id in RunFrom(cfg, START, es).calls
    requires !RunFrom(cfg, START, es).calls[id].phase.Ended?
    ensures exists e: Event :: e.id == id && Enabled(RunFrom(cfg, START, es), e)
  {
    RunsKeepInv(cfg, START, es);
    var w := RunFrom(cfg, START, es);
    match w.calls[id].phase {
      case Asking(_) => assert Enabled(w, Ask(id, w.circuit.now));
      case Sending(_) => assert Enabled(w, Answer(id, w.circuit.now, NoAnswer, 0));
      case Waiting(_) => assert Enabled(w, Wake(id));
    }
  }

  // ---------- What the answers do to the circuit ----------

  /** The upstream could not serve the request: no answer, or a server error. */
  predicate ServerFailed(reply: Reply) {
    match reply
    case NoAnswer => true
    case Status(status, _) => status >= 500
  }

  /** An answer below 500 closes the circuit and clears its count; any other is counted or opens it. */
  lemma AnswerTellsBreaker(cfg: Config, w: World, e: Event)
    requires cfg.circuit.Some? && Enabled(w, e) && e.Answer?
    ensures var (b, b') := (w.circuit.breaker, Apply(cfg, w, e).circuit.breaker);
            if ServerFailed(e.reply) then b'.state == CB.Open || (b'.state == b.state && b'.failures == b.failures + 1)
            else b'.state == CB.Closed && b'.failures == 0
  {
  }

  /** How many answers a run holds. */
  function AnswersOf(es: seq<Event>): nat
    decreases |es|
  {
    if es == [] then 0 else (if es[0].Answer? then 1 else 0) + AnswersOf(es[1..])
  }

  predicate OnlyFailures(es: seq<Event>) {
    forall i :: 0 <= i < |es| && es[i].Answer? ==> ServerFailed(es[i].reply)
  }

  /** Below the threshold a closed circuit counts the failures of all its calls, whoever made them. */
  lemma {:induction false} FailuresAddUp(cfg: Config, w: World, es: seq<Event>)
    requires cfg.circuit.Some? && ValidRun(cfg, w, es) && OnlyFailures(es)
    requires w.circuit.breaker.state == CB.Closed
    requires w.circuit.breaker.failures + AnswersOf(es) < cfg.circuit.value.failureThreshold
    ensures var b := RunFrom(cfg, w, es).circuit.breaker;
            b.state == CB.Closed && b.failures == w.circuit.breaker.failures + AnswersOf(es)
    decreases |es|
  {
    if es == [] {
    } else {
      assert forall i :: 0 <= i < |es[1..]| ==> es[1..][i] == es[i + 1];
      FailuresAddUp(cfg, Apply(cfg, w, es[0]), es[1..]);
    }
  }

  /**
   The threshold: when the calls to one origin have brought nothing but failures since the circuit was
   last healthy, the one that completes the threshold opens it, and from then until the reset time
   every request is refused with exactly the time that is left.
   */
  lemma ThresholdOpens(cfg: Config, w: World, es: seq<Event>, last: Event, at: int)
    requires cfg.Valid() && cfg.circuit.Some?
    requires w.circuit.breaker.state == CB.Closed && w.circuit.breaker.failures == 0
    requires ValidRun(cfg, w, es) && OnlyFailures(es) && AnswersOf(es) + 1 == cfg.circuit.value.failureThreshold
    requires Enabled(RunFrom(cfg, w, es), last) && last.Answer? && ServerFailed(last.reply)
    requires last.at <= at < last.at + cfg.circuit.value.resetMs
    ensures var circuit := Apply(cfg, RunFrom(cfg, w, es), last).circuit;
            && circuit.breaker.state == CB.Open && circuit.breaker.openedAt == last.at
            && Blocked(cfg, circuit, at) == Some(cfg.circuit.value.resetMs - (at - last.at))
  {
    FailuresAddUp(cfg, w, es);
  }

  /** And a request ends with the status of its last answer, or with the time it was refused for. */
  lemma EndsWithItsAnswer(cfg: Config, w: World, e: Event)
    requires Enabled(w, e) && e.id in w.calls && !w.calls[e.id].phase.Ended?
    requires Apply(cfg, w, e).calls[e.id].phase.Ended?
    ensures match Apply(cfg, w, e).calls[e.id].phase.result
            case Refused(ms) => e.Ask? && Blocked(cfg, w.circuit, e.at) == Some(ms)
            case Answered(status) => e.Answer? && e.reply.Status? && e.reply.status == status
            case Failed => e.Answer? && e.reply.NoAnswer?
  {
  }
}
