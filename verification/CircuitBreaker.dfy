/**
 The circuit breaker shared by every call to one origin. Calls overlap, so an outcome may be
 recorded long after the state it was admitted under has gone. The breaker's fields turn out to
 be a function of the history of trials, outcomes and openings, and that history decides what it
 admits.
 */
module CircuitBreaker {
  import opened Wrappers

  datatype CircuitState = Closed | Open | HalfOpen

  datatype Options = Options(failureThreshold: int, resetMs: int) {
    predicate Valid() {
      failureThreshold >= 1 && resetMs >= 1
    }
  }

  datatype Breaker = Breaker(state: CircuitState, failures: int, openedAt: int, trialInFlight: bool)

  const NEW_BREAKER := Breaker(Closed, 0, 0, false)

  /** `None` when the call may proceed, or how long until the next attempt is allowed. */
  function BlockedForMs(o: Options, b: Breaker, now: int): (Option<int>, Breaker) {
    if b.state == Closed then (None, b)
    else
      var elapsed := now - b.openedAt;
      var b1 := if b.state == Open && elapsed >= o.resetMs then b.(state := HalfOpen, trialInFlight := false) else b;
      if b1.state == HalfOpen then
        if b1.trialInFlight then (Some(o.resetMs), b1) else (None, b1.(trialInFlight := true))
      else (Some(if o.resetMs - elapsed > 0 then o.resetMs - elapsed else 0), b1)
  }

  function AfterSuccess(b: Breaker): Breaker {
    b.(state := Closed, failures := 0, trialInFlight := false)
  }

  /** This failure opens the circuit (again). */
  predicate Opens(o: Options, b: Breaker) {
    b.state == HalfOpen || b.failures + 1 >= o.failureThreshold
  }

  function AfterFailure(o: Options, b: Breaker, now: int): Breaker {
    if Opens(o, b) then Breaker(Open, 0, now, false)
    else b.(failures := b.failures + 1, trialInFlight := false)
  }

  class CircuitBreaker {
    const options: Options
    var state: CircuitState
    var failures: int
    var openedAt: int
    var trialInFlight: bool

    function View(): Breaker
      reads this
    {
      Breaker(state, failures, openedAt, trialInFlight)
    }

    constructor (options: Options)
      ensures this.options == options && View() == NEW_BREAKER
    {
      this.options := options;
      state, failures, openedAt, trialInFlight := Closed, 0, 0, false;
    }

    method Ask(now: int) returns (blocked: Option<int>)
      modifies this`state, this`trialInFlight
      ensures (blocked, View()) == BlockedForMs(options, old(View()), now)
    {
      if state == Closed {
        return None;
      }
      var elapsed := now - openedAt;
      if state == Open && elapsed >= options.resetMs {
        state := HalfOpen;
        trialInFlight := false;
      }
      if state == HalfOpen {
        if trialInFlight {
          return Some(options.resetMs);
        }
        trialInFlight := true;
        return None;
      }
      return Some(if options.resetMs - elapsed > 0 then options.resetMs - elapsed else 0);
    }

    method RecordSuccess()
      modifies this
      ensures View() == AfterSuccess(old(View()))
    {
      state := Closed;
      failures := 0;
      trialInFlight := false;
    }

    method RecordFailure(now: int)
      modifies this
      ensures View() == AfterFailure(options, old(View()), now)
    {
      trialInFlight := false;
      if state == HalfOpen {
        Trip(now);
        return;
      }
      failures := failures + 1;
      if failures >= options.failureThreshold {
        Trip(now);
      }
    }

    method Trip(now: int)
      modifies this
      ensures View() == Breaker(Open, 0, now, old(trialInFlight))
    {
      state := Open;
      openedAt := now;
      failures := 0;
    }
  }

  // ---------- Runs and their history ----------

  /** What happened, oldest first: trials admitted, outcomes recorded, openings. */
  datatype Mark = Trial | Succeeded | Failed | Opened(at: int)

  datatype World = World(breaker: Breaker, inFlight: set<nat>, trial: Option<nat>, marks: seq<Mark>, now: int)

  datatype Event = Ask(id: nat, at: int) | Report(id: nat, ok: bool, at: int)

  const START := World(NEW_BREAKER, {}, None, [], 0)

  predicate Enabled(w: World, e: Event) {
    w.now <= e.at && (e.Ask? <==> e.id !in w.inFlight)
  }

  predicate Admits(o: Options, w: World, at: int) {
    BlockedForMs(o, w.breaker, at).0 == None
  }

  function Apply(o: Options, w: World, e: Event): World
    requires Enabled(w, e)
  {
    match e
    case Ask(id, at) =>
      var (blocked, b) := BlockedForMs(o, w.breaker, at);
      if blocked.Some? then w.(breaker := b, now := at)
      else if w.breaker.state == Closed then w.(breaker := b, inFlight := w.inFlight + {id}, now := at)
      else World(b, w.inFlight + {id}, Some(id), w.marks + [Trial], at)
    case Report(id, true, at) =>
      World(AfterSuccess(w.breaker), w.inFlight - {id}, w.trial, w.marks + [Succeeded], at)
    case Report(id, false, at) =>
      World(AfterFailure(o, w.breaker, at), w.inFlight - {id}, w.trial,
            w.marks + [Failed] + (if Opens(o, w.breaker) then [Opened(at)] else []), at)
  }

  ghost predicate ValidRun(o: Options, w: World, es: seq<Event>)
    decreases |es|
  {
    es == [] || (Enabled(w, es[0]) && ValidRun(o, Apply(o, w, es[0]), es[1..]))
  }

  ghost function RunFrom(o: Options, w: World, es: seq<Event>): World
    requires ValidRun(o, w, es)
    decreases |es|
  {
    if es == [] then w else RunFrom(o, Apply(o, w, es[0]), es[1..])
  }

  // ---------- The history's own account ----------

  function Init<T>(s: seq<T>): seq<T>
    requires s != []
  {
    s[..|s| - 1]
  }

  /** The last mark that is not a failure decides. */
  function StateOf(marks: seq<Mark>): CircuitState
    decreases |marks|
  {
    if marks == [] then Closed
    else match marks[|marks| - 1]
         case Succeeded => Closed
         case Trial => HalfOpen
         case Opened(_) => Open
         case Failed => StateOf(Init(marks))
  }

  /** Failures since the last success or opening; a trial does not interrupt the count. */
  function FailuresOf(marks: seq<Mark>): nat
    decreases |marks|
  {
    if marks == [] then 0
    else match marks[|marks| - 1]
         case Failed => FailuresOf(Init(marks)) + 1
         case Trial => FailuresOf(Init(marks))
         case _ => 0
  }

  /** The instant of the last opening, 0 before any. */
  function OpenedOf(marks: seq<Mark>): int
    decreases |marks|
  {
    if marks == [] then 0
    else match marks[|marks| - 1]
         case Opened(at) => at
         case _ => OpenedOf(Init(marks))
  }

  /** An outcome was recorded between the marks at `i` and `j`. */
  ghost predicate Answered(marks: seq<Mark>, i: int, j: int) {
    exists k :: i < k < j && 0 <= k < |marks| && (marks[k] == Succeeded || marks[k] == Failed)
  }

  /** Between two trials there is a recorded outcome. */
  ghost predicate TrialsSeparated(marks: seq<Mark>) {
    forall i, j :: 0 <= i < j < |marks| && marks[i] == Trial && marks[j] == Trial ==> Answered(marks, i, j)
  }

  /** Every trial has been followed by an outcome. */
  ghost predicate TrialsAnswered(marks: seq<Mark>) {
    forall i :: 0 <= i < |marks| && marks[i] == Trial ==> Answered(marks, i, |marks|)
  }

  lemma AnsweredStays(marks: seq<Mark>, more: seq<Mark>, i: int, j: int)
    requires 0 <= i < j <= |marks| && Answered(marks, i, j)
    ensures Answered(marks + more, i, j)
  {
    var k :| i < k < j && 0 <= k < |marks| && (marks[k] == Succeeded || marks[k] == Failed);
    assert (marks + more)[k] == marks[k];
  }

  /** The fields agree with the history; half-open means the last trial has not reported yet. */
  ghost predicate Inv(o: Options, w: World) {
    var b := w.breaker;
    && b.state == StateOf(w.marks)
    && b.failures == FailuresOf(w.marks) < o.failureThreshold
    && b.openedAt == OpenedOf(w.marks)
    && (b.state != Closed ==> b.openedAt <= w.now)
    && (b.trialInFlight <==> b.state == HalfOpen)
    && (b.state == HalfOpen ==>
          && w.trial.Some? && w.trial.value in w.inFlight
          && w.now >= b.openedAt + o.resetMs)
    && TrialsSeparated(w.marks)
    && (b.state != HalfOpen ==> TrialsAnswered(w.marks))
  }

  /** A trial after every earlier one has an outcome stays separated from them. */
  lemma TrialSeparates(marks: seq<Mark>)
    requires TrialsSeparated(marks) && TrialsAnswered(marks)
    ensures TrialsSeparated(marks + [Trial])
  {
    var all := marks + [Trial];
    forall i, j | 0 <= i < j < |all| && all[i] == Trial && all[j] == Trial ensures Answered(all, i, j) {
      assert marks[i] == Trial && (j < |marks| ==> marks[j] == Trial);
      AnsweredStays(marks, [Trial], i, j);
    }
  }

  lemma AskKeepsInv(o: Options, w: World, e: Event)
    requires o.Valid() && Inv(o, w) && Enabled(w, e) && e.Ask?
    ensures Inv(o, Apply(o, w, e))
  {
    var w' := Apply(o, w, e);
    if w'.marks != w.marks {
      assert w.breaker.state != HalfOpen;
      TrialSeparates(w.marks);
      assert Init(w'.marks) == w.marks;
    }
  }

  /** Marks gain an outcome: separation of trials carries over, and no trial is left unanswered. */
  lemma OutcomeSeparates(marks: seq<Mark>, more: seq<Mark>)
    requires TrialsSeparated(marks) && more != []
    requires more[0] == Succeeded || more[0] == Failed
    requires forall i :: 0 <= i < |more| ==> more[i] != Trial
    ensures TrialsSeparated(marks + more) && TrialsAnswered(marks + more)
  {
    var all := marks + more;
    forall i, j | 0 <= i < j < |all| && all[i] == Trial && all[j] == Trial ensures Answered(all, i, j) {
      assert j < |marks| && marks[i] == Trial && marks[j] == Trial;
      AnsweredStays(marks, more, i, j);
    }
    forall i | 0 <= i < |all| && all[i] == Trial ensures Answered(all, i, |all|) {
      assert i < |marks| && all[|marks|] == more[0];
    }
  }

  lemma SuccessKeepsInv(o: Options, w: World, e: Event)
    requires o.Valid() && Inv(o, w) && Enabled(w, e) && e.Report? && e.ok
    ensures Inv(o, Apply(o, w, e))
  {
    OutcomeSeparates(w.marks, [Succeeded]);
  }

  lemma OpeningKeepsInv(o: Options, w: World, e: Event)
    requires o.Valid() && Inv(o, w) && Enabled(w, e) && e.Report? && !e.ok && Opens(o, w.breaker)
    ensures Inv(o, Apply(o, w, e))
  {
    OutcomeSeparates(w.marks, [Failed, Opened(e.at)]);
    assert Apply(o, w, e).marks == w.marks + [Failed, Opened(e.at)];
  }

  lemma CountedFailureKeepsInv(o: Options, w: World, e: Event)
    requires o.Valid() && Inv(o, w) && Enabled(w, e) && e.Report? && !e.ok && !Opens(o, w.breaker)
    ensures Inv(o, Apply(o, w, e))
  {
    OutcomeSeparates(w.marks, [Failed]);
    var w' := Apply(o, w, e);
    assert w'.marks == w.marks + [Failed];
    assert Init(w'.marks) == w.marks;
  }

  lemma ReportKeepsInv(o: Options, w: World, e: Event)
    requires o.Valid() && Inv(o, w) && Enabled(w, e) && e.Report?
    ensures Inv(o, Apply(o, w, e))
  {
    if e.ok {
      SuccessKeepsInv(o, w, e);
    } else if Opens(o, w.breaker) {
      OpeningKeepsInv(o, w, e);
    } else {
      CountedFailureKeepsInv(o, w, e);
    }
  }

  lemma {:induction false} RunsKeepInv(o: Options, w: World, es: seq<Event>)
    requires o.Valid() && Inv(o, w) && ValidRun(o, w, es)
    ensures Inv(o, RunFrom(o, w, es))
    decreases |es|
  {
    if es == [] {
    } else {
      if es[0].Ask? {
        AskKeepsInv(o, w, es[0]);
      } else {
        ReportKeepsInv(o, w, es[0]);
      }
      RunsKeepInv(o, Apply(o, w, es[0]), es[1..]);
    }
  }

  // ---------- Why the history has the openings and trials it has ----------

  /** After this history another failure completes the count, or fails the trial. */
  predicate DueToOpen(o: Options, marks: seq<Mark>) {
    StateOf(marks) == HalfOpen || FailuresOf(marks) + 1 >= o.failureThreshold
  }

  /** The mark at `k` follows from the marks before it. */
  predicate ExplainedAt(o: Options, marks: seq<Mark>, k: nat)
    requires k < |marks|
  {
    match marks[k]
    case Trial => StateOf(marks[..k]) == Open
    case Succeeded => true
    case Failed => DueToOpen(o, marks[..k]) <==> k + 1 < |marks| && marks[k + 1].Opened?
    case Opened(_) => k > 0 && marks[k - 1] == Failed
  }

  ghost predicate Explained(o: Options, marks: seq<Mark>) {
    forall k :: 0 <= k < |marks| ==> ExplainedAt(o, marks, k)
  }

  /** Marks that are explained themselves, and do not begin with an opening, leave the earlier ones explained. */
  lemma AppendKeepsExplained(o: Options, marks: seq<Mark>, more: seq<Mark>)
    requires Explained(o, marks) && more != [] && !more[0].Opened?
    requires forall k :: |marks| <= k < |marks| + |more| ==> ExplainedAt(o, marks + more, k)
    ensures Explained(o, marks + more)
  {
    var all := marks + more;
    forall k | 0 <= k < |marks| ensures ExplainedAt(o, all, k) {
      assert ExplainedAt(o, marks, k) && all[..k] == marks[..k] && all[|marks|] == more[0];
    }
  }

  /** A failure together with the opening that may follow it. */
  lemma FailureIsExplained(o: Options, marks: seq<Mark>, at: int)
    requires Explained(o, marks)
    ensures Explained(o, marks + [Failed] + (if DueToOpen(o, marks) then [Opened(at)] else []))
  {
    var more := [Failed] + (if DueToOpen(o, marks) then [Opened(at)] else []);
    var all := marks + more;
    assert all == marks + [Failed] + (if DueToOpen(o, marks) then [Opened(at)] else []);
    assert all[..|marks|] == marks;
    AppendKeepsExplained(o, marks, more);
  }

  lemma StepKeepsExplained(o: Options, w: World, e: Event)
    requires o.Valid() && Inv(o, w) && Explained(o, w.marks) && Enabled(w, e)
    ensures Explained(o, Apply(o, w, e).marks)
  {
    var w' := Apply(o, w, e);
    if e.Report? && !e.ok {
      FailureIsExplained(o, w.marks, e.at);
    } else if w'.marks != w.marks {
      var more := [if e.Report? then Succeeded else Trial];
      assert w'.marks == w.marks + more && w'.marks[..|w.marks|] == w.marks;
      AppendKeepsExplained(o, w.marks, more);
    }
  }

  lemma {:induction false} RunsKeepExplained(o: Options, w: World, es: seq<Event>)
    requires o.Valid() && Inv(o, w) && Explained(o, w.marks) && ValidRun(o, w, es)
    ensures Explained(o, RunFrom(o, w, es).marks)
    decreases |es|
  {
    if es == [] {
    } else {
      StepKeepsExplained(o, w, es[0]);
      RunsKeepInv(o, w, [es[0]]);
      assert [es[0]][1..] == [] && RunFrom(o, w, [es[0]]) == Apply(o, w, es[0]);
      RunsKeepExplained(o, Apply(o, w, es[0]), es[1..]);
    }
  }

  // ---------- Main results ----------

  /**
   The breaker is what its history says, and its failure count never reaches the threshold. The
   history's own openings and trials follow from what came before them: a failure is followed by
   an opening if and only if it completes the count or fails a trial, nothing else is, and a trial
   only follows an opening.
   */
  lemma BreakerIsItsHistory(o: Options, es: seq<Event>)
    requires o.Valid() && ValidRun(o, START, es)
    ensures var w := RunFrom(o, START, es);
            && w.breaker.state == StateOf(w.marks)
            && w.breaker.failures == FailuresOf(w.marks) < o.failureThreshold
            && (w.breaker.state != Closed ==> w.breaker.openedAt == OpenedOf(w.marks))
            && Explained(o, w.marks)
  {
    RunsKeepInv(o, START, es);
    RunsKeepExplained(o, START, es);
  }

  /**
   What an ask gets, in terms of the history alone: it passes when nothing has opened since the
   last success, or when the last opening is `resetMs` old and no trial has followed it; an open
   breaker otherwise names exactly the time that is left, a half-open one the full reset time.
   */
  lemma AdmissionByHistory(o: Options, es: seq<Event>, at: int)
    requires o.Valid() && ValidRun(o, START, es) && RunFrom(o, START, es).now <= at
    ensures var w := RunFrom(o, START, es);
            var left := OpenedOf(w.marks) + o.resetMs - at;
            BlockedForMs(o, w.breaker, at).0 ==
            match StateOf(w.marks)
            case Closed => None
            case HalfOpen => Some(o.resetMs)
            case Open => if left > 0 then Some(left) else None
  {
    RunsKeepInv(o, START, es);
  }

  /** While the breaker is not closed, at most one call is admitted between two recorded outcomes. */
  lemma OneTrialBetweenOutcomes(o: Options, es: seq<Event>)
    requires o.Valid() && ValidRun(o, START, es)
    ensures TrialsSeparated(RunFrom(o, START, es).marks)
  {
    RunsKeepInv(o, START, es);
  }

  /**
   A half-open breaker always waits for a call that is in flight, the last one admitted as a
   trial, and whichever call reports next takes it out of that state.
   */
  lemma NeverLockedHalfOpen(o: Options, es: seq<Event>)
    requires o.Valid() && ValidRun(o, START, es)
    ensures var w := RunFrom(o, START, es);
            && (w.breaker.trialInFlight <==> w.breaker.state == HalfOpen)
            && (w.breaker.state == HalfOpen ==> w.trial.Some? && w.trial.value in w.inFlight)
            && forall id, ok, at :: Enabled(w, Report(id, ok, at)) ==>
                 Apply(o, w, Report(id, ok, at)).breaker.state != HalfOpen
  {
    RunsKeepInv(o, START, es);
  }

  /**
   An open breaker refuses every ask before its reset time, if and only if no success has been
   recorded since it opened; a success of a call admitted earlier closes it at once.
   */
  lemma OpenRefusesUnlessLateSuccess(o: Options, es: seq<Event>, at: int)
    requires o.Valid() && ValidRun(o, START, es)
    requires var w := RunFrom(o, START, es);
             && w.now <= at < OpenedOf(w.marks) + o.resetMs
             && exists i :: 0 <= i < |w.marks| && w.marks[i].Opened?
    ensures var w := RunFrom(o, START, es);
            Admits(o, w, at) <==> SucceededSinceOpening(w.marks)
  {
    RunsKeepInv(o, START, es);
    StateAfterOpening(RunFrom(o, START, es).marks);
  }

  /** A success comes after the last opening. */
  predicate SucceededSinceOpening(marks: seq<Mark>)
    decreases |marks|
  {
    marks != [] &&
    (marks[|marks| - 1] == Succeeded ||
     (!marks[|marks| - 1].Opened? && SucceededSinceOpening(Init(marks))))
  }

  /** After an opening, closed means a success has followed and open means none has. */
  lemma {:induction false} StateAfterOpening(marks: seq<Mark>)
    requires exists i :: 0 <= i < |marks| && marks[i].Opened?
    ensures StateOf(marks) == Open ==> !SucceededSinceOpening(marks)
    ensures StateOf(marks) == Closed ==> SucceededSinceOpening(marks)
    decreases |marks|
  {
    var i :| 0 <= i < |marks| && marks[i].Opened?;
    var n := |marks| - 1;
    if marks[n] == Failed {
      assert Init(marks)[i].Opened?;
      StateAfterOpening(Init(marks));
    }
  }

  /**
   A failure reported while the breaker is open leaves it open, and restarts its wait if and only
   if it completes another full count.
   */
  lemma LateFailureRestartsIff(o: Options, es: seq<Event>, id: nat, at: int)
    requires o.Valid() && ValidRun(o, START, es)
    requires var w := RunFrom(o, START, es); w.breaker.state == Open && Enabled(w, Report(id, false, at))
    ensures var w := RunFrom(o, START, es);
            var b := Apply(o, w, Report(id, false, at)).breaker;
            && b.state == Open
            && b.openedAt == if FailuresOf(w.marks) + 1 >= o.failureThreshold then at else OpenedOf(w.marks)
  {
    RunsKeepInv(o, START, es);
  }

  ghost predicate Reaches(o: Options, w: World, es: seq<Event>, end: World) {
    ValidRun(o, w, es) && RunFrom(o, w, es) == end
  }

  lemma Then(o: Options, w: World, e: Event, es: seq<Event>, end: World)
    requires Enabled(w, e) && Reaches(o, Apply(o, w, e), es, end)
    ensures Reaches(o, w, [e] + es, end)
  {
    assert ([e] + es)[1..] == es;
  }

  /** Two calls were in flight when the first one's failure opened the breaker. */
  lemma SecondReport(ok: bool, at: int)
    requires at >= 0
    ensures var o := Options(1, 10);
            var es := [Ask(0, 0), Ask(1, 0), Report(0, false, 0), Report(1, ok, at)];
            && ValidRun(o, START, es)
            && RunFrom(o, START, es).breaker == (if ok then NEW_BREAKER else Breaker(Open, 0, at, false))
            && RunFrom(o, START, es).now == at
  {
    var o := Options(1, 10);
    var w1 := Apply(o, START, Ask(0, 0));
    var w2 := Apply(o, w1, Ask(1, 0));
    var w3 := Apply(o, w2, Report(0, false, 0));
    var last := Report(1, ok, at);
    var end := Apply(o, w3, last);
    Then(o, w3, last, [], end);
    Then(o, w2, Report(0, false, 0), [last] + [], end);
    Then(o, w1, Ask(1, 0), [Report(0, false, 0)] + ([last] + []), end);
    Then(o, START, Ask(0, 0), [Ask(1, 0)] + ([Report(0, false, 0)] + ([last] + [])), end);
    assert [Ask(0, 0)] + ([Ask(1, 0)] + ([Report(0, false, 0)] + ([last] + []))) ==
           [Ask(0, 0), Ask(1, 0), Report(0, false, 0), last];
  }

  /** A late failure restarts the wait: nobody is admitted at the instant the first opening allowed. */
  lemma LateFailuresExtendTheWait()
    ensures var o := Options(1, 10);
            var es := [Ask(0, 0), Ask(1, 0), Report(0, false, 0), Report(1, false, 9)];
            && ValidRun(o, START, es)
            && !Admits(o, RunFrom(o, START, es), 10)
  {
    SecondReport(false, 9);
  }

  /** A late success closes the breaker: a call is admitted long before the reset time. */
  lemma LateSuccessClosesEarly()
    ensures var o := Options(1, 10);
            var es := [Ask(0, 0), Ask(1, 0), Report(0, false, 0), Report(1, true, 1)];
            && ValidRun(o, START, es)
            && Admits(o, RunFrom(o, START, es), 2)
  {
    SecondReport(true, 1);
  }
}
