/**
 The outbound HTTP client: a retry loop per request over one circuit breaker per origin. First
 the loop and the breaker table as the client object has them, then any number of requests to
 one origin interleaved.
 */
module HttpClient {
  import opened Wrappers
  import CB = CircuitBreaker

  datatype Method = GET | HEAD | OPTIONS | PUT | DELETE | POST | PATCH

  /** Methods that may be repeated unasked (section 9.2.2 of RFC 9110). */
  function IsIdempotent(m: Method, explicit: Option<bool>): bool {
    explicit.GetOr(m in {GET, HEAD, OPTIONS, PUT, DELETE})
  }

  predicate IsRetryableStatus(status: int) {
    status in {408, 425, 429, 500, 502, 503, 504}
  }

  datatype Config = Config(circuit: Option<CB.Options>, baseMs: int, jitterMs: int, maxDelayMs: int) {
    /** The bounds the configuration schema puts on these values. */
    predicate Valid() {
      && (circuit.Some? ==> circuit.value.Valid())
      && baseMs >= 1 && jitterMs >= 0 && maxDelayMs >= 1
    }
  }

  /** A `Retry-After` field: none (or unreadable), a number of seconds, or a date as an instant. */
  datatype RetryAfter = Absent | Seconds(seconds: real) | Date(at: int)

  function ParseRetryAfter(header: RetryAfter, now: int): (ms: Option<real>)
    ensures ms.Some? ==> ms.value >= 0.0
  {
    match header
    case Absent => None
    case Seconds(s) => Some(if s > 0.0 then s * 1000.0 else 0.0)
    case Date(at) => Some(if at > now then (at - now) as real else 0.0)
  }

  function Pow2(n: nat): (p: nat)
    ensures p >= 1
  {
    if n == 0 then 1 else 2 * Pow2(n - 1)
  }

  function Min(a: real, b: real): real {
    if a < b then a else b
  }

  /** `jitter` is the value drawn, at least 0. */
  function RetryDelay(cfg: Config, attempt: nat, jitter: nat, retryAfter: Option<real>): real {
    match retryAfter
    case Some(ms) => Min(ms, cfg.maxDelayMs as real)
    case None => Min((Pow2(attempt) * cfg.baseMs + jitter) as real, cfg.maxDelayMs as real)
  }

  datatype Reply = Status(status: int, retryAfter: RetryAfter) | NoAnswer

  /** How a request ends: refused by an open circuit, answered, or without an answer. */
  datatype Result = Refused(blockedMs: int) | Answered(status: int) | Failed

  predicate CanRetry(retries: int, retryable: bool, attempt: nat, reply: Reply) {
    retryable && attempt < retries && (reply.Status? ==> IsRetryableStatus(reply.status))
  }

  function Final(reply: Reply): Result {
    match reply
    case Status(status, _) => Answered(status)
    case NoAnswer => Failed
  }

  predicate CountsAsSuccess(reply: Reply) {
    reply.Status? && reply.status < 500
  }

  function WaitAfter(cfg: Config, attempt: nat, reply: Reply, jitter: nat, now: int): real {
    RetryDelay(cfg, attempt, jitter, if reply.Status? then ParseRetryAfter(reply.retryAfter, now) else None)
  }

  /** Every wait is capped and never negative, whatever the server asks for (section 10.2.3 of RFC 9110). */
  lemma WaitIsBounded(cfg: Config, attempt: nat, reply: Reply, jitter: nat, now: int)
    requires cfg.Valid()
    ensures 0.0 <= WaitAfter(cfg, attempt, reply, jitter, now) <= cfg.maxDelayMs as real
    ensures reply.Status? && ParseRetryAfter(reply.retryAfter, now).Some? ==>
              WaitAfter(cfg, attempt, reply, jitter, now) <= ParseRetryAfter(reply.retryAfter, now).value
  {
    assert Pow2(attempt) * cfg.baseMs >= 0;
  }

  /**
   How long the client waits when the server says: that long, never longer than the cap, and with a
   date within the cap exactly until then.
   */
  lemma ServerWaitIsHonoured(cfg: Config, attempt: nat, status: int, retryAfter: RetryAfter, jitter: nat, now: int)
    requires cfg.Valid() && !retryAfter.Absent?
    ensures var wait := WaitAfter(cfg, attempt, Status(status, retryAfter), jitter, now);
            var cap := cfg.maxDelayMs as real;
            match retryAfter
            case Seconds(s) => wait == (if s <= 0.0 then 0.0 else if s * 1000.0 <= cap then s * 1000.0 else cap)
            case Date(at) =>
              && (at <= now ==> wait == 0.0)
              && (now < at <= now + cfg.maxDelayMs ==> now as real + wait == at as real)
              && (at > now + cfg.maxDelayMs ==> wait == cap)
  {
  }

  /** Without a word from the server, jitter only ever adds to the backoff, by itself at most, and below the cap. */
  lemma JitterIsAdded(cfg: Config, attempt: nat, jitter: nat)
    requires cfg.Valid()
    ensures var (plain, wait) := (RetryDelay(cfg, attempt, 0, None), RetryDelay(cfg, attempt, jitter, None));
            && plain <= wait <= plain + jitter as real
            && (wait < cfg.maxDelayMs as real ==> wait == plain + jitter as real)
  {
    var backoff := Pow2(attempt) * cfg.baseMs;
    assert (backoff + jitter) as real == backoff as real + jitter as real;
  }

  /** The statuses that mean "not now": the gateway errors but 501, and three of the client errors. */
  lemma RetryableStatuses(status: int)
    ensures 500 <= status <= 504 ==> (IsRetryableStatus(status) <==> status != 501)
    ensures 400 <= status <= 499 ==> (IsRetryableStatus(status) <==> status == 408 || status == 425 || status == 429)
    ensures status < 400 || status > 504 ==> !IsRetryableStatus(status)
  {
  }

  /** Without jitter the wait doubles from one attempt to the next until it meets the cap, and stays there. */
  lemma BackoffDoubles(cfg: Config, attempt: nat)
    requires cfg.Valid()
    ensures RetryDelay(cfg, 0, 0, None) == Min(cfg.baseMs as real, cfg.maxDelayMs as real)
    ensures RetryDelay(cfg, attempt + 1, 0, None) ==
            Min(2.0 * RetryDelay(cfg, attempt, 0, None), cfg.maxDelayMs as real)
  {
    assert Pow2(attempt + 1) * cfg.baseMs == 2 * (Pow2(attempt) * cfg.baseMs);
    assert (2 * (Pow2(attempt) * cfg.baseMs)) as real == 2.0 * (Pow2(attempt) * cfg.baseMs) as real;
    assert Pow2(0) == 1;
  }

  function Budget(retries: int): nat {
    if retries > 0 then retries else 0
  }

  // ---------- One request on its own ----------

  /** What the environment contributes to one turn of the loop. */
  datatype Turn = Turn(askAt: int, answerAt: int, reply: Reply, jitter: nat)

  datatype Done = Done(result: Result, sends: nat, waits: seq<real>, breaker: CB.Breaker)

  /**
   One turn against the breaker: ask, and if admitted record the outcome. Without a circuit the
   breaker never blocks and never changes.
   */
  function TurnOn(cfg: Config, b: CB.Breaker, turn: Turn): (Option<int>, CB.Breaker) {
    match cfg.circuit
    case None => (None, b)
    case Some(o) =>
      var (blocked, asked) := CB.BlockedForMs(o, b, turn.askAt);
      if blocked.Some? then (blocked, asked)
      else if CountsAsSuccess(turn.reply) then (None, CB.AfterSuccess(asked))
      else (None, CB.AfterFailure(o, asked, turn.answerAt))
  }

  /** The loop from `attempt` on. */
  function LoopFrom(cfg: Config, b: CB.Breaker, retries: int, retryable: bool, attempt: nat, turns: seq<Turn>): Done
    requires |turns| > Budget(retries) - attempt >= 0
    decreases Budget(retries) - attempt
  {
    var turn := turns[0];
    var (blocked, told) := TurnOn(cfg, b, turn);
    if blocked.Some? then Done(Refused(blocked.value), 0, [], told)
    else if !CanRetry(retries, retryable, attempt, turn.reply) then Done(Final(turn.reply), 1, [], told)
    else
      var rest := LoopFrom(cfg, told, retries, retryable, attempt + 1, turns[1..]);
      Done(rest.result, rest.sends + 1,
           [WaitAfter(cfg, attempt, turn.reply, turn.jitter, turn.answerAt)] + rest.waits, rest.breaker)
  }

  function Sum(s: seq<real>): real {
    if s == [] then 0.0 else s[0] + Sum(s[1..])
  }

  /**
   The loop sends at most once more than its retries allow, and at most once when the request is
   not retryable; it gives up on a retryable reply only when the budget is spent, and only an
   open circuit makes it end without a send of its own.
   */
  lemma {:induction false} SendsAreBounded(cfg: Config, b: CB.Breaker, retries: int, retryable: bool, attempt: nat,
                                           turns: seq<Turn>)
    requires |turns| > Budget(retries) - attempt >= 0
    ensures var d := LoopFrom(cfg, b, retries, retryable, attempt, turns);
            && d.sends <= Budget(retries) - attempt + 1
            && (!retryable ==> d.sends <= 1)
            && d.sends == |d.waits| + (if d.result.Refused? then 0 else 1)
            && (retryable && (d.result.Failed? || (d.result.Answered? && IsRetryableStatus(d.result.status))) ==>
                  d.sends == Budget(retries) - attempt + 1)
            && (d.result.Refused? ==> cfg.circuit.Some?)
    decreases Budget(retries) - attempt
  {
    var (blocked, told) := TurnOn(cfg, b, turns[0]);
    if blocked == None && CanRetry(retries, retryable, attempt, turns[0].reply) {
      SendsAreBounded(cfg, told, retries, retryable, attempt + 1, turns[1..]);
    }
  }

  /** What the caller gets is the last reply, with its status, or that there was none. */
  lemma {:induction false} LastReplyWins(cfg: Config, b: CB.Breaker, retries: int, retryable: bool, attempt: nat,
                                         turns: seq<Turn>)
    requires |turns| > Budget(retries) - attempt >= 0
    ensures var d := LoopFrom(cfg, b, retries, retryable, attempt, turns);
            !d.result.Refused? ==>
              && 0 < d.sends <= |turns|
              && match turns[d.sends - 1].reply
                 case Status(status, _) => d.result == Answered(status)
                 case NoAnswer => d.result == Failed
    decreases Budget(retries) - attempt
  {
    var (blocked, told) := TurnOn(cfg, b, turns[0]);
    if blocked == None && CanRetry(retries, retryable, attempt, turns[0].reply) {
      LastReplyWins(cfg, told, retries, retryable, attempt + 1, turns[1..]);
      var rest := LoopFrom(cfg, told, retries, retryable, attempt + 1, turns[1..]);
      assert 0 < rest.sends <= |turns[1..]| ==> turns[rest.sends] == turns[1..][rest.sends - 1];
    }
  }

  /** This wait follows a reply that was worth a retry, and is the one due after that attempt and that reply. */
  predicate DueWait(cfg: Config, attempt: nat, turn: Turn, wait: real) {
    && (turn.reply.Status? ==> IsRetryableStatus(turn.reply.status))
    && wait == WaitAfter(cfg, attempt, turn.reply, turn.jitter, turn.answerAt)
  }

  /** Every wait is due, and only a retryable request has any. */
  lemma {:induction false} WaitsAreDue(cfg: Config, b: CB.Breaker, retries: int, retryable: bool, attempt: nat,
                                       turns: seq<Turn>)
    requires |turns| > Budget(retries) - attempt >= 0
    ensures var d := LoopFrom(cfg, b, retries, retryable, attempt, turns);
            && (d.waits != [] ==> retryable)
            && |d.waits| <= |turns|
            && forall i :: 0 <= i < |d.waits| ==> DueWait(cfg, attempt + i, turns[i], d.waits[i])
    decreases Budget(retries) - attempt
  {
    var (blocked, told) := TurnOn(cfg, b, turns[0]);
    if blocked == None && CanRetry(retries, retryable, attempt, turns[0].reply) {
      WaitsAreDue(cfg, told, retries, retryable, attempt + 1, turns[1..]);
      var rest := LoopFrom(cfg, told, retries, retryable, attempt + 1, turns[1..]);
      var d := LoopFrom(cfg, b, retries, retryable, attempt, turns);
      forall i | 0 <= i < |d.waits| ensures DueWait(cfg, attempt + i, turns[i], d.waits[i]) {
        if i > 0 {
          assert d.waits[i] == rest.waits[i - 1] && turns[i] == turns[1..][i - 1];
        }
      }
    }
  }

  /**
   A request that is not safe to repeat (section 9.2.2 of RFC 9110) and not declared so is sent once,
   and so is any request declared unsafe.
   */
  lemma UnsafeRequestsAreSentOnce(cfg: Config, b: CB.Breaker, m: Method, explicit: Option<bool>, retries: int,
                                  turns: seq<Turn>)
    requires |turns| > Budget(retries)
    requires explicit == Some(false) || (explicit == None && (m == POST || m == PATCH))
    ensures LoopFrom(cfg, b, retries, IsIdempotent(m, explicit), 0, turns).sends <= 1
  {
    SendsAreBounded(cfg, b, retries, IsIdempotent(m, explicit), 0, turns);
  }

  /** Any other request is sent again as long as its replies are worth it and its retries last. */
  lemma SafeRequestsAreRepeated(cfg: Config, b: CB.Breaker, m: Method, explicit: Option<bool>, retries: int,
                                turns: seq<Turn>)
    requires |turns| > Budget(retries)
    requires explicit == Some(true) || (explicit == None && m != POST && m != PATCH)
    ensures var d := LoopFrom(cfg, b, retries, IsIdempotent(m, explicit), 0, turns);
            match d.result
            case Refused(_) => true
            case Answered(status) => IsRetryableStatus(status) ==> d.sends == Budget(retries) + 1
            case Failed => d.sends == Budget(retries) + 1
  {
    SendsAreBounded(cfg, b, retries, IsIdempotent(m, explicit), 0, turns);
  }

  /** What an answer does to the breaker: a server error or no answer is a failure, anything below 500 heals. */
  lemma TurnTellsBreaker(cfg: Config, b: CB.Breaker, turn: Turn)
    requires cfg.Valid() && cfg.circuit.Some? && TurnOn(cfg, b, turn).0 == None
    ensures var b' := TurnOn(cfg, b, turn).1;
            match turn.reply
            case Status(status, _) =>
              if status < 500 then b'.state == CB.Closed && b'.failures == 0
              else b'.state == CB.Open || (b'.state == b.state && b'.failures == b.failures + 1)
            case NoAnswer => b'.state == CB.Open || (b'.state == b.state && b'.failures == b.failures + 1)
  {
  }

  /** At most `n` waits, each in [0, maxMs], and all of them together in [0, n * maxMs]. */
  predicate WaitsFit(waits: seq<real>, n: int, maxMs: int) {
    && |waits| <= n
    && (forall i :: 0 <= i < |waits| ==> 0.0 <= waits[i] <= maxMs as real)
    && 0.0 <= Sum(waits) <= Scaled(n, maxMs)
  }

  lemma OneMoreWait(first: real, rest: seq<real>, n: int, maxMs: int)
    requires 0.0 <= first <= maxMs as real && WaitsFit(rest, n, maxMs)
    ensures WaitsFit([first] + rest, n + 1, maxMs)
  {
    assert ([first] + rest)[1..] == rest;
    ScaledStep(n, maxMs);
  }

  lemma NoWaitFits(n: int, maxMs: int)
    requires n >= 0 && maxMs >= 1
    ensures WaitsFit([], n, maxMs)
  {
    assert 0 <= n * maxMs;
  }

  /** The waits of the loop from `attempt` on fit the retries that are left. */
  lemma {:induction false} WaitingIsBounded(cfg: Config, b: CB.Breaker, retries: int, retryable: bool, attempt: nat,
                                            turns: seq<Turn>)
    requires cfg.Valid() && |turns| > Budget(retries) - attempt >= 0
    ensures WaitsFit(LoopFrom(cfg, b, retries, retryable, attempt, turns).waits, Budget(retries) - attempt,
                     cfg.maxDelayMs)
    decreases Budget(retries) - attempt
  {
    var turn := turns[0];
    var (blocked, told) := TurnOn(cfg, b, turn);
    if blocked == None && CanRetry(retries, retryable, attempt, turn.reply) {
      WaitingIsBounded(cfg, told, retries, retryable, attempt + 1, turns[1..]);
      WaitIsBounded(cfg, attempt, turn.reply, turn.jitter, turn.answerAt);
      var rest := LoopFrom(cfg, told, retries, retryable, attempt + 1, turns[1..]);
      OneMoreWait(WaitAfter(cfg, attempt, turn.reply, turn.jitter, turn.answerAt), rest.waits,
                  Budget(retries) - attempt - 1, cfg.maxDelayMs);
    } else {
      NoWaitFits(Budget(retries) - attempt, cfg.maxDelayMs);
    }
  }

  function Scaled(n: int, x: int): real {
    (n * x) as real
  }

  lemma ScaledStep(n: int, x: int)
    ensures Scaled(n + 1, x) == Scaled(n, x) + x as real
  {
    assert (n + 1) * x == n * x + x;
  }

  class FetchHttpClient {
    const cfg: Config
    var breakers: map<string, CB.CircuitBreaker>

    /** Origins do not share breakers. */
    ghost predicate Valid()
      reads this
    {
      && (forall t <- breakers :: cfg.circuit.Some? && breakers[t].options == cfg.circuit.value)
      && (forall t, u :: t in breakers && u in breakers && breakers[t] == breakers[u] ==> t == u)
    }

    /** The breaker state of an origin; a new breaker before the first call. */
    function BreakerState(target: string): CB.Breaker
      reads this, breakers.Values
    {
      if target in breakers then breakers[target].View() else CB.NEW_BREAKER
    }

    constructor (cfg: Config)
      ensures this.cfg == cfg && breakers == map[] && Valid()
    {
      this.cfg := cfg;
      breakers := map[];
    }

    method BreakerFor(target: string) returns (breaker: CB.CircuitBreaker?)
      requires Valid()
      modifies this`breakers
      ensures Valid()
      ensures breaker == null <==> cfg.circuit == None
      ensures breaker == null ==> breakers == old(breakers)
      ensures breaker != null ==> target in breakers && breakers[target] == breaker
      ensures breaker != null ==> breaker.View() == old(BreakerState(target))
      ensures old(breakers.Keys) <= breakers.Keys <= old(breakers.Keys) + {target}
      ensures forall t :: t in old(breakers) ==> breakers[t] == old(breakers)[t]
      ensures breaker != null && target !in old(breakers) ==> fresh(breaker)
    {
      if cfg.circuit == None {
        return null;
      }
      if target in breakers {
        return breakers[target];
      }
      var created := new CB.CircuitBreaker(cfg.circuit.value);
      breakers := breakers[target := created];
      return created;
    }

    /** One turn of the loop: refused, or sent and recorded on the breaker. */
    method Attempt(breaker: CB.CircuitBreaker?, turn: Turn) returns (blocked: Option<int>)
      requires breaker == null <==> cfg.circuit == None
      requires breaker != null ==> breaker.options == cfg.circuit.value
      modifies if breaker == null then {} else {breaker}
      ensures breaker == null ==> blocked == None
      ensures breaker != null ==> (blocked, breaker.View()) == TurnOn(cfg, old(breaker.View()), turn)
    {
      if breaker == null {
        return None;
      }
      blocked := breaker.Ask(turn.askAt);
      if blocked.Some? {
        return;
      }
      if CountsAsSuccess(turn.reply) {
        breaker.RecordSuccess();
      } else {
        breaker.RecordFailure(turn.answerAt);
      }
    }

    /** The `for (;;)` loop of a request over its origin's breaker. */
    method Loop(breaker: CB.CircuitBreaker?, retries: int, retryable: bool, turns: seq<Turn>)
      returns (result: Result, sends: nat, waits: seq<real>)
      requires |turns| > Budget(retries)
      requires breaker == null <==> cfg.circuit == None
      requires breaker != null ==> breaker.options == cfg.circuit.value
      modifies if breaker == null then {} else {breaker}
      ensures var d := LoopFrom(cfg, if breaker == null then CB.NEW_BREAKER else old(breaker.View()),
                                retries, retryable, 0, turns);
              && result == d.result && sends == d.sends && waits == d.waits
              && (breaker != null ==> breaker.View() == d.breaker)
    {
      ghost var b := if breaker == null then CB.NEW_BREAKER else breaker.View();
      ghost var whole := LoopFrom(cfg, b, retries, retryable, 0, turns);
      sends, waits := 0, [];
      var attempt: nat := 0;
      while true
        invariant attempt <= Budget(retries)
        invariant breaker != null ==> breaker.View() == b
        invariant Resumes(whole, LoopFrom(cfg, b, retries, retryable, attempt, turns[attempt..]), sends, waits)
        decreases Budget(retries) - attempt
      {
        var turn := turns[attempt];
        assert turns[attempt..][0] == turn && turns[attempt..][1..] == turns[attempt + 1..];
        TurnResumes(cfg, b, retries, retryable, attempt, turns[attempt..], whole, sends, waits);
        var blocked := Attempt(breaker, turn);
        b := TurnOn(cfg, b, turn).1;
        if blocked.Some? {
          return Refused(blocked.value), sends, waits;
        }
        sends := sends + 1;
        if !CanRetry(retries, retryable, attempt, turn.reply) {
          return Final(turn.reply), sends, waits;
        }
        waits := waits + [WaitAfter(cfg, attempt, turn.reply, turn.jitter, turn.answerAt)];
        attempt := attempt + 1;
      }
    }

    /**
     One request, alone with its origin's breaker while `turns` unfold. Other origins' breakers
     are untouched.
     */
    method Request(target: string, m: Method, explicit: Option<bool>, retries: int, turns: seq<Turn>)
      returns (result: Result, sends: nat, waits: seq<real>)
      requires Valid() && |turns| > Budget(retries)
      modifies this`breakers, breakers.Values
      ensures Valid()
      ensures var d := LoopFrom(cfg, if cfg.circuit == None then CB.NEW_BREAKER else old(BreakerState(target)),
                                retries, IsIdempotent(m, explicit), 0, turns);
              && result == d.result && sends == d.sends && waits == d.waits
              && (cfg.circuit.Some? ==> BreakerState(target) == d.breaker)
      ensures forall t :: t in old(breakers) && t != target ==>
                t in breakers && breakers[t] == old(breakers)[t] && BreakerState(t) == old(BreakerState(t))
    {
      var breaker := BreakerFor(target);
      result, sends, waits := Loop(breaker, retries, IsIdempotent(m, explicit), turns);
    }
  }

  /** `whole` is what has been done so far followed by `rest`. */
  ghost predicate Resumes(whole: Done, rest: Done, sends: nat, waits: seq<real>) {
    whole == Done(rest.result, sends + rest.sends, waits + rest.waits, rest.breaker)
  }

  /** One turn: the loop is over with what it has so far, or goes on with one more send and wait. */
  lemma TurnResumes(cfg: Config, b: CB.Breaker, retries: int, retryable: bool, attempt: nat, turns: seq<Turn>,
                    whole: Done, sends: nat, waits: seq<real>)
    requires |turns| > Budget(retries) - attempt >= 0
    requires Resumes(whole, LoopFrom(cfg, b, retries, retryable, attempt, turns), sends, waits)
    ensures var (turn, (blocked, told)) := (turns[0], TurnOn(cfg, b, turns[0]));
            if blocked.Some? then whole == Done(Refused(blocked.value), sends, waits, told)
            else if !CanRetry(retries, retryable, attempt, turn.reply) then
              whole == Done(Final(turn.reply), sends + 1, waits, told)
            else
              && attempt < Budget(retries)
              && Resumes(whole, LoopFrom(cfg, told, retries, retryable, attempt + 1, turns[1..]), sends + 1,
                         waits + [WaitAfter(cfg, attempt, turn.reply, turn.jitter, turn.answerAt)])
  {
    var (blocked, told) := TurnOn(cfg, b, turns[0]);
    if blocked == None && CanRetry(retries, retryable, attempt, turns[0].reply) {
      var wait := WaitAfter(cfg, attempt, turns[0].reply, turns[0].jitter, turns[0].answerAt);
      var rest := LoopFrom(cfg, told, retries, retryable, attempt + 1, turns[1..]);
      assert waits + ([wait] + rest.waits) == (waits + [wait]) + rest.waits;
    }
  }
}
