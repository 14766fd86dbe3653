/**
 Concurrent requests against one claim store whose claims are atomic: each arrives, claims its key
 and either is answered at once or runs its handler and then settles the claim, one store call
 after the other. A scheduler picks the order. The in-memory store is of this kind. The
 table-backed one is as far as its claim transactions do not interleave, which `OracleClaimRace`
 lets them do; so that its purge is covered too, a claim may remove any expired records first.
 */
module IdempotencyProtocol {
  import opened Wrappers
  import opened IdempotencyStore
  import OracleIdempotencyStore

  datatype HandlerResult = Value(status: int, body: Body) | ErrResult | Thrown

  datatype Reply =
    | Replayed(status: int, body: Body)
    | KeyReused
    | StillRunning
    | StoreFailed
    | Ran(result: HandlerResult)
    | Crashed

  /** `Undoing`: the first store call after the handler has failed and a release is to follow. */
  datatype Phase =
    | Handling(claimedAt: int)
    | Undoing(claimedAt: int, result: HandlerResult)
    | Replied(reply: Reply)

  datatype Request = Request(key: string, fingerprint: string, phase: Phase)

  datatype World = World(records: Records, requests: map<nat, Request>, now: int)

  datatype Event =
    | Arrive(id: nat, key: string, fingerprint: string, purged: set<string>, readAt: int, at: int, claim: Fate)
    | Settle(id: nat, at: int, result: HandlerResult, fate: Fate)
    | Undo(id: nat, at: int, fate: Fate)
    | Crash(id: nat, at: int)

  // ---------- One step ----------

  /** From the grant to the last store call. */
  predicate InFlight(w: World, id: nat) {
    id in w.requests && !w.requests[id].phase.Replied?
  }

  predicate OnlyExpired(records: Records, purged: set<string>, now: int) {
    forall k <- purged :: k in records && Expired(records[k], now)
  }

  predicate Enabled(w: World, e: Event) {
    && w.now <= e.at
    && match e
       case Arrive(id, _, _, purged, readAt, at, _) =>
         id !in w.requests && w.now <= readAt <= at && OnlyExpired(w.records, purged, at)
       case Settle(id, _, _, _) => InFlight(w, id) && w.requests[id].phase.Handling?
       case Undo(id, _, _) => InFlight(w, id) && w.requests[id].phase.Undoing?
       case Crash(id, _) => InFlight(w, id)
  }

  /** What the interceptor answers without running the handler; `None` when it runs it. */
  function AnswerFor(outcome: ClaimOutcome): Option<Reply> {
    match outcome
    case Claimed => None
    case Running => Some(StillRunning)
    case Mismatch => Some(KeyReused)
    case Replay(status, body) => Some(Replayed(status, body))
  }

  /** The claim an arrival makes, when its store call reaches the store. */
  function Claiming(cfg: Config, w: World, e: Event): (ClaimOutcome, Records)
    requires e.Arrive?
  {
    ClaimStep(cfg, w.records, e.purged, e.key, e.fingerprint, e.readAt, e.at)
  }

  /** The store call after the handler: a value is completed, a failed Result or an exception released. */
  function SettleRecords(records: Records, key: string, result: HandlerResult, fate: Fate): Records {
    if fate == Lost then records
    else if result.Value? then CompleteStep(records, key, result.status, result.body)
    else ReleaseStep(records, key)
  }

  /** If that call fails the key is released, except after an exception, which was released already. */
  predicate NeedsUndo(result: HandlerResult, fate: Fate) {
    fate != Done && !result.Thrown?
  }

  function Apply(cfg: Config, w: World, e: Event): World
    requires Enabled(w, e)
  {
    match e
    case Arrive(id, key, fingerprint, _, readAt, at, claim) =>
      var (outcome, records) := Claiming(cfg, w, e);
      var phase :=
        if claim != Done then Replied(StoreFailed)
        else if AnswerFor(outcome).Some? then Replied(AnswerFor(outcome).value)
        else Handling(readAt);
      World(if claim == Lost then w.records else records,
            w.requests[id := Request(key, fingerprint, phase)],
            at)
    case Settle(id, at, result, fate) =>
      var r := w.requests[id];
      World(SettleRecords(w.records, r.key, result, fate),
            w.requests[id := r.(phase := if NeedsUndo(result, fate) then Undoing(r.phase.claimedAt, result)
                                         else Replied(Ran(result)))],
            at)
    case Undo(id, at, fate) =>
      var r := w.requests[id];
      World(if fate == Lost then w.records else ReleaseStep(w.records, r.key),
            w.requests[id := r.(phase := Replied(Ran(r.phase.result)))],
            at)
    case Crash(id, at) =>
      World(w.records, w.requests[id := w.requests[id].(phase := Replied(Crashed))], at)
  }

  /** The interceptor over the in-memory store: its two synchronous stretches, around the handler. */
  class IdempotencyInterceptor {
    const store: InMemoryIdempotencyStore

    constructor (store: InMemoryIdempotencyStore)
      ensures this.store == store
    {
      this.store := store;
    }

    /** Up to the handler: `None` means the request owns its key and the handler runs. */
    method Before(key: string, fingerprint: string, now: int) returns (reply: Option<Reply>)
      modifies store`records
      ensures var records := old(store.records);
              var (outcome, after) :=
                ClaimStep(store.cfg, records, OwnExpired(records, key, now), key, fingerprint, now, now);
              reply == AnswerFor(outcome) && store.records == after
    {
      var outcome := store.Claim(key, fingerprint, now);
      match outcome {
        case Mismatch => return Some(KeyReused);
        case Running => return Some(StillRunning);
        case Replay(status, body) => return Some(Replayed(status, body));
        case Claimed => return None;
      }
    }

    /** After the handler; the in-memory store's own calls do not fail. */
    method After(key: string, result: HandlerResult)
      modifies store`records
      ensures store.records == SettleRecords(old(store.records), key, result, Done)
    {
      if result.Value? {
        store.Complete(key, result.status, result.body);
      } else {
        store.Release(key);
      }
    }
  }

  // ---------- Runs ----------

  ghost predicate ValidRun(cfg: Config, w: World, es: seq<Event>)
    decreases |es|
  {
    es == [] || (Enabled(w, es[0]) && ValidRun(cfg, Apply(cfg, w, es[0]), es[1..]))
  }

  ghost function RunFrom(cfg: Config, w: World, es: seq<Event>): World
    requires ValidRun(cfg, w, es)
    decreases |es|
  {
    if es == [] then w else RunFrom(cfg, Apply(cfg, w, es[0]), es[1..])
  }

  const START := World(map[], map[], 0)

  // ---------- Mutual exclusion ----------

  /** No two handlers in flight share a key. */
  ghost predicate Exclusive(w: World) {
    forall i, j :: InFlight(w, i) && InFlight(w, j) && w.requests[i].key == w.requests[j].key ==> i == j
  }

  ghost predicate AlwaysExclusive(cfg: Config, w: World, es: seq<Event>)
    requires ValidRun(cfg, w, es)
    decreases |es|
  {
    Exclusive(w) && (es == [] || AlwaysExclusive(cfg, Apply(cfg, w, es[0]), es[1..]))
  }

  /** `e` claims the key of request `id`, whose record is gone or is overdue for this fingerprint. */
  predicate Provokes(cfg: Config, w: World, e: Event, id: nat)
    requires InFlight(w, id)
  {
    && e.Arrive?
    && e.claim != Lost
    && e.key == w.requests[id].key
    && (e.key !in w.records - e.purged ||
        (&& w.records[e.key].state == InProgress
         && e.fingerprint == w.requests[id].fingerprint
         && e.at - w.requests[id].phase.claimedAt > cfg.inProgressTtlMs))
  }

  ghost predicate Provoked(cfg: Config, w: World, e: Event) {
    exists id :: InFlight(w, id) && Provokes(cfg, w, e, id)
  }

  ghost predicate NeverProvoked(cfg: Config, w: World, es: seq<Event>)
    requires ValidRun(cfg, w, es)
    decreases |es|
  {
    es == [] || (!Provoked(cfg, w, es[0]) && NeverProvoked(cfg, Apply(cfg, w, es[0]), es[1..]))
  }

  /** Whoever is in flight for the key of an arrival is within both deadlines. */
  ghost predicate OnTime(cfg: Config, w: World, e: Event) {
    e.Arrive? ==> forall id :: InFlight(w, id) && w.requests[id].key == e.key ==>
      && e.at - w.requests[id].phase.claimedAt <= cfg.inProgressTtlMs
      && e.at < w.requests[id].phase.claimedAt + cfg.ttlMs
  }

  /** Requests keep the documented deadlines. */
  ghost predicate Timely(cfg: Config, w: World, es: seq<Event>)
    requires ValidRun(cfg, w, es)
    decreases |es|
  {
    es == [] || (OnTime(cfg, w, es[0]) && Timely(cfg, Apply(cfg, w, es[0]), es[1..]))
  }

  /**
   A request's record is as its claim left it, or as its own failed completion did, unless it
   outlived its term and was removed, or its own failed release took it.
   */
  predicate OwnsClaim(cfg: Config, w: World, r: Request)
    requires !r.phase.Replied?
  {
    if r.key !in w.records
    then w.now >= r.phase.claimedAt + cfg.ttlMs || (r.phase.Undoing? && r.phase.result.ErrResult?)
    else
      var claim := NewClaim(cfg, r.fingerprint, r.phase.claimedAt);
      var rec := w.records[r.key];
      rec == claim || (r.phase.Undoing? && rec == claim.(state := Completed, status := rec.status, body := rec.body))
  }

  ghost predicate OwnsClaims(cfg: Config, w: World) {
    forall id :: InFlight(w, id) ==> OwnsClaim(cfg, w, w.requests[id])
  }

  lemma UnprovokedStepKeeps(cfg: Config, w: World, e: Event)
    requires OwnsClaims(cfg, w) && Exclusive(w) && Enabled(w, e) && !Provoked(cfg, w, e)
    ensures OwnsClaims(cfg, Apply(cfg, w, e)) && Exclusive(Apply(cfg, w, e))
  {
    var w' := Apply(cfg, w, e);
    match e {
      case Arrive(id, key, fingerprint, purged, readAt, at, claim) =>
        forall i | InFlight(w', i) && i != id
          ensures InFlight(w, i) && w'.requests[i] == w.requests[i]
        {
        }
        forall i | InFlight(w, i)
          ensures OwnsClaim(cfg, w', w.requests[i])
          ensures w.requests[i].key == key ==> !InFlight(w', id)
        {
          ArrivalSparesHandler(cfg, w, e, i);
        }
      case Settle(id, at, result, fate) =>
        OwnStepSparesOthers(cfg, w, e);
      case Undo(id, at, fate) =>
        OwnStepSparesOthers(cfg, w, e);
      case Crash(id, at) =>
        forall i | InFlight(w', i) ensures InFlight(w, i) && w'.requests[i] == w.requests[i] {
        }
    }
  }

  /** An arrival that does not provoke handler `i` leaves its record alone and is not granted its key. */
  lemma ArrivalSparesHandler(cfg: Config, w: World, e: Event, i: nat)
    requires OwnsClaims(cfg, w) && Enabled(w, e) && e.Arrive? && InFlight(w, i)
    requires !Provokes(cfg, w, e, i)
    ensures var w' := Apply(cfg, w, e);
            && OwnsClaim(cfg, w', w.requests[i])
            && (w.requests[i].key == e.key ==> !InFlight(w', e.id))
  {
    var w' := Apply(cfg, w, e);
    var r := w.requests[i];
    assert OwnsClaim(cfg, w, r);
    if r.key == e.key {
      if e.claim != Lost {
        assert Lookup(w.records - e.purged, e.key) == Some(w.records[e.key]);
        assert Claiming(cfg, w, e).0 != Claimed;
      }
    } else if r.key in e.purged {
      assert Expired(w.records[r.key], e.at);
    }
  }

  /** A store call of one request changes no other request's record. */
  lemma OwnStepSparesOthers(cfg: Config, w: World, e: Event)
    requires OwnsClaims(cfg, w) && Exclusive(w) && Enabled(w, e) && (e.Settle? || e.Undo?)
    ensures OwnsClaims(cfg, Apply(cfg, w, e)) && Exclusive(Apply(cfg, w, e))
  {
    var w' := Apply(cfg, w, e);
    assert OwnsClaim(cfg, w, w.requests[e.id]);
    OtherKeysStay(cfg, w, e);
    forall i | InFlight(w', i)
      ensures InFlight(w, i) && w'.requests[i].key == w.requests[i].key && OwnsClaim(cfg, w', w'.requests[i])
    {
      if i != e.id {
        assert OwnsClaim(cfg, w, w.requests[i]) && w.requests[i].key != w.requests[e.id].key;
      }
    }
  }

  lemma OtherKeysStay(cfg: Config, w: World, e: Event)
    requires Enabled(w, e) && (e.Settle? || e.Undo?)
    ensures forall key :: key != w.requests[e.id].key ==>
              Lookup(Apply(cfg, w, e).records, key) == Lookup(w.records, key)
  {
  }

  // ---------- Main results ----------

  lemma {:induction false} UnprovokedRunsKeep(cfg: Config, w: World, es: seq<Event>)
    requires OwnsClaims(cfg, w) && Exclusive(w)
    requires ValidRun(cfg, w, es) && NeverProvoked(cfg, w, es)
    ensures AlwaysExclusive(cfg, w, es)
    ensures OwnsClaims(cfg, RunFrom(cfg, w, es)) && Exclusive(RunFrom(cfg, w, es))
    decreases |es|
  {
    if es == [] {
    } else {
      UnprovokedStepKeeps(cfg, w, es[0]);
      UnprovokedRunsKeep(cfg, Apply(cfg, w, es[0]), es[1..]);
    }
  }

  /** No release of a failed Result both takes effect and reports an error, and so is sent again. */
  predicate ReleasesReportEffects(es: seq<Event>) {
    forall i :: 0 <= i < |es| && es[i].Settle? && es[i].result.ErrResult? ==> es[i].fate != AppliedButFailed
  }

  /** No request has lost its record before its term. */
  ghost predicate Unreleased(cfg: Config, w: World) {
    forall id :: InFlight(w, id) && w.requests[id].key !in w.records ==>
      w.now >= w.requests[id].phase.claimedAt + cfg.ttlMs
  }

  lemma UnreleasedStep(cfg: Config, w: World, e: Event)
    requires OwnsClaims(cfg, w) && Exclusive(w) && Unreleased(cfg, w) && Enabled(w, e) && !Provoked(cfg, w, e)
    requires ReleasesReportEffects([e])
    ensures Unreleased(cfg, Apply(cfg, w, e))
  {
    var w' := Apply(cfg, w, e);
    assert [e][0] == e;
    forall id | InFlight(w', id) && w'.requests[id].key !in w'.records
      ensures w'.now >= w'.requests[id].phase.claimedAt + cfg.ttlMs
    {
      if id in w.requests {
        assert InFlight(w, id) && OwnsClaim(cfg, w, w.requests[id]);
        if e.Arrive? {
          ArrivalSparesHandler(cfg, w, e, id);
        } else if !e.Crash? {
          OtherKeysStay(cfg, w, e);
        }
      }
    }
  }

  lemma {:induction false} TimelyNeverProvoked(cfg: Config, w: World, es: seq<Event>)
    requires OwnsClaims(cfg, w) && Exclusive(w) && Unreleased(cfg, w)
    requires ValidRun(cfg, w, es) && Timely(cfg, w, es) && ReleasesReportEffects(es)
    ensures NeverProvoked(cfg, w, es)
    decreases |es|
  {
    if es == [] {
    } else {
      assert !Provoked(cfg, w, es[0]);
      UnprovokedStepKeeps(cfg, w, es[0]);
      UnreleasedStep(cfg, w, es[0]);
      assert forall i :: 0 <= i < |es[1..]| ==> es[1..][i] == es[i + 1];
      TimelyNeverProvoked(cfg, Apply(cfg, w, es[0]), es[1..]);
    }
  }

  /**
   At most one request per key between its grant and its last store call, in every interleaving of
   arrivals, handlers' ends, crashes and failing store calls, when requests keep the deadlines.
   */
  lemma AtMostOneHandler(cfg: Config, es: seq<Event>)
    requires cfg.Valid() && ValidRun(cfg, START, es) && Timely(cfg, START, es) && ReleasesReportEffects(es)
    ensures AlwaysExclusive(cfg, START, es)
  {
    TimelyNeverProvoked(cfg, START, es);
    UnprovokedRunsKeep(cfg, START, es);
  }

  /** No claim both takes effect and reports an error. */
  ghost predicate ClaimsReportEffects(es: seq<Event>) {
    forall i :: 0 <= i < |es| && es[i].Arrive? ==> es[i].claim != AppliedButFailed
  }

  /** A provoking arrival is granted next to the handler it provokes. */
  lemma ProvocationOverlaps(cfg: Config, w: World, e: Event)
    requires OwnsClaims(cfg, w) && Exclusive(w) && Enabled(w, e)
    requires e.Arrive? && e.claim == Done && Provoked(cfg, w, e)
    ensures !Exclusive(Apply(cfg, w, e))
  {
    var id :| InFlight(w, id) && Provokes(cfg, w, e, id);
    var w' := Apply(cfg, w, e);
    assert OwnsClaim(cfg, w, w.requests[id]);
    assert Claiming(cfg, w, e).0 == Claimed;
    assert InFlight(w', id) && InFlight(w', e.id);
    assert w'.requests[id].key == w'.requests[e.id].key && id != e.id;
  }

  /**
   The exact condition: a run is exclusive throughout if and only if no arrival finds a request
   of its key in flight whose record is gone, or overdue for the arrival's fingerprint.
   */
  lemma {:induction false} ExclusiveIffNeverProvoked(cfg: Config, w: World, es: seq<Event>)
    requires OwnsClaims(cfg, w) && Exclusive(w)
    requires ValidRun(cfg, w, es) && ClaimsReportEffects(es)
    ensures AlwaysExclusive(cfg, w, es) <==> NeverProvoked(cfg, w, es)
    decreases |es|
  {
    if es == [] {
    } else {
      if Provoked(cfg, w, es[0]) {
        ProvocationOverlaps(cfg, w, es[0]);
      } else {
        UnprovokedStepKeeps(cfg, w, es[0]);
        assert forall i :: 0 <= i < |es[1..]| ==> es[1..][i] == es[i + 1];
        ExclusiveIffNeverProvoked(cfg, Apply(cfg, w, es[0]), es[1..]);
      }
    }
  }

  // ---------- What the others are told meanwhile ----------

  /** While a handler is within its deadlines, the same request is told to wait and another that the key is taken. */
  lemma ToldWhileRunning(cfg: Config, w: World, e: Event, id: nat)
    requires OwnsClaims(cfg, w) && Exclusive(w) && Enabled(w, e)
    requires InFlight(w, id) && w.requests[id].phase.Handling?
    requires e.Arrive? && e.claim == Done && e.key == w.requests[id].key && !Provokes(cfg, w, e, id)
    ensures Apply(cfg, w, e).requests[e.id].phase ==
            Replied(if e.fingerprint == w.requests[id].fingerprint then StillRunning else KeyReused)
    ensures e.key in w.records && Apply(cfg, w, e).records == w.records - e.purged
  {
    assert OwnsClaim(cfg, w, w.requests[id]);
    assert Lookup(w.records - e.purged, e.key) == Some(w.records[e.key]);
  }

  /** A claim that reports an error runs no handler, whether or not it took effect. */
  lemma FailedClaimRunsNothing(cfg: Config, w: World, e: Event)
    requires Enabled(w, e) && e.Arrive? && e.claim != Done
    ensures Apply(cfg, w, e).requests[e.id].phase == Replied(StoreFailed) && !InFlight(Apply(cfg, w, e), e.id)
    ensures e.claim == Lost ==> Apply(cfg, w, e).records == w.records
  {
  }

  /** A handler that failed leaves its key free: whoever comes next with it is granted. */
  lemma FailureFreesKey(cfg: Config, w: World, e: Event, next: Event)
    requires Enabled(w, e) && e.Settle? && !e.result.Value? && e.fate == Done
    requires Enabled(Apply(cfg, w, e), next) && next.Arrive? && next.claim == Done
    requires next.key == w.requests[e.id].key
    ensures Apply(cfg, w, e).requests[e.id].phase == Replied(Ran(e.result))
    ensures Apply(cfg, Apply(cfg, w, e), next).requests[next.id].phase == Handling(next.readAt)
  {
    assert Lookup(Apply(cfg, w, e).records - next.purged, next.key) == None;
  }

  // ---------- The in-memory store: a matter of time alone ----------

  /** Its calls do not fail, read the clock once and remove only their own key's expired record. */
  predicate FromMemory(w: World, e: Event) {
    && (e.Arrive? ==> e.claim == Done && e.readAt == e.at && e.purged == OwnExpired(w.records, e.key, e.at))
    && (e.Settle? ==> e.fate == Done)
    && !e.Undo?
  }

  ghost predicate MemoryRun(cfg: Config, w: World, es: seq<Event>)
    requires ValidRun(cfg, w, es)
    decreases |es|
  {
    es == [] || (FromMemory(w, es[0]) && MemoryRun(cfg, Apply(cfg, w, es[0]), es[1..]))
  }

  /** `e` arrives for the key of handler `id` after its TTL, or for the same request after the in-progress TTL. */
  predicate Overdue(cfg: Config, w: World, e: Event, id: nat)
    requires InFlight(w, id)
  {
    var r := w.requests[id];
    && e.Arrive? && e.key == r.key
    && (e.at >= r.phase.claimedAt + cfg.ttlMs ||
        (e.fingerprint == r.fingerprint && e.at - r.phase.claimedAt > cfg.inProgressTtlMs))
  }

  ghost predicate MeetsOverdue(cfg: Config, w: World, e: Event) {
    exists id :: InFlight(w, id) && Overdue(cfg, w, e, id)
  }

  ghost predicate NeverOverdue(cfg: Config, w: World, es: seq<Event>)
    requires ValidRun(cfg, w, es)
    decreases |es|
  {
    es == [] || (!MeetsOverdue(cfg, w, es[0]) && NeverOverdue(cfg, Apply(cfg, w, es[0]), es[1..]))
  }

  /** Every handler's record is there, as its claim left it. */
  ghost predicate HoldsClaims(cfg: Config, w: World) {
    forall id :: InFlight(w, id) ==>
      var r := w.requests[id];
      && r.phase.Handling? && r.key in w.records
      && w.records[r.key] == NewClaim(cfg, r.fingerprint, r.phase.claimedAt)
  }

  lemma ProvokedIffOverdue(cfg: Config, w: World, e: Event)
    requires HoldsClaims(cfg, w) && Enabled(w, e) && FromMemory(w, e)
    ensures Provoked(cfg, w, e) <==> MeetsOverdue(cfg, w, e)
  {
    forall id | InFlight(w, id) ensures Provokes(cfg, w, e, id) <==> Overdue(cfg, w, e, id) {
    }
    if MeetsOverdue(cfg, w, e) {
      var id :| InFlight(w, id) && Overdue(cfg, w, e, id);
      assert Provokes(cfg, w, e, id);
    }
  }

  lemma MemoryStepKeeps(cfg: Config, w: World, e: Event)
    requires HoldsClaims(cfg, w) && Exclusive(w) && Enabled(w, e) && FromMemory(w, e) && !Provoked(cfg, w, e)
    ensures HoldsClaims(cfg, Apply(cfg, w, e)) && Exclusive(Apply(cfg, w, e))
  {
    UnprovokedStepKeeps(cfg, w, e);
    var w' := Apply(cfg, w, e);
    forall id | InFlight(w', id) ensures w'.requests[id].phase.Handling? && w'.requests[id].key in w'.records {
      if id != e.id {
        assert InFlight(w, id);
        if e.Arrive? {
          assert !Provokes(cfg, w, e, id);
        } else if e.Settle? {
          OtherKeysStay(cfg, w, e);
        }
      }
    }
    assert forall id :: InFlight(w', id) ==> OwnsClaim(cfg, w', w'.requests[id]);
  }

  lemma {:induction false} MemoryRunsExclusiveIff(cfg: Config, w: World, es: seq<Event>)
    requires HoldsClaims(cfg, w) && Exclusive(w) && ValidRun(cfg, w, es) && MemoryRun(cfg, w, es)
    ensures AlwaysExclusive(cfg, w, es) <==> NeverOverdue(cfg, w, es)
    decreases |es|
  {
    if es == [] {
    } else {
      ProvokedIffOverdue(cfg, w, es[0]);
      if Provoked(cfg, w, es[0]) {
        ProvocationOverlaps(cfg, w, es[0]);
      } else {
        MemoryStepKeeps(cfg, w, es[0]);
        MemoryRunsExclusiveIff(cfg, Apply(cfg, w, es[0]), es[1..]);
      }
    }
  }

  /**
   With the in-memory store exclusion holds throughout a run if and only if no request arrives for
   the key of a handler that is past its TTL, or past the in-progress TTL for the same request.
   */
  lemma InMemoryExclusiveIff(cfg: Config, es: seq<Event>)
    requires ValidRun(cfg, START, es) && MemoryRun(cfg, START, es)
    ensures AlwaysExclusive(cfg, START, es) <==> NeverOverdue(cfg, START, es)
  {
    MemoryRunsExclusiveIff(cfg, START, es);
  }

  // ---------- Replay ----------

  /** `key` holds exactly `rec`, completed, and nobody is running a handler for it. */
  ghost predicate Settled(w: World, key: string, rec: ClaimRecord) {
    && key in w.records && w.records[key] == rec
    && rec.state == Completed
    && forall id :: InFlight(w, id) ==> w.requests[id].key != key
  }

  /** The reply a request gets from a settled key. */
  predicate RepliedFrom(rec: ClaimRecord, r: Request) {
    || r.phase == Replied(StoreFailed)
    || r.phase == Replied(if r.fingerprint == rec.fingerprint
                          then Replayed(rec.status.GetOr(DEFAULT_STATUS), rec.body)
                          else KeyReused)
  }

  lemma SettledStep(cfg: Config, w: World, e: Event, key: string, rec: ClaimRecord)
    requires Settled(w, key, rec) && Enabled(w, e) && e.at < rec.expiresAt
    ensures Settled(Apply(cfg, w, e), key, rec)
    ensures e.Arrive? && e.key == key ==> RepliedFrom(rec, Apply(cfg, w, e).requests[e.id])
    ensures forall id :: id in w.requests && w.requests[id].key == key ==>
              id in Apply(cfg, w, e).requests && Apply(cfg, w, e).requests[id] == w.requests[id]
  {
    var w' := Apply(cfg, w, e);
    if e.Settle? || e.Undo? {
      OtherKeysStay(cfg, w, e);
      assert Lookup(w.records, key) == Some(rec) && Lookup(w'.records, key) == Some(rec);
    }
    forall id | InFlight(w', id) ensures w'.requests[id].key != key {
      if id != e.id {
        assert InFlight(w, id);
      }
    }
  }

  predicate Before(es: seq<Event>, end: int) {
    forall i :: 0 <= i < |es| ==> es[i].at < end
  }

  /**
   From a completed record with nobody in flight for its key until it expires, in every run and
   however slow the other handlers are: no handler runs for the key, and every request for it is
   answered with the stored status and body, or turned away for a different fingerprint.
   */
  lemma {:induction false} ReplaysUntilExpiry(cfg: Config, w: World, es: seq<Event>, key: string, rec: ClaimRecord)
    requires Settled(w, key, rec) && ValidRun(cfg, w, es)
    requires Before(es, rec.expiresAt)
    ensures var end := RunFrom(cfg, w, es);
            && Settled(end, key, rec)
            && (forall id :: id in end.requests && end.requests[id].key == key ==>
                  (id in w.requests && end.requests[id] == w.requests[id]) || RepliedFrom(rec, end.requests[id]))
    decreases |es|
  {
    if es == [] {
    } else {
      SettledStep(cfg, w, es[0], key, rec);
      var w1 := Apply(cfg, w, es[0]);
      assert forall i :: 0 <= i < |es[1..]| ==> es[1..][i] == es[i + 1];
      ReplaysUntilExpiry(cfg, w1, es[1..], key, rec);
      var end := RunFrom(cfg, w, es);
      forall id | id in end.requests && end.requests[id].key == key
        ensures (id in w.requests && end.requests[id] == w.requests[id]) || RepliedFrom(rec, end.requests[id])
      {
        if id in w1.requests && end.requests[id] == w1.requests[id] && id !in w.requests {
          assert es[0].Arrive? && id == es[0].id;
        }
      }
    }
  }

  /** The completed record is there at the end of every run that is over before it expires. */
  ghost predicate ReplayGuaranteed(cfg: Config, w: World, key: string, rec: ClaimRecord) {
    forall es :: ValidRun(cfg, w, es) && Before(es, rec.expiresAt) ==>
      Lookup(RunFrom(cfg, w, es).records, key) == Some(rec)
  }

  /** A request in flight can take the record of its key away: an exception, or a repeated release. */
  lemma InFlightRefutes(cfg: Config, w: World, key: string, rec: ClaimRecord, id: nat)
    requires w.now < rec.expiresAt && InFlight(w, id) && w.requests[id].key == key
    ensures !ReplayGuaranteed(cfg, w, key, rec)
  {
    var e := if w.requests[id].phase.Handling? then Settle(id, w.now, Thrown, Done) else Undo(id, w.now, Done);
    var end := Apply(cfg, w, e);
    Then(cfg, w, e, [], end);
    assert ([e] + []) == [e] && key !in end.records;
    assert Before([e], rec.expiresAt);
  }

  /**
   A completed record survives every run up to its expiry if and only if no request of its key is in
   flight: neither a handler, nor a request whose own completion took effect with its reply lost.
   */
  lemma ReplayGuaranteedIff(cfg: Config, w: World, key: string, rec: ClaimRecord)
    requires Lookup(w.records, key) == Some(rec) && rec.state == Completed && w.now < rec.expiresAt
    ensures ReplayGuaranteed(cfg, w, key, rec) <==> forall id :: InFlight(w, id) ==> w.requests[id].key != key
  {
    if id :| InFlight(w, id) && w.requests[id].key == key {
      InFlightRefutes(cfg, w, key, rec, id);
    } else {
      forall es | ValidRun(cfg, w, es) && Before(es, rec.expiresAt)
        ensures Lookup(RunFrom(cfg, w, es).records, key) == Some(rec)
      {
        ReplaysUntilExpiry(cfg, w, es, key, rec);
      }
    }
  }

  /** A handler that finishes in an unprovoked run before its record expires settles its key with its own answer. */
  lemma CompletionSettles(cfg: Config, w: World, id: nat, at: int, status: int, body: Body)
    requires OwnsClaims(cfg, w) && Exclusive(w) && InFlight(w, id) && w.requests[id].phase.Handling?
    requires w.now <= at < w.requests[id].phase.claimedAt + cfg.ttlMs
    ensures var e := Settle(id, at, Value(status, body), Done);
            var r := w.requests[id];
            && Enabled(w, e)
            && Settled(Apply(cfg, w, e), r.key, Answered(cfg, r, status, body))
  {
    var e := Settle(id, at, Value(status, body), Done);
    var w' := Apply(cfg, w, e);
    assert OwnsClaim(cfg, w, w.requests[id]);
    forall i | InFlight(w', i) ensures w'.requests[i].key != w.requests[id].key {
      assert InFlight(w, i) && i != id;
    }
  }

  /** The record of a completed request. */
  function Answered(cfg: Config, r: Request, status: int, body: Body): ClaimRecord
    requires r.phase.Handling?
  {
    NewClaim(cfg, r.fingerprint, r.phase.claimedAt).(state := Completed, status := Some(status), body := body)
  }

  /**
   The whole life of a key: in a timely run one handler has it, and once that handler completes
   in time, the key stays settled until it expires: no handler runs for it, and every request that
   arrives gets that handler's status and body.
   */
  lemma HandledOnceThenReplayed(cfg: Config, es: seq<Event>, id: nat, at: int, status: int, body: Body,
                                later: seq<Event>)
    requires cfg.Valid() && ValidRun(cfg, START, es) && Timely(cfg, START, es) && ReleasesReportEffects(es)
    requires var w := RunFrom(cfg, START, es);
             && InFlight(w, id) && w.requests[id].phase.Handling?
             && w.now <= at < w.requests[id].phase.claimedAt + cfg.ttlMs
             && var w1 := Apply(cfg, w, Settle(id, at, Value(status, body), Done));
                && ValidRun(cfg, w1, later)
                && Before(later, w.requests[id].phase.claimedAt + cfg.ttlMs)
    ensures AlwaysExclusive(cfg, START, es)
    ensures var w := RunFrom(cfg, START, es);
            var w1 := Apply(cfg, w, Settle(id, at, Value(status, body), Done));
            var (key, rec) := (w.requests[id].key, Answered(cfg, w.requests[id], status, body));
            var end := RunFrom(cfg, w1, later);
            && Settled(end, key, rec)
            && forall j :: j in end.requests && j !in w1.requests && end.requests[j].key == key ==>
                 RepliedFrom(rec, end.requests[j])
  {
    var w := RunFrom(cfg, START, es);
    TimelyNeverProvoked(cfg, START, es);
    UnprovokedRunsKeep(cfg, START, es);
    CompletionSettles(cfg, w, id, at, status, body);
    var w1 := Apply(cfg, w, Settle(id, at, Value(status, body), Done));
    ReplaysUntilExpiry(cfg, w1, later, w.requests[id].key, Answered(cfg, w.requests[id], status, body));
  }

  // ---------- Spacing of grants, whatever the handlers do ----------

  /** The arrival's store call grants it the key. */
  predicate Grants(cfg: Config, w: World, e: Event) {
    e.Arrive? && e.claim != Lost && Claiming(cfg, w, e).0 == Claimed
  }

  predicate ReleasesKey(cfg: Config, w: World, e: Event, key: string)
    requires Enabled(w, e)
  {
    && (e.Settle? || e.Undo?) && w.requests[e.id].key == key
    && key in w.records && key !in Apply(cfg, w, e).records
  }

  /** No grant and no release of `key` in the run. */
  ghost predicate Quiet(cfg: Config, w: World, es: seq<Event>, key: string)
    requires ValidRun(cfg, w, es)
    decreases |es|
  {
    es == [] ||
    (&& !(Grants(cfg, w, es[0]) && es[0].key == key)
     && !ReleasesKey(cfg, w, es[0], key)
     && Quiet(cfg, Apply(cfg, w, es[0]), es[1..], key))
  }

  /** The record of the last grant, stamped `t`, is still there or has lived its full term. */
  predicate GrantStands(cfg: Config, w: World, key: string, t: int) {
    if key in w.records then w.records[key].claimedAt == t && w.records[key].expiresAt == t + cfg.ttlMs
    else w.now >= t + cfg.ttlMs
  }

  lemma QuietStep(cfg: Config, w: World, e: Event, key: string, t: int)
    requires GrantStands(cfg, w, key, t) && Enabled(w, e)
    requires !(Grants(cfg, w, e) && e.key == key) && !ReleasesKey(cfg, w, e, key)
    ensures GrantStands(cfg, Apply(cfg, w, e), key, t)
  {
    if e.Settle? || e.Undo? {
      OtherKeysStay(cfg, w, e);
      assert w.requests[e.id].key != key ==> Lookup(Apply(cfg, w, e).records, key) == Lookup(w.records, key);
    }
  }

  /**
   Two consecutive grants of a key with no release between them: the later one is decided at
   least `ttlMs` after the stamp of the earlier, or more than `inProgressTtlMs` after it.
   */
  lemma {:induction false} GrantsAreSpaced(cfg: Config, w: World, es: seq<Event>, again: Event, key: string, t: int)
    requires GrantStands(cfg, w, key, t) && ValidRun(cfg, w, es) && Quiet(cfg, w, es, key)
    requires var end := RunFrom(cfg, w, es); Enabled(end, again) && Grants(cfg, end, again) && again.key == key
    ensures again.at - t >= cfg.ttlMs || again.at - t > cfg.inProgressTtlMs
    decreases |es|
  {
    if es == [] {
    } else {
      QuietStep(cfg, w, es[0], key, t);
      GrantsAreSpaced(cfg, Apply(cfg, w, es[0]), es[1..], again, key, t);
    }
  }

  lemma GrantStarts(cfg: Config, w: World, e: Event)
    requires Enabled(w, e) && Grants(cfg, w, e)
    ensures GrantStands(cfg, Apply(cfg, w, e), e.key, e.readAt)
  {
  }

  // ---------- Which records an atomic claim removes first ----------

  /** The records an atomic claim of either store removes first are expired ones. */
  lemma BothStoresRemoveOnlyExpired(records: Records, key: string, sysNow: int, now: int, victims: set<string>)
    requires sysNow <= now && OracleIdempotencyStore.PurgeChoice(records, sysNow, victims)
    ensures OnlyExpired(records, OwnExpired(records, key, now), now)
    ensures OnlyExpired(records, victims, now)
  {
    forall k | k in victims ensures k in records && Expired(records[k], now) {
      assert k in OracleIdempotencyStore.PurgeableKeys(records, sysNow);
    }
  }

  // ---------- Why the conditions are needed ----------

  ghost predicate Reaches(cfg: Config, w: World, es: seq<Event>, end: World) {
    ValidRun(cfg, w, es) && RunFrom(cfg, w, es) == end
  }

  lemma Then(cfg: Config, w: World, e: Event, es: seq<Event>, end: World)
    requires Enabled(w, e) && Reaches(cfg, Apply(cfg, w, e), es, end)
    ensures Reaches(cfg, w, [e] + es, end)
    ensures OnTime(cfg, w, e) && Timely(cfg, Apply(cfg, w, e), es) ==> Timely(cfg, w, [e] + es)
  {
    assert ([e] + es)[1..] == es;
  }

  /**
   An overdue handler that fails also frees its successor's claim: afterwards two handlers for
   the key run side by side although both are within their own deadlines.
   */
  lemma OverdueHandlerFreesSuccessor()
    ensures var cfg := Config(100, 5);
            var es := [Arrive(0, "k", "f", {}, 0, 0, Done), Arrive(1, "k", "f", {}, 6, 6, Done),
                       Settle(0, 7, Thrown, Done), Arrive(2, "k", "f", {}, 8, 8, Done)];
            && ValidRun(cfg, START, es)
            && var end := RunFrom(cfg, START, es);
               InFlight(end, 1) && InFlight(end, 2) && !InFlight(end, 0)
  {
    var cfg := Config(100, 5);
    var e0, e1 := Arrive(0, "k", "f", {}, 0, 0, Done), Arrive(1, "k", "f", {}, 6, 6, Done);
    var e2, e3 := Settle(0, 7, Thrown, Done), Arrive(2, "k", "f", {}, 8, 8, Done);
    var w1 := Apply(cfg, START, e0);
    var w2 := Apply(cfg, w1, e1);
    var w3 := Apply(cfg, w2, e2);
    var end := Apply(cfg, w3, e3);
    Then(cfg, w3, e3, [], end);
    Then(cfg, w2, e2, [e3] + [], end);
    Then(cfg, w1, e1, [e2] + ([e3] + []), end);
    Then(cfg, START, e0, [e1] + ([e2] + ([e3] + [])), end);
    assert [e0] + ([e1] + ([e2] + ([e3] + []))) == [e0, e1, e2, e3];
  }

  /** Request 0 has been answered with a failure, though its store call took effect; it is about to release the key. */
  lemma UndoThenArrive(w: World) returns (end: World)
    requires w.now == 2 && InFlight(w, 0) && w.requests[0].phase.Undoing? && w.requests[0].key == "k"
    requires 2 !in w.requests && forall id :: InFlight(w, id) && id != 0 ==> w.requests[id].phase.claimedAt == 2
    ensures var es := [Undo(0, 3, Done), Arrive(2, "k", "f", {}, 4, 4, Done)];
            Reaches(Config(100, 5), w, es, end) && Timely(Config(100, 5), w, es)
    ensures var r := w.requests[0];
            end.requests ==
            w.requests[0 := r.(phase := Replied(Ran(r.phase.result)))][2 := Request("k", "f", Handling(4))]
  {
    var cfg := Config(100, 5);
    var undo, arrive := Undo(0, 3, Done), Arrive(2, "k", "f", {}, 4, 4, Done);
    var w1 := Apply(cfg, w, undo);
    end := Apply(cfg, w1, arrive);
    assert forall id :: InFlight(w1, id) ==> InFlight(w, id) && id != 0 && w1.requests[id] == w.requests[id];
    Then(cfg, w1, arrive, [], end);
    Then(cfg, w, undo, [arrive] + [], end);
    assert [undo] + ([arrive] + []) == [undo, arrive];
  }

  /**
   A release whose reply is lost is sent a second time, and by then the key can be a successor's:
   afterwards two handlers run for it although nobody is late.
   */
  lemma RepeatedReleaseFreesSuccessor()
    ensures var cfg := Config(100, 5);
            var es := [Arrive(0, "k", "f", {}, 0, 0, Done), Settle(0, 1, ErrResult, AppliedButFailed),
                       Arrive(1, "k", "f", {}, 2, 2, Done), Undo(0, 3, Done), Arrive(2, "k", "f", {}, 4, 4, Done)];
            && ValidRun(cfg, START, es) && Timely(cfg, START, es)
            && var end := RunFrom(cfg, START, es);
               InFlight(end, 1) && InFlight(end, 2) && !InFlight(end, 0)
  {
    var cfg := Config(100, 5);
    var e0, e1 := Arrive(0, "k", "f", {}, 0, 0, Done), Settle(0, 1, ErrResult, AppliedButFailed);
    var e2, e3, e4 := Arrive(1, "k", "f", {}, 2, 2, Done), Undo(0, 3, Done), Arrive(2, "k", "f", {}, 4, 4, Done);
    var w1 := Apply(cfg, START, e0);
    var w2 := Apply(cfg, w1, e1);
    var w3 := Apply(cfg, w2, e2);
    assert w3.requests == map[0 := Request("k", "f", Undoing(0, ErrResult)), 1 := Request("k", "f", Handling(2))];
    var end := UndoThenArrive(w3);
    Then(cfg, w2, e2, [e3, e4], end);
    Then(cfg, w1, e1, [e2] + [e3, e4], end);
    Then(cfg, START, e0, [e1] + ([e2] + [e3, e4]), end);
    assert [e0] + ([e1] + ([e2] + [e3, e4])) == [e0, e1, e2, e3, e4];
  }

  lemma {:induction false} Joins(cfg: Config, w: World, es: seq<Event>, mid: World, more: seq<Event>, end: World)
    requires Reaches(cfg, w, es, mid) && Timely(cfg, w, es) && Reaches(cfg, mid, more, end) && Timely(cfg, mid, more)
    ensures Reaches(cfg, w, es + more, end) && Timely(cfg, w, es + more)
    decreases |es|
  {
    if es == [] {
      assert es + more == more;
    } else {
      assert (es + more)[0] == es[0] && (es + more)[1..] == es[1..] + more;
      Joins(cfg, Apply(cfg, w, es[0]), es[1..], mid, more, end);
    }
  }

  /** A completion whose reply is lost, and another request before the release that follows. */
  function LostCompletion(status: int, body: Body): seq<Event> {
    [Arrive(0, "k", "f", {}, 0, 0, Done), Settle(0, 1, Value(status, body), AppliedButFailed),
     Arrive(1, "k", "f", {}, 2, 2, Done)]
  }

  /** The release, and one more request. */
  const WITHDRAWAL := [Undo(0, 3, Done), Arrive(2, "k", "f", {}, 4, 4, Done)]

  /** The other request is answered from the completion. */
  lemma LostCompletionIsReplayed(status: int, body: Body) returns (w: World)
    ensures Reaches(Config(100, 5), START, LostCompletion(status, body), w)
    ensures Timely(Config(100, 5), START, LostCompletion(status, body))
    ensures w.now == 2
    ensures w.requests == map[0 := Request("k", "f", Undoing(0, Value(status, body))),
                              1 := Request("k", "f", Replied(Replayed(status, body)))]
  {
    var cfg := Config(100, 5);
    var e0, e1 := Arrive(0, "k", "f", {}, 0, 0, Done), Settle(0, 1, Value(status, body), AppliedButFailed);
    var e2 := Arrive(1, "k", "f", {}, 2, 2, Done);
    var w1 := Apply(cfg, START, e0);
    var w2 := Apply(cfg, w1, e1);
    w := Apply(cfg, w2, e2);
    Then(cfg, w2, e2, [], w);
    Then(cfg, w1, e1, [e2] + [], w);
    Then(cfg, START, e0, [e1] + ([e2] + []), w);
    assert [e0] + ([e1] + ([e2] + [])) == LostCompletion(status, body);
  }

  /**
   Such a completion is withdrawn by the release that follows: one request has been answered from
   it, and yet another handler runs long before it would have expired.
   */
  lemma LostCompletionIsWithdrawn(status: int, body: Body)
    ensures var cfg := Config(100, 5);
            var es := LostCompletion(status, body) + WITHDRAWAL;
            && ValidRun(cfg, START, es) && Timely(cfg, START, es) && ReleasesReportEffects(es)
            && var end := RunFrom(cfg, START, es);
               && end.requests.Keys == {0, 1, 2} && InFlight(end, 2)
               && end.requests[1].phase == Replied(Replayed(status, body))
  {
    var mid := LostCompletionIsReplayed(status, body);
    var end := UndoThenArrive(mid);
    Joins(Config(100, 5), START, LostCompletion(status, body), mid, WITHDRAWAL, end);
  }
}
