/**
 The table-backed claim at the granularity the database sees it: the statements of several claim
 transactions on one key interleave, a changed row stays locked until its transaction ends, and
 queries see committed rows. The unique index makes fresh claims exclusive. The takeover of an
 abandoned claim does not: its UPDATE names only the key, not the row it was decided on. Nor does
 the release that follows a failed completion or release, which may have taken effect all the same.
 For each of the three promises (one handler, replay, spacing) this module gives runs that break it
 and says exactly which of these steps can.
 */
module OracleClaimRace {
  import opened Wrappers
  import opened IdempotencyStore

  datatype Phase =
    | Purging
    | Inserting(now: int)
    | Selecting(now: int)
    | InsertingAgain(now: int)
    | Updating(now: int, seen: ClaimRecord, decidedAt: int)
    | Committing(now: int)
    | Handling(now: int)
    | Undoing
    | Told(outcome: ClaimOutcome)
    | Over

  datatype Txn = Txn(fingerprint: string, phase: Phase)

  /** `row` is committed; the lock holder sees and will commit `pending` instead. */
  datatype Table = Table(row: Option<ClaimRecord>, lock: Option<nat>, pending: Option<ClaimRecord>)

  datatype World = World(table: Table, txns: map<nat, Txn>, now: int)

  datatype Event =
    | Start(id: nat, fingerprint: string, at: int)
    | Purge(id: nat, sysNow: int, take: bool, at: int)
    | Insert(id: nat, at: int)
    | Select(id: nat, at: int)
    | InsertAgain(id: nat, at: int)
    | Update(id: nat, at: int)
    | Commit(id: nat, at: int)
    | Complete(id: nat, status: int, body: Body, fate: Fate, at: int)
    | Release(id: nat, thrown: bool, fate: Fate, at: int)
    | Undo(id: nat, fate: Fate, at: int)
    | Crash(id: nat, at: int)

  predicate At(w: World, id: nat) {
    id in w.txns
  }

  /** A statement that changes the row waits for whoever has it locked. */
  predicate MayWrite(w: World, id: nat) {
    w.table.lock == None || w.table.lock == Some(id)
  }

  /**
   So does an insert, for a row that is being inserted or removed; when the row is there and its
   holder only rewrites it, the insert fails at once.
   */
  predicate MayInsert(w: World, id: nat) {
    MayWrite(w, id) || (w.table.row.Some? && w.table.pending.Some?)
  }

  predicate Enabled(w: World, e: Event) {
    && w.now <= e.at
    && (e.Start? || At(w, e.id))
    && match e
       case Start(id, _, _) => id !in w.txns
       case Purge(id, sysNow, take, at) =>
         && w.txns[id].phase.Purging? && w.now <= sysNow <= at
         && (take ==> w.table.lock == None && w.table.row.Some? && w.table.row.value.expiresAt < sysNow)
       case Insert(id, _) => w.txns[id].phase.Inserting? && MayInsert(w, id)
       case Select(id, _) => w.txns[id].phase.Selecting?
       case InsertAgain(id, _) => w.txns[id].phase.InsertingAgain? && MayInsert(w, id)
       case Update(id, _) => w.txns[id].phase.Updating? && MayWrite(w, id)
       case Commit(id, _) => w.txns[id].phase.Committing?
       case Complete(id, _, _, fate, _) => w.txns[id].phase.Handling? && Reachable(w, fate)
       case Release(id, _, fate, _) => w.txns[id].phase.Handling? && Reachable(w, fate)
       case Undo(id, fate, _) => w.txns[id].phase.Undoing? && Reachable(w, fate)
       case Crash(id, _) => true
  }

  /** A store call after the handler takes effect only once nobody has the row locked. */
  predicate Reachable(w: World, fate: Fate) {
    fate == Lost || w.table.lock == None
  }

  function Move(w: World, id: nat, table: Table, phase: Phase, at: int): World
    requires At(w, id)
  {
    World(table, w.txns[id := w.txns[id].(phase := phase)], at)
  }

  /** What transaction `id` sees under the key. */
  function View(w: World, id: nat): Option<ClaimRecord> {
    if w.table.lock == Some(id) then w.table.pending else w.table.row
  }

  function Locked(table: Table, id: nat, pending: Option<ClaimRecord>): Table {
    table.(lock := Some(id), pending := pending)
  }

  function Unlocked(row: Option<ClaimRecord>): Table {
    Table(row, None, None)
  }

  function Released(table: Table, fate: Fate): Table {
    if fate == Lost then table else Unlocked(None)
  }

  /**
   A commit whose reply is lost is a commit and a crash; one that fails is a crash. After a failed
   completion, or a failed release of a failed Result, the request releases the key (again).
   */
  function Apply(cfg: Config, w: World, e: Event): World
    requires Enabled(w, e)
  {
    match e
    case Start(id, fingerprint, at) => World(w.table, w.txns[id := Txn(fingerprint, Purging)], at)
    case Purge(id, _, take, at) =>
      Move(w, id, if take then Locked(w.table, id, None) else w.table, Inserting(at), at)
    case Insert(id, at) =>
      var t := w.txns[id];
      if View(w, id) == None
      then Move(w, id, Locked(w.table, id, Some(NewClaim(cfg, t.fingerprint, t.phase.now))),
                Committing(t.phase.now), at)
      else Move(w, id, w.table, Selecting(t.phase.now), at)
    case Select(id, at) =>
      var t := w.txns[id];
      (match View(w, id)
       case None => Move(w, id, w.table, InsertingAgain(t.phase.now), at)
       case Some(rec) =>
         if rec.fingerprint == t.fingerprint && Abandoned(cfg, rec, at)
         then Move(w, id, w.table, Updating(t.phase.now, rec, at), at)
         else Move(w, id, w.table, Told(Answer(cfg, Some(rec), t.fingerprint, at)), at))
    case InsertAgain(id, at) =>
      var t := w.txns[id];
      if View(w, id) == None
      then Move(w, id, Locked(w.table, id, Some(NewClaim(cfg, t.fingerprint, t.phase.now))),
                Committing(t.phase.now), at)
      else Move(w, id, w.table, Over, at)
    case Update(id, at) =>
      var t := w.txns[id];
      Move(w, id,
           if View(w, id).Some?
           then Locked(w.table, id, Some(NewClaim(cfg, t.fingerprint, t.phase.now)))
           else w.table,
           Committing(t.phase.now), at)
    case Commit(id, at) =>
      Move(w, id, if w.table.lock == Some(id) then Unlocked(w.table.pending) else w.table,
           Handling(w.txns[id].phase.now), at)
    case Complete(id, status, body, fate, at) =>
      var row := if w.table.row.Some?
                 then Some(w.table.row.value.(state := Completed, status := Some(status), body := body))
                 else None;
      Move(w, id, if fate == Lost then w.table else Unlocked(row), if fate == Done then Over else Undoing, at)
    case Release(id, thrown, fate, at) =>
      Move(w, id, Released(w.table, fate), if fate == Done || thrown then Over else Undoing, at)
    case Undo(id, fate, at) => Move(w, id, Released(w.table, fate), Over, at)
    case Crash(id, at) =>
      Move(w, id, if w.table.lock == Some(id) then Unlocked(w.table.row) else w.table, Over, at)
  }

  ghost predicate ValidRun(cfg: Config, w: World, es: seq<Event>)
    decreases |es|
  {
    es == [] || (Enabled(w, es[0]) && ValidRun(cfg, Apply(cfg, w, es[0]), es[1..]))
  }

  ghost function RunFrom(cfg: Config, w: World, es: seq<Event>): World
    requires ValidRun(cfg, w, es)
    decreases |es|
  {
    if es == [] then w else RunFrom(cfg, Apply(cfg, w, es[0]), es[1..])
  }

  const START := World(Table(None, None, None), map[], 0)

  /** The handler of transaction `id`'s request is at work. */
  predicate InFlight(w: World, id: nat) {
    id in w.txns && w.txns[id].phase.Handling?
  }

  ghost predicate Exclusive(w: World) {
    forall i, j :: InFlight(w, i) && InFlight(w, j) ==> i == j
  }

  ghost predicate AlwaysExclusive(cfg: Config, w: World, es: seq<Event>)
    requires ValidRun(cfg, w, es)
    decreases |es|
  {
    Exclusive(w) && (es == [] || AlwaysExclusive(cfg, Apply(cfg, w, es[0]), es[1..]))
  }

  /** The step is enabled and meets no overdue handler. */
  ghost predicate TimelyStep(cfg: Config, w: World, e: Event) {
    && Enabled(w, e)
    && (e.Purge? || e.Update? || e.Undo? ==> forall id :: InFlight(w, id) ==>
          && e.at - w.txns[id].phase.now <= cfg.inProgressTtlMs
          && e.at < w.txns[id].phase.now + cfg.ttlMs)
  }

  /** Handlers are within both deadlines whenever a statement of another claim runs. */
  ghost predicate Timely(cfg: Config, w: World, es: seq<Event>)
    requires ValidRun(cfg, w, es)
    decreases |es|
  {
    es == [] ||
    (TimelyStep(cfg, w, es[0]) && Timely(cfg, Apply(cfg, w, es[0]), es[1..]))
  }

  /** A takeover that finds no row or a handler at work, or a repeated release that finds a handler at work. */
  ghost predicate Harmful(w: World, e: Event) {
    || (e.Update? && (w.table.row == None || exists j :: InFlight(w, j)))
    || (e.Undo? && e.fate != Lost && exists j :: InFlight(w, j))
  }

  ghost predicate NeverHarmful(cfg: Config, w: World, es: seq<Event>)
    requires ValidRun(cfg, w, es)
    decreases |es|
  {
    es == [] || (!Harmful(w, es[0]) && NeverHarmful(cfg, Apply(cfg, w, es[0]), es[1..]))
  }

  /** The lock holder is inserting or about to commit its own claim; takeovers were decided on abandoned rows. */
  ghost predicate LocksInv(cfg: Config, w: World) {
    && (w.table.lock.Some? ==>
          var i := w.table.lock.value;
          && At(w, i)
          && (w.txns[i].phase.Inserting? || w.txns[i].phase.Committing?)
          && (w.txns[i].phase.Inserting? ==> w.table.pending == None))
    && (forall i :: At(w, i) && w.txns[i].phase.Committing? ==>
          && w.table.lock == Some(i)
          && w.table.pending == Some(NewClaim(cfg, w.txns[i].fingerprint, w.txns[i].phase.now)))
    && (forall i :: At(w, i) && w.txns[i].phase.Updating? ==>
          var p := w.txns[i].phase;
          Abandoned(cfg, p.seen, p.decidedAt) && p.decidedAt <= w.now)
  }

  /** A handler in flight owns the committed row, unlocked, and is alone. */
  ghost predicate RowsInv(cfg: Config, w: World) {
    && (forall i :: InFlight(w, i) ==>
          && w.table.lock == None
          && w.table.row == Some(NewClaim(cfg, w.txns[i].fingerprint, w.txns[i].phase.now)))
    && Exclusive(w)
  }

  ghost predicate Inv(cfg: Config, w: World) {
    LocksInv(cfg, w) && RowsInv(cfg, w)
  }

  /** Handlers other than the one that moves keep their row, and the row stays unlocked. */
  lemma HandlersKeepRow(cfg: Config, w: World, e: Event, i: nat)
    requires Inv(cfg, w) && TimelyStep(cfg, w, e) && !Harmful(w, e)
    requires i != e.id && InFlight(Apply(cfg, w, e), i)
    ensures InFlight(w, i) && !InFlight(w, e.id)
    ensures Apply(cfg, w, e).table.lock == None && Apply(cfg, w, e).table.row == w.table.row
  {
    assert InFlight(w, i);
  }

  /** Only the transaction that moves changes its phase. */
  lemma OthersStay(cfg: Config, w: World, e: Event)
    requires Enabled(w, e)
    ensures var w' := Apply(cfg, w, e);
            && At(w', e.id) && w'.now == e.at
            && forall i :: i != e.id ==> (At(w', i) <==> At(w, i)) && (At(w, i) ==> w'.txns[i] == w.txns[i])
  {
  }

  /** The statements of a claim. */
  predicate Claims(e: Event) {
    e.Start? || e.Purge? || e.Insert? || e.Select? || e.InsertAgain? || e.Update?
  }

  lemma ClaimKeepsLocks(cfg: Config, w: World, e: Event)
    requires Inv(cfg, w) && TimelyStep(cfg, w, e) && !Harmful(w, e) && Claims(e)
    ensures LocksInv(cfg, Apply(cfg, w, e))
  {
    OthersStay(cfg, w, e);
  }

  lemma StepKeepsLocks(cfg: Config, w: World, e: Event)
    requires Inv(cfg, w) && TimelyStep(cfg, w, e) && !Harmful(w, e)
    ensures LocksInv(cfg, Apply(cfg, w, e))
  {
    if Claims(e) {
      ClaimKeepsLocks(cfg, w, e);
    } else {
      OthersStay(cfg, w, e);
    }
  }

  lemma StepKeepsRows(cfg: Config, w: World, e: Event)
    requires Inv(cfg, w) && TimelyStep(cfg, w, e) && !Harmful(w, e)
    ensures RowsInv(cfg, Apply(cfg, w, e))
  {
    var w' := Apply(cfg, w, e);
    forall i: nat | InFlight(w', i) && i != e.id
      ensures InFlight(w, i) && !InFlight(w, e.id) && w'.table.lock == None && w'.table.row == w.table.row
    {
      HandlersKeepRow(cfg, w, e, i);
    }
    assert InFlight(w', e.id) ==> forall i :: InFlight(w', i) ==> i == e.id;
  }

  lemma StepKeepsInv(cfg: Config, w: World, e: Event)
    requires Inv(cfg, w) && TimelyStep(cfg, w, e) && !Harmful(w, e)
    ensures Inv(cfg, Apply(cfg, w, e))
  {
    StepKeepsLocks(cfg, w, e);
    StepKeepsRows(cfg, w, e);
  }

  lemma {:induction false} RunsKeepInv(cfg: Config, w: World, es: seq<Event>)
    requires Inv(cfg, w) && ValidRun(cfg, w, es)
    requires Timely(cfg, w, es) && NeverHarmful(cfg, w, es)
    ensures AlwaysExclusive(cfg, w, es) && Inv(cfg, RunFrom(cfg, w, es))
    decreases |es|
  {
    if es == [] {
    } else {
      StepKeepsInv(cfg, w, es[0]);
      RunsKeepInv(cfg, Apply(cfg, w, es[0]), es[1..]);
    }
  }

  /**
   Every interleaving of statements, with crashes and failing store calls, runs at most one handler
   at a time, as long as no takeover finds the row gone or a handler at work, and no repeated
   release finds a handler at work.
   */
  lemma ExclusiveUnlessHarmful(cfg: Config, es: seq<Event>)
    requires ValidRun(cfg, START, es) && Timely(cfg, START, es) && NeverHarmful(cfg, START, es)
    ensures AlwaysExclusive(cfg, START, es)
  {
    RunsKeepInv(cfg, START, es);
  }

  // ---------- What the others are told meanwhile ----------

  /** While a timely handler is at work, a claim that reads its row is told to wait, or that its key is taken. */
  lemma ToldWhileRunning(cfg: Config, w: World, e: Event, id: nat)
    requires Inv(cfg, w) && Enabled(w, e) && e.Select? && InFlight(w, id)
    requires e.at - w.txns[id].phase.now <= cfg.inProgressTtlMs
    ensures Apply(cfg, w, e).txns[e.id].phase ==
            Told(if w.txns[e.id].fingerprint == w.txns[id].fingerprint then Running else Mismatch)
    ensures Apply(cfg, w, e).table == w.table
  {
  }

  /** A claim whose conflicting row vanished before it could be read is granted by its second insert. */
  lemma VanishedRowIsGranted(cfg: Config, w: World, e: Event)
    requires Enabled(w, e) && e.InsertAgain? && w.table.row == None && w.table.lock == None
    ensures var w1 := Apply(cfg, w, e);
            && Enabled(w1, Commit(e.id, e.at))
            && var w2 := Apply(cfg, w1, Commit(e.id, e.at));
               var t := w.txns[e.id];
               InFlight(w2, e.id) && w2.table == Unlocked(Some(NewClaim(cfg, t.fingerprint, t.phase.now)))
  {
  }

  /** A claim that reads an abandoned row of its own fingerprint goes on to take it over. */
  lemma AbandonedRowIsTakenOver(cfg: Config, w: World, e: Event)
    requires Enabled(w, e) && e.Select? && w.table.lock == None && w.table.row.Some?
    requires var rec := w.table.row.value;
             && rec.fingerprint == w.txns[e.id].fingerprint
             && rec.state == InProgress && e.at - rec.claimedAt > cfg.inProgressTtlMs
    ensures var w1 := Apply(cfg, w, e);
            && Enabled(w1, Update(e.id, e.at))
            && var w2 := Apply(cfg, w1, Update(e.id, e.at));
               && Enabled(w2, Commit(e.id, e.at))
               && var w3 := Apply(cfg, w2, Commit(e.id, e.at));
                  var t := w.txns[e.id];
                  InFlight(w3, e.id) && w3.table == Unlocked(Some(NewClaim(cfg, t.fingerprint, t.phase.now)))
  {
  }

  /** A claim whose purge took the expired row is granted by its insert. */
  lemma PurgeMakesRoom(cfg: Config, w: World, e: Event)
    requires Enabled(w, e) && e.Purge? && e.take
    ensures var w1 := Apply(cfg, w, e);
            && Enabled(w1, Insert(e.id, e.at))
            && var w2 := Apply(cfg, w1, Insert(e.id, e.at));
               && Enabled(w2, Commit(e.id, e.at))
               && var w3 := Apply(cfg, w2, Commit(e.id, e.at));
                  InFlight(w3, e.id) && w3.table == Unlocked(Some(NewClaim(cfg, w.txns[e.id].fingerprint, e.at)))
  {
  }

  /** The committed row changes only when a claim commits or a later store call takes effect. */
  lemma OnlyCommitsChangeRow(cfg: Config, w: World, e: Event)
    requires Enabled(w, e) && Apply(cfg, w, e).table.row != w.table.row
    ensures e.Commit? || ((e.Complete? || e.Release? || e.Undo?) && e.fate != Lost)
  {
  }

  /** A claim that crashes before its commit leaves no trace. */
  lemma CrashUnlocks(cfg: Config, w: World, e: Event)
    requires Enabled(w, e) && e.Crash? && w.table.lock == Some(e.id)
    ensures Apply(cfg, w, e).table == Unlocked(w.table.row)
  {
  }

  /** A release that takes effect frees the key. */
  lemma ReleaseFreesKey(cfg: Config, w: World, e: Event)
    requires Enabled(w, e) && (e.Release? || e.Undo?) && e.fate != Lost
    ensures Apply(cfg, w, e).table == Unlocked(None) && !InFlight(Apply(cfg, w, e), e.id)
  {
  }

  // ---------- The condition is exact ----------

  /** The steps that act on a row they have not just read: takeovers and repeated releases. */
  predicate Blind(e: Event) {
    e.Update? || e.Undo?
  }

  predicate NoneBlind(es: seq<Event>) {
    forall i :: 0 <= i < |es| ==> !Blind(es[i])
  }

  ghost predicate Overlaps(cfg: Config, w: World, more: seq<Event>) {
    ValidRun(cfg, w, more) && Timely(cfg, w, more) && NoneBlind(more) && !AlwaysExclusive(cfg, w, more)
  }

  /** From here two handlers can meet without any further blind step and without any of them being late. */
  ghost predicate Doomed(cfg: Config, w: World) {
    exists more :: Overlaps(cfg, w, more)
  }

  lemma {:induction false} NoneBlindIsHarmless(cfg: Config, w: World, es: seq<Event>)
    requires ValidRun(cfg, w, es) && NoneBlind(es)
    ensures NeverHarmful(cfg, w, es)
    decreases |es|
  {
    if es == [] {
    } else {
      assert forall i :: 0 <= i < |es[1..]| ==> es[1..][i] == es[i + 1];
      NoneBlindIsHarmless(cfg, Apply(cfg, w, es[0]), es[1..]);
    }
  }

  lemma InvIsNotDoomed(cfg: Config, w: World)
    requires Inv(cfg, w)
    ensures !Doomed(cfg, w)
  {
    if Doomed(cfg, w) {
      var more :| Overlaps(cfg, w, more);
      NoneBlindIsHarmless(cfg, w, more);
      RunsKeepInv(cfg, w, more);
      assert false;
    }
  }

  /** A takeover beside a handler: its commit makes two. */
  lemma BesideHandlerDooms(cfg: Config, w: World, e: Event)
    requires Inv(cfg, w) && TimelyStep(cfg, w, e) && e.Update? && exists j :: InFlight(w, j)
    ensures Doomed(cfg, Apply(cfg, w, e))
  {
    var j :| InFlight(w, j);
    var w1 := Apply(cfg, w, e);
    var w2 := Apply(cfg, w1, Commit(e.id, e.at));
    assert InFlight(w2, j) && InFlight(w2, e.id) && j != e.id;
    One(cfg, w1, Commit(e.id, e.at));
    OverlapAtEnd(cfg, w1, [Commit(e.id, e.at)], w2);
  }

  /** A takeover of a row that has gone writes nothing, so a newcomer can still insert the key. */
  lemma WithoutRowDooms(cfg: Config, w: World, e: Event)
    requires Inv(cfg, w) && TimelyStep(cfg, w, e) && e.Update? && w.table.row == None
    ensures Doomed(cfg, Apply(cfg, w, e))
  {
    var n := FreshId(w.txns.Keys);
    assert forall j :: !InFlight(w, j);
    var w1 := Apply(cfg, w, e);
    assert w1.table == w.table && w1.txns[e.id].phase.Committing?;
    assert forall j :: InFlight(w1, j) ==> InFlight(w, j);
    NewcomerIsGranted(cfg, w1, n);
    LateCommitOverlaps(cfg, w1, n, e.id);
  }

  /** The events of a claim that finds no row. */
  function FreshClaim(id: nat, at: int): seq<Event> {
    [Start(id, "", at), Purge(id, at, false, at), Insert(id, at), Commit(id, at)]
  }

  /** `w` after a newcomer has claimed a key without a row. */
  function Granted(cfg: Config, w: World, n: nat): World {
    World(Unlocked(Some(NewClaim(cfg, "", w.now))), w.txns[n := Txn("", Handling(w.now))], w.now)
  }

  /** Where there is no row, a newcomer is granted the key beside whoever is there. */
  lemma NewcomerIsGranted(cfg: Config, w: World, n: nat)
    requires w.table.row == None && w.table.lock == None && !At(w, n)
    requires forall j :: InFlight(w, j) ==>
               w.now - w.txns[j].phase.now <= cfg.inProgressTtlMs && w.now < w.txns[j].phase.now + cfg.ttlMs
    ensures Reaches(cfg, w, FreshClaim(n, w.now), Granted(cfg, w, n))
  {
    var at, end := w.now, Granted(cfg, w, n);
    var w1 := World(w.table, w.txns[n := Txn("", Purging)], at);
    var w2 := World(w.table, w.txns[n := Txn("", Inserting(at))], at);
    var w3 := World(Locked(w.table, n, Some(NewClaim(cfg, "", at))), w.txns[n := Txn("", Committing(at))], at);
    assert forall j :: InFlight(w1, j) ==> InFlight(w, j) && w1.txns[j] == w.txns[j];
    assert Apply(cfg, w3, Commit(n, at)) == end;
    One(cfg, w3, Commit(n, at));
    assert Apply(cfg, w2, Insert(n, at)) == w3;
    Then(cfg, w2, Insert(n, at), [Commit(n, at)], end);
    assert Apply(cfg, w1, Purge(n, at, false, at)) == w2;
    Then(cfg, w1, Purge(n, at, false, at), [Insert(n, at)] + [Commit(n, at)], end);
    Then(cfg, w, Start(n, "", at), [Purge(n, at, false, at)] + ([Insert(n, at)] + [Commit(n, at)]), end);
    assert [Start(n, "", at)] + ([Purge(n, at, false, at)] + ([Insert(n, at)] + [Commit(n, at)])) == FreshClaim(n, at);
  }

  lemma LateCommitOverlaps(cfg: Config, w: World, n: nat, id: nat)
    requires Reaches(cfg, w, FreshClaim(n, w.now), Granted(cfg, w, n))
    requires id != n && At(w, id) && w.txns[id].phase.Committing?
    ensures Doomed(cfg, w)
  {
    var granted := Granted(cfg, w, n);
    var commit := Commit(id, w.now);
    var end := Apply(cfg, granted, commit);
    assert InFlight(end, n) && InFlight(end, id) && n != id;
    One(cfg, granted, commit);
    Joins(cfg, w, FreshClaim(n, w.now), granted, [commit], end);
    OverlapAtEnd(cfg, w, FreshClaim(n, w.now) + [commit], end);
  }

  /** A repeated release beside a handler takes that handler's row, and a newcomer is granted. */
  lemma RepeatedReleaseDooms(cfg: Config, w: World, e: Event)
    requires Inv(cfg, w) && TimelyStep(cfg, w, e) && e.Undo? && Harmful(w, e)
    ensures Doomed(cfg, Apply(cfg, w, e))
  {
    var j :| InFlight(w, j);
    var n := FreshId(w.txns.Keys);
    var w1 := Apply(cfg, w, e);
    assert forall i :: InFlight(w1, i) ==> InFlight(w, i) && w1.txns[i] == w.txns[i];
    NewcomerIsGranted(cfg, w1, n);
    assert InFlight(Granted(cfg, w1, n), n) && InFlight(Granted(cfg, w1, n), j) && n != j;
    OverlapAtEnd(cfg, w1, FreshClaim(n, w1.now), Granted(cfg, w1, n));
  }

  lemma FreshId(ids: set<nat>) returns (n: nat)
    ensures n !in ids
  {
    n := 0;
    var below: set<nat> := {};
    while n in ids
      invariant below <= ids && |below| == n && forall i :: i in below <==> 0 <= i < n
      decreases |ids| - n
    {
      below := below + {n};
      SubsetIsSmaller(below, ids);
      n := n + 1;
    }
  }

  lemma SubsetIsSmaller(a: set<nat>, b: set<nat>)
    requires a <= b
    ensures |a| <= |b|
  {
    assert b == a + (b - a);
  }

  lemma OverlapAtEnd(cfg: Config, w: World, more: seq<Event>, end: World)
    requires Reaches(cfg, w, more, end) && NoneBlind(more) && !Exclusive(end)
    ensures Doomed(cfg, w)
  {
    EndIsExclusive(cfg, w, more);
    assert Overlaps(cfg, w, more);
  }

  lemma {:induction false} EndIsExclusive(cfg: Config, w: World, es: seq<Event>)
    requires ValidRun(cfg, w, es)
    ensures AlwaysExclusive(cfg, w, es) ==> Exclusive(RunFrom(cfg, w, es))
    decreases |es|
  {
    if es == [] {
    } else {
      EndIsExclusive(cfg, Apply(cfg, w, es[0]), es[1..]);
    }
  }

  /** A takeover or repeated release is safe if and only if it is not harmful. */
  lemma BlindStepSafeIff(cfg: Config, w: World, e: Event)
    requires Inv(cfg, w) && TimelyStep(cfg, w, e) && Blind(e)
    ensures Doomed(cfg, Apply(cfg, w, e)) <==> Harmful(w, e)
  {
    if !Harmful(w, e) {
      StepKeepsInv(cfg, w, e);
      InvIsNotDoomed(cfg, Apply(cfg, w, e));
    } else if e.Undo? {
      RepeatedReleaseDooms(cfg, w, e);
    } else if w.table.row == None {
      WithoutRowDooms(cfg, w, e);
    } else {
      BesideHandlerDooms(cfg, w, e);
    }
  }

  ghost predicate NeverDoomed(cfg: Config, w: World, es: seq<Event>)
    requires ValidRun(cfg, w, es)
    decreases |es|
  {
    !Doomed(cfg, w) && (es == [] || NeverDoomed(cfg, Apply(cfg, w, es[0]), es[1..]))
  }

  /** The same for whole runs: exclusion is never at risk if and only if no takeover or repeated release was harmful. */
  lemma {:induction false} NeverDoomedIff(cfg: Config, w: World, es: seq<Event>)
    requires Inv(cfg, w) && ValidRun(cfg, w, es) && Timely(cfg, w, es)
    ensures NeverDoomed(cfg, w, es) <==> NeverHarmful(cfg, w, es)
    decreases |es|
  {
    InvIsNotDoomed(cfg, w);
    if es == [] {
    } else if Harmful(w, es[0]) {
      BlindStepSafeIff(cfg, w, es[0]);
    } else {
      StepKeepsInv(cfg, w, es[0]);
      NeverDoomedIff(cfg, Apply(cfg, w, es[0]), es[1..]);
    }
  }

  // ---------- Replay ----------

  /** A completed row, nobody at work on the key and nobody about to be. */
  ghost predicate Settled(w: World, rec: ClaimRecord) {
    && w.table.row == Some(rec) && rec.state == Completed && w.table.lock == None
    && forall i :: At(w, i) ==> !w.txns[i].phase.Handling? && !w.txns[i].phase.Committing?
  }

  /** Nobody is on the way to take the row over or to release it again. */
  predicate NonePending(w: World) {
    forall i <- w.txns :: !w.txns[i].phase.Updating? && !w.txns[i].phase.Undoing?
  }

  /** What a claim is told that finds the completed row. */
  predicate ToldFrom(rec: ClaimRecord, t: Txn) {
    t.phase == Told(if t.fingerprint == rec.fingerprint
                    then Replay(rec.status.GetOr(DEFAULT_STATUS), rec.body)
                    else Mismatch)
  }

  /** A completion that takes effect leaves the key settled with its own answer, reported or not. */
  lemma CompletionSettles(cfg: Config, w: World, e: Event)
    requires Inv(cfg, w) && Enabled(w, e) && e.Complete? && e.fate != Lost
    ensures var t := w.txns[e.id];
            Settled(Apply(cfg, w, e),
                    NewClaim(cfg, t.fingerprint, t.phase.now).(
                      state := Completed, status := Some(e.status), body := e.body))
  {
    var w' := Apply(cfg, w, e);
    assert InFlight(w, e.id);
    forall i | At(w', i) ensures !w'.txns[i].phase.Handling? && !w'.txns[i].phase.Committing? {
      assert i != e.id ==> w'.txns[i] == w.txns[i] && !InFlight(w, i);
    }
  }

  lemma SettledStep(cfg: Config, w: World, e: Event, rec: ClaimRecord)
    requires Settled(w, rec) && Enabled(w, e) && e.at <= rec.expiresAt && !Blind(e)
    ensures var w' := Apply(cfg, w, e);
            && Settled(w', rec) && (NonePending(w) ==> NonePending(w'))
            && (w'.txns[e.id].phase.Told? ==>
                  (At(w, e.id) && w'.txns[e.id] == w.txns[e.id]) || ToldFrom(rec, w'.txns[e.id]))
            && (forall i :: i != e.id && At(w', i) ==> At(w, i) && w'.txns[i] == w.txns[i])
  {
  }

  predicate Until(es: seq<Event>, end: int) {
    forall i :: 0 <= i < |es| ==> es[i].at <= end
  }

  /** Without takeovers and repeated releases, every claim until the expiry is answered from the row and none runs. */
  lemma {:induction false} ReplaysUnlessBlind(cfg: Config, w: World, es: seq<Event>, rec: ClaimRecord)
    requires Settled(w, rec) && ValidRun(cfg, w, es) && Until(es, rec.expiresAt) && NoneBlind(es)
    ensures var end := RunFrom(cfg, w, es);
            && Settled(end, rec) && (NonePending(w) ==> NonePending(end))
            && forall i :: At(end, i) && end.txns[i].phase.Told? ==>
                 (At(w, i) && end.txns[i] == w.txns[i]) || ToldFrom(rec, end.txns[i])
    decreases |es|
  {
    if es == [] {
    } else {
      var w1 := Apply(cfg, w, es[0]);
      SettledStep(cfg, w, es[0], rec);
      assert forall i :: 0 <= i < |es[1..]| ==> es[1..][i] == es[i + 1];
      ReplaysUnlessBlind(cfg, w1, es[1..], rec);
      var end := RunFrom(cfg, w, es);
      forall i | At(end, i) && end.txns[i].phase.Told?
        ensures (At(w, i) && end.txns[i] == w.txns[i]) || ToldFrom(rec, end.txns[i])
      {
      }
    }
  }

  lemma {:induction false} NonePendingNoneBlind(cfg: Config, w: World, es: seq<Event>, rec: ClaimRecord)
    requires Settled(w, rec) && NonePending(w) && ValidRun(cfg, w, es) && Until(es, rec.expiresAt)
    ensures NoneBlind(es)
    decreases |es|
  {
    if es == [] {
    } else {
      SettledStep(cfg, w, es[0], rec);
      assert forall i :: 0 <= i < |es[1..]| ==> es[1..][i] == es[i + 1];
      NonePendingNoneBlind(cfg, Apply(cfg, w, es[0]), es[1..], rec);
      assert forall i :: 0 < i < |es| ==> es[i] == es[1..][i - 1];
    }
  }

  /** The completed row is there and no handler runs, at the end of every run that is over by the expiry. */
  ghost predicate ReplayGuaranteed(cfg: Config, w: World, rec: ClaimRecord) {
    forall es :: ValidRun(cfg, w, es) && Until(es, rec.expiresAt) ==>
      var end := RunFrom(cfg, w, es); end.table.row == Some(rec) && forall i :: !InFlight(end, i)
  }

  lemma SettledIsGuaranteed(cfg: Config, w: World, rec: ClaimRecord)
    requires Settled(w, rec) && NonePending(w)
    ensures ReplayGuaranteed(cfg, w, rec)
  {
    forall es | ValidRun(cfg, w, es) && Until(es, rec.expiresAt)
      ensures Settled(RunFrom(cfg, w, es), rec)
    {
      NonePendingNoneBlind(cfg, w, es, rec);
      ReplaysUnlessBlind(cfg, w, es, rec);
    }
  }

  /** A run that ends without the completed row, or with a handler at work, refutes the guarantee. */
  lemma RunRefutes(cfg: Config, w: World, es: seq<Event>, end: World, rec: ClaimRecord)
    requires ValidRun(cfg, w, es) && RunFrom(cfg, w, es) == end && Until(es, rec.expiresAt)
    requires end.table.row != Some(rec) || exists i :: InFlight(end, i)
    ensures !ReplayGuaranteed(cfg, w, rec)
  {
  }

  lemma TakeoverRefutes(cfg: Config, w: World, rec: ClaimRecord, id: nat)
    requires Settled(w, rec) && w.now <= rec.expiresAt && At(w, id) && w.txns[id].phase.Updating?
    ensures !ReplayGuaranteed(cfg, w, rec)
  {
    var e, c := Update(id, w.now), Commit(id, w.now);
    var w1 := Apply(cfg, w, e);
    var w2 := Apply(cfg, w1, c);
    Follows(cfg, w1, c, [], w2);
    Follows(cfg, w, e, [c] + [], w2);
    assert InFlight(w2, id);
    RunRefutes(cfg, w, [e] + ([c] + []), w2, rec);
  }

  lemma RepeatedReleaseRefutes(cfg: Config, w: World, rec: ClaimRecord, id: nat)
    requires Settled(w, rec) && w.now <= rec.expiresAt && At(w, id) && w.txns[id].phase.Undoing?
    ensures !ReplayGuaranteed(cfg, w, rec)
  {
    var e := Undo(id, Done, w.now);
    var w1 := Apply(cfg, w, e);
    Follows(cfg, w, e, [], w1);
    RunRefutes(cfg, w, [e] + [], w1, rec);
  }

  lemma Follows(cfg: Config, w: World, e: Event, es: seq<Event>, end: World)
    requires Enabled(w, e) && ValidRun(cfg, Apply(cfg, w, e), es) && RunFrom(cfg, Apply(cfg, w, e), es) == end
    ensures ValidRun(cfg, w, [e] + es) && RunFrom(cfg, w, [e] + es) == end
  {
    assert ([e] + es)[1..] == es;
  }

  /**
   A settled key is replayed until it expires, whatever comes, if and only if no claim that had
   read the abandoned row is still on its way to take it over, and no request is about to release
   the key because its own store call failed.
   */
  lemma ReplayGuaranteedIff(cfg: Config, w: World, rec: ClaimRecord)
    requires Settled(w, rec) && w.now <= rec.expiresAt
    ensures ReplayGuaranteed(cfg, w, rec) <==> NonePending(w)
  {
    if NonePending(w) {
      SettledIsGuaranteed(cfg, w, rec);
    } else {
      var id :| id in w.txns && (w.txns[id].phase.Updating? || w.txns[id].phase.Undoing?);
      if w.txns[id].phase.Updating? {
        TakeoverRefutes(cfg, w, rec, id);
      } else {
        RepeatedReleaseRefutes(cfg, w, rec, id);
      }
    }
  }

  // ---------- Spacing of grants ----------

  /** At `now` the spacing promised after a grant stamped `t` is over. */
  predicate Late(cfg: Config, t: int, now: int) {
    now - t >= cfg.ttlMs || now - t > cfg.inProgressTtlMs
  }

  /** The grant stamped `t` has its row, untouched, and nobody is about to be granted; or the spacing is over. */
  ghost predicate Standing(cfg: Config, w: World, t: int) {
    Late(cfg, t, w.now) ||
    (&& w.table.lock == None
     && w.table.row.Some? && w.table.row.value.claimedAt == t && w.table.row.value.expiresAt == t + cfg.ttlMs
     && forall i :: At(w, i) ==> !w.txns[i].phase.Committing?)
  }

  /** The takeover lands on a row that is neither overdue nor expired. */
  predicate Crowds(cfg: Config, w: World, e: Event) {
    && e.Update? && w.table.row.Some?
    && e.at - w.table.row.value.claimedAt <= cfg.inProgressTtlMs && e.at < w.table.row.value.expiresAt
  }

  /** The store call takes the row away. */
  predicate Releases(e: Event) {
    (e.Release? || e.Undo?) && e.fate != Lost
  }

  /** No grant, no release and no crowding takeover. */
  ghost predicate Quiet(cfg: Config, w: World, es: seq<Event>)
    requires ValidRun(cfg, w, es)
    decreases |es|
  {
    es == [] ||
    (&& !es[0].Commit? && !Releases(es[0]) && !Crowds(cfg, w, es[0])
     && Quiet(cfg, Apply(cfg, w, es[0]), es[1..]))
  }

  /** A grant stands from the commit that makes it. */
  lemma GrantStands(cfg: Config, w: World, e: Event)
    requires LocksInv(cfg, w) && Enabled(w, e) && e.Commit?
    ensures Standing(cfg, Apply(cfg, w, e), w.txns[e.id].phase.now)
  {
  }

  lemma QuietStep(cfg: Config, w: World, e: Event, t: int)
    requires Standing(cfg, w, t) && Enabled(w, e)
    requires !e.Commit? && !Releases(e) && !Crowds(cfg, w, e)
    ensures Standing(cfg, Apply(cfg, w, e), t)
  {
  }

  /** Two consecutive grants without a release between them keep their distance, unless a takeover crowds. */
  lemma {:induction false} GrantsAreSpaced(cfg: Config, w: World, es: seq<Event>, again: Event, t: int)
    requires Standing(cfg, w, t) && ValidRun(cfg, w, es) && Quiet(cfg, w, es)
    requires again.Commit? && Enabled(RunFrom(cfg, w, es), again)
    ensures Late(cfg, t, again.at)
    decreases |es|
  {
    if es == [] {
    } else {
      QuietStep(cfg, w, es[0], t);
      GrantsAreSpaced(cfg, Apply(cfg, w, es[0]), es[1..], again, t);
    }
  }

  /** And it is exactly a crowding takeover whose grant can come too early. */
  lemma TooEarlyIff(cfg: Config, w: World, e: Event, t: int)
    requires Standing(cfg, w, t) && Enabled(w, e) && e.Update?
    ensures (exists at :: Enabled(Apply(cfg, w, e), Commit(e.id, at)) && !Late(cfg, t, at)) <==>
            (!Late(cfg, t, w.now) && Crowds(cfg, w, e))
  {
    if !Late(cfg, t, w.now) && Crowds(cfg, w, e) {
      assert Enabled(Apply(cfg, w, e), Commit(e.id, e.at));
    }
  }

  // ---------- What the UPDATE would need ----------

  /** The takeover overwrites something other than the row it was decided on. */
  predicate Stale(w: World, e: Event)
    requires Enabled(w, e)
  {
    e.Update? && w.table.row != Some(w.txns[e.id].phase.seen)
  }

  /** A takeover that still finds the row it was decided on breaks none of the three promises. */
  lemma FreshTakeoverIsSafe(cfg: Config, w: World, e: Event)
    requires Inv(cfg, w) && TimelyStep(cfg, w, e) && e.Update? && !Stale(w, e)
    ensures !Harmful(w, e) && !Crowds(cfg, w, e)
    ensures forall rec :: !Settled(w, rec)
  {
  }

  // ---------- All three are broken ----------

  const RACE_CONFIG := Config(100, 5)

  const CRASHED_CLAIM := [Start(0, "f", 0), Purge(0, 0, false, 0), Insert(0, 0), Commit(0, 0), Crash(0, 1)]

  function Retry(id: nat): seq<Event> {
    [Start(id, "f", 7), Purge(id, 7, false, 7), Insert(id, 7), Select(id, 7)]
  }

  /** A claimant has crashed, and two retries have both read its abandoned row. */
  const RACE := CRASHED_CLAIM + (Retry(1) + Retry(2))

  const BOTH_DECIDED := World(
    Table(Some(NewClaim(RACE_CONFIG, "f", 0)), None, None),
    map[0 := Txn("f", Over), 1 := Txn("f", Updating(7, NewClaim(RACE_CONFIG, "f", 0), 7)),
        2 := Txn("f", Updating(7, NewClaim(RACE_CONFIG, "f", 0), 7))], 7)

  lemma RaceIsReachable()
    ensures Reaches(RACE_CONFIG, START, RACE, BOTH_DECIDED)
  {
    var cfg := RACE_CONFIG;
    var crashed := NewClaim(cfg, "f", 0);
    var a := World(Table(Some(crashed), None, None), map[0 := Txn("f", Over)], 1);
    var b := World(a.table, a.txns[1 := Txn("f", Updating(7, crashed, 7))], 7);
    FirstClaimCrashes(cfg, a);
    RetryReadsAbandoned(cfg, a, 1, b);
    RetryReadsAbandoned(cfg, b, 2, BOTH_DECIDED);
    Joins(cfg, a, Retry(1), b, Retry(2), BOTH_DECIDED);
    Joins(cfg, START, CRASHED_CLAIM, a, Retry(1) + Retry(2), BOTH_DECIDED);
  }

  const FIRST_TAKEOVER := [Update(1, 7), Commit(1, 7)]

  const FIRST_GRANTED := World(
    Table(Some(NewClaim(RACE_CONFIG, "f", 7)), None, None),
    map[0 := Txn("f", Over), 1 := Txn("f", Handling(7)), 2 := BOTH_DECIDED.txns[2]], 7)

  lemma FirstTakesOver()
    ensures Reaches(RACE_CONFIG, START, RACE + FIRST_TAKEOVER, FIRST_GRANTED)
  {
    var cfg := RACE_CONFIG;
    var w1 := Apply(cfg, BOTH_DECIDED, Update(1, 7));
    assert Apply(cfg, w1, Commit(1, 7)) == FIRST_GRANTED;
    One(cfg, w1, Commit(1, 7));
    assert forall i :: !InFlight(BOTH_DECIDED, i);
    Then(cfg, BOTH_DECIDED, Update(1, 7), [Commit(1, 7)], FIRST_GRANTED);
    assert FIRST_TAKEOVER == [Update(1, 7)] + [Commit(1, 7)];
    RaceIsReachable();
    Joins(cfg, START, RACE, BOTH_DECIDED, FIRST_TAKEOVER, FIRST_GRANTED);
  }

  /** Exclusion and spacing: the second takeover is granted too, at the same instant, and two timely handlers run. */
  lemma TwoTakeoversBothGranted()
    ensures var es := RACE + FIRST_TAKEOVER;
            && ValidRun(RACE_CONFIG, START, es) && Timely(RACE_CONFIG, START, es)
            && var w := RunFrom(RACE_CONFIG, START, es);
               && Standing(RACE_CONFIG, w, 7)
               && TimelyStep(RACE_CONFIG, w, Update(2, 7))
               && var w1 := Apply(RACE_CONFIG, w, Update(2, 7));
                  && Enabled(w1, Commit(2, 7)) && !Late(RACE_CONFIG, 7, 7)
                  && var end := Apply(RACE_CONFIG, w1, Commit(2, 7)); InFlight(end, 1) && InFlight(end, 2)
  {
    FirstTakesOver();
  }

  const COMPLETED := NewClaim(RACE_CONFIG, "f", 7).(state := Completed, status := Some(201), body := Json("{}"))

  /** Replay: the second takeover overwrites the completed answer long before it expires, and its handler runs. */
  lemma TakeoverDiscardsAnswer()
    ensures var es := RACE + FIRST_TAKEOVER + [Complete(1, 201, Json("{}"), Done, 8)];
            && ValidRun(RACE_CONFIG, START, es) && Timely(RACE_CONFIG, START, es)
            && var w := RunFrom(RACE_CONFIG, START, es);
               && Settled(w, COMPLETED) && COMPLETED.expiresAt == 107
               && TimelyStep(RACE_CONFIG, w, Update(2, 9))
               && var w1 := Apply(RACE_CONFIG, w, Update(2, 9));
                  && Enabled(w1, Commit(2, 9))
                  && var end := Apply(RACE_CONFIG, w1, Commit(2, 9));
                     InFlight(end, 2) && end.table.row == Some(NewClaim(RACE_CONFIG, "f", 7))
  {
    var done := Complete(1, 201, Json("{}"), Done, 8);
    var w := Apply(RACE_CONFIG, FIRST_GRANTED, done);
    FirstTakesOver();
    One(RACE_CONFIG, FIRST_GRANTED, done);
    Joins(RACE_CONFIG, START, RACE + FIRST_TAKEOVER, FIRST_GRANTED, [done], w);
    assert Settled(w, COMPLETED);
  }

  /** A claim, and then one of the claimant's store calls. */
  lemma ClaimThenCall(cfg: Config, w: World, n: nat, call: Event, end: World)
    requires w.table.row == None && w.table.lock == None && !At(w, n)
    requires forall j :: !InFlight(w, j)
    requires TimelyStep(cfg, Granted(cfg, w, n), call) && Apply(cfg, Granted(cfg, w, n), call) == end
    ensures Reaches(cfg, w, FreshClaim(n, w.now) + [call], end)
  {
    NewcomerIsGranted(cfg, w, n);
    One(cfg, Granted(cfg, w, n), call);
    Joins(cfg, w, FreshClaim(n, w.now), Granted(cfg, w, n), [call], end);
  }

  const RELEASED_ONCE := World(Unlocked(None), map[0 := Txn("", Undoing)], 2)
  const RELEASED_TWICE := World(Unlocked(None), map[0 := Txn("", Over), 1 := Txn("", Handling(2))], 4)

  /** Exclusion again, without any takeover: a release whose reply was lost is repeated on a successor's row. */
  lemma RepeatedReleaseOverlaps()
    ensures var first := FreshClaim(0, 0) + [Release(0, false, AppliedButFailed, 2)];
            var second := FreshClaim(1, 2) + [Undo(0, Done, 4)];
            var es := first + (second + FreshClaim(2, 4));
            && ValidRun(RACE_CONFIG, START, es) && Timely(RACE_CONFIG, START, es)
            && var end := RunFrom(RACE_CONFIG, START, es); InFlight(end, 1) && InFlight(end, 2)
  {
    var cfg := RACE_CONFIG;
    var release, undo := Release(0, false, AppliedButFailed, 2), Undo(0, Done, 4);
    var end := Granted(cfg, RELEASED_TWICE, 2);
    assert InFlight(end, 1) && InFlight(end, 2);
    assert Apply(cfg, Granted(cfg, START, 0), release) == RELEASED_ONCE;
    ClaimThenCall(cfg, START, 0, release, RELEASED_ONCE);
    assert Apply(cfg, Granted(cfg, RELEASED_ONCE, 1), undo) == RELEASED_TWICE;
    ClaimThenCall(cfg, RELEASED_ONCE, 1, undo, RELEASED_TWICE);
    NewcomerIsGranted(cfg, RELEASED_TWICE, 2);
    Joins(cfg, RELEASED_ONCE, FreshClaim(1, 2) + [undo], RELEASED_TWICE, FreshClaim(2, 4), end);
    Joins(cfg, START, FreshClaim(0, 0) + [release], RELEASED_ONCE,
          FreshClaim(1, 2) + [undo] + FreshClaim(2, 4), end);
  }

  lemma FirstClaimCrashes(cfg: Config, end: World)
    requires cfg == Config(100, 5)
    requires end == World(Table(Some(NewClaim(cfg, "f", 0)), None, None), map[0 := Txn("f", Over)], 1)
    ensures Reaches(cfg, START, CRASHED_CLAIM, end)
  {
    var claim := Some(NewClaim(cfg, "f", 0));
    var w3 := World(Table(None, Some(0), claim), map[0 := Txn("f", Committing(0))], 0);
    var w4 := World(Table(claim, None, None), map[0 := Txn("f", Handling(0))], 0);
    assert TimelyStep(cfg, w4, Crash(0, 1)) && Apply(cfg, w4, Crash(0, 1)) == end;
    One(cfg, w4, Crash(0, 1));
    assert TimelyStep(cfg, w3, Commit(0, 0)) && Apply(cfg, w3, Commit(0, 0)) == w4;
    Then(cfg, w3, Commit(0, 0), [Crash(0, 1)], end);
    InsertedThenCrashed(cfg, w3, end);
  }

  lemma InsertedThenCrashed(cfg: Config, w3: World, end: World)
    requires w3 == World(Table(None, Some(0), Some(NewClaim(cfg, "f", 0))), map[0 := Txn("f", Committing(0))], 0)
    requires Reaches(cfg, w3, [Commit(0, 0)] + [Crash(0, 1)], end)
    ensures Reaches(cfg, START, CRASHED_CLAIM, end)
  {
    var w1 := World(START.table, map[0 := Txn("f", Purging)], 0);
    var w2 := World(START.table, map[0 := Txn("f", Inserting(0))], 0);
    var rest := [Commit(0, 0)] + [Crash(0, 1)];
    assert TimelyStep(cfg, w2, Insert(0, 0)) && Apply(cfg, w2, Insert(0, 0)) == w3;
    Then(cfg, w2, Insert(0, 0), rest, end);
    assert TimelyStep(cfg, w1, Purge(0, 0, false, 0)) && Apply(cfg, w1, Purge(0, 0, false, 0)) == w2;
    Then(cfg, w1, Purge(0, 0, false, 0), [Insert(0, 0)] + rest, end);
    assert TimelyStep(cfg, START, Start(0, "f", 0)) && Apply(cfg, START, Start(0, "f", 0)) == w1;
    Then(cfg, START, Start(0, "f", 0), [Purge(0, 0, false, 0)] + ([Insert(0, 0)] + rest), end);
    assert CRASHED_CLAIM == [Start(0, "f", 0)] + ([Purge(0, 0, false, 0)] + ([Insert(0, 0)] + rest));
  }

  lemma RetryReadsAbandoned(cfg: Config, w: World, id: nat, end: World)
    requires cfg == Config(100, 5) && id !in w.txns && w.now <= 7
    requires w.table == Table(Some(NewClaim(cfg, "f", 0)), None, None)
    requires forall i :: !InFlight(w, i)
    requires end == World(w.table, w.txns[id := Txn("f", Updating(7, NewClaim(cfg, "f", 0), 7))], 7)
    ensures Reaches(cfg, w, Retry(id), end)
  {
    var w1 := Apply(cfg, w, Start(id, "f", 7));
    var w2 := Apply(cfg, w1, Purge(id, 7, false, 7));
    var w3 := Apply(cfg, w2, Insert(id, 7));
    assert forall i :: InFlight(w1, i) ==> InFlight(w, i);
    assert Apply(cfg, w3, Select(id, 7)) == end;
    One(cfg, w3, Select(id, 7));
    Then(cfg, w2, Insert(id, 7), [Select(id, 7)], end);
    Then(cfg, w1, Purge(id, 7, false, 7), [Insert(id, 7), Select(id, 7)], end);
    assert Retry(id) == [Start(id, "f", 7)] + [Purge(id, 7, false, 7), Insert(id, 7), Select(id, 7)];
    Then(cfg, w, Start(id, "f", 7), [Purge(id, 7, false, 7), Insert(id, 7), Select(id, 7)], end);
  }

  lemma One(cfg: Config, w: World, e: Event)
    requires TimelyStep(cfg, w, e)
    ensures Reaches(cfg, w, [e], Apply(cfg, w, e))
  {
    assert [e][1..] == [];
  }

  lemma Then(cfg: Config, w: World, e: Event, es: seq<Event>, end: World)
    requires TimelyStep(cfg, w, e) && Reaches(cfg, Apply(cfg, w, e), es, end)
    ensures Reaches(cfg, w, [e] + es, end)
  {
    assert ([e] + es)[1..] == es;
  }

  ghost predicate Reaches(cfg: Config, w: World, es: seq<Event>, end: World) {
    ValidRun(cfg, w, es) && Timely(cfg, w, es) && RunFrom(cfg, w, es) == end
  }

  lemma {:induction false} Joins(cfg: Config, w: World, es: seq<Event>, mid: World, more: seq<Event>, end: World)
    requires Reaches(cfg, w, es, mid) && Reaches(cfg, mid, more, end)
    ensures Reaches(cfg, w, es + more, end)
    decreases |es|
  {
    if es == [] {
      assert es + more == more;
    } else {
      assert (es + more)[0] == es[0] && (es + more)[1..] == es[1..] + more;
      Joins(cfg, Apply(cfg, w, es[0]), es[1..], mid, more, end);
    }
  }
}
