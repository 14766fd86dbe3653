/**
 Calls that overlap on one pool. Each call has a session of its own, from borrowing a connection to
 giving it back; a scheduler interleaves the round trips of all sessions and the environment
 decides each one's fate. The steps are those of `DatabaseModel`, one round trip at a time.
 */
module DatabaseTraffic {
  import opened Wrappers
  import opened DatabaseModel
  import opened DatabaseProofs

  datatype Phase = Working | Undoing | Clearing | Closing(drop: bool) | Ended

  /** A call on connection `c`. `writes` lists what it wrote, as the caller issued it. */
  datatype Session = Session(c: nat, user: string, transactional: bool, writes: seq<Entry>, phase: Phase)

  /** `commits` names the sessions whose commit took effect, in that order. */
  datatype Traffic = Traffic(pool: World, sessions: map<nat, Session>, commits: seq<nat>)

  datatype Event =
    | Open(id: nat, transactional: bool, opts: Options, draw: Draw)
    | Statement(id: nat, write: int, draw: Draw)
    | BodyEnds(id: nat, ok: bool, draw: Draw)
    | Undo(id: nat, draw: Draw)
    | Clear(id: nat, draw: Draw)
    | Close(id: nat, draw: Draw)

  const START := Traffic(World([], [], [], 0), map[], [])

  /** The pool facing one round trip. */
  function Facing(w: World, draw: Draw): World {
    w.(draws := [draw])
  }

  function Rest(w: World): World {
    w.(draws := [])
  }

  predicate Active(t: Traffic, id: nat) {
    id in t.sessions && !t.sessions[id].phase.Ended?
  }

  predicate Enabled(t: Traffic, e: Event) {
    if e.Open? then e.id !in t.sessions
    else
      && Active(t, e.id) && t.sessions[e.id].c < |t.pool.conns|
      && var phase := t.sessions[e.id].phase;
         match e
         case Statement(_, _, _) => phase.Working?
         case BodyEnds(_, _, _) => phase.Working?
         case Undo(_, _) => phase.Undoing?
         case Clear(_, _) => phase.Clearing?
         case Close(_, _) => phase.Closing?
  }

  function Moved(t: Traffic, id: nat, pool: World, s: Session): Traffic {
    t.(pool := Rest(pool), sessions := t.sessions[id := s])
  }

  function Apply(src: Source, t: Traffic, e: Event): Traffic
    requires Enabled(t, e)
  {
    var w := Facing(t.pool, e.draw);
    match e
    case Open(id, transactional, opts, _) =>
      (match Begin(src, opts, w)
       case Refused(_, w1) => t.(pool := Rest(w1))
       case Opened(c, w1, _) =>
         Moved(t, id, w1, Session(c, UserOf(src, opts).GetOr(""), transactional, [], Working)))
    case Statement(id, write, draw) =>
      var s := t.sessions[id];
      var wrote := if TookEffect(draw.fate) then [Entry(write, s.user)] else [];
      Moved(t, id, Execute(w, s.c, write).1, s.(writes := s.writes + wrote))
    case BodyEnds(id, ok, draw) =>
      var s := t.sessions[id];
      if !s.transactional then Moved(t, id, w, s.(phase := Clearing))
      else if !ok then Moved(t, id, w, s.(phase := Undoing))
      else
        var t1 := Moved(t, id, Committed(w, s.c), s.(phase := if draw.fate == Ok then Clearing else Undoing));
        if TookEffect(draw.fate) then t1.(commits := t.commits + [id]) else t1
    case Undo(id, _) =>
      Moved(t, id, RolledBack(w, t.sessions[id].c), t.sessions[id].(phase := Clearing))
    case Clear(id, draw) =>
      var s := t.sessions[id];
      if s.user == "" then Moved(t, id, w, s.(phase := Closing(false)))
      else Moved(t, id, Cleared(w, s.c), s.(phase := Closing(draw.fate != Ok)))
    case Close(id, _) =>
      var s := t.sessions[id];
      Moved(t, id, Closed(src, w, s.c, s.phase.drop), s.(phase := Ended))
  }

  ghost predicate ValidRun(src: Source, t: Traffic, es: seq<Event>)
    decreases |es|
  {
    es == [] || (Enabled(t, es[0]) && ValidRun(src, Apply(src, t, es[0]), es[1..]))
  }

  ghost function RunFrom(src: Source, t: Traffic, es: seq<Event>): Traffic
    requires ValidRun(src, t, es)
    decreases |es|
  {
    if es == [] then t else RunFrom(src, Apply(src, t, es[0]), es[1..])
  }

  // ---------- The pool and its sessions ----------

  /** What a session's connection looks like while the session has it. */
  predicate Serves(conn: Conn, s: Session) {
    && conn.place == InUse && conn.log == s.writes
    && (conn.server == "" || conn.server == s.user)
    && match s.phase
       case Working => conn.client == s.user && conn.pending == s.writes
       case Closing(drop) => conn.client == "" && (!drop ==> conn.server == "")
       case _ => conn.client == s.user
  }

  predicate OwnWrites(s: Session) {
    forall k :: 0 <= k < |s.writes| ==> s.writes[k].user == s.user
  }

  ghost predicate Held(t: Traffic, c: nat) {
    exists id :: Active(t, id) && t.sessions[id].c == c
  }

  /** Every connection in use belongs to exactly one session; the others are tidy. */
  ghost predicate PoolInv(src: Source, t: Traffic) {
    && Tidy(src, t.pool)
    && (forall id :: Active(t, id) ==>
          t.sessions[id].c < |t.pool.conns| && Serves(t.pool.conns[t.sessions[id].c], t.sessions[id]))
    && (forall i, j :: Active(t, i) && Active(t, j) && t.sessions[i].c == t.sessions[j].c ==> i == j)
    && (forall c: nat :: InUseAt(t.pool, c) ==> Held(t, c))
    && (forall id <- t.sessions :: OwnWrites(t.sessions[id]))
  }

  lemma OpenKeepsPool(src: Source, t: Traffic, e: Event)
    requires PoolInv(src, t) && Enabled(t, e) && e.Open?
    ensures PoolInv(src, Apply(src, t, e))
  {
    var t' := Apply(src, t, e);
    var w := Facing(t.pool, e.draw);
    BeginSpec(src, e.opts, w);
    var b := Begin(src, e.opts, w);
    if b.Opened? {
      assert forall i :: Active(t, i) ==> InUseAt(w, t.sessions[i].c);
      NewSessionKeepsPool(src, t, t', e.id);
    } else {
      assert forall i :: Active(t', i) <==> Active(t, i);
      forall k: nat | InUseAt(t'.pool, k) ensures Held(t', k) {
        assert InUseAt(t.pool, k);
        var i :| Active(t, i) && t.sessions[i].c == k;
        assert Active(t', i);
      }
    }
  }

  lemma NewSessionKeepsPool(src: Source, t: Traffic, t': Traffic, id: nat)
    requires PoolInv(src, t) && Tidy(src, t'.pool) && id !in t.sessions
    requires |t.pool.conns| <= |t'.pool.conns|
    requires id in t'.sessions && t'.sessions == t.sessions[id := t'.sessions[id]]
    requires var s := t'.sessions[id];
             && s.phase.Working? && s.writes == [] && s.c < |t'.pool.conns|
             && Serves(t'.pool.conns[s.c], s)
             && (forall c :: 0 <= c < |t'.pool.conns| && c != s.c ==>
                   c < |t.pool.conns| && t'.pool.conns[c] == t.pool.conns[c])
             && forall i :: Active(t, i) ==> t.sessions[i].c != s.c
    ensures PoolInv(src, t')
  {
    var c := t'.sessions[id].c;
    assert forall i :: i != id ==>
        (Active(t', i) <==> Active(t, i)) && (i in t.sessions ==> t'.sessions[i] == t.sessions[i]);
    forall k: nat | InUseAt(t'.pool, k) ensures Held(t', k) {
      if k == c {
        assert Active(t', id);
      } else {
        assert InUseAt(t.pool, k);
        var i :| Active(t, i) && t.sessions[i].c == k;
        assert Active(t', i) && t'.sessions[i].c == k;
      }
    }
  }

  /** The step of session `id` from `t` to `t'` changes its own connection only and leaves it as its phase demands. */
  ghost predicate OwnStep(src: Source, t: Traffic, t': Traffic, id: nat)
    requires Active(t, id) && id in t'.sessions && t.sessions[id].c < |t.pool.conns| == |t'.pool.conns|
  {
    var (s, s') := (t.sessions[id], t'.sessions[id]);
    var conn := t'.pool.conns[s.c];
    && s'.c == s.c && OwnWrites(s') && TidyConn(src, conn)
    && (if s'.phase.Ended? then conn.place != InUse else Serves(conn, s'))
    && t'.pool.conns == t.pool.conns[s.c := conn]
    && t'.sessions == t.sessions[id := s']
  }

  lemma StatementIsOwnStep(src: Source, t: Traffic, e: Event)
    requires Enabled(t, e) && e.Statement? && OwnWrites(t.sessions[e.id])
    requires var conn := t.pool.conns[t.sessions[e.id].c]; TidyConn(src, conn) && Serves(conn, t.sessions[e.id])
    ensures |Apply(src, t, e).pool.conns| == |t.pool.conns| && OwnStep(src, t, Apply(src, t, e), e.id)
  {
  }

  lemma BodyEndIsOwnStep(src: Source, t: Traffic, e: Event)
    requires Enabled(t, e) && e.BodyEnds? && OwnWrites(t.sessions[e.id])
    requires var conn := t.pool.conns[t.sessions[e.id].c]; TidyConn(src, conn) && Serves(conn, t.sessions[e.id])
    ensures |Apply(src, t, e).pool.conns| == |t.pool.conns| && OwnStep(src, t, Apply(src, t, e), e.id)
  {
  }

  lemma ReturnIsOwnStep(src: Source, t: Traffic, e: Event)
    requires Enabled(t, e) && (e.Undo? || e.Clear? || e.Close?) && OwnWrites(t.sessions[e.id])
    requires var conn := t.pool.conns[t.sessions[e.id].c]; TidyConn(src, conn) && Serves(conn, t.sessions[e.id])
    ensures |Apply(src, t, e).pool.conns| == |t.pool.conns| && OwnStep(src, t, Apply(src, t, e), e.id)
  {
  }

  lemma OwnStepKeepsPool(src: Source, t: Traffic, t': Traffic, id: nat)
    requires PoolInv(src, t) && Active(t, id) && id in t'.sessions && |t.pool.conns| == |t'.pool.conns|
    requires OwnStep(src, t, t', id)
    ensures PoolInv(src, t')
  {
    var c := t.sessions[id].c;
    assert forall i :: i != id ==>
        (Active(t', i) <==> Active(t, i)) && (i in t.sessions ==> t'.sessions[i] == t.sessions[i]);
    forall k: nat | InUseAt(t'.pool, k) ensures Held(t', k) {
      if k == c {
        assert Active(t', id);
      } else {
        assert InUseAt(t.pool, k);
        var i :| Active(t, i) && t.sessions[i].c == k;
        assert Active(t', i) && t'.sessions[i].c == k;
      }
    }
  }

  lemma StepKeepsPool(src: Source, t: Traffic, e: Event)
    requires PoolInv(src, t) && Enabled(t, e)
    ensures PoolInv(src, Apply(src, t, e))
  {
    if e.Open? {
      OpenKeepsPool(src, t, e);
    } else {
      assert OwnWrites(t.sessions[e.id]) && TidyConn(src, t.pool.conns[t.sessions[e.id].c]);
      if e.Statement? {
        StatementIsOwnStep(src, t, e);
      } else if e.BodyEnds? {
        BodyEndIsOwnStep(src, t, e);
      } else {
        ReturnIsOwnStep(src, t, e);
      }
      OwnStepKeepsPool(src, t, Apply(src, t, e), e.id);
    }
  }

  // ---------- What is committed ----------

  /** The writes of the sessions in `commits`, one session after the other. */
  function Gathered(sessions: map<nat, Session>, commits: seq<nat>): seq<Entry>
    requires forall id <- commits :: id in sessions
    decreases |commits|
  {
    if commits == [] then []
    else
      var n := |commits| - 1;
      Gathered(sessions, commits[..n]) + sessions[commits[n]].writes
  }

  lemma {:induction false} GatheredStays(before: map<nat, Session>, after: map<nat, Session>, commits: seq<nat>)
    requires forall id <- commits :: id in before && id in after && after[id].writes == before[id].writes
    ensures Gathered(after, commits) == Gathered(before, commits)
    decreases |commits|
  {
    if commits == [] {
    } else {
      GatheredStays(before, after, commits[..|commits| - 1]);
    }
  }

  ghost predicate Distinct(ids: seq<nat>) {
    forall i, j :: 0 <= i < j < |ids| ==> ids[i] != ids[j]
  }

  ghost predicate CommitInv(t: Traffic) {
    && (forall id <- t.commits :: id in t.sessions && t.sessions[id].transactional && !t.sessions[id].phase.Working?)
    && Distinct(t.commits)
    && t.pool.committed == Gathered(t.sessions, t.commits)
  }

  lemma OpenKeepsCommits(src: Source, t: Traffic, e: Event)
    requires PoolInv(src, t) && CommitInv(t) && Enabled(t, e) && e.Open?
    ensures CommitInv(Apply(src, t, e))
  {
    BeginSpec(src, e.opts, Facing(t.pool, e.draw));
    GatheredStays(t.sessions, Apply(src, t, e).sessions, t.commits);
  }

  lemma CommitKeepsCommits(src: Source, t: Traffic, e: Event)
    requires PoolInv(src, t) && CommitInv(t) && Enabled(t, e) && e.BodyEnds?
    ensures CommitInv(Apply(src, t, e))
  {
    var t' := Apply(src, t, e);
    var s := t.sessions[e.id];
    assert Serves(t.pool.conns[s.c], s);
    GatheredStays(t.sessions, t'.sessions, t.commits);
    if t'.commits != t.commits {
      assert t'.commits[..|t'.commits| - 1] == t.commits && e.id !in t.commits;
    }
  }

  lemma StepKeepsCommits(src: Source, t: Traffic, e: Event)
    requires PoolInv(src, t) && CommitInv(t) && Enabled(t, e)
    ensures CommitInv(Apply(src, t, e))
  {
    if e.Open? {
      OpenKeepsCommits(src, t, e);
    } else if e.BodyEnds? {
      CommitKeepsCommits(src, t, e);
    } else {
      GatheredStays(t.sessions, Apply(src, t, e).sessions, t.commits);
    }
  }

  lemma {:induction false} RunsKeepInv(src: Source, t: Traffic, es: seq<Event>)
    requires PoolInv(src, t) && CommitInv(t) && ValidRun(src, t, es)
    ensures var end := RunFrom(src, t, es); PoolInv(src, end) && CommitInv(end)
    decreases |es|
  {
    if es == [] {
    } else {
      StepKeepsPool(src, t, es[0]);
      StepKeepsCommits(src, t, es[0]);
      RunsKeepInv(src, Apply(src, t, es[0]), es[1..]);
    }
  }

  // ---------- Main results ----------

  /**
   However calls overlap and whatever fails: a connection the pool can offer has an empty identifier
   on the server and no open work and has been closed once per borrow; one in use belongs to exactly
   one call, and the server knows it under that call's user or nobody.
   */
  lemma SharedPoolStaysClean(src: Source, es: seq<Event>, c: nat)
    requires ValidRun(src, START, es) && c < |RunFrom(src, START, es).pool.conns|
    ensures var t := RunFrom(src, START, es);
            var conn := t.pool.conns[c];
            match conn.place
            case Pooled => conn.server == "" && conn.client == "" && conn.pending == [] && conn.closes == conn.borrows
            case Gone => conn.closes == conn.borrows
            case InUse =>
              && conn.borrows == conn.closes + 1
              && (exists id :: Active(t, id) && t.sessions[id].c == c && conn.server in {"", t.sessions[id].user})
              && (forall i, j :: Active(t, i) && Active(t, j) && t.sessions[i].c == c && t.sessions[j].c == c ==>
                    i == j)
  {
    RunsKeepInv(src, START, es);
    var t := RunFrom(src, START, es);
    assert TidyConn(src, t.pool.conns[c]);
    if t.pool.conns[c].place == InUse {
      assert InUseAt(t.pool, c) && Held(t, c);
      var id :| Active(t, id) && t.sessions[id].c == c;
      assert Serves(t.pool.conns[c], t.sessions[id]);
    }
  }

  /**
   However calls overlap, what is committed is a sequence of whole transactions: the writes of each
   session whose commit took effect stand together, all of them, in the order it issued them and
   under its own user; no session is there twice, and nothing else is there.
   */
  lemma CommittedInWholeTransactions(src: Source, es: seq<Event>)
    requires ValidRun(src, START, es)
    ensures var t := RunFrom(src, START, es);
            && (forall id <- t.commits :: id in t.sessions && t.sessions[id].transactional)
            && Distinct(t.commits)
            && t.pool.committed == Gathered(t.sessions, t.commits)
            && forall id <- t.sessions :: OwnWrites(t.sessions[id])
  {
    RunsKeepInv(src, START, es);
  }

  /** No call can be stuck, and when all have ended nothing is borrowed. */
  lemma EveryCallCanEnd(src: Source, es: seq<Event>, id: nat)
    requires ValidRun(src, START, es)
    ensures var t := RunFrom(src, START, es);
            && (Active(t, id) ==> exists e: Event :: e.id == id && !e.Statement? && Enabled(t, e))
            && ((forall i :: !Active(t, i)) ==> NoneInUse(t.pool))
  {
    RunsKeepInv(src, START, es);
    var t := RunFrom(src, START, es);
    if Active(t, id) {
      match t.sessions[id].phase {
        case Working => assert Enabled(t, BodyEnds(id, true, FINE));
        case Undoing => assert Enabled(t, Undo(id, FINE));
        case Clearing => assert Enabled(t, Clear(id, FINE));
        case Closing(_) => assert Enabled(t, Close(id, FINE));
      }
    }
  }

  // ---------- The interpreter's calls are such sessions ----------

  /** The round trips that give a connection back, facing `w`. */
  function ReturnEvents(id: nat, hasUser: bool, w: World): seq<Event> {
    if hasUser then [Clear(id, Next(w)), Close(id, Next(Spent(w)))] else [Clear(id, FINE), Close(id, Next(w))]
  }

  /** The round trips that end a call whose body ended with `o`, facing `w`. */
  function EndEvents(id: nat, kind: Kind, hasUser: bool, o: Outcome, w: World): seq<Event> {
    if kind == WithConnection then [BodyEnds(id, true, FINE)] + ReturnEvents(id, hasUser, w)
    else if BodyOutcome(kind, o).Throw? then
      [BodyEnds(id, false, FINE)] + ([Undo(id, Next(w))] + ReturnEvents(id, hasUser, Spent(w)))
    else if Next(w).fate == Ok then [BodyEnds(id, true, Next(w))] + ReturnEvents(id, hasUser, Spent(w))
    else
      [BodyEnds(id, true, Next(w))] + ([Undo(id, Next(Spent(w)))] + ReturnEvents(id, hasUser, Spent(Spent(w))))
  }

  ghost predicate Reaches(src: Source, t: Traffic, es: seq<Event>, pool: World) {
    ValidRun(src, t, es) && RunFrom(src, t, es).pool == pool
  }

  lemma Then(src: Source, t: Traffic, e: Event, es: seq<Event>, pool: World)
    requires Enabled(t, e) && Reaches(src, Apply(src, t, e), es, pool)
    ensures Reaches(src, t, [e] + es, pool)
  {
    assert ([e] + es)[1..] == es;
  }

  lemma ReturnIsARun(src: Source, t: Traffic, id: nat, w: World)
    requires Active(t, id) && t.sessions[id].phase.Clearing? && t.sessions[id].c < |w.conns| && t.pool == Rest(w)
    ensures var (s, hasUser) := (t.sessions[id], t.sessions[id].user != "");
            Reaches(src, t, ReturnEvents(id, hasUser, w), Rest(Release(src, w, s.c, hasUser)))
  {
    var (s, hasUser) := (t.sessions[id], t.sessions[id].user != "");
    var es := ReturnEvents(id, hasUser, w);
    var t1 := Apply(src, t, es[0]);
    var t2 := Apply(src, t1, es[1]);
    assert t2.pool == Rest(Release(src, w, s.c, hasUser));
    Then(src, t1, es[1], [], t2.pool);
    Then(src, t, es[0], [es[1]] + [], t2.pool);
    assert es == [es[0]] + ([es[1]] + []);
  }

  lemma UndoIsARun(src: Source, t: Traffic, id: nat, w: World)
    requires Active(t, id) && t.sessions[id].phase.Undoing? && t.sessions[id].c < |w.conns| && t.pool == Rest(w)
    ensures var (s, hasUser) := (t.sessions[id], t.sessions[id].user != "");
            Reaches(src, t, [Undo(id, Next(w))] + ReturnEvents(id, hasUser, Spent(w)),
                    Rest(Release(src, RolledBack(w, s.c), s.c, hasUser)))
  {
    var (s, hasUser) := (t.sessions[id], t.sessions[id].user != "");
    var w1 := RolledBack(w, s.c);
    ReturnIsARun(src, Apply(src, t, Undo(id, Next(w))), id, w1);
    Then(src, t, Undo(id, Next(w)), ReturnEvents(id, hasUser, Spent(w)), Rest(Release(src, w1, s.c, hasUser)));
  }

  /** The run that ends a transaction whose body ended with `o` leads to where the interpreter does. */
  ghost predicate EndsAsARun(src: Source, t: Traffic, id: nat, kind: Kind, o: Outcome, w: World)
    requires Active(t, id) && t.sessions[id].c < |w.conns|
  {
    var (s, hasUser) := (t.sessions[id], t.sessions[id].user != "");
    Reaches(src, t, EndEvents(id, kind, hasUser, o, w),
            Rest(Release(src, Settle(w, s.c, BodyOutcome(kind, o)).1, s.c, hasUser)))
  }

  lemma ThrowIsARun(src: Source, t: Traffic, id: nat, kind: Kind, o: Outcome, w: World)
    requires Active(t, id) && t.sessions[id].phase.Working? && t.sessions[id].c < |w.conns| && t.pool == Rest(w)
    requires t.sessions[id].transactional && kind != WithConnection && BodyOutcome(kind, o).Throw?
    ensures EndsAsARun(src, t, id, kind, o, w)
  {
    var (s, hasUser) := (t.sessions[id], t.sessions[id].user != "");
    var e := BodyEnds(id, false, FINE);
    UndoIsARun(src, Apply(src, t, e), id, w);
    Then(src, t, e, [Undo(id, Next(w))] + ReturnEvents(id, hasUser, Spent(w)),
         Rest(Release(src, RolledBack(w, s.c), s.c, hasUser)));
  }

  lemma CommitIsARun(src: Source, t: Traffic, id: nat, kind: Kind, o: Outcome, w: World)
    requires Active(t, id) && t.sessions[id].phase.Working? && t.sessions[id].c < |w.conns| && t.pool == Rest(w)
    requires t.sessions[id].transactional && kind != WithConnection && BodyOutcome(kind, o).Return?
    requires Next(w).fate == Ok
    ensures EndsAsARun(src, t, id, kind, o, w)
  {
    var (s, hasUser) := (t.sessions[id], t.sessions[id].user != "");
    var e := BodyEnds(id, true, Next(w));
    var w1 := Committed(w, s.c);
    ReturnIsARun(src, Apply(src, t, e), id, w1);
    assert ReturnEvents(id, hasUser, w1) == ReturnEvents(id, hasUser, Spent(w));
    Then(src, t, e, ReturnEvents(id, hasUser, Spent(w)), Rest(Release(src, w1, s.c, hasUser)));
  }

  lemma FailedCommitIsARun(src: Source, t: Traffic, id: nat, kind: Kind, o: Outcome, w: World)
    requires Active(t, id) && t.sessions[id].phase.Working? && t.sessions[id].c < |w.conns| && t.pool == Rest(w)
    requires t.sessions[id].transactional && kind != WithConnection && BodyOutcome(kind, o).Return?
    requires Next(w).fate != Ok
    ensures EndsAsARun(src, t, id, kind, o, w)
  {
    var (s, hasUser) := (t.sessions[id], t.sessions[id].user != "");
    var e := BodyEnds(id, true, Next(w));
    var w1 := Committed(w, s.c);
    UndoIsARun(src, Apply(src, t, e), id, w1);
    var rest := [Undo(id, Next(Spent(w)))] + ReturnEvents(id, hasUser, Spent(Spent(w)));
    assert [Undo(id, Next(w1))] + ReturnEvents(id, hasUser, Spent(w1)) == rest;
    Then(src, t, e, rest, Rest(Release(src, RolledBack(w1, s.c), s.c, hasUser)));
  }

  lemma TransactionEndIsARun(src: Source, t: Traffic, id: nat, kind: Kind, o: Outcome, w: World)
    requires Active(t, id) && t.sessions[id].phase.Working? && t.sessions[id].c < |w.conns| && t.pool == Rest(w)
    requires t.sessions[id].transactional && kind != WithConnection
    ensures EndsAsARun(src, t, id, kind, o, w)
  {
    if BodyOutcome(kind, o).Throw? {
      ThrowIsARun(src, t, id, kind, o, w);
    } else if Next(w).fate == Ok {
      CommitIsARun(src, t, id, kind, o, w);
    } else {
      FailedCommitIsARun(src, t, id, kind, o, w);
    }
  }

  /**
   What the interpreter does at the end of a call is a run of its session: settle, undo if need be,
   clear, close. So every interleaving of such calls, one round trip at a time, is covered above.
   */
  lemma FinishIsARun(src: Source, t: Traffic, id: nat, kind: Kind, opts: Options, o: Outcome, w: World)
    requires Active(t, id) && t.sessions[id].phase.Working? && t.sessions[id].c < |w.conns| && t.pool == Rest(w)
    requires t.sessions[id].transactional == (kind != WithConnection)
    ensures var (s, hasUser) := (t.sessions[id], t.sessions[id].user != "");
            Reaches(src, t, EndEvents(id, kind, hasUser, o, w), Rest(Finish(src, kind, opts, s.c, hasUser, o, w).1))
  {
    if kind == WithConnection {
      var (s, hasUser) := (t.sessions[id], t.sessions[id].user != "");
      ReturnIsARun(src, Apply(src, t, BodyEnds(id, true, FINE)), id, w);
      Then(src, t, BodyEnds(id, true, FINE), ReturnEvents(id, hasUser, w), Rest(Release(src, w, s.c, hasUser)));
    } else {
      TransactionEndIsARun(src, t, id, kind, o, w);
    }
  }
}
