/**
 What every program keeps, whatever its round trips do: pooled connections are clean, borrowed
 ones are given back once, and a unit's writes are committed together or not at all.
 */
module DatabaseProofs {
  import opened Wrappers
  import opened ErrorMapper
  import opened DatabaseModel
  import ContextUser
  import opened Text

  predicate InUseAt(w: World, i: nat) {
    i < |w.conns| && w.conns[i].place == InUse
  }

  /** A pooled connection carries nobody's identity and no open work; each borrow is closed once. */
  predicate TidyConn(src: Source, conn: Conn) {
    match conn.place
    case InUse => conn.borrows == conn.closes + 1
    case Gone => conn.borrows == conn.closes
    case Pooled =>
      && conn.client == "" && conn.server == "" && conn.pending == []
      && conn.borrows == conn.closes
      && (conn.callTimeout == src.callTimeoutMs || conn.callTimeout == 0)
  }

  ghost predicate Tidy(src: Source, w: World) {
    forall i :: 0 <= i < |w.conns| ==> TidyConn(src, w.conns[i])
  }

  predicate Touches(env: Env, i: nat) {
    env.handle == Some(i) || env.ambient == Some(i)
  }

  ghost predicate Live(env: Env, w: World) {
    forall i: nat :: Touches(env, i) ==> InUseAt(w, i)
  }

  /** `b` is `a` after some more writes, all in the open transaction and under `a`'s identity. */
  ghost predicate Wrote(a: Conn, b: Conn) {
    && b == a.(server := b.server, log := b.log, pending := b.pending)
    && (b.server == a.server || b.server == a.client)
    && a.log <= b.log
    && b.pending == a.pending + b.log[|a.log|..]
    && (forall k :: |a.log| <= k < |b.log| ==> b.log[k].user == a.client)
  }

  lemma WroteTwice(a: Conn, b: Conn, c: Conn)
    requires Wrote(a, b) && Wrote(b, c)
    ensures Wrote(a, c)
  {
    assert c.log[|a.log|..] == b.log[|a.log|..] + c.log[|b.log|..];
    assert a.pending + (b.log[|a.log|..] + c.log[|b.log|..]) == a.pending + b.log[|a.log|..] + c.log[|b.log|..];
    forall k | |a.log| <= k < |c.log| ensures c.log[k].user == a.client {
      assert k < |b.log| ==> c.log[k] == b.log[k];
    }
  }

  /** Connections in use stay in use; only those of `env` are written to; no other is left in use. */
  ghost predicate Steady(env: Env, w: World, w': World) {
    && |w.conns| <= |w'.conns|
    && (forall i: nat :: InUseAt(w, i) ==>
          if Touches(env, i) then Wrote(w.conns[i], w'.conns[i]) else w'.conns[i] == w.conns[i])
    && (forall i: nat :: InUseAt(w', i) ==> InUseAt(w, i))
    && w.committed <= w'.committed
    && (env.ambient.Some? ==>
          && w'.committed == w.committed && w'.borrowed == w.borrowed && |w'.conns| == |w.conns|
          && forall i :: 0 <= i < |w.conns| && !InUseAt(w, i) ==> w'.conns[i] == w.conns[i])
  }

  lemma SteadyTwice(env: Env, w: World, w1: World, w2: World)
    requires Live(env, w) && Steady(env, w, w1) && Steady(env, w1, w2)
    ensures Steady(env, w, w2)
  {
    forall i: nat | InUseAt(w, i)
      ensures if Touches(env, i) then Wrote(w.conns[i], w2.conns[i]) else w2.conns[i] == w.conns[i]
    {
      assert InUseAt(w1, i);
      if Touches(env, i) {
        WroteTwice(w.conns[i], w1.conns[i], w2.conns[i]);
      }
    }
  }

  lemma SteadyKeepsLive(env: Env, w: World, w': World)
    requires Live(env, w) && Steady(env, w, w')
    ensures Live(env, w') && InRange(env, w')
  {
    assert env.handle.Some? ==> Touches(env, env.handle.value);
    assert env.ambient.Some? ==> Touches(env, env.ambient.value);
    forall i: nat | Touches(env, i) ensures InUseAt(w', i) {
      assert InUseAt(w, i);
    }
  }

  lemma LiveInRange(env: Env, w: World)
    requires Live(env, w)
    ensures InRange(env, w)
  {
    assert env.handle.Some? ==> Touches(env, env.handle.value);
    assert env.ambient.Some? ==> Touches(env, env.ambient.value);
  }

  lemma ExecuteSteady(src: Source, env: Env, w: World, c: nat, write: int)
    requires Tidy(src, w) && InUseAt(w, c) && env.handle == Some(c)
    ensures var w' := Execute(w, c, write).1; Steady(env, w, w') && Tidy(src, w')
  {
    var w' := Execute(w, c, write).1;
    assert Touches(env, c);
    assert Wrote(w.conns[c], w'.conns[c]) by {
      var a, b := w.conns[c], w'.conns[c];
      assert b.pending == a.pending + b.log[|a.log|..];
    }
    forall i | 0 <= i < |w'.conns| ensures TidyConn(src, w'.conns[i]) {
      assert i != c ==> w'.conns[i] == w.conns[i];
    }
  }

  /** A begun call holds a clean connection nobody else uses, under its own identity. */
  lemma BeginSpec(src: Source, opts: Options, w: World)
    requires Tidy(src, w)
    ensures var b := Begin(src, opts, w);
            && Tidy(src, b.w) && b.w.committed == w.committed
            && (b.Refused? ==> b.w.conns == w.conns && b.w.borrowed == w.borrowed && !b.error.RollbackWithResult?)
            && (b.Opened? ==>
                  && b.w.borrowed == w.borrowed + 1
                  && !InUseAt(w, b.c) && InUseAt(b.w, b.c)
                  && |w.conns| <= |b.w.conns|
                  && (forall i :: 0 <= i < |b.w.conns| && i != b.c ==> i < |w.conns| && b.w.conns[i] == w.conns[i])
                  && var conn := b.w.conns[b.c];
                     && conn.client == UserOf(src, opts).GetOr("")
                     && conn.server == "" && conn.log == [] && conn.pending == []
                     && b.hasUser == UserOf(src, opts).Some?)
  {
  }

  /** The end of a call: its connection is tidy and out of use, and no other changes. */
  lemma FinishSpec(src: Source, kind: Kind, opts: Options, c: nat, hasUser: bool, o: Outcome, w: World)
    requires Tidy(src, w) && InUseAt(w, c)
    requires w.conns[c].server == "" || w.conns[c].server == w.conns[c].client
    requires !hasUser ==> w.conns[c].client == ""
    ensures var (o', w') := Finish(src, kind, opts, c, hasUser, o, w);
            && Tidy(src, w') && !InUseAt(w', c)
            && |w'.conns| == |w.conns| && w'.borrowed == w.borrowed
            && (forall i :: 0 <= i < |w.conns| && i != c ==> w'.conns[i] == w.conns[i])
            && w'.conns[c].log == w.conns[c].log
            && w'.committed == w.committed +
                 (if kind != WithConnection && BodyOutcome(kind, o).Return? && TookEffect(Next(w).fate)
                  then w.conns[c].pending else [])
  {
    var w1 := if kind == WithConnection then w else Settle(w, c, BodyOutcome(kind, o)).1;
    if kind != WithConnection {
      SettleSpec(w, c, BodyOutcome(kind, o));
    }
    ReleaseSpec(src, w1, c, hasUser);
    var w' := Finish(src, kind, opts, c, hasUser, o, w).1;
    forall i | 0 <= i < |w'.conns| ensures TidyConn(src, w'.conns[i]) {
      assert i != c ==> w'.conns[i] == w.conns[i];
    }
  }

  /** Committing or rolling back changes the connection's transaction and nothing else about the pool. */
  lemma SettleSpec(w: World, c: nat, o: Outcome)
    requires c < |w.conns|
    ensures var w' := Settle(w, c, o).1;
            && |w'.conns| == |w.conns| && w'.borrowed == w.borrowed
            && (forall i :: 0 <= i < |w.conns| && i != c ==> w'.conns[i] == w.conns[i])
            && var a, b := w.conns[c], w'.conns[c];
               && b == a.(server := b.server, pending := b.pending)
               && (b.server == a.server || b.server == a.client)
               && w'.committed == w.committed + (if o.Return? && TookEffect(Next(w).fate) then a.pending else [])
               && (TookEffect(Next(w).fate) || (o.Return? && TookEffect(Next(Spent(w)).fate)) ==> b.pending == [])
  {
  }

  lemma ReleaseSpec(src: Source, w: World, c: nat, hasUser: bool)
    requires InUseAt(w, c) && w.conns[c].borrows == w.conns[c].closes + 1
    requires w.conns[c].server == "" || w.conns[c].server == w.conns[c].client
    requires !hasUser ==> w.conns[c].client == ""
    ensures var w' := Release(src, w, c, hasUser);
            && |w'.conns| == |w.conns| && TidyConn(src, w'.conns[c]) && !InUseAt(w', c)
            && (forall i :: 0 <= i < |w.conns| && i != c ==> w'.conns[i] == w.conns[i])
            && w'.conns[c].log == w.conns[c].log
            && w'.committed == w.committed && w'.borrowed == w.borrowed
  {
  }

  /**
   A connection goes back to the pool if and only if its user, if it had one, was cleared on the server
   for certain and closing it took effect; otherwise it is dropped.
   */
  lemma GivenBackIff(src: Source, w: World, c: nat, hasUser: bool)
    requires c < |w.conns|
    ensures var clearing, closing := Next(w), if hasUser then Next(Spent(w)) else Next(w);
            Release(src, w, c, hasUser).conns[c].place ==
            if (hasUser ==> clearing.fate == Ok) && TookEffect(closing.fate) then Pooled else Gone
  {
  }

  /** No call inherits another call's timeout: it has its own, or the source's, or none if the source has none. */
  lemma TimeoutIsOwn(src: Source, opts: Options, w: World)
    requires Tidy(src, w) && Begin(src, opts, w).Opened?
    ensures var b := Begin(src, opts, w);
            var timeout := b.w.conns[b.c].callTimeout;
            match opts.callTimeoutMs
            case Some(ms) => if ms > 0 then timeout == ms else timeout == src.callTimeoutMs || timeout == 0
            case None => timeout == src.callTimeoutMs
  {
    var offered := Offered(w, Next(w).pick);
    assert offered.0 < |w.conns| ==> TidyConn(src, w.conns[offered.0]);
  }

  /**
   A call is refused without touching the pool if and only if the source requires a user and none is
   named; and otherwise if and only if the pool has no connection, with the pool's error inside.
   */
  lemma RefusedIff(src: Source, opts: Options, w: World)
    ensures var b := Begin(src, opts, w);
            var nobody := src.policy.enabled && src.policy.required
                          && ContextUser.GivenName(opts.contextUser, opts.username) == "";
            && (b.Refused? <==> nobody || Next(w).fate != Ok)
            && (nobody ==> b == Refused(UnauthorizedError(src.key), w))
            && (b.Refused? && !nobody ==> b == Refused(ConnectionError(src.key, Next(w).error), Spent(w)))
  {
  }

  /** A whole call on its own connection is steady for its caller when its body is. */
  lemma CallSteady(src: Source, kind: Kind, opts: Options, env: Env, w: World, o: Outcome, w2: World)
    requires Tidy(src, w) && Live(env, w) && env.ambient == None
    requires Begin(src, opts, w).Opened?
    requires var b := Begin(src, opts, w); Steady(OwnEnv(kind, env, b.c), b.w, w2) && Tidy(src, w2)
    ensures var b := Begin(src, opts, w);
            && InUseAt(w2, b.c) && Wrote(b.w.conns[b.c], w2.conns[b.c])
            && var w' := Finish(src, kind, opts, b.c, b.hasUser, o, w2).1;
               Steady(env, w, w') && Tidy(src, w')
  {
    var b := Begin(src, opts, w);
    BeginSpec(src, opts, w);
    var own := OwnEnv(kind, env, b.c);
    assert Touches(own, b.c) && InUseAt(b.w, b.c);
    FinishSpec(src, kind, opts, b.c, b.hasUser, o, w2);
    var w' := Finish(src, kind, opts, b.c, b.hasUser, o, w2).1;
    forall i: nat | InUseAt(w, i)
      ensures if Touches(env, i) then Wrote(w.conns[i], w'.conns[i]) else w'.conns[i] == w.conns[i]
    {
      assert i != b.c && InUseAt(b.w, i) && b.w.conns[i] == w.conns[i];
      assert Touches(own, i) ==> Touches(env, i);
      assert w'.conns[i] == w2.conns[i];
    }
    forall i: nat | InUseAt(w', i) ensures InUseAt(w, i) {
      assert i != b.c && InUseAt(w2, i) && InUseAt(b.w, i);
    }
  }

  /** Main invariant: every program is steady and keeps the pool tidy. */
  lemma {:induction false} EvalSteady(src: Source, p: Prog, env: Env, w: World)
    requires Tidy(src, w) && Live(env, w) && InRange(env, w)
    ensures var w' := Eval(src, p, env, w).1; Steady(env, w, w') && Tidy(src, w')
    decreases p, 0
  {
    match p {
      case Give(_) =>
      case Raise(_) =>
      case Write(x) =>
        if env.handle.Some? {
          assert Touches(env, env.handle.value);
          ExecuteSteady(src, env, w, env.handle.value, x);
        }
      case Seq(first, second) =>
        EvalSteady(src, first, env, w);
        var (o, w1) := Eval(src, first, env, w);
        SteadyKeepsLive(env, w, w1);
        if o.Return? {
          EvalSteady(src, second, env, w1);
          SteadyTwice(env, w, w1, Eval(src, second, env, w1).1);
        }
      case TryCatch(body, handler) =>
        EvalSteady(src, body, env, w);
        var (o, w1) := Eval(src, body, env, w);
        SteadyKeepsLive(env, w, w1);
        if o.Throw? {
          EvalSteady(src, handler, env, w1);
          SteadyTwice(env, w, w1, Eval(src, handler, env, w1).1);
        }
      case Call(kind, opts, body) =>
        if env.ambient.Some? {
          JoinedSteady(src, kind, body, env, w);
        } else {
          OwnSteady(src, kind, opts, body, env, w);
        }
    }
  }

  /** A call on its own connection is its beginning, its body and its end. */
  lemma OwnCallInParts(src: Source, kind: Kind, opts: Options, body: Prog, env: Env, w: World)
    requires env.ambient == None && InRange(env, w) && Begin(src, opts, w).Opened?
    requires var b := Begin(src, opts, w); InRange(OwnEnv(kind, env, b.c), b.w)
    ensures var b := Begin(src, opts, w);
            var (inner, w2) := Eval(src, body, OwnEnv(kind, env, b.c), b.w);
            Eval(src, Call(kind, opts, body), env, w) == Finish(src, kind, opts, b.c, b.hasUser, inner, w2)
  {
    var b := Begin(src, opts, w);
    assert b == Opened(b.c, b.w, b.hasUser);
    var (inner, w2) := Eval(src, body, OwnEnv(kind, env, b.c), b.w);
    var (o, w') := Finish(src, kind, opts, b.c, b.hasUser, inner, w2);
    assert Eval(src, Call(kind, opts, body), env, w) == (o, w');
  }

  lemma RefusedSteady(src: Source, opts: Options, env: Env, w: World)
    requires Tidy(src, w) && Live(env, w) && env.ambient == None && Begin(src, opts, w).Refused?
    ensures var w' := Begin(src, opts, w).w; Steady(env, w, w') && Tidy(src, w')
  {
    BeginSpec(src, opts, w);
  }

  lemma {:induction false} OwnSteady(src: Source, kind: Kind, opts: Options, body: Prog, env: Env, w: World)
    requires Tidy(src, w) && Live(env, w) && InRange(env, w) && env.ambient == None
    ensures var w' := Eval(src, Call(kind, opts, body), env, w).1; Steady(env, w, w') && Tidy(src, w')
    decreases body, 1
  {
    var b := Begin(src, opts, w);
    if b.Opened? {
      BorrowKeepsLive(src, kind, opts, env, w);
      OwnCallInParts(src, kind, opts, body, env, w);
      BeginKeepsTidy(src, opts, w);
      EvalSteady(src, body, OwnEnv(kind, env, b.c), b.w);
      var (o, w2) := Eval(src, body, OwnEnv(kind, env, b.c), b.w);
      CallSteady(src, kind, opts, env, w, o, w2);
    } else {
      RefusedSteady(src, opts, env, w);
    }
  }

  lemma BeginKeepsTidy(src: Source, opts: Options, w: World)
    requires Tidy(src, w)
    ensures Tidy(src, Begin(src, opts, w).w)
  {
    BeginSpec(src, opts, w);
  }

  lemma {:induction false} JoinedSteady(src: Source, kind: Kind, body: Prog, env: Env, w: World)
    requires Tidy(src, w) && Live(env, w) && InRange(env, w) && env.ambient.Some?
    ensures var w' := Eval(src, body, JoinedEnv(kind, env), w).1; Steady(env, w, w') && Tidy(src, w')
    decreases body, 1
  {
    var joined := JoinedEnv(kind, env);
    assert forall i: nat :: Touches(joined, i) ==> Touches(env, i);
    EvalSteady(src, body, joined, w);
    var w' := Eval(src, body, joined, w).1;
    forall i: nat | InUseAt(w, i)
      ensures if Touches(env, i) then Wrote(w.conns[i], w'.conns[i]) else w'.conns[i] == w.conns[i]
    {
    }
  }

  lemma BorrowKeepsLive(src: Source, kind: Kind, opts: Options, env: Env, w: World)
    requires Tidy(src, w) && Live(env, w) && env.ambient == None && Begin(src, opts, w).Opened?
    ensures var b := Begin(src, opts, w);
            Live(OwnEnv(kind, env, b.c), b.w) && InRange(OwnEnv(kind, env, b.c), b.w)
  {
    BeginSpec(src, opts, w);
    var b := Begin(src, opts, w);
    forall i: nat | Touches(OwnEnv(kind, env, b.c), i) ensures InUseAt(b.w, i) {
      if i != b.c {
        assert Touches(env, i) && InUseAt(w, i);
      }
    }
    LiveInRange(OwnEnv(kind, env, b.c), b.w);
  }

  // ---------- Main results ----------

  ghost predicate NoneInUse(w: World) {
    forall i: nat :: !InUseAt(w, i)
  }

  lemma TopCallEndsClean(src: Source, p: Prog, w: World)
    requires Tidy(src, w) && NoneInUse(w)
    ensures Live(TOP, w)
    ensures var w' := Eval(src, p, TOP, w).1; Tidy(src, w') && NoneInUse(w') && w.committed <= w'.committed
  {
    assert Live(TOP, w);
    EvalSteady(src, p, TOP, w);
    var w' := Eval(src, p, TOP, w).1;
    forall i: nat ensures !InUseAt(w', i) {
      assert !InUseAt(w, i);
    }
  }

  /** One top-level call after another. */
  function RunAll(src: Source, ps: seq<Prog>, w: World): World
    decreases |ps|
  {
    if ps == [] then w else RunAll(src, ps[1..], Eval(src, ps[0], TOP, w).1)
  }

  /**
   Whatever fails, after any number of programs no connection is still borrowed, each borrow was
   closed exactly once, and every connection the pool can offer has an empty identifier on the
   server and no open work.
   */
  lemma {:induction false} PoolStaysClean(src: Source, ps: seq<Prog>, w: World)
    requires Tidy(src, w) && NoneInUse(w)
    ensures var w' := RunAll(src, ps, w);
            forall i :: 0 <= i < |w'.conns| ==>
              var conn := w'.conns[i];
              && conn.place != InUse && conn.closes == conn.borrows
              && (conn.place == Pooled ==> conn.server == "" && conn.client == "" && conn.pending == [])
    decreases |ps|
  {
    if ps == [] {
      forall i | 0 <= i < |w.conns| ensures TidyConn(src, w.conns[i]) && !InUseAt(w, i) {
      }
    } else {
      TopCallEndsClean(src, ps[0], w);
      var w1 := Eval(src, ps[0], TOP, w).1;
      PoolStaysClean(src, ps[1..], w1);
      assert RunAll(src, ps, w) == RunAll(src, ps[1..], w1);
    }
  }

  /** The call opens a transaction that everything inside joins. */
  predicate OpensUnit(kind: Kind) {
    kind == RunInTransaction || kind == UnitOfWork
  }

  /** The body ended well and its commit took effect. */
  predicate Commits(kind: Kind, inner: Outcome, w: World) {
    BodyOutcome(kind, inner).Return? && TookEffect(Next(w).fate)
  }

  /** Each of the connection's writes ran under the user of the call with these options, or under none. */
  predicate LoggedUnder(src: Source, opts: Options, conn: Conn) {
    forall k :: 0 <= k < |conn.log| ==> conn.log[k].user == UserOf(src, opts).GetOr("")
  }

  /**
   All or nothing. The outermost unit borrows one connection whatever runs inside it; nothing is
   committed before its end; then all the writes issued on that connection are, in order, or none
   is, depending on how the body ended and on the commit alone; each ran under the unit's user.
   */
  lemma UnitIsAllOrNothing(src: Source, kind: Kind, opts: Options, body: Prog, env: Env, w: World)
    requires OpensUnit(kind) && env.ambient == None
    requires Tidy(src, w) && Live(env, w) && InRange(env, w)
    ensures var (o, w') := Eval(src, Call(kind, opts, body), env, w);
            var b := Begin(src, opts, w);
            && (b.Refused? ==> o == Throw(b.error) && w'.committed == w.committed && w'.borrowed == w.borrowed)
            && (b.Opened? ==>
                  && InRange(OwnEnv(kind, env, b.c), b.w)
                  && var (inner, w2) := Eval(src, body, OwnEnv(kind, env, b.c), b.w);
                     && w'.borrowed == w.borrowed + 1
                     && w2.committed == w.committed
                     && b.c < |w'.conns|
                     && w'.committed == w.committed + (if Commits(kind, inner, w2) then w'.conns[b.c].log else [])
                     && LoggedUnder(src, opts, w'.conns[b.c]))
  {
    BeginSpec(src, opts, w);
    var b := Begin(src, opts, w);
    if b.Opened? {
      BorrowKeepsLive(src, kind, opts, env, w);
      var own := OwnEnv(kind, env, b.c);
      EvalSteady(src, body, own, b.w);
      var (inner, w2) := Eval(src, body, own, b.w);
      OwnCallInParts(src, kind, opts, body, env, w);
      OwnUnitEnds(src, kind, opts, env, w, inner, w2);
    }
  }

  lemma OwnUnitEnds(src: Source, kind: Kind, opts: Options, env: Env, w: World, inner: Outcome, w2: World)
    requires OpensUnit(kind) && env.ambient == None && Tidy(src, w) && Live(env, w)
    requires Begin(src, opts, w).Opened?
    requires var b := Begin(src, opts, w); Steady(OwnEnv(kind, env, b.c), b.w, w2) && Tidy(src, w2)
    ensures var b := Begin(src, opts, w);
            && w2.committed == w.committed && b.c < |w2.conns|
            && var w' := Finish(src, kind, opts, b.c, b.hasUser, inner, w2).1;
               && w'.borrowed == w.borrowed + 1
               && w'.committed == w.committed + (if Commits(kind, inner, w2) then w'.conns[b.c].log else [])
               && LoggedUnder(src, opts, w'.conns[b.c])
  {
    BeginSpec(src, opts, w);
    var b := Begin(src, opts, w);
    CallSteady(src, kind, opts, env, w, inner, w2);
    FinishSpec(src, kind, opts, b.c, b.hasUser, inner, w2);
    assert w2.conns[b.c].pending == w2.conns[b.c].log;
  }

  /** The caller of an outermost unit is told that its work is done. */
  predicate Confirmed(kind: Kind, o: Outcome) {
    o.Return? && (kind == UnitOfWork ==> o.value.Plain?)
  }

  /**
   The caller is told so if and only if the body ended well and its commit was confirmed, and then
   gets the body's value; everything is committed and yet the caller is not told, if and only if
   the body ended well and the reply to a commit that took effect was lost.
   */
  lemma ReturnsIffConfirmed(src: Source, kind: Kind, opts: Options, body: Prog, env: Env, w: World)
    requires OpensUnit(kind) && env.ambient == None && Tidy(src, w) && Live(env, w) && InRange(env, w)
    ensures var (o, w') := Eval(src, Call(kind, opts, body), env, w);
            var b := Begin(src, opts, w);
            && (b.Refused? ==> o.Throw?)
            && (b.Opened? ==>
                  && InRange(OwnEnv(kind, env, b.c), b.w)
                  && var (inner, w2) := Eval(src, body, OwnEnv(kind, env, b.c), b.w);
                     && (Confirmed(kind, o) <==> BodyOutcome(kind, inner).Return? && Next(w2).fate == Ok)
                     && (Confirmed(kind, o) ==>
                           o == inner && b.c < |w'.conns| && w'.committed == w.committed + w'.conns[b.c].log)
                     && (Commits(kind, inner, w2) && !Confirmed(kind, o) <==>
                         BodyOutcome(kind, inner).Return? && Next(w2).fate == Applied)
                     && (w'.committed != w.committed ==> Commits(kind, inner, w2)))
  {
    UnitIsAllOrNothing(src, kind, opts, body, env, w);
  }

  /** It happens: the commit takes effect, its reply is lost, and the caller gets an error for committed work. */
  lemma LostCommitReply(src: Source, opts: Options)
    requires !src.policy.enabled
    ensures var lost := Driver(Some("NJS-500"), None);
            var w := World([], [], [FINE, FINE, Draw(Applied, lost, 0)], 0);
            var (o, w') := Eval(src, Call(RunInTransaction, opts, Call(WithConnection, opts, Write(7))), TOP, w);
            o == Throw(ConnectionError(src.key, lost)) && w'.committed == [Entry(7, "")]
  {
    var lost := Driver(Some("NJS-500"), None);
    var draws := [FINE, FINE, Draw(Applied, lost, 0)];
    assert draws[1..] == [FINE, Draw(Applied, lost, 0)] && draws[1..][1..] == [Draw(Applied, lost, 0)];
    var w := World([], [], draws, 0);
    var b := Begin(src, opts, w);
    var own := OwnEnv(RunInTransaction, TOP, b.c);
    var write := Call(WithConnection, opts, Write(7));
    assert b.Opened? && b.c == 0 && b.w.conns[0].client == "";
    assert Eval(src, write, own, b.w) == Execute(b.w, 0, 7);
    var w2 := Execute(b.w, 0, 7).1;
    assert Next(w2).fate == Applied && w2.conns[0].pending == [Entry(7, "")] && w2.committed == [];
  }

  /**
   Inside a unit nothing commits, rolls back or borrows: whatever calls the program makes, they
   only add writes to the connections in scope, and no other connection changes.
   */
  lemma JoinedCallsOnlyWrite(src: Source, p: Prog, env: Env, w: World)
    requires env.ambient.Some? && Tidy(src, w) && Live(env, w) && InRange(env, w)
    ensures var w' := Eval(src, p, env, w).1;
            var c := env.ambient.value;
            && w'.committed == w.committed && w'.borrowed == w.borrowed && |w'.conns| == |w.conns|
            && Wrote(w.conns[c], w'.conns[c])
            && forall i :: 0 <= i < |w.conns| && !Touches(env, i) ==> w'.conns[i] == w.conns[i]
  {
    EvalSteady(src, p, env, w);
    assert Touches(env, env.ambient.value);
  }

  /**
   A joined call is given the unit's connection, whatever connection its caller holds: everything its
   body writes is written there, and no other connection changes.
   */
  lemma JoinedCallUsesUnitsConnection(src: Source, kind: Kind, opts: Options, body: Prog, env: Env, w: World)
    requires env.ambient.Some? && GivesHandle(kind) && Tidy(src, w) && Live(env, w) && InRange(env, w)
    ensures var w' := Eval(src, Call(kind, opts, body), env, w).1;
            var c := env.ambient.value;
            && |w'.conns| == |w.conns| && Wrote(w.conns[c], w'.conns[c])
            && forall i :: 0 <= i < |w.conns| && i != c ==> w'.conns[i] == w.conns[i]
  {
    var own := Env(env.ambient, env.ambient);
    assert forall i: nat :: Touches(own, i) ==> Touches(env, i);
    EvalSteady(src, body, own, w);
    var w' := Eval(src, body, own, w).1;
    assert Touches(own, env.ambient.value) && InUseAt(w, env.ambient.value);
    forall i | 0 <= i < |w.conns| && i != env.ambient.value ensures w'.conns[i] == w.conns[i] {
      assert !Touches(own, i);
    }
  }

  /** In particular a single write of such a call is the next one in the unit's open work. */
  lemma JoinedWriteIsTheUnits(src: Source, kind: Kind, opts: Options, write: int, env: Env, w: World)
    requires env.ambient.Some? && GivesHandle(kind) && InRange(env, w) && Next(w).fate == Ok
    ensures var (o, w') := Eval(src, Call(kind, opts, Write(write)), env, w);
            var (before, after) := (w.conns[env.ambient.value], w'.conns[env.ambient.value]);
            && o == Return(Plain(write))
            && after.pending == before.pending + [Entry(write, before.client)]
            && after.log == before.log + [Entry(write, before.client)]
  {
  }

  /** The first write on a connection just borrowed is all there is on it, under the call's user. */
  lemma FirstWrite(src: Source, opts: Options, write: int, w: World)
    requires Tidy(src, w) && Begin(src, opts, w).Opened? && Next(Begin(src, opts, w).w).fate == Ok
    ensures var b := Begin(src, opts, w);
            var (o, w1) := Execute(b.w, b.c, write);
            var (conn, entry) := (w1.conns[b.c], Entry(write, UserOf(src, opts).GetOr("")));
            && o == Return(Plain(write)) && Tidy(src, w1) && InUseAt(w1, b.c) && w1.committed == w.committed
            && conn.log == [entry] && conn.pending == [entry]
            && conn.client == UserOf(src, opts).GetOr("") && conn.server == conn.client
            && forall i :: 0 <= i < |w1.conns| && i != b.c ==> i < |w.conns| && w1.conns[i] == w.conns[i]
  {
    BeginSpec(src, opts, w);
    var b := Begin(src, opts, w);
    ExecuteSteady(src, Env(Some(b.c), None), b.w, b.c, write);
  }

  /** The end of a call whose body returned a plain value and whose commit, if it has one, goes well. */
  lemma PlainFinish(src: Source, kind: Kind, opts: Options, c: nat, hasUser: bool, n: int, w: World)
    requires GivesHandle(kind) && c < |w.conns| && Next(w).fate == Ok
    ensures Finish(src, kind, opts, c, hasUser, Return(Plain(n)), w).0 == Return(Plain(n))
  {
  }

  /** A call outside a unit writes on the connection it borrowed, and only a transaction commits what it wrote. */
  lemma OwnWriteIsItsOwn(src: Source, kind: Kind, opts: Options, write: int, env: Env, w: World)
    requires env.ambient == None && GivesHandle(kind) && Tidy(src, w) && InRange(env, w)
    requires var b := Begin(src, opts, w);
             b.Opened? && Next(b.w).fate == Ok && Next(Spent(b.w)).fate == Ok
    ensures var (o, w') := Eval(src, Call(kind, opts, Write(write)), env, w);
            var b := Begin(src, opts, w);
            var entry := Entry(write, UserOf(src, opts).GetOr(""));
            && o == Return(Plain(write))
            && b.c < |w'.conns| && w'.conns[b.c].log == [entry]
            && w'.committed == w.committed + (if kind == Transaction then [entry] else [])
            && forall i :: 0 <= i < |w.conns| && i != b.c ==> w'.conns[i] == w.conns[i]
  {
    OwnWriteExecutes(src, kind, opts, write, env, w);
    OwnCallInParts(src, kind, opts, Write(write), env, w);
    FirstWrite(src, opts, write, w);
    OwnWriteEnds(src, kind, opts, write, w);
  }

  lemma OwnWriteEnds(src: Source, kind: Kind, opts: Options, write: int, w: World)
    requires GivesHandle(kind) && Tidy(src, w)
    requires var b := Begin(src, opts, w);
             b.Opened? && Next(b.w).fate == Ok && Next(Spent(b.w)).fate == Ok
    ensures var b := Begin(src, opts, w);
            var entry := Entry(write, UserOf(src, opts).GetOr(""));
            var (o, w') := Finish(src, kind, opts, b.c, b.hasUser, Return(Plain(write)), Execute(b.w, b.c, write).1);
            && o == Return(Plain(write))
            && b.c < |w'.conns| && w'.conns[b.c].log == [entry]
            && w'.committed == w.committed + (if kind == Transaction then [entry] else [])
            && |w.conns| <= |w'.conns|
            && forall i :: 0 <= i < |w.conns| && i != b.c ==> w'.conns[i] == w.conns[i]
  {
    var b := Begin(src, opts, w);
    FirstWrite(src, opts, write, w);
    var w1 := Execute(b.w, b.c, write).1;
    PlainFinish(src, kind, opts, b.c, b.hasUser, write, w1);
    FinishSpec(src, kind, opts, b.c, b.hasUser, Return(Plain(write)), w1);
  }

  lemma OwnWriteExecutes(src: Source, kind: Kind, opts: Options, write: int, env: Env, w: World)
    requires env.ambient == None && GivesHandle(kind) && InRange(env, w) && Begin(src, opts, w).Opened?
    ensures var b := Begin(src, opts, w);
            && InRange(OwnEnv(kind, env, b.c), b.w)
            && Eval(src, Write(write), OwnEnv(kind, env, b.c), b.w) == Execute(b.w, b.c, write)
  {
  }

  /**
   Outside a unit nothing is joined: a transaction inside a plain call or another transaction has a
   connection of its own and commits, whatever becomes of the call around it.
   */
  lemma PlainCallsAreNotJoined(src: Source, kind: Kind, opts: Options, inner: Options, write: int, error: Error,
                               env: Env, w: World)
    requires env.ambient == None && GivesHandle(kind) && Tidy(src, w) && Live(env, w) && InRange(env, w)
    requires var b := Begin(src, opts, w);
             && b.Opened?
             && var b1 := Begin(src, inner, b.w);
                b1.Opened? && Next(b1.w).fate == Ok && Next(Spent(b1.w)).fate == Ok
    ensures var body := Seq(Call(Transaction, inner, Write(write)), Raise(error));
            var w' := Eval(src, Call(kind, opts, body), env, w).1;
            w'.committed == w.committed + [Entry(write, UserOf(src, inner).GetOr(""))]
  {
    var nested := Call(Transaction, inner, Write(write));
    BeginSpec(src, opts, w);
    BorrowKeepsLive(src, kind, opts, env, w);
    var b := Begin(src, opts, w);
    var own := OwnEnv(kind, env, b.c);
    OwnWriteIsItsOwn(src, Transaction, inner, write, own, b.w);
    EvalSteady(src, nested, own, b.w);
    ThrowsAfter(src, nested, error, own, b.w);
    OwnCallInParts(src, kind, opts, Seq(nested, Raise(error)), env, w);
    ThrowingEndKeepsCommitted(src, kind, opts, env, w, error, Eval(src, nested, own, b.w).1);
  }

  lemma ThrowingEndKeepsCommitted(src: Source, kind: Kind, opts: Options, env: Env, w: World, error: Error, w2: World)
    requires Tidy(src, w) && Live(env, w) && env.ambient == None && Begin(src, opts, w).Opened?
    requires var b := Begin(src, opts, w); Steady(OwnEnv(kind, env, b.c), b.w, w2) && Tidy(src, w2)
    ensures var b := Begin(src, opts, w);
            b.c < |w2.conns| && Finish(src, kind, opts, b.c, b.hasUser, Throw(error), w2).1.committed == w2.committed
  {
    BeginSpec(src, opts, w);
    var b := Begin(src, opts, w);
    CallSteady(src, kind, opts, env, w, Throw(error), w2);
    FinishSpec(src, kind, opts, b.c, b.hasUser, Throw(error), w2);
  }

  /** A unit hands out no connection: its work reaches one only through the calls it makes. */
  lemma UnitGivesNoHandle(src: Source, kind: Kind, opts: Options, write: int, env: Env, w: World)
    requires OpensUnit(kind) && env == TOP && Tidy(src, w) && Begin(src, opts, w).Opened?
    ensures var (o, w') := Eval(src, Call(kind, opts, Write(write)), env, w);
            var b := Begin(src, opts, w);
            o.Throw? && w'.committed == w.committed && b.c < |w'.conns| && w'.conns[b.c].log == []
  {
    BeginSpec(src, opts, w);
    var b := Begin(src, opts, w);
    OwnCallInParts(src, kind, opts, Write(write), env, w);
    FinishSpec(src, kind, opts, b.c, b.hasUser, Throw(Other(0)), b.w);
  }

  /**
   A nested unit that fails does not decide: when its exception is caught, the outermost unit commits
   everything that was written on its connection, the nested unit's writes included.
   */
  lemma CaughtFailureDoesNotDecide(src: Source, kind: Kind, opts: Options, inner: Options, p: Prog, error: Error,
                                   n: int, env: Env, w: World)
    requires OpensUnit(kind) && env.ambient == None && Tidy(src, w) && Live(env, w) && InRange(env, w)
    requires Begin(src, opts, w).Opened?
    requires var b := Begin(src, opts, w);
             && InRange(OwnEnv(kind, env, b.c), b.w)
             && var (o1, w1) := Eval(src, p, OwnEnv(kind, env, b.c), b.w);
                o1.Return? && Next(w1).fate == Ok
    ensures var nested := Call(RunInTransaction, inner, Seq(p, Raise(error)));
            var (o, w') := Eval(src, Call(kind, opts, TryCatch(nested, Give(Plain(n)))), env, w);
            var b := Begin(src, opts, w);
            var w1 := Eval(src, p, OwnEnv(kind, env, b.c), b.w).1;
            && o == Return(Plain(n))
            && b.c < |w1.conns| && w'.committed == w.committed + w1.conns[b.c].log
  {
    var nested := Call(RunInTransaction, inner, Seq(p, Raise(error)));
    var body := TryCatch(nested, Give(Plain(n)));
    BeginSpec(src, opts, w);
    BorrowKeepsLive(src, kind, opts, env, w);
    var b := Begin(src, opts, w);
    var own := OwnEnv(kind, env, b.c);
    var w1 := Eval(src, p, own, b.w).1;
    CaughtFailureKeepsWrites(src, inner, p, error, n, own, b.w);
    EvalSteady(src, p, own, b.w);
    CallSteady(src, kind, opts, env, w, Return(Plain(n)), w1);
    OwnCallInParts(src, kind, opts, body, env, w);
    OwnUnitEnds(src, kind, opts, env, w, Return(Plain(n)), w1);
    FinishSpec(src, kind, opts, b.c, b.hasUser, Return(Plain(n)), w1);
  }

  lemma NestedTransactionJoins(src: Source, opts: Options, p: Prog, env: Env, w: World)
    requires env.ambient.Some? && InRange(env, w)
    ensures Eval(src, Call(RunInTransaction, opts, p), env, w) == Eval(src, p, env, w)
  {
  }

  lemma ThrowsAfter(src: Source, p: Prog, error: Error, env: Env, w: World)
    requires InRange(env, w) && Eval(src, p, env, w).0.Return?
    ensures Eval(src, Seq(p, Raise(error)), env, w) == (Throw(error), Eval(src, p, env, w).1)
  {
  }

  lemma ThrowIsCaught(src: Source, p: Prog, value: Value, env: Env, w: World)
    requires InRange(env, w) && Eval(src, p, env, w).0.Throw?
    ensures Eval(src, TryCatch(p, Give(value)), env, w) == (Return(value), Eval(src, p, env, w).1)
  {
  }

  lemma CaughtFailureKeepsWrites(src: Source, inner: Options, p: Prog, error: Error, n: int, env: Env, w: World)
    requires env.ambient.Some? && InRange(env, w) && Eval(src, p, env, w).0.Return?
    ensures var nested := Call(RunInTransaction, inner, Seq(p, Raise(error)));
            Eval(src, TryCatch(nested, Give(Plain(n))), env, w) == (Return(Plain(n)), Eval(src, p, env, w).1)
  {
    ThrowsAfter(src, p, error, env, w);
    NestedTransactionJoins(src, inner, Seq(p, Raise(error)), env, w);
    ThrowIsCaught(src, Call(RunInTransaction, inner, Seq(p, Raise(error))), Plain(n), env, w);
  }

  /** A failed Result at the outermost unit comes back unchanged, with nothing committed. */
  lemma FailedResultRollsBack(src: Source, actor: Option<string>, body: Prog, env: Env, w: World, failure: nat)
    requires env.ambient == None && Tidy(src, w) && Live(env, w) && InRange(env, w)
    requires Begin(src, UnitOptions(actor), w).Opened?
    requires var b := Begin(src, UnitOptions(actor), w);
             && InRange(env.(ambient := Some(b.c)), b.w)
             && Eval(src, body, env.(ambient := Some(b.c)), b.w).0 == Return(Failure(failure))
    ensures var (o, w') := Eval(src, Call(UnitOfWork, UnitOptions(actor), body), env, w);
            o == Return(Failure(failure)) && w'.committed == w.committed
  {
    UnitIsAllOrNothing(src, UnitOfWork, UnitOptions(actor), body, env, w);
  }

  predicate ThrowsRollback(o: Outcome) {
    o.Throw? && o.error.RollbackWithResult?
  }

  /** Neither the program nor the driver makes the exception that units use among themselves. */
  predicate RaisesNoRollback(p: Prog)
    decreases p
  {
    match p
    case Give(_) => true
    case Raise(e) => !e.RollbackWithResult?
    case Write(_) => true
    case Seq(a, b) => RaisesNoRollback(a) && RaisesNoRollback(b)
    case TryCatch(a, b) => RaisesNoRollback(a) && RaisesNoRollback(b)
    case Call(_, _, body) => RaisesNoRollback(body)
  }

  ghost predicate DriverRaisesNoRollback(w: World) {
    forall i :: 0 <= i < |w.draws| ==> !w.draws[i].error.RollbackWithResult?
  }

  lemma SpentKeepsDraws(w: World)
    requires DriverRaisesNoRollback(w)
    ensures !Next(w).error.RollbackWithResult? && DriverRaisesNoRollback(Spent(w))
  {
  }

  /** That exception never leaves a unit: every program ends without it. */
  lemma {:induction false} RollbackStaysInside(src: Source, p: Prog, env: Env, w: World)
    requires InRange(env, w) && RaisesNoRollback(p) && DriverRaisesNoRollback(w)
    ensures var (o, w') := Eval(src, p, env, w); !ThrowsRollback(o) && DriverRaisesNoRollback(w')
    decreases p
  {
    match p {
      case Give(_) =>
      case Raise(_) =>
      case Write(_) => SpentKeepsDraws(w);
      case Seq(first, second) =>
        RollbackStaysInside(src, first, env, w);
        var (o, w1) := Eval(src, first, env, w);
        if o.Return? {
          RollbackStaysInside(src, second, env, w1);
        }
      case TryCatch(body, handler) =>
        RollbackStaysInside(src, body, env, w);
        var (o, w1) := Eval(src, body, env, w);
        if o.Throw? {
          RollbackStaysInside(src, handler, env, w1);
        }
      case Call(kind, opts, body) =>
        if env.ambient.Some? {
          RollbackStaysInside(src, body, JoinedEnv(kind, env), w);
        } else {
          SpentKeepsDraws(w);
          var b := Begin(src, opts, w);
          if b.Opened? {
            RollbackStaysInside(src, body, OwnEnv(kind, env, b.c), b.w);
            var (o, w2) := Eval(src, body, OwnEnv(kind, env, b.c), b.w);
            FinishKeepsDraws(src, kind, opts, b.c, b.hasUser, o, w2);
          }
        }
    }
  }

  lemma ReleaseKeepsDraws(src: Source, c: nat, hasUser: bool, w: World)
    requires c < |w.conns| && DriverRaisesNoRollback(w)
    ensures DriverRaisesNoRollback(Release(src, w, c, hasUser))
  {
    SpentKeepsDraws(w);
    SpentKeepsDraws(Spent(w));
  }

  /** A call's own outcome: mapping makes no such exception, and a unit turns its own into a value. */
  lemma OutcomeWithoutRollback(src: Source, kind: Kind, opts: Options, o: Outcome)
    requires ThrowsRollback(o) ==> kind == UnitOfWork
    ensures !ThrowsRollback(CallOutcome(kind, Mapped(src, opts, o)))
  {
  }

  lemma FinishKeepsDraws(src: Source, kind: Kind, opts: Options, c: nat, hasUser: bool, o: Outcome, w: World)
    requires c < |w.conns| && DriverRaisesNoRollback(w) && !ThrowsRollback(o)
    ensures var (o', w') := Finish(src, kind, opts, c, hasUser, o, w);
            !ThrowsRollback(o') && DriverRaisesNoRollback(w')
  {
    if kind == WithConnection {
      ReleaseKeepsDraws(src, c, hasUser, w);
      OutcomeWithoutRollback(src, kind, opts, o);
    } else {
      var body := BodyOutcome(kind, o);
      SettleKeepsDraws(w, c, body);
      var (settled, w1) := Settle(w, c, body);
      ReleaseKeepsDraws(src, c, hasUser, w1);
      OutcomeWithoutRollback(src, kind, opts, settled);
    }
  }

  lemma SettleKeepsDraws(w: World, c: nat, o: Outcome)
    requires c < |w.conns| && DriverRaisesNoRollback(w)
    ensures var (o', w') := Settle(w, c, o);
            DriverRaisesNoRollback(w') && (ThrowsRollback(o') ==> o' == o)
  {
    SpentKeepsDraws(w);
    SpentKeepsDraws(Spent(w));
  }

  /** A nested unit hands its outcome on, a failed Result as a value; only the outermost one decides. */
  lemma NestedUnitIsTransparent(src: Source, actor: Option<string>, body: Prog, env: Env, w: World)
    requires env.ambient.Some? && Tidy(src, w) && Live(env, w) && InRange(env, w)
    requires RaisesNoRollback(body) && DriverRaisesNoRollback(w)
    ensures Eval(src, Call(UnitOfWork, UnitOptions(actor), body), env, w) == Eval(src, body, env, w)
    ensures Eval(src, body, env, w).1.committed == w.committed
  {
    RollbackStaysInside(src, body, env, w);
    JoinedCallsOnlyWrite(src, body, env, w);
  }

  // ---------- Errors on their way out ----------

  /** What a failing statement can stand in, inside a unit: a joined call, or a sequence it ends early. */
  datatype Frame = Inside(kind: Kind, opts: Options) | Before(next: Prog)

  function Around(frame: Frame, p: Prog): Prog {
    match frame
    case Inside(kind, opts) => Call(kind, opts, p)
    case Before(next) => Seq(p, next)
  }

  /** `p` inside all `frames`, the first of them innermost. */
  function Nest(frames: seq<Frame>, p: Prog): Prog
    decreases |frames|
  {
    if frames == [] then p else Nest(frames[1..], Around(frames[0], p))
  }

  function FrameEnv(frame: Frame, env: Env): Env {
    if frame.Inside? then JoinedEnv(frame.kind, env) else env
  }

  /** The environment in which the innermost program runs. */
  function InnerEnv(frames: seq<Frame>, env: Env): (inner: Env)
    ensures inner.ambient == env.ambient && (inner.handle == env.handle || inner.handle == env.ambient)
    decreases |frames|
  {
    if frames == [] then env else FrameEnv(frames[0], InnerEnv(frames[1..], env))
  }

  /** The mapping layers among the frames: the joined calls that were given the connection. */
  function LayersOf(src: Source, frames: seq<Frame>): seq<Layer>
    decreases |frames|
  {
    if frames == [] then []
    else
      var rest := LayersOf(src, frames[1..]);
      if frames[0].Inside? && GivesHandle(frames[0].kind) then [Layer(src.key, frames[0].opts.tag)] + rest else rest
  }

  /** The error after one frame. */
  function AfterFrame(src: Source, frame: Frame, error: Error): Error {
    if frame.Inside? && GivesHandle(frame.kind) then MapError(error, src.key, frame.opts.tag) else error
  }

  lemma FrameThrows(src: Source, frame: Frame, p: Prog, error: Error, env: Env, w: World, w1: World)
    requires env.ambient.Some? && InRange(env, w) && !error.RollbackWithResult?
    requires Eval(src, p, FrameEnv(frame, env), w) == (Throw(error), w1)
    ensures Eval(src, Around(frame, p), env, w) == (Throw(AfterFrame(src, frame, error)), w1)
    ensures !AfterFrame(src, frame, error).RollbackWithResult?
  {
  }

  /** An error leaves any nest of joined calls mapped once by each that was given the connection. */
  lemma {:induction false} NestThrows(src: Source, frames: seq<Frame>, p: Prog, error: Error, env: Env, w: World,
                                      w1: World)
    requires env.ambient.Some? && InRange(env, w) && !error.RollbackWithResult?
    requires Eval(src, p, InnerEnv(frames, env), w) == (Throw(error), w1)
    ensures Eval(src, Nest(frames, p), env, w) == (Throw(MapThrough(error, LayersOf(src, frames))), w1)
    decreases |frames|
  {
    if frames == [] {
    } else {
      var frame := frames[0];
      var mapped := AfterFrame(src, frame, error);
      FrameThrows(src, frame, p, error, InnerEnv(frames[1..], env), w, w1);
      NestThrows(src, frames[1..], Around(frame, p), mapped, env, w, w1);
      assert frame.Inside? && GivesHandle(frame.kind) ==> LayersOf(src, frames)[1..] == LayersOf(src, frames[1..]);
    }
  }

  /** A statement that fails with a driver error, under a nest of joined calls. */
  lemma FailingWriteThrows(src: Source, before: Prog, frames: seq<Frame>, write: int, env: Env, w: World)
    requires env.ambient.Some? && InRange(env, w) && InnerEnv(frames, env).handle.Some?
    requires var (o, w1) := Eval(src, before, env, w);
             o.Return? && Next(w1).fate != Ok && !Next(w1).error.RollbackWithResult?
    ensures var error := Next(Eval(src, before, env, w).1).error;
            Eval(src, Seq(before, Nest(frames, Write(write))), env, w).0 ==
            Throw(MapThrough(error, LayersOf(src, frames)))
  {
    var w1 := Eval(src, before, env, w).1;
    var handle := InnerEnv(frames, env).handle.value;
    NestThrows(src, frames, Write(write), Next(w1).error, env, w1, Execute(w1, handle, write).1);
  }

  /** A body that throws ends its call with the error mapped once more. */
  lemma FinishThrows(src: Source, kind: Kind, opts: Options, c: nat, hasUser: bool, error: Error, w: World)
    requires OpensUnit(kind) && c < |w.conns| && !MapError(error, src.key, opts.tag).RollbackWithResult?
    ensures Finish(src, kind, opts, c, hasUser, Throw(error), w).0 == Throw(MapError(error, src.key, opts.tag))
  {
  }

  /** The outermost unit adds its own layer to the error of its body. */
  lemma UnitThrows(src: Source, kind: Kind, opts: Options, body: Prog, env: Env, w: World, error: Error,
                   layers: seq<Layer>)
    requires OpensUnit(kind) && env.ambient == None && InRange(env, w)
    requires Begin(src, opts, w).Opened? && !MapThrough(error, layers + [Layer(src.key, opts.tag)]).RollbackWithResult?
    requires var b := Begin(src, opts, w);
             && InRange(OwnEnv(kind, env, b.c), b.w)
             && Eval(src, body, OwnEnv(kind, env, b.c), b.w).0 == Throw(MapThrough(error, layers))
    ensures Eval(src, Call(kind, opts, body), env, w).0 == Throw(MapThrough(error, layers + [Layer(src.key, opts.tag)]))
  {
    OneMoreLayer(error, layers, Layer(src.key, opts.tag));
    var b := Begin(src, opts, w);
    var w2 := Eval(src, body, OwnEnv(kind, env, b.c), b.w).1;
    FinishThrows(src, kind, opts, b.c, b.hasUser, MapThrough(error, layers), w2);
  }

  /** A unit whose body throws commits nothing. */
  lemma ThrowCommitsNothing(src: Source, kind: Kind, opts: Options, body: Prog, env: Env, w: World)
    requires OpensUnit(kind) && env.ambient == None && Tidy(src, w) && Live(env, w) && InRange(env, w)
    requires Begin(src, opts, w).Opened?
    requires var b := Begin(src, opts, w);
             InRange(OwnEnv(kind, env, b.c), b.w) && Eval(src, body, OwnEnv(kind, env, b.c), b.w).0.Throw?
    ensures Eval(src, Call(kind, opts, body), env, w).1.committed == w.committed
  {
    UnitIsAllOrNothing(src, kind, opts, body, env, w);
  }

  /** In this unit a statement under `frames`, after `before`, fails with a driver error of this code. */
  ghost predicate WriteFails(src: Source, kind: Kind, opts: Options, before: Prog, frames: seq<Frame>, env: Env,
                             w: World, code: string)
  {
    var b := Begin(src, opts, w);
    && b.Opened? && code != ""
    && var own := OwnEnv(kind, env, b.c);
       && InRange(own, b.w)
       && InnerEnv(frames, own).handle.Some?
       && var (o1, w1) := Eval(src, before, own, b.w);
          && o1.Return?
          && Next(w1).fate != Ok && Next(w1).error.Driver? && CodeOf(Next(w1).error) == Some(code)
  }

  /** The error it fails with. */
  ghost function FailureOf(src: Source, kind: Kind, opts: Options, before: Prog, env: Env, w: World): Error
    requires Begin(src, opts, w).Opened? && InRange(OwnEnv(kind, env, Begin(src, opts, w).c), Begin(src, opts, w).w)
  {
    var b := Begin(src, opts, w);
    Next(Eval(src, before, OwnEnv(kind, env, b.c), b.w).1).error
  }

  /** The error leaves the unit mapped once by each joined call that was given the connection, and by the unit. */
  lemma FailureLeavesUnit(src: Source, kind: Kind, opts: Options, before: Prog, frames: seq<Frame>, write: int,
                          env: Env, w: World, code: string)
    requires OpensUnit(kind) && env.ambient == None && Tidy(src, w) && Live(env, w) && InRange(env, w)
    requires WriteFails(src, kind, opts, before, frames, env, w, code)
    ensures var error := FailureOf(src, kind, opts, before, env, w);
            var layers := LayersOf(src, frames) + [Layer(src.key, opts.tag)];
            var (o, w') := Eval(src, Call(kind, opts, Seq(before, Nest(frames, Write(write)))), env, w);
            o == Throw(MapThrough(error, layers)) && w'.committed == w.committed
  {
    var b := Begin(src, opts, w);
    var error := FailureOf(src, kind, opts, before, env, w);
    var layers := LayersOf(src, frames);
    var body := Seq(before, Nest(frames, Write(write)));
    FailingWriteThrows(src, before, frames, write, OwnEnv(kind, env, b.c), b.w);
    FirstMappingDecides(error, code, layers + [Layer(src.key, opts.tag)]);
    UnitThrows(src, kind, opts, body, env, w, error, layers);
    ThrowCommitsNothing(src, kind, opts, body, env, w);
  }

  /**
   A statement fails in a unit with a driver error, after anything the unit did before and under any
   mix of joined calls. Then the unit's caller gets that error with the class and code of its first
   mapping, however many calls mapped it on its way, and nothing is committed.
   */
  lemma DriverErrorKeepsClass(src: Source, kind: Kind, opts: Options, before: Prog, frames: seq<Frame>, write: int,
                              env: Env, w: World, code: string)
    requires OpensUnit(kind) && env.ambient == None && Tidy(src, w) && Live(env, w) && InRange(env, w)
    requires WriteFails(src, kind, opts, before, frames, env, w, code)
    ensures var error := FailureOf(src, kind, opts, before, env, w);
            var layers := LayersOf(src, frames) + [Layer(src.key, opts.tag)];
            var once := MapError(error, layers[0].sourceKey, layers[0].tag);
            var (o, w') := Eval(src, Call(kind, opts, Seq(before, Nest(frames, Write(write)))), env, w);
            && o == Throw(MapThrough(error, layers))
            && ClassOf(o.error) == ClassOf(once) != Unmapped
            && ShownCode(o.error) == ShownCode(once) == Some(code)
            && w'.committed == w.committed
  {
    FailureLeavesUnit(src, kind, opts, before, frames, write, env, w, code);
    var error := FailureOf(src, kind, opts, before, env, w);
    FirstMappingDecides(error, code, LayersOf(src, frames) + [Layer(src.key, opts.tag)]);
  }

  // ---------- The user of a call ----------

  /**
   A source that requires a user opens a call without one if and only if the limit is below the
   bytes of the first character of the name the caller gave.
   */
  lemma RequiredUserLostIff(src: Source, opts: Options, w: World)
    requires src.policy.enabled && src.policy.required && Begin(src, opts, w).Opened?
    ensures var name := ContextUser.GivenName(opts.contextUser, opts.username);
            && name != ""
            && (!Begin(src, opts, w).hasUser <==> src.policy.maxLength < ContextUser.Utf8Length(name[0]))
  {
    var name := ContextUser.GivenName(opts.contextUser, opts.username);
    ContextUser.TruncateIsLongest(name, src.policy.maxLength);
    ContextUser.CutToNothingIff(src.policy, name, ContextUser.Truncate(name, src.policy.maxLength));
  }

  /** It happens: with a limit of one byte, a name that starts with a two-byte character opens a call for nobody. */
  lemma RequiredUserCutAway(src: Source, w: World)
    requires src.policy == ContextUser.Policy(true, true, 1) && Next(w).fate == Ok
    ensures var b := Begin(src, Options(Some("\U{E9}"), None, None, None), w);
            b.Opened? && !b.hasUser && b.w.conns[b.c].client == Offered(w, Next(w).pick).1.client
  {
    var name := "\U{E9}";
    assert ContextUser.GivenName(Some(name), None) == name;
    ContextUser.TruncateIsLongest(name, 1);
    ContextUser.CutToNothingIff(src.policy, name, ContextUser.Truncate(name, 1));
  }

  /** The actor of a unit of work is the user its connection runs under, on every source that keeps users. */
  lemma UnitRunsUnderActor(src: Source, actor: string)
    requires src.policy.enabled && Trim(actor) != "" && ContextUser.Utf8Length(Trim(actor)[0]) <= src.policy.maxLength
    ensures var user := UserOf(src, UnitOptions(Some(actor)));
            user.Some? && ContextUser.LongestPrefix(Trim(actor), src.policy.maxLength, user.value)
  {
    ContextUser.NamedUserIsKept(src.policy, Some(actor), None);
    ContextUser.TruncateIsLongest(Trim(actor), src.policy.maxLength);
    ContextUser.CutToNothingIff(src.policy, Trim(actor), ContextUser.Truncate(Trim(actor), src.policy.maxLength));
  }
}
