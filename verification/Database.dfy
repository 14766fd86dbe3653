/**
 The database layer as it works: connections whose client identifier and timeout are set in
 place, a pool they come from and go back to, and the nested calls of the pool manager and the
 unit of work. Each method is proved to do what `DatabaseModel` says.
 */
module Database {
  import opened Wrappers
  import opened ErrorMapper
  import opened DatabaseModel
  import opened DatabaseProofs
  import ContextUser

  class Database {
    const src: Source
    var conns: seq<Conn>
    var committed: seq<Entry>
    var draws: seq<Draw>
    var borrowed: nat

    function View(): World
      reads this
    {
      World(conns, committed, draws, borrowed)
    }

    /** An empty pool facing the environment `draws`. */
    constructor (src: Source, draws: seq<Draw>)
      ensures this.src == src && View() == World([], [], draws, 0)
      ensures Tidy(src, View()) && NoneInUse(View())
    {
      this.src := src;
      this.draws := draws;
      conns, committed, borrowed := [], [], 0;
    }

    // ---------- Round trips ----------

    method Trip() returns (d: Draw)
      modifies this`draws
      ensures d == Next(old(View())) && View() == Spent(old(View()))
    {
      if draws == [] {
        return FINE;
      }
      d := draws[0];
      draws := draws[1..];
    }

    method Execute(c: nat, write: int) returns (o: Outcome)
      requires c < |conns|
      modifies this
      ensures (o, View()) == DatabaseModel.Execute(old(View()), c, write)
    {
      var d := Trip();
      if Delivered(d.fate) {
        conns := conns[c := conns[c].(server := conns[c].client)];
        if TookEffect(d.fate) {
          var entry := Entry(write, conns[c].server);
          conns := conns[c := conns[c].(pending := conns[c].pending + [entry], log := conns[c].log + [entry])];
        }
      }
      o := if d.fate == Ok then Return(Plain(write)) else Throw(d.error);
      assert conns == old(conns)[c := AfterExecute(old(conns[c]), d.fate, write)];
    }

    method Commit(c: nat) returns (d: Draw)
      requires c < |conns|
      modifies this
      ensures d == Next(old(View()))
      ensures View() == Committed(old(View()), c)
    {
      d := Trip();
      if Delivered(d.fate) {
        conns := conns[c := conns[c].(server := conns[c].client)];
        if TookEffect(d.fate) {
          committed := committed + conns[c].pending;
          conns := conns[c := conns[c].(pending := [])];
        }
      }
    }

    method Rollback(c: nat)
      requires c < |conns|
      modifies this
      ensures View() == RolledBack(old(View()), c)
    {
      var d := Trip();
      if Delivered(d.fate) {
        conns := conns[c := conns[c].(server := conns[c].client)];
        if TookEffect(d.fate) {
          conns := conns[c := conns[c].(pending := [])];
        }
      }
    }

    /** The inner try of `transaction`: commit a result, otherwise roll back and keep the error. */
    method EndTransaction(c: nat, inner: Outcome) returns (o: Outcome)
      requires c < |conns|
      modifies this
      ensures (o, View()) == Settle(old(View()), c, inner)
    {
      if inner.Return? {
        var d := Commit(c);
        if d.fate == Ok {
          return inner;
        }
        Rollback(c);
        return Throw(d.error);
      }
      Rollback(c);
      return inner;
    }

    // ---------- The client: borrow, run, give back ----------

    /** `None` when the pool could not give a connection. */
    method GetConnection() returns (c: Option<nat>, d: Draw)
      modifies this
      ensures d == Next(old(View()))
      ensures c == None <==> d.fate != Ok
      ensures c == None ==> View() == Spent(old(View()))
      ensures c.Some? ==>
                && var (i, conn) := Offered(old(View()), d.pick);
                   && c.value == i < |conns|
                   && var taken := conn.(log := [], place := InUse, borrows := conn.borrows + 1);
                      View() == Spent(old(View())).(
                        conns := if i < |old(conns)| then old(conns)[i := taken] else old(conns) + [taken],
                        borrowed := old(borrowed) + 1)
    {
      d := Trip();
      if d.fate != Ok {
        return None, d;
      }
      borrowed := borrowed + 1;
      if d.pick < |conns| && conns[d.pick].place == Pooled {
        conns := conns[d.pick := conns[d.pick].(log := [], place := InUse, borrows := conns[d.pick].borrows + 1)];
        return Some(d.pick), d;
      }
      conns := conns + [NEW_CONNECTION.(log := [], place := InUse, borrows := 1)];
      return Some(|conns| - 1), d;
    }

    /** What happens before the callback: resolve the user, borrow, set timeout and identifier. */
    method Open(opts: Options) returns (b: Begun)
      modifies this
      ensures b == Begin(src, opts, old(View())) && View() == b.w
    {
      var resolution := ContextUser.ResolveContextUser(src.policy, opts.contextUser, opts.username);
      if resolution.Refused? {
        return Refused(UnauthorizedError(src.key), View());
      }
      var c, d := GetConnection();
      if c == None {
        return Refused(ConnectionError(src.key, d.error), View());
      }
      var i := c.value;
      var callTimeout := opts.callTimeoutMs.GetOr(src.callTimeoutMs);
      if callTimeout > 0 {
        conns := conns[i := conns[i].(callTimeout := callTimeout)];
      }
      var hasUser := resolution.User? && resolution.name != "";
      if hasUser {
        conns := conns[i := conns[i].(client := resolution.name)];
      }
      b := Opened(i, View(), hasUser);
      assert b.w.conns == Begin(src, opts, old(View())).w.conns;
    }

    method Release(c: nat, clearContext: bool)
      requires c < |conns|
      modifies this
      ensures View() == DatabaseModel.Release(src, old(View()), c, clearContext)
    {
      var drop := false;
      if clearContext {
        conns := conns[c := conns[c].(client := "")];
        var ping := Trip();
        if Delivered(ping.fate) {
          conns := conns[c := conns[c].(server := conns[c].client)];
        }
        if ping.fate != Ok {
          drop := true;
        }
      }
      var close := Trip();
      conns := conns[c := conns[c].(callTimeout := src.callTimeoutMs, pending := [],
                                    place := if !drop && TookEffect(close.fate) then Pooled else Gone,
                                    closes := conns[c].closes + 1)];
    }

    /** The client's `withConnection` and `transaction`, the callback being `body`. */
    method OwnCall(kind: Kind, opts: Options, body: Prog, env: Env) returns (o: Outcome)
      requires InRange(env, View()) && env.ambient == None
      modifies this
      ensures (o, View()) == Eval(src, Call(kind, opts, body), env, old(View()))
      decreases body, 1
    {
      var b := Open(opts);
      if b.Refused? {
        return Throw(b.error);
      }
      var inner := RunIn(body, OwnEnv(kind, env, b.c));
      o := EndCall(kind, opts, b.c, b.hasUser, inner);
    }

    /** The way out of a call on its own connection: end the transaction, map the error, give back. */
    method EndCall(kind: Kind, opts: Options, c: nat, hasUser: bool, inner: Outcome) returns (o: Outcome)
      requires c < |conns|
      modifies this
      ensures (o, View()) == Finish(src, kind, opts, c, hasUser, inner, old(View()))
    {
      o := inner;
      if kind == UnitOfWork {
        o := FailureAsThrow(o);
      }
      if kind != WithConnection {
        o := EndTransaction(c, o);
      }
      if o.Throw? {
        o := Throw(MapError(o.error, src.key, opts.tag));
      }
      Release(c, hasUser);
      if kind == UnitOfWork {
        o := ThrowAsFailure(o);
      }
    }

    // ---------- The pool manager and the unit of work ----------

    /** `withConnection` and `transaction`: inside a unit both join its connection. */
    method HandleCall(kind: Kind, opts: Options, body: Prog, env: Env) returns (o: Outcome)
      requires InRange(env, View()) && GivesHandle(kind)
      modifies this
      ensures (o, View()) == Eval(src, Call(kind, opts, body), env, old(View()))
      decreases body, 2
    {
      if env.ambient.Some? {
        o := RunIn(body, env.(handle := env.ambient));
        if o.Throw? {
          o := Throw(MapError(o.error, src.key, opts.tag));
        }
        return;
      }
      o := OwnCall(kind, opts, body, env);
    }

    method RunInTransaction(opts: Options, body: Prog, env: Env) returns (o: Outcome)
      requires InRange(env, View())
      modifies this
      ensures (o, View()) == Eval(src, Call(DatabaseModel.RunInTransaction, opts, body), env, old(View()))
      decreases body, 2
    {
      if env.ambient.Some? {
        o := RunIn(body, env);
        return;
      }
      o := OwnCall(DatabaseModel.RunInTransaction, opts, body, env);
    }

    method UnitRun(opts: Options, body: Prog, env: Env) returns (o: Outcome)
      requires InRange(env, View())
      modifies this
      ensures (o, View()) == Eval(src, Call(UnitOfWork, opts, body), env, old(View()))
      decreases body, 2
    {
      if env.ambient.Some? {
        o := RunIn(body, env);
        o := ThrowAsFailure(FailureAsThrow(o));
        return;
      }
      o := OwnCall(UnitOfWork, opts, body, env);
    }

    /**
     A top-level call. Whatever fails on the way, nothing stays borrowed and every connection left in
     the pool is clean; if the call opens a unit, all its writes are committed in order or none is.
     */
    method Run(p: Prog) returns (o: Outcome)
      requires Tidy(src, View()) && NoneInUse(View())
      modifies this
      ensures (o, View()) == Eval(src, p, TOP, old(View()))
      ensures Tidy(src, View()) && NoneInUse(View())
      ensures forall conn <- conns :: conn.place == Pooled ==>
                conn.server == "" && conn.client == "" && conn.pending == [] && conn.closes == conn.borrows
      ensures old(committed) <= committed
      ensures p.Call? && OpensUnit(p.kind) && committed != old(committed) ==>
                exists c :: 0 <= c < |conns| && committed == old(committed) + conns[c].log
                            && LoggedUnder(src, p.opts, conns[c])
    {
      ghost var w := View();
      TopCallEndsClean(src, p, w);
      if p.Call? && OpensUnit(p.kind) {
        UnitIsAllOrNothing(src, p.kind, p.opts, p.body, TOP, w);
      }
      o := RunIn(p, TOP);
      assert forall i :: 0 <= i < |conns| ==> TidyConn(src, conns[i]) && !InUseAt(View(), i);
    }

    method RunIn(p: Prog, env: Env) returns (o: Outcome)
      requires InRange(env, View())
      modifies this
      ensures (o, View()) == Eval(src, p, env, old(View()))
      decreases p, 0
    {
      match p {
        case Give(v) =>
          o := Return(v);
        case Raise(e) =>
          o := Throw(e);
        case Write(x) =>
          if env.handle.Some? {
            o := Execute(env.handle.value, x);
          } else {
            o := Throw(Other(0));
          }
        case Seq(first, second) =>
          o := RunIn(first, env);
          if o.Return? {
            o := RunIn(second, env);
          }
        case TryCatch(body, handler) =>
          o := RunIn(body, env);
          if o.Throw? {
            o := RunIn(handler, env);
          }
        case Call(kind, opts, body) =>
          match kind {
            case RunInTransaction => o := RunInTransaction(opts, body, env);
            case UnitOfWork => o := UnitRun(opts, body, env);
            case _ => o := HandleCall(kind, opts, body, env);
          }
      }
    }
  }
}
