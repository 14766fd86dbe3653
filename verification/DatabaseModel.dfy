/**
 What a program does to one database source: the connection pool, the connections' client and
 server side, open transactions, and every round trip, each of which may fail in any way. A
 program is a tree of calls on the pool manager and the unit of work.
 */
module DatabaseModel {
  import opened Wrappers
  import opened ErrorMapper
  import ContextUser

  // ---------- Round trips ----------

  /** `Lost`: never reached the server. `Rejected`: reached it, no effect. `Applied`: took effect, reply lost. */
  datatype Fate = Ok | Lost | Rejected | Applied

  /** What the environment decides for one round trip: its fate, its error, the pool's pick. */
  datatype Draw = Draw(fate: Fate, error: Error, pick: nat)

  const FINE := Draw(Ok, Other(0), 0)

  predicate Delivered(f: Fate) {
    f != Lost
  }

  predicate TookEffect(f: Fate) {
    f == Ok || f == Applied
  }

  // ---------- Connections ----------

  datatype Place = InUse | Pooled | Gone

  /** A write together with the identity the server had for the session when it ran. */
  datatype Entry = Entry(write: int, user: string)

  /**
   `client` is the identifier set on the connection object, `server` the one the session has;
   any round trip that reaches the server carries the first to the second. `log` lists the
   writes since the connection was borrowed, `pending` those of the open transaction.
   */
  datatype Conn = Conn(
    client: string,
    server: string,
    callTimeout: int,
    pending: seq<Entry>,
    log: seq<Entry>,
    place: Place,
    borrows: nat,
    closes: nat)

  const NEW_CONNECTION := Conn("", "", 0, [], [], Pooled, 0, 0)

  datatype World = World(conns: seq<Conn>, committed: seq<Entry>, draws: seq<Draw>, borrowed: nat)

  datatype Source = Source(key: string, callTimeoutMs: nat, policy: ContextUser.Policy)

  datatype Options = Options(
    contextUser: Option<string>,
    username: Option<string>,
    callTimeoutMs: Option<nat>,
    tag: Option<string>)

  function Next(w: World): Draw {
    if w.draws == [] then FINE else w.draws[0]
  }

  function Spent(w: World): World {
    w.(draws := if w.draws == [] then [] else w.draws[1..])
  }

  function Put(w: World, c: nat, conn: Conn): World
    requires c < |w.conns|
  {
    w.(conns := w.conns[c := conn])
  }

  function Flushed(conn: Conn, fate: Fate): Conn {
    if Delivered(fate) then conn.(server := conn.client) else conn
  }

  function AfterExecute(conn: Conn, fate: Fate, write: int): Conn {
    var f := Flushed(conn, fate);
    var entry := Entry(write, f.server);
    if TookEffect(fate) then f.(pending := f.pending + [entry], log := f.log + [entry]) else f
  }

  function AfterTransactionEnd(conn: Conn, fate: Fate): Conn {
    var f := Flushed(conn, fate);
    if TookEffect(fate) then f.(pending := []) else f
  }

  // ---------- Outcomes ----------

  /** A plain value, or a failed Result (which is a value too). */
  datatype Value = Plain(n: int) | Failure(failure: nat)

  datatype Outcome = Return(value: Value) | Throw(error: Error)

  function Execute(w: World, c: nat, write: int): (r: (Outcome, World))
    requires c < |w.conns|
    ensures |r.1.conns| == |w.conns|
  {
    var d := Next(w);
    (if d.fate == Ok then Return(Plain(write)) else Throw(d.error),
     Put(Spent(w), c, AfterExecute(w.conns[c], d.fate, write)))
  }

  /** A commit round trip: if it takes effect, the open work is committed in its order. */
  function Committed(w: World, c: nat): World
    requires c < |w.conns|
  {
    var conn := w.conns[c];
    var w1 := Put(Spent(w), c, AfterTransactionEnd(conn, Next(w).fate));
    if TookEffect(Next(w).fate) then w1.(committed := w1.committed + conn.pending) else w1
  }

  /** Ends a transaction body: commit what it wrote, or roll back and rethrow. */
  function Settle(w: World, c: nat, o: Outcome): (Outcome, World)
    requires c < |w.conns|
  {
    if o.Return? then
      var w1 := Committed(w, c);
      if Next(w).fate == Ok then (o, w1) else (Throw(Next(w).error), RolledBack(w1, c))
    else (o, RolledBack(w, c))
  }

  /** A failing rollback is logged and otherwise ignored. */
  function RolledBack(w: World, c: nat): World
    requires c < |w.conns|
  {
    Put(Spent(w), c, AfterTransactionEnd(w.conns[c], Next(w).fate))
  }

  // ---------- Borrowing and returning ----------

  datatype Begun = Refused(error: Error, w: World) | Opened(c: nat, w: World, hasUser: bool)

  function UserOf(src: Source, opts: Options): Option<string> {
    match ContextUser.Resolve(src.policy, opts.contextUser, opts.username)
    case User(name) => if name == "" then None else Some(name)
    case _ => None
  }

  function TimeoutOf(src: Source, opts: Options): nat {
    opts.callTimeoutMs.GetOr(src.callTimeoutMs)
  }

  /** The pool offers one of its connections or makes a new one. */
  function Offered(w: World, pick: nat): (nat, Conn)
    ensures Offered(w, pick).0 <= |w.conns|
  {
    if pick < |w.conns| && w.conns[pick].place == Pooled then (pick, w.conns[pick]) else (|w.conns|, NEW_CONNECTION)
  }

  function Borrowed(src: Source, opts: Options, conn: Conn): Conn {
    conn.(client := UserOf(src, opts).GetOr(conn.client),
          callTimeout := if TimeoutOf(src, opts) > 0 then TimeoutOf(src, opts) else conn.callTimeout,
          log := [], place := InUse, borrows := conn.borrows + 1)
  }

  function Begin(src: Source, opts: Options, w: World): (b: Begun)
    ensures b.Opened? ==> b.c < |b.w.conns|
    ensures |w.conns| <= |b.w.conns|
  {
    if ContextUser.Resolve(src.policy, opts.contextUser, opts.username).Refused? then
      Refused(UnauthorizedError(src.key), w)
    else
      var d := Next(w);
      if d.fate != Ok then Refused(ConnectionError(src.key, d.error), Spent(w))
      else
        var (c, conn) := Offered(w, d.pick);
        var taken := Borrowed(src, opts, conn);
        Opened(c,
               Spent(w).(conns := if c < |w.conns| then w.conns[c := taken] else w.conns + [taken],
                         borrowed := w.borrowed + 1),
               UserOf(src, opts).Some?)
  }

  /** The identifier is cleared and the clearing flushed by a ping; if that fails the connection is dropped. */
  function Release(src: Source, w: World, c: nat, clearContext: bool): World
    requires c < |w.conns|
  {
    var w1 := if clearContext then Cleared(w, c) else w;
    var drop := clearContext && Next(w).fate != Ok;
    Closed(src, w1, c, drop)
  }

  function Cleared(w: World, c: nat): World
    requires c < |w.conns|
  {
    Put(Spent(w), c, Flushed(w.conns[c].(client := ""), Next(w).fate))
  }

  /** Closing ends any open transaction without committing it. */
  function Closed(src: Source, w: World, c: nat, drop: bool): World
    requires c < |w.conns|
  {
    var place := if !drop && TookEffect(Next(w).fate) then Pooled else Gone;
    Put(Spent(w), c,
        w.conns[c].(callTimeout := src.callTimeoutMs, pending := [], place := place, closes := w.conns[c].closes + 1))
  }

  function Mapped(src: Source, opts: Options, o: Outcome): Outcome {
    if o.Throw? then Throw(MapError(o.error, src.key, opts.tag)) else o
  }

  // ---------- Programs ----------

  /** The four ways to run a callback against the source. */
  datatype Kind = WithConnection | Transaction | RunInTransaction | UnitOfWork

  datatype Prog =
    | Give(value: Value)
    | Raise(error: Error)
    | Write(write: int)
    | Seq(first: Prog, second: Prog)
    | TryCatch(body: Prog, handler: Prog)
    | Call(kind: Kind, opts: Options, body: Prog)

  /** `handle`: the connection the nearest enclosing callback was given. `ambient`: the unit's connection. */
  datatype Env = Env(handle: Option<nat>, ambient: Option<nat>)

  const TOP := Env(None, None)

  predicate InRange(env: Env, w: World) {
    && (env.handle.Some? ==> env.handle.value < |w.conns|)
    && (env.ambient.Some? ==> env.ambient.value < |w.conns|)
  }

  /** A callback that takes a connection sees it as its handle; the others see it as ambient. */
  predicate GivesHandle(kind: Kind) {
    kind == WithConnection || kind == Transaction
  }

  /** The environment of a callback that joins the ambient connection. */
  function JoinedEnv(kind: Kind, env: Env): Env {
    if GivesHandle(kind) then env.(handle := env.ambient) else env
  }

  /** The environment of a callback that runs on the newly borrowed connection `c`. */
  function OwnEnv(kind: Kind, env: Env, c: nat): Env {
    if GivesHandle(kind) then env.(handle := Some(c)) else env.(ambient := Some(c))
  }

  /** Inside a unit a failed Result becomes an exception that carries it. */
  function FailureAsThrow(o: Outcome): Outcome {
    if o.Return? && o.value.Failure? then Throw(RollbackWithResult(o.value.failure)) else o
  }

  /** Around a unit it comes back as the value it was. */
  function ThrowAsFailure(o: Outcome): Outcome {
    if o.Throw? && o.error.RollbackWithResult? then Return(Failure(o.error.failure)) else o
  }

  function BodyOutcome(kind: Kind, o: Outcome): Outcome {
    if kind == UnitOfWork then FailureAsThrow(o) else o
  }

  function CallOutcome(kind: Kind, o: Outcome): Outcome {
    if kind == UnitOfWork then ThrowAsFailure(o) else o
  }

  /** A joined call neither commits nor rolls back; one that was given the connection maps its errors. */
  function JoinedOutcome(src: Source, kind: Kind, opts: Options, o: Outcome): Outcome {
    if GivesHandle(kind) then Mapped(src, opts, o) else CallOutcome(kind, BodyOutcome(kind, o))
  }

  /** The end of a call on its own connection: settle the transaction if it is one, then give back. */
  function Finish(src: Source, kind: Kind, opts: Options, c: nat, hasUser: bool, o: Outcome, w: World)
    : (r: (Outcome, World))
    requires c < |w.conns|
    ensures |r.1.conns| == |w.conns|
  {
    var (settled, w1) := if kind == WithConnection then (o, w) else Settle(w, c, BodyOutcome(kind, o));
    (CallOutcome(kind, Mapped(src, opts, settled)), Release(src, w1, c, hasUser))
  }

  function Eval(src: Source, p: Prog, env: Env, w: World): (r: (Outcome, World))
    requires InRange(env, w)
    ensures |w.conns| <= |r.1.conns|
    decreases p
  {
    match p
    case Give(v) => (Return(v), w)
    case Raise(e) => (Throw(e), w)
    case Write(x) => if env.handle.Some? then Execute(w, env.handle.value, x) else (Throw(Other(0)), w)
    case Seq(first, second) =>
      var (o, w1) := Eval(src, first, env, w);
      if o.Return? then Eval(src, second, env, w1) else (o, w1)
    case TryCatch(body, handler) =>
      var (o, w1) := Eval(src, body, env, w);
      if o.Return? then (o, w1) else Eval(src, handler, env, w1)
    case Call(kind, opts, body) =>
      if env.ambient.Some? then
        var (o, w1) := Eval(src, body, JoinedEnv(kind, env), w);
        (JoinedOutcome(src, kind, opts, o), w1)
      else
        match Begin(src, opts, w)
        case Refused(e, w1) => (Throw(e), w1)
        case Opened(c, w1, hasUser) =>
          var (o, w2) := Eval(src, body, OwnEnv(kind, env, c), w1);
          Finish(src, kind, opts, c, hasUser, o, w2)
  }

  function UnitOptions(actor: Option<string>): Options {
    Options(actor, None, None, Some("unitOfWork.run"))
  }
}
