/**
 The table-backed claim store, statement by statement inside one claim, and the proof that it
 answers like the in-memory store. Claims are atomic here; `OracleClaimRace` takes them apart.
 */
module OracleIdempotencyStore {
  import opened Wrappers
  import opened IdempotencyStore

  /** A row: `None` stands for SQL NULL. */
  datatype Row = Row(
    fingerprint: string,
    state: ClaimState,
    status: Option<int>,
    responseBody: Option<string>,
    createdAt: int,
    expiresAt: int)

  type Table = map<string, Row>

  const PURGE_LIMIT := 100

  /** `undefined` is stored as NULL, anything else as its JSON text. */
  function Encode(body: Body): Option<string> {
    match body
    case Undefined => None
    case Json(text) => Some(text)
  }

  function Decode(column: Option<string>): (body: Body)
    ensures Encode(body) == column
  {
    match column
    case None => Undefined
    case Some(text) => Json(text)
  }

  /** The claim record a row stands for. */
  function RecordOf(row: Row): ClaimRecord {
    ClaimRecord(row.fingerprint, row.state, row.createdAt, row.expiresAt, row.status, Decode(row.responseBody))
  }

  function RecordsOf(table: Table): Records {
    map k | k in table :: RecordOf(table[k])
  }

  lemma RowWritten(table: Table, key: string, row: Row)
    ensures RecordsOf(table[key := row]) == RecordsOf(table)[key := RecordOf(row)]
  {
  }

  lemma RowsRemoved(table: Table, keys: set<string>)
    ensures RecordsOf(table - keys) == RecordsOf(table) - keys
  {
  }

  /** What the purge may delete: the comparison is strict, unlike the in-memory store's. */
  function PurgeableKeys(records: Records, sysNow: int): set<string> {
    set k | k in records && records[k].expiresAt < sysNow
  }

  /** The database picks which expired rows go, up to the limit. */
  ghost predicate PurgeChoice(records: Records, sysNow: int, victims: set<string>) {
    var candidates := PurgeableKeys(records, sysNow);
    && victims <= candidates
    && |victims| == if |candidates| <= PURGE_LIMIT then |candidates| else PURGE_LIMIT
  }

  class OracleIdempotencyStore {
    const cfg: Config
    var table: Table

    constructor (cfg: Config)
      ensures this.cfg == cfg && table == map[]
    {
      this.cfg := cfg;
      table := map[];
    }

    /**
     One claim. `now` and `checked` are its two readings of the process clock, `victims` the rows
     the purge happens to delete by the database's own clock. With `vanished` the row that made the
     insert fail is purged by somebody else before it can be read.
     */
    method ClaimOn(key: string, fingerprint: string, now: int, checked: int, victims: set<string>, vanished: bool)
      returns (outcome: ClaimOutcome)
      modifies this`table
      ensures (outcome, RecordsOf(table)) ==
              ClaimStep(cfg, RecordsOf(old(table)), if vanished then victims + {key} else victims, key, fingerprint,
                        now, checked)
    {
      RowsRemoved(table, victims);
      PurgeExpired(victims);
      ghost var kept := RecordsOf(table);

      var expiresAt := now + cfg.ttlMs;
      var claim := Row(fingerprint, InProgress, None, None, now, expiresAt);
      RowWritten(table, key, claim);
      var inserted := TryInsert(key, fingerprint, now, expiresAt);
      if inserted {
        assert old(RecordsOf(table)) - (victims + {key}) == kept;
        return Claimed;
      }

      if vanished {
        RowsRemoved(table, {key});
        table := table - {key};
        kept := kept - {key};
        assert kept == old(RecordsOf(table)) - (victims + {key});
      }
      var selected := SelectRow(key);
      if selected == None {
        RowWritten(table, key, claim);
        table := table[key := claim];
        return Claimed;
      }
      var row := selected.value;
      if row.fingerprint != fingerprint {
        return Mismatch;
      }
      if row.state == InProgress {
        if checked - row.createdAt <= cfg.inProgressTtlMs {
          return Running;
        }
        table := table[key := claim];
        return Claimed;
      }
      return Replay(row.status.GetOr(200), Decode(row.responseBody));
    }

    method PurgeExpired(victims: set<string>)
      modifies this`table
      ensures table == old(table) - victims
    {
      table := map k | k in table && k !in victims :: table[k];
    }

    /** False on a unique violation: the key already has a row. */
    method TryInsert(key: string, fingerprint: string, createdAt: int, expiresAt: int) returns (inserted: bool)
      modifies this`table
      ensures inserted == (key !in old(table))
      ensures table == if inserted
                       then old(table)[key := Row(fingerprint, InProgress, None, None, createdAt, expiresAt)]
                       else old(table)
    {
      if key in table {
        return false;
      }
      table := table[key := Row(fingerprint, InProgress, None, None, createdAt, expiresAt)];
      return true;
    }

    function SelectRow(key: string): Option<Row>
      reads this`table
    {
      Lookup(table, key)
    }

    method Complete(key: string, status: int, body: Body)
      modifies this`table
      ensures RecordsOf(table) == CompleteStep(RecordsOf(old(table)), key, status, body)
    {
      ghost var before := table;
      if key in table {
        table := table[key := table[key].(state := Completed, status := Some(status), responseBody := Encode(body))];
        assert Decode(Encode(body)) == body;
        ghost var completed := RecordOf(before[key]).(state := Completed, status := Some(status), body := body);
        assert RecordOf(table[key]) == completed;
        assert RecordsOf(table) == RecordsOf(before)[key := completed];
      }
    }

    method Release(key: string)
      modifies this`table
      ensures RecordsOf(table) == ReleaseStep(RecordsOf(old(table)), key)
    {
      ghost var before := table;
      table := map k | k in table && k != key :: table[k];
      assert RecordsOf(table) == RecordsOf(before) - {key};
    }
  }

  // ---------- Agreement of the two stores ----------

  /** A store call of one history; every call carries the instant at which it runs. */
  datatype Op =
    | Claim(key: string, fingerprint: string, at: int, victims: set<string>)
    | Complete(key: string, status: int, body: Body, at: int)
    | Release(key: string, at: int)

  datatype Played = Played(outcomes: seq<ClaimOutcome>, records: Records)

  /** One call against either store; they differ only in which expired records leave first. */
  function PlayOne(cfg: Config, records: Records, purged: set<string>, op: Op): Played {
    match op
    case Claim(key, fingerprint, at, _) =>
      var (outcome, after) := ClaimStep(cfg, records, purged, key, fingerprint, at, at);
      Played([outcome], after)
    case Complete(key, status, body, _) => Played([], CompleteStep(records, key, status, body))
    case Release(key, _) => Played([], ReleaseStep(records, key))
  }

  function PlayMemory(cfg: Config, records: Records, ops: seq<Op>): Played
    decreases |ops|
  {
    if ops == [] then Played([], records)
    else
      var first := PlayOne(cfg, records, OwnExpired(records, ops[0].key, ops[0].at), ops[0]);
      var rest := PlayMemory(cfg, first.records, ops[1..]);
      Played(first.outcomes + rest.outcomes, rest.records)
  }

  function Victims(op: Op): set<string> {
    if op.Claim? then op.victims else {}
  }

  function PlayOracle(cfg: Config, records: Records, ops: seq<Op>): Played
    decreases |ops|
  {
    if ops == [] then Played([], records)
    else
      var first := PlayOne(cfg, records, Victims(ops[0]), ops[0]);
      var rest := PlayOracle(cfg, first.records, ops[1..]);
      Played(first.outcomes + rest.outcomes, rest.records)
  }

  /** An expired row that this claim's purge leaves under the claimed key. */
  predicate LeavesStaleRow(records: Records, op: Op)
    requires op.Claim?
  {
    op.key in records - op.victims && Expired(records[op.key], op.at)
  }

  /** The clock never goes back and the purge picks as the database may. */
  ghost predicate History(cfg: Config, records: Records, since: int, ops: seq<Op>)
    decreases |ops|
  {
    ops == [] ||
    (&& since <= ops[0].at
     && (ops[0].Claim? ==> PurgeChoice(records, ops[0].at, ops[0].victims))
     && History(cfg, PlayOne(cfg, records, Victims(ops[0]), ops[0]).records, ops[0].at, ops[1..]))
  }

  /** No claim of the history meets an expired row of its own key that the purge left behind. */
  ghost predicate NeverStale(cfg: Config, records: Records, ops: seq<Op>)
    decreases |ops|
  {
    ops == [] ||
    (&& (ops[0].Claim? ==> !LeavesStaleRow(records, ops[0]))
     && NeverStale(cfg, PlayOne(cfg, records, Victims(ops[0]), ops[0]).records, ops[1..]))
  }

  /** No claim lands exactly on its key's expiry instant or finds more than the limit of expired rows. */
  ghost predicate Regular(cfg: Config, records: Records, ops: seq<Op>)
    decreases |ops|
  {
    ops == [] ||
    (&& (ops[0].Claim? ==>
           && |PurgeableKeys(records, ops[0].at)| <= PURGE_LIMIT
           && (ops[0].key in records ==> records[ops[0].key].expiresAt != ops[0].at))
     && Regular(cfg, PlayOne(cfg, records, Victims(ops[0]), ops[0]).records, ops[1..]))
  }

  /** The record under `key` that has not expired: the stores' common meaning. */
  function Live(records: Records, key: string, now: int): Option<ClaimRecord> {
    if key in records && !Expired(records[key], now) then Some(records[key]) else None
  }

  ghost predicate SameLive(memory: Records, oracle: Records, now: int) {
    forall k :: Live(memory, k, now) == Live(oracle, k, now)
  }

  /** Full purges remove every expired row, so the claimed key cannot be blocked by one. */
  lemma FullPurge(records: Records, sysNow: int, victims: set<string>)
    requires PurgeChoice(records, sysNow, victims)
    requires |PurgeableKeys(records, sysNow)| <= PURGE_LIMIT
    ensures victims == PurgeableKeys(records, sysNow)
  {
    var candidates := PurgeableKeys(records, sysNow);
    assert candidates == victims + (candidates - victims);
    assert |candidates - victims| == 0;
  }

  lemma {:induction false} RegularNeverStale(cfg: Config, records: Records, since: int, ops: seq<Op>)
    requires History(cfg, records, since, ops) && Regular(cfg, records, ops)
    ensures NeverStale(cfg, records, ops)
    decreases |ops|
  {
    if ops == [] {
    } else {
      if ops[0].Claim? {
        FullPurge(records, ops[0].at, ops[0].victims);
      }
      RegularNeverStale(cfg, PlayOne(cfg, records, Victims(ops[0]), ops[0]).records, ops[0].at, ops[1..]);
    }
  }

  /** One claim: the answers agree exactly when no stale row is left, or it is abandoned anyway. */
  lemma ClaimsAgreeIff(cfg: Config, memory: Records, oracle: Records, op: Op)
    requires op.Claim? && PurgeChoice(oracle, op.at, op.victims)
    requires SameLive(memory, oracle, op.at)
    ensures var m := PlayOne(cfg, memory, OwnExpired(memory, op.key, op.at), op);
            var o := PlayOne(cfg, oracle, op.victims, op);
            m.outcomes == o.outcomes <==>
            (!LeavesStaleRow(oracle, op) ||
             (&& oracle[op.key].fingerprint == op.fingerprint
              && Abandoned(cfg, oracle[op.key], op.at)))
  {
    assert Live(memory, op.key, op.at) == Live(oracle, op.key, op.at);
    var own := OwnExpired(memory, op.key, op.at);
    assert Lookup(memory - own, op.key) == Live(memory, op.key, op.at);
    if !LeavesStaleRow(oracle, op) {
      assert Lookup(oracle - op.victims, op.key) == Live(oracle, op.key, op.at);
    } else {
      assert Lookup(oracle - op.victims, op.key) == Some(oracle[op.key]);
    }
  }

  /** A stale row under the claimed key does no harm when the claim takes it over anyway. */
  predicate StaleIsTakenOver(cfg: Config, records: Records, op: Op)
    requires op.Claim?
  {
    LeavesStaleRow(records, op) ==>
      records[op.key].fingerprint == op.fingerprint && Abandoned(cfg, records[op.key], op.at)
  }

  /** One call keeps the stores equal on unexpired records. */
  lemma SameLiveStep(cfg: Config, memory: Records, oracle: Records, since: int, op: Op)
    requires cfg.Valid() && since <= op.at && SameLive(memory, oracle, since)
    requires op.Claim? ==> PurgeChoice(oracle, op.at, op.victims) && StaleIsTakenOver(cfg, oracle, op)
    ensures var m := PlayOne(cfg, memory, OwnExpired(memory, op.key, op.at), op);
            var o := PlayOne(cfg, oracle, Victims(op), op);
            m.outcomes == o.outcomes && SameLive(m.records, o.records, op.at)
  {
    var m := PlayOne(cfg, memory, OwnExpired(memory, op.key, op.at), op);
    var o := PlayOne(cfg, oracle, Victims(op), op);
    SameLiveLater(memory, oracle, since, op.at);
    if op.Claim? {
      ClaimsAgreeIff(cfg, memory, oracle, op);
    }
    forall k ensures Live(m.records, k, op.at) == Live(o.records, k, op.at) {
      assert Live(memory, k, op.at) == Live(oracle, k, op.at);
    }
  }

  lemma SameLiveLater(memory: Records, oracle: Records, since: int, later: int)
    requires SameLive(memory, oracle, since) && since <= later
    ensures SameLive(memory, oracle, later)
  {
    forall k ensures Live(memory, k, later) == Live(oracle, k, later) {
      assert Live(memory, k, since) == Live(oracle, k, since);
    }
  }

  /** Every stale row that a claim of the history meets is taken over by it. */
  ghost predicate StaleRowsTakenOver(cfg: Config, records: Records, ops: seq<Op>)
    decreases |ops|
  {
    ops == [] ||
    (&& (ops[0].Claim? ==> StaleIsTakenOver(cfg, records, ops[0]))
     && StaleRowsTakenOver(cfg, PlayOne(cfg, records, Victims(ops[0]), ops[0]).records, ops[1..]))
  }

  lemma {:induction false} NeverStaleTakenOver(cfg: Config, records: Records, ops: seq<Op>)
    requires NeverStale(cfg, records, ops)
    ensures StaleRowsTakenOver(cfg, records, ops)
    decreases |ops|
  {
    if ops == [] {
    } else {
      NeverStaleTakenOver(cfg, PlayOne(cfg, records, Victims(ops[0]), ops[0]).records, ops[1..]);
    }
  }

  lemma {:induction false} StoresAgreeFromIff(cfg: Config, memory: Records, oracle: Records, since: int, ops: seq<Op>)
    requires cfg.Valid() && SameLive(memory, oracle, since) && History(cfg, oracle, since, ops)
    ensures PlayMemory(cfg, memory, ops).outcomes == PlayOracle(cfg, oracle, ops).outcomes <==>
            StaleRowsTakenOver(cfg, oracle, ops)
    decreases |ops|
  {
    if ops == [] {
    } else {
      var m := PlayOne(cfg, memory, OwnExpired(memory, ops[0].key, ops[0].at), ops[0]);
      var o := PlayOne(cfg, oracle, Victims(ops[0]), ops[0]);
      var (ms, os) := (PlayMemory(cfg, m.records, ops[1..]).outcomes, PlayOracle(cfg, o.records, ops[1..]).outcomes);
      SplitsAlike(m.outcomes, ms, o.outcomes, os);
      if ops[0].Claim? && !StaleIsTakenOver(cfg, oracle, ops[0]) {
        SameLiveLater(memory, oracle, since, ops[0].at);
        ClaimsAgreeIff(cfg, memory, oracle, ops[0]);
      } else {
        SameLiveStep(cfg, memory, oracle, since, ops[0]);
        StoresAgreeFromIff(cfg, m.records, o.records, ops[0].at, ops[1..]);
      }
    }
  }

  lemma SplitsAlike<T>(a: seq<T>, s: seq<T>, b: seq<T>, t: seq<T>)
    requires |a| == |b|
    ensures a + s == b + t <==> a == b && s == t
  {
    assert (a + s)[..|a|] == a && (b + t)[..|b|] == b;
    assert (a + s)[|a|..] == s && (b + t)[|b|..] == t;
  }

  /**
   Main result, exact: from empty stores, a history gets the same answers from both if and only if
   every stale row that a claim of it meets in the table is abandoned, by the same request.
   */
  lemma StoresAgreeIff(cfg: Config, start: int, ops: seq<Op>)
    requires cfg.Valid() && History(cfg, map[], start, ops)
    ensures PlayOracle(cfg, map[], ops).outcomes == PlayMemory(cfg, map[], ops).outcomes <==>
            StaleRowsTakenOver(cfg, map[], ops)
  {
    StoresAgreeFromIff(cfg, map[], map[], start, ops);
  }

  /**
   In particular: from empty stores, every regular history gets the same answers from both, the
   replayed status and body included.
   */
  lemma OracleAnswersLikeMemory(cfg: Config, start: int, ops: seq<Op>)
    requires cfg.Valid() && History(cfg, map[], start, ops) && Regular(cfg, map[], ops)
    ensures PlayOracle(cfg, map[], ops).outcomes == PlayMemory(cfg, map[], ops).outcomes
  {
    RegularNeverStale(cfg, map[], start, ops);
    NeverStaleTakenOver(cfg, map[], ops);
    StoresAgreeIff(cfg, start, ops);
  }

  /** The exception is real: a claim on the expiry instant is granted in memory and replayed by the table. */
  lemma ExpiryInstantDiffers()
    ensures var cfg := Config(10, 5);
            var ops := [Claim("k", "f", 0, {}), Complete("k", 201, Json("{}"), 1), Claim("k", "f", 10, {})];
            && History(cfg, map[], 0, ops)
            && PlayMemory(cfg, map[], ops).outcomes == [Claimed, Claimed]
            && PlayOracle(cfg, map[], ops).outcomes == [Claimed, Replay(201, Json("{}"))]
  {
    var cfg := Config(10, 5);
    var op0, op1, op2 := Claim("k", "f", 0, {}), Complete("k", 201, Json("{}"), 1), Claim("k", "f", 10, {});
    var ops := [op0, op1, op2];
    var r0: Records := map[];
    var r1: Records := map["k" := NewClaim(cfg, "f", 0)];
    var r2: Records := map["k" := NewClaim(cfg, "f", 0).(state := Completed, status := Some(201), body := Json("{}"))];
    assert ops[1..] == [op1, op2] && ops[1..][1..] == [op2] && [op2][1..] == [];
    assert PurgeableKeys(r0, 0) == {} && PurgeableKeys(r2, 10) == {};
    assert r0 - {} == r0 && r1 - {} == r1 && r2 - {} == r2;
    assert PlayOne(cfg, r0, {}, op0) == Played([Claimed], r1);
    assert PlayOne(cfg, r1, {}, op1) == Played([], r2);
    assert PlayOne(cfg, r2, {}, op2) == Played([Replay(201, Json("{}"))], r2);
    assert History(cfg, r2, 1, [op2]);
    assert History(cfg, r1, 0, [op1, op2]);
    assert OwnExpired(r2, "k", 10) == {"k"} && OwnExpired(r0, "k", 0) == {};
    assert PlayOne(cfg, r2, {"k"}, op2).outcomes == [Claimed];
    assert PlayMemory(cfg, r2, [op2]).outcomes == [Claimed];
    assert PlayMemory(cfg, r1, [op1, op2]).outcomes == [Claimed];
    assert PlayOracle(cfg, r2, [op2]).outcomes == [Replay(201, Json("{}"))];
    assert PlayOracle(cfg, r1, [op1, op2]).outcomes == [Replay(201, Json("{}"))];
  }
}
