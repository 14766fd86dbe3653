/**
 The claim store behind idempotent endpoints: what a claim record holds, the rule by
 which a claim is decided, and the in-memory store that implements it.
 */
module IdempotencyStore {
  import opened Wrappers

  /** A response body: `undefined`, or a JSON value given by its text. */
  datatype Body = Undefined | Json(text: string)

  datatype ClaimState = InProgress | Completed

  datatype ClaimRecord = ClaimRecord(
    fingerprint: string,
    state: ClaimState,
    claimedAt: int,
    expiresAt: int,
    status: Option<int>,
    body: Body)

  datatype ClaimOutcome = Claimed | Running | Mismatch | Replay(status: int, body: Body)

  /** Both durations are at least one millisecond (the configuration schema demands it). */
  datatype Config = Config(ttlMs: int, inProgressTtlMs: int) {
    predicate Valid() {
      ttlMs >= 1 && inProgressTtlMs >= 1
    }
  }

  type Records = map<string, ClaimRecord>

  const DEFAULT_STATUS := 200

  /** How a store call ends: normally, or with an error that did or did not reach the records. */
  datatype Fate = Done | Lost | AppliedButFailed

  /** The record a granted claim leaves behind. */
  function NewClaim(cfg: Config, fingerprint: string, now: int): ClaimRecord {
    ClaimRecord(fingerprint, InProgress, now, now + cfg.ttlMs, None, Undefined)
  }

  /** An in-progress claim held for longer than the in-progress TTL counts as abandoned. */
  predicate Abandoned(cfg: Config, rec: ClaimRecord, now: int) {
    rec.state == InProgress && now - rec.claimedAt > cfg.inProgressTtlMs
  }

  predicate Expired(rec: ClaimRecord, now: int) {
    rec.expiresAt <= now
  }

  /** The answer to a claim that finds `existing` under its key. */
  function Answer(cfg: Config, existing: Option<ClaimRecord>, fingerprint: string, now: int): ClaimOutcome {
    match existing
    case None => Claimed
    case Some(rec) =>
      if rec.fingerprint != fingerprint then Mismatch
      else if Abandoned(cfg, rec, now) then Claimed
      else if rec.state == InProgress then Running
      else Replay(rec.status.GetOr(DEFAULT_STATUS), rec.body)
  }

  function Lookup<T>(m: map<string, T>, key: string): Option<T> {
    if key in m then Some(m[key]) else None
  }

  /**
   The rule both stores follow. The expired records in `purged` go first; what is left under
   `key` decides the answer at instant `checked`; a grant writes a new claim stamped `now`.
   */
  function ClaimStep(cfg: Config, records: Records, purged: set<string>, key: string, fingerprint: string,
                     now: int, checked: int): (r: (ClaimOutcome, Records))
  {
    var kept := records - purged;
    var answer := Answer(cfg, Lookup(kept, key), fingerprint, checked);
    (answer, if answer == Claimed then kept[key := NewClaim(cfg, fingerprint, now)] else kept)
  }

  function CompleteStep(records: Records, key: string, status: int, body: Body): Records {
    if key in records
    then records[key := records[key].(state := Completed, status := Some(status), body := body)]
    else records
  }

  function ReleaseStep(records: Records, key: string): Records {
    records - {key}
  }

  /** The in-memory store forgets an expired record only when its own key is claimed again. */
  function OwnExpired(records: Records, key: string, now: int): set<string> {
    if key in records && Expired(records[key], now) then {key} else {}
  }

  class InMemoryIdempotencyStore {
    const cfg: Config
    var records: Records

    constructor (cfg: Config)
      ensures this.cfg == cfg && records == map[]
    {
      this.cfg := cfg;
      records := map[];
    }

    method Claim(key: string, fingerprint: string, now: int) returns (outcome: ClaimOutcome)
      modifies this`records
      ensures (outcome, records) ==
              ClaimStep(cfg, old(records), OwnExpired(old(records), key, now), key, fingerprint, now, now)
    {
      ghost var kept := records - OwnExpired(records, key, now);
      if key !in records || records[key].expiresAt <= now {
        records := records[key := ClaimRecord(fingerprint, InProgress, now, now + cfg.ttlMs, None, Undefined)];
        assert records == kept[key := NewClaim(cfg, fingerprint, now)];
        return Claimed;
      }
      assert kept == records;
      var existing := records[key];
      if existing.fingerprint != fingerprint {
        return Mismatch;
      }
      if existing.state == InProgress {
        if now - existing.claimedAt > cfg.inProgressTtlMs {
          records := records[key := ClaimRecord(fingerprint, InProgress, now, now + cfg.ttlMs, None, Undefined)];
          return Claimed;
        }
        return Running;
      }
      return Replay(existing.status.GetOr(200), existing.body);
    }

    method Complete(key: string, status: int, body: Body)
      modifies this`records
      ensures records == CompleteStep(old(records), key, status, body)
    {
      if key in records {
        var existing := records[key];
        records := records[key := existing.(state := Completed, status := Some(status), body := body)];
      }
    }

    method Release(key: string)
      modifies this`records
      ensures records == ReleaseStep(old(records), key)
    {
      records := map k | k in records && k != key :: records[k];
    }
  }
}
