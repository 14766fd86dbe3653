# Runtime protocols of a NestJS service, modelled and proved in Dafny

This project models the stateful core of the service template (idempotent requests, database units of
work, the cluster primary and its workers, the semaphore, the circuit breaker with its retrying client,
error origins and trace contexts) and proves what that code keeps over all runs.

The state machines (requests and claims, the table's statements, database sessions, the cluster, a worker,
the semaphore, the breaker and its callers) are taken at the granularity at which the event loop can
interleave them: a stretch between two `await`s is one step, any enabled step may come next, and the clock
never goes back. Two modules are coarser, and another takes each apart: `IdempotencyProtocol` has a claim as
one step, which it is in memory, while `OracleClaimRace` interleaves the statements of a table-backed claim;
the interpreter of `DatabaseModel` runs one nested program at a time, while `DatabaseTraffic` interleaves the
round trips of any number of calls on the shared pool. Where the source updates an object in place there is
a class whose methods are proved against the step functions, or against the functions they are made of; the
theorems are about those functions and all runs made of them. `dafny verify dfyconfig.toml` checks the
project.

| module | what it models |
|---|---|
| `IdempotencyStore`, `OracleIdempotencyStore` | the two claim stores, and that they answer alike |
| `IdempotencyProtocol` | requests racing for atomic claims: one handler per key, exact replays |
| `OracleClaimRace` | the table-backed claim statement by statement, rows locked and committed: what it still promises, and exactly when |
| `ErrorMapper`, `ContextUser` | driver errors through several layers; the acting user's identifier |
| `DatabaseModel`, `Database`, `DatabaseProofs` | pool, connections, transactions and units as an interpreter for programs of nested calls |
| `DatabaseTraffic` | overlapping calls on the shared pool, one round trip at a time |
| `ClusterPrimary`, `WorkerShutdown` | forking, leader, respawn cap, bounded shutdown; one worker's drain and jobs |
| `Semaphore` | the concurrency limiter with barging |
| `CircuitBreaker`, `HttpClient`, `HttpTraffic` | the breaker, the retry loop, and many requests sharing one breaker |
| `ErrorOrigin`, `TraceContext`, `Text` | the walk down possibly cyclic causes; the `traceparent` header; string operations |

## What the environment is assumed to do

- Worker ids are fresh and a worker exits once; a signal sent to a worker arrives at once.
- A connection closed with open work has that work rolled back by the driver; the client identifier travels
  with the next round trip that reaches the server. A round trip may succeed, be lost, be refused by the
  server, or take effect with its reply lost.
- The database enforces the primary key, locks a changed row until its transaction ends, and lets queries
  read committed rows.
- The database clock, by which the purge decides, and the process clock, by which claims are stamped, agree
  (`IdempotencyProtocol.BothStoresRemoveOnlyExpired`, `OracleClaimRace`, and the histories of
  `OracleIdempotencyStore`); the store's own `ClaimOn` does not need it.
- The metrics server of the primary closes when asked to: the shutdown waits for that without a timeout
  (`ClusterPrimary.ShutdownMovesOn`).
- For the worker's time budget only: timers fire on time and the server closes once its connections are cut.

## Findings: where the code and its documentation part

- `mapOracleError` says that mapped errors pass through. An execution error has a `code` of its own and is
  wrapped again by every layer (`ErrorMapper.ExecutionErrorIsWrappedAgain`), exactly then
  (`ErrorMapper.RemappingIsIdentityIff`); class and code survive (`ErrorMapper.FirstMappingDecides`).
- The takeover of an abandoned claim in the Oracle store updates by key alone, not by the row it was decided
  on. At statement granularity all three promises of the claim can break: two retries that read the abandoned
  row are both granted, at the same instant (`OracleClaimRace.TwoTakeoversBothGranted`), and the second can
  overwrite a completed answer (`OracleClaimRace.TakeoverDiscardsAnswer`). Exactly when: exclusion,
  `OracleClaimRace.BlindStepSafeIff`; replay, `OracleClaimRace.ReplayGuaranteedIff`; spacing,
  `OracleClaimRace.TooEarlyIff`. No takeover breaks any while it still finds its row
  (`OracleClaimRace.FreshTakeoverIsSafe`).
- After a failed store call the interceptor releases the key, though the call may have taken effect. A release
  of a failed Result is then sent twice and may free a successor's claim
  (`IdempotencyProtocol.RepeatedReleaseFreesSuccessor`, `OracleClaimRace.RepeatedReleaseOverlaps`); a completion
  is withdrawn although a request was already answered from it
  (`IdempotencyProtocol.LostCompletionIsWithdrawn`). Exactly when: exclusion,
  `IdempotencyProtocol.ExclusiveIffNeverProvoked` and `OracleClaimRace.BlindStepSafeIff`; replay,
  `IdempotencyProtocol.ReplayGuaranteedIff` and `OracleClaimRace.ReplayGuaranteedIff`.
- The stores treat the expiry instant differently, `<=` in memory and `<` in the purge
  (`OracleIdempotencyStore.ExpiryInstantDiffers`); on which histories they agree is exact
  (`OracleIdempotencyStore.StoresAgreeIff`).
- A source with `contextUser.required` runs a call without a user when the limit is below the bytes of the
  name's first character, and only then (`DatabaseProofs.RequiredUserLostIff`,
  `DatabaseProofs.RequiredUserCutAway`).
- A success of an earlier call closes an open circuit before its reset time
  (`CircuitBreaker.OpenRefusesUnlessLateSuccess`, `CircuitBreaker.LateSuccessClosesEarly`), and late failures
  restart the wait whenever they complete another count (`CircuitBreaker.LateFailureRestartsIff`,
  `CircuitBreaker.LateFailuresExtendTheWait`).
- A commit whose reply is lost makes the call throw although everything was committed
  (`DatabaseProofs.LostCommitReply`), and nothing else does (`DatabaseProofs.ReturnsIffConfirmed`).

## Model

| member | source | states |
|---|---|---|
| IdempotencyStore.InMemoryIdempotencyStore.Claim | src/infrastructure/database/idempotency/in-memory-idempotency.store.ts:27-63 | a claim answers by the common rule after removing only its own key's expired record, and writes nothing unless granted |
| IdempotencyStore.InMemoryIdempotencyStore.Complete | src/infrastructure/database/idempotency/in-memory-idempotency.store.ts:65-73 | completion stores status and body in an existing record and leaves its two instants alone; without a record nothing happens |
| IdempotencyStore.InMemoryIdempotencyStore.Release | src/infrastructure/database/idempotency/in-memory-idempotency.store.ts:75-78 | release removes the key's record and no other |
| OracleIdempotencyStore.OracleIdempotencyStore.ClaimOn | src/infrastructure/database/idempotency/oracle-idempotency.store.ts:106-152 | purge, insert, select, second insert after a vanished row and takeover together follow the same rule, for two separate readings of the process clock and whatever rows the purge picks by the database's clock |
| OracleIdempotencyStore.OracleIdempotencyStore.PurgeExpired | src/infrastructure/database/idempotency/oracle-idempotency.store.ts:154-158 | exactly the picked rows go |
| OracleIdempotencyStore.OracleIdempotencyStore.TryInsert | src/infrastructure/database/idempotency/oracle-idempotency.store.ts:160-177 | the insert succeeds exactly when the key has no row; a unique violation leaves the table as it was |
| OracleIdempotencyStore.OracleIdempotencyStore.Complete | src/infrastructure/database/idempotency/oracle-idempotency.store.ts:75-92 | the updated row stands for the completed record, body encoding included |
| OracleIdempotencyStore.OracleIdempotencyStore.Release | src/infrastructure/database/idempotency/oracle-idempotency.store.ts:94-104 | the key's row goes and no other |
| OracleIdempotencyStore.Decode | src/infrastructure/database/idempotency/oracle-idempotency.store.ts:149-150 | decoding is the inverse of encoding: every column value is the encoding of the body read from it |
| OracleIdempotencyStore.ClaimsAgreeIff | src/infrastructure/database/idempotency/oracle-idempotency.store.ts:106-158 | on one claim the stores agree if and only if the purge left no expired row under the key, or that row is abandoned with the same fingerprint |
| OracleIdempotencyStore.SameLiveStep | src/infrastructure/database/idempotency/oracle-idempotency.store.ts:75-158 | every call keeps the two stores equal on unexpired records and answers alike, also a claim that takes a stale row over |
| OracleIdempotencyStore.FullPurge | src/infrastructure/database/idempotency/oracle-idempotency.store.ts:154-158 | with at most 100 expired rows the purge removes them all |
| OracleIdempotencyStore.StoresAgreeIff | src/infrastructure/database/idempotency/oracle-idempotency.store.ts:67-158 | on any history from empty stores, both give the same sequence of outcomes if and only if every stale row that a claim meets in the table is abandoned and of the same fingerprint |
| OracleIdempotencyStore.OracleAnswersLikeMemory | src/infrastructure/database/idempotency/oracle-idempotency.store.ts:67-158 | on every history without a claim on an expiry instant or more than 100 expired rows, both stores give the same sequence of outcomes |
| OracleIdempotencyStore.ExpiryInstantDiffers | src/infrastructure/database/idempotency/oracle-idempotency.store.ts:154-158 | a concrete history with a claim on the expiry instant: granted in memory, replayed by the table |
| IdempotencyProtocol.IdempotencyInterceptor.Before | src/interface/http/interceptors/idempotency.interceptor.ts:69-88 | the reply for each claim outcome, and that the handler runs exactly on a grant |
| IdempotencyProtocol.IdempotencyInterceptor.After | src/interface/http/interceptors/idempotency.interceptor.ts:89-104 | a value completes the claim; a failed Result or an exception releases it |
| IdempotencyProtocol.UnprovokedStepKeeps | src/interface/http/interceptors/idempotency.interceptor.ts:69-104 | with atomic claims, every step that provokes nobody keeps one request per key in flight, from its grant to its last store call, each with its claim's record untouched until it expires |
| IdempotencyProtocol.AtMostOneHandler | src/interface/http/interceptors/idempotency.interceptor.ts:69-104 | with atomic claims, at most one request per key between its grant and its last store call, in every interleaving, with crashes and failing store calls, when requests keep the in-progress and expiry deadlines and no release of a failed Result takes effect while reporting an error |
| IdempotencyProtocol.ExclusiveIffNeverProvoked | src/infrastructure/database/idempotency/in-memory-idempotency.store.ts:31-56 | with atomic claims that report their effects (none both takes effect and fails), the exact condition: exclusion holds throughout a run if and only if no arrival finds a request of its key in flight that is overdue for its fingerprint or has lost its record |
| IdempotencyProtocol.InMemoryExclusiveIff | src/infrastructure/database/idempotency/in-memory-idempotency.store.ts:27-63 | for the in-memory store the condition is one of time alone: exclusion holds throughout a run if and only if no request arrives for a handler's key after its TTL, or for the same request after the in-progress TTL, counted from its claim |
| IdempotencyProtocol.ToldWhileRunning | src/interface/http/interceptors/idempotency.interceptor.ts:72-80 | while a handler is within its deadlines, an arrival with its fingerprint is told that it is still running, any other that the key is taken, and nothing is written |
| IdempotencyProtocol.FailureFreesKey | src/interface/http/interceptors/idempotency.interceptor.ts:91-103 | after a failed Result or an exception the next arrival for the key is granted, with any fingerprint |
| IdempotencyProtocol.FailedClaimRunsNothing | src/interface/http/interceptors/idempotency.interceptor.ts:70-70 | a claim that reports an error runs no handler, whether or not it took effect |
| IdempotencyProtocol.ReplaysUntilExpiry | src/infrastructure/database/idempotency/in-memory-idempotency.store.ts:58-62 | with atomic claims, from a completed record with nobody in flight for its key (that is, after a completion whose reply came back) to its expiry, in every run, no handler runs for the key and each request gets the stored status and body, or is turned away for another fingerprint |
| IdempotencyProtocol.ReplayGuaranteedIff | src/interface/http/interceptors/idempotency.interceptor.ts:89-104 | the exact condition: with atomic claims a completed record survives every run up to its expiry if and only if no request of its key is in flight |
| IdempotencyProtocol.LostCompletionIsWithdrawn | src/interface/http/interceptors/idempotency.interceptor.ts:92-103 | a concrete run in which a completion whose reply was lost answers one request and is then released, so that the handler runs again long before the expiry |
| IdempotencyProtocol.CompletionSettles | src/interface/http/interceptors/idempotency.interceptor.ts:90-97 | a handler that completes in time leaves exactly its own status and body under the key |
| IdempotencyProtocol.HandledOnceThenReplayed | src/interface/http/interceptors/idempotency.interceptor.ts:69-104 | the two together, with atomic claims and from an empty store on: one request at a time has the key, and once it completes in time the key stays settled to its expiry, with every arrival answered from it |
| IdempotencyProtocol.GrantsAreSpaced | src/infrastructure/database/idempotency/in-memory-idempotency.store.ts:31-56 | with atomic claims, whatever handlers do, consecutive grants of a key without a release are at least the TTL or more than the in-progress TTL apart, also when a purge leaves expired records behind |
| IdempotencyProtocol.GrantStarts | src/infrastructure/database/idempotency/oracle-idempotency.store.ts:113-117 | a grant leaves a record stamped with its instant, from which the spacing is measured |
| IdempotencyProtocol.BothStoresRemoveOnlyExpired | src/infrastructure/database/idempotency/oracle-idempotency.store.ts:154-158 | a claim that no other claim interleaves with removes only expired records first, in either store |
| IdempotencyProtocol.OverdueHandlerFreesSuccessor | src/interface/http/interceptors/idempotency.interceptor.ts:98-103 | a concrete run in which a late handler's release frees its successor's claim, and two timely handlers overlap |
| IdempotencyProtocol.RepeatedReleaseFreesSuccessor | src/interface/http/interceptors/idempotency.interceptor.ts:92-103 | a concrete run in which a release whose reply was lost is sent again and frees a successor's claim, so that two timely handlers overlap |
| OracleClaimRace.StepKeepsInv | src/infrastructure/database/idempotency/oracle-idempotency.store.ts:106-177 | every statement and store call, failing ones included, that is not a harmful takeover or repeated release keeps: the lock holder commits its own claim, a handler at work owns the committed unlocked row |
| OracleClaimRace.ToldWhileRunning | src/infrastructure/database/idempotency/oracle-idempotency.store.ts:130-135 | a claim that reads the row of a timely handler is told that it is still running, or that the key is taken, by its fingerprint alone |
| OracleClaimRace.VanishedRowIsGranted | src/infrastructure/database/idempotency/oracle-idempotency.store.ts:118-127 | a claim whose conflicting row vanished is granted by its second insert |
| OracleClaimRace.AbandonedRowIsTakenOver | src/infrastructure/database/idempotency/oracle-idempotency.store.ts:132-144 | a claim that reads an abandoned row of its own fingerprint takes it over and is granted |
| OracleClaimRace.PurgeMakesRoom | src/infrastructure/database/idempotency/oracle-idempotency.store.ts:111-117 | a claim whose purge took the expired row is granted by its first insert |
| OracleClaimRace.OnlyCommitsChangeRow | src/infrastructure/database/idempotency/oracle-idempotency.store.ts:94-144 | the committed row changes only by a commit or an effective completion or release |
| OracleClaimRace.ReleaseFreesKey | src/infrastructure/database/idempotency/oracle-idempotency.store.ts:94-104 | an effective release leaves no row and no lock |
| OracleClaimRace.ExclusiveUnlessHarmful | src/infrastructure/database/idempotency/oracle-idempotency.store.ts:94-144 | at statement granularity, with failing store calls, at most one handler runs, as long as no takeover finds the row gone or a handler at work and no repeated release finds a handler at work |
| OracleClaimRace.BlindStepSafeIff | src/infrastructure/database/idempotency/oracle-idempotency.store.ts:94-144 | the condition is exact: after a takeover or repeated release two handlers can meet, nobody late and no further such step, if and only if it was harmful |
| OracleClaimRace.NeverDoomedIff | src/infrastructure/database/idempotency/oracle-idempotency.store.ts:106-144 | the same for whole runs: exclusion is never at risk if and only if no takeover or repeated release was harmful |
| OracleClaimRace.CompletionSettles | src/infrastructure/database/idempotency/oracle-idempotency.store.ts:75-92 | a completion that takes effect, its reply lost or not, leaves the handler's own status and body as the committed row, unlocked, and no handler at work |
| OracleClaimRace.ReplaysUnlessBlind | src/infrastructure/database/idempotency/oracle-idempotency.store.ts:130-151 | from completion to expiry, at statement granularity, every claim is told from the completed row and none runs, as long as no takeover and no repeated release comes |
| OracleClaimRace.ReplayGuaranteedIff | src/infrastructure/database/idempotency/oracle-idempotency.store.ts:94-144 | a completed answer survives every run up to its expiry if and only if no claim that had read the abandoned row is still on its way to take it over and no request is about to release the key after a failed store call |
| OracleClaimRace.GrantStands | src/infrastructure/database/idempotency/oracle-idempotency.store.ts:113-117 | a grant stands from its commit: its stamped row is there, unlocked, and nobody else is about to be granted |
| OracleClaimRace.GrantsAreSpaced | src/infrastructure/database/idempotency/oracle-idempotency.store.ts:106-144 | at statement granularity consecutive grants without a release are at least the TTL or more than the in-progress TTL apart, unless a takeover lands on a row that is neither overdue nor expired |
| OracleClaimRace.TooEarlyIff | src/infrastructure/database/idempotency/oracle-idempotency.store.ts:132-144 | a takeover's grant can come too early if and only if it lands on such a row |
| OracleClaimRace.FreshTakeoverIsSafe | src/infrastructure/database/idempotency/oracle-idempotency.store.ts:130-144 | a takeover that still finds the row it was decided on breaks none of the three: exclusion, replay, spacing |
| OracleClaimRace.TwoTakeoversBothGranted | src/infrastructure/database/idempotency/oracle-idempotency.store.ts:132-144 | a concrete interleaving in which two retries both take over one abandoned claim: two timely handlers, and two grants at the same instant |
| OracleClaimRace.TakeoverDiscardsAnswer | src/infrastructure/database/idempotency/oracle-idempotency.store.ts:132-144 | a concrete interleaving in which the second takeover overwrites a completed answer 98 ms before it expires and runs the handler again |
| OracleClaimRace.RepeatedReleaseOverlaps | src/interface/http/interceptors/idempotency.interceptor.ts:92-103 | a concrete interleaving of statements without any takeover in which a release whose reply was lost is repeated on a successor's row, and two timely handlers run |
| ErrorMapper.FirstMappingDecides | src/infrastructure/database/clients/oracle/oracle-error.mapper.ts:35-52 | after any number of mappings a driver error, with a code or only a number, has the class and code of the first; ORA-00001 alone gives a conflict, the listed codes alone a connection error, with the first call's source and tag; execution errors gain one wrapper a layer |
| ErrorMapper.RemappingIsIdentityIff | src/infrastructure/database/clients/oracle/oracle-error.mapper.ts:31-36 | mapping a mapped error changes nothing if and only if it is not an execution error with a code |
| ErrorMapper.ExecutionErrorIsWrappedAgain | src/infrastructure/database/clients/oracle/oracle-error.mapper.ts:31-52 | a concrete error that the second layer wraps again |
| ErrorMapper.NumbersAreRecognised | src/infrastructure/database/clients/oracle/oracle-error.mapper.ts:38-49 | errors that carry only a number are recognised by it: 1 is the unique violation, 12541 a connection failure |
| ErrorMapper.NumberedCode | src/infrastructure/database/clients/oracle/oracle-error.mapper.ts:38-40 | a number below 100 000 becomes `ORA-` and five digits that read back as it |
| ContextUser.TruncateBytes | src/infrastructure/database/clients/oracle.client.ts:222-230 | the loop returns the longest prefix within the byte limit |
| ContextUser.LongestPrefixIsUnique | src/infrastructure/database/clients/oracle.client.ts:221-230 | there is only one such prefix |
| ContextUser.ResolveContextUser | src/infrastructure/database/clients/oracle.client.ts:127-143 | refused exactly when a user is required and none is named; a named user is cut to the longest fitting prefix |
| ContextUser.NamedUserIsKept | src/infrastructure/database/clients/oracle.client.ts:127-142 | what is given as context user wins over the username; a named user counts on every source that keeps users, required or not, and on no other |
| ContextUser.CutToNothingIff | src/infrastructure/database/clients/oracle.client.ts:133-142 | a named user is lost if and only if the limit is below its first character's bytes |
| Text.TrimmedEnds | src/infrastructure/database/clients/oracle.client.ts:129-129 | a trimmed name neither starts nor ends with white space |
| Text.TrimTakesOnlySpace | src/infrastructure/database/clients/oracle.client.ts:129-129 | trimming takes away white space at the two ends and nothing else |
| Database.Database.Execute | src/infrastructure/database/clients/oracle.client.ts:181-203 | a statement flushes the client identifier and runs under it, for each way the round trip can end |
| Database.Database.GetConnection | src/infrastructure/database/clients/oracle.client.ts:46-52 | the pool lends one of its own connections or a new one, or fails and lends none |
| Database.Database.Open | src/infrastructure/database/clients/oracle.client.ts:40-56 | the user is resolved before borrowing; then timeout and identifier are set |
| Database.Database.EndTransaction | src/infrastructure/database/clients/oracle.client.ts:71-88 | a result is committed; a failing body or commit is rolled back and its own error rethrown |
| Database.Database.Release | src/infrastructure/database/clients/oracle.client.ts:145-172 | the identifier is cleared and flushed before the connection is offered again, else it is dropped; closed once either way |
| Database.Database.EndCall | src/infrastructure/database/clients/oracle.client.ts:58-65 | settle, map, then always give back |
| Database.Database.OwnCall | src/infrastructure/database/clients/oracle.client.ts:40-89 | a whole call on its own connection does what the interpreter says |
| Database.Database.HandleCall | src/infrastructure/database/connection/pool.manager.ts:108-127 | `withConnection` and `transaction` join the ambient connection and map errors there, or use their own |
| Database.Database.RunInTransaction | src/infrastructure/database/connection/pool.manager.ts:136-148 | an inner unit runs its work directly; the outermost one opens the transaction the work joins |
| Database.Database.UnitRun | src/infrastructure/database/unit-of-work/database-unit-of-work.ts:14-29 | a failed Result travels as an exception inside the unit and comes out as the value |
| Database.Database.Run | src/infrastructure/database/connection/pool.manager.ts:108-162 | any top-level program run against the objects ends as the interpreter says, leaves nothing borrowed and only clean connections in the pool, and a unit's writes are committed all in order or not at all |
| Database.Database.RunIn | src/infrastructure/database/connection/pool.manager.ts:108-162 | any program of nested calls, in any scope, ends as the interpreter says |
| DatabaseProofs.EvalSteady | src/infrastructure/database/connection/pool.manager.ts:108-167 | main invariant: every program only adds writes to the connections in its scope, leaves none in use, and keeps the pool tidy |
| DatabaseProofs.BeginSpec | src/infrastructure/database/clients/oracle.client.ts:44-56 | a begun call holds a connection nobody uses, with an empty session identity and its own user set |
| DatabaseProofs.FinishSpec | src/infrastructure/database/clients/oracle.client.ts:67-89 | a finished call commits its open work or none of it and leaves the connection tidy |
| DatabaseProofs.SettleSpec | src/infrastructure/database/clients/oracle.client.ts:71-88 | only a result is committed, and whichever of commit and rollback takes effect leaves no open work |
| DatabaseProofs.GivenBackIff | src/infrastructure/database/clients/oracle.client.ts:145-172 | a connection goes back to the pool if and only if its user, if any, was cleared for certain and closing took effect |
| DatabaseProofs.TimeoutIsOwn | src/infrastructure/database/clients/oracle.client.ts:54-55 | no call inherits another call's timeout: it has its own, or the source's |
| DatabaseProofs.RefusedIff | src/infrastructure/database/clients/oracle.client.ts:40-52 | a call is refused, before the pool is asked, exactly when a required user is not named, and otherwise exactly when the pool fails, with the pool's error inside |
| DatabaseProofs.PoolStaysClean | src/infrastructure/database/clients/oracle.client.ts:145-172 | whatever fails, after any programs one after another every pooled connection has an empty server-side identifier and no open work, and every borrow was closed exactly once |
| DatabaseProofs.UnitIsAllOrNothing | src/infrastructure/database/connection/pool.manager.ts:129-148 | the outermost unit uses one connection; all its writes are committed in order or none is, each under the unit's user |
| DatabaseProofs.ReturnsIffConfirmed | src/infrastructure/database/clients/oracle.client.ts:67-89 | the unit's caller is told of success if and only if the body ended well and the commit was confirmed; work is committed without the caller being told if and only if the reply to an effective commit was lost |
| DatabaseProofs.LostCommitReply | src/infrastructure/database/clients/oracle.client.ts:71-88 | a concrete call that throws although its write was committed |
| DatabaseProofs.JoinedCallsOnlyWrite | src/infrastructure/database/connection/pool.manager.ts:113-125 | inside a unit no call commits, rolls back or borrows |
| DatabaseProofs.JoinedCallUsesUnitsConnection | src/infrastructure/database/connection/pool.manager.ts:113-114 | a joined call writes on the unit's connection, whatever connection its caller holds, and on no other |
| DatabaseProofs.JoinedWriteIsTheUnits | src/infrastructure/database/connection/pool.manager.ts:150-158 | a write of a joined call is the next one in the unit's open work, under the unit's user |
| DatabaseProofs.OwnWriteIsItsOwn | src/infrastructure/database/clients/oracle.client.ts:40-89 | outside a unit a call writes on the connection it borrowed, and commits it exactly when it is a transaction |
| DatabaseProofs.PlainCallsAreNotJoined | src/infrastructure/database/connection/pool.manager.ts:108-127 | outside a unit a nested transaction has its own connection and commits, whatever becomes of the call around it |
| DatabaseProofs.UnitGivesNoHandle | src/infrastructure/database/connection/pool.manager.ts:136-148 | a unit's work reaches its connection only through the calls it makes |
| DatabaseProofs.CaughtFailureDoesNotDecide | src/infrastructure/database/connection/pool.manager.ts:136-148 | when a nested unit's exception is caught, the outermost unit commits all the writes, the nested unit's included |
| DatabaseProofs.FailedResultRollsBack | src/infrastructure/database/unit-of-work/database-unit-of-work.ts:18-27 | a failed Result of the outermost unit comes back unchanged with nothing committed |
| DatabaseProofs.NestedUnitIsTransparent | src/infrastructure/database/unit-of-work/database-unit-of-work.ts:14-29 | a nested unit hands its outcome on as it is, for every body that does not itself raise the units' own exception; only the outermost decides |
| DatabaseProofs.RollbackStaysInside | src/infrastructure/database/unit-of-work/database-unit-of-work.ts:20-27 | the exception that carries a failed Result never leaves a program |
| DatabaseProofs.DriverErrorKeepsClass | src/infrastructure/database/connection/pool.manager.ts:150-162 | a statement failing with a driver error, under any mix of joined calls and after anything done before, reaches the outermost unit's caller with the class and code of its first mapping, and nothing is committed |
| DatabaseProofs.NestThrows | src/infrastructure/database/connection/pool.manager.ts:150-162 | an error leaves any nest of joined calls and units mapped once by each call that was given the connection |
| DatabaseProofs.RequiredUserLostIff | src/infrastructure/database/clients/oracle.client.ts:127-142 | a source that requires a user opens a call without one if and only if the limit is below the bytes of the given name's first character |
| DatabaseProofs.RequiredUserCutAway | src/infrastructure/database/clients/oracle.client.ts:133-142 | a concrete name and limit for which that happens |
| DatabaseProofs.UnitRunsUnderActor | src/infrastructure/database/unit-of-work/database-unit-of-work.ts:17-25 | the actor of a unit of work is the user its connection runs under |
| DatabaseTraffic.StepKeepsPool | src/infrastructure/database/clients/oracle.client.ts:40-65 | any round trip of any of several overlapping calls keeps every connection in use with exactly one call and all others tidy |
| DatabaseTraffic.SharedPoolStaysClean | src/infrastructure/database/clients/oracle.client.ts:145-172 | however calls overlap and whatever fails, a pooled connection has an empty server-side identifier, no open work and one close per borrow; one in use belongs to one call and is known to the server under that call's user or none |
| DatabaseTraffic.CommittedInWholeTransactions | src/infrastructure/database/clients/oracle.client.ts:67-89 | however calls overlap, what is committed is a sequence of whole transactions: each session's writes together, all and in order, under its own user, no session twice |
| DatabaseTraffic.EveryCallCanEnd | src/infrastructure/database/clients/oracle.client.ts:58-65 | no call can be stuck before it has given its connection back, and when all have, none is borrowed |
| DatabaseTraffic.FinishIsARun | src/infrastructure/database/clients/oracle.client.ts:58-89 | the interpreter's end of a call is a run of such a session's round trips, so the overlapping sessions are the same calls |
| ClusterPrimary.ResolveWorkerCount | src/infrastructure/cluster/resolve-worker-count.util.ts:6-9 | the configured count, one per CPU when none is configured, and at least one |
| ClusterPrimary.ClusterPrimary.constructor | src/infrastructure/cluster/cluster-primary.ts:88-101 | the initial workers are forked, the first as leader |
| ClusterPrimary.ClusterPrimary.ForkWorker | src/infrastructure/cluster/cluster-primary.ts:88-98 | a fork adds one worker and moves the leadership only when asked to |
| ClusterPrimary.ClusterPrimary.PruneTimestamps | src/infrastructure/cluster/cluster-primary.ts:125-128 | the loop drops exactly the leading timestamps older than the window |
| ClusterPrimary.ClusterPrimary.HandleExit | src/infrastructure/cluster/cluster-primary.ts:103-145 | the exit handler with its two clock readings takes the specified reaction |
| ClusterPrimary.ClusterPrimary.BeginShutdown | src/infrastructure/cluster/cluster-primary.ts:149-170 | the first signal goes to every live worker, later ones are ignored |
| ClusterPrimary.StepKeepsInv | src/infrastructure/cluster/cluster-primary.ts:77-195 | every step keeps the leader, count, shutdown and queue invariants together |
| ClusterPrimary.PruneFits | src/infrastructure/cluster/cluster-primary.ts:125-128 | pruning drops only timestamps older than the window, so the queue stays the recent end of the history |
| ClusterPrimary.RespawnsAreCapped | src/infrastructure/cluster/cluster-primary.ts:125-139 | every closed minute contains at most the permitted number of replacements, although the clock is read twice |
| ClusterPrimary.LeftAloneIff | src/infrastructure/cluster/cluster-primary.ts:117-139 | an unexpected exit goes unreplaced if and only if replacement is off or the minute up to it is full |
| ClusterPrimary.AtMostOneScheduler | src/interface/scheduler/job-scheduler.ts:42-54 | at most one live worker schedules jobs, and it is the recorded leader |
| ClusterPrimary.LiveWorkersAreCounted | src/infrastructure/cluster/cluster-primary.ts:103-145 | before shutdown live workers are the initial ones less the unreplaced; with the in-memory claim store there is never a second worker |
| ClusterPrimary.LeaderMissingIff | src/infrastructure/cluster/cluster-primary.ts:117-145 | until shutdown exactly one live worker schedules jobs if and only if the scheduler is on and no leader's exit was left unreplaced: a leader is replaced by a leader |
| ClusterPrimary.StandaloneSchedules | src/interface/scheduler/job-scheduler.ts:42-54 | outside a cluster a process schedules whenever the scheduler is on |
| ClusterPrimary.LostLeaderStaysLost | src/infrastructure/cluster/cluster-primary.ts:117-137 | a leader lost without replacement is never replaced later |
| ClusterPrimary.ShutdownForksNothing | src/infrastructure/cluster/cluster-primary.ts:115-115 | once shutdown has begun nothing is forked, workers only leave, and all that remain were signalled |
| ClusterPrimary.FirstSignalReachesAll | src/infrastructure/cluster/cluster-primary.ts:149-156 | the first signal reaches exactly the workers then alive |
| ClusterPrimary.KillsOnlyStragglers | src/infrastructure/cluster/cluster-primary.ts:172-182 | SIGKILL goes out if and only if the full wait is over, to exactly the signalled workers still alive, and only once |
| ClusterPrimary.ExitsAtMostOnce | src/infrastructure/cluster/cluster-primary.ts:149-190 | the process exits at most once and only after a signal |
| ClusterPrimary.ShutdownMovesOn | src/infrastructure/cluster/cluster-primary.ts:158-189 | shutdown never depends on a worker to end |
| ClusterPrimary.ShutdownStepLowersRank | src/infrastructure/cluster/cluster-primary.ts:158-189 | each step of the shutdown brings the exit nearer, so at most two follow the signal |
| ClusterPrimary.MetricsCloseFirst | src/infrastructure/cluster/cluster-primary.ts:184-189 | the process exits right after the wait, or with a metrics server only once that has closed |
| WorkerShutdown.ShutdownState.Begin | src/infrastructure/lifecycle/shutdown-state.ts:11-15 | true for the first caller only |
| WorkerShutdown.JobRunner.Run | src/interface/scheduler/job-runner.ts:19-33 | a tick starts the job exactly when no run is open, and is counted as a start or a skip |
| WorkerShutdown.JobScheduler.Bootstrap | src/interface/scheduler/job-scheduler.ts:42-76 | one idle runner per job on a process that schedules, none elsewhere |
| WorkerShutdown.JobScheduler.StopCrons | src/interface/scheduler/job-scheduler.ts:83-94 | the snapshot is exactly the jobs mid-run, no tick follows, and no run is touched |
| WorkerShutdown.JobScheduler.Tick | src/interface/scheduler/job-scheduler.ts:57-64 | a cron firing does to the scheduler's jobs what the machine's tick does |
| WorkerShutdown.WorkerProcess.OnSignal | src/infrastructure/lifecycle/graceful-shutdown.ts:51-57 | the first signal alone starts the shutdown; the object steps as the machine does and keeps its invariants |
| WorkerShutdown.WorkerProcess.OnServerClosed | src/infrastructure/lifecycle/graceful-shutdown.ts:66-73 | after the server: crons stop, and the application closes at once or after the jobs; the object steps as the machine does and keeps its invariants |
| WorkerShutdown.WorkerProcess.OnJobsDrained | src/interface/scheduler/job-scheduler.ts:96-111 | the wait for jobs ends with the jobs or with its timeout, and then the application closes; the object steps as the machine does |
| WorkerShutdown.JobsNeverOverlap | src/interface/scheduler/job-runner.ts:19-33 | runs of one job never overlap, and ticks are starts plus skips |
| WorkerShutdown.AppClosesLast | src/infrastructure/lifecycle/graceful-shutdown.ts:51-75 | the application closes at most once, after the server, which goes on serving for the drain delay, with no job running or the job drain time over |
| WorkerShutdown.CloseMomentIsSafe | src/infrastructure/lifecycle/graceful-shutdown.ts:66-73 | that condition holds at the very step that closes it |
| WorkerShutdown.EndsWithinBudget | src/infrastructure/lifecycle/graceful-shutdown.ts:56-73 | every step up to the end falls within the summed budget of the signal |
| WorkerShutdown.ProgressLowersRank | src/infrastructure/lifecycle/graceful-shutdown.ts:51-75 | each step of the shutdown moves on to a later stage, the timeout of a hanging job included |
| WorkerShutdown.ProgressIsBounded | src/infrastructure/lifecycle/graceful-shutdown.ts:51-75 | at most four such steps follow the signal, and after four the worker has finished |
| WorkerShutdown.DueStepsFinish | src/infrastructure/lifecycle/graceful-shutdown.ts:56-73 | from any moment of a shutdown on schedule, the due steps, each at the latest by its deadline, lead to the end within the summed budget, whatever the jobs do |
| WorkerShutdown.FinishedByBudget | src/infrastructure/lifecycle/graceful-shutdown.ts:56-73 | a run in which every due step happens by its deadline has finished once the budget is over |
| WorkerShutdown.ConnectionsAreCutOnce | src/infrastructure/lifecycle/graceful-shutdown.ts:60-69 | connections are cut at most once, while the server closes and not before the force time |
| WorkerShutdown.DoneBeforeTheKill | src/infrastructure/cluster/cluster-primary.ts:158-182 | a signalled worker whose own close fits the slack is due to be done before the primary may kill it |
| Semaphore.Semaphore.constructor | src/infrastructure/database/utils/semaphore.util.ts:5-7 | the limit is at least one |
| Semaphore.Semaphore.Enter | src/infrastructure/database/utils/semaphore.util.ts:8-19 | a caller takes a permit if one is free and queues at the end otherwise |
| Semaphore.Semaphore.Leave | src/infrastructure/database/utils/semaphore.util.ts:13-17 | the permit is given back and the head of the queue woken |
| Semaphore.StepKeepsInv | src/infrastructure/database/utils/semaphore.util.ts:8-21 | every step conserves permits and callers, and keeps free permits at most the woken callers while anyone waits |
| Semaphore.LimitAndNoStranding | src/infrastructure/database/utils/semaphore.util.ts:8-21 | at most the given number run, or one if it is less, and exactly that many while callers wait unwoken; no waiter is left without a running or woken caller, barging included |
| Semaphore.WokenInOrder | src/infrastructure/database/utils/semaphore.util.ts:13-19 | callers are woken in exactly the order in which they were parked, none skipped and none twice |
| Semaphore.DrainBounded | src/infrastructure/database/utils/semaphore.util.ts:13-20 | without arrivals every schedule ends within a bounded number of steps |
| Semaphore.EveryCallerFinishes | src/infrastructure/database/utils/semaphore.util.ts:8-21 | when it ends, every caller there ever was has finished and all permits are back |
| Semaphore.WokenCallerCanBeOvertaken | src/infrastructure/database/utils/semaphore.util.ts:19-20 | a concrete run in which a newcomer overtakes a woken caller |
| CircuitBreaker.CircuitBreaker.Ask | src/infrastructure/http/circuit-breaker.ts:30-46 | the question, which may also turn an open breaker half-open |
| CircuitBreaker.CircuitBreaker.RecordSuccess | src/infrastructure/http/circuit-breaker.ts:48-52 | a success closes the breaker from any state |
| CircuitBreaker.CircuitBreaker.RecordFailure | src/infrastructure/http/circuit-breaker.ts:54-64 | a failure opens it from half-open or at the threshold, and is counted otherwise |
| CircuitBreaker.BreakerIsItsHistory | src/infrastructure/http/circuit-breaker.ts:18-75 | state, failure count and opening instant equal what the history gives, the count stays below the threshold, and the history's openings and trials follow from what came before them: a failure is followed by an opening if and only if it completes the count or fails a trial |
| CircuitBreaker.AdmissionByHistory | src/infrastructure/http/circuit-breaker.ts:29-46 | who is admitted, and the exact remaining time for who is not, from the history alone |
| CircuitBreaker.OneTrialBetweenOutcomes | src/infrastructure/http/circuit-breaker.ts:34-43 | while not closed, at most one call is admitted between two recorded outcomes |
| CircuitBreaker.NeverLockedHalfOpen | src/infrastructure/http/circuit-breaker.ts:39-64 | half-open always waits for the last trial, which is still in flight, and the next outcome ends it |
| CircuitBreaker.OpenRefusesUnlessLateSuccess | src/infrastructure/http/circuit-breaker.ts:10-17 | before its reset time an opened breaker admits a call if and only if a success was recorded since |
| CircuitBreaker.LateSuccessClosesEarly | src/infrastructure/http/circuit-breaker.ts:48-52 | a concrete run in which a late success lets a call through long before the reset time |
| CircuitBreaker.LateFailureRestartsIff | src/infrastructure/http/circuit-breaker.ts:54-73 | a failure reported while the breaker is open leaves it open and restarts its wait if and only if it completes another full count |
| CircuitBreaker.LateFailuresExtendTheWait | src/infrastructure/http/circuit-breaker.ts:62-63 | a concrete run in which a late failure restarts the wait |
| HttpClient.ParseRetryAfter | src/infrastructure/http/retry-policy.util.ts:21-29 | a readable value is never negative |
| HttpClient.WaitIsBounded | src/infrastructure/http/retry-policy.util.ts:43-55 | every wait lies between zero and the cap, and never exceeds what the server asked for |
| HttpClient.ServerWaitIsHonoured | src/infrastructure/http/retry-policy.util.ts:21-50 | the client waits as long as the server says, in seconds or until a date, up to the cap |
| HttpClient.JitterIsAdded | src/infrastructure/http/retry-policy.util.ts:52-54 | without a word from the server the wait is the backoff plus the jitter, up to the cap |
| HttpClient.RetryableStatuses | src/infrastructure/http/retry-policy.util.ts:7-18 | exactly 408, 425, 429 and the gateway errors 500 to 504 but 501 are worth a retry |
| HttpClient.BackoffDoubles | src/infrastructure/http/retry-policy.util.ts:52-54 | without jitter the wait doubles until it meets the cap |
| HttpClient.SendsAreBounded | src/infrastructure/http/fetch-http.client.ts:43-101 | at most retries + 1 sends, one when not retryable, and no giving up on a retryable reply before the budget is spent |
| HttpClient.LastReplyWins | src/infrastructure/http/fetch-http.client.ts:64-99 | the caller gets the status of the last reply, or that there was none |
| HttpClient.WaitsAreDue | src/infrastructure/http/fetch-http.client.ts:70-100 | each wait follows a reply worth a retry and is the one due after that attempt and that reply |
| HttpClient.UnsafeRequestsAreSentOnce | src/infrastructure/http/retry-policy.util.ts:4-14 | POST and PATCH without a declaration, and anything declared unsafe, are sent once |
| HttpClient.SafeRequestsAreRepeated | src/infrastructure/http/retry-policy.util.ts:4-14 | anything else is sent again until its replies or its retries end |
| HttpClient.TurnTellsBreaker | src/infrastructure/http/fetch-http.client.ts:64-83 | a server error or no answer counts against the circuit, any other answer heals it |
| HttpClient.WaitingIsBounded | src/infrastructure/http/fetch-http.client.ts:76-100 | all waits together are at most retries times the cap |
| HttpClient.FetchHttpClient.BreakerFor | src/infrastructure/http/fetch-http.client.ts:187-199 | one breaker per origin, made on first use and kept; none when circuits are off |
| HttpClient.FetchHttpClient.Attempt | src/infrastructure/http/fetch-http.client.ts:44-83 | one turn asks once and, if admitted, records exactly one outcome |
| HttpClient.FetchHttpClient.Loop | src/infrastructure/http/fetch-http.client.ts:43-102 | the loop ends with the specified result, sends, waits and breaker state |
| HttpClient.FetchHttpClient.Request | src/infrastructure/http/fetch-http.client.ts:35-102 | a request changes its own origin's breaker and no other |
| HttpTraffic.StepKeepsInv | src/infrastructure/http/fetch-http.client.ts:43-101 | every step of interleaved requests, circuits on or off, keeps the breaker's invariant and the tally of calls in flight |
| HttpTraffic.OneOutcomePerAdmission | src/infrastructure/http/fetch-http.client.ts:43-101 | admitted calls are the recorded ones plus those awaiting an answer, and a set trial flag means its call is one of them |
| HttpTraffic.AnswerTellsBreaker | src/infrastructure/http/fetch-http.client.ts:64-83 | in every interleaving an answer below 500 closes the circuit and clears its count, any other is counted or opens it |
| HttpTraffic.ThresholdOpens | src/infrastructure/http/fetch-http.client.ts:43-83 | the failure that completes the threshold, whichever calls the failures came from, opens the circuit, and every request until the reset time is refused with exactly the time left |
| HttpTraffic.EndsWithItsAnswer | src/infrastructure/http/fetch-http.client.ts:44-99 | a request ends with the status of its last answer, or with the time it was refused for |
| HttpTraffic.CallsStayWithinBudget | src/infrastructure/http/fetch-http.client.ts:43-101 | each request keeps its send and waiting budget in every interleaving |
| HttpTraffic.CallsTerminate | src/infrastructure/http/fetch-http.client.ts:43-101 | each request takes a bounded number of steps whatever the others do |
| HttpTraffic.NoCallIsStuck | src/infrastructure/http/fetch-http.client.ts:43-101 | a request that has not ended always has a next step of its own |
| ErrorOrigin.FrameFromStack | src/common/utils/error-origin.util.ts:60-74 | the scan returns the first own line's place |
| ErrorOrigin.FirstSomeSpec | src/common/utils/error-origin.util.ts:59-74 | there is a place exactly when some line is own, and it is the first such line's |
| ErrorOrigin.OwnLinesHavePlaces | src/common/utils/error-origin.util.ts:63-71 | an own line always yields a place |
| ErrorOrigin.RelativeIsInside | src/common/utils/error-origin.util.ts:45-51 | the path kept is the end of the location, from a project directory on |
| ErrorOrigin.ColumnIsStripped | src/common/utils/error-origin.util.ts:54-57 | of path, line and column only the column goes, whatever colons the path has |
| ErrorOrigin.LineIsRead | src/common/utils/error-origin.util.ts:27-39 | a line `at fn (place)`, however indented, is read as that function at that place |
| ErrorOrigin.BareLineIsRead | src/common/utils/error-origin.util.ts:27-39 | a line `at place` is read as that place in no named function |
| ErrorOrigin.OwnPlaceOf | src/common/utils/error-origin.util.ts:42-71 | a frame whose place reads `path:line:column` from the first `src/` on is given as `path:line (fn)` |
| ErrorOrigin.ForeignFrameNamesNothing | src/common/utils/error-origin.util.ts:41-46 | a frame of a dependency, of the platform or from outside the project is never named |
| ErrorOrigin.ResolveErrorOrigin | src/common/utils/error-origin.util.ts:117-150 | on every heap, cyclic or not, the walk ends and equals the search over the first ten causes without an identity set |
| ErrorOrigin.NothingAhead | src/common/utils/error-origin.util.ts:123-147 | where the guards stop the walk, no other place lies ahead |
| ErrorOrigin.SpecifiedMeaning | src/common/utils/error-origin.util.ts:96-110 | the origin is the outermost error with own code; the second place is that of the first error below it that names a different one; neither is invented or missed |
| TraceContext.ParsedIsValid | src/shared/trace-context.util.ts:22-32 | whatever the header, a context read from it has lower-case, non-zero ids of the right length |
| TraceContext.RoundTripIffValid | src/shared/trace-context.util.ts:22-37 | writing and reading gives the context back exactly when it is valid |
| TraceContext.ParsedIsFixedPoint | src/shared/trace-context.util.ts:22-37 | what was read from any header is read again from its written form |
| TraceContext.TraceIsContinued | src/shared/trace-context.util.ts:40-46 | the receiver of a written header stays in the trace with its sampling decision |
| TraceContext.SampledIsLowestBit | src/shared/trace-context.util.ts:31-31 | the sampling decision is the lowest bit of the flags as a number |
| TraceContext.WellFormedIsReadIff | src/shared/trace-context.util.ts:22-32 | a well-formed header is read if and only if its version is not `ff` and neither id is zero, with its ids and the lowest bit of its flags |
| TraceContext.ReadIsWellFormed | src/shared/trace-context.util.ts:22-24 | nothing else is read: what is read is, but for case and surrounding space, well-formed |
| TraceContext.SpaceIsIgnored | src/shared/trace-context.util.ts:23-23 | white space around a header makes no difference |
| TraceContext.CaseIsIgnored | src/shared/trace-context.util.ts:23-23 | nor does the case of its letters |
| TraceContext.NewTraceIsSampled | src/shared/trace-context.util.ts:40-46 | without a readable header a new trace begins and is sampled |

## Left out

- Nest wiring, decorators, guards, controllers, logging and metrics: framework plumbing without state of its own.
- Configuration loading: the bounds of the schemas (positive TTLs, threshold and cap of at least one) are hypotheses.
- `pingAll`: the retry count per source and the collected failures; only its semaphore is modelled.
- Several database sources at once: one source is modelled, and the code promises nothing across sources.
- Parallel branches inside one unit of work (they would share its connection), and handing a connection to code that commits on it directly.
- OracleIdempotencyStore.OracleIdempotencyStore.ClaimOn: claims do not interleave there, so the second insert (lines 119-128) cannot fail; it can in `OracleClaimRace`, where statements interleave on one key.
- ContextUser.TruncateBytes: strings are sequences of Unicode scalar values, so lone surrogates are not represented.
- HttpClient.FetchHttpClient.Loop: one request on its own; requests that share a breaker are in `HttpTraffic`, as a state machine.
- WorkerShutdown.DoneBeforeTheKill: the worker receives the forwarded signal at the instant the primary begins to wait.
- Deadlocks between claim transactions that purge each other's rows, and the purge of other keys' rows in `OracleClaimRace`.
- Fairness of the semaphore: barging can queue a woken caller again.
- Fingerprint hashing, JSON text and cursors: opaque values.
