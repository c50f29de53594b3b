# Reward claims and their outbox, verified

This project models the two protocols the game rewards service is built on, and proves what they promise.

* **The claim transaction** (`internal/rewards/postgres.go`). Any number of `createClaim` calls run at once under READ
  COMMITTED, statement by statement. `ClaimProtocol` is that system: committed tables, one private write set for every
  open transaction, unique keys that make an insert wait, failing statements, commits whose reply is lost, and
  retention deleting stored responses at any moment. `ClaimLedger` is the specification: one sequential ledger on
  which every request is served in a single step. `ClaimInvariant` and `ClaimTheorems` prove that the first refines
  the second. `ClaimService` is the code's own loop and statement sequence, proved to be one request of the protocol.
* **The outbox worker** (`internal/outbox/`). Any number of workers lease a due row, publish outside any transaction,
  and store the outcome with an update fenced by the worker's name. `OutboxProtocol` is that system with crashes,
  stalls, shutdowns, lost replies, expired leases and retention; `OutboxInvariant`, `OutboxTheorems`, `RowHistory`, `Deliveries`,
  `TimedLeases`, `CounterRange` and `LateStatements` prove what holds of it. `OutboxStore` and `OutboxWorker` are the code's
  statements, its loop and its branches, proved to be steps of the protocol; `Failures` is the error routing between
  them, `Backoff` and `LeaseBudget` the arithmetic.
* **Both together.** `EndToEnd` joins them over one database: the commit that creates a claim makes the outbox row
  visible, and the workers deliver it.

State that the code changes in place is the state of a class (`OutboxStore.Database`, `OutboxWorker.Worker`,
`ClaimService.Database`, `ClaimService.Transaction`). Whatever the scheduler, the network or the uuid generator does is
an input of the methods, so every contract holds for every interleaving and every failure. Each class's state *is* the
state of its protocol and each method's contract names the protocol steps it takes, so the theorems about runs are
theorems about these methods.

## What to read first

1. `ClaimTheorems.Linearizable`: every interleaving of claims, failures and retention is a sequential history.
2. `OutboxTheorems.LeaseLostIffSuperseded`: the fence is only a name, and still decides exactly by claim number.
3. `OutboxTheorems.ThresholdExact`: the dead-letter decision comes from a stale snapshot, and is still exact.
4. `TimedLeases.BudgetIsExact`: the lease budget of the configuration check is necessary and sufficient.
5. `EndToEnd.NoClaimLost` and `EndToEnd.ConsumerSeesClaimsOnce`: nothing lost, nothing invented, nothing seen twice.

## Assumptions

* A statement takes effect before its call returns, or never; its reply may be lost. `LateStatements` shows that this
  is needed: a statement that could run after its worker gave up on it would pass the name fence exactly while the event
  is processed under a claim of the same worker, and for every failure limit from two up to the column's largest value
  some run would then leave a pending row that has used up all its attempts.
* Worker ids are distinct, as the random ids of `cmd/worker/main.go:330-335` make them.
* All workers run with the same lease, failure limit and backoff settings.
* The database clock never goes back. A transaction's own time is not ahead of it.
* Only `TimedLeases` assumes anything about pauses: there, a query ends within the query timeout, the publisher returns
  by its deadline, and a live worker does nothing else that takes time.
* Visibility is that of READ COMMITTED in section 13.2.1 of the PostgreSQL documentation: a statement sees what was
  committed before it began, an insert on a unique key waits for an open transaction that has inserted the same key, and
  then either inserts or finds the row.

## Findings

* `failed_attempts` is a 32-bit column and the failure limit a 64-bit setting. `CounterRange.OverflowIffLimitTooLarge`:
  some run overflows the column if and only if the limit exceeds 2147483647. Below that no statement can.
* The lease budget leaves no slack and wastes none: with `lockTTL == publishTimeout + 2 * queryTimeout` two workers
  that never pause can hold the same event.
* The branches of `createClaim` that report a broken stored response or an unexpected row count are never taken, nor does
  the unique constraint on an event's aggregate ever reject its insert.
* An event may be published twice although the publisher accepted it the first time, as documented:
  `Deliveries.DeliveredTwice` gives the run for any settings. `Deliveries.SuccessStoredIffPublished` says when a success
  is remembered, `Deliveries.DeliverableIff` exactly which events can still be delivered, and
  `EndToEnd.ConsumerSeesClaimsOnce` that keeping one delivery per event id is enough.

## Model

| member | source | states |
|---|---|---|
| `ClaimTheorems.StepRefines` | internal/rewards/postgres.go:18-82 | every step of the interleaved protocol is invisible to the committed tables or is exactly one allowed step of the atomic ledger, taken by a load or a commit of that request |
| `ClaimTheorems.Linearizable` | internal/rewards/postgres.go:18-82 | in every reachable state the tables are those of a legal sequential history, in which every answered request stands once, with its own parameters and its own answer |
| `ClaimTheorems.RealTimeOrder` | internal/rewards/postgres.go:18-82 | a request that finished before another began stands before it in the history |
| `ClaimTheorems.FailedAllOrNothing` | internal/rewards/postgres.go:26-80 | a failed request had no effect at all, or the whole effect of one ledger step; it leaves no open rows |
| `ClaimTheorems.RunExtends` | internal/rewards/postgres.go:18-82 | over any run the history only grows, no request disappears, and finished requests never change |
| `ClaimTheorems.CommittedState` | migrations/000001_create_schema.up.sql:1-43 | after any run every committed key has a response that fits its claim, triples are unique, and every claim has exactly one event |
| `ClaimTheorems.GrantedOnce` | internal/rewards/postgres.go:276-308 | however keys are deleted and used again, two requests never both get a fresh 201 for one player, campaign and reward |
| `ClaimTheorems.GrantsBearTheirTime` | migrations/000001_create_schema.up.sql:6 | over any run every created claim and its event bear the time of the transaction that wrote them |
| `ClaimTheorems.WritesFitSchema` | migrations/000001_create_schema.up.sql:1-116 | in every reachable state and at every stage, failed ones included, the key, claim and event rows a transaction has written satisfy every CHECK constraint, refer to its own claim, and meet no committed row with the same key, triple, id or aggregate |
| `ClaimTheorems.AnnounceFindsNoEvent` | internal/rewards/postgres.go:189-215 | the unique constraint on aggregate and event type never rejects the event of a new claim |
| `ClaimTheorems.InternalBranchesDead` | internal/rewards/postgres.go:146-160 | in every reachable state a found response is complete and valid, and completing the key affects its one row, so the internal-error branches are dead |
| `ClaimTheorems.WaitingClimbs` | internal/rewards/postgres.go:96-115 | whoever waits for a lock holds strictly fewer than the one it waits for: key first, triple second |
| `ClaimTheorems.NoWaitingCycle` | internal/rewards/postgres.go:18-82 | chains of waiting requests never return to their start and have at most three members |
| `ClaimTheorems.FreeCanStep` | internal/rewards/postgres.go:18-82 | a request that waits for nobody can take its next statement with an unused uuid, and unless it had failed before the statement does not put it on its way to an error |
| `ClaimTheorems.SomebodyCanStep` | internal/rewards/postgres.go:18-82 | in every reachable state with an unfinished request some unfinished request can go forward in that sense |
| `ClaimTheorems.CanFinish` | internal/rewards/postgres.go:18-82 | from every reachable state every request can be brought to its end by steps of open requests alone, none of which fails, and is answered unless it had failed before |
| `ClaimTheorems.LoopTurnsPaidByDeletions` | internal/rewards/postgres.go:41-46 | the reservation loop continues at most as often as retention deleted this very key since the request began |
| `ClaimTheorems.OwnStepsDescend` | internal/rewards/postgres.go:28-82 | every step of a request brings it strictly nearer to its end, except a turn of the loop, which is counted |
| `ClaimLedger.StepKeepsLedgerOk` | internal/rewards/postgres.go:117-274 | each atomic step keeps responses complete and linked, triples unique, and events in one-to-one correspondence with claims |
| `ClaimLedger.LegalLedgerOk` | internal/rewards/postgres.go:117-274 | so every legal history ends in such a ledger |
| `ClaimLedger.OneGrant` | internal/rewards/postgres.go:276-308 | in a legal history, deletions included, a triple is granted at most once |
| `ClaimLedger.GrantStays` | internal/rewards/postgres.go:189-308 | a granted claim and its event, as it was written, are in every later ledger, whatever retention forgets |
| `ClaimLedger.AnswerStays` | docs/architecture.md:57-61 | between a key's answer and its deletion the ledger keeps exactly that triple, status and body |
| `ClaimLedger.ReplaysAgree` | internal/rewards/postgres.go:150-166 | while a key is retained every later request with it gets the same status and bytes marked as replayed if it asks for the same triple, and key reuse if not; it creates nothing |
| `ClaimLedger.LegalAt` | internal/rewards/postgres.go:18-82 | each entry of a legal history is allowed exactly where it stands |
| `ClaimLedger.NoEventWithoutClaim` | internal/rewards/postgres.go:189-215 | no event belongs to a claim that does not exist |
| `ClaimInvariant.StepKeepsInv` | internal/rewards/postgres.go:18-82 | the invariant (locks exclude committed rows and each other, every stage holds exactly what its statements wrote, the tables are the ledger after the log) survives every step |
| `ClaimInvariant.ReachableInv` | internal/rewards/postgres.go:18-82 | so it holds in every reachable state |
| `ClaimInvariant.ReserveKeepsInv` | internal/rewards/postgres.go:96-115 | reserving a key keeps reservations of open transactions apart from each other and from committed keys |
| `ClaimInvariant.LoadKeepsInv` | internal/rewards/postgres.go:117-167 | reading a stored response keeps the invariant, whether the row is found, belongs to another triple, or is gone |
| `ClaimInvariant.StoredResponseComplete` | internal/rewards/postgres.go:146-160 | every committed key has a complete, valid response with one of the two statuses |
| `ClaimInvariant.LoadFound` | internal/rewards/postgres.go:117-167 | a load that finds the row gives exactly the answer the ledger allows at that moment |
| `ClaimInvariant.InsertKeepsInv` | internal/rewards/postgres.go:276-308 | inserting a claim, meeting a taken triple and colliding on the uuid all keep the invariant |
| `ClaimInvariant.AnnounceKeepsInv` | internal/rewards/postgres.go:189-215 | writing the event keeps the invariant |
| `ClaimInvariant.CompleteKeepsInv` | internal/rewards/postgres.go:233-274 | completing the key keeps the invariant and always affects its row |
| `ClaimInvariant.CommitIsAtomic` | internal/rewards/postgres.go:65-79 | the commit of a reservation is exactly one allowed ledger step, and merging its rows gives exactly the ledger after that step |
| `ClaimInvariant.CommitKeepsInv` | internal/rewards/postgres.go:65-79 | a commit, its reply lost or not, keeps the invariant for all other open transactions |
| `ClaimInvariant.ForgetKeepsInv` | docs/runbook.md:183-214 | retention deleting a completed key keeps the invariant, requests in mid-flight included |
| `ClaimInvariant.RollbackKeepsInv` | internal/rewards/postgres.go:84-90 | a rollback releases its rows and locks and keeps the invariant |
| `ClaimService.CreateClaim` | internal/rewards/postgres.go:18-82 | one call is one request run to its end: its answer is the one its place in the history gives, it errs only for a real cause, the first failing call if one fails, and reports it as the error and the context say, a wait or a timeout as unavailable, a collision as internal; a failed commit has its effect exactly if it was applied; it runs out of database calls only when given at most 4 plus 2 for each deletion of its key |
| `ClaimService.MapError` | internal/rewards/postgres.go:310-328 | what the caller finds in the mapped error, as a condition on the driver's error and the query's context |
| `ClaimService.MapDeadline` | internal/rewards/postgres.go:315-318 | the query's own deadline is unavailable |
| `ClaimService.MapViolation` | internal/rewards/postgres.go:327 | a unique violation is internal |
| `ClaimService.Perform` | internal/rewards/postgres.go:28-82 | the reservation loop and the two completions end the transaction in every case |
| `ClaimService.Judge` | internal/rewards/postgres.go:146-166 | a found row is replayed with its own status and bytes, belongs to another request, or is broken, under exactly the code's conditions |
| `ClaimService.Database.ExecReserve` | internal/rewards/postgres.go:96-115 | one row inserted for the transaction when the key is not committed, else none and no change |
| `ClaimService.Database.ExecInsertClaim` | internal/rewards/postgres.go:276-308 | the claim inserted and returned, nothing for a taken triple, a violation for a used uuid; only the first changes anything |
| `ClaimService.Database.ExecInsertEvent` | internal/rewards/postgres.go:197-212 | the new row of this claim, each column literally, or a violation and no change |
| `ClaimService.Database.ExecCompleteKey` | internal/rewards/postgres.go:241-271 | one row affected exactly while the reservation is this request's and empty, and then it holds status, body and link |
| `ClaimService.Database.ExecCommit` | internal/rewards/postgres.go:48-79 | all rows of the transaction become visible together |
| `ClaimService.Database.RunLoad` | internal/rewards/postgres.go:117-167 | the ordinary select and what the code makes of it is exactly the load step of the protocol |
| `ClaimService.Transaction.constructor` | internal/rewards/postgres.go:22-26 | the request begins with nothing reserved |
| `ClaimService.Transaction.TryReserve` | internal/rewards/postgres.go:96-115 | reserved, or in conflict with a committed row, or over with a cause |
| `ClaimService.Transaction.TryLoad` | internal/rewards/postgres.go:117-167 | the stored answer as a replay, or the row is gone and the loop turns, or over with key reuse or a cause |
| `ClaimService.Transaction.TryInsertClaim` | internal/rewards/postgres.go:276-308 | the claim with this call's uuid, the triple asked for and the transaction's time, or none because the triple is taken, or over with a cause |
| `ClaimService.Transaction.InsertEvent` | internal/rewards/postgres.go:189-215 | the event of exactly this claim is written under this call's uuid, or the request is over with a cause |
| `ClaimService.Transaction.CompleteKey` | internal/rewards/postgres.go:169-274 | the 201 answer carries this claim's body, the 409 answer the fixed body, and the key holds it |
| `ClaimService.Transaction.Commit` | internal/rewards/postgres.go:48-79 | the answer that was prepared, or an error although the effect may have been committed |
| `ClaimService.Transaction.ApplyCommit` | internal/rewards/postgres.go:48-79 | an applied commit leaves its effect whether or not its reply arrives |
| `ClaimService.Transaction.GiveUp` | internal/rewards/postgres.go:84-90 | an error return rolls the transaction back |
| `OutboxTheorems.LeaseLostIffSuperseded` | internal/outbox/store.go:145-164 | in every reachable state a finalization changes its row if and only if it was issued for the event's latest claim, and is told the lease is lost exactly when a later claim exists |
| `OutboxTheorems.LeaseIsOwnLatestClaim` | internal/outbox/worker.go:213-249 | a worker that holds a lease has made no later claim of that event |
| `OutboxTheorems.ThresholdExact` | internal/outbox/worker.go:294-327 | only dead-lettered rows have used all attempts, they have used exactly the limit, and the counter is the number of stored failures |
| `OutboxTheorems.OnlyStoredFailuresCount` | internal/outbox/store.go:190-202 | the counter moves by one when a failure of that event's latest claim is stored, and in no other step |
| `OutboxTheorems.SchemaNeverRejects` | migrations/000001_create_schema.up.sql:65-114 | every step from every reachable state satisfies all constraints, and the failure reason is null exactly when the counter is zero |
| `OutboxTheorems.EarliestDeadLetter` | internal/outbox/worker.go:325-333 | no event is dead-lettered before all its retry delays, min(base * 2^(k-1), max), have passed since its creation |
| `OutboxTheorems.DelaySumIsDocumented` | internal/outbox/backoff.go:29-44 | the delays the protocol schedules add up to the documented ones |
| `OutboxTheorems.NoClaimBeforeDelay` | internal/outbox/store.go:70-92 | after the k-th stored failure every later claim starts at least the k-th delay later |
| `OutboxTheorems.PublishedMeansPublisherSucceeded` | internal/outbox/worker.go:268-277 | a published row, live or removed, is backed by a publisher that returned nil for the event's latest claim |
| `OutboxTheorems.TerminalAbsorbs` | internal/outbox/store.go:145-155 | over any run a published or dead-lettered row never changes, and only a published one is removed |
| `OutboxTheorems.GoneStays` | docs/runbook.md:216-247 | what retention removed stays removed, as it was |
| `RowHistory.RowIsItsHistory` | migrations/000001_create_schema.up.sql:49-64 | in every reachable state every column of every row that a statement writes is determined by the insertion, the last claim and the last stored outcomes: lease, publication, dead letter, reason by its name, due time and update time |
| `RowHistory.PublishedAtIsStored` | internal/outbox/store.go:145-150 | a published row, live or removed, bears the time of a statement that stored its publication |
| `RowHistory.DeadLetterIsStored` | internal/outbox/store.go:239-247 | a dead letter bears the time and the named reason of the failure that was stored |
| `RowHistory.AvailableOnlyByRetry` | internal/outbox/store.go:190-198 | the time at which an event is due changes only when a retry of it is stored, to the end of that delay |
| `RowHistory.FinalColumns` | internal/outbox/store.go:145-251 | the row a finalizing statement leaves shows just that statement |
| `Deliveries.OneAnswerPerClaim` | internal/outbox/worker.go:268-270 | the publisher answers each numbered claim at most once |
| `Deliveries.SuccessStoredIffPublished` | internal/outbox/worker.go:273-291 | in every reachable state a success was stored if and only if it answers the event's last claim and the row is published or removed since; a success followed by another claim was not stored |
| `Deliveries.DeliverableIff` | docs/architecture.md:89-93 | with a live worker, an event can still be delivered in some run if and only if its row has not ended or the answer to a claim of it is on its way to a live worker |
| `Deliveries.DeliveredTwice` | docs/architecture.md:93 | for any settings some run publishes an event twice although the publisher returned nil the first time |
| `OutboxTheorems.ClaimsBounded` | internal/outbox/worker.go:213-354 | an event is claimed at most as often as the failure limit, plus once for every claim that stored no outcome |
| `OutboxTheorems.TotalClaimsBounded` | internal/outbox/worker.go:213-354 | N events with c claims that stored nothing see at most N * maxFailures + c claims |
| `OutboxTheorems.StoredCount` | internal/outbox/store.go:145-164 | as no claim stores two outcomes, counting stored outcomes counts claims |
| `OutboxTheorems.BoundedOvertaking` | internal/outbox/store.go:71-92 | in every run from the moment an event is due until it is claimed, statements in flight included, the claims of others number at most the rows neither published nor dead-lettered that were then ordered before it, plus one for each claim that skips it as locked or takes over an expired lease and each new row ordered before it |
| `OutboxTheorems.WaitingStep` | internal/outbox/store.go:190-202 | each claim of another event uses up a row that may still be claimed earlier, unless it is one of those disturbances, and nothing else adds one |
| `OutboxTheorems.WaitingClaim` | internal/outbox/store.go:71-84 | a claim that neither skips the waiting event nor takes over a lease takes a row ahead of it, whether its own time is before or after the event fell due |
| `OutboxTheorems.WaitingFinal` | internal/outbox/store.go:190-202 | a finalization puts a row ahead of the waiting event only if its statement was issued before the event fell due, and that row was ahead of it already |
| `OutboxInvariant.StepKeepsInv` | internal/outbox/store.go:70-251 | the invariant that ties row, stale snapshot and numbered claims together survives every step |
| `OutboxInvariant.ReachableInv` | internal/outbox/store.go:70-251 | so it holds in every reachable state |
| `OutboxInvariant.FenceIsNumber` | internal/outbox/store.go:152-154 | the WHERE clause that compares names lets through exactly the latest claim's statement |
| `OutboxInvariant.ClaimKeepsInv` | internal/outbox/store.go:70-92 | claiming a due row, an expired lease or the worker's own earlier event keeps the invariant |
| `OutboxInvariant.FinalKeepsInv` | internal/outbox/store.go:145-251 | finalizing, fenced off or not, keeps the invariant |
| `OutboxInvariant.LeasedRowFacts` | internal/outbox/store.go:86-92 | a leased row is due, has waited for all its delays, and is held by its newest claim |
| `OutboxInvariant.FinalRowFacts` | internal/outbox/store.go:145-251 | the row a finalization leaves satisfies the schema, the threshold, the count and the delay bound |
| `OutboxInvariant.CleanUpKeepsInv` | docs/runbook.md:216-247 | removing published rows keeps the invariant |
| `OutboxInvariant.NewRowFacts` | internal/rewards/postgres.go:197-209 | the defaults of a fresh event row satisfy everything the workers rely on |
| `OutboxInvariant.NoOverflow` | migrations/000001_create_schema.up.sql:56 | with a limit inside the column's range no statement can overflow the counter |
| `OutboxSchema.NextExists` | internal/outbox/store.go:82-84 | whenever an unlocked row is due there is a first one, so the ordering decides |
| `CounterRange.OverflowIffLimitTooLarge` | migrations/000001_create_schema.up.sql:56 | some run overflows the 32-bit counter if and only if the limit exceeds its range |
| `CounterRange.DeadLetterReachable` | internal/outbox/worker.go:301-304 | the limit is really reached in some run whenever the column can hold it |
| `CounterRange.FailTimes` | internal/outbox/worker.go:301-338 | every number of failures below the limit and inside the column is reached by some run |
| `LateStatements.LateStatementPassesIffHeld` | internal/outbox/store.go:145-154 | an abandoned statement that ran late would change a row if and only if the event is being processed and its latest claim, not necessarily the statement's own, is the same worker's |
| `LateStatements.LateStatementBreaksIff` | internal/outbox/store.go:190-202 | it would break the dead-letter threshold if and only if it is a retry that passes the fence and uses up the last attempt |
| `LateStatements.LateStatementsBreakThresholdIff` | internal/outbox/worker.go:301-304 | some late statement would break the threshold if and only if the failure limit lies between two and the column's largest value |
| `LateStatements.LateRetryBreaksThreshold` | internal/outbox/store.go:190-202 | were late statements possible, some run would leave a pending row with all attempts used, for every limit of two or more |
| `TimedLeases.BudgetIsExact` | internal/config/config.go:367-384 | all timed runs of any number of workers keep their leases and share no event if and only if lockTTL > publishTimeout + 2 * queryTimeout |
| `TimedLeases.BudgetKeepsLeases` | internal/config/config.go:370-384 | with the budget no timed run loses a lease and no two live workers hold one event |
| `TimedLeases.MissingBudgetLosesLease` | internal/config/config.go:370-384 | without it some timed run loses a lease and shares an event |
| `TimedLeases.LeaseOutlivesWork` | internal/outbox/worker.go:251-274 | while a live worker is between claim and finalization its row is not due |
| `TimedLeases.OneHolder` | internal/outbox/store.go:70-92 | two live workers with a lease of the same event are the same worker |
| `TimedLeases.TimedRunIsRun` | internal/config/config.go:367-384 | timed runs are runs, so all other theorems hold in them |
| `LeaseBudget.ValidateOutbox` | internal/config/config.go:367-393 | for all positive 64-bit durations, accepted if and only if lockTTL > publishTimeout + 2 * queryTimeout over unbounded integers and the backoffs are ordered; no subtraction overflows |
| `Backoff.Policy.RetryDelay` | internal/outbox/backoff.go:29-44 | for every policy and every n the loop returns min(base * 2^(max(n,1)-1), max), never overflows, and is entered at most 63 times |
| `Backoff.NewBackoffPolicy` | internal/outbox/backoff.go:13-27 | accepts exactly 0 < base <= max |
| `Backoff.DelayMonotone` | internal/outbox/backoff.go:29-44 | a later failure never waits less, and every delay lies between base and max |
| `Backoff.DelayIsCappedDoubling` | internal/outbox/backoff.go:29-44 | capping at every doubling equals capping the closed form once |
| `Backoff.CapReached` | internal/outbox/backoff.go:36-38 | once doubling would pass the cap every later failure waits exactly the cap |
| `Backoff.DoublingsFit` | internal/outbox/backoff.go:35-41 | a positive 64-bit delay doubles at most 62 times |
| `OutboxStore.Database.ExecClaim` | internal/outbox/store.go:70-100 | the row picked is due, not locked by others, and before every other such row by available_at and id; status, owner, lease end and update time are set and no other column; the snapshot is returned; without such a row nothing changes |
| `OutboxStore.Database.ExecMarkPublished` | internal/outbox/store.go:145-155 | when status and name match, exactly the five columns named change, published_at and updated_at to now(); else none |
| `OutboxStore.Database.ExecScheduleRetry` | internal/outbox/store.go:190-202 | when status and name match, exactly the seven columns named change, the counter by one, available_at to now() plus the delay, the reason to the outcome's name; else none |
| `OutboxStore.Database.ExecMarkDeadLetter` | internal/outbox/store.go:239-251 | when status and name match, exactly the seven columns named change, dead_lettered_at to now(), the reason to the outcome's name; else none |
| `OutboxStore.Database.ClaimNext` | internal/outbox/store.go:54-131 | whatever happens around it the call takes exactly these steps of the protocol; an event returned is the whole snapshot its lease was granted with and the one that goes to the publisher |
| `OutboxStore.Database.MarkPublished` | internal/outbox/store.go:133-167 | the call is the publishing finalization; its reply is success, lost lease or failure according to what its statement did |
| `OutboxStore.Database.ScheduleRetry` | internal/outbox/store.go:169-221 | the same for the retry |
| `OutboxStore.Database.MarkDeadLetter` | internal/outbox/store.go:223-263 | the same for the dead letter |
| `OutboxStore.Database.Finalize` | internal/outbox/store.go:157-166 | one row affected is success, none is a lost lease, an overflow or a failure is an error; a statement whose reply is lost has run |
| `OutboxWorker.Worker.Run` | internal/outbox/worker.go:135-211 | the loop's whole effect is a run of the protocol whose own steps are those of its rounds; each round has one outcome with a cause, names the operation that failed, and is completed exactly if a finalizing statement in the history stored its outcome; it waits a poll interval except after that; it ends only with its context or a fault |
| `OutboxWorker.Worker.OneRound` | internal/outbox/worker.go:168-208 | unavailability goes on, the caller's end stops cleanly, a fault stops with its operation |
| `OutboxWorker.Worker.RunOnce` | internal/outbox/worker.go:213-249 | claim, then process; processed exactly when a transition was stored and answered; a lost lease is no error |
| `OutboxWorker.Worker.ProcessEvent` | internal/outbox/worker.go:251-354 | one publish whose outcome fits its context and error, then one finalization, the one decided from the snapshot, or nothing stored on shutdown; done exactly if that statement stored it, a lost lease exactly if it found no row, and otherwise the operation named is the one that was due |
| `OutboxWorker.Worker.StoreAndReport` | internal/outbox/worker.go:273-338 | the same of the finalization alone |
| `OutboxWorker.Worker.Abandon` | internal/outbox/worker.go:294-299 | a shutdown is not recorded: no row changes and the worker's context error comes back |
| `OutboxWorker.Worker.StoreOutcome` | internal/outbox/worker.go:273-338 | the statement issued is the one the protocol decides from the snapshot: published, dead letter at the limit, retry with the capped delay below it |
| `OutboxWorker.ReplyBecomesIteration` | internal/outbox/worker.go:240-246 | a failed finalization has exactly one outcome, which the error passed on shows |
| `OutboxWorker.LostLeaseShows` | internal/outbox/worker.go:240-246 | among the errors passed on only a lost lease contains it |
| `OutboxWorker.ShutdownStops` | internal/outbox/worker.go:171-173 | a shutdown during publishing stops the loop cleanly |
| `OutboxWorker.ReplyProcessed` | internal/outbox/worker.go:375-403 | what processEvent hands back agrees with the steps it took |
| `Failures.RoutingIsByClass` | internal/outbox/worker.go:163-249 | for every driver error and context state exactly one outcome: lost lease skipped; clean stop if and only if the caller's own end is in the error; retry if and only if the error is unavailability or the store's own timeout; otherwise fatal, naming the operation |
| `Failures.MappingHidesDriver` | internal/outbox/store.go:269-287 | whatever the driver's error tree contains, even the packages' own sentinels, the mapped error contains exactly one sentinel (unavailable, internal or the caller's own end), no server answer and no network error; mapped twice, an outage would pass for a fault |
| `Failures.ContextErrorIsNoOutage` | internal/postgres/availability.go:37-41 | the end of a context, inside any network operation or name lookup, is never taken for an outage of the database, unless it is the store's own timeout |
| `Failures.LayersAreTransparent` | internal/postgres/availability.go:28-61 | no chain of wrappers, network operations and name lookups included, changes which sentinel, server answer or driver timeout a search finds; the network searches see exactly the network layers besides |
| `Failures.WrappersKeepClass` | internal/postgres/availability.go:28-61 | so no chain of text, operation or join wrappers changes availability, class or mapped error |
| `Failures.ServerAnswerDecides` | internal/postgres/availability.go:29-31 | the first server answer in any error tree decides by the eleven literal SQLSTATEs whether the worker goes on or stops, whatever surrounds it, unless the query's own end does |
| `Failures.ServerAnswerIsRouted` | internal/postgres/availability.go:63-80 | under every chain of wrappers and network layers and in every context state, the worker retries exactly after 08000, 08001, 08003, 08004, 08006, 08007, 53300, 57P01, 57P02, 57P03 and 57P05, and stops for good after any other SQLSTATE |
| `Failures.SentinelIsRouted` | internal/postgres/availability.go:33-49 | what the worker does about each sentinel, however wrapped: lost connections are retried, no row is fatal, a context's end stops cleanly, is retried or is fatal by whose end it is, and anything else is retried only inside a network operation |
| `Failures.TransportIsRouted` | internal/postgres/availability.go:59-60 | a network operation is retried unless it wraps a context's end or a missing row |
| `Failures.NameLookupIsRouted` | internal/postgres/availability.go:55-57 | so is a name lookup, with or without a cause |
| `Failures.DriverTimeoutIsRouted` | internal/postgres/availability.go:33-35 | the driver's own timeout is retried whatever context's end it wraps |
| `Failures.NetworkTimeoutIsRouted` | internal/postgres/availability.go:51-53 | another network error is retried exactly if it says that it timed out and does not pass for a context's deadline |
| `Failures.JoinsAreSearchedInOrder` | internal/postgres/availability.go:28-61 | in joined errors the first server answer and the first network error count, from left to right |
| `Failures.JoinsAreSearchedThrough` | internal/postgres/availability.go:28-61 | a sentinel or a timeout is found in joined errors exactly if it is in one of them |
| `Failures.PublisherErrorIsStorable` | internal/outbox/worker.go:356-373 | a publisher error is never a success, and its stored text is timeout for a deadline of the context or in the error, else canceled for a cancellation, else failed |
| `Failures.OutcomeIsClassified` | internal/outbox/worker.go:356-373 | each of the four outcomes if and only if its condition on the publish context and the error alone |
| `EndToEnd.CommitIsInsert` | internal/rewards/postgres.go:189-215 | a commit that creates a claim is, for the workers, the insertion of one new row that no constraint rejects; all other steps show them nothing |
| `EndToEnd.RunsOfBoth` | docs/architecture.md:65-81 | every joint run is a run of each protocol, so the theorems of both hold in it |
| `EndToEnd.OutboxKeepsContent` | internal/outbox/store.go:86-92 | no statement of the outbox changes what an event says, invents one or forgets one |
| `EndToEnd.OutboxKeepsSaying` | internal/outbox/worker.go:251-268 | every snapshot a worker holds and every event passed to the publisher says what the row said when it was inserted |
| `EndToEnd.EveryCallHasItsClaim` | internal/outbox/worker.go:268 | every event ever handed to the publisher is, type, aggregate and payload, exactly what the transaction wrote about a committed claim, and so is its row wherever it is now |
| `EndToEnd.ConsumerSeesClaimsOnce` | docs/architecture.md:89-93 | a consumer that keeps one delivery per event id is told of each claim at most once, and only of committed claims as they were committed |
| `EndToEnd.KeptOnce` | docs/architecture.md:93 | such a consumer misses no event that was delivered and keeps no id twice |
| `EndToEnd.NoClaimLost` | docs/architecture.md:67 | every committed claim has exactly one event, which is still in the table or was delivered |
| `EndToEnd.GrantedIsAccountedFor` | internal/rewards/postgres.go:169-187 | whoever was told 201 has a claim of exactly the triple asked for, described by the body received, dated at the request's transaction, with one event of the same date still in the table or delivered |

## Left out

- HTTP handlers, request validation, middleware, health and admin servers, metrics, logging and process startup.
- JSON, RFC 3339, UTF-8 and SHA-256: a body is a deterministic function of the claim, its validity a predicate true of those bodies, a key its digest. Whitespace trimming and length counting are not modelled; triples arrive validated.
- UUID generation: ids are inputs, and a collision with a live id is a failing insert. An id is never drawn again after its event was removed, and a collision with an uncommitted id fails at once instead of waiting.
- Contexts, timers and pools: whether and when they end is an input of each call. BeginTx that fails before anything happened is not a request of the protocol.
- A failed rollback: the deferred rollback is a later step of its own, and locks are held until it happens.
- Time and age of keys: retention may delete any completed key at any moment, which includes the 24 hours' cutoff, and any published event, which includes every cutoff. Batches are single deletions. Dead-lettered events are never removed, as the runbook asks.
- `make_interval` takes float seconds and timestamps have microseconds and a largest value: here times are exact unbounded integers.
- The argument checks at the head of the store's methods and the validation in NewWorker: the model's callers pass valid arguments.
- The classes keep the history (claims, calls, answers, finals, the log) and the requests' and workers' stages beside the tables; the history is in no column and decides nothing.
- Liveness beyond what some run can do and the bounds on claims: no fairness of the scheduler is assumed.
- Indexes, migration rollback, scripts, containers and the parts of the configuration other than the outbox check.
