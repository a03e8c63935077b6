# ROMA billing and control plane: a verified model

A Dafny model of the job billing protocol, the control-plane job store and three small durable
components of the repository, with proofs of what they promise. `dafny verify dfyconfig.toml`
checks everything.

## What is modelled

**Billing.** Workers claim a job, run it, debit its tenant once, meter the usage and write the final
status by compare-and-set; a sweeper bills parked jobs again, another one turns refund markers into
credits, and the routes retry, cancel and complete jobs meanwhile. Any database call may succeed, be
lost, or commit on the server and still raise (`Basics.Fault`); any process may die at any point.

| files | what they hold |
|---|---|
| `LedgerKeys`, `Ledger`, `DebitLock` | idempotency keys, the append-only ledger, debits under the advisory lock |
| `Metering`, `Jobs`, `Markers`, `Billing` | usage and totals, job rows and their guarded update, the `error` column's text, finalizing one job |
| `Sweeps`, `PendingSweep`, `Worker` | the refund loop and both sweepers, as functions and as the object proved equal to them |
| `Protocol` | the transition system: 31 kinds of step, each a guard and the parts it writes |
| `ProtocolSteps` | what each of its steps writes, said outright |
| `ProtocolFinalize`, `LedgerSteps`, `SweepSteps` | its steps against one uninterrupted call, transactions that commit in any order, and the sweepers as functions |
| `ProtocolMoney`, `ProtocolUsage`, `ProtocolStatus`, `ProtocolExits`, `ProtocolMarker` | what holds over all runs of the money, the usage, the statuses, the last writes and the refund markers |
| `Runs`, `FreeExit`, `GivenAway`, `TwoBackends`, `LostMarker`, `Repaying` | building runs step by step, and the eight that show the limits |
| `Connection` | borrowed PostgreSQL connections |
| `JobLifecycle`, `Healing`, `ControlPlane` | the job store's operations, the reconciler's tick, leases and registry |
| `Journal`, `RateLimiter`, `Replay`, `Reopening` | the rotating log, the token bucket, paged event replay, and stores opened again on an old log |

Money is a whole number of units of 1e-8 USD and durations are centiseconds, so a cost is exactly ten
units per centisecond. Durations and costs that the code rounds are already in these units. The
sha256 prefix of a key is taken to be collision free: a ledger id is its preimage or a random number.
The ledger, the usage events and the event log are sequences, tables with keys are maps.

The money and usage results (`ProtocolMoney`, `ProtocolUsage`) hold while an adversary overwrites any job's status at any time
and any number of workers hold one job. The status results (`ProtocolStatus`, `ProtocolExits`, `ProtocolMarker`) are about orderly
runs: no status is overwritten from outside the modelled steps, a job is claimed only when no worker
is alive on it, no administrator spells out the key of a job for a top-up, and a debit that commits
late is one that was asked for. The runs that show limits are
orderly too, but for the one about a key taken by hand.

## What the proofs found

- A job id that contains the separator `:job:` or `:refund:` can share a ledger row with another
  tenant's job. `CollisionIffAmbiguous` says exactly which ids can; ids without a colon cannot.
- A refund reports success without crediting anything exactly when a top-up was made by hand under
  the key `refund:<job>` (`RefundReallyCredits`); `RefundedUnderTakenKey` is such a run.
- Usage can exceed debits. The drift is the unmetered debits, and so never negative, if and only if no
  job of the tenant was metered by two committed steps of different kinds (`DriftIffOneKind`), which
  is so when every worker is dispatched to, and every sweeper and route finds the job on, one kind of
  backend (`OneBackendReconciles`). `SecondBackendDrifts` is a run that ends with twice the usage: a failed job
  is retried on the other kind of backend and takes exactly as long, so that its debit is found again.
- The comment that leaving `billing_pending` means a saved debit holds, whatever the sweepers and
  routes do, for every job that was not retried after having been parked with a zero duration
  (`NoFreeExit`). `RetriedJobLeavesUnpaid` is the run for the others: a sweeper that fetched the job
  when it had nothing to pay releases it after a retry has given it a cost.
- A worker's last write gives a run away, neither paid nor parked, if and only if it was told to skip
  a job that had been ended when it looked, or its billing was not saved and the backend ended the
  run in a status that is never parked, such as "error" (`LastWriteLeavesFree`, over runs
  `LastWriteSettles`). A job that is never retried and ran to completed, timeout or failed is not
  given away. `SkippedThenRetried` and `RawStatusIsFree` are the two runs.
- A refund marker stays until its refund is in the ledger, unless a billing sweeper writes its own
  no-funds marker over it: that write has no guard on the status, and nothing else can destroy a
  marker (`MarkerLostExactly`, over runs `MarkerFate`). It takes a sweeper from before a retry, so the
  marker of a job that is never retried is safe (`MarkerStays`). In `LateSweeperTakesMarker` the job ends
  cancelled and charged, with no refund, no marker and nobody left to notice.
- A marker can also stay and never be read: the refund sweeper fetches cancelled jobs only, and a late
  route writes "completed" over "cancelled". From the moment a marker stands it can be fetched for
  exactly as long as it is there and no route has done so (`FetchableUntilCompleted`);
  `MarkerNobodyReads` is the run.
- A compensating worker leaves neither refund nor marker if and only if no attempt has brought the
  refund into the ledger and it dies, is drained in one of the pauses after a failed attempt, or loses
  the marker write (`CompensationEnds`). `DrainedLeavesNothing` is the run of a drained one.
- After a short batch the billing sweeper forgets the backoff of every job it had excluded from that
  batch: such a job is still held back if and only if the batch was full or the sweep was torn down
  (`BackoffKeptExactly`). `ShortBatchForgets` is the smallest case. `FullBatchProgress` and `VisitedInTime`
  therefore speak of full batches.
- A job that its dead worker had only been scheduled on is declared dead with all its retries left,
  while running and failed ones are retried (`TickLeavesNoOrphans`).
- A requeue that is refused still writes DEAD, whatever the job's status was, so two of them put a
  committed job back in the queue exactly when it has a retry left (`CommittedRunsAgain`).
- Replay in pages loses events exactly when a page ends between two events of one tick
  (`PagedIsPlain`). Ticks are distinct while one process appends with `next_tick`, but a store that is
  opened again counts from one again. After r openings of n events each, replay loses events if and
  only if the log is longer than a page and r does not divide the page size (`OpeningsLoseExactly`);
  with the code's pages of 100, three processes of 34 commands are enough (`ThreeLifetimes`).

## Model

| member | source | states |
|---|---|---|
| LedgerKeys.SameTenantInjective | billing/pg_ledger.py:189-190 | Within one tenant two different keys never hash to one row. |
| LedgerKeys.PreimageInjective | billing/finalize.py:65-68 | With unambiguous ids the debit and refund keys of all jobs of all tenants are distinct. |
| LedgerKeys.ColonFreeIsUnambiguous | billing/pg_ledger.py:244 | An id without a colon is unambiguous. |
| LedgerKeys.CollisionIffAmbiguous | billing/pg_ledger.py:295-296 | A row can be shared with a shorter id if and only if the id holds one of the two separators. |
| Ledger.OneDebitPerJob | billing/pg_ledger.py:285-296 | A sound ledger holds at most one DEBIT per tenant and job. |
| Ledger.DebitOutcomeIsDurable | billing/pg_ledger.py:302-351 | Under every fault: success means this very debit is in the ledger, "no funds" means nothing was written, a mismatch means another row holds the key, and the ledger stays sound. |
| Ledger.DebitExactly | billing/pg_ledger.py:302-398 | For every pair of faults the row is inserted exactly when the transaction commits, the key is free and debits stay within credits; and each answer, "no funds" and "unavailable" included, is given under exactly one condition on rows and faults. |
| Ledger.JobKeyUnshared | billing/pg_ledger.py:360-367 | With unambiguous ids no other tenant's row sits under a job's key. |
| Ledger.DebitIsIdempotent | billing/pg_ledger.py:353-398 | Debiting a billed job again changes nothing; the same amount succeeds, another one is a mismatch. |
| Ledger.CreditOutcomeIsDurable | billing/pg_ledger.py:173-228 | A credit adds at most its row and reports success only when its key is in the tenant's ledger. |
| Ledger.RefundIsDurable | billing/pg_ledger.py:230-247 | A refund of a debited job adds at most itself; reported success leaves its key taken. |
| Ledger.RefundReallyCredits | billing/pg_ledger.py:217-228 | Reported success means this refund is in the ledger, if and only if nothing else took its key before. |
| Ledger.TakenMeansRefunded | billing/pg_ledger.py:188-191 | Without hand-made keys a taken refund key is the refund of the whole debit. |
| Ledger.NetChargeIsTwoRows | billing/pg_ledger.py:20-26 | What a job costs, summed over the ledger, is its one debit row less its one refund row. |
| Ledger.NetChargeAllOrNothing | billing/pg_ledger.py:230-247 | A job's net charge is nothing or its debit; a refund always stands beside a debit of its amount. |
| Ledger.BalanceIsSums | billing/pg_ledger.py:20-33 | The balance is the sum of the tenant's CREDIT rows less the sum of its DEBIT rows, each row once. |
| Ledger.RefundRestores | billing/pg_ledger.py:230-247 | A refund restores exactly what its debit took, whatever is booked in between. |
| Ledger.CreditExactly | billing/pg_ledger.py:173-228 | For every pair of faults: which row is added, and that success means a new row or the tenant's own row under a given key. |
| Ledger.PGBillingLedger.DebitIfFunds | billing/pg_ledger.py:285-351 | The method does what `DebitSpec` says and mirrors in memory only rows PostgreSQL holds. |
| Ledger.PGBillingLedger.Credit | billing/pg_ledger.py:173-228 | The method does what `CreditSpec` says, with the same mirror. |
| Ledger.PGBillingLedger.Refund | billing/pg_ledger.py:230-247 | A refund is the credit under the job's refund key. |
| DebitLock.StepKeepsInv | billing/pg_ledger.py:302-321 | Each step of a locked debit keeps every uncommitted debit covered by the committed balance. |
| DebitLock.RunsAreSerializable | billing/pg_ledger.py:253-321 | Every interleaving of lock, insert, commit, rollback and credits has the effect of atomic debits and credits in commit order. |
| DebitLock.NeverOverdrawn | billing/pg_ledger.py:20-33 | In no interleaving does the sum of a tenant's DEBIT rows exceed the sum of its CREDIT rows, even when tenants share a lock. |
| DebitLock.GoesThrough | billing/pg_ledger.py:302-321 | A debit whose lock is free goes through, whatever the other transactions stand at, and is the conditional insert. |
| DebitLock.UnlockedPairOverdraws | billing/pg_ledger.py:306 | Two uncommitted debits of one tenant that are covered only one by one overdraw it. |
| Metering.RecordKeepsBooks | billing/pg_metering.py:99-150 | Through every fault the totals row equals the tenant's summed usage costs and no event is stored twice. |
| Metering.RecordExactly | billing/pg_metering.py:99-150 | The row is stored and its tenant's total rises by its cost exactly when the transaction commits and the event of a real job is new; nobody else's total moves. |
| Metering.UsageIsMeteredDebits | billing/finalize.py:89-102 | The usage of a tenant is its debits, each counted as often as its job was metered. |
| Metering.DriftExact | billing/pg_ledger.py:35-52 | Debits less usage is the debits of unmetered jobs less what was metered more than once. |
| Metering.MeteredAtMostOnce | billing/pg_metering.py:90-98 | A real job is metered at most once if and only if its rows have one event type. |
| Metering.RepeatedIffKinds | billing/pg_metering.py:90-98 | Nothing paid was metered more than once if and only if each paid job kept one event type. |
| Metering.PGMeteringEngine.Record | billing/pg_metering.py:116-150 | One call inserts the usage row and raises the total together or does neither. |
| Jobs.MarkRunningMeans | db_adapter.py:1932-1939 | A claim makes exactly the chosen rows running and leaves all others alone. |
| Jobs.ClaimsAreDisjoint | db_adapter.py:1876-1900 | Two claims, one after the other, never hand out the same job. |
| Jobs.JobTable.UpdateExecutionJob | db_adapter.py:2201-2261 | A row in a guarded status or of another tenant is not changed and counts zero; otherwise that row alone changes and counts one; a call that raised may have done either. |
| Jobs.UpdateExactly | db_adapter.py:2244-2257 | The compare-and-set, column by column: what changes, what does not, and the count. |
| Jobs.GuardedForEver | db_adapter.py:2249-2251 | Once a row's status is in a set that every later write guards, no sequence of writes changes the row. |
| Jobs.TenantsApart | db_adapter.py:2246-2248 | No sequence of writes made for other tenants changes a row. |
| Jobs.TransitionGraph | policy_transition.py:3-9 | The transition guard admits exactly these pairs of statuses. |
| Jobs.ClaimTakes | db_adapter.py:1921-1930 | A claim takes min(limit, queued) jobs. |
| Jobs.ClaimsOldestFirst | db_adapter.py:1927-1930 | No job left queued was created before one that is claimed. |
| Jobs.JobTable.InsertExecutionJob | db_adapter.py:1772-1784 | A new id adds one queued row, last in order of creation; a known id adds nothing. |
| Jobs.JobTable.ClaimQueued | db_adapter.py:1921-1948 | The queued jobs created first, at most the limit, are returned and running, and no other row changes. |
| Markers.AmountRoundTrip | billing/execution_worker.py:136 | Every amount printed with eight decimals reads back as itself. |
| Markers.RefundMarkerRoundTrip | billing/execution_worker.py:158-166 | The amount in a refund marker is read back exactly. |
| Markers.BillingMarkerRoundTrip | billing/execution_worker.py:169-185 | The marker of a parked job gives back timeout or failed, and nothing for any other status. |
| Markers.NamesDiffer | billing/execution_worker.py:169-185 | Different statuses and different billing results have different names. |
| Markers.MarkersSpelled | billing/execution_worker.py:169-175 | How the markers are spelled. |
| Markers.ColumnDecodes | billing/execution_worker.py:158-185 | On every marker the string readers agree with the typed `error` column; another text is read as no amount without the prefix and as no status without the needle. |
| Billing.FinalizeKeepsMoney | billing/finalize.py:201-232 | Under every fault "ok" means the debit and its usage row are there, "skip" and "no_funds" mean nothing changed, and the books stay sound. |
| Billing.CostIsPrice | billing/execution_worker.py:103-108 | A duration costs 0.00001 USD a second, to the unit of 1e-8 USD. |
| Billing.FinalizeExactly | billing/finalize.py:201-232 | For every pattern of faults each of the six answers is given under exactly one condition on rows, sums and faults, and ledger and usage are exactly what they were plus at most the debit and the usage row. |
| Billing.FinalizeIsIdempotent | billing/finalize.py:60-117 | After an "ok", finalizing again under the same event type, by anyone, for any amount and with any faults, changes nothing. |
| Billing.ParkingRemembers | billing/execution_worker.py:583-599 | Exactly the completed, timeout and failed runs with unsaved billing are parked, free of cost and with a marker that remembers which; a billed run shows its cost. |
| Billing.SweepRemembers | billing/execution_worker.py:230-290 | A sweep keeps a parked job's remembered status, releases it exactly when its billing is settled, and then writes that status and the cost of its duration. |
| Sweeps.RefundLoopAddsOnce | billing/execution_worker.py:628-646 | Any number of attempts, failing in any way, adds the refund at most once. |
| Sweeps.RefundLoopExactly | billing/execution_worker.py:628-646 | For every pattern of faults: the refund is added exactly when its key was free and some attempt commits, and the loop succeeds exactly when some attempt is told that it is there. |
| Sweeps.CompensateExactly | billing/execution_worker.py:619-652 | The marker is written exactly when no attempt was told so and the write reaches the row; nothing else of the row or the table changes. |
| Sweeps.CancelledIsCompensated | billing/execution_worker.py:619-652 | One uninterrupted compensation: for every pattern of failed refunds the job ends refunded in full or with a marker of the debited amount. |
| Sweeps.SweepRefundsSafe | billing/execution_worker.py:309-357 | A refund sweep leaves each marker as it was or refunds its job exactly, and touches no other job. |
| Sweeps.RefundGoesOn | billing/execution_worker.py:332-353 | The sweep goes on past a job exactly when there is no amount to read or the refund is told to be in the ledger. |
| Sweeps.RefundStopsThere | billing/execution_worker.py:348-353 | After the refund that fails it touches no further job. |
| Sweeps.MarkerOrOneRefund | billing/execution_worker.py:332-346 | Over any number of refund sweeps a marker survives or becomes one refund, and stays refunded. |
| Sweeps.FineSweepSettles | billing/execution_worker.py:332-346 | With an answering database one sweep refunds its whole batch and clears its markers. |
| PendingSweep.SweepKeepsMoney | billing/execution_worker.py:188-306 | A billing sweep keeps the books sound whatever fails and wherever it stops. |
| PendingSweep.VerdictExactly | billing/execution_worker.py:219-302 | A sweep ends early exactly when PostgreSQL failed the billing, and is torn down exactly when a differing no-funds marker could not be written. |
| PendingSweep.StopsThere | billing/execution_worker.py:294-297 | After the job that stops it, a sweep touches nothing more. |
| PendingSweep.GoesOn | billing/execution_worker.py:212-293 | Until then it handles the batch in order, one job after the other. |
| PendingSweep.BackoffExactly | billing/execution_worker.py:230-257 | Of all jobs, only the one without funds is held back, for an hour, and only the one billed is released. |
| PendingSweep.SeenIsKept | billing/execution_worker.py:298-302 | The backoff of the batch's own jobs survives the tidying after it. |
| PendingSweep.BackoffKeptExactly | billing/execution_worker.py:298-302 | A job held back is still held back after a sweep if and only if the batch was full or the sweep was torn down. |
| PendingSweep.ShortBatchForgets | billing/execution_worker.py:298-302 | A job just found without funds waits again at once when the next batch is short. |
| PendingSweep.FullBatchProgress | billing/execution_worker.py:207-209 | A full batch takes exactly its jobs out of the waiting ones; a short batch is all of them. |
| PendingSweep.VisitedInTime | db_adapter.py:1967-2004 | When nothing fails, each of N waiting jobs is visited within N / limit + 1 sweeps. |
| Worker.ExecutionWorker.FinalizeJobBilling | billing/finalize.py:201-232 | The method over the shared ledger, metering and table does what `FinalizeSpec` says. |
| Worker.ExecutionWorker.CompensateCancelled | billing/execution_worker.py:619-652 | The retry loop and the marker do what `Compensate` says. |
| Worker.ExecutionWorker.SweepRefundPending | billing/execution_worker.py:309-357 | The refund sweep does what `SweepRefunds` says. |
| Worker.ExecutionWorker.SweepBillingPending | billing/execution_worker.py:188-306 | The billing sweep with its backoff table does what `SweepOnce` says. |
| ProtocolFinalize.StepsAreOneCall | billing/finalize.py:201-232 | The read, debit and metering steps of one process, taken in a row, are one call of `finalize_job_billing`. |
| SweepSteps.SettleIsStep | billing/execution_worker.py:230-293 | The billing sweeper's write as a step is its write as a function. |
| SweepSteps.RefundIsStep | billing/execution_worker.py:332-346 | The two steps of one refund of the refund sweeper are its function. |
| ProtocolSteps.LastWrites | billing/execution_worker.py:583-614 | The row after a worker's last write, for every result and every way its run ended: parked, free of cost and with an error that says how it ended, exactly when a completed, timeout or failed run was not billed. |
| ProtocolSteps.SweepWrites | billing/execution_worker.py:230-293 | The row after a billing sweeper's write, for every result and every status it finds. |
| ProtocolSteps.Compensates | billing/execution_worker.py:615-616 | Only a billed worker whose write found the row closed looks for a cancellation. |
| ProtocolSteps.ChecksCancel | billing/execution_worker.py:617-623 | Only a cancelled job is refunded, from the first attempt on. |
| ProtocolSteps.Refunds | billing/execution_worker.py:628-649 | One refund attempt: the row it adds, when it is told to be there, and that the third failure leads to the marker. |
| ProtocolSteps.Fetches | billing/execution_worker.py:205-218 | What the sweepers take from a fetched row. |
| ProtocolSteps.Drains | billing/execution_worker.py:679-700 | A drained worker cancels its job if the row is still open, and is gone. |
| ProtocolSteps.RoutesComplete | router_jobs.py:123-164 | A completing route starts from a running job and writes only when billed. |
| ProtocolSteps.OneRow | db_adapter.py:2244-2257 | A step changes the row of no other job. |
| ProtocolSteps.NeverStuck | billing/execution_worker.py:555-652 | Whatever the calls before it did, every process can take the next step it stands before. |
| ProtocolSteps.Starts | db_adapter.py:1967-2057 | Exactly when a process can claim, fetch or complete a job. |
| ProtocolSteps.PutIsUpdate | db_adapter.py:2201-2261 | The protocol's writes are those of the compare-and-set. |
| LedgerSteps.TransactionsAreSteps | billing/pg_ledger.py:253-351 | What any interleaving of locked transactions and credits does to the ledger is a run of the protocol's ledger steps, commits after the re-check included. |
| ProtocolMoney.MoneyStep | billing/execution_worker.py:555-652 | Every step of every process keeps the money invariant, and the ledger only grows. |
| ProtocolMoney.NeverDebitedTwice | billing/pg_ledger.py:285-351 | In every run the ledger holds at most one DEBIT per tenant and job. |
| ProtocolMoney.RefundConservation | billing/execution_worker.py:615-652 | In every run a job's net charge is nothing or its debit, and a refund matches a debit of its amount. |
| ProtocolMoney.BalanceNeverNegative | billing/pg_ledger.py:20-33 | In every run the sum of a tenant's DEBIT rows is at most the sum of its CREDIT rows. |
| ProtocolMoney.Reconciliation | billing/pg_ledger.py:35-52 | In every run the totals match the usage and the drift is exactly the unmetered debits less the repeated ones. |
| ProtocolMoney.ShownMoneyWasDebited | billing/execution_worker.py:605-614 | In every run a cost on a job row, or an amount in a refund marker, was debited. |
| ProtocolStatus.StatusStep | billing/execution_worker.py:583-614 | Every orderly step keeps the status invariant. |
| ProtocolExits.LastWriteLeavesFree | billing/execution_worker.py:583-614 | A last write that reaches its row leaves a costly run neither paid nor parked if and only if it was told to skip, or its billing was not saved and the run ended in a status that is never parked, and nobody else has debited it. |
| ProtocolExits.LastWriteSettles | billing/execution_worker.py:583-614 | The same in every orderly run; and a job never retried whose run ended completed, timeout or failed is paid, parked, or had nothing to pay. |
| GivenAway.SkippedThenRetried | router_jobs.py:52-85 | For every length there is an orderly run of the first exception. |
| GivenAway.RawStatusIsFree | billing/execution_worker.py:589-592 | For every length there is an orderly run of the second, of a job that is never retried. |
| ProtocolStatus.NoFreeExit | billing/execution_worker.py:230-293 | In every orderly run a job that leaves billing_pending has its DEBIT or nothing to pay, unless it was retried after being parked for nothing. |
| FreeExit.RetriedJobLeavesUnpaid | billing/execution_worker.py:277-287 | The other half: for every length there is an orderly run in which such a job leaves unpaid. |
| ProtocolStatus.ZeroParkedMeans | billing/execution_worker.py:589-592 | "Parked for nothing" is a real moment of the run: parked with a zero duration. |
| ProtocolStatus.FlagsMean | router_jobs.py:52-85 | "Retried" and "routed" say exactly that the run holds a retry of the job, or a route that started to complete it. |
| ProtocolStatus.ParkedOnlyWhenLive | db_adapter.py:1951-1964 | Only a worker's last write parks a job, and only from queued or running, so no cancelled job is parked. |
| ProtocolStatus.ClearedOnlyWhenRefunded | billing/execution_worker.py:341-345 | A sweeper about to clear a marker has the refund in the ledger and the job costs nothing. |
| ProtocolStatus.AmountStable | billing/execution_worker.py:550-555 | Until a retry everyone but a route bills and refunds the cost of the one run; until a completing route as well, nothing else is debited and nobody is told of a mismatch. |
| ProtocolStatus.ExecStatusSurvives | billing/execution_worker.py:233-243 | Until a retry the marker and duration of a parked job are those of its run, and what releases it is a sweep writing how the run ended, unless a route has billed it meanwhile. |
| ProtocolMarker.CompensationEnds | billing/execution_worker.py:619-652 | In every orderly run a compensating worker ends with neither refund nor marker if and only if no attempt had reached the ledger and it died, was drained in a pause, or lost the marker write. |
| Repaying.DrainedLeavesNothing | billing/execution_worker.py:679-700 | For every length there is an orderly run of a drained worker that ends so. |
| ProtocolMarker.RepayStep | billing/execution_worker.py:619-652 | Every orderly step keeps that a marker stands on a cancelled or completed job without a worker, and that a repaying worker's job is cancelled or completed. |
| ProtocolMarker.MarkerStays | billing/execution_worker.py:309-346 | In every orderly run the marker of a job that is never retried stays until the refund of its amount is in the ledger. |
| ProtocolMarker.MarkerLostExactly | billing/execution_worker.py:254-261 | A marker that is not paid back is destroyed by a sweeper's differing no-funds write, and by nothing else. |
| ProtocolMarker.MarkerFate | billing/execution_worker.py:254-261 | In every orderly run any marker of any job is still there, or paid back, or struck by such a write since. |
| ProtocolMarker.FetchableUntilCompleted | db_adapter.py:2024-2057 | From the moment it stands, a marker can be fetched exactly as long as it is there and no route has completed the job. |
| Repaying.MarkerNobodyReads | router_jobs.py:158-163 | For every length there is an orderly run whose marker, on a job never retried, stays and can no longer be fetched. |
| Repaying.RefundedUnderTakenKey | billing/pg_ledger.py:217-226 | For every length there is a run whose top-up holds the refund key, whose worker is told of success, and whose job stays charged. |
| LostMarker.LateSweeperTakesMarker | billing/execution_worker.py:254-261 | For every length there is an orderly run that leaves a retried job cancelled and charged, without refund, marker or process. |
| ProtocolUsage.UsageStep | billing/finalize.py:86-102 | Every step keeps that a process told "ok" has its usage row, and that usage and debits belong to the job's tenant. |
| ProtocolUsage.DriftIffOneKind | billing/pg_ledger.py:46-50 | In every run the drift is the unmetered debits if and only if no job was metered by two committed steps of different kinds. |
| ProtocolUsage.OneBackendReconciles | billing/finalize.py:94-102 | It is, in every run that dispatches, fetches, completes and meters each job under one kind of backend. |
| ProtocolUsage.AllFinalizedNoDrift | billing/finalize.py:227-228 | Then, once every debited job has had a finalize that returned "ok", debits equal usage. |
| TwoBackends.SecondBackendDrifts | billing/pg_metering.py:90-98 | For every length there is an orderly run with one debit and twice its usage. |
| Connection.BackoffBound | billing/pg_connection.py:264-276 | With n retries a borrow sleeps at most base * (2^n - 1) in all. |
| Connection.DefaultBackoff | billing/pg_connection.py:264 | With five retries that is 3.1 seconds. |
| Connection.PGConnectionManager.TryOnce | billing/pg_connection.py:215-256 | One attempt takes at most one connection, from the pool it captured, and a connection that fails its ping ends there or closed. |
| Connection.PGConnectionManager.GetConnection | billing/pg_connection.py:211-278 | A wrapper comes back exactly when an attempt lends an answering connection; every connection taken is accounted for and the sleep is the sum of the doubled delays. |
| Connection.PgConnection.Release | billing/pg_connection.py:72-107 | The first release settles the borrow at its own lender, or closes it, and lowers the gauge; later ones do nothing. |
| Connection.PgConnection.Finish | billing/pg_connection.py:109-139 | Commit is attempted exactly when the body did not raise; a failed commit is raised and its connection discarded, after one release. |
| Connection.AllSettled | billing/pg_connection.py:50-54 | When no wrapper is left, each borrow was settled exactly once and the gauge is zero. |
| JobLifecycle.TickLeavesNoOrphans | control_plane/reconciler.py:40-52 | After a tick no job of a worker declared dead is scheduled, running or failed, and each has become what its retries allow; other jobs only leave the retry queue. |
| JobLifecycle.OrphanedByOps | control_plane/reconciler.py:41-45 | That outcome is what the store's fail and requeue produce. |
| JobLifecycle.ActsAs | control_plane/job_store.py:61-132 | The store's state machine: from which status each operation is accepted and what every field becomes. |
| JobLifecycle.EffectiveStepsBounded | control_plane/job_store.py:61-141 | In any run the steps that change something number at most 7 * max_retries + 5 per submitted job, plus what older jobs had left. |
| JobLifecycle.StartsBounded | control_plane/core_models.py:86-90 | A job enters RUNNING at most max_retries + 1 times and its retry count stays within max_retries. |
| JobLifecycle.DoneWasStarted | control_plane/job_store.py:73-103 | In every run a job that is running, completed or committed was started in it. |
| JobLifecycle.CommittedIsFinal | control_plane/job_store.py:95-103 | A committed job never changes in a run that does not requeue it by name. |
| JobLifecycle.CommittedRunsAgain | control_plane/job_store.py:117-132 | Two requeues bring it back if and only if it has a retry left. |
| Healing.TickedHasNoOrphans | control_plane/reconciler.py:31-56 | The same for the whole store at once. |
| Healing.OneMoreJob | control_plane/reconciler.py:40-48 | Orphaning a job frees exactly its leases on its worker's GPUs, independently of those before it. |
| Healing.SweptExactly | control_plane/reconciler.py:40-50 | The leases gone after a tick are those that ran out and those of running or failed jobs with retries left on the GPUs of their dead worker, and no others. |
| ControlPlane.JobStore.Submit | control_plane/job_store.py:38-59 | Submitting adds one job under an id never used before. |
| ControlPlane.JobStore.Requeue | control_plane/job_store.py:117-132 | A requeue counts and unassigns a retryable job and declares any other one dead. |
| ControlPlane.JobStore.AdvancePending | control_plane/job_store.py:134-141 | The retry queue becomes submitted, is returned, and nothing else changes. |
| ControlPlane.GPULeaseManager.Acquire | control_plane/leases.py:16-24 | A GPU is leased exactly when no unexpired lease holds it. |
| Healing.LeaseLasts | control_plane/core_models.py:57-58 | A new lease runs out one time to live after it was made, and every renewal adds one more. |
| Healing.HolderKeeps | control_plane/leases.py:16-57 | Over any sequence of calls a job keeps its GPU as long as nobody looks at it after the lease has run out and it is not released. |
| ControlPlane.Reconciler.RecoverJob | control_plane/reconciler.py:41-48 | One orphan is handled as described and its GPUs are freed exactly when it is retried. |
| ControlPlane.Reconciler.Tick | control_plane/reconciler.py:31-56 | A worker is newly dead exactly when it was healthy and its heartbeat lies more than the limit back, no other worker changes; and the whole store and lease table follow from those before, with no orphan left. |
| ControlPlane.OverdueExactly | control_plane/reconciler.py:36 | Overdue are the healthy workers whose last heartbeat lies more than the limit back. |
| ControlPlane.DeclaredDeadExactly | control_plane/registry.py:31-44 | Over any sequence of heartbeats and ticks a healthy worker is ever declared dead if and only if at some tick its last heartbeat lay more than the limit back. |
| ControlPlane.TickIsEvent | control_plane/reconciler.py:31-56 | That store is the one the runs of `JobLifecycle` reach by their tick event. |
| Journal.RotationLosesOldest | core/jev_shadow_log.py:69-79 | Wherever a rotation stops, reading all files gives the old content without the oldest backup, or all of it. |
| Journal.ShadowLog.Rotate | core/jev_shadow_log.py:69-79 | A rotation moves files up over no other file and stops at the first operation that fails. |
| Journal.ShadowLog.Record | core/jev_shadow_log.py:82-110 | The files always hold a suffix of what was written; a call drops at most the oldest backup, and only if the record does not fit; without failures the live file is within the limit or holds one record. |
| RateLimiter.RateLimiter.Check | auth/api_gateway.py:14-40 | One call refills and takes as described, for its own tenant only. |
| RateLimiter.TokensStayWithin | auth/api_gateway.py:26-33 | Tokens stay between zero and the rate through any run of calls by anyone. |
| RateLimiter.BurstBound | auth/api_gateway.py:15-18 | In any interval of length T a tenant is let through at most R + T * R / W times. |
| RateLimiter.SpacedRequestsPass | auth/api_gateway.py:27-31 | A request W / R or more after the tenant's last one is always let through. |
| RateLimiter.BurstPasses | auth/api_gateway.py:20-25 | A burst from a bucket of n tokens passes exactly n times. |
| RateLimiter.BurstAfterIdle | auth/api_gateway.py:26-33 | From t tokens, d after the last call, exactly the whole part of min(R, t + d * R / W) requests at one instant pass. |
| RateLimiter.SilenceRestoresRate | auth/api_gateway.py:20-29 | A full window of silence restores R of them; a new tenant has R. |
| Replay.SortedFrom | durability/event_sourcing.py:212-219 | Selecting from a tick and ordering commute, so each query reads a part of one ordered log. |
| Replay.FromSelects | durability/event_sourcing.py:212-219 | Exactly the events from the tick on are selected, each as often as it is there. |
| Replay.PagedIsPlain | durability/event_sourcing.py:221-230 | Paging reads the whole list if and only if no page boundary falls inside a tick; otherwise it skips events. |
| Replay.EverySizeIsSafe | durability/event_sourcing.py:225 | Every page size reads everything if and only if ticks are distinct. |
| Replay.ReplayReadsAll | durability/event_sourcing.py:221-230 | With distinct ticks replay yields the events from the tick on, once each, in tick order, for any page size. |
| Replay.EventStore.NextTick | durability/event_sourcing.py:160-164 | Each drawn tick is new to the log and to the other draws. |
| Replay.EventStore.Append | durability/event_sourcing.py:166-181 | An event with a drawn tick keeps ticks distinct; a repeated id is refused. |
| Replay.EventStore.ReplayFromTick | durability/event_sourcing.py:221-230 | The loop over pages terminates and yields what `ReadFrom` says. |
| Replay.ReadFromIsPaged | durability/event_sourcing.py:212-219 | That is the paged reading of the events selected by tick and put in order. |
| Reopening.JobAggregate.Command | durability/event_sourcing.py:328-343 | A command draws the next tick and appends its event with it. |
| Reopening.OpeningsLoseExactly | durability/event_sourcing.py:126-131 | After r openings of n events each, replay loses events if and only if the log exceeds a page and r does not divide the page size. |
| Reopening.ThreeLifetimes | durability/event_sourcing.py:221-230 | Three processes of 34 commands each leave a log that replay does not read whole. |

## Left out

- VisitedInTime: assumes sweeps without failures, without new parked jobs and without a backoff expiring in between; nothing is claimed about the hour of backoff itself.
- ParseAmount: reads plain decimals with eight fraction digits, which is all the worker writes, and not every literal that Python's float accepts.
- ColumnDecodes: the protocol keeps texts from elsewhere apart from markers; an error text that itself begins like a refund marker or holds `:exec=` is not modelled there.
- CancelledIsCompensated: is about one call that is not interrupted and whose marker write commits; `CompensationEnds` and `MarkerFate` are the statements about runs.
- FinalizeIsIdempotent: another event type adds a second usage row; see `DriftIffOneKind`.
- BurstBound: uses real numbers, and the clock does not go back; the rounded fields of the answer are not modelled.
- ReplayFromTick: the log does not grow while it is replayed; events of one tick come in the order they were appended.
- SweepRefundPending: takes job ids to be non-empty and top-up keys not to be job keys, which is where a refund can raise or credit nothing.
- Tick: every clock reading may differ, but heartbeats and clients do not act in the middle of a tick.
- JobStore and WorkerRegistry: job and worker records are values in their dictionaries; that callers share the record objects is not captured. GPULeaseManager does the same with leases.
- What queries return (batches, ordering by time) is a parameter with the conditions its WHERE and LIMIT impose; the order by completion time is not used.
- An UPDATE of a job row that fails is not a `PGUnavailableError` in the sweepers: it counts as an error and the sweep goes on.
- The start and fail acknowledgements and `/retry` are one step each; `/complete` and the completing acknowledgement are separate read, debit, meter and write steps, billing an arbitrary amount in place of the measured duration.
- `PGBillingLedger.append` and `debit`, and `decision_store`'s blind status writes: unconditional writers outside the protocol. Status writes of that kind are covered by the adversary of the money results.
- Token usage events, the currency column, burn-rate tracking, metrics, alerts, audit events, plan policies and HTTP.
- Closing pools, the pool's own limits, and cursor errors after a successful ping.
- Persistence of the control-plane store to its JSON file, timestamps on jobs, worker selection and the listing and statistics functions.
- A partial write of a log line, and readers of the live file.
- `append_batch`, event payloads and the projections built from events.
- GPU lock manager, cost prediction, pricing, dashboards, crypto payments and the other services of the repository.
