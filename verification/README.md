# Task engine: a Dafny model and its proofs

The deployment manager runs on-chain job operations (LIST, EXTEND, STOP) from a
leased queue shared by several consumers. A consumer may crash between any two
writes, a response may be lost, a task may be claimed again, and a webhook may
arrive in the middle of a run. This project models that engine and proves what it
keeps in all of those cases.

Code that changes stored documents step by step is modelled as classes and
methods whose contracts give the whole new state. Each protocol is, besides, a
state machine whose steps are the single database writes and the environment's
moves; its theorems hold of every finite run of the machine, in every
interleaving. The machines and the methods share their step functions where both
exist.

| file | what it models |
|---|---|
| `Idempotency.dfy`, `EpochWalk.dfy` | idempotency keys, the epoch walk over a batch and over one call, any number of walks against the Credit Manager, and how their confirmations agree |
| `Tracker.dfy` | the chain, one sweep of the signature tracker, and the tracker's shared map |
| `Ledger.dfy`, `LedgerSafety.dfy`, `Nodes.dfy` | the transaction records of a task: recovery, resume, top-up, and all attempts of a self-custody LIST with crashes |
| `Slots.dfy`, `SlotWalks.dfy` | an API-key LIST into a market's queue: slots, records, job rows and events; the listing end to end, on top of the epoch walks |
| `Queue.dfy`, `FetchCycle.dfy` | claims, fenced transitions and locks; one whole fetch cycle |
| `Consumers.dfy`, `ConsumerSafety.dfy` | any number of consumers, write by write |
| `Funds.dfy`, `Reservation.dfy` | the funds check; the reservation request and its webhook |
| `Lifecycle.dfy`, `ListRun.dfy` | wanted tasks, every writer of a deployment's status, scheduling; what a LIST attempt comes to |
| `Pagination.dfy` | keyset pagination |
| `StartupDeadline.dfy` | the startup deadline and tunnel registration |

## Assumptions

They appear in the models as preconditions or as guards of environment steps.

- A run tears down, and a fetch cycle moves on, before the deployment lock taken
  for it expires (`Consumers.BeforeExpiry`); one consumer's cycles do not overlap.
- The clock readings of one cycle lie within one lease of each other.
- The Credit Manager answers a resolved batch with each posted index once, and a
  key's verdict is frozen and says truly which units landed.
- Unit ids are distinct within an operation, and task ids (hexadecimal object ids)
  hold no colon.
- The signer packs exactly the nodes, or the number of jobs, it was asked for, and
  signed records are stored in the order they are emitted.
- An attempt's verdict other than confirmed means its transaction never lands.
  `LandedWithinTarget` says what holds without it; `ExpiryTrustedIffFetched` and
  `RecoveredExpiryTrustedIff` say exactly when the code's own evidence gives it.
- A fill holds distinct nodes and no more of them than were requested, and a
  request that expired or was cancelled is never given a live fill afterwards.
- Every confirmation of a listed slot names its job, and no job is listed in two slots.
- The startup-deadline handlers and the queue read one clock.

## Where code and documentation disagree

The model follows the code.

- `src/tasks/execution/tracker/status.ts:18-20` says a signature whose batch failed
  is never read as expired; `src/tasks/execution/tracker/sweep.ts:29` does so past
  the window (`Tracking.FailedBatchExpiresTheConfirmed`).
- The parallel reads of `src/tasks/execution/transactions/recover.ts:30-33` can
  pair a new height with old statuses (`Records.ParallelReadsExpireTheLanded`).
- A `prev` page that does not reach the start leaves out the document next to the
  cursor (`Pagination.PrevIsExactIff`).
- The credits budget admits prices at which the jobs asked for cost more than the
  credits available (`Funds.CreditsFitIff`), by less than 0.1 cent a job.
- `src/strategies/infinite/utils/armStartupDeadline.ts:26-27` says a job already
  online never keeps an armed stop. A registration without a deployment id records
  the tunnel up and returns before disarming (`DeadlineSafety.UnnamedRegistrationStrands`),
  and a longer timeout moves on a stop that a registration found due
  (`PostponedStopStrands`); `NoLostTunnelStop` has the exact condition.
- `src/strategies/all/deploymentTimeoutUpdate.ts:68-70` says only the rotation LIST and
  the chained EXTEND move; its filter has no task type, so a job's pending STOP moves too.
- `src/tasks/updateScheduledTasks.ts:6-8` says the pending cron LISTs move; every LIST of
  the deployment does, in any status and whether or not it holds a fill.
- `src/tasks/task/list/reserve.ts:237-238` says an accepted fill makes its task due
  now; the run that is still going may reschedule it later
  (`ReservationSafety.RetryDelaysTheFill`), and so may a schedule change
  (`ScheduleDelaysTheFill`); `AcceptedFillClaimableIff` has the exact condition.
- `src/tasks/task/list/run.ts:212-213` calls the request spent at a hand-off; one
  refused for changed terms may still be filled, and a task that runs again after
  the hand-off then lists on top of it (`LedgerSafety.RefusalCanOvershoot`).

## Model

| member | source | states |
|---|---|---|
| Keys.KeysAgree | src/tasks/idempotency/key.ts:28-34 | two postings render to one key exactly when epochs agree and task and unit join alike |
| Keys.KeyInjective | src/tasks/idempotency/key.ts:28-34 | no two postings share a key while task ids hold no colon |
| Keys.ColonsCollide | src/tasks/idempotency/key.ts:28-34 | with colons in a task id two different postings do share a key |
| ApiErrors.ClassifyApiError | src/tasks/idempotency/classify.ts:31-43 | an error is EXPIRED exactly if it is coded so, and fatal exactly for a coded payload mismatch or another uncoded answer below 500 |
| Batch.ExpiredIff | src/tasks/idempotency/batch.ts:105-117 | a unit is posted again exactly when an item of the answer calls it expired |
| Batch.AnswerSplits | src/tasks/idempotency/batch.ts:105-117 | a complete answer splits the posted units into confirmed and expired, none both, none lost |
| Batch.RunIdempotentBatch | src/tasks/idempotency/batch.ts:71-121 | on every exit the confirmed ids are distinct and partition the input with what is pending; at most maxEpoch + 1 posts, each payload the expired tail of the one before; and what each kind of last answer makes of the walk: ok only when all are confirmed, fatal only for a mismatch or another uncoded answer below 500, retry, with its hint, for anything else |
| Call.OneUnitAnswer | src/tasks/idempotency/call.ts:34-48 | a call's answer read as a batch answer for its one unit is complete, so the walk's theorems apply |
| Call.RunIdempotentCall | src/tasks/idempotency/call.ts:26-49 | the call is the batch walk over one unit; a later key is posted only after every earlier one was answered a coded EXPIRED; and the result of every kind of last answer, with its hint |
| EpochWalk.SameKeySamePayload | src/tasks/idempotency/batch.ts:85-117 | in every reachable state two posts with one key are one post, and match what the Credit Manager holds |
| EpochWalk.LandsOnce | src/tasks/idempotency/batch.ts:85-117 | a unit lands under at most one epoch's key |
| EpochWalk.EveryRunIsSafe | src/tasks/idempotency/batch.ts:85-118 | over any walks, lost replies, late and duplicate posts, crashes and restarts: one payload a key, no payload mismatch, whatever landed is a unit of a planned post, no unit landed under two keys |
| Confirmations.OneReceipt | src/tasks/idempotency/batch.ts:105-117 | two confirmations of one unit are one: same epoch, same receipt |
| Confirmations.ConfirmationsAgree | src/tasks/idempotency/batch.ts:85-118 | over any run, whichever walker of an operation reports a unit and whenever, it reports one receipt, and the unit landed under exactly one key; a walker that ends ok reports every unit |
| Confirmations.CallLandsOnce | src/tasks/idempotency/call.ts:26-49 | a single call, over any re-runs of it: it takes effect under at most one key, and every run told a result is told the same one, of an effect that happened |
| CallSafety.NextKeyOnlyOverTheDead | src/tasks/idempotency/call.ts:34-45 | a call fed the Credit Manager's own answers posts under the next key only if the frozen verdict under the one before confirms nothing and nothing landed under it; told that it landed, it did so under its last key and no other |
| CallSafety.HeardAlike | src/tasks/idempotency/call.ts:34-45 | a call takes each reply as a walk over its one unit takes the batch answer under the same key |
| Chain.DeadIffPastWindow | src/tasks/execution/tracker/sweep.ts:25-31 | a signature can never land exactly when it has not landed and the height is past its window |
| Tracking.EvaluateEntries | src/tasks/execution/tracker/sweep.ts:13-34 | settled are exactly the outcomes the statuses and the height earn an entry, error and confirmation before expiry; past its window every entry is settled, whatever was fetched |
| Tracking.SettledIff | src/tasks/execution/tracker/sweep.ts:13-34 | a signature is settled with an outcome exactly when the statuses and the height earn an entry of it that outcome |
| Tracking.FetchedVerdictIsSound | src/tasks/execution/tracker/index.ts:37-51 | with a status fetched after the height: confirmed or failed exactly as on chain at any height, expired exactly for what has not landed and is past its window, which never lands |
| Tracking.PastItsWindowIsSettled | src/tasks/execution/tracker/sweep.ts:29-31 | past its window an entry gets a verdict, whatever its status or none |
| Tracking.ExpiryTrustedIffFetched | src/tasks/execution/tracker/sweep.ts:20-31 | past the window, an expiry can be trusted exactly when the status was fetched |
| Tracking.FailedBatchExpiresTheConfirmed | src/tasks/execution/tracker/sweep.ts:20-31 | a confirmed transaction whose status batch failed is declared expired |
| Tracking.Tracker.TrackSignature | src/tasks/execution/tracker/index.ts:74-95 | the signature waits under a new ticket, or the ticket is answered aborted; a second wait replaces the first |
| Tracking.Tracker.Settle | src/tasks/execution/tracker/index.ts:22-29 | the ticket waiting on the signature, if any, is answered and forgotten, and nothing else changes |
| Tracking.Tracker.Sweep | src/tasks/execution/tracker/index.ts:31-52 | a waiting signature is answered exactly if the statuses and the height earn it an outcome, with that outcome and once; none whose window is past the height goes on waiting; an answer given is never changed, and no other ticket is answered |
| Records.RecoverUnits | src/tasks/execution/transactions/recover.ts:23-66 | each resumed record gets its one action: confirmed exactly if seen committed, an error exactly if seen to fail, a resend exactly if neither, its bytes held and in their window, and otherwise expired |
| Records.RecoveredExpiryTrustedIff | src/tasks/execution/transactions/recover.ts:30-62 | an expiry recovery declares of held bytes is final exactly when the statuses' chain was past the window |
| Records.ParallelReadsExpireTheLanded | src/tasks/execution/transactions/recover.ts:30-62 | a transaction landed in its last block can be recovered as expired |
| Records.SendUnit | src/tasks/execution/transactions/send.ts:20-75 | exactly when the bytes leave, and exactly which ways of the network confirm, fail, expire or cut short a send |
| Reconciliation.Tally | src/tasks/execution/orchestrate/unit.ts:87-109 | jobs counted by unit, errors, abort and retry as reported, and the longest retry hint |
| Reconciliation.SplitConfirmed | src/tasks/execution/orchestrate/coordinator/resumeExisting.ts:15-28 | confirmed records are counted as they are and exactly the others are recovered, in order |
| Reconciliation.ResumeOutcomeIs | src/tasks/execution/orchestrate/coordinator/resumeExisting.ts:32-40 | a resumed record is confirmed exactly where the statuses or its own new send say so, an error where they say that, and cut short only in a new send |
| Reconciliation.TaskLedger.PersistSignedRecord | src/tasks/execution/orchestrate/unit.ts:20-22 | the record is appended and every other record stays |
| Reconciliation.TaskLedger.ApplyOutcome | src/tasks/execution/orchestrate/unit.ts:39-79 | only the unit's record changes, as its outcome says, and its jobs are counted exactly if it landed |
| Reconciliation.TaskLedger.ResumeExisting | src/tasks/execution/orchestrate/coordinator/resumeExisting.ts:14-43 | every record is resumed once in place, confirmed jobs equal the ledger's, and un-aborted every record is settled |
| Reconciliation.TaskLedger.RunWorkerMessages | src/tasks/execution/orchestrate/workerChannel.ts:35-51 | each signed unit is stored before it is sent, in order, old records untouched; it is confirmed exactly if its send was tracked so; errors and cut-short sends are reported one for one; un-aborted all settled |
| Reconciliation.TaskLedger.ReconcileUnits | src/tasks/execution/orchestrate/coordinator/reconcileUnits.ts:15-57 | the worker is asked for exactly the shortfall left after the resume, from the next index; each record as its own reads and send left it; jobs confirmed, errors and the abort are exactly the ledger's; un-aborted, every record is settled and its bytes cleared |
| Reconciliation.ReconciledLandsIff | src/tasks/execution/orchestrate/coordinator/reconcileUnits.ts:31-56 | after an attempt a record is confirmed exactly if it was, if seen landed, or if its own send was tracked confirmed; it keeps its bytes exactly if that send was cut short |
| Reconciliation.TaskLedger.Drain | src/tasks/task/list/run.ts:138-144 | with nothing to sign, one un-aborted pass settles every record, adds none and leaves no bytes |
| LedgerSafety.StepKeeps | src/tasks/execution/orchestrate/coordinator/reconcileUnits.ts:31-46 | every step keeps: signed jobs not given up on within the target, every broadcast recorded, units numbered by position |
| LedgerSafety.ResumeIsRun | src/tasks/execution/orchestrate/coordinator/resumeExisting.ts:14-43 | a whole resume is a run of the state machine: the records as the ledger's rules leave them, and given up on exactly the signatures the statuses, the window or a send tell against |
| LedgerSafety.WorkerIsRun | src/tasks/execution/orchestrate/workerChannel.ts:35-51 | a worker's pass is a run of the state machine: each message stored, sent and judged as the ledger does |
| LedgerSafety.LandedWithinTarget | src/tasks/execution/orchestrate/coordinator/reconcileUnits.ts:31-46 | over any attempts and crashes, jobs landed exceed the frozen target by no more than what landed after being given up on, and every landed transaction has a record |
| LedgerSafety.SignsAllUnused | src/tasks/task/list/reserve.ts:110-117 | the shortfall never cuts a live fill: an attempt signs every node left unused |
| LedgerSafety.NoNodeAssignedTwice | src/tasks/task/list/reserve.ts:110-117 | over all attempts the nodes on the records are distinct nodes of the task's one reservation |
| LedgerSafety.HandOffConserves | src/tasks/task/list/run.ts:217-221 | after a hand-off on a request that is used up, lapsed or closed unfilled, confirmed jobs and the child's limit make up the target and no later attempt can sign a node; after a refusal the child has the whole target, and nothing can be signed unless the refused request is filled |
| LedgerSafety.OneHandOff | src/tasks/task/list/run.ts:217-221 | over any later attempts, target and hand-off stay as first written, and after a hand-off without a refusal no further job of the task is confirmed while nothing given up on lands |
| LedgerSafety.SignsAgainIff | src/tasks/task/list/reserve.ts:110-117 | for every run, an attempt done with what it loaded can sign more exactly while the request has a live fill with a node on no record |
| LedgerSafety.RefusalCanOvershoot | src/tasks/task/list/reserve.ts:214-218 | a request refused, handed off and filled all the same: the target is both handed off and confirmed |
| Slots.PendingSlots | src/tasks/task/list/pendingSlots.ts:17-26 | exactly the slots without a confirmed record, ascending, gaps included |
| Slots.EmitConfirmed | src/tasks/task/list/worker.ts:71-81 | exactly the walk's confirmations of slots not yet recorded are emitted |
| Slots.ListStore.OnListConfirmed | src/tasks/task/list/events/onListConfirmed.ts:27-93 | the row is inserted once a job, only the call that inserted it adds an event, and a new row takes the state read from the chain, queued if there is none |
| Slots.ListStore.RunWorkerMessages | src/tasks/execution/orchestrate/workerChannel.ts:52-76 | one record a message, every message's job has its row, and rows and events gain the same jobs |
| SlotSafety.FullIsComplete | src/tasks/execution/orchestrate/coordinator/reconcileUnits.ts:36-37 | as many confirmed jobs as the target means no slot is missing |
| SlotSafety.EverySlotOnce | src/tasks/task/list/worker.ts:62-92 | across crashes and reclaims: at most one record a slot with its own job, every recorded job has its row, no job two rows or two events, and a completed run recorded every slot |
| SlotWalks.HeardIsWalk | src/tasks/task/list/worker.ts:68-86 | whatever a walker heard is a step the listing allows: it agrees with every earlier answer |
| SlotWalks.EverySlotLandsOnceAndIsRecorded | src/tasks/task/list/worker.ts:62-92 | end to end over walks, lost replies, crashes and reclaims: every recorded slot landed under exactly one key and has one record of its own job with its row, no job two rows or events, and a completed run recorded every slot |
| Queue.NoneStranded | src/tasks/queue/claim/claim.ts:27-34 | a task that is processing exactly when held under a lease becomes claimable once lease and due time are past |
| Queue.ClaimsTheEarliest | src/tasks/queue/claim/claim.ts:25-50 | at one reading of the clock a claim takes exactly the min(count, available) earliest-due claimable tasks |
| Queue.TaskQueue.ClaimTasks | src/tasks/queue/claim/claim.ts:17-51 | each task once, each an earliest-due one at its own reading, due and free in its own fields, then held for one lease, all others unchanged, and none due and free left if fewer were taken |
| Queue.TaskQueue.IncrementAttempt | src/tasks/queue/transitions/transitions.ts:142-149 | counts the attempt of a task the consumer holds, and says whether it did |
| Queue.TaskQueue.RescheduleInflight | src/tasks/queue/transitions/transitions.ts:52-68 | a held task is freed, its attempt undone and an in-flight retry counted; any other is untouched |
| Queue.TaskQueue.ParkTask | src/tasks/queue/transitions/transitions.ts:77-96 | a held task is freed for the renewal if its request is still pending, and due now if it was filled meanwhile |
| Queue.TaskQueue.ReleaseTaskToPending | src/tasks/queue/transitions/transitions.ts:123-134 | the task is freed whoever holds it, due after the re-queue delay |
| Queue.TaskQueue.DeleteOwned | src/tasks/queue/transitions/transitions.ts:156-193 | the task is deleted exactly if the consumer holds it |
| Queue.LockTable.AcquireDeploymentLock | src/tasks/queue/lock/lock.ts:17-41 | taken exactly when absent or past its expiry, even for the holder itself, and then for one lease |
| Queue.LockTable.ReleaseDeploymentLock | src/tasks/queue/lock/lock.ts:43-49 | removed exactly if the holder matches |
| FetchCycle.TaskConsumer.Sift | src/tasks/queue/consumer/index.ts:153-177 | survivors are exactly the claimed tasks not in flight here and under both caps; a task over a cap is deleted, and no other |
| FetchCycle.TaskConsumer.TryDispatch | src/tasks/queue/consumer/index.ts:189-219 | a dispatch takes the lock and counts one attempt of a task still held; otherwise the lock is back, and the task is handed back on contention, left alone if no longer held, deleted if unwanted |
| FetchCycle.TaskConsumer.FetchNewTasksCycle | src/tasks/queue/consumer/index.ts:144-221 | a cycle with room claims the min(room, available) earliest-due tasks; it tries exactly those not in flight, under both caps and hydrated, and starts each that is wanted or in flight, first of its deployment and with no live lock on it; what starts is counted once, claimed, locked, one to a deployment; the batch is never exceeded; un-stopped, every claimed task is in flight or let go |
| ConsumerSafety.StepKeepsLocks | src/tasks/queue/consumer/index.ts:189-219 | every step keeps: whoever works under a deployment's lock holds it, unexpired and alone |
| ConsumerSafety.StepKeepsCounts | src/tasks/queue/transitions/transitions.ts:52-95 | every step keeps a stored task's counters equal to its dispatches less its parks, and its attempts at least the dispatches still owed an undo |
| ConsumerSafety.AttemptsCountDispatches | src/tasks/queue/consumer/index.ts:153-220 | for every interleaving: attempts + in-flight retries = dispatches - parks, attempts between zero and its cap, and with a finite in-flight cap never more than both caps less one dispatches, parks aside |
| ConsumerSafety.RunsNeverOverlap | src/tasks/queue/consumer/index.ts:66-82 | for every interleaving, failed lock releases and crashes included, two runs of one deployment under way are one run |
| ConsumerSafety.BatchIsNeverExceeded | src/tasks/queue/consumer/index.ts:144-150 | for every interleaving, failed lock releases included, a consumer's runs in flight fit its batch |
| ConsumerSafety.EveryTaskComesBack | src/tasks/queue/claim/claim.ts:25-41 | for every interleaving, a task is processing exactly when held under a lease, and none is stranded |
| ConsumerSafety.EveryLockComesBack | src/tasks/queue/lock/lock.ts:17-41 | for every interleaving, a consumer at the lock step takes the lock exactly if there is none or it is past its expiry |
| ConsumerSafety.CrashedLockIsTaken | src/tasks/queue/lock/lock.ts:5-12 | a holder that crashed holds nobody's clock back: its lock runs out and another consumer takes it |
| ConsumerSafety.EarliestTaskCanRun | src/tasks/queue/consumer/index.ts:144-221 | from any state, an idle consumer with room can take the earliest-due task under both caps, its deployment without a live lock, all the way to a run, counted once and under the lock |
| ConsumerSafety.TakeoverHolds | src/tasks/queue/transitions/transitions.ts:59-66 | over any further steps within the lease, nothing another consumer still has on its way, fetches included, changes a task a consumer holds, but for the two writes that match on the id alone |
| Funds.JobPriceIsCheapest | src/tasks/task/list/funds.ts:126-134 | the price asked about is a market's own, and no priced market is cheaper |
| Funds.VaultCountIsMaximal | src/tasks/task/list/funds.ts:134-148 | the count fits NOS and SOL, is maximal up to what was asked, and insufficient means not one job fits |
| Funds.VaultBudgetIsExact | src/tasks/task/list/funds.ts:148 | the budget admits the cheapest market, and the jobs fit the balance exactly at the prices within it |
| Funds.CreditsCountIsMaximal | src/tasks/task/list/funds.ts:88-99 | the count fits the available credits at the cheapest price and is maximal up to what was asked |
| Funds.CreditsBudgetAdmitsCheapest | src/tasks/task/list/funds.ts:99-103 | the cheapest price is within the budget |
| Funds.CreditsOvershootIsBounded | src/tasks/task/list/funds.ts:99-112 | at any price within the budget the jobs cost less than the available credits and one unit a job |
| Funds.CreditsFitIff | src/tasks/task/list/funds.ts:99-112 | the jobs fit at every price within the budget exactly when the credits divide evenly among them |
| Reservations.ReuseIsExact | src/tasks/task/list/reserve.ts:110-117 | a fill is reused exactly while its hold lasts with a usable node, then with distinct usable nodes, all of them or as many as asked; it is handed off at once exactly where the market changed |
| Reservations.ReservationDesk.RecordRequestFulfilment | src/tasks/task/list/reserve.ts:244-256 | a recorded request is filled and due now, any other task untouched; true exactly when the task holds nodes |
| Reservations.ReservationDesk.ResyncParkedListTasks | src/tasks/task/list/reserve.ts:264-273 | exactly the pending tasks with a request come due now |
| Reservations.ReservationDesk.SubmitRequest | src/tasks/task/list/reserve.ts:127-168 | the outcome of every answer: reserved exactly for a live, non-empty fill, which the task then holds; waiting exactly when queued, and stamped once; handed off for a closed or dead fill and, at once, for a 409; retried for no answer, a 402 or a 5xx; fatal for the rest |
| Reservations.ReservationDesk.ReserveListNodes | src/tasks/task/list/reserve.ts:82-108 | a held fill is only reused; otherwise the request is sent exactly if the funds check does not forbid it, for what is affordable within the cap, and is stored at the moment of sending; the outcome of every answer; a task never holds both a fill and a request |
| ReservationSafety.AcceptedFillIsNeverParkedAway | src/tasks/queue/transitions/transitions.ts:77-96 | for every interleaving with the webhook and other writers: never both a reservation and a request, and after a park the task waits for its fill or holds it, due now unless a schedule, timeout or rotation change wrote its due time since |
| ReservationSafety.AcceptedFillClaimableIff | src/tasks/queue/transitions/transitions.ts:52-68 | for every interleaving and every ending, an accepted fill is held, and claimable exactly once past the due time last written since the claim or the fill by a retry, a hand-back or another writer, if any, and the lease an abort or crash left, if any |
| ReservationSafety.FillStaysDue | src/tasks/task/list/reserve.ts:244-256 | over any parks, aborts, crashes and further runs after the webhook, the fill stays held and due while no retry, hand-back or other writer touches the due time |
| ReservationSafety.RetryDelaysTheFill | src/tasks/queue/transitions/transitions.ts:52-68 | from a new task: its request's answer is lost, the fill arrives, the run retries, and the fill is due only when the retry is |
| ReservationSafety.ScheduleDelaysTheFill | src/tasks/updateScheduledTasks.ts:10-22 | from a new task: it parks, its fill is accepted, the schedule changes, and the fill is due only at the next firing |
| Lifecycle.RunCountsStarts | src/router/routes/post/deployments/create/deploymentCreate.factory.ts:26-28 | over any history the run counts the starts and nothing else |
| Lifecycle.ReentryNeedsStart | src/tasks/queue/wanted/wanted.ts:20-24 | a deployment that left the running statuses is in them again only after a start |
| Lifecycle.StampedListNeverComesBack | src/tasks/queue/wanted/wanted.ts:42-59 | a deployment that left and re-entered has a larger run, so a LIST stamped with the earlier one is never wanted again |
| Lifecycle.StampedListWantedIff | src/tasks/queue/wanted/wanted.ts:42-59 | a stamped LIST is wanted later exactly while the deployment runs, on its revision, with no start since |
| Lifecycle.UnstampedListComesBack | src/tasks/queue/wanted/wanted.ts:38-49 | a LIST without a stamp is wanted again after a stop and restart |
| Lifecycle.StopWantedIff | src/tasks/queue/wanted/wanted.ts:56-58 | over any history a STOP without a revision is always wanted, and a revision's exactly while its revision is the last one set |
| Lifecycle.ExtendWantedIff | src/tasks/queue/wanted/wanted.ts:54-55 | over any history an EXTEND is wanted exactly while its job is active and the deployment in a running status, restarts and swaps notwithstanding |
| Lifecycle.ArchivedIsLeftIff | src/strategies/all/jobAllActiveJobsStop.ts:55-63 | a write leaves ARCHIVED exactly when it is a start or stop route that judged an older status |
| Lifecycle.ArchivedIsTerminal | src/tasks/queue/transitions/transitions.ts:37-40 | over any history no worker-side writer moves a deployment out of ARCHIVED |
| Lifecycle.FencesHold | src/tasks/task/retry/index.ts:114-151 | a fenced writer changes the status alone, and only from and to the statuses it is for |
| Lifecycle.OrdinaryPaths | src/tasks/task/retry/index.ts:114-151 | a start leads to RUNNING, a stop to STOPPED, and a funds shortfall that ends back to the deployment as it was |
| Scheduling.Schedule.ScheduleTask | src/tasks/scheduleTask.ts:45-144 | every field of the new task; a LIST freezes the stored revision and run; none is created exactly if a pending twin, or a child of the same source, stands in for it; one child a source; STARTING becomes RUNNING only if still stored so |
| Scheduling.Schedule.JobSettled | src/strategies/all/jobAllActiveJobsStop.ts:24-70 | a settled job's own tasks go, LISTs excepted, and the deployment is STOPPED exactly when nothing is active, no LIST of a running one is on its way, and the status may be left |
| Retrying.DelayEscalates | src/tasks/task/retry/index.ts:97-108 | more retries never wait less, and a handled error waits beyond the ladder's cap only for the hint |
| Retrying.DelayIs | src/tasks/task/retry/index.ts:97-108 | the wait in full: the hint or 5 seconds in flight; an error starts at its ladder's base, each retry multiplies it up to the cap, the hint a floor |
| ListRun.TargetFillsReplicas | src/tasks/task/list/run.ts:40-46 | listing the target brings the revision to exactly its replicas, whatever other revisions run; a handed-off limit is kept, and a cron firing lists the replicas |
| ListRun.Conclude | src/tasks/task/list/run.ts:185-227 | exactly when a run ends aborted, failed, retried, parked or handed off, and exactly which status it then writes; a drain hands off nothing and writes none; what is handed off and what is confirmed make up the target |
| Pagination.BuildPaginationMeta | src/repositories/filters/buildPaginationMeta.ts:20-69 | the page is the first limit fetched; a next cursor is given exactly when more follows or the page was reached backwards, and names the last document shown; likewise prev and the first |
| Pagination.ReverseResults | src/repositories/filters/executeKeysetPagination.ts:85-86 | the results are reversed in place |
| Pagination.ExecuteKeysetPagination | src/repositories/filters/executeKeysetPagination.ts:64-103 | the page answered is the one the query, the sort and the cursors define |
| Pagination.FirstAnswer | src/repositories/filters/generateKeysetQuery.ts:44-51 | without a cursor: the first page of the sorted listing |
| Pagination.NextAnswer | src/repositories/filters/generateKeysetQuery.ts:53-110 | a next cursor answers with what follows its document in the listing, ties included |
| Pagination.PrevAnswer | src/repositories/filters/buildPaginationMeta.ts:29-53 | a prev cursor answers with what precedes its document if that fits a page, else with a page that stops one short |
| Pagination.PrevIsExactIff | src/repositories/filters/buildPaginationMeta.ts:29-53 | a prev page is exact if and only if it reaches the start |
| Pagination.WalkShowsListing | src/repositories/filters/executeKeysetPagination.ts:64-103 | following next shows every matching document exactly once, in order, in max(1, ceil(n/limit)) pages |
| Pagination.WalkExists | src/repositories/filters/executeKeysetPagination.ts:64-103 | following next ends |
| StartupDeadline.DeadlineStore.ArmStartupDeadline | src/strategies/infinite/utils/armStartupDeadline.ts:29-65 | a job not being stopped gets its stop, unless it is found online in time; a deployment without deadline or endpoints is left alone |
| StartupDeadline.DeadlineStore.DisarmStartupDeadline | src/strategies/infinite/utils/armStartupDeadline.ts:83-106 | every pending stop of the job not yet due is cancelled and its marker cleared; a due one is left, marker and all |
| StartupDeadline.DeadlineStore.FrpsRegisterHandler | src/strategies/infinite/frps/registerHandler.ts:36-64 | the tunnel is recorded for any registration with a job and an operation; the job's stop is cancelled exactly when it also names a deployment, and a recovery reported exactly for a cancelled stop that was no startup deadline |
| StartupDeadline.DeadlineStore.PostponeFollowUps | src/strategies/all/deploymentTimeoutUpdate.ts:68-89 | every pending stop of the job moves by the delta, and nothing else does |
| DeadlineSafety.NoLostTunnelStop | src/strategies/infinite/frps/registerHandler.ts:36-50 | for every interleaving, failed handlers included, an online job keeps a cancellable startup stop with nothing on its way to cancel it exactly when its arms have read and every disarm set going is over; without a failure, it is then online through unnamed registrations alone, or the stop's due time was written after a disarm found it due or claimed |
| DeadlineSafety.NamedRegistrationsRescue | src/strategies/infinite/utils/armStartupDeadline.ts:46-65 | for every interleaving whose registrations name the deployment, an online job's cancellable startup stop has a handler on its way to cancel it, unless a handler failed or the due time was written after a disarm missed the stop |
| DeadlineSafety.RegistrationRescuesIff | src/strategies/infinite/frps/registerHandler.ts:36-50 | from any reachable state, a registration leaves the stop of the job it brings online with a rescuer exactly when it names the deployment |
| DeadlineSafety.UnnamedRegistrationStrands | src/strategies/infinite/frps/registerHandler.ts:36-45 | a job armed first and registered without a deployment id is online and still to be stopped |
| DeadlineSafety.PostponedStopStrands | src/strategies/all/deploymentTimeoutUpdate.ts:68-89 | a job registered under its deployment once its stop is due, and then given a longer timeout, is online and still to be stopped |
| DeadlineSafety.DeadlineHolds | src/strategies/infinite/utils/armStartupDeadline.ts:83-95 | the stop of a job never registered and never displaced by a market change stays until it is deleted, and is neither due nor processed before its first deadline, whatever is written to its due time |

## Left out

- LandedWithinTarget: the bound is the target itself only while nothing given up on lands; otherwise it is exceeded by exactly those jobs at most, since the code gives up on transient send errors and on unread statuses.
- HandOffConserves: a deployment given a market after its LIST reserved nodes is not covered; the task then lists its shortfall into that market's queue instead of handing it off.
- AcceptedFillIsNeverParkedAway: one run at a time, its claim kept; that runs do not overlap is proved of the consumers.
- ResumeExisting: units are driven one after another; the code drives them concurrently, each on its own record, and the contract fixes every record by its own reads and outcome alone.
- FetchNewTasksCycle: a whole cycle without other writers; their interleavings are in the consumers' state machine, where items of one cycle may proceed in any order.
- Self-custody EXTEND and STOP, whose records carry no signature up front, and the API-key assign of reserved nodes, which filters by node as the queue listing does by slot.
- Payload changes when a deployment's market or timeout changes between attempts.
- That `replicas` is never overshot by two LISTs: the jobs snapshot is read before the lock.
- A confirmed self-custody record whose job row was not written yet when its run crashed.
- The join that enriches a claimed task, definition hashes, SSH keys, vault keys, transaction building and packing.
- Event texts, error messages, metrics, logs, cron times, HTTP schemas and streaming.
- The base64 and JSON form of a cursor and its conversion of ISO dates; a cursor is its decoded value.
- Host-manager and Credit Manager internals beyond the stated contracts.
- One-off migrations other than the sweep of idle deployments.
- Funds amounts as floating point: prices, charges and budgets are reals, balances unbounded integers.
