# The money core of DPG Pay, verified

DPG Pay accepts confirmations for payment requests, simulates the bank transfer behind them, and books every
movement in a double-entry ledger. This project models that core in Dafny and proves what it guarantees over
whole runs.

The ledger keeps a cached balance beside an append-only log, and the escrow wallet keeps a pending counter that
nothing ever recomputes. Payer pages, the administrator's forms, an expiry sweep, the dashboard (which sweeps
too), settlement runs and one transfer engine change the same tables. The engine works from a batch that goes stale while it works, posts a
transfer in one transaction and marks the payment in another, and forgets everything when the process stops.
The guarantees below hold under every interleaving of these actors and, unless a row says otherwise, with a
process stop or a failed write between any two steps.

## How it is built

- `Types`, `Ledger`, `Database`: the rows, the posting code and each SQL statement or transaction as a function
  from tables to tables, with the CHECK, UNIQUE and PRIMARY KEY constraints of the schema.
- `Accounts`: what every statement keeps about the tables, `TablesOk`. The cached balances are the fold of the
  log; each payment row has a legal history and exactly the ledger lines of its status; each settlement row
  agrees with its lines; wallets and the pending counter have closed forms.
- `Machine`: the running service as a transition system. An action is one statement, one transaction or one
  local decision of one actor, the passing of time, or a crash.
- `Safety`: the inductive invariant `Inv`, by rely and guarantee between the engine and the other actors.
- `Guarantees`, `PendingCounter`, `SettlementRuns`, `Overdrafts`, `Liveness`, `PaymentReferences`: the theorems about
  runs. `EngineVisits` and `Handlers` say what one visit of the engine and one request make of the tables, with
  anything happening between their statements. `DoubleRelease` is a concrete run that shows where the exactness of the pending counter ends; `Witnesses`
  has an infinite one to which the theorem against starvation applies.
- `PaymentStore` and `PaymentService`: the code as it is written, as classes whose methods update the tables in
  place, statement by statement, with loops and rollbacks. The database may fail before any statement of a
  transaction; each method of `Store` is proved to do what its function in `Database` says or, on an error, to
  leave the tables as they were. Each method of `Service` is proved to be a stretch of a run of `Machine` in which
  the others may act between any two of its statements, which takes the steps that it should (`Took`) and no faulty
  step unless a fault struck it (`Went`). So the theorems about runs are theorems about this code
  (`ServiceStatesAreReachable`). A write of `Service` stands for its whole retry loop, which
  `Store.WithWriteRetry` proves to take effect once or not at all.
- `WebhookDispatcher`, `WriteRetry`, `ReferenceText`, `Reports`, `Migrations`, `ExpirySweep`: the dispatcher, the
  pauses of the write-retry loop, references as text, the report's lines, the migration runner and the sweep.
- `Histories`, `Sums`, `Sets`, `Words`: stretches of runs, sums over selected rows, cardinalities, powers of two and 64-bit wrap-around.

## What turned out false

- The pending counter is not exact in all runs. If a stop or a failed write falls between posting a transfer and
  marking its payment, and the due date passes before the engine sees the payment again, the expiry releases
  the amount a second time. `DoubleRelease.PendingCanUnderReport` is a run from the empty tables that does this.
  `PendingCounter.RunsAreExactUnlessReleasedAgain` is the exact condition over runs: the counter is exact after every
  step if and only if no step is the engine's expiry of a paid-in payment with something pending.
  `PendingCounter.PendingNeverOverReports` is what remains true always.
- A webhook is not posted at most eight times in all runs. `WebhookDispatcher.AtMostEightPosts` gives the bound of
  eight and one more for each outcome that was never recorded, `WebhookDispatcher.EightPostsAndTheLostOnes` shows
  that it is attained, and `WebhookDispatcher.EightIsTheBoundWithoutLossOnly` that eight is the bound if and only if
  no record is lost.
- The operating balance is not always non-negative: `Overdrafts.OverlappingRunsOverdraw` is a run from the empty
  tables in which two settlement runs both read five cents and both post them.
  `Overdrafts.RunsStayPositiveUnlessOverdrawn` is the exact condition: the balance is never negative if and only if
  no step is a refund or a settlement posting of more than there is.
- A declined payment with retries left is not always retried: a stop or a failed write before its requeue strands
  it. `Witnesses.CrashesStrandPayments` is such a run; `Liveness.FailedRowsMoveByRequeueOnly` says that a FAILED row
  changes by that requeue and by nothing else, `Liveness.StrandedForGood` that without it the row stays for ever.
- The form for payment requests does not always accept the present day as a due date: it does if and only if the
  server's time zone is not west of UTC (`PaymentService.TodayIsAcceptedUnlessWest`), as it compares a midnight in
  UTC with a local one.
- The delay formulas of the dispatcher and of the retry loop overflow for attempt numbers far beyond those that
  their callers reach; `WebhookDispatcher.DelayDoubles` and `WriteRetry.BackoffDoublesUpToTheCap` say where.

## Assumptions

- The program opens one database connection (cmd/server/main.go:73), so statements and transactions are atomic
  steps that follow one another. A failed transaction has not been applied, and only a violated index reports a
  unique violation.
- One engine and one dispatcher run in the process, as cmd/server/main.go:182-183 starts them.
- `updated_at` has a resolution of one second in the program; the model gives each write of a payment row a
  strictly increasing number instead. Only the order of the engine's queue depends on it.
- Amounts are mathematical integers. `Guarantees.BalancesRefineTheLog` bounds every balance by the total debit, so
  none overflows 64 bits while that total does not.
- A ledger reference is a payment id or a settlement run, not text; `ReferenceText.RefTextIsInjective` proves
  that the texts which the program stores keep them apart.
- Row numbers of settlements and of the outbox count from zero.

## Model

| member | source | states |
|---|---|---|
| Ledger.PostInTxKeeps | internal/ledger/service.go:202-242 | A posting list that goes through extends the log by exactly itself and leaves sound books: every cached balance is the fold of the log, the sides agree, keys stay unique; pending counters do not move. |
| Ledger.PostInTxSucceedsExactly | internal/ledger/service.go:202-242 | On sound books a posting list goes through if and only if it balances, every row meets the CHECK constraints and the unique index accepts all its rows beside the log. |
| Ledger.SoundBooksBalance | migrations/001_init.sql:13-23 | Sound books sum to zero over the wallets, and no balance exceeds the total debit in size, so none overflows int64 while that total fits. |
| Ledger.PairPosts | internal/ledger/service.go:218-240 | A debit and a credit of one amount whose keys are free are posted, and move exactly that amount from one wallet to the other. |
| Ledger.PairTaken | migrations/002_hardening.sql:9-10 | A pair whose debit is already in the log is refused by the unique index as a whole. |
| Ledger.KeyTakenUnder | migrations/002_hardening.sql:9-10 | Whether the unique index refuses an entry depends only on the entries filed under the same reference. |
| Accounts.CreateKeeps | internal/models/store.go:111-120 | Inserting a payment keeps all table invariants and changes no other payment and no settlement run. |
| Accounts.ConfirmKeeps | internal/models/store.go:202-239 | Confirming a payment, with its rise of the pending counter, keeps all table invariants and touches only that payment. |
| Accounts.ExpirePendingKeeps | internal/models/store.go:295-314 | The guarded expiry of a PENDING payment keeps all table invariants and touches only that payment. |
| Accounts.MarkKeeps | internal/models/store.go:241-258 | Marking a paid-in payment SETTLED keeps all table invariants and touches only that payment. |
| Accounts.DeclineKeeps | internal/models/store.go:316-329 | The unguarded retry update of an AWAITING_TRANSFER payment succeeds, keeps all table invariants and touches only that payment. |
| Accounts.RequeueKeeps | internal/transfer/engine.go:150-153 | Moving a payment with fewer than three retries from FAILED back to AWAITING_TRANSFER succeeds and keeps all table invariants. |
| Accounts.ExpireAwaitingKeeps | internal/models/store.go:260-293 | Expiring an AWAITING_TRANSFER payment with its saturating release keeps all table invariants, paid in or not. |
| Accounts.ClearPendingKeeps | internal/ledger/service.go:63-110 | For an AWAITING_TRANSFER payment the pay-in is refused as a unique violation exactly when it is already in the log; otherwise it posts the pair, releases the pending amount and keeps all table invariants. |
| Accounts.RefundKeeps | internal/ledger/service.go:145-192 | A refund of a payment's amount goes through if and only if the payment is SETTLED; it then files the reversal pair, cancels the payment and keeps all table invariants; otherwise the posted reversal is rolled back. |
| Accounts.RunSettlementKeeps | internal/ledger/service.go:112-132 | Posting an open settlement run succeeds, files exactly its two lines under its own reference and keeps all table invariants. |
| Accounts.CompleteSettlementKeeps | internal/models/store.go:434-447 | Closing a run with a status that agrees with its ledger lines keeps all table invariants and touches only that run. |
| Accounts.ExpireEachKeeps | internal/models/store.go:592-599 | The update loop of the sweep expires every PENDING row among its ids, changes no row that is not PENDING, and leaves wallets, ledger and outbox as they are. |
| Safety.TaskNextKeeps | cmd/server/main.go:182-186 | Every step of a handler, sweep or settlement run keeps the invariant, and never changes a payment that is AWAITING_TRANSFER or FAILED nor adds a pay-in: what the engine relies on. |
| Safety.EngineNextKeeps | internal/transfer/engine.go:85-158 | Every step of the engine, failed writes included, keeps the invariant, and the tables only grow. |
| Safety.EngineKeepsUnderRely | internal/transfer/engine.go:66-83 | Whatever the others do within that guarantee, the engine's batch, its place in it and its due times stay right. |
| Safety.EnginePosts | internal/transfer/engine.go:104-110 | When the rail has approved and the write does not fail, the engine goes on to mark the payment: it posts the pay-in, or finds it posted and changes nothing. |
| Guarantees.NextKeeps | cmd/server/main.go:73 | Every action of the system, crashes included, keeps the invariant; rows, log and outbox only grow. |
| Guarantees.ReachableIsOk | cmd/server/main.go:73 | The invariant holds in every state that any run from the empty tables reaches. |
| Guarantees.BalancesRefineTheLog | internal/ledger/service.go:202-242 | In every run each cached balance equals debits minus credits of its wallet, balances sum to zero, the sides agree, no balance exceeds the total debit, none overflows int64 while that total fits, and earlier ledgers are prefixes of later ones. |
| Guarantees.ReportsNeverSeeImbalance | internal/models/store.go:631-643 | The balance sum read at one moment is zero and the ledger totals read at any later moment agree: neither the report's flag nor the integrity check ever fails, though their queries are separate steps. |
| Guarantees.BalancesInClosedForm | internal/ledger/service.go:63-132 | In every run OPERATING equals the amounts paid in, less those of CANCELLED payments, less the settled amounts; ESCROW is its negation; FEE is zero. |
| Guarantees.PaidInMeansPaymentIn | internal/ledger/service.go:87-104 | A payment counts as paid in if and only if the log holds a PAYMENT_IN entry under its id. |
| Guarantees.PaymentsPostAtMostOnce | internal/ledger/service.go:63-192 | In every run the ledger lines of a payment are none, its pay-in pair once, or that pair and its reversal pair once; CANCELLED holds exactly with the reversal pair, SETTLED with exactly the pay-in pair, PENDING with none. |
| Guarantees.RefundsCancelOut | internal/ledger/service.go:145-192 | A refunded payment's net contribution to every wallet is zero. |
| Guarantees.HistoriesAreLives | internal/transfer/engine.go:85-157 | In every run the status history of a payment is a prefix of PENDING EXPIRED, or of PENDING AWAITING (FAILED AWAITING) up to twice followed by SETTLED CANCELLED, by EXPIRED or, after the second retry, by FAILED; retries stay at most 3, at most 2 while awaiting, and there are at most seven changes. |
| Guarantees.FinalStatusesStay | internal/models/store.go:241-329 | EXPIRED, CANCELLED and a third FAILED never change again; SETTLED only becomes CANCELLED. |
| Guarantees.SnapshotsStayTrue | internal/transfer/engine.go:66-83 | Whatever the others did since the query, a payment of the batch whose turn has not passed is exactly as the query read it, and still AWAITING_TRANSFER. |
| Guarantees.DeclinesOverwriteNothing | internal/models/store.go:316-329 | The update without a status guard always finds a waiting payment, and counts the very retry number that the engine computed from its snapshot and announces. |
| Guarantees.RedoSettlesWithoutMoving | internal/transfer/engine.go:104-118 | A payment that is posted but unmarked, for whatever reason, is marked when the rail approves it again; wallets and ledger do not move, as the second release is rolled back with the refused posting. |
| Guarantees.InterruptedRunEndsAlike | internal/transfer/engine.go:104-118 | A settlement that was interrupted after its posting and one that was not, whatever else happened to the tables in between, leave the same row apart from its stamp and the same ledger lines; the resumed one moves nothing in the books and touches no other payment. |
| Guarantees.EventsFollowTransitionsOnce | internal/transfer/engine.go:85-148 | The outbox never repeats an event, each event's transition has taken place, and the failed events of a payment carry numbers from 1 to 3 up to its retry count. |
| EngineVisits.DateDecides | internal/transfer/engine.go:86-100 | The engine goes on to expire a payment if its due date has passed at the moment it looks, and takes it to the rail otherwise. |
| EngineVisits.RailDecides | internal/transfer/engine.go:100-134 | An approval leads to the posting, a decline to the count of a retry, an error of the rail to neither. |
| EngineVisits.OverdueVisitsExpire | internal/transfer/engine.go:86-97 | A visit that finds the date passed, whatever the others do until it is over and unless a fault strikes it, ends with the payment EXPIRED and announced. |
| EngineVisits.VisitsEndAsTheRailSays | internal/transfer/engine.go:100-157 | A visit that calls the rail, under the same conditions, ends with the payment SETTLED (or refunded since) and announced when approved; with one more retry, announced by its number, and AWAITING_TRANSFER again or FAILED at the third, when declined; and with the row as it was when the rail errs. |
| Guarantees.DueTimesDoNotLeak | internal/transfer/engine.go:203-221 | Whenever the engine is between two payments, only AWAITING_TRANSFER payments have a due time. |
| Guarantees.RailCallsAreSpaced | internal/transfer/engine.go:203-221 | Two rail calls for one payment in one process lifetime are at least 30 seconds apart. |
| PendingCounter.PendingNeverOverReports | internal/models/store.go:260-293 | In every run the pending counter is between zero and the sum of the AWAITING_TRANSFER and FAILED payments that are not paid in, and equals that sum unless some payment was expired after its pay-in. |
| PendingCounter.CleanPendingIsExact | internal/ledger/service.go:80-85 | If no fault falls between a posting and its mark, the pending counter equals that sum after every step, and neither saturating release that the engine may be about to make would saturate. |
| PendingCounter.CleanPendingMatchesTheReport | internal/models/store.go:607-645 | In such runs, outside the moment between a posting and its mark, the pending counter equals what the lines of a report taken then say about AWAITING_TRANSFER and FAILED together. |
| Reports.ReportedIsLineAmount | internal/models/store.go:610-629 | The lines of a report carry, for every status, the sum of its payments; a status without a line has none. |
| Reports.ReportsCountEveryPayment | internal/models/store.go:610-629 | Each line has the number of payments with its status, at least one, and the sum of their amounts; every status that occurs has a line, and the counts add up to the number of payments. |
| Reports.LinesAscend | internal/models/store.go:614 | The lines come in ascending order of their status texts. |
| PendingCounter.ExactnessEndsOnlyThere | internal/transfer/engine.go:86-97 | From any state with an exact counter, any action of any actor, crashes and failed writes included, leaves it exact if and only if it is not the engine's expiry of a paid-in payment with something pending. |
| PendingCounter.RunsAreExactUnlessReleasedAgain | internal/models/store.go:260-293 | For every run from the empty tables, the counter is exact after every step if and only if no step is such an expiry. |
| PendingCounter.ExpiryIsExactUnlessPaidIn | internal/transfer/engine.go:86-97 | An exact counter stays exact over an expiry by the engine if and only if the payment was not paid in or nothing was pending. |
| DoubleRelease.PendingCanUnderReport | internal/models/store.go:280-287 | A run exists after which 2 cents are pending while 7 are outstanding. |
| SettlementRuns.RunsPostWhatTheyRecord | internal/transfer/engine.go:160-201 | In every run a SUCCESS with a positive amount has exactly its two entries of that amount under its own reference, a SUCCESS of zero and a FAILED run have none, and a RUNNING one has a pair or nothing. |
| SettlementRuns.RunReadsTheBalance | internal/transfer/engine.go:165-177 | A run reads the debits less the credits of OPERATING, the whole of it, and is to post exactly that when it is positive, and nothing otherwise. |
| SettlementRuns.RunLeavesWhatCameBetween | internal/transfer/engine.go:165-184 | A run that reads a positive balance and posts it later, whatever the others do in between, leaves in OPERATING exactly what was paid in, less what was refunded and settled, between its two steps, and has filed the balance that it read. |
| SettlementRuns.RunEmptiesTheWallet | internal/transfer/engine.go:165-184 | If no refund and no other settlement posts in between, it leaves exactly the pay-ins that landed in between, and zero when there was no step in between. |
| SettlementRuns.SerialSettlement | internal/transfer/engine.go:160-201 | A settlement with nothing in between takes the whole positive balance, leaves zero, and is recorded as a SUCCESS of that amount with two entries, to be announced. |
| SettlementRuns.FailedRunsAreRecorded | internal/transfer/engine.go:166-182 | A failed read or posting leaves the tables as they were and leads to a row recorded as FAILED. |
| SettlementRuns.EmptyRunPostsNothing | internal/transfer/engine.go:170-177 | A run that reads a balance of zero or less, whatever happens before it closes, moves no money when it closes, is recorded as a SUCCESS of zero and has no ledger lines. |
| Guarantees.TasksWait | cmd/server/main.go:73 | Between two statements of one goroutine no step of another actor changes where it stands. |
| Overdrafts.BelowZeroOnlyThere | internal/ledger/service.go:112-192 | From any state with a non-negative OPERATING balance, any action of any actor leaves it non-negative if and only if it is not the refund of a SETTLED payment, or the posting of a settlement, of more than the balance. |
| Overdrafts.RunsStayPositiveUnlessOverdrawn | internal/transfer/engine.go:165-184 | For every run from the empty tables, the OPERATING balance is never negative if and only if no step is such a refund or posting. |
| Overdrafts.OverlappingRunsOverdraw | internal/transfer/engine.go:160-201 | Two overlapping settlement runs bring the balance to -5 cents. |
| Liveness.WithinTheWindow | internal/models/store.go:331-340 | A payment with fewer than 200 older ones in the queue is in the engine's batch. |
| Liveness.NothingOvertakes | internal/models/store.go:335-340 | While the row of a payment stands, no payment ever joins the queue ahead of it. |
| Liveness.StepOnWaiting | internal/transfer/engine.go:85-157 | The row of an AWAITING_TRANSFER payment changes only by the engine's own write for it, which settles it, expires it or counts one retry. |
| Liveness.EngineStepApproaches | internal/transfer/engine.go:66-83 | Each step of the engine lowers the distance to the turn of a payment in the window: first the ticks until its due time, then the steps left in the batch. |
| Liveness.WindowIsHandled | internal/transfer/engine.go:66-83 | In a fair run a payment in the window is acted on after finitely many steps, and its row stands until then. |
| Liveness.ComesToItsTurn | internal/transfer/engine.go:133-156 | In a fair run every AWAITING_TRANSFER payment is decided after finitely many steps, by the measure of retries left, then payments ahead. |
| Liveness.NoStarvation | internal/models/store.go:331-358 | In a fair run every AWAITING_TRANSFER payment is, from some step on and for good, settled, cancelled, expired or failed for the third time, although each tick sees only the 200 oldest. |
| Witnesses.FairRunsExist | internal/transfer/engine.go:50-64 | There is a fair run with a payment that awaits its transfer. |
| Liveness.FailedRowsMoveByRequeueOnly | internal/transfer/engine.go:133-156 | Whatever the action, the row of a FAILED payment changes if and only if the action is the requeue that follows its decline. |
| Liveness.StrandedForGood | internal/transfer/engine.go:150-153 | In every run a FAILED payment that is not about to be requeued keeps its row for ever, with or without retries left. |
| Witnesses.CrashesStrandPayments | internal/transfer/engine.go:133-156 | A crash between the decline and the requeue leaves a payment FAILED with retries left. |
| PaymentStore.Store.PostInTx | internal/ledger/service.go:202-242 | The two loops, with the running totals and the statement-by-statement inserts and balance updates, do what the posting function says, unless they return its error or the database's. |
| PaymentStore.Store.Postings | internal/ledger/service.go:30-61 | Fewer than two postings are refused; otherwise all postings are applied, or, wherever between its statements the database fails, the tables are as before. |
| PaymentStore.Store.ClearPendingEscrowToOperating | internal/ledger/service.go:63-110 | Release and posting take effect together or, on an error at any statement, not at all. |
| PaymentStore.Store.RunSettlement | internal/ledger/service.go:112-132 | The run's amount is posted from OPERATING to ESCROW under the run's reference, or, on an error at any statement, nothing happens. |
| PaymentStore.Store.RefundSettledPayment | internal/ledger/service.go:145-192 | Reversal and cancellation take effect together or, on an error at any statement, not at all. |
| PaymentStore.Store.ValidateIntegrity | internal/ledger/service.go:134-143 | It fails exactly on unbalanced books, so never on sound ones. |
| PaymentStore.Store.GeneratePaymentReference | internal/models/store.go:89-97 | The reference carries the number after the count of the day's references. |
| PaymentStore.Store.CreatePayment | internal/models/store.go:111-120 | A PENDING row with its reference and key is inserted unless the amount is not positive, the id, the reference or the idempotency key is taken, or the database fails. |
| PaymentStore.Store.CreatePaymentRequest | internal/models/store.go:99-128 | With a key that a payment holds, before the call or since others inserted it during the call, that payment is returned and nothing inserted; otherwise the row is inserted, or an error leaves only what the others did. |
| PaymentReferences.OnePaymentPerKey | migrations/002_hardening.sql:5-7 | No two payments come to hold the same idempotency key, and a key in use is what refuses an insert if and only if nothing else does. |
| PaymentStore.Store.UpdatePaymentStatus | internal/models/store.go:295-314 | The status changes if the row has the expected status, or any status when none is given; otherwise no row is reported. |
| PaymentStore.Store.IncrementRetryAndSetStatus | internal/models/store.go:316-329 | The retry count rises and the status is set, whatever it was. |
| PaymentStore.Store.MarkPaymentSettledIdempotent | internal/models/store.go:241-258 | The row becomes SETTLED and processed exactly if it is AWAITING_TRANSFER and unprocessed, and the caller learns which. |
| PaymentStore.Store.ConfirmPaymentIntent | internal/models/store.go:202-239 | A PENDING payment becomes AWAITING_TRANSFER and its amount pending, or an error at any statement leaves the tables alone. |
| PaymentStore.Store.ExpireAwaitingTransfer | internal/models/store.go:260-293 | An AWAITING_TRANSFER payment becomes EXPIRED and the amount is released, saturating at zero, or an error at any statement leaves the tables alone. |
| PaymentStore.Store.OrderByLimit | internal/models/store.go:335-340 | The result is the first rows of the selection in the order of the column, as many as the limit allows. |
| PaymentStore.Store.GetAwaitingTransfers | internal/models/store.go:331-358 | The rows returned are the oldest unprocessed AWAITING_TRANSFER rows as they stand, up to the limit, which is 100 when not positive; a list short of the limit has all of them. |
| PaymentStore.Store.ExpireOverduePendingPayments | internal/models/store.go:559-605 | The ids returned are the earliest-due overdue PENDING payments up to the limit, which is 200 when not positive: each was PENDING with a due time before now and is EXPIRED, every other payment is as it was, and a list short of the limit leaves none; if any statement fails, nothing is changed. |
| PaymentStore.OperationsAreNeverBusy | internal/models/retry.go:45-51 | Whatever an operation itself reports, it is not taken for a busy database, so only the database's own faults are retried. |
| WriteRetry.BusyTexts | internal/models/retry.go:45-51 | Any text that contains "busy", "database is locked" or "database is busy", in capitals or not, is taken for a busy database. |
| PaymentStore.Store.WithWriteRetry | internal/models/retry.go:10-43 | For every operation that the program runs under it, with the database failing in the middle of any attempt and others changing the tables in any pause: at most max(1, maxAttempts) attempts, another one only after a busy error; success means that the last attempt took effect, once, on the tables as it found them; an error or a cancellation leaves only what the others did; the pauses are those of the backoff; when the first attempts find the database locked, the first one that finds it free is made and is the last; the statement after the loop is never reached. |
| PaymentStore.Store.CompleteSettlement | internal/models/store.go:434-447 | The run's row takes the amount, count and status, unless the amount is negative or the run is unknown. |
| PaymentStore.Store.LedgerTotals | internal/models/store.go:647-659 | The two totals of the log by direction. |
| PaymentStore.Store.StatusLines | internal/models/store.go:610-629 | One line for each status that occurs, in the order of the status texts, with its count and sum. |
| PaymentService.Service.ProcessAwaiting | internal/transfer/engine.go:66-83 | One tick, whatever happens between its statements, is a stretch of a run from idle to idle, by way of one query unless a fault struck, with no faulty step of the engine unless a fault struck; when the query fails, the tick does nothing. |
| PaymentService.Service.ProcessOne | internal/transfer/engine.go:85-158 | One payment of the batch is brought, by steps of the transition system alone, from found due to done with. |
| PaymentService.Service.SettleOne | internal/transfer/engine.go:104-131 | After an approval the code posts, takes a unique violation as posted, marks, and announces only if the mark changed the row. |
| PaymentService.Service.DeclineOne | internal/transfer/engine.go:133-157 | After a decline the code counts the retry, announces it and requeues only below three retries. |
| PaymentService.Service.GetOrCreateDue | internal/transfer/engine.go:203-215 | A known due time is kept; a new one lies 30 to 120 seconds after the tick; no other entry changes. |
| PaymentService.Service.TriggerSettlement | internal/transfer/engine.go:160-201 | A settlement run, whatever happens between its statements, opens its own row and, unless a fault struck, closes it, by steps of the transition system alone. |
| PaymentService.Service.ReadOperating | internal/transfer/engine.go:165-170 | The balance is that of the OPERATING row at this moment, and what is to be posted. |
| PaymentService.Service.PayerRequest | internal/handlers/pay.go:138-256 | A pay page or confirmation reads the row as it stands at some moment of the call, decides on what it read, and unless a fault struck takes the write of that decision, which a status guard protects from the row having moved on. |
| Handlers.PayersDecide | internal/handlers/pay.go:213-231 | A PENDING row whose due date has passed at the deciding moment is to be expired; a confirmation that goes through of one whose date has not passed is to be confirmed; anything else ends the request. |
| Handlers.PayersWrite | internal/models/store.go:202-239 | The write expires a row that is still PENDING, or confirms it and makes its amount pending and its event due; a row that has moved on and all other rows are left alone. |
| Handlers.ConfirmationsConfirm | internal/handlers/pay.go:138-256 | From the read to the write, whatever happens in between: a confirmation that goes through confirms a payment that is still PENDING if its date had not passed when it decided, and expires it if it had. |
| PaymentService.Service.RefundPaymentRequest | internal/handlers/admin.go:316-361 | The refund handler reads the row as it stands at some moment of the call; unless a fault struck, it goes on to the refund if and only if that row is SETTLED. |
| Handlers.RefundsOfOthersAreRefused | internal/handlers/admin.go:332-335 | A refund of a payment that is not SETTLED when it is read changes nothing. |
| Handlers.RefundsRefund | internal/handlers/admin.go:337-352 | A refund of a payment that is SETTLED when it is read, whatever happens before its write, cancels it, files its reversal and moves its amount from OPERATING to ESCROW; only when another refund was faster does it change nothing. |
| PaymentService.Service.CreatePaymentRequest | internal/handlers/admin.go:154-231 | A non-positive amount or a refused due day changes nothing; otherwise the day's references are counted in one step, the row is inserted under the next number in a later one, which may be refused, and then announced; the payment falls due with the last second of its local day. |
| Handlers.RequestsCreate | internal/handlers/admin.go:178-208 | From the count to the insert, whatever happens in between: while the day's count holds, the payment is created with the amount and due time asked for, PENDING under the number after the count; otherwise nothing is. |
| Handlers.EventsAreAnnounced | internal/models/store.go:661-673 | A goroutine that has taken up events and is done, without a fault of its own, has put all of them into the outbox. |
| Handlers.EventsAreTakenUp | cmd/server/main.go:313-319 | The sweep takes up the event of every payment that it expired, and no other. |
| PaymentService.TodayIsAcceptedUnlessWest | internal/handlers/admin.go:165-177 | In UTC and east of it the form accepts exactly the due days from today on, west of it those from tomorrow on; what it accepts is not overdue. |
| PaymentService.Service.ExpireOverduePayments | cmd/server/main.go:300-322 | One tick of the sweep expires a selection of at most 200 overdue payments in one step, and then announces each; when its transaction fails, the tick does nothing. |
| PaymentService.Service.AdminDashboard | internal/handlers/admin.go:95-98 | The dashboard sweeps at most 2000 overdue payments in one step, and announces nothing. |
| PaymentService.Service.ReconciliationReport | internal/models/store.go:607-645 | The four queries belong to four moments with anything in between, each figure is right at its own moment, and the flag is true all the same. |
| PaymentService.ServiceStatesAreReachable | cmd/server/main.go:182-186 | Every state in which the code's object can be found between two calls is reachable in the transition system, so all guarantees above hold of it. |
| ExpirySweep.ExpireEachExactly | internal/models/store.go:592-599 | The loop writes exactly the rows of its ids, each once, and leaves every other column, row and table alone. |
| ExpirySweep.SweepExpiresTheEarliest | internal/models/store.go:559-605 | A sweep expires exactly min(limit, n) of the n payments that are PENDING with a due time before now, none due later than one that it leaves, and when short of its limit leaves none; it touches no other payment and no wallet. |
| ExpirySweep.SweepsDrain | internal/models/store.go:559-605 | With clock and inserts fixed, repeated sweeps return lists without a common element that make up, with what is left, the overdue set; k calls leave n - k * limit of it, or none. |
| ExpirySweep.EnoughSweepsDrain | internal/models/store.go:559-605 | The overdue set is drained if and only if there were at least ceil(n / limit) calls. |
| WebhookDispatcher.DelayDoubles | internal/webhook/dispatcher.go:128-137 | On 64-bit integers, with the shift and the product with a second, the delay is min(5 * 2^a, 1800) seconds if and only if a is at most 60 or is 62, and zero at 61, 63 and from 64 on; it is plainly 5 * 2^a seconds below the eight that the guard allows. |
| WebhookDispatcher.AtMostEightPosts | internal/webhook/dispatcher.go:77-117 | In every run an item is posted at most eight times, plus once for each outcome that was never recorded. |
| WebhookDispatcher.EightPostsAndTheLostOnes | internal/webhook/dispatcher.go:77-117 | The bound is attained: for every number of lost records there is a run with eight posts and that many more. |
| WebhookDispatcher.EightIsTheBoundWithoutLossOnly | internal/webhook/dispatcher.go:77-117 | At most so many lost records force at most eight posts if and only if that number is zero. |
| WebhookDispatcher.LostRecordsRepeat | internal/webhook/dispatcher.go:102-114 | For every k there is a run in which one accepted item is posted k times because k records were lost. |
| WebhookDispatcher.SentStaysSent | internal/models/store.go:822-831 | However stale the batch, a SENT item is never posted and never changes. |
| WebhookDispatcher.BelowEightIsPosted | internal/webhook/dispatcher.go:77-94 | An item below eight attempts is posted, unless no request can be built; one with eight is not. |
| WebhookDispatcher.RecordedAsAnswered | internal/webhook/dispatcher.go:94-117 | The record makes an accepted item SENT, a refused one with k attempts due after exactly 5 * 2^k seconds, and one that is given up due after exactly a day, each with one more attempt; it changes no other row. |
| WebhookDispatcher.SentByAcceptanceOnly | internal/models/store.go:895-908 | A row becomes SENT by the record of an accepted request and by nothing else. |
| WebhookDispatcher.AcceptedIsNeverPostedAgain | internal/webhook/dispatcher.go:94-107 | A webhook that is accepted and recorded, whatever others do in between, is SENT and is not posted again in any later run. |
| WebhookDispatcher.TicksTakeTheDue | internal/webhook/dispatcher.go:64-75 | A tick takes up the due rows, of more than twenty those with the lowest ids. |
| WebhookDispatcher.EnqueuedIsDue | internal/models/store.go:669-671 | A new row is due at once. |
| WebhookDispatcher.PostsBackOff | internal/webhook/dispatcher.go:77-137 | In every run a request made with k attempts behind it comes at least 5 * (2^k - 1) seconds after its item was first looked at, and k is below eight. |
| WebhookDispatcher.DueItemsLeaveOutTheLast | internal/models/store.go:826-831 | A due row is in the list, or the list is full of rows with lower ids. |
| WebhookDispatcher.Dispatcher.ListDueWebhookOutbox | internal/models/store.go:822-857 | The items are the due rows with the lowest ids, up to the limit, which is 50 when not positive. |
| WebhookDispatcher.Dispatcher.ProcessBatch | internal/webhook/dispatcher.go:64-75 | One tick is a stretch of a run from idle to idle, with one query and every record made unless a fault struck; when the query fails, the tick does nothing. |
| WebhookDispatcher.Dispatcher.DeliverOne | internal/webhook/dispatcher.go:77-117 | One item of the batch is delivered or given up for a day, by steps of the transition system alone; unless a fault struck, its row has one more attempt and is SENT if it was accepted, and to be retried otherwise. |
| WebhookDispatcher.DispatcherStatesAreReachable | internal/webhook/dispatcher.go:43-62 | Every state of the dispatcher's code is reachable, and with no lost record no item has been posted more than eight times. |
| WriteRetry.BackoffDoublesUpToTheCap | internal/models/retry.go:29-32 | On 64-bit integers the first n pauses double from 20 ms to the cap of 500 ms if and only if n is at most 39; the 40th is negative, and from the 57th on there is none. |
| ReferenceText.FourDigitsValue | internal/models/store.go:96 | The rendered digits denote the number, also past 9999. |
| ReferenceText.RenderedInDecimal | internal/models/store.go:89-97 | A reference is "DPG-", the day, a dash and the number in decimal, of at least four digits, with zeros in front only to make up four. |
| ReferenceText.RenderIsInjective | internal/models/store.go:89-97 | References of different days or numbers differ, and a reference matches the prefix of its own day only. |
| PaymentReferences.ReferencesAreGapless | internal/models/store.go:89-128 | In every run of the service, whatever the interleaving and the faults, the references of a day are exactly those numbered 1 to the count that the next request reads, and no two payments share one. |
| PaymentReferences.StaleCountsAreRefused | internal/handlers/admin.go:178-194 | In every run the insert of a generated reference goes through if its number is one more than the day's count at that moment, and is refused by the UNIQUE column otherwise. |
| ReferenceText.RefTextIsInjective | internal/ledger/service.go:120-128 | Ledger references as text are equal exactly when they are the same reference, as long as no payment id starts as settlement references do. |
| Migrations.ResumeEqualsOneRun | internal/models/migrate.go:39-72 | Stopping after any number of files and running again gives the same database and result as one uninterrupted run. |
| Migrations.StopsDoNotMatter | internal/models/migrate.go:39-72 | However often runs are broken off, in any mix of stops and failing calls, the next full run ends as if it had been the only one. |
| Migrations.SecondRunChangesNothing | internal/models/migrate.go:44-50 | A run after a successful run succeeds and changes nothing. |
| Migrations.TroubleDoesNotMatter | internal/models/migrate.go:44-71 | After a run that stopped or that any failing call of the loop broke off, the next run ends as if it had been the only one. |
| Migrations.BodiesApplyOnceInOrder | internal/models/migrate.go:39-72 | A run commits a prefix of the bodies that it still has to apply, each once, in ascending name order, and the contents are those after executing them one after the other; a successful run commits all of them. |
| Migrations.WellNamedExactly | internal/models/migrate.go:14 | The accepted names are exactly three or more digits, an underscore, one or more of [a-z0-9_] and ".sql". |
| Migrations.BeforeIsByFirstDifference | internal/models/migrate.go:37 | The order of names is decided by the first character in which they differ. |
| Migrations.Migrator.RunMigrations | internal/models/migrate.go:39-74 | The loop, stopped after any file or broken off by a failing check, read, begin, tracking insert or commit, does what the specification says of the files it got to, and nothing of the file that failed. |
| Migrations.SortedListing | internal/models/migrate.go:30-37 | The listing holds exactly the .sql names, in strictly ascending byte order. |

## Left out

- HTTP routing, templates, forms, CSRF, sessions, operators, settings, rate limiting, logging and the audit log: no property above depends on their state.
- SMTP, HTTP delivery, HMAC signatures and random tokens: foreign services and libraries; the answer to a webhook request and the reply of the rail are nondeterministic.
- SQLite itself: locking, text formats of timestamps, and how they compare.
- PaymentService.Service.PayerRequest: does not model the card and EFT field checks nor the random outcome; whether a confirmation gets through them is a parameter.
- PaymentService.Service.CreatePaymentRequest: days are numbers, the time zone is a fixed offset and the text of the present day is a parameter, as the calendar is not modelled; parsing the form is left out.
- PaymentStore.Store.CreatePaymentRequest: takes the key as trimmed, None when empty; the administrator's form, its only caller, sets none, so runs of the service have none.
- PaymentStore.Store.WithWriteRetry: how each attempt fails, what others do in the pauses and when the context is cancelled are parameters; a busy error is recognised by ASCII case folding of its text.
- PaymentService.Service.ProcessAwaiting: the query and the clock reading after it are one step.
- PaymentService.Service.GetOrCreateDue: the mutex is not modelled, as one engine uses the map.
- Liveness.NoStarvation: assumes that the rail never errors, that the engine's writes succeed and the process does not stop, that the engine keeps getting steps and that the clock moves between two ticks.
- PendingCounter.CleanPendingIsExact: is stated for runs without a fault between a posting and its mark, since it is false in others; PendingCounter.RunsAreExactUnlessReleasedAgain has the exact condition.
- WebhookDispatcher.AtMostEightPosts: counts per outbox row; the receiver may see two rows with one payload only if two were enqueued.
- Migrations.Migrator.RunMigrations: creating the tracking table and listing the directory, which precede the loop, do not fail.
- Migrations.SecondRunChangesNothing: the directory is taken to be the same in both runs.
- SetPaymentAwaitingTransfer and UpdateWalletPending (internal/models/store.go:74 and 185): nothing calls them.
- Wallet paging, dashboard counts, listing filters, FormatCents, digitsOnly and last4: easy members only.
- Several replicas of the process: the engine and the dispatcher are one each.
