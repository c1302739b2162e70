# Instant payment gateway: a verified model

This project models the payment engine of the gateway (initiate, authorize, settle over PostgreSQL),
the query builder behind the transaction list, and the rate limiter's cache, and proves what they
are for: payments are settled once, money is conserved, the ledger replays to the balances, retries
with one idempotency key make one payment, calls never deadlock over the rows their statements lock
(and, with the locks of foreign keys, only in one way), a filter gets the rows it asks for, and a
client has one limiter. Statements about runs are about every interleaving of every set of calls.

Check it with `dafny verify dfyconfig.toml` (Dafny 4.11).

## How the model is built

**The payment engine.**

| file | what it holds |
|---|---|
| `Uuids.dfy` | account ids, their text, and the order of the text that decides which row is locked first |
| `Records.dfy` | the rows, the errors, BIGINT arithmetic |
| `AtomicGateway.dfy` | the specification: every service call is one indivisible step (`CallNow`) |
| `Sums.dfy`, `Books.dfy` | what the committed tables always satisfy (`Good`), and that every atomic call keeps it |
| `Engine.dfy` | the system as it runs: any number of calls interleave statement by statement over row locks, private writes, COMMIT and ROLLBACK; any statement may fail |
| `EngineInvariant.dfy`, `Refinement.dfy`, `Safety.dfy` | the invariant of the interleaved system, kept by every step of every run |
| `Linearizability.dfy` | the interleaved system refines the atomic one |
| `Liveness.dfy` | freedom from deadlock over the locks the statements take; every batch of calls ends |
| `Completeness.dfy` | the converse of refinement: every atomic call can be run statement by statement; authorized payments can exceed a balance |
| `ForeignKeys.dfy` | who waits for whom when the key-share locks of foreign keys are added: the one way to deadlock |
| `Runs.dfy` | the properties of whole runs |
| `Verdicts.dfy` | what each atomic call answers and does, in terms of the request and the tables alone |
| `Outcomes.dfy` | what calls answer in a run, whatever else runs: who may authorize and settle, and that retries get what they should |
| `Repository.dfy`, `Service.dfy` | `PostgresRepo` and `PaymentService` as classes whose methods run the code's statements one after the other, with any other calls running in between; every change they make is recorded as a run of `Engine`, and each service method is proved to return, with the result of the whole atomic call at some instant while it ran |

A stored state is called good when balances are in range, a transaction's currency is that of both its
parties, the unique index matches the table, every settled transaction has exactly its two ledger
entries, the ledger replays to the balances and each currency adds up to its opening balances.
Settlement never re-checks the currency and `UPDATE transactions` has no guard on the status; both
are safe only because of what the other calls keep true, and that is what is proved.

**The list** (`Listing.dfy`, `QueryText.dfy`). The builder is a method that grows text, arguments and a
placeholder counter. Its output is also a syntax tree with a meaning, the text determines the tree, and
the tree's possible answers are proved to be exactly what the filter asks for.

**The limiter cache** (`RateLimiting.dfy`, `Middleware.dfy`). A machine of read-lock and write-lock
steps of any number of goroutines, proved to be a sequence of whole get-or-creates, and the class
`RateLimiter` whose methods run those steps in place, recorded as runs of the machine.

## What is assumed of PostgreSQL

- READ COMMITTED. A statement that locks a row waits until no other open transaction holds it and
  then sees the latest committed row. Locks last until COMMIT or ROLLBACK. A row locked twice by one
  transaction does not block it, so sender and receiver may be the same account.
- `INSERT ... ON CONFLICT DO NOTHING` waits while another open transaction has inserted the same key.
- The UNIQUE constraints on idempotency key, e-mail address and API key and the CHECK constraints on
  amount, balance and account type (`migrations/001_initial.sql`, lines 10, 13, 14, 25, 28 and 76), and
  that BIGINT arithmetic refuses to overflow.
- A text too long for its VARCHAR(255) column is refused. PostgreSQL would store one whose excess
  characters are all spaces without them; such keys, e-mail addresses and API keys are assumed away.
- `SELECT ... FOR UPDATE` and the key-share lock of a foreign key exclude each other; an insert checks its
  sender before its receiver; key-share locks do not exclude each other (`ForeignKeys.dfy` only).
- COMMIT happens at once or not at all. Any statement, COMMIT included, may fail: the call then ends
  with `DatabaseFailure` and rolls back. Which calls the database may fail is a parameter of `PostgresRepo`.
- New transaction ids come from a supply that never repeats. `sender` and `receiver` of a request are
  `None` where `uuid.Parse` refuses the text; the random part of a provider reference is a parameter.
- A CHAR(3) column pads a shorter currency with spaces and returns it so.

## Findings

- The check for a negative balance after the debit ("insufficient funds during settlement",
  `internal/service/payment.go`, lines 215 to 217) never fires: the CHECK constraint refuses the debit
  first, so callers see "failed to debit sender" (`Outcomes.NeverReported`, `Verdicts.SettleSucceedsIff`).
- Locking accounts in the order of their ids does not by itself prevent deadlock
  (`internal/service/payment.go`, line 188): inserting a payment also locks its sender's and then its
  receiver's account row for the foreign keys (`migrations/001_initial.sql`, lines 26 and 27). A cycle of
  waiting calls always goes through an insert whose receiver's id is below its sender's
  (`ForeignKeys.OnlyReversedInsertsDeadlock`), and settling any authorized payment between two accounts
  can deadlock with such an insert between them (`ForeignKeys.ReversedInsertDeadlocks`).
- `ListTransactions` never asks the cursor for its error (`internal/repository/postgres.go`, lines 275
  to 284). When reading the rows met an error, the list is right exactly if the filter is readable, the
  rows scan and their number is that of the whole page (`Listing.ListIsRight`). As long as the connection
  holds, every answer is right if and only if the account id and the dates of the filter are readable
  (`Listing.RightIffReadable`); each other filter may come back as an empty list without an error
  (`Listing.ErrorLost`).
- Authorization reserves nothing: the authorized payments of an account can add up to more than it has,
  from any reachable state with no call in progress (`Completeness.OverAuthorized`), and still nothing is
  overspent (`Runs.NeverOverspends`).
- Statuses `failed` and `refunded` are in the transition table of the tests but no run reaches them
  (`Runs.StatusHistory`).

## Model

| member | source | states |
|---|---|---|
| Runs.SettledAtMostOnce | internal/service/payment.go:162-256 | In every run, however many settle calls race and whatever fails, at most one of them commits for a transaction, although the status update has no guard |
| Runs.SettledIffCommitted | internal/service/payment.go:183-256 | A transaction is settled in a state of a run if and only if some settle call has committed it before |
| Runs.DoubleEntryBooks | internal/service/payment.go:225-247 | In every state of every run a settled transaction has exactly a debit of its sender and a credit of its receiver for its amount and currency, any other has no entry, and total debits = total credits = the sum of settled amounts |
| Runs.LedgerReplay | internal/service/payment.go:210-247 | Folding an account's entries in append order over its opening balance gives every recorded `balance_after` and ends in the stored balance, self-payments included |
| Runs.NeverOverspends | internal/service/payment.go:136-142 | After every ledger entry of every run an account's settled debits are at most its opening balance plus its settled credits; no committed balance is negative |
| Runs.CurrencyConserved | internal/service/payment.go:47-49 | In every state of every run the balances of each currency add up to the opening balances of its accounts, though settlement never re-checks the currency |
| Runs.OnlyOpenChangesTotals | internal/repository/postgres.go:26-36 | A step of a run changes the total of a currency only if it opens an account of that currency, and then by the opening balance |
| Runs.BalancesBounded | internal/repository/postgres.go:76-83 | Every balance, committed or written by an open transaction between its debit and its credit, lies between 0 and what the currency's accounts were opened with |
| Runs.CreditFitsInt64 | internal/service/payment.go:210-223 | If the opening balances of a payment's currency sum to at most 2^63 - 1, its negated amount is exact and its credit is never refused |
| Runs.StatusStep | internal/repository/postgres.go:220-226 | A step of the system moves a transaction's status by one arrow of the transition table or not at all; a new row is pending; id, key, parties, amount and currency stay |
| Runs.StatusHistory | internal/service/payment_test.go:97-103 | The committed statuses of every transaction in every run are a prefix of pending, authorized, settled |
| Runs.RowsKeepIdentity | internal/repository/postgres.go:220-226 | Transactions are never lost; id, key, parties, amount and currency never change; status never goes back |
| Runs.KeyIsUnique | migrations/001_initial.sql:25 | In every state of every run two transactions with one key are the same transaction |
| Runs.IdempotentInitiate | internal/service/payment.go:69-81 | All successful initiate calls with one key report the same id, parties, amount and currency, whatever their bodies, and that row is stored |
| Runs.WaiterTakesOver | internal/repository/postgres.go:123-162 | A call whose insert waits for another's cannot run; once the first inserter rolls back it can, and it becomes the creator with its own body |
| Outcomes.NeverReported | internal/service/payment.go:215-217 | No run reports the negative-balance error, nor a missing row on the fetch after a duplicate insert, nor a missing account of a stored payment |
| Runs.FailureChangesNothing | internal/service/payment.go:168-256 | A call that ends with an error, at whatever step, never changed the tables and leaves no lock and no private write |
| Runs.RollbackExact | internal/service/payment.go:168 | A rollback gives back the call's locks and writes and leaves the tables, every other lock and every other call as they were |
| Verdicts.SettleSucceedsIff | internal/service/payment.go:176-223 | Settling a stored payment succeeds if and only if the caller is empty or the text of its sender or of its receiver, it is authorized, the sender has the funds and the receiver's balance stays within BIGINT; otherwise nothing changes and the error is, in this order, not a party, not authorized, debit refused, credit refused |
| Verdicts.SettleMovesMoney | internal/service/payment.go:210-259 | A successful settlement changes the two balances by the amount (or one account's not at all), appends the two entries with the balances after each, stores the payment as settled under a reference SIM-suffix, and changes nothing else |
| Verdicts.AuthorizeSucceedsIff | internal/service/payment.go:116-148 | Authorizing a stored payment succeeds if and only if the caller is empty or the text of its sender, it is pending and the sender has the funds; then only its status changes; otherwise nothing changes and the error is, in this order, not the sender, not pending with the status, insufficient funds with both amounts |
| Verdicts.InitiateSucceedsIff | internal/service/payment.go:28-74 | Initiating succeeds if and only if both ids parse, both accounts exist in the requested currency, the amount is positive and the key has at most 255 characters; otherwise nothing changes and the error of the first check that fails is reported |
| Verdicts.InitiateAnswers | internal/service/payment.go:58-86 | If a payment is stored under the key, a successful call answers with that row and changes nothing; otherwise it stores and returns a pending row with the columns of the request |
| Verdicts.UnknownPayment | internal/service/payment.go:117-120 | A call for a payment that is not stored reports that and changes nothing |
| Outcomes.SettleAnswered | internal/service/payment.go:162-277 | Of calls in a run: only a party or the service itself gets a success; a stranger to a stored payment is told so, unless the database fails, and only a stranger is; a payment settled before the call arrived is not settled by it |
| Outcomes.AuthorizeAnswered | internal/service/payment.go:108-158 | Of calls in a run: only the sender or the service itself gets a success; anyone else is told so, unless the database fails; a payment that was not pending when the call arrived is not authorized by it |
| Outcomes.InitiateAnswered | internal/service/payment.go:27-104 | Of calls in a run: a request in order when it arrives succeeds, unless the database fails; if a payment was stored under its key, the answer is that payment, whatever else the request says |
| Outcomes.OneSettleSucceeds | internal/service/payment.go:183-185 | Two settle calls for one payment that both succeed in a run are the same call |
| Outcomes.OneAuthorizeSucceeds | internal/service/payment.go:127-129 | Two authorize calls for one payment that both succeed in a run are the same call |
| Outcomes.DecidedAt | internal/service/payment.go:109-276 | A result is decided at a step of the call itself, by the whole call run on tables that satisfy the invariant |
| Outcomes.RefusedStaysAuthorized | internal/service/payment.go:168-217 | At any time after a settle call was refused for lack of funds its payment is authorized, or settled if and only if some settle call has committed it |
| Outcomes.SettlesWhilePayable | internal/service/payment.go:176-256 | A settle call by a party succeeds, unless the database fails, if until it has its result the payment is authorized, the sender has the funds and the receiver's balance has room |
| Outcomes.RefusedThenSettles | internal/service/payment.go:168-256 | Retry: after a settle call was refused for lack of funds, a later call of the same caller succeeds, unless the database fails, if until it has its result the funds are there and no other call has settled the payment; that it is still authorized follows |
| Outcomes.ReturnedRecordIsRow | internal/service/payment.go:140-148 | The record a successful call returns, though patched in memory after COMMIT, equals the committed row of its payment at an instant while the call ran |
| Outcomes.AuthorizationReservesNothing | internal/service/payment.go:131-142 | Authorizing one payment of a sender never stops another from being authorized and moves no balance |
| Runs.AccountStep | internal/repository/postgres.go:76-83 | A step of the system never loses an account or changes more of it than its balance; a new account's e-mail address and API key were unclaimed |
| Runs.AccountsAreDistinct | migrations/001_initial.sql:10-14 | No two accounts of any reachable state share an e-mail address or an API key |
| Completeness.OverAuthorized | internal/service/payment.go:131-142 | From any reachable state with no call in progress, an account with funds can come to owe, in authorized payments, twice its balance |
| Completeness.OverAuthorizedReached | internal/service/payment.go:136-138 | There is a run after which the authorized payments of an account exceed its balance |
| Completeness.RunCall | internal/service/payment.go:27-277 | When no call is in progress, any service call can run statement by statement to the end of the atomic call, so the atomic machine allows no more than the system does |
| Completeness.Finish | internal/service/payment.go:27-277 | A call that is alone, at whatever statement, can run to its end, with the result of the whole call at once |
| Runs.ResultIsFinal | internal/service/payment.go:254-276 | A finished call keeps its result for the rest of the run |
| Runs.OnlyCommitWrites | internal/repository/postgres.go:357-359 | No step of a call but its COMMIT changes the committed tables |
| Runs.CommitRow | internal/service/payment.go:140-146 | A COMMIT writes one transaction row, from pending to authorized, from authorized to settled, or a new pending one, and that row is the record returned |
| Runs.SettlesAtEffect | internal/service/payment.go:249-256 | A committed settlement finds its transaction authorized and leaves it settled |
| Linearizability.StepRefines | internal/service/payment.go:109-256 | Each step of the interleaved system is one step of the atomic machine or none: a call takes effect when it commits, or at the statement that decides it will not |
| Linearizability.RunRefines | internal/service/payment.go:109-256 | Every run of the interleaved system is a run of the atomic machine |
| Linearizability.SerialEquivalence | internal/service/payment.go:109-256 | The committed tables of every state are those of whole calls run one at a time in commit order |
| Linearizability.Linearizable | internal/service/payment.go:109-276 | The result of a call is that of the whole call run in one step at some instant between its arrival and its answer |
| Liveness.NoDeadlock | internal/service/payment.go:187-208 | In every reachable state the wait-for graph over the row locks the statements take themselves has no cycle |
| Liveness.WaitsAboveHeld | internal/service/payment.go:117-208 | A waiting call holds only rows that come earlier in the lock order than the one it waits for |
| Liveness.FindEnabled | internal/service/payment.go:187-208 | From any unfinished call, following the holders of the rows waited for reaches a call that can run, as far as the locks of statements go |
| Liveness.CallStepShortens | internal/service/payment.go:109-256 | Every step of a call, failures included, lowers the number of steps the batch has left |
| Liveness.BatchTerminates | internal/service/payment.go:109-256 | From every reachable state, under every scheduler, the calls in flight take at most twelve steps each, and when none can step all have finished, as far as the locks of statements go |
| ForeignKeys.OnlyReversedInsertsDeadlock | migrations/001_initial.sql:26-27 | With the key-share locks of foreign keys in any position they can have: a cycle of waiting calls in a reachable state goes through an insert whose receiver's id is below its sender's, so calls to authorize and settle alone never deadlock |
| ForeignKeys.WaitClimbs | migrations/001_initial.sql:26-27 | Along a wait for a call that waits itself and is no such insert, the rows waited for climb in the lock order |
| ForeignKeys.FindRunnable | migrations/001_initial.sql:26-27 | With those locks and no such insert in flight, from any unfinished call one reaches a call that waits for nothing and can run |
| ForeignKeys.ReversedInsertDeadlocks | internal/service/payment.go:187-208 | From any reachable state with no call in progress and an authorized payment between two accounts, settling it and initiating a payment between them from the account locked second reach a state in which the two calls wait for each other |
| ForeignKeys.KeyDeadlockReached | internal/service/payment.go:187-208 | Such a state is reachable |
| Uuids.LockOrderSound | internal/service/payment.go:190 | Comparing the texts of UUIDs is a strict total order on all 2^128 values, agrees with comparing their sixteen bytes, and distinct ids have distinct texts |
| Uuids.TextShape | internal/service/payment.go:123 | The text a caller is compared with has 36 characters, dashes at the places of RFC 9562 and lower-case hexadecimal digits elsewhere |
| Uuids.TextReads | internal/service/payment.go:123 | Reading the digits of the text gives the 128-bit identifier back |
| Uuids.TextOrder | internal/service/payment.go:190 | The text of one UUID is less than another's if and only if its number is |
| Books.InitiateKeepsGood | internal/service/payment.go:27-86 | Initiating, as one step, keeps the books good |
| Books.AuthorizeKeepsGood | internal/service/payment.go:108-146 | Authorizing, as one step, keeps the books good |
| Books.SettleKeepsGood | internal/service/payment.go:162-256 | Settling, as one step, keeps row constraints, double entry, ledger replay and conservation |
| Books.CallKeepsGood | internal/service/payment.go:27-277 | Every service call, as one step, keeps the books good |
| Books.OpenKeepsGood | internal/repository/postgres.go:26-36 | Opening an account keeps the books good |
| Books.SettleTransfers | internal/service/payment.go:210-252 | A successful settlement moves the amount from sender to receiver, with the two recorded balances exact also when they are one account |
| Books.TransferConserves | internal/service/payment.go:210-223 | Debit then credit keeps the total of every currency, also when sender and receiver are one account |
| Books.TransferKeepsReplay | internal/service/payment.go:225-247 | The two entries of a settlement extend a ledger that replays to one that replays |
| Safety.CommitIsTheCall | internal/service/payment.go:140-148 | In every good state the COMMIT of a call does what the whole call would do at that instant, the id it inserts is new, and the record returned is the committed row |
| Safety.ExecKeepsInv | internal/service/payment.go:109-252 | A statement of one call keeps the invariant of the whole system: locks owned, locals current, private writes as computed |
| Safety.CommitKeepsInv | internal/service/payment.go:254-256 | A COMMIT keeps it for every other call in flight |
| Safety.RollbackKeepsInv | internal/service/payment.go:168 | A rollback keeps it |
| Safety.RunInv | internal/service/payment.go:27-277 | It holds in every state of every run |
| Safety.HeldDisjoint | internal/repository/postgres.go:205-218 | Two calls never hold one row |
| Refinement.ExecIsSound | internal/service/payment.go:109-252 | A statement leaves the call's locals and writes in agreement with the rows it holds; if it decides the call, the whole call has that result now; it adds to the rows held exactly the row it locks |
| Refinement.CommitIsSound | internal/service/payment.go:140-146 | Merging a committing call's private writes gives the tables the whole call gives |
| Refinement.CommitLeaves | internal/repository/postgres.go:220-226 | A commit changes no row that another call holds, keeps every row's identity and moves status forward |
| Refinement.LocalStable | internal/repository/postgres.go:50-62 | What a call has read under its locks stays true while others commit |
| Service.PaymentService.InitiatePayment | internal/service/payment.go:27-104 | Returns whatever else runs; its result, and its effect if any, are those of the whole call at one instant while it ran; a request in order when it arrives succeeds, and one whose key was stored gets that payment; a database failure is reported exactly if one of its statements failed, and only if the database may fail the call |
| Service.PaymentService.AuthorizePayment | internal/service/payment.go:108-158 | The same instant for authorization; success only for the sender or the service itself and only of what was pending; anyone else is refused |
| Service.PaymentService.SettlePayment | internal/service/payment.go:162-277 | The same instant for settlement; success only for a party or the service itself; a stranger is refused; what was settled is not settled again |
| Service.PaymentService.ReadForAuthorize | internal/service/payment.go:116-129 | Goes on with the row read under lock only if it is pending and the caller is its sender or empty; otherwise ends with the error of the check that failed |
| Service.PaymentService.CheckFunds | internal/service/payment.go:131-138 | Goes on only if the locked sender row covers the amount |
| Service.PaymentService.ReadForSettle | internal/service/payment.go:170-185 | Goes on with the row read under lock only if it is authorized and the caller is one of its parties or empty; otherwise ends with the error of the check that failed |
| Service.PaymentService.LockAccounts | internal/service/payment.go:187-208 | Takes both account rows in the order of their ids, with the error of the party whose row is missing |
| Service.PaymentService.TakeFromSender | internal/service/payment.go:210-217 | Debits the sender by the amount or ends with the debit refused; the negative-balance branch is dead |
| Service.PaymentService.GiveToReceiver | internal/service/payment.go:219-223 | Credits the receiver by the amount or ends with the credit refused |
| Service.PaymentService.WriteEntry | internal/service/payment.go:225-247 | Appends the debit entry, then the credit entry, with the balances the updates returned |
| Service.PaymentService.RecordSettlement | internal/service/payment.go:225-259 | Entries, status, COMMIT and the record patched in memory, in this order |
| Service.PaymentService.CreateTransactionIdempotent | internal/repository/postgres.go:123-162 | Goes on with a new pending row with the columns of the request; or ends with the payment stored under the key, committing nothing; or is refused because the amount is not positive or the key too long; or the database failed |
| Service.PaymentService.AnswerDuplicate | internal/service/payment.go:76-81 | The duplicate's answer is the stored payment, unless the database fails: the fetch always finds a row; the transaction is rolled back |
| Service.PaymentService.Refuse | internal/service/payment.go:168 | An error return ends the call with that error after the deferred rollback |
| Service.PaymentService.ResultRan | internal/service/payment.go:162-277 | The outcome of an ended call is that of the whole call at one step of the recorded run since it arrived |
| Repository.PostgresRepo.BeginTx | internal/repository/postgres.go:357-359 | Opens a transaction without writes, or fails and does nothing |
| Repository.PostgresRepo.GetAccount | internal/repository/postgres.go:38-48 | The committed row, without a lock |
| Repository.PostgresRepo.GetAccountForUpdate | internal/repository/postgres.go:52-62 | Waits its turn, takes the row lock, answers with the row as the transaction sees it then |
| Repository.PostgresRepo.GetTransactionForUpdate | internal/repository/postgres.go:207-218 | The same for a transaction row |
| Repository.PostgresRepo.GetTransactionByIdempotencyKeyForUpdate | internal/repository/postgres.go:179-190 | The committed row of the key, locked |
| Repository.PostgresRepo.UpdateBalance | internal/repository/postgres.go:76-83 | The new balance, written privately under the row lock; refused if it would be negative or leave BIGINT, and then nothing is written |
| Repository.PostgresRepo.AddToBalance | migrations/001_initial.sql:76 | The row after adding the delta, or why there is none |
| Repository.PostgresRepo.UpdateTransactionStatus | internal/repository/postgres.go:220-226 | The status and provider reference of the row, written privately whatever the status was |
| Repository.PostgresRepo.CreateLedgerEntry | internal/repository/postgres.go:289-298 | Appends the entry to the private writes |
| Repository.PostgresRepo.InsertTransaction | internal/repository/postgres.go:131-145 | Refused by the constraints, nothing on a committed duplicate, or a pending row under a new id with its key locked |
| Repository.PostgresRepo.CreateAccount | internal/repository/postgres.go:26-36 | Adds the account with the columns given, its currency padded to three characters, and changes nothing else, if and only if balance, currency, type and lengths are admissible and id, e-mail address and API key are not taken |
| Repository.PostgresRepo.Commit | internal/service/payment.go:254-256 | Publishes the private writes and ends the call with the record returned, or fails and changes nothing |
| Repository.PostgresRepo.Rollback | internal/service/payment.go:168 | Ends the call with the outcome already decided |
| Repository.PostgresRepo.Await | internal/repository/postgres.go:50-62 | However others interleave, the call's next statement gets its turn |
| Repository.PostgresRepo.EndStatement | internal/service/payment.go:109-256 | What a statement did, with where the code goes next, is one step of the recorded run |
| Repository.PostgresRepo.NowIsGood | internal/repository/postgres.go:15-18 | The invariant of runs holds of the object between statements |
| Listing.TranslationCorrect | internal/repository/postgres.go:228-267 | For every filter and table, the possible answers to the built query with its arguments are exactly the answers the filter asks for: selected rows, newest first, one page, an error if a parameter cannot be read |
| Listing.PlaceholdersExact | internal/repository/postgres.go:231-267 | A number is a placeholder of the built query if and only if it numbers one of its arguments |
| Listing.BuildQuery | internal/repository/postgres.go:228-267 | The text and the arguments built step by step are the rendering and the arguments of the query proved correct; the limit argument is the limit asked for if it is 1 to 100 and 50 otherwise, and the offset follows if it is positive |
| Listing.ListMeans | internal/repository/postgres.go:254-267 | A list holds the rows from the offset on, as many as the limit asked for (50 unless it is 1 to 100), of the selected rows put newest first |
| Listing.SelectMeans | internal/repository/postgres.go:233-252 | A row is selected, as often as it is stored, exactly if the account is one of its parties, the status text is that of its status and its creation lies within the dates, where these are given |
| Listing.ErrorMeans | internal/repository/postgres.go:269-272 | An error is what the filter asks for exactly if its account id or one of its dates cannot be read |
| QueryText.FullText | internal/repository/postgres.go:229-267 | The SQL text, word for word, of a filter with every piece given |
| QueryText.DecimalReads | internal/repository/postgres.go:234-265 | The digits of a placeholder spell its number |
| QueryText.RenderInjective | internal/repository/postgres.go:229-267 | Two queries with one text are one query, whatever their conditions and placeholder numbers |
| Listing.BuildConditions | internal/repository/postgres.go:229-252 | The same up to ORDER BY, with the next placeholder always one more than the number of arguments |
| Listing.ConditionsCorrect | internal/repository/postgres.go:233-252 | In all sixteen combinations of optional filters the built conditions ask of a row what the filter asks |
| Listing.EffectiveLimit | internal/repository/postgres.go:256-259 | The limit asked for if it is 1 to 100, and 50 otherwise |
| Listing.ListTransactions | internal/repository/postgres.go:228-285 | Sends the query proved correct and returns the rows read, no more than the limit asked for (50 unless it is 1 to 100), or an error if the query failed or a row does not scan; after an error met while reading, the list is what the filter asks for if and only if the filter is readable, the rows scan and their number is that of the page |
| Listing.ListIsRight | internal/repository/postgres.go:269-284 | For everything the database may send back, the exact condition under which the caller gets what the filter asks for |
| Listing.RightIffReadable | internal/repository/postgres.go:269-284 | Over an unbroken connection all possible answers are right if and only if the filter is readable |
| Listing.ErrorLost | internal/repository/postgres.go:275-284 | Every unreadable filter may come back as an empty list without an error, which is not what it asks for |
| Listing.ScanAll | internal/repository/postgres.go:275-283 | The loop copies every row in order, or ends with an error exactly if some row does not scan |
| Listing.PagesRebuildList | internal/repository/postgres.go:254-267 | With distinct creation times, the pages at offsets 0, L, 2L, ... put together hold every selected row exactly once, newest first |
| Listing.PagesAreSorted | internal/repository/postgres.go:254-267 | Enough pages put together are the sorted selection, whichever answers the database gave for each |
| Listing.SortUnique | internal/repository/postgres.go:254 | Rows with distinct creation times have one newest-first order |
| RateLimiting.RefinesGetOrCreate | internal/middleware/ratelimit.go:27-44 | Every step of every interleaving leaves the cache alone or is one whole get-or-create that decides its caller's result |
| RateLimiting.DecidedAtOnce | internal/middleware/ratelimit.go:27-44 | A caller's get-or-create took place in one step between its arrival and its answer |
| RateLimiting.OneLimiterPerKey | internal/middleware/ratelimit.go:37-42 | At most one limiter is ever made for a key |
| RateLimiting.SameLimiter | internal/middleware/ratelimit.go:27-44 | All callers with one key get the same object, whenever they run |
| RateLimiting.EntriesStay | internal/middleware/ratelimit.go:42 | Entries of the cache never change or go |
| RateLimiting.BoundPerClient | internal/middleware/ratelimit.go:54 | Over any stretch of any run, the requests of a client that were admitted are those its one limiter admitted |
| RateLimiting.KeyOfRequest | internal/middleware/ratelimit.go:49-52 | A request is served under its API key if it sent one, and under its address otherwise |
| RateLimiting.OneLimiterPerClient | internal/middleware/ratelimit.go:47-62 | Two requests are served by one limiter if and only if what identifies them, the API key if one was sent and the address otherwise, is the same text |
| RateLimiting.RunInv | internal/middleware/ratelimit.go:27-44 | Readers exclude the writer, and what each goroutine has read is still so |
| RateLimiting.LimiterProgress | internal/middleware/ratelimit.go:28-36 | While a goroutine is unfinished, some goroutine can step |
| Middleware.RateLimiter.GetLimiter | internal/middleware/ratelimit.go:27-44 | Returns, whatever else runs, the limiter cached for the key, with the configured rate and burst; no earlier entry is changed |
| Middleware.RateLimiter.GetOrMake | internal/middleware/ratelimit.go:35-43 | The part under the write lock ends with the lock released and a limiter decided |
| Middleware.RateLimiter.Handle | internal/middleware/ratelimit.go:47-62 | A request is judged, and logged, under its API key if it sent one and under its address otherwise, by the limiter cached for that key, taken or made in one step while it was served |
| Middleware.RateLimiter.Await | internal/middleware/ratelimit.go:28-36 | However others interleave, a goroutine waiting for the mutex gets it |
| Middleware.RateLimiter.constructor | internal/middleware/ratelimit.go:19-25 | An empty cache with the configured rate and burst |

## Left out

- Liveness.NoDeadlock: over the locks the statements take themselves; `ForeignKeys.OnlyReversedInsertsDeadlock` says what becomes of it with the key-share locks of foreign keys.
- Liveness.FindEnabled: the same restriction; `ForeignKeys.FindRunnable` is its counterpart.
- Liveness.BatchTerminates: the same restriction; the calls of a key deadlock end only when the server aborts one of them, which is a failing statement in the model.
- Repository.PostgresRepo.Await: an insert's wait for key-share locks is not modelled there; a deadlock over them is a failing statement.
- Refund and failure flows: the statuses exist, no code performs them.
- Descriptions, metadata, timestamps of payments and names of accounts: columns without influence on payment state.
- Audit log, webhooks and log lines: written after COMMIT, without effect on payment state.
- HTTP handlers, authentication, signatures, CORS, the WebSocket hub, the dashboard, the analytics queries and `buildPlaceholders`.
- Ambiguous COMMIT errors: a COMMIT that the server performs while the client sees an error. COMMIT fails cleanly here.
- The join of the idempotent insert: it computes an id the duplicate path does not use, and under a concurrent insert it may see no row and fail to scan. `CreateTransactionIdempotent` models the insert-or-fetch it is written for.
- `CreateTransaction`, the non-idempotent insert: no service call uses it.
- Listing.BuildQuery: the meaning is given to the one syntax tree whose rendering the text is; PostgreSQL's parser is not modelled.
- Listing.ListTransactions: how the server reads text as a UUID or a timestamp is a parameter (`Casts`), and which rows scan is part of what it sends.
- RateLimiting.BoundPerClient: what one limiter admits over time is left open; `rate.Limiter` is a library type.
- Middleware.RateLimiter.Await: the preference of a waiting writer over new readers is not modelled; readers may keep overtaking for any finite while.
