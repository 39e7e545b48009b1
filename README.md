# Malibu Resort money settlement, modelled in Dafny

Malibu Resort is a roulette game split over two services. The game server
(`server.main`) seats players at tables, takes bets and spins the wheel. The
pay service (`server.pay`) keeps a double-entry ledger of every player's money.
The game server never moves money itself. It writes a *pending transaction
intent*, a row naming a player, an amount and a type. Each intent is later
submitted to the ledger as a balanced two-leg transfer, keyed by the intent's
id so that a retried submission is not booked twice. The types are DEPOSIT,
WITHDRAWAL, SPEND (a bet's stake) and PAYOUT (a win).

This project models that settlement path and proves what each step promises:

- **Ledger** (`ledger.dfy`, `pay_db.dfy`, `ledger_accounts.dfy`). A `Ledger`
  class holds the accounts, journal and lines of the accounting database.
  - `Begin` is the leg loop of `ExecuteTransfer`. It is proved equal to the
    function `Prepare`.
  - `Commit` is the save. It does a row-version compare-and-swap, then the
    unique-key checks, then handles any other fault; that precedence is the
    model's choice (see "## Left out"). It is proved equal to the function
    `Committed`.
  - The invariant `Consistent` says:
    - player accounts are never negative;
    - every balance equals the sum of the ledger lines for its account;
    - every entry's lines sum to zero;
    - idempotency keys are unique;
    - the total of all balances is zero.
  - Every transfer preserves `Consistent`, including one staged against an
    older state of the database.
  - Money is conserved.
  - Replays and racing transfers are stated as lemmas over two successive
    saves.
- **Wire** (`wire.dfy`, `pay_routes.dfy`). This is what the two services
  exchange: the shared error record, the status names .NET prints, and how
  each JSON read treats each body. The pay service's endpoints are modelled
  on top of the ledger.
- **Intents** (`pending_tx.dfy`). The request an intent forms, and the
  `PendingTx` class with its status machine and append-only log.
- **Pay client** (`pay_api.dfy`). The two counted retry loops, as methods
  proved against recursive functions over an oracle of answers.
  `ProcessPendingTx` runs claim, save, save, submit, record, save on a
  tracked intent.
- **Database context** (`main_db.dfy`). `MainDb` is the game server's unit
  of work.
  - It holds the stored rows, a working copy of players, tables and bets,
    and the tracked intent objects.
  - A save stores the whole working copy or nothing.
  - A failed save is assumed to keep its changes in the working copy, so the
    next save of the same context writes them (see "## Left out").
- **Reconciler** (`reconciler.dfy`). One sweep loads the PENDING intents
  older than a second and drives each through the processor in query order.
- **Scheduler** (`spin_service.dfy`). For every due table it does three
  things, each table in its own scope:
  - idle-player removal and its save;
  - the spin, which resolves the table's open bets and queues one PAYOUT per
    winning bet;
  - the spin's save.
- **Handlers** (`handlers.dfy`, `wallet.dfy`, `tables.dfy`). The wallet and
  table routes, with their guard chains in the handlers' order.
  - Deposits and withdrawals only queue an intent.
  - A bet is charged inline through a SPEND intent, and the bet row is written
    only after the charge succeeded.
- **Settlement** (`settlement.dfy`). The two services composed: the pay
  service's transfer endpoint answers the client's first request, and the
  lemmas follow that answer to the intent's stored status and the balance
  pushed to the player.
- **Shared rules** (`validation.dfy`, `table_schema.dfy`, `text.dfy`). The
  input validators and the per-tier limits.

Units: money is an integer number of hundredths, matching the `decimal(18,2)`
columns. Time is an integer number of milliseconds.

**Inputs as parameters.** The clock, GUIDs, the drawn number, the database's
answer to each save and the pay service's answer to each HTTP request are all
parameters. An HTTP loop receives a function from the attempt number to what
that attempt met.

**Behaviours the model makes explicit.** These are proved as lemmas about the
code as written. Some of them also rest on assumptions about code that is not
part of this model: that a failed save keeps its changes tracked, and the JSON
shapes of the pay service's answers. "## Left out" lists each assumption.

- The pay service puts its error code in the error record's message and
  leaves the record's code empty (`PayRoutes.ErrorIsBadRequestWithoutCode`).
  The client looks for the replay code in the code field. So a replay, a
  concurrency conflict or a fatal error reaches the client as an ordinary
  400. The client then fails the intent with the text "BadRequest"; the
  replay fallback to a balance read is never taken over the wire
  (`Settlement.ReplayOverWireFails`). A retry of a transfer the ledger has
  already booked is therefore recorded as FAILURE although the player's
  balance moved (`Settlement.BookedRetryIsFailed`).
- Two transfers that both create the same missing account collide on the
  account's primary key. The ledger reports this as `IDEMPOTENT_REPLAY`
  although the two keys differ (`LedgerEngine.RacingCreationsReportReplay`).
- `ProcessPendingTx` saves the claim twice, tests only the second save, and
  reports the first save's result. When only the second save fails, the
  error reads "Database failure: Success"
  (`PayApi.RecheckFailureReportsFirstSave`).
- An intent of an unknown type raises after its claim was saved. It stays
  CRACKED, and no sweep selects it again (`PayApi.UnknownTypeStaysCracked`).
- A failed idle-removal save is still written by the spin's save of the same
  scope (`SpinService.FailedIdleRemovalSavedBySpin`). A saved idle removal
  survives a failed spin save (`SpinService.IdleSavedSpinLost`).
- .NET's `$` also matches before one final newline. So "abc\n" passes the
  four-to-sixteen character name rule (`Validation.ThreeLettersAndNewlinePass`).
- The bet handler's "amount must be positive" guard can never fire: the
  tier's minimum bet, checked first, is positive
  (`TableRoutes.PositivityGuardUnreachable`).
- When the final save of a bet fails, the player has been charged and no bet
  is stored (`TableRoutes.BetFollowsCharge`).

## Model

| member | source | states |
|---|---|---|
| LedgerAccounts.GetAccountId | shared/Scripts/LedgerAccounts.cs:8-11 | a player's account id is the player prefix followed by the player id, which stripping the prefix gives back |
| LedgerAccounts.GetAccountIdInjective | shared/Scripts/LedgerAccounts.cs:8-11 | distinct players never share a ledger account |
| LedgerAccounts.PlayerAccountIsNotSystem | shared/Scripts/LedgerAccounts.cs:3-11 | no player account id carries the system prefix |
| LedgerAccounts.SystemAccountIds | shared/Scripts/LedgerAccounts.cs:3-6 | EXTERNAL is SYS_EXTERNAL and HOUSE is SYS_HOUSE, both system accounts, and distinct |
| PayDb.SystemAccountsExempt | server.pay/Scripts/PayDbContext.cs:35-38 | EXTERNAL and HOUSE rows are system accounts, whatever their balance; a player's row never is |
| PayDb.IsSys | server.pay/Scripts/PayDbContext.cs:35-38 | an account is a system account exactly when its id starts with SYS_, as `SystemAccountsExempt` and `PlayerAccountIsNotSystem` state |
| PayDb.LegSum | server.pay/Scripts/Ledger.cs:10-11 | the sum the first check tests, which `TransferRejectsNonZeroSum` shows refuses a non-zero request and `LinesForSums` ties to the lines |
| PayDb.KeysUniqueAppend | server.pay/Scripts/PayDbContext.cs:16-18 | an entry with an unused idempotency key keeps the keys unique |
| PayDb.LinesFor | server.pay/Scripts/Ledger.cs:38-44 | one line per leg, in leg order, with the leg's account and amount, under the entry's id |
| PayDb.LinesForSums | server.pay/Scripts/Ledger.cs:38-44 | a transfer's lines record, per account, what its legs move, and per entry the legs' total |
| PayDb.EmptyIsConsistent | server.pay/Scripts/PayDbContext.cs:4-27 | the empty accounting database satisfies the ledger invariant |
| LedgerEngine.ApplyLegsShape | server.pay/Scripts/Ledger.cs:29-45 | when every leg applies, exactly the named accounts are tracked, none of the player ones is negative, and the staged lines are one per leg |
| LedgerEngine.ApplyLegsTracks | server.pay/Scripts/Ledger.cs:29-33 | after the legs apply, each tracked account holds its stored balance (0 for a new one) plus what the legs moved on it, under its stored version |
| LedgerEngine.LastLegFails | server.pay/Scripts/Ledger.cs:33-36 | a leg fails exactly when it leaves its non-system account negative, and the error names that account |
| LedgerEngine.ApplyLegsFailure | server.pay/Scripts/Ledger.cs:29-45 | the leg loop fails exactly when some leg leaves a player account negative, and then names the account of the first such leg |
| LedgerEngine.GetOrCreateAccount | server.pay/Scripts/Ledger.cs:75-84 | the row a leg moves: the one already tracked, else the stored one, else a new row at balance 0, as `ApplyLegsTracks` states for every tracked account |
| LedgerEngine.Step | server.pay/Scripts/Ledger.cs:29-45 | one iteration of the leg loop: move the leg's account, stop at an overdrawn player account, else stage one line, as `LastLegFails` and `InsufficientIsFinal` state |
| LedgerEngine.ApplyLegs | server.pay/Scripts/Ledger.cs:29-45 | the leg loop in leg order, whose result `ApplyLegsShape`, `ApplyLegsTracks`, `ApplyLegsFailure` and `ApplyLegsTotal` state |
| LedgerEngine.InsufficientIsFinal | server.pay/Scripts/Ledger.cs:35-36 | once a leg failed, no later leg is applied |
| LedgerEngine.ApplyLegsTotal | server.pay/Scripts/Ledger.cs:29-33 | applying the legs moves the total of all balances by the legs' sum |
| LedgerEngine.StageFacts | server.pay/Scripts/Ledger.cs:10-45 | a staged transfer passed the checks; its entry and lines are the request's; it inserts every missing named account and updates every existing moved one as read; each written row holds its stored balance plus its legs, none negative for a player; the total is kept |
| LedgerEngine.Stage | server.pay/Scripts/Ledger.cs:20-45 | what the save writes: the entry, the lines, the rows to insert and the moved rows to update, as `StageFacts` states |
| LedgerEngine.Prepare | server.pay/Scripts/Ledger.cs:8-45 | the checks and the leg loop before the save, reaching the save exactly when `AdmissiblePrepares` says, with the errors `TransferRejectsNonZeroSum`, `TransferRejectsTooFewLegs` and `TransferRejectsOverdraft` state |
| LedgerEngine.AdmissiblePrepares | server.pay/Scripts/Ledger.cs:10-45 | a transfer reaches the save exactly when its legs balance, number at least two, and leave no player account negative |
| LedgerEngine.WritesCurrent | server.pay/Scripts/Ledger.cs:47-56 | a save that passes the version and key checks writes over balances that are still the ones the transfer read |
| LedgerEngine.Stale | server.pay/Scripts/PayDbContext.cs:12-14 | the row-version check fails exactly when an updated account changed or vanished since it was read; `CommitOutcome` maps it to CONCURRENCY_CONFLICT |
| LedgerEngine.Duplicate | server.pay/Scripts/PayDbContext.cs:16-18 | a unique constraint fails: the idempotency key is used or an inserted account exists; `CommitOutcome` maps it to IDEMPOTENT_REPLAY |
| LedgerEngine.Bumped | server.pay/Scripts/PayDbContext.cs:12-14 | the written rows with their row versions: an updated row moves past the version it was read at, as `CommittedEvolves` states |
| LedgerEngine.CommitOutcome | server.pay/Scripts/Ledger.cs:47-66 | the save succeeds exactly when no version is stale, no key or account is duplicated and nothing else is raised; success writes rows, entry and lines, and any failure leaves the database as it was |
| LedgerEngine.Committed | server.pay/Scripts/Ledger.cs:47-66 | the save and its error mapping, whose outcome `CommitOutcome` and whose effects `CommittedBalances`, `CommittedTotal` and `CommittedEvolves` state |
| LedgerEngine.CommittedBalances | server.pay/Scripts/Ledger.cs:47-50 | a successful save adds the named accounts and moves each account by exactly the sum of its legs |
| LedgerEngine.CommittedTotal | server.pay/Scripts/Ledger.cs:47-50 | a successful save keeps the total of all balances |
| LedgerEngine.CommittedEvolves | server.pay/Scripts/PayDbContext.cs:12-14 | a save never deletes a row, never moves a version back, and moves every updated row past its version |
| LedgerEngine.SaveKeepsRows | server.pay/Scripts/Ledger.cs:35-50 | after a successful save the rows stay keyed by id and no player account is negative |
| LedgerEngine.SaveKeepsLineSums | server.pay/Scripts/Ledger.cs:38-50 | after a successful save every balance equals its line sum and every entry's lines sum to zero |
| LedgerEngine.SaveKeepsReferences | server.pay/Scripts/PayDbContext.cs:16-18 | after a successful save every line names a stored account and an existing entry, and the keys stay unique |
| LedgerEngine.SaveKeepsConsistent | server.pay/Scripts/Ledger.cs:47-66 | a save staged against an earlier state keeps a consistent database consistent, whatever was committed in between |
| LedgerEngine.TransferRejectsNonZeroSum | server.pay/Scripts/Ledger.cs:10-11 | unbalanced legs are refused with NON_ZERO_SUM first, and nothing changes |
| LedgerEngine.TransferRejectsTooFewLegs | server.pay/Scripts/Ledger.cs:13-14 | balanced requests with fewer than two legs are refused with INVALID_LEGS, and nothing changes |
| LedgerEngine.TransferRejectsOverdraft | server.pay/Scripts/Ledger.cs:29-45 | the first leg that leaves a player account negative refuses the transfer with INSUFFICIENT_FUNDS_ and that account's id, and nothing changes |
| LedgerEngine.Transfer | server.pay/Scripts/Ledger.cs:8-67 | a whole transfer, whose outcome `TransferOutcome`, whose effects `TransferEffects` and whose invariant `TransferKeepsConsistent` state |
| LedgerEngine.TransferOutcome | server.pay/Scripts/Ledger.cs:8-67 | a transfer succeeds exactly when its legs are admissible, its key is new and nothing is raised; a used key gives IDEMPOTENT_REPLAY, a raised fault FATAL_ERROR; every failure changes nothing |
| LedgerEngine.TransferEffects | server.pay/Scripts/Ledger.cs:20-50 | a successful transfer appends one entry with the request's key and reason and one line per leg, creates the named accounts, moves each account by its legs, and conserves money |
| LedgerEngine.TransferKeepsConsistent | server.pay/Scripts/Ledger.cs:8-67 | every transfer, successful or not, keeps the ledger invariant |
| LedgerEngine.RetryIsReplay | server.pay/Scripts/Ledger.cs:57-61 | retrying a committed key never books it again, and a retry whose legs pass is reported as a replay |
| LedgerEngine.RacingTransfersConflict | server.pay/Scripts/Ledger.cs:52-56 | of two transfers read from the same state that both change one existing account, the second save fails with CONCURRENCY_CONFLICT |
| LedgerEngine.CreationClash | server.pay/Scripts/Ledger.cs:57-61 | a save inserting an account another save has just created is reported as IDEMPOTENT_REPLAY and changes nothing |
| LedgerEngine.RacingCreationsReportReplay | server.pay/Scripts/Ledger.cs:57-61 | two transfers that both create one account and share no moved existing account: the second is reported as a replay although its key is new |
| LedgerEngine.RecordedBalance | server.pay/Scripts/Ledger.cs:69-73 | in a consistent database every balance, a missing account's included, is what the lines record |
| LedgerEngine.Ledger.constructor | server.pay/Scripts/PayDbContext.cs:4-8 | an empty accounting database, which is consistent |
| LedgerEngine.Ledger.Begin | server.pay/Scripts/Ledger.cs:8-45 | the checks and the leg loop compute exactly the staged transfer, or the first error, without writing |
| LedgerEngine.Ledger.Commit | server.pay/Scripts/Ledger.cs:47-66 | the save and the mapping of its failures to error codes, exactly as `Committed` says |
| LedgerEngine.Ledger.ExecuteTransfer | server.pay/Scripts/Ledger.cs:8-67 | the new state and the error are those of `Transfer`, and a consistent ledger stays consistent |
| LedgerEngine.Ledger.GetBalance | server.pay/Scripts/Ledger.cs:69-73 | 0 for an account never created; in a consistent ledger, the account's line sum |
| Wire.Err | shared/Scripts/Dtos.cs:6-9 | the text becomes the message; the code is set only when passed |
| Wire.StatusName | server.main/Scripts/Pay/PayAPI.cs:84-87 | a status code's name is never empty |
| Wire.ReadBalances | server.main/Scripts/Pay/PayAPI.cs:64-65 | the dictionary read succeeds exactly for a dictionary, a single value or null, and reads a dictionary as itself |
| Wire.ReadValue | server.main/Scripts/Pay/PayAPI.cs:117 | the value read fails only without a JSON body, reads a value as itself, and reads as absent exactly for null |
| Wire.ReadErrorCode | server.main/Scripts/Pay/PayAPI.cs:77-78 | the error read fails only without a JSON body, and finds a code only in an error record that carries it |
| PayRoutes.ErrorIsBadRequestWithoutCode | server.pay/Scripts/Routes.cs:9-12 | every ledger error is a 400 whose record carries the code as message and no code, so the client reads no code |
| PayRoutes.TransferResponse | server.pay/Scripts/Routes.cs:11-19 | the transfer endpoint's answer: a 400 without a code for an error, as `ErrorIsBadRequestWithoutCode` states, else a 200 with the new balances, as `SuccessReportsMovedBalances` states |
| PayRoutes.NewBalances | server.pay/Scripts/Routes.cs:14-17 | the distinct leg accounts at their current balances, which `SuccessReportsMovedBalances` shows are the old balances plus the legs |
| PayRoutes.SuccessReportsMovedBalances | server.pay/Scripts/Routes.cs:14-19 | a successful transfer answers 200 with exactly the named accounts, each at its old balance plus its legs |
| PayRoutes.BalanceResponse | server.pay/Scripts/Routes.cs:22-27 | always 200 with a value, which in a consistent ledger is the account's line sum |
| PayRoutes.HandleTransfer | server.pay/Scripts/Routes.cs:7-20 | the ledger moves as `Transfer` says and the answer is built from its error and the new balances |
| Settlement.ErrorOverWire | server.main/Scripts/Pay/PayAPI.cs:77-88 | the client reads every error answer of the transfer endpoint, the replay code included, as "BadRequest" and never as a replay |
| Settlement.SuccessOverWire | server.main/Scripts/Pay/PayAPI.cs:62-74 | the client reads a booked transfer's answer as the account's stored balance plus its legs |
| Settlement.ServedEndsLoop | server.main/Scripts/Pay/PayAPI.cs:53-100 | an answer of the transfer endpoint ends the retry loop at the first request, without a delay: "BadRequest" for a refusal, the player's new balance for a booking |
| Settlement.ReplayOverWireFails | server.main/Scripts/Pay/PayAPI.cs:32-47 | when every transfer request meets an error answer, whatever its code, the run returns "BadRequest", pushes nothing, and stores the intent as FAILURE with that text |
| Settlement.ServedIntentSettles | server.main/Scripts/Pay/PayAPI.cs:22-48 | an intent served by the ledger is FAILURE with "BadRequest" when the ledger refused it and SUCCESS when it booked it; once saved, the row is stored and the player is told the old balance moved by the intent's signed amount |
| Settlement.BookedRetryRefused | server.pay/Scripts/Ledger.cs:8-67 | the retry of a booked transfer is refused, as a replay when its legs pass, and changes nothing |
| Settlement.BookedRetryIsFailed | server.main/Scripts/Pay/PayAPI.cs:22-48 | an intent whose transfer was already booked is stored as FAILURE with "BadRequest", although the player's balance moved by its signed amount |
| Intents.NewIntent | server.main/Scripts/Routes/Wallet.cs:32-40 | a new intent carries the given id, type, player and amount, is PENDING, created now, unprocessed and without log |
| Intents.FormedRequest | server.main/Scripts/Data/PendingTx.cs:26-64 | known types form a two-leg zero-sum request keyed by the id with the type as reason, moving the player by the signed amount and EXTERNAL or HOUSE by its opposite; an unknown type is refused with its name |
| Intents.FormTxRequest | server.main/Scripts/Data/PendingTx.cs:26-64 | the request `FormedRequest` describes: two balanced legs per known type, keyed by the intent's id, and the unknown-type exception |
| Intents.KnownType | server.main/Scripts/Data/PendingTx.cs:26-64 | the four types the switch names, exactly those for which `FormedRequest` shows a request is formed |
| Intents.PlayerSign | server.main/Scripts/Data/PendingTx.cs:26-64 | the direction each known type moves the player's account, in for DEPOSIT and PAYOUT, out otherwise, as `FormedRequest` states |
| Intents.AppendLogExtends | server.main/Scripts/Data/PendingTx.cs:88-93 | appending keeps the old log as a prefix and adds the stamped line, after a newline exactly when the log was non-empty |
| Intents.AppendLog | server.main/Scripts/Data/PendingTx.cs:88-93 | the log after one line, which `AppendLogExtends` shows keeps the old log as a prefix |
| Intents.TransitionsKeepRequest | server.main/Scripts/Data/PendingTx.cs:66-86 | claiming, completing and failing keep the formed request; completing and failing set the processing time, claiming does not |
| Intents.CrackedIntent | server.main/Scripts/Data/PendingTx.cs:66-72 | the row after a successful `Crack`: CRACKED with one more log line, as `PendingTx.Crack` and `TransitionsKeepRequest` state |
| Intents.CompletedIntent | server.main/Scripts/Data/PendingTx.cs:74-79 | the row after `Complete`: SUCCESS, processed now, "SUCCESS" logged, as `PendingTx.Complete` and `TransitionsKeepRequest` state |
| Intents.FailedIntent | server.main/Scripts/Data/PendingTx.cs:81-86 | the row after `Fail`: FAILURE, processed now, the error logged, as `PendingTx.Fail` and `TransitionsKeepRequest` state |
| Intents.PendingTx.constructor | server.main/Scripts/Data/PendingTx.cs:3-14 | an object carrying exactly the given row |
| Intents.PendingTx.Crack | server.main/Scripts/Data/PendingTx.cs:66-72 | succeeds exactly from PENDING, then CRACKED with one log line; otherwise nothing changes |
| Intents.PendingTx.Complete | server.main/Scripts/Data/PendingTx.cs:74-79 | SUCCESS, processed now, SUCCESS logged, whatever the status was |
| Intents.PendingTx.Fail | server.main/Scripts/Data/PendingTx.cs:81-86 | FAILURE, processed now, the error logged, whatever the status was |
| Intents.PendingTx.AppendLogLine | server.main/Scripts/Data/PendingTx.cs:88-93 | only the log changes, to the old log with the stamped line appended |
| PayApi.IsSuccessMeaning | server.main/Scripts/Pay/PayAPI.cs:9-14 | success exactly when there is a value and no error; otherwise the error text, or empty without one |
| PayApi.IsSuccess | server.main/Scripts/Pay/PayAPI.cs:9-14 | success with its two out-values, whose meaning `IsSuccessMeaning` states |
| PayApi.TransferVerdict | server.main/Scripts/Pay/PayAPI.cs:57-97 | what one transfer attempt leads to: an exception goes on at once; a 2xx returns the player's balance or a schema mismatch; a replay code returns the balance read; another 4xx returns its name; anything else waits and goes on |
| PayApi.BalanceVerdict | server.main/Scripts/Pay/PayAPI.cs:110-140 | what one balance attempt leads to: an exception goes on at once; a 2xx returns the value read; a 4xx returns its name; anything else waits and goes on |
| PayApi.LoopTrace | server.main/Scripts/Pay/PayAPI.cs:53-100 | the loop stops at the first attempt that returns, else times out after the last, and waits once per attempt that asked to, never after the last |
| PayApi.WholeLoop | server.main/Scripts/Pay/PayAPI.cs:19-20 | a loop makes one to three attempts, returns the first returned result or Time Out, and waits fewer times than it attempts |
| PayApi.Loop | server.main/Scripts/Pay/PayAPI.cs:53-100 | the counted retry loop over per-attempt verdicts, whose trace `LoopTrace` and `WholeLoop` state |
| PayApi.BalanceLoop | server.main/Scripts/Pay/PayAPI.cs:103-144 | the balance read as that loop over `BalanceVerdict`, which the method `GetPlayerBalance` is proved to compute |
| PayApi.TransferLoop | server.main/Scripts/Pay/PayAPI.cs:50-101 | the transfer as that loop over `TransferVerdict`, with the balance read as replay fallback, which `ProcessTxRequest` is proved to compute and `TransferLoopWellFormed` shows well formed |
| PayApi.GetPlayerBalance | server.main/Scripts/Pay/PayAPI.cs:103-144 | the counted loop returns what `BalanceLoop` says, with its attempt and delay counts |
| PayApi.ProcessTxRequest | server.main/Scripts/Pay/PayAPI.cs:50-101 | the counted loop returns what `TransferLoop` says for the player's account |
| PayApi.TransferLoopWellFormed | server.main/Scripts/Pay/PayAPI.cs:50-101 | a transfer, with its replay fallback, reports a value exactly when it reports no error |
| PayApi.Process | server.main/Scripts/Pay/PayAPI.cs:22-48 | processing an intent leaves players, tables and bets of the working copy alone |
| PayApi.ProcessPendingTx | server.main/Scripts/Pay/PayAPI.cs:22-48 | the outcome, notification, intent, stored rows and working copy are those of `Process` |
| PayApi.Claim | server.main/Scripts/Pay/PayAPI.cs:25-30 | the claim succeeds exactly for a PENDING intent, which becomes CRACKED and is stored if either save succeeds; a refused claim changes nothing |
| PayApi.Record | server.main/Scripts/Pay/PayAPI.cs:35-42 | the intent becomes SUCCESS without an error and FAILURE with it, and is stored if the save succeeds |
| PayApi.ClaimRefused | server.main/Scripts/Pay/PayAPI.cs:25-26 | a non-PENDING intent ends the run with Internal Error, no save and no notification |
| PayApi.NoContactWithoutPersistedClaim | server.main/Scripts/Pay/PayAPI.cs:25-33 | unless the claim's second save succeeded and the type is known, the pay service's answers make no difference |
| PayApi.RecheckFailureReportsFirstSave | server.main/Scripts/Pay/PayAPI.cs:28-30 | a failed second save reports the first save's result, Database failure: Success when only the second failed |
| PayApi.DatabaseFailure | server.main/Scripts/Pay/PayAPI.cs:28-42 | the "Database failure: " text with a save's result, which `RecheckFailureReportsFirstSave` and `SubmittedIsNeverPendingAgain` show is returned for a failed save |
| PayApi.SubmittedIsNeverPendingAgain | server.main/Scripts/Pay/PayAPI.cs:32-47 | once submitted, the stored intent is never PENDING again; it stays CRACKED exactly when the final save fails, else it is SUCCESS exactly when no error was reported |
| PayApi.UnknownTypeStaysCracked | server.main/Scripts/Pay/PayAPI.cs:32 | an unknown type raises after the claim was stored, leaving the intent CRACKED |
| PayApi.NotifiedOnlyAfterSave | server.main/Scripts/Pay/PayAPI.cs:38-45 | a balance is pushed only after the SUCCESS row was saved, and it is the value returned |
| MainStore.Seated | server.main/Scripts/Routes/Tables.cs:68-70 | a table's players are exactly those whose current table it is |
| MainStore.MainDb.constructor | server.main/Scripts/Pay/PendingTxProcesser.cs:29-30 | a context over the stored rows with nothing tracked or changed |
| MainStore.MainDb.BeginScope | server.main/Scripts/Game/SpinService.cs:20-21 | a fresh scope: nothing tracked, the working copy is the stored rows |
| MainStore.MainDb.Add | server.main/Scripts/Routes/Wallet.cs:41 | the object joins the tracked intents and the working copy gains its row; nothing is stored |
| MainStore.MainDb.TrySave | server.main/Scripts/Game/SpinService.cs:67-72 | success stores the whole working copy; failure stores nothing and keeps the working copy's changes |
| MainStore.MainDb.IntentChanged | server.main/Scripts/Pay/PayAPI.cs:25-38 | a change to one tracked intent shows in the working copy at its id and nowhere else |
| Reconciler.StuckIds | server.main/Scripts/Pay/PendingTxProcesser.cs:32-35 | the query returns the listed stored intents that are PENDING and older than the cutoff, in listing order, without repeats |
| Reconciler.Stuck | server.main/Scripts/Pay/PendingTxProcesser.cs:32-35 | PENDING and created before now minus one second, which `SelectsExactlyStuck` shows is exactly what the sweep selects |
| Reconciler.SelectsExactlyStuck | server.main/Scripts/Pay/PendingTxProcesser.cs:32-35 | an intent is selected exactly when it is PENDING and created more than a second ago; CRACKED, SUCCESS and FAILURE ones never are |
| Reconciler.DriveProcessesEach | server.main/Scripts/Pay/PendingTxProcesser.cs:37-52 | every selected intent is processed once, in order, whatever the earlier outcomes were |
| Reconciler.Drive | server.main/Scripts/Pay/PendingTxProcesser.cs:37-52 | the foreach over the selected intents, whose effects `DriveProcessesEach`, `DriveClaimsAll` and `SweepClaimsSelected` state |
| Reconciler.ProcessTouchesOnlyItsIntent | server.main/Scripts/Pay/PendingTxProcesser.cs:37-41 | processing one intent changes the working copy only at that intent's id |
| Reconciler.DriveClaimsAll | server.main/Scripts/Pay/PendingTxProcesser.cs:37-52 | a sweep over distinct PENDING rows leaves none of them PENDING |
| Reconciler.SweepClaimsSelected | server.main/Scripts/Pay/PendingTxProcesser.cs:27-53 | after a sweep, no intent it selected is PENDING in the working copy |
| Reconciler.Attach | server.main/Scripts/Pay/PendingTxProcesser.cs:33-35 | a loaded row joins the tracked objects and the working copy still equals the stored rows |
| Reconciler.Load | server.main/Scripts/Pay/PendingTxProcesser.cs:33-35 | one new tracked object per selected id, carrying its stored row; nothing changes |
| Reconciler.DriveLoaded | server.main/Scripts/Pay/PendingTxProcesser.cs:37-52 | the loop over the loaded objects ends where `Drive` does |
| Reconciler.Sweep | server.main/Scripts/Pay/PendingTxProcesser.cs:27-53 | one sweep stores and reports what `Drive` gives for the selected rows |
| SpinService.IdleSeated | server.main/Scripts/Game/SpinService.cs:89-90 | the idle players are exactly those seated at the table and inactive for thirty minutes |
| SpinService.IdleRemovalExact | server.main/Scripts/Game/SpinService.cs:89-96 | afterwards exactly the active players stay seated; only the removed players' table changes |
| SpinService.Unseated | server.main/Scripts/Game/SpinService.cs:92-96 | the players with the given ones taken off their table, which `IdleRemovalExact` shows leaves exactly the active players seated |
| SpinService.RemoveIdlePlayers | server.main/Scripts/Game/SpinService.cs:83-105 | a missing table raises; else the idle players are unseated and saved, and reported only when saved |
| SpinService.OpenBets | server.main/Scripts/Game/SpinService.cs:37-40 | exactly the table's unresolved bets |
| SpinService.Winnings | server.main/Scripts/Game/SpinService.cs:44-45 | the stake plus 36 times the stake on the winning number, else 0, which `PayoutsExactlyWinners` shows is the payout |
| SpinService.Resolve | server.main/Scripts/Game/SpinService.cs:47-50 | the bet marked resolved with the winning number, its payout and the time, which `ResolveBets` applies to every open bet |
| SpinService.PayoutsOn | server.main/Scripts/Game/SpinService.cs:52-64 | one PENDING PAYOUT per settled bet with a positive payout, as `PayoutsStep` and `PayoutsExactlyWinners` state |
| SpinService.PayoutId | server.main/Scripts/Game/SpinService.cs:56 | the spin id, an underscore, then the bet id |
| SpinService.PayoutIdInjective | server.main/Scripts/Game/SpinService.cs:56 | the payout ids of one spin name their bets one to one |
| SpinService.PayoutsStep | server.main/Scripts/Game/SpinService.cs:42-65 | settling one more bet adds its payout intent exactly when it won |
| SpinService.PayoutRowsStep | server.main/Scripts/Game/SpinService.cs:52-64 | the queued payout rows stay unique and keyed as the payouts of the settled bets |
| SpinService.SettleBet | server.main/Scripts/Game/SpinService.cs:44-64 | the bet is resolved and its payout row queued if it won; nothing is stored |
| SpinService.SettleNext | server.main/Scripts/Game/SpinService.cs:42-65 | one iteration of the bet loop keeps the loop's invariant: settled bets resolved, their payouts queued |
| SpinService.SettleAll | server.main/Scripts/Game/SpinService.cs:42-65 | all given bets resolved and exactly their payouts queued, in tracking order |
| SpinService.ResolveBets | server.main/Scripts/Game/SpinService.cs:37-65 | every open bet of the table is resolved and the working copy's intents gain exactly the spin's payouts |
| SpinService.Spun | server.main/Scripts/Game/SpinService.cs:33-65 | the rows after a spin, whose schedule `TickAdvancesSchedule`, whose payouts `PayoutsExactlyWinners` and whose frame `SpinTouchesOnlyItsTable` state |
| SpinService.SpunTable | server.main/Scripts/Game/SpinService.cs:34-35 | the table with its next spin one interval after now and the winning number recorded, as `TickAdvancesSchedule` states |
| SpinService.AddPayout | server.main/Scripts/Game/SpinService.cs:54-63 | the payout object is tracked after the others; nothing else changes |
| SpinService.ProcessSpin | server.main/Scripts/Game/SpinService.cs:28-81 | a missing table raises; else the working copy becomes the spun rows, stored if saved, and the spin is announced only when saved |
| SpinService.DueIds | server.main/Scripts/Game/SpinService.cs:14-15 | the due query returns the listed tables whose spin time has come, without repeats |
| SpinService.DueExactly | server.main/Scripts/Game/SpinService.cs:14-15 | a table is due exactly when its next spin time is not in the future |
| SpinService.Ticked | server.main/Scripts/Game/SpinService.cs:18-25 | a table's tick keeps the set of tables |
| SpinService.TickNotices | server.main/Scripts/Game/SpinService.cs:98-103 | what a tick announces: the removed players if that save succeeded, then the spin if its save succeeded, as `TickTable` states |
| SpinService.Spins | server.main/Scripts/Game/SpinService.cs:9-26 | one pass over the due tables, each ticked in turn, which `DoSpins` is proved to compute and `SpinsKeepTablesNotDue` shows leaves tables not due alone |
| SpinService.TickTable | server.main/Scripts/Game/SpinService.cs:20-24 | one table's scope stores what `Ticked` gives and tells its group the matching notices |
| SpinService.DoSpins | server.main/Scripts/Game/SpinService.cs:9-26 | a pass stores and announces what `Spins` gives for the due tables |
| SpinService.TickAdvancesSchedule | server.main/Scripts/Game/SpinService.cs:34-35 | a saved spin sets the next spin thirty seconds from now, later than the old one, and records the winning number |
| SpinService.SpinTouchesOnlyItsTable | server.main/Scripts/Game/SpinService.cs:28-72 | a spin resolves every bet of its table and changes no player, no other table, no other bet, and no intent but its payouts |
| SpinService.PayoutsExactlyWinners | server.main/Scripts/Game/SpinService.cs:42-64 | with positive stakes (which the bet handler's minimum-bet guard ensures), a payout is queued exactly for each open bet on the winning number, PENDING, for its player, of 37 times the stake |
| SpinService.ZeroStakeUnpaid | server.main/Scripts/Game/SpinService.cs:44-64 | a bet without a stake gets no payout even on the winning number, since the payout must be positive |
| SpinService.IdleSavedSpinLost | server.main/Scripts/Game/SpinService.cs:23-24 | a saved idle removal stays when the spin's save fails, with the bets open and the schedule unchanged |
| SpinService.FailedIdleRemovalSavedBySpin | server.main/Scripts/Game/SpinService.cs:23-24 | an idle removal whose save failed is written by the spin's save, and only the spin is announced |
| SpinService.TickKeepsOtherTables | server.main/Scripts/Game/SpinService.cs:20-24 | a tick changes no other table and no bet of another table |
| SpinService.SpinsKeepTablesNotDue | server.main/Scripts/Game/SpinService.cs:9-26 | a pass leaves a table that was not due, and its bets, as they were |
| TableSchema.MinBet | shared/Scripts/TableSchema.cs:5-15 | an unnamed tier raises; a named one has a positive minimum |
| TableSchema.MaxBet | shared/Scripts/TableSchema.cs:17-27 | an unnamed tier raises; a named one's maximum is ten times its minimum |
| TableSchema.MaxSeats | shared/Scripts/TableSchema.cs:29-39 | an unnamed tier raises; a named one seats at least one |
| TableSchema.SpinIntervalSec | shared/Scripts/TableSchema.cs:41-44 | thirty seconds for every tier |
| TableSchema.MinBetGrows | shared/Scripts/TableSchema.cs:5-15 | the minimum bet grows strictly with the tier |
| TableSchema.SeatsShrink | shared/Scripts/TableSchema.cs:29-39 | the seat count shrinks strictly with the tier |
| Validation.IsValidDeposit | shared/Scripts/Validation.cs:11-18 | accepted exactly from 1000 to 1,000,000; else an invalid-amount message |
| Validation.IsValidWithdrawal | shared/Scripts/Validation.cs:20-27 | accepted exactly from 1000 up, without upper bound; else an invalid-amount message |
| Validation.AlnumPatternShape | shared/Scripts/Validation.cs:34 | the pattern holds of a non-empty run of letters and digits, optionally followed by one final newline |
| Validation.MatchesAlnumPattern | shared/Scripts/Validation.cs:34-45 | the .NET match of the name pattern, whose shape `AlnumPatternShape` states |
| Validation.IsValidName | shared/Scripts/Validation.cs:40-50 | accepted names have 4 to 16 characters and match the pattern; else a name-format message |
| Validation.NameAcceptance | shared/Scripts/Validation.cs:40-50 | a name is accepted exactly when it has 4 to 16 characters of letters and digits, the last of which may be a newline |
| Validation.ThreeLettersAndNewlinePass | shared/Scripts/Validation.cs:40-50 | three letters and a newline pass the four-character minimum |
| Validation.IsValidPass | shared/Scripts/Validation.cs:52-62 | a password is accepted exactly when a name would be; else a password-format message |
| Handlers.PlayerIdOf | server/Scripts/auth/auth.helper.cs:41-45 | the id claim or empty, found exactly when non-empty |
| Handlers.PlayerSecure | server/Scripts/auth/auth.helper.cs:47-62 | the caller exactly when id and version claims are present, the player exists, and the token version is the player's current one |
| WalletRoutes.Balance | server.main/Scripts/Routes/Wallet.cs:7-18 | 404 without a caller; else the balance read on success, or 400 with the read's error |
| WalletRoutes.Deposit | server.main/Scripts/Routes/Wallet.cs:20-51 | 404 without a caller and 400 out of bounds, changing nothing; else exactly one PENDING DEPOSIT is added and saved, not processed |
| WalletRoutes.Withdraw | server.main/Scripts/Routes/Wallet.cs:53-93 | 401 for a stale token, 400 below the minimum, on a failed read or above the balance, none changing anything; else exactly one PENDING WITHDRAWAL is added and saved |
| WalletRoutes.QueuedForReconciler | server.main/Scripts/Pay/PendingTxProcesser.cs:32-35 | a queued intent is PENDING and a sweep selects it exactly once the cutoff has passed |
| WalletRoutes.AcceptedWithdrawalCovered | server.main/Scripts/Routes/Wallet.cs:63-73 | an accepted withdrawal is at least the minimum and at most the balance reported |
| TableRoutes.SeatAddsOne | server.main/Scripts/Routes/Tables.cs:91-94 | seating a free player adds exactly that player to the table and to no other |
| TableRoutes.Seat | server.main/Scripts/Routes/Tables.cs:91-94 | the player seated at the table and active now, which `SeatAddsOne` shows adds exactly that player |
| TableRoutes.UnseatRemovesOne | server.main/Scripts/Routes/Tables.cs:121-124 | unseating removes exactly that player from the table and from no other |
| TableRoutes.Unseat | server.main/Scripts/Routes/Tables.cs:121-124 | the player off the table and active now, which `UnseatRemovesOne` shows removes exactly that player |
| TableRoutes.JoinRefusal | server.main/Scripts/Routes/Tables.cs:68-89 | a join is allowed exactly for an existing table and player sitting nowhere at a table with a free seat; a seated player gets 409 |
| TableRoutes.JoinKeepsSeatLimit | server.main/Scripts/Routes/Tables.cs:88-94 | an allowed join keeps every table within its seats |
| TableRoutes.LeaveKeepsSeatLimit | server.main/Scripts/Routes/Tables.cs:117-124 | a leave keeps every table within its seats |
| TableRoutes.LeaveUndoesJoin | server.main/Scripts/Routes/Tables.cs:91-124 | leaving after joining restores the player, up to the activity time |
| TableRoutes.JoinTable | server.main/Scripts/Routes/Tables.cs:65-102 | a refused join changes nothing; else the caller is seated and saved, and the table is answered only when saved |
| TableRoutes.LeaveRefusal | server.main/Scripts/Routes/Tables.cs:107-119 | a leave is allowed exactly for a caller seated at an existing table; every refusal is a 404 |
| TableRoutes.LeaveTable | server.main/Scripts/Routes/Tables.cs:104-132 | a refused leave changes nothing; else the caller is unseated and saved, and the table is answered only when saved |
| TableRoutes.BetRefusal | server.main/Scripts/Routes/Tables.cs:137-166 | a bet passes the guards exactly for a current caller seated at the table, an amount within the tier's range, a number from 0 to 36 and at least two seconds before the spin |
| TableRoutes.RangeMessage | server.main/Scripts/Routes/Tables.cs:154-156 | the bet-range message with the tier's bounds, which `BetRefusal` answers for an amount out of range |
| TableRoutes.PositivityGuardUnreachable | server.main/Scripts/Routes/Tables.cs:154-162 | the positivity refusal never happens |
| TableRoutes.SpendId | server.main/Scripts/Routes/Tables.cs:179 | the SPEND intent's id is BetId_ followed by the bet id |
| TableRoutes.NewBet | server.main/Scripts/Routes/Tables.cs:196-205 | the unresolved bet row with the request's number and stake, which `BetFollowsCharge` shows is stored only after the charge |
| TableRoutes.WithBet | server.main/Scripts/Routes/Tables.cs:196-208 | the working copy with the bet added and the player active at its time, which `RecordBet` saves |
| TableRoutes.Charged | server.main/Scripts/Routes/Tables.cs:175-217 | the SPEND intent queued and saved, then settled, which `Charge` and `PlaceBet` are proved to compute |
| TableRoutes.Settled | server.main/Scripts/Routes/Tables.cs:192-217 | the SPEND intent processed inline and the bet recorded only without an error, which `Settle` is proved to compute and `BetFollowsCharge` characterises |
| TableRoutes.PlaceBet | server.main/Scripts/Routes/Tables.cs:134-222 | refusals, a failed balance read and an overdraft change nothing; else the bet is charged as `Charged` says |
| TableRoutes.Charge | server.main/Scripts/Routes/Tables.cs:175-190 | the SPEND intent is queued and saved, then settled, as `Charged` says |
| TableRoutes.Settle | server.main/Scripts/Routes/Tables.cs:192-217 | the SPEND intent is processed and, only without an error, the bet is recorded, as `Settled` says |
| TableRoutes.RecordBet | server.main/Scripts/Routes/Tables.cs:196-217 | the bet row and the player's activity join the working copy and are saved; 204 only when saved |
| TableRoutes.BetFollowsCharge | server.main/Scripts/Routes/Tables.cs:192-217 | a bet row appears only after its SPEND intent was stored as SUCCESS for its amount; the bet is stored exactly when the handler answers 204 |

## Left out

- HTTP, JSON and SignalR plumbing. Requests and answers are values, and each request's outcome is an oracle parameter. Hub messages are returned as values: the table notices of the scheduler, and the balance pushed by the processor. The wallet and table handlers' hub messages are not modelled. Idle-player removal returns one `PlayersLeft` notice with the set of removed players; the source sends one `PlayerLeft` message per removed player, in order (server.main/Scripts/Game/SpinService.cs:100-103).
- Concurrency. Calls run one at a time. Races on the ledger are stated over two successive saves staged against one state. The row-version check is a sequential compare-and-swap.
- The background loops and their one-second delays, including the scheduler's catch-all at server.main/Scripts/Game/SpinService.cs:108-126 and the reconciler's loop. The model has one sweep and one pass per call.
- The real clock, GUIDs and `Random.Shared`. They are parameters. One `now` stands for every clock read of a call, tick or pass.
- Intents.Stamp: a log line's time is written as the integer milliseconds, not as the culture-formatted `DateTime.UtcNow` text of server.main/Scripts/Data/PendingTx.cs:92.
- SpinService.ProcessSpin: the drawn number is a parameter that the caller must keep in 0 to 36, the range `Random.Shared.Next(0, 37)` draws from.
- TableRoutes.BetRefusal: the double-valued `TotalSeconds` is integer milliseconds, with the cutoff at 2000.
- The game server's `MainDbContext`, `TrySaveAsync_HTTP` and `Table.Wrap` are not part of this model. A failed save's HTTP result is `SaveFailed` with the save's report. The table answer is its id, name, tier and seat count. Queries read the working copy of a context, and each scope starts fresh over the stored rows.
- MainStore.MainDb.TrySave: an assumption, since `TrySaveAsync` is not part of this model. A failed save is assumed to leave its changes tracked, so the next save of the same context writes them. The comment at server.main/Scripts/Game/SpinService.cs:69 says a failed save's changes are reverted; if they are discarded instead, `SpinService.FailedIdleRemovalSavedBySpin`, the "stored if either save succeeds" clause of `PayApi.Claim`, and a later save writing an earlier unsaved intent do not hold.
- MainStore.MainDb.Add: an assumption that a new intent's id is never already stored (ids are fresh GUIDs). If one were, the model overwrites the stored row, where the database's insert would fail.
- Wire.ReadBalances: an assumption about body shapes. `TxValueDict` and `TxValue` are not defined in server.pay/Scripts/Routes.cs or shared/Scripts/Dtos.cs. The model takes the 200 body of a transfer (Routes.cs:19) to be the bare dictionary and a `TxValue` to be `{"value": v}`. If `TxValueDict` wraps its dictionary as `TxValue` wraps its value, the client's dictionary read at server.main/Scripts/Pay/PayAPI.cs:64-65 raises on every successful transfer, and `Settlement.SuccessOverWire` does not hold.
- LedgerEngine.Committed: the precedence of a save's failures is a modelling choice. The model reports a stale row version first (CONCURRENCY_CONFLICT), then a duplicate key or account (IDEMPOTENT_REPLAY), then any other fault (FATAL_ERROR). In server.pay/Scripts/Ledger.cs:52-66 the exception raised depends on which SQL statement the framework runs first, so a save that is both stale and a duplicate could be reported as IDEMPOTENT_REPLAY. `LedgerEngine.RacingTransfersConflict` rests on this order.
- Faults arise only at saves. Row versions on the game server's rows, including the intent's `Version` column, are not modelled. Neither is the ledger row version's wrap-around, so versions are unbounded naturals.
- Decimal scale. Amounts are hundredths. Text.MoneyText renders a whole amount without decimals and any other amount with two, which loses the scale a C# decimal carries.
- Wire.StatusName: names the 4xx codes that `HttpStatusCode` names. Every other code is rendered as its decimal number; .NET would name the 1xx, 2xx, 3xx and 5xx ones too, but the client prints a status name only for a 4xx.
- `null` strings, JSON `null` requests and missing claims other than the id and version are not modelled. A principal is its two claims.
- Query order is a parameter: the order in which the database lists intents and tables.
- Framework exception texts are stand-ins. A JSON read that raises carries "JsonException", and a missing table raises the null-reference message. Only the texts the code itself writes are exact, such as "Unknown tx type: ", "Internal Error", "Time Out." and "Database failure: ".
- Handlers.PlayerIdOf and Handlers.PlayerSecure cite server/Scripts/auth/auth.helper.cs. That file belongs to the superseded `server/` revision, but it is the only copy of the auth helper available here, and it stands in for server.main's copy, which is not part of this model.
- Authentication, chat, leaderboard, listing queries, startup, migrations, the client and the superseded `server/` revision are outside this model.
