# VLIQ backend: verified model

VLIQ pays bonuses to shop sellers for sales that they prove with fiscal receipts. This project models
the parts of its backend where a mistake loses money, a notification or a receipt, and proves what
they keep:

- **Payout ledger** (`Ledger`, `Payouts`, `Books`, `PayoutProtocol`, `PayoutSafety`, `PayoutTheorems`,
  `PayoutService`). Create, approve, update and reject run as transactions over payout requests, an
  append-only signed ledger and the outbox. Any number of them interleave under READ COMMITTED, split
  at every row lock, balance query, flush and commit. A ledger row refers to its seller by a foreign key,
  so writing one waits for whoever has the seller locked, and the other way round. `PayoutService.Session` is the service as
  written, one call at a time, and is tied to the same atomic specification (`Payouts.Perform`).
- **Notification outbox** (`Outbox`, `OutboxProtocol`, `OutboxSafety`, `OutboxDelays`, `OutboxWorker`). Several workers
  drain it with SKIP LOCKED, one transaction per batch, and may crash at any point. A Telegram post
  cannot be taken back by a rollback, and may be accepted although the worker sees a failure; an in-app
  notification is a row of the same transaction.
- **Receipt submission** (`ReceiptPackages`). Racing callers share an idempotency key and a unique index.
- **Receipt pipeline** (`ReceiptStatus`, `Identities`, `OfdClient`, `OfdCache`, `Pipeline`). One worker
  processes one receipt while files, OCR, fraud checks, cache, OFD provider, matcher and database answer
  anything or raise, and while the job may be cut at any wait. A database error and a cut both undo what
  the run has written.
- **Bonus engine** (`BonusRules`, `BonusEngine`, `BonusTheorems`, `BonusLaws`).
- **Money, QR codes and S3 uploads** (`Text`, `Arith`, `Money`, `QrCodes`, `Storage`).

Amounts are integers in kopecks and times are seconds, both unbounded as in Python. Quantities and
delays, floats in the source, are `real`.

`dafny verify dfyconfig.toml` checks everything.

## Where the code differs from its own comments

The model follows the code.

- `balance_service.py:10-12` says that the sum of all ledger rows never goes negative. A paid request
  is in that sum twice (its hold and its completion). `Books.LedgerSumNonNegativeIff` gives the exact
  condition: it is non-negative if and only if the seller has been paid at most what is still available.
- `balance_service.py:59` says that `on_hold` covers pending requests only. The code sums all holds ever
  written. `Books.OnHoldIsPendingIff`: the two agree exactly while none of the seller's requests has
  been paid or rejected. `PayoutTheorems.PaidRequestBreaksComments` is an ordinary run in which both
  comments fail.
- The balance goes negative when a receipt's bonus is taken back after it has been cashed out: the
  reversal does not look at the balance (`receipt/handlers/api/v1/router.py:1229-1265`,
  `PayoutTheorems.NegativeCorrectionCanOverdraw`). Nothing else can do it:
  `PayoutTheorems.SolventThroughoutIff` says that a run keeps every seller solvent at each of its points
  if and only if each correction in it was affordable when it committed. Being affordable at the INSERT is
  not enough, because two corrections do not wait for each other
  (`PayoutTheorems.AffordableInsertsCanOverdraw`).
- `outbox.py:7-13` lists a 12 h backoff. It is unreachable, because the fifth failure kills the row
  (`Outbox.RetryBudget`).
- A 429 answer raises `attempts` but never kills the row (`Outbox.RateLimitNeverKills`).
- `proverkacheka.py:14` says that any other non-2xx status raises OFDBlockedError. The code lets the
  HTTP error escape; the model has it as the outcome `Unexpected`.
- `notification/outbox.py` and `worker.py` treat a failed send as not sent. When Telegram has accepted the
  message and only the reply is lost, the row is sent again, with no rollback
  (`OutboxSafety.LostReplySendsTwice`).
- `process` promises that a non-terminal receipt always ends on review. There are two ways out. A database
  error in a lookup aborts the transaction, so the handler's own UPDATE fails too and is only logged. And
  a job that waits too long is cancelled after 120 seconds (`app/arq_worker.py:173`), which one 429 with a
  long Retry-After is enough for, as that sleep has no cap (`ofd_client/proverkacheka.py:183`); the
  cancellation passes both handlers and the session rolls back. A worker that dies does the same. The
  receipt then keeps its old status. `Pipeline.Run.Process` states exactly when, in terms of the start
  status, the scanned code and the world (`Pipeline.Stores`).
- `parse_qr_string` promises QRParseError for a bad text. A date such as 00010101T0000 raises
  OverflowError on the shift to UTC, which nobody catches before `process` does, and the whole collection
  is lost (`Identities.AggregateIdentities`).
- `create_receipt_package` promises to return the winner of a race instead of a constraint error. With
  an empty-string key, or when the winner has been soft-deleted, it raises (`ReceiptPackages.RaisesIff`,
  `ReceiptPackages.SecondSubmissionRaises`). A soft-deleted winner needs no special caller. The empty key
  reaches the function only from a direct caller: finalize asks for at least 8 characters
  (`receipt/schemas/api.py:236`), and in the multipart upload (`receipt/handlers/api/v1/router.py:145`) the
  web framework reads an empty form field as an absent one.
- The OFD cache joins its key with colons, which a percent-decoded QR code can contain. A triple owns its
  key, and its hits are its own, if and only if it has no colon (`OfdCache.KeyIsUnambiguousIff`,
  `OfdCache.HitsAreGenuineIff`).
- `format_kopecks` and `_parse_sum` are inverse for every non-negative amount. For a negative amount
  they are inverse exactly when it is whole roubles (`Money.RoundTripIff`).

## Model

| member | source | states |
|---|---|---|
| Ledger.AvailableAppend | backend/src/seller/services/balance_service.py:28-51 | appending one row moves that seller's available by exactly its amount for every kind but payout_completed, and nobody else's |
| Ledger.AccruedAppend | backend/src/seller/services/balance_service.py:37-51 | accruals of every kind and corrections move total_accrued by their amount; no payout row does |
| Books.HoldsMatchAmount | backend/src/payout_request/service.py:122-130 | the hold rows of a request sum to minus its amount, one per creation or change; one completion row iff paid, one reversal row iff rejected, each for the exact amount |
| Books.NoticesFormChain | backend/src/payout_request/service.py:218-265 | the amount_changed rows of a request form an unbroken chain from the amount it was created with to its current amount, one per hold row after the first, each a real change |
| Books.BalanceRefinesTable | backend/src/seller/services/balance_service.py:111-119 | the SQL fold over the ledger equals totals computed from the payout table: available, on_hold, total_paid_out and total_accrued |
| Books.LedgerSumNonNegativeIff | backend/src/seller/services/balance_service.py:10-12 | the sum of all rows of a seller is non-negative iff total_paid_out is at most available |
| Books.OnHoldIsPendingIff | backend/src/seller/services/balance_service.py:54-62 | on_hold is the amount in pending requests iff no request of the seller is paid or rejected |
| Books.DecideFits | backend/src/payout_request/service.py:85-130 | whatever a successful call writes, its ledger row and notice fit the change it makes to the payout row |
| Books.FitsKeepsBooks | backend/src/payout_request/service.py:202-252 | committing a fitting write set keeps ledger, payout table and notices in agreement |
| Books.PerformKeepsBooks | backend/src/payout_request/service.py:57-328 | every one of the four calls, run alone on a database whose books agree, leaves one whose books agree |
| Books.ExternalKeepsBooks | backend/src/seller/services/balance_service.py:28-51 | accrual and correction rows written elsewhere keep the books, whatever their sign |
| PayoutSafety.CommitIsSerial | backend/src/payout_request/service.py:85-130 | at its commit point an interleaved call writes exactly what it would have written running alone on the committed database at that moment |
| PayoutSafety.FailureIsSerial | backend/src/payout_request/service.py:90-111 | a call that fails does so with the error it would have given running alone at that moment |
| PayoutSafety.LowersOnlyUnderLock | backend/src/payout_request/service.py:207-252 | a commit that lowers a seller's available holds that seller's lock and leaves available non-negative, whatever it was before |
| PayoutSafety.LockedBalanceIsStill | backend/migrations/alembic/versions/0001_initial.py:370-376 | while a call holds a seller's lock, nobody else's commit moves that seller's balance |
| PayoutSafety.OthersKept | backend/src/payout_request/service.py:207-228 | another call's commit does not disturb what a call has locked and read: what it has staged is still what it would decide now |
| PayoutSafety.CommitKeepsInv | backend/src/payout_request/service.py:88-130 | every commit of every call keeps the whole protocol invariant |
| PayoutSafety.CreditKeepsInv | backend/src/receipt/handlers/api/v1/router.py:880-902 | an outside transaction may insert an accrual or correction of any sign at any point of any interleaving |
| PayoutSafety.SettleKeepsInv | backend/src/receipt/handlers/api/v1/router.py:880-902 | and commit it at any later point |
| PayoutSafety.EventKeepsInv | backend/src/payout_request/service.py:57-328 | every small step, abort, accrual, correction, new seller and status move keeps the invariant, with no assumption on balances |
| PayoutSafety.RunsKeepInv | backend/src/payout_request/service.py:57-328 | so does every schedule of any number of transactions |
| PayoutSafety.EventKeepsSolvent | backend/src/payout_request/service.py:85-130 | no event overdraws anyone except a correction its seller cannot afford when it commits |
| PayoutTheorems.NeverOverdrawn | backend/src/payout_request/service.py:85-130 | in every interleaving with non-negative accruals and corrections, every seller's committed available is non-negative |
| PayoutTheorems.CreditIsSafeIff | backend/src/receipt/handlers/api/v1/router.py:1229-1265 | a correction about to commit is harmless in every future with affordable corrections iff its seller can afford it now |
| PayoutTheorems.SolventThroughoutIff | backend/src/payout_request/service.py:85-130 | a run leaves every seller solvent at each of its points iff each correction in it was affordable when it committed, however calls and corrections interleave |
| PayoutTheorems.AffordableInsertsCanOverdraw | backend/src/receipt/handlers/api/v1/router.py:1229-1265 | a run in which two corrections are each affordable when inserted and overdraw together when both commit |
| PayoutTheorems.NegativeCorrectionCanOverdraw | backend/src/receipt/handlers/api/v1/router.py:1229-1265 | a run from the empty database: earn 100, cash out 100, have the bonus reversed, and available is -100 |
| PayoutTheorems.PaidRequestBreaksComments | backend/src/seller/services/balance_service.py:10-12 | a run from the empty database: earn 100, cash out 100, get paid; the sum of all rows is -100 and on_hold is 100 with nothing pending |
| PayoutTheorems.RunAlone | backend/src/payout_request/service.py:57-328 | from a quiet state every call that the atomic specification lets succeed has a schedule that commits it, with the same result |
| PayoutTheorems.LedgerMirrorsPayouts | backend/src/payout_request/service.py:153-181 | after any run the holds of each request sum to minus its amount, with its completion row iff paid and its reversal row iff rejected |
| PayoutTheorems.NoticesChainInRuns | backend/src/payout_request/service.py:218-265 | after any run, aborted updates included, the notices of each request form the unbroken chain of its committed changes |
| PayoutTheorems.AccruedIsCredited | backend/src/seller/services/balance_service.py:37-51 | over every run total_accrued grows by exactly the accruals and corrections committed from outside; no payout call ever moves it |
| PayoutTheorems.BalanceRefinesTableInRuns | backend/src/seller/services/balance_service.py:111-119 | conservation: after any run every kopeck credited is available or in a request that was not rejected; on_hold and total_paid_out are the totals of all and of paid requests |
| PayoutTheorems.PaidWhereAsked | backend/src/payout_request/service.py:93-130 | after any run every request was made by a committed create for its seller and kind, and is to be paid to the account that create named, or to the seller's own if it named none; no later call redirects it |
| PayoutTheorems.FinalIsForever | backend/src/payout_request/service.py:153-181 | a paid or rejected request never changes again in any continuation |
| PayoutTheorems.EventIsSerial | backend/src/payout_request/service.py:85-130 | replaying the committed effect of one event gives the database the event left |
| PayoutTheorems.RunsAreSerializable | backend/src/payout_request/service.py:57-328 | every interleaving leaves the database of its committed calls run one at a time in commit order, all of which succeed |
| PayoutTheorems.DeadlockFree | backend/src/payout_request/service.py:207-228 | in every reachable state, from any unfinished call one reaches, along holders of request locks, seller locks and foreign-key locks, a call that can step or an outside row that can commit |
| PayoutTheorems.EveryCallCanFinish | backend/src/payout_request/service.py:207-228 | from every reachable state the calls already begun and the outside rows already inserted can all finish by their own steps and commits |
| PayoutService.Session.CreatePayoutRequest | backend/src/payout_request/service.py:57-138 | field by field: a new request for this seller, brand, amount and kind, to the named account or else the seller's own, with its hold row; which error and exactly when; a repeated key returns the cached answer and changes nothing; agrees with the atomic specification and keeps the books |
| PayoutService.Session.ApprovePayoutRequest | backend/src/payout_request/service.py:141-185 | field by field the paid request and its completion row; a paid one is returned as it is, a rejected one refused; agrees with the atomic specification |
| PayoutService.Session.UpdatePayoutRequest | backend/src/payout_request/service.py:188-281 | field by field the edited request; on a change of amount the hold row for the difference and the seller's notice, otherwise neither; only an increase needs the balance; agrees with the atomic specification |
| PayoutService.Session.RejectPayoutRequest | backend/src/payout_request/service.py:284-328 | field by field the rejected request and its reversal row; a rejected one is returned as it is, a paid one refused; agrees with the atomic specification |
| Outbox.RetryBudget | backend/src/notification/outbox.py:34-42 | over any life of a row: at most four scheduled retries, at most five attempts besides 429s, backoff index at most 3, at most 156 minutes of backoff |
| Outbox.LifeGoesOn | backend/src/notification/outbox.py:145-204 | status and attempts of the row after an attempt are those its history of verdicts dictates |
| Outbox.RateLimitNeverKills | backend/src/notification/worker.py:133-152 | a 429 adds one attempt and leaves the row pending; the next ordinary failure kills it iff three or more attempts had been counted before |
| Outbox.FailureDelays | backend/src/notification/outbox.py:160-195 | after the first four ordinary failures a row waits 60, 300, 1800 and 7200 seconds; the fifth kills it; message and time of sending stay |
| Outbox.ClientErrors | backend/src/notification/worker.py:133-175 | a 429 postpones by its retry_after, or 60 seconds; any other 4xx kills at once |
| Outbox.Successes | backend/src/notification/worker.py:184-211 | every other attempt sends the row; in the app with one notification of the template's own type for the row's recipient |
| OutboxSafety.NoRowHeldTwice | backend/src/notification/outbox.py:112-126 | two live batches never hold one row, nor one batch the same row twice |
| OutboxSafety.PostsOfBatch | backend/src/notification/worker.py:119-131 | a batch posts at most once per row, only for rows it has finished, and iff Telegram accepted the message, whatever the worker saw |
| OutboxSafety.SentIffPosted | backend/src/notification/worker.py:119-182 | when a batch commits, a Telegram row is sent iff its message was accepted and the worker saw it |
| OutboxSafety.CommitKeepsInv | backend/src/notification/worker.py:273-290 | a batch commit keeps the agreement of rows, histories, notifications and posts, and what other batches have loaded |
| OutboxSafety.EventKeepsInv | backend/src/notification/worker.py:273-290 | so does every enqueue, drain, attempt, commit, rollback and passing of time |
| OutboxSafety.RunsKeepInv | backend/src/notification/worker.py:223-290 | so does every interleaving of workers |
| OutboxSafety.TelegramDelivery | backend/src/notification/worker.py:119-182 | over every run, messages accepted for a row are its committed send, those in flight, those lost to rollbacks and those taken for failures; a sent row was delivered at least once, and exactly once iff nothing was lost or missed |
| OutboxSafety.ExactlyOnceWithoutRollback | backend/src/notification/worker.py:119-182 | when no batch rolls back and no accepted message is reported as a failure, a sent row was delivered exactly once |
| OutboxSafety.LostReplySendsTwice | backend/src/notification/worker.py:105-109 | a run without rollbacks in which a sent row was delivered twice, because one reply was lost |
| OutboxSafety.InAppExactlyOnce | backend/src/notification/worker.py:184-215 | over every run, crashes included, an in-app row has exactly its one notification iff it is sent |
| OutboxSafety.RetryBudgetInRuns | backend/src/notification/outbox.py:160-195 | over every run, attempts is the number of recorded failures and the retry budget holds |
| OutboxSafety.FinalIsForever | backend/src/notification/outbox.py:112-126 | sent and dead rows never change again |
| OutboxSafety.NoRowHeldTwiceInRuns | backend/src/notification/outbox.py:112-126 | over every run no row is in two live batches |
| OutboxSafety.BatchesAreSmall | backend/src/notification/worker.py:273-280 | no batch ever holds more than fifty rows |
| OutboxDelays.DelaysAreReal | backend/src/notification/outbox.py:160-195 | over every run the table holds what a row's last attempt left, each attempt starts from what the one before left, and the waits its retries wrote add up to its history's backoff, at most 9360 seconds |
| OutboxDelays.DueAgain | backend/src/notification/outbox.py:112-126 | after a non-final failure at time t the row is due exactly from t plus its delay on |
| OutboxWorker.Transaction.Enqueue | backend/src/notification/outbox.py:50-93 | the step the protocol takes: a fresh key, a row that has lived through nothing, due exactly from the given time or from now on, and no other row touched |
| OutboxWorker.Transaction.MarkFailedRow | backend/src/notification/outbox.py:145-204 | the row is due again after 60, 300, 1800 or 7200 seconds by its attempts so far, or dead on the fifth; the table is never read out of range |
| OutboxWorker.Transaction.ProcessRow | backend/src/notification/worker.py:111-215 | one row's update, notification and post are exactly those of the attempt the protocol records |
| OutboxWorker.Transaction.DrainCycle | backend/src/notification/worker.py:273-290 | a whole batch has exactly the effects the protocol's commit applies |
| ReceiptPackages.ValidateStructure | backend/src/receipt/service.py:142-152 | accepts iff there are one to five attachments with positions 0..n-1 once each; which error a bad package gets |
| ReceiptPackages.SortedPositionsAreIndices | backend/src/receipt/service.py:71-74 | accepted attachments, sorted, are numbered by their index, so the primary one has position 0 |
| ReceiptPackages.EventKeepsInv | backend/src/receipt/service.py:108-139 | every step, crash and soft delete keeps: no two receipts, pending inserts, or receipt and pending insert share a submission |
| ReceiptPackages.OneRowPerSubmission | backend/migrations/alembic/versions/0005_receipt_attachments.py:106-114 | over every run, soft deletes and crashes included, at most one row per seller and key |
| ReceiptPackages.SameRowOneCreator | backend/src/receipt/service.py:108-139 | all callers of one submission that return get the same row, and at most one is told it created it |
| ReceiptPackages.RaisesIff | backend/src/receipt/service.py:126-139 | after losing the race a caller raises iff its key is the empty string or the winning row is soft-deleted |
| ReceiptPackages.SecondSubmissionRaises | backend/src/receipt/service.py:126-139 | both cases are reached from the empty database, for every seller and key, even without a race |
| ReceiptPackages.NobodyRaises | backend/src/receipt/service.py:126-139 | without soft deletes and with a non-empty key nobody ever sees the constraint error |
| ReceiptPackages.ReceiptStore.CreateReceiptPackage | backend/src/receipt/service.py:54-139 | a new key gets exactly one new row of this seller and caller, a known one its own live row and no write, an invalid package nothing; a lone call ends as the protocol's lone caller does |
| Money.RoundTripIff | backend/src/notification/formatting.py:17-29 | reading a printed amount gives it back iff it is non-negative or whole roubles |
| Money.PrintedShape | backend/src/notification/formatting.py:17-29 | character by character: a minus sign in front iff negative, one comma before the last two digits iff there are kopecks, digits everywhere else |
| Money.FormatIsInjective | backend/src/notification/formatting.py:17-29 | no two amounts, of any sign, print alike |
| Money.ParseSumIsFloor | backend/src/receipt_ocr/qr_parser.py:106-120 | on digits, a dot or comma, and a fraction of any length the sum is the floor of 100 times the value |
| Text.PyIntOnlyOfDigits | backend/src/receipt_ocr/qr_parser.py:106-120 | what reads as a number is one optional sign and digits, with that value |
| Text.StripsBlanks | backend/src/receipt_ocr/qr_parser.py:106-120 | blanks, tabs and line ends around a text are ignored, and nothing inside it |
| QrCodes.QsRoundTrip | backend/src/receipt_ocr/qr_parser.py:47-103 | taking a joined query string apart gives back exactly its pairs, in order |
| QrCodes.QrRoundTrip | backend/src/receipt_ocr/qr_parser.py:47-103 | a cleanly spelled code is judged by its own fields alone, whatever their order and whatever else it carries |
| QrCodes.FiscalQrRoundTrip | backend/src/receipt_ocr/qr_parser.py:47-103 | a fiscal QR code written out from its fields parses to exactly those fields, the sum to the kopeck |
| QrCodes.MissingKeysIff | backend/src/receipt_ocr/qr_parser.py:70-76 | a text is refused for missing keys iff some required key has no non-empty value in it |
| QrCodes.ErrorsIff | backend/src/receipt_ocr/qr_parser.py:78-94 | with all keys there: which of sum, date and operation is reported, and exactly when; the operation is 1 if not given |
| QrCodes.NoQueryIff | backend/src/receipt_ocr/qr_parser.py:62-68 | a text has no query string iff it is an https address without a question mark |
| QrCodes.PiecesRead | backend/src/receipt_ocr/qr_parser.py:70-72 | a name without '=' or value is dropped, and plus signs are blanks |
| QrCodes.UrlPrefixIsIgnored | backend/src/receipt_ocr/qr_parser.py:47-103 | wrapping a query string in a full URL does not change what is read |
| Identities.SeparatorsAreInvisible | backend/src/receipt_ocr/fiscal_identity.py:26-33 | separators inserted anywhere in a component do not change its normal form |
| Identities.NormalizeIsIdempotent | backend/src/receipt_ocr/fiscal_identity.py:45-56 | a normalised identity normalises to itself |
| Identities.CanonicalIsKept | backend/src/receipt_ocr/fiscal_identity.py:23-33 | digits and capital letters stay exactly as they are |
| Identities.NumericTripleIsItsIdentity | backend/src/receipt_ocr/fiscal_identity.py:45-56 | every triple of digit strings is its own identity, so two share one iff they are equal |
| Identities.CaseIsInvisible | backend/src/receipt_ocr/fiscal_identity.py:26-33 | texts that differ only in the case of letters normalise alike |
| Identities.LostIff | backend/src/receipt_ocr/fiscal_identity.py:26-33 | a component is lost iff it has no ASCII digit and no ASCII letter |
| Identities.ConfidentIff | backend/src/receipt_ocr/fiscal_identity.py:45-56 | a triple is confident iff none of its components is missing or lost |
| Identities.AggregateIdentities | backend/src/receipt_pipeline/identity_aggregator.py:52-76 | raises iff some text overflows the calendar; otherwise one candidate per source in order, and every distinct identity that some source yields exactly once, in first-seen order |
| Identities.AggregateIsRight | backend/src/receipt_pipeline/identity_aggregator.py:52-76 | the aggregation as a function of the sources has those properties for all sources |
| Identities.DecisionIgnoresOrderAndRepeats | backend/src/receipt_pipeline/identity_aggregator.py:34-42 | permuting, repeating or relabelling sources changes neither the decision nor the primary identity |
| Identities.PrimaryReparses | backend/src/receipt_pipeline/identity_aggregator.py:44-48 | with a single identity raw_for finds a text, it parses again, and it yields that identity |
| Identities.RawForIsFirst | backend/src/receipt_pipeline/identity_aggregator.py:44-48 | raw_for is the earliest text that yielded the identity |
| BonusRules.FlatPerItemBonus | backend/src/bonus_engine/rule_interpreter.py:80-92 | the loop gives the positive amount times the number of matching items |
| BonusRules.BySkuBonus | backend/src/bonus_engine/rule_interpreter.py:95-108 | the loop gives the sum of the per-SKU bonuses over the items |
| BonusRules.QuantityTierBonus | backend/src/bonus_engine/rule_interpreter.py:111-134 | sorting and scanning the tiers gives the best bonus among the tiers reached by the matching quantity |
| BonusRules.BestTier | backend/src/bonus_engine/rule_interpreter.py:111-134 | the tier value is at least every reached tier's bonus and is zero or one of them |
| BonusRules.SortTiersAscends | backend/src/bonus_engine/rule_interpreter.py:118 | the tiers are scanned by ascending quantity |
| BonusRules.TierOrderIrrelevant | backend/src/bonus_engine/rule_interpreter.py:111-134 | the tier value does not depend on the order of the tiers |
| BonusRules.TierMonotone | backend/src/bonus_engine/rule_interpreter.py:111-134 | more quantity never earns less |
| BonusRules.ItemNeverLowersRule | backend/src/bonus_engine/rule_interpreter.py:72-134 | an item of non-negative quantity never lowers a rule whose per-SKU bonuses are non-negative |
| BonusEngine.SortIsStable | backend/src/bonus_engine/engine.py:48-50 | the promotions are ordered by descending priority, equal priorities in their given order |
| BonusEngine.StableOrderIsUnique | backend/src/bonus_engine/engine.py:48-50 | there is only one such order |
| BonusEngine.InterpretRule | backend/src/bonus_engine/rule_interpreter.py:37-69 | each kind of rule is worth what `BonusLaws` says of it, unknown kinds nothing |
| BonusLaws.FlatPerReceiptIsFlat | backend/src/bonus_engine/rule_interpreter.py:72-77 | one amount, whatever is on the receipt and however many came before; nothing if negative |
| BonusLaws.FlatPerItemCounts | backend/src/bonus_engine/rule_interpreter.py:80-92 | the amount times the number of positions whose SKU is listed |
| BonusLaws.FlatPerItemIgnoresOrder | backend/src/bonus_engine/rule_interpreter.py:80-92 | and it does not depend on the order of the items |
| BonusLaws.BySkuItem | backend/src/bonus_engine/rule_interpreter.py:95-108 | one more item adds exactly the bonus listed under the decimal of its SKU |
| BonusLaws.BySkuIgnoresOrder | backend/src/bonus_engine/rule_interpreter.py:95-108 | the sum depends only on which items there are |
| BonusLaws.KeyReadsBack | backend/src/bonus_engine/rule_interpreter.py:95-108 | that decimal reads back as the SKU and has no leading zero |
| BonusLaws.KeysDiffer | backend/src/bonus_engine/rule_interpreter.py:95-108 | so different SKUs never share a listing |
| BonusLaws.TierQuantity | backend/src/bonus_engine/rule_interpreter.py:111-134 | the quantity compared with the tiers adds up the listed SKUs' items only |
| BonusLaws.TierRulePaysBest | backend/src/bonus_engine/rule_interpreter.py:111-134 | the rule pays the best reached tier, or nothing |
| BonusLaws.FirstNPaysN | backend/src/bonus_engine/rule_interpreter.py:137-153 | over the first m receipts the rule pays the amount min(n, m) times |
| BonusEngine.ApplyPromotion | backend/src/bonus_engine/engine.py:53-75 | appends exactly the positive rule amounts in rule order and reports their sum |
| BonusEngine.CalculateBonus | backend/src/bonus_engine/engine.py:30-85 | the breakdown is the positive rule amounts over the stable order up to and including the first non-stackable promotion that earned something; the total is its sum |
| BonusTheorems.ResultIsUnique | backend/src/bonus_engine/engine.py:30-85 | that specification admits exactly one result |
| BonusTheorems.PermutationInvariant | backend/src/bonus_engine/engine.py:48-50 | with distinct priorities the result does not depend on the order promotions are passed in |
| BonusTheorems.StackableTotal | backend/src/bonus_engine/engine.py:53-82 | with only stackable promotions the total is the sum of all positive rule values, in any order |
| BonusTheorems.ItemNeverLowersTotal | backend/src/bonus_engine/engine.py:53-82 | then one more item never lowers the total, given non-negative quantity and per-SKU bonuses |
| BonusLaws.EntriesAreRules | backend/src/bonus_engine/engine.py:58-75 | a promotion's entries are exactly its positive rule values, each under its own number |
| BonusLaws.EntriesAreOrdered | backend/src/bonus_engine/engine.py:58-75 | in rule order, none repeated |
| BonusLaws.StopsIff | backend/src/bonus_engine/engine.py:73-82 | a promotion ends the chain iff it is not stackable and some rule of it pays |
| BonusLaws.WholeChainCounts | backend/src/bonus_engine/engine.py:53-82 | if nothing ends the chain every promotion's entries count |
| BonusLaws.ChainEndsThere | backend/src/bonus_engine/engine.py:53-82 | otherwise everything up to the first that ends it counts, and what follows is as if absent |
| BonusLaws.ExclusiveShutsOutLower | backend/src/bonus_engine/engine.py:48-50 | an exclusive promotion that pays shuts out one of lower priority, in whichever order they are listed |
| OfdClient.GetReceipt | backend/src/ofd_client/proverkacheka.py:131-205 | the attempt loop equals the recursive run, makes between one and max(1, m) posts, and never reaches the raise after it |
| OfdClient.StopsAtFirstAnswer | backend/src/ofd_client/proverkacheka.py:131-205 | every post before the last asked for a retry, and the loop stops short only at an answer that settles it |
| OfdClient.LastPostDecides | backend/src/ofd_client/proverkacheka.py:131-205 | which answer each last post gives; only 429s, server errors and lost connections are tried again |
| OfdClient.WaitBetweenPosts | backend/src/ofd_client/proverkacheka.py:168-201 | between posts: Retry-After if positive, else the doubling delay |
| OfdClient.BackoffDoubles | backend/src/ofd_client/proverkacheka.py:368-370 | delays start at one second, double, and are sixty seconds from the seventh attempt on |
| OfdClient.SleepIsBounded | backend/src/ofd_client/proverkacheka.py:131-205 | a call sleeps at most a minute between posts unless Retry-After asks for more |
| OfdClient.FetchWithRetry | backend/src/receipt_pipeline/orchestrator.py:542-646 | result, number of calls and time slept for every setting and outcome; the delay list is never read out of range |
| OfdClient.FetchIsBounded | backend/src/receipt_pipeline/orchestrator.py:70-83 | at most max(0, n) calls, none after the first success or not-found, at most 4n-9 seconds of sleep (1 for n = 2, else 0); unavailable iff nothing settled it |
| OfdClient.FetchIsExact | backend/src/receipt_pipeline/orchestrator.py:542-646 | the last call's answer is the fetch's; exactly 1, 2, 4, 4, ... seconds lie between calls |
| OfdClient.AttemptsAsSet | backend/src/receipt_pipeline/orchestrator.py:70-83 | as many attempts as the setting says, three if unset or unreadable |
| OfdClient.PostsAreBounded | backend/src/ofd_client/proverkacheka.py:131-205 | both loops together send at most n * max(1, m) posts |
| OfdCache.KeyIsUnambiguousIff | backend/src/ofd_client/cache.py:20-21 | for every triple: no other triple has its key iff none of fn, fd, fp contains a colon |
| OfdCache.CacheKeyIsInjective | backend/src/ofd_client/cache.py:20-21 | no triple at all shares the key of a colon-free one |
| OfdCache.ColonsCollide | backend/src/ofd_client/cache.py:20-21 | every triple with a colon in any component shares its key with another triple |
| OfdCache.KeySplits | backend/src/ofd_client/cache.py:20-21 | a colon-free key splits back into the prefix and fn, fd, fp in this order |
| OfdCache.LatestIsOwn | backend/src/ofd_client/cache.py:111-131 | what is stored under a colon-free triple's key is the last receipt stored for that triple itself |
| OfdCache.InMemoryOfdCache.Get | backend/src/ofd_client/cache.py:114-119 | returns the receipt of the last set under this key since the last clear, and nothing if there was none |
| OfdCache.InMemoryOfdCache.Set | backend/src/ofd_client/cache.py:121-131 | a later get of this triple returns the receipt; of any other triple it returns what it would have, if either is colon-free |
| OfdCache.HitsAreGenuine | backend/src/receipt_pipeline/orchestrator.py:527-535 | over any run, for any triples: a hit makes no client call and returns an answer the provider gave earlier under this key, for a colon-free triple its own; a failed fetch leaves the store alone |
| OfdCache.HitsAreGenuineIff | backend/src/receipt_pipeline/orchestrator.py:527-535 | every hit on a triple, in every run, is the provider's answer for exactly that triple iff the triple has no colon |
| Storage.ChunksPartitionData | backend/src/receipt_ocr/storage.py:290-318 | the pieces join to the data, all but the last are exactly one chunk, the last is never empty |
| Storage.ChunkCount | backend/src/receipt_ocr/storage.py:290-318 | there are ceil(length / chunk) of them |
| Storage.S3Object.SaveMultipart | backend/src/receipt_ocr/storage.py:282-334 | whatever the key held: exactly the parts numbered 1, 2, ... are completed and join to the data, or the key is untouched; a started upload that fails is aborted once; succeeds iff every remote call is answered |
| Storage.S3Object.Save | backend/src/receipt_ocr/storage.py:257-280 | multipart exactly above the threshold, then in at least two parts; the key ends with the whole data or with what it held, also when only an answer is lost |
| Storage.S3UriRoundTrip | backend/src/receipt_ocr/storage.py:494-507 | building and parsing s3:// addresses are inverse both ways |
| Storage.UriErrorsIff | backend/src/receipt_ocr/storage.py:494-507 | which texts are no S3 address, and which have no key |
| ReceiptStatus.ProcessingIsReachable | backend/src/receipt_pipeline/state_machine.py:28-67 | the system may take a receipt into processing iff it is not terminal; from there it may hand over to review; only rejected and paid_out have no exits |
| ReceiptStatus.WhoDecides | backend/src/receipt_pipeline/state_machine.py:28-48 | sellers change nothing; from review only an admin decides; the system approves or rejects only while processing and pays out only what was approved |
| ReceiptStatus.NextStatuses | backend/src/receipt_pipeline/state_machine.py:61-67 | for every status and actor, exactly the statuses that may follow |
| Pipeline.CollectFile | backend/src/receipt_pipeline/orchestrator.py:244-268 | an image's texts stand under its attachment and each page's under that page, in order and nothing else; raises iff a page or the image does |
| Pipeline.CompletesIff | backend/src/receipt_pipeline/orchestrator.py:181-190 | full mode writes its result iff nothing is suspicious, the OFD data arrives, sums agree, some item matches or there is none, no database statement raises and the run is not cut on the way |
| Pipeline.UndisturbedStores | backend/src/receipt_pipeline/orchestrator.py:120-212 | a run that is not cut and meets no database error leaves its result, whatever else raises |
| Pipeline.CollectSources | backend/src/receipt_pipeline/orchestrator.py:240-275 | every text there is to read stands under its own label exactly as read, and nothing else does; scanned code first, then files by position and pages by number; the legacy file only when there is nothing else; raises iff some extraction does |
| Pipeline.SourcesAreOffered | backend/src/receipt_pipeline/orchestrator.py:240-275 | a text is among the sources iff it is scanned, in an image, on a page, or in a used legacy file |
| Pipeline.CollectsIff | backend/src/receipt_pipeline/orchestrator.py:240-298 | collection completes iff nothing it reads raises and no text overflows the calendar |
| Pipeline.SingleIdentityIff | backend/src/receipt_pipeline/orchestrator.py:276-298 | the single identity is found iff the texts there are to read yield it and no other |
| Pipeline.DecisionIff | backend/src/receipt_pipeline/orchestrator.py:164-171 | several receipts are decided iff two texts stand for different identities, none iff no text has one |
| Pipeline.Run.StepSetStatus | backend/src/receipt_pipeline/orchestrator.py:439-462 | no write on the same status, a step error exactly off the table, otherwise one write that is not yet committed, unless the run is cut or the statement raises |
| Pipeline.Run.CollectCandidates | backend/src/receipt_pipeline/orchestrator.py:276-298 | unless cut, completes iff no extraction raises and no date overflows; then the parsed code is that of the single identity's first text whenever there is one, and is empty otherwise |
| Pipeline.Run.StepFraudEarly | backend/src/receipt_pipeline/orchestrator.py:464-511 | the first check that is not clear decides, a hit and a raise told apart for each; a hit leaves its one signal |
| Pipeline.Run.StepOfdFetch | backend/src/receipt_pipeline/orchestrator.py:519-658 | a cached receipt costs no call and is the answer; otherwise result, calls and each failure are those of the bounded fetch; nothing is asked without a parsed code |
| Pipeline.Run.StepVerifyQrVsOfd | backend/src/receipt_pipeline/orchestrator.py:670-692 | fails iff the sums differ by more than one kopeck and more than one percent of the OFD sum, with that one signal |
| Pipeline.SumsAgreeIff | backend/src/receipt_pipeline/orchestrator.py:670-692 | in integers: they agree iff the QR sum lies within a hundredth of the OFD sum, rounded down, or one kopeck |
| Pipeline.Run.StepSkuMatch | backend/src/receipt_pipeline/orchestrator.py:694-741 | every OFD item with its own match; fails iff there are items and none matches |
| Pipeline.Run.StepBonusCalc | backend/src/receipt_pipeline/orchestrator.py:743-786 | the suggested bonus is the engine's unique result for the matched items |
| Pipeline.Run.Finish | backend/src/receipt_pipeline/orchestrator.py:893-945 | every column: what was recognised overwrites verbatim, OFD before QR, the rest stays; the reason is recorded; nothing at all happens in an aborted transaction |
| Pipeline.Run.HistoricalDuplicates | backend/src/receipt_pipeline/orchestrator.py:396-415 | one signal each for a triple and a file seen before; raises iff a lookup does |
| Pipeline.Run.FinalizeDemo | backend/src/receipt_pipeline/orchestrator.py:304-329 | recognised columns, no bonus, no reason, a demo marker and the duplicate signals; writes nothing iff it is cut, a lookup raises or the write is refused |
| Pipeline.CheckFiles | backend/src/receipt_pipeline/orchestrator.py:409-414 | the first attachment whose check is not clear decides, and later ones are not looked at |
| Pipeline.Run.FinalizeMultiple | backend/src/receipt_pipeline/orchestrator.py:331-394 | only status, reason, signals and bonus change; when the defensive branch is taken |
| Pipeline.Run.FinalizeReview | backend/src/receipt_pipeline/orchestrator.py:788-855 | every column of a completed run, and nothing when it is cut, the read raises or the write is refused |
| Pipeline.Run.QrSteps | backend/src/receipt_pipeline/orchestrator.py:182-184 | checks, fetch and comparison: the result and the OFD data for every world and parsed code |
| Pipeline.Run.FullMode | backend/src/receipt_pipeline/orchestrator.py:181-190 | its result for every world and every parsed code, step error by step error; only a completed run writes, and then with the engine's bonus |
| Pipeline.Run.ProcessSingle | backend/src/receipt_pipeline/orchestrator.py:171-212 | every exit that leaves a result, handlers included, ends on review with the triple verbatim; signals, reason and bonus are those of the step that ended the run |
| Pipeline.Run.Process | backend/src/receipt_pipeline/orchestrator.py:120-212 | for every world: a terminal receipt is untouched; any other ends on review by system edges only iff the run is not cut before its last commit and no database statement it gets to raises, which a caller can read off start status, scanned code and world; otherwise its row is exactly what it was; if the texts there are to read yield one identity every exit stores it; with two the triple stays, the provider is not asked and the receipt carries that one signal; the defensive branch is unreachable |
| Pipeline.Run.ProcessTwice | backend/src/receipt_pipeline/orchestrator.py:120-212 | run again in any other world, the receipt ends on review iff one of the runs leaves a result, and is otherwise what it was |

## Left out

- PayoutService.Session.CreatePayoutRequest: the cached answer is always stored. In the code the Redis write follows the commit and may fail, and a later retry with the same key then creates a second request.
- Two payout creates with the same Idempotency-Key at once, and the 24 h lifetime of a cached answer: check and set are not atomic in the code, so `PayoutService.Session` models calls one after the other.
- The status in_progress is written by no service code; the protocol has it as an outside event (`Progress`).
- Deletion of sellers or requests, edits and blocking of sellers after joining, and any write to payout rows by other code.
- The admin handlers that approve, reject or re-price a receipt: only their ledger rows appear, of any sign, each inserted (`Credit`) and later committed or rolled back (`Settle`, `Withdraw`) by a transaction of its own.
- Foreign keys other than that of ledger rows to sellers; lock timeouts appear only as aborts.
- Texts of last_error, template rendering, logs, metrics, audit log, brand checks and field validation of request schemas beyond positive amounts.
- The order of a batch and whether it is full: the drain query is an enabling condition, and any distinct due rows that nobody holds may be returned.
- Two pipeline workers on one receipt, a receipt row that vanishes during a run, and a failure to load it: the code checks for a terminal status only at the start, and a load that raises leaves `process` before its handlers.
- The evidence JSON (ocr_raw, detected identities, per-attachment rows) and the rejection_code column.
- Receipt attachment columns (MIME type, hash, size, storage address) beyond the position; attachments of a run are given in position order.
- Percent-decoding of query strings and date parsing are arbitrary functions (`QrCodes.Library`); re-serialising the time for the OFD request is not modelled.
- int() accepts underscores, Unicode digits and Unicode spaces; `Text.PyInt` covers ASCII, with sign and surrounding spaces.
- format_kopecks of values that are not integers; int() and str() of more than 4300 digits, which raise in CPython.
- Fuzzy SKU matching and the fraud queries are arbitrary answers; rules with missing or ill-typed JSON fields are not modelled.
- Column widths: an amount too large for its integer column raises on the write (`finalWrite` in the pipeline, an abort in the payout protocol).
- Floats (quantities, Retry-After, tolerance) are exact reals.
- HTTP, Redis, PDF rendering, QR extraction and S3 are arbitrary outcomes; the fields of an OFD response, object keys, hashes, presigned addresses and the local file store are not modelled.
- Exceptions out of the matcher or the bonus engine, which ill-typed promotion rules could cause; the handler then acts as after any other exception.
- OutboxWorker.Transaction.DrainCycle: takes the drained rows as an argument, because the query is PostgreSQL's; it covers a batch that runs to its end, and a crash part-way is the protocol's Rollback event.
- Routers, JWT, middleware, migrations other than the unique index, the Telegram bot, seeds, the cleanup script and the frontend.
