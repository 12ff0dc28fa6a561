# Juno Pay Server: the payment ledger and what surrounds it

A payment server keeps invoices, the deposits a chain scanner reports for them, an event log for
each invoice, an outbox of those events with one delivery for each sink, and review cases. The
project models this ledger as the in-memory store runs it, every call being one step under one
mutex, and proves what holds in every state that any sequence of calls can reach: scan events with
their redeliveries and reorganisations, confirmation passes that iterate over maps in any order,
and the calls of the API.

The ledger exists twice here. `Ledger` gives every call as a function from state to state; all laws
over whole runs are proved about it. `MemStore.Store` is the store itself, a class with the store's
maps, counters and loops; each method is proved to be the ledger's step. Calls that iterate over a
map take their order, or the choice the iteration makes, as part of the call (`Ledger.Enabled`), so
the laws hold for every order. The clock is a parameter of each call.

Around the ledger stand the ingestor's polling pass, the outbox worker, the SQL store on its
database with its rewriting of query texts, the containers of unified viewing keys and addresses, the
pagers and the live stream of the API, and the handler that creates invoices.

| files | what they hold |
|---|---|
| `text`, `domain`, `sums`, `cursors` | strings and composite keys, domain values, 64-bit sums, cursors over ordered lists |
| `ledger`, `runs`, `frames`, `witnesses` | the ledger's calls as functions, runs of calls, what each call leaves alone, runs to where laws end |
| `accounts`, `attribution`, `confirmation`, `conservation`, `statuses` | sums, attribution and indexes, confirmation passes, conservation, statuses |
| `setup_calls` | settings, wallets, refunds, closed cases and sinks as the calls that made them |
| `reports` | what each report of the scanner makes of a deposit |
| `events`, `emissions`, `history`, `logs`, `reviews` | outbox, deliveries, logs and review cases over whole runs |
| `announcements`, `review_sources` | what every entry of a log and every review case means, and that none is missing |
| `mem_store`, `mem_pages`, `paging` | the in-memory store, its lists, paging and the live tail |
| `ingest`, `ingest_sync`, `sync_store`, `wallets` | exactly-once effect of scan events, the polling pass, what it leaves in the store |
| `backoff`, `outbox_worker` | retry delays and the outbox worker |
| `invoice_api`, `api_handler`, `retries`, `address_use` | creating invoices through the API, retries, addresses |
| `sql_ledger`, `sql_database`, `sql_store` | the SQL accounting, the calls on the whole database, the SQL store |
| `sql_sums` | exactly when the SQL sums are right, over whole runs |
| `sql_refinement`, `sql_runs`, `sql_retries` | the database beside the ledger over whole runs, and retries on it |
| `sql_text`, `sql_rebind`, `sql_prefix` | renaming identifiers and numbering placeholders in query texts |
| `tlv`, `zip316` | typed items and their containers (ZIP 316, section "Encoding of Unified Addresses") |

## Where the code does not do what one may expect

Each of these is stated exactly, with the condition under which the expectation holds.

- The stored sums of an invoice wrap at 64 bits: a stored sum is the true one if and only if the
  true one fits (`Conservation.StoredSumsExact`); two payments are enough to leave that range
  (`Witnesses.SumsCanOverflow`). The books balance if and only if both sums of every invoice fit
  (`Conservation.BooksBalance`), and modulo 2^64 always (`Conservation.ConservationInWords`).
- The SQL store recomputes the invoice an event matches, not the one stored on the deposit. Its
  sums stay right if and only if these are the same, the deposit has no invoice yet, or the event
  does not change what the deposit is worth (`SqlSums.SqlStepKeepsSums`, over whole runs at any
  times `SqlSums.SqlSumsOverRun`); a run that ends with a payment orphaned at a height below its
  invoice's start breaks them (`Witnesses.OrphanMissed`).
- Otherwise the SQL store does what the in-memory store does, log and review cases included, as
  long as times are whole seconds, sums fit in 64 bits, wallets have one merchant, orders name a
  known one, and no case has been closed whose repetition the unique indexes then refuse
  (`SqlRuns.TameStep`, `SqlRuns.SqlStoreIsMemStore`). A repeated order for the same amount but
  another wallet or address is the one request that it answers differently
  (`SqlRuns.CreationAnswers`; `Witnesses.AnswersDiffer` is such a request). Since the handler derives
  a new address for each try, every retry of an order is refused there (`SqlRetries.RetriesConflict`).
- A report may move a confirmed deposit to another height without taking its confirmation back
  (`Reports.ReportWritten`), so the confirmations a deposit has had are those at the height recorded
  when it was confirmed (`Confirmation.ConfirmationSafety`).
- A time to live is multiplied in 64 bits of nanoseconds: an invoice expires when the merchant's
  settings say if and only if that product fits (`InvoiceApi.NewInvoiceTerms`).
- Retry delays lie one second to one minute ahead if and only if at most 35 attempts are allowed;
  up to 1000 can be configured, the delay after attempt 35 is negative, and from attempt 56 on it
  is zero (`BackoffDelay.RetriesAhead`, `BackoffWraps`, `BackoffVanishes`).
- The status shown is the one that recomputing would give, at any reading of the clock, if and only
  if the invoice is not one paid in time and read after its expiry, not an expired or late one read
  before its expiry, and not an open one whose sums have wrapped around to zero
  (`Statuses.ShownIsRecomputed`; `ReadingDoesNotMarkLate`, `ClockMustNotGoBack` and
  `WrappedStaysOpen` are such readings).
- A polling pass stops at an event whose payload does not parse, and so does every later pass: the
  cursor of that wallet never moves again (`IngestSync.StuckPass`, `IngestSync.StuckForever`). The
  wallets listed after it get nothing in that pass (`IngestSync.Sync`).
- A known order is answered again if and only if its amount is the same and its token was stored
  (`InvoiceApi.KnownOrder`; over interleaved calls `Retries.RetryOverRun`); a run that stops
  between the creation of an invoice and the storing of its token leads to a refused retry
  (`Witnesses.RetryCanBeRefused`).
- The page after the last one carries cursor zero, so a reader that adopts it starts over
  (`Paging.EmptyPageStartsOver`).
- Deposits of two wallets can share a key if and only if one wallet id followed by a bar begins the
  other (`Text.DepositKeysClash`, for the address index `Text.AddressKeysClash`); deposits of one
  wallet never do (`Text.KeysOfOneWallet`).
- Decoding a container panics, instead of failing, exactly when a human-readable part of more than
  16 bytes is expected and the text carries it with enough bytes (`Zip316.PanicsExactly`); any text
  made with such a part does so (`Zip316.LongPartPanics`).

## Model

| member | source | states |
|---|---|---|
| Accounts.LedgerAgreement | internal/store/mem.go:1068-1204 | in every reachable state the pending and confirmed sums of every invoice are the (64-bit) sums of its deposits by status, and every attributed deposit names an existing invoice |
| Accounts.ApplyDepositKeepsAgreement | internal/store/mem.go:1094-1180 | a deposit event, first or repeated, keeps that agreement although only one invoice is recomputed |
| Accounts.ConfirmPassKeepsAgreement | internal/store/mem.go:628-669 | a confirmation pass keeps it for every iteration order, although the sums lag behind inside the pass |
| Accounts.SharesAfterPut | internal/store/mem.go:1189-1201 | how one written deposit moves the two sums of any invoice |
| Accounts.SumsTell | internal/store/mem.go:1189-1201 | only its own invoice counts a deposit: confirmed in the confirmed sum, detected or unconfirmed in the pending sum, orphaned in neither |
| Attribution.IndexesAreSearches | internal/store/mem.go:390-432 | in every reachable state both lookup indexes find every invoice under its own key and nothing else |
| Attribution.LookupIsSearch | internal/store/mem.go:446-461 | a lookup through such an index is a search through all invoices, with at most one answer |
| Attribution.TermsStep | internal/store/mem.go:1183-1209 | no call changes anything of an invoice but its sums, its status and its time of change, and only a creation adds one |
| Attribution.AttributedOnce | internal/store/mem.go:1141-1143 | from any moment of a run on, no deposit is lost and an attributed one keeps its invoice |
| Attribution.AttributingStep | internal/store/mem.go:1082-1091 | the call that attributes a deposit is a scan event, and the deposit then meets the invoice's wallet, address and starting height |
| Attribution.AttributionHasCause | internal/store/mem.go:1068-1145 | every attributed deposit of a reachable state has such a moment in its past |
| Attribution.PaymentFindsItsInvoice | internal/store/mem.go:1082-1142 | after an acceptable new event its deposit belongs to an invoice if and only if it did before or, having none, pays for it now |
| Attribution.MatchPays | internal/domain/domain.go:157-159 | matching an event finds the one invoice it is payable to, if there is one |
| Reports.ReportWritten | internal/store/mem.go:578-616 | exactly which events write a deposit, and what they leave: unconfirmed and orphaned reports take a confirmation back with its height, other reports keep a confirmed deposit confirmed and make any other one detected; amount, height and address are the payload's, and no other deposit changes |
| Reports.IndexIsWord | internal/store/mem.go:588-608 | different 32-bit action indexes are different deposits |
| Reports.DepositIsAsReported | internal/store/mem.go:1094-1145 | after any run a deposit is as its last report says, but that a pass may have confirmed a detected one |
| Reports.TakenBackIsWorthless | internal/store/mem.go:1123-1139 | after any run a deposit last reported unconfirmed or orphaned adds nothing to any confirmed sum, and an orphaned one nothing to any pending sum |
| Reports.SqlRowReported | internal/store/sqlstore/sqlstore.go:2575-2643 | the row the SQL store writes for a report is the same, its times in whole seconds |
| Confirmation.PassIsOneUpdate | internal/store/mem.go:622-670 | for any iteration order the deposits and invoices after a pass are one declarative map update, and nothing but the event and review tables is touched besides |
| Confirmation.PassIsComplete | internal/store/mem.go:634-653 | after a pass no attributed detected deposit has, at that height or a lower one, the confirmations its invoice asks for |
| Confirmation.PassConfirmsExactly | internal/store/mem.go:634-653 | a pass confirms exactly the attributed detected deposits with as many confirmations as their invoice asks for, at least one, with the height at which that was, and leaves every other one as it was |
| Confirmation.SecondPassIsIdentity | internal/store/mem.go:622-670 | a second pass at the same or a lower height changes nothing at all |
| Confirmation.ConfirmationSafety | internal/store/mem.go:634-653 | in every reachable state a deposit is confirmed if and only if its confirmed height is set, and then it is attributed and some pass found it detected with as many confirmations as its invoice asks for, which the confirmed height records |
| Conservation.EveryAmountOnce | internal/store/mem.go:1189-1201 | amounts held by invoices, unclaimed amounts and orphaned amounts partition the total of all deposits |
| Conservation.BooksBalance | internal/store/mem.go:1094-1204 | in every reachable state the sums stored on the invoices, the unclaimed and the orphaned amounts make up the total of all deposits if and only if both sums of every invoice fit in 64 bits |
| Conservation.ConservationOfAmounts | internal/store/mem.go:1094-1204 | so they do while the total fits in 64 bits |
| Conservation.ConservationInWords | internal/store/mem.go:1094-1204 | and modulo 2^64 they always do |
| Conservation.StoredSumsExact | internal/store/mem.go:1195-1198 | a stored sum equals the true sum if and only if the true sum fits in 64 bits |
| Witnesses.SumsCanOverflow | internal/store/mem.go:1188-1201 | a run of the calls in which the sum of one invoice leaves 64 bits and is stored as a negative number |
| Statuses.StatusTellsDeposits | internal/store/mem.go:1236-1259 | in every reachable state the status says exactly how the deposits compare with the amount (nothing, partly, pending, paid, overpaid) |
| Statuses.StatusesFresh | internal/store/mem.go:1203-1209 | in every reachable state the stored status is the one computed at the last update, or open if there was none |
| Statuses.LazyExpirySound | internal/api/api.go:677-682 | an invoice that received nothing is shown, at any reading of the clock, as recomputing would have it if and only if it is not an expired one read before its expiry, which no reading from its last update on is |
| Statuses.ShownIsRecomputed | internal/api/api.go:677-682 | for every invoice and every reading of the clock, exactly when the shown status is the recomputed one |
| Statuses.ClockMustNotGoBack | internal/api/api.go:677-682 | an invoice for which the part of that condition about early readings fails |
| Statuses.ReadingDoesNotMarkLate | internal/api/api.go:677-682 | an invoice for which the part about late payments fails |
| Statuses.WrappedStaysOpen | internal/api/api.go:677-682 | an invoice for which the part about wrapped sums fails |
| Statuses.ShownOverRun | internal/api/api.go:677-682 | in every reachable state whose total fits in 64 bits the shown status, from the last update on, is the recomputed one unless a payment in time would turn late |
| EventTables.ProjectMembers | internal/store/mem.go:1299-1313 | the log of an invoice holds the events of that invoice in the outbox and no others |
| Emissions.StepSays | internal/store/mem.go:1173-1233 | which events each call records, for all calls |
| Announcements.EntryHasSource | internal/store/mem.go:1173-1233 | every new entry of a log tells what its call did: the creation, the report, the confirmation or the refund it names, or the move into the status it announces, with the time of that |
| Announcements.EntryHadSource | internal/store/mem.go:1261-1314 | over any run every entry has such a call |
| Announcements.AnnouncedWasSo | internal/store/mem.go:1211-1219 | over any run an invoice that is announced as paid, overpaid or expired has been so |
| Announcements.EveryDepositIsNamed | internal/store/mem.go:1266-1277 | in every reachable state each detected deposit of an invoice has a detection of its own in the log, and each confirmed one a confirmation and a detection of its own |
| Announcements.EveryRefundIsNamed | internal/store/mem.go:823-908 | in every reachable state each refund of an invoice is in its log, as requested or as sent |
| History.OutboxIsMerge | internal/store/mem.go:1261-1368 | in every reachable state the n-th outbox entry has event id n and its invoice's merchant, and every log is its share of the outbox in order |
| History.DeliveriesComplete | internal/store/mem.go:1370-1387 | in every reachable state the pairs of events and sinks that have a delivery are exactly those whose merchants match and whose sink was there before the event (that no pair has two is the part `Distinct` of the store's invariant, kept by `MemStore.Store.FanOut`) |
| InvoiceLogs.LogsAlwaysKept | internal/store/mem.go:1261-1314 | the invariant over runs from which the next three follow |
| InvoiceLogs.CreationFirstAndOnce | internal/store/mem.go:434-434 | each log starts with its only creation event and its ids strictly increase |
| InvoiceLogs.NothingTwice | internal/store/mem.go:1266-1293 | no event is recorded twice per type and deposit, per type and refund, or per plain type, and a confirmation follows the detection of the same deposit |
| InvoiceLogs.StatusIsWitnessed | internal/store/mem.go:1211-1219 | paid, late, overpaid and expired invoices have the event that says so in their log |
| ReviewCases.OneOpenCase | internal/store/mem.go:1032-1044 | in every reachable state at most one open case covers the same merchant, reason and invoice, or the same deposit with a transaction id |
| ReviewCases.ReviewIsWitnessed | internal/store/mem.go:1221-1233 | overpaid invoices under manual review and partly confirmed ones under rejection have a review case |
| ReviewCases.LatePaymentIsReviewed | internal/store/mem.go:1227-1232 | an invoice that a call finds paid exactly, but after expiry and under manual review, has a case for it |
| ReviewSources.CaseHasSource | internal/store/mem.go:1026-1066 | every new review case is open and tells what its call did: the move of an invoice into a status under that policy, or the report of a deposit of the merchant's wallet that no invoice has |
| ReviewSources.ReasonLeavesCase | internal/store/mem.go:1221-1233 | a call that moves an invoice into such a status leaves an open case for it |
| ReviewSources.UnclaimedLeavesCase | internal/store/mem.go:1147-1163 | a report of a deposit that no invoice has leaves an open case for a merchant with its wallet, if there is one |
| ReviewCases.StepOpens | internal/store/mem.go:1026-1066 | which review cases each call asks for, for all calls |
| MemStore.Store.constructor | internal/store/mem.go:106-125 | a new store is the empty ledger |
| MemStore.Store.ApplyScanEvent | internal/store/mem.go:565-620 | the method is the ledger's scan step, with its result, for the owner the map iteration meets |
| MemStore.Store.ApplyDepositEvent | internal/store/mem.go:1068-1181 | the deposit part of it |
| MemStore.Store.WriteDeposit | internal/store/mem.go:1080-1145 | the deposit row written, new or updated |
| MemStore.Store.UpdateInvoiceConfirmations | internal/store/mem.go:622-670 | the method is the ledger's confirmation pass in the orders its maps yield |
| MemStore.Store.RecomputeInvoice | internal/store/mem.go:1183-1234 | the method is the ledger's recomputation, event and review case included |
| MemStore.Store.SumDeposits | internal/store/mem.go:1188-1201 | adding in 64 bits in any order gives the wrapped true sums |
| MemStore.Store.AppendInvoiceEvent | internal/store/mem.go:1261-1314 | an event is recorded and announced once |
| MemStore.Store.FanOut | internal/store/mem.go:1370-1387 | a new event gets one pending delivery for each active sink of its merchant |
| MemStore.Store.CreateReviewCase | internal/store/mem.go:1026-1066 | a case is opened unless an open one covers it |
| MemStore.Store.CreateInvoice | internal/store/mem.go:362-437 | the method is the ledger's creation, with its result |
| MemStore.Store.NextAddressIndex | internal/store/mem.go:231-250 | the method hands out the counter and advances it in 32 bits |
| MemStore.Store.CreateMerchant | internal/store/mem.go:127-152 | the method is the ledger's call |
| MemStore.Store.UpdateMerchantSettings | internal/store/mem.go:171-186 | the method is the ledger's call |
| MemStore.Store.SetMerchantWallet | internal/store/mem.go:188-222 | a wallet is set once, trimmed |
| MemStore.Store.PutInvoiceToken | internal/store/mem.go:518-535 | the method is the ledger's call |
| MemStore.Store.CreateRefund | internal/store/mem.go:823-908 | the method is the ledger's call, its event included |
| MemStore.Store.CloseReview | internal/store/mem.go:974-1024 | a case is resolved or rejected with its notes |
| MemStore.Store.CreateEventSink | internal/store/mem.go:1389-1433 | the method is the ledger's call |
| MemStore.Store.UpdateEventDelivery | internal/store/mem.go:1568-1588 | one delivery is replaced and no other changes |
| MemStore.Store.ListDueDeliveries | internal/store/mem.go:1520-1566 | up to the limit pending, due deliveries to active sinks, each once, and all of them when they are fewer |
| MemStore.Store.ScanCursor | internal/store/mem.go:555-563 | the cursor of a wallet, zero when there is none |
| MemStore.Store.ListMerchantWallets | internal/store/mem.go:545-553 | all wallets in any order |
| Text.DepositKeyInjective | internal/store/mem.go:1093-1093 | deposit keys of wallets whose ids do not overlap are equal only for the same wallet, transaction and index |
| Text.AddressKeyInjective | internal/store/mem.go:1082-1082 | the same for the keys of the address index |
| Text.DepositKeysClash | internal/store/mem.go:1093-1093 | two different wallets have deposits with the same key if and only if one id followed by a bar begins the other |
| Text.AddressKeysClash | internal/store/mem.go:1082-1082 | the same for the keys of the address index |
| Text.KeysOfOneWallet | internal/store/mem.go:1082-1093 | within one wallet both kinds of key determine what they are made of, whatever the id |
| Text.PlainKeysInjective | internal/store/mem.go:1082-1093 | keys of wallet ids without a bar determine all they are made of |
| Text.DepositKeyClash | internal/store/mem.go:1093-1093 | two overlapping ids, and the key their deposits share |
| Text.TrimCuts | internal/store/mem.go:362-372 | trimming cuts white space off both ends, all of it and nothing else |
| Text.DecimalReads | internal/store/sqlstore/rebind.go:8-46 | a number is printed in its digits without zeros in front |
| Ingest.OnlyRecordHighsCount | internal/store/mem.go:578-620 | the state after any calls is the state after the same calls without the scan events that are malformed or not above all earlier ones of their wallet |
| Ingest.CursorIsMaximum | internal/store/mem.go:578-613 | the cursor of a wallet never decreases and is the highest position told of it |
| Ingest.ExactlyOnce | internal/store/mem.go:578-620 | if events of an ordered log are delivered without gaps, however often, late or mixed with other calls, what takes effect is a stretch of the log, in order and each event once |
| IngestSync.SyncWallet | internal/ingest/ingest.go:41-76 | the loop over pages hands on the next entries of the log, all of them unless it is cut short or comes to an unreadable event |
| IngestSync.Sync | internal/ingest/ingest.go:34-79 | a pass does so for every wallet, in whatever order they are listed; it ends no later than at the first wallet that is stuck, and the wallets listed after the one where it ends get nothing |
| IngestSync.InterruptedPassesAreOne | internal/ingest/ingest.go:48-76 | passes cut short anywhere, over a growing log and with any other calls in between, together apply one stretch of the log, each event once, and all of it once a pass finishes |
| IngestSync.ManyPassesOneStore | internal/ingest/ingest.go:48-76 | when only one wallet's events are applied, and an event always with the same clock and owner, the store after them is the store after one uninterrupted pass |
| IngestSync.SyncsArePasses | internal/ingest/ingest.go:34-79 | what the method promises of each pass over all wallets, with calls of others in between, is what these statements about one wallet's passes ask for |
| IngestSync.SyncsAreOne | internal/ingest/ingest.go:34-79 | so for every wallet at once the passes apply one stretch of its log, each event once, and all of it once its log was finished |
| IngestSync.InterruptedLikeWhole | internal/ingest/ingest.go:34-79 | and each wallet has been told exactly what one whole pass tells it |
| SyncStore.ViewIsOwnEvents | internal/store/mem.go:1068-1181 | the invoices and cursor of a wallet, and its deposits but for their numbers, depend on the events of that wallet alone, whatever is told of others in between |
| SyncStore.SameEventsSameStore | internal/ingest/ingest.go:41-76 | so stores told the same of every wallet are the same but for those numbers, however the wallets took turns |
| SyncStore.InterruptedStoreLikeWhole | internal/ingest/ingest.go:34-79 | after passes cut short anywhere the store is that after one whole pass over all wallets, but for those numbers |
| SyncStore.AlwaysAtHome | internal/store/mem.go:1082-1091 | in every reachable state a deposit and its invoice have the same wallet |
| IngestSync.StuckPass | internal/ingest/ingest.go:61-66 | a pass that starts at an unreadable event takes nothing from that log, leaves its cursor and does not finish it |
| IngestSync.StuckForever | internal/ingest/ingest.go:61-66 | neither does any later pass, whatever the log has by then |
| Wallets.WalletsAlwaysTidy | internal/store/mem.go:188-222 | the wallet ids of every reachable store are trimmed and not empty |
| SetupCalls.SettingsAreLast | internal/store/mem.go:127-186 | in every reachable state a merchant has the settings of the last call that set them, allowed ones |
| SetupCalls.WalletsAreAsSet | internal/store/mem.go:188-222 | in every reachable state a wallet is as the one call that set it made it, trimmed |
| SetupCalls.WalletStep | internal/store/mem.go:188-222 | exactly when a wallet is set |
| SetupCalls.CloseStep | internal/store/mem.go:974-1024 | exactly when a case is closed, and what changes of it |
| SetupCalls.SinkStep | internal/store/mem.go:1389-1433 | exactly when a sink is made, and that it is active |
| SetupCalls.RefundStep | internal/store/mem.go:823-890 | exactly when a refund is made, and what is kept of it |
| BackoffDelay.BackoffDoubles | internal/outbox/outbox.go:180-190 | for attempts 1 to 34 the delay is the smaller of a doubling second and a minute |
| BackoffDelay.BackoffMonotone | internal/outbox/outbox.go:180-190 | in that range the delay never falls |
| BackoffDelay.BackoffWraps | internal/outbox/outbox.go:180-190 | at attempt 35 the shift wraps to a negative delay |
| BackoffDelay.BackoffVanishes | internal/outbox/outbox.go:180-190 | from attempt 56 on the delay is zero |
| BackoffDelay.RetriesAhead | internal/outbox/outbox.go:68-76 | all retries lie one second to one minute ahead if and only if at most 35 attempts are allowed |
| OutboxWorker.Worker.Sync | internal/outbox/outbox.go:113-151 | each due delivery of a batch, none before its retry time, gets one attempt and is left delivered, failed or pending as its sink answers; no other changes, and the batch is everything due when it is not full |
| OutboxWorker.Worker.Outcome | internal/outbox/outbox.go:125-147 | delivered exactly when the sink took the event, failed exactly when it refused and no attempt is left, else pending with its retry time; the attempt counted and the error kept |
| OutboxWorker.AttemptsAreCounted | internal/outbox/outbox.go:113-151 | over any run a delivery is delivered if and only if its sink took it once, failed after as many refusals as attempts are allowed, and else pending with its refusals as its attempts |
| OutboxWorker.Worker.WithMaxAttempts | internal/outbox/outbox.go:68-76 | 1 to 1000 attempts are accepted |
| OutboxWorker.Worker.WithBatchSize | internal/outbox/outbox.go:58-66 | batches of 1 to 1000 are accepted |
| OutboxWorker.PendingHasAttemptsLeft | internal/outbox/outbox.go:126-144 | in every reachable state each pending delivery has made fewer attempts than allowed |
| OutboxWorker.SettledForever | internal/outbox/outbox.go:113-151 | delivered and failed deliveries stay as they are from any moment of a run on |
| OutboxWorker.AttemptsEnd | internal/outbox/outbox.go:113-151 | the attempts left drop by at least the number of attempts made, so without new events only so many can follow |
| OutboxWorker.AttemptsOfRunBounded | internal/outbox/outbox.go:113-151 | a whole run makes at most the allowed number of attempts per delivery ever created |
| InvoiceApi.KnownOrder | internal/store/mem.go:390-405 | a known order is answered with its first invoice and token if and only if the amount is the same and the token was stored, else refused |
| InvoiceApi.UnknownOrder | internal/api/api.go:375-446 | an unknown order is answered with a new invoice if and only if its address is free and there is a token |
| InvoiceApi.NewInvoiceTerms | internal/api/api.go:375-416 | a new invoice has the merchant's settings of the moment, its wallet, the next address of that, the height of the tip, and expires as many seconds after the clock as the merchant set, if and only if that fits in 64 bits of nanoseconds |
| InvoiceApi.RefusedEarly | internal/api/api.go:338-395 | which requests are refused before they get to an order, and how |
| InvoiceApi.RetryReturnsFirst | internal/api/api.go:375-446 | handlers that run without interruption: a retry of an answered request, after any other calls, is answered with the same invoice on the same terms and the token stored then |
| Retries.RetryOverRun | internal/api/api.go:375-446 | whatever calls come before, between and after those of the two handlers: the retry's creation call finds the invoice, on the same terms, exactly when the amount is the same, and it is answered with the stored token exactly when the token was stored before its reading |
| Retries.TokenFrom | internal/store/mem.go:518-543 | along any run an invoice has its token from its one token call on and not before |
| Witnesses.RetryCanBeRefused | internal/api/api.go:416-446 | a run that ends before the token call, after which the retry is refused |
| InvoiceApi.HandlerIsCalls | internal/api/api.go:375-446 | an answering handler has made an index call, a creation call and, for a new invoice, a token call |
| InvoiceApi.AnswerIsForOrder | internal/api/api.go:345-446 | the answered invoice is for the merchant, order and amount of the request |
| InvoiceApi.AlwaysSound | internal/store/mem.go:127-222 | what these rest on holds in every reachable state |
| ApiHandler.HandleCreateInvoice | internal/api/api.go:320-453 | the handler on the in-memory store, with all its refusals |
| AddressUse.LaterIndexHigher | internal/store/mem.go:231-250 | indexes handed out to a merchant strictly increase while at most 2^32 are asked for |
| AddressUse.AddressesDiffer | internal/api/api.go:375-416 | under an injective derivation and wallets with one owner no two creation calls use the same address, however handlers interleave |
| AddressUse.NewOrderIsCreated | internal/store/mem.go:407-436 | a handler's new order never meets a taken address and is always created |
| SqlStore.SelectSums | internal/store/sqlstore/sqlstore.go:2736-2752 | the two sums of an invoice |
| SqlStore.RecomputeInvoice | internal/store/sqlstore/sqlstore.go:2720-2863 | sums, status and time of an invoice recomputed in a transaction with the event and the review case of a changed status, or failure when a sum does not fit |
| SqlStore.UpsertDeposit | internal/store/sqlstore/sqlstore.go:2564-2643 | the row updated column by column, or inserted |
| SqlStore.ApplyDepositEvent | internal/store/sqlstore/sqlstore.go:2474-2718 | the deposit step on the whole database: row, detection event, recomputed invoice, or the review case of the wallet's one merchant |
| SqlStore.Store.ApplyScanEvent | internal/store/sqlstore/sqlstore.go:1009-1085 | a scan event commits its whole step, events and review cases included, or nothing |
| SqlStore.Store.UpdateInvoiceConfirmations | internal/store/sqlstore/sqlstore.go:1087-1202 | for any order of rows and invoices a pass commits every confirmation, its events and all recomputations, or nothing |
| SqlStore.Store.CreateInvoice | internal/store/sqlstore/sqlstore.go:609-719 | an invoice inserted with its event unless a unique index refuses it, and then the order's own invoice or a conflict |
| SqlStore.Store.SetMerchantWallet | internal/store/sqlstore/sqlstore.go:338-392 | a wallet is set once, trimmed |
| SqlStore.Store.CreateRefund | internal/store/sqlstore/sqlstore.go:1420-1530 | a refund with its event, or the refusal |
| SqlStore.Store.CloseReviewCase | internal/store/sqlstore/sqlstore.go:1714-1770 | a case is closed with its notes unless a unique index refuses it |
| SqlDatabase.EventStored | internal/store/sqlstore/sqlstore.go:2260-2310 | an event is stored once per invoice, type and subject, its time in whole seconds |
| SqlDatabase.InvoiceStored | internal/store/sqlstore/sqlstore.go:634-677 | an invoice is stored with its block hash trimmed and its times in whole seconds |
| SqlDatabase.DepositCaseOnce | internal/store/sqlstore/dialect_postgres.go:138-138 | a deposit gets one case for a reason ever, even when that case was closed or is another merchant's |
| SqlDatabase.ClosedOnce | internal/store/sqlstore/dialect_postgres.go:137-137 | a case is closed unless another one of the same invoice and reason was closed in the same way |
| SqlRefinement.RefreshedAlike | internal/store/sqlstore/sqlstore.go:2865-2886 | in whole seconds both stores compute the same sums and status |
| SqlRefinement.MatchedAlike | internal/store/sqlstore/sqlstore.go:2546-2562 | the search through the rows matches the invoice the index matches |
| SqlRefinement.SqlExpiresByTheSecond | internal/store/sqlstore/sqlstore.go:2771-2772 | the SQL store finds an invoice expired never early and less than a second late |
| SqlSums.SqlStepKeepsSums | internal/store/sqlstore/sqlstore.go:1009-1085 | exactly when a scan event leaves every invoice of the database with the sums of its deposits |
| SqlSums.PassKeepsSums | internal/store/sqlstore/sqlstore.go:1087-1202 | a pass always does, in any order |
| SqlSums.SqlPassConfirmsExactly | internal/store/sqlstore/sqlstore.go:1103-1170 | the rows a pass confirms, and those it leaves |
| SqlSums.SqlSumsOverRun | internal/store/sqlstore/sqlstore.go:1009-1202 | over any run of any calls, at any times, the sums are right throughout if and only if every committed deposit event met that condition |
| Witnesses.OrphanMissed | internal/store/sqlstore/sqlstore.go:2559-2717 | a run of the database that ends with an orphaned payment still counted on its invoice |
| SqlRuns.SaidIsRecorded | internal/store/sqlstore/sqlstore.go:2260-2310 | the check before the insert and the unique indexes take exactly those events for repetitions that the in-memory log does |
| SqlRuns.BlockedIsCovered | internal/store/sqlstore/dialect_postgres.go:137-138 | the unique indexes of the review cases refuse a case exactly when an open one covers it, given that the deposit's earlier cases are open ones of the same merchant |
| SqlRuns.RecomputeAlike | internal/store/sqlstore/sqlstore.go:2720-2863 | recomputing an invoice leaves both stores with the same invoice, log and review cases |
| SqlRuns.SqlDepositIsMemDeposit | internal/store/sqlstore/sqlstore.go:2474-2718 | so does a tame deposit event |
| SqlRuns.SqlPassIsMemPass | internal/store/sqlstore/sqlstore.go:1087-1202 | so does a pass in any order, the SQL one with its extra condition on heights |
| SqlRuns.CreationAlike | internal/store/sqlstore/sqlstore.go:609-719 | so does a creation call, where unique indexes take the place of the lookups |
| SqlRuns.CreationAnswers | internal/store/sqlstore/sqlstore.go:698-719 | both stores answer a creation call alike except exactly for a known order with the same amount and another wallet or address |
| Witnesses.AnswersDiffer | internal/store/sqlstore/sqlstore.go:698-719 | a run after which the two stores answer a repeated order differently |
| SqlRetries.OtherAddressConflicts | internal/store/sqlstore/sqlstore.go:698-719 | the database refuses a known order at another address, whatever its amount |
| SqlRetries.RetriesConflict | internal/api/api.go:375-416 | under an injective derivation and wallets with one owner every later creation call for a created order is refused by the database, however handlers interleave |
| SqlRuns.SqlRunIsMemRun | internal/store/sqlstore/sqlstore.go:139-2863 | from equal contents on, every tame run of any calls leaves the database with the contents of the in-memory store |
| SqlRuns.SqlStoreIsMemStore | internal/store/sqlstore/sqlstore.go:139-2863 | in particular from an empty database and a new store on |
| SqlRuns.ReachableIsReady | internal/store/mem.go:1068-1204 | every reachable store whose expiries are whole seconds can be the start of such a run |
| SqlText.LexIsLexical | internal/store/sqlstore/sqlstore.go:3019-3056 | a text splits into tokens without loss |
| SqlText.LexOfText | internal/store/sqlstore/sqlstore.go:3019-3056 | reading back the text of a token list gives the list |
| SqlText.RewriteSqlIdents | internal/store/sqlstore/sqlstore.go:3009-3059 | the loop computes the text of the renamed tokens |
| SqlText.RewriterIsHomomorphism | internal/store/sqlstore/sqlstore.go:3009-3059 | the rewritten text reads as the renamed tokens, and all bytes between quotes are as before |
| SqlText.QuotationIsKept | internal/store/sqlstore/sqlstore.go:3009-3059 | a quotation, whatever is in it, is kept, and the text before and after it is rewritten on its own |
| SqlRebind.RebindDollar | internal/store/sqlstore/rebind.go:8-46 | the loop over characters computes the text of the numbered tokens of the trimmed query |
| SqlRebind.RebinderIsHomomorphism | internal/store/sqlstore/rebind.go:8-46 | the rebound text reads as those tokens |
| SqlRebind.PlaceholderNumbered | internal/store/sqlstore/rebind.go:8-46 | a placeholder gets the number after that of the placeholder before it, whatever stands around it |
| SqlRebind.NumberedFromOne | internal/store/sqlstore/rebind.go:8-46 | numbers start at one, and a query without placeholders is only trimmed |
| SqlRebind.RenamingCommutesWithRebinding | internal/store/sqlstore/sqlstore.go:2999-3007 | renaming and numbering commute, so every placeholder keeps its ordinal |
| SqlPrefix.ValidateIdent | internal/store/sqlstore/sqlstore.go:3069-3087 | accepted exactly the identifiers of at most 63 characters, after trimming |
| SqlPrefix.WithTablePrefix | internal/store/sqlstore/open.go:20-49 | which renaming a prefix stands for, and which prefixes are refused |
| SqlPrefix.PrefixLimitIsExact | internal/store/sqlstore/open.go:35-38 | twenty characters is exactly the limit under which every renamed identifier stays within 63 |
| SqlPrefix.PrefixOnlyRenames | internal/store/sqlstore/sqlstore.go:2999-3007 | a query sent with an accepted prefix differs in the names and in nothing else |
| Tlv.CompactRoundTrip | rust/keys/src/zip316.rs:56-104 | a printed size is read back, with what follows it |
| Tlv.CompactReprints | rust/keys/src/zip316.rs:56-104 | a size that was read is printed no longer, and as it was exactly when its form was the shortest |
| Tlv.CompactForms | rust/keys/src/zip316.rs:56-69 | the bytes of the four forms |
| Tlv.SmallItemOnWire | rust/keys/src/zip316.rs:153-161 | type code, length and value of an item, in that order |
| Tlv.WriteCompactSize | rust/keys/src/zip316.rs:56-69 | the size appended in its shortest form |
| Tlv.ReadCompactSize | rust/keys/src/zip316.rs:71-104 | the size read and the rest, or an error when bytes are missing |
| Tlv.EncodeItems | rust/keys/src/zip316.rs:153-161 | the loop prints all items |
| Tlv.DecodeItems | rust/keys/src/zip316.rs:172-190 | the loop ends and parses all items or fails |
| Tlv.ItemsRoundTrip | rust/keys/src/zip316.rs:153-190 | parsing printed items gives the items |
| Tlv.AcceptedReprints | rust/keys/src/zip316.rs:71-190 | an accepted payload is printed no longer, and as it was exactly when all its sizes were minimal |
| Zip316.PaddingExact | rust/keys/src/zip316.rs:114-149 | padding and stripping it are inverse both ways |
| Zip316.PaddedOnWire | rust/keys/src/zip316.rs:106-120 | the payload, the human-readable part, and zeros up to sixteen bytes after the payload |
| Zip316.EncodeTlvContainer | rust/keys/src/zip316.rs:106-161 | the container of a list of items, or the error |
| Zip316.RefusedToEncode | rust/keys/src/zip316.rs:106-112 | exactly which lengths are refused |
| Zip316.DecodeTlvContainer | rust/keys/src/zip316.rs:127-190 | the items of a container, the error, or the panic |
| Zip316.PanicsExactly | rust/keys/src/zip316.rs:127-151 | the inputs for which decoding panics instead of failing |
| Zip316.LongPartPanics | rust/keys/src/lib.rs:111-120 | every text made from enough bytes with a human-readable part of more than 16 bytes makes decoding under that part panic |
| Zip316.ContainerRoundTrip | rust/keys/src/zip316.rs:106-190 | an encoded container decodes to its items under its own human-readable part and is refused under any other |
| Zip316.AcceptedIsCanonical | rust/keys/src/zip316.rs:106-151 | an accepted text is what its payload encodes to, unless the payload is too short to be encoded |
| Paging.FollowedIsAll | internal/store/mem.go:463-516 | following the cursors from any start with any limits until an empty page collects every record above the start, in order and each once |
| Paging.EmptyPageStartsOver | internal/store/mem.go:729-742 | adopting the cursor of an empty page starts over |
| Paging.PageHolds | internal/store/mem.go:463-516 | how many records a page holds under which limit |
| Paging.TailSendsOnce | internal/api/api.go:597-617 | a stream over a growing log sends the events after its cursor, in order and each once, and moves on whenever there are some |
| Paging.Stream | internal/api/api.go:597-617 | the loop of the stream |
| MemPages.ListInvoices | internal/store/mem.go:463-516 | a page of the matching invoices in order of creation, against the full ordered list of them |
| MemPages.MatchListExists | internal/store/mem.go:463-516 | there is one ordered list of the matching invoices and no other, so pages are always pages of the same list |
| MemPages.ListInvoiceEvents | internal/store/mem.go:711-742 | a page of an invoice's log |
| MemPages.LogsOnlyGrow | internal/store/mem.go:1304-1311 | over any run a log only grows at its end |
| MemPages.StreamOfRun | internal/api/api.go:563-618 | a stream ticking at any moments of any run sends the events of its invoice after its cursor, in order and each once |

## Left out

- Heights, cursors and counters are unbounded integers; amounts are 64-bit sums, scanner indexes and address indexes are cut to 32 bits as in the code.
- Ids are natural numbers instead of formatted strings, zero standing for the empty one; composite string keys are tuples, which `Text.DepositKeyInjective` and `Text.AddressKeyInjective` justify while no wallet id followed by a bar begins another; ids that do overlap are not modelled as sharing a row.
- The order index of merchants, a map of maps, is one map with pairs as keys.
- One reading of the clock serves a whole call; the in-memory store reads it again when it recomputes an invoice or opens a case.
- Trimming and lower-casing treat ASCII only; payloads arrive parsed or as unreadable; an unknown late, partial or overpayment policy cannot be written down, so only the numeric checks of the settings are modelled.
- The branch of a deposit event that arrives as "confirmed" is never taken by the callers and is not modelled.
- API keys, scanner status, the times of the last scan event, the numbers and times of deliveries, the text of review notes and the order in which cases are listed.
- The lists of deposits, refunds, outbound events, deliveries and review cases: the pager is the one of `Paging`, only the filters differ.
- `IngestSync.Sync`: the scanner's log does not change during one pass, and its page cursor is the position of the last event of the page.
- `IngestSync.ManyPassesOneStore`: one wallet's events alone, for the very same store; for all wallets, and up to the numbers of deposits, it is `SyncStore.InterruptedStoreLikeWhole`, whose events are about their own wallets and read at times of their own.
- `OutboxWorker.Worker.Sync`: sending to webhooks and brokers is an arbitrary answer; calls of other clients of the store during a batch are not modelled.
- `InvoiceApi.RetryReturnsFirst`: derivation and chain tip must answer again, since the handler asks them before it looks the order up; retries are proved over the in-memory store, as the SQL store also compares the address and a retry derives a new one (`SqlRuns.CreationAnswers`).
- The outbox and deliveries of the SQL store, written beside each inserted event, its settings, tokens, address indexes and sinks, and its backfill of statuses at start-up, which records no events.
- `SqlRuns.SqlRunIsMemRun`: that a call outside `SqlRuns.TameStep` makes the stores differ is shown for orphaned payments and creation answers only.
- SQL drivers, dialects and save points: a transaction is one step on row maps, and hash columns are taken as injective.
- The document store, a near copy of the SQL accounting.
- f4jumble, bech32m and key derivation are parameters.
- HTTP routing, JSON, cookies, password hashing, token encryption and the user interfaces.
