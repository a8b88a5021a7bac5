# Books, stock and protocols of an ERP backend, verified in Dafny

This project models the accounting core of a multi-tenant ERP (double-entry ledger,
sales, purchasing, credit notes, stock, goods receipts), the outbox worker that
delivers its side effects, and four smaller units whose correctness is arithmetic or
protocol: refresh-token rotation, withholding-tax offsets, the tax groups sent to KRA,
and the hand-unrolled MD5 of the web client.

Money is whole cents, stock whole thousandths, rates hundredths of a percent. Rounding
is half up, written out as integer division.

## How the model is built

- `Tables.Database` holds one field per table. The service modules update those fields
  in place, statement by statement, and roll back when a call throws. Each service
  method is proved equal to a function on `Books` values (`Committed`), its contract says
  over the rows and account codes when it succeeds and what it writes (the `...Effects`
  modules), and
  `Organization.Perform`/`Serve` show that any list of calls is a `Books.Run`.
- Everything about runs is proved about those functions. `Invariant.Inv` says what each
  document has on the ledger as a function of its own row; `RunProof` shows that every
  command keeps it; `ControlAccounts`, `ReportedBalances`, `RoundTrip`, `Reports` and
  `Organization` draw the conclusions.
- `Outbox` gives every database call of every worker its own step and proves safety over
  all interleavings; `OutboxClaims` finds when claims are exclusive; `OutboxWorker` is one
  worker as a class whose statements are protocol steps, which may die between any two of
  its methods, with a termination proof.
- `Concurrency` interleaves the read and compare-and-set steps of concurrent payments and
  confirms of one invoice.
- `Md5Spec` is RFC 1321, sections 3.1 to 3.5; `Md5` is the unrolled program.

A run is *disciplined* when each issued credit note references an invoice that is released,
or one whose status the issue would not rewrite (`NoteProof.NoteGuard`). The service does
not check this; `NoteProof.IssueNoteExactly` shows the condition is exact and
`Counterexamples.NoteOnDraftConfirmsUnposted` gives a run that breaks it. Journal and
stock soundness, and the balance sheet, need no discipline.

Where code and documentation disagree the code is modelled:

- The outbox worker's header comment says concurrent workers never process the same row
  twice. The re-read after a claim does not tell who flipped a row, so two overlapping
  claims can both keep it (`OutboxClaims.OverlappingClaimsShareARow`);
  `OutboxClaims.RunSharesExactly` says exactly which runs keep rows exclusive.
- Reversing an entry marks it REVERSED while the reports count POSTED entries only, so a
  reversal does not cancel in the reports: it moves a balance by minus twice the entry
  (`ReportedBalances.ReversalMovesReports`, `Counterexamples.ReversalDetachesReceivable`).
  `ReportedBalances` says exactly when the control accounts still match their reports.
- Posting never looks at whether an account is active while the reports list active
  accounts only, so the balance sheet can be off by what sits on hidden accounts
  (`Counterexamples.InactiveAccountUnbalances`). `Reports.BalanceSheet` states the gap.
- Over-receipt is checked line by line, so two lines of one receipt for the same order line
  can exceed the order together (`Receipts.RepeatedLineOverReceives`);
  `Receipts.ConfirmStaysWithin` gives the exact condition.

## Model

| member | source | states |
|---|---|---|
| Money.RoundDivUnique | src/common/helpers/money.ts:8-10 | half-up rounding is the one integer within the half-open half unit |
| Money.LineIsPriced | src/modules/sales/sales.service.ts:107-116 | quantity times price, then the percentage off, then the tax are each the half-up cent value; the flat discount comes off between |
| Money.TotalsTieOut | src/modules/sales/sales.service.ts:219-225 | total = subtotal - discount + tax exactly in cents, and n lines stay within 2.5n cents of the unrounded value |
| Journal.PostAccepts | src/modules/accounting/ledger.service.ts:77-123 | post accepts a new source exactly when every line is one-sided on the chart and debits equal credits; a repeated source changes nothing |
| Journal.AppendKeeps | src/modules/accounting/ledger.service.ts:125-150 | an accepted entry keeps the journal balanced, its sources unique and its reversals paired |
| Journal.ReverseKeeps | src/modules/accounting/accounting.service.ts:346-397 | exactly the posted entries that are not reversals can be reversed, once; the lines of the mirror cancel those of the original on every account |
| Journal.ReversalsPairUp | src/modules/accounting/accounting.service.ts:369-393 | an entry is REVERSED iff exactly one reversal points at it, that reversal is never reversed, and the lines of the pair cancel account by account |
| Stock.DispatchMeaning | src/modules/sales/sales.service.ts:346-377 | a sale can be dispatched iff every item covers the document's total demand over all lines; the shelf then holds exactly that much less and the cost is the sum of the line costs |
| Stock.RestockMeaning | src/modules/sales/sales.service.ts:464-487 | goods back add exactly the total demand and are valued at current cost; on-hand still equals the sum of movements |
| Stock.WithdrawMeaning | src/modules/purchasing/purchasing.service.ts:385-413 | a voided purchase takes back the total demand clamped once at zero per item, however many lines name it |
| Stock.DispatchThenRestock | src/modules/sales/sales.service.ts:346-487 | dispatching and restocking the same lines restores every quantity and the same cost |
| StockEffects.DispatchEffect | src/modules/sales/sales.service.ts:346-377 | succeeds iff every item covers what the lines name of it; every item and its movement sum drop by that, new movements are SALE_OUT of the sale, and the cost is the half-up cents of quantity times buy price, nothing for an item without one |
| StockEffects.RestockEffect | src/modules/sales/sales.service.ts:464-487 | every item and its movement sum rise by what the lines name of it, at the same cost in cents |
| StockEffects.WithdrawEffect | src/modules/purchasing/purchasing.service.ts:385-413 | every item drops by what the lines name of it or to nothing, and its movement sum with it |
| LedgerService.PostEntry | src/modules/accounting/ledger.service.ts:52-150 | the loop over lines refuses at the first offending line, refuses an imbalance, else appends the entry once |
| LedgerService.PostAutomatic | src/modules/accounting/ledger.service.ts:154-370 | an automatic posting commits the entry or leaves the tables as they were |
| LedgerService.PostCostLines | src/modules/accounting/ledger.service.ts:177-219 | nothing is booked for a cost that is not positive |
| AccountingService.ChangeAccount | src/modules/accounting/accounting.service.ts:135-180 | an account is switched off exactly when no line was ever booked to it, and no change of an account strands a journal line on an inactive or missing account |
| AccountingService.DeleteAccount | src/modules/accounting/accounting.service.ts:182-202 | an account is deleted exactly when no line was ever booked to it; its code then is off the chart and every journal line stays on it |
| Chart.RemovedTakesNoPosting | src/modules/accounting/accounting.service.ts:182-202 | after an account is deleted every entry with a line on its code is refused |
| AccountingService.AddEntry | src/modules/accounting/accounting.service.ts:273-316 | exactly lines on active accounts, one-sided and balanced, are taken; the entry is a draft of the given date |
| Chart.DraftDoes | src/modules/accounting/accounting.service.ts:273-316 | a manual entry is taken iff every line is on an active account with exactly one positive side and debits equal credits; it is stored as a draft of its date |
| AccountingService.Approve | src/modules/accounting/accounting.service.ts:318-339 | exactly drafts are approved, nothing but the status of that entry changes, and an entry that could not be reversed on any date now can |
| Chart.ApprovalMeaning | src/modules/accounting/accounting.service.ts:318-339 | approval moves every reported balance whose window holds the entry by exactly its lines, and makes the entry reversible |
| AccountingService.ReversePosted | src/modules/accounting/accounting.service.ts:346-397 | exactly posted entries that reverse nothing are reversed: the original is marked and a posted entry of the given date swaps the sides of each line, both or neither |
| Chart.ReverseDoes | src/modules/accounting/accounting.service.ts:346-397 | the rows of the journal after a reversal, line by line |
| StockLoops.TakeOut | src/modules/sales/sales.service.ts:346-377 | the in-place loop stops at the first shortage and otherwise is the dispatch whose meaning is proved |
| StockLoops.PutBack | src/modules/purchasing/purchasing.service.ts:308-332 | the in-place loop is the restocking whose meaning is proved |
| StockLoops.TakeBack | src/modules/purchasing/purchasing.service.ts:385-413 | the in-place loop is the clamped withdrawal whose meaning is proved |
| SalesService.CreateDraft | src/modules/sales/sales.service.ts:168-269 | succeeds exactly for a party that may buy and live items; the new row is unpaid and unposted, its lines are the requested ones priced half up, its totals are the sums over them, and the whole invariant is kept |
| SalesService.ConfirmInvoice | src/modules/sales/sales.service.ts:275-434 | confirms exactly the drafts within the credit limit, in stock and postable; goods, status, the invoice entry and the cost entry in cents commit together or not at all |
| SalesService.VoidInvoice | src/modules/sales/sales.service.ts:440-549 | the row becomes VOID and no other invoice changes; a released sale also gets its goods back and each of its entries reversed, all together or not at all |
| SalesService.UnwindPayments | src/modules/sales/sales.service.ts:528-545 | every payment of the invoice, and no other, is reversed on the ledger |
| SalesService.RecordPayment | src/modules/sales/sales.service.ts:588-651 | payment row, balance up by the amount, PAID once it reaches the total, and cash against receivable commit together or not at all |
| SalesEffects.ConfirmDoes | src/modules/sales/sales.service.ts:275-434 | under the invariant: exact condition, rows and entries of a confirm, and the sale nets on 5100 to the half-up cents of its tracked lines at their buy prices |
| SalesEffects.VoidDoes | src/modules/sales/sales.service.ts:440-549 | under the invariant: exact condition, rows and entries of a void, and 5100 and 1300 move back by the cents at the buy prices of that moment |
| SalesEffects.PayDoes | src/modules/sales/sales.service.ts:588-651 | under the invariant: exact condition, rows and entry of a payment |
| PurchasingService.CreateDraft | src/modules/purchasing/purchasing.service.ts:162-268 | the same for a party that may sell |
| PurchasingService.ConfirmInvoice | src/modules/purchasing/purchasing.service.ts:274-360 | confirms exactly the postable drafts; goods on the shelf, status and entry commit together or not at all |
| PurchasingService.VoidInvoice | src/modules/purchasing/purchasing.service.ts:366-456 | the row becomes VOID and no other invoice changes; a released purchase also gives back what is left of its goods and each of its entries is reversed, all together or not at all |
| PurchasingService.RecordPayment | src/modules/purchasing/purchasing.service.ts:496-557 | payment row, balance up by the amount, PAID once it reaches the total, and payable against cash commit together or not at all |
| PurchaseEffects.ConfirmDoes | src/modules/purchasing/purchasing.service.ts:274-360 | under the invariant: exact condition, rows, shelf and entry of a confirm |
| PurchaseEffects.VoidDoes | src/modules/purchasing/purchasing.service.ts:366-456 | under the invariant: every purchase not void yet can be voided; rows, shelf and entries of a void |
| PurchaseEffects.PayDoes | src/modules/purchasing/purchasing.service.ts:496-557 | under the invariant: exact condition, rows and entry of a payment |
| CreditNotesService.CreateDraft | src/modules/credit-notes/credit-notes.service.ts:151-270 | succeeds exactly when the note is alone or references an invoice of the same party that is not void; its lines are the requested ones priced half up, its totals are the sums over them, and the whole invariant is kept |
| CreditNotesService.Issue | src/modules/credit-notes/credit-notes.service.ts:276-420 | the referenced invoice has the credit taken off what was paid, down to nothing, with the status that leaves, and no other invoice changes; goods back, note status and entry commit with it or not at all |
| NoteEffects.IssueWrites | src/modules/credit-notes/credit-notes.service.ts:320-357 | in any books a successful issue writes exactly these rows of notes and invoices |
| NoteEffects.IssueDoes | src/modules/credit-notes/credit-notes.service.ts:276-420 | under the invariant: exact condition, rows, shelf and entry of an issue |
| CreditLaw.EveryRunCovered | src/modules/credit-notes/credit-notes.service.ts:334-357 | after every run, disciplined or not, what an invoice records as paid is at least its payment rows less its issued notes |
| CreditNotesService.Cancel | src/modules/credit-notes/credit-notes.service.ts:426-464 | exactly drafts are cancelled; a cancelled note has nothing on the ledger, cannot be issued, and the whole invariant is kept |
| Drafts.DecidedNotesStay | src/modules/credit-notes/credit-notes.service.ts:276-464 | an issued or cancelled note is never touched again by any later calls |
| InventoryService.Adjust | src/modules/inventory/inventory.service.ts:238-285 | succeeds exactly for a live item, a change and a result that is not negative; on-hand and the sum of movements both move by the change, for that item only |
| GoodsReceiptsService.Confirm | src/modules/goods-receipts/goods-receipts.service.ts:171-289 | confirms exactly the drafts whose lines all pass; every tracked item and its movement sum rise by what the receipt delivers of it, every order line by what it delivers against it |
| ReceiptEffects.ConfirmDoes | src/modules/goods-receipts/goods-receipts.service.ts:171-289 | the same about the tables: exact condition, items, movements, order lines and the receipt row |
| GoodsReceiptsService.Cancel | src/modules/goods-receipts/goods-receipts.service.ts:295-327 | exactly drafts are cancelled; a cancelled receipt has moved no stock and cannot be confirmed |
| Drafts.DecidedReceiptsStay | src/modules/goods-receipts/goods-receipts.service.ts:171-327 | a confirmed or cancelled receipt is never touched again by any later calls, so it is received at most once |
| Receipts.ReceiveMeaning | src/modules/goods-receipts/goods-receipts.service.ts:258-262 | each order line rises by exactly what the receipt delivers against it |
| Receipts.ConfirmStaysWithin | src/modules/goods-receipts/goods-receipts.service.ts:208-228 | confirming leaves every order line within its order iff the receipt's lines fit together |
| Receipts.NeverOverReceived | src/modules/goods-receipts/goods-receipts.service.ts:208-262 | over every run whose receipts name each order line once, no order line is over-received |
| Receipts.RepeatedLineOverReceives | src/modules/goods-receipts/goods-receipts.service.ts:208-228 | two lines for one order line pass the check and exceed the order |
| Invariant.Assemble | src/modules/sales/sales.service.ts:275-651 | documents a step does not touch keep their ledger footprint |
| SalesProof.ConfirmSaleKeeps | src/modules/sales/sales.service.ts:275-434 | confirming keeps ledger, stock and document rows in agreement |
| SalesProof.PaySaleKeeps | src/modules/sales/sales.service.ts:588-651 | paying keeps them in agreement |
| SalesProof.VoidSaleKeeps | src/modules/sales/sales.service.ts:440-549 | voiding keeps them in agreement, whatever payments were made |
| PurchaseProof.ConfirmPurchaseKeeps | src/modules/purchasing/purchasing.service.ts:274-360 | confirming keeps ledger, stock and document rows in agreement |
| PurchaseProof.PayPurchaseKeeps | src/modules/purchasing/purchasing.service.ts:496-557 | paying keeps them in agreement |
| PurchaseProof.VoidPurchaseKeeps | src/modules/purchasing/purchasing.service.ts:366-456 | voiding keeps them in agreement, whatever payments were made |
| NoteProof.IssueNoteExactly | src/modules/credit-notes/credit-notes.service.ts:320-357 | issuing keeps the books in agreement if and only if the referenced invoice is released or its status is not rewritten |
| Counterexamples.NoteOnDraftConfirmsUnposted | src/modules/credit-notes/credit-notes.service.ts:320-357 | a run in which a note on a draft confirms it without any sale entry, and the receivables report claims money the ledger does not show |
| Counterexamples.ReversalDetachesReceivable | src/modules/accounting/accounting.service.ts:346-429 | a run that reverses the entry of an open invoice: the receivables report says 116.00, account 1200 is reported at -116.00 |
| RunProof.EveryRunKeeps | src/modules/sales/sales.service.ts:275-651 | the whole invariant holds after every disciplined run from registration |
| RoundTrip.StepIsolated | src/modules/accounting/ledger.service.ts:154-370 | no call disturbs what another document has on the ledger |
| RoundTrip.SaleVoidUndoes | src/modules/sales/sales.service.ts:440-549 | confirm, anything in between, void: the sale nets to zero on AR, revenue, VAT and cash, and on the cost accounts exactly when its lines cost the same both times |
| RoundTrip.SameCardsSameCost | src/modules/sales/sales.service.ts:464-487 | unchanged cost and tracking flags suffice for the cost to come back in full |
| RoundTrip.ReleasedSaleCanBeVoided | src/modules/accounting/ledger.service.ts:101-123 | post never rejects the void entry or payment reversals of a released sale; only a cost reversal without its accounts can fail |
| RoundTrip.PurchaseVoidUndoes | src/modules/purchasing/purchasing.service.ts:366-456 | a released purchase can always be voided and then nets to zero on every account |
| ControlAccounts.SumByDocument | src/modules/accounting/accounting.service.ts:403-429 | over the POSTED and REVERSED entries documents booked on an account, summing entry by entry and document by document agree |
| ControlAccounts.ArControl | src/modules/reporting/reporting.service.ts:78-110 | what sales and credit notes booked on account 1200, reversed since or not, is the released totals less their payment rows, less the issued notes |
| ControlAccounts.ArMatchesReport | src/modules/reporting/reporting.service.ts:78-110 | without issued notes what sales booked on account 1200 is the receivables report less overpayments |
| ControlAccounts.ReportIsOpenDue | src/modules/reporting/reporting.service.ts:78-145 | grouping by party and dropping non-positive groups loses no open balance |
| ControlAccounts.ApControl | src/modules/reporting/reporting.service.ts:113-145 | what purchases booked on account 2100, reversed since or not, is what is unpaid on released purchases, the payables report less overpayments |
| ReportedBalances.ReversalMovesReports | src/modules/accounting/accounting.service.ts:369-429 | reversing an entry moves a reported balance that covers both dates by minus twice the entry, so it is unchanged iff the entry nets to nothing on the account |
| ReportedBalances.ReversalsUndo | src/modules/accounting/accounting.service.ts:369-393 | on every account the reversal entries together are minus the reversed entries |
| ReportedBalances.ReportedBalance | src/modules/accounting/accounting.service.ts:403-429 | the balance the reports show over all dates is what the documents booked, plus approved manual entries, less twice what was reversed |
| ReportedBalances.ReportedReceivable | src/modules/reporting/reporting.service.ts:78-110 | the balance reported on 1200, and that it is the receivables report less overpayments iff manual entries there are twice the reversed ones (no notes issued) |
| ReportedBalances.ReportedPayable | src/modules/reporting/reporting.service.ts:113-145 | the balance reported on 2100, and that it is the payables report less overpayments iff manual entries there are twice the reversed ones |
| ReportedBalances.TrialBalanceReceivable | src/modules/accounting/accounting.service.ts:431-466 | the same for the row the trial balance returns for 1200 |
| ReportedBalances.TrialBalancePayable | src/modules/accounting/accounting.service.ts:431-466 | the same for the row the trial balance returns for 2100 |
| ControlAccounts.CreditLimitHonoured | src/modules/sales/sales.service.ts:304-336 | a sale is refused for credit exactly when it would take the party above its limit; a confirmed one leaves it at or below |
| EveryRun.StepSound | src/modules/accounting/accounting.service.ts:135-202 | each call keeps journal and stock sound, and keeps lines on active accounts unless it switches off a posting account |
| EveryRun.EveryRunSound | src/modules/inventory/inventory.service.ts:250-284 | after every run, disciplined or not, entries balance and reverse properly, and every quantity on hand is non-negative and the sum of its movements |
| Reports.AccountBalances | src/modules/accounting/accounting.service.ts:403-429 | the map built line by line holds the debit and credit sums of every account in the window |
| Reports.WholeChartNetsToZero | src/modules/accounting/accounting.service.ts:403-429 | over the whole chart any window nets to zero |
| Reports.TrialBalance | src/modules/accounting/accounting.service.ts:431-466 | one row for each active account with its sums and signed balance, totals that are the sums of the rows, and columns that differ by exactly the net of the accounts left out |
| Reports.ProfitLoss | src/modules/accounting/accounting.service.ts:468-508 | income, expenses and net income of the listed accounts |
| Reports.BalanceSheet | src/modules/accounting/accounting.service.ts:510-564 | assets less liabilities, equity and net income is exactly minus the net of the hidden accounts, and zero when lines sit on active accounts |
| Reports.NothingHidden | src/modules/accounting/accounting.service.ts:435-474 | lines on active accounts only leave nothing out of the reports |
| Reports.GeneralLedger | src/modules/accounting/accounting.service.ts:601-625 | each running balance is the prefix sum of its own account, by debits for assets and expenses and by credits for all other kinds, under any interleaving of accounts |
| Reports.LastRunningBalance | src/modules/accounting/accounting.service.ts:440-454 | the last running balance the general ledger returns for an account is the balance on its trial-balance row, whatever the row order |
| Counterexamples.InactiveAccountUnbalances | src/modules/accounting/ledger.service.ts:86-100 | a run that deactivates an account, posts to it, and puts the reports off by 100.00 |
| Organization.Perform | src/modules/sales/sales.service.ts:275-651 | one call takes the tables through the specified step and reports its error |
| Organization.Serve | src/modules/accounting/ledger.service.ts:52-150 | any list of calls is a run, and leaves journal and stock sound |
| Organization.Close | src/modules/accounting/accounting.service.ts:431-564 | after any calls that keep posting accounts active, the balance sheet of every date and the trial balance of every window tie out |
| Organization.ControlsAgree | src/modules/reporting/reporting.service.ts:78-145 | after every disciplined run what documents booked on 1200 and 2100 agrees with the subledgers, and the reported balances do up to manual entries and twice the reversals |
| Organization.ReleasedDocumentsSound | src/modules/sales/sales.service.ts:608-611 | after every disciplined run a released document has 0 < tax < total and exactly the status its balance calls for |
| Concurrency.EveryInterleavingSound | src/modules/sales/sales.service.ts:596-650 | in every interleaving the balance is its start plus the committed payments, losers leave no row or entry, and at most one confirm commits stock and entry |
| Concurrency.CommitsWhilePayable | src/modules/sales/sales.service.ts:627-639 | although the compare-and-set only looks at the balance, a payment only commits while the invoice accepts payments |
| Concurrency.SameReadOneWins | src/modules/sales/sales.service.ts:627-639 | of calls that read the same balance the first commit wins and the next is refused |
| Concurrency.FirstConfirmWins | src/modules/sales/sales.service.ts:378-393 | the first accepted commit on a sellable draft confirms it, takes its goods and books it once; every later confirm is refused whatever came between |
| Concurrency.PaymentCommits | src/modules/sales/sales.service.ts:608-650 | a payment commits iff the balance is the one it read and the ledger takes it, and adds its amount, else nothing but the call changes |
| Outbox.EveryInterleavingSafe | src/events/outbox/outbox.worker.ts:84-193 | over all interleavings, crashes and reaps: open rows have attempts left, FAILED rows have used all, attempts never exceed the tries that threw, DONE rows were handled |
| Outbox.ReaperNeverExpires | src/events/outbox/outbox.worker.ts:96-113 | the reaper's FAILED branch is unreachable when every row may be tried once |
| Outbox.LimitMustBePositive | src/events/outbox/outbox.service.ts:26-41 | rows of a limit keep attempts within it over every run iff the limit is at least one |
| OutboxClaims.OrderlyRunsAreExclusive | src/events/outbox/outbox.worker.ts:119-158 | when claims do not overlap and no live row is reaped, no row is held twice and every handler call is accounted for |
| OutboxClaims.DispatchesBounded | src/events/outbox/outbox.worker.ts:160-193 | then a row is handed to its handler at most maxAttempts times plus once per result a crash lost |
| OutboxClaims.StepSharesExactly | src/events/outbox/outbox.worker.ts:138-157 | from any state in which no row is handled twice, a step makes two workers handle one row iff it is a re-read that finds a PROCESSING row another worker has |
| OutboxClaims.RunSharesExactly | src/events/outbox/outbox.worker.ts:119-193 | over every interleaving of workers, crashes and reaps, no row is ever handled by two workers iff no re-read is contended |
| OutboxClaims.OrderlyNeverContends | src/events/outbox/outbox.worker.ts:84-158 | non-overlapping claims and reaps of dead rows only are enough for that |
| OutboxClaims.ClaimSharesExactly | src/events/outbox/outbox.worker.ts:138-157 | the special case of a flip and re-read with no step in between: it keeps rows exclusive iff it flips nothing or meets no row another worker has |
| OutboxClaims.OverlappingClaimsShareARow | src/events/outbox/outbox.worker.ts:138-157 | a run of two workers after which both hold the same row |
| OutboxClaims.OverlapIsContended | src/events/outbox/outbox.worker.ts:138-157 | that run takes a contended re-read |
| OutboxWorker.BackoffDoubles | src/events/outbox/outbox.worker.ts:195-199 | waits start at the poll interval and double up to the cap |
| OutboxWorker.BackoffMonotone | src/events/outbox/outbox.worker.ts:195-199 | waits never shrink and never exceed five minutes |
| OutboxWorker.Worker.Enqueue | src/events/outbox/outbox.service.ts:26-41 | appends a PENDING row, a step of the protocol |
| OutboxWorker.Worker.ReapStale | src/events/outbox/outbox.worker.ts:84-117 | the stale rows of a batch come back PENDING and due now if they have tries left, else FAILED, and no other row changes; with positive limits no row loses a try |
| OutboxWorker.Worker.ClaimDue | src/events/outbox/outbox.worker.ts:119-158 | alone, a worker claims exactly the earliest due rows of a batch in order of next attempt and stamps them with the time of the claim; a due row is left out only if the batch is full of rows no later |
| OutboxWorker.Worker.CallHandler | src/events/outbox/outbox.worker.ts:160-171 | the handler is called once on a row this worker holds |
| OutboxWorker.Worker.WriteOutcome | src/events/outbox/outbox.worker.ts:172-192 | the outcome written, the next attempt time after a failure, and one try fewer |
| OutboxWorker.Worker.ProcessRow | src/events/outbox/outbox.worker.ts:160-193 | the outcome written, the next attempt time, and one try fewer |
| OutboxWorker.Worker.RunOnce | src/events/outbox/outbox.worker.ts:61-74 | a poll uses up at least one try per processed row, at most a batch, and processes something whenever a row is due or, with positive limits, stale |
| OutboxWorker.Worker.RunKilled | src/events/outbox/outbox.worker.ts:76-117 | a poll killed after any number of rows leaves the unfinished ones PROCESSING and loses at most one handler result |
| OutboxWorker.Worker.Drain | src/events/outbox/outbox.worker.ts:61-117 | from any table, with rows dead workers left PROCESSING, polling terminates with every row DONE or FAILED, each handled at most its limit of times plus once per result a crash lost |
| OutboxWorker.Worker.Outlive | src/events/outbox/outbox.worker.ts:61-117 | after any number of killed polls it still does, with at most one extra handler call per death |
| Tokens.EveryRunChained | src/modules/auth/tokens.service.ts:89-194 | after every run each family is one chain linked by replacedBy in order of issue |
| Tokens.OneLivePerFamily | src/modules/auth/tokens.service.ts:116-160 | a family has at most one live row, its last |
| Tokens.ChainsNeverLoop | src/modules/auth/tokens.service.ts:157-160 | following replacedBy only moves forward inside the family |
| Tokens.MisuseKillsFamilyForGood | src/modules/auth/tokens.service.ts:130-146 | a reused, revoked or expired token is refused and its family never has a live row again under any later calls |
| Tokens.ExchangedAtMostOnce | src/modules/auth/tokens.service.ts:116-160 | a token is exchanged iff issued, live, unexpired and its user exists; never twice |
| Tokens.TokensService.IssueToken | src/modules/auth/tokens.service.ts:89-110 | the new token is the live last row of its family and exchangeable exactly until its expiry; without a given family it opens one no other row has, and families stay chains |
| Tokens.TokensService.RotateToken | src/modules/auth/tokens.service.ts:116-179 | exchanges exactly live, unexpired tokens of existing users for a row of the same user, organization and family; a revoked or expired one costs its family every row and no other |
| Tokens.TokensService.RevokeToken | src/modules/auth/tokens.service.ts:181-187 | the row is not live any more and keeps an earlier time, no other row changes, and exchanging it is refused then and after any later calls |
| Tokens.TokensService.RevokeDevice | src/modules/auth/tokens.service.ts:189-194 | the same for a row of the given organization; a row of another organization stays as it is |
| Tokens.TokensService.RevokeEverything | src/modules/auth/tokens.service.ts:224-231 | exactly the sessions of the user in the organization end, and the count is how many were live |
| Withholding.WhtRange | src/modules/accounting/withholding-tax/withholding-tax.service.ts:160-168 | the withheld tax is non-negative and, for rates up to 100%, at most the payment |
| Withholding.OffsetRange | src/modules/compliance/supplier-etims/supplier-etims.service.ts:568-575 | the rounded offset lies between zero and the tax withheld, and a full credit takes all of it back |
| Withholding.OffsetMonotone | src/modules/compliance/supplier-etims/supplier-etims.service.ts:568-575 | a larger credit never offsets less |
| Withholding.RecordKeeps | src/modules/accounting/withholding-tax/withholding-tax.service.ts:181-220 | recording keeps one deduction per payment and recording again changes nothing |
| Withholding.EveryRunSound | src/modules/compliance/supplier-etims/supplier-etims.service.ts:506-618 | after every run each deduction is offset by at most one note, within what was withheld |
| Withholding.RemittableNeverNegative | src/modules/accounting/withholding-tax/withholding-tax.service.ts:291-354 | for every date range, after every run, the amount to remit is non-negative |
| Withholding.ComplianceService.RecordDeduction | src/modules/accounting/withholding-tax/withholding-tax.service.ts:181-220 | succeeds exactly for a supplier payment that is recorded or has a rate; the tax is the payment times the rate half up to the cent, tax plus net is the payment, recording again changes nothing, and the invariant is kept |
| Withholding.ComplianceService.MatchCreditNote | src/modules/compliance/supplier-etims/supplier-etims.service.ts:506-618 | succeeds exactly when everything named is the same supplier's and the deduction is unused; the offset is the half-up share of the tax, and exactly the flags of a purchase the credit closes are resolved |
| Withholding.MatchDoes | src/modules/compliance/supplier-etims/supplier-etims.service.ts:506-618 | the same about the tables: exact condition, the note's row and the flags after a match |
| Withholding.ComplianceService.RemittanceSummary | src/modules/accounting/withholding-tax/withholding-tax.service.ts:291-354 | groups, totals and both counts are the sums over the range, and the remittable amount is non-negative |
| Etims.BuildGroups | src/modules/etims/etims.service.ts:64-71 | each rate occurs in exactly one group, holding the sums of exactly that rate's lines |
| Etims.GroupsConserve | src/modules/etims/etims.service.ts:64-118 | summing the groups gives the sums of the lines |
| Etims.PayloadMatchesInvoice | src/modules/etims/etims.service.ts:88-118 | group tax sums to the invoice's tax total, taxable plus tax to its total |
| Md5.Add32IsAddition | web/src/lib/utils/md5.ts:5-8 | adding by sign-extended halves is addition modulo 2^32 |
| Md5.MixMeaning | web/src/lib/utils/md5.ts:13-16 | the nested additions and rotation are one operation of section 3.4 of RFC 1321 |
| Md5.PaddingFits | web/src/lib/utils/md5.ts:19-21 | the word array is exactly as long as the padded message |
| Md5.PutByte | web/src/lib/utils/md5.ts:23-26 | or-ing a shifted byte sets that byte of the little-endian words |
| Md5.Pack | web/src/lib/utils/md5.ts:19-28 | the words are the message, 0x80, zeros and length of sections 3.1 and 3.2 of RFC 1321 |
| Md5.Compress | web/src/lib/utils/md5.ts:36-110 | the 64 unrolled lines are the table-driven rounds of section 3.4 of RFC 1321 |
| Md5.OutputHex | web/src/lib/utils/md5.ts:113-118 | the hex string is the low-order-first output of section 3.5 of RFC 1321 |
| Md5.Md5 | web/src/lib/utils/md5.ts:1-119 | the program computes the RFC 1321 digest of every message under 2^29 - 8 bytes |

## Left out

- IEEE doubles and the Number.EPSILON nudge in `round2`, and the division precision of Decimal.js: amounts are exact integers with half-up rounding.
- Prisma, Postgres triggers, unique indexes and the schema: only the row effects the services request are modelled, with a transaction as one atomic step except in `Concurrency` and `Outbox`. Stock starts at zero.
- Concurrent payment against void, and concurrent rotation of one token: the code does not guard these, so those steps are serial here.
- Outbox rows written inside document transactions: `Outbox` models the table on its own; which document enqueued a row, the payload, and the partial unique index on in-flight rows are not modelled.
- Query order and batch limits of the outbox queries in the protocol `Outbox`: a query may return any due or stale rows, which only adds behaviours. `OutboxWorker` has both.
- Handlers, mailers, KRA, OCR and mobile-money providers, QR and XML parsing: a handler is an arbitrary success or failure.
- Document and journal numbering, due dates, descriptions, memos, currency, soft-deletion of parties, categories and units.
- Default prices, tax codes and organization settings: a line request carries its resolved quantity, price, rates and discounts.
- Account ids, names and parents: an account is its code, which is unique in an organization and never changes.
- Quotations, purchase-order status, notifications, aged and sales reports, turnover tax, drift report, idempotency interceptor: dates and simple guarded transitions.
- The token hash, its random generation, JWT signing and TTL parsing: a token is the row it was issued for. `listActiveSessions` only reads.
- Rate lookup of withholding tax: the resolved rate is a parameter. Matching a note and checking that its deduction is unused are one serial step. Nothing in the code soft-deletes supplier credit notes, so the filter on deletedAt is not modelled.
- The preview `compute` of withholding tax: it evaluates the same amounts as `record` and stores nothing.
- `recordReceipt` of the eTIMS service: a guarded update of one row.
- Md5.Md5: the UTF-8 encoding of the input is not modelled, the message is its bytes; from 2^29 - 8 bytes on, the source's 32-bit length arithmetic overflows and no claim is made.
- Stock updates of two open transactions: the services re-read and update items inside their transaction, and only the document row is compared before it is written; the stock result is proved for serial transactions.
