# Transactional core of the ERP, modelled and proved in Dafny

The project models the parts of the ERP whose correctness depends on what several requests, jobs and
devices do to the same rows, and proves what every run of them keeps:

- **Offline replay** (`MutationQueue`, `KeyedCreate`, `OfflineReplay`). The persistent queue of the mobile
  client, a network that loses, delays and duplicates messages, application kills, and a server that
  deduplicates keyed creations, composed into one step relation. The header is the one of
  draft-ietf-httpapi-idempotency-key-header.
- **Payments and subscriptions** (`SubscriptionStatus`, `Billing`, `BillingRuns`, `WebhookService`,
  `SubscriptionHistory`, `PlanChanges`, `DeliveryRaces`, `GracePeriods`, `PaymentDates`). Any number of webhook
  deliveries, two hourly jobs and plan changes, interleaved at the points where the services let others commit.
- **Stock, sales and purchases** (`SerializableRetry`, `Stock`, `Trade`, `TradeRuns`). The append-only
  ledger, its grouped aggregate, the all-or-nothing confirmation and its bounded retry.
- **Ledger and reports** (`Journal`, `Statements`, `DailyReport`). Balanced entries in, trial balance,
  income statement (classes 6 and 7 of the SYSCOHADA chart) and daily points out.
- **Numbers and amounts** (`Numbering`, `Money`, `Invoicing`). Gap-free counters, padded numbers, VAT
  forwards and backwards (rounding as in section 21.3.2.28 of ECMA-262), one invoice per sale.
- **Two stateful services** (`EntitlementsCache`, `TokenFamilies`, `TokenRaces`). A cache over an
  insertion-ordered map (section 24.1 of ECMA-262), and refresh-token rotation (section 5.2.2.3 of
  RFC 6819), as one step and with its read and writes apart.

`Sums` holds the sum-exchange lemmas that the stock, ledger and report proofs share, `Wrappers` the
optional value.

Each state machine is a `State`, an `Action` type, an `Enabled` guard and a `Step` function; a run is a
sequence of states that starts in the initial one and takes enabled steps. Code that changes rows in
place is a class whose methods are tied, by their postconditions, to the functions the machines step by.
Everything is verified with `dafny verify dfyconfig.toml`; nothing is executed.

## What the proofs found

Where the code does less than its documentation says, the model follows the code, and the exact
condition is a lemma:

- A row that ends `failed` may have its document, and whenever it has none it may still get one
  (`OfflineReplay.FailedRowMayHaveDocument`, `OfflineReplay.FailedRowMayGetDocument`).
- A webhook delivery reads the subscription inside its transaction and updates it later by id, at a level
  that lets others commit in between. Every read that leads to the write of a status can be overtaken
  (`DeliveryRaces.OvertakenExactlyWhen`). The history of subscriptions is conserved along a run exactly
  when none is (`SubscriptionHistory.ConservedExactlyWhen`); the transition table is followed exactly when
  no delivery writes over an expiry or a suspension it did not see
  (`DeliveryRaces.StatusesFormPathExactlyWhen`); and an expired subscription becomes active again exactly
  when a success that read it on trial writes after the expiry (`DeliveryRaces.AbsorbingExactlyWhen`,
  `DeliveryRaces.ReviveExactlyWhen`).
- Without such deliveries the event log of a subscription balances exactly when no lifecycle event of it
  is owed or lost (`SubscriptionHistory.LogBalancesExactlyWhen`). A failed event write, which the job only
  logs, leaves a hole that nothing but another hole hides (`SubscriptionHistory.LostForGood`,
  `DeliveryRaces.LateWriteHidesLoss`).
- A subscription whose grace a delivery renews after the lifecycle job has read it is suspended all the
  same (`GracePeriods.SuspendedInGraceExactlyWhen`).
- The guard of a plan change looks at a read made outside the transaction. The write can meet an expired
  subscription exactly when the read was of a trial (`PlanChanges.WriteMeetsTerminalExactlyWhen`), and the
  event it then logs claims that the subscription was still on trial (`PlanChanges.TerminalPlanIsWritten`).
  Nothing in the services ever cancels a subscription (`PlanChanges.NeverCancelled`).
- A cancellation that has read a draft can write over its confirmation, and a payment or voiding of an
  invoice over the other, exactly when it was not refused at its read
  (`TradeRuns.CancelMayOverwriteExactlyWhen`, `Invoicing.SettleMayOverwriteExactlyWhen`); a document stays
  confirmed, and an invoice settled, exactly when none does (`TradeRuns.StaysConfirmedExactlyWhen`,
  `Invoicing.StaysSettledExactlyWhen`).
- The trial balance lists the accounts before it sums their lines; accounts opened and posted to in between
  can unbalance its totals (`Statements.TrialBalanceAgreesExactlyWhen`).
- The recovery of a keyed journal entry that loses the race would leave a gap in the numbers if it
  succeeded; the numbering is whole only because PostgreSQL aborts the transaction at the unique violation
  (`Journal.RaceLeavesGapExactlyWhen`).
- A keyed request for an invoice can be told that its sale is already invoiced, by the invoice of its own
  key, exactly when that invoice is committed between its look-up by key and its look-up by sale, in the
  transaction or in the recovery (`Invoicing.RefusedExactlyInWindow`); requests that begin after the
  first one has committed never are (`Invoicing.ReplayMayBeRefusedExactlyWhen`).
- Document numbers are unique across tenants, but tenants that share the first eight characters of their
  id render the same ones (`Numbering.TenantsCollideExactlyWhen`). The tenant that comes second to a
  number can never invoice again (`Invoicing.BlockedExactlyWhen`, `Invoicing.BlockedForGood`).
- Splitting a tax-inclusive amount and adding the VAT back is exact exactly for the amounts given by
  `Money.SplitThenLineExactWhen`; at 18% that is a condition modulo 59
  (`Money.SplitThenLineExactAtPlatformRate`).
- Refreshing an expired key in a full entitlements cache evicts a key that had no need to go, and a
  maximum of zero still lets one entry in (`EntitlementsCache.RefreshEvictsBystander`,
  `EntitlementsCache.ZeroMaximumHoldsOne`). An invalidation does not stop a read in flight from storing
  what it looked up before, and that is exactly when a later read can return an older value
  (`EntitlementsCache.DriftPossibleExactlyWhen`).
- A refresh writes by id, without looking again at the token it read. The promises about token families
  hold along a run exactly when every token was still active as its rotation wrote and none died between
  its two writes (`TokenRaces.SoundExactlyWhen`); otherwise two tokens of a family are active, or a logout or a reuse
  detection in between is undone (`TokenRaces.TwoMayRotate`, `TokenRaces.LogoutMayBeUndone`).

## Model

| member | source | states |
|---|---|---|
| OfflineReplay.ExactlyOnce | apps/mobile/src/lib/offline/mutation-queue.ts:104-176 | In every run of queue, kills, lossy and duplicating network and server, a row has at most one document, with the content that was enqueued, and a row that ended done has exactly one. |
| OfflineReplay.SendsInOrder | apps/mobile/src/lib/offline/mutation-queue.ts:79-100 | A request leaves the device only when every row with a smaller id is done or failed. |
| OfflineReplay.EffectsInOrder | apps/mobile/src/lib/offline/mutation-queue.ts:79-100 | If an earlier row ended done, its document precedes every document of a later row, late requests and restarts included. |
| OfflineReplay.DocumentsOnlyGrow | apps/api/src/sales/sales.repository.ts:88-163 | Documents are only appended along a run, so position is order in time. |
| OfflineReplay.RowsDrain | apps/mobile/src/lib/offline/mutation-queue.ts:130-176 | Every enqueued row is exactly one of live, failed or done; live rows have had fewer than five transient answers; n rows take at most 5n answers other than 401, after which none is live. |
| OfflineReplay.BudgetOnlyFalls | apps/mobile/src/lib/offline/mutation-queue.ts:130-176 | The sum of (5 - retryCount) over live rows never rises except by an enqueue and falls on every answer other than 401. |
| OfflineReplay.RowsFollowAnswers | apps/mobile/src/lib/offline/mutation-queue.ts:130-176 | In every run the place of every row and its retry count are what the answers received for it, read in order, make of it: done at 200 to 299, failed at the fifth 429 or 5xx or at the first other status but 401, else still open. |
| OfflineReplay.TurnsFailedExactlyWhen | apps/mobile/src/lib/offline/mutation-queue.ts:142-176 | A step fails a row exactly when it receives an answer to it outside 200 to 299 that is no 401 and, for 429 and from 500 on, follows four counted ones. |
| OfflineReplay.FailedRowMayGetDocument | apps/mobile/src/lib/offline/mutation-queue.ts:153-175 | Every run that ends with a failed row extends, without a further step of the device, to one in which the row has its document: failure never rules an effect out. |
| OfflineReplay.FailedRowWasSent | apps/mobile/src/lib/offline/mutation-queue.ts:118-175 | In every reachable state a failed row has a request that was sent. |
| OfflineReplay.FailedRowMayHaveDocument | apps/mobile/src/lib/offline/mutation-queue.ts:164-175 | A run in which a row fails whose document is there already. |
| OfflineReplay.CreateTakesServerSteps | apps/api/src/sales/sales.repository.ts:88-163 | Serving a request with the creation of KeyedCreate is taking the look-up, refusal and insert steps of the server, documents and answer alike. |
| OfflineReplay.StepKeeps | apps/mobile/src/lib/offline/mutation-queue.ts:86-176 | Every step of device, network and server keeps the invariant that ties rows, requests, responses, documents and budget. |
| MutationQueue.PassSettlesPrefix | apps/mobile/src/lib/offline/mutation-queue.ts:86-100 | Whatever the answers, a pass settles a prefix of the rows it listed, may touch the next one, and leaves every other row as it was. |
| MutationQueue.ConcludeOk | apps/mobile/src/lib/offline/mutation-queue.ts:130-176 | An answer settles its row exactly when the pass goes on; the row is done exactly on a success; no other row changes; the budget falls unless the answer is free. |
| MutationQueue.AnswerSettles | apps/mobile/src/lib/offline/mutation-queue.ts:104-176 | Answer by answer, in status numbers: what becomes of the row and its retry count, whether the pass goes on, and that no other row changes. |
| MutationQueue.TakeMarks | apps/mobile/src/lib/offline/mutation-queue.ts:114-128 | As its request goes out the row is marked processing, key, body and count kept, and nothing else changes. |
| MutationQueue.ListedExactly | apps/mobile/src/lib/offline/db.ts:146-153 | The listing holds exactly the rows pending or processing, each once, by increasing id. |
| MutationQueue.BudgetSpent | apps/mobile/src/lib/offline/mutation-queue.ts:153-162 | The retry budget is never negative, and zero exactly when no row is live. |
| MutationQueue.LiveRowsHeadIsFirst | apps/mobile/src/lib/offline/db.ts:146-153 | No row before the first listed one is live. |
| MutationQueue.LiveRowsDropHead | apps/mobile/src/lib/offline/db.ts:146-153 | Once the first listed row is settled, listing again gives exactly the others. |
| MutationQueue.Queue.Enqueue | apps/mobile/src/lib/offline/db.ts:119-144 | The table gains one pending row under a fresh id with no retries; the table stays valid. |
| MutationQueue.Queue.Mark | apps/mobile/src/lib/offline/db.ts:160-181 | Only the status of that row changes, and nothing when the row is gone. |
| MutationQueue.Queue.MarkDone | apps/mobile/src/lib/offline/db.ts:171-173 | Exactly that row leaves the table. |
| MutationQueue.Queue.IncrementRetry | apps/mobile/src/lib/offline/db.ts:183-188 | Only the retry count of that row rises, by one; its status stays. |
| MutationQueue.Queue.ListPending | apps/mobile/src/lib/offline/db.ts:146-153 | The pending and processing rows, in id order. |
| MutationQueue.Queue.ProcessOne | apps/mobile/src/lib/offline/mutation-queue.ts:104-176 | Every branch of one replay: nothing without a token, otherwise the row is marked and settled by its answer. |
| MutationQueue.Queue.ProcessQueue | apps/mobile/src/lib/offline/mutation-queue.ts:86-100 | A pass asked for while another runs does nothing; otherwise the rows are replayed in order until a stop or a kill, and the flag is released. |
| KeyedCreate.AtMostOneCopy | apps/api/src/sales/sales.repository.ts:145-161 | Under the unique constraint a key has one document exactly when it is used, and never two. |
| KeyedCreate.CopiesZero | apps/api/src/sales/sales.repository.ts:95-103 | A key has no document exactly when the look-up misses. |
| KeyedCreate.CreateDocMeans | apps/api/src/sales/sales.repository.ts:88-163 | Whatever commits in between, keys stay unique; a refusal is answered exactly when the look-up missed and a check failed, a database error exactly when the key race was lost and not survived; only a creation adds a document of its own. |
| KeyedCreate.Documents.Find | apps/api/src/sales/sales.repository.ts:95-103 | The look-up finds the first document of the key exactly when there is one. |
| KeyedCreate.Documents.Create | apps/api/src/sales/sales.repository.ts:88-163 | Look-up, checks, insert and the recovery of a lost race, in that order, with others committing in between. |
| SubscriptionStatus.TerminalIsDeadEnd | apps/api/src/subscriptions/subscription-state-machine.ts:7-34 | The statuses without a successor are exactly the two the service calls terminal; no status follows itself. |
| SubscriptionStatus.TransitionTable | apps/api/src/subscriptions/subscription-state-machine.ts:7-14 | The permitted pairs, read by the status they lead to. |
| SubscriptionStatus.TrialIsLeftOnce | apps/api/src/subscriptions/subscription-state-machine.ts:7-14 | On any path the trial is only ever first, and expiry directly follows it. |
| Billing.RefusedExactlyWhen | apps/api/src/payments/payments-webhook.service.ts:239-248 | A delivery on a pending payment is refused exactly when the subscription it read is terminal, or suspended and the payment failed. |
| Billing.AppliedEffects | apps/api/src/payments/payments-webhook.service.ts:209-293 | A success invoices its payment and leaves the subscription active unless it read it active and found it otherwise; a failure invoices nothing, leaves alone what it read on trial and otherwise renews the grace; an event is logged exactly when a status is written; no other row changes. |
| Billing.PassMoves | apps/api/src/subscriptions/subscription-lifecycle.service.ts:34-48 | A lifecycle pass moves exactly the subscriptions of its batch that are still in the status it looks for. |
| Billing.PassLogs | apps/api/src/subscriptions/subscription-lifecycle.service.ts:53-100 | It logs exactly the moves whose event could be written, in batch order. |
| Billing.PlanChangeAnswers | apps/api/src/subscriptions/subscriptions.service.ts:42-61 | Each answer to a plan change says which of the checks on subscription, status, plan and current plan failed, in their order. |
| GracePeriods.SuspendedInGraceExactlyWhen | apps/api/src/tenant/cross-tenant.repository.ts:97-118 | A subscription read with its grace run out and still past due at the swap is suspended with its grace running exactly when a delivery renewed it in between and the last such renewal has not run out. |
| GracePeriods.RenewalIsADelivery | apps/api/src/payments/payments-webhook.service.ts:250-279 | Only a delivery changes a renewal date: a failure to fresh grace, a success to the date it had read. |
| GracePeriods.BatchExactly | apps/api/src/tenant/cross-tenant.repository.ts:88-101 | The lifecycle job reads exactly the trials past their end and the past-due subscriptions past their grace. |
| GracePeriods.ExpiredOnlyAfterTrial | apps/api/src/subscriptions/subscription-lifecycle.service.ts:34-48 | In every run an expired subscription is one whose trial has ended. |
| Billing.Store.GenerateForPayment | apps/api/src/payments/invoice-generation.service.ts:25-73 | The counter rises by one and one invoice with that number and the VAT split of its amount is appended; a number that another tenant holds leaves both as they were. |
| Billing.Store.ExpirePending | apps/api/src/tenant/cross-tenant.repository.ts:150-155 | The compare-and-swap expires the payment exactly when it is pending, and its count tells. |
| Billing.Store.ExpirePendingPayments | apps/api/src/payments/payment-lifecycle.service.ts:28-72 | Exactly the pending payments of the batch expire, everything else stays, and the result counts them. |
| Billing.Store.Deliver | apps/api/src/payments/payments-webhook.service.ts:209-308 | The writes of a delivery, on what it read of the subscription before others committed: they apply whole, or lose the swap, are refused or meet a taken number and leave no trace, payment and counter included. |
| Billing.Store.Transition | apps/api/src/subscriptions/subscription-lifecycle.service.ts:53-100 | The swap moves the subscription exactly when it still has the status read; the event follows only a move, and may be lost. |
| Billing.Store.TransitionBatch | apps/api/src/subscriptions/subscription-lifecycle.service.ts:34-48 | The loop over the batch gives the rows described by PassMoves and PassLogs. |
| Billing.Store.ChangePlanChecked | apps/api/src/subscriptions/subscriptions.service.ts:35-96 | The four refusals in order, on what was read; otherwise the plan is written over whatever the rows have become since. |
| Billing.Store.ChangeSubscriptionPlan | apps/api/src/tenant/cross-tenant.repository.ts:41-71 | Plan and event change together; the event repeats the status and plan that were read. |
| BillingRuns.StepKeepsPaySide | apps/api/src/payments/payments-webhook.service.ts:76-315 | Every step of deliveries, jobs and plan changes keeps the invariant on payments, resolvers, invoices and deliveries in flight. |
| BillingRuns.ResolvedForGood | apps/api/src/payments/payments-webhook.service.ts:209-227 | Along any run a payment leaves PENDING at most once and its next status is its last. |
| BillingRuns.OneDeliveryProcesses | apps/api/src/payments/payments-webhook.service.ts:209-315 | Of all deliveries for one payment at most one reports that it processed it. |
| BillingRuns.InvoicedExactlyWhenSucceeded | apps/api/src/payments/payments-webhook.service.ts:282-290 | A payment has an invoice exactly when it succeeded, then exactly one, for its amount; it is succeeded or failed exactly when one delivery committed that outcome. |
| BillingRuns.InvoiceNumbersGapFree | apps/api/src/payments/invoice-generation.service.ts:35-44 | Platform invoices are numbered 1 to n, n being the counter. |
| BillingRuns.OverdueDeliveryIsHarmless | apps/api/src/payments/payments-webhook.service.ts:104-179 | A delivery that read its payment past the date never resolves it, invoices or touches a subscription; it can only end in a rejection, a replay, a conflict or a crash. |
| BillingRuns.ConflictsNameBoth | apps/api/src/payments/payments-webhook.service.ts:128-178 | In every run a conflict recorded on a payment names the status the payment has, which is not pending, and another outcome that was announced for it. |
| BillingRuns.ConflictIsRecorded | apps/api/src/payments/payments-webhook.service.ts:128-178 | The one step that lets a delivery answer with a conflict records on its payment what was announced and the status met, and changes nothing else of the payment. |
| PaymentDates.CommitsOnlyInDate | apps/api/src/payments/payments-webhook.service.ts:104-315 | In every run a delivery that has committed an outcome read its payment at a time at which that had no date or had not passed it. |
| PaymentDates.OverdueReadNeverCommits | apps/api/src/payments/payments-webhook.service.ts:104-179 | A delivery that reads a payment past its date commits at no later point of any run. |
| PaymentDates.ExpiredOnlyPastDate | apps/api/src/payments/payments-webhook.service.ts:104-108 | In every run a payment is expired only when it has a date and that date is past. |
| PaymentDates.PurgeDueExactlyWhen | apps/api/src/tenant/cross-tenant.repository.ts:139-143 | The hourly job takes up a payment exactly when that has a date and is past it. |
| WebhookService.Service.Handle | apps/api/src/payments/payments-webhook.service.ts:76-334 | One delivery, with arbitrary fair interference in every pause, takes exactly the steps of the machine of BillingRuns to the answer it returns. |
| WebhookService.Service.RunTransaction | apps/api/src/payments/payments-webhook.service.ts:207-315 | The same for the transaction alone, the others having their turn between its read of the subscription and its writes. |
| WebhookService.AnswerMeans | apps/api/src/payments/payments-webhook.service.ts:76-315 | What each answer says about the payment: processed exactly by the delivery that committed, never for an overdue one, replay or conflict by comparing outcomes, rejections leave every row alone. |
| WebhookService.TransactionAnswers | apps/api/src/payments/payments-webhook.service.ts:207-315 | The answer to an in-date, matching payment with a subscription is that of its transaction, on the subscription as the others have left it when it is read and the rows as they have left them by its writes. |
| WebhookService.OverdueAnswers | apps/api/src/payments/payments-webhook.service.ts:104-179 | The answer to an overdue payment is a rejection when it is still pending at the compare-and-swap, else a replay or a conflict by its outcome. |
| WebhookService.EveryStepAdvances | apps/api/src/payments/payments-webhook.service.ts:76-315 | Each step of a delivery is one the machine allows and brings it closer to its answer, so every delivery that is not killed ends. |
| SubscriptionHistory.FlowIsConserved | apps/api/src/subscriptions/subscription-lifecycle.service.ts:53-86 | For every status, events in minus events out, counting those owed or lost and the steps that overtaken deliveries wrote over, equal [current] minus [trial], under any interleaving. |
| SubscriptionHistory.ConservedExactlyWhen | apps/api/src/payments/payments-webhook.service.ts:230-269 | Events logged, owed and lost account for a subscription throughout a run exactly when no delivery that wrote its status was overtaken between its read and its write. |
| SubscriptionHistory.WriteBalancesExactlyWhen | apps/api/src/payments/payments-webhook.service.ts:246-269 | The writes of a delivery leave the log balanced at every status exactly when it found the status it had read, or wrote none. |
| SubscriptionHistory.LogBalancesExactlyWhen | apps/api/src/subscriptions/subscription-lifecycle.service.ts:74-99 | The log of a subscription balances exactly when what it lacks flows back to its start; without overtaken deliveries, exactly when no event of it is lost and no pass owes it one. |
| SubscriptionHistory.LostForGood | apps/api/src/subscriptions/subscription-lifecycle.service.ts:81-99 | Once an event of a subscription is lost, its log balances again at most after a delivery has written over a status it had not read. |
| SubscriptionHistory.ResolveBalances | apps/api/src/payments/payments-webhook.service.ts:246-280 | A delivery logs a move from the status it read, whatever it finds. |
| DeliveryRaces.StatusesFormPathExactlyWhen | apps/api/src/subscriptions/subscription-state-machine.ts:7-34 | Along any run the statuses of a subscription begin with the trial and form a path in the transition table exactly when no delivery that read it on trial wrote over its expiry and none that read it active wrote over its suspension. |
| DeliveryRaces.AbsorbingExactlyWhen | apps/api/src/subscriptions/subscription-state-machine.ts:12-13 | A terminal subscription stays so along a run exactly when no delivery that read it on trial wrote after its expiry. |
| DeliveryRaces.OvertakenExactlyWhen | apps/api/src/payments/payments-webhook.service.ts:230-269 | At the read of the subscription: some continuation has the write find another status, exactly when the payment is pending and what was read leads to the write of a status. |
| DeliveryRaces.ReviveExactlyWhen | apps/api/src/payments/payments-webhook.service.ts:230-269 | At the read: some continuation makes an expired subscription active, exactly for a success on a pending payment that reads the trial. |
| DeliveryRaces.TrialReadRevives | apps/api/src/subscriptions/subscription-lifecycle.service.ts:34-40 | That continuation: the trial runs out and the lifecycle job expires it before the delivery writes. |
| DeliveryRaces.LateMove | apps/api/src/payments/payments-webhook.service.ts:246-269 | What an overtaken write finds and leaves, and that the move is permitted except for the two overwrites above. |
| DeliveryRaces.LateWriteHidesLoss | apps/api/src/subscriptions/subscription-lifecycle.service.ts:81-99 | A lost expiry and a delivery that writes over it leave a log that balances and tells neither. |
| PlanChanges.WriteMeetsTerminalExactlyWhen | apps/api/src/subscriptions/subscriptions.service.ts:42-75 | At the read of a plan change: some continuation has its write meet a terminal subscription exactly when the status read is the trial. |
| PlanChanges.TerminalOnlyIfReadOnTrial | apps/api/src/subscriptions/subscriptions.service.ts:48-75 | In every run a change in flight faces a terminal subscription only if it read it on trial, and then it is expired. |
| PlanChanges.TrialExpiresBeforeWrite | apps/api/src/subscriptions/subscription-lifecycle.service.ts:34-40 | Every change read on trial has a continuation in which the trial expires before the write. |
| PlanChanges.TerminalPlanIsWritten | apps/api/src/tenant/cross-tenant.repository.ts:41-71 | When that happens the plan of the expired subscription changes, and the event logged says it was on trial. |
| PlanChanges.NeverCancelled | apps/api/src/subscriptions/subscription-state-machine.ts:7-14 | No run ever cancels a subscription: of the two terminal statuses only expiry is reached. |
| SerializableRetry.Run | apps/api/src/common/serializable-retry.ts:32-59 | The caller sees the first attempt that is no conflict, or the last; no attempt follows it; the pauses double up to their cap. |
| SerializableRetry.Decisive | apps/api/src/common/serializable-retry.ts:41-58 | Everything before the decisive attempt is a conflict, and it is one itself only when it is the last. |
| SerializableRetry.PausesDouble | apps/api/src/common/serializable-retry.ts:49-54 | The first pause is the base delay, each further one twice the one before, never above 100 ms. |
| Stock.GroupsGiveOnHand | apps/api/src/stock/stock.repository.ts:249-272 | In whatever order the groups come, they add up to the signed sum of the ledger. |
| Stock.OnHandByKind | apps/api/src/stock/stock.repository.ts:256-269 | On hand is receipts plus adjustments minus issues. |
| Stock.AggregateQuantities | apps/api/src/stock/stock.repository.ts:249-272 | The map filled from the groups holds each product's signed sum, absent products reading as zero. |
| Stock.AppendKeepsNonNegative | apps/api/src/stock/stock.repository.ts:197-204 | The guard keeps every product at zero or above. |
| Stock.AppendExactly | apps/api/src/stock/stock.repository.ts:189-204 | A movement is appended exactly when its product is known, tracked and left with nothing below zero; each of the three refusals comes exactly in its case. |
| Trade.SaleGoesThroughExactlyWhen | apps/api/src/sales/sales.repository.ts:236-245 | The line loop of a sale succeeds exactly when each tracked product's summed quantities are on hand, and fails for no other reason. |
| Trade.SaleConfirmed | apps/api/src/sales/sales.repository.ts:226-264 | A draft sale is confirmed exactly when it is covered; then each tracked product falls by exactly its summed quantity and every other stays. |
| Trade.PostMoves | apps/api/src/purchases/purchases.repository.ts:231-240 | A loop that succeeds moves each product by exactly the demand of its tracked lines. |
| Trade.PurchaseGoesThrough | apps/api/src/purchases/purchases.repository.ts:221-259 | From stock that is nowhere negative every line of a purchase passes the guard. |
| Trade.PostKeepsNonNegative | apps/api/src/stock/stock.repository.ts:197-204 | The whole loop keeps stock at zero or above. |
| Trade.PostAppends | apps/api/src/sales/sales.repository.ts:236-245 | A loop that goes through appends one movement without a key for each tracked line, in order: out for a sale, in for a purchase, with the quantity of its line. |
| Trade.ConfirmMeans | apps/api/src/sales/sales.repository.ts:226-264 | A confirmation refuses the unknown document, the one that is no draft and the uncovered sale, each with its own error; else only that document and the ledger change. |
| Trade.CancelAnswers | apps/api/src/sales/sales.repository.ts:266-275 | A cancellation goes on exactly for a draft; unknown and settled documents have their own refusals. |
| Trade.MoveByHandExactly | apps/api/src/stock/stock.repository.ts:142-204 | A manual movement is appended exactly when its key is unused and the guards pass; a used key changes nothing. |
| Trade.Repository.ApplyMovement | apps/api/src/stock/stock.repository.ts:189-218 | A movement is appended and the new quantity returned, or one of three refusals leaves the ledger alone. |
| Trade.Repository.CreateMovement | apps/api/src/stock/stock.repository.ts:142-187 | A used key answers with its movement and the current quantity and appends nothing; otherwise as ApplyMovement. |
| Trade.Repository.CreateMovementWithRetry | apps/api/src/stock/stock.repository.ts:142-160 | Under retry the outcome is that of one whole attempt; after three conflicts nothing has changed and a conflict is reported. |
| Trade.Repository.ConfirmOnce | apps/api/src/sales/sales.repository.ts:230-254 | A confirmation commits ledger and status together or leaves both as they were. |
| Trade.Repository.CancelDraft | apps/api/src/sales/sales.repository.ts:266-281 | Only what was read as a draft is cancelled; the write goes to the document by id, on the tables as the others have left them, and changes nothing else. |
| Trade.Repository.ConfirmWithRetry | apps/api/src/purchases/purchases.repository.ts:221-259 | Under retry the outcome is that of one whole attempt; after three conflicts nothing has changed. |
| TradeRuns.PurchaseNeverShort | apps/api/src/purchases/purchases.repository.ts:221-259 | From any reachable state an attempt on a draft purchase commits. |
| TradeRuns.StockIsConserved | apps/api/src/stock/stock.repository.ts:197-272 | In every reachable state on hand is never negative and equals confirmed purchases minus confirmed sales plus manual movements; drafts have moved nothing, and a cancelled document only if its cancellation wrote over a confirmation. |
| TradeRuns.PostedAtCommit | apps/api/src/sales/sales.repository.ts:236-251 | What a confirmed document moved is its lines on the products tracked at the one step of the run that confirmed it. |
| TradeRuns.SaleNeedsCover | apps/api/src/sales/sales.repository.ts:226-264 | From any reachable state an attempt on a draft sale commits exactly when the stock covers it. |
| TradeRuns.ConfirmedByOneCall | apps/api/src/common/serializable-retry.ts:32-59 | Over all its attempts a call commits at most once, exactly when it reports success; a document is confirmed, or was until a cancellation wrote over it, exactly when one call committed it. |
| TradeRuns.SettledDocumentsStay | apps/api/src/sales/sales.repository.ts:231-281 | A confirmed or cancelled document keeps its lines and what it moved; its status can only become cancelled. |
| TradeRuns.StaysConfirmedExactlyWhen | apps/api/src/sales/sales.repository.ts:266-281 | A confirmed document stays confirmed along a run exactly when no cancellation that had read it as a draft writes over it. |
| TradeRuns.CancelMayOverwriteExactlyWhen | apps/api/src/purchases/purchases.repository.ts:261-276 | At the read of a cancellation: some continuation confirms the document before the write, exactly when it is a draft. |
| TradeRuns.LedgerOnlyGrows | apps/api/src/stock/stock.repository.ts:206-218 | The ledger is append-only and no key records two movements. |
| TradeRuns.RecordedOnce | apps/api/src/stock/stock.repository.ts:181-187 | Recording again under a used key changes nothing, at any later point of any run. |
| TradeRuns.MovedWhileTracked | apps/api/src/stock/stock.repository.ts:189-218 | In every run each movement of the ledger was appended at a step at which its product was tracked; only adjustments are negative, and none is zero. |
| Journal.RunKeepsBooks | apps/api/src/accounting/journal.repository.ts:59-162 | In every reachable journal numbers are 1 to n, entries are balanced on known accounts with one-sided lines, and no key is used twice. |
| Journal.NumberConsumedExactlyWhenCreated | apps/api/src/accounting/journal.repository.ts:87-147 | The counter moves exactly when an entry is created; replays and refusals change nothing. |
| Journal.ReplayReturnsFirst | apps/api/src/accounting/journal.repository.ts:92-100 | A second creation under the key, whatever its content, answers with the first number. |
| Journal.EntryIsInput | apps/api/src/accounting/journal.repository.ts:125-147 | A creation appends exactly one entry with the date, lines and key asked for under the next number; all earlier entries and the accounts stay. |
| Journal.EntryFromInput | apps/api/src/accounting/journal.repository.ts:125-147 | In every run each entry is the input of the one step that created it. |
| Journal.RefusedExactlyWhen | apps/api/src/accounting/journal.repository.ts:76-112 | Each refusal has its case, decided in the order of the checks; anything else is created or answered with the entry of its key. |
| Journal.CodesStay | packages/validation/src/accounting.ts:12-17 | An account keeps its code along every run, so the class of a posted line never changes. |
| Journal.RaceLeavesGapExactlyWhen | apps/api/src/accounting/journal.repository.ts:115-160 | A creation under any interference, its number taken by another tenant included, keeps the books whole exactly unless it loses the key race and the recovery is allowed to commit. |
| Journal.FindKey | apps/api/src/accounting/journal.repository.ts:93-96 | The first entry under the key. |
| Journal.Repository.Totals | apps/api/src/accounting/journal.repository.ts:76-77 | The two column sums. |
| Journal.Repository.CheckLines | apps/api/src/accounting/journal.repository.ts:76-85 | Unbalanced or empty entries, then two-sided lines, are refused, and nothing else. |
| Journal.Repository.Add | apps/api/src/accounting/journal.repository.ts:59-162 | A creation with others committing in between, every refusal, replay and race included. |
| Journal.Repository.Insert | apps/api/src/accounting/journal.repository.ts:115-160 | Number and entry together; a violated constraint takes the number back. |
| Statements.LinesBalance | apps/api/src/accounting/journal.repository.ts:76-85 | Summing line by line is summing entry by entry, and both columns agree. |
| Statements.TrialBalance | apps/api/src/accounting/accounts.repository.ts:103-168 | Each account shows its own sums and balance, in the listed order, and the grand totals are those of all lines on the listed accounts. |
| Statements.LineInColumns | apps/api/src/reports/reports.repository.ts:196-219 | A line adds its debit and credit to the columns of its own account only; revenue is credit minus debit, expense debit minus credit. |
| Statements.TrialBalanceAgreesExactlyWhen | apps/api/src/accounting/accounts.repository.ts:103-160 | With entries and accounts added between the account list and the grouped sums, the two columns agree exactly when the accounts added are balanced among themselves; with none of them posted to, the totals are those of all lines. |
| Statements.TrialBalanceBalances | apps/api/src/accounting/accounts.repository.ts:103-160 | In every reachable journal the accounts' totals add up to the entries' totals on both columns. |
| Statements.AccumulateByAccount | apps/api/src/reports/reports.repository.ts:196-207 | One record per account that has a line, with its column sums. |
| Statements.SplitByClass | apps/api/src/reports/reports.repository.ts:196-219 | Class 7 rows with credit balances, class 6 rows with debit balances, one per account with a line, in order of first appearance. |
| Statements.IncomeStatement | apps/api/src/reports/reports.repository.ts:182-228 | Each total is the net of all lines of the period in its class; each account of the class with a line has exactly one row, which carries its net, in whatever order the rows are sorted. |
| Statements.RowsShowNet | apps/api/src/reports/reports.repository.ts:187-219 | Each row carries the net of all the period's lines on its account, not only of those fetched. |
| Statements.NetResultIdentity | apps/api/src/reports/reports.repository.ts:182-228 | In every reachable journal and for any period the net result is what all accounts outside classes 6 and 7 gained. |
| DailyReport.Accumulator.Add | apps/api/src/reports/reports.repository.ts:81-94 | Grand totals and the point of each day stay those of the documents added so far. |
| DailyReport.Accumulator.PointsAddUp | apps/api/src/reports/reports.repository.ts:74-107 | The daily points add up to the grand totals, and their counts to the number of documents. |
| Money.RoundDivIsNearest | apps/api/src/sales/sales.repository.ts:71-75 | The rounded quotient is the only integer within half a unit, halves going up. |
| Money.SplitUndoesLine | apps/api/src/payments/invoice-generation.service.ts:46-47 | For every net amount and rate, adding VAT and splitting it back returns the net and the VAT. |
| Money.SplitThenLineDrift | apps/api/src/payments/invoice-generation.service.ts:46-47 | For every gross amount and rate up to 100%, splitting and adding back lands within one franc. |
| Money.SplitThenLineExactWhen | apps/api/src/payments/invoice-generation.service.ts:46-47 | For every gross amount and rate, splitting and adding back is exact exactly when the remainder of the division is at most half of 10000 or more than that plus the rate. |
| Money.SplitThenLineExactAtPlatformRate | apps/api/src/payments/invoice-generation.service.ts:46-47 | At 18% it is exact exactly when 50 times the amount is at most 25 or at least 35 modulo 59. |
| Money.SplitThenLineMayDrift | apps/api/src/payments/invoice-generation.service.ts:46-47 | Three francs is the least amount that is not exact. |
| Money.DocumentVatDrift | apps/api/src/sales/sales.repository.ts:312-319 | Rounded VAT summed over n lines is within n/2 francs of the exact VAT, and the totals are consistent. |
| Money.OneRateVatDrift | apps/api/src/sales/sales.repository.ts:312-319 | With one rate the exact VAT is that rate on the net total. |
| Numbering.PaddedNumberParsesBack | apps/api/src/invoicing/invoicing.repository.ts:167-168 | The padded decimal parses back to the sequence number. |
| Numbering.RenderInjective | apps/api/src/invoicing/invoicing.repository.ts:160-168 | Rendered numbers agree exactly when kind, short tenant code and sequence number do. |
| Numbering.RenderedShape | apps/api/src/invoicing/invoicing.repository.ts:167-168 | A rendered number is the prefix of its kind, eight characters of the tenant id in upper case, a hyphen, and six digits below a million. |
| Numbering.TenantsCollideExactlyWhen | apps/api/src/invoicing/invoicing.repository.ts:168-168 | Two tenants collide on some number exactly when the first eight characters of their ids agree. |
| Numbering.EveryTenantMayCollide | apps/api/src/invoicing/invoicing.repository.ts:168-168 | Every tenant id has another one that collides with it on every number of every kind. |
| Invoicing.StepKeeps | apps/api/src/invoicing/invoicing.repository.ts:112-239 | Every statement of every creation in flight keeps numbering, the three unique constraints and what each call may rely on. |
| Invoicing.InvoicesGapFree | apps/api/src/invoicing/invoicing.repository.ts:134-170 | In every reachable state numbers are 1 to n, rendered numbers distinct and no other tenant's, each invoice is for a confirmed sale and no sale has two. |
| Invoicing.NumberConsumedExactlyWhenCreated | apps/api/src/invoicing/invoicing.repository.ts:155-180 | A step moves the counter exactly when it makes a call report a creation. |
| Invoicing.CreatedIsIssued | apps/api/src/invoicing/invoicing.repository.ts:155-180 | A step that reports a creation adds the one invoice it reports, issued, for the sale and key of its call, under the next number. |
| Invoicing.CreateMeans | apps/api/src/invoicing/invoicing.repository.ts:112-239 | What each answer of a creation says about the sale and the invoices, whatever the others commit in its pauses. |
| Invoicing.ReplayMayBeRefusedExactlyWhen | apps/api/src/invoicing/invoicing.repository.ts:119-151 | At the start of a request: some continuation tells it that its sale is already invoiced although that is its own key's invoice, exactly when neither key nor sale has an invoice yet and the next number is free. |
| Invoicing.RefusedExactlyInWindow | apps/api/src/invoicing/invoicing.repository.ts:124-151 | A look-up by sale refuses a replay exactly when the invoice of that sale and key was committed after the last look-up by key, in the transaction and in the recovery alike. |
| Invoicing.RecoveryRefusesOnlyBrokenOff | apps/api/src/invoicing/invoicing.repository.ts:213-236 | The recovery refuses a replay only when the insert was broken off, never when a constraint turned it down. |
| Invoicing.RaceIsExplained | apps/api/src/invoicing/invoicing.repository.ts:182-238 | A call that loses its sale or key to another request is answered with what beat it, never with an error. |
| Invoicing.NumberLossIsAnError | apps/api/src/invoicing/invoicing.repository.ts:213-237 | A call whose number another tenant holds always ends in the database's error. |
| Invoicing.BlockedExactlyWhen | apps/api/src/invoicing/invoicing.repository.ts:167-168 | The next number is taken exactly when a tenant with the same short code has issued that very number. |
| Invoicing.BlockedForGood | apps/api/src/invoicing/invoicing.repository.ts:160-166 | From then on no creation of the tenant ever goes through: the counter rolls back to the same number each time. |
| Invoicing.InvoicesOnlyGrow | apps/api/src/invoicing/invoicing.repository.ts:304-334 | Invoices are never removed and keep sale, number and key. |
| Invoicing.SettledExactlyWhenWritten | apps/api/src/invoicing/invoicing.repository.ts:304-334 | In every run an invoice is other than issued exactly when a payment or voiding of it has been written, with the status that one of those gave it. |
| Invoicing.StaysSettledExactlyWhen | apps/api/src/invoicing/invoicing.repository.ts:304-334 | A paid or void invoice keeps its status along a run exactly when no second settling that had read it issued writes over the first. |
| Invoicing.SettleMayOverwriteExactlyWhen | apps/api/src/invoicing/invoicing.repository.ts:304-334 | At the read of a payment or voiding: some continuation settles the invoice the other way before the write, exactly when it is issued. |
| Invoicing.ReplayFindsSameInvoice | apps/api/src/invoicing/invoicing.repository.ts:119-132 | Once a key has an invoice every later look-up by it answers with that invoice. |
| Invoicing.CreateFailsExactlyWhen | apps/api/src/invoicing/invoicing.repository.ts:112-239 | A creation with others committing in every pause ends in an error exactly when its insert was broken off or its number taken, and nothing of its key or sale is there at the recovery look-ups. |
| Invoicing.Repository.Create | apps/api/src/invoicing/invoicing.repository.ts:112-239 | A creation statement by statement, each on the rows of its own moment, and its recovery. |
| Invoicing.Repository.RunInsert | apps/api/src/invoicing/invoicing.repository.ts:160-180 | Counter and invoice together; a violation of the constraints on sale, key or number takes both back. |
| Invoicing.Repository.RunRecovery | apps/api/src/invoicing/invoicing.repository.ts:213-237 | The look-up by key, then by sale, each on the rows of its own moment. |
| Invoicing.Repository.Settle | apps/api/src/invoicing/invoicing.repository.ts:304-334 | An unknown invoice is reported; only what was read as issued is paid or voided, by id, on the invoices as the others have left them, and nothing but its status changes. |
| EntitlementsCache.SizeBounded | apps/api/src/entitlements/entitlements.service.ts:77-86 | The cache never holds more than its maximum, or one entry when that is zero. |
| EntitlementsCache.StoreMeans | apps/api/src/entitlements/entitlements.service.ts:77-86 | A store evicts exactly the first key when the cache is full and nothing below its maximum; the stored key is there with its new entry, the others keep theirs. |
| EntitlementsCache.KeepMeans | apps/api/src/entitlements/entitlements.service.ts:60-64 | With no time to live nothing is kept, otherwise the value for exactly that long. |
| EntitlementsCache.EvictsLeastRecentlyTouched | apps/api/src/entitlements/entitlements.service.ts:46-86 | Keys stand in the order of their last live hit or fresh insertion, and an eviction takes exactly the least recent. |
| EntitlementsCache.RefreshEvictsBystander | apps/api/src/entitlements/entitlements.service.ts:77-86 | What a refresh of an expired key does to a full cache. |
| EntitlementsCache.ZeroMaximumHoldsOne | apps/api/src/entitlements/entitlements.service.ts:77-86 | With a maximum of zero every read that misses leaves the cache with exactly its own entry. |
| EntitlementsCache.EntryOrigin | apps/api/src/entitlements/entitlements.service.ts:60-64 | In every run a cached entry is a value that was looked up, stored with a full time to live, its tenant not invalidated since the store. |
| EntitlementsCache.HitExactlyWhen | apps/api/src/entitlements/entitlements.service.ts:46-58 | In every run a read hits exactly when the value is cached and its time to live, counted from its store, is not over. |
| EntitlementsCache.LookUpFindsLastCommit | apps/api/src/entitlements/entitlements.service.ts:60-65 | What a look-up finds is what was last committed for its tenant, or nothing before the first commit. |
| EntitlementsCache.HitFreshness | apps/api/src/entitlements/entitlements.service.ts:46-66 | A hit returns the database's value of a past look-up, younger than one time to live plus the gap between look-up and store, and not older than the last invalidation exactly when none fell in that gap. |
| EntitlementsCache.MissFreshness | apps/api/src/entitlements/entitlements.service.ts:60-65 | A read that missed returns the database's value at its look-up. |
| EntitlementsCache.DriftPossibleExactlyWhen | apps/api/src/entitlements/entitlements.service.ts:60-75 | After an invalidation some continuation has a hit on a value looked up before it, exactly when a read of the tenant was in flight. |
| EntitlementsCache.LateStoreRevivesDrift | apps/api/src/entitlements/entitlements.service.ts:60-64 | The continuation: the read in flight stores, and the next one hits. |
| EntitlementsCache.InvalidationRemovesDrift | apps/api/src/entitlements/entitlements.service.ts:73-75 | With no read in flight at an invalidation, hits return the current value until the next change. |
| EntitlementsCache.Service.GetCurrent | apps/api/src/entitlements/entitlements.service.ts:46-66 | A live hit moves to the end and is returned; anything else is looked up and, after whatever the others do meanwhile, stored when the time to live is positive. |
| EntitlementsCache.Service.StoreEntry | apps/api/src/entitlements/entitlements.service.ts:77-86 | The first key goes when the cache is full, whether or not the key is there already. |
| EntitlementsCache.Service.DeleteKey | apps/api/src/entitlements/entitlements.service.ts:73-75 | The key goes and the others keep their order. |
| TokenFamilies.StepKeepsChain | apps/api/src/auth/auth.service.ts:231-347 | Every login, refresh, logout and revocation keeps the links of a family one chain in the order of issue. |
| TokenFamilies.OneActivePerFamily | apps/api/src/auth/auth.service.ts:297-310 | A family has one active token at most, the last one issued. |
| TokenFamilies.LinksAreOneChain | apps/api/src/auth/auth.service.ts:297-310 | A link points to the token issued next in the family, every token but the last has one, and no two meet. |
| TokenFamilies.PresentingKillsOrRotates | apps/api/src/auth/auth.service.ts:231-335 | A refresh issues a token exactly when the presented one is active, in date and its account active; any other refresh, and the owner's logout, ends the family. |
| TokenFamilies.RefreshAnswers | apps/api/src/auth/auth.service.ts:231-319 | Each answer to a refresh has its case and says what has become of every token: family revoked, token alone revoked, or rotated into one of the same user and family with a fresh date. |
| TokenFamilies.LogoutMeans | apps/api/src/auth/auth.service.ts:321-347 | A logout revokes its family and no other token; an unknown or foreign token leaves the table alone. |
| TokenFamilies.DeadForGood | apps/api/src/auth/auth.service.ts:242-260 | Once no token of a family is active, no later call issues one in it. |
| TokenFamilies.ReuseEndsFamily | apps/api/src/auth/auth.service.ts:242-260 | After a rotated or revoked token was presented, no later call issues a token in its family. |
| TokenRaces.SoundExactlyWhen | apps/api/src/auth/auth.service.ts:231-347 | With read and writes apart, a run keeps every chain and revives no ended family exactly when each rotation found its token still active as it wrote and none died between its two writes. |
| TokenRaces.EventSoundExactlyWhen | apps/api/src/auth/auth.service.ts:231-347 | The same for one event from a sound table. |
| TokenRaces.RotationSoundExactlyWhen | apps/api/src/auth/auth.service.ts:297-310 | The writes of a rotation keep the chain and all ended families exactly when the token is still active. |
| TokenRaces.ChainSurvivesExactlyWhen | apps/api/src/auth/auth.service.ts:297-310 | They keep the chain exactly when the token has still no successor. |
| TokenRaces.HalfRotationBreaks | apps/api/src/auth/auth.service.ts:297-310 | Dying between the two writes always leaves a token outside the chain. |
| TokenRaces.RevocationBetweenWrites | apps/api/src/auth/auth.service.ts:297-310 | A revocation between the two writes ends the family like one after them, up to the label of the old token. |
| TokenRaces.LogoutMayBeUndone | apps/api/src/auth/auth.service.ts:321-347 | Whenever a rotation has read and not written, a logout can fall in between and be undone by it. |
| TokenRaces.TwoMayRotate | apps/api/src/auth/auth.service.ts:297-310 | Whenever a rotation has read and not written, a second one of the same token leads to two active tokens. |
| TokenFamilies.Service.RefreshToken | apps/api/src/auth/auth.service.ts:231-319 | Every branch of a refresh, in order, on the whole table. |
| TokenFamilies.Service.LogoutToken | apps/api/src/auth/auth.service.ts:321-347 | Silent on an unknown or foreign token; otherwise the family is revoked. |
| TokenFamilies.Service.RevokeAll | apps/api/src/auth/auth.service.ts:245-248 | Every token of the family is revoked and no other changes. |
| TokenFamilies.Service.IssueToken | apps/api/src/auth/auth.service.ts:163-181 | One active token with no successor is appended. |

## Left out

Idealisations:

- A transaction that takes its decisions on one row it holds, or runs at the serializable level, is one step that commits whole or leaves no trace. The others have their reads and their writes as steps of their own: the webhook delivery, cancellations, payments and voidings of invoices, the creation of an invoice; KeyedCreate and Journal let others commit between look-up and insert, and the trial balance between its two statements.
- The conditional update that opens a delivery's transaction is taken together with its other writes, since it keeps everybody else from the payment until the commit.
- The two writes of a rotation are one step in TokenRaces unless the process dies in between; TokenRaces.RevocationBetweenWrites says what a revocation between them changes. Logins, logouts and revocations are one step, since what they read never changes.
- One tenant at a time, other tenants appearing only by the invoice numbers they hold: row-level security and the `enterpriseId` comparisons are assumed, and rows of other tenants do not exist for a look-up.
- Idempotency keys and token hashes are taken to be injective, and a family id is new at each login; an absent or empty header is no key.
- Amounts and quantities are mathematical integers, within the safe range of the source's numbers.
- Dates are whole numbers on one clock; the VAT and number functions take the rate and tenant id as given.

Weaker or narrower than the source:

- OfflineReplay.ExactlyOnce: covers the endpoints that honour the key (sales, purchases, sales invoices, journal entries, stock movements), not customers, suppliers, products or accounts; the purge of the queue at logout is not a step.
- OfflineReplay.RowsDrain: counts answers, not time; the back-off delay of a scheduled retry and its timer are not modelled, a pass may begin at any idle moment.
- MutationQueue.Queue.ProcessQueue: enqueues during a pass happen in OfflineReplay, not inside this method.
- KeyedCreate.CreateDocMeans: the checks on customer, products and accounts are one Boolean, made after the look-up as in the source.
- SerializableRetry.Run: assumes at least one attempt, as every caller does; the random part of the pause is left out.
- Trade.Repository.ConfirmWithRetry: nothing else touches the tables between the attempts of this method; TradeRuns has them interleaved.
- Statements.IncomeStatement: the order of the rows by account code depends on the locale and is a parameter, of which only that it loses and repeats nothing is used.
- DailyReport.Accumulator.Add: the sort of the points by day is left out.
- WebhookService.Service.Handle: signature, parsing, audit, notification and cache invalidation are left out; the look-up by reference is a parameter.
- BillingRuns.StepKeepsPaySide: a delivery whose invoice number another tenant holds is rolled back whole, which is the step of a crash here; Billing.Store.Deliver has it as an outcome.
- Journal.NumberConsumedExactlyWhenCreated: one creation at a time, its number free; Journal.RaceLeavesGapExactlyWhen has the others and the taken number.
- Invoicing.Repository.Create: what the others do is given per pause, as the invoices they commit, the sales and the foreign numbers; Invoicing.StepKeeps has any number of creations interleaved.
- Billing.Store.ExpirePendingPayments: nothing else happens between the swaps of this method; BillingRuns has each swap as a step of its own.
- Billing.Store.TransitionBatch: as above; BillingRuns has batch read, swaps and event writes as separate steps.

Not part of this model:

- Screens, navigation, query caches, controllers, guards, logging, rate limits, packaging.
- Cryptography, token generation and access tokens; multi-factor login.
- Audit log, notifications and mail; only the subscription event log is kept.
- Request schemas, except as preconditions (quantities at least one, accounts that exist).
- Customers, suppliers, products, plans, settings, roles, invitations, onboarding, search and pagination: their properties are easy.
- Legal mentions and the other text fields of invoices.
