# Karibu POS: verified model

A Dafny 4.11 model of the parts of Karibu POS where a mistake costs somebody money: the subscription
billing engine, the money and credit on an order, the stock ledger with its recipe deduction, two
reports, and the cached menu. `dafny verify dfyconfig.toml` checks all of it.

| files | what they model |
|---|---|
| `BillingModel`, `BillingInvariant`, `BillingKeys` | one subscription with its charges: periods, idempotency keys, settlement, dunning |
| `BillingEngine`, `BillingSafety`, `BillingSettlement`, `BillingConfluence`, `BillingSweep` | the engine as a step system (trial, initiate, webhook, poll, expire) and what holds over whole runs |
| `BillingRows`, `BillingOutcomes` | the engine once more, said of rows only: what every charge row looks like, and what each actor does to the tables |
| `BillingConcurrency` | concurrent `initiate_charge` calls split at every point where another session can come in, with and without the row lock |
| `BillingSerial` | the same calls statement by statement on their own copies, shown to commit what a run of whole engine steps commits |
| `BillingService` | the engine over row objects updated in place, refining the step functions |
| `OrderMoney`, `StockLedger`, `Till` | payments and credit on an order, stock movements and recipes, and both together |
| `OrderRecords` | what the order routes do, said of requests and rows |
| `StockService`, `TillService` | the stock and order routes over row objects, refining the same functions |
| `Accountability`, `SalesReport` | the two reports and the loops that compute them |
| `Attribution` | whose row of the accountability report an amount lands in, said of the orders and debts |
| `MenuCache`, `MenuService` | the menu tables, their listing, the cache in front of it, and the routes |
| `MenuEffects` | what a guest is shown after each route, said of the rows of the menu tables |

How to read it. A step or request is one committed transaction, written as a function from tables to
tables; a run is a sequence of them. Classes hold the rows in fields that their methods assign and loop over, and each of
their methods ensures that the tables it leaves are those the function gives, so everything proved of
runs holds of the methods. Times are whole microseconds, money whole cents, quantities whole
thousandths. Gateway answers, clock readings, the rows a SELECT returns in its order, and whether a
cache call works are parameters, so each statement covers all of them.

The functions from tables to tables say how; `BillingRows`, `BillingOutcomes`, `OrderRecords`,
`Attribution` and `MenuEffects` say what comes of it, without them: each charge, order, movement,
report row and listing is described by the rows and requests it comes from.

Assumptions about the environment, stated where they matter:

- A read under the subscription's row lock, of the subscription itself or of one of its charges,
  returns the committed row, as the code intends. The ORM session could hand back an object it loaded
  earlier: `_lock_subscription` in the sweep, and the re-reads of charges, with expiry on commit off.
- The clock is read once for each charge that is made or settled, and does not run backwards from one
  commit to the next.
- Only the setting `BILLING_PERIOD_DAYS` is constrained, to at least one day. Retry schedule, trial
  length, price and stale limit are arbitrary unless a lemma says otherwise.
- Requests on orders, debts, stock and the menu are taken one at a time; the code takes no lock there.

What the proofs found, beyond what the code promises:

- `initiate_charge` says that a failed push leaves room for a fresh retry (billing.py:249-250). It does
  not: such a failure is not counted, so a call whose period starts on the same day computes the same
  key and hands the failed row back (`RetryExactlyWhen`, both directions). For a renewal that lasts a
  whole billing period and no longer (`RenewalBlockedForAPeriod`); `RenewalGetsStuck` gives the run.
- A prompt cannot be taken back when its commit is refused for a repeated gateway reference. A customer
  is prompted twice for one key exactly if such a call is followed by another that prompts for the same
  key (`OnePromptPerKeyExactlyWhen`).
- Without the row lock (SQLite), two calls on either side of midnight can open two charges, even if one
  insert commits before the other begins (`UnlockedCallsCanOpenTwo`).
- A gateway answer without a status makes the sweep fail a charge that a poll would leave alone; that
  is one of the two ways a paid charge can be failed (`PaidChargeFailedOnlyByBlankAnswer`).
- A status request can reopen a cancelled order, and cancelling it again returns its ingredients a
  second time (`ReopeningInventsStock`). `ReversalsCounted` counts the returns of every run and
  `StockBalances` says exactly how far the shelf drifts.
- The portions-left figure is rounded to the nearest tenth, which may promise a plate the shelf does
  not hold. It is safe for every mix of dishes exactly if what is left over after whole portions is
  less than 19 twentieths of one, the rounding deciding at a tie (`ShownFigureSafeExactlyWhen`,
  `FigureIsSafeExactlyWhen`), and never wrong by more than a twentieth (`ShownPortionsNearlySafe`).
- A served order completes at the till once money and credit cover it, but on a repayment only once
  money alone does (`CompletesWhenCovered`).
- The accountability report's three columns add up to the order totals exactly when it lists no credit
  for an order outside the report (`ReportReconciles`).

## Model

| member | source | states |
|---|---|---|
| BillingInvariant.PeriodStartMonotone | karibu-backend/app/services/billing.py:133-154 | waiting never makes the period on offer start earlier |
| BillingInvariant.PeriodStartHonoursPromises | karibu-backend/app/services/billing.py:133-154 | the period on offer overlaps neither the trial nor the paid period, and is never more than one period in the past |
| BillingRows.FirstPaymentStarts | karibu-backend/app/services/billing.py:133-154 | in every run, a charge with no paid one before it starts when it was requested or when the trial ends, whichever is later |
| BillingRows.RenewalStarts | karibu-backend/app/services/billing.py:133-154 | in every run, a later charge starts at the end of the time last paid for or of the trial, whichever is later, and with its request if that is more than a period past |
| BillingRows.KeysSayWhatTheyAreFor | karibu-backend/app/services/billing.py:157-192 | in every run, a key holds its subscription, the UTC day its period starts on, and one more than the declined charges since the latest paid one |
| BillingRows.ChargesTheConfiguredPrice | karibu-backend/app/services/billing.py:209-226 | in every run, every charge is for the configured price, and has a time of settlement if and only if it is settled |
| BillingRows.InitiateExactly | karibu-backend/app/services/billing.py:216-290 | one row more, standing as the gateway answered and indexed by its reference, with one prompt if there is an owner; or nothing but a wasted prompt |
| BillingInvariant.SettleKeepsInv | karibu-backend/app/services/billing.py:381-406 | settling the open charge, paid or not, keeps the full account invariant: order of periods, unique keys, attempts numbered, dunning state |
| BillingInvariant.InitiateKeepsInv | karibu-backend/app/services/billing.py:161-290 | so does a new charge, whatever the gateway answers |
| BillingInvariant.SynchronousIsSettle | karibu-backend/app/services/billing.py:279-287 | an answer given at once has the effect of waiting for the PIN and settling afterwards |
| BillingKeys.NewChargeUnlessBlocked | karibu-backend/app/services/billing.py:169-192 | with no open charge, a call makes a new row if and only if the latest row is not an uncounted failure on the same period day |
| BillingKeys.FreshKeyAfterSettlement | karibu-backend/app/services/billing.py:175-192 | after a success or a counted failure the next call, at any later time, computes a key that no row holds and makes a charge |
| BillingKeys.UncountedFailureBlocks | karibu-backend/app/services/billing.py:244-269 | a push error or missing owner blocks exactly the times at which a new charge would start on the same day |
| BillingKeys.RetryExactlyWhen | karibu-backend/app/services/billing.py:175-192 | after such a failure the next call makes a new row if and only if its period starts on another day |
| BillingKeys.RepeatReturnsFailedRow | karibu-backend/app/services/billing.py:186-192 | after a call that failed by push error or missing owner, any number of calls on the same period day return the failed row and change nothing |
| BillingKeys.RenewalBlockedForAPeriod | karibu-backend/app/services/billing.py:244-269 | after a renewal that failed so, a later call makes a charge if and only if it comes more than a full period after the promised time, contrary to the comment in the code |
| BillingSafety.RenewalGetsStuck | karibu-backend/app/services/billing.py:244-269 | under any settings, trial, first payment and a failed renewal reach that state from empty tables |
| BillingEngine.StepKeepsInv | karibu-backend/app/services/billing.py:115-556 | every step of every actor keeps the invariant of all accounts and of the unique reference index |
| BillingEngine.RunKeepsInv | karibu-backend/app/services/billing.py:115-556 | and so does every run |
| BillingEngine.ReachableInv | karibu-backend/app/services/billing.py:115-556 | and every state reachable from empty tables has it |
| BillingSafety.PaidPeriodsNeverOverlap | karibu-backend/app/services/billing.py:133-154 | in every run, successful charges of one subscription cover disjoint periods of exactly the billing length, after the trial and within the current period |
| BillingSafety.SubscriptionFollowsFromCharges | karibu-backend/app/services/billing.py:381-406 | in every run, status, attempt counter, retry time, period and the restaurant's flag can be read off the charge rows; only the latest row may be open, and it holds a reference |
| BillingRows.RetryCountsFromSettlement | karibu-backend/app/services/billing.py:392-406 | in every run, a pending retry is due the scheduled hours after the latest declined charge was settled |
| BillingRows.StepStampsTheClock | karibu-backend/app/models/subscription.py:137-171 | rows carry the time of the step that made or settled them |
| BillingSafety.AccessFollowsFromCharges | karibu-backend/app/models/subscription.py:79-84 | access ends with the trial if nothing was ever paid or declined, else only when counted failures exhaust the schedule |
| BillingRows.TrialLasts | karibu-backend/app/services/billing.py:115-129 | a trial gives access for exactly the configured days, and bills nothing |
| BillingSafety.HistoryNeverRewritten | karibu-backend/app/services/billing.py:342-374 | over any run, settled charges never change, no row disappears, the paid period never moves back, the ledger only grows |
| BillingSafety.StepKeepsPromptsExactlyWhen | karibu-backend/app/services/billing.py:250-290 | a step keeps every prompt backed by its own row if and only if it is not rolled back for a repeated reference after its prompt went out |
| BillingSafety.PromptsBackedExactlyWhen | karibu-backend/app/services/billing.py:250-290 | over runs, every prompt is backed at every point if and only if no step is rolled back so |
| BillingSafety.OnePromptPerKeyExactlyWhen | karibu-backend/app/services/billing.py:186-290 | in every run from empty tables no key is prompted for twice if and only if no rolled-back call is followed by one that prompts for the same key |
| BillingSafety.OnePromptPerKey | karibu-backend/app/services/billing.py:186-269 | no key is prompted for twice in a run in which no commit is refused after its prompt |
| BillingSafety.ReusedReferencePromptsAgain | karibu-backend/app/services/billing.py:271-290 | a repeated reference rolls the row back but not the prompt, and the next call prompts for the same key again |
| BillingSettlement.KeptWebhooksAreFirst | karibu-backend/app/services/billing.py:312-331 | dropping replays leaves at most one recognised webhook per reference, none seen before |
| BillingSettlement.ReplaysChangeNothing | karibu-backend/app/services/billing.py:301-374 | a run with all its deliveries ends in the very state of the run that keeps only the first recognised one per reference |
| BillingSettlement.GatewayAndRowsAgree | karibu-backend/app/services/billing.py:271-287 | in every run of truthful answers, SUCCESS means paid and a paid charge is never FAILED |
| BillingSettlement.PaidChargeFailedOnlyByBlankAnswer | karibu-backend/app/services/billing.py:468-497 | the sweep fails a stale charge the gateway did not refuse if and only if the gateway is not configured or answers without a status; a poll never does |
| BillingConfluence.SettlementHappensOnce | karibu-backend/app/services/billing.py:342-374 | after any truthful webhooks, polls and expiries, a subscription is where one settlement of its open charge leaves it, or untouched |
| BillingConfluence.SameChargesSameOutcome | karibu-backend/app/services/billing.py:468-497 | two histories that settle the same charges agree on everything but timestamps |
| BillingConfluence.OrderAndRepetitionDoNotMatter | karibu-backend/app/services/billing.py:514-556 | any reordering or repetition of the same settlement events ends alike |
| BillingOutcomes.AppliedMeansSettled | karibu-backend/app/services/billing.py:301-378 | a webhook is answered as applied if and only if a row changed, and then it is the open row with its reference, settled to the outcome named |
| BillingOutcomes.RepliesExactly | karibu-backend/app/services/billing.py:301-360 | which other reply comes back when, and when the ledger notes the reference |
| BillingOutcomes.PollFollowsVerdict | karibu-backend/app/services/billing.py:500-556 | a poll settles its row as the gateway finally says, no other row, and nothing otherwise |
| BillingOutcomes.SweepSettlesExactly | karibu-backend/app/services/billing.py:452-497 | a sweep settles exactly the overdue charges, each by the answer about it |
| BillingOutcomes.SweepBillsExactly | karibu-backend/app/services/billing.py:431-449 | a sweep makes a charge, with the next key and a prompt to the owner, if and only if trial, paid time or retry delay is over, no charge is open and none has that key; otherwise the subscription stays |
| BillingOutcomes.SweepBillsWhoOwes | karibu-backend/app/services/billing.py:410-449 | the same before and after the whole sweep, for a subscription with no charge overdue |
| BillingSweep.SweepIsRun | karibu-backend/app/services/billing.py:410-449 | a sweep, whatever its SELECTs return and the clock shows for each row, is a run of ordinary steps, ordered if the clock does not run backwards |
| BillingSweep.SecondChargeExactlyWhen | karibu-backend/app/services/billing.py:392-406 | a charge made in a sweep is due for another as of the same time if and only if it was declined with a retry due by then, or paid for time over by then |
| BillingSweep.SecondSweepDoesNothing | karibu-backend/app/services/billing.py:410-497 | a second sweep as of the same time creates no charge, pushes no prompt and moves no subscription, though the clock is read again for every call |
| BillingConcurrency.AnyInterleavingIsSafe | karibu-backend/app/services/billing.py:169-241 | under any interleaving, locked or not: unique keys, one open charge per subscription and period, and one prompt per key unless a commit for it was refused |
| BillingConcurrency.FlushNeverRefused | karibu-backend/app/services/billing.py:230-241 | with the row lock the unique indexes never refuse a flush or make it wait |
| BillingConcurrency.LockedCallsReadTruly | karibu-backend/app/services/billing.py:88-98 | with the lock, what a call has read stays true until it flushes, and a subscription has one open charge in all |
| BillingConcurrency.ConcurrentCallsNeverDoubleBill | karibu-backend/app/models/subscription.py:120-154 | the same from empty tables, for every sequence of actions of any number of calls |
| BillingConcurrency.UnlockedCallsCanOpenTwo | karibu-backend/app/services/billing.py:88-98 | without the lock two calls across midnight, one committing before the other inserts, leave one subscription with two committed open charges and two prompts |
| BillingSerial.LockedInterleavingIsSerial | karibu-backend/app/services/billing.py:161-290 | every locked interleaving of calls, with webhooks, polls, expiries and trials among them, commits the tables of the run of whole engine steps in commit order |
| BillingSerial.SamePromptsAsSerial | karibu-backend/app/services/billing.py:250-262 | once every call is over, the prompts that went out are those of that run |
| BillingService.BillingCharge.MarkSuccess | karibu-backend/app/models/subscription.py:160-165 | the row after a success |
| BillingService.BillingCharge.MarkFailed | karibu-backend/app/models/subscription.py:167-171 | the row after a failure |
| BillingService.Subscription.OpenCharge | karibu-backend/app/services/billing.py:101-111 | finds an open charge if there is one, the most recently requested |
| BillingService.Subscription.ApplySuccessfulPayment | karibu-backend/app/services/billing.py:381-389 | the subscription row follows the paid charge |
| BillingService.Subscription.ApplyFailedPayment | karibu-backend/app/services/billing.py:392-406 | the subscription row after a counted failure: retry or suspension |
| BillingService.Subscription.InsertCharge | karibu-backend/app/services/billing.py:212-290 | insert, push and what follows, on the objects, equal to the account function |
| BillingService.Billing.StartTrial | karibu-backend/app/services/billing.py:115-129 | the tables after a trial starts |
| BillingService.Billing.ExistingCharge | karibu-backend/app/services/billing.py:175-192 | the early returns: none if and only if a new row is called for, else the latest open charge if there is one, else the row holding the key |
| BillingService.Billing.InitiateCharge | karibu-backend/app/services/billing.py:161-290 | the tables after `initiate_charge`, every path, equal to the engine step |
| BillingService.Billing.ProcessWebhook | karibu-backend/app/services/billing.py:301-378 | the tables and the reply after a webhook, every path |
| BillingService.Billing.VerifyChargeNow | karibu-backend/app/services/billing.py:500-556 | the tables after a poll |
| BillingService.Billing.ExpireStaleCharges | karibu-backend/app/services/billing.py:452-497 | selects exactly the stale rows and leaves the tables of the expiry steps |
| BillingService.Billing.RunBillingSweep | karibu-backend/app/services/billing.py:410-449 | selects exactly the stale rows, then exactly the candidates, and leaves the tables of the sweep, with the clock read for each row and call |
| OrderMoney.RecordPaymentEffect | karibu-backend/app/routers/orders.py:187-260 | a payment or loan is accepted if and only if it fits into what is neither paid nor lent, the means are known and a loan has a name; credit leaves payments alone, a payment leaves debts alone |
| OrderMoney.RepaymentConserves | karibu-backend/app/routers/debts.py:129-161 | a repayment is accepted if and only if it is positive and within an unsettled debt; payments plus outstanding debt stay the same; the debt settles when repaid in full |
| OrderMoney.CompletesWhenCovered | karibu-backend/app/routers/orders.py:249-260 | which payment and which repayment completes a served order, both directions |
| OrderMoney.OrderNeverOvercollects | karibu-backend/app/models/order.py:106-131 | in every sequence of requests on an order: payments plus debt within the total, payments are direct payments plus repayments, payment status matches, no debt overpaid |
| OrderRecords.PlacedExactly | karibu-backend/app/routers/orders.py:97-162 | an order is taken if and only if every dish is live and any discount comes from a manager, with a line per wish at the menu price, unpaid; else nothing changes |
| OrderRecords.PlacedCosts | karibu-backend/app/models/order.py:106-113 | a placed order costs menu price times plates, summed over what was wanted, less the discount, never below zero |
| OrderRecords.ChargedByDish | karibu-backend/app/models/order.py:106-113 | which is the sum over dishes of the menu price times all plates of the dish |
| OrderRecords.SubtotalAdds | karibu-backend/app/models/order.py:106-113 | subtotals add up over lines, and one line is price times quantity |
| OrderRecords.PaymentExactly | karibu-backend/app/routers/orders.py:187-260 | the payment or debt row an accepted request appends, or which refusal it gets, in order |
| OrderRecords.RepaymentExactly | karibu-backend/app/routers/debts.py:110-161 | the payment row, the means on it and the debt after an accepted repayment, or which refusal it gets, in order |
| OrderRecords.StatusIsEarned | karibu-backend/app/models/order.py:123-131 | in every run of the till, unpaid means nothing was collected, paid the whole total, partial something between |
| OrderRecords.StatusIsSet | karibu-backend/app/routers/orders.py:166-173 | a status request leaves exactly the requested status, and everything else as it was |
| OrderRecords.CancelledOrder | karibu-backend/app/routers/orders.py:271-285 | accepted if and only if the order is neither fully paid nor cancelled; changes the status alone and puts back what its lines need |
| OrderRecords.CancelRefusedExactly | karibu-backend/app/routers/orders.py:271-280 | which refusal a cancellation gets |
| OrderRecords.RunsAreApart | karibu-backend/app/routers/orders.py:97-285 | an order is left alone by every run of requests about others |
| OrderMoney.Order.Recalculate | karibu-backend/app/models/order.py:106-113 | subtotal over the lines, total not below zero |
| OrderMoney.Order.SyncPaymentStatus | karibu-backend/app/models/order.py:123-131 | status from paid and total |
| OrderMoney.Order.OutstandingDebt | karibu-backend/app/routers/orders.py:197-202 | the sum of what is still owed on unsettled debts |
| OrderMoney.Order.Take | karibu-backend/app/routers/orders.py:187-260 | `record_payment` on the row, accepted or refused with its reason |
| OrderMoney.Order.Repay | karibu-backend/app/routers/debts.py:129-161 | `pay_debt` on the row, accepted or refused with its reason |
| StockLedger.LedgerAlwaysReplays | karibu-backend/app/models/stock.py:120-155 | over every run of requests the ledger replays to the quantity, each entry shows the prefix sum, and a negative quantity means the latest movement is a sale |
| StockLedger.NegativeMeansSale | karibu-backend/app/routers/stock.py:265-278 | a negative quantity means the latest movement is a sale |
| StockLedger.NettedEqualsLineByLine | karibu-backend/app/services/stock_deduction.py:25-62 | deducting the netted totals leaves every item where a movement per order line and recipe line would |
| StockLedger.MoveTouchesOnce | karibu-backend/app/services/stock_deduction.py:75-95 | the quantity moves by the double sum over order and recipe lines, in at most one movement per item, none for an archived one |
| OrderRecords.NeedAdds | karibu-backend/app/services/stock_deduction.py:25-62 | what wishes need of an item adds up |
| OrderRecords.NeedOfOne | karibu-backend/app/services/stock_deduction.py:25-62 | one wish needs its plates times the amount on the recipe line of its dish, nothing without a line |
| OrderRecords.PlacingTakes | karibu-backend/app/services/stock_deduction.py:75-95 | placing takes from each unarchived item what the recipes need for what was wanted |
| StockLedger.SetRecipeSetsOnePair | karibu-backend/app/routers/stock.py:427-482 | an accepted call fixes what one sale of that dish takes of that item, whatever was linked before, and no other pair |
| StockLedger.RecordMovementExactly | karibu-backend/app/routers/stock.py:259-291 | an accepted movement adds its signed amount and logs it with the new balance, to that item alone; a refused one changes nothing |
| StockLedger.CreateItemExactly | karibu-backend/app/routers/stock.py:157-209 | a new item holds its opening stock, logged once if there is any, and its recipe link, and nothing else changes |
| StockLedger.ArchiveExactly | karibu-backend/app/routers/stock.py:249-254 | archiving keeps all figures of the item and everything else |
| StockLedger.PortionsLeftIsSafe | karibu-backend/app/routers/stock.py:34-44 | any mix of plates that fits at the heaviest portion leaves the quantity non-negative |
| StockLedger.FigureIsSafeExactlyWhen | karibu-backend/app/routers/stock.py:34-44 | the shown figure is safe for every mix of dishes if and only if it is negative or below the next whole plate; off a tie that is a condition on the stored row, on a tie the rounding decides |
| StockLedger.ShownFigureSafeExactlyWhen | karibu-backend/app/routers/stock.py:39-44 | off a tie, safe if and only if the rest after whole portions is less than 19 twentieths of one, or the item is more than a portion in the red |
| StockLedger.ShownPortionsNearlySafe | karibu-backend/app/routers/stock.py:39-44 | selling as many plates as the rounded figure says overdraws by at most a twentieth of a portion |
| StockLedger.ShownPortionsCanOvershoot | karibu-backend/app/routers/stock.py:39-44 | an instance: 2.96 portions shown as 3 |
| StockService.StockRoom.LinesFor | karibu-backend/app/services/stock_deduction.py:25-62 | the dictionaries yield exactly the items with something to move, each once, with the double sum |
| StockService.StockRoom.MoveOrder | karibu-backend/app/services/stock_deduction.py:75-95 | the rows after the movements of one order |
| StockService.StockRoom.CreateStockItem | karibu-backend/app/routers/stock.py:157-209 | a new item with its opening movement and recipe link, or nothing when the dish is unknown |
| StockService.StockRoom.RecordMovement | karibu-backend/app/routers/stock.py:259-291 | accepted if and only if the item is tracked and stays non-negative, and the rows after it |
| StockService.StockRoom.ArchiveStockItem | karibu-backend/app/routers/stock.py:249-254 | the rows after archiving |
| StockService.StockRoom.SetRecipe | karibu-backend/app/routers/stock.py:427-482 | update in place, insert or delete of the recipe line |
| Till.BooksStayStraight | karibu-backend/app/routers/orders.py:97-285 | over every run of requests on orders, debts and stock, every order keeps its money invariant and every item its ledger |
| Till.StockBalances | karibu-backend/app/services/stock_deduction.py:65-95 | shelf plus what standing orders hold changes by the amounts that accepted hand-keyed requests asked for and, by an exact amount, with status requests |
| Till.LedgerLogsWhatIsAsked | karibu-backend/app/routers/stock.py:259-291 | over the same runs, the ledger entries that are not sales add up to the amounts the accepted requests asked for |
| Till.PlaceThenCancelRestores | karibu-backend/app/routers/orders.py:157-285 | cancelling gives back exactly what placing took, whatever comes between |
| Till.CancelledOrderLeavesNoTrace | karibu-backend/app/routers/orders.py:271-285 | and the shelf ends where the other orders and the amounts asked for by hand alone would put it |
| Till.ReversalsCounted | karibu-backend/app/routers/orders.py:166-285 | for every run, how often an order's ingredients come back: cancelled at the end less cancelled at the start, plus reopenings, less cancellations by status |
| Till.ReversedAtMostOnce | karibu-backend/app/routers/orders.py:271-285 | when no status request takes the order into or out of cancelled, its ingredients come back once if it ends cancelled and did not start so, else never |
| Till.ReopeningInventsStock | karibu-backend/app/routers/orders.py:166-173 | reopening a cancelled order and cancelling it again returns them twice |
| TillService.Till.CreateOrder | karibu-backend/app/routers/orders.py:97-162 | accepted if and only if the discount is allowed and every dish is on the menu; the order and the deduction together, or neither |
| TillService.Till.RecordPayment | karibu-backend/app/routers/orders.py:187-260 | the tables after a payment and the exact refusal, an unknown order included |
| TillService.Till.PayDebt | karibu-backend/app/routers/debts.py:110-161 | the tables after a repayment and the exact refusal, an unknown debt included |
| TillService.Till.UpdateStatus | karibu-backend/app/routers/orders.py:166-173 | the tables after a status request, and whether the order was found |
| TillService.Till.CancelOrder | karibu-backend/app/routers/orders.py:271-285 | refused when unknown, paid or already cancelled, else the order and the stock together |
| Accountability.Report | karibu-backend/app/routers/analytics.py:580-627 | one row per name, holding exactly the sums of what the orders and debts enter under that name |
| Attribution.RowsBelongToTheirNames | karibu-backend/app/routers/analytics.py:599-627 | a row holds the orders, sales and unpaid value of the reported orders served under its name, and the credit recorded under it in the window: by the recording user while there is one, else by the server |
| Attribution.RowsAreForThoseInvolved | karibu-backend/app/routers/analytics.py:580-627 | a name has a row, and only one, if and only if it served a reported order or gave credit in the window |
| Accountability.RowsSumToEntries | karibu-backend/app/routers/analytics.py:580-607 | summed over people, nothing is lost and nothing counted twice |
| Accountability.OrderSplits | karibu-backend/app/routers/analytics.py:599-607 | an order's total is paid plus unpaid plus outstanding credit, with no amount both unpaid and credit |
| Accountability.ReportReconciles | karibu-backend/app/routers/analytics.py:562-627 | sales, unpaid value and credit on the reported orders add up to their totals; the three columns do so if and only if no stray credit is listed |
| Accountability.AnyRunReconciles | karibu-backend/app/routers/analytics.py:533-647 | the same for the orders of any run of requests |
| SalesReport.DaysTile | karibu-backend/app/core/timezone.py:46-66 | a time lies within the bounds of a local day if and only if its local date is that day; days follow without gap or overlap |
| SalesReport.NairobiIsAhead | karibu-backend/app/core/timezone.py:69-78 | in Nairobi the last three hours of a UTC day belong to the next day |
| SalesReport.DaysAgoIsMidnight | karibu-backend/app/core/timezone.py:63-66 | the window starts at the local midnight that many days before today |
| SalesReport.DailySeries | karibu-backend/app/routers/analytics.py:298-303 | a key for every day of the window, each holding the payments between its midnights |
| SalesReport.SeriesSumsToGross | karibu-backend/app/routers/analytics.py:246-304 | the series sums to the payments of the window, and to gross revenue if and only if payments dated after today sum to nothing |
| SalesReport.MethodSplitSumsToGross | karibu-backend/app/routers/analytics.py:258-265 | the split by payment method sums to gross revenue |
| MenuCache.ListingShowsTheMenu | karibu-backend/app/routers/menu.py:37-61 | an uncached listing shows each category of the tenant, sorted, each with exactly its available, unarchived items and the number of its unarchived rows |
| MenuCache.OrderedItemsKeepTheirRow | karibu-backend/app/routers/menu.py:263-315 | over every run, an item that was ever ordered keeps its row, and once retired stays retired |
| MenuEffects.SoldItemsKeepTheirRow | karibu-backend/app/routers/menu.py:263-315 | from its first sale on an item keeps its row, whatever is requested |
| MenuEffects.TimeAndSales | karibu-backend/app/core/cache.py:33-62 | expiry drops one tenant's entry and a sale is remembered; neither changes what is on the menu |
| MenuCache.WritesAreIsolated | karibu-backend/app/routers/menu.py:99-314 | none of the six writers changes another tenant's listing |
| MenuCache.EveryListingIsFresh | karibu-backend/app/routers/menu.py:24-63 | over every run of all tenants, a listing, cached or not, is what the uncached computation returns |
| MenuEffects.ListingsShowExactly | karibu-backend/app/routers/menu.py:24-63 | over every run, a listing shows exactly the own categories and exactly the own items that are available and not archived |
| MenuEffects.ListingIsCached | karibu-backend/app/routers/menu.py:24-63 | a listing leaves its answer in the cache if the cache takes it, and changes nothing else |
| MenuEffects.UpdateItemExactly | karibu-backend/app/routers/menu.py:231-260 | accepted if and only if the item is not archived and a new category is the tenant's own; sets the fields that were sent, of that row alone |
| MenuEffects.UpdateShowsNext | karibu-backend/app/routers/menu.py:231-260 | the first listing after shows the item with what was sent if and only if it is available now, and all others as before |
| MenuEffects.DeleteItemExactly | karibu-backend/app/routers/menu.py:263-315 | the row is archived if the item was ever ordered, and removed otherwise |
| MenuEffects.DeletedVanishes | karibu-backend/app/routers/menu.py:263-315 | either way the first listing after is the one before without the item |
| MenuEffects.CreateItemExactly | karibu-backend/app/routers/menu.py:206-228 | accepted if and only if the category is the tenant's own, with the row as it was sent |
| MenuEffects.CreatedAppears | karibu-backend/app/routers/menu.py:206-228 | the first listing after is the one before, with the new item if it is available |
| MenuEffects.CreateCategoryExactly | karibu-backend/app/routers/menu.py:99-115 | the category row as it was sent |
| MenuEffects.UpdateCategoryExactly | karibu-backend/app/routers/menu.py:128-145 | the fields that were sent, of that category alone |
| MenuEffects.DeleteCategoryExactly | karibu-backend/app/routers/menu.py:158-203 | deleted if and only if no item, live or archived, is left in it |
| MenuEffects.StrangersItemsAreSafe | karibu-backend/app/routers/menu.py:231-315 | another tenant's item can be neither changed nor deleted |
| MenuEffects.StrangersCategoriesAreSafe | karibu-backend/app/routers/menu.py:128-203 | nor can another tenant's category |
| MenuCache.FailedDeleteStalesOneTenant | karibu-backend/app/core/cache.py:55-62 | when a cache delete fails, that tenant's next cached listing is right if and only if nothing was cached or nothing changed; no other tenant notices; expiry repairs it |
| MenuService.MenuRoutes.ListCategories | karibu-backend/app/routers/menu.py:24-63 | the answer and the cache after a listing |
| MenuService.MenuRoutes.PostCategory | karibu-backend/app/routers/menu.py:99-115 | tables and cache after creating a category |
| MenuService.MenuRoutes.PutCategory | karibu-backend/app/routers/menu.py:128-145 | tables and cache after updating one, and when it is found |
| MenuService.MenuRoutes.RemoveCategory | karibu-backend/app/routers/menu.py:158-203 | refused while it holds any item, live or archived |
| MenuService.MenuRoutes.PostItem | karibu-backend/app/routers/menu.py:206-228 | tables and cache after creating an item in an own category |
| MenuService.MenuRoutes.PutItem | karibu-backend/app/routers/menu.py:231-260 | tables and cache after updating an item that is still on the menu |
| MenuService.MenuRoutes.RemoveItem | karibu-backend/app/routers/menu.py:263-315 | archived if it was ever ordered, deleted otherwise, refused if already archived |

## Left out

- BillingSweep.SecondSweepDoesNothing: asks that the clock crosses no midnight that changes a subscription's period day between the two sweeps; if it does, a row blocked by an uncounted failure is due again, which is what `RetryExactlyWhen` says.
- BillingSerial.LockedInterleavingIsSerial: a call reads the clock once, under the lock; its row carries that reading.
- SalesReport.DaysTile: the zone is a fixed offset, as in Nairobi; a configured zone with daylight saving is not modelled.
- StockLedger.FigureIsSafeExactlyWhen: the figure is a nearest tenth of the exact quotient; which way a tie goes depends on floating point and is left open.
- Admin overrides (extend trial, comp month, suspend, reactivate): they rewrite a subscription while a charge may be open, so the billing results are for engine steps only.
- Crashes between push and commit, the gateway's HTTP calls and webhook signatures; the gateway is a parameter.
- Receipts, result texts, phone numbers, currency, e-mail to the owner, the sweep's counters, and the `attempt` and `phone_override` arguments, which no caller passes.
- The idempotency key is kept as subscription, day and attempt instead of the string built from them.
- Amounts and quantities start as integers; parsing and rounding of decimal input is not modelled.
- Tenant scoping, roles (other than the discount check), and the subscription check on the order, stock and report routes.
- The expense written with a costed delivery, notes, suppliers, reorder levels and the value of stock.
- Order references, receipt links and the descriptive fields of orders.
- Sorting of report rows, percentages, averages, top sellers, and division by 100 for display; the dashboard and the PDF and CSV exports.
- The order of equal sort numbers and of items within a category is taken to be the order of insertion.
- Concurrent requests on orders, debts, stock and the menu.
