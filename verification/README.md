# Verification of the market-making engine

This project models the closed loop of the market-making engine and proves what it guarantees: the quote engine turns
desired quotes and open orders into cancels and places, the risk engine judges the places, the application executes them
through the order manager (OMS), and a gateway answers. Beside the loop it models the accounting and the data structures
the loop relies on: the paper exchange and its balances, the order store, reconciliation, profit and loss, the
private-stream processor, the sliding-window rate limiter and the versioned order book.

Where the engine updates an object in place, the project has a class with the same fields and methods. Each method is
proved equal to a function of the old state (`Oms.ApplyOp`, `Paper.TryFill`, `Quote.BuildIntents`, `Risk.Validate`,
`App.Tick`, `OrderBook.ApplyDepth`, ...), exceptions included: a call's outcome is `Ok` or `Raised(error)`, and what it had
already written stays written. The theorems are about these functions, over every sequence of calls, events or deliveries.

## Reading order

| file | content |
|---|---|
| Dicts, Types, Reals | insertion-ordered dictionaries and their sums, the records, products of reals |
| OrderState, Oms, OrderManager, Store | the per-order state machine, the OMS as atomic operations, the two classes |
| Writes | what each OMS operation writes, field by field, and which orders its lists and batches contain |
| OmsRuns, Refusals, Restart, Reconcile, Repair | life of a record, fill averaging, refused writes, restart agreement, reconciliation, repair |
| Paper, PaperExchange, PaperExact, Ledger, Rounds, Lockstep | the paper exchange, its exact answers, its balances, its fill rounds, and the OMS in step with it |
| Pricing, Quote, QuoteRuns, QuoteExact, QuoteOrder | alignment and post-only prices, the quote differ, its places, fixpoint and throttle, its exact intents and their order |
| Risk, Verdicts, Exposure | the risk engine, which rule refuses, and the money at stake in live orders |
| App, AppExact, AppRuns, Slots, Caps, CapsTight, ClosedLoop | ticks and runs of the application, its exact requests, safe mode, one order a slot, the exposure bound and that it is attained, the loop at rest |
| PaperLoop | the whole system: the application with the paper exchange as its gateway |
| RateLimit, OrderBook, Pnl, PrivateStream | the support machines |

## What the code does not give

Six properties one might expect are false of the code. The model keeps the code as it is; for each there is an input on
which it fails, and the exact condition under which it holds.

- A tick can exceed `max_total_open_value_usdt`: its places are all judged against the state before the first of them is
  submitted. With at most n approved places a tick the exposure stays within n - 1 orders of the limit, an order being
  worth at most the lesser of the total and the order limit (`Caps.ExposureStaysCapped`, `Caps.QuotesCapExposure`). For
  all positive limits and every n a tick given n quotes reaches that bound (`CapsTight.CapIsAttained`), so that runs keep
  the limit itself exactly for n = 1 (`CapsTight.LimitKeptExactly`).
- An available balance of the paper exchange can become negative, because a buy's fee is taken from it without having been
  reserved. At every positive fee rate some account is overdrawn (`Ledger.OverdrawnAt`), so that no run ever overdraws
  exactly when the rate is zero (`Ledger.NeverOverdrawsExactly`). A given run does not exactly when each of its fills finds
  the fee of a buy covered, which can be checked before the fill (`Ledger.FillCoveredExactly`, `Ledger.RunCoveredExactly`).
  No currency is overdrawn by more than those fees (`Ledger.OverdraftIsBuyFees`).
- The stored order map can fall behind the map in memory. A call, whether it returns or raises, loses a write exactly when
  its transition is refused after it wrote something new, or it is a refused cancel ack with a new exchange id for a record
  that is not CANCELING (`Restart.StepAgreement`); among calls that return only the latter can happen
  (`Restart.ReturnedLoses`, `Restart.LostWriteExample`).
- The private stream can swallow fills, in two ways: a row of an unknown state that is the first to report a larger filled
  size emits nothing and no later row makes up for it (`PrivateStream.SwallowedByUnknown`), and a message that raises
  drops its report although its rows have been written (`PrivateStream.SwallowedByRefusal`). Over any messages the emitted
  sizes add up to the increase exactly when neither happens (`PrivateStream.ConservedExactly`).
- A snapshot and an update treat a repeated price differently: in an update a later size of zero removes the price, in a
  snapshot it is skipped and the earlier size stays (`OrderBook.RepeatedPriceExample`). The two read a list of levels
  alike exactly when no price ends at a size of zero after having had a positive one (`OrderBook.SameReadingExactly`).
- A fill and an order update can be refused after the filled size and the average price have been written
  (`Refusals.RefusedFillExample`, `Refusals.RefusedUpdateExample`); the writes stay in memory, unsaved
  (`Refusals.RefusedIsWritten`). A fill is refused exactly on an order that was not submitted or has ended without filling,
  or when it leaves a rest on a CANCELING or FILLED one, never on an UNKNOWN one (`Refusals.FillRefusedExactly`); an update
  exactly when its status is not reachable (`Refusals.UpdateRefusedExactly`).

## Model

| member | source | states |
|---|---|---|
| OrderState.CreatedChangesBound | src/mm/oms/state.py:17-78 | a path of allowed transitions from CREATED changes status at most 6 + 4k times when it enters UNKNOWN k times |
| OrderState.ChangesBoundAttained | src/mm/oms/state.py:17-66 | the bound is exact: for every k some path of a submitted order reaches it |
| OrderState.PathOrder | src/mm/oms/state.py:69-78 | CREATED and SUBMITTING are never re-entered, and a terminal status is final |
| OrderState.EntersExactly | src/mm/oms/state.py:17-78 | a status can be entered exactly from itself and from the statuses listed for it, the transition table read by columns |
| OrderState.TerminalExactly | src/mm/oms/state.py:8-14 | the terminal statuses are those that nothing can leave |
| Store.JsonOrderStore.Load | src/mm/persistence/order_store.py:31-36 | reads back every row, with an empty exchange id as absent |
| Store.JsonOrderStore.Save | src/mm/persistence/order_store.py:38-49 | replaces the stored rows by the given records |
| Store.JsonOrderStore.SaveOrder | src/mm/persistence/order_store.py:51-54 | overwrites or appends the row of one order and keeps all others and their order |
| OrderManagers.OrderManager.constructor | src/mm/oms/manager.py:28-38 | the orders are those of the store, indexed by client id, the last row winning |
| OrderManagers.OrderManager.Transition | src/mm/oms/manager.py:264-276 | an allowed transition is written and persisted, a refused one raises and leaves earlier writes of the call in memory |
| OrderManagers.OrderManager.StartSubmit | src/mm/oms/manager.py:61-69 | creates the record if it is new, persists it, and moves it to SUBMITTING |
| OrderManagers.OrderManager.ApplyOrderAck | src/mm/oms/manager.py:165-177 | one `OrderAcked` step, KeyError for an unknown id |
| OrderManagers.OrderManager.ApplyCancelAck | src/mm/oms/manager.py:179-188 | one `CancelAcked` step, KeyError for an unknown id |
| OrderManagers.OrderManager.ApplyOrderUpdate | src/mm/oms/manager.py:190-197 | one `Updated` step: the filled size never goes down, writes survive a refused transition |
| OrderManagers.OrderManager.ApplyFill | src/mm/oms/manager.py:199-214 | one `FillApplied` step, division by zero included |
| OrderManagers.OrderManager.MarkUnknown | src/mm/oms/manager.py:216-220 | one `MarkedUnknown` step |
| OrderManagers.OrderManager.ApplyRemoteOrderUpdate | src/mm/oms/manager.py:222-229 | an update, or a new orphan record filed as UNKNOWN |
| OrderManagers.OrderManager.Submit | src/mm/oms/manager.py:61-82 | a submit with any gateway answer or exception is the composed steps |
| OrderManagers.OrderManager.SubmitBatch | src/mm/oms/manager.py:84-109 | the same for a batch, stopping at the first call that raises |
| OrderManagers.OrderManager.Cancel | src/mm/oms/manager.py:111-132 | a cancel with any gateway answer or exception; unknown and terminal orders are left alone |
| OrderManagers.OrderManager.CancelBatch | src/mm/oms/manager.py:134-163 | the same for a batch: only live orders reach the gateway |
| OrderManagers.OrderManager.ListOpenOrders | src/mm/oms/manager.py:46-53 | the records that are neither terminal nor UNKNOWN, of the symbol, in insertion order |
| OrderManagers.OrderManager.SumOpenNotional | src/mm/oms/manager.py:55-59 | the sum of price times remaining size over the open orders |
| OrderManagers.OrderManager.ReconcileOpenOrders | src/mm/oms/manager.py:231-251 | all updates in turn, then every open order that was not listed becomes UNKNOWN |
| Writes.UpdateWrites | src/mm/oms/manager.py:190-229 | an update takes over an id that is not empty, a larger filled size and a price that is not zero, and moves to its status if that can be entered, or raises with the other fields written and unsaved; no other record changes |
| Writes.AckWrites | src/mm/oms/manager.py:165-177 | the same for an order ack: accepted ones are at least OPEN, refused ones REJECTED, or UNKNOWN if the exchange says so |
| Writes.CancelAckWrites | src/mm/oms/manager.py:179-188 | the same for a cancel ack: refused, a CANCELING order becomes UNKNOWN, and any other only takes over the id, unsaved |
| Writes.FillWrites | src/mm/oms/manager.py:199-214 | a fill adds up to the order size, sets the size-weighted average price, and moves to FILLED exactly when nothing is left |
| Writes.StartWrites | src/mm/oms/manager.py:61-163 | starts and marks on known orders move to SUBMITTING, CANCELING and UNKNOWN; canceling a terminal order changes nothing |
| Writes.MissingWrites | src/mm/oms/manager.py:222-316 | on an unknown id a request is filed and persisted as CREATED and SUBMITTING, a remote update as an UNKNOWN orphan whose side is the reported one or read off the id, a cancel is skipped, anything else raises KeyError |
| Writes.OpenOrdersExactly | src/mm/oms/manager.py:46-59 | open_orders keeps exactly the records of the symbol that are neither terminal nor UNKNOWN, in filing order, and total_open_notional is the price of what is left of them |
| Writes.CancelBatchSendsExactly | src/mm/oms/manager.py:134-151 | the gateway gets exactly the requests for orders that exist and are not terminal, in order |
| Writes.RaisedBatchesEndUnknown | src/mm/oms/manager.py:94-163 | when the gateway raises on a batch, every order it was asked about is UNKNOWN once the call returns |
| OmsRuns.TouchFacts | src/mm/oms/manager.py:165-220 | no operation changes an order's terms; its status changes only by an allowed transition, which is persisted |
| OmsRuns.LifecycleBound | src/mm/oms/manager.py:61-276 | over any calls, raising or not, a requested record changes status at most 6 + 4k times for k entries into UNKNOWN, never goes back to CREATED or SUBMITTING, and never leaves a terminal status |
| OmsRuns.PathIsRun | src/mm/oms/manager.py:61-197 | every path of allowed transitions that starts with a submit is the persisted history of some run |
| OmsRuns.LifecycleBoundAttained | src/mm/oms/manager.py:61-197 | so the bound is exact over runs: for every k some run takes a new request through k entries into UNKNOWN and 6 + 4k changes |
| OmsRuns.SubmitResolves | src/mm/oms/manager.py:61-82 | a submit that returns leaves no order CREATED, SUBMITTING or ACKED: open only if accepted, UNKNOWN if the gateway raised, UNKNOWN or REJECTED if it refused |
| OmsRuns.CancelResolves | src/mm/oms/manager.py:111-132 | a cancel that returns ends the order or leaves it UNKNOWN; an order that was not live is untouched |
| OmsRuns.FillAveraging | src/mm/oms/manager.py:199-214 | accepted positive fills up to the order size: average times filled size is the sum of price times size, the average lies between the prices of two of the fills, and FILLED means fully filled |
| Refusals.FillRefusedExactly | src/mm/oms/manager.py:199-214 | a fill whose average can be computed raises OrderStateError exactly on a CREATED, CANCELED, PARTIALLY_CANCELED, REJECTED or EXPIRED order, or when it leaves a rest on a CANCELING or FILLED one |
| Refusals.FillDividesByZeroExactly | src/mm/oms/manager.py:199-214 | the averaging divides by zero exactly when a partly filled record that has a price ends at a filled size of zero |
| Refusals.UpdateRefusedExactly | src/mm/oms/manager.py:190-197 | an update raises exactly when its status is not reachable from the record's |
| Refusals.RefusedIsWritten | src/mm/oms/manager.py:264-276 | a refused fill or update leaves the status and the store as they were, and its filled size in memory |
| Refusals.RefusedFillExample | src/mm/oms/manager.py:199-214 | a CANCELING record whose refused fill leaves filled size and average price written and unsaved |
| Refusals.RefusedUpdateExample | src/mm/oms/manager.py:190-197 | a PARTIALLY_FILLED record whose refused OPEN report leaves a larger filled size written and unsaved |
| Restart.ReturnedLoses | src/mm/oms/manager.py:179-188 | among calls that return, only a refused cancel ack with a new exchange id on a record that is not CANCELING loses a write |
| Restart.LostWriteExample | src/mm/oms/manager.py:179-188 | such an ack for any OPEN order returns and leaves store and memory in disagreement |
| Restart.StepAgreement | src/mm/oms/manager.py:165-287 | after any call, returning or raising, store and memory agree exactly unless the call lost a write: a transition refused after something new was written, or such a cancel ack |
| Restart.RestartAgreement | src/mm/oms/manager.py:28-38 | over a run that loses no write, raising calls included, an OMS rebuilt from the store holds the same records in the same order, an empty exchange id reading back as absent |
| Restart.RestartedAgreesExactly | src/mm/oms/manager.py:28-38 | a manager built from stored rows is sound, and agrees with the store exactly when no id is stored twice |
| Restart.SessionAgrees | src/mm/oms/manager.py:28-38 | a session that starts from such a store and loses no write leaves distinct ids, and the next restart finds its last memory |
| Restart.RestartsAgree | src/mm/persistence/order_store.py:31-54 | so over any number of restarts each session starts with what was in memory at the end of the one before, an empty exchange id reading back as absent |
| Reconcile.ReconcileOpenOrders | src/mm/oms/reconcile.py:25-49 | the service's report counts exchange orders, local open orders before and after, UNKNOWN orders and orphans of the state it leaves |
| Reconcile.MarksAll | src/mm/oms/manager.py:249-251 | marking live orders never raises and changes nothing but their status |
| Reconcile.ReconcileMarksExactly | src/mm/oms/manager.py:231-251 | once its updates apply, a reconciliation returns; an unlisted record changes only if it was open and of the symbol, and then only to UNKNOWN |
| Reconcile.UnmarkedExactly | src/mm/oms/manager.py:231-248 | without marking, an unlisted record is untouched |
| Reconcile.UnknownCountExactly | src/mm/oms/reconcile.py:35-39 | unknown_count is the number of the symbol's UNKNOWN orders |
| Reconcile.CleanReconciliation | src/mm/oms/reconcile.py:35-39 | unknown_count is 0 exactly when every listed order was known and has a definite status and every unlisted order of the symbol was terminal |
| Reconcile.ReconciliationIsExact | src/mm/oms/reconcile.py:25-49 | with unknown_count 0 the local open orders are exactly the listed ones that are not terminal, with the listed statuses |
| Repair.RepairUnknownOrders | src/mm/oms/reconcile.py:51-60 | the loop over all orders, asking the exchange about the UNKNOWN ones, is its functional form; a query that raises ends it |
| Repair.RepairsExactly | src/mm/oms/reconcile.py:51-60 | a repair that returns was answered about every UNKNOWN order, and moves exactly those the exchange knows, to the reported status, and lists them |
| Repair.RepairIsComplete | src/mm/oms/reconcile.py:51-60 | afterwards no order is UNKNOWN exactly when the exchange knew every one of them |
| PaperExchanges.PaperExchange.SubmitOrder | src/mm/exchange/paper.py:107-129 | reserves and opens, or rejects; the whole new state |
| PaperExchanges.PaperExchange.CancelOrder | src/mm/exchange/paper.py:131-150 | releases what is left and closes, or refuses; the whole new state |
| PaperExchanges.PaperExchange.CancelAll | src/mm/exchange/paper.py:152-167 | cancels every open order of the symbol, in order |
| PaperExchanges.PaperExchange.SimulateFills | src/mm/exchange/paper.py:196-219 | half-size fills of the orders the market reaches, in order; the whole new state |
| PaperExchanges.PaperExchange.GetOpenOrders | src/mm/exchange/paper.py:67-84 | one update for each open order of the symbol |
| PaperExact.SubmitExactly | src/mm/exchange/paper.py:107-129 | a submit is accepted exactly when the symbol has a rule, a price is given, the minimums are met and price times size of the quote currency (buy) or size of the base currency (sell) is available; it is then open with its whole size under the next id and that amount is frozen; a rejection opens and moves nothing; without a rule there is no answer |
| PaperExact.SubmitBatchExactly | src/mm/exchange/paper.py:107-129 | a batch is submitted in order up to the first symbol without a rule, which raises; what was submitted before stays |
| PaperExact.CancelExactly | src/mm/exchange/paper.py:131-150 | a cancel is accepted exactly when the order is open; what is left of it is unlocked, and the status says whether any of it was filled |
| PaperExact.FillExactly | src/mm/exchange/paper.py:196-283 | a turn of simulate_fills fills an order exactly when the market has reached it, by half at its price, with the maker fee on that half, and moves exactly these amounts |
| PaperExact.ListsExactly | src/mm/exchange/paper.py:67-84 | get_open_orders lists, and cancel_all cancels, exactly the open orders of the symbol |
| PaperExact.PaperIdsDiffer | src/mm/exchange/paper.py:117 | exchange ids are decimal counters, no two alike |
| Ledger.FrozenAlwaysReserved | src/mm/exchange/paper.py:221-283 | over any run with fresh client ids each currency's frozen amount equals price times remaining over open buys quoted in it plus remaining over open sells based in it, across symbols |
| Ledger.CancelAllReleases | src/mm/exchange/paper.py:152-167 | after cancel_all without a symbol nothing is open and every frozen amount is zero |
| Ledger.StepTotal | src/mm/exchange/paper.py:107-150 | submits and cancels leave available plus frozen unchanged, a fill changes it by its flow |
| Ledger.TotalsConserved | src/mm/exchange/paper.py:253-283 | over any run available plus frozen is the initial amount plus signed fill flows less fees |
| Ledger.OverdraftIsBuyFees | src/mm/exchange/paper.py:253-283 | with fees between 0 and 100 percent, available plus the buy fees paid so far is never negative |
| Ledger.OverdrawnAt | src/mm/exchange/paper.py:253-283 | at every positive fee rate a two-step run of a fully reserved account overdraws it by that rate |
| Ledger.NeverOverdrawsExactly | src/mm/exchange/paper.py:253-283 | a fee rate between 0 and 100 percent keeps every run from overdrawing any currency exactly when it is zero |
| Ledger.FillCoveredExactly | src/mm/exchange/paper.py:253-283 | a fill leaves every available amount nonnegative exactly when, for a buy, the quote currency covers the fee |
| Ledger.RunCoveredExactly | src/mm/exchange/paper.py:107-283 | a run overdraws no currency at any point exactly when every one of its fills meets that guard |
| Rounds.RoundFillsExactly | src/mm/exchange/paper.py:196-219 | a round fills exactly the open orders whose limit price the market has reached, once each and in order, for half of their size at that price; an order whose second half is filled is gone, all others are untouched |
| Lockstep.InStepMeans | src/mm/exchange/paper.py:67-84 | in step: the OMS's open ids are the exchange's open orders in order, filled size is size minus remaining, all or half of an order is left; all other records are terminal, and FILLED, PARTIALLY_CANCELED, CANCELED and REJECTED say whether all, a part or nothing was filled |
| Lockstep.SubmitKeepsStep | src/mm/exchange/paper.py:107-129 | a batch with fresh ids returns normally and keeps the two in step, rejected orders included |
| Lockstep.CancelKeepsStep | src/mm/exchange/paper.py:131-150 | so does a batch of cancels, whatever ids it names |
| Lockstep.FillsKeepStep | src/mm/exchange/paper.py:196-219 | so does a round of simulate_fills whose fills are all applied |
| Lockstep.ReconcileKeepsStep | src/mm/oms/manager.py:231-251 | reconciling with get_open_orders returns normally and changes no status |
| Lockstep.LockstepRun | src/mm/exchange/paper.py:107-219 | over any sequence of such turns no OrderStateError or KeyError is raised and the two stay in step |
| Lockstep.EmptyInStep | src/mm/exchange/paper.py:37-56 | an empty OMS and an exchange without open orders are in step |
| Pricing.FloorToBounds | src/mm/common/decimal.py:21-24 | the greatest multiple of the increment that is not above the value |
| Pricing.CeilToBounds | src/mm/common/decimal.py:27-30 | the least multiple that is not below it |
| Pricing.PostOnlyPriceIsPassive | src/mm/quote/engine.py:101-113 | a multiple of the tick, no better than desired, never crossing, less than two ticks from the better of desired price and opposite quote |
| Pricing.PostOnlyPriceExactly | src/mm/quote/engine.py:101-113 | a bid is the greatest multiple of the tick not above the desired price if that is below the ask, and otherwise the multiple in (ask - 2 ticks, ask - tick]; an ask the mirror image |
| Pricing.PostOnlyIsOne | src/mm/quote/engine.py:101-113 | only one price is so |
| Pricing.AlignedIsOne | src/mm/common/types.py:85-86 | the aligned size is the one multiple of the step within a step below the size |
| Quote.QuoteEngine.IndexOpenOrders | src/mm/quote/engine.py:119-127 | the open orders by slot, a later one replacing an earlier one, those without a level left out |
| Quote.QuoteEngine.QuoteOne | src/mm/quote/engine.py:52-98 | one slot's decision, its intents and its requote time |
| Quote.QuoteEngine.BuildOrderIntents | src/mm/quote/engine.py:21-99 | stale cancels first, then the desired slots in order; KeyError and ValueError as outcomes, requote times kept when it raises |
| QuoteRuns.EmittedPlacesAreGood | src/mm/quote/engine.py:21-113 | every emitted place is for a desired quote, aligned to tick and step, above the minimums and passive |
| QuoteRuns.EmittedPlacesAreAdmissible | src/mm/risk/engine.py:68-107 | such a place is never refused for market_minimums or post_only_cross on the same snapshot and rules |
| QuoteRuns.CanceledExactly | src/mm/quote/engine.py:34-81 | an open order is canceled exactly when it has a level and its slot is not desired any more or is being replaced |
| QuoteExact.IndexIsLast | src/mm/quote/engine.py:119-127 | the order of a slot is the last open one in it |
| QuoteExact.DesiredIsLast | src/mm/quote/engine.py:28-33 | the quote of a slot is the last one for it |
| QuoteExact.IntentsExactly | src/mm/quote/engine.py:21-99 | an intent is emitted exactly when it cancels the order of a slot no longer desired, or belongs to the replacement or first place of a slot that is wanted at the post-only price and aligned size, meets the minimums, and holds nothing, or an order with another price or remaining size whose interval has passed |
| QuoteExact.ReplacedExactly | src/mm/quote/engine.py:62-98 | an open order of a wanted slot is replaced exactly when its price or remaining size differs from these and the interval has passed, by a place of exactly these |
| QuoteExact.DesiredIsShown | src/mm/quote/engine.py:21-117 | once the intents of a call with nothing throttled are carried out, every wanted slot holds an open order at exactly that price with exactly that size left |
| QuoteExact.RequoteTimesExactly | src/mm/quote/engine.py:64-98 | a call that returns sets the requote time of exactly the slots it places |
| QuoteExact.RaisesExactly | src/mm/quote/engine.py:52-61 | a call raises exactly when a desired symbol has no rule or an increment that is not positive, with the error of the first such slot |
| QuoteExact.ReplacementsFollow | src/mm/quote/engine.py:68-98 | each replacement directly follows the cancel of the order it replaces |
| QuoteOrder.IntentsInOrder | src/mm/quote/engine.py:28-98 | the cancels of slots no longer desired come first, in the order in which their slots first appear among the open orders, then the intents of the desired slots in the order in which these first appear among the quotes, the cancel of a slot before its place |
| QuoteRuns.Fixpoint | src/mm/quote/engine.py:21-99 | once the intents of a pass without throttled slots are carried out, a pass over the same quotes and market emits nothing, at any later time |
| QuoteRuns.RequotesAreSpaced | src/mm/quote/engine.py:64-98 | over any sequence of calls, raising ones included, every emitted place that replaces an order comes at least min_requote_interval_ms after the latest earlier place of its slot |
| QuoteRuns.ReplacementsKeepDistance | src/mm/quote/engine.py:64-98 | while the clock does not run backwards, it keeps that distance from every earlier place of its slot |
| Risk.RiskEngine.ValidateIntent | src/mm/risk/engine.py:33-117 | the verdict of the checks in the engine's order, with the rule that refused |
| Risk.ApprovedExactly | src/mm/risk/engine.py:33-117 | a place is approved exactly when it meets every limit, stated in no particular order |
| Risk.NearExactly | src/mm/risk/engine.py:99-101 | the deviation check passes exactly the prices within the given basis points of the mid price on either side; with a negative mid price, those at least that far away |
| Verdicts.VerdictExactly | src/mm/risk/engine.py:33-117 | the reported rule is the first one violated in the order of the checks; the engine raises exactly when none before the deviation check is violated and the mid price is zero |
| Risk.HasUnknownMeans | src/mm/risk/engine.py:62-63 | the UNKNOWN check looks at the orders of every symbol |
| Exposure.StepStake | src/mm/oms/manager.py:165-229 | of all OMS operations only starting a submit adds to a symbol's exposure, by price times size; UNKNOWN orders that reopen and imported orphans add nothing |
| Exposure.OpenNotionalIsExposure | src/mm/oms/manager.py:55-59 | when no order is UNKNOWN, total_open_notional is the whole exposure |
| App.MarketMakerApp.ApplyRuntimeControls | src/mm/app.py:208-216 | safe mode is on exactly when the admin or any latched reason asks for it |
| App.MarketMakerApp.EnterInternalSafeMode | src/mm/app.py:218-220 | latches the reason and turns safe mode on |
| App.MarketMakerApp.CancelAll | src/mm/app.py:159-169 | one batch of cancels for every open order |
| App.GroupBySymbol | src/mm/app.py:320-325 | the batches of the requests by symbol, in order of first appearance |
| App.MarketMakerApp.ExecuteIntents | src/mm/app.py:171-206 | all cancels by symbol, then all places judged against one state, then the approved ones by symbol; stops at the first exception |
| App.MarketMakerApp.TickOnce | src/mm/app.py:127-157 | controls, fills, quoting and execution as one state change, exceptions included |
| AppExact.CancelsExactly | src/mm/app.py:175-190 | the cancel requests are the cancel intents that name an order, one for each, in order |
| AppExact.ScreenReturns | src/mm/app.py:194-202 | screening returns exactly when no place makes the engine raise and no approved one lacks an id |
| AppExact.ScreenExactly | src/mm/app.py:194-202 | a screening that returns requests exactly the approved places, field by field, in order |
| AppExact.CancelEachExactly | src/mm/app.py:159-169 | cancel_all asks for every open order, with its exchange id |
| AppExact.GroupIsFiltered | src/mm/app.py:320-325 | the batch of a symbol is the requests for it, in order |
| AppExact.GroupsInOrder | src/mm/app.py:320-325 | the batches come in the order in which their symbols first appear |
| AppExact.TickKeepsTimes | src/mm/app.py:127-157 | a tick keeps the requote times its differ decided, also when the differ or a later call raises, and never touches the latched reasons |
| AppRuns.ScreenMembers | src/mm/app.py:194-204 | every request was approved against the state before any of them was submitted |
| AppRuns.LatchStopsSubmits | src/mm/app.py:208-220 | once a reason is latched, every later tick still fills and cancels but submits nothing, whatever the admin's switch says |
| AppRuns.SafeModeExactly | src/mm/app.py:208-220 | in any run, while the admin's switch is on or a reason is latched a tick submits nothing; with the switch off and no reason it submits what the engine approves with safe mode off |
| AppRuns.RunIsTrace | src/mm/app.py:127-206 | a run of the application is a run of OMS operations, so that what holds over those holds over it |
| AppRuns.AppLifecycleBound | src/mm/app.py:127-206 | so over any run of the application a record changes status at most 6 + 4k times for k entries into UNKNOWN, never goes back to CREATED or SUBMITTING, and never leaves a terminal status |
| Slots.CancelBatchSettles | src/mm/oms/manager.py:134-163 | a cancel batch that returns leaves every order it was asked to cancel terminal or UNKNOWN |
| Slots.ApprovedSlotIsFree | src/mm/app.py:171-206 | nothing is live any more in a slot for which a place is approved |
| Slots.TickKeepsOneLive | src/mm/app.py:127-206 | a tick, whether or not it raises, keeps at most one live order (UNKNOWN included) in every slot |
| Slots.OneLiveOrderPerSlot | src/mm/app.py:171-206 | so does every run, with any OMS calls other than submits between ticks |
| Caps.ScreenFits | src/mm/app.py:194-202 | k approved places of a symbol exceed the total limit by at most k - 1 orders of the lesser of both limits |
| Caps.RequestsStake | src/mm/app.py:203-204 | submitting requests batch by batch adds at most their summed notional to the exposure |
| Caps.ExposureStaysCapped | src/mm/app.py:194-204 | if every tick approves at most n places for a symbol, its exposure stays, over every run, at most max_total_open_value_usdt plus n - 1 times the lesser of that and max_order_value_usdt, or does not grow while it is above; for n = 1 the limit itself |
| Caps.RequestsAtMostQuotes | src/mm/quote/engine.py:28-99 | a tick submits no more requests for a symbol than it was given quotes for it |
| Caps.QuotesCapExposure | src/mm/app.py:127-206 | so the same bound holds over every run whose ticks are given at most n quotes for the symbol |
| CapsTight.CapIsAttained | src/mm/app.py:127-206 | for all positive limits and every n, from a state within the bound, a tick given n quotes reaches it exactly |
| CapsTight.LimitKeptExactly | src/mm/app.py:194-204 | runs whose ticks get at most n quotes for a symbol keep its exposure within max_total_open_value_usdt exactly when n is 1 |
| ClosedLoop.ThroughIsCarriedOut | src/mm/app.py:171-206 | when every place is approved and the gateway accepts, executing the intents leaves the old open orders that were not canceled, unchanged, and one open order showing each place |
| ClosedLoop.LoopComesToRest | src/mm/app.py:127-206 | after such a tick every further tick on the same quotes, markets and rules and without fills changes nothing at all |
| ClosedLoop.WaitedIsUnthrottled | src/mm/quote/engine.py:64-67 | once the clock has passed the requote interval of every desired slot, none is throttled |
| ClosedLoop.ThrottledLoopSettles | src/mm/app.py:127-206 | after any tick, throttled or raising, a tick one interval later has no throttled slot, and if its intents get through every further tick on its inputs changes nothing |
| PaperLoop.PaperCancelsAnswer | src/mm/exchange/paper.py:131-150 | the paper exchange answers every cancel of a tick for the order it was asked about, and ends the orders whose cancel it accepts |
| PaperLoop.TickKeepsStep | src/mm/app.py:127-206 | a tick with the paper exchange as its gateway is its fills, cancel batches and submit batches played on both machines in turn; it returns, and keeps the OMS in step with the exchange and frozen amounts reserved |
| PaperLoop.TickKeepsLimits | src/mm/app.py:127-206 | such a tick keeps at most one live order in a slot, and the exposure bound |
| PaperLoop.EventKeepsLimits | src/mm/app.py:159-285 | a runtime command's cancels, cancel_all, a reconciliation or a latched reason between ticks returns, keeps all of this and adds no exposure |
| PaperLoop.PaperRun | src/mm/app.py:127-285 | over any run of such ticks with runtime commands, cancel_all, reconciliations and latched reasons between them, nothing raises, no order is ever UNKNOWN, the local open orders are the exchange's in the same order, every frozen amount is what the open orders reserve, at most one order is live in a slot, and exposures stay within the bound |
| PaperLoop.StartIsSteady | src/mm/exchange/paper.py:37-56 | a run may start with no orders and nothing frozen |
| RateLimit.SlidingWindowRateLimiter.Create | src/mm/exchange/rate_limit.py:20-28 | ValueError unless both parameters are positive |
| RateLimit.SlidingWindowRateLimiter.Prune | src/mm/exchange/rate_limit.py:67-69 | drops exactly the expired calls at the front |
| RateLimit.SlidingWindowRateLimiter.Allow | src/mm/exchange/rate_limit.py:30-37 | one attempt: a grant is recorded, a refusal only prunes |
| RateLimit.SlidingWindowRateLimiter.Wait | src/mm/exchange/rate_limit.py:39-49 | returns at the first clock reading at which an attempt is granted, and no later than the oldest call expires |
| RateLimit.SlidingWindowRateLimiter.Snapshot | src/mm/exchange/rate_limit.py:51-65 | used, remaining and the time until the oldest call expires |
| RateLimit.RefusalIsHarmless | src/mm/exchange/rate_limit.py:39-49 | a refused attempt has no effect on a later one, so that wait is a run of attempts |
| RateLimit.OneSleepSuffices | src/mm/exchange/rate_limit.py:47-49 | after a refusal, an attempt after the computed sleep is granted |
| RateLimit.SleepIsNeeded | src/mm/exchange/rate_limit.py:47-49 | the computed sleep ends exactly when the oldest call expires; no attempt before that is granted |
| RateLimit.GrantsAreSpaced | src/mm/exchange/rate_limit.py:30-49 | any max_calls + 1 consecutive grants span at least the window, over every run with a nondecreasing clock |
| RateLimit.NoWindowOverflows | src/mm/exchange/rate_limit.py:30-49 | no half-open window holds more than max_calls grants |
| RateLimit.RefusedExactlyWhenFull | src/mm/exchange/rate_limit.py:30-37 | an attempt is refused exactly when the last max_calls grants are all younger than the window |
| OrderBook.OrderBook.Apply | src/mm/market_data/orderbook.py:34-52 | snapshot, stale, next and gap deliveries; the whole new state |
| OrderBook.OrderBook.ApplyLevels | src/mm/market_data/orderbook.py:83-89 | the levels written over one side, in order |
| OrderBook.OrderBook.LevelsToDict | src/mm/market_data/orderbook.py:79-81 | of the positive sizes for a price, the last |
| OrderBook.ChainIsFirstDelivered | src/mm/market_data/orderbook.py:44-52 | the deliveries a book takes are the first one of each next version after the one before, and none is missed |
| OrderBook.BookIsItsLog | src/mm/market_data/orderbook.py:34-52 | under any stale, duplicated, early or foreign deliveries the book is its snapshot with those deliveries written over it once, in order, as of the last of them |
| OrderBook.BookIsItsVersions | src/mm/market_data/orderbook.py:34-52 | with consistent redelivery the book depends on its snapshot and version only |
| OrderBook.GapExactly | src/mm/market_data/orderbook.py:34-52 | after any deliveries a further one raises a gap exactly when its version is beyond the next one awaited, ValueError exactly when it is for another symbol, and one that raises changes nothing |
| OrderBook.GapBeforeSnapshot | src/mm/market_data/orderbook.py:34-46 | before the first snapshot every update of the book's own symbol raises a gap |
| OrderBook.LastWriteWins | src/mm/market_data/orderbook.py:79-89 | a price shows the last size written since the snapshot, or else the snapshot's last positive size |
| OrderBook.SameReadingExactly | src/mm/market_data/orderbook.py:79-89 | a snapshot and an update read a list of levels alike exactly when every price that has a positive size ends with one |
| OrderBook.RepeatedPriceExample | src/mm/market_data/orderbook.py:79-89 | two levels of one price that they read differently |
| OrderBook.SizesArePositive | src/mm/market_data/orderbook.py:79-89 | no book ever shows a size that is not positive |
| OrderBook.TopsAreSorted | src/mm/market_data/orderbook.py:73-77 | top_bids and top_asks are strictly sorted, cut at the level count, and better than every price left out |
| OrderBook.TopsAreHeadedByBest | src/mm/market_data/orderbook.py:54-71 | they are headed by snapshot()'s best prices and sizes, which bound every price of the book |
| OrderBook.OrderBook.TopBids | src/mm/market_data/orderbook.py:73-74 | the best bids, strictly falling, cut at the level count, better than every bid left out |
| OrderBook.OrderBook.TopAsks | src/mm/market_data/orderbook.py:76-77 | the same for asks, strictly rising |
| OrderBook.OrderBook.Snapshot | src/mm/market_data/orderbook.py:54-71 | these tops, with the highest bid and the lowest ask and their sizes, zero on an empty side |
| Pnl.SymbolPnl.ApplyFill | src/mm/accounting/pnl.py:18-49 | position, average cost, realized profit and fees after a fill |
| Pnl.PnlIdentity | src/mm/accounting/pnl.py:18-49 | from flat, over any fills, the position is not negative and total(mark) is mark times position plus matched sells less buys less fees |
| Pnl.AverageCostIsBetween | src/mm/accounting/pnl.py:31-49 | while long the average cost lies between the least and the greatest price paid since last flat |
| Pnl.FlatCostsNothing | src/mm/accounting/pnl.py:41-49 | a flat position has average cost zero |
| Pnl.PnlTracker.ForSymbol | src/mm/accounting/pnl.py:59-62 | the symbol's state, created flat when it is new |
| Pnl.PnlTracker.ApplyFill | src/mm/accounting/pnl.py:56-57 | changes the fill's symbol and no other |
| Pnl.PnlTracker.TotalPnl | src/mm/accounting/pnl.py:64-72 | the sum over the symbols, marked at mid, or without unrealized profit when there is no market |
| Pnl.TrackerProjects | src/mm/accounting/pnl.py:52-62 | a symbol's state is that of its own fills |
| Pnl.TotalIsWorth | src/mm/accounting/pnl.py:64-72 | total_pnl is what the fills are worth at mid, a symbol without a market at its average cost |
| PrivateStream.BitMartPrivateStreamProcessor.ApplyOrderRows | src/mm/exchange/bitmart/private_stream.py:70-101 | the rows in turn with their counters and fills, ending at the first that raises |
| PrivateStream.FillsAreConserved | src/mm/exchange/bitmart/private_stream.py:73-94 | over accepted rows, duplicated or out of order, a record ends at the greatest size reported, and the emitted sizes are its increase less what rows of unknown state were first to report |
| PrivateStream.RowRefusedExactly | src/mm/exchange/bitmart/private_stream.py:73-94 | a row raises exactly when its order is known and cannot take its status |
| PrivateStream.MessagesConserved | src/mm/exchange/bitmart/private_stream.py:70-101 | over any messages, refused ones included, an order's emitted sizes are its increase less what rows of unknown state were first to report and what messages that raise wrote |
| PrivateStream.ConservedExactly | src/mm/exchange/bitmart/private_stream.py:70-101 | they add up to the increase exactly when no message that returns had a row of unknown state first to report a larger size, and none that raises handled a row with a larger size |
| PrivateStream.SwallowedByUnknown | src/mm/exchange/bitmart/private_stream.py:73-94 | a row of unknown state that reports 3.0 first, after which 3.0 are filled and nothing was emitted |
| PrivateStream.SwallowedByRefusal | src/mm/exchange/bitmart/private_stream.py:73-94 | two messages without unknown states, the first refused, after which 3.0 are filled and nothing was emitted |
| PrivateStream.EmittedArePositive | src/mm/exchange/bitmart/private_stream.py:91-94 | every emitted fill has a positive size |
| PrivateStream.EmittedFillsMatchRows | src/mm/exchange/bitmart/private_stream.py:116-150 | every emitted fill comes from a row, with its fee and price, and the side and symbol of the known order |
| PrivateStream.RowExactly | src/mm/exchange/bitmart/websocket.py:65-88 | a row without a client id is filed as UNKNOWN under its exchange id; any other has the status its state stands for |
| PrivateStream.EmittedExactly | src/mm/exchange/bitmart/private_stream.py:85-150 | a row emits a fill exactly when its order was known, has more filled than before and a known status; what each field of the fill is |
| PrivateStream.ReportCounts | src/mm/exchange/bitmart/private_stream.py:70-101 | the report of a call that returns counts the rows, the orders it created, and the rows that left their order UNKNOWN |
| PrivateStream.RedeliveryEmitsNothing | src/mm/exchange/bitmart/private_stream.py:73-94 | redelivering an accepted row at once is accepted, emits nothing, and changes no known order |

## Left out

- Decimal's 38-digit context: amounts are exact reals, so rounding of quotients and products is not modelled.
- Market snapshots, balances and daily profit of a tick: inputs of `App.Tick`, as are its fills, which the source collects symbol by symbol and applies in the same order.
- Clock readings inside a call: the differ and the risk engine get one reading each per tick, the limiter one per attempt.
- Timestamps, messages, trade ids and liquidity flags, the event log, metrics and counters: no guarantee depends on them.
- Aliasing of order records: a record is a value held in the orders dictionary, and every write replaces it there.
- asyncio interleaving inside one OMS call: a call is atomic between its gateway request and its answer; other OMS calls land between ticks.
- Gateways other than the paper exchange (HTTP, WebSocket, signing): a gateway call is a function from the batch to acks or an exception, constrained only where a theorem says so.
- JSON text, temporary files and file replacement in the store, and the SQLite and Postgres stores: the store is its list of rows.
- `new_client_order_id`: a function from the slot to the id, given to each call; freshness and difference of ids are assumed only where a theorem says so.
- Key fallbacks and number parsing of private-stream rows and depth rows, balance rows and inventory, and the dispatch on the message's table: a row holds its parsed fields.
- PrivateStream.BitMartPrivateStreamProcessor.ApplyOrderRows: also returns the report gathered when a row raises, which the source's exception drops; `PrivateStream.RunMessages` drops it as well.
- Paper.CancelOrder and Paper.TryFill: skip the rule lookup's KeyError, which no open order can reach, because a submit needs the symbol's rule.
- `next_market_snapshot`, `query_order`, `get_balances` and `load_markets` of the paper exchange: market simulation and plain reads.
- Runtime command files, the startup sequence of `run`, the private-stream task and the hedging engine: plumbing around the modelled calls. The cancels of runtime commands come at the start of a tick, before its fills, and are events between ticks here, for any choice of orders.
- Strategy engine and plugins, fair price, budget allocation, health checks and the admin server: the differ is given arbitrary quotes.
- Caps.ExposureStaysCapped: counts the places a tick approves, and takes the limits of the symbol as constant over the run and minimum sizes as positive.
- Slots.OneLiveOrderPerSlot: assumes that the gateway answers every cancel it does not raise on, and that a cancel it accepts carries a terminal status.
- ClosedLoop.LoopComesToRest: assumes fresh, pairwise different client ids for the places of its first tick.
- PaperLoop.PaperRun: assumes that the application and the exchange have the same rules, with positive increments and minimum sizes, that quotes name their symbols, that mid prices are not zero, and that new client ids are fresh; the snapshots, quotes, settings and clock readings of its ticks are arbitrary.
