/** One tick of the application (src/mm/app.py): fills, the quote differ, and `_execute_intents`. */
module App {
  import opened Dicts
  import opened Types
  import opened Oms
  import opened OrderManagers
  import OmsRuns
  import opened Quote
  import opened Risk

  /** What the exchange would answer to each batch of this tick. */
  datatype Gateway = Gateway(
    cancel: seq<CancelRequest> -> Reply<CancelAck>, submit: seq<OrderRequest> -> Reply<OrderAck>)

  /** The cancel requests of the cancel intents; the risk engine approves every cancel. */
  function CancelRequestsOf(intents: seq<OrderIntent>): seq<CancelRequest> {
    if intents == [] then []
    else
      var n := |intents| - 1;
      var rest := CancelRequestsOf(intents[..n]);
      if intents[n].action == Cancel && intents[n].clientOrderId.Some? then
        rest + [CancelRequest(intents[n].symbol, intents[n].clientOrderId.value, None)]
      else rest
  }

  function RequestFrom(intent: OrderIntent): OrderRequest
    requires intent.side.Some? && intent.size.Some? && intent.clientOrderId.Some?
  {
    OrderRequest(intent.symbol, intent.side.value, intent.orderType, intent.size.value, intent.price,
                 intent.clientOrderId.value, intent.strategy, intent.level)
  }

  datatype Screened = Screened(requests: seq<OrderRequest>, outcome: Outcome)

  /** The place intents the risk engine approves, all judged against the same state `s`. */
  function Screen(view: RiskView, s: OmsState, intents: seq<OrderIntent>): Screened {
    if intents == [] then Screened([], Ok)
    else
      var n := |intents| - 1;
      var before := Screen(view, s, intents[..n]);
      if before.outcome.Raised? || intents[n].action != Place then before
      else match Validate(view, intents[n], s)
        case Crashed => before.(outcome := Raised(DivisionByZero))
        case Refused(_) => before
        case Approved(_) =>
          if intents[n].clientOrderId.None? then before.(outcome := Raised(ValueError))
          else Screened(before.requests + [RequestFrom(intents[n])], Ok)
  }

  function CancelSymbol(request: CancelRequest): string { request.symbol }

  function RequestSymbol(request: OrderRequest): string { request.symbol }

  /** `_group_by_symbol` */
  function GroupBy<T>(items: seq<T>, key: T -> string): Dict<string, seq<T>> {
    if items == [] then Empty()
    else
      var n := |items| - 1;
      var rest := GroupBy(items[..n], key);
      var k := key(items[n]);
      Put(rest, k, (if k in rest.at then rest.at[k] else []) + [items[n]])
  }

  function Batches<T>(items: seq<T>, key: T -> string): seq<seq<T>> {
    var groups := GroupBy(items, key);
    Values(groups.keys, groups.at)
  }

  function CancelBatches(s: OmsState, batches: seq<seq<CancelRequest>>,
      gateway: seq<CancelRequest> -> Reply<CancelAck>): Step {
    if batches == [] then Step(s, Ok)
    else
      var n := |batches| - 1;
      var before := CancelBatches(s, batches[..n], gateway);
      if before.outcome.Raised? then before else BatchCanceled(before.state, batches[n], gateway)
  }

  function SubmitBatches(s: OmsState, batches: seq<seq<OrderRequest>>,
      gateway: seq<OrderRequest> -> Reply<OrderAck>): Step {
    if batches == [] then Step(s, Ok)
    else
      var n := |batches| - 1;
      var before := SubmitBatches(s, batches[..n], gateway);
      if before.outcome.Raised? then before else BatchSubmitted(before.state, batches[n], gateway(batches[n]))
  }

  /** The state after the cancel half of `_execute_intents`. */
  function AfterCancels(s: OmsState, intents: seq<OrderIntent>, gateway: Gateway): Step {
    CancelBatches(s, Batches(CancelRequestsOf(intents), CancelSymbol), gateway.cancel)
  }

  /** `_execute_intents`: all cancels, then all places. */
  function Execute(view: RiskView, s: OmsState, intents: seq<OrderIntent>, gateway: Gateway): Step {
    var canceled := AfterCancels(s, intents, gateway);
    if canceled.outcome.Raised? then canceled
    else
      var screened := Screen(view, canceled.state, intents);
      if screened.outcome.Raised? then Step(canceled.state, screened.outcome)
      else SubmitBatches(canceled.state, Batches(screened.requests, RequestSymbol), gateway.submit)
  }

  /** The application's state: the manager, the requote times, and the reasons latched for safe mode. */
  datatype AppState = AppState(oms: OmsState, last: map<Slot, int>, reasons: map<string, string>)

  /** What one tick is given: fills, quotes, what the risk engine reads (its safe mode is set here), the admin's safe
      mode switch, the quote engine's clock, interval and id source, and the gateway. */
  datatype TickInput = TickInput(
    fills: seq<FillEvent>, quotes: seq<QuoteIntent>, view: RiskView, adminSafeMode: bool, quoteNowMs: int,
    minRequoteMs: int, newId: Slot -> string, gateway: Gateway)

  /** `_apply_runtime_controls`: safe mode is on while the admin or any latched reason asks for it. */
  function SafeModeOn(a: AppState, t: TickInput): bool {
    t.adminSafeMode || a.reasons != map[]
  }

  function TickView(a: AppState, t: TickInput): RiskView {
    t.view.(safeMode := SafeModeOn(a, t))
  }

  function TickQuoteView(t: TickInput): QuoteView {
    QuoteView(t.view.rules, t.minRequoteMs, t.view.markets, t.quoteNowMs, t.newId)
  }

  function TickFills(a: AppState, t: TickInput): Step {
    RunOps(a.oms, OmsRuns.FillOps(t.fills))
  }

  function TickBuilt(a: AppState, t: TickInput): Built {
    BuildIntents(TickQuoteView(t), t.quotes, OpenOrders(TickFills(a, t).state, None), a.last)
  }

  datatype AppStep = AppStep(state: AppState, outcome: Outcome)

  /** The order-managing part of `tick_once`. */
  function Tick(a: AppState, t: TickInput): AppStep {
    var filled := TickFills(a, t);
    if filled.outcome.Raised? then AppStep(a.(oms := filled.state), filled.outcome)
    else
      var built := TickBuilt(a, t);
      if built.outcome.Raised? then AppStep(a.(oms := filled.state, last := built.last), built.outcome)
      else
        var done := Execute(TickView(a, t), filled.state, built.intents, t.gateway);
        AppStep(a.(oms := done.state, last := built.last), done.outcome)
  }

  // -------------------------------------------------------------------------------------- the application

  lemma {:induction false} CancelBatchesStop(s: OmsState, batches: seq<seq<CancelRequest>>,
      gateway: seq<CancelRequest> -> Reply<CancelAck>, n: nat)
    requires n <= |batches| && CancelBatches(s, batches[..n], gateway).outcome.Raised?
    ensures CancelBatches(s, batches, gateway) == CancelBatches(s, batches[..n], gateway)
  {
    if n < |batches| {
      assert batches[..|batches| - 1][..n] == batches[..n];
      CancelBatchesStop(s, batches[..|batches| - 1], gateway, n);
    } else {
      assert batches[..n] == batches;
    }
  }

  lemma {:induction false} SubmitBatchesStop(s: OmsState, batches: seq<seq<OrderRequest>>,
      gateway: seq<OrderRequest> -> Reply<OrderAck>, n: nat)
    requires n <= |batches| && SubmitBatches(s, batches[..n], gateway).outcome.Raised?
    ensures SubmitBatches(s, batches, gateway) == SubmitBatches(s, batches[..n], gateway)
  {
    if n < |batches| {
      assert batches[..|batches| - 1][..n] == batches[..n];
      SubmitBatchesStop(s, batches[..|batches| - 1], gateway, n);
    } else {
      assert batches[..n] == batches;
    }
  }

  lemma {:induction false} ScreenStops(view: RiskView, s: OmsState, intents: seq<OrderIntent>, n: nat)
    requires n <= |intents| && Screen(view, s, intents[..n]).outcome.Raised?
    ensures Screen(view, s, intents) == Screen(view, s, intents[..n])
  {
    if n < |intents| {
      assert intents[..|intents| - 1][..n] == intents[..n];
      ScreenStops(view, s, intents[..|intents| - 1], n);
    } else {
      assert intents[..n] == intents;
    }
  }

  method GroupBySymbol<T>(items: seq<T>, key: T -> string) returns (batches: seq<seq<T>>)
    ensures batches == Batches(items, key)
  {
    var groups: Dict<string, seq<T>> := Empty();
    for i := 0 to |items|
      invariant groups == GroupBy(items[..i], key)
    {
      Prefixes(items, i);
      var k := key(items[i]);
      var group := if k in groups.at then groups.at[k] else [];
      groups := Put(groups, k, group + [items[i]]);
    }
    assert items[..|items|] == items;
    batches := Values(groups.keys, groups.at);
  }

  method CollectCancels(intents: seq<OrderIntent>) returns (cancels: seq<CancelRequest>)
    ensures cancels == CancelRequestsOf(intents)
  {
    cancels := [];
    for i := 0 to |intents|
      invariant cancels == CancelRequestsOf(intents[..i])
    {
      Prefixes(intents, i);
      if intents[i].action == Cancel && intents[i].clientOrderId.Some? {
        cancels := cancels + [CancelRequest(intents[i].symbol, intents[i].clientOrderId.value, None)];
      }
    }
    assert intents[..|intents|] == intents;
  }

  method RequestCancels(open: seq<OrderRecord>) returns (requests: seq<CancelRequest>)
    ensures requests == CancelEach(open)
  {
    requests := [];
    for i := 0 to |open|
      invariant requests == CancelEach(open[..i])
    {
      Prefixes(open, i);
      requests := requests + [CancelRequest(open[i].symbol, open[i].clientOrderId, open[i].exchangeOrderId)];
    }
    assert open[..|open|] == open;
  }

  class MarketMakerApp {
    const oms: OrderManager
    const risk: RiskEngine
    const quoteEngine: QuoteEngine
    var internalSafeModeReasons: map<string, string>

    constructor (oms: OrderManager, risk: RiskEngine, quoteEngine: QuoteEngine)
      ensures this.oms == oms && this.risk == risk && this.quoteEngine == quoteEngine
      ensures internalSafeModeReasons == map[]
    {
      this.oms := oms;
      this.risk := risk;
      this.quoteEngine := quoteEngine;
      internalSafeModeReasons := map[];
    }

    method ApplyRuntimeControls(adminSafeMode: bool)
      modifies risk`safeMode
      ensures risk.safeMode == (adminSafeMode || internalSafeModeReasons != map[])
    {
      if adminSafeMode {
        risk.EnterSafeMode();
      } else if internalSafeModeReasons != map[] {
        risk.EnterSafeMode();
      } else {
        risk.ExitSafeMode();
      }
    }

    method EnterInternalSafeMode(key: string, reason: string)
      modifies this`internalSafeModeReasons, risk`safeMode
      ensures internalSafeModeReasons == old(internalSafeModeReasons)[key := reason] && risk.safeMode
    {
      internalSafeModeReasons := internalSafeModeReasons[key := reason];
      risk.EnterSafeMode();
    }

    /** `cancel_all`: every open order, in one batch. */
    method CancelAll(gateway: Gateway) returns (outcome: Outcome)
      requires oms.Valid()
      modifies oms, oms.store
      ensures oms.Valid()
      ensures Step(oms.State(), outcome)
           == BatchCanceled(old(oms.State()), CancelEach(OpenOrders(old(oms.State()), None)), gateway.cancel)
    {
      var open := oms.ListOpenOrders(None);
      var requests := RequestCancels(open);
      outcome := oms.CancelBatch(requests, gateway.cancel);
    }

    method CancelAllBatches(batches: seq<seq<CancelRequest>>, gateway: Gateway) returns (outcome: Outcome)
      requires oms.Valid()
      modifies oms, oms.store
      ensures oms.Valid()
      ensures Step(oms.State(), outcome) == CancelBatches(old(oms.State()), batches, gateway.cancel)
    {
      outcome := Ok;
      for i := 0 to |batches|
        invariant oms.Valid() && outcome == Ok
        invariant Step(oms.State(), outcome) == CancelBatches(old(oms.State()), batches[..i], gateway.cancel)
      {
        Prefixes(batches, i);
        outcome := oms.CancelBatch(batches[i], gateway.cancel);
        if outcome.Raised? {
          CancelBatchesStop(old(oms.State()), batches, gateway.cancel, i + 1);
          return;
        }
      }
      assert batches[..|batches|] == batches;
    }

    method SubmitAllBatches(batches: seq<seq<OrderRequest>>, gateway: Gateway) returns (outcome: Outcome)
      requires oms.Valid()
      modifies oms, oms.store
      ensures oms.Valid()
      ensures Step(oms.State(), outcome) == SubmitBatches(old(oms.State()), batches, gateway.submit)
    {
      outcome := Ok;
      for i := 0 to |batches|
        invariant oms.Valid() && outcome == Ok
        invariant Step(oms.State(), outcome) == SubmitBatches(old(oms.State()), batches[..i], gateway.submit)
      {
        Prefixes(batches, i);
        outcome := oms.SubmitBatch(batches[i], gateway.submit);
        if outcome.Raised? {
          SubmitBatchesStop(old(oms.State()), batches, gateway.submit, i + 1);
          return;
        }
      }
      assert batches[..|batches|] == batches;
    }

    method ScreenPlaces(intents: seq<OrderIntent>, markets: map<string, MarketSnapshot>,
        inventory: map<string, Balance>, nowMs: int)
      returns (requests: seq<OrderRequest>, outcome: Outcome)
      requires oms.Valid()
      ensures Screened(requests, outcome) == Screen(risk.View(markets, inventory, nowMs), oms.State(), intents)
    {
      ghost var view := risk.View(markets, inventory, nowMs);
      requests := [];
      outcome := Ok;
      for i := 0 to |intents|
        invariant outcome == Ok && Screened(requests, outcome) == Screen(view, oms.State(), intents[..i])
      {
        Prefixes(intents, i);
        if intents[i].action != Place {
          continue;
        }
        var verdict := risk.ValidateIntent(intents[i], markets, inventory, oms, nowMs);
        match verdict
        case Crashed =>
          ScreenStops(view, oms.State(), intents, i + 1);
          return requests, Raised(DivisionByZero);
        case Refused(_) =>
        case Approved(_) =>
          if intents[i].clientOrderId.None? {
            ScreenStops(view, oms.State(), intents, i + 1);
            return requests, Raised(ValueError);
          }
          ApprovalMeans(view, intents[i], oms.State());
          requests := requests + [RequestFrom(intents[i])];
      }
      assert intents[..|intents|] == intents;
    }

    method ExecuteIntents(intents: seq<OrderIntent>, markets: map<string, MarketSnapshot>,
        inventory: map<string, Balance>,
                          nowMs: int, gateway: Gateway)
      returns (outcome: Outcome)
      requires oms.Valid()
      modifies oms, oms.store
      ensures oms.Valid()
      ensures Step(oms.State(), outcome)
           == Execute(risk.View(markets, inventory, nowMs), old(oms.State()), intents, gateway)
    {
      var cancels := CollectCancels(intents);
      var cancelBatches := GroupBySymbol(cancels, CancelSymbol);
      outcome := CancelAllBatches(cancelBatches, gateway);
      if outcome.Raised? {
        return;
      }
      var requests;
      requests, outcome := ScreenPlaces(intents, markets, inventory, nowMs);
      if outcome.Raised? {
        return;
      }
      var placeBatches := GroupBySymbol(requests, RequestSymbol);
      outcome := SubmitAllBatches(placeBatches, gateway);
    }

    method ApplyFills(fills: seq<FillEvent>) returns (outcome: Outcome)
      requires oms.Valid()
      modifies oms, oms.store
      ensures oms.Valid()
      ensures Step(oms.State(), outcome) == RunOps(old(oms.State()), OmsRuns.FillOps(fills))
    {
      outcome := Ok;
      ghost var ops := OmsRuns.FillOps(fills);
      for i := 0 to |fills|
        invariant oms.Valid() && outcome == Ok
        invariant Step(oms.State(), outcome) == RunOps(old(oms.State()), ops[..i])
      {
        Prefixes(ops, i);
        outcome := oms.ApplyFill(fills[i]);
        if outcome.Raised? {
          RunOpsStops(old(oms.State()), ops, i + 1);
          return;
        }
      }
      assert ops[..|fills|] == ops;
    }

    ghost function State(): AppState
      reads this, oms, quoteEngine
    {
      AppState(oms.State(), quoteEngine.lastRequoteMs, internalSafeModeReasons)
    }

    /** The order-managing part of `tick_once`: `t` holds what the tick is given, except for the settings and rules that
        the engines hold. */
    method TickOnce(t: TickInput) returns (outcome: Outcome)
      requires oms.Valid() && quoteEngine.rules == risk.rules
      requires t.view.settings == risk.settings && t.view.rules == risk.rules && t.view.staleMs == risk.staleMs
      requires t.minRequoteMs == quoteEngine.minRequoteMs
      modifies oms, oms.store, risk, quoteEngine`lastRequoteMs
      ensures oms.Valid()
      ensures AppStep(State(), outcome) == Tick(old(State()), t)
    {
      ApplyRuntimeControls(t.adminSafeMode);
      outcome := ApplyFills(t.fills);
      if outcome.Raised? {
        return;
      }
      risk.dailyPnl := t.view.dailyPnl;
      assert risk.View(t.view.markets, t.view.inventory, t.view.nowMs) == TickView(old(State()), t);
      var open := oms.ListOpenOrders(None);
      var intents;
      intents, outcome := quoteEngine.BuildOrderIntents(t.quotes, open, t.view.markets, t.quoteNowMs, t.newId);
      assert quoteEngine.View(t.view.markets, t.quoteNowMs, t.newId) == TickQuoteView(t);
      hide BuildIntents, Execute;
      if outcome.Raised? {
        return;
      }
      outcome := ExecuteIntents(intents, t.view.markets, t.view.inventory, t.view.nowMs, t.gateway);
    }
  }

  function CancelEach(orders: seq<OrderRecord>): seq<CancelRequest> {
    if orders == [] then []
    else
      var n := |orders| - 1;
      CancelEach(orders[..n]) + [CancelRequest(orders[n].symbol, orders[n].clientOrderId, orders[n].exchangeOrderId)]
  }
}
