/** What the paper exchange's balances amount to (src/mm/exchange/paper.py:221-283). */
module Ledger {
  import opened Dicts
  import opened Types
  import opened Paper
  import opened Reals

  // ------------------------------------------------------------------------- reservations

  function Reserved(rules: map<string, MarketRule>, currency: string, order: PaperOrder): real {
    if order.request.symbol !in rules then 0.0
    else
      var rule := rules[order.request.symbol];
      if order.request.side == Buy then
        if rule.quote == currency then order.request.price.GetOr(0.0) * order.remaining else 0.0
      else
        if rule.base == currency then order.remaining else 0.0
  }

  function ReservedIn(rules: map<string, MarketRule>, currency: string): PaperOrder -> real {
    order => Reserved(rules, currency, order)
  }

  /** Every unit of `currency` that is frozen is reserved by an open order, and the other way round. */
  predicate FrozenIsReserved(ex: Exchange, currency: string) {
    BalanceOf(ex.balances, currency).frozen == Sum(ex.open, ReservedIn(ex.rules, currency))
  }

  /** What every open order of the exchange looks like. */
  predicate OrderFits(ex: Exchange, id: string, order: PaperOrder) {
    && order.request.clientOrderId == id
    && order.request.symbol in ex.rules
    && order.request.price.Some?
    && (order.remaining == order.request.size
        || (order.request.size > 0.0 && order.remaining == order.request.size / 2.0))
  }

  ghost predicate WellFormed(ex: Exchange) {
    ex.open.Valid() && forall id | id in ex.open.at :: OrderFits(ex, id, ex.open.at[id])
  }

  lemma AdjustOne(balances: map<string, Balance>, c: string, available: real, frozen: real, x: string)
    ensures var b := BalanceOf(balances, x); var r := BalanceOf(Adjust(balances, c, available, frozen), x);
      if x == c then r == Balance(b.available + available, b.frozen + frozen) else r == b
  {
  }

  /** The order a fill leaves behind is gone, or has half its size left. */
  lemma HalfFill(order: PaperOrder)
    requires order.remaining == order.request.size
          || (order.request.size > 0.0 && order.remaining == order.request.size / 2.0)
    requires FillSize(order) > 0.0
    ensures order.request.size > 0.0 && FillSize(order) == order.request.size / 2.0
    ensures var left := order.remaining - FillSize(order);
      left == 0.0 || left == order.request.size / 2.0
  {
  }

  predicate Settles(ex: Exchange, id: string, snapshot: MarketSnapshot) {
    && id in ex.open.at
    && var order := ex.open.at[id];
    && order.request.symbol == snapshot.symbol && order.request.symbol in ex.rules
    && ShouldFill(order.request, snapshot) && FillSize(order) > 0.0
  }

  lemma SettlesOpen(ex: Exchange, id: string, snapshot: MarketSnapshot)
    ensures Settles(ex, id, snapshot) ==> id in ex.open.at
  {
  }

  /** What a fill does to the exchange: half of the order's size goes, and with its second half the order. */
  lemma SettledOrder(ex: Exchange, id: string, snapshot: MarketSnapshot)
    requires WellFormed(ex) && Settles(ex, id, snapshot)
    ensures var e := TryFill(ex, id, snapshot); var order := ex.open.at[id]; var half := order.request.size / 2.0;
      && |e.fills| == 1 && e.fills[0].clientOrderId == id && e.fills[0].size == half > 0.0
      && e.exchange.rules == ex.rules && e.exchange.makerFeeBps == ex.makerFeeBps
      && (order.remaining == 2.0 * half || order.remaining == half)
      && e.exchange.open == if order.remaining == half then Pop(ex.open, id)
                            else Put(ex.open, id, order.(remaining := half))
  {
    hide Distinct, KeySet, ShouldFill, FeeOf, Settle, Without;
    assert OrderFits(ex, id, ex.open.at[id]);
    HalfFill(ex.open.at[id]);
  }

  lemma SubmitWellFormed(ex: Exchange, request: OrderRequest)
    requires WellFormed(ex)
    ensures WellFormed(SubmitOrder(ex, request).exchange)
  {
    PutValid(ex.open, request.clientOrderId, PaperOrder(request, PaperId(ex.nextOrder), request.size));
  }

  lemma CancelWellFormed(ex: Exchange, request: CancelRequest)
    requires WellFormed(ex)
    ensures WellFormed(CancelOrder(ex, request).exchange)
  {
    PopValid(ex.open, request.clientOrderId);
  }

  lemma FillWellFormed(ex: Exchange, id: string, snapshot: MarketSnapshot)
    requires WellFormed(ex)
    ensures WellFormed(TryFill(ex, id, snapshot).exchange)
  {
    if Settles(ex, id, snapshot) {
      var order := ex.open.at[id];
      assert OrderFits(ex, id, order);
      HalfFill(order);
      PopValid(ex.open, id);
      PutValid(ex.open, id, order.(remaining := order.remaining - FillSize(order)));
    }
  }

  lemma StepWellFormed(ex: Exchange, op: ExOp)
    requires WellFormed(ex)
    ensures WellFormed(ApplyEx(ex, op).exchange) && ApplyEx(ex, op).exchange.rules == ex.rules
    ensures ApplyEx(ex, op).exchange.makerFeeBps == ex.makerFeeBps
  {
    hide WellFormed, Settle, Put, Pop, Adjust, Release, FillSize;
    match op
    case Submits(request) => SubmitWellFormed(ex, request);
    case Cancels(request) => CancelWellFormed(ex, request);
    case Fills(id, snapshot) => FillWellFormed(ex, id, snapshot);
  }

  /** A submit whose client id is not in use. */
  predicate FreshStep(ex: Exchange, op: ExOp) {
    op.Submits? ==> op.request.clientOrderId !in ex.open.at
  }

  lemma WellFormedValid(ex: Exchange)
    requires WellFormed(ex)
    ensures ex.open.Valid()
  {
  }

  lemma SubmitFrozen(ex: Exchange, request: OrderRequest, c: string)
    requires WellFormed(ex) && FrozenIsReserved(ex, c) && request.clientOrderId !in ex.open.at
    ensures FrozenIsReserved(SubmitOrder(ex, request).exchange, c)
  {
    hide WellFormed, Sum, Put;
    WellFormedValid(ex);
    var end := SubmitOrder(ex, request).exchange;
    if end.nextOrder != ex.nextOrder {
      var order := PaperOrder(request, PaperId(ex.nextOrder), request.size);
      SumPut(ex.open, request.clientOrderId, order, ReservedIn(ex.rules, c));
    }
  }

  lemma ReservedBy(rules: map<string, MarketRule>, c: string, order: PaperOrder)
    requires order.request.symbol in rules
    ensures Reserved(rules, c, order) ==
      if ReservedCurrency(rules[order.request.symbol], order.request.side) == c
      then ReservedAmount(order.request.side, order.request.price.GetOr(0.0), order.remaining) else 0.0
  {
  }

  lemma CancelFrozen(ex: Exchange, request: CancelRequest, c: string)
    requires WellFormed(ex) && FrozenIsReserved(ex, c)
    ensures FrozenIsReserved(CancelOrder(ex, request).exchange, c)
  {
    var id := request.clientOrderId;
    if id in ex.open.at {
      var order := ex.open.at[id];
      assert OrderFits(ex, id, order);
      SumPop(ex.open, id, ReservedIn(ex.rules, c));
      ReservedBy(ex.rules, c, order);
      var amount := ReservedAmount(order.request.side, order.request.price.GetOr(0.0), order.remaining);
      AdjustOne(ex.balances, ReservedCurrency(ex.rules[order.request.symbol], order.request.side), amount, -amount, c);
      hide WellFormed, OrderFits, ReservedAmount, ReservedCurrency, Reserved, BalanceOf, Adjust, Pop, Sum;
    }
  }

  lemma ReservedScales(rules: map<string, MarketRule>, c: string, order: PaperOrder, size: real)
    requires order.request.symbol in rules && order.request.price.Some?
    ensures var rule := rules[order.request.symbol];
      Reserved(rules, c, order.(remaining := order.remaining - size)) == Reserved(rules, c, order)
        - if order.request.side == Buy then (if rule.quote == c then Notional(order.request.price.value, size) else 0.0)
          else if rule.base == c then size else 0.0
  {
  }

  lemma SettleFrozen(balances: map<string, Balance>, rule: MarketRule, side: Side, cost: real, size: real, fee: real,
      c: string)
    ensures BalanceOf(Settle(balances, rule, side, cost, size, fee), c).frozen == BalanceOf(balances, c).frozen
      - if side == Buy then (if rule.quote == c then cost else 0.0)
        else if rule.base == c then size else 0.0
  {
  }

  lemma FillFrozen(ex: Exchange, id: string, snapshot: MarketSnapshot, c: string)
    requires WellFormed(ex) && FrozenIsReserved(ex, c)
    ensures FrozenIsReserved(TryFill(ex, id, snapshot).exchange, c)
  {
    hide Settle, Distinct, KeySet, ShouldFill, Without, SumKeys, FeeOf, Adjust;
    if Settles(ex, id, snapshot) {
      var order := ex.open.at[id];
      var rule := ex.rules[order.request.symbol];
      var size := FillSize(order);
      var price := order.request.price.value;
      var left := order.(remaining := order.remaining - size);
      assert OrderFits(ex, id, order);
      HalfFill(order);
      ReservedScales(ex.rules, c, order, size);
      SettleFrozen(ex.balances, rule, order.request.side, Notional(price, size), size,
                   FeeOf(price, size, ex.makerFeeBps), c);
      if left.remaining <= 0.0 {
        SumPop(ex.open, id, ReservedIn(ex.rules, c));
        assert Reserved(ex.rules, c, left) == 0.0;
      } else {
        SumPut(ex.open, id, left, ReservedIn(ex.rules, c));
      }
    }
  }

  /** In every state a run with fresh client ids reaches, the frozen amount of every currency is exactly what the open
      orders reserve in it, whatever symbols share the currency. */
  lemma {:induction false} FrozenAlwaysReserved(ex: Exchange, ops: seq<ExOp>)
    requires WellFormed(ex) && forall c :: FrozenIsReserved(ex, c)
    requires forall i | 0 <= i < |ops| :: FreshStep(RunEx(ex, ops[..i]).exchange, ops[i])
    ensures var end := RunEx(ex, ops).exchange;
      WellFormed(end) && end.rules == ex.rules && forall c :: FrozenIsReserved(end, c)
  {
    if ops != [] {
      var n := |ops| - 1;
      var init := ops[..n];
      forall i | 0 <= i < n
        ensures FreshStep(RunEx(ex, init[..i]).exchange, init[i])
      {
        assert init[..i] == ops[..i];
      }
      FrozenAlwaysReserved(ex, init);
      var before := RunEx(ex, init).exchange;
      StepWellFormed(before, ops[n]);
      assert FreshStep(before, ops[n]);
      forall c
        ensures FrozenIsReserved(ApplyEx(before, ops[n]).exchange, c)
      {
        match ops[n]
        case Submits(request) => SubmitFrozen(before, request, c);
        case Cancels(request) => CancelFrozen(before, request, c);
        case Fills(id, snapshot) => FillFrozen(before, id, snapshot, c);
      }
    }
  }

  // ------------------------------------------------------------------------- cancel_all

  lemma {:induction false} CancelBatchFrozen(ex: Exchange, requests: seq<CancelRequest>)
    requires WellFormed(ex) && forall c :: FrozenIsReserved(ex, c)
    ensures var end := CancelBatch(ex, requests).exchange;
      && WellFormed(end) && (forall c :: FrozenIsReserved(end, c))
      && (forall id | id in end.open.at :: id in ex.open.at && id !in CancelIds(requests))
  {
    if requests != [] {
      var n := |requests| - 1;
      CancelBatchFrozen(ex, requests[..n]);
      assert CancelIds(requests) == CancelIds(requests[..n]) + [requests[n].clientOrderId];
      var before := CancelBatch(ex, requests[..n]).exchange;
      CancelWellFormed(before, requests[n]);
      forall c
        ensures FrozenIsReserved(CancelOrder(before, requests[n]).exchange, c)
      {
        CancelFrozen(before, requests[n], c);
      }
    }
  }

  lemma {:induction false} OpenRequestsMembers(keys: seq<string>, at: map<string, PaperOrder>, symbol: Option<string>)
    ensures forall k | k in keys && k in at && OfSymbol(at[k], symbol) ::
      k in CancelIds(OpenRequests(keys, at, symbol))
  {
    if keys != [] {
      var n := |keys| - 1;
      var init := keys[..n];
      assert keys == init + [keys[n]];
      OpenRequestsMembers(init, at, symbol);
      var before, all := OpenRequests(init, at, symbol), OpenRequests(keys, at, symbol);
      if all != before {
        assert CancelIds(all) == CancelIds(before) + [keys[n]];
      }
    }
  }

  /** After `cancel_all` for one symbol no order of that symbol is open; after `cancel_all` without a symbol nothing is
      open and every frozen amount is zero. */
  lemma CancelAllReleases(ex: Exchange, symbol: Option<string>)
    requires WellFormed(ex) && forall c :: FrozenIsReserved(ex, c)
    ensures var end := CancelAll(ex, symbol).exchange;
      && (forall id | id in end.open.at :: id in ex.open.at && !OfSymbol(ex.open.at[id], symbol))
      && (symbol.None? ==> end.open.keys == [] && forall c :: BalanceOf(end.balances, c).frozen == 0.0)
  {
    var requests := OpenRequests(ex.open.keys, ex.open.at, symbol);
    var end := CancelAll(ex, symbol).exchange;
    CancelBatchFrozen(ex, requests);
    OpenRequestsMembers(ex.open.keys, ex.open.at, symbol);
    ValidKeys(ex.open);
    ValidKeys(end.open);
    if symbol.None? {
      NoKeys(end.open);
      forall c
        ensures BalanceOf(end.balances, c).frozen == 0.0
      {
        assert FrozenIsReserved(end, c);
      }
    }
  }

  // ------------------------------------------------------------------------- conservation

  /** What one fill moves into (or out of) `currency`, fee included. A buy pays a positive fee on top; a maker rebate
      (a negative fee) is only credited to sells. */
  function FlowIn(rules: map<string, MarketRule>, currency: string, fill: FillEvent): real {
    if fill.symbol !in rules then 0.0
    else
      var rule := rules[fill.symbol];
      if fill.side == Buy then
        (if rule.base == currency then fill.size else 0.0)
        - (if rule.quote == currency then Notional(fill.price, fill.size) + Max(fill.fee, 0.0) else 0.0)
      else
        (if rule.quote == currency then Notional(fill.price, fill.size) - fill.fee else 0.0)
        - (if rule.base == currency then fill.size else 0.0)
  }

  function FlowSum(rules: map<string, MarketRule>, currency: string, fills: seq<FillEvent>): real {
    if fills == [] then 0.0
    else FlowSum(rules, currency, fills[..|fills| - 1]) + FlowIn(rules, currency, fills[|fills| - 1])
  }

  function TotalOf(balances: map<string, Balance>, currency: string): real {
    BalanceOf(balances, currency).available + BalanceOf(balances, currency).frozen
  }

  lemma AdjustTotal(balances: map<string, Balance>, c: string, available: real, frozen: real, x: string)
    ensures TotalOf(Adjust(balances, c, available, frozen), x)
         == TotalOf(balances, x) + if x == c then available + frozen else 0.0
  {
  }

  lemma BuyTotal(balances: map<string, Balance>, rule: MarketRule, cost: real, size: real, fee: real, c: string)
    ensures TotalOf(Settle(balances, rule, Buy, cost, size, fee), c) == TotalOf(balances, c)
      + (if rule.base == c then size else 0.0) - (if rule.quote == c then cost + Max(fee, 0.0) else 0.0)
  {
    var b1 := Adjust(balances, rule.quote, 0.0, -cost);
    var b2 := Adjust(b1, rule.base, size, 0.0);
    AdjustTotal(balances, rule.quote, 0.0, -cost, c);
    AdjustTotal(b1, rule.base, size, 0.0, c);
    AdjustTotal(b2, rule.quote, -fee, 0.0, c);
  }

  lemma SellTotal(balances: map<string, Balance>, rule: MarketRule, cost: real, size: real, fee: real, c: string)
    ensures TotalOf(Settle(balances, rule, Sell, cost, size, fee), c) == TotalOf(balances, c)
      + (if rule.quote == c then cost - fee else 0.0) - (if rule.base == c then size else 0.0)
  {
    var b1 := Adjust(balances, rule.base, 0.0, -size);
    AdjustTotal(balances, rule.base, 0.0, -size, c);
    AdjustTotal(b1, rule.quote, cost - fee, 0.0, c);
  }

  lemma FillTotal(ex: Exchange, id: string, snapshot: MarketSnapshot, c: string)
    requires WellFormed(ex)
    ensures var step := TryFill(ex, id, snapshot);
      TotalOf(step.exchange.balances, c) == TotalOf(ex.balances, c) + FlowSum(ex.rules, c, step.fills)
  {
    if Settles(ex, id, snapshot) {
      var order := ex.open.at[id];
      var price, size := order.request.price.value, FillSize(order);
      var fee := FeeOf(price, size, ex.makerFeeBps);
      var rule := ex.rules[order.request.symbol];
      BuyTotal(ex.balances, rule, Notional(price, size), size, fee, c);
      SellTotal(ex.balances, rule, Notional(price, size), size, fee, c);
      var fills := TryFill(ex, id, snapshot).fills;
      assert fills[..0] == [];
      assert FlowSum(ex.rules, c, fills) == FlowIn(ex.rules, c, fills[0]);
    }
  }

  lemma SubmitTotal(ex: Exchange, request: OrderRequest, c: string)
    ensures TotalOf(SubmitOrder(ex, request).exchange.balances, c) == TotalOf(ex.balances, c)
  {
    if request.symbol in ex.rules && request.price.Some? {
      var rule := ex.rules[request.symbol];
      var currency := ReservedCurrency(rule, request.side);
      var needed := ReservedAmount(request.side, request.price.value, request.size);
      AdjustTotal(ex.balances, currency, 0.0, 0.0, c);
      AdjustTotal(ex.balances, currency, -needed, needed, c);
    }
  }

  lemma CancelTotal(ex: Exchange, request: CancelRequest, c: string)
    ensures TotalOf(CancelOrder(ex, request).exchange.balances, c) == TotalOf(ex.balances, c)
  {
    var id := request.clientOrderId;
    if id in ex.open.at && ex.open.at[id].request.symbol in ex.rules {
      var order := ex.open.at[id];
      var rule := ex.rules[order.request.symbol];
      var amount := ReservedAmount(order.request.side, order.request.price.GetOr(0.0), order.remaining);
      AdjustTotal(ex.balances, ReservedCurrency(rule, order.request.side), amount, -amount, c);
    }
  }

  /** Submits and cancels move value between available and frozen only; a fill moves its flow. */
  lemma StepTotal(ex: Exchange, op: ExOp, c: string)
    requires WellFormed(ex)
    ensures var step := ApplyEx(ex, op);
      && TotalOf(step.exchange.balances, c) == TotalOf(ex.balances, c) + FlowSum(ex.rules, c, step.fills)
      && (!op.Fills? ==> step.fills == [])
  {
    match op
    case Submits(request) => SubmitTotal(ex, request, c);
    case Cancels(request) => CancelTotal(ex, request, c);
    case Fills(id, snapshot) => FillTotal(ex, id, snapshot, c);
  }

  lemma {:induction false} FlowConcat(rules: map<string, MarketRule>, c: string, a: seq<FillEvent>, b: seq<FillEvent>)
    ensures FlowSum(rules, c, a + b) == FlowSum(rules, c, a) + FlowSum(rules, c, b)
  {
    if b == [] {
      assert a + b == a;
    } else {
      var n := |b| - 1;
      assert (a + b)[..|a + b| - 1] == a + b[..n];
      FlowConcat(rules, c, a, b[..n]);
    }
  }

  /** Over any run, a currency's available plus frozen amount is its initial amount plus the flows of the fills. */
  lemma {:induction false} TotalsConserved(ex: Exchange, ops: seq<ExOp>, c: string)
    requires WellFormed(ex)
    ensures var run := RunEx(ex, ops);
      && WellFormed(run.exchange) && run.exchange.rules == ex.rules && run.exchange.makerFeeBps == ex.makerFeeBps
      && TotalOf(run.exchange.balances, c) == TotalOf(ex.balances, c) + FlowSum(ex.rules, c, run.fills)
  {
    if ops != [] {
      var n := |ops| - 1;
      var before := RunEx(ex, ops[..n]);
      TotalsConserved(ex, ops[..n], c);
      StepWellFormed(before.exchange, ops[n]);
      StepTotal(before.exchange, ops[n], c);
      FlowConcat(ex.rules, c, before.fills, ApplyEx(before.exchange, ops[n]).fills);
    }
  }

  // ------------------------------------------------------------------------- overdrafts

  function BuyFee(currency: string, fill: FillEvent): real {
    if fill.side == Buy && fill.feeCurrency == currency then Max(fill.fee, 0.0) else 0.0
  }

  function BuyFees(currency: string, fills: seq<FillEvent>): (sum: real)
    ensures sum >= 0.0
  {
    if fills == [] then 0.0 else BuyFees(currency, fills[..|fills| - 1]) + BuyFee(currency, fills[|fills| - 1])
  }

  ghost predicate SoundRules(ex: Exchange) {
    && 0.0 <= ex.makerFeeBps <= BPS
    && forall s | s in ex.rules :: ex.rules[s].minNotional >= 0.0 && ex.rules[s].baseMinSize >= 0.0
  }

  predicate SoundRequest(request: OrderRequest) {
    request.price.Some? && request.size >= 0.0 && Notional(request.price.value, request.size) >= 0.0
  }

  ghost predicate SoundOrders(ex: Exchange) {
    WellFormed(ex) && forall id | id in ex.open.at :: SoundRequest(ex.open.at[id].request)
  }

  lemma StepSound(ex: Exchange, op: ExOp)
    requires SoundRules(ex) && SoundOrders(ex)
    ensures SoundRules(ApplyEx(ex, op).exchange) && SoundOrders(ApplyEx(ex, op).exchange)
  {
    StepWellFormed(ex, op);
    StepRequests(ex, op);
    forall id | id in ApplyEx(ex, op).exchange.open.at
      ensures SoundRequest(ApplyEx(ex, op).exchange.open.at[id].request)
    {
      if !(id in ex.open.at && ApplyEx(ex, op).exchange.open.at[id].request == ex.open.at[id].request) {
        MinimumsSound(ex, op.request);
      }
    }
  }

  /** The open requests after a step were open before, or were accepted by it. */
  lemma StepRequests(ex: Exchange, op: ExOp)
    ensures var end := ApplyEx(ex, op).exchange;
      forall id | id in end.open.at ::
        || (id in ex.open.at && end.open.at[id].request == ex.open.at[id].request)
        || (op.Submits? && end.open.at[id].request == op.request && MeetsRules(ex, op.request))
  {
  }

  predicate MeetsRules(ex: Exchange, request: OrderRequest) {
    && request.symbol in ex.rules && request.price.Some?
    && ex.rules[request.symbol].ValidMinimums(request.price.value, request.size)
  }

  lemma MinimumsSound(ex: Exchange, request: OrderRequest)
    requires SoundRules(ex) && MeetsRules(ex, request)
    ensures SoundRequest(request)
  {
  }

  lemma RemainingNotional(price: real, size: real, remaining: real)
    requires size >= 0.0 && Notional(price, size) >= 0.0
    requires remaining == size || remaining == size / 2.0
    ensures Notional(price, remaining) >= 0.0
  {
    if remaining == size / 2.0 {
      assert Notional(price, size) == 2.0 * Notional(price, remaining);
    }
  }

  lemma FeeAtMost(price: real, size: real, bps: real)
    requires Notional(price, size) >= 0.0 && 0.0 <= bps <= BPS
    ensures 0.0 <= FeeOf(price, size, bps) <= Notional(price, size)
  {
    var n := Notional(price, size);
    MulLe(0.0, bps, n);
    MulLe(bps, BPS, n);
    assert 0.0 <= n * bps <= n * BPS;
  }

  lemma CancelCovered(ex: Exchange, request: CancelRequest, c: string)
    requires SoundOrders(ex)
    ensures BalanceOf(CancelOrder(ex, request).exchange.balances, c).available >= BalanceOf(ex.balances, c).available
  {
    var id := request.clientOrderId;
    if id in ex.open.at {
      var order := ex.open.at[id];
      assert OrderFits(ex, id, order);
      RemainingNotional(order.request.price.value, order.request.size, order.remaining);
    }
  }

  lemma SettleCovered(balances: map<string, Balance>, rule: MarketRule, side: Side, cost: real, size: real, fee: real,
      c: string)
    requires size >= 0.0 && 0.0 <= fee <= cost
    ensures BalanceOf(Settle(balances, rule, side, cost, size, fee), c).available
         >= BalanceOf(balances, c).available - if side == Buy && rule.quote == c then fee else 0.0
  {
  }

  lemma FillCovered(ex: Exchange, id: string, snapshot: MarketSnapshot, c: string)
    requires SoundRules(ex) && SoundOrders(ex)
    ensures var step := TryFill(ex, id, snapshot);
      BalanceOf(step.exchange.balances, c).available >= BalanceOf(ex.balances, c).available - BuyFees(c, step.fills)
  {
    if Settles(ex, id, snapshot) {
      var order := ex.open.at[id];
      var rule := ex.rules[order.request.symbol];
      var price, size := order.request.price.value, FillSize(order);
      assert OrderFits(ex, id, order);
      HalfFill(order);
      RemainingNotional(price, order.request.size, size);
      FeeAtMost(price, size, ex.makerFeeBps);
      SettleCovered(ex.balances, rule, order.request.side, Notional(price, size), size,
                    FeeOf(price, size, ex.makerFeeBps), c);
      var fills := TryFill(ex, id, snapshot).fills;
      assert fills[..0] == [];
      assert BuyFees(c, fills) == BuyFee(c, fills[0]);
    }
  }

  lemma {:induction false} BuyFeesConcat(c: string, a: seq<FillEvent>, b: seq<FillEvent>)
    ensures BuyFees(c, a + b) == BuyFees(c, a) + BuyFees(c, b)
  {
    if b == [] {
      assert a + b == a;
    } else {
      var n := |b| - 1;
      assert (a + b)[..|a + b| - 1] == a + b[..n];
      BuyFeesConcat(c, a, b[..n]);
    }
  }

  /** With maker fees between 0 and 100 percent and nonnegative minimums and initial balances, no currency is ever
      overdrawn by more than the fees its buys have paid: only a buy's fee is taken without a reservation. */
  lemma {:induction false} OverdraftIsBuyFees(ex: Exchange, ops: seq<ExOp>, c: string)
    requires SoundRules(ex) && SoundOrders(ex) && BalanceOf(ex.balances, c).available >= 0.0
    ensures var run := RunEx(ex, ops);
      && SoundRules(run.exchange) && SoundOrders(run.exchange)
      && BalanceOf(run.exchange.balances, c).available + BuyFees(c, run.fills) >= 0.0
  {
    if ops != [] {
      var n := |ops| - 1;
      var before := RunEx(ex, ops[..n]);
      OverdraftIsBuyFees(ex, ops[..n], c);
      StepSound(before.exchange, ops[n]);
      BuyFeesConcat(c, before.fills, ApplyEx(before.exchange, ops[n]).fills);
      match ops[n]
      case Submits(request) =>
      case Cancels(request) => CancelCovered(before.exchange, request, c);
      case Fills(id, snapshot) => FillCovered(before.exchange, id, snapshot, c);
    }
  }

  /** No fill overdraws the account as long as a buy's fee is covered: the quote currency's available amount, with what
      the fill pays into it when both legs are the same currency, is at least the fee. */
  predicate FeeCovered(ex: Exchange, order: PaperOrder) {
    order.request.symbol in ex.rules && order.request.side == Buy ==>
      var rule := ex.rules[order.request.symbol];
      var paidIn := if rule.base == rule.quote then FillSize(order) else 0.0;
      BalanceOf(ex.balances, rule.quote).available + paidIn
        >= FeeOf(order.request.price.GetOr(0.0), FillSize(order), ex.makerFeeBps)
  }

  ghost predicate Covered(ex: Exchange) {
    forall c :: BalanceOf(ex.balances, c).available >= 0.0
  }

  /** The available amounts after settling a fill. */
  lemma SettleAvailable(balances: map<string, Balance>, rule: MarketRule, side: Side, cost: real, size: real, fee: real,
      c: string)
    requires 0.0 <= fee
    ensures BalanceOf(Settle(balances, rule, side, cost, size, fee), c).available
         == BalanceOf(balances, c).available
            + (if side == Buy && rule.base == c then size else 0.0)
            + (if rule.quote == c then (if side == Buy then -fee else cost - fee) else 0.0)
  {
  }

  /** The guard of one fill: it leaves every available amount nonnegative exactly when a buy's fee is covered. */
  lemma FillCoveredExactly(ex: Exchange, id: string, snapshot: MarketSnapshot)
    requires SoundRules(ex) && SoundOrders(ex) && Covered(ex) && Settles(ex, id, snapshot)
    ensures Covered(TryFill(ex, id, snapshot).exchange) <==> FeeCovered(ex, ex.open.at[id])
  {
    var order := ex.open.at[id];
    var rule := ex.rules[order.request.symbol];
    var price, size := order.request.price.value, FillSize(order);
    var fee := FeeOf(price, size, ex.makerFeeBps);
    assert OrderFits(ex, id, order);
    HalfFill(order);
    RemainingNotional(price, order.request.size, size);
    FeeAtMost(price, size, ex.makerFeeBps);
    var after := TryFill(ex, id, snapshot).exchange.balances;
    assert after == Settle(ex.balances, rule, order.request.side, Notional(price, size), size, fee);
    forall c
      ensures BalanceOf(after, c).available == BalanceOf(ex.balances, c).available
            + (if order.request.side == Buy && rule.base == c then size else 0.0)
            + (if rule.quote == c
               then (if order.request.side == Buy then -fee else Notional(price, size) - fee) else 0.0)
    {
      SettleAvailable(ex.balances, rule, order.request.side, Notional(price, size), size, fee, c);
    }
    hide Settle, TryFill, FeeOf, Notional, Settles, SoundOrders;
    assert BalanceOf(after, rule.quote).available >= 0.0 <==> FeeCovered(ex, order);
  }

  predicate FeeGuard(ex: Exchange, op: ExOp) {
    op.Fills? && Settles(ex, op.id, op.snapshot) ==> FeeCovered(ex, ex.open.at[op.id])
  }

  lemma SubmitCovered(ex: Exchange, request: OrderRequest)
    requires SoundRules(ex) && Covered(ex)
    ensures Covered(SubmitOrder(ex, request).exchange)
  {
    hide Put, Notional, ReservedAmount, Adjust;
    if request.symbol in ex.rules && request.price.Some? {
      var currency := ReservedCurrency(ex.rules[request.symbol], request.side);
      var needed := ReservedAmount(request.side, request.price.value, request.size);
      forall c
        ensures BalanceOf(SubmitOrder(ex, request).exchange.balances, c).available >= 0.0
      {
        AdjustOne(ex.balances, currency, 0.0, 0.0, c);
        AdjustOne(ex.balances, currency, -needed, needed, c);
      }
    }
  }

  lemma StepCoveredExactly(ex: Exchange, op: ExOp)
    requires SoundRules(ex) && SoundOrders(ex) && Covered(ex)
    ensures Covered(ApplyEx(ex, op).exchange) <==> FeeGuard(ex, op)
  {
    hide SubmitOrder, CancelOrder, FeeCovered, SoundRules, SoundOrders;
    match op
    case Submits(request) => SubmitCovered(ex, request);
    case Cancels(request) =>
      forall c
        ensures BalanceOf(CancelOrder(ex, request).exchange.balances, c).available >= 0.0
      {
        CancelCovered(ex, request, c);
      }
    case Fills(id, snapshot) =>
      if Settles(ex, id, snapshot) {
        FillCoveredExactly(ex, id, snapshot);
      }
  }

  ghost predicate AllCovered(ex: Exchange, ops: seq<ExOp>) {
    forall k | 0 <= k <= |ops| :: Covered(RunEx(ex, ops[..k]).exchange)
  }

  ghost predicate AllGuarded(ex: Exchange, ops: seq<ExOp>) {
    forall k | 0 <= k < |ops| :: FeeGuard(RunEx(ex, ops[..k]).exchange, ops[k])
  }

  /** A run never overdraws any currency exactly when each of its fills finds a buy's fee covered. */
  lemma {:induction false} RunCoveredExactly(ex: Exchange, ops: seq<ExOp>)
    requires SoundRules(ex) && SoundOrders(ex) && Covered(ex)
    ensures SoundRules(RunEx(ex, ops).exchange) && SoundOrders(RunEx(ex, ops).exchange)
    ensures AllCovered(ex, ops) <==> AllGuarded(ex, ops)
  {
    hide SoundRules, SoundOrders, Covered, FeeGuard, ApplyEx;
    if ops == [] {
      assert forall k | 0 <= k <= |ops| :: ops[..k] == [];
    } else {
      var n := |ops| - 1;
      var init := ops[..n];
      RunCoveredExactly(ex, init);
      var before := RunEx(ex, init).exchange;
      StepSound(before, ops[n]);
      CoveredSplits(ex, ops);
      GuardedSplits(ex, ops);
      if AllCovered(ex, init) {
        assert init[..n] == init;
        StepCoveredExactly(before, ops[n]);
      }
    }
  }

  lemma CoveredSplits(ex: Exchange, ops: seq<ExOp>)
    requires ops != []
    ensures AllCovered(ex, ops) <==> AllCovered(ex, ops[..|ops| - 1]) && Covered(RunEx(ex, ops).exchange)
  {
    hide Covered, RunEx;
    var init := ops[..|ops| - 1];
    assert ops[..|ops|] == ops;
    assert forall k | 0 <= k <= |init| :: init[..k] == ops[..k];
    assert forall k | 0 <= k <= |ops| :: k <= |init| || ops[..k] == ops;
  }

  lemma GuardedSplits(ex: Exchange, ops: seq<ExOp>)
    requires ops != []
    ensures var init := ops[..|ops| - 1];
      AllGuarded(ex, ops) <==> AllGuarded(ex, init) && FeeGuard(RunEx(ex, init).exchange, ops[|ops| - 1])
  {
    hide FeeGuard, RunEx;
    var init := ops[..|ops| - 1];
    assert forall k | 0 <= k < |init| :: init[..k] == ops[..k] && init[k] == ops[k];
  }

  /** No run with this fee rate overdraws any currency. */
  ghost predicate NeverOverdraws(bps: real) {
    forall ex: Exchange, ops: seq<ExOp>, c: string
      | ex.makerFeeBps == bps && SoundRules(ex) && SoundOrders(ex) && Covered(ex) ::
      BalanceOf(RunEx(ex, ops).exchange.balances, c).available >= 0.0
  }

  ghost predicate NoFees(fills: seq<FillEvent>) {
    forall i | 0 <= i < |fills| :: fills[i].fee == 0.0
  }

  lemma {:induction false} RunChargesNothing(ex: Exchange, ops: seq<ExOp>)
    requires ex.makerFeeBps == 0.0
    ensures RunEx(ex, ops).exchange.makerFeeBps == 0.0 && NoFees(RunEx(ex, ops).fills)
  {
    hide ApplyEx;
    if ops != [] {
      RunChargesNothing(ex, ops[..|ops| - 1]);
      StepChargesNothing(RunEx(ex, ops[..|ops| - 1]).exchange, ops[|ops| - 1]);
    }
  }

  lemma StepChargesNothing(ex: Exchange, op: ExOp)
    requires ex.makerFeeBps == 0.0
    ensures ApplyEx(ex, op).exchange.makerFeeBps == 0.0 && NoFees(ApplyEx(ex, op).fills)
  {
    hide Settle, Notional;
  }

  lemma {:induction false} NoBuyFees(fills: seq<FillEvent>, c: string)
    requires NoFees(fills)
    ensures BuyFees(c, fills) == 0.0
  {
    if fills != [] {
      NoBuyFees(fills[..|fills| - 1], c);
    }
  }

  /** A fee rate between 0 and 100 percent keeps every run from overdrawing exactly when it is zero. */
  lemma NeverOverdrawsExactly(bps: real)
    requires 0.0 <= bps <= BPS
    ensures NeverOverdraws(bps) <==> bps == 0.0
  {
    if bps == 0.0 {
      forall ex: Exchange, ops: seq<ExOp>, c: string
        | ex.makerFeeBps == bps && SoundRules(ex) && SoundOrders(ex) && Covered(ex)
        ensures BalanceOf(RunEx(ex, ops).exchange.balances, c).available >= 0.0
      {
        OverdraftIsBuyFees(ex, ops, c);
        RunChargesNothing(ex, ops);
        NoBuyFees(RunEx(ex, ops).fills, c);
      }
    } else {
      var ex, ops := OverdrawnAt(bps);
      assert BalanceOf(RunEx(ex, ops).exchange.balances, "USDT").available < 0.0;
    }
  }

  lemma TwoSteps(ex: Exchange, a: ExOp, b: ExOp)
    ensures RunEx(ex, [a, b]).exchange == ApplyEx(ApplyEx(ex, a).exchange, b).exchange
  {
    hide ApplyEx;
    assert [a, b][..1] == [a] && [a][..0] == [];
    assert RunEx(ex, [a]).exchange == ApplyEx(ex, a).exchange;
  }

  /** A buy of size 2 at price 1 reserves the whole balance of 2. */
  lemma WholeReserved(ex: Exchange, request: OrderRequest)
    requires request.symbol in ex.rules && request.side == Buy && request.price == Some(1.0) && request.size == 2.0
    requires ex.rules[request.symbol].ValidMinimums(1.0, 2.0)
    requires BalanceOf(ex.balances, ex.rules[request.symbol].quote) == Balance(2.0, 0.0)
    ensures var placed := SubmitOrder(ex, request).exchange;
      && placed.rules == ex.rules && placed.makerFeeBps == ex.makerFeeBps
      && request.clientOrderId in placed.open.at
      && placed.open.at[request.clientOrderId] == PaperOrder(request, PaperId(ex.nextOrder), 2.0)
      && BalanceOf(placed.balances, ex.rules[request.symbol].quote) == Balance(0.0, 2.0)
  {
    assert ReservedAmount(Buy, 1.0, 2.0) == 2.0;
  }

  /** Filling half of that buy takes the fee of 1 from nothing. */
  lemma FeeFromNothing(placed: Exchange, id: string, snapshot: MarketSnapshot)
    requires id in placed.open.at && 0.0 < placed.makerFeeBps
    requires var order := placed.open.at[id]; var request := order.request;
      && request.side == Buy && request.price == Some(1.0) && request.size == 2.0 && order.remaining == 2.0
      && request.symbol == snapshot.symbol && snapshot.ask <= 1.0
      && request.symbol in placed.rules
      && placed.rules[request.symbol].quote != placed.rules[request.symbol].base
      && BalanceOf(placed.balances, placed.rules[request.symbol].quote).available == 0.0
    ensures var quote := placed.rules[placed.open.at[id].request.symbol].quote;
      BalanceOf(TryFill(placed, id, snapshot).exchange.balances, quote).available == -(placed.makerFeeBps / BPS)
  {
    assert FillSize(placed.open.at[id]) == 1.0 && FeeOf(1.0, 1.0, placed.makerFeeBps) == placed.makerFeeBps / BPS;
  }

  /** An account whose whole balance is reserved by one buy is overdrawn by that buy's fee, at any rate. */
  lemma OverdrawnAt(bps: real) returns (ex: Exchange, ops: seq<ExOp>)
    requires 0.0 < bps <= BPS
    ensures ex.makerFeeBps == bps && SoundRules(ex) && SoundOrders(ex) && Covered(ex)
    ensures BalanceOf(RunEx(ex, ops).exchange.balances, "USDT").available == -(bps / BPS)
  {
    hide RunEx, SubmitOrder, TryFill;
    var rule := MarketRule("BTC_USDT", "BTC", "USDT", 1.0, 1.0, 1.0, 1.0);
    ex := Exchange(map["BTC_USDT" := rule], bps, map["USDT" := Balance(2.0, 0.0)], Empty(), 1);
    var request := OrderRequest("BTC_USDT", Buy, LimitMaker, 2.0, Some(1.0), "a", "s", Some(1));
    var snapshot := MarketSnapshot("BTC_USDT", 0.5, 1.0, 0.6, 1.0, 0, [], []);
    ops := [Submits(request), Fills("a", snapshot)];
    WholeReserved(ex, request);
    FeeFromNothing(SubmitOrder(ex, request).exchange, "a", snapshot);
    TwoSteps(ex, ops[0], ops[1]);
  }
}
