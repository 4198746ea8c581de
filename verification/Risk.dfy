/** The risk engine (src/mm/risk/engine.py). */
module Risk {
  import opened Dicts
  import opened Types
  import opened Oms
  import opened OrderManagers
  import opened Reals
  import Paper

  datatype RiskSettings = RiskSettings(
    maxOrderValue: real, maxTotalOpenValue: real, maxOpenOrders: int, maxPositionBase: real, maxDailyLoss: real,
    maxPriceDeviationBps: real, strategyMaxOrderValue: map<string, real>, strategyMaxOpenOrders: map<string, int>,
    strategyMaxOpenValue: map<string, real>)

  /** What `validate` reads besides the order manager. */
  datatype RiskView = RiskView(
    settings: RiskSettings, rules: map<string, MarketRule>, staleMs: int, safeMode: bool, dailyPnl: real,
    markets: map<string, MarketSnapshot>, inventory: map<string, Balance>, nowMs: int)

  datatype RiskRule =
    | CancelAllowed | UnknownAction | SafeMode | SymbolNotAllowed | MissingMarket | StaleMarket | InvalidIntent
    | UnknownOrder | DailyLoss | MarketMinimums | MaxOrderValue | StrategyMaxOrderValue | MaxOpenOrders
    | MaxTotalOpenValue | StrategyMaxOpenOrders | StrategyMaxOpenValue | PriceDeviation | PostOnlyCross | MaxPosition
    | InsufficientInventory | AllPassed

  /** The result of `validate`; a zero mid price makes the deviation check raise. */
  datatype Verdict = Approved(rule: RiskRule) | Refused(rule: RiskRule) | Crashed

  function HasUnknownOf(keys: seq<string>, at: map<string, OrderRecord>): bool {
    if keys == [] then false
    else
      var n := |keys| - 1;
      HasUnknownOf(keys[..n], at) || (keys[n] in at && at[keys[n]].status == Unknown)
  }

  /** Whether any order at all is UNKNOWN. */
  function HasUnknown(s: OmsState): bool {
    HasUnknownOf(s.orders.keys, s.orders.at)
  }

  function OfStrategy(orders: seq<OrderRecord>, strategy: string): seq<OrderRecord> {
    if orders == [] then []
    else
      var n := |orders| - 1;
      var rest := OfStrategy(orders[..n], strategy);
      if orders[n].strategy == strategy then rest + [orders[n]] else rest
  }

  function Abs(x: real): real { if x < 0.0 then -x else x }

  /** The checks on the order's own value. */
  function ValueCheck(view: RiskView, intent: OrderIntent, price: real, size: real): RiskRule
    requires intent.symbol in view.rules
  {
    var notional := Notional(price, size);
    if !view.rules[intent.symbol].ValidMinimums(price, size) then MarketMinimums
    else if notional > view.settings.maxOrderValue then MaxOrderValue
    else if intent.strategy in view.settings.strategyMaxOrderValue
            && notional > view.settings.strategyMaxOrderValue[intent.strategy] then StrategyMaxOrderValue
    else AllPassed
  }

  /** The checks against the orders already open. */
  function OpenCheck(view: RiskView, intent: OrderIntent, notional: real, s: OmsState): RiskRule {
    var open := OpenOrders(s, Some(intent.symbol));
    var mine := OfStrategy(open, intent.strategy);
    if |open| >= view.settings.maxOpenOrders then MaxOpenOrders
    else if TotalOpenNotional(s, Some(intent.symbol)) + notional > view.settings.maxTotalOpenValue then
      MaxTotalOpenValue
    else if intent.strategy in view.settings.strategyMaxOpenOrders
            && |mine| >= view.settings.strategyMaxOpenOrders[intent.strategy] then StrategyMaxOpenOrders
    else if intent.strategy in view.settings.strategyMaxOpenValue
            && NotionalSum(mine) + notional > view.settings.strategyMaxOpenValue[intent.strategy] then
      StrategyMaxOpenValue
    else AllPassed
  }

  /** The checks against the market and the inventory. */
  function MarketCheck(view: RiskView, rule: MarketRule, market: MarketSnapshot, side: Side, price: real,
      size: real): RiskRule
    requires market.Mid() != 0.0
  {
    var base := Paper.BalanceOf(view.inventory, rule.base);
    if Abs(price - market.Mid()) / market.Mid() * Paper.BPS > view.settings.maxPriceDeviationBps then PriceDeviation
    else if side == Buy && price >= market.ask then PostOnlyCross
    else if side == Sell && price <= market.bid then PostOnlyCross
    else if side == Buy && base.available + base.frozen + size > view.settings.maxPositionBase then MaxPosition
    else if side == Sell && base.available < size then InsufficientInventory
    else AllPassed
  }

  function Judge(rule: RiskRule): Verdict {
    if rule == AllPassed then Approved(AllPassed) else Refused(rule)
  }

  /** `validate` */
  function Validate(view: RiskView, intent: OrderIntent, s: OmsState): Verdict {
    if intent.action == Cancel then Approved(CancelAllowed)
    else if intent.action != Place then Refused(UnknownAction)
    else if view.safeMode then Refused(SafeMode)
    else if intent.symbol !in view.rules then Refused(SymbolNotAllowed)
    else if intent.symbol !in view.markets then Refused(MissingMarket)
    else if view.nowMs - view.markets[intent.symbol].receiveTimeMs > view.staleMs then Refused(StaleMarket)
    else if intent.price.None? || intent.size.None? || intent.side.None? then Refused(InvalidIntent)
    else if HasUnknown(s) then Refused(UnknownOrder)
    else if view.dailyPnl <= -view.settings.maxDailyLoss then Refused(DailyLoss)
    else
      var price, size := intent.price.value, intent.size.value;
      var market := view.markets[intent.symbol];
      var value := ValueCheck(view, intent, price, size);
      if value != AllPassed then Refused(value)
      else
        var open := OpenCheck(view, intent, Notional(price, size), s);
        if open != AllPassed then Refused(open)
        else if market.Mid() == 0.0 then Crashed
        else Judge(MarketCheck(view, view.rules[intent.symbol], market, intent.side.value, price, size))
  }

  /** What an approval of a place promises. */
  lemma ApprovalMeans(view: RiskView, intent: OrderIntent, s: OmsState)
    requires intent.action == Place && Validate(view, intent, s).Approved?
    ensures !view.safeMode && !HasUnknown(s)
    ensures intent.symbol in view.rules && intent.symbol in view.markets
    ensures intent.side.Some? && intent.price.Some? && intent.size.Some?
    ensures var price, size := intent.price.value, intent.size.value; var rule := view.rules[intent.symbol];
      && size >= rule.baseMinSize && Notional(price, size) >= rule.minNotional
      && Notional(price, size) <= view.settings.maxOrderValue
      && TotalOpenNotional(s, Some(intent.symbol)) + Notional(price, size) <= view.settings.maxTotalOpenValue
      && |OpenOrders(s, Some(intent.symbol))| < view.settings.maxOpenOrders
      && (intent.side == Some(Buy) ==> price < view.markets[intent.symbol].ask)
      && (intent.side == Some(Sell) ==> view.markets[intent.symbol].bid < price)
  {
  }

  /** The limit a strategy may have of its own. */
  predicate Below(limits: map<string, real>, strategy: string, value: real) {
    strategy in limits ==> value <= limits[strategy]
  }

  /** The price is at most `bps` basis points of the mid price away from it, on either side. With a negative mid price
      the engine divides by a negative number, and it is the prices at least that far away that pass. */
  predicate Near(price: real, mid: real, bps: real) {
    if mid > 0.0 then mid * (10000.0 - bps) <= price * 10000.0 <= mid * (10000.0 + bps)
    else price * 10000.0 <= mid * (10000.0 - bps) || mid * (10000.0 + bps) <= price * 10000.0
  }

  lemma Scaled(x: real, mid: real, d: real)
    requires mid != 0.0
    ensures mid > 0.0 ==> (x / mid * Paper.BPS <= d <==> x * 10000.0 <= d * mid)
    ensures mid < 0.0 ==> (x / mid * Paper.BPS <= d <==> x * 10000.0 >= d * mid)
  {
    var q := x / mid;
    assert q * mid == x;
    ScaledProduct(q, mid, d, x);
  }

  lemma ScaledProduct(q: real, mid: real, d: real, x: real)
    requires mid != 0.0 && q * mid == x
    ensures mid > 0.0 ==> (q * 10000.0 <= d <==> x * 10000.0 <= d * mid)
    ensures mid < 0.0 ==> (q * 10000.0 <= d <==> x * 10000.0 >= d * mid)
  {
    var y := q * 10000.0;
    assert y * mid == x * 10000.0;
    var m := if mid > 0.0 then mid else -mid;
    if y <= d {
      MulLe(y, d, m);
    } else {
      MulLess(d, y, m);
    }
  }

  /** The price-deviation check passes exactly the prices near the mid price. */
  lemma NearExactly(price: real, mid: real, bps: real)
    requires mid != 0.0
    ensures Abs(price - mid) / mid * Paper.BPS <= bps <==> Near(price, mid, bps)
  {
    Scaled(Abs(price - mid), mid, bps);
    assert mid * (10000.0 - bps) == mid * 10000.0 - bps * mid;
    assert mid * (10000.0 + bps) == mid * 10000.0 + bps * mid;
    assert (price - mid) * 10000.0 == price * 10000.0 - mid * 10000.0;
  }

  /** Everything a place must satisfy, in no particular order. */
  ghost predicate Allowed(view: RiskView, intent: OrderIntent, s: OmsState) {
    && intent.symbol in view.rules && intent.symbol in view.markets
    && intent.price.Some? && intent.size.Some? && intent.side.Some?
    && var rule, market, price, size :=
         view.rules[intent.symbol], view.markets[intent.symbol], intent.price.value, intent.size.value;
    && var notional := Notional(price, size);
    && var open := OpenOrders(s, Some(intent.symbol));
    && var base := Paper.BalanceOf(view.inventory, rule.base);
    // the engine
    && !view.safeMode && view.dailyPnl > -view.settings.maxDailyLoss
    && (forall i | 0 <= i < |s.orders.keys| :: s.orders.keys[i] in s.orders.at ==>
          s.orders.at[s.orders.keys[i]].status != Unknown)
    // the market
    && view.nowMs - market.receiveTimeMs <= view.staleMs && market.bid + market.ask != 0.0
    && Near(price, (market.bid + market.ask) / 2.0, view.settings.maxPriceDeviationBps)
    && (if intent.side.value == Buy then price < market.ask else market.bid < price)
    // the order's own value
    && size >= rule.baseMinSize && notional >= rule.minNotional
    && notional <= view.settings.maxOrderValue
    && Below(view.settings.strategyMaxOrderValue, intent.strategy, notional)
    // what is open already
    && |open| < view.settings.maxOpenOrders
    && NotionalSum(open) + notional <= view.settings.maxTotalOpenValue
    && (intent.strategy in view.settings.strategyMaxOpenOrders ==>
          |OfStrategy(open, intent.strategy)| < view.settings.strategyMaxOpenOrders[intent.strategy])
    && Below(view.settings.strategyMaxOpenValue, intent.strategy,
        NotionalSum(OfStrategy(open, intent.strategy)) + notional)
    // the inventory
    && (if intent.side.value == Buy then base.available + base.frozen + size <= view.settings.maxPositionBase
        else size <= base.available)
  }

  /** A place is approved exactly when all of this holds; the order of the checks only decides which reason is given. */
  lemma ApprovedExactly(view: RiskView, intent: OrderIntent, s: OmsState)
    requires intent.action == Place
    ensures Validate(view, intent, s).Approved? <==> Allowed(view, intent, s)
    ensures Validate(view, intent, s) == Crashed ==>
      && intent.symbol in view.markets
      && view.markets[intent.symbol].bid + view.markets[intent.symbol].ask == 0.0
  {
    hide OpenOrders, NotionalSum, OfStrategy, Paper.BalanceOf, Abs, HasUnknownOf, Near;
    if intent.symbol in view.markets && intent.price.Some? {
      var mid := view.markets[intent.symbol].Mid();
      if mid != 0.0 {
        NearExactly(intent.price.value, mid, view.settings.maxPriceDeviationBps);
      }
    }
    HasUnknownMeans(s.orders.keys, s.orders.at);
    assert TotalOpenNotional(s, Some(intent.symbol)) == NotionalSum(OpenOrders(s, Some(intent.symbol)));
  }

  lemma {:induction false} HasUnknownMeans(keys: seq<string>, at: map<string, OrderRecord>)
    ensures HasUnknownOf(keys, at) <==> exists i :: 0 <= i < |keys| && keys[i] in at && at[keys[i]].status == Unknown
  {
    if keys != [] {
      var n := |keys| - 1;
      HasUnknownMeans(keys[..n], at);
      if HasUnknownOf(keys[..n], at) {
        var i :| 0 <= i < n && keys[..n][i] in at && at[keys[..n][i]].status == Unknown;
        assert keys[i] == keys[..n][i];
      }
      if i :| 0 <= i < |keys| && keys[i] in at && at[keys[i]].status == Unknown && i < n {
        assert keys[..n][i] == keys[i];
      }
    }
  }

  lemma NothingOpen(strategy: string)
    ensures OfStrategy([], strategy) == [] && NotionalSum([]) == 0.0
  {
  }

  lemma OfStrategyStep(orders: seq<OrderRecord>, strategy: string, i: nat)
    requires i < |orders|
    ensures var before := OfStrategy(orders[..i], strategy);
      OfStrategy(orders[..i + 1], strategy) == if orders[i].strategy == strategy then before + [orders[i]] else before
  {
    Prefixes(orders, i);
  }

  lemma NotionalStep(orders: seq<OrderRecord>, r: OrderRecord)
    ensures NotionalSum(orders + [r]) == NotionalSum(orders) + OpenNotional(r)
  {
    hide OpenNotional;
    assert (orders + [r])[..|orders|] == orders;
  }

  class RiskEngine {
    const settings: RiskSettings
    const rules: map<string, MarketRule>
    const staleMs: int
    var safeMode: bool
    var dailyPnl: real

    constructor (settings: RiskSettings, rules: map<string, MarketRule>, staleMs: int)
      ensures this.settings == settings && this.rules == rules && this.staleMs == staleMs
      ensures !safeMode && dailyPnl == 0.0
    {
      this.settings := settings;
      this.rules := rules;
      this.staleMs := staleMs;
      safeMode := false;
      dailyPnl := 0.0;
    }

    function View(markets: map<string, MarketSnapshot>, inventory: map<string, Balance>, nowMs: int): RiskView
      reads this
    {
      RiskView(settings, rules, staleMs, safeMode, dailyPnl, markets, inventory, nowMs)
    }

    method EnterSafeMode()
      modifies this`safeMode
      ensures safeMode
    {
      safeMode := true;
    }

    method ExitSafeMode()
      modifies this`safeMode
      ensures !safeMode
    {
      safeMode := false;
    }

    method AnyUnknown(oms: OrderManager) returns (found: bool)
      requires oms.Valid()
      ensures found == HasUnknown(oms.State())
    {
      found := false;
      var keys := oms.orders.keys;
      ValidKeys(oms.orders);
      for i := 0 to |keys|
        invariant found == HasUnknownOf(keys[..i], oms.orders.at)
      {
        Prefixes(keys, i);
        if oms.orders.at[keys[i]].status == Unknown {
          found := true;
        }
      }
      assert keys[..|keys|] == keys;
    }

    method StrategyOrders(open: seq<OrderRecord>, strategy: string) returns (mine: seq<OrderRecord>, value: real)
      ensures mine == OfStrategy(open, strategy) && value == NotionalSum(mine)
    {
      hide NotionalSum, OpenNotional, OfStrategy;
      NothingOpen(strategy);
      assert open[..0] == [];
      mine := [];
      value := 0.0;
      for i := 0 to |open|
        invariant mine == OfStrategy(open[..i], strategy) && value == NotionalSum(mine)
      {
        Prefixes(open, i);
        OfStrategyStep(open, strategy, i);
        if open[i].strategy == strategy {
          NotionalStep(mine, open[i]);
          mine := mine + [open[i]];
          value := value + OpenNotional(open[i]);
        }
      }
      assert open[..|open|] == open;
    }

    method CheckOpen(intent: OrderIntent, notional: real, oms: OrderManager,
        ghost view: RiskView) returns (rule: RiskRule)
      requires oms.Valid() && view.settings == settings
      ensures rule == OpenCheck(view, intent, notional, oms.State())
    {
      var open := oms.ListOpenOrders(Some(intent.symbol));
      if |open| >= settings.maxOpenOrders {
        return MaxOpenOrders;
      }
      var total := oms.SumOpenNotional(Some(intent.symbol));
      if total + notional > settings.maxTotalOpenValue {
        return MaxTotalOpenValue;
      }
      var mine, value := StrategyOrders(open, intent.strategy);
      if intent.strategy in settings.strategyMaxOpenOrders
         && |mine| >= settings.strategyMaxOpenOrders[intent.strategy] {
        return StrategyMaxOpenOrders;
      }
      if intent.strategy in settings.strategyMaxOpenValue
         && value + notional > settings.strategyMaxOpenValue[intent.strategy] {
        return StrategyMaxOpenValue;
      }
      rule := AllPassed;
    }

    method ValidateIntent(intent: OrderIntent, markets: map<string, MarketSnapshot>, inventory: map<string, Balance>,
                          oms: OrderManager, nowMs: int)
      returns (verdict: Verdict)
      requires oms.Valid()
      ensures verdict == Validate(View(markets, inventory, nowMs), intent, oms.State())
    {
      ghost var view := View(markets, inventory, nowMs);
      if intent.action == Cancel {
        return Approved(CancelAllowed);
      }
      if intent.action != Place {
        return Refused(UnknownAction);
      }
      if safeMode {
        return Refused(SafeMode);
      }
      if intent.symbol !in rules {
        return Refused(SymbolNotAllowed);
      }
      if intent.symbol !in markets {
        return Refused(MissingMarket);
      }
      var market := markets[intent.symbol];
      if nowMs - market.receiveTimeMs > staleMs {
        return Refused(StaleMarket);
      }
      if intent.price.None? || intent.size.None? || intent.side.None? {
        return Refused(InvalidIntent);
      }
      var unknown := AnyUnknown(oms);
      if unknown {
        return Refused(UnknownOrder);
      }
      if dailyPnl <= -settings.maxDailyLoss {
        return Refused(DailyLoss);
      }
      var rule := rules[intent.symbol];
      var price, size := intent.price.value, intent.size.value;
      var notional := Notional(price, size);
      if !rule.ValidMinimums(price, size) {
        return Refused(MarketMinimums);
      }
      if notional > settings.maxOrderValue {
        return Refused(MaxOrderValue);
      }
      if intent.strategy in settings.strategyMaxOrderValue
         && notional > settings.strategyMaxOrderValue[intent.strategy] {
        return Refused(StrategyMaxOrderValue);
      }
      assert ValueCheck(view, intent, price, size) == AllPassed;
      var open := CheckOpen(intent, notional, oms, view);
      if open != AllPassed {
        return Refused(open);
      }
      if market.Mid() == 0.0 {
        return Crashed;
      }
      verdict := Judge(MarketCheck(View(markets, inventory, nowMs), rule, market, intent.side.value, price, size));
    }
  }
}
