/** Which rule refuses a place (src/mm/risk/engine.py:33-117): the first one it violates, in the order of the checks. */
module Verdicts {
  import opened Dicts
  import opened Types
  import opened Oms
  import opened Risk
  import opened Writes

  /** The place of a rule in the order of the checks. */
  function Rank(rule: RiskRule): nat {
    match rule
    case UnknownAction => 1 case SafeMode => 2 case SymbolNotAllowed => 3 case MissingMarket => 4 case StaleMarket => 5
    case InvalidIntent => 6 case UnknownOrder => 7 case DailyLoss => 8 case MarketMinimums => 9 case MaxOrderValue => 10
    case StrategyMaxOrderValue => 11 case MaxOpenOrders => 12 case MaxTotalOpenValue => 13
    case StrategyMaxOpenOrders => 14 case StrategyMaxOpenValue => 15 case PriceDeviation => 16 case PostOnlyCross => 17
    case MaxPosition => 18 case InsufficientInventory => 19
    case CancelAllowed => 20 case AllPassed => 20
  }

  function OfName(strategy: string): OrderRecord -> bool {
    (r: OrderRecord) => r.strategy == strategy
  }

  /** The intent says what it wants, of a symbol with rules and a market. */
  predicate Complete(view: RiskView, i: OrderIntent) {
    i.symbol in view.rules && i.symbol in view.markets && i.price.Some? && i.size.Some? && i.side.Some?
  }

  /** What the rules object to that come before the order's own value. */
  ghost predicate Misplaced(view: RiskView, i: OrderIntent, s: OmsState, rule: RiskRule) {
    match rule
    case UnknownAction => i.action != Place
    case SafeMode => view.safeMode
    case SymbolNotAllowed => i.symbol !in view.rules
    case MissingMarket => i.symbol !in view.markets
    case StaleMarket => i.symbol in view.markets && view.nowMs > view.markets[i.symbol].receiveTimeMs + view.staleMs
    case InvalidIntent => i.price == None || i.size == None || i.side == None
    case UnknownOrder => exists k :: 0 <= k < |s.orders.keys| && s.orders.keys[k] in s.orders.at
                                     && s.orders.at[s.orders.keys[k]].status == Unknown
    case DailyLoss => view.dailyPnl + view.settings.maxDailyLoss <= 0.0
    case _ => false
  }

  /** What the others object to. */
  ghost predicate Excessive(view: RiskView, i: OrderIntent, s: OmsState, rule: RiskRule)
    requires Complete(view, i)
  {
    var limits, rules, market := view.settings, view.rules[i.symbol], view.markets[i.symbol];
    var price, size := i.price.value, i.size.value;
    var open := OpenOrders(s, Some(i.symbol));
    var mine := Filter(open, OfName(i.strategy));
    var value := price * size;
    match rule
    case MarketMinimums => size < rules.baseMinSize || value < rules.minNotional
    case MaxOrderValue => value > limits.maxOrderValue
    case StrategyMaxOrderValue =>
      i.strategy in limits.strategyMaxOrderValue && value > limits.strategyMaxOrderValue[i.strategy]
    case MaxOpenOrders => |open| >= limits.maxOpenOrders
    case MaxTotalOpenValue => LeftValue(open) + value > limits.maxTotalOpenValue
    case StrategyMaxOpenOrders =>
      i.strategy in limits.strategyMaxOpenOrders && |mine| >= limits.strategyMaxOpenOrders[i.strategy]
    case StrategyMaxOpenValue =>
      i.strategy in limits.strategyMaxOpenValue
      && LeftValue(mine) + value > limits.strategyMaxOpenValue[i.strategy]
    case PriceDeviation => !Near(price, (market.bid + market.ask) / 2.0, limits.maxPriceDeviationBps)
    case PostOnlyCross => if i.side == Some(Buy) then market.ask <= price else price <= market.bid
    case MaxPosition =>
      i.side == Some(Buy)
      && (if rules.base in view.inventory then view.inventory[rules.base].available + view.inventory[rules.base].frozen
          else 0.0) + size > limits.maxPositionBase
    case InsufficientInventory =>
      i.side == Some(Sell)
      && (if rules.base in view.inventory then view.inventory[rules.base].available else 0.0) < size
    case _ => false
  }

  /** What each rule objects to. */
  ghost predicate Violates(view: RiskView, i: OrderIntent, s: OmsState, rule: RiskRule) {
    if Rank(rule) <= 8 then Misplaced(view, i, s, rule) else Complete(view, i) && Excessive(view, i, s, rule)
  }

  /** The mid price the deviation is measured from is zero. */
  predicate NoMid(view: RiskView, i: OrderIntent) {
    i.symbol in view.markets && view.markets[i.symbol].bid + view.markets[i.symbol].ask == 0.0
  }

  lemma {:induction false} OfStrategyFiltered(orders: seq<OrderRecord>, strategy: string)
    ensures OfStrategy(orders, strategy) == Filter(orders, OfName(strategy))
  {
    if orders != [] {
      var n := |orders| - 1;
      OfStrategyFiltered(orders[..n], strategy);
      FilterAppend(orders[..n], orders[n], OfName(strategy));
      assert orders == orders[..n] + [orders[n]];
    }
  }

  /** No rule up to `rank` objects. */
  ghost predicate PassesTo(view: RiskView, i: OrderIntent, s: OmsState, rank: nat) {
    forall rule | Rank(rule) <= rank :: !Violates(view, i, s, rule)
  }

  lemma ValueVerdict(view: RiskView, i: OrderIntent, s: OmsState)
    requires Complete(view, i)
    ensures var rule := ValueCheck(view, i, i.price.value, i.size.value);
      && (rule != AllPassed ==> 9 <= Rank(rule) <= 11 && Violates(view, i, s, rule))
      && forall other | 9 <= Rank(other) <= 11 && Rank(other) < Rank(rule) :: !Violates(view, i, s, other)
  {
    hide OpenOrders, Filter, LeftValue, Near;
  }

  lemma OpenVerdict(view: RiskView, i: OrderIntent, s: OmsState)
    requires Complete(view, i)
    ensures var rule := OpenCheck(view, i, Notional(i.price.value, i.size.value), s);
      && (rule != AllPassed ==> 12 <= Rank(rule) <= 15 && Violates(view, i, s, rule))
      && forall other | 12 <= Rank(other) <= 15 && Rank(other) < Rank(rule) :: !Violates(view, i, s, other)
  {
    hide OpenOrders, Filter, LeftValue, NotionalSum, OfStrategy, Near;
    var open := OpenOrders(s, Some(i.symbol));
    assert TotalOpenNotional(s, Some(i.symbol)) == NotionalSum(open);
    OfStrategyFiltered(open, i.strategy);
    NotionalIsLeft(open);
    NotionalIsLeft(OfStrategy(open, i.strategy));
    assert Notional(i.price.value, i.size.value) == i.price.value * i.size.value;
  }

  lemma MarketVerdict(view: RiskView, i: OrderIntent, s: OmsState)
    requires Complete(view, i) && !NoMid(view, i)
    ensures var market := view.markets[i.symbol];
      market.Mid() != 0.0
      && var rule := MarketCheck(view, view.rules[i.symbol], market, i.side.value, i.price.value, i.size.value);
      && (rule != AllPassed ==> 16 <= Rank(rule) <= 19 && Violates(view, i, s, rule))
      && forall other | 16 <= Rank(other) <= 19 && Rank(other) < Rank(rule) :: !Violates(view, i, s, other)
  {
    hide OpenOrders, Filter, LeftValue, Near, Abs;
    NearExactly(i.price.value, view.markets[i.symbol].Mid(), view.settings.maxPriceDeviationBps);
  }

  /** The checks before the order's own value. */
  lemma HeadVerdict(view: RiskView, i: OrderIntent, s: OmsState, other: RiskRule)
    requires i.action != Cancel
    ensures match Validate(view, i, s)
      case Refused(rule) =>
        && (Rank(rule) <= 8 ==> Violates(view, i, s, rule))
        && (Rank(rule) <= 8 && Rank(other) < Rank(rule) ==> !Violates(view, i, s, other))
        && (Rank(rule) > 8 ==> Complete(view, i) && (Rank(other) <= 8 ==> !Violates(view, i, s, other)))
      case _ => Complete(view, i) && (Rank(other) <= 8 ==> !Violates(view, i, s, other))
  {
    hide Excessive, ValueCheck, OpenCheck, MarketCheck, HasUnknownOf, Notional;
    HasUnknownMeans(s.orders.keys, s.orders.at);
    if Complete(view, i) {
      TailRanks(view, i, s);
    }
  }

  lemma TailRanks(view: RiskView, i: OrderIntent, s: OmsState)
    requires Complete(view, i)
    ensures Rank(ValueCheck(view, i, i.price.value, i.size.value)) > 8
    ensures Rank(OpenCheck(view, i, Notional(i.price.value, i.size.value), s)) > 8
    ensures var market := view.markets[i.symbol];
      market.Mid() != 0.0 ==>
        Rank(MarketCheck(view, view.rules[i.symbol], market, i.side.value, i.price.value, i.size.value)) > 8
  {
  }

  /** The checks from there on. */
  lemma TailVerdict(view: RiskView, i: OrderIntent, s: OmsState)
    requires Complete(view, i)
    ensures match Validate(view, i, s)
      case Refused(rule) => Rank(rule) > 8 ==>
        Rank(rule) < 20 && Violates(view, i, s, rule) && (Rank(rule) >= 16 ==> !NoMid(view, i))
        && forall other | 9 <= Rank(other) < Rank(rule) :: !Violates(view, i, s, other)
      case Crashed => NoMid(view, i) && forall other | 9 <= Rank(other) <= 15 :: !Violates(view, i, s, other)
      case Approved(rule) => rule == AllPassed ==>
        !NoMid(view, i) && forall other | 9 <= Rank(other) <= 19 :: !Violates(view, i, s, other)
  {
    hide Violates, ValueCheck, OpenCheck, MarketCheck;
    ValueVerdict(view, i, s);
    OpenVerdict(view, i, s);
    if !NoMid(view, i) {
      MarketVerdict(view, i, s);
    }
  }

  lemma VerdictMeans(view: RiskView, i: OrderIntent, s: OmsState)
    requires i.action != Cancel
    ensures match Validate(view, i, s)
      case Refused(rule) =>
        && 1 <= Rank(rule) < 20 && Violates(view, i, s, rule) && PassesTo(view, i, s, Rank(rule) - 1)
        && (Rank(rule) >= 16 ==> !NoMid(view, i))
      case Crashed => PassesTo(view, i, s, 15) && NoMid(view, i)
      case Approved(rule) => rule == AllPassed && PassesTo(view, i, s, 19) && !NoMid(view, i)
  {
    hide Violates, ValueCheck, OpenCheck, MarketCheck;
    forall other
      ensures match Validate(view, i, s)
        case Refused(rule) =>
          && (Rank(rule) <= 8 ==> Violates(view, i, s, rule))
          && (Rank(rule) <= 8 && Rank(other) < Rank(rule) ==> !Violates(view, i, s, other))
          && (Rank(rule) > 8 ==> Complete(view, i) && (Rank(other) <= 8 ==> !Violates(view, i, s, other)))
        case _ => Complete(view, i) && (Rank(other) <= 8 ==> !Violates(view, i, s, other))
    {
      HeadVerdict(view, i, s, other);
    }
    if Complete(view, i) {
      TailVerdict(view, i, s);
    }
  }

  /** A cancel is approved. A place is refused by the first rule it violates, if that comes before the deviation check
      or there is a mid price; with none violated before that check and no mid price the engine raises; and with none
      violated at all the place is approved. */
  lemma VerdictExactly(view: RiskView, i: OrderIntent, s: OmsState, rule: RiskRule)
    ensures i.action == Cancel ==> Validate(view, i, s) == Approved(CancelAllowed)
    ensures i.action != Cancel ==>
      && (Validate(view, i, s) == Refused(rule) <==>
            && Rank(rule) < 20 && Violates(view, i, s, rule) && PassesTo(view, i, s, Rank(rule) - 1)
            && (Rank(rule) < 16 || !NoMid(view, i)))
      && (Validate(view, i, s) == Crashed <==> PassesTo(view, i, s, 15) && NoMid(view, i))
      && (Validate(view, i, s) == Approved(AllPassed) <==> PassesTo(view, i, s, 19) && !NoMid(view, i))
  {
    hide Violates, NoMid, ValueCheck, OpenCheck, MarketCheck, HasUnknown;
    if i.action != Cancel {
      VerdictMeans(view, i, s);
      RanksDiffer(rule, match Validate(view, i, s) case Refused(other) => other case _ => AllPassed);
    }
  }

  lemma RanksDiffer(a: RiskRule, b: RiskRule)
    ensures Rank(a) == Rank(b) < 20 ==> a == b
  {
  }
}
