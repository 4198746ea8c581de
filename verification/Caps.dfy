/** The bound on a symbol's exposure over runs of the application: `_execute_intents` judges all the places of a
    tick against one state, so a tick that approves n of them can exceed the limit by n - 1 orders. */
module Caps {
  import opened Dicts
  import opened Types
  import opened Oms
  import opened OmsRuns
  import opened Reals
  import opened Exposure
  import opened Quote
  import opened Risk
  import opened App
  import opened AppRuns

  // ------------------------------------------------------------------------------- what a tick requests

  /** How many of the requests are for `symbol`. */
  function CountFor(requests: seq<OrderRequest>, symbol: string): nat {
    if requests == [] then 0
    else
      var n := |requests| - 1;
      CountFor(requests[..n], symbol) + if requests[n].symbol == symbol then 1 else 0
  }

  predicate PositiveMinimums(rules: map<string, MarketRule>) {
    forall s | s in rules :: rules[s].baseMinSize > 0.0 && rules[s].minNotional >= 0.0
  }

  lemma ApprovedIsPriced(view: RiskView, i: OrderIntent, s: OmsState)
    requires PositiveMinimums(view.rules) && i.action == Place && Validate(view, i, s).Approved?
    requires i.clientOrderId.Some?
    ensures i.side.Some? && i.size.Some?
    ensures var r := RequestFrom(i);
      && r.price.Some? && r.price.value >= 0.0 && r.size >= 0.0
      && 0.0 <= RequestNotional(r) <= view.settings.maxOrderValue
      && TotalOpenNotional(s, Some(r.symbol)) + RequestNotional(r) <= view.settings.maxTotalOpenValue
      && !HasUnknown(s)
  {
    hide Validate, TotalOpenNotional, HasUnknown, Notional;
    ApprovalMeans(view, i, s);
    NonnegativePrice(i.price.value, i.size.value);
  }

  lemma NonnegativePrice(price: real, size: real)
    requires size > 0.0 && Notional(price, size) >= 0.0
    ensures price >= 0.0
  {
    if price < 0.0 {
      MulLess(price, 0.0, size);
    }
  }

  /** `extra` orders of notional `most` on top of a limit */
  function Slack(extra: nat, most: real): real {
    extra as real * most
  }

  lemma SlackStep(extra: nat, most: real)
    ensures Slack(extra + 1, most) == Slack(extra, most) + most
  {
  }

  lemma SlackOrder(a: nat, b: nat, most: real)
    requires a <= b && most >= 0.0
    ensures Slack(a, most) <= Slack(b, most)
  {
    MulLe(a as real, b as real, most);
  }

  /** The most one order can add to the exposure: neither limit allows more. */
  function OrderCap(settings: RiskSettings): real {
    Min(settings.maxTotalOpenValue, settings.maxOrderValue)
  }

  /** The bound for n orders approved at once, for the limits `total` (max_total_open_value_usdt) and `most`
      (max_order_value_usdt). */
  function Cap(n: nat, total: real, most: real): real
    requires n >= 1
  {
    total + Slack(n - 1, Min(total, most))
  }

  lemma {:induction false} OpenNonnegative(keys: seq<string>, at: map<string, OrderRecord>, symbol: Option<string>)
    requires forall id | id in at :: PriceFits(at[id])
    ensures NotionalSum(OpenOrdersOf(keys, at, symbol)) >= 0.0
  {
    hide PriceFits, OpenNotional;
    if keys == [] {
      EmptySums(at, "");
    } else {
      var n := |keys| - 1;
      OpenNonnegative(keys[..n], at, symbol);
      if keys[n] in at {
        FitIsNonnegative(at[keys[n]]);
        NotionalAppend(OpenOrdersOf(keys[..n], at, symbol), at[keys[n]]);
      }
    }
  }

  lemma FitIsNonnegative(r: OrderRecord)
    requires PriceFits(r)
    ensures OpenNotional(r) >= 0.0
  {
    if r.price.Some? && r.price.value >= 0.0 {
      MulNonnegative(r.price.value, RemainingSize(r));
    }
  }

  /** The k requests approved for a symbol fit the limit up to k - 1 orders. */
  ghost predicate Fits(view: RiskView, s: OmsState, requests: seq<OrderRequest>, symbol: string) {
    var k := CountFor(requests, symbol);
    && PricedRequests(requests)
    && (k == 0 ==> RequestedFor(requests, symbol) == 0.0)
    && (k > 0 ==>
        && !HasUnknown(s) && OrderCap(view.settings) >= 0.0
        && TotalOpenNotional(s, Some(symbol)) + RequestedFor(requests, symbol)
             <= view.settings.maxTotalOpenValue + Slack(k - 1, OrderCap(view.settings)))
  }

  lemma FitsStep(view: RiskView, s: OmsState, requests: seq<OrderRequest>, i: OrderIntent, symbol: string)
    requires Fits(view, s, requests, symbol) && PositiveMinimums(view.rules)
    requires i.action == Place && Validate(view, i, s).Approved? && i.clientOrderId.Some?
    requires TotalOpenNotional(s, Some(i.symbol)) >= 0.0
    ensures i.side.Some? && i.size.Some? && Fits(view, s, requests + [RequestFrom(i)], symbol)
  {
    ApprovedIsPriced(view, i, s);
    var r := RequestFrom(i);
    var all := requests + [r];
    assert all[..|requests|] == requests;
    hide Validate, TotalOpenNotional, RequestFrom, HasUnknown, RequestNotional;
    var k := CountFor(requests, symbol);
    if k > 0 {
      SlackStep(k - 1, OrderCap(view.settings));
    }
    assert Slack(0, OrderCap(view.settings)) == 0.0;
    hide Slack;
    assert CountFor(all, symbol) == k + if r.symbol == symbol then 1 else 0;
    assert RequestedFor(all, symbol)
        == RequestedFor(requests, symbol) + if r.symbol == symbol then RequestNotional(r) else 0.0;
  }

  lemma {:induction false} ScreenFits(view: RiskView, s: OmsState, intents: seq<OrderIntent>, symbol: string)
    requires PositiveMinimums(view.rules) && PricesFit(s)
    ensures Fits(view, s, Screen(view, s, intents).requests, symbol)
  {
    hide Validate, Fits, TotalOpenNotional;
    if intents != [] {
      var n := |intents| - 1;
      ScreenFits(view, s, intents[..n], symbol);
      var before := Screen(view, s, intents[..n]);
      if before.outcome == Ok && intents[n].action == Place && Validate(view, intents[n], s).Approved?
         && intents[n].clientOrderId.Some? {
        TotalNonnegative(s, Some(intents[n].symbol));
        FitsStep(view, s, before.requests, intents[n], symbol);
      }
    } else {
      NothingFits(view, s, symbol);
    }
  }

  lemma NothingFits(view: RiskView, s: OmsState, symbol: string)
    ensures Fits(view, s, [], symbol)
  {
  }

  lemma TotalNonnegative(s: OmsState, symbol: Option<string>)
    requires PricesFit(s)
    ensures TotalOpenNotional(s, symbol) >= 0.0
  {
    OpenNonnegative(s.orders.keys, s.orders.at, symbol);
  }

  // ------------------------------------------------------------------------------- the batches together

  function RequestedIn(symbol: string): seq<OrderRequest> -> real {
    batch => RequestedFor(batch, symbol)
  }

  lemma RequestedAppend(requests: seq<OrderRequest>, r: OrderRequest, symbol: string)
    ensures RequestedFor(requests + [r], symbol)
         == RequestedFor(requests, symbol) + if r.symbol == symbol then RequestNotional(r) else 0.0
  {
    assert (requests + [r])[..|requests|] == requests;
  }

  /** Grouping loses and adds nothing. */
  lemma {:induction false} GroupsRequest(requests: seq<OrderRequest>, symbol: string)
    ensures GroupBy(requests, RequestSymbol).Valid()
    ensures Sum(GroupBy(requests, RequestSymbol), RequestedIn(symbol)) == RequestedFor(requests, symbol)
  {
    if requests != [] {
      var n := |requests| - 1;
      GroupsRequest(requests[..n], symbol);
      GroupMembers(requests, RequestSymbol);
      var rest := GroupBy(requests[..n], RequestSymbol);
      var k := requests[n].symbol;
      var group := if k in rest.at then rest.at[k] else [];
      RequestedAppend(group, requests[n], symbol);
      SumPut(rest, k, group + [requests[n]], RequestedIn(symbol));
      assert GroupBy(requests, RequestSymbol) == Put(rest, k, group + [requests[n]]);
      assert RequestedFor([], symbol) == 0.0;
      hide Sum, RequestNotional, Distinct, KeySet, GroupBy;
    }
  }

  lemma {:induction false} SubmitsStake(s: OmsState, keys: seq<string>, at: map<string, seq<OrderRequest>>,
      gateway: seq<OrderRequest> -> Reply<OrderAck>, symbol: string)
    requires Sound(s) && forall k | k in keys :: k in at && PricedRequests(at[k])
    ensures var end := SubmitBatches(s, Values(keys, at), gateway).state;
      Sound(end) && ExposureOf(end, symbol) <= ExposureOf(s, symbol) + SumKeys(keys, at, RequestedIn(symbol))
  {
    hide Sound, ExposureOf, BatchSubmitted, PricedRequests;
    if keys != [] {
      var n := |keys| - 1;
      SubmitsStake(s, keys[..n], at, gateway, symbol);
      assert keys[n] in keys;
      var batch := at[keys[n]];
      var before := SubmitBatches(s, Values(keys[..n], at), gateway);
      RequestedNonnegative(batch, symbol);
      SubmitBatchStake(before.state, batch, gateway(batch), symbol);
      var batches := Values(keys, at);
      assert batches[..|batches| - 1] == Values(keys[..n], at) && batches[|batches| - 1] == batch;
      assert SumKeys(keys, at, RequestedIn(symbol))
          == SumKeys(keys[..n], at, RequestedIn(symbol)) + RequestedFor(batch, symbol);
    }
  }

  lemma PricedSome(requests: seq<OrderRequest>, some: seq<OrderRequest>)
    requires PricedRequests(requests) && forall x | x in some :: x in requests
    ensures PricedRequests(some)
  {
    forall i | 0 <= i < |some|
      ensures some[i].price.Some? && some[i].price.value >= 0.0 && some[i].size >= 0.0
    {
      assert some[i] in requests;
    }
  }

  lemma GroupsPriced(requests: seq<OrderRequest>)
    requires PricedRequests(requests)
    ensures var groups := GroupBy(requests, RequestSymbol);
      forall k | k in groups.keys :: k in groups.at && PricedRequests(groups.at[k])
  {
    hide GroupBy, PricedRequests;
    var groups := GroupBy(requests, RequestSymbol);
    GroupMembers(requests, RequestSymbol);
    ValidKeys(groups);
    forall k | k in groups.keys
      ensures k in groups.at && PricedRequests(groups.at[k])
    {
      PricedSome(requests, groups.at[k]);
    }
  }

  /** Submitting requests batch by batch adds at most their notional. */
  lemma RequestsStake(s: OmsState, requests: seq<OrderRequest>, gateway: seq<OrderRequest> -> Reply<OrderAck>,
      symbol: string)
    requires Sound(s) && PricedRequests(requests)
    ensures var end := SubmitBatches(s, Batches(requests, RequestSymbol), gateway).state;
      Sound(end) && ExposureOf(end, symbol) <= ExposureOf(s, symbol) + RequestedFor(requests, symbol)
  {
    hide GroupBy, ExposureOf, RequestedFor, SubmitBatches, Sound, SumKeys, PricedRequests;
    GroupsRequest(requests, symbol);
    GroupsPriced(requests);
    var groups := GroupBy(requests, RequestSymbol);
    SubmitsStake(s, groups.keys, groups.at, gateway, symbol);
  }

  // ------------------------------------------------------------------------------- ticks and runs

  lemma {:induction false} CancelsStake(s: OmsState, batches: seq<seq<CancelRequest>>,
      gateway: seq<CancelRequest> -> Reply<CancelAck>, symbol: string)
    requires Sound(s)
    ensures var end := CancelBatches(s, batches, gateway).state;
      Sound(end) && ExposureOf(end, symbol) <= ExposureOf(s, symbol)
  {
    hide Sound, ExposureOf, BatchCanceled;
    if batches != [] {
      var n := |batches| - 1;
      CancelsStake(s, batches[..n], gateway, symbol);
      CancelBatchStake(CancelBatches(s, batches[..n], gateway).state, batches[n], gateway, symbol);
    }
  }

  lemma CancelPhaseStake(a: AppState, t: TickInput, symbol: string)
    requires Sound(a.oms) && forall i | 0 <= i < |t.fills| :: t.fills[i].size >= 0.0
    ensures var c := AfterCancelPhase(a, t); Sound(c) && ExposureOf(c, symbol) <= ExposureOf(a.oms, symbol)
  {
    hide Sound, ExposureOf, TickBuilt;
    OpsStake(a.oms, FillOps(t.fills), symbol);
    var batches := Batches(CancelRequestsOf(TickBuilt(a, t).intents), CancelSymbol);
    CancelsStake(TickFills(a, t).state, batches, t.gateway.cancel, symbol);
  }

  /** The limits of a run: `total` and `most` are max_total_open_value_usdt and max_order_value_usdt. */
  ghost predicate WithinLimits(a: AppState, t: TickInput, symbol: string, n: nat, total: real, most: real) {
    && t.view.settings.maxTotalOpenValue == total && t.view.settings.maxOrderValue == most
    && PositiveMinimums(t.view.rules)
    && (forall i | 0 <= i < |t.fills| :: t.fills[i].size >= 0.0)
    && CountFor(TickRequests(a, t), symbol) <= n
  }

  lemma TickRequestsFit(a: AppState, t: TickInput, symbol: string)
    requires PositiveMinimums(t.view.rules) && PricesFit(AfterCancelPhase(a, t))
    ensures Fits(TickView(a, t), AfterCancelPhase(a, t), TickRequests(a, t), symbol)
  {
    hide Screen, AfterCancelPhase, TickBuilt, HasUnknown, TotalOpenNotional;
    ScreenFits(TickView(a, t), AfterCancelPhase(a, t), TickBuilt(a, t).intents, symbol);
    assert CountFor([], symbol) == 0 && RequestedFor([], symbol) == 0.0;
  }

  /** Fitting requests keep the cap. */
  lemma FitsCaps(view: RiskView, c: OmsState, requests: seq<OrderRequest>, symbol: string, n: nat)
    requires n >= 1 && Fits(view, c, requests, symbol) && CountFor(requests, symbol) <= n
    ensures PricedRequests(requests)
    ensures ExposureOf(c, symbol) + RequestedFor(requests, symbol)
      <= Max(ExposureOf(c, symbol), Cap(n, view.settings.maxTotalOpenValue, view.settings.maxOrderValue))
  {
    hide RequestedFor, CountFor, Slack;
    var k := CountFor(requests, symbol);
    if k > 0 {
      SlackOrder(k - 1, n - 1, OrderCap(view.settings));
      OpenNotionalIsExposure(c.orders.keys, c.orders.at, symbol);
    }
  }

  lemma TickStaysCapped(a: AppState, t: TickInput, symbol: string, n: nat, total: real, most: real)
    requires n >= 1 && Sound(a.oms) && WithinLimits(a, t, symbol, n, total, most)
    ensures var end := Tick(a, t).state.oms;
      Sound(end) && ExposureOf(end, symbol) <= Max(ExposureOf(a.oms, symbol), Cap(n, total, most))
  {
    hide Tick, AfterCancelPhase, TickRequests, Slack, Cap, Sound, RequestedFor, CountFor, ExposureOf, PricedRequests;
    var c := AfterCancelPhase(a, t);
    var requests := TickRequests(a, t);
    TickSubmits(a, t);
    CancelPhaseStake(a, t, symbol);
    SoundFits(c);
    TickRequestsFit(a, t, symbol);
    FitsCaps(TickView(a, t), c, requests, symbol, n);
    RequestsStake(c, requests, t.gateway.submit, symbol);
  }

  lemma SoundFits(s: OmsState)
    requires Sound(s)
    ensures PricesFit(s)
  {
  }

  ghost predicate EventWithinLimits(a: AppState, e: AppEvent, symbol: string, n: nat, total: real, most: real) {
    match e
    case Between(op) => !op.SubmitStart? && FillsForward(op)
    case Latched(_, _) => true
    case Ticked(t) => WithinLimits(a, t, symbol, n, total, most)
  }

  ghost predicate RunWithinLimits(a: AppState, events: seq<AppEvent>, symbol: string, n: nat, total: real, most: real) {
    forall i | 0 <= i < |events| :: EventWithinLimits(RunApp(a, events[..i]), events[i], symbol, n, total, most)
  }

  lemma EventStaysCapped(a: AppState, e: AppEvent, symbol: string, n: nat, total: real, most: real)
    requires n >= 1 && Sound(a.oms) && EventWithinLimits(a, e, symbol, n, total, most)
    ensures var end := AfterEvent(a, e).oms;
      Sound(end) && ExposureOf(end, symbol) <= Max(ExposureOf(a.oms, symbol), Cap(n, total, most))
  {
    hide Sound, ExposureOf, WithinLimits, Cap, Tick, ApplyOp;
    match e
    case Between(op) => StepStake(a.oms, op, symbol);
    case Latched(_, _) =>
    case Ticked(t) => TickStaysCapped(a, t, symbol, n, total, most);
  }

  /** When every tick approves at most n places for a symbol, its exposure (the remaining notional of all its orders
      that are not terminal, UNKNOWN ones and imported orphans included) never exceeds the total limit by more than n -
      1 orders, each of at most both limits, unless it did so from the start, and then it never grows; for n = 1 that
      is the limit itself. Ticks and calls may raise, UNKNOWN orders may reopen. */
  lemma {:induction false} ExposureStaysCapped(a: AppState, events: seq<AppEvent>, symbol: string, n: nat,
      total: real, most: real)
    requires n >= 1 && Sound(a.oms) && RunWithinLimits(a, events, symbol, n, total, most)
    ensures var end := RunApp(a, events).oms;
      Sound(end) && ExposureOf(end, symbol) <= Max(ExposureOf(a.oms, symbol), Cap(n, total, most))
  {
    hide Sound, ExposureOf, EventWithinLimits, Cap, AfterEvent;
    if events != [] {
      var m := |events| - 1;
      var init := events[..m];
      forall i | 0 <= i < m
        ensures init[i] == events[i] && init[..i] == events[..i]
      {
      }
      ExposureStaysCapped(a, init, symbol, n, total, most);
      EventStaysCapped(RunApp(a, init), events[m], symbol, n, total, most);
    }
  }

  // ------------------------------------------------------------------------------- quotes bound places

  function QuotesFor(quotes: seq<QuoteIntent>, symbol: string): nat {
    if quotes == [] then 0
    else
      var n := |quotes| - 1;
      QuotesFor(quotes[..n], symbol) + if quotes[n].symbol == symbol then 1 else 0
  }

  function SlotsFor(keys: seq<Slot>, symbol: string): nat {
    if keys == [] then 0
    else
      var n := |keys| - 1;
      SlotsFor(keys[..n], symbol) + if keys[n].symbol == symbol then 1 else 0
  }

  function PlacesFor(intents: seq<OrderIntent>, symbol: string): nat {
    if intents == [] then 0
    else
      var n := |intents| - 1;
      PlacesFor(intents[..n], symbol) + if intents[n].action == Place && intents[n].symbol == symbol then 1 else 0
  }

  lemma {:induction false} PlacesConcat(a: seq<OrderIntent>, b: seq<OrderIntent>, symbol: string)
    ensures PlacesFor(a + b, symbol) == PlacesFor(a, symbol) + PlacesFor(b, symbol)
  {
    if b == [] {
      assert a + b == a;
    } else {
      var n := |b| - 1;
      assert (a + b)[..|a + b| - 1] == a + b[..n];
      PlacesConcat(a, b[..n], symbol);
    }
  }

  lemma PlacesOne(i: OrderIntent, symbol: string)
    ensures PlacesFor([i], symbol) == if i.action == Place && i.symbol == symbol then 1 else 0
  {
    assert [i][..0] == [];
  }

  lemma NoPlaces(symbol: string)
    ensures PlacesFor([], symbol) == 0
  {
  }

  lemma SlotPlaces(q: QuoteView, open: map<Slot, OrderRecord>, slot: Slot, decision: Decision, symbol: string)
    ensures PlacesFor(SlotIntents(q, open, slot, decision), symbol) <= if slot.symbol == symbol then 1 else 0
  {
    hide PlacesFor;
    var intents := SlotIntents(q, open, slot, decision);
    if |intents| == 2 {
      PlacesOne(intents[0], symbol);
      PlacesOne(intents[1], symbol);
      PlacesConcat([intents[0]], [intents[1]], symbol);
      assert intents == [intents[0]] + [intents[1]];
    } else if |intents| == 1 {
      PlacesOne(intents[0], symbol);
      assert intents == [intents[0]];
    } else {
      NoPlaces(symbol);
      assert intents == [];
    }
  }

  lemma {:induction false} BuiltPlaces(q: QuoteView, open: map<Slot, OrderRecord>, keys: seq<Slot>,
      at: map<Slot, QuoteIntent>, last: map<Slot, int>, symbol: string)
    ensures PlacesFor(BuildSlots(q, open, keys, at, last).intents, symbol) <= SlotsFor(keys, symbol)
  {
    hide Decide, SlotIntents, Touched;
    if keys != [] {
      var n := |keys| - 1;
      BuiltPlaces(q, open, keys[..n], at, last, symbol);
      var before := BuildSlots(q, open, keys[..n], at, last);
      if keys[n] in at {
        var decision := Decide(q, open, before.last, keys[n], at[keys[n]]);
        SlotPlaces(q, open, keys[n], decision, symbol);
        PlacesConcat(before.intents, SlotIntents(q, open, keys[n], decision), symbol);
      }
    }
  }

  lemma {:induction false} StalePlaces(keys: seq<Slot>, at: map<Slot, OrderRecord>, desired: map<Slot, QuoteIntent>,
      symbol: string)
    ensures PlacesFor(StaleCancels(keys, at, desired), symbol) == 0
  {
    if keys != [] {
      StalePlaces(keys[..|keys| - 1], at, desired, symbol);
    }
  }

  lemma {:induction false} DesiredSlots(quotes: seq<QuoteIntent>, symbol: string)
    ensures SlotsFor(Desired(quotes).keys, symbol) <= QuotesFor(quotes, symbol)
  {
    if quotes != [] {
      var n := |quotes| - 1;
      DesiredSlots(quotes[..n], symbol);
      var before := Desired(quotes[..n]).keys;
      var slot := QuoteSlot(quotes[n]);
      assert (before + [slot])[..|before|] == before;
    }
  }

  lemma CountAppend(requests: seq<OrderRequest>, r: OrderRequest, symbol: string)
    ensures CountFor(requests + [r], symbol) == CountFor(requests, symbol) + if r.symbol == symbol then 1 else 0
  {
    assert (requests + [r])[..|requests|] == requests;
  }

  lemma {:induction false} RequestsAreFewer(view: RiskView, s: OmsState, intents: seq<OrderIntent>, symbol: string)
    ensures CountFor(Screen(view, s, intents).requests, symbol) <= PlacesFor(intents, symbol)
  {
    hide Validate, CountFor;
    if intents == [] {
      NothingCounted(symbol);
    } else {
      var n := |intents| - 1;
      RequestsAreFewer(view, s, intents[..n], symbol);
      var before := Screen(view, s, intents[..n]);
      if before.outcome == Ok && intents[n].action == Place && Validate(view, intents[n], s).Approved?
         && intents[n].clientOrderId.Some? {
        ApprovalMeans(view, intents[n], s);
        CountAppend(before.requests, RequestFrom(intents[n]), symbol);
      }
    }
  }

  lemma NothingCounted(symbol: string)
    ensures CountFor([], symbol) == 0
  {
  }

  lemma CallPlaces(q: QuoteView, quotes: seq<QuoteIntent>, orders: seq<OrderRecord>, last: map<Slot, int>,
      symbol: string)
    ensures PlacesFor(BuildIntents(q, quotes, orders, last).intents, symbol) <= QuotesFor(quotes, symbol)
  {
    hide Desired, IndexOpen, BuildSlots, StaleCancels;
    var open, desired := IndexOpen(orders), Desired(quotes);
    StalePlaces(open.keys, open.at, desired.at, symbol);
    BuiltPlaces(q, open.at, desired.keys, desired.at, last, symbol);
    DesiredSlots(quotes, symbol);
    PlacesConcat(StaleCancels(open.keys, open.at, desired.at),
                 BuildSlots(q, open.at, desired.keys, desired.at, last).intents, symbol);
  }

  /** A tick submits no more requests for a symbol than it was given quotes for it. */
  lemma RequestsAtMostQuotes(a: AppState, t: TickInput, symbol: string)
    ensures CountFor(TickRequests(a, t), symbol) <= QuotesFor(t.quotes, symbol)
  {
    hide BuildIntents, OpenOrders, Screen, AfterCancelPhase, CancelsReturned;
    CallPlaces(TickQuoteView(t), t.quotes, OpenOrders(TickFills(a, t).state, None), a.last, symbol);
    RequestsAreFewer(TickView(a, t), AfterCancelPhase(a, t), TickBuilt(a, t).intents, symbol);
  }

  ghost predicate QuotedWithinLimits(events: seq<AppEvent>, symbol: string, n: nat, total: real, most: real) {
    forall i | 0 <= i < |events| ::
      match events[i]
      case Between(op) => !op.SubmitStart? && FillsForward(op)
      case Latched(_, _) => true
      case Ticked(t) =>
        && t.view.settings.maxTotalOpenValue == total && t.view.settings.maxOrderValue == most
        && PositiveMinimums(t.view.rules)
        && (forall j | 0 <= j < |t.fills| :: t.fills[j].size >= 0.0)
        && QuotesFor(t.quotes, symbol) <= n
  }

  /** What can be checked beforehand: with at most n quotes for a symbol in every tick, its exposure stays within the
      same bound over every run. */
  lemma QuotesCapExposure(a: AppState, events: seq<AppEvent>, symbol: string, n: nat, total: real, most: real)
    requires n >= 1 && Sound(a.oms) && QuotedWithinLimits(events, symbol, n, total, most)
    ensures var end := RunApp(a, events).oms;
      Sound(end) && ExposureOf(end, symbol) <= Max(ExposureOf(a.oms, symbol), Cap(n, total, most))
  {
    hide Sound, ExposureOf, Cap, TickRequests, QuotesFor, CountFor, RunApp, PositiveMinimums;
    forall i | 0 <= i < |events| && events[i].Ticked?
      ensures WithinLimits(RunApp(a, events[..i]), events[i].input, symbol, n, total, most)
    {
      RequestsAtMostQuotes(RunApp(a, events[..i]), events[i].input, symbol);
    }
    ExposureStaysCapped(a, events, symbol, n, total, most);
  }
}
