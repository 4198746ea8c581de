/** The quote differ (src/mm/quote/engine.py): desired quotes and open orders in, cancel and place intents out. */
module Quote {
  import opened Dicts
  import opened Types
  import opened Pricing

  /** What one call of `build_order_intents` reads besides its quotes and the open orders. `newId` stands for
      `new_client_order_id`, called at most once per slot and call. */
  datatype QuoteView = QuoteView(
    rules: map<string, MarketRule>, minRequoteMs: int, markets: map<string, MarketSnapshot>, nowMs: int,
    newId: Slot -> string)

  function QuoteSlot(quote: QuoteIntent): Slot {
    Slot(quote.strategy, quote.symbol, quote.side, quote.level)
  }

  function OrderSlot(order: OrderRecord): Slot
    requires order.level.Some?
  {
    Slot(order.strategy, order.symbol, order.side, order.level.value)
  }

  /** `_index_open_orders`: a later order in the same slot replaces an earlier one. */
  function IndexOpen(orders: seq<OrderRecord>): Dict<Slot, OrderRecord> {
    if orders == [] then Empty()
    else
      var last := orders[|orders| - 1];
      var rest := IndexOpen(orders[..|orders| - 1]);
      if last.level.None? then rest else Put(rest, OrderSlot(last), last)
  }

  function Desired(quotes: seq<QuoteIntent>): Dict<Slot, QuoteIntent> {
    if quotes == [] then Empty()
    else
      var last := quotes[|quotes| - 1];
      Put(Desired(quotes[..|quotes| - 1]), QuoteSlot(last), last)
  }

  function CancelIntent(order: OrderRecord): OrderIntent {
    OrderIntent(Cancel, order.symbol, Some(order.side), order.price, Some(RemainingSize(order)),
                Some(order.clientOrderId), Some(order.clientOrderId), order.strategy, order.level, LimitMaker)
  }

  function PlaceIntent(slot: Slot, price: real, size: real, id: string, replaced: Option<string>): OrderIntent {
    OrderIntent(Place, slot.symbol, Some(slot.side), Some(price), Some(size), Some(id), replaced, slot.strategy,
                Some(slot.level), LimitMaker)
  }

  /** Cancels for the slots that are no longer desired. */
  function StaleCancels(keys: seq<Slot>, at: map<Slot, OrderRecord>,
      desired: map<Slot, QuoteIntent>): seq<OrderIntent> {
    if keys == [] then []
    else
      var n := |keys| - 1;
      var rest := StaleCancels(keys[..n], at, desired);
      if keys[n] !in desired && keys[n] in at then rest + [CancelIntent(at[keys[n]])] else rest
  }

  predicate SameQuote(order: OrderRecord, price: real, size: real) {
    order.price == Some(price) && RemainingSize(order) == size
  }

  /** What the loop decides for one desired slot. */
  datatype Decision =
    | NoMarket | BelowMinimums | Unchanged | Throttled | PlaceAt(price: real, size: real) | Fails(error: Error)

  function Decide(q: QuoteView, open: map<Slot, OrderRecord>, last: map<Slot, int>, slot: Slot,
      quote: QuoteIntent): Decision {
    if quote.symbol !in q.rules then Fails(KeyError)
    else if quote.symbol !in q.markets then NoMarket
    else
      var rule := q.rules[quote.symbol];
      if rule.priceIncrement <= 0.0 || rule.sizeIncrement <= 0.0 then Fails(ValueError)
      else
        var price := PostOnlyPrice(rule, q.markets[quote.symbol], quote.side, quote.price);
        var size := AlignSize(rule, quote.size);
        if !rule.ValidMinimums(price, size) then BelowMinimums
        else if slot in open && SameQuote(open[slot], price, size) then Unchanged
        else if slot in open && q.nowMs - (if slot in last then last[slot] else 0) < q.minRequoteMs then Throttled
        else PlaceAt(price, size)
  }

  /** The intents of one desired slot: a place, preceded by the cancel of the order it replaces. */
  function SlotIntents(q: QuoteView, open: map<Slot, OrderRecord>, slot: Slot, decision: Decision): seq<OrderIntent> {
    match decision
    case PlaceAt(price, size) =>
      if slot in open then
        [CancelIntent(open[slot]), PlaceIntent(slot, price, size, q.newId(slot), Some(open[slot].clientOrderId))]
      else
        [PlaceIntent(slot, price, size, q.newId(slot), None)]
    case _ => []
  }

  datatype Built = Built(intents: seq<OrderIntent>, last: map<Slot, int>, outcome: Outcome)

  function Touched(q: QuoteView, last: map<Slot, int>, slot: Slot, decision: Decision): map<Slot, int> {
    if decision.PlaceAt? then last[slot := q.nowMs] else last
  }

  /** The loop over the desired slots. */
  function BuildSlots(q: QuoteView, open: map<Slot, OrderRecord>, keys: seq<Slot>, at: map<Slot, QuoteIntent>,
      last: map<Slot, int>): Built {
    if keys == [] then Built([], last, Ok)
    else
      var n := |keys| - 1;
      var before := BuildSlots(q, open, keys[..n], at, last);
      if before.outcome.Raised? || keys[n] !in at then before
      else
        var decision := Decide(q, open, before.last, keys[n], at[keys[n]]);
        if decision.Fails? then before.(outcome := Raised(decision.error))
        else Built(before.intents + SlotIntents(q, open, keys[n], decision),
                   Touched(q, before.last, keys[n], decision), Ok)
  }

  /** `build_order_intents` */
  function BuildIntents(q: QuoteView, quotes: seq<QuoteIntent>, orders: seq<OrderRecord>, last: map<Slot, int>): Built {
    var open := IndexOpen(orders);
    var desired := Desired(quotes);
    var built := BuildSlots(q, open.at, desired.keys, desired.at, last);
    built.(intents := StaleCancels(open.keys, open.at, desired.at) + built.intents)
  }

  class QuoteEngine {
    const rules: map<string, MarketRule>
    const minRequoteMs: int
    var lastRequoteMs: map<Slot, int>

    constructor (rules: map<string, MarketRule>, minRequoteMs: int)
      ensures this.rules == rules && this.minRequoteMs == minRequoteMs && lastRequoteMs == map[]
    {
      this.rules := rules;
      this.minRequoteMs := minRequoteMs;
      lastRequoteMs := map[];
    }

    function View(markets: map<string, MarketSnapshot>, nowMs: int, newId: Slot -> string): QuoteView {
      QuoteView(rules, minRequoteMs, markets, nowMs, newId)
    }

    static method IndexOpenOrders(orders: seq<OrderRecord>) returns (open: Dict<Slot, OrderRecord>)
      ensures open == IndexOpen(orders)
    {
      open := Empty();
      for i := 0 to |orders|
        invariant open == IndexOpen(orders[..i])
      {
        Prefixes(orders, i);
        if orders[i].level.None? {
          continue;
        }
        open := Put(open, OrderSlot(orders[i]), orders[i]);
      }
      assert orders[..|orders|] == orders;
    }

    /** One turn of the loop over the desired slots. */
    method QuoteOne(slot: Slot, quote: QuoteIntent, open: map<Slot, OrderRecord>, markets: map<string, MarketSnapshot>,
                    nowMs: int, newId: Slot -> string)
      returns (intents: seq<OrderIntent>, outcome: Outcome)
      modifies this`lastRequoteMs
      ensures
        var q := View(markets, nowMs, newId);
        var decision := Decide(q, open, old(lastRequoteMs), slot, quote);
        && outcome == (if decision.Fails? then Raised(decision.error) else Ok)
        && intents == SlotIntents(q, open, slot, decision)
        && lastRequoteMs == Touched(q, old(lastRequoteMs), slot, decision)
    {
      intents := [];
      outcome := Ok;
      if quote.symbol !in rules {
        return [], Raised(KeyError);
      }
      var rule := rules[quote.symbol];
      if quote.symbol !in markets {
        return;
      }
      if rule.priceIncrement <= 0.0 || rule.sizeIncrement <= 0.0 {
        return [], Raised(ValueError);
      }
      var price := PostOnlyPrice(rule, markets[quote.symbol], quote.side, quote.price);
      var size := AlignSize(rule, quote.size);
      if !rule.ValidMinimums(price, size) {
        return;
      }
      var replaced: Option<string> := None;
      if slot in open {
        var existing := open[slot];
        if SameQuote(existing, price, size) {
          return;
        }
        var last := if slot in lastRequoteMs then lastRequoteMs[slot] else 0;
        if nowMs - last < minRequoteMs {
          return;
        }
        intents := [CancelIntent(existing)];
        replaced := Some(existing.clientOrderId);
      }
      intents := intents + [PlaceIntent(slot, price, size, newId(slot), replaced)];
      lastRequoteMs := lastRequoteMs[slot := nowMs];
    }

    method BuildOrderIntents(quotes: seq<QuoteIntent>, orders: seq<OrderRecord>, markets: map<string, MarketSnapshot>,
                             nowMs: int, newId: Slot -> string)
      returns (intents: seq<OrderIntent>, outcome: Outcome)
      modifies this`lastRequoteMs
      ensures
        var built := BuildIntents(View(markets, nowMs, newId), quotes, orders, old(lastRequoteMs));
        lastRequoteMs == built.last && outcome == built.outcome && (outcome == Ok ==> intents == built.intents)
    {
      var open := IndexOpenOrders(orders);
      var desired: Dict<Slot, QuoteIntent> := Empty();
      for i := 0 to |quotes|
        invariant desired == Desired(quotes[..i]) && desired.Valid() && lastRequoteMs == old(lastRequoteMs)
      {
        Prefixes(quotes, i);
        PutValid(desired, QuoteSlot(quotes[i]), quotes[i]);
        desired := Put(desired, QuoteSlot(quotes[i]), quotes[i]);
      }
      assert quotes[..|quotes|] == quotes;
      var stale := CancelStale(open, desired.at);
      intents, outcome := QuoteAll(open.at, desired, markets, nowMs, newId);
      intents := stale + intents;
    }

    static method CancelStale(open: Dict<Slot, OrderRecord>,
        desired: map<Slot, QuoteIntent>) returns (intents: seq<OrderIntent>)
      ensures intents == StaleCancels(open.keys, open.at, desired)
    {
      intents := [];
      var keys := open.keys;
      for i := 0 to |keys|
        invariant intents == StaleCancels(keys[..i], open.at, desired)
      {
        Prefixes(keys, i);
        if keys[i] !in desired && keys[i] in open.at {
          intents := intents + [CancelIntent(open.at[keys[i]])];
        }
      }
      assert keys[..|keys|] == keys;
    }

    method QuoteAll(open: map<Slot, OrderRecord>, desired: Dict<Slot, QuoteIntent>,
        markets: map<string, MarketSnapshot>,
                    nowMs: int, newId: Slot -> string)
      returns (intents: seq<OrderIntent>, outcome: Outcome)
      requires desired.Valid()
      modifies this`lastRequoteMs
      ensures
        var built := BuildSlots(View(markets, nowMs, newId), open, desired.keys, desired.at, old(lastRequoteMs));
        lastRequoteMs == built.last && outcome == built.outcome && intents == built.intents
    {
      intents := [];
      outcome := Ok;
      ValidKeys(desired);
      var keys := desired.keys;
      ghost var q := View(markets, nowMs, newId);
      for i := 0 to |keys|
        invariant outcome == Ok
        invariant Built(intents, lastRequoteMs, outcome)
            == BuildSlots(q, open, keys[..i], desired.at, old(lastRequoteMs))
      {
        Prefixes(keys, i);
        var more;
        more, outcome := QuoteOne(keys[i], desired.at[keys[i]], open, markets, nowMs, newId);
        if outcome.Raised? {
          BuildSlotsStops(q, open, keys, desired.at, old(lastRequoteMs), i + 1);
          return;
        }
        intents := intents + more;
      }
      assert keys[..|keys|] == keys;
    }
  }

  lemma {:induction false} BuildSlotsStops(q: QuoteView, open: map<Slot, OrderRecord>, keys: seq<Slot>,
      at: map<Slot, QuoteIntent>, last: map<Slot, int>, n: nat)
    requires n <= |keys| && BuildSlots(q, open, keys[..n], at, last).outcome.Raised?
    ensures BuildSlots(q, open, keys, at, last) == BuildSlots(q, open, keys[..n], at, last)
  {
    if n < |keys| {
      assert keys[..|keys| - 1][..n] == keys[..n];
      BuildSlotsStops(q, open, keys[..|keys| - 1], at, last, n);
    } else {
      assert keys[..n] == keys;
    }
  }
}
