/** `PaperExchange` (src/mm/exchange/paper.py) as a class over its balances and its open orders. */
module PaperExchanges {
  import opened Dicts
  import opened Types
  import opened Paper

  class PaperExchange {
    const rules: map<string, MarketRule>
    const makerFeeBps: real
    var balances: map<string, Balance>
    var openOrders: Dict<string, PaperOrder>
    var nextOrder: nat

    function State(): Exchange
      reads this
    {
      Exchange(rules, makerFeeBps, balances, openOrders, nextOrder)
    }

    /** Open orders are filed once, under their own ids, and their symbols have rules. */
    ghost predicate Valid()
      reads this
    {
      openOrders.Valid() && forall id | id in openOrders.at :: openOrders.at[id].request.symbol in rules
    }

    constructor (rules: map<string, MarketRule>, amounts: map<string, real>, makerFeeBps: real)
      ensures Valid()
      ensures State() == Exchange(rules, makerFeeBps, map c | c in amounts :: Balance(amounts[c], 0.0), Empty(), 1)
    {
      this.rules := rules;
      this.makerFeeBps := makerFeeBps;
      balances := map c | c in amounts :: Balance(amounts[c], 0.0);
      openOrders := Empty();
      nextOrder := 1;
    }

    /** `balance.available += available; balance.frozen += frozen` on `_balance(currency)` */
    method AdjustBalance(currency: string, available: real, frozen: real)
      modifies this`balances
      ensures balances == Adjust(old(balances), currency, available, frozen)
    {
      if currency !in balances {
        balances := balances[currency := Balance(0.0, 0.0)];
      }
      var b := balances[currency];
      balances := balances[currency := Balance(b.available + available, b.frozen + frozen)];
    }

    method Reserve(rule: MarketRule, request: OrderRequest) returns (reserved: bool)
      requires request.price.Some?
      modifies this`balances
      ensures
        var currency := ReservedCurrency(rule, request.side);
        var needed := ReservedAmount(request.side, request.price.value, request.size);
        && reserved == (BalanceOf(old(balances), currency).available >= needed)
        && balances == if reserved then Adjust(old(balances), currency, -needed, needed)
                       else Adjust(old(balances), currency, 0.0, 0.0)
    {
      if request.side == Buy {
        AdjustBalance(rule.quote, 0.0, 0.0);
        var needed := Notional(request.price.value, request.size);
        if balances[rule.quote].available < needed {
          return false;
        }
        AdjustBalance(rule.quote, -needed, needed);
        AdjustTwice(old(balances), rule.quote, -needed, needed);
        return true;
      }
      AdjustBalance(rule.base, 0.0, 0.0);
      if balances[rule.base].available < request.size {
        return false;
      }
      AdjustBalance(rule.base, -request.size, request.size);
      AdjustTwice(old(balances), rule.base, -request.size, request.size);
      return true;
    }

    /** The ack, or `None` when the symbol has no rule (KeyError). */
    method SubmitOrder(request: OrderRequest) returns (ack: Option<OrderAck>)
      requires Valid()
      modifies this
      ensures Valid()
      ensures Submission(State(), ack) == Paper.SubmitOrder(old(State()), request)
    {
      hide Dict.Valid, Distinct, KeySet, PaperId;
      if request.symbol !in rules {
        return None;
      }
      var rule := rules[request.symbol];
      if request.price.None? {
        return Some(RejectedAck(request));
      }
      if !rule.ValidMinimums(request.price.value, request.size) {
        return Some(RejectedAck(request));
      }
      var reserved := Reserve(rule, request);
      if !reserved {
        return Some(RejectedAck(request));
      }
      var exchangeOrderId := PaperId(nextOrder);
      nextOrder := nextOrder + 1;
      var order := PaperOrder(request, exchangeOrderId, request.size);
      PutValid(openOrders, request.clientOrderId, order);
      openOrders := Put(openOrders, request.clientOrderId, order);
      ack := Some(OrderAck(true, request.clientOrderId, Some(exchangeOrderId), Open));
    }

    method ReleaseRemaining(order: PaperOrder)
      requires order.request.symbol in rules
      modifies this`balances
      ensures balances == Release(old(balances), rules[order.request.symbol], order)
    {
      var rule := rules[order.request.symbol];
      var price := order.request.price.GetOr(0.0);
      if order.request.side == Buy {
        var amount := Notional(price, order.remaining);
        AdjustBalance(rule.quote, amount, -amount);
      } else {
        AdjustBalance(rule.base, order.remaining, -order.remaining);
      }
    }

    method CancelOrder(request: CancelRequest) returns (ack: CancelAck)
      requires Valid()
      modifies this
      ensures Valid()
      ensures Cancellation(State(), ack) == Paper.CancelOrder(old(State()), request)
    {
      var id := request.clientOrderId;
      if id !in openOrders.at {
        return CancelAck(false, id, request.exchangeOrderId, Unknown);
      }
      var order := openOrders.at[id];
      PopValid(openOrders, id);
      openOrders := Pop(openOrders, id);
      ReleaseRemaining(order);
      var filled := order.request.size - order.remaining;
      var status := if filled > 0.0 then PartiallyCanceled else Canceled;
      ack := CancelAck(true, id, Some(order.exchangeOrderId), status);
    }

    method SettleFill(order: PaperOrder, size: real, price: real) returns (fill: FillEvent)
      requires order.request.symbol in rules
      modifies this`balances
      ensures
        var rule := rules[order.request.symbol];
        var fee := FeeOf(price, size, makerFeeBps);
        && balances == Settle(old(balances), rule, order.request.side, Notional(price, size), size, fee)
        && fill == FillEvent(order.request.symbol, order.request.clientOrderId, Some(order.exchangeOrderId),
                             order.request.side, price, size, fee, rule.quote)
    {
      var rule := rules[order.request.symbol];
      var fee := FeeOf(price, size, makerFeeBps);
      if order.request.side == Buy {
        AdjustBalance(rule.quote, 0.0, -Notional(price, size));
        AdjustBalance(rule.base, size, 0.0);
        if fee > 0.0 {
          AdjustBalance(rule.quote, -fee, 0.0);
        }
      } else {
        AdjustBalance(rule.base, 0.0, -size);
        AdjustBalance(rule.quote, Notional(price, size) - fee, 0.0);
      }
      fill := FillEvent(order.request.symbol, order.request.clientOrderId, Some(order.exchangeOrderId),
                        order.request.side, price, size, fee, rule.quote);
    }

    /** One turn of the loop of `simulate_fills`. */
    method FillOne(id: string, snapshot: MarketSnapshot) returns (fills: seq<FillEvent>)
      requires Valid()
      modifies this
      ensures Valid()
      ensures ExStep(State(), fills) == TryFill(old(State()), id, snapshot)
    {
      hide Distinct, KeySet, Without, Settle, FeeOf, Notional, Dict.Valid;
      fills := [];
      if id !in openOrders.at {
        return;
      }
      var order := openOrders.at[id];
      if order.request.symbol != snapshot.symbol || !ShouldFill(order.request, snapshot) {
        return;
      }
      var size := FillSize(order);
      if size <= 0.0 {
        return;
      }
      order := order.(remaining := order.remaining - size);
      var fill := SettleFill(order, size, order.request.price.value);
      fills := [fill];
      if order.remaining <= 0.0 {
        PopValid(openOrders, id);
        openOrders := Pop(openOrders, id);
      } else {
        PutValid(openOrders, id, order);
        openOrders := Put(openOrders, id, order);
      }
    }

    method SimulateFills(snapshot: MarketSnapshot) returns (fills: seq<FillEvent>)
      requires Valid()
      modifies this
      ensures Valid()
      ensures ExStep(State(), fills) == Paper.SimulateFills(old(State()), snapshot)
    {
      fills := [];
      var ids := openOrders.keys;
      ghost var ops := RoundOps(ids, snapshot);
      for i := 0 to |ids|
        invariant Valid() && ExStep(State(), fills) == RunEx(old(State()), ops[..i])
      {
        Prefixes(ops, i);
        var more := FillOne(ids[i], snapshot);
        fills := fills + more;
      }
      assert ops[..|ids|] == ops;
    }

    method CancelAll(symbol: Option<string>) returns (acks: seq<CancelAck>)
      requires Valid()
      modifies this
      ensures Valid()
      ensures Cancellations(State(), acks) == Paper.CancelAll(old(State()), symbol)
    {
      hide CancelBatch, OpenRequests, Paper.CancelOrder, Distinct, KeySet;
      acks := [];
      var ids, at := openOrders.keys, openOrders.at;
      ValidKeys(openOrders);
      NothingCanceled(State(), at, symbol);
      assert ids[..0] == [];
      for i := 0 to |ids|
        invariant Valid()
        invariant Cancellations(State(), acks) == CancelBatch(old(State()), OpenRequests(ids[..i], at, symbol))
      {
        OpenRequestsStep(ids, at, symbol, i);
        var order := at[ids[i]];
        if symbol.Some? && order.request.symbol != symbol.value {
          continue;
        }
        var request := CancelRequest(order.request.symbol, ids[i], Some(order.exchangeOrderId));
        CancelBatchStep(old(State()), OpenRequests(ids[..i], at, symbol), request);
        var ack := CancelOrder(request);
        acks := acks + [ack];
      }
      assert ids[..|ids|] == ids;
    }

    method GetOpenOrders(symbol: Option<string>) returns (updates: seq<OrderUpdate>)
      requires Valid()
      ensures updates == OpenUpdates(State(), symbol)
    {
      updates := [];
      var ids := openOrders.keys;
      ValidKeys(openOrders);
      for i := 0 to |ids|
        invariant updates == OpenUpdatesOf(ids[..i], openOrders.at, symbol)
      {
        Prefixes(ids, i);
        var order := openOrders.at[ids[i]];
        if symbol.Some? && order.request.symbol != symbol.value {
          continue;
        }
        updates := updates + [OrderStatusUpdate(order)];
      }
      assert ids[..|ids|] == ids;
    }
  }

  lemma NothingCanceled(ex: Exchange, at: map<string, PaperOrder>, symbol: Option<string>)
    ensures CancelBatch(ex, OpenRequests([], at, symbol)) == Cancellations(ex, [])
  {
  }

  lemma OpenRequestsStep(ids: seq<string>, at: map<string, PaperOrder>, symbol: Option<string>, i: nat)
    requires i < |ids| && ids[i] in at
    ensures var before, order := OpenRequests(ids[..i], at, symbol), at[ids[i]];
      OpenRequests(ids[..i + 1], at, symbol)
      == if OfSymbol(order, symbol)
         then before + [CancelRequest(order.request.symbol, ids[i], Some(order.exchangeOrderId))] else before
  {
    Prefixes(ids, i);
  }

  lemma CancelBatchStep(ex: Exchange, requests: seq<CancelRequest>, request: CancelRequest)
    ensures var before := CancelBatch(ex, requests); var last := Paper.CancelOrder(before.exchange, request);
      CancelBatch(ex, requests + [request]) == Cancellations(last.exchange, before.acks + [last.ack])
  {
    assert (requests + [request])[..|requests|] == requests;
  }

  lemma AdjustTwice(balances: map<string, Balance>, currency: string, available: real, frozen: real)
    ensures Adjust(Adjust(balances, currency, 0.0, 0.0), currency, available, frozen)
         == Adjust(balances, currency, available, frozen)
  {
    var a := Adjust(Adjust(balances, currency, 0.0, 0.0), currency, available, frozen);
    var b := Adjust(balances, currency, available, frozen);
    assert a.Keys == b.Keys;
    assert forall c | c in a :: a[c] == b[c];
    assert a == b;
  }
}
