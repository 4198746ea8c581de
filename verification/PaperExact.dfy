/** The paper exchange's answers and balances, exactly (src/mm/exchange/paper.py). */
module PaperExact {
  import opened Dicts
  import opened Types
  import opened Paper
  import L = Ledger
  import Rounds

  /** What is held of a currency; one that is not there is held at zero. */
  function Available(ex: Exchange, c: string): real {
    if c in ex.balances then ex.balances[c].available else 0.0
  }

  function Frozen(ex: Exchange, c: string): real {
    if c in ex.balances then ex.balances[c].frozen else 0.0
  }

  /** From `ex` to `end` the amounts held of `currency` change by `available` and `frozen`, and nothing else held does.
      */
  ghost predicate Moves(ex: Exchange, end: Exchange, currency: string, available: real, frozen: real) {
    && Available(end, currency) == Available(ex, currency) + available
    && Frozen(end, currency) == Frozen(ex, currency) + frozen
    && forall c | c != currency :: Available(end, c) == Available(ex, c) && Frozen(end, c) == Frozen(ex, c)
  }

  /** The minimums are met, and the amount can be locked: its cost in the quote currency for a buy, its size in the base
      currency for a sell. */
  predicate Acceptable(ex: Exchange, request: OrderRequest, cost: real)
    requires request.symbol in ex.rules
  {
    var rule := ex.rules[request.symbol];
    && request.price.Some? && request.size >= rule.baseMinSize && cost >= rule.minNotional
    && if request.side == Buy then Available(ex, rule.quote) >= cost else Available(ex, rule.base) >= request.size
  }

  /** The answer and the exchange after a submit that costs `cost`. */
  ghost predicate SubmittedAt(ex: Exchange, request: OrderRequest, r: Submission, cost: real) {
    var id := request.clientOrderId;
    && r.exchange.rules == ex.rules && r.exchange.makerFeeBps == ex.makerFeeBps
    && if request.symbol !in ex.rules then r.ack == None && r.exchange == ex
       else if !Acceptable(ex, request, cost) then
         && r.ack == Some(OrderAck(false, id, None, Rejected))
         && r.exchange.open == ex.open && r.exchange.nextOrder == ex.nextOrder
         && Moves(ex, r.exchange, "", 0.0, 0.0)
       else
         && r.ack == Some(OrderAck(true, id, Some("paper-" + Digits(ex.nextOrder)), Open))
         && r.exchange.open == Put(ex.open, id, PaperOrder(request, "paper-" + Digits(ex.nextOrder), request.size))
         && r.exchange.nextOrder == ex.nextOrder + 1
         && var rule := ex.rules[request.symbol];
         if request.side == Buy then Moves(ex, r.exchange, rule.quote, -cost, cost)
         else Moves(ex, r.exchange, rule.base, -request.size, request.size)
  }

  lemma AdjustMoves(ex: Exchange, end: Exchange, c: string, available: real, frozen: real)
    ensures end.balances == Adjust(ex.balances, c, available, frozen) ==> Moves(ex, end, c, available, frozen)
    ensures available == 0.0 && frozen == 0.0 && Moves(ex, end, c, available, frozen) ==> Moves(ex, end, "", 0.0, 0.0)
    ensures ex.balances == end.balances ==> Moves(ex, end, "", 0.0, 0.0)
  {
  }

  lemma MinimumsPlain(rule: MarketRule, price: real, size: real)
    ensures rule.ValidMinimums(price, size) <==> size >= rule.baseMinSize && price * size >= rule.minNotional
    ensures Notional(price, size) == price * size
  {
  }

  lemma SubmitAt(ex: Exchange, request: OrderRequest, cost: real)
    requires request.symbol in ex.rules && request.price.Some? ==>
      && cost == Notional(request.price.value, request.size)
      && (ex.rules[request.symbol].ValidMinimums(request.price.value, request.size) <==>
            request.size >= ex.rules[request.symbol].baseMinSize && cost >= ex.rules[request.symbol].minNotional)
    ensures SubmittedAt(ex, request, SubmitOrder(ex, request), cost)
  {
    hide Put, Digits, Adjust, Notional, MarketRule.ValidMinimums, Moves;
    var end := SubmitOrder(ex, request).exchange;
    AdjustMoves(ex, end, "", 0.0, 0.0);
    if request.symbol in ex.rules {
      var c := ReservedCurrency(ex.rules[request.symbol], request.side);
      AdjustMoves(ex, end, c, 0.0, 0.0);
      if request.price.Some? {
        var amount := ReservedAmount(request.side, request.price.value, request.size);
        AdjustMoves(ex, end, c, -amount, amount);
      }
    }
  }

  /** A submit has no answer exactly when the symbol has no rule. It is accepted exactly when a price is given, the
      minimums are met and the amount can be locked, price times size of the quote currency for a buy and the size of
      the base currency for a sell; it is then open with its whole size under the next exchange id, and the amount is
      frozen. A rejection opens nothing and moves nothing. */
  lemma SubmitExactly(ex: Exchange, request: OrderRequest)
    ensures SubmittedAt(ex, request, SubmitOrder(ex, request),
                        if request.price == None then 0.0 else request.price.value * request.size)
  {
    hide SubmitOrder, SubmittedAt, MarketRule.ValidMinimums, Notional;
    var cost := if request.price == None then 0.0 else request.price.value * request.size;
    if request.symbol in ex.rules && request.price.Some? {
      MinimumsPlain(ex.rules[request.symbol], request.price.value, request.size);
    }
    SubmitAt(ex, request, cost);
  }

  /** A batch is submitted up to the first symbol without a rule, which raises; what was submitted before stays. */
  lemma {:induction false} SubmitBatchExactly(ex: Exchange, requests: seq<OrderRequest>, n: nat)
    requires n <= |requests| && (n < |requests| ==> requests[n].symbol !in ex.rules)
    requires forall i | 0 <= i < n :: requests[i].symbol in ex.rules
    ensures var b := SubmitBatch(ex, requests);
      && b.exchange.rules == ex.rules && |b.acks| == n && (b.raised <==> n < |requests|)
      && b.acks == SubmitBatch(ex, requests[..n]).acks && b.exchange == SubmitBatch(ex, requests[..n]).exchange
    ensures n == |requests| > 0 ==>
      var before := SubmitBatch(ex, requests[..n - 1]); var last := SubmitOrder(before.exchange, requests[n - 1]);
      last.ack.Some? && SubmitBatch(ex, requests) == Submissions(last.exchange, before.acks + [last.ack.value], false)
  {
    hide SubmitOrder;
    if requests != [] {
      var m := |requests| - 1;
      if n == |requests| {
        assert requests[..n] == requests;
        SubmitBatchExactly(ex, requests[..m], m);
        SubmitExactly(SubmitBatch(ex, requests[..m]).exchange, requests[m]);
      } else {
        assert requests[..m][..n] == requests[..n];
        if n < m {
          SubmitBatchExactly(ex, requests[..m], n);
        } else {
          SubmitBatchExactly(ex, requests[..m], m);
          SubmitExactly(SubmitBatch(ex, requests[..m]).exchange, requests[m]);
        }
      }
    }
  }

  /** A cancel is accepted exactly when the order is open; what is left of it is unlocked, and its status says whether
      any of it was filled. */
  lemma CancelExactly(ex: Exchange, request: CancelRequest)
    requires request.clientOrderId in ex.open.at ==>
      var order := ex.open.at[request.clientOrderId]; order.request.symbol in ex.rules && order.request.price.Some?
    ensures var r := CancelOrder(ex, request); var id := request.clientOrderId;
      if id !in ex.open.at then r == Cancellation(ex, CancelAck(false, id, request.exchangeOrderId, Unknown))
      else
        var order := ex.open.at[id];
        var rule := ex.rules[order.request.symbol];
        && r.ack == CancelAck(true, id, Some(order.exchangeOrderId),
                              if order.remaining < order.request.size then PartiallyCanceled else Canceled)
        && r.exchange.open == Pop(ex.open, id) && r.exchange.rules == ex.rules
        && r.exchange.makerFeeBps == ex.makerFeeBps && r.exchange.nextOrder == ex.nextOrder
        && if order.request.side == Buy then
             var cost := order.request.price.value * order.remaining;
             Moves(ex, r.exchange, rule.quote, cost, -cost)
           else Moves(ex, r.exchange, rule.base, order.remaining, -order.remaining)
  {
    hide Pop;
  }

  /** What a fill of `size` for `cost` moves of one currency: a buy pays from what is frozen and its positive fee from
      what is available, a sell gives from what is frozen and is paid less its fee. */
  predicate FilledAmounts(ex: Exchange, end: Exchange, rule: MarketRule, side: Side, cost: real, size: real, fee: real,
      c: string) {
    if side == Buy then
      && Available(end, c) == Available(ex, c) + (if rule.base == c then size else 0.0)
                              - (if rule.quote == c && fee > 0.0 then fee else 0.0)
      && Frozen(end, c) == Frozen(ex, c) - (if rule.quote == c then cost else 0.0)
    else
      && Available(end, c) == Available(ex, c) + (if rule.quote == c then cost - fee else 0.0)
      && Frozen(end, c) == Frozen(ex, c) - (if rule.base == c then size else 0.0)
  }

  lemma SettleMoves(ex: Exchange, end: Exchange, rule: MarketRule, side: Side, cost: real, size: real, fee: real,
      c: string)
    requires end.balances == Settle(ex.balances, rule, side, cost, size, fee)
    ensures FilledAmounts(ex, end, rule, side, cost, size, fee, c)
  {
  }

  /** What half of an order costs at its price. */
  function HalfCost(request: OrderRequest): real
    requires request.price.Some?
  {
    request.price.value * (request.size / 2.0)
  }

  /** The maker fee on it, in basis points. */
  function HalfFee(request: OrderRequest, bps: real): real
    requires request.price.Some?
  {
    request.price.value * (request.size / 2.0) * bps / 10000.0
  }

  lemma FeePlain(request: OrderRequest, bps: real)
    requires request.price.Some?
    ensures Notional(request.price.value, request.size / 2.0) == HalfCost(request)
    ensures FeeOf(request.price.value, request.size / 2.0, bps) == HalfFee(request, bps)
  {
  }

  /** The fill of half of an order at its price, for `cost`, and what it leaves. */
  ghost predicate FilledAt(ex: Exchange, id: string, e: ExStep, cost: real, fee: real)
    requires id in ex.open.at && ex.open.at[id].request.symbol in ex.rules && ex.open.at[id].request.price.Some?
  {
    var order := ex.open.at[id];
    var rule, half := ex.rules[order.request.symbol], order.request.size / 2.0;
    && e.fills == [FillEvent(order.request.symbol, id, Some(order.exchangeOrderId), order.request.side,
                             order.request.price.value, half, fee, rule.quote)]
    && e.exchange.open == (if order.remaining == half then Pop(ex.open, id)
                           else Put(ex.open, id, order.(remaining := half)))
    && e.exchange.rules == ex.rules && e.exchange.makerFeeBps == ex.makerFeeBps && e.exchange.nextOrder == ex.nextOrder
    && forall c: string :: FilledAmounts(ex, e.exchange, rule, order.request.side, cost, half, fee, c)
  }

  lemma FillAt(ex: Exchange, id: string, snapshot: MarketSnapshot, cost: real, fee: real)
    requires L.WellFormed(ex) && L.Settles(ex, id, snapshot)
    requires var order := ex.open.at[id];
      && order.request.price.Some?
      && cost == Notional(order.request.price.value, order.request.size / 2.0)
      && fee == FeeOf(order.request.price.value, order.request.size / 2.0, ex.makerFeeBps)
    ensures FilledAt(ex, id, TryFill(ex, id, snapshot), cost, fee)
  {
    hide FeeOf, Notional, Settle, Put, Pop, FilledAmounts;
    L.SettledOrder(ex, id, snapshot);
    var order := ex.open.at[id];
    assert L.OrderFits(ex, id, order);
    L.HalfFill(order);
    assert FillSize(order) == order.request.size / 2.0;
    var rule, half, end := ex.rules[order.request.symbol], order.request.size / 2.0, TryFill(ex, id, snapshot).exchange;
    forall c: string
      ensures FilledAmounts(ex, end, rule, order.request.side, cost, half, fee, c)
    {
      SettleMoves(ex, end, rule, order.request.side, cost, half, fee, c);
    }
  }

  /** A turn of `simulate_fills`: an order the market has reached is filled by half at its own price, its fee in the
      quote currency; every other one is left alone. */
  lemma FillExactly(ex: Exchange, id: string, snapshot: MarketSnapshot)
    requires L.WellFormed(ex)
    ensures var e := TryFill(ex, id, snapshot);
      if id !in ex.open.at || !Rounds.MarketReached(ex.open.at[id], snapshot) then e == ExStep(ex, [])
      else
        var request := ex.open.at[id].request;
        && request.symbol in ex.rules && request.price.Some?
        && FilledAt(ex, id, e, HalfCost(request), HalfFee(request, ex.makerFeeBps))
  {
    hide FeeOf, Notional, FilledAt, TryFill, Rounds.MarketReached, HalfCost, HalfFee;
    if id in ex.open.at {
      Rounds.SettlesIsReached(ex, id, snapshot);
      if L.Settles(ex, id, snapshot) {
        var request := ex.open.at[id].request;
        assert L.OrderFits(ex, id, ex.open.at[id]);
        FeePlain(request, ex.makerFeeBps);
        FillAt(ex, id, snapshot, HalfCost(request), HalfFee(request, ex.makerFeeBps));
      } else {
        Rounds.NotSettled(ex, id, snapshot);
      }
    } else {
      Rounds.NotSettled(ex, id, snapshot);
    }
  }

  // ------------------------------------------------------------------------------- exchange ids

  /** The number a string of digits stands for. */
  function Number(digits: string): int {
    if digits == "" then 0
    else 10 * Number(digits[..|digits| - 1]) + (digits[|digits| - 1] as int - '0' as int)
  }

  lemma {:induction false} DigitsStandFor(n: nat)
    ensures Digits(n) != "" && Number(Digits(n)) == n && forall d | d in Digits(n) :: '0' <= d <= '9'
  {
    var last := "0123456789"[n % 10];
    assert last as int - '0' as int == n % 10;
    if n < 10 {
      assert Digits(n) == [last] && [last][..0] == "";
    } else {
      DigitsStandFor(n / 10);
      assert Digits(n)[..|Digits(n)| - 1] == Digits(n / 10);
    }
  }

  /** No exchange id is given twice. */
  lemma PaperIdsDiffer(m: nat, n: nat)
    requires m != n
    ensures PaperId(m) != PaperId(n)
  {
    DigitsStandFor(m);
    DigitsStandFor(n);
    assert PaperId(m)[6..] == Digits(m) && PaperId(n)[6..] == Digits(n);
  }

  // ------------------------------------------------------------------------------- listings

  function For(symbol: Option<string>): PaperOrder -> bool {
    (order: PaperOrder) => symbol == None || symbol == Some(order.request.symbol)
  }

  /** `get_open_orders(symbol)` reports of an order what of it is filled, at its limit price. */
  predicate Reports(u: OrderUpdate, order: PaperOrder) {
    var filled := order.request.size - order.remaining;
    u == OrderUpdate(order.request.symbol, order.request.clientOrderId, Some(order.exchangeOrderId),
                     if filled > 0.0 then PartiallyFilled else Open, filled, order.request.price, None)
  }

  lemma {:induction false} ListsFiltered(keys: seq<string>, at: map<string, PaperOrder>, symbol: Option<string>)
    requires forall k | k in keys :: k in at && at[k].request.clientOrderId == k
    ensures var orders := Filter(Values(keys, at), For(symbol));
      var updates, requests := OpenUpdatesOf(keys, at, symbol), OpenRequests(keys, at, symbol);
      && |updates| == |orders| == |requests|
      && (forall i | 0 <= i < |orders| :: Reports(updates[i], orders[i]))
      && (forall i | 0 <= i < |orders| ::
            requests[i] == CancelRequest(orders[i].request.symbol, orders[i].request.clientOrderId,
                                         Some(orders[i].exchangeOrderId)))
  {
    if keys != [] {
      var n := |keys| - 1;
      assert keys == keys[..n] + [keys[n]];
      ListsFiltered(keys[..n], at, symbol);
      FilterAppend(Values(keys[..n], at), at[keys[n]], For(symbol));
    }
  }

  /** `get_open_orders(symbol)` lists, and `cancel_all(symbol)` cancels, exactly the open orders of the symbol, in
      order. */
  lemma ListsExactly(ex: Exchange, symbol: Option<string>)
    requires L.WellFormed(ex)
    ensures var orders := Filter(Values(ex.open.keys, ex.open.at), For(symbol)); var updates := OpenUpdates(ex, symbol);
      |updates| == |orders| && forall i | 0 <= i < |orders| :: Reports(updates[i], orders[i])
    ensures var end := CancelAll(ex, symbol).exchange;
      forall id ::
        id in end.open.at <==> id in ex.open.at && symbol != None && symbol != Some(ex.open.at[id].request.symbol)
  {
    ValidKeys(ex.open);
    forall k | k in ex.open.keys
      ensures k in ex.open.at && ex.open.at[k].request.clientOrderId == k
    {
      assert L.OrderFits(ex, k, ex.open.at[k]);
    }
    ListsFiltered(ex.open.keys, ex.open.at, symbol);
    var requests := OpenRequests(ex.open.keys, ex.open.at, symbol);
    BatchPops(ex, requests);
    RequestsName(ex.open.keys, ex.open.at, symbol);
  }

  lemma {:induction false} BatchPops(ex: Exchange, requests: seq<CancelRequest>)
    ensures var end := CancelBatch(ex, requests).exchange.open.at;
      forall id :: id in end <==> id in ex.open.at && forall r | r in requests :: r.clientOrderId != id
  {
    if requests != [] {
      var n := |requests| - 1;
      assert requests == requests[..n] + [requests[n]];
      BatchPops(ex, requests[..n]);
    }
  }

  lemma {:induction false} RequestsName(keys: seq<string>, at: map<string, PaperOrder>, symbol: Option<string>)
    requires forall k | k in keys :: k in at
    ensures forall k ::
      (exists r :: r in OpenRequests(keys, at, symbol) && r.clientOrderId == k)
      <==> k in keys && (symbol == None || symbol == Some(at[k].request.symbol))
  {
    if keys != [] {
      var n := |keys| - 1;
      assert keys == keys[..n] + [keys[n]];
      RequestsName(keys[..n], at, symbol);
      var before, all := OpenRequests(keys[..n], at, symbol), OpenRequests(keys, at, symbol);
      forall k
        ensures (exists r :: r in all && r.clientOrderId == k)
          <==> (exists r :: r in before && r.clientOrderId == k)
               || (k == keys[n] && (symbol == None || symbol == Some(at[k].request.symbol)))
      {
        if all != before && k == keys[n] {
          assert all[|before|] in all;
        }
        if r :| r in before && r.clientOrderId == k {
          assert r in all;
        }
      }
    }
  }
}
