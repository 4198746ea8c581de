/** The paper exchange (src/mm/exchange/paper.py): balances, open orders, reservations and half-size fills.

    `ExOp` lists the atomic operations on the exchange; `cancel_all` and `simulate_fills` are sequences of them.
 */
module Paper {
  import opened Dicts
  import opened Types

  const BPS := 10000.0

  datatype PaperOrder = PaperOrder(request: OrderRequest, exchangeOrderId: string, remaining: real)

  datatype Exchange = Exchange(
    rules: map<string, MarketRule>, makerFeeBps: real, balances: map<string, Balance>,
    open: Dict<string, PaperOrder>, nextOrder: nat)

  function BalanceOf(balances: map<string, Balance>, currency: string): Balance {
    if currency in balances then balances[currency] else Balance(0.0, 0.0)
  }

  /** In-place `+=` on the balance `_balance(currency)` finds or creates. */
  function Adjust(balances: map<string, Balance>, currency: string, available: real,
      frozen: real): map<string, Balance> {
    var b := BalanceOf(balances, currency);
    balances[currency := Balance(b.available + available, b.frozen + frozen)]
  }

  function Digits(n: nat): string {
    if n < 10 then ["0123456789"[n]] else Digits(n / 10) + ["0123456789"[n % 10]]
  }

  function PaperId(n: nat): string {
    "paper-" + Digits(n)
  }

  // -------------------------------------------------------------------------------------- submit

  /** What `_reserve` locks: price times size of the quote currency, or size of the base currency. */
  function ReservedCurrency(rule: MarketRule, side: Side): string {
    if side == Buy then rule.quote else rule.base
  }

  function ReservedAmount(side: Side, price: real, size: real): real {
    if side == Buy then Notional(price, size) else size
  }

  /** The state after a submit, and the ack; `None` when the symbol has no rule and the lookup raises. */
  datatype Submission = Submission(exchange: Exchange, ack: Option<OrderAck>)

  function RejectedAck(request: OrderRequest): OrderAck {
    OrderAck(false, request.clientOrderId, None, Rejected)
  }

  function SubmitOrder(ex: Exchange, request: OrderRequest): Submission {
    if request.symbol !in ex.rules then Submission(ex, None)
    else
      var rule := ex.rules[request.symbol];
      if request.price.None? || !rule.ValidMinimums(request.price.value, request.size) then
        Submission(ex, Some(RejectedAck(request)))
      else
        var currency := ReservedCurrency(rule, request.side);
        var needed := ReservedAmount(request.side, request.price.value, request.size);
        if BalanceOf(ex.balances, currency).available < needed then
          Submission(ex.(balances := Adjust(ex.balances, currency, 0.0, 0.0)), Some(RejectedAck(request)))
        else
          var order := PaperOrder(request, PaperId(ex.nextOrder), request.size);
          Submission(
            ex.(balances := Adjust(ex.balances, currency, -needed, needed),
                open := Put(ex.open, request.clientOrderId, order),
                nextOrder := ex.nextOrder + 1),
            Some(OrderAck(true, request.clientOrderId, Some(PaperId(ex.nextOrder)), Open)))
  }

  // -------------------------------------------------------------------------------------- cancel

  function Release(balances: map<string, Balance>, rule: MarketRule, order: PaperOrder): map<string, Balance> {
    var amount := ReservedAmount(order.request.side, order.request.price.GetOr(0.0), order.remaining);
    Adjust(balances, ReservedCurrency(rule, order.request.side), amount, -amount)
  }

  datatype Cancellation = Cancellation(exchange: Exchange, ack: CancelAck)

  function CancelOrder(ex: Exchange, request: CancelRequest): Cancellation {
    var id := request.clientOrderId;
    if id !in ex.open.at then
      Cancellation(ex, CancelAck(false, id, request.exchangeOrderId, Unknown))
    else
      var order := ex.open.at[id];
      var popped := ex.(open := Pop(ex.open, id));
      var released := if order.request.symbol !in ex.rules then popped
                      else popped.(balances := Release(ex.balances, ex.rules[order.request.symbol], order));
      var filled := order.request.size - order.remaining;
      Cancellation(released, CancelAck(true, id, Some(order.exchangeOrderId),
                                       if filled > 0.0 then PartiallyCanceled else Canceled))
  }

  datatype Cancellations = Cancellations(exchange: Exchange, acks: seq<CancelAck>)

  /** `cancel_batch_orders`: one cancel after the other. */
  function CancelBatch(ex: Exchange, requests: seq<CancelRequest>): Cancellations {
    if requests == [] then Cancellations(ex, [])
    else
      var before := CancelBatch(ex, requests[..|requests| - 1]);
      var last := CancelOrder(before.exchange, requests[|requests| - 1]);
      Cancellations(last.exchange, before.acks + [last.ack])
  }

  datatype Submissions = Submissions(exchange: Exchange, acks: seq<OrderAck>, raised: bool)

  /** `submit_batch_orders`: one submit after the other, up to the first that raises. */
  function SubmitBatch(ex: Exchange, requests: seq<OrderRequest>): Submissions {
    if requests == [] then Submissions(ex, [], false)
    else
      var before := SubmitBatch(ex, requests[..|requests| - 1]);
      if before.raised then before
      else
        var last := SubmitOrder(before.exchange, requests[|requests| - 1]);
        if last.ack.None? then Submissions(last.exchange, before.acks, true)
        else Submissions(last.exchange, before.acks + [last.ack.value], false)
  }

  // -------------------------------------------------------------------------------------- fills

  predicate ShouldFill(request: OrderRequest, snapshot: MarketSnapshot) {
    && request.price.Some?
    && if request.side == Buy then snapshot.ask <= request.price.value else snapshot.bid >= request.price.value
  }

  function FillSize(order: PaperOrder): real {
    Min(order.remaining, order.request.size / 2.0)
  }

  function FeeOf(price: real, size: real, bps: real): real {
    Notional(price, size) * bps / BPS
  }

  /** The balances after `_settle_fill` of `size` for `cost`, which is price times size. */
  function Settle(balances: map<string, Balance>, rule: MarketRule, side: Side, cost: real, size: real, fee: real)
    : map<string, Balance>
  {
    if side == Buy then
      var paid := Adjust(Adjust(balances, rule.quote, 0.0, -cost), rule.base, size, 0.0);
      if fee > 0.0 then Adjust(paid, rule.quote, -fee, 0.0) else paid
    else
      Adjust(Adjust(balances, rule.base, 0.0, -size), rule.quote, cost - fee, 0.0)
  }

  datatype ExStep = ExStep(exchange: Exchange, fills: seq<FillEvent>)

  /** One turn of the loop of `simulate_fills`. */
  function TryFill(ex: Exchange, id: string, snapshot: MarketSnapshot): ExStep {
    if id !in ex.open.at then ExStep(ex, [])
    else
      var order := ex.open.at[id];
      var request := order.request;
      if request.symbol != snapshot.symbol || request.symbol !in ex.rules || !ShouldFill(request, snapshot)
         || FillSize(order) <= 0.0 then ExStep(ex, [])
      else
        var rule := ex.rules[request.symbol];
        var size := FillSize(order);
        var price := request.price.value;
        var fee := FeeOf(price, size, ex.makerFeeBps);
        var left := order.(remaining := order.remaining - size);
        ExStep(
          ex.(balances := Settle(ex.balances, rule, request.side, Notional(price, size), size, fee),
              open := if left.remaining <= 0.0 then Pop(ex.open, id) else Put(ex.open, id, left)),
          [FillEvent(request.symbol, request.clientOrderId, Some(order.exchangeOrderId), request.side, price, size, fee,
                     rule.quote)])
  }

  // -------------------------------------------------------------------------------------- runs

  datatype ExOp =
    | Submits(request: OrderRequest)
    | Cancels(cancel: CancelRequest)
    | Fills(id: string, snapshot: MarketSnapshot)

  function ApplyEx(ex: Exchange, op: ExOp): ExStep {
    match op
    case Submits(request) => ExStep(SubmitOrder(ex, request).exchange, [])
    case Cancels(request) => ExStep(CancelOrder(ex, request).exchange, [])
    case Fills(id, snapshot) => TryFill(ex, id, snapshot)
  }

  function RunEx(ex: Exchange, ops: seq<ExOp>): ExStep {
    if ops == [] then ExStep(ex, [])
    else
      var before := RunEx(ex, ops[..|ops| - 1]);
      var last := ApplyEx(before.exchange, ops[|ops| - 1]);
      ExStep(last.exchange, before.fills + last.fills)
  }

  function RoundOps(ids: seq<string>, snapshot: MarketSnapshot): seq<ExOp> {
    seq(|ids|, i requires 0 <= i < |ids| => Fills(ids[i], snapshot))
  }

  /** `simulate_fills`: a turn for every order that was open at the start. */
  function SimulateFills(ex: Exchange, snapshot: MarketSnapshot): ExStep {
    RunEx(ex, RoundOps(ex.open.keys, snapshot))
  }

  predicate OfSymbol(order: PaperOrder, symbol: Option<string>) {
    symbol.None? || order.request.symbol == symbol.value
  }

  function OpenRequests(keys: seq<string>, at: map<string, PaperOrder>, symbol: Option<string>): seq<CancelRequest> {
    if keys == [] then []
    else
      var id := keys[|keys| - 1];
      var init := OpenRequests(keys[..|keys| - 1], at, symbol);
      if id in at && OfSymbol(at[id], symbol) then
        init + [CancelRequest(at[id].request.symbol, id, Some(at[id].exchangeOrderId))]
      else init
  }

  /** `cancel_all(symbol)` */
  function CancelAll(ex: Exchange, symbol: Option<string>): Cancellations {
    CancelBatch(ex, OpenRequests(ex.open.keys, ex.open.at, symbol))
  }

  function OrderStatusUpdate(order: PaperOrder): OrderUpdate {
    var filled := order.request.size - order.remaining;
    OrderUpdate(order.request.symbol, order.request.clientOrderId, Some(order.exchangeOrderId),
                if filled <= 0.0 then Open else PartiallyFilled, filled, order.request.price, None)
  }

  function OpenUpdatesOf(keys: seq<string>, at: map<string, PaperOrder>, symbol: Option<string>): seq<OrderUpdate> {
    if keys == [] then []
    else
      var id := keys[|keys| - 1];
      var init := OpenUpdatesOf(keys[..|keys| - 1], at, symbol);
      if id in at && OfSymbol(at[id], symbol) then init + [OrderStatusUpdate(at[id])] else init
  }

  /** `get_open_orders(symbol)` */
  function OpenUpdates(ex: Exchange, symbol: Option<string>): seq<OrderUpdate> {
    OpenUpdatesOf(ex.open.keys, ex.open.at, symbol)
  }
}
