/** The records the engine passes around (src/mm/common/types.py, src/mm/oms/order.py).

    `Decimal` is modelled by `real`: exact arithmetic, no 38-digit context.
 */
module Types {
  import opened Dicts

  datatype Side = Buy | Sell

  datatype OrderType = Limit | MarketType | LimitMaker | Ioc

  datatype OrderStatus =
    | Created | Submitting | Acked | Open | PartiallyFilled | Filled
    | Canceling | Canceled | PartiallyCanceled | Rejected | Expired | Unknown

  datatype MarketRule = MarketRule(
    symbol: string, base: string, quote: string,
    priceIncrement: real, sizeIncrement: real, baseMinSize: real, minNotional: real)
  {
    predicate ValidMinimums(price: real, size: real) {
      size >= baseMinSize && price * size >= minNotional
    }
  }

  datatype Balance = Balance(available: real, frozen: real)

  datatype MarketSnapshot = MarketSnapshot(
    symbol: string, bid: real, bidSize: real, ask: real, askSize: real,
    receiveTimeMs: int, bids: seq<(real, real)>, asks: seq<(real, real)>)
  {
    function Mid(): real { (bid + ask) / 2.0 }
  }

  datatype QuoteIntent = QuoteIntent(symbol: string, side: Side, price: real, size: real, level: int, strategy: string)

  datatype Action = Cancel | Place | OtherAction

  datatype OrderIntent = OrderIntent(
    action: Action, symbol: string, side: Option<Side>, price: Option<real>, size: Option<real>,
    clientOrderId: Option<string>, oldClientOrderId: Option<string>, strategy: string, level: Option<int>,
    orderType: OrderType)

  datatype OrderRequest = OrderRequest(
    symbol: string, side: Side, orderType: OrderType, size: real, price: Option<real>,
    clientOrderId: string, strategy: string, level: Option<int>)

  datatype CancelRequest = CancelRequest(symbol: string, clientOrderId: string, exchangeOrderId: Option<string>)

  datatype OrderAck = OrderAck(
    accepted: bool, clientOrderId: string, exchangeOrderId: Option<string>, status: OrderStatus)

  datatype CancelAck = CancelAck(
    accepted: bool, clientOrderId: string, exchangeOrderId: Option<string>, status: OrderStatus)

  datatype FillEvent = FillEvent(
    symbol: string, clientOrderId: string, exchangeOrderId: Option<string>, side: Side,
    price: real, size: real, fee: real, feeCurrency: string)

  datatype OrderUpdate = OrderUpdate(
    symbol: string, clientOrderId: string, exchangeOrderId: Option<string>, status: OrderStatus,
    filledSize: real, avgFillPrice: Option<real>, side: Option<Side>)

  datatype Error = OrderStateError | KeyError | ValueError | DivisionByZero | OrderBookGap | GatewayError

  /** How a call ends: it returns normally, or it raises. */
  datatype Outcome = Ok | Raised(error: Error)

  /** What a gateway call does: it raises, or it returns a list of acks. */
  datatype Reply<+A> = GatewayRaised | Acks(acks: seq<A>)

  /** (strategy, symbol, side, level): the place an order takes in a strategy's ladder. */
  datatype Slot = Slot(strategy: string, symbol: string, side: Side, level: int)

  datatype OrderRecord = OrderRecord(
    symbol: string, side: Side, price: Option<real>, size: real, orderType: string, clientOrderId: string,
    strategy: string, level: Option<int>, status: OrderStatus, exchangeOrderId: Option<string>,
    filledSize: real, avgFillPrice: Option<real>)
  {
    predicate InSlot(s: Slot) {
      strategy == s.strategy && symbol == s.symbol && side == s.side && level == Some(s.level)
    }
  }

  function RemainingSize(order: OrderRecord): real {
    if order.size - order.filledSize < 0.0 then 0.0 else order.size - order.filledSize
  }

  function OpenNotional(order: OrderRecord): real {
    if order.price.None? then 0.0 else order.price.value * RemainingSize(order)
  }

  function OrderTypeValue(t: OrderType): string {
    match t
    case Limit => "limit"
    case MarketType => "market"
    case LimitMaker => "limit_maker"
    case Ioc => "ioc"
  }

  function FromRequest(request: OrderRequest): OrderRecord {
    OrderRecord(request.symbol, request.side, request.price, request.size, OrderTypeValue(request.orderType),
                request.clientOrderId, request.strategy, request.level, Created, None, 0.0, None)
  }

  /** Python's `a or b` on optional strings: `None` and `""` are false. */
  function OrId(a: Option<string>, b: Option<string>): Option<string> {
    if a.Some? && a.value != "" then a else b
  }

  /** Python's `a or b` on optional decimals: `None` and zero are false. */
  function OrPrice(a: Option<real>, b: Option<real>): Option<real> {
    if a.Some? && a.value != 0.0 then a else b
  }

  function Notional(price: real, size: real): real { price * size }

  function Max(a: real, b: real): real { if a < b then b else a }

  function Min(a: real, b: real): real { if b < a then b else a }

  function RequestIds(requests: seq<OrderRequest>): (ids: seq<string>) {
    seq(|requests|, i requires 0 <= i < |requests| => requests[i].clientOrderId)
  }

  function CancelIds(requests: seq<CancelRequest>): (ids: seq<string>) {
    seq(|requests|, i requires 0 <= i < |requests| => requests[i].clientOrderId)
  }
}
