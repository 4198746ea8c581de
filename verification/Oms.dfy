/** The order manager (src/mm/oms/manager.py).

    Every method of `OrderManager` is a sequence of atomic operations on single records; `Op` lists them.
    `TouchRecord` and `NewRecord` say what one operation does to one record, `ApplyOp` what it does to the whole
    manager, and the class below is proved equal to compositions of `ApplyOp`.
 */
module Oms {
  import opened Dicts
  import opened Types
  import opened OrderState

  /** The manager's orders, and the records handed to `_persist` so far, oldest first. */
  datatype OmsState = OmsState(orders: Dict<string, OrderRecord>, saved: seq<OrderRecord>)

  datatype Step = Step(state: OmsState, outcome: Outcome)

  datatype Op =
    | SubmitStart(request: OrderRequest)
    | CancelStart(id: string)
    | OrderAcked(ack: OrderAck)
    | CancelAcked(cancelAck: CancelAck)
    | Updated(update: OrderUpdate)
    | RemoteUpdated(update: OrderUpdate)
    | FillApplied(fill: FillEvent)
    | MarkedUnknown(id: string)

  function OpId(op: Op): string {
    match op
    case SubmitStart(request) => request.clientOrderId
    case CancelStart(id) => id
    case OrderAcked(ack) => ack.clientOrderId
    case CancelAcked(ack) => ack.clientOrderId
    case Updated(update) => update.clientOrderId
    case RemoteUpdated(update) => update.clientOrderId
    case FillApplied(fill) => fill.clientOrderId
    case MarkedUnknown(id) => id
  }

  /** What an operation leaves in memory for its record, and which versions of it were persisted on the way. */
  datatype Touch = Touch(record: OrderRecord, saved: seq<OrderRecord>, outcome: Outcome)

  /** `_transition`: a refused transition leaves earlier field writes of the same call in memory, unsaved. */
  function Move(record: OrderRecord, status: OrderStatus): Touch {
    if CanTransition(record.status, status) then
      var moved := record.(status := status);
      Touch(moved, [moved], Ok)
    else
      Touch(record, [], Raised(OrderStateError))
  }

  function AckTarget(ack: OrderAck): OrderStatus {
    if ack.accepted then
      if ack.status in {Acked, Created, Submitting} then Open else ack.status
    else if ack.status == Unknown then Unknown else Rejected
  }

  function TouchUpdate(record: OrderRecord, update: OrderUpdate): Touch {
    Move(record.(exchangeOrderId := OrId(update.exchangeOrderId, record.exchangeOrderId),
                 filledSize := Max(record.filledSize, update.filledSize),
                 avgFillPrice := OrPrice(update.avgFillPrice, record.avgFillPrice)),
         update.status)
  }

  /** The size-weighted average of a price held for `previous` and a new fill. */
  function BlendedPrice(average: real, previous: real, price: real, size: real, filled: real): real
    requires filled != 0.0
  {
    (average * previous + price * size) / filled
  }

  /** The fields `apply_fill` writes: the filled size grows up to the order size, the price is averaged by size.
      `None` when the average divides by zero. */
  function AfterFill(record: OrderRecord, fill: FillEvent): Option<OrderRecord> {
    var previous := record.filledSize;
    var filled := Min(previous + fill.size, record.size);
    if record.avgFillPrice.None? || previous <= 0.0 then
      Some(record.(filledSize := filled, avgFillPrice := Some(fill.price)))
    else if filled == 0.0 then None
    else
      var average := BlendedPrice(record.avgFillPrice.value, previous, fill.price, fill.size, filled);
      Some(record.(filledSize := filled, avgFillPrice := Some(average)))
  }

  function TouchFill(record: OrderRecord, fill: FillEvent): Touch {
    match AfterFill(record, fill)
    case None => Touch(record, [], Raised(DivisionByZero))
    case Some(updated) => Move(updated, if RemainingSize(updated) <= 0.0 then Filled else PartiallyFilled)
  }

  /** An operation on a record that the manager holds. */
  function TouchRecord(record: OrderRecord, op: Op): Touch {
    match op
    case SubmitStart(_) => Move(record, Submitting)
    case CancelStart(_) =>
      if IsTerminal(record.status) then Touch(record, [], Ok) else Move(record, Canceling)
    case OrderAcked(ack) =>
      Move(record.(exchangeOrderId := OrId(ack.exchangeOrderId, record.exchangeOrderId)), AckTarget(ack))
    case CancelAcked(ack) =>
      var named := record.(exchangeOrderId := OrId(ack.exchangeOrderId, record.exchangeOrderId));
      if ack.accepted then Move(named, ack.status)
      else if named.status == Canceling then Move(named, Unknown)
      else Touch(named, [], Ok)
    case Updated(update) => TouchUpdate(record, update)
    case RemoteUpdated(update) => TouchUpdate(record, update)
    case FillApplied(fill) => TouchFill(record, fill)
    case MarkedUnknown(_) => Move(record, Unknown)
  }

  predicate BuyMarkAt(id: string, i: nat)
    requires i + 3 <= |id|
  {
    id[i..i + 3] == "-b-"
  }

  function InferSide(id: string): Side {
    if exists i | 0 <= i <= |id| - 3 :: BuyMarkAt(id, i) then Buy else Sell
  }

  function OrphanRecord(update: OrderUpdate): OrderRecord {
    OrderRecord(update.symbol, if update.side.Some? then update.side.value else InferSide(update.clientOrderId),
                update.avgFillPrice, update.filledSize, "unknown", update.clientOrderId, "orphan", None, Unknown,
                update.exchangeOrderId, update.filledSize, update.avgFillPrice)
  }

  /** An operation on an id that the manager does not hold: the record it creates, if any. */
  function NewRecord(op: Op): Option<Touch> {
    match op
    case SubmitStart(request) =>
      var created := FromRequest(request);
      var submitting := created.(status := Submitting);
      Some(Touch(submitting, [created, submitting], Ok))
    case RemoteUpdated(update) => Some(Touch(OrphanRecord(update), [OrphanRecord(update)], Ok))
    case _ => None
  }

  function Record(s: OmsState, id: string, t: Touch): OmsState {
    OmsState(Put(s.orders, id, t.record), s.saved + t.saved)
  }

  function ApplyOp(s: OmsState, op: Op): Step {
    var id := OpId(op);
    if id in s.orders.at then
      var t := TouchRecord(s.orders.at[id], op);
      Step(Record(s, id, t), t.outcome)
    else
      match NewRecord(op)
      case Some(t) => Step(Record(s, id, t), t.outcome)
      case None => Step(s, if op.CancelStart? then Ok else Raised(KeyError))
  }

  /** Operations one after the other, up to and including the first that raises. */
  function RunOps(s: OmsState, ops: seq<Op>): Step {
    if ops == [] then Step(s, Ok)
    else
      var t := RunOps(s, ops[..|ops| - 1]);
      if t.outcome.Raised? then t else ApplyOp(t.state, ops[|ops| - 1])
  }

  // ----------------------------------------------------------------------------------- composite operations

  function SubmitStarts(requests: seq<OrderRequest>): (ops: seq<Op>) {
    seq(|requests|, i requires 0 <= i < |requests| => SubmitStart(requests[i]))
  }

  function UnknownMarks(ids: seq<string>): (ops: seq<Op>) {
    seq(|ids|, i requires 0 <= i < |ids| => MarkedUnknown(ids[i]))
  }

  function OrderAcks(acks: seq<OrderAck>): (ops: seq<Op>) {
    seq(|acks|, i requires 0 <= i < |acks| => OrderAcked(acks[i]))
  }

  function CancelAcks(acks: seq<CancelAck>): (ops: seq<Op>) {
    seq(|acks|, i requires 0 <= i < |acks| => CancelAcked(acks[i]))
  }

  function RemoteUpdates(updates: seq<OrderUpdate>): (ops: seq<Op>) {
    seq(|updates|, i requires 0 <= i < |updates| => RemoteUpdated(updates[i]))
  }

  /** `submit`, with the gateway's answer (`None` when it raises). */
  function Submitted(s: OmsState, request: OrderRequest, answer: Option<OrderAck>): Step {
    var started := ApplyOp(s, SubmitStart(request));
    if started.outcome.Raised? then started
    else match answer
      case None => ApplyOp(started.state, MarkedUnknown(request.clientOrderId))
      case Some(ack) => ApplyOp(started.state, OrderAcked(ack))
  }

  /** `submit_batch` */
  function BatchSubmitted(s: OmsState, requests: seq<OrderRequest>, reply: Reply<OrderAck>): Step {
    if requests == [] then Step(s, Ok)
    else
      var started := RunOps(s, SubmitStarts(requests));
      if started.outcome.Raised? then started
      else match reply
        case GatewayRaised => RunOps(started.state, UnknownMarks(RequestIds(requests)))
        case Acks(acks) => RunOps(started.state, OrderAcks(acks))
  }

  /** The first half of `cancel_batch`: the state reached and the requests that go to the gateway. */
  datatype CancelPhase = CancelPhase(step: Step, active: seq<CancelRequest>)

  predicate IsLive(s: OmsState, id: string) {
    id in s.orders.at && !IsTerminal(s.orders.at[id].status)
  }

  /** `cancel`, with the gateway's answer (`None` when it raises); an unknown or terminal order is left alone. */
  function CanceledOne(s: OmsState, request: CancelRequest, answer: Option<CancelAck>): Step {
    if !IsLive(s, request.clientOrderId) then Step(s, Ok)
    else
      var started := ApplyOp(s, CancelStart(request.clientOrderId));
      if started.outcome.Raised? then started
      else match answer
        case None => ApplyOp(started.state, MarkedUnknown(request.clientOrderId))
        case Some(ack) => ApplyOp(started.state, CancelAcked(ack))
  }

  function StartCancels(s: OmsState, requests: seq<CancelRequest>): CancelPhase {
    if requests == [] then CancelPhase(Step(s, Ok), [])
    else
      var before := StartCancels(s, requests[..|requests| - 1]);
      if before.step.outcome.Raised? then before
      else
        var request := requests[|requests| - 1];
        CancelPhase(ApplyOp(before.step.state, CancelStart(request.clientOrderId)),
                    if IsLive(before.step.state, request.clientOrderId) then before.active + [request]
                    else before.active)
  }

  /** The second half of `cancel_batch`. */
  function FinishCancels(s: OmsState, active: seq<CancelRequest>, reply: Reply<CancelAck>): Step {
    match reply
    case GatewayRaised => RunOps(s, UnknownMarks(CancelIds(active)))
    case Acks(acks) => RunOps(s, CancelAcks(acks))
  }

  function BatchCanceled(s: OmsState, requests: seq<CancelRequest>,
      gateway: seq<CancelRequest> -> Reply<CancelAck>): Step {
    var phase := StartCancels(s, requests);
    if phase.step.outcome.Raised? || phase.active == [] then phase.step
    else FinishCancels(phase.step.state, phase.active, gateway(phase.active))
  }

  predicate Matches(record: OrderRecord, symbol: Option<string>) {
    symbol.None? || record.symbol == symbol.value
  }

  /** What `open_orders(symbol)` collects from the records of `keys`. */
  function OpenOrdersOf(keys: seq<string>, at: map<string, OrderRecord>, symbol: Option<string>): seq<OrderRecord> {
    if keys == [] then []
    else
      var n := |keys| - 1;
      var rest := OpenOrdersOf(keys[..n], at, symbol);
      if keys[n] in at && IsOpen(at[keys[n]].status) && Matches(at[keys[n]], symbol) then rest + [at[keys[n]]] else rest
  }

  function OpenOrders(s: OmsState, symbol: Option<string>): (orders: seq<OrderRecord>) {
    OpenOrdersOf(s.orders.keys, s.orders.at, symbol)
  }

  function NotionalSum(orders: seq<OrderRecord>): real {
    if orders == [] then 0.0 else NotionalSum(orders[..|orders| - 1]) + OpenNotional(orders[|orders| - 1])
  }

  /** `total_open_notional` */
  function TotalOpenNotional(s: OmsState, symbol: Option<string>): real {
    NotionalSum(OpenOrders(s, symbol))
  }

  function RecordIds(orders: seq<OrderRecord>): (ids: seq<string>) {
    seq(|orders|, i requires 0 <= i < |orders| => orders[i].clientOrderId)
  }

  function UpdateIds(updates: seq<OrderUpdate>): set<string> {
    set u | u in updates :: u.clientOrderId
  }

  function Missing(ids: seq<string>, seen: set<string>): (r: seq<string>) {
    if ids == [] then []
    else
      var n := |ids| - 1;
      var rest := Missing(ids[..n], seen);
      if ids[n] in seen then rest else rest + [ids[n]]
  }

  /** `reconcile_open_orders` */
  function Reconciled(s: OmsState, updates: seq<OrderUpdate>, symbol: Option<string>, markMissing: bool): Step {
    var applied := RunOps(s, RemoteUpdates(updates));
    if applied.outcome.Raised? || !markMissing then applied
    else RunOps(applied.state, UnknownMarks(Missing(RecordIds(OpenOrders(applied.state, symbol)), UpdateIds(updates))))
  }
}
