/** What each operation of the order manager writes, field by field, when it returns and when it raises
    (src/mm/oms/manager.py). */
module Writes {
  import opened Dicts
  import opened Types
  import opened OrderState
  import opened Oms

  /** The operation leaves `t` for its record and changes no other one; it persists `t` when it returns, and nothing
      when it raises `error`. */
  ghost predicate Leaves(s: OmsState, op: Op, t: OrderRecord, error: Option<Error>) {
    ApplyOp(s, op) == Step(OmsState(Put(s.orders, OpId(op), t), s.saved + if error == None then [t] else []),
                           if error == None then Ok else Raised(error.value))
  }

  /** `record` with the fields that acks and updates may carry: an id that is not empty, a price that is not zero, a
      size that is larger. */
  function Told(r: OrderRecord, id: Option<string>, filled: real, price: Option<real>): OrderRecord {
    r.(exchangeOrderId := if id == None || id == Some("") then r.exchangeOrderId else id,
       filledSize := if r.filledSize < filled then filled else r.filledSize,
       avgFillPrice := if price == None || price == Some(0.0) then r.avgFillPrice else price)
  }

  /** A status the record cannot take raises, and leaves the other fields written. */
  ghost predicate Takes(s: OmsState, op: Op, t: OrderRecord, status: OrderStatus) {
    if t.status == status || t.status in EnteredFrom(status) then Leaves(s, op, t.(status := status), None)
    else Leaves(s, op, t, Some(OrderStateError))
  }

  lemma MoveTakes(s: OmsState, op: Op, t: OrderRecord, status: OrderStatus)
    requires OpId(op) in s.orders.at && TouchRecord(s.orders.at[OpId(op)], op) == Move(t, status)
    ensures Takes(s, op, t, status)
  {
    hide TouchRecord, Put;
    EntersExactly(t.status, status);
    assert s.saved + [] == s.saved;
  }

  lemma UpdateWrites(s: OmsState, u: OrderUpdate)
    requires u.clientOrderId in s.orders.at
    ensures var t := Told(s.orders.at[u.clientOrderId], u.exchangeOrderId, u.filledSize, u.avgFillPrice);
      Takes(s, Updated(u), t, u.status) && Takes(s, RemoteUpdated(u), t, u.status)
  {
    hide Move, Takes;
    var t := Told(s.orders.at[u.clientOrderId], u.exchangeOrderId, u.filledSize, u.avgFillPrice);
    MoveTakes(s, Updated(u), t, u.status);
    MoveTakes(s, RemoteUpdated(u), t, u.status);
  }

  /** An accepted order is at least OPEN; a refused one is REJECTED, unless the exchange does not know. */
  lemma AckWrites(s: OmsState, ack: OrderAck)
    requires ack.clientOrderId in s.orders.at
    ensures var r := s.orders.at[ack.clientOrderId];
      Takes(s, OrderAcked(ack), Told(r, ack.exchangeOrderId, r.filledSize, None),
            if !ack.accepted then (if ack.status == Unknown then Unknown else Rejected)
            else if ack.status == Acked || ack.status == Created || ack.status == Submitting then Open
            else ack.status)
  {
    hide Move, Takes;
    var r := s.orders.at[ack.clientOrderId];
    MoveTakes(s, OrderAcked(ack), Told(r, ack.exchangeOrderId, r.filledSize, None), AckTarget(ack));
  }

  /** A refused cancel makes a CANCELING order UNKNOWN; on any other it returns, with the id written and not persisted.
      */
  lemma CancelAckWrites(s: OmsState, ack: CancelAck)
    requires ack.clientOrderId in s.orders.at
    ensures var r := s.orders.at[ack.clientOrderId]; var t := Told(r, ack.exchangeOrderId, r.filledSize, None);
      if ack.accepted then Takes(s, CancelAcked(ack), t, ack.status)
      else if r.status == Canceling then Leaves(s, CancelAcked(ack), t.(status := Unknown), None)
      else ApplyOp(s, CancelAcked(ack)) == Step(OmsState(Put(s.orders, ack.clientOrderId, t), s.saved), Ok)
  {
    var r := s.orders.at[ack.clientOrderId];
    var t := Told(r, ack.exchangeOrderId, r.filledSize, None);
    if ack.accepted {
      MoveTakes(s, CancelAcked(ack), t, ack.status);
    } else if r.status != Canceling {
      assert s.saved + [] == s.saved;
    }
  }

  /** The price at which `filled` costs what `p` at `a` and `z` at `q` cost together. */
  predicate IsAverage(average: real, a: real, p: real, q: real, z: real, filled: real) {
    average * filled == a * p + q * z
  }

  lemma BlendedPlain(a: real, p: real, q: real, z: real, filled: real)
    requires filled != 0.0
    ensures IsAverage(BlendedPrice(a, p, q, z, filled), a, p, q, z, filled)
  {
  }

  lemma FillMoves(r: OrderRecord, fill: FillEvent, filled: real, average: real)
    requires r.avgFillPrice.Some? && r.filledSize > 0.0 && filled != 0.0
    requires filled == if r.filledSize + fill.size > r.size then r.size else r.filledSize + fill.size
    requires average == BlendedPrice(r.avgFillPrice.value, r.filledSize, fill.price, fill.size, filled)
    ensures TouchRecord(r, FillApplied(fill))
         == Move(r.(filledSize := filled, avgFillPrice := Some(average)),
                 if filled >= r.size then Filled else PartiallyFilled)
  {
    hide BlendedPrice, Move;
  }

  /** A fill adds its size up to the order's, averages the price by size, and completes the order when nothing is left.
      */
  lemma FillWrites(s: OmsState, fill: FillEvent)
    requires fill.clientOrderId in s.orders.at
    ensures var r := s.orders.at[fill.clientOrderId];
      var sum := r.filledSize + fill.size; var filled := if sum > r.size then r.size else sum;
      if r.avgFillPrice == None || r.filledSize <= 0.0 then
        Takes(s, FillApplied(fill), r.(filledSize := filled, avgFillPrice := Some(fill.price)),
              if filled >= r.size then Filled else PartiallyFilled)
      else if filled == 0.0 then Leaves(s, FillApplied(fill), r, Some(DivisionByZero))
      else
        exists average | IsAverage(average, r.avgFillPrice.value, r.filledSize, fill.price, fill.size, filled) ::
        Takes(s, FillApplied(fill), r.(filledSize := filled, avgFillPrice := Some(average)),
              if filled >= r.size then Filled else PartiallyFilled)
  {
    hide Takes, Move, BlendedPrice, IsAverage;
    var r := s.orders.at[fill.clientOrderId];
    var filled := if r.filledSize + fill.size > r.size then r.size else r.filledSize + fill.size;
    var status := if filled >= r.size then Filled else PartiallyFilled;
    assert s.saved + [] == s.saved;
    if r.avgFillPrice == None || r.filledSize <= 0.0 {
      MoveTakes(s, FillApplied(fill), r.(filledSize := filled, avgFillPrice := Some(fill.price)), status);
    } else if filled != 0.0 {
      var average := BlendedPrice(r.avgFillPrice.value, r.filledSize, fill.price, fill.size, filled);
      BlendedPlain(r.avgFillPrice.value, r.filledSize, fill.price, fill.size, filled);
      FillMoves(r, fill, filled, average);
      MoveTakes(s, FillApplied(fill), r.(filledSize := filled, avgFillPrice := Some(average)), status);
    }
  }

  /** Marks, and starts on orders that exist; a cancel of a terminal order changes nothing. */
  lemma StartWrites(s: OmsState, id: string, request: OrderRequest)
    requires id in s.orders.at && request.clientOrderId in s.orders.at
    ensures Takes(s, MarkedUnknown(id), s.orders.at[id], Unknown)
    ensures Takes(s, SubmitStart(request), s.orders.at[request.clientOrderId], Submitting)
    ensures if s.orders.at[id].status in {Filled, Canceled, PartiallyCanceled, Rejected, Expired}
      then ApplyOp(s, CancelStart(id)) == Step(s, Ok)
      else Takes(s, CancelStart(id), s.orders.at[id], Canceling)
  {
    hide Move, Takes;
    MoveTakes(s, MarkedUnknown(id), s.orders.at[id], Unknown);
    MoveTakes(s, SubmitStart(request), s.orders.at[request.clientOrderId], Submitting);
    if IsTerminal(s.orders.at[id].status) {
      assert s.saved + [] == s.saved;
      PutSame(s.orders, id);
    } else {
      MoveTakes(s, CancelStart(id), s.orders.at[id], Canceling);
    }
  }

  /** Operations on an id that is not there: a request is filed as CREATED and then SUBMITTING, a cancel is skipped, a
      remote update is filed as an orphan, and the others raise KeyError. */
  lemma MissingWrites(s: OmsState, op: Op)
    requires OpId(op) !in s.orders.at
    ensures match op
      case SubmitStart(q) =>
        var r := OrderRecord(q.symbol, q.side, q.price, q.size,
                             match q.orderType
                             case Limit => "limit" case MarketType => "market" case LimitMaker => "limit_maker"
                             case Ioc => "ioc",
                             q.clientOrderId, q.strategy, q.level, Created, None, 0.0, None);
        var t := r.(status := Submitting);
        ApplyOp(s, op) == Step(OmsState(Put(s.orders, q.clientOrderId, t), s.saved + [r, t]), Ok)
      case RemoteUpdated(u) =>
        exists side ::
          && (if u.side.Some? then Some(side) == u.side
              else side == Buy <==> exists a: string, b: string :: u.clientOrderId == a + "-b-" + b)
          && Leaves(s, op, OrderRecord(
               u.symbol, side, u.avgFillPrice, u.filledSize, "unknown", u.clientOrderId, "orphan", None, Unknown,
               u.exchangeOrderId, u.filledSize, u.avgFillPrice), None)
      case CancelStart(_) => ApplyOp(s, op) == Step(s, Ok)
      case _ => ApplyOp(s, op) == Step(s, Raised(KeyError))
  {
    if op.RemoteUpdated? {
      SideExactly(op.update.clientOrderId);
      var side := OrphanRecord(op.update).side;
    }
  }

  lemma SideExactly(id: string)
    ensures InferSide(id) == Buy <==> exists a: string, b: string :: id == a + "-b-" + b
  {
    if InferSide(id) == Buy {
      var i :| 0 <= i <= |id| - 3 && BuyMarkAt(id, i);
      assert id == id[..i] + "-b-" + id[i + 3..];
    }
    if a: string, b: string :| id == a + "-b-" + b {
      assert id[|a|..|a| + 3] == "-b-";
      assert BuyMarkAt(id, |a|);
    }
  }

  // ------------------------------------------------------------------------------- lists and batches

  /** What `open_orders(symbol)` keeps. */
  function Listed(symbol: Option<string>): OrderRecord -> bool {
    (r: OrderRecord) => r.status !in {Filled, Canceled, PartiallyCanceled, Rejected, Expired, Unknown}
         && (symbol == None || symbol == Some(r.symbol))
  }

  lemma {:induction false} OpenOrdersFiltered(keys: seq<string>, at: map<string, OrderRecord>, symbol: Option<string>)
    ensures OpenOrdersOf(keys, at, symbol) == Filter(Values(keys, at), Listed(symbol))
  {
    if keys != [] {
      var n := |keys| - 1;
      OpenOrdersFiltered(keys[..n], at, symbol);
      if keys[n] in at {
        FilterAppend(Values(keys[..n], at), at[keys[n]], Listed(symbol));
      } else {
        assert Values(keys, at) == Values(keys[..n], at);
      }
    }
  }

  /** What is left of the orders, at their prices. */
  function LeftValue(orders: seq<OrderRecord>): real {
    if orders == [] then 0.0
    else
      var r := orders[0];
      LeftValue(orders[1..])
      + if r.price == None || r.size < r.filledSize then 0.0 else r.price.value * (r.size - r.filledSize)
  }

  lemma {:induction false} LeftAppend(orders: seq<OrderRecord>, r: OrderRecord)
    ensures LeftValue(orders + [r])
         == LeftValue(orders)
            + if r.price == None || r.size < r.filledSize then 0.0 else r.price.value * (r.size - r.filledSize)
  {
    if orders == [] {
      assert [r][1..] == [] && [] + [r] == [r];
    } else {
      assert (orders + [r])[1..] == orders[1..] + [r];
      LeftAppend(orders[1..], r);
    }
  }

  lemma {:induction false} NotionalIsLeft(orders: seq<OrderRecord>)
    ensures NotionalSum(orders) == LeftValue(orders)
  {
    if orders != [] {
      var n := |orders| - 1;
      NotionalIsLeft(orders[..n]);
      LeftAppend(orders[..n], orders[n]);
      assert orders == orders[..n] + [orders[n]];
    }
  }

  /** `open_orders(symbol)` and `total_open_notional(symbol)`: the orders that are neither terminal nor UNKNOWN, in the
      order they were filed, and the price of what is left of them. */
  lemma OpenOrdersExactly(s: OmsState, symbol: Option<string>)
    ensures OpenOrders(s, symbol) == Filter(Values(s.orders.keys, s.orders.at), Listed(symbol))
    ensures TotalOpenNotional(s, symbol) == LeftValue(OpenOrders(s, symbol))
  {
    OpenOrdersFiltered(s.orders.keys, s.orders.at, symbol);
    NotionalIsLeft(OpenOrders(s, symbol));
  }

  /** The requests of a cancel batch that are worth sending. */
  function Cancelable(s: OmsState): CancelRequest -> bool {
    (r: CancelRequest) => r.clientOrderId in s.orders.at
         && s.orders.at[r.clientOrderId].status !in {Filled, Canceled, PartiallyCanceled, Rejected, Expired}
  }

  lemma StartKeepsLive(s: OmsState, id: string, other: string)
    requires ApplyOp(s, CancelStart(id)).outcome == Ok
    ensures IsLive(ApplyOp(s, CancelStart(id)).state, other) <==> IsLive(s, other)
  {
  }

  /** The gateway gets exactly the requests for orders that exist and are not terminal, in order. */
  lemma {:induction false} CancelBatchSendsExactly(s: OmsState, requests: seq<CancelRequest>)
    requires StartCancels(s, requests).step.outcome == Ok
    ensures StartCancels(s, requests).active == Filter(requests, Cancelable(s))
    ensures forall id :: IsLive(StartCancels(s, requests).step.state, id) <==> IsLive(s, id)
  {
    hide ApplyOp;
    if requests != [] {
      var n := |requests| - 1;
      CancelBatchSendsExactly(s, requests[..n]);
      var before := StartCancels(s, requests[..n]).step.state;
      var id := requests[n].clientOrderId;
      assert requests == requests[..n] + [requests[n]];
      FilterAppend(requests[..n], requests[n], Cancelable(s));
      assert IsLive(before, id) <==> Cancelable(s)(requests[n]);
      forall other
        ensures IsLive(StartCancels(s, requests).step.state, other) <==> IsLive(s, other)
      {
        StartKeepsLive(before, id, other);
      }
    }
  }

  /** Marks that all return leave every marked order UNKNOWN and all others alone. */
  lemma {:induction false} MarksEndUnknown(s: OmsState, ids: seq<string>)
    requires RunOps(s, UnknownMarks(ids)).outcome == Ok
    ensures var end := RunOps(s, UnknownMarks(ids)).state;
      && (forall id | id in ids :: id in end.orders.at && end.orders.at[id].status == Unknown)
      && (forall id | id !in ids && id in s.orders.at :: id in end.orders.at && end.orders.at[id] == s.orders.at[id])
  {
    if ids != [] {
      var n := |ids| - 1;
      assert ids == ids[..n] + [ids[n]];
      assert UnknownMarks(ids)[..n] == UnknownMarks(ids[..n]);
      MarksEndUnknown(s, ids[..n]);
    }
  }

  /** When the gateway raises on a batch, every order it was asked about is UNKNOWN once the call returns. */
  lemma RaisedBatchesEndUnknown(s: OmsState, requests: seq<OrderRequest>, cancels: seq<CancelRequest>,
      gateway: seq<CancelRequest> -> Reply<CancelAck>)
    ensures var end := BatchSubmitted(s, requests, GatewayRaised);
      end.outcome == Ok ==> forall r | r in requests ::
        r.clientOrderId in end.state.orders.at && end.state.orders.at[r.clientOrderId].status == Unknown
    ensures var end := BatchCanceled(s, cancels, gateway); var sent := Filter(cancels, Cancelable(s));
      end.outcome == Ok && sent != [] && gateway(sent).GatewayRaised? ==> forall r | r in sent ::
        r.clientOrderId in end.state.orders.at && end.state.orders.at[r.clientOrderId].status == Unknown
  {
    hide RunOps, StartCancels;
    if BatchSubmitted(s, requests, GatewayRaised).outcome == Ok && requests != [] {
      MarksEndUnknown(RunOps(s, SubmitStarts(requests)).state, RequestIds(requests));
      forall r | r in requests
        ensures r.clientOrderId in RequestIds(requests)
      {
        var i :| 0 <= i < |requests| && requests[i] == r;
        assert RequestIds(requests)[i] == r.clientOrderId;
      }
    }
    var phase := StartCancels(s, cancels);
    if phase.step.outcome == Ok {
      CancelBatchSendsExactly(s, cancels);
      var sent := phase.active;
      if sent != [] && gateway(sent).GatewayRaised? && BatchCanceled(s, cancels, gateway).outcome == Ok {
        MarksEndUnknown(phase.step.state, CancelIds(sent));
        forall r | r in sent
          ensures r.clientOrderId in CancelIds(sent)
        {
          var i :| 0 <= i < |sent| && sent[i] == r;
          assert CancelIds(sent)[i] == r.clientOrderId;
        }
      }
    }
  }
}
