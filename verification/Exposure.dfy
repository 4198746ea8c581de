/** The money at stake in live orders (src/mm/oms/manager.py:55-59, src/mm/risk/engine.py:62-84). */
module Exposure {
  import opened Dicts
  import opened Types
  import opened OrderState
  import opened Oms
  import opened OmsRuns
  import opened Reals
  import Risk

  /** Price times remaining size of an order that is not terminal, UNKNOWN ones included. */
  function Stake(symbol: string, r: OrderRecord): real {
    if r.symbol == symbol && !IsTerminal(r.status) then OpenNotional(r) else 0.0
  }

  function StakeIn(symbol: string): OrderRecord -> real {
    r => Stake(symbol, r)
  }

  /** The exposure of a symbol: the stake of all its live orders. */
  function ExposureOf(s: OmsState, symbol: string): real {
    Sum(s.orders, StakeIn(symbol))
  }

  predicate PriceFits(r: OrderRecord) {
    r.price.None? || r.price.value >= 0.0 || RemainingSize(r) == 0.0
  }

  ghost predicate PricesFit(s: OmsState) {
    forall id | id in s.orders.at :: PriceFits(s.orders.at[id])
  }

  /** The manager's state as every run keeps it. */
  ghost predicate Sound(s: OmsState) {
    s.orders.Valid() && WellKeyed(s) && PricesFit(s)
  }

  /** Fills never have a negative size. */
  predicate FillsForward(op: Op) {
    op.FillApplied? ==> op.fill.size >= 0.0
  }

  lemma TouchRemaining(r: OrderRecord, op: Op)
    requires FillsForward(op)
    ensures RemainingSize(TouchRecord(r, op).record) <= RemainingSize(r)
  {
  }

  lemma SmallerNotional(price: real, less: real, more: real)
    requires 0.0 <= less <= more && (price >= 0.0 || more == 0.0)
    ensures 0.0 <= price * less <= price * more
  {
    if price >= 0.0 {
      MulLe(less, more, price);
      MulNonnegative(price, less);
      MulNonnegative(price, more);
    }
  }

  lemma StakeShrinks(r: OrderRecord, t: OrderRecord, symbol: string)
    requires PriceFits(r) && SameTerms(t, r) && RemainingSize(t) <= RemainingSize(r)
    requires IsTerminal(r.status) ==> IsTerminal(t.status)
    ensures PriceFits(t) && Stake(symbol, t) <= Stake(symbol, r)
  {
    if r.price.Some? {
      SmallerNotional(r.price.value, RemainingSize(t), RemainingSize(r));
    }
  }

  lemma TouchStake(r: OrderRecord, op: Op, symbol: string)
    requires FillsForward(op) && PriceFits(r)
    ensures var t := TouchRecord(r, op).record; PriceFits(t) && Stake(symbol, t) <= Stake(symbol, r)
  {
    hide TouchRecord, Stake, PriceFits, RemainingSize;
    TouchFacts(r, op);
    TouchRemaining(r, op);
    StakeShrinks(r, TouchRecord(r, op).record, symbol);
  }

  lemma NewStake(op: Op, symbol: string)
    requires NewRecord(op).Some?
    requires op.SubmitStart? ==> op.request.price.Some? && op.request.price.value >= 0.0 && op.request.size >= 0.0
    ensures var r := NewRecord(op).value.record;
      && PriceFits(r)
      && Stake(symbol, r) == if op.SubmitStart? && op.request.symbol == symbol
                             then Notional(op.request.price.value, op.request.size) else 0.0
  {
    var r := NewRecord(op).value.record;
    NewRecordFacts(op);
    if op.SubmitStart? {
      assert RemainingSize(r) == op.request.size;
    } else {
      assert RemainingSize(r) == 0.0;
    }
  }

  /** Only creating a record from a request adds stake: its price times its size. */
  lemma StepStake(s: OmsState, op: Op, symbol: string)
    requires Sound(s) && FillsForward(op)
    requires op.SubmitStart? ==> op.request.price.Some? && op.request.price.value >= 0.0 && op.request.size >= 0.0
    ensures Sound(ApplyOp(s, op).state)
    ensures ExposureOf(ApplyOp(s, op).state, symbol) <= ExposureOf(s, symbol)
      + if op.SubmitStart? && op.request.symbol == symbol
        then Notional(op.request.price.value, op.request.size) else 0.0
  {
    hide Distinct, KeySet, Sum, TouchRecord, Stake, PriceFits, WellKeyed, NewRecord;
    var id := OpId(op);
    StepValid(s, op);
    StepWellKeyed(s, op);
    if id in s.orders.at {
      var r := s.orders.at[id];
      TouchStake(r, op, symbol);
      SumPut(s.orders, id, TouchRecord(r, op).record, StakeIn(symbol));
      if op.SubmitStart? {
        MulNonnegative(op.request.price.value, op.request.size);
      }
    } else if NewRecord(op).Some? {
      var r := NewRecord(op).value.record;
      NewStake(op, symbol);
      SumPut(s.orders, id, r, StakeIn(symbol));
    }
  }

  predicate NoSubmit(ops: seq<Op>) {
    forall i | 0 <= i < |ops| :: !ops[i].SubmitStart? && FillsForward(ops[i])
  }

  /** Acks, cancels, updates, orphans, fills and UNKNOWN marks never raise the exposure. */
  lemma {:induction false} OpsStake(s: OmsState, ops: seq<Op>, symbol: string)
    requires Sound(s) && NoSubmit(ops)
    ensures var end := RunOps(s, ops).state; Sound(end) && ExposureOf(end, symbol) <= ExposureOf(s, symbol)
  {
    hide Sound, ApplyOp, ExposureOf;
    if ops != [] {
      var n := |ops| - 1;
      OpsStake(s, ops[..n], symbol);
      StepStake(RunOps(s, ops[..n]).state, ops[n], symbol);
    }
  }

  predicate PricedRequests(requests: seq<OrderRequest>) {
    forall i | 0 <= i < |requests| ::
      requests[i].price.Some? && requests[i].price.value >= 0.0 && requests[i].size >= 0.0
  }

  function RequestNotional(request: OrderRequest): real {
    Notional(request.price.GetOr(0.0), request.size)
  }

  /** The summed notional of the requests for `symbol`. */
  function RequestedFor(requests: seq<OrderRequest>, symbol: string): real {
    if requests == [] then 0.0
    else
      var n := |requests| - 1;
      RequestedFor(requests[..n], symbol) + if requests[n].symbol == symbol then RequestNotional(requests[n]) else 0.0
  }

  lemma {:induction false} RequestedNonnegative(requests: seq<OrderRequest>, symbol: string)
    requires PricedRequests(requests)
    ensures RequestedFor(requests, symbol) >= 0.0
  {
    if requests != [] {
      var n := |requests| - 1;
      RequestedNonnegative(requests[..n], symbol);
      MulNonnegative(requests[n].price.value, requests[n].size);
    }
  }

  lemma {:induction false} StartsStake(s: OmsState, requests: seq<OrderRequest>, symbol: string)
    requires Sound(s) && PricedRequests(requests)
    ensures var end := RunOps(s, SubmitStarts(requests)).state;
      Sound(end) && ExposureOf(end, symbol) <= ExposureOf(s, symbol) + RequestedFor(requests, symbol)
  {
    hide Sound, ApplyOp, ExposureOf;
    if requests != [] {
      var n := |requests| - 1;
      var init := requests[..n];
      assert SubmitStarts(requests)[..n] == SubmitStarts(init);
      StartsStake(s, init, symbol);
      StepStake(RunOps(s, SubmitStarts(init)).state, SubmitStart(requests[n]), symbol);
      MulNonnegative(requests[n].price.value, requests[n].size);
    }
  }

  lemma SubmitBatchStake(s: OmsState, requests: seq<OrderRequest>, reply: Reply<OrderAck>, symbol: string)
    requires Sound(s) && PricedRequests(requests)
    ensures var end := BatchSubmitted(s, requests, reply).state;
      Sound(end) && ExposureOf(end, symbol) <= ExposureOf(s, symbol) + RequestedFor(requests, symbol)
  {
    hide Sound, ExposureOf;
    if requests != [] {
      StartsStake(s, requests, symbol);
      var started := RunOps(s, SubmitStarts(requests)).state;
      match reply
      case GatewayRaised => OpsStake(started, UnknownMarks(RequestIds(requests)), symbol);
      case Acks(acks) => OpsStake(started, OrderAcks(acks), symbol);
    }
  }

  lemma {:induction false} StartCancelsStake(s: OmsState, requests: seq<CancelRequest>, symbol: string)
    requires Sound(s)
    ensures var end := StartCancels(s, requests).step.state;
      Sound(end) && ExposureOf(end, symbol) <= ExposureOf(s, symbol)
  {
    hide Sound, ApplyOp, ExposureOf;
    if requests != [] {
      var n := |requests| - 1;
      StartCancelsStake(s, requests[..n], symbol);
      StepStake(StartCancels(s, requests[..n]).step.state, CancelStart(requests[n].clientOrderId), symbol);
    }
  }

  lemma CancelBatchStake(s: OmsState, requests: seq<CancelRequest>, gateway: seq<CancelRequest> -> Reply<CancelAck>,
      symbol: string)
    requires Sound(s)
    ensures var end := BatchCanceled(s, requests, gateway).state;
      Sound(end) && ExposureOf(end, symbol) <= ExposureOf(s, symbol)
  {
    hide Sound, ExposureOf;
    StartCancelsStake(s, requests, symbol);
    var phase := StartCancels(s, requests);
    match gateway(phase.active)
    case GatewayRaised => OpsStake(phase.step.state, UnknownMarks(CancelIds(phase.active)), symbol);
    case Acks(acks) => OpsStake(phase.step.state, CancelAcks(acks), symbol);
  }

  lemma NotionalAppend(orders: seq<OrderRecord>, r: OrderRecord)
    ensures NotionalSum(orders + [r]) == NotionalSum(orders) + OpenNotional(r)
  {
    hide OpenNotional;
    assert (orders + [r])[..|orders|] == orders;
  }

  lemma StakeAppend(keys: seq<string>, at: map<string, OrderRecord>, symbol: string)
    requires keys != []
    ensures var n := |keys| - 1;
      SumKeys(keys, at, StakeIn(symbol)) == SumKeys(keys[..n], at, StakeIn(symbol))
        + if keys[n] in at then Stake(symbol, at[keys[n]]) else 0.0
  {
    hide OpenNotional, Stake;
  }

  /** With no UNKNOWN order anywhere, what the risk engine adds up is the whole exposure. */
  lemma {:induction false} OpenNotionalIsExposure(keys: seq<string>, at: map<string, OrderRecord>, symbol: string)
    requires !Risk.HasUnknownOf(keys, at)
    ensures NotionalSum(OpenOrdersOf(keys, at, Some(symbol))) == SumKeys(keys, at, StakeIn(symbol))
  {
    hide OpenNotional, NotionalSum, SumKeys, StakeIn;
    if keys == [] {
      EmptySums(at, symbol);
    } else {
      var n := |keys| - 1;
      OpenNotionalIsExposure(keys[..n], at, symbol);
      StakeAppend(keys, at, symbol);
      if keys[n] in at {
        NotionalAppend(OpenOrdersOf(keys[..n], at, Some(symbol)), at[keys[n]]);
      }
    }
  }

  lemma EmptySums(at: map<string, OrderRecord>, symbol: string)
    ensures NotionalSum([]) == SumKeys([], at, StakeIn(symbol))
  {
  }
}
