/** At most one live order per slot, over every run of the application (src/mm/app.py, src/mm/quote/engine.py,
    src/mm/risk/engine.py, src/mm/oms/manager.py together). */
module Slots {
  import opened Dicts
  import opened Types
  import opened OrderState
  import opened Oms
  import opened OmsRuns
  import opened Quote
  import opened QuoteRuns
  import opened Risk
  import opened App
  import opened AppRuns

  /** The order `id` is not terminal (it may be UNKNOWN) and has its place in `slot`. */
  predicate LiveIn(s: OmsState, id: string, slot: Slot) {
    id in s.orders.at && s.orders.at[id].InSlot(slot) && !IsTerminal(s.orders.at[id].status)
  }

  ghost predicate OneLive(s: OmsState) {
    forall a, b, slot | LiveIn(s, a, slot) && LiveIn(s, b, slot) :: a == b
  }

  // ------------------------------------------------------------------------------- what can become live

  predicate Places(r: OrderRequest, id: string, slot: Slot) {
    r.clientOrderId == id && Slot(r.strategy, r.symbol, r.side, slot.level) == slot && r.level == Some(slot.level)
  }

  /** Whatever is live in a slot afterwards was live there before, or was requested. */
  ghost predicate Grows(s: OmsState, t: OmsState, requests: seq<OrderRequest>) {
    forall id, slot | LiveIn(t, id, slot) ::
      LiveIn(s, id, slot) || exists r :: r in requests && Places(r, id, slot)
  }

  lemma StepGrows(s: OmsState, op: Op, requests: seq<OrderRequest>)
    requires op.SubmitStart? ==> op.request in requests
    ensures Grows(s, ApplyOp(s, op).state, requests)
  {
    var end := ApplyOp(s, op).state;
    forall id, slot | LiveIn(end, id, slot)
      ensures LiveIn(s, id, slot) || exists r :: r in requests && Places(r, id, slot)
    {
      if id != OpId(op) {
        StepElsewhere(s, op, id);
      } else if id in s.orders.at {
        TouchFacts(s.orders.at[id], op);
      } else if op.SubmitStart? {
        assert Places(op.request, id, slot);
      }
    }
  }

  lemma GrowsThen(s: OmsState, t: OmsState, u: OmsState, requests: seq<OrderRequest>)
    requires Grows(s, t, requests) && Grows(t, u, requests)
    ensures Grows(s, u, requests)
  {
    hide LiveIn;
  }

  lemma {:induction false} TraceGrows(s: OmsState, ops: seq<Op>, requests: seq<OrderRequest>)
    requires SubmitsFrom(ops, requests)
    ensures Grows(s, RunAll(s, ops), requests)
  {
    hide ApplyOp, LiveIn;
    if ops != [] {
      var n := |ops| - 1;
      TraceGrows(s, ops[..n], requests);
      var before := RunAll(s, ops[..n]);
      StepGrows(before, ops[n], requests);
      GrowsThen(s, before, RunAll(s, ops), requests);
    }
  }

  lemma GrowsKeepsOneLive(s: OmsState, t: OmsState)
    requires OneLive(s) && Grows(s, t, [])
    ensures OneLive(t)
  {
    hide LiveIn;
  }

  // ------------------------------------------------------------------------------- what a cancel settles

  /** The order `id` is terminal, or UNKNOWN. */
  predicate Settled(s: OmsState, id: string) {
    id in s.orders.at && !IsOpen(s.orders.at[id].status)
  }

  /** The order `id` awaits an answer to its cancel, or is settled. */
  predicate Resolving(s: OmsState, id: string) {
    id in s.orders.at && (s.orders.at[id].status == Canceling || !IsOpen(s.orders.at[id].status))
  }

  predicate Resolves(op: Op) {
    op.MarkedUnknown? || (op.CancelAcked? && (op.cancelAck.accepted ==> IsTerminal(op.cancelAck.status)))
  }

  lemma StepSettles(s: OmsState, op: Op, id: string)
    requires op.CancelStart? || Resolves(op)
    ensures Settled(s, id) ==> Settled(ApplyOp(s, op).state, id)
    ensures Resolving(s, id) ==> Resolving(ApplyOp(s, op).state, id)
    ensures Resolves(op) && OpId(op) == id && Resolving(s, id) && ApplyOp(s, op).outcome == Ok
      ==> Settled(ApplyOp(s, op).state, id)
  {
  }

  predicate AllResolve(ops: seq<Op>) {
    forall i | 0 <= i < |ops| :: Resolves(ops[i])
  }

  lemma {:induction false} OpsSettle(s: OmsState, ops: seq<Op>, id: string)
    requires AllResolve(ops)
    ensures var end := RunOps(s, ops);
      && (Settled(s, id) ==> Settled(end.state, id))
      && (Resolving(s, id) ==> Resolving(end.state, id))
      && (end.outcome == Ok && Resolving(s, id) && (exists i :: 0 <= i < |ops| && OpId(ops[i]) == id) ==>
            Settled(end.state, id))
  {
    hide ApplyOp, Resolves, OpId, Settled, Resolving;
    if ops != [] {
      var n := |ops| - 1;
      OpsSettle(s, ops[..n], id);
      StepSettles(RunOps(s, ops[..n]).state, ops[n], id);
      if i :| 0 <= i < |ops| && OpId(ops[i]) == id && i < n {
        assert OpId(ops[..n][i]) == id;
      }
    }
  }

  /** The gateway's side of the bargain: unless it raises, it answers every cancel, and a cancel it accepts ends the
      order. */
  ghost predicate AnswersCancels(gateway: seq<CancelRequest> -> Reply<CancelAck>) {
    forall batch: seq<CancelRequest> | gateway(batch).Acks? :: Answered(batch, gateway(batch).acks)
  }

  ghost predicate Answered(batch: seq<CancelRequest>, acks: seq<CancelAck>) {
    && (forall r | r in batch :: exists i :: 0 <= i < |acks| && acks[i].clientOrderId == r.clientOrderId)
    && (forall i | 0 <= i < |acks| :: acks[i].accepted ==> IsTerminal(acks[i].status))
  }

  lemma {:induction false} StartCancelsSettle(s: OmsState, requests: seq<CancelRequest>, id: string)
    ensures var phase := StartCancels(s, requests);
      && (Settled(s, id) ==> Settled(phase.step.state, id))
      && (phase.step.outcome == Ok && id in s.orders.at && (exists r :: r in requests && r.clientOrderId == id) ==>
            && Resolving(phase.step.state, id)
            && (Settled(phase.step.state, id) || exists r :: r in phase.active && r.clientOrderId == id))
  {
    hide ApplyOp, Settled, Resolving;
    if requests != [] {
      var n := |requests| - 1;
      var init := requests[..n];
      StartCancelsSettle(s, init, id);
      assert requests == init + [requests[n]];
      var before := StartCancels(s, init);
      var phase := StartCancels(s, requests);
      StepSettles(before.step.state, CancelStart(requests[n].clientOrderId), id);
      StartCancelsKeys(s, init);
      if phase.step.outcome == Ok && id in s.orders.at && requests[n].clientOrderId == id {
        CancelStartResolves(before.step.state, id);
        if IsLive(before.step.state, id) {
          assert requests[n] in phase.active;
        }
      }
    }
  }

  lemma {:induction false} StartCancelsKeys(s: OmsState, requests: seq<CancelRequest>)
    ensures StartCancels(s, requests).step.state.orders.at.Keys == s.orders.at.Keys
  {
    if requests != [] {
      StartCancelsKeys(s, requests[..|requests| - 1]);
    }
  }

  lemma CancelStartResolves(s: OmsState, id: string)
    requires id in s.orders.at && ApplyOp(s, CancelStart(id)).outcome == Ok
    ensures Resolving(ApplyOp(s, CancelStart(id)).state, id)
    ensures !IsLive(s, id) ==> Settled(ApplyOp(s, CancelStart(id)).state, id)
  {
  }

  lemma FinishCancelsSettle(s: OmsState, active: seq<CancelRequest>, reply: Reply<CancelAck>, id: string)
    requires reply.Acks? ==> Answered(active, reply.acks)
    ensures var end := FinishCancels(s, active, reply);
      && (Settled(s, id) ==> Settled(end.state, id))
      && (end.outcome == Ok && Resolving(s, id) && (exists r :: r in active && r.clientOrderId == id) ==>
            Settled(end.state, id))
  {
    match reply
    case GatewayRaised =>
      var ops := UnknownMarks(CancelIds(active));
      OpsSettle(s, ops, id);
      if r :| r in active && r.clientOrderId == id {
        var i :| 0 <= i < |active| && active[i] == r;
        assert OpId(ops[i]) == id;
      }
    case Acks(acks) =>
      var ops := CancelAcks(acks);
      OpsSettle(s, ops, id);
      if r :| r in active && r.clientOrderId == id {
        var i :| 0 <= i < |acks| && acks[i].clientOrderId == r.clientOrderId;
        assert OpId(ops[i]) == id;
      }
  }

  /** A cancel batch that returns leaves every order it was asked to cancel terminal or UNKNOWN. */
  lemma CancelBatchSettles(s: OmsState, batch: seq<CancelRequest>, gateway: seq<CancelRequest> -> Reply<CancelAck>,
      id: string)
    requires AnswersCancels(gateway)
    ensures var end := BatchCanceled(s, batch, gateway);
      && (Settled(s, id) ==> Settled(end.state, id))
      && (end.outcome == Ok && id in s.orders.at && (exists r :: r in batch && r.clientOrderId == id) ==>
            Settled(end.state, id))
  {
    hide StartCancels, FinishCancels, Settled, Resolving;
    StartCancelsSettle(s, batch, id);
    var phase := StartCancels(s, batch);
    FinishCancelsSettle(phase.step.state, phase.active, gateway(phase.active), id);
  }

  lemma CancelBatchKeys(s: OmsState, batch: seq<CancelRequest>, gateway: seq<CancelRequest> -> Reply<CancelAck>,
      id: string)
    ensures id in s.orders.at ==> id in BatchCanceled(s, batch, gateway).state.orders.at
  {
    StartCancelsKeys(s, batch);
    var phase := StartCancels(s, batch);
    match gateway(phase.active)
    case GatewayRaised => OpsKeepIds(phase.step.state, UnknownMarks(CancelIds(phase.active)), id);
    case Acks(acks) => OpsKeepIds(phase.step.state, CancelAcks(acks), id);
  }

  lemma {:induction false} OpsKeepIds(s: OmsState, ops: seq<Op>, id: string)
    ensures id in s.orders.at ==> id in RunOps(s, ops).state.orders.at
  {
    if ops != [] {
      OpsKeepIds(s, ops[..|ops| - 1], id);
    }
  }

  ghost predicate Requested(batches: seq<seq<CancelRequest>>, id: string) {
    exists batch, r :: batch in batches && r in batch && r.clientOrderId == id
  }

  lemma {:induction false} CancelsSettle(s: OmsState, batches: seq<seq<CancelRequest>>,
      gateway: seq<CancelRequest> -> Reply<CancelAck>, id: string)
    requires AnswersCancels(gateway)
    ensures var end := CancelBatches(s, batches, gateway);
      && (id in s.orders.at ==> id in end.state.orders.at)
      && (Settled(s, id) ==> Settled(end.state, id))
      && (end.outcome == Ok && id in s.orders.at && Requested(batches, id) ==> Settled(end.state, id))
  {
    hide BatchCanceled, Settled;
    if batches != [] {
      var n := |batches| - 1;
      assert batches == batches[..n] + [batches[n]];
      CancelsSettle(s, batches[..n], gateway, id);
      var before := CancelBatches(s, batches[..n], gateway).state;
      CancelBatchSettles(before, batches[n], gateway, id);
      CancelBatchKeys(before, batches[n], gateway, id);
    }
  }

  // ------------------------------------------------------------------------------- one tick

  lemma {:induction false} CancelsCollected(intents: seq<OrderIntent>, i: OrderIntent)
    requires i in intents && i.action == Cancel && i.clientOrderId.Some?
    ensures CancelRequest(i.symbol, i.clientOrderId.value, None) in CancelRequestsOf(intents)
  {
    var n := |intents| - 1;
    assert intents == intents[..n] + [intents[n]];
    if intents[n] != i {
      CancelsCollected(intents[..n], i);
    }
  }

  /** When the cancels return, the order of every emitted cancel is settled. */
  lemma CanceledIsSettled(s: OmsState, intents: seq<OrderIntent>, gateway: Gateway, order: OrderRecord)
    requires AnswersCancels(gateway.cancel) && CancelIntent(order) in intents && order.clientOrderId in s.orders.at
    requires AfterCancels(s, intents, gateway).outcome == Ok
    ensures Settled(AfterCancels(s, intents, gateway).state, order.clientOrderId)
  {
    hide Settled, CancelBatches, Batches;
    CancelsCollected(intents, CancelIntent(order));
    var requests := CancelRequestsOf(intents);
    var request := CancelRequest(order.symbol, order.clientOrderId, None);
    var batch := IntoBatch(requests, CancelSymbol, request);
    CancelsSettle(s, Batches(requests, CancelSymbol), gateway.cancel, order.clientOrderId);
  }

  function IntentSlot(i: OrderIntent): Slot
    requires i.side.Some? && i.level.Some?
  {
    Slot(i.strategy, i.symbol, i.side.value, i.level.value)
  }

  /** A place names its slot's id, and comes with the cancel of the order indexed in that slot, if there is one. */
  lemma PlaceComes(q: QuoteView, quotes: seq<QuoteIntent>, orders: seq<OrderRecord>, last: map<Slot, int>,
      i: OrderIntent)
    requires BuildIntents(q, quotes, orders, last).outcome == Ok
    requires i in BuildIntents(q, quotes, orders, last).intents && i.action == Place
    ensures i.side.Some? && i.level.Some? && i.clientOrderId == Some(q.newId(IntentSlot(i)))
    ensures var open := IndexOpen(orders).at;
      IntentSlot(i) in open ==> CancelIntent(open[IntentSlot(i)]) in BuildIntents(q, quotes, orders, last).intents
  {
    IntentSource(q, quotes, orders, last, i);
    var slot :| HasDecision(q, quotes, orders, last, slot, i) || IsStale(quotes, orders, slot, i);
    assert HasDecision(q, quotes, orders, last, slot, i);
    assert i.side.Some? && i.level.Some? && IntentSlot(i) == slot;
    var open := IndexOpen(orders).at;
    if slot in open {
      assert HasDecision(q, quotes, orders, last, slot, CancelIntent(open[slot]));
      DecisionEmitted(q, quotes, orders, last, slot, CancelIntent(open[slot]));
    }
  }

  lemma {:induction false} OpenMembers(keys: seq<string>, at: map<string, OrderRecord>)
    requires forall k | k in keys :: k in at
    ensures forall k | k in keys && IsOpen(at[k].status) :: at[k] in OpenOrdersOf(keys, at, None)
    ensures forall o | o in OpenOrdersOf(keys, at, None) :: exists k :: k in keys && at[k] == o && IsOpen(o.status)
  {
    if keys != [] {
      var n := |keys| - 1;
      assert keys == keys[..n] + [keys[n]];
      OpenMembers(keys[..n], at);
      forall o | o in OpenOrdersOf(keys, at, None)
        ensures exists k :: k in keys && at[k] == o && IsOpen(o.status)
      {
        if o in OpenOrdersOf(keys[..n], at, None) {
          var k :| k in keys[..n] && at[k] == o && IsOpen(o.status);
          assert k in keys;
        } else {
          assert keys[n] in keys;
        }
      }
    }
  }

  /** With one live order per slot, the differ's index finds every open order that has a slot. */
  lemma OpenIsIndexed(s: OmsState, id: string, slot: Slot)
    requires s.orders.Valid() && OneLive(s) && LiveIn(s, id, slot) && IsOpen(s.orders.at[id].status)
    ensures var open := IndexOpen(OpenOrders(s, None)).at; slot in open && open[slot] == s.orders.at[id]
  {
    ValidKeys(s.orders);
    OpenMembers(s.orders.keys, s.orders.at);
    var orders := OpenOrders(s, None);
    var order := s.orders.at[id];
    hide OpenOrders, OpenOrdersOf;
    IndexMembers(orders);
    assert OrderSlot(order) == slot;
    var other := IndexOpen(orders).at[slot];
    var k :| k in s.orders.keys && s.orders.at[k] == other && IsOpen(other.status);
    assert LiveIn(s, k, slot);
  }

  lemma NoUnknownLeft(s: OmsState, id: string)
    requires s.orders.Valid() && !HasUnknown(s) && Settled(s, id)
    ensures IsTerminal(s.orders.at[id].status)
  {
    ValidKeys(s.orders);
    HasUnknownMeans(s.orders.keys, s.orders.at);
    var i :| 0 <= i < |s.orders.keys| && s.orders.keys[i] == id;
  }

  /** A tick that came as far as its places, and what it knew then: `s` before its cancels, `c` after them. */
  ghost predicate Reached(q: QuoteView, quotes: seq<QuoteIntent>, last: map<Slot, int>, s: OmsState, c: OmsState,
      gateway: Gateway) {
    var built := BuildIntents(q, quotes, OpenOrders(s, None), last);
    && built.outcome == Ok && AnswersCancels(gateway.cancel)
    && AfterCancels(s, built.intents, gateway) == Step(c, Ok)
    && s.orders.Valid() && WellKeyed(s) && c.orders.Valid() && OneLive(s)
  }

  /** Nothing is live any more in a slot for which a place is approved. */
  lemma ApprovedSlotIsFree(q: QuoteView, quotes: seq<QuoteIntent>, last: map<Slot, int>, s: OmsState, c: OmsState,
      gateway: Gateway, i: OrderIntent, id: string)
    requires Reached(q, quotes, last, s, c, gateway)
    requires i in BuildIntents(q, quotes, OpenOrders(s, None), last).intents && i.action == Place && !HasUnknown(c)
    ensures i.side.Some? && i.level.Some? && i.clientOrderId == Some(q.newId(IntentSlot(i)))
    ensures !LiveIn(c, id, IntentSlot(i))
  {
    hide BuildIntents, OpenOrders, AnswersCancels;
    var orders := OpenOrders(s, None);
    var intents := BuildIntents(q, quotes, orders, last).intents;
    PlaceComes(q, quotes, orders, last, i);
    var slot := IntentSlot(i);
    var batches := Batches(CancelRequestsOf(intents), CancelSymbol);
    var trace := CancelsTrace(s, batches, gateway.cancel);
    TraceGrows(s, trace, []);
    if LiveIn(c, id, slot) {
      assert LiveIn(s, id, slot);
      if IsOpen(s.orders.at[id].status) {
        OpenIsIndexed(s, id, slot);
        CanceledIsSettled(s, intents, gateway, s.orders.at[id]);
      } else {
        CancelsSettle(s, batches, gateway.cancel, id);
      }
      NoUnknownLeft(c, id);
    }
  }

  /** What a tick requests goes to free slots, one id a slot. */
  ghost predicate Disjoint(c: OmsState, requests: seq<OrderRequest>) {
    && (forall r, id, slot, other | r in requests && Places(r, id, slot) :: !LiveIn(c, other, slot))
    && (forall a, b, x, y, slot | a in requests && b in requests && Places(a, x, slot) && Places(b, y, slot) :: x == y)
  }

  lemma DisjointKeepsOneLive(c: OmsState, t: OmsState, requests: seq<OrderRequest>)
    requires OneLive(c) && Disjoint(c, requests) && Grows(c, t, requests)
    ensures OneLive(t)
  {
    hide LiveIn, Places;
  }

  lemma ScreenedSlot(q: QuoteView, quotes: seq<QuoteIntent>, last: map<Slot, int>, s: OmsState, c: OmsState,
      gateway: Gateway, view: RiskView, r: OrderRequest, id: string, slot: Slot)
    requires Reached(q, quotes, last, s, c, gateway)
    requires r in Screen(view, c, BuildIntents(q, quotes, OpenOrders(s, None), last).intents).requests
    requires Places(r, id, slot)
    ensures id == q.newId(slot)
    ensures forall other :: !LiveIn(c, other, slot)
  {
    hide Validate, Reached, BuildIntents, OpenOrders, Screen, LiveIn;
    var intents := BuildIntents(q, quotes, OpenOrders(s, None), last).intents;
    ScreenMembers(view, c, intents);
    var i :| i in intents && ScreenedFrom(view, c, i, r);
    ApprovalMeans(view, i, c);
    forall other
      ensures !LiveIn(c, other, slot)
    {
      ApprovedSlotIsFree(q, quotes, last, s, c, gateway, i, other);
      assert IntentSlot(i) == slot;
    }
    ApprovedSlotIsFree(q, quotes, last, s, c, gateway, i, id);
  }

  lemma ScreenedIsDisjoint(q: QuoteView, quotes: seq<QuoteIntent>, last: map<Slot, int>, s: OmsState, c: OmsState,
      gateway: Gateway, view: RiskView)
    requires Reached(q, quotes, last, s, c, gateway)
    ensures Disjoint(c, Screen(view, c, BuildIntents(q, quotes, OpenOrders(s, None), last).intents).requests)
  {
    hide Reached, BuildIntents, OpenOrders, Screen, LiveIn, Places;
    var requests := Screen(view, c, BuildIntents(q, quotes, OpenOrders(s, None), last).intents).requests;
    forall r, id, slot | r in requests && Places(r, id, slot)
      ensures id == q.newId(slot) && forall other :: !LiveIn(c, other, slot)
    {
      ScreenedSlot(q, quotes, last, s, c, gateway, view, r, id, slot);
    }
  }

  // ------------------------------------------------------------------------------- runs

  ghost predicate Kept(s: OmsState) {
    s.orders.Valid() && WellKeyed(s) && OneLive(s)
  }

  lemma TickKeepsOneLive(a: AppState, t: TickInput)
    requires Kept(a.oms) && AnswersCancels(t.gateway.cancel)
    ensures Kept(Tick(a, t).state.oms)
  {
    var c := AfterCancelPhase(a, t);
    var one := CancelPhaseTrace(a, t);
    RunValid(a.oms, one);
    TraceGrows(a.oms, one, []);
    GrowsKeepsOneLive(a.oms, c);
    var requests := TickRequests(a, t);
    var two := SubmitPhaseTrace(a, t);
    RunValid(c, two);
    TraceGrows(c, two, requests);
    if CancelsReturned(a, t) {
      FillsKept(a, t);
      ScreenedIsDisjoint(TickQuoteView(t), t.quotes, a.last, TickFills(a, t).state, c, t.gateway, TickView(a, t));
    }
    hide OneLive, Grows, Tick, AfterCancelPhase, Screen, CancelsReturned;
    DisjointKeepsOneLive(c, Tick(a, t).state.oms, requests);
  }

  lemma FillsKept(a: AppState, t: TickInput)
    requires Kept(a.oms)
    ensures Kept(TickFills(a, t).state)
  {
    var trace := OpsTrace(a.oms, FillOps(t.fills), []);
    RunValid(a.oms, trace);
    TraceGrows(a.oms, trace, []);
    GrowsKeepsOneLive(a.oms, TickFills(a, t).state);
  }

  ghost predicate GatewayAnswers(e: AppEvent) {
    e.Ticked? ==> AnswersCancels(e.input.gateway.cancel)
  }

  /** Over any run, whether or not ticks and calls raise, at most one order is live (UNKNOWN included) in any slot:
      fresh ids are not needed, only that the gateway answers every cancel and that accepted cancels end their
      orders. */
  lemma {:induction false} OneLiveOrderPerSlot(a: AppState, events: seq<AppEvent>)
    requires Kept(a.oms) && forall i | 0 <= i < |events| :: Admissible(events[i]) && GatewayAnswers(events[i])
    ensures Kept(RunApp(a, events).oms)
  {
    hide Kept, Tick, ApplyOp, AnswersCancels;
    if events != [] {
      var n := |events| - 1;
      OneLiveOrderPerSlot(a, events[..n]);
      var b := RunApp(a, events[..n]);
      match events[n]
      case Between(op) => BetweenKeepsOneLive(b.oms, op);
      case Latched(_, _) =>
      case Ticked(t) => TickKeepsOneLive(b, t);
    }
  }

  lemma BetweenKeepsOneLive(s: OmsState, op: Op)
    requires Kept(s) && !op.SubmitStart?
    ensures Kept(ApplyOp(s, op).state)
  {
    StepValid(s, op);
    StepWellKeyed(s, op);
    StepGrows(s, op, []);
    GrowsKeepsOneLive(s, ApplyOp(s, op).state);
  }
}
