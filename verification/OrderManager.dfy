/** `OrderManager` (src/mm/oms/manager.py) as a class over its `_orders` dictionary and its store. */
module OrderManagers {
  import opened Dicts
  import opened Types
  import opened OrderState
  import opened Store
  import opened Oms

  class OrderManager {
    var orders: Dict<string, OrderRecord>
    ghost var saved: seq<OrderRecord>
    ghost const loadedRows: seq<OrderRecord>
    const store: JsonOrderStore

    /** The store holds what it was loaded with, overwritten by every record saved since. */
    ghost predicate Valid()
      reads this, store
    {
      orders.Valid() && store.rows == SaveRows(loadedRows, saved)
    }

    ghost function State(): OmsState
      reads this
    {
      OmsState(orders, saved)
    }

    constructor (store: JsonOrderStore)
      ensures Valid() && this.store == store && loadedRows == store.rows
      ensures State() == OmsState(IndexById(LoadRows(store.rows)), [])
    {
      this.store := store;
      this.loadedRows := store.rows;
      this.orders := Empty();
      saved := [];
      new;
      var records := store.Load();
      orders := IndexRecords(records);
    }

    static method IndexRecords(records: seq<OrderRecord>) returns (orders: Dict<string, OrderRecord>)
      ensures orders == IndexById(records) && orders.Valid()
    {
      orders := Empty();
      for i := 0 to |records|
        invariant orders == IndexById(records[..i]) && orders.Valid()
      {
        Prefixes(records, i);
        PutValid(orders, records[i].clientOrderId, records[i]);
        orders := Put(orders, records[i].clientOrderId, records[i]);
      }
      assert records[..|records|] == records;
    }

    /** `_persist(record)` */
    method Persist(record: OrderRecord)
      requires Valid()
      modifies this`saved, store
      ensures Valid() && saved == old(saved) + [record]
    {
      SaveAppend(loadedRows, saved, record);
      store.SaveOrder(record);
      saved := saved + [record];
    }

    /** `_transition` on the record in memory under `id`. */
    method Transition(id: string, status: OrderStatus) returns (outcome: Outcome)
      requires Valid() && id in orders.at
      modifies this, store
      ensures Valid()
      ensures State() == Record(old(State()), id, Move(old(orders).at[id], status))
      ensures outcome == Move(old(orders).at[id], status).outcome
    {
      var record := orders.at[id];
      if !CanTransition(record.status, status) {
        PutSame(orders, id);
        assert saved + [] == saved;
        return Raised(OrderStateError);
      }
      record := record.(status := status);
      PutValid(orders, id, record);
      orders := Put(orders, id, record);
      Persist(record);
      outcome := Ok;
    }

    /** Field writes on the record in memory, then `_transition`. */
    method WriteThenTransition(id: string, written: OrderRecord, status: OrderStatus) returns (outcome: Outcome)
      requires Valid() && id in orders.at
      modifies this, store
      ensures Valid()
      ensures State() == Record(old(State()), id, Move(written, status)) && outcome == Move(written, status).outcome
    {
      PutValid(orders, id, written);
      orders := Put(orders, id, written);
      outcome := Transition(id, status);
      PutTwice(old(orders), id, written, Move(written, status).record);
    }

    /** The part of `submit` and of the `submit_batch` loop that runs before the gateway is called. */
    method StartSubmit(request: OrderRequest) returns (outcome: Outcome)
      requires Valid()
      modifies this, store
      ensures Valid()
      ensures Step(State(), outcome) == ApplyOp(old(State()), SubmitStart(request))
    {
      hide ApplyOp, FromRequest, Distinct, KeySet, SaveRows;
      SubmitStartSteps(State(), request);
      var id := request.clientOrderId;
      if id !in orders.at {
        var created := FromRequest(request);
        PutValid(orders, id, created);
        orders := Put(orders, id, created);
        Persist(created);
      }
      outcome := Transition(id, Submitting);
    }

    method ApplyOrderAck(ack: OrderAck) returns (outcome: Outcome)
      requires Valid()
      modifies this, store
      ensures Valid()
      ensures Step(State(), outcome) == ApplyOp(old(State()), OrderAcked(ack))
    {
      if ack.clientOrderId !in orders.at {
        return Raised(KeyError);
      }
      var record := orders.at[ack.clientOrderId];
      record := record.(exchangeOrderId := OrId(ack.exchangeOrderId, record.exchangeOrderId));
      var target;
      if ack.accepted {
        target := ack.status;
        if target == Acked || target == Created || target == Submitting {
          target := Open;
        }
      } else {
        target := if ack.status == Unknown then Unknown else Rejected;
      }
      outcome := WriteThenTransition(ack.clientOrderId, record, target);
    }

    method ApplyCancelAck(ack: CancelAck) returns (outcome: Outcome)
      requires Valid()
      modifies this, store
      ensures Valid()
      ensures Step(State(), outcome) == ApplyOp(old(State()), CancelAcked(ack))
    {
      if ack.clientOrderId !in orders.at {
        return Raised(KeyError);
      }
      var record := orders.at[ack.clientOrderId];
      record := record.(exchangeOrderId := OrId(ack.exchangeOrderId, record.exchangeOrderId));
      if ack.accepted {
        outcome := WriteThenTransition(ack.clientOrderId, record, ack.status);
      } else if record.status == Canceling {
        outcome := WriteThenTransition(ack.clientOrderId, record, Unknown);
      } else {
        PutValid(orders, ack.clientOrderId, record);
        orders := Put(orders, ack.clientOrderId, record);
        outcome := Ok;
        assert saved + [] == saved;
      }
    }

    method ApplyOrderUpdate(update: OrderUpdate) returns (outcome: Outcome)
      requires Valid()
      modifies this, store
      ensures Valid()
      ensures Step(State(), outcome) == ApplyOp(old(State()), Updated(update))
    {
      if update.clientOrderId !in orders.at {
        return Raised(KeyError);
      }
      var record := orders.at[update.clientOrderId];
      record := record.(exchangeOrderId := OrId(update.exchangeOrderId, record.exchangeOrderId));
      record := record.(filledSize := Max(record.filledSize, update.filledSize));
      record := record.(avgFillPrice := OrPrice(update.avgFillPrice, record.avgFillPrice));
      outcome := WriteThenTransition(update.clientOrderId, record, update.status);
    }

    static method FillRecord(record: OrderRecord, fill: FillEvent) returns (updated: Option<OrderRecord>)
      ensures updated == AfterFill(record, fill)
    {
      var previousSize := record.filledSize;
      var newSize := previousSize + fill.size;
      if newSize > record.size {
        newSize := record.size;
      }
      var avgPrice;
      if record.avgFillPrice.None? || previousSize <= 0.0 {
        avgPrice := fill.price;
      } else {
        if newSize == 0.0 {
          return None;
        }
        avgPrice := BlendedPrice(record.avgFillPrice.value, previousSize, fill.price, fill.size, newSize);
      }
      updated := Some(record.(filledSize := newSize, avgFillPrice := Some(avgPrice)));
    }

    method ApplyFill(fill: FillEvent) returns (outcome: Outcome)
      requires Valid()
      modifies this, store
      ensures Valid()
      ensures Step(State(), outcome) == ApplyOp(old(State()), FillApplied(fill))
    {
      if fill.clientOrderId !in orders.at {
        return Raised(KeyError);
      }
      var updated := FillRecord(orders.at[fill.clientOrderId], fill);
      if updated.None? {
        PutSame(orders, fill.clientOrderId);
        assert saved + [] == saved;
        return Raised(DivisionByZero);
      }
      var record := updated.value;
      var target := if RemainingSize(record) <= 0.0 then Filled else PartiallyFilled;
      outcome := WriteThenTransition(fill.clientOrderId, record, target);
    }

    method MarkUnknown(id: string) returns (outcome: Outcome)
      requires Valid()
      modifies this, store
      ensures Valid()
      ensures Step(State(), outcome) == ApplyOp(old(State()), MarkedUnknown(id))
    {
      if id !in orders.at {
        return Raised(KeyError);
      }
      outcome := Transition(id, Unknown);
    }

    method ApplyRemoteOrderUpdate(update: OrderUpdate) returns (outcome: Outcome)
      requires Valid()
      modifies this, store
      ensures Valid()
      ensures Step(State(), outcome) == ApplyOp(old(State()), RemoteUpdated(update))
    {
      hide ApplyOp, OrphanRecord, SaveRows, Distinct, KeySet;
      RemoteUpdateSteps(State(), update);
      if update.clientOrderId !in orders.at {
        var record := OrphanRecord(update);
        PutValid(orders, update.clientOrderId, record);
        orders := Put(orders, update.clientOrderId, record);
        Persist(record);
        return Ok;
      }
      outcome := ApplyOrderUpdate(update);
    }

    method Submit(request: OrderRequest, answer: Option<OrderAck>) returns (outcome: Outcome)
      requires Valid()
      modifies this, store
      ensures Valid()
      ensures Step(State(), outcome) == Submitted(old(State()), request, answer)
    {
      outcome := StartSubmit(request);
      if outcome.Raised? {
        return;
      }
      match answer
      case None => outcome := MarkUnknown(request.clientOrderId);
      case Some(ack) => outcome := ApplyOrderAck(ack);
    }

    method Cancel(request: CancelRequest, answer: Option<CancelAck>) returns (outcome: Outcome)
      requires Valid()
      modifies this, store
      ensures Valid()
      ensures Step(State(), outcome) == CanceledOne(old(State()), request, answer)
    {
      var id := request.clientOrderId;
      if id !in orders.at || IsTerminal(orders.at[id].status) {
        return Ok;
      }
      ghost var t := Move(orders.at[id], Canceling);
      assert ApplyOp(State(), CancelStart(id)) == Step(Record(State(), id, t), t.outcome);
      hide ApplyOp;
      outcome := Transition(id, Canceling);
      if outcome.Raised? {
        return;
      }
      match answer
      case None => outcome := MarkUnknown(id);
      case Some(ack) => outcome := ApplyCancelAck(ack);
    }

    method MarkAllUnknown(ids: seq<string>) returns (outcome: Outcome)
      requires Valid()
      modifies this, store
      ensures Valid()
      ensures Step(State(), outcome) == RunOps(old(State()), UnknownMarks(ids))
    {
      outcome := Ok;
      ghost var ops := UnknownMarks(ids);
      for i := 0 to |ids|
        invariant Valid() && outcome == Ok && Step(State(), outcome) == RunOps(old(State()), ops[..i])
      {
        Prefixes(ops, i);
        outcome := MarkUnknown(ids[i]);
        if outcome.Raised? {
          RunOpsStops(old(State()), ops, i + 1);
          return;
        }
      }
      assert ops[..|ids|] == ops;
    }

    method SubmitBatch(requests: seq<OrderRequest>,
        gateway: seq<OrderRequest> -> Reply<OrderAck>) returns (outcome: Outcome)
      requires Valid()
      modifies this, store
      ensures Valid()
      ensures Step(State(), outcome) == BatchSubmitted(old(State()), requests, gateway(requests))
    {
      if requests == [] {
        return Ok;
      }
      outcome := Ok;
      ghost var ops := SubmitStarts(requests);
      for i := 0 to |requests|
        invariant Valid() && outcome == Ok && Step(State(), outcome) == RunOps(old(State()), ops[..i])
      {
        Prefixes(ops, i);
        outcome := StartSubmit(requests[i]);
        if outcome.Raised? {
          RunOpsStops(old(State()), ops, i + 1);
          return;
        }
      }
      assert ops[..|requests|] == ops;
      match gateway(requests)
      case GatewayRaised => outcome := MarkAllUnknown(RequestIds(requests));
      case Acks(acks) => outcome := ApplyOrderAcks(acks);
    }

    method ApplyOrderAcks(acks: seq<OrderAck>) returns (outcome: Outcome)
      requires Valid()
      modifies this, store
      ensures Valid()
      ensures Step(State(), outcome) == RunOps(old(State()), OrderAcks(acks))
    {
      outcome := Ok;
      ghost var ops := OrderAcks(acks);
      for i := 0 to |acks|
        invariant Valid() && outcome == Ok && Step(State(), outcome) == RunOps(old(State()), ops[..i])
      {
        Prefixes(ops, i);
        outcome := ApplyOrderAck(acks[i]);
        if outcome.Raised? {
          RunOpsStops(old(State()), ops, i + 1);
          return;
        }
      }
      assert ops[..|acks|] == ops;
    }

    method ApplyCancelAcks(acks: seq<CancelAck>) returns (outcome: Outcome)
      requires Valid()
      modifies this, store
      ensures Valid()
      ensures Step(State(), outcome) == RunOps(old(State()), CancelAcks(acks))
    {
      outcome := Ok;
      ghost var ops := CancelAcks(acks);
      for i := 0 to |acks|
        invariant Valid() && outcome == Ok && Step(State(), outcome) == RunOps(old(State()), ops[..i])
      {
        Prefixes(ops, i);
        outcome := ApplyCancelAck(acks[i]);
        if outcome.Raised? {
          RunOpsStops(old(State()), ops, i + 1);
          return;
        }
      }
      assert ops[..|acks|] == ops;
    }

    method CancelBatch(requests: seq<CancelRequest>, gateway: seq<CancelRequest> -> Reply<CancelAck>)
      returns (outcome: Outcome)
      requires Valid()
      modifies this, store
      ensures Valid()
      ensures Step(State(), outcome) == BatchCanceled(old(State()), requests, gateway)
    {
      var active: seq<CancelRequest> := [];
      outcome := Ok;
      for i := 0 to |requests|
        invariant Valid() && outcome == Ok
        invariant CancelPhase(Step(State(), outcome), active) == StartCancels(old(State()), requests[..i])
      {
        Prefixes(requests, i);
        var id := requests[i].clientOrderId;
        if id !in orders.at {
          continue;
        }
        if IsTerminal(orders.at[id].status) {
          PutSame(orders, id);
          assert saved + [] == saved;
          continue;
        }
        outcome := Transition(id, Canceling);
        if outcome.Raised? {
          StartCancelsStops(old(State()), requests, i + 1);
          return;
        }
        active := active + [requests[i]];
      }
      assert requests[..|requests|] == requests;
      if active == [] {
        return;
      }
      match gateway(active)
      case GatewayRaised => outcome := MarkAllUnknown(CancelIds(active));
      case Acks(acks) => outcome := ApplyCancelAcks(acks);
    }

    method ListOpenOrders(symbol: Option<string>) returns (result: seq<OrderRecord>)
      requires Valid()
      ensures result == OpenOrders(State(), symbol)
    {
      result := [];
      ValidKeys(orders);
      var keys := orders.keys;
      for i := 0 to |keys|
        invariant result == OpenOrdersOf(keys[..i], orders.at, symbol)
      {
        Prefixes(keys, i);
        var order := orders.at[keys[i]];
        if symbol.Some? && order.symbol != symbol.value {
          continue;
        }
        if !IsTerminal(order.status) && order.status != Unknown {
          result := result + [order];
        }
      }
      assert keys[..|keys|] == keys;
    }

    method SumOpenNotional(symbol: Option<string>) returns (total: real)
      requires Valid()
      ensures total == TotalOpenNotional(State(), symbol)
    {
      total := 0.0;
      var open := ListOpenOrders(symbol);
      for i := 0 to |open|
        invariant total == NotionalSum(open[..i])
      {
        Prefixes(open, i);
        total := total + OpenNotional(open[i]);
      }
      assert open[..|open|] == open;
    }

    method ReconcileOpenOrders(updates: seq<OrderUpdate>, symbol: Option<string>, markMissing: bool)
      returns (outcome: Outcome)
      requires Valid()
      modifies this, store
      ensures Valid()
      ensures Step(State(), outcome) == Reconciled(old(State()), updates, symbol, markMissing)
    {
      hide ApplyOp, OpenOrdersOf, Missing, Distinct, KeySet;
      var seen: set<string> := {};
      outcome := Ok;
      ghost var ops := RemoteUpdates(updates);
      for i := 0 to |updates|
        invariant Valid() && outcome == Ok && Step(State(), outcome) == RunOps(old(State()), ops[..i])
        invariant seen == UpdateIds(updates[..i])
      {
        Prefixes(ops, i);
        Prefixes(updates, i);
        seen := seen + {updates[i].clientOrderId};
        outcome := ApplyRemoteOrderUpdate(updates[i]);
        if outcome.Raised? {
          RunOpsStops(old(State()), ops, i + 1);
          return;
        }
      }
      assert ops[..|updates|] == ops && updates[..|updates|] == updates;
      if !markMissing {
        return;
      }
      var open := ListOpenOrders(symbol);
      outcome := MarkMissing(RecordIds(open), seen);
    }

    /** The marking loop of `reconcile_open_orders`. */
    method MarkMissing(ids: seq<string>, seen: set<string>) returns (outcome: Outcome)
      requires Valid()
      modifies this, store
      ensures Valid()
      ensures Step(State(), outcome) == RunOps(old(State()), UnknownMarks(Missing(ids, seen)))
    {
      outcome := Ok;
      for i := 0 to |ids|
        invariant Valid() && outcome == Ok
        invariant Step(State(), outcome) == RunOps(old(State()), UnknownMarks(Missing(ids[..i], seen)))
      {
        MissingStep(ids, seen, i);
        if ids[i] !in seen {
          MarksStep(old(State()), Missing(ids[..i], seen), ids[i]);
          outcome := MarkUnknown(ids[i]);
          if outcome.Raised? {
            MissingPrefix(ids, seen, i + 1);
            RunOpsStops(old(State()), UnknownMarks(Missing(ids, seen)), |Missing(ids[..i + 1], seen)|);
            return;
          }
        }
      }
      assert ids[..|ids|] == ids;
    }
  }

  lemma MissingStep(ids: seq<string>, seen: set<string>, i: nat)
    requires i < |ids|
    ensures Missing(ids[..i + 1], seen)
         == if ids[i] in seen then Missing(ids[..i], seen) else Missing(ids[..i], seen) + [ids[i]]
  {
    Prefixes(ids, i);
  }

  lemma MarksStep(s: OmsState, ids: seq<string>, id: string)
    requires RunOps(s, UnknownMarks(ids)).outcome == Ok
    ensures RunOps(s, UnknownMarks(ids + [id])) == ApplyOp(RunOps(s, UnknownMarks(ids)).state, MarkedUnknown(id))
  {
    assert UnknownMarks(ids + [id])[..|ids|] == UnknownMarks(ids);
  }

  lemma {:induction false} MissingPrefix(ids: seq<string>, seen: set<string>, n: nat)
    requires n <= |ids|
    ensures |Missing(ids[..n], seen)| <= |Missing(ids, seen)|
    ensures Missing(ids, seen)[..|Missing(ids[..n], seen)|] == Missing(ids[..n], seen)
    ensures UnknownMarks(Missing(ids, seen))[..|Missing(ids[..n], seen)|] == UnknownMarks(Missing(ids[..n], seen))
  {
    if n < |ids| {
      assert ids[..|ids| - 1][..n] == ids[..n];
      MissingPrefix(ids[..|ids| - 1], seen, n);
    } else {
      assert ids[..n] == ids;
    }
  }

  /** A remote update is an update, or files an orphan. */
  lemma RemoteUpdateSteps(s: OmsState, update: OrderUpdate)
    ensures var id := update.clientOrderId; var orphan := OrphanRecord(update);
      ApplyOp(s, RemoteUpdated(update))
        == if id in s.orders.at then ApplyOp(s, Updated(update))
            else Step(Record(s, id, Touch(orphan, [orphan], Ok)), Ok)
  {
    hide OrphanRecord, TouchUpdate, BlendedPrice;
  }

  /** Starting a submit is creating the record, if it is new, and moving it to SUBMITTING. */
  lemma SubmitStartSteps(s: OmsState, request: OrderRequest)
    ensures var id := request.clientOrderId; var created := FromRequest(request);
      var known := if id in s.orders.at then s else Record(s, id, Touch(created, [created], Ok));
      && id in known.orders.at
      && var t := Move(known.orders.at[id], Submitting);
      ApplyOp(s, SubmitStart(request)) == Step(Record(known, id, t), t.outcome)
  {
    var created := FromRequest(request);
    RecordTwice(s, request.clientOrderId, created, created.(status := Submitting));
  }

  lemma RecordTwice(s: OmsState, id: string, a: OrderRecord, b: OrderRecord)
    ensures Record(Record(s, id, Touch(a, [a], Ok)), id, Touch(b, [b], Ok)) == Record(s, id, Touch(b, [a, b], Ok))
  {
    PutTwice(s.orders, id, a, b);
    assert s.saved + [a] + [b] == s.saved + [a, b];
    assert [a] + [b] == [a, b];
  }

  lemma {:induction false} RunOpsStops(s: OmsState, ops: seq<Op>, n: nat)
    requires n <= |ops| && RunOps(s, ops[..n]).outcome.Raised?
    ensures RunOps(s, ops) == RunOps(s, ops[..n])
  {
    if n < |ops| {
      assert ops[..|ops| - 1][..n] == ops[..n];
      RunOpsStops(s, ops[..|ops| - 1], n);
    } else {
      assert ops[..n] == ops;
    }
  }

  lemma {:induction false} StartCancelsStops(s: OmsState, requests: seq<CancelRequest>, n: nat)
    requires n <= |requests| && StartCancels(s, requests[..n]).step.outcome.Raised?
    ensures StartCancels(s, requests) == StartCancels(s, requests[..n])
  {
    if n < |requests| {
      assert requests[..|requests| - 1][..n] == requests[..n];
      StartCancelsStops(s, requests[..|requests| - 1], n);
    } else {
      assert requests[..n] == requests;
    }
  }
}
