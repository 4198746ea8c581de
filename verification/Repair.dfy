/** `repair_unknown_orders` (src/mm/oms/reconcile.py:51-60): every UNKNOWN order is looked up, and takes the status the
    exchange reports, unless that is UNKNOWN too. `query_order` may raise, which ends the repair. */
module Repair {
  import opened Dicts
  import opened Types
  import opened Oms
  import opened OmsRuns
  import opened OrderManagers

  datatype Repaired = Repaired(state: OmsState, ids: seq<string>, outcome: Outcome)

  /** The loop over the listed ids; `query` is what the exchange answers about a record, `None` when it raises. */
  function RepairUnknown(s: OmsState, ids: seq<string>, query: OrderRecord -> Option<OrderUpdate>): Repaired {
    if ids == [] then Repaired(s, [], Ok)
    else
      var n := |ids| - 1;
      var before := RepairUnknown(s, ids[..n], query);
      if before.outcome.Raised? || ids[n] !in before.state.orders.at then before
      else
        var order := before.state.orders.at[ids[n]];
        if order.status != Unknown then before
        else match query(order)
          case None => before.(outcome := Raised(GatewayError))
          case Some(update) =>
            if update.status == Unknown then before
            else
              var applied := ApplyOp(before.state, Updated(update));
              var ids := before.ids + if applied.outcome == Ok then [order.clientOrderId] else [];
              Repaired(applied.state, ids, applied.outcome)
  }

  method RepairUnknownOrders(oms: OrderManager, query: OrderRecord -> Option<OrderUpdate>)
    returns (repaired: seq<string>, outcome: Outcome)
    requires oms.Valid()
    modifies oms, oms.store
    ensures oms.Valid()
    ensures Repaired(oms.State(), repaired, outcome) == RepairUnknown(old(oms.State()), old(oms.orders.keys), query)
  {
    hide ApplyOp, Distinct, KeySet;
    repaired := [];
    outcome := Ok;
    var ids := oms.orders.keys;
    for i := 0 to |ids|
      invariant oms.Valid() && outcome == Ok
      invariant Repaired(oms.State(), repaired, outcome) == RepairUnknown(old(oms.State()), ids[..i], query)
    {
      Prefixes(ids, i);
      if ids[i] !in oms.orders.at {
        continue;
      }
      var order := oms.orders.at[ids[i]];
      if order.status != Unknown {
        continue;
      }
      var answer := query(order);
      if answer == None {
        RepairStops(old(oms.State()), ids, query, i + 1);
        return repaired, Raised(GatewayError);
      }
      if answer.value.status != Unknown {
        outcome := oms.ApplyOrderUpdate(answer.value);
        if outcome.Raised? {
          RepairStops(old(oms.State()), ids, query, i + 1);
          return;
        }
        repaired := repaired + [order.clientOrderId];
      }
    }
    assert ids[..|ids|] == ids;
  }

  lemma {:induction false} RepairStops(s: OmsState, ids: seq<string>, query: OrderRecord -> Option<OrderUpdate>, n: nat)
    requires n <= |ids| && RepairUnknown(s, ids[..n], query).outcome.Raised?
    ensures RepairUnknown(s, ids, query) == RepairUnknown(s, ids[..n], query)
  {
    if n < |ids| {
      assert ids[..|ids| - 1][..n] == ids[..n];
      RepairStops(s, ids[..|ids| - 1], query, n);
    } else {
      assert ids[..n] == ids;
    }
  }

  /** The exchange answers about the order it was asked about. */
  ghost predicate AnswersToPoint(query: OrderRecord -> Option<OrderUpdate>) {
    forall r | query(r).Some? :: query(r).value.clientOrderId == r.clientOrderId
  }

  /** Whether the repair is meant to change a record. */
  predicate Repairable(r: OrderRecord, query: OrderRecord -> Option<OrderUpdate>) {
    r.status == Unknown && query(r).Some? && query(r).value.status != Unknown
  }

  lemma RepairOne(s: OmsState, update: OrderUpdate)
    requires update.clientOrderId in s.orders.at && ApplyOp(s, Updated(update)).outcome == Ok
    ensures var end := ApplyOp(s, Updated(update)).state; var id := update.clientOrderId;
      && end.orders.at.Keys == s.orders.at.Keys && end.orders.at[id].status == update.status
      && forall x | x in s.orders.at && x != id :: end.orders.at[x] == s.orders.at[x]
  {
  }

  /** A repair that returns got an answer about every UNKNOWN order; it has moved exactly the repairable ones, each to
      the status reported for it, and lists them; every other record is untouched. */
  lemma {:induction false} RepairsExactly(s: OmsState, ids: seq<string>, query: OrderRecord -> Option<OrderUpdate>)
    requires WellKeyed(s) && AnswersToPoint(query) && Distinct(ids) && forall id | id in ids :: id in s.orders.at
    requires RepairUnknown(s, ids, query).outcome == Ok
    ensures var end := RepairUnknown(s, ids, query);
      && end.state.orders.at.Keys == s.orders.at.Keys
      && (forall id | id in s.orders.at ::
            if id in ids && Repairable(s.orders.at[id], query)
            then id in end.ids && end.state.orders.at[id].status == query(s.orders.at[id]).value.status
            else id !in end.ids && end.state.orders.at[id] == s.orders.at[id])
      && (forall id | id in end.ids :: id in ids)
      && (forall id | id in ids && s.orders.at[id].status == Unknown :: query(s.orders.at[id]).Some?)
  {
    hide ApplyOp;
    if ids != [] {
      var n := |ids| - 1;
      var init := ids[..n];
      assert ids == init + [ids[n]];
      RepairsExactly(s, init, query);
      var before := RepairUnknown(s, init, query).state;
      var order := before.orders.at[ids[n]];
      assert order == s.orders.at[ids[n]];
      if Repairable(order, query) {
        RepairOne(before, query(order).value);
      }
    }
  }

  /** After a repair that returns, no order is UNKNOWN exactly when the exchange knew every one of them. */
  lemma RepairIsComplete(s: OmsState, query: OrderRecord -> Option<OrderUpdate>)
    requires s.orders.Valid() && WellKeyed(s) && AnswersToPoint(query)
    requires RepairUnknown(s, s.orders.keys, query).outcome == Ok
    ensures var end := RepairUnknown(s, s.orders.keys, query).state;
      && end.orders.at.Keys == s.orders.at.Keys
      && ((forall id | id in end.orders.at :: end.orders.at[id].status != Unknown)
          <==> (forall id | id in s.orders.at && s.orders.at[id].status == Unknown ::
                  Repairable(s.orders.at[id], query)))
  {
    hide RepairUnknown, Distinct, KeySet;
    assert Distinct(s.orders.keys) by {
      ValidDistinct(s.orders);
    }
    ValidKeys(s.orders);
    RepairsExactly(s, s.orders.keys, query);
  }

  lemma ValidDistinct<K, V>(d: Dict<K, V>)
    requires d.Valid()
    ensures Distinct(d.keys)
  {
  }
}
