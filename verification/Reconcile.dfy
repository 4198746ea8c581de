/** Reconciliation with the exchange (src/mm/oms/manager.py:231-251, src/mm/oms/reconcile.py). */
module Reconcile {
  import opened Dicts
  import opened Types
  import opened OrderState
  import opened Oms
  import opened OmsRuns
  import opened OrderManagers

  // ------------------------------------------------------------------------------- the marking loop

  /** Marking live records UNKNOWN never raises, and touches nothing else. */
  lemma {:induction false} MarksAll(s: OmsState, ids: seq<string>)
    requires forall id | id in ids :: IsLive(s, id)
    ensures var t := RunOps(s, UnknownMarks(ids));
      && t.outcome == Ok && t.state.orders.keys == s.orders.keys && t.state.orders.at.Keys == s.orders.at.Keys
      && forall id | id in s.orders.at ::
           t.state.orders.at[id] == if id in ids then s.orders.at[id].(status := Unknown) else s.orders.at[id]
  {
    hide ApplyOp;
    if ids != [] {
      var n := |ids| - 1;
      var init := ids[..n];
      assert ids == init + [ids[n]];
      assert UnknownMarks(ids)[..n] == UnknownMarks(init);
      MarksAll(s, init);
      assert IsLive(s, ids[n]);
      var before := RunOps(s, UnknownMarks(init)).state;
      MarkOne(before, ids[n]);
    }
  }

  lemma MarkOne(s: OmsState, id: string)
    requires IsLive(s, id)
    ensures var t := ApplyOp(s, MarkedUnknown(id));
      && t.outcome == Ok && t.state.orders.keys == s.orders.keys
      && t.state.orders.at == s.orders.at[id := s.orders.at[id].(status := Unknown)]
  {
    LiveCanBecomeUnknown(s.orders.at[id].status);
  }

  lemma LiveCanBecomeUnknown(status: OrderStatus)
    ensures !IsTerminal(status) ==> CanTransition(status, Unknown)
  {
  }

  lemma {:induction false} OpenIdsMembers(keys: seq<string>, at: map<string, OrderRecord>, symbol: Option<string>)
    requires forall k | k in keys :: k in at && at[k].clientOrderId == k
    ensures var ids := RecordIds(OpenOrdersOf(keys, at, symbol));
      && (forall id | id in ids :: id in keys && IsOpen(at[id].status) && Matches(at[id], symbol))
      && (forall id | id in keys :: IsOpen(at[id].status) && Matches(at[id], symbol) ==> id in ids)
  {
    if keys != [] {
      var n := |keys| - 1;
      var init := keys[..n];
      assert keys == init + [keys[n]];
      OpenIdsMembers(init, at, symbol);
      var before := OpenOrdersOf(init, at, symbol);
      var all := OpenOrdersOf(keys, at, symbol);
      if all != before {
        assert RecordIds(all) == RecordIds(before) + [keys[n]];
      }
    }
  }

  lemma {:induction false} MissingMembers(ids: seq<string>, seen: set<string>)
    ensures forall id | id in Missing(ids, seen) :: id in ids && id !in seen
    ensures forall id | id in ids :: id !in seen ==> id in Missing(ids, seen)
  {
    if ids != [] {
      var n := |ids| - 1;
      assert ids == ids[..n] + [ids[n]];
      MissingMembers(ids[..n], seen);
    }
  }

  // ------------------------------------------------------------------------------- the update loop

  predicate DistinctIds(updates: seq<OrderUpdate>) {
    forall i, j | 0 <= i < j < |updates| :: updates[i].clientOrderId != updates[j].clientOrderId
  }

  /** A record after a listed update: an orphan if the id was new, else the old terms with the listed status. */
  predicate Absorbed(s: OmsState, end: OmsState, update: OrderUpdate) {
    var id := update.clientOrderId;
    && id in end.orders.at
    && if id in s.orders.at then
         SameTerms(end.orders.at[id], s.orders.at[id]) && end.orders.at[id].status == update.status
       else
         end.orders.at[id] == OrphanRecord(update)
  }

  lemma AcceptedRemote(r: OrderRecord, update: OrderUpdate)
    ensures var t := TouchRecord(r, RemoteUpdated(update));
      SameTerms(t.record, r) && (t.outcome == Ok ==> t.record.status == update.status)
  {
  }

  /** An applied update is absorbed, if its record was as in `s`. */
  lemma LastAbsorbed(s: OmsState, before: OmsState, update: OrderUpdate)
    requires var id := update.clientOrderId;
      (id in before.orders.at <==> id in s.orders.at) && (id in s.orders.at ==> before.orders.at[id] == s.orders.at[id])
    requires ApplyOp(before, RemoteUpdated(update)).outcome == Ok
    ensures Absorbed(s, ApplyOp(before, RemoteUpdated(update)).state, update)
  {
    hide TouchRecord, OrphanRecord, SameTerms;
    var id := update.clientOrderId;
    if id in s.orders.at {
      AcceptedRemote(before.orders.at[id], update);
    }
  }

  lemma StillAbsorbed(s: OmsState, before: OmsState, op: Op, update: OrderUpdate)
    requires Absorbed(s, before, update) && OpId(op) != update.clientOrderId
    ensures Absorbed(s, ApplyOp(before, op).state, update)
  {
    hide ApplyOp, OrphanRecord, SameTerms;
    StepElsewhere(before, op, update.clientOrderId);
  }

  lemma UpdateIdsAppend(updates: seq<OrderUpdate>, update: OrderUpdate)
    ensures UpdateIds(updates + [update]) == UpdateIds(updates) + {update.clientOrderId}
  {
  }

  lemma {:induction false} UpdatesAbsorbed(s: OmsState, updates: seq<OrderUpdate>)
    requires DistinctIds(updates) && RunOps(s, RemoteUpdates(updates)).outcome == Ok
    ensures var end := RunOps(s, RemoteUpdates(updates)).state;
      && (forall i | 0 <= i < |updates| :: Absorbed(s, end, updates[i]))
      && (forall id | id in end.orders.at :: id in s.orders.at || id in UpdateIds(updates))
      && (forall id | id in s.orders.at ::
            id in end.orders.at && (id !in UpdateIds(updates) ==> end.orders.at[id] == s.orders.at[id]))
  {
    hide ApplyOp, Absorbed;
    if updates != [] {
      var n := |updates| - 1;
      var init, last := updates[..n], updates[n];
      assert updates == init + [last];
      assert RemoteUpdates(updates)[..n] == RemoteUpdates(init);
      UpdatesAbsorbed(s, init);
      UpdateIdsAppend(init, last);
      var before := RunOps(s, RemoteUpdates(init)).state;
      var end := RunOps(s, RemoteUpdates(updates)).state;
      var op := RemoteUpdated(last);
      assert last.clientOrderId !in UpdateIds(init);
      LastAbsorbed(s, before, last);
      forall i | 0 <= i < n
        ensures Absorbed(s, end, updates[i])
      {
        assert updates[i] == init[i];
        StillAbsorbed(s, before, op, init[i]);
      }
      forall id | id != last.clientOrderId
        ensures id in end.orders.at <==> id in before.orders.at
        ensures id in before.orders.at ==> end.orders.at[id] == before.orders.at[id]
      {
        StepElsewhere(before, op, id);
      }
      AbsorbedHolds(s, end, last);
    }
  }

  lemma AbsorbedHolds(s: OmsState, end: OmsState, update: OrderUpdate)
    requires Absorbed(s, end, update)
    ensures update.clientOrderId in end.orders.at
  {
  }

  lemma {:induction false} UpdatesKeepKeys(s: OmsState, updates: seq<OrderUpdate>)
    requires s.orders.Valid() && WellKeyed(s)
    ensures var end := RunOps(s, RemoteUpdates(updates)).state; end.orders.Valid() && WellKeyed(end)
  {
    var n := RunOpsIsPrefix(s, RemoteUpdates(updates));
    RunValid(s, RemoteUpdates(updates)[..n]);
  }

  // ------------------------------------------------------------------------------- exactness

  /** The records `unknown_count` counts. */
  function UnknownCountOf(keys: seq<string>, at: map<string, OrderRecord>, symbol: Option<string>): nat {
    if keys == [] then 0
    else
      var n := |keys| - 1;
      UnknownCountOf(keys[..n], at, symbol)
      + if keys[n] in at && at[keys[n]].status == Unknown && Matches(at[keys[n]], symbol) then 1 else 0
  }

  function UnknownCount(s: OmsState, symbol: Option<string>): nat {
    UnknownCountOf(s.orders.keys, s.orders.at, symbol)
  }

  lemma {:induction false} UnknownCountZero(keys: seq<string>, at: map<string, OrderRecord>, symbol: Option<string>)
    requires forall k | k in keys :: k in at
    ensures UnknownCountOf(keys, at, symbol) == 0
      <==> forall k | k in keys :: !(at[k].status == Unknown && Matches(at[k], symbol))
  {
    if keys != [] {
      var n := |keys| - 1;
      assert keys == keys[..n] + [keys[n]];
      UnknownCountZero(keys[..n], at, symbol);
    }
  }

  /** The orders of the symbol that are UNKNOWN. */
  ghost function UnknownIds(keys: seq<string>, at: map<string, OrderRecord>, symbol: Option<string>): set<string> {
    set k | k in keys && k in at && at[k].status == Unknown && (symbol == None || symbol == Some(at[k].symbol))
  }

  lemma UnknownStep(keys: seq<string>, k: string, at: map<string, OrderRecord>, symbol: Option<string>)
    requires k !in keys && k in at
    ensures var before := UnknownIds(keys, at, symbol);
      k !in before
      && UnknownIds(keys + [k], at, symbol)
           == if at[k].status == Unknown && Matches(at[k], symbol) then before + {k} else before
  {
  }

  lemma {:induction false} UnknownCounted(keys: seq<string>, at: map<string, OrderRecord>, symbol: Option<string>)
    requires Distinct(keys) && forall k | k in keys :: k in at
    ensures UnknownCountOf(keys, at, symbol) == |UnknownIds(keys, at, symbol)|
  {
    if keys == [] {
      assert UnknownIds(keys, at, symbol) == {};
    } else {
      var n := |keys| - 1;
      assert keys == keys[..n] + [keys[n]];
      UnknownCounted(keys[..n], at, symbol);
      UnknownStep(keys[..n], keys[n], at, symbol);
    }
  }

  /** `unknown_count` is the number of the symbol's UNKNOWN orders. */
  lemma UnknownCountExactly(s: OmsState, symbol: Option<string>)
    requires s.orders.Valid()
    ensures UnknownCount(s, symbol)
         == |set id | id in s.orders.at && s.orders.at[id].status == Unknown
                      && (symbol == None || symbol == Some(s.orders.at[id].symbol))|
  {
    ValidKeys(s.orders);
    UnknownCounted(s.orders.keys, s.orders.at, symbol);
    var all := set id | id in s.orders.at && s.orders.at[id].status == Unknown
                        && (symbol == None || symbol == Some(s.orders.at[id].symbol));
    assert UnknownIds(s.orders.keys, s.orders.at, symbol) == all;
  }

  lemma NoUnknown(s: OmsState, symbol: Option<string>)
    requires s.orders.Valid()
    ensures UnknownCount(s, symbol) == 0
      <==> forall id | id in s.orders.at :: !(s.orders.at[id].status == Unknown && Matches(s.orders.at[id], symbol))
  {
    ValidKeys(s.orders);
    UnknownCountZero(s.orders.keys, s.orders.at, symbol);
  }

  /** The exchange's answer fits the query, also for the orders already known locally. */
  predicate FitsQuery(s: OmsState, updates: seq<OrderUpdate>, symbol: Option<string>) {
    forall i | 0 <= i < |updates| ::
      && (symbol.None? || updates[i].symbol == symbol.value)
      && (updates[i].clientOrderId in s.orders.at ==> Matches(s.orders.at[updates[i].clientOrderId], symbol))
  }

  /** Once its updates are applied, a reconciliation returns normally, and every local open order of the symbol is then
      listed by the exchange; unlisted records are untouched unless they were open and of the symbol, and those become
      UNKNOWN. */
  lemma ReconcileMarksExactly(s: OmsState, updates: seq<OrderUpdate>, symbol: Option<string>)
    requires s.orders.Valid() && WellKeyed(s) && DistinctIds(updates)
    requires RunOps(s, RemoteUpdates(updates)).outcome == Ok
    ensures var t := Reconciled(s, updates, symbol, true); var end := t.state;
      && t.outcome == Ok && end.orders.Valid() && WellKeyed(end)
      && (forall id | id in end.orders.at :: id in s.orders.at || id in UpdateIds(updates))
      && (forall i | 0 <= i < |updates| :: Absorbed(s, end, updates[i]))
      && (forall id | id in s.orders.at && id !in UpdateIds(updates) ::
            && id in end.orders.at
            && end.orders.at[id] ==
                 if IsOpen(s.orders.at[id].status) && Matches(s.orders.at[id], symbol)
                 then s.orders.at[id].(status := Unknown) else s.orders.at[id])
  {
    hide RunOps, OpenOrdersOf, Missing, OrphanRecord, Distinct, KeySet, SameTerms, DistinctIds;
    UpdatesAbsorbed(s, updates);
    UpdatesKeepKeys(s, updates);
    var mid := RunOps(s, RemoteUpdates(updates)).state;
    ValidKeys(mid.orders);
    OpenIdsMembers(mid.orders.keys, mid.orders.at, symbol);
    var open := RecordIds(OpenOrders(mid, symbol));
    var ids := Missing(open, UpdateIds(updates));
    MissingMembers(open, UpdateIds(updates));
    MarksAll(mid, ids);
    var end := RunOps(mid, UnknownMarks(ids)).state;
    forall i | 0 <= i < |updates|
      ensures Absorbed(s, end, updates[i])
    {
      assert Absorbed(s, mid, updates[i]);
      assert updates[i].clientOrderId !in ids;
    }
  }

  /** Without marking, a reconciliation only applies its updates. */
  lemma UnmarkedExactly(s: OmsState, updates: seq<OrderUpdate>, symbol: Option<string>)
    requires DistinctIds(updates) && Reconciled(s, updates, symbol, false).outcome == Ok
    ensures var end := Reconciled(s, updates, symbol, false).state;
      && (forall i | 0 <= i < |updates| :: Absorbed(s, end, updates[i]))
      && (forall id | id in end.orders.at :: id in s.orders.at || id in UpdateIds(updates))
      && (forall id | id in s.orders.at && id !in UpdateIds(updates) ::
            id in end.orders.at && end.orders.at[id] == s.orders.at[id])
  {
    hide RunOps, Absorbed;
    UpdatesAbsorbed(s, updates);
  }

  /** A reconciliation reports no UNKNOWN order of the symbol exactly when every listed order was known and is listed
      with a definite status, every local open order of the symbol is listed, and no unlisted one was UNKNOWN. */
  predicate CleanAnswer(s: OmsState, updates: seq<OrderUpdate>, symbol: Option<string>) {
    && (forall i | 0 <= i < |updates| :: updates[i].clientOrderId in s.orders.at && updates[i].status != Unknown)
    && (forall id | id in s.orders.at && Matches(s.orders.at[id], symbol) && id !in UpdateIds(updates) ::
          IsTerminal(s.orders.at[id].status))
  }

  lemma CleanReconciliation(s: OmsState, updates: seq<OrderUpdate>, symbol: Option<string>)
    requires s.orders.Valid() && WellKeyed(s) && DistinctIds(updates) && FitsQuery(s, updates, symbol)
    requires RunOps(s, RemoteUpdates(updates)).outcome == Ok
    ensures UnknownCount(Reconciled(s, updates, symbol, true).state, symbol) == 0 <==> CleanAnswer(s, updates, symbol)
  {
    hide Reconciled, RunOps, UnknownCount, Distinct, KeySet;
    ReconcileMarksExactly(s, updates, symbol);
    var end := Reconciled(s, updates, symbol, true).state;
    NoUnknown(end, symbol);
    if CleanAnswer(s, updates, symbol) {
      forall id | id in end.orders.at
        ensures !(end.orders.at[id].status == Unknown && Matches(end.orders.at[id], symbol))
      {
        if id in UpdateIds(updates) {
          var i :| 0 <= i < |updates| && updates[i].clientOrderId == id;
          assert Absorbed(s, end, updates[i]);
        }
      }
    } else if UnknownCount(end, symbol) == 0 {
      forall i | 0 <= i < |updates|
        ensures updates[i].clientOrderId in s.orders.at && updates[i].status != Unknown
      {
        assert Absorbed(s, end, updates[i]);
      }
      forall id | id in s.orders.at && Matches(s.orders.at[id], symbol) && id !in UpdateIds(updates)
        ensures IsTerminal(s.orders.at[id].status)
      {
        assert id in end.orders.at;
      }
      assert false;
    }
  }

  /** A clean reconciliation is exact: the local open orders of the symbol are the listed ones whose listed status is
      not terminal, with the listed statuses. */
  lemma ReconciliationIsExact(s: OmsState, updates: seq<OrderUpdate>, symbol: Option<string>)
    requires s.orders.Valid() && WellKeyed(s) && DistinctIds(updates) && FitsQuery(s, updates, symbol)
    requires RunOps(s, RemoteUpdates(updates)).outcome == Ok
    requires UnknownCount(Reconciled(s, updates, symbol, true).state, symbol) == 0
    ensures var end := Reconciled(s, updates, symbol, true).state;
      && (forall i | 0 <= i < |updates| ::
            && updates[i].clientOrderId in s.orders.at && updates[i].clientOrderId in end.orders.at
            && end.orders.at[updates[i].clientOrderId].status == updates[i].status)
      && (forall id | id in end.orders.at ::
            IsOpen(end.orders.at[id].status) && Matches(end.orders.at[id], symbol)
            <==> exists i :: 0 <= i < |updates| && updates[i].clientOrderId == id && !IsTerminal(updates[i].status))
  {
    ReconcileMarksExactly(s, updates, symbol);
    CleanReconciliation(s, updates, symbol);
    var end := Reconciled(s, updates, symbol, true).state;
    forall i | 0 <= i < |updates|
      ensures updates[i].clientOrderId in end.orders.at
           && end.orders.at[updates[i].clientOrderId].status == updates[i].status
           && updates[i].status != Unknown
           && Matches(end.orders.at[updates[i].clientOrderId], symbol)
    {
      assert Absorbed(s, end, updates[i]);
    }
    forall id | id in end.orders.at
      ensures IsOpen(end.orders.at[id].status) && Matches(end.orders.at[id], symbol)
        <==> exists i :: 0 <= i < |updates| && updates[i].clientOrderId == id && !IsTerminal(updates[i].status)
    {
      if IsOpen(end.orders.at[id].status) && Matches(end.orders.at[id], symbol) {
        assert id in UpdateIds(updates);
        var i :| 0 <= i < |updates| && updates[i].clientOrderId == id;
        assert end.orders.at[id].status == updates[i].status;
      }
    }
  }

  // ------------------------------------------------------------------------------- the report

  datatype Report = Report(
    symbol: Option<string>, exchangeOpenCount: nat, localOpenCountBefore: nat, localOpenCountAfter: nat,
    unknownCount: nat, orphanCount: nat)

  method CountUnknown(oms: OrderManager, symbol: Option<string>) returns (count: nat)
    requires oms.Valid()
    ensures count == UnknownCount(oms.State(), symbol)
  {
    count := 0;
    ValidKeys(oms.orders);
    var keys := oms.orders.keys;
    for i := 0 to |keys|
      invariant count == UnknownCountOf(keys[..i], oms.orders.at, symbol)
    {
      Prefixes(keys, i);
      var order := oms.orders.at[keys[i]];
      if order.status == Unknown && (symbol.None? || order.symbol == symbol.value) {
        count := count + 1;
      }
    }
    assert keys[..|keys|] == keys;
  }

  /** `ReconciliationService.reconcile_open_orders`, given what `get_open_orders` answered. */
  method ReconcileOpenOrders(oms: OrderManager, updates: seq<OrderUpdate>, symbol: Option<string>, markMissing: bool)
    returns (report: Report, outcome: Outcome)
    requires oms.Valid()
    modifies oms, oms.store
    ensures oms.Valid()
    ensures Step(oms.State(), outcome) == Reconciled(old(oms.State()), updates, symbol, markMissing)
    ensures outcome == Ok ==>
      && report.symbol == symbol && report.exchangeOpenCount == |updates|
      && report.localOpenCountBefore == |set id | id in RecordIds(OpenOrders(old(oms.State()), symbol))|
      && report.localOpenCountAfter == |OpenOrders(oms.State(), symbol)|
      && report.unknownCount == UnknownCount(oms.State(), symbol)
      && report.orphanCount == |UpdateIds(updates) - old(oms.orders.at.Keys)|
  {
    var openBefore := oms.ListOpenOrders(symbol);
    var ids := RecordIds(openBefore);
    var beforeIds := set id | id in ids;
    var knownBefore := oms.orders.at.Keys;
    report := Report(symbol, |updates|, |beforeIds|, 0, 0, 0);
    outcome := oms.ReconcileOpenOrders(updates, symbol, markMissing);
    if outcome.Raised? {
      return;
    }
    var afterOpen := oms.ListOpenOrders(symbol);
    var unknown := CountUnknown(oms, symbol);
    var orphans := UpdateIds(updates) - knownBefore;
    report := Report(symbol, |updates|, |beforeIds|, |afterOpen|, unknown, |orphans|);
  }
}
