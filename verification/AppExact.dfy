/** What the application asks the exchange for, exactly (src/mm/app.py:159-206, 320-340). */
module AppExact {
  import opened Dicts
  import opened Types
  import opened Oms
  import opened Quote
  import opened Risk
  import opened App

  // ------------------------------------------------------------------------------- requests

  function IsCancel(): OrderIntent -> bool {
    (i: OrderIntent) => i.action == Cancel && i.clientOrderId != None
  }

  /** The cancel requests are the cancel intents that name an order, one for each, in order. */
  lemma {:induction false} CancelsExactly(intents: seq<OrderIntent>)
    ensures var cancels, requests := Filter(intents, IsCancel()), CancelRequestsOf(intents);
      && |requests| == |cancels|
      && forall k | 0 <= k < |requests| ::
           requests[k].symbol == cancels[k].symbol && Some(requests[k].clientOrderId) == cancels[k].clientOrderId
           && requests[k].exchangeOrderId == None
  {
    if intents != [] {
      var n := |intents| - 1;
      CancelsExactly(intents[..n]);
      FilterAppend(intents[..n], intents[n], IsCancel());
      assert intents == intents[..n] + [intents[n]];
    }
  }

  /** The places the risk engine approves in this state. */
  function IsApproved(view: RiskView, s: OmsState): OrderIntent -> bool {
    (i: OrderIntent) => i.action == Place && Validate(view, i, s).Approved?
  }

  /** The request asks for what the intent says. */
  predicate AsksFor(r: OrderRequest, i: OrderIntent) {
    && r.symbol == i.symbol && Some(r.side) == i.side && r.orderType == i.orderType && Some(r.size) == i.size
    && r.price == i.price && Some(r.clientOrderId) == i.clientOrderId && r.strategy == i.strategy && r.level == i.level
  }

  /** What a screening does with one more intent. */
  ghost predicate Stops(view: RiskView, s: OmsState, i: OrderIntent) {
    var verdict := Validate(view, i, s);
    i.action == Place && (verdict == Crashed || (verdict.Approved? && i.clientOrderId == None))
  }

  /** A screening returns exactly when no place makes the engine raise and no approved one lacks an id. */
  lemma {:induction false} ScreenReturns(view: RiskView, s: OmsState, intents: seq<OrderIntent>)
    ensures Screen(view, s, intents).outcome == Ok <==> forall i | i in intents :: !Stops(view, s, i)
  {
    hide Validate, RequestFrom;
    if intents != [] {
      var n := |intents| - 1;
      assert intents == intents[..n] + [intents[n]];
      ScreenReturns(view, s, intents[..n]);
      assert intents[n] in intents && forall i | i in intents[..n] :: i in intents;
    }
  }

  /** One that returns requests the approved places, one for each, in order. */
  lemma {:induction false} ScreenExactly(view: RiskView, s: OmsState, intents: seq<OrderIntent>)
    ensures var r := Screen(view, s, intents); var approved := Filter(intents, IsApproved(view, s));
      r.outcome == Ok ==>
        |r.requests| == |approved| && forall k | 0 <= k < |approved| :: AsksFor(r.requests[k], approved[k])
  {
    hide Validate;
    if intents != [] {
      var n := |intents| - 1;
      assert intents == intents[..n] + [intents[n]];
      ScreenExactly(view, s, intents[..n]);
      FilterAppend(intents[..n], intents[n], IsApproved(view, s));
      if intents[n].action == Place && Validate(view, intents[n], s).Approved? {
        ApprovalMeans(view, intents[n], s);
      }
    }
  }

  /** `cancel_all` asks for every open order, by its exchange id too. */
  lemma {:induction false} CancelEachExactly(orders: seq<OrderRecord>)
    ensures var requests := CancelEach(orders);
      && |requests| == |orders|
      && forall k | 0 <= k < |orders| ::
           requests[k] == CancelRequest(orders[k].symbol, orders[k].clientOrderId, orders[k].exchangeOrderId)
  {
    if orders != [] {
      CancelEachExactly(orders[..|orders| - 1]);
    }
  }

  // ------------------------------------------------------------------------------- batches

  function HasKey<T>(key: T -> string, k: string): T -> bool {
    x => key(x) == k
  }

  /** The batch of a symbol is the requests for it, in order. */
  lemma {:induction false} GroupIsFiltered<T>(items: seq<T>, key: T -> string, k: string)
    ensures var groups := GroupBy(items, key).at;
      && (k in groups <==> Filter(items, HasKey(key, k)) != [])
      && (k in groups ==> groups[k] == Filter(items, HasKey(key, k)))
  {
    if items != [] {
      var n := |items| - 1;
      GroupIsFiltered(items[..n], key, k);
      FilterAppend(items[..n], items[n], HasKey(key, k));
      assert items == items[..n] + [items[n]];
      assert HasKey(key, k)(items[n]) <==> key(items[n]) == k;
    }
  }

  /** The batches come in the order in which their symbols first appear. */
  lemma {:induction false} GroupsInOrder<T>(items: seq<T>, key: T -> string, n: nat)
    requires n <= |items|
    ensures var some, all := GroupBy(items[..n], key).keys, GroupBy(items, key).keys;
      |some| <= |all| && some == all[..|some|]
  {
    if n < |items| {
      var m := |items| - 1;
      assert items[..m][..n] == items[..n];
      GroupsInOrder(items[..m], key, n);
    } else {
      assert items[..n] == items;
    }
  }

  // ------------------------------------------------------------------------------- requote times

  /** A tick whose fills return keeps the requote times its differ decided, also when the differ or a later call
      raises; a tick whose fills raise has none. It never touches the latched reasons. */
  lemma TickKeepsTimes(a: AppState, t: TickInput)
    ensures var filled, end := RunOps(a.oms, OmsRuns.FillOps(t.fills)), Tick(a, t).state;
      && end.reasons == a.reasons
      && if filled.outcome != Ok then end == a.(oms := filled.state) && Tick(a, t).outcome == filled.outcome
         else
           var built := BuildIntents(QuoteView(t.view.rules, t.minRequoteMs, t.view.markets, t.quoteNowMs, t.newId),
                                     t.quotes, OpenOrders(filled.state, None), a.last);
           && end.last == built.last
           && (built.outcome != Ok ==>
                 Tick(a, t) == AppStep(AppState(filled.state, built.last, a.reasons), built.outcome))
  {
    hide BuildIntents, Execute, RunOps, OpenOrders;
  }
}
