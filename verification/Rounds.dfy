/** What one round of `simulate_fills` fills (src/mm/exchange/paper.py:196-219). */
module Rounds {
  import opened Dicts
  import opened Types
  import opened Paper
  import L = Ledger

  /** The market has reached the order's limit price: the ask a bid, the bid an ask. */
  predicate MarketReached(order: PaperOrder, snapshot: MarketSnapshot) {
    && order.request.symbol == snapshot.symbol && order.request.size > 0.0 && order.request.price.Some?
    && if order.request.side == Buy then snapshot.ask <= order.request.price.value
       else order.request.price.value <= snapshot.bid
  }

  function ReachedIds(open: map<string, PaperOrder>, ids: seq<string>, snapshot: MarketSnapshot): seq<string> {
    if ids == [] then []
    else
      var n := |ids| - 1;
      var rest := ReachedIds(open, ids[..n], snapshot);
      if ids[n] in open && MarketReached(open[ids[n]], snapshot) then rest + [ids[n]] else rest
  }

  /** A fill of half of the order's size, at the order's own limit price. */
  predicate HalfOf(fill: FillEvent, order: PaperOrder) {
    && fill.clientOrderId == order.request.clientOrderId && fill.exchangeOrderId == Some(order.exchangeOrderId)
    && fill.symbol == order.request.symbol && fill.side == order.request.side
    && Some(fill.price) == order.request.price && fill.size == order.request.size / 2.0
  }

  /** The fate of one open order: filled by half, or gone with its second half, or untouched. */
  predicate Fate(order: PaperOrder, filled: bool, end: map<string, PaperOrder>, id: string) {
    if !filled then id in end && end[id] == order
    else if order.remaining == order.request.size then
      id in end && end[id] == order.(remaining := order.request.size / 2.0)
    else id !in end
  }

  ghost predicate Round(ex: Exchange, ids: seq<string>, snapshot: MarketSnapshot, e: ExStep) {
    var reached := ReachedIds(ex.open.at, ids, snapshot);
    && L.WellFormed(e.exchange) && e.exchange.rules == ex.rules
    && |e.fills| == |reached|
    && (forall i | 0 <= i < |reached| :: reached[i] in ex.open.at && HalfOf(e.fills[i], ex.open.at[reached[i]]))
    && (forall id | id in ex.open.at ::
          Fate(ex.open.at[id], id in ids && MarketReached(ex.open.at[id], snapshot), e.exchange.open.at, id))
    && (forall id | id in e.exchange.open.at :: id in ex.open.at)
  }

  lemma SettlesIsReached(ex: Exchange, id: string, snapshot: MarketSnapshot)
    requires L.WellFormed(ex) && id in ex.open.at
    ensures L.Settles(ex, id, snapshot) <==> MarketReached(ex.open.at[id], snapshot)
  {
    assert L.OrderFits(ex, id, ex.open.at[id]);
    if FillSize(ex.open.at[id]) > 0.0 {
      L.HalfFill(ex.open.at[id]);
    }
  }

  lemma ReachedFillIsHalf(ex: Exchange, id: string, snapshot: MarketSnapshot)
    requires L.WellFormed(ex) && L.Settles(ex, id, snapshot)
    ensures |TryFill(ex, id, snapshot).fills| == 1 && HalfOf(TryFill(ex, id, snapshot).fills[0], ex.open.at[id])
  {
    L.SettledOrder(ex, id, snapshot);
  }

  lemma NotSettled(ex: Exchange, id: string, snapshot: MarketSnapshot)
    requires !L.Settles(ex, id, snapshot)
    ensures TryFill(ex, id, snapshot) == ExStep(ex, [])
  {
  }

  lemma ReachedAppend(open: map<string, PaperOrder>, ids: seq<string>, id: string, snapshot: MarketSnapshot)
    ensures ReachedIds(open, ids + [id], snapshot)
         == ReachedIds(open, ids, snapshot) + if id in open && MarketReached(open[id], snapshot) then [id] else []
  {
    assert (ids + [id])[..|ids|] == ids;
  }

  lemma FateElsewhere(order: PaperOrder, filled: bool, a: map<string, PaperOrder>, b: map<string, PaperOrder>,
      id: string)
    requires (id in a <==> id in b) && (id in a ==> a[id] == b[id])
    ensures Fate(order, filled, a, id) == Fate(order, filled, b, id)
  {
  }

  lemma StepSkips(ex: Exchange, ids: seq<string>, id: string, snapshot: MarketSnapshot, before: ExStep)
    requires Round(ex, ids, snapshot, before) && (id in ex.open.at ==> !MarketReached(ex.open.at[id], snapshot))
    ensures Round(ex, ids + [id], snapshot, ExStep(before.exchange, before.fills + []))
  {
    hide L.WellFormed, MarketReached, HalfOf, Fate, ReachedIds;
    ReachedAppend(ex.open.at, ids, id, snapshot);
    assert before.fills + [] == before.fills;
    assert forall x | x in ids + [id] :: x in ids || x == id;
  }

  lemma StepFills(ex: Exchange, ids: seq<string>, id: string, snapshot: MarketSnapshot, before: ExStep, last: ExStep)
    requires Round(ex, ids, snapshot, before) && id !in ids && id in ex.open.at
    requires MarketReached(ex.open.at[id], snapshot)
    requires L.WellFormed(last.exchange) && last.exchange.rules == ex.rules
    requires |last.fills| == 1 && HalfOf(last.fills[0], ex.open.at[id])
    requires Fate(ex.open.at[id], true, last.exchange.open.at, id)
    requires forall x | x in before.exchange.open.at && x != id ::
      x in last.exchange.open.at && last.exchange.open.at[x] == before.exchange.open.at[x]
    requires forall x | x in last.exchange.open.at :: x in before.exchange.open.at
    ensures Round(ex, ids + [id], snapshot, ExStep(last.exchange, before.fills + last.fills))
  {
    hide L.WellFormed, MarketReached, HalfOf, Fate, ReachedIds;
    ReachedAppend(ex.open.at, ids, id, snapshot);
    forall x | x in ex.open.at
      ensures Fate(ex.open.at[x], x in ids + [id] && MarketReached(ex.open.at[x], snapshot), last.exchange.open.at, x)
    {
      if x != id {
        FateElsewhere(ex.open.at[x], x in ids && MarketReached(ex.open.at[x], snapshot), before.exchange.open.at,
                      last.exchange.open.at, x);
      }
    }
  }

  lemma UntouchedSoFar(order: PaperOrder, open: map<string, PaperOrder>, id: string)
    requires Fate(order, false, open, id)
    ensures id in open && open[id] == order
  {
  }

  lemma FilledFate(ex: Exchange, id: string, snapshot: MarketSnapshot)
    requires L.WellFormed(ex) && L.Settles(ex, id, snapshot)
    ensures var after := TryFill(ex, id, snapshot).exchange;
      && L.WellFormed(after) && after.rules == ex.rules
      && Fate(ex.open.at[id], true, after.open.at, id)
      && (forall x | x in ex.open.at && x != id :: x in after.open.at && after.open.at[x] == ex.open.at[x])
      && (forall x | x in after.open.at :: x in ex.open.at)
  {
    hide TryFill, L.WellFormed, Without;
    L.SettledOrder(ex, id, snapshot);
    L.FillWellFormed(ex, id, snapshot);
  }

  lemma StepRound(ex: Exchange, ids: seq<string>, id: string, snapshot: MarketSnapshot, before: ExStep)
    requires L.WellFormed(ex) && Round(ex, ids, snapshot, before) && id !in ids
    ensures var last := TryFill(before.exchange, id, snapshot);
      Round(ex, ids + [id], snapshot, ExStep(last.exchange, before.fills + last.fills))
  {
    hide TryFill, L.WellFormed, L.Settles, MarketReached, HalfOf, Fate, ReachedIds;
    var now := before.exchange;
    if id in ex.open.at {
      UntouchedSoFar(ex.open.at[id], now.open.at, id);
      SettlesIsReached(now, id, snapshot);
    } else {
      L.SettlesOpen(now, id, snapshot);
    }
    if L.Settles(now, id, snapshot) {
      ReachedFillIsHalf(now, id, snapshot);
      FilledFate(now, id, snapshot);
      StepFills(ex, ids, id, snapshot, before, TryFill(now, id, snapshot));
    } else {
      NotSettled(now, id, snapshot);
      StepSkips(ex, ids, id, snapshot, before);
    }
  }

  lemma {:induction false} RunRound(ex: Exchange, ids: seq<string>, snapshot: MarketSnapshot)
    requires L.WellFormed(ex) && Distinct(ids)
    ensures Round(ex, ids, snapshot, RunEx(ex, RoundOps(ids, snapshot)))
  {
    var ops := RoundOps(ids, snapshot);
    if ids == [] {
      assert ops == [];
    } else {
      var n := |ids| - 1;
      assert ops[..n] == RoundOps(ids[..n], snapshot);
      assert ids == ids[..n] + [ids[n]];
      RunRound(ex, ids[..n], snapshot);
      StepRound(ex, ids[..n], ids[n], snapshot, RunEx(ex, ops[..n]));
      hide Round, TryFill;
    }
  }

  /** A round of `simulate_fills` fills exactly the open orders that the market has reached, once each and in order,
      each for half of its size at its own limit price; an order whose second half is filled is gone, and all others
      are untouched. */
  lemma RoundFillsExactly(ex: Exchange, snapshot: MarketSnapshot)
    requires L.WellFormed(ex)
    ensures Round(ex, ex.open.keys, snapshot, SimulateFills(ex, snapshot))
    ensures forall id | id in ex.open.at :: id in ex.open.keys
  {
    ValidKeys(ex.open);
    RunRound(ex, ex.open.keys, snapshot);
  }
}
