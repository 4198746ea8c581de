/** When a fill or an order update is refused, and what it leaves behind (src/mm/oms/manager.py:190-214, 264-276). */
module Refusals {
  import opened Dicts
  import opened Types
  import opened OrderState
  import opened Oms

  /** A fill no transition allows: the order has not been submitted or has ended without filling, or the fill leaves a
      rest on an order that is being canceled or is already full. */
  predicate FillRefused(r: OrderRecord, fill: FillEvent) {
    || r.status in {Created, Canceled, PartiallyCanceled, Rejected, Expired}
    || (r.status in {Canceling, Filled} && r.filledSize + fill.size < r.size)
  }

  /** A fill whose average can be computed raises OrderStateError exactly when `FillRefused` says so; in particular
      never on an UNKNOWN, open or partially filled order. */
  lemma FillRefusedExactly(r: OrderRecord, fill: FillEvent)
    requires AfterFill(r, fill).Some?
    ensures TouchFill(r, fill).outcome == Raised(OrderStateError) <==> FillRefused(r, fill)
    ensures TouchFill(r, fill).outcome == Ok <==> !FillRefused(r, fill)
  {
    hide BlendedPrice;
  }

  /** The average cannot be computed exactly when a priced, partly filled record ends at a filled size of zero. */
  lemma FillDividesByZeroExactly(r: OrderRecord, fill: FillEvent)
    ensures TouchFill(r, fill).outcome == Raised(DivisionByZero)
      <==> r.avgFillPrice.Some? && r.filledSize > 0.0 && Min(r.filledSize + fill.size, r.size) == 0.0
  {
    hide BlendedPrice;
  }

  /** An update raises exactly when the reported status is not reachable: OPEN for a partially filled order, say. */
  lemma UpdateRefusedExactly(r: OrderRecord, update: OrderUpdate)
    ensures TouchUpdate(r, update).outcome == Raised(OrderStateError) <==> !CanTransition(r.status, update.status)
    ensures TouchUpdate(r, update).outcome == Ok <==> CanTransition(r.status, update.status)
  {
  }

  /** What a refused fill or update has written stays in memory, and nothing of it is persisted. */
  lemma RefusedIsWritten(s: OmsState, op: Op)
    requires op.FillApplied? || op.Updated? || op.RemoteUpdated?
    requires OpId(op) in s.orders.at && ApplyOp(s, op).outcome == Raised(OrderStateError)
    ensures var r := s.orders.at[OpId(op)]; var end := ApplyOp(s, op).state;
      && end.saved == s.saved && OpId(op) in end.orders.at
      && var t := end.orders.at[OpId(op)];
      && t.status == r.status
      && (op.FillApplied? ==> t.filledSize == Min(r.filledSize + op.fill.size, r.size))
      && (!op.FillApplied? ==> t.filledSize == Max(r.filledSize, op.update.filledSize))
  {
    hide BlendedPrice;
    assert s.saved + [] == s.saved;
  }

  /** A partial fill that reaches an order while its cancel is pending: refused, and yet half of the order counts as
      filled in memory, while nothing is saved. */
  lemma RefusedFillExample()
    returns (s: OmsState, fill: FillEvent)
    ensures "a" in s.orders.at && s.orders.at["a"].status == Canceling && s.orders.at["a"].filledSize == 0.0
    ensures var step := ApplyOp(s, FillApplied(fill));
      && step.outcome == Raised(OrderStateError) && step.state.saved == s.saved
      && "a" in step.state.orders.at && step.state.orders.at["a"].filledSize == 1.0
      && step.state.orders.at["a"].avgFillPrice == Some(5.0)
  {
    var r := OrderRecord("X", Buy, Some(5.0), 2.0, "limit", "a", "maker", Some(1), Canceling, None, 0.0, None);
    s := OmsState(Put(Empty(), "a", r), [r]);
    fill := FillEvent("X", "a", None, Buy, 5.0, 1.0, 0.0, "Q");
    FillRefusedExactly(r, fill);
    RefusedIsWritten(s, FillApplied(fill));
  }

  /** An OPEN report for a partially filled order: refused, and yet its larger filled size is written. */
  lemma RefusedUpdateExample()
    returns (s: OmsState, update: OrderUpdate)
    ensures "a" in s.orders.at && s.orders.at["a"].status == PartiallyFilled && s.orders.at["a"].filledSize == 1.0
    ensures var step := ApplyOp(s, Updated(update));
      && update.status == Open && step.outcome == Raised(OrderStateError) && step.state.saved == s.saved
      && "a" in step.state.orders.at && step.state.orders.at["a"].filledSize == 2.0
  {
    var r := OrderRecord("X", Buy, Some(5.0), 4.0, "limit", "a", "maker", Some(1), PartiallyFilled, None, 1.0,
                         Some(5.0));
    s := OmsState(Put(Empty(), "a", r), [r]);
    update := OrderUpdate("X", "a", None, Open, 2.0, None, None);
    UpdateRefusedExactly(r, update);
    RefusedIsWritten(s, Updated(update));
  }
}
