/** What the quote differ's intents look like, its fixpoint, and its requote throttle. */
module QuoteRuns {
  import opened Dicts
  import opened Types
  import opened Oms
  import opened Pricing
  import opened Quote
  import Risk

  // ----------------------------------------------------------------------------- the intents of one call

  lemma {:induction false} DesiredValid(quotes: seq<QuoteIntent>)
    ensures Desired(quotes).Valid()
    ensures forall slot | slot in Desired(quotes).at :: QuoteSlot(Desired(quotes).at[slot]) == slot
  {
    if quotes != [] {
      var n := |quotes| - 1;
      DesiredValid(quotes[..n]);
      PutValid(Desired(quotes[..n]), QuoteSlot(quotes[n]), quotes[n]);
    }
  }

  lemma {:induction false} IndexValid(orders: seq<OrderRecord>)
    ensures IndexOpen(orders).Valid()
  {
    if orders != [] {
      var n := |orders| - 1;
      IndexValid(orders[..n]);
      if orders[n].level.Some? {
        PutValid(IndexOpen(orders[..n]), OrderSlot(orders[n]), orders[n]);
      }
    }
  }

  /** The decision about a slot does not depend on the slots before it: each writes its own requote time only. */
  lemma {:induction false} BuildSlotsLast(q: QuoteView, open: map<Slot, OrderRecord>, keys: seq<Slot>,
      at: map<Slot, QuoteIntent>, last: map<Slot, int>, slot: Slot)
    requires slot !in keys
    ensures var end := BuildSlots(q, open, keys, at, last).last;
      (slot in end <==> slot in last) && (slot in last ==> end[slot] == last[slot])
  {
    if keys != [] {
      var n := |keys| - 1;
      BuildSlotsLast(q, open, keys[..n], at, last, slot);
    }
  }

  lemma DecideSame(q: QuoteView, open: map<Slot, OrderRecord>, a: map<Slot, int>, b: map<Slot, int>, slot: Slot,
      quote: QuoteIntent)
    requires (slot in a <==> slot in b) && (slot in a ==> a[slot] == b[slot])
    ensures Decide(q, open, a, slot, quote) == Decide(q, open, b, slot, quote)
  {
  }

  /** The intents of a call that returns: those of the decision of each desired slot, taken on the requote times the
      call started with. */
  lemma {:induction false} BuildSlotsIntents(q: QuoteView, open: map<Slot, OrderRecord>, keys: seq<Slot>,
      at: map<Slot, QuoteIntent>, last: map<Slot, int>)
    requires Distinct(keys) && (forall k | k in keys :: k in at)
    requires BuildSlots(q, open, keys, at, last).outcome == Ok
    ensures var built := BuildSlots(q, open, keys, at, last).intents;
      && (forall k | k in keys :: !Decide(q, open, last, k, at[k]).Fails?)
      && (forall k, i | k in keys && i in SlotIntents(q, open, k, Decide(q, open, last, k, at[k])) :: i in built)
      && (forall i | i in built ::
            exists k :: k in keys && i in SlotIntents(q, open, k, Decide(q, open, last, k, at[k])))
  {
    if keys != [] {
      var n := |keys| - 1;
      var init := keys[..n];
      assert keys == init + [keys[n]];
      BuildSlotsIntents(q, open, init, at, last);
      var before := BuildSlots(q, open, init, at, last);
      BuildSlotsLast(q, open, init, at, last, keys[n]);
      DecideSame(q, open, before.last, last, keys[n], at[keys[n]]);
      var built := BuildSlots(q, open, keys, at, last).intents;
      var mine := SlotIntents(q, open, keys[n], Decide(q, open, last, keys[n], at[keys[n]]));
      assert built == before.intents + mine;
      hide Decide, SlotIntents, BuildSlots;
      forall i | i in built
        ensures exists k :: k in keys && i in SlotIntents(q, open, k, Decide(q, open, last, k, at[k]))
      {
        if i in mine {
          assert keys[n] in keys;
        } else {
          var k :| k in init && i in SlotIntents(q, open, k, Decide(q, open, last, k, at[k]));
          assert k in keys;
        }
      }
    }
  }

  lemma {:induction false} StaleMembers(keys: seq<Slot>, at: map<Slot, OrderRecord>, desired: map<Slot, QuoteIntent>)
    ensures forall i | i in StaleCancels(keys, at, desired) ::
      exists k :: k in keys && k in at && k !in desired && i == CancelIntent(at[k])
    ensures forall k | k in keys && k in at && k !in desired :: CancelIntent(at[k]) in StaleCancels(keys, at, desired)
  {
    hide CancelIntent;
    if keys != [] {
      var n := |keys| - 1;
      assert keys == keys[..n] + [keys[n]];
      StaleMembers(keys[..n], at, desired);
      forall i | i in StaleCancels(keys, at, desired)
        ensures exists k :: k in keys && k in at && k !in desired && i == CancelIntent(at[k])
      {
        if i in StaleCancels(keys[..n], at, desired) {
          var k :| k in keys[..n] && k in at && k !in desired && i == CancelIntent(at[k]);
          assert k in keys;
        } else {
          assert keys[n] in keys;
        }
      }
    }
  }

  lemma {:induction false} StaleAreCancels(keys: seq<Slot>, at: map<Slot, OrderRecord>, desired: map<Slot, QuoteIntent>)
    ensures forall i | i in StaleCancels(keys, at, desired) :: i.action == Cancel
  {
    if keys != [] {
      StaleAreCancels(keys[..|keys| - 1], at, desired);
    }
  }

  // ----------------------------------------------------------------------------- emitted places

  /** What every emitted place satisfies. */
  ghost predicate GoodPlace(q: QuoteView, quote: QuoteIntent, i: OrderIntent) {
    && i.symbol == quote.symbol && i.symbol in q.rules && i.symbol in q.markets
    && i.side == Some(quote.side) && i.strategy == quote.strategy && i.level == Some(quote.level)
    && i.price.Some? && i.size.Some?
    && var rule, market, p, size := q.rules[i.symbol], q.markets[i.symbol], i.price.value, i.size.value;
    && PostOnlyAt(p, quote.side, quote.price, market, rule.priceIncrement)
    && AlignedAt(size, quote.size, rule.sizeIncrement)
    && size >= rule.baseMinSize && p * size >= rule.minNotional
    && (quote.side == Buy ==>
          p <= quote.price && p < market.ask && p > Min(quote.price, market.ask) - 2.0 * rule.priceIncrement)
    && (quote.side == Sell ==>
          p >= quote.price && p > market.bid && p < Max(quote.price, market.bid) + 2.0 * rule.priceIncrement)
  }

  ghost predicate PlacedFor(q: QuoteView, quotes: seq<QuoteIntent>, i: OrderIntent, slot: Slot) {
    && slot in Desired(quotes).at && QuoteSlot(Desired(quotes).at[slot]) == slot
    && GoodPlace(q, Desired(quotes).at[slot], i) && i.clientOrderId == Some(q.newId(slot))
  }

  lemma DecisionPlaces(q: QuoteView, open: map<Slot, OrderRecord>, last: map<Slot, int>, quote: QuoteIntent,
      i: OrderIntent)
    requires i in SlotIntents(q, open, QuoteSlot(quote), Decide(q, open, last, QuoteSlot(quote), quote))
    ensures i.action == Place ==> GoodPlace(q, quote, i) && i.clientOrderId == Some(q.newId(QuoteSlot(quote)))
    ensures i.action == Cancel ==> QuoteSlot(quote) in open && i == CancelIntent(open[QuoteSlot(quote)])
    ensures i.action != OtherAction
  {
    hide PostOnlyPrice, AlignSize, IsMultiple, PostOnlyAt, AlignedAt;
    var rule := q.rules[quote.symbol];
    PostOnlyPriceIsPassive(rule, q.markets[quote.symbol], quote.side, quote.price);
    PostOnlyPriceExactly(rule, q.markets[quote.symbol], quote.side, quote.price);
    AlignedIsOne(rule, AlignSize(rule, quote.size), quote.size);
  }

  /** Every place the differ emits is for a desired quote, aligned to tick and step, above the minimums, passive, no
      better than desired, and less than two ticks away from the better of the desired price and the opposite quote. */
  lemma EmittedPlacesAreGood(q: QuoteView, quotes: seq<QuoteIntent>, orders: seq<OrderRecord>, last: map<Slot, int>,
      i: OrderIntent)
    requires BuildIntents(q, quotes, orders, last).outcome == Ok
    requires i in BuildIntents(q, quotes, orders, last).intents && i.action == Place
    ensures exists slot :: PlacedFor(q, quotes, i, slot)
  {
    var open, desired := IndexOpen(orders), Desired(quotes);
    DesiredValid(quotes);
    ValidKeys(desired);
    BuildSlotsIntents(q, open.at, desired.keys, desired.at, last);
    StaleMembers(open.keys, open.at, desired.at);
    var k :| k in desired.keys && i in SlotIntents(q, open.at, k, Decide(q, open.at, last, k, desired.at[k]));
    DecisionPlaces(q, open.at, last, desired.at[k], i);
    assert PlacedFor(q, quotes, i, k);
  }

  /** A place the differ emits is never refused for its minimums or for crossing the market, by a risk engine that sees
      the same snapshots and rules. */
  lemma EmittedPlacesAreAdmissible(q: QuoteView, quotes: seq<QuoteIntent>, orders: seq<OrderRecord>,
      last: map<Slot, int>, i: OrderIntent, view: Risk.RiskView, s: OmsState)
    requires BuildIntents(q, quotes, orders, last).outcome == Ok
    requires i in BuildIntents(q, quotes, orders, last).intents && i.action == Place
    requires view.rules == q.rules && view.markets == q.markets
    ensures Risk.Validate(view, i, s) != Risk.Refused(Risk.MarketMinimums)
    ensures Risk.Validate(view, i, s) != Risk.Refused(Risk.PostOnlyCross)
  {
    hide BuildIntents, Risk.MarketCheck, Risk.OpenCheck, Risk.HasUnknown, IsMultiple, Desired;
    EmittedPlacesAreGood(q, quotes, orders, last, i);
    var slot :| PlacedFor(q, quotes, i, slot);
    OtherChecks(view, i, Notional(i.price.value, i.size.value), s);
    if view.markets[i.symbol].Mid() != 0.0 {
      CrossesOnly(view, q.rules[i.symbol], q.markets[i.symbol], i.side.value, i.price.value, i.size.value);
    }
  }

  lemma OtherChecks(view: Risk.RiskView, i: OrderIntent, notional: real, s: OmsState)
    ensures Risk.OpenCheck(view, i, notional, s) !in {Risk.MarketMinimums, Risk.PostOnlyCross}
  {
  }

  lemma CrossesOnly(view: Risk.RiskView, rule: MarketRule, market: MarketSnapshot, side: Side, price: real, size: real)
    requires market.Mid() != 0.0
    ensures Risk.MarketCheck(view, rule, market, side, price, size) == Risk.PostOnlyCross ==>
      if side == Buy then price >= market.ask else price <= market.bid
    ensures Risk.MarketCheck(view, rule, market, side, price, size) != Risk.MarketMinimums
  {
  }

  // ----------------------------------------------------------------------------- fixpoint

  ghost predicate UniqueSlots(orders: seq<OrderRecord>) {
    forall a, b | a in orders && b in orders && a.level.Some? && b.level.Some? && OrderSlot(a) == OrderSlot(b) :: a == b
  }

  ghost predicate UniqueIds(orders: seq<OrderRecord>) {
    forall a, b | a in orders && b in orders && a.clientOrderId == b.clientOrderId :: a == b
  }

  lemma {:induction false} IndexMembers(orders: seq<OrderRecord>)
    ensures var open := IndexOpen(orders).at;
      && (forall k | k in open :: open[k] in orders && open[k].level.Some? && OrderSlot(open[k]) == k)
      && (forall o | o in orders && o.level.Some? :: OrderSlot(o) in open)
  {
    if orders != [] {
      var n := |orders| - 1;
      assert orders == orders[..n] + [orders[n]];
      IndexMembers(orders[..n]);
    }
  }

  lemma IndexedAt(orders: seq<OrderRecord>, slot: Slot)
    requires slot in IndexOpen(orders).at
    ensures var o := IndexOpen(orders).at[slot]; o in orders && o.level.Some? && OrderSlot(o) == slot
  {
    IndexMembers(orders);
  }

  /** With one open order per slot, the index holds exactly the open orders that carry a level. */
  lemma IndexExact(orders: seq<OrderRecord>, o: OrderRecord)
    requires UniqueSlots(orders) && o in orders && o.level.Some?
    ensures OrderSlot(o) in IndexOpen(orders).at && IndexOpen(orders).at[OrderSlot(o)] == o
  {
    IndexMembers(orders);
  }

  predicate AsksCancel(intents: seq<OrderIntent>, id: string) {
    exists i | 0 <= i < |intents| :: intents[i].action == Cancel && intents[i].clientOrderId == Some(id)
  }

  /** A first pass whose result is about to be carried out. */
  ghost predicate FirstPass(q: QuoteView, quotes: seq<QuoteIntent>, orders: seq<OrderRecord>, last: map<Slot, int>) {
    && UniqueSlots(orders) && UniqueIds(orders)
    && (forall s | s in q.rules :: q.rules[s].baseMinSize >= 0.0)
    && BuildIntents(q, quotes, orders, last).outcome == Ok
    && forall slot | slot in Desired(quotes).at ::
         Decide(q, IndexOpen(orders).at, last, slot, Desired(quotes).at[slot]) != Throttled
  }

  /** An open order shows what a place asked for. */
  predicate Shows(o: OrderRecord, i: OrderIntent) {
    && i.side == Some(o.side) && o.symbol == i.symbol && o.strategy == i.strategy && o.level == i.level
    && o.price == i.price && i.size == Some(RemainingSize(o))
  }

  ghost predicate ShownBy(o: OrderRecord, intents: seq<OrderIntent>) {
    exists i :: i in intents && i.action == Place && Shows(o, i)
  }

  /** The intents have been carried out: of the open orders before, those not canceled are still open, unchanged; all
      others open now show a place; and every place is shown. */
  ghost predicate CarriedOut(orders: seq<OrderRecord>, intents: seq<OrderIntent>, after: seq<OrderRecord>) {
    && (forall o | o in orders && !AsksCancel(intents, o.clientOrderId) :: o in after)
    && (forall o | o in after :: (o in orders && !AsksCancel(intents, o.clientOrderId)) || ShownBy(o, intents))
    && (forall i | i in intents && i.action == Place :: exists o :: o in after && Shows(o, i))
  }

  ghost predicate HasDecision(q: QuoteView, quotes: seq<QuoteIntent>, orders: seq<OrderRecord>, last: map<Slot, int>,
      slot: Slot, i: OrderIntent) {
    && slot in Desired(quotes).at
    && i in SlotIntents(q, IndexOpen(orders).at, slot,
        Decide(q, IndexOpen(orders).at, last, slot, Desired(quotes).at[slot]))
  }

  ghost predicate IsStale(quotes: seq<QuoteIntent>, orders: seq<OrderRecord>, slot: Slot, i: OrderIntent) {
    && slot in IndexOpen(orders).at && slot !in Desired(quotes).at
    && i == CancelIntent(IndexOpen(orders).at[slot])
  }

  /** An intent comes from one decision, or cancels one stale slot. */
  lemma IntentSource(q: QuoteView, quotes: seq<QuoteIntent>, orders: seq<OrderRecord>, last: map<Slot, int>,
      i: OrderIntent)
    requires BuildIntents(q, quotes, orders, last).outcome == Ok && i in BuildIntents(q, quotes, orders, last).intents
    ensures exists slot :: HasDecision(q, quotes, orders, last, slot, i) || IsStale(quotes, orders, slot, i)
  {
    var open, desired := IndexOpen(orders), Desired(quotes);
    DesiredValid(quotes);
    ValidKeys(desired);
    BuildSlotsIntents(q, open.at, desired.keys, desired.at, last);
    StaleMembers(open.keys, open.at, desired.at);
    var stale := StaleCancels(open.keys, open.at, desired.at);
    if i in stale {
      var k :| k in open.keys && k in open.at && k !in desired.at && i == CancelIntent(open.at[k]);
      assert IsStale(quotes, orders, k, i);
    } else {
      var k :| k in desired.keys && i in SlotIntents(q, open.at, k, Decide(q, open.at, last, k, desired.at[k]));
      assert HasDecision(q, quotes, orders, last, k, i);
    }
  }

  lemma DecisionEmitted(q: QuoteView, quotes: seq<QuoteIntent>, orders: seq<OrderRecord>, last: map<Slot, int>,
      slot: Slot, i: OrderIntent)
    requires BuildIntents(q, quotes, orders, last).outcome == Ok
    requires HasDecision(q, quotes, orders, last, slot, i) || IsStale(quotes, orders, slot, i)
    ensures i in BuildIntents(q, quotes, orders, last).intents
  {
    var open, desired := IndexOpen(orders), Desired(quotes);
    DesiredValid(quotes);
    IndexValid(orders);
    ValidKeys(desired);
    ValidKeys(open);
    BuildSlotsIntents(q, open.at, desired.keys, desired.at, last);
    StaleMembers(open.keys, open.at, desired.at);
  }

  function DecisionFor(q: QuoteView, quotes: seq<QuoteIntent>, orders: seq<OrderRecord>, last: map<Slot, int>,
      slot: Slot): Decision
    requires slot in Desired(quotes).at
  {
    Decide(q, IndexOpen(orders).at, last, slot, Desired(quotes).at[slot])
  }

  /** A slot's order goes away in the first pass: it is stale, or it is replaced. */
  ghost predicate Leaves(q: QuoteView, quotes: seq<QuoteIntent>, orders: seq<OrderRecord>, last: map<Slot, int>,
      slot: Slot) {
    slot !in Desired(quotes).at || DecisionFor(q, quotes, orders, last, slot).PlaceAt?
  }

  lemma CanceledExactly(q: QuoteView, quotes: seq<QuoteIntent>, orders: seq<OrderRecord>, last: map<Slot, int>,
      o: OrderRecord)
    requires FirstPass(q, quotes, orders, last) && o in orders
    ensures AsksCancel(BuildIntents(q, quotes, orders, last).intents, o.clientOrderId)
      <==> o.level.Some? && Leaves(q, quotes, orders, last, OrderSlot(o))
  {
    var intents := BuildIntents(q, quotes, orders, last).intents;
    var open := IndexOpen(orders).at;
    IndexMembers(orders);
    if AsksCancel(intents, o.clientOrderId) {
      var n :| 0 <= n < |intents| && intents[n].action == Cancel && intents[n].clientOrderId == Some(o.clientOrderId);
      CancelFromSlot(q, quotes, orders, last, intents[n]);
      var slot :| slot in open && Leaves(q, quotes, orders, last, slot) && intents[n] == CancelIntent(open[slot]);
      assert open[slot].clientOrderId == o.clientOrderId;
    }
    if o.level.Some? && Leaves(q, quotes, orders, last, OrderSlot(o)) {
      IndexExact(orders, o);
      LeavingCanceled(q, quotes, orders, last, OrderSlot(o));
    }
  }

  lemma CancelFromSlot(q: QuoteView, quotes: seq<QuoteIntent>, orders: seq<OrderRecord>, last: map<Slot, int>,
      i: OrderIntent)
    requires BuildIntents(q, quotes, orders, last).outcome == Ok
    requires i in BuildIntents(q, quotes, orders, last).intents && i.action == Cancel
    ensures exists slot :: slot in IndexOpen(orders).at && Leaves(q, quotes, orders, last, slot)
                        && i == CancelIntent(IndexOpen(orders).at[slot])
  {
    IntentSource(q, quotes, orders, last, i);
    var slot :| HasDecision(q, quotes, orders, last, slot, i) || IsStale(quotes, orders, slot, i);
    if HasDecision(q, quotes, orders, last, slot, i) {
      DesiredValid(quotes);
      DecisionPlaces(q, IndexOpen(orders).at, last, Desired(quotes).at[slot], i);
      assert Leaves(q, quotes, orders, last, slot);
    }
  }

  lemma LeavingCanceled(q: QuoteView, quotes: seq<QuoteIntent>, orders: seq<OrderRecord>, last: map<Slot, int>,
      slot: Slot)
    requires FirstPass(q, quotes, orders, last)
    requires slot in IndexOpen(orders).at && Leaves(q, quotes, orders, last, slot)
    ensures AsksCancel(BuildIntents(q, quotes, orders, last).intents, IndexOpen(orders).at[slot].clientOrderId)
  {
    var i := CancelIntent(IndexOpen(orders).at[slot]);
    if slot in Desired(quotes).at {
      assert HasDecision(q, quotes, orders, last, slot, i);
    } else {
      assert IsStale(quotes, orders, slot, i);
    }
    DecisionEmitted(q, quotes, orders, last, slot, i);
    var intents := BuildIntents(q, quotes, orders, last).intents;
    var n :| 0 <= n < |intents| && intents[n] == i;
  }

  /** A place is what its slot's decision asks for. */
  lemma PlaceSource(q: QuoteView, quotes: seq<QuoteIntent>, orders: seq<OrderRecord>, last: map<Slot, int>,
      i: OrderIntent)
    requires BuildIntents(q, quotes, orders, last).outcome == Ok
    requires i in BuildIntents(q, quotes, orders, last).intents && i.action == Place
    ensures i.side.Some? && i.level.Some?
    ensures var slot := Slot(i.strategy, i.symbol, i.side.value, i.level.value);
      && slot in Desired(quotes).at
      && var d := DecisionFor(q, quotes, orders, last, slot);
      && d.PlaceAt? && i.price == Some(d.price) && i.size == Some(d.size)
  {
    hide BuildIntents, IndexOpen, Desired, Decide;
    IntentSource(q, quotes, orders, last, i);
    var slot :| HasDecision(q, quotes, orders, last, slot, i) || IsStale(quotes, orders, slot, i);
    assert HasDecision(q, quotes, orders, last, slot, i);
  }

  /** An order open in a slot after the first pass is the slot's old order, if that did not leave; else it shows the
      slot's place. */
  lemma OpenAfter(q: QuoteView, quotes: seq<QuoteIntent>, orders: seq<OrderRecord>, last: map<Slot, int>,
      after: seq<OrderRecord>, o: OrderRecord)
    requires FirstPass(q, quotes, orders, last) && o in after && o.level.Some?
    requires CarriedOut(orders, BuildIntents(q, quotes, orders, last).intents, after)
    ensures var slot := OrderSlot(o); var open := IndexOpen(orders).at;
      && slot in Desired(quotes).at
      && var d := DecisionFor(q, quotes, orders, last, slot);
      && (d.PlaceAt? ==> SameQuote(o, d.price, d.size))
      && (!d.PlaceAt? ==> slot in open && o == open[slot])
  {
    hide FirstPass, BuildIntents, Desired, Decide, IndexOpen;
    var intents := BuildIntents(q, quotes, orders, last).intents;
    if o in orders && !AsksCancel(intents, o.clientOrderId) {
      CanceledExactly(q, quotes, orders, last, o);
      FirstPassUnique(q, quotes, orders, last);
      IndexExact(orders, o);
    } else {
      var i :| i in intents && i.action == Place && Shows(o, i);
      FirstPassUnique(q, quotes, orders, last);
      PlaceSource(q, quotes, orders, last, i);
    }
  }

  lemma FirstPassUnique(q: QuoteView, quotes: seq<QuoteIntent>, orders: seq<OrderRecord>, last: map<Slot, int>)
    requires FirstPass(q, quotes, orders, last)
    ensures UniqueSlots(orders) && BuildIntents(q, quotes, orders, last).outcome == Ok
  {
  }

  lemma PlaceEmitted(q: QuoteView, quotes: seq<QuoteIntent>, orders: seq<OrderRecord>, last: map<Slot, int>,
      slot: Slot) returns (i: OrderIntent)
    requires BuildIntents(q, quotes, orders, last).outcome == Ok && slot in Desired(quotes).at
    requires DecisionFor(q, quotes, orders, last, slot).PlaceAt?
    ensures i in BuildIntents(q, quotes, orders, last).intents && i.action == Place
    ensures i.strategy == slot.strategy && i.symbol == slot.symbol && i.side == Some(slot.side)
    ensures i.level == Some(slot.level)
  {
    hide BuildIntents, IndexOpen, Desired, Decide;
    var d := DecisionFor(q, quotes, orders, last, slot);
    var open := IndexOpen(orders).at;
    i := PlaceIntent(slot, d.price, d.size, q.newId(slot), if slot in open then Some(open[slot].clientOrderId)
                                                               else None);
    assert HasDecision(q, quotes, orders, last, slot, i);
    DecisionEmitted(q, quotes, orders, last, slot, i);
  }

  /** A pass over the same quotes and the same market. */
  predicate SamePass(q: QuoteView, again: QuoteView) {
    again.rules == q.rules && again.markets == q.markets
  }

  predicate Quiet(d: Decision) {
    d.NoMarket? || d.BelowMinimums? || d.Unchanged?
  }

  /** The decision about a slot whose open order already shows the decided quote. */
  lemma DecideShown(q: QuoteView, again: QuoteView, a: map<Slot, OrderRecord>, b: map<Slot, OrderRecord>,
      last: map<Slot, int>, later: map<Slot, int>, slot: Slot, quote: QuoteIntent)
    requires SamePass(q, again)
    ensures var d := Decide(q, a, last, slot, quote);
      && (d.NoMarket? || d.BelowMinimums? ==> Quiet(Decide(again, b, later, slot, quote)))
      && (d.Unchanged? && slot in b && b[slot] == a[slot] ==> Quiet(Decide(again, b, later, slot, quote)))
      && (d.PlaceAt? && slot in b && SameQuote(b[slot], d.price, d.size) ==>
            Quiet(Decide(again, b, later, slot, quote)))
      && (d.Unchanged? ==> slot in a)
      && (d.PlaceAt? ==> quote.symbol in q.rules && d.size >= q.rules[quote.symbol].baseMinSize)
  {
  }

  lemma SecondDecision(q: QuoteView, quotes: seq<QuoteIntent>, orders: seq<OrderRecord>, last: map<Slot, int>,
      after: seq<OrderRecord>, again: QuoteView, later: map<Slot, int>, slot: Slot)
    requires FirstPass(q, quotes, orders, last) && SamePass(q, again) && slot in Desired(quotes).at
    requires CarriedOut(orders, BuildIntents(q, quotes, orders, last).intents, after)
    ensures Quiet(DecisionFor(again, quotes, after, later, slot))
  {
    hide Decide, IndexOpen, Desired, CarriedOut, BuildIntents;
    NotFailing(q, quotes, orders, last, slot);
    DecideShown(q, again, IndexOpen(orders).at, IndexOpen(after).at, last, later, slot, Desired(quotes).at[slot]);
    ShownAfter(q, quotes, orders, last, after, slot);
  }

  /** The order that the second pass finds in a slot: the old one if it stayed, else one that shows the place. */
  lemma ShownAfter(q: QuoteView, quotes: seq<QuoteIntent>, orders: seq<OrderRecord>, last: map<Slot, int>,
      after: seq<OrderRecord>, slot: Slot)
    requires FirstPass(q, quotes, orders, last) && slot in Desired(quotes).at
    requires CarriedOut(orders, BuildIntents(q, quotes, orders, last).intents, after)
    ensures var d := DecisionFor(q, quotes, orders, last, slot);
      var open, later := IndexOpen(orders).at, IndexOpen(after).at;
      && (d.PlaceAt? ==> slot in later && SameQuote(later[slot], d.price, d.size))
      && (!d.PlaceAt? && slot in open ==> slot in later && later[slot] == open[slot])
  {
    hide Decide, IndexOpen, Desired, BuildIntents, FirstPass;
    var d := DecisionFor(q, quotes, orders, last, slot);
    var open, later := IndexOpen(orders).at, IndexOpen(after).at;
    var intents := BuildIntents(q, quotes, orders, last).intents;
    FirstPassUnique(q, quotes, orders, last);
    IndexMembers(after);
    if d.PlaceAt? {
      var i := PlaceEmitted(q, quotes, orders, last, slot);
      var o :| o in after && Shows(o, i);
      assert OrderSlot(o) == slot;
    } else if slot in open {
      IndexedAt(orders, slot);
      CanceledExactly(q, quotes, orders, last, open[slot]);
      assert open[slot] in after;
    }
    if slot in later {
      IndexedAt(after, slot);
      OpenAfter(q, quotes, orders, last, after, later[slot]);
    }
  }

  lemma NotFailing(q: QuoteView, quotes: seq<QuoteIntent>, orders: seq<OrderRecord>, last: map<Slot, int>, slot: Slot)
    requires BuildIntents(q, quotes, orders, last).outcome == Ok && slot in Desired(quotes).at
    ensures !DecisionFor(q, quotes, orders, last, slot).Fails?
  {
    DesiredValid(quotes);
    ValidKeys(Desired(quotes));
    BuildSlotsIntents(q, IndexOpen(orders).at, Desired(quotes).keys, Desired(quotes).at, last);
  }

  lemma {:induction false} QuietSlots(q: QuoteView, open: map<Slot, OrderRecord>, keys: seq<Slot>,
      at: map<Slot, QuoteIntent>, last: map<Slot, int>)
    requires forall k | k in keys :: k in at && Quiet(Decide(q, open, last, k, at[k]))
    ensures BuildSlots(q, open, keys, at, last) == Built([], last, Ok)
  {
    if keys != [] {
      var n := |keys| - 1;
      assert keys[n] in keys;
      QuietSlots(q, open, keys[..n], at, last);
    }
  }

  lemma {:induction false} NoStaleCancels(keys: seq<Slot>, at: map<Slot, OrderRecord>, desired: map<Slot, QuoteIntent>)
    requires forall k | k in keys && k in at :: k in desired
    ensures StaleCancels(keys, at, desired) == []
  {
    if keys != [] {
      NoStaleCancels(keys[..|keys| - 1], at, desired);
    }
  }

  /** Fixpoint: once the intents of a pass in which no slot was throttled are carried out, a pass over the same quotes,
      markets and rules emits nothing, at any later time and with any requote interval. */
  lemma Fixpoint(q: QuoteView, quotes: seq<QuoteIntent>, orders: seq<OrderRecord>, last: map<Slot, int>,
      after: seq<OrderRecord>, again: QuoteView, later: map<Slot, int>)
    requires FirstPass(q, quotes, orders, last) && SamePass(q, again)
    requires CarriedOut(orders, BuildIntents(q, quotes, orders, last).intents, after)
    ensures BuildIntents(again, quotes, after, later) == Built([], later, Ok)
  {
    hide FirstPass, Decide, CarriedOut, IndexOpen, Desired;
    var open, desired := IndexOpen(after), Desired(quotes);
    DesiredValid(quotes);
    IndexValid(after);
    ValidKeys(desired);
    ValidKeys(open);
    forall k | k in desired.keys
      ensures Quiet(Decide(again, open.at, later, k, desired.at[k]))
    {
      SecondDecision(q, quotes, orders, last, after, again, later, k);
    }
    forall k | k in open.keys && k in open.at
      ensures k in desired.at
    {
      IndexedAt(after, k);
      OpenAfter(q, quotes, orders, last, after, open.at[k]);
    }
    QuietSlots(again, open.at, desired.keys, desired.at, later);
    NoStaleCancels(open.keys, open.at, desired.at);
  }

  // ----------------------------------------------------------------------------- throttle

  /** One call of `build_order_intents`. */
  datatype Call = Call(q: QuoteView, quotes: seq<QuoteIntent>, orders: seq<OrderRecord>)

  /** A place: its slot, the time of its call, and whether it replaces an open order. */
  datatype PlaceEvent = PlaceEvent(slot: Slot, atMs: int, replacement: bool)

  /** The places among a call's intents, in order. */
  function PlaceEvents(intents: seq<OrderIntent>, nowMs: int): seq<PlaceEvent> {
    if intents == [] then []
    else
      var n := |intents| - 1;
      var rest, i := PlaceEvents(intents[..n], nowMs), intents[n];
      if i.action == Place && i.side.Some? && i.level.Some? then
        rest + [PlaceEvent(Slot(i.strategy, i.symbol, i.side.value, i.level.value), nowMs, i.oldClientOrderId.Some?)]
      else rest
  }

  datatype Requotes = Requotes(last: map<Slot, int>, events: seq<PlaceEvent>)

  /** The requote times and all places after a sequence of calls. A call that raises midway has decided its places up to
      then, and keeps their requote times. */
  function RunCalls(calls: seq<Call>): Requotes {
    if calls == [] then Requotes(map[], [])
    else
      var before, c := RunCalls(calls[..|calls| - 1]), calls[|calls| - 1];
      var built := BuildIntents(c.q, c.quotes, c.orders, before.last);
      Requotes(built.last, before.events + PlaceEvents(built.intents, c.q.nowMs))
  }

  /** The time of the latest place in a slot. */
  function Latest(events: seq<PlaceEvent>, slot: Slot): Option<int> {
    if events == [] then None
    else
      var n := |events| - 1;
      if events[n].slot == slot then Some(events[n].atMs) else Latest(events[..n], slot)
  }

  lemma LatestAppend(events: seq<PlaceEvent>, e: PlaceEvent, slot: Slot)
    ensures Latest(events + [e], slot) == if e.slot == slot then Some(e.atMs) else Latest(events, slot)
  {
    assert (events + [e])[..|events|] == events;
  }

  ghost predicate TimesAreLatest(r: Requotes) {
    forall slot :: Latest(r.events, slot) == if slot in r.last then Some(r.last[slot]) else None
  }

  /** Every replacement so far came at least `minRequoteMs` after the previous place in its slot. */
  ghost predicate Spaced(events: seq<PlaceEvent>, minRequoteMs: int) {
    forall j | 0 <= j < |events| ::
      events[j].replacement && Latest(events[..j], events[j].slot).Some? ==>
        events[j].atMs - Latest(events[..j], events[j].slot).value >= minRequoteMs
  }

  ghost predicate Throttles(r: Requotes, minRequoteMs: int) {
    TimesAreLatest(r) && Spaced(r.events, minRequoteMs)
  }

  lemma {:induction false} EventsConcat(a: seq<OrderIntent>, b: seq<OrderIntent>, nowMs: int)
    ensures PlaceEvents(a + b, nowMs) == PlaceEvents(a, nowMs) + PlaceEvents(b, nowMs)
  {
    if b == [] {
      assert a + b == a;
    } else {
      var n := |b| - 1;
      assert (a + b)[..|a + b| - 1] == a + b[..n];
      EventsConcat(a, b[..n], nowMs);
    }
  }

  lemma {:induction false} StaleEvents(keys: seq<Slot>, at: map<Slot, OrderRecord>, desired: map<Slot, QuoteIntent>,
      nowMs: int)
    ensures PlaceEvents(StaleCancels(keys, at, desired), nowMs) == []
  {
    if keys != [] {
      StaleEvents(keys[..|keys| - 1], at, desired, nowMs);
    }
  }

  lemma EventsOne(i: OrderIntent, nowMs: int)
    ensures PlaceEvents([i], nowMs)
         == if i.action == Place && i.side.Some? && i.level.Some?
            then [PlaceEvent(Slot(i.strategy, i.symbol, i.side.value, i.level.value), nowMs, i.oldClientOrderId.Some?)]
            else []
  {
    assert [i][..0] == [];
    assert PlaceEvents([], nowMs) == [];
  }

  /** The place of one slot, if its decision is to place. */
  lemma SlotEvents(q: QuoteView, open: map<Slot, OrderRecord>, slot: Slot, decision: Decision)
    ensures PlaceEvents(SlotIntents(q, open, slot, decision), q.nowMs)
         == if decision.PlaceAt? then [PlaceEvent(slot, q.nowMs, slot in open)] else []
  {
    hide PlaceEvents;
    var intents := SlotIntents(q, open, slot, decision);
    if |intents| == 2 {
      EventsOne(intents[0], q.nowMs);
      EventsOne(intents[1], q.nowMs);
      EventsConcat([intents[0]], [intents[1]], q.nowMs);
      assert intents == [intents[0]] + [intents[1]];
    } else if |intents| == 1 {
      EventsOne(intents[0], q.nowMs);
      assert intents == [intents[0]];
    } else {
      NoEvents(q.nowMs);
      assert intents == [];
    }
  }

  lemma NoEvents(nowMs: int)
    ensures PlaceEvents([], nowMs) == []
  {
  }

  /** A slot with an open order is placed again only when its last requote is old enough. */
  lemma ReplacementWaits(q: QuoteView, open: map<Slot, OrderRecord>, last: map<Slot, int>, slot: Slot,
      quote: QuoteIntent)
    requires Decide(q, open, last, slot, quote).PlaceAt?
    ensures slot in open && slot in last ==> q.nowMs - last[slot] >= q.minRequoteMs
  {
  }

  lemma PlaceThrottled(before: Requotes, e: PlaceEvent, minRequoteMs: int)
    requires Throttles(before, minRequoteMs)
    requires e.replacement && e.slot in before.last ==> e.atMs - before.last[e.slot] >= minRequoteMs
    ensures Throttles(Requotes(before.last[e.slot := e.atMs], before.events + [e]), minRequoteMs)
  {
    var events := before.events + [e];
    forall slot
      ensures Latest(events, slot) == if slot == e.slot then Some(e.atMs) else Latest(before.events, slot)
    {
      LatestAppend(before.events, e, slot);
    }
    forall j | 0 <= j < |events| && events[j].replacement && Latest(events[..j], events[j].slot).Some?
      ensures events[j].atMs - Latest(events[..j], events[j].slot).value >= minRequoteMs
    {
      if j < |before.events| {
        assert events[..j] == before.events[..j];
        assert events[j] == before.events[j];
      } else {
        assert events[..j] == before.events;
      }
    }
  }

  /** The loop of one call, whether or not it raises. */
  lemma {:induction false} SlotsThrottled(q: QuoteView, open: map<Slot, OrderRecord>, keys: seq<Slot>,
      at: map<Slot, QuoteIntent>, before: Requotes)
    requires Throttles(before, q.minRequoteMs)
    ensures var built := BuildSlots(q, open, keys, at, before.last);
      Throttles(Requotes(built.last, before.events + PlaceEvents(built.intents, q.nowMs)), q.minRequoteMs)
  {
    hide Decide, SlotIntents, Throttles, PlaceEvents;
    if keys == [] {
      NoEvents(q.nowMs);
      assert before.events + [] == before.events;
    } else {
      var n := |keys| - 1;
      SlotsThrottled(q, open, keys[..n], at, before);
      var built := BuildSlots(q, open, keys[..n], at, before.last);
      if built.outcome == Ok && keys[n] in at {
        var decision := Decide(q, open, built.last, keys[n], at[keys[n]]);
        var sofar := Requotes(built.last, before.events + PlaceEvents(built.intents, q.nowMs));
        var intents := SlotIntents(q, open, keys[n], decision);
        EventsConcat(built.intents, intents, q.nowMs);
        SlotEvents(q, open, keys[n], decision);
        if decision.PlaceAt? {
          ReplacementWaits(q, open, built.last, keys[n], at[keys[n]]);
          var e := PlaceEvent(keys[n], q.nowMs, keys[n] in open);
          PlaceThrottled(sofar, e, q.minRequoteMs);
          assert before.events + (PlaceEvents(built.intents, q.nowMs) + [e]) == sofar.events + [e];
        } else {
          assert before.events + (PlaceEvents(built.intents, q.nowMs) + []) == sofar.events;
        }
      }
    }
  }

  lemma CallThrottled(c: Call, before: Requotes)
    requires Throttles(before, c.q.minRequoteMs)
    ensures var built := BuildIntents(c.q, c.quotes, c.orders, before.last);
      Throttles(Requotes(built.last, before.events + PlaceEvents(built.intents, c.q.nowMs)), c.q.minRequoteMs)
  {
    hide Throttles, BuildSlots, StaleCancels, PlaceEvents, IndexOpen, Desired;
    var open, desired := IndexOpen(c.orders), Desired(c.quotes);
    var built := BuildSlots(c.q, open.at, desired.keys, desired.at, before.last);
    var stale := StaleCancels(open.keys, open.at, desired.at);
    SlotsThrottled(c.q, open.at, desired.keys, desired.at, before);
    StaleEvents(open.keys, open.at, desired.at, c.q.nowMs);
    EventsConcat(stale, built.intents, c.q.nowMs);
    assert [] + PlaceEvents(built.intents, c.q.nowMs) == PlaceEvents(built.intents, c.q.nowMs);
  }

  /** Over any sequence of calls, raising ones included, no replacement is placed within the requote interval of its
      slot's previous place. */
  lemma {:induction false} RequotesAreSpaced(calls: seq<Call>, minRequoteMs: int)
    requires forall i | 0 <= i < |calls| :: calls[i].q.minRequoteMs == minRequoteMs
    ensures Throttles(RunCalls(calls), minRequoteMs)
  {
    hide Throttles, BuildIntents, PlaceEvents;
    if calls == [] {
      NothingPlaced(minRequoteMs);
    } else {
      var n := |calls| - 1;
      RequotesAreSpaced(calls[..n], minRequoteMs);
      CallThrottled(calls[n], RunCalls(calls[..n]));
    }
  }

  lemma NothingPlaced(minRequoteMs: int)
    ensures Throttles(Requotes(map[], []), minRequoteMs)
  {
  }

  ghost predicate ClockForward(events: seq<PlaceEvent>) {
    forall i, j | 0 <= i <= j < |events| :: events[i].atMs <= events[j].atMs
  }

  lemma {:induction false} LatestAtLeast(events: seq<PlaceEvent>, i: nat)
    requires ClockForward(events) && i < |events|
    ensures Latest(events, events[i].slot).Some? && Latest(events, events[i].slot).value >= events[i].atMs
  {
    var n := |events| - 1;
    if events[n].slot != events[i].slot {
      LatestAtLeast(events[..n], i);
    }
  }

  /** While the clock does not run backwards, a replacement also keeps that distance from every earlier place of its
      slot, whichever calls of them returned. */
  lemma ReplacementsKeepDistance(calls: seq<Call>, minRequoteMs: int, i: nat, j: nat)
    requires forall k | 0 <= k < |calls| :: calls[k].q.minRequoteMs == minRequoteMs
    requires var events := RunCalls(calls).events;
      i < j < |events| && ClockForward(events) && events[j].replacement && events[i].slot == events[j].slot
    ensures var events := RunCalls(calls).events; events[j].atMs - events[i].atMs >= minRequoteMs
  {
    hide RunCalls;
    RequotesAreSpaced(calls, minRequoteMs);
    var events := RunCalls(calls).events;
    assert ClockForward(events[..j]);
    LatestAtLeast(events[..j], i);
  }
}
