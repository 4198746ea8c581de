/** The quote differ's intents, exactly (src/mm/quote/engine.py): which orders are canceled, which are placed, at what
    price and size, and when. */
module QuoteExact {
  import opened Dicts
  import opened Types
  import opened Pricing
  import opened Quote
  import opened QuoteRuns

  // ------------------------------------------------------------------------------- what is there, what is wanted

  /** Of the orders with a level, the last one in the slot. */
  ghost predicate LastIn(orders: seq<OrderRecord>, slot: Slot, o: OrderRecord) {
    exists k :: 0 <= k < |orders| && orders[k] == o && o.InSlot(slot)
      && forall j | k < j < |orders| :: !orders[j].InSlot(slot)
  }

  lemma {:induction false} IndexIsLast(orders: seq<OrderRecord>, slot: Slot)
    ensures var open := IndexOpen(orders).at;
      && (slot in open <==> exists k :: 0 <= k < |orders| && orders[k].InSlot(slot))
      && (slot in open ==> LastIn(orders, slot, open[slot]))
  {
    if orders != [] {
      var n := |orders| - 1;
      var init := orders[..n];
      IndexIsLast(init, slot);
      var open := IndexOpen(orders).at;
      assert forall k | 0 <= k < n :: init[k] == orders[k];
      if orders[n].InSlot(slot) {
        assert open[slot] == orders[n];
      } else if slot in open {
        var k :| 0 <= k < n && init[k] == open[slot] && open[slot].InSlot(slot)
          && forall j | k < j < n :: !init[j].InSlot(slot);
        assert orders[k] == open[slot];
      }
    }
  }

  predicate ForSlot(quote: QuoteIntent, slot: Slot) {
    && quote.strategy == slot.strategy && quote.symbol == slot.symbol
    && quote.side == slot.side && quote.level == slot.level
  }

  /** The last quote for the slot. */
  ghost predicate LastFor(quotes: seq<QuoteIntent>, slot: Slot, quote: QuoteIntent) {
    exists k :: 0 <= k < |quotes| && quotes[k] == quote && ForSlot(quote, slot)
      && forall j | k < j < |quotes| :: !ForSlot(quotes[j], slot)
  }

  lemma {:induction false} DesiredIsLast(quotes: seq<QuoteIntent>, slot: Slot)
    ensures var desired := Desired(quotes).at;
      && (slot in desired <==> exists k :: 0 <= k < |quotes| && ForSlot(quotes[k], slot))
      && (slot in desired ==> LastFor(quotes, slot, desired[slot]))
  {
    if quotes != [] {
      var n := |quotes| - 1;
      var init := quotes[..n];
      DesiredIsLast(init, slot);
      var desired := Desired(quotes).at;
      assert forall k | 0 <= k < n :: init[k] == quotes[k];
      if ForSlot(quotes[n], slot) {
        assert desired[slot] == quotes[n];
      } else if slot in desired {
        var k :| 0 <= k < n && init[k] == desired[slot] && ForSlot(desired[slot], slot)
          && forall j | k < j < n :: !ForSlot(init[j], slot);
        assert quotes[k] == desired[slot];
      }
    }
  }

  // ------------------------------------------------------------------------------- one slot

  /** The quote asks for size `z` at price `p`: its symbol has rules and a market, `p` and `z` are its post-only price
      and its aligned size, and they meet the minimums. */
  ghost predicate Wanted(q: QuoteView, quote: QuoteIntent, p: real, z: real) {
    && quote.symbol in q.rules && quote.symbol in q.markets
    && var rule := q.rules[quote.symbol];
    && rule.priceIncrement > 0.0 && rule.sizeIncrement > 0.0
    && PostOnlyAt(p, quote.side, quote.price, q.markets[quote.symbol], rule.priceIncrement)
    && AlignedAt(z, quote.size, rule.sizeIncrement)
    && z >= rule.baseMinSize && p * z >= rule.minNotional
  }

  /** The order rests at price `p` with exactly `z` left of it. */
  predicate Rests(o: OrderRecord, p: real, z: real) {
    o.price == Some(p) && z == if o.size < o.filledSize then 0.0 else o.size - o.filledSize
  }

  /** The requote interval of the slot has passed; a slot never placed counts as placed at time 0. */
  predicate Due(q: QuoteView, last: map<Slot, int>, slot: Slot) {
    q.nowMs >= (if slot in last then last[slot] else 0) + q.minRequoteMs
  }

  /** What the differ works with. */
  predicate Computes(q: QuoteView, quote: QuoteIntent) {
    && quote.symbol in q.rules
    && (quote.symbol in q.markets ==>
          q.rules[quote.symbol].priceIncrement > 0.0 && q.rules[quote.symbol].sizeIncrement > 0.0)
  }

  lemma DecideWanted(q: QuoteView, open: map<Slot, OrderRecord>, last: map<Slot, int>, slot: Slot, quote: QuoteIntent,
      p: real, z: real)
    requires Wanted(q, quote, p, z)
    ensures var d := Decide(q, open, last, slot, quote);
      if slot in open && Rests(open[slot], p, z) then d == Unchanged
      else if slot in open && !Due(q, last, slot) then d == Throttled
      else d == PlaceAt(p, z)
  {
    hide PostOnlyPrice, AlignSize, PostOnlyAt, AlignedAt;
    var rule, market := q.rules[quote.symbol], q.markets[quote.symbol];
    PostOnlyPriceExactly(rule, market, quote.side, quote.price);
    PostOnlyIsOne(p, PostOnlyPrice(rule, market, quote.side, quote.price), quote.side, quote.price, market,
                  rule.priceIncrement);
    AlignedIsOne(rule, z, quote.size);
  }

  lemma DecidePlaces(q: QuoteView, open: map<Slot, OrderRecord>, last: map<Slot, int>, slot: Slot, quote: QuoteIntent)
    ensures var d := Decide(q, open, last, slot, quote);
      && (d.PlaceAt? ==> Wanted(q, quote, d.price, d.size))
      && (d.Fails? <==> !Computes(q, quote))
      && (d.Fails? ==> d.error == if quote.symbol in q.rules then ValueError else KeyError)
      && (d in {Unchanged, Throttled} ==> exists p, z :: Wanted(q, quote, p, z))
  {
    hide PostOnlyPrice, AlignSize, PostOnlyAt, AlignedAt;
    if Computes(q, quote) && quote.symbol in q.markets {
      var rule, market := q.rules[quote.symbol], q.markets[quote.symbol];
      var p, z := PostOnlyPrice(rule, market, quote.side, quote.price), AlignSize(rule, quote.size);
      PostOnlyPriceExactly(rule, market, quote.side, quote.price);
      AlignedIsOne(rule, z, quote.size);
      assert rule.ValidMinimums(p, z) ==> Wanted(q, quote, p, z);
    }
  }

  // ------------------------------------------------------------------------------- one call

  /** The cancel of an order. */
  predicate CancelOf(i: OrderIntent, o: OrderRecord) {
    && i.action == Cancel && i.symbol == o.symbol && i.side == Some(o.side) && i.price == o.price
    && i.size == Some(if o.size < o.filledSize then 0.0 else o.size - o.filledSize)
    && i.clientOrderId == Some(o.clientOrderId) && i.oldClientOrderId == Some(o.clientOrderId)
    && i.strategy == o.strategy && i.level == o.level && i.orderType == LimitMaker
  }

  /** A place in the slot, under its new id. */
  predicate PlaceOf(i: OrderIntent, q: QuoteView, slot: Slot, p: real, z: real, replaced: Option<string>) {
    && i.action == Place && i.symbol == slot.symbol && i.side == Some(slot.side) && i.price == Some(p)
    && i.size == Some(z) && i.clientOrderId == Some(q.newId(slot)) && i.oldClientOrderId == replaced
    && i.strategy == slot.strategy && i.level == Some(slot.level) && i.orderType == LimitMaker
  }

  /** The slot is wanted at `p` and `z`, and what rests there is something else and due to be replaced, or nothing. */
  ghost predicate Replaces(q: QuoteView, quotes: seq<QuoteIntent>, orders: seq<OrderRecord>, last: map<Slot, int>,
      slot: Slot, p: real, z: real) {
    && slot in Desired(quotes).at && Wanted(q, Desired(quotes).at[slot], p, z)
    && (slot in IndexOpen(orders).at ==> !Rests(IndexOpen(orders).at[slot], p, z) && Due(q, last, slot))
  }

  /** Why an intent is there: it cancels the order of a slot that is not desired any more, or it is part of a
      replacement. */
  ghost predicate Called(q: QuoteView, quotes: seq<QuoteIntent>, orders: seq<OrderRecord>, last: map<Slot, int>,
      slot: Slot, i: OrderIntent) {
    var open := IndexOpen(orders).at;
    || (slot in open && slot !in Desired(quotes).at && CancelOf(i, open[slot]))
    || (exists p, z | Replaces(q, quotes, orders, last, slot, p, z) ::
          if slot in open then CancelOf(i, open[slot]) || PlaceOf(i, q, slot, p, z, Some(open[slot].clientOrderId))
          else PlaceOf(i, q, slot, p, z, None))
  }

  lemma SlotIntentsAre(q: QuoteView, quotes: seq<QuoteIntent>, orders: seq<OrderRecord>, last: map<Slot, int>,
      slot: Slot, i: OrderIntent)
    ensures HasDecision(q, quotes, orders, last, slot, i) || IsStale(quotes, orders, slot, i)
      <==> Called(q, quotes, orders, last, slot, i)
  {
    hide Decide, Wanted, IndexOpen, Desired, Rests, Due;
    var open := IndexOpen(orders).at;
    if slot in Desired(quotes).at {
      var quote := Desired(quotes).at[slot];
      var d := Decide(q, open, last, slot, quote);
      DecidePlaces(q, open, last, slot, quote);
      if d.PlaceAt? {
        DecideWanted(q, open, last, slot, quote, d.price, d.size);
        assert Replaces(q, quotes, orders, last, slot, d.price, d.size);
      }
      forall p, z | Replaces(q, quotes, orders, last, slot, p, z)
        ensures d == PlaceAt(p, z)
      {
        DecideWanted(q, open, last, slot, quote, p, z);
      }
    }
  }

  /** The intents of a call that returns, exactly. */
  lemma IntentsExactly(q: QuoteView, quotes: seq<QuoteIntent>, orders: seq<OrderRecord>, last: map<Slot, int>,
      i: OrderIntent)
    requires BuildIntents(q, quotes, orders, last).outcome == Ok
    ensures i in BuildIntents(q, quotes, orders, last).intents
      <==> exists slot :: Called(q, quotes, orders, last, slot, i)
  {
    hide BuildIntents, HasDecision, IsStale, Called;
    if i in BuildIntents(q, quotes, orders, last).intents {
      IntentSource(q, quotes, orders, last, i);
      var slot :| HasDecision(q, quotes, orders, last, slot, i) || IsStale(quotes, orders, slot, i);
      SlotIntentsAre(q, quotes, orders, last, slot, i);
    }
    if slot :| Called(q, quotes, orders, last, slot, i) {
      SlotIntentsAre(q, quotes, orders, last, slot, i);
      DecisionEmitted(q, quotes, orders, last, slot, i);
    }
  }

  /** An open order of a desired slot is replaced exactly when the interval has passed and its price or what is left of
      it differs from the quote's post-only price and aligned size; the replacement has exactly these. */
  lemma ReplacedExactly(q: QuoteView, quotes: seq<QuoteIntent>, orders: seq<OrderRecord>, last: map<Slot, int>,
      slot: Slot, p: real, z: real)
    requires BuildIntents(q, quotes, orders, last).outcome == Ok && UniqueIds(orders)
    requires slot in IndexOpen(orders).at && slot in Desired(quotes).at && Wanted(q, Desired(quotes).at[slot], p, z)
    ensures var intents := BuildIntents(q, quotes, orders, last).intents; var o := IndexOpen(orders).at[slot];
      && (AsksCancel(intents, o.clientOrderId) <==> !Rests(o, p, z) && Due(q, last, slot))
      && (AsksCancel(intents, o.clientOrderId) ==>
            exists i :: i in intents && PlaceOf(i, q, slot, p, z, Some(o.clientOrderId)))
  {
    hide BuildIntents, Wanted, IndexOpen, Desired, Rests, Due;
    var intents, open := BuildIntents(q, quotes, orders, last).intents, IndexOpen(orders).at;
    var o := open[slot];
    IndexMembers(orders);
    if AsksCancel(intents, o.clientOrderId) {
      var n :| 0 <= n < |intents| && intents[n].action == Cancel && intents[n].clientOrderId == Some(o.clientOrderId);
      IntentsExactly(q, quotes, orders, last, intents[n]);
      var from :| Called(q, quotes, orders, last, from, intents[n]);
      assert from == slot;
      var p2, z2 :| Replaces(q, quotes, orders, last, slot, p2, z2);
      WantedIsOne(q, Desired(quotes).at[slot], p, z, p2, z2);
    }
    if !Rests(o, p, z) && Due(q, last, slot) {
      assert Replaces(q, quotes, orders, last, slot, p, z);
      var cancel := CancelIntent(o);
      var place := PlaceIntent(slot, p, z, q.newId(slot), Some(o.clientOrderId));
      assert CancelOf(cancel, o) && PlaceOf(place, q, slot, p, z, Some(o.clientOrderId));
      assert Called(q, quotes, orders, last, slot, cancel) && Called(q, quotes, orders, last, slot, place);
      IntentsExactly(q, quotes, orders, last, cancel);
      IntentsExactly(q, quotes, orders, last, place);
      var n :| 0 <= n < |intents| && intents[n] == cancel;
    }
  }

  lemma WantedIsOne(q: QuoteView, quote: QuoteIntent, p: real, z: real, p2: real, z2: real)
    requires Wanted(q, quote, p, z) && Wanted(q, quote, p2, z2)
    ensures p == p2 && z == z2
  {
    hide PostOnlyAt, AlignedAt;
    var rule := q.rules[quote.symbol];
    PostOnlyIsOne(p, p2, quote.side, quote.price, q.markets[quote.symbol], rule.priceIncrement);
    AlignedIsOne(rule, z, quote.size);
    AlignedIsOne(rule, z2, quote.size);
  }

  // ------------------------------------------------------------------------------- carried out

  /** Every desired slot whose order has to be replaced is due. */
  ghost predicate AllDue(q: QuoteView, quotes: seq<QuoteIntent>, orders: seq<OrderRecord>, last: map<Slot, int>) {
    forall slot, p, z | slot in Desired(quotes).at && Wanted(q, Desired(quotes).at[slot], p, z)
                        && slot in IndexOpen(orders).at && !Rests(IndexOpen(orders).at[slot], p, z) ::
      Due(q, last, slot)
  }

  lemma DueIsUnthrottled(q: QuoteView, quotes: seq<QuoteIntent>, orders: seq<OrderRecord>, last: map<Slot, int>)
    requires AllDue(q, quotes, orders, last)
    ensures forall slot | slot in Desired(quotes).at ::
      Decide(q, IndexOpen(orders).at, last, slot, Desired(quotes).at[slot]) != Throttled
  {
    hide Decide, Wanted, IndexOpen, Desired, Rests, Due;
    var open := IndexOpen(orders).at;
    forall slot | slot in Desired(quotes).at
      ensures Decide(q, open, last, slot, Desired(quotes).at[slot]) != Throttled
    {
      var quote := Desired(quotes).at[slot];
      DecidePlaces(q, open, last, slot, quote);
      if Decide(q, open, last, slot, quote) == Throttled {
        var p, z :| Wanted(q, quote, p, z);
        DecideWanted(q, open, last, slot, quote, p, z);
      }
    }
  }

  /** Once the intents of a call with nothing throttled are carried out, every desired slot that is wanted at `p` and
      `z` holds an open order at exactly `p` with exactly `z` left. */
  lemma DesiredIsShown(q: QuoteView, quotes: seq<QuoteIntent>, orders: seq<OrderRecord>, last: map<Slot, int>,
      after: seq<OrderRecord>, slot: Slot, p: real, z: real)
    requires BuildIntents(q, quotes, orders, last).outcome == Ok && UniqueSlots(orders) && UniqueIds(orders)
    requires (forall x | x in q.rules :: q.rules[x].baseMinSize >= 0.0) && AllDue(q, quotes, orders, last)
    requires CarriedOut(orders, BuildIntents(q, quotes, orders, last).intents, after)
    requires slot in Desired(quotes).at && Wanted(q, Desired(quotes).at[slot], p, z)
    ensures exists o :: o in after && o.InSlot(slot) && Rests(o, p, z)
  {
    hide BuildIntents, Decide, Wanted, IndexOpen, Desired, Due, UniqueSlots, UniqueIds;
    DueIsUnthrottled(q, quotes, orders, last);
    assert FirstPass(q, quotes, orders, last);
    var open := IndexOpen(orders).at;
    DecideWanted(q, open, last, slot, Desired(quotes).at[slot], p, z);
    var d := DecisionFor(q, quotes, orders, last, slot);
    if d.PlaceAt? {
      var i := PlaceEmitted(q, quotes, orders, last, slot);
      PlaceSource(q, quotes, orders, last, i);
      var o :| o in after && Shows(o, i);
      assert o.InSlot(slot) && Rests(o, p, z);
    } else {
      IndexedAt(orders, slot);
      CanceledExactly(q, quotes, orders, last, open[slot]);
      assert open[slot] in after && open[slot].InSlot(slot);
    }
  }

  // ------------------------------------------------------------------------------- requote times, errors, order

  /** A call that returns sets the requote time of exactly the slots it places. */
  lemma RequoteTimesExactly(q: QuoteView, quotes: seq<QuoteIntent>, orders: seq<OrderRecord>, last: map<Slot, int>,
      slot: Slot)
    requires BuildIntents(q, quotes, orders, last).outcome == Ok
    ensures var end := BuildIntents(q, quotes, orders, last).last;
      if exists p, z :: Replaces(q, quotes, orders, last, slot, p, z) then slot in end && end[slot] == q.nowMs
      else (slot in end <==> slot in last) && (slot in last ==> end[slot] == last[slot])
  {
    hide Decide, Wanted, IndexOpen, Desired, Rests, Due, StaleCancels, BuildSlots;
    var open, desired := IndexOpen(orders), Desired(quotes);
    DesiredValid(quotes);
    ValidKeys(desired);
    SlotTimes(q, open.at, desired.keys, desired.at, last, slot);
    if slot in desired.at {
      var quote := desired.at[slot];
      var d := Decide(q, open.at, last, slot, quote);
      DecidePlaces(q, open.at, last, slot, quote);
      if d.PlaceAt? {
        DecideWanted(q, open.at, last, slot, quote, d.price, d.size);
        assert Replaces(q, quotes, orders, last, slot, d.price, d.size);
      }
      forall p, z | Replaces(q, quotes, orders, last, slot, p, z)
        ensures d == PlaceAt(p, z)
      {
        DecideWanted(q, open.at, last, slot, quote, p, z);
      }
    }
  }

  lemma {:induction false} SlotTimes(q: QuoteView, open: map<Slot, OrderRecord>, keys: seq<Slot>,
      at: map<Slot, QuoteIntent>, last: map<Slot, int>, slot: Slot)
    requires Distinct(keys) && (forall k | k in keys :: k in at) && BuildSlots(q, open, keys, at, last).outcome == Ok
    ensures var end := BuildSlots(q, open, keys, at, last).last;
      if slot in keys && Decide(q, open, last, slot, at[slot]).PlaceAt? then slot in end && end[slot] == q.nowMs
      else (slot in end <==> slot in last) && (slot in last ==> end[slot] == last[slot])
  {
    hide Decide, SlotIntents;
    if keys != [] {
      var n := |keys| - 1;
      var init := keys[..n];
      assert keys == init + [keys[n]];
      SlotTimes(q, open, init, at, last, slot);
      var before := BuildSlots(q, open, init, at, last);
      BuildSlotsLast(q, open, init, at, last, keys[n]);
      DecideSame(q, open, before.last, last, keys[n], at[keys[n]]);
    }
  }

  /** Slot `n` is the first that cannot be computed. */
  ghost predicate FailsAt(q: QuoteView, keys: seq<Slot>, at: map<Slot, QuoteIntent>, n: nat)
    requires forall k | k in keys :: k in at
  {
    n < |keys| && !Computes(q, at[keys[n]]) && forall j | 0 <= j < n :: Computes(q, at[keys[j]])
  }

  ghost predicate RaisesFirst(q: QuoteView, keys: seq<Slot>, at: map<Slot, QuoteIntent>, outcome: Outcome)
    requires forall k | k in keys :: k in at
  {
    if forall k | k in keys :: Computes(q, at[k]) then outcome == Ok
    else exists n: nat ::
      FailsAt(q, keys, at, n) && outcome == Raised(if at[keys[n]].symbol in q.rules then ValueError else KeyError)
  }

  /** A call raises exactly when some desired slot's symbol has no rule, or has a market and an increment that is not
      positive: KeyError or ValueError for the first such slot. */
  lemma RaisesExactly(q: QuoteView, quotes: seq<QuoteIntent>, orders: seq<OrderRecord>, last: map<Slot, int>)
    ensures forall k | k in Desired(quotes).keys :: k in Desired(quotes).at
    ensures RaisesFirst(q, Desired(quotes).keys, Desired(quotes).at, BuildIntents(q, quotes, orders, last).outcome)
  {
    hide BuildSlots, StaleCancels, IndexOpen, Desired, RaisesFirst;
    DesiredValid(quotes);
    ValidKeys(Desired(quotes));
    SlotsRaise(q, IndexOpen(orders).at, Desired(quotes).keys, Desired(quotes).at, last);
  }

  lemma RaisesAppend(q: QuoteView, keys: seq<Slot>, k: Slot, at: map<Slot, QuoteIntent>, outcome: Outcome)
    requires k in at && (forall x | x in keys :: x in at) && RaisesFirst(q, keys, at, outcome)
    ensures RaisesFirst(q, keys + [k], at,
                        if outcome != Ok || Computes(q, at[k]) then outcome
                        else Raised(if at[k].symbol in q.rules then ValueError else KeyError))
  {
    hide Computes;
    var all := keys + [k];
    if outcome != Ok {
      var n: nat :| FailsAt(q, keys, at, n)
        && outcome == Raised(if at[keys[n]].symbol in q.rules then ValueError else KeyError);
      assert all[n] == keys[n] && forall j | 0 <= j < n :: all[j] == keys[j];
      assert all[n] in all && FailsAt(q, all, at, n);
    } else if !Computes(q, at[k]) {
      assert all[|keys|] == k && k in all;
      assert forall j | 0 <= j < |keys| :: all[j] == keys[j] && keys[j] in keys;
      assert FailsAt(q, all, at, |keys|);
    }
  }

  lemma {:induction false} SlotsRaise(q: QuoteView, open: map<Slot, OrderRecord>, keys: seq<Slot>,
      at: map<Slot, QuoteIntent>, last: map<Slot, int>)
    requires forall k | k in keys :: k in at
    ensures RaisesFirst(q, keys, at, BuildSlots(q, open, keys, at, last).outcome)
  {
    hide Decide, SlotIntents, Touched, Computes, FailsAt;
    if keys != [] {
      var n := |keys| - 1;
      assert keys == keys[..n] + [keys[n]];
      SlotsRaise(q, open, keys[..n], at, last);
      var before := BuildSlots(q, open, keys[..n], at, last);
      DecidePlaces(q, open, before.last, keys[n], at[keys[n]]);
      RaisesAppend(q, keys[..n], keys[n], at, before.outcome);
    }
  }

  /** A replacement follows the cancel of the order it replaces. */
  predicate Follows(intents: seq<OrderIntent>) {
    forall n | 0 <= n < |intents| && intents[n].action == Place && intents[n].oldClientOrderId.Some? ::
      n > 0 && intents[n - 1].action == Cancel && intents[n - 1].clientOrderId == intents[n].oldClientOrderId
  }

  lemma FollowsConcat(a: seq<OrderIntent>, b: seq<OrderIntent>)
    requires Follows(a) && Follows(b)
    ensures Follows(a + b)
  {
    var all := a + b;
    forall n | 0 <= n < |all| && all[n].action == Place && all[n].oldClientOrderId.Some?
      ensures n > 0 && all[n - 1].action == Cancel && all[n - 1].clientOrderId == all[n].oldClientOrderId
    {
      if n < |a| {
        assert all[n] == a[n] && all[n - 1] == a[n - 1];
      } else {
        assert all[n] == b[n - |a|] && all[n - 1] == b[n - |a| - 1];
      }
    }
  }

  lemma {:induction false} SlotsFollow(q: QuoteView, open: map<Slot, OrderRecord>, keys: seq<Slot>,
      at: map<Slot, QuoteIntent>, last: map<Slot, int>)
    ensures Follows(BuildSlots(q, open, keys, at, last).intents)
  {
    hide Decide, Touched, Follows;
    if keys == [] {
      NothingFollows();
    } else {
      var n := |keys| - 1;
      SlotsFollow(q, open, keys[..n], at, last);
      var before := BuildSlots(q, open, keys[..n], at, last);
      if before.outcome == Ok && keys[n] in at {
        var d := Decide(q, open, before.last, keys[n], at[keys[n]]);
        SlotFollows(q, open, keys[n], d);
        FollowsConcat(before.intents, SlotIntents(q, open, keys[n], d));
      }
    }
  }

  lemma NothingFollows()
    ensures Follows([])
  {
  }

  lemma SlotFollows(q: QuoteView, open: map<Slot, OrderRecord>, slot: Slot, d: Decision)
    ensures Follows(SlotIntents(q, open, slot, d))
  {
  }

  /** In every call each replacement directly follows the cancel of the order it replaces. */
  lemma ReplacementsFollow(q: QuoteView, quotes: seq<QuoteIntent>, orders: seq<OrderRecord>, last: map<Slot, int>)
    ensures Follows(BuildIntents(q, quotes, orders, last).intents)
  {
    hide BuildSlots, StaleCancels, IndexOpen, Desired;
    var open, desired := IndexOpen(orders), Desired(quotes);
    StaleAreCancels(open.keys, open.at, desired.at);
    SlotsFollow(q, open.at, desired.keys, desired.at, last);
    FollowsConcat(StaleCancels(open.keys, open.at, desired.at),
                  BuildSlots(q, open.at, desired.keys, desired.at, last).intents);
  }
}
