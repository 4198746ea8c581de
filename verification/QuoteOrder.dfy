/** The order of the quote differ's intents (src/mm/quote/engine.py): first the cancels of the slots that are no longer
    desired, then the desired slots, each in the order in which its slot first appears. */
module QuoteOrder {
  import opened Dicts
  import opened Types
  import opened Quote
  import opened QuoteRuns
  import opened QuoteExact

  /** Slot `s` appears among the orders before slot `t` does. */
  ghost predicate HeldBefore(orders: seq<OrderRecord>, s: Slot, t: Slot) {
    exists x :: 0 <= x < |orders| && orders[x].InSlot(s) && forall y | 0 <= y <= x :: !orders[y].InSlot(t)
  }

  /** Slot `s` appears among the quotes before slot `t` does. */
  ghost predicate QuotedBefore(quotes: seq<QuoteIntent>, s: Slot, t: Slot) {
    exists x :: 0 <= x < |quotes| && ForSlot(quotes[x], s) && forall y | 0 <= y <= x :: !ForSlot(quotes[y], t)
  }

  ghost predicate IsQuoted(quotes: seq<QuoteIntent>, s: Slot) {
    exists x :: 0 <= x < |quotes| && ForSlot(quotes[x], s)
  }

  predicate ForThe(i: OrderIntent, s: Slot) {
    && i.side == Some(s.side) && i.symbol == s.symbol && i.strategy == s.strategy && i.level == Some(s.level)
  }

  /** `i` comes before `j`. */
  ghost predicate Precedes(quotes: seq<QuoteIntent>, orders: seq<OrderRecord>, i: OrderIntent, j: OrderIntent) {
    exists s, t | ForThe(i, s) && ForThe(j, t) ::
      if !IsQuoted(quotes, s) then IsQuoted(quotes, t) || HeldBefore(orders, s, t)
      else IsQuoted(quotes, t) && (QuotedBefore(quotes, s, t) || (s == t && i.action == Cancel && j.action == Place))
  }

  lemma HeldBeforeGrows(init: seq<OrderRecord>, o: OrderRecord, s: Slot, t: Slot)
    requires HeldBefore(init, s, t) || (s in IndexOpen(init).at && t !in IndexOpen(init).at)
    ensures HeldBefore(init + [o], s, t)
  {
    hide IndexOpen;
    IndexIsLast(init, s);
    IndexIsLast(init, t);
    var x :| 0 <= x < |init| && init[x].InSlot(s) && forall y | 0 <= y <= x :: !init[y].InSlot(t);
    var all := init + [o];
    assert all[x] == init[x] && forall y | 0 <= y <= x :: all[y] == init[y];
  }

  lemma {:induction false} HeldKeys(orders: seq<OrderRecord>)
    ensures var keys := IndexOpen(orders).keys;
      forall x, y | 0 <= x < y < |keys| :: HeldBefore(orders, keys[x], keys[y])
  {
    hide HeldBefore;
    if orders != [] {
      var n := |orders| - 1;
      var init := orders[..n];
      assert orders == init + [orders[n]];
      HeldKeys(init);
      IndexValid(init);
      ValidKeys(IndexOpen(init));
      var earlier, keys := IndexOpen(init), IndexOpen(orders).keys;
      forall x, y | 0 <= x < y < |keys|
        ensures HeldBefore(orders, keys[x], keys[y])
      {
        assert keys[x] == earlier.keys[x] && keys[x] in earlier.keys;
        HeldBeforeGrows(init, orders[n], keys[x], keys[y]);
      }
    }
  }

  lemma HeldAt(orders: seq<OrderRecord>, keys: seq<Slot>, x: nat, y: nat)
    requires keys == IndexOpen(orders).keys && x < y < |keys|
    ensures HeldBefore(orders, keys[x], keys[y])
  {
    HeldKeys(orders);
  }

  lemma QuotedBeforeGrows(init: seq<QuoteIntent>, o: QuoteIntent, s: Slot, t: Slot)
    requires QuotedBefore(init, s, t) || (s in Desired(init).at && t !in Desired(init).at)
    ensures QuotedBefore(init + [o], s, t)
  {
    hide Desired;
    DesiredIsLast(init, s);
    DesiredIsLast(init, t);
    var x :| 0 <= x < |init| && ForSlot(init[x], s) && forall y | 0 <= y <= x :: !ForSlot(init[y], t);
    var all := init + [o];
    assert all[x] == init[x] && forall y | 0 <= y <= x :: all[y] == init[y];
  }

  lemma {:induction false} QuotedKeys(quotes: seq<QuoteIntent>)
    ensures var keys := Desired(quotes).keys;
      forall x, y | 0 <= x < y < |keys| :: QuotedBefore(quotes, keys[x], keys[y])
  {
    hide QuotedBefore;
    if quotes != [] {
      var n := |quotes| - 1;
      var init := quotes[..n];
      assert quotes == init + [quotes[n]];
      QuotedKeys(init);
      DesiredValid(init);
      ValidKeys(Desired(init));
      var earlier, keys := Desired(init), Desired(quotes).keys;
      forall x, y | 0 <= x < y < |keys|
        ensures QuotedBefore(quotes, keys[x], keys[y])
      {
        assert keys[x] == earlier.keys[x] && keys[x] in earlier.keys;
        QuotedBeforeGrows(init, quotes[n], keys[x], keys[y]);
      }
    }
  }

  lemma QuotedAt(quotes: seq<QuoteIntent>, keys: seq<Slot>, x: nat, y: nat)
    requires keys == Desired(quotes).keys && x < y < |keys|
    ensures QuotedBefore(quotes, keys[x], keys[y])
  {
    QuotedKeys(quotes);
  }

  /** The stale cancels come in the order of the keys. */
  lemma {:induction false} StaleKeys(keys: seq<Slot>, open: map<Slot, OrderRecord>, desired: map<Slot, QuoteIntent>)
    returns (at: seq<nat>)
    requires forall k | k in open :: open[k].level.Some? && OrderSlot(open[k]) == k
    ensures var s := StaleCancels(keys, open, desired);
      && |at| == |s|
      && (forall a | 0 <= a < |s| :: at[a] < |keys| && keys[at[a]] !in desired && ForThe(s[a], keys[at[a]]))
      && (forall a, b | 0 <= a < b < |s| :: at[a] < at[b])
  {
    at := [];
    if keys != [] {
      var n := |keys| - 1;
      at := StaleKeys(keys[..n], open, desired);
      if keys[n] !in desired && keys[n] in open {
        at := at + [n];
      }
    }
  }

  lemma OneSlot(q: QuoteView, open: map<Slot, OrderRecord>, slot: Slot, d: Decision)
    requires slot in open ==> open[slot].level.Some? && OrderSlot(open[slot]) == slot
    ensures var s := SlotIntents(q, open, slot, d);
      && (d.Fails? ==> s == [])
      && (forall a | 0 <= a < |s| :: ForThe(s[a], slot))
      && (forall a, b | 0 <= a < b < |s| :: s[a].action == Cancel && s[b].action == Place)
  {
  }

  /** So do the intents of the desired slots; two of one slot are its cancel and its place. */
  lemma {:induction false} SlotKeys(q: QuoteView, open: map<Slot, OrderRecord>, keys: seq<Slot>,
      at: map<Slot, QuoteIntent>, last: map<Slot, int>) returns (of: seq<nat>)
    requires forall k | k in open :: open[k].level.Some? && OrderSlot(open[k]) == k
    ensures var s := BuildSlots(q, open, keys, at, last).intents;
      && |of| == |s|
      && (forall a | 0 <= a < |s| :: of[a] < |keys| && ForThe(s[a], keys[of[a]]))
      && (forall a, b | 0 <= a < b < |s| ::
            of[a] < of[b] || (of[a] == of[b] && s[a].action == Cancel && s[b].action == Place))
  {
    hide Decide, Touched, SlotIntents, ForThe;
    of := [];
    if keys != [] {
      var n := |keys| - 1;
      of := SlotKeys(q, open, keys[..n], at, last);
      var before := BuildSlots(q, open, keys[..n], at, last);
      if before.outcome == Ok && keys[n] in at {
        var d := Decide(q, open, before.last, keys[n], at[keys[n]]);
        OneSlot(q, open, keys[n], d);
        var more := SlotIntents(q, open, keys[n], d);
        var s := before.intents + more;
        var m := |before.intents|;
        of := of + seq(|more|, _ => n);
        assert forall a | m <= a < |s| :: s[a] == more[a - m] && of[a] == n && ForThe(s[a], keys[n]);
      }
    }
  }

  /** The intents of a call, in order. */
  lemma IntentsInOrder(q: QuoteView, quotes: seq<QuoteIntent>, orders: seq<OrderRecord>, last: map<Slot, int>)
    ensures var intents := BuildIntents(q, quotes, orders, last).intents;
      forall a, b | 0 <= a < b < |intents| :: Precedes(quotes, orders, intents[a], intents[b])
  {
    hide BuildSlots, StaleCancels, IndexOpen, Desired, HeldBefore, QuotedBefore, IsQuoted, ForThe;
    var open, desired := IndexOpen(orders), Desired(quotes);
    forall k | k in open.at
      ensures open.at[k].level.Some? && OrderSlot(open.at[k]) == k
    {
      IndexedAt(orders, k);
    }
    DesiredValid(quotes);
    ValidKeys(desired);
    var first := StaleKeys(open.keys, open.at, desired.at);
    var next := SlotKeys(q, open.at, desired.keys, desired.at, last);
    forall s
      ensures s in desired.at <==> IsQuoted(quotes, s)
    {
      QuotedExactly(quotes, s);
    }
    var intents := BuildIntents(q, quotes, orders, last).intents;
    forall a, b | 0 <= a < b < |intents|
      ensures Precedes(quotes, orders, intents[a], intents[b])
    {
      var s := if a < |first| then open.keys[first[a]] else desired.keys[next[a - |first|]];
      var t := if b < |first| then open.keys[first[b]] else desired.keys[next[b - |first|]];
      assert ForThe(intents[a], s) && ForThe(intents[b], t);
      assert IsQuoted(quotes, s) <==> a >= |first|;
      assert b >= |first| ==> IsQuoted(quotes, t);
      if b < |first| {
        HeldAt(orders, open.keys, first[a], first[b]);
      } else if a >= |first| && next[a - |first|] != next[b - |first|] {
        QuotedAt(quotes, desired.keys, next[a - |first|], next[b - |first|]);
      }
    }
  }

  lemma QuotedExactly(quotes: seq<QuoteIntent>, s: Slot)
    ensures s in Desired(quotes).at <==> IsQuoted(quotes, s)
  {
    DesiredIsLast(quotes, s);
  }
}
