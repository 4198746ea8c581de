/** The bound of `Caps` is attained: for all positive limits and every n, by one tick that is given n quotes. */
module CapsTight {
  import opened Dicts
  import opened Types
  import opened OrderState
  import opened Oms
  import opened OmsRuns
  import opened Exposure
  import opened Pricing
  import opened Quote
  import opened Risk
  import opened App
  import opened AppRuns
  import opened Caps
  import Reconcile

  // ------------------------------------------------------------------------------- the tick

  function NthId(j: nat): (id: string)
    ensures |id| == j
  {
    seq(j, _ => 'x')
  }

  function NthSlot(j: nat): Slot {
    Slot("maker", "X", Buy, j)
  }

  function NthQuote(j: nat, size: real): QuoteIntent {
    QuoteIntent("X", Buy, 1.0, size, j, "maker")
  }

  /** n bids of one size at price 1, each at a level of its own. */
  function Quotes(n: nat, size: real): (quotes: seq<QuoteIntent>)
    ensures |quotes| == n
  {
    if n == 0 then [] else Quotes(n - 1, size) + [NthQuote(n - 1, size)]
  }

  function IdOf(slot: Slot): string {
    if slot.level < 0 then "" else NthId(slot.level)
  }

  /** One symbol with its market around the price 1, and room for orders of the given size. */
  function TightView(size: real, total: real, most: real): RiskView {
    RiskView(RiskSettings(most, total, 2, size, 1.0, 10000.0, map[], map[], map[]),
             map["X" := MarketRule("X", "B", "Q", 1.0, size, size, 0.0)], 0, false, 0.0,
             map["X" := MarketSnapshot("X", 1.0, 1.0, 2.0, 1.0, 0, [], [])], map[], 0)
  }

  /** Every submit times out. */
  function SilentGateway(): Gateway {
    Gateway(_ => GatewayRaised, _ => GatewayRaised)
  }

  function TightTick(n: nat, size: real, total: real, most: real): TickInput {
    TickInput([], Quotes(n, size), TightView(size, total, most), false, 0, 0, IdOf, SilentGateway())
  }

  /** An open order of `rest` units at price 1, outside every slot. */
  function BaseOrder(rest: real): OrderRecord {
    OrderRecord("X", Buy, Some(1.0), rest, "limit", "y", "other", None, Open, None, 0.0, None)
  }

  function BaseOms(rest: real): OmsState {
    OmsState(Put(Empty(), "y", BaseOrder(rest)), [])
  }

  // ------------------------------------------------------------------------------- the intents

  function NthIntent(j: nat, size: real): OrderIntent {
    PlaceIntent(NthSlot(j), 1.0, size, NthId(j), None)
  }

  function Ladder(n: nat, size: real): seq<OrderIntent> {
    if n == 0 then [] else Ladder(n - 1, size) + [NthIntent(n - 1, size)]
  }

  function LadderRequest(j: nat, size: real): OrderRequest {
    OrderRequest("X", Buy, LimitMaker, size, Some(1.0), NthId(j), "maker", Some(j))
  }

  function LadderRequests(n: nat, size: real): seq<OrderRequest> {
    if n == 0 then [] else LadderRequests(n - 1, size) + [LadderRequest(n - 1, size)]
  }

  lemma SelfAligned(size: real)
    requires size > 0.0
    ensures FloorTo(size, size) == size
  {
    assert size / size == 1.0;
  }

  lemma NthDecision(j: nat, size: real, total: real, most: real, last: map<Slot, int>)
    requires size > 0.0
    ensures Decide(TickQuoteView(TightTick(0, size, total, most)), map[], last, NthSlot(j), NthQuote(j, size))
         == PlaceAt(1.0, size)
  {
    SelfAligned(size);
    SelfAligned(1.0);
    assert 1.0 * size == size;
  }

  function LadderSlots(n: nat): (keys: seq<Slot>)
    ensures |keys| == n
  {
    if n == 0 then [] else LadderSlots(n - 1) + [NthSlot(n - 1)]
  }

  lemma {:induction false} LadderDesired(n: nat, size: real)
    ensures var d := Desired(Quotes(n, size));
      && d.keys == LadderSlots(n) && (forall slot | slot in d.at :: 0 <= slot.level < n)
      && (forall j | 0 <= j < n :: NthSlot(j) in d.at && d.at[NthSlot(j)] == NthQuote(j, size))
  {
    hide Desired, Quotes;
    if n == 0 {
      NothingDesired(size);
    } else {
      LadderDesired(n - 1, size);
      DesiredStep(n - 1, size);
    }
  }

  lemma NothingDesired(size: real)
    ensures Desired(Quotes(0, size)) == Empty()
  {
  }

  lemma DesiredStep(n: nat, size: real)
    ensures Desired(Quotes(n + 1, size)) == Put(Desired(Quotes(n, size)), NthSlot(n), NthQuote(n, size))
  {
    var quotes := Quotes(n + 1, size);
    assert quotes[..|quotes| - 1] == Quotes(n, size);
  }

  lemma BuildAppend(q: QuoteView, open: map<Slot, OrderRecord>, keys: seq<Slot>, at: map<Slot, QuoteIntent>,
      last: map<Slot, int>, slot: Slot)
    requires slot in at && BuildSlots(q, open, keys, at, last).outcome == Ok
    ensures var before := BuildSlots(q, open, keys, at, last);
      var decision := Decide(q, open, before.last, slot, at[slot]);
      var built := BuildSlots(q, open, keys + [slot], at, last);
      !decision.Fails? ==>
        built.outcome == Ok && built.intents == before.intents + SlotIntents(q, open, slot, decision)
  {
    hide Decide, SlotIntents;
    assert (keys + [slot])[..|keys|] == keys;
  }

  lemma {:induction false} LadderBuilt(q: QuoteView, at: map<Slot, QuoteIntent>, n: nat, size: real, total: real,
      most: real)
    requires size > 0.0 && q == TickQuoteView(TightTick(0, size, total, most))
    requires forall j | 0 <= j < n :: NthSlot(j) in at && at[NthSlot(j)] == NthQuote(j, size)
    ensures var built := BuildSlots(q, map[], LadderSlots(n), at, map[]);
      built.outcome == Ok && built.intents == Ladder(n, size)
  {
    hide Decide, TickQuoteView, TightTick, NthQuote;
    if n > 0 {
      LadderBuilt(q, at, n - 1, size, total, most);
      var before := BuildSlots(q, map[], LadderSlots(n - 1), at, map[]);
      NthDecision(n - 1, size, total, most, before.last);
      BuildAppend(q, map[], LadderSlots(n - 1), at, map[], NthSlot(n - 1));
      SlotPlace(q, n - 1, size, total, most);
    }
  }

  lemma SlotPlace(q: QuoteView, j: nat, size: real, total: real, most: real)
    requires q == TickQuoteView(TightTick(0, size, total, most))
    ensures SlotIntents(q, map[], NthSlot(j), PlaceAt(1.0, size)) == [NthIntent(j, size)]
  {
    assert q.newId(NthSlot(j)) == NthId(j);
  }

  // ------------------------------------------------------------------------------- the requests

  lemma OneKeyValid(id: string, r: OrderRecord)
    ensures Put(Empty(), id, r) == Dict([id], map[id := r]) && Put(Empty(), id, r).Valid()
  {
    PutValid<string, OrderRecord>(Empty(), id, r);
  }

  lemma OneOpen(id: string, r: OrderRecord, symbol: Option<string>)
    requires r.status == Open && Matches(r, symbol)
    ensures OpenOrdersOf([id], map[id := r], symbol) == [r] && !HasUnknownOf([id], map[id := r])
  {
    assert [id][..0] == [];
  }

  lemma OneSum(id: string, r: OrderRecord, symbol: string)
    ensures SumKeys([id], map[id := r], StakeIn(symbol)) == Stake(symbol, r)
    ensures NotionalSum([r]) == OpenNotional(r)
  {
    hide Stake, OpenNotional;
    assert [id][..0] == [] && [r][..0] == [];
  }

  lemma OneOrder(s: OmsState, id: string, r: OrderRecord, symbol: string)
    requires s.orders == Put(Empty(), id, r) && r.clientOrderId == id && r.symbol == symbol && r.status == Open
    ensures s.orders.Valid()
    ensures OpenOrders(s, Some(symbol)) == [r] == OpenOrders(s, None)
    ensures ExposureOf(s, symbol) == Stake(symbol, r) == TotalOpenNotional(s, Some(symbol)) && !HasUnknown(s)
  {
    hide Stake, OpenNotional, OpenOrdersOf, SumKeys, NotionalSum, HasUnknownOf, Dict.Valid;
    OneKeyValid(id, r);
    OneOpen(id, r, Some(symbol));
    OneOpen(id, r, None);
    OneSum(id, r, symbol);
    StakeOfOpen(r, symbol);
  }

  lemma StakeOfOpen(r: OrderRecord, symbol: string)
    requires r.symbol == symbol && r.status == Open
    ensures Stake(symbol, r) == OpenNotional(r)
  {
  }

  lemma BaseFacts(rest: real)
    requires rest >= 0.0
    ensures var s := BaseOms(rest);
      && Sound(s) && ExposureOf(s, "X") == rest
      && OpenOrders(s, Some("X")) == [BaseOrder(rest)] == OpenOrders(s, None)
      && TotalOpenNotional(s, Some("X")) == rest && !HasUnknown(s)
  {
    hide ExposureOf, OpenOrders, TotalOpenNotional, HasUnknown, Distinct, KeySet;
    OneOrder(BaseOms(rest), "y", BaseOrder(rest), "X");
    assert Stake("X", BaseOrder(rest)) == rest;
  }

  lemma NthValue(view: RiskView, j: nat, size: real, total: real, most: real)
    requires 0.0 < size <= most && view == TightView(size, total, most)
    ensures Notional(1.0, size) == size && ValueCheck(view, NthIntent(j, size), 1.0, size) == AllPassed
  {
  }

  lemma NthOpen(view: RiskView, s: OmsState, j: nat, size: real, total: real, most: real)
    requires size <= total && view == TightView(size, total, most) && s == BaseOms(total - size)
    ensures OpenCheck(view, NthIntent(j, size), size, s) == AllPassed
  {
    hide OpenOrders, TotalOpenNotional, HasUnknown, BaseOms, BaseOrder;
    BaseFacts(total - size);
  }

  lemma NthMarket(view: RiskView, size: real, total: real, most: real)
    requires 0.0 < size && view == TightView(size, total, most)
    ensures view.markets["X"].Mid() == 1.5
    ensures MarketCheck(view, view.rules["X"], view.markets["X"], Buy, 1.0, size) == AllPassed
  {
  }

  lemma NthApproved(view: RiskView, s: OmsState, j: nat, size: real, total: real, most: real)
    requires 0.0 < size <= most && size <= total
    requires view == TightView(size, total, most) && s == BaseOms(total - size)
    ensures Validate(view, NthIntent(j, size), s) == Approved(AllPassed)
  {
    hide OpenOrders, TotalOpenNotional, HasUnknown, Notional, ValueCheck, OpenCheck, MarketCheck, BaseOms, BaseOrder;
    BaseFacts(total - size);
    NthValue(view, j, size, total, most);
    NthOpen(view, s, j, size, total, most);
    NthMarket(view, size, total, most);
  }

  lemma ScreenAppend(view: RiskView, s: OmsState, intents: seq<OrderIntent>, i: OrderIntent)
    requires Screen(view, s, intents).outcome == Ok && i.action == Place && Validate(view, i, s).Approved?
    requires i.side.Some? && i.size.Some? && i.clientOrderId.Some?
    ensures Screen(view, s, intents + [i]) == Screened(Screen(view, s, intents).requests + [RequestFrom(i)], Ok)
    ensures CancelRequestsOf(intents + [i]) == CancelRequestsOf(intents)
  {
    assert (intents + [i])[..|intents|] == intents;
  }

  lemma NthRequest(j: nat, size: real)
    ensures var i := NthIntent(j, size);
      && i.action == Place && i.side.Some? && i.size.Some? && i.clientOrderId.Some?
      && RequestFrom(i) == LadderRequest(j, size)
  {
  }

  lemma {:induction false} LadderScreened(view: RiskView, s: OmsState, n: nat, size: real, total: real, most: real)
    requires 0.0 < size <= most && size <= total
    requires view == TightView(size, total, most) && s == BaseOms(total - size)
    ensures Screen(view, s, Ladder(n, size)) == Screened(LadderRequests(n, size), Ok)
    ensures CancelRequestsOf(Ladder(n, size)) == []
  {
    hide Validate, TightView, BaseOms, Screen, CancelRequestsOf, NthIntent, RequestFrom, LadderRequest;
    if n == 0 {
      NothingScreened(view, s);
    } else {
      LadderScreened(view, s, n - 1, size, total, most);
      NthApproved(view, s, n - 1, size, total, most);
      NthRequest(n - 1, size);
      ScreenAppend(view, s, Ladder(n - 1, size), NthIntent(n - 1, size));
    }
  }

  lemma NothingScreened(view: RiskView, s: OmsState)
    ensures Screen(view, s, []) == Screened([], Ok) && CancelRequestsOf([]) == []
  {
  }

  lemma GroupAppend(requests: seq<OrderRequest>, r: OrderRequest, symbol: string)
    requires r.symbol == symbol
    requires requests == [] || GroupBy(requests, RequestSymbol) == Dict([symbol], map[symbol := requests])
    ensures GroupBy(requests + [r], RequestSymbol) == Dict([symbol], map[symbol := requests + [r]])
  {
    assert (requests + [r])[..|requests|] == requests;
  }

  lemma {:induction false} LadderBatch(n: nat, size: real, symbol: string)
    requires n > 0 && symbol == "X"
    ensures Batches(LadderRequests(n, size), RequestSymbol) == [LadderRequests(n, size)]
    ensures GroupBy(LadderRequests(n, size), RequestSymbol) == Dict([symbol], map[symbol := LadderRequests(n, size)])
    ensures LadderRequests(n, size) != [] && CountFor(LadderRequests(n, size), symbol) == n
  {
    hide GroupBy, Batches, CountFor;
    NothingCounted(symbol);
    if n > 1 {
      LadderBatch(n - 1, size, symbol);
    }
    GroupAppend(LadderRequests(n - 1, size), LadderRequest(n - 1, size), symbol);
    CountAppend(LadderRequests(n - 1, size), LadderRequest(n - 1, size), symbol);
    OneBatch(LadderRequests(n, size), symbol);
  }

  lemma OneBatch(requests: seq<OrderRequest>, symbol: string)
    requires GroupBy(requests, RequestSymbol) == Dict([symbol], map[symbol := requests])
    ensures Batches(requests, RequestSymbol) == [requests]
  {
    hide GroupBy, Values;
    ValuesAt([symbol], map[symbol := requests]);
  }

  // ------------------------------------------------------------------------------- the submits

  /** The manager while the ladder is submitted: n more live records of stake `size`. */
  ghost predicate Started(s: OmsState, requests: seq<OrderRequest>, n: nat, size: real, rest: real) {
    && |requests| == n && s.orders.Valid()
    && (forall j | 0 <= j < n :: requests[j].clientOrderId == NthId(j))
    && (forall id | id in s.orders.at :: (id == "y" || |id| < n) && !IsTerminal(s.orders.at[id].status))
    && (forall j | 0 <= j < n :: NthId(j) in s.orders.at)
    && ExposureOf(s, "X") == rest + Slack(n, size)
  }

  lemma NthIdIsNew(s: OmsState, requests: seq<OrderRequest>, n: nat, size: real, rest: real)
    requires Started(s, requests, n, size, rest)
    ensures NthId(n) !in s.orders.at
  {
    hide ExposureOf, Slack, Distinct, KeySet;
    assert n == 1 ==> NthId(n)[0] == 'x';
    assert NthId(n) != "y";
  }

  lemma NewStakeIs(r: OrderRequest, size: real)
    requires size >= 0.0 && r.symbol == "X" && r.price == Some(1.0) && r.size == size
    ensures Stake("X", NewRecord(SubmitStart(r)).value.record) == size
  {
  }

  lemma StartOne(s: OmsState, requests: seq<OrderRequest>, n: nat, size: real, rest: real)
    requires size >= 0.0 && Started(s, requests, n, size, rest)
    ensures var r := LadderRequest(n, size); var end := ApplyOp(s, SubmitStart(r));
      end.outcome == Ok && Started(end.state, requests + [r], n + 1, size, rest)
  {
    hide Sum, Stake, OpenNotional, Distinct, KeySet, TouchRecord, Slack, NewRecord;
    var r := LadderRequest(n, size);
    var op := SubmitStart(r);
    NthIdIsNew(s, requests, n, size, rest);
    NewRecordSome(op);
    NewRecordFacts(op);
    StepValid(s, op);
    NewStakeIs(r, size);
    SlackStep(n, size);
    SumPut(s.orders, NthId(n), NewRecord(op).value.record, StakeIn("X"));
  }

  lemma NewRecordSome(op: Op)
    ensures op.SubmitStart? ==> NewRecord(op).Some? && NewRecord(op).value.record.status == Submitting
  {
  }

  lemma RunAppend(s: OmsState, requests: seq<OrderRequest>, r: OrderRequest)
    requires RunOps(s, SubmitStarts(requests)).outcome == Ok
    ensures RunOps(s, SubmitStarts(requests + [r])) == ApplyOp(RunOps(s, SubmitStarts(requests)).state, SubmitStart(r))
  {
    hide ApplyOp;
    var all := requests + [r];
    assert SubmitStarts(all)[..|requests|] == SubmitStarts(requests);
  }

  lemma {:induction false} LadderStarted(s: OmsState, n: nat, size: real, rest: real)
    requires size >= 0.0 && Started(s, [], 0, size, rest)
    ensures var end := RunOps(s, SubmitStarts(LadderRequests(n, size)));
      end.outcome == Ok && Started(end.state, LadderRequests(n, size), n, size, rest)
  {
    hide Started, ApplyOp, LadderRequest;
    if n == 0 {
      assert SubmitStarts([]) == [];
    } else {
      LadderStarted(s, n - 1, size, rest);
      RunAppend(s, LadderRequests(n - 1, size), LadderRequest(n - 1, size));
      StartOne(RunOps(s, SubmitStarts(LadderRequests(n - 1, size))).state, LadderRequests(n - 1, size), n - 1, size,
               rest);
    }
  }

  lemma StakeOfUnknown(symbol: string, r: OrderRecord)
    ensures !IsTerminal(r.status) ==> Stake(symbol, r.(status := Unknown)) == Stake(symbol, r)
  {
  }

  /** Orders that become UNKNOWN keep their stake. */
  lemma UnknownKeepsStake(s: OmsState, ids: seq<string>, symbol: string)
    requires s.orders.Valid() && forall id | id in ids :: IsLive(s, id)
    ensures var end := RunOps(s, UnknownMarks(ids));
      end.outcome == Ok && ExposureOf(end.state, symbol) == ExposureOf(s, symbol)
  {
    hide RunOps, OpenNotional, Distinct, KeySet, SumKeys, Stake, UnknownMarks;
    Reconcile.MarksAll(s, ids);
    ValidKeys(s.orders);
    var end := RunOps(s, UnknownMarks(ids)).state;
    forall id | id in s.orders.keys
      ensures Stake(symbol, s.orders.at[id]) == Stake(symbol, end.orders.at[id])
    {
      StakeOfUnknown(symbol, s.orders.at[id]);
    }
    SumKeysSame(s.orders.keys, s.orders.at, end.orders.at, StakeIn(symbol));
  }

  /** A batch whose submit times out leaves its orders UNKNOWN, at full stake. */
  lemma TimedOut(s: OmsState, requests: seq<OrderRequest>, n: nat, size: real, rest: real)
    requires Started(s, requests, n, size, rest)
    ensures var end := RunOps(s, UnknownMarks(RequestIds(requests)));
      end.outcome == Ok && ExposureOf(end.state, "X") == rest + Slack(n, size)
  {
    hide RunOps, ExposureOf, Slack, Distinct, KeySet;
    forall id | id in RequestIds(requests)
      ensures IsLive(s, id)
    {
      var j :| 0 <= j < n && RequestIds(requests)[j] == id;
      assert NthId(j) in s.orders.at;
    }
    UnknownKeepsStake(s, RequestIds(requests), "X");
  }

  // ------------------------------------------------------------------------------- the whole tick

  /** A tick without fills and cancels, on a manager that submits its requests in full. */
  lemma SubmittingTick(a: AppState, t: TickInput, intents: seq<OrderIntent>, requests: seq<OrderRequest>)
    requires t.fills == [] && t.gateway == SilentGateway()
    requires TickBuilt(a, t).outcome == Ok && TickBuilt(a, t).intents == intents
    requires CancelRequestsOf(intents) == [] && Screen(TickView(a, t), a.oms, intents) == Screened(requests, Ok)
    requires requests != [] && Batches(requests, RequestSymbol) == [requests]
    requires RunOps(a.oms, SubmitStarts(requests)).outcome == Ok
    ensures TickRequests(a, t) == requests
    ensures var end := RunOps(RunOps(a.oms, SubmitStarts(requests)).state, UnknownMarks(RequestIds(requests)));
      Tick(a, t).state.oms == end.state && Tick(a, t).outcome == end.outcome
  {
    hide Screen, CancelRequestsOf, TickBuilt, TickView, RunOps, GroupBy;
    NoFillOps(a, t);
    assert Batches([], CancelSymbol) == [] by {
      NoBatches();
    }
    assert AfterCancels(a.oms, intents, t.gateway) == Step(a.oms, Ok);
    assert [requests][..0] == [];
    assert SubmitBatches(a.oms, [], t.gateway.submit) == Step(a.oms, Ok);
  }

  lemma NoBatches()
    ensures Batches([], CancelSymbol) == []
  {
  }

  lemma NoFillOps(a: AppState, t: TickInput)
    requires t.fills == []
    ensures TickFills(a, t) == Step(a.oms, Ok)
  {
    assert FillOps(t.fills) == [];
  }

  lemma TightBuilt(a: AppState, n: nat, size: real, total: real, most: real)
    requires size > 0.0 && total >= size && a == AppState(BaseOms(total - size), map[], map[])
    ensures var built := TickBuilt(a, TightTick(n, size, total, most));
      built.outcome == Ok && built.intents == Ladder(n, size)
  {
    hide BuildSlots, OpenOrders, Desired, BaseOms, Quotes, Ladder;
    var t := TightTick(n, size, total, most);
    NoFillOps(a, t);
    BaseFacts(total - size);
    BaseHasNoSlot(total - size);
    LadderDesired(n, size);
    LadderBuilt(TickQuoteView(t), Desired(t.quotes).at, n, size, total, most);
  }

  lemma BaseHasNoSlot(rest: real)
    ensures IndexOpen([BaseOrder(rest)]) == Empty()
    ensures forall desired :: StaleCancels([], map[], desired) == []
  {
    assert [BaseOrder(rest)][..0] == [];
  }

  lemma QuotesForAppend(quotes: seq<QuoteIntent>, quote: QuoteIntent, symbol: string)
    ensures QuotesFor(quotes + [quote], symbol) == QuotesFor(quotes, symbol) + if quote.symbol == symbol then 1 else 0
  {
    assert (quotes + [quote])[..|quotes|] == quotes;
  }

  lemma {:induction false} QuotesCount(n: nat, size: real)
    ensures QuotesFor(Quotes(n, size), "X") == n
  {
    if n > 0 {
      QuotesCount(n - 1, size);
      QuotesForAppend(Quotes(n - 1, size), NthQuote(n - 1, size), "X");
    }
  }

  lemma TightLimits(n: nat, size: real, total: real, most: real)
    requires size > 0.0
    ensures var t := TightTick(n, size, total, most);
      && t.view.settings.maxTotalOpenValue == total && t.view.settings.maxOrderValue == most
      && PositiveMinimums(t.view.rules) && t.fills == [] && QuotesFor(t.quotes, "X") == n && |t.quotes| == n
      && t.gateway == SilentGateway() && !t.adminSafeMode && !t.view.safeMode && t.view == TightView(size, total, most)
  {
    QuotesCount(n, size);
  }

  lemma TightQuoted(n: nat, size: real, total: real, most: real)
    requires size > 0.0
    ensures QuotedWithinLimits([Ticked(TightTick(n, size, total, most))], "X", n, total, most)
  {
    hide QuotesFor, TightTick, PositiveMinimums;
    TightLimits(n, size, total, most);
  }

  /** For all positive limits and every n there are a sound state within the bound and a tick given n quotes, all of
      which are approved, that takes the exposure to the bound of `Caps.ExposureStaysCapped` and
      `Caps.QuotesCapExposure` exactly. */
  lemma CapIsAttained(n: nat, total: real, most: real) returns (a: AppState, t: TickInput)
    requires n >= 1 && total > 0.0 && most > 0.0
    ensures Sound(a.oms) && ExposureOf(a.oms, "X") == total - Min(total, most)
    ensures QuotedWithinLimits([Ticked(t)], "X", n, total, most) && |t.quotes| == n
    ensures Tick(a, t).outcome == Ok && CountFor(TickRequests(a, t), "X") == n
    ensures ExposureOf(Tick(a, t).state.oms, "X") == Cap(n, total, most)
  {
    hide Sound, ExposureOf, Tick, TickRequests, TickBuilt, TightTick, QuotesFor, TightView, Ladder, LadderRequests,
      RunOps, Screen, Batches, CountFor, Started, BaseOms, Slack, TickView, PositiveMinimums, CancelRequestsOf,
      UnknownMarks, SilentGateway, SubmitStarts, RequestIds, Cap, Min, QuotedWithinLimits;
    var size := Min(total, most);
    CapSum(n, total, most);
    a := AppState(BaseOms(total - size), map[], map[]);
    t := TightTick(n, size, total, most);
    TightLimits(n, size, total, most);
    TightQuoted(n, size, total, most);
    BaseFacts(total - size);
    BaseStarted(size, total - size);
    TightBuilt(a, n, size, total, most);
    QuietView(a, t);
    LadderScreened(TickView(a, t), a.oms, n, size, total, most);
    LadderBatch(n, size, "X");
    LadderStarted(a.oms, n, size, total - size);
    TimedOut(RunOps(a.oms, SubmitStarts(LadderRequests(n, size))).state, LadderRequests(n, size), n, size,
             total - size);
    SubmittingTick(a, t, Ladder(n, size), LadderRequests(n, size));
  }

  lemma CapSum(n: nat, total: real, most: real)
    requires n >= 1 && total > 0.0 && most > 0.0
    ensures var size := Min(total, most);
      0.0 < size <= total && size <= most && total - size + Slack(n, size) == Cap(n, total, most)
  {
    SlackStep(n - 1, Min(total, most));
  }

  /** No run whose ticks are given at most n quotes for a symbol takes its exposure from within the total limit to above
      it. */
  ghost predicate KeepsLimit(n: nat, total: real, most: real) {
    forall a: AppState, events: seq<AppEvent>, symbol: string
      | Sound(a.oms) && ExposureOf(a.oms, symbol) <= total && QuotedWithinLimits(events, symbol, n, total, most) ::
      ExposureOf(RunApp(a, events).oms, symbol) <= total
  }

  /** The total limit is kept exactly when a tick is given one quote for the symbol at most. */
  lemma LimitKeptExactly(n: nat, total: real, most: real)
    requires n >= 1 && total > 0.0 && most > 0.0
    ensures KeepsLimit(n, total, most) <==> n == 1
  {
    hide Sound, ExposureOf, QuotedWithinLimits, Slack, RunApp, Tick, TickRequests, CountFor, AfterEvent;
    var size := Min(total, most);
    SlackZero(size);
    if n == 1 {
      forall a: AppState, events: seq<AppEvent>, symbol: string
        | Sound(a.oms) && ExposureOf(a.oms, symbol) <= total && QuotedWithinLimits(events, symbol, n, total, most)
        ensures ExposureOf(RunApp(a, events).oms, symbol) <= total
      {
        QuotesCapExposure(a, events, symbol, n, total, most);
      }
    } else {
      var a, t := CapIsAttained(n, total, most);
      SlackStep(n - 2, size);
      SlackOrder(0, n - 2, size);
      OneEvent(a, t);
      assert ExposureOf(RunApp(a, [Ticked(t)]).oms, "X") > total;
    }
  }

  lemma OneEvent(a: AppState, t: TickInput)
    ensures RunApp(a, [Ticked(t)]) == Tick(a, t).state
  {
    assert [Ticked(t)][..0] == [];
  }

  lemma SlackZero(size: real)
    ensures Slack(0, size) == 0.0
  {
  }

  lemma QuietView(a: AppState, t: TickInput)
    requires a.reasons == map[] && !t.adminSafeMode && !t.view.safeMode
    ensures TickView(a, t) == t.view
  {
  }

  lemma BaseStarted(size: real, rest: real)
    requires rest >= 0.0
    ensures Started(BaseOms(rest), [], 0, size, rest)
  {
    BaseFacts(rest);
    SlackZero(size);
  }
}
