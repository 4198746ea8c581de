/** The whole loop at rest: quote engine, risk engine, order manager and a gateway that accepts. After a tick that got
    all its intents through, a tick on the same quotes and markets does nothing. */
module ClosedLoop {
  import opened Dicts
  import opened Types
  import opened OrderState
  import opened Oms
  import opened OmsRuns
  import opened Quote
  import opened QuoteRuns
  import opened Risk
  import opened App
  import opened AppRuns
  import opened Slots

  // ------------------------------------------------------------------------------- what a batch leaves alone

  predicate SameAt(s: OmsState, t: OmsState, id: string) {
    (id in s.orders.at <==> id in t.orders.at) && (id in s.orders.at ==> t.orders.at[id] == s.orders.at[id])
  }

  predicate Avoids(ops: seq<Op>, id: string) {
    forall i | 0 <= i < |ops| :: OpId(ops[i]) != id
  }

  lemma {:induction false} OpsElsewhere(s: OmsState, ops: seq<Op>, id: string)
    requires Avoids(ops, id)
    ensures SameAt(s, RunOps(s, ops).state, id)
  {
    hide ApplyOp, OpId;
    if ops != [] {
      var n := |ops| - 1;
      OpsElsewhere(s, ops[..n], id);
      StepElsewhere(RunOps(s, ops[..n]).state, ops[n], id);
    }
  }

  lemma {:induction false} StartCancelsElsewhere(s: OmsState, requests: seq<CancelRequest>, id: string)
    requires forall r | r in requests :: r.clientOrderId != id
    ensures SameAt(s, StartCancels(s, requests).step.state, id)
    ensures forall r | r in StartCancels(s, requests).active :: r in requests
  {
    hide ApplyOp;
    if requests != [] {
      var n := |requests| - 1;
      assert requests == requests[..n] + [requests[n]];
      StartCancelsElsewhere(s, requests[..n], id);
      StepElsewhere(StartCancels(s, requests[..n]).step.state, CancelStart(requests[n].clientOrderId), id);
    }
  }

  /** Cancel acks speak of the orders they were asked about. */
  ghost predicate OnPoint(gateway: seq<CancelRequest> -> Reply<CancelAck>) {
    forall batch: seq<CancelRequest> | gateway(batch).Acks? ::
      forall i | 0 <= i < |gateway(batch).acks| :: AskedAbout(batch, gateway(batch).acks[i].clientOrderId)
  }

  ghost predicate AskedAbout(batch: seq<CancelRequest>, id: string) {
    exists r :: r in batch && r.clientOrderId == id
  }

  lemma CancelBatchElsewhere(s: OmsState, batch: seq<CancelRequest>, gateway: seq<CancelRequest> -> Reply<CancelAck>,
      id: string)
    requires OnPoint(gateway) && forall r | r in batch :: r.clientOrderId != id
    ensures SameAt(s, BatchCanceled(s, batch, gateway).state, id)
  {
    hide StartCancels;
    StartCancelsElsewhere(s, batch, id);
    var phase := StartCancels(s, batch);
    if phase.step.outcome == Ok && phase.active != [] {
      match gateway(phase.active)
      case GatewayRaised =>
        forall i | 0 <= i < |phase.active|
          ensures phase.active[i].clientOrderId != id
        {
          assert phase.active[i] in phase.active;
        }
        OpsElsewhere(phase.step.state, UnknownMarks(CancelIds(phase.active)), id);
      case Acks(acks) =>
        OpsElsewhere(phase.step.state, CancelAcks(acks), id);
    }
  }

  lemma {:induction false} CancelsElsewhere(s: OmsState, batches: seq<seq<CancelRequest>>,
      gateway: seq<CancelRequest> -> Reply<CancelAck>, id: string)
    requires OnPoint(gateway) && !Requested(batches, id)
    ensures SameAt(s, CancelBatches(s, batches, gateway).state, id)
  {
    hide BatchCanceled, OnPoint;
    if batches != [] {
      var n := |batches| - 1;
      assert batches == batches[..n] + [batches[n]];
      CancelsElsewhere(s, batches[..n], gateway, id);
      CancelBatchElsewhere(CancelBatches(s, batches[..n], gateway).state, batches[n], gateway, id);
    }
  }

  // ------------------------------------------------------------------------------- what a submit leaves open

  predicate DistinctRequests(requests: seq<OrderRequest>) {
    forall i, j | 0 <= i < j < |requests| :: requests[i].clientOrderId != requests[j].clientOrderId
  }

  predicate AcceptedAll(batch: seq<OrderRequest>, acks: seq<OrderAck>) {
    && |acks| == |batch|
    && forall i | 0 <= i < |acks| ::
         acks[i].accepted && acks[i].status in {Acked, Open} && acks[i].clientOrderId == batch[i].clientOrderId
  }

  /** The gateway accepts every submit. */
  ghost predicate AcceptsSubmits(gateway: seq<OrderRequest> -> Reply<OrderAck>) {
    forall batch: seq<OrderRequest> :: gateway(batch).Acks? && AcceptedAll(batch, gateway(batch).acks)
  }

  /** The record of a request that was accepted, and that nothing has filled. */
  predicate OpenFor(record: OrderRecord, r: OrderRequest) {
    record.status == Open && record.filledSize == 0.0 && SameTerms(record, FromRequest(r))
  }

  predicate IsOpenFor(s: OmsState, r: OrderRequest) {
    r.clientOrderId in s.orders.at && OpenFor(s.orders.at[r.clientOrderId], r)
  }

  lemma StartsElsewhere(s: OmsState, requests: seq<OrderRequest>, id: string)
    requires forall r | r in requests :: r.clientOrderId != id
    ensures SameAt(s, RunOps(s, SubmitStarts(requests)).state, id)
  {
    var ops := SubmitStarts(requests);
    forall i | 0 <= i < |ops|
      ensures OpId(ops[i]) != id
    {
      assert requests[i] in requests;
    }
    OpsElsewhere(s, ops, id);
  }

  lemma {:induction false} StartsFresh(s: OmsState, requests: seq<OrderRequest>, k: nat)
    requires DistinctRequests(requests) && k < |requests| && requests[k].clientOrderId !in s.orders.at
    requires RunOps(s, SubmitStarts(requests)).outcome == Ok
    ensures var end := RunOps(s, SubmitStarts(requests)).state; var id := requests[k].clientOrderId;
      id in end.orders.at && end.orders.at[id] == FromRequest(requests[k]).(status := Submitting)
  {
    hide TouchRecord;
    var n := |requests| - 1;
    var init := requests[..n];
    assert SubmitStarts(requests)[..n] == SubmitStarts(init);
    var before := RunOps(s, SubmitStarts(init)).state;
    var op := SubmitStart(requests[n]);
    if k == n {
      StartsElsewhere(s, init, requests[n].clientOrderId);
      NewRecordFacts(op);
    } else {
      StartsFresh(s, init, k);
      StepElsewhere(before, op, requests[k].clientOrderId);
    }
  }

  lemma AckOpens(s: OmsState, ack: OrderAck, r: OrderRequest)
    requires ack.accepted && ack.status in {Acked, Open} && ack.clientOrderId == r.clientOrderId
    requires r.clientOrderId in s.orders.at && s.orders.at[r.clientOrderId] == FromRequest(r).(status := Submitting)
    ensures IsOpenFor(ApplyOp(s, OrderAcked(ack)).state, r)
  {
    hide BlendedPrice, AfterFill;
  }

  lemma {:induction false} AcksOpen(s: OmsState, batch: seq<OrderRequest>, acks: seq<OrderAck>, k: nat)
    requires DistinctRequests(batch) && AcceptedAll(batch, acks) && k < |batch|
    requires batch[k].clientOrderId in s.orders.at
    requires s.orders.at[batch[k].clientOrderId] == FromRequest(batch[k]).(status := Submitting)
    requires RunOps(s, OrderAcks(acks)).outcome == Ok
    ensures IsOpenFor(RunOps(s, OrderAcks(acks)).state, batch[k])
  {
    hide ApplyOp;
    var n := |batch| - 1;
    var id := batch[k].clientOrderId;
    assert OrderAcks(acks)[..n] == OrderAcks(acks[..n]);
    var before := RunOps(s, OrderAcks(acks[..n])).state;
    if k == n {
      OpsElsewhere(s, OrderAcks(acks[..n]), id);
      AckOpens(before, acks[n], batch[n]);
    } else {
      assert AcceptedAll(batch[..n], acks[..n]);
      AcksOpen(s, batch[..n], acks[..n], k);
      StepElsewhere(before, OrderAcked(acks[n]), id);
    }
  }

  lemma SubmitBatchOpens(s: OmsState, batch: seq<OrderRequest>, acks: seq<OrderAck>, r: OrderRequest)
    requires DistinctRequests(batch) && AcceptedAll(batch, acks) && r in batch && r.clientOrderId !in s.orders.at
    requires BatchSubmitted(s, batch, Acks(acks)).outcome == Ok
    ensures IsOpenFor(BatchSubmitted(s, batch, Acks(acks)).state, r)
  {
    hide RunOps;
    var k :| 0 <= k < |batch| && batch[k] == r;
    StartsFresh(s, batch, k);
    AcksOpen(RunOps(s, SubmitStarts(batch)).state, batch, acks, k);
  }

  lemma SubmitBatchElsewhere(s: OmsState, batch: seq<OrderRequest>, acks: seq<OrderAck>, id: string)
    requires AcceptedAll(batch, acks) && forall r | r in batch :: r.clientOrderId != id
    ensures SameAt(s, BatchSubmitted(s, batch, Acks(acks)).state, id)
  {
    hide RunOps;
    StartsElsewhere(s, batch, id);
    var started := RunOps(s, SubmitStarts(batch)).state;
    forall i | 0 <= i < |acks|
      ensures acks[i].clientOrderId != id
    {
      assert batch[i] in batch;
    }
    OpsElsewhere(started, OrderAcks(acks), id);
  }

  ghost predicate Holding(batches: seq<seq<OrderRequest>>, id: string) {
    exists i, r :: 0 <= i < |batches| && r in batches[i] && r.clientOrderId == id
  }

  lemma {:induction false} SubmitsElsewhere(s: OmsState, batches: seq<seq<OrderRequest>>,
      gateway: seq<OrderRequest> -> Reply<OrderAck>, id: string)
    requires AcceptsSubmits(gateway) && !Holding(batches, id)
    ensures SameAt(s, SubmitBatches(s, batches, gateway).state, id)
  {
    hide BatchSubmitted;
    if batches != [] {
      var n := |batches| - 1;
      SubmitsElsewhere(s, batches[..n], gateway, id);
      var before := SubmitBatches(s, batches[..n], gateway).state;
      SubmitBatchElsewhere(before, batches[n], gateway(batches[n]).acks, id);
    }
  }

  /** Batches in which every id occurs once. */
  ghost predicate DistinctBatches(batches: seq<seq<OrderRequest>>) {
    && (forall i | 0 <= i < |batches| :: DistinctRequests(batches[i]))
    && (forall i, j, a, b | 0 <= i < j < |batches| && a in batches[i] && b in batches[j] ::
          a.clientOrderId != b.clientOrderId)
  }

  lemma {:induction false} SubmitsOpen(s: OmsState, batches: seq<seq<OrderRequest>>,
      gateway: seq<OrderRequest> -> Reply<OrderAck>, k: nat, r: OrderRequest)
    requires AcceptsSubmits(gateway) && DistinctBatches(batches)
    requires k < |batches| && r in batches[k] && r.clientOrderId !in s.orders.at
    requires SubmitBatches(s, batches, gateway).outcome == Ok
    ensures IsOpenFor(SubmitBatches(s, batches, gateway).state, r)
  {
    hide BatchSubmitted, DistinctRequests, OpenFor;
    var n := |batches| - 1;
    var init := batches[..n];
    var before := SubmitBatches(s, init, gateway).state;
    if k == n {
      SubmitsElsewhere(s, init, gateway, r.clientOrderId);
      SubmitBatchOpens(before, batches[n], gateway(batches[n]).acks, r);
    } else {
      SubmitsOpen(s, init, gateway, k, r);
      SubmitBatchElsewhere(before, batches[n], gateway(batches[n]).acks, r.clientOrderId);
    }
  }

  lemma DistinctAppend(group: seq<OrderRequest>, x: OrderRequest)
    requires DistinctRequests(group) && forall r | r in group :: r.clientOrderId != x.clientOrderId
    ensures DistinctRequests(group + [x])
  {
    forall i | 0 <= i < |group|
      ensures group[i].clientOrderId != x.clientOrderId
    {
      assert group[i] in group;
    }
  }

  lemma DistinctLast(requests: seq<OrderRequest>, r: OrderRequest)
    requires requests != [] && DistinctRequests(requests) && r in requests[..|requests| - 1]
    ensures r.clientOrderId != requests[|requests| - 1].clientOrderId
  {
    var i :| 0 <= i < |requests| - 1 && requests[i] == r;
  }

  lemma {:induction false} GroupsDistinct(requests: seq<OrderRequest>)
    requires DistinctRequests(requests)
    ensures var groups := GroupBy(requests, RequestSymbol).at; forall k | k in groups :: DistinctRequests(groups[k])
  {
    if requests != [] {
      var n := |requests| - 1;
      GroupsDistinct(requests[..n]);
      GroupMembers(requests[..n], RequestSymbol);
      var rest := GroupBy(requests[..n], RequestSymbol);
      var key := requests[n].symbol;
      if key in rest.at {
        forall r | r in rest.at[key]
          ensures r.clientOrderId != requests[n].clientOrderId
        {
          DistinctLast(requests, r);
        }
        DistinctAppend(rest.at[key], requests[n]);
      }
    }
  }

  lemma SameIdSame(requests: seq<OrderRequest>, a: OrderRequest, b: OrderRequest)
    requires DistinctRequests(requests) && a in requests && b in requests && a.clientOrderId == b.clientOrderId
    ensures a == b
  {
    var x :| 0 <= x < |requests| && requests[x] == a;
    var y :| 0 <= y < |requests| && requests[y] == b;
  }

  lemma BatchSymbols(requests: seq<OrderRequest>, i: nat, a: OrderRequest)
    requires i < |Batches(requests, RequestSymbol)| && a in Batches(requests, RequestSymbol)[i]
    ensures a in requests && i < |GroupBy(requests, RequestSymbol).keys|
    ensures a.symbol == GroupBy(requests, RequestSymbol).keys[i]
  {
    hide Batches, GroupBy;
    BatchesAreGroups(requests, RequestSymbol);
    GroupMembers(requests, RequestSymbol);
  }

  lemma BatchesDistinct(requests: seq<OrderRequest>)
    requires DistinctRequests(requests)
    ensures DistinctBatches(Batches(requests, RequestSymbol))
  {
    hide Batches, GroupBy, DistinctRequests;
    GroupsDistinct(requests);
    GroupMembers(requests, RequestSymbol);
    BatchesAreGroups(requests, RequestSymbol);
    KeysDistinct(GroupBy(requests, RequestSymbol));
    var batches := Batches(requests, RequestSymbol);
    forall i, j, a: OrderRequest, b: OrderRequest | 0 <= i < j < |batches| && a in batches[i] && b in batches[j]
      ensures a.clientOrderId != b.clientOrderId
    {
      BatchSymbols(requests, i, a);
      BatchSymbols(requests, j, b);
      if a.clientOrderId == b.clientOrderId {
        SameIdSame(requests, a, b);
      }
    }
  }

  lemma KeysDistinct<V>(d: Dict<string, V>)
    requires d.Valid()
    ensures forall i, j | 0 <= i < j < |d.keys| :: d.keys[i] != d.keys[j]
  {
    DistinctMeans(d.keys);
  }

  lemma {:induction false} DistinctMeans(keys: seq<string>)
    requires Distinct(keys)
    ensures forall i, j | 0 <= i < j < |keys| :: keys[i] != keys[j]
  {
    if keys != [] {
      DistinctMeans(keys[..|keys| - 1]);
    }
  }

  // ------------------------------------------------------------------------------- one id a place

  /** The places of one call carry different ids. */
  predicate DistinctPlaces(intents: seq<OrderIntent>) {
    forall i, j | 0 <= i < j < |intents| && intents[i].action == Place && intents[j].action == Place ::
      intents[i].clientOrderId != intents[j].clientOrderId
  }

  ghost predicate NamedIn(q: QuoteView, intents: seq<OrderIntent>, keys: seq<Slot>) {
    forall i | i in intents && i.action == Place :: exists k :: k in keys && i.clientOrderId == Some(q.newId(k))
  }

  ghost predicate DifferentIds(q: QuoteView, keys: seq<Slot>) {
    forall a, b | a in keys && b in keys && q.newId(a) == q.newId(b) :: a == b
  }

  lemma {:induction false} BuiltPlacesDistinct(q: QuoteView, open: map<Slot, OrderRecord>, keys: seq<Slot>,
      at: map<Slot, QuoteIntent>, last: map<Slot, int>)
    requires Distinct(keys) && DifferentIds(q, keys)
    ensures var built := BuildSlots(q, open, keys, at, last).intents; DistinctPlaces(built) && NamedIn(q, built, keys)
  {
    hide Decide;
    if keys != [] {
      var n := |keys| - 1;
      assert keys == keys[..n] + [keys[n]];
      BuiltPlacesDistinct(q, open, keys[..n], at, last);
      var before := BuildSlots(q, open, keys[..n], at, last);
      var built := BuildSlots(q, open, keys, at, last).intents;
      if built != before.intents {
        PlacesAppend(q, before.intents, built, keys[..n], keys[n]);
      }
    }
  }

  lemma PlacesAppend(q: QuoteView, before: seq<OrderIntent>, built: seq<OrderIntent>, keys: seq<Slot>, slot: Slot)
    requires DistinctPlaces(before) && NamedIn(q, before, keys) && DifferentIds(q, keys + [slot]) && slot !in keys
    requires |before| < |built| && before == built[..|before|]
    requires forall i | |before| <= i < |built| - 1 :: built[i].action != Place
    requires built[|built| - 1].clientOrderId == Some(q.newId(slot))
    ensures DistinctPlaces(built) && NamedIn(q, built, keys + [slot])
  {
    forall i | i in built && i.action == Place
      ensures i == built[|built| - 1] || i in before
    {
    }
    forall i | i in before && i.action == Place
      ensures i.clientOrderId != Some(q.newId(slot))
    {
      var k :| k in keys && i.clientOrderId == Some(q.newId(k));
      assert k in keys + [slot] && slot in keys + [slot];
    }
    forall i | i in built && i.action == Place
      ensures exists k :: k in keys + [slot] && i.clientOrderId == Some(q.newId(k))
    {
      if i in before {
        var k :| k in keys && i.clientOrderId == Some(q.newId(k));
        assert k in keys + [slot];
      } else {
        assert slot in keys + [slot];
      }
    }
    forall i, j | 0 <= i < j < |built| && built[i].action == Place && built[j].action == Place
      ensures built[i].clientOrderId != built[j].clientOrderId
    {
      assert i < |before| && built[i] == before[i];
      if j < |before| {
        assert built[j] == before[j];
      }
    }
  }

  lemma {:induction false} ScreenedDistinct(view: RiskView, s: OmsState, intents: seq<OrderIntent>)
    requires DistinctPlaces(intents)
    ensures DistinctRequests(Screen(view, s, intents).requests)
  {
    hide Validate;
    if intents != [] {
      var n := |intents| - 1;
      ScreenedDistinct(view, s, intents[..n]);
      var before := Screen(view, s, intents[..n]).requests;
      var all := Screen(view, s, intents).requests;
      if all != before {
        ScreenMembers(view, s, intents[..n]);
        forall r | r in before
          ensures r.clientOrderId != all[|before|].clientOrderId
        {
          var i :| i in intents[..n] && ScreenedFrom(view, s, i, r);
          var x :| 0 <= x < n && intents[x] == i;
        }
        DistinctAppend(before, all[|before|]);
      }
    }
  }

  /** When every place is approved, every place is requested. */
  lemma {:induction false} AllRequested(view: RiskView, s: OmsState, intents: seq<OrderIntent>, i: OrderIntent)
    requires Screen(view, s, intents).outcome == Ok && i in intents && i.action == Place
    requires Validate(view, i, s).Approved?
    ensures i.side.Some? && i.size.Some? && i.clientOrderId.Some?
    ensures RequestFrom(i) in Screen(view, s, intents).requests
  {
    hide Validate;
    var n := |intents| - 1;
    assert intents == intents[..n] + [intents[n]];
    ApprovalMeans(view, i, s);
    if intents[n] != i {
      AllRequested(view, s, intents[..n], i);
    }
  }

  // ------------------------------------------------------------------------------- carrying out a tick's intents

  /** New ids are new: different for different slots, and not those of orders already there. */
  ghost predicate FreshIds(q: QuoteView, quotes: seq<QuoteIntent>, s: OmsState) {
    && DifferentIds(q, Desired(quotes).keys)
    && forall slot | slot in Desired(quotes).keys :: q.newId(slot) !in s.orders.at
  }

  /** A tick whose intents all got through: no slot throttled, every place approved, every cancel answered, every submit
      accepted. `s` is the order manager before its cancels, `c` after them, `end` after its submits. */
  ghost predicate Through(q: QuoteView, quotes: seq<QuoteIntent>, last: map<Slot, int>, s: OmsState, c: OmsState,
      end: OmsState, gateway: Gateway, view: RiskView) {
    var orders := OpenOrders(s, None);
    var intents := BuildIntents(q, quotes, orders, last).intents;
    var screened := Screen(view, c, intents);
    && FirstPass(q, quotes, orders, last) && FreshIds(q, quotes, s)
    && AnswersCancels(gateway.cancel) && OnPoint(gateway.cancel) && AcceptsSubmits(gateway.submit)
    && AfterCancels(s, intents, gateway) == Step(c, Ok)
    && (forall i | i in intents && i.action == Place :: Validate(view, i, c).Approved?)
    && screened.outcome == Ok
    && SubmitBatches(c, Batches(screened.requests, RequestSymbol), gateway.submit) == Step(end, Ok)
    && Kept(s) && Kept(end)
  }

  lemma {:induction false} CancelsListed(intents: seq<OrderIntent>)
    ensures forall r | r in CancelRequestsOf(intents) :: AsksCancel(intents, r.clientOrderId)
  {
    if intents != [] {
      var n := |intents| - 1;
      CancelsListed(intents[..n]);
      forall r | r in CancelRequestsOf(intents)
        ensures AsksCancel(intents, r.clientOrderId)
      {
        if r in CancelRequestsOf(intents[..n]) {
          var i :| 0 <= i < n
            && intents[..n][i].action == Cancel && intents[..n][i].clientOrderId == Some(r.clientOrderId);
          assert intents[i] == intents[..n][i];
        } else {
          assert intents[n].action == Cancel && intents[n].clientOrderId == Some(r.clientOrderId);
        }
      }
    }
  }

  /** The cancels leave alone what no intent cancels. */
  lemma UncanceledStays(s: OmsState, intents: seq<OrderIntent>, gateway: Gateway, id: string)
    requires OnPoint(gateway.cancel) && !AsksCancel(intents, id)
    ensures SameAt(s, AfterCancels(s, intents, gateway).state, id)
  {
    hide CancelBatches, AsksCancel, Batches;
    var requests := CancelRequestsOf(intents);
    var batches := Batches(requests, CancelSymbol);
    CancelsListed(intents);
    if Requested(batches, id) {
      var batch, r :| batch in batches && r in batch && r.clientOrderId == id;
      FromBatch(requests, CancelSymbol, batch);
    }
    CancelsElsewhere(s, batches, gateway.cancel, id);
  }

  lemma CanceledIsClosed(s: OmsState, intents: seq<OrderIntent>, gateway: Gateway, id: string)
    requires AnswersCancels(gateway.cancel) && AsksCancel(intents, id) && id in s.orders.at
    requires AfterCancels(s, intents, gateway).outcome == Ok
    ensures Settled(AfterCancels(s, intents, gateway).state, id)
  {
    hide CancelBatches, Batches, Settled;
    var n :| 0 <= n < |intents| && intents[n].action == Cancel && intents[n].clientOrderId == Some(id);
    CancelsCollected(intents, intents[n]);
    var requests := CancelRequestsOf(intents);
    var batch := IntoBatch(requests, CancelSymbol, CancelRequest(intents[n].symbol, id, None));
    CancelsSettle(s, Batches(requests, CancelSymbol), gateway.cancel, id);
  }

  lemma CallPlacesDistinct(q: QuoteView, quotes: seq<QuoteIntent>, orders: seq<OrderRecord>, last: map<Slot, int>)
    requires DifferentIds(q, Desired(quotes).keys)
    ensures DistinctPlaces(BuildIntents(q, quotes, orders, last).intents)
  {
    hide Desired, IndexOpen, StaleCancels, BuildSlots;
    var open, desired := IndexOpen(orders), Desired(quotes);
    DesiredValid(quotes);
    BuiltPlacesDistinct(q, open.at, desired.keys, desired.at, last);
    StaleAreCancels(open.keys, open.at, desired.at);
    var stale := StaleCancels(open.keys, open.at, desired.at);
    var built := BuildSlots(q, open.at, desired.keys, desired.at, last).intents;
    var intents := stale + built;
    forall i, j | 0 <= i < j < |intents| && intents[i].action == Place && intents[j].action == Place
      ensures intents[i].clientOrderId != intents[j].clientOrderId
    {
      if |stale| <= i {
        assert intents[i] == built[i - |stale|] && intents[j] == built[j - |stale|];
      }
    }
  }

  lemma OpenOrdersAre(s: OmsState)
    requires s.orders.Valid() && WellKeyed(s)
    ensures forall id | id in s.orders.at && IsOpen(s.orders.at[id].status) :: s.orders.at[id] in OpenOrders(s, None)
    ensures forall o | o in OpenOrders(s, None) ::
      o.clientOrderId in s.orders.at && s.orders.at[o.clientOrderId] == o && IsOpen(o.status)
  {
    hide OpenOrdersOf, Distinct, KeySet;
    ValidKeys(s.orders);
    OpenMembers(s.orders.keys, s.orders.at);
  }

  lemma CancelIntentNames(o: OrderRecord, i: OrderIntent, id: string)
    requires i == CancelIntent(o) && i.clientOrderId == Some(id)
    ensures o.clientOrderId == id
  {
  }

  /** Only orders already there are canceled. */
  lemma CanceledIsKnown(q: QuoteView, quotes: seq<QuoteIntent>, last: map<Slot, int>, s: OmsState, id: string)
    requires s.orders.Valid() && WellKeyed(s) && BuildIntents(q, quotes, OpenOrders(s, None), last).outcome == Ok
    requires AsksCancel(BuildIntents(q, quotes, OpenOrders(s, None), last).intents, id)
    ensures id in s.orders.at
  {
    hide BuildIntents, OpenOrders, Leaves;
    var orders := OpenOrders(s, None);
    var intents := BuildIntents(q, quotes, orders, last).intents;
    OpenOrdersAre(s);
    var n :| 0 <= n < |intents| && intents[n].action == Cancel && intents[n].clientOrderId == Some(id);
    var i := intents[n];
    CancelFromSlot(q, quotes, orders, last, i);
    var slot :| slot in IndexOpen(orders).at && i == CancelIntent(IndexOpen(orders).at[slot]);
    IndexedAt(orders, slot);
    var o := IndexOpen(orders).at[slot];
    CancelIntentNames(o, i, id);
    assert o in OpenOrders(s, None);
  }

  /** The id of an emitted place is new, before the cancels and after them. */
  lemma PlaceIsFresh(q: QuoteView, quotes: seq<QuoteIntent>, last: map<Slot, int>, s: OmsState, gateway: Gateway,
      i: OrderIntent)
    requires s.orders.Valid() && WellKeyed(s) && FreshIds(q, quotes, s)
    requires BuildIntents(q, quotes, OpenOrders(s, None), last).outcome == Ok
    requires OnPoint(gateway.cancel)
    requires i in BuildIntents(q, quotes, OpenOrders(s, None), last).intents && i.action == Place
    ensures i.clientOrderId.Some? && i.clientOrderId.value !in s.orders.at
    ensures i.clientOrderId.value
      !in AfterCancels(s, BuildIntents(q, quotes, OpenOrders(s, None), last).intents, gateway).state.orders.at
  {
    hide BuildIntents, OpenOrders, IndexOpen, AfterCancels, AsksCancel, Desired, Decide;
    var orders := OpenOrders(s, None);
    var intents := BuildIntents(q, quotes, orders, last).intents;
    PlaceComes(q, quotes, orders, last, i);
    PlaceSource(q, quotes, orders, last, i);
    DesiredValid(quotes);
    ValidKeys(Desired(quotes));
    var id := i.clientOrderId.value;
    if AsksCancel(intents, id) {
      CanceledIsKnown(q, quotes, last, s, id);
    }
    UncanceledStays(s, intents, gateway, id);
  }

  /** Every place is open at the end, as asked. */
  lemma PlaceIsOpen(q: QuoteView, quotes: seq<QuoteIntent>, last: map<Slot, int>, s: OmsState, c: OmsState,
      end: OmsState, gateway: Gateway, view: RiskView, i: OrderIntent)
    requires Through(q, quotes, last, s, c, end, gateway, view)
    requires i in BuildIntents(q, quotes, OpenOrders(s, None), last).intents && i.action == Place
    ensures i.side.Some? && i.size.Some? && i.clientOrderId.Some? && IsOpenFor(end, RequestFrom(i))
  {
    hide FirstPass, BuildIntents, OpenOrders, AfterCancels, Desired, Validate, SubmitBatches, Screen, Batches,
      IsOpenFor, FreshIds;
    var orders := OpenOrders(s, None);
    var intents := BuildIntents(q, quotes, orders, last).intents;
    var requests := Screen(view, c, intents).requests;
    AllRequested(view, c, intents, i);
    var r := RequestFrom(i);
    FirstPassUnique(q, quotes, orders, last);
    PlaceIsFresh(q, quotes, last, s, gateway, i);
    FreshAreDifferent(q, quotes, s);
    CallPlacesDistinct(q, quotes, orders, last);
    ScreenedDistinct(view, c, intents);
    BatchesDistinct(requests);
    var batch := IntoBatch(requests, RequestSymbol, r);
    var batches := Batches(requests, RequestSymbol);
    var k :| 0 <= k < |batches| && batches[k] == batch;
    SubmitsOpen(c, batches, gateway.submit, k, r);
  }

  lemma FreshAreDifferent(q: QuoteView, quotes: seq<QuoteIntent>, s: OmsState)
    requires FreshIds(q, quotes, s)
    ensures DifferentIds(q, Desired(quotes).keys)
  {
  }

  /** An order is requested by the tick. */
  ghost predicate RequestedBy(q: QuoteView, quotes: seq<QuoteIntent>, last: map<Slot, int>, s: OmsState, id: string) {
    exists i :: i in BuildIntents(q, quotes, OpenOrders(s, None), last).intents
             && i.action == Place && i.clientOrderId == Some(id)
  }

  /** The submits leave alone what no place asked for. */
  lemma UnrequestedStays(q: QuoteView, quotes: seq<QuoteIntent>, last: map<Slot, int>, s: OmsState, c: OmsState,
      end: OmsState, gateway: Gateway, view: RiskView, id: string)
    requires Through(q, quotes, last, s, c, end, gateway, view) && !RequestedBy(q, quotes, last, s, id)
    ensures SameAt(c, end, id)
  {
    hide FirstPass, BuildIntents, OpenOrders, AfterCancels, Desired, Validate, SubmitBatches, Screen, Batches;
    var intents := BuildIntents(q, quotes, OpenOrders(s, None), last).intents;
    var requests := Screen(view, c, intents).requests;
    var batches := Batches(requests, RequestSymbol);
    ScreenMembers(view, c, intents);
    if Holding(batches, id) {
      var k: int, r: OrderRequest :| 0 <= k < |batches| && r in batches[k] && r.clientOrderId == id;
      FromBatch(requests, RequestSymbol, batches[k]);
    }
    SubmitsElsewhere(c, batches, gateway.submit, id);
  }

  lemma OpenForIsOpen(record: OrderRecord, r: OrderRequest)
    requires OpenFor(record, r)
    ensures IsOpen(record.status)
  {
  }

  lemma OpenForShows(record: OrderRecord, i: OrderIntent)
    requires i.side.Some? && i.size.Some? && i.clientOrderId.Some? && i.size.value >= 0.0
    requires OpenFor(record, RequestFrom(i))
    ensures Shows(record, i)
  {
  }

  lemma PlaceSizeNonnegative(q: QuoteView, quotes: seq<QuoteIntent>, orders: seq<OrderRecord>, last: map<Slot, int>,
      i: OrderIntent)
    requires FirstPass(q, quotes, orders, last) && i in BuildIntents(q, quotes, orders, last).intents
    requires i.action == Place
    ensures i.size.Some? && i.size.value >= 0.0
  {
    hide BuildIntents, Decide, Desired, IndexOpen, UniqueSlots, UniqueIds;
    EmittedPlacesAreGood(q, quotes, orders, last, i);
  }

  lemma PlaceIsShown(q: QuoteView, quotes: seq<QuoteIntent>, last: map<Slot, int>, s: OmsState, c: OmsState,
      end: OmsState, gateway: Gateway, view: RiskView, i: OrderIntent)
    requires Through(q, quotes, last, s, c, end, gateway, view)
    requires i in BuildIntents(q, quotes, OpenOrders(s, None), last).intents && i.action == Place
    ensures i.clientOrderId.Some? && i.clientOrderId.value in end.orders.at
    ensures var o := end.orders.at[i.clientOrderId.value]; IsOpen(o.status) && Shows(o, i)
  {
    hide BuildIntents, OpenOrders, FirstPass, AfterCancels, SubmitBatches, Screen, Validate, FreshIds, OpenFor, Shows;
    PlaceIsOpen(q, quotes, last, s, c, end, gateway, view, i);
    PlaceSizeNonnegative(q, quotes, OpenOrders(s, None), last, i);
    OpenForIsOpen(end.orders.at[i.clientOrderId.value], RequestFrom(i));
    OpenForShows(end.orders.at[i.clientOrderId.value], i);
  }

  lemma OldStays(q: QuoteView, quotes: seq<QuoteIntent>, last: map<Slot, int>, s: OmsState, c: OmsState,
      end: OmsState, gateway: Gateway, view: RiskView, id: string)
    requires Through(q, quotes, last, s, c, end, gateway, view) && id in s.orders.at
    requires !AsksCancel(BuildIntents(q, quotes, OpenOrders(s, None), last).intents, id)
    ensures SameAt(s, end, id)
  {
    hide FirstPass, BuildIntents, OpenOrders, AfterCancels, Validate, SubmitBatches, Screen, AsksCancel, FreshIds;
    var intents := BuildIntents(q, quotes, OpenOrders(s, None), last).intents;
    if RequestedBy(q, quotes, last, s, id) {
      var i :| i in intents && i.action == Place && i.clientOrderId == Some(id);
      FirstPassUnique(q, quotes, OpenOrders(s, None), last);
      PlaceIsFresh(q, quotes, last, s, gateway, i);
    }
    UncanceledStays(s, intents, gateway, id);
    UnrequestedStays(q, quotes, last, s, c, end, gateway, view, id);
  }

  lemma NewIsRequested(q: QuoteView, quotes: seq<QuoteIntent>, last: map<Slot, int>, s: OmsState, c: OmsState,
      end: OmsState, gateway: Gateway, view: RiskView, id: string)
    requires Through(q, quotes, last, s, c, end, gateway, view)
    requires id in end.orders.at && IsOpen(end.orders.at[id].status) && !RequestedBy(q, quotes, last, s, id)
    ensures id in s.orders.at && s.orders.at[id] == end.orders.at[id]
    ensures !AsksCancel(BuildIntents(q, quotes, OpenOrders(s, None), last).intents, id)
  {
    hide FirstPass, BuildIntents, OpenOrders, AfterCancels, Validate, SubmitBatches, Screen, AsksCancel, FreshIds,
      RequestedBy;
    var intents := BuildIntents(q, quotes, OpenOrders(s, None), last).intents;
    UnrequestedStays(q, quotes, last, s, c, end, gateway, view, id);
    if AsksCancel(intents, id) {
      FirstPassUnique(q, quotes, OpenOrders(s, None), last);
      CanceledIsKnown(q, quotes, last, s, id);
      CanceledIsClosed(s, intents, gateway, id);
    } else {
      UncanceledStays(s, intents, gateway, id);
    }
  }

  /** The intents of a tick that got through have been carried out. */
  lemma ThroughIsCarriedOut(q: QuoteView, quotes: seq<QuoteIntent>, last: map<Slot, int>, s: OmsState, c: OmsState,
      end: OmsState, gateway: Gateway, view: RiskView)
    requires Through(q, quotes, last, s, c, end, gateway, view)
    ensures var orders := OpenOrders(s, None);
      CarriedOut(orders, BuildIntents(q, quotes, orders, last).intents, OpenOrders(end, None))
  {
    hide Through, BuildIntents, OpenOrders, AsksCancel, Shows, Distinct, KeySet;
    var orders, after := OpenOrders(s, None), OpenOrders(end, None);
    var intents := BuildIntents(q, quotes, orders, last).intents;
    ThroughIsSound(q, quotes, last, s, c, end, gateway, view);
    OpenOrdersAre(s);
    OpenOrdersAre(end);
    forall o | o in orders && !AsksCancel(intents, o.clientOrderId)
      ensures o in after
    {
      OldStays(q, quotes, last, s, c, end, gateway, view, o.clientOrderId);
    }
    forall o | o in after
      ensures (o in orders && !AsksCancel(intents, o.clientOrderId)) || ShownBy(o, intents)
    {
      if RequestedBy(q, quotes, last, s, o.clientOrderId) {
        var i :| i in intents && i.action == Place && i.clientOrderId == Some(o.clientOrderId);
        PlaceIsShown(q, quotes, last, s, c, end, gateway, view, i);
      } else {
        NewIsRequested(q, quotes, last, s, c, end, gateway, view, o.clientOrderId);
      }
    }
    forall i | i in intents && i.action == Place
      ensures exists o :: o in after && Shows(o, i)
    {
      PlaceIsShown(q, quotes, last, s, c, end, gateway, view, i);
    }
  }

  lemma ThroughIsSound(q: QuoteView, quotes: seq<QuoteIntent>, last: map<Slot, int>, s: OmsState, c: OmsState,
      end: OmsState, gateway: Gateway, view: RiskView)
    requires Through(q, quotes, last, s, c, end, gateway, view)
    ensures s.orders.Valid() && WellKeyed(s) && end.orders.Valid() && WellKeyed(end)
  {
    hide BuildIntents, OpenOrders, FirstPass, AfterCancels, SubmitBatches, Screen, Validate, FreshIds, AnswersCancels;
  }

  // ------------------------------------------------------------------------------- two ticks

  /** A tick that changes nothing at all. */
  predicate Idle(a: AppState, t: TickInput) {
    TickBuilt(a, t) == Built([], a.last, Ok) && Tick(a, t) == AppStep(a, Ok)
  }

  /** No desired slot is throttled. */
  ghost predicate Unthrottled(a: AppState, t: TickInput) {
    var open := IndexOpen(OpenOrders(TickFills(a, t).state, None)).at;
    forall slot | slot in Desired(t.quotes).at ::
      Decide(TickQuoteView(t), open, a.last, slot, Desired(t.quotes).at[slot]) != Throttled
  }

  /** What a tick needs to get the intents it builds through. */
  ghost predicate Delivers(a: AppState, t: TickInput) {
    var s := TickFills(a, t).state;
    var q := TickQuoteView(t);
    && Tick(a, t).outcome == Ok
    && (forall x | x in q.rules :: q.rules[x].baseMinSize >= 0.0)
    && FreshIds(q, t.quotes, s)
    && AnswersCancels(t.gateway.cancel) && OnPoint(t.gateway.cancel) && AcceptsSubmits(t.gateway.submit)
    && (forall i | i in TickBuilt(a, t).intents && i.action == Place ::
          Validate(TickView(a, t), i, AfterCancelPhase(a, t)).Approved?)
  }

  ghost predicate GetsThrough(a: AppState, t: TickInput) {
    Unthrottled(a, t) && Delivers(a, t)
  }

  lemma KeptIsUnique(s: OmsState)
    requires Slots.Kept(s)
    ensures UniqueSlots(OpenOrders(s, None)) && UniqueIds(OpenOrders(s, None))
  {
    hide OpenOrders;
    OpenOrdersAre(s);
    var orders := OpenOrders(s, None);
    forall a, b | a in orders && b in orders && a.level.Some? && b.level.Some? && OrderSlot(a) == OrderSlot(b)
      ensures a == b
    {
      assert LiveIn(s, a.clientOrderId, OrderSlot(a)) && LiveIn(s, b.clientOrderId, OrderSlot(a));
    }
  }

  lemma TickGoesThrough(a: AppState, t: TickInput)
    requires Slots.Kept(a.oms) && GetsThrough(a, t)
    ensures Through(TickQuoteView(t), t.quotes, a.last, TickFills(a, t).state, AfterCancelPhase(a, t),
                    Tick(a, t).state.oms, t.gateway, TickView(a, t))
  {
    hide Slots.Kept, BuildIntents, OpenOrders, Decide, IndexOpen, Desired, Screen, Validate, SubmitBatches,
      AfterCancels, FreshIds, UniqueSlots, UniqueIds, TickFills;
    FillsKept(a, t);
    TickKeepsOneLive(a, t);
    KeptIsUnique(TickFills(a, t).state);
  }

  lemma NothingToDo(b: AppState, t: TickInput)
    requires t.fills == [] && TickBuilt(b, t) == Built([], b.last, Ok)
    ensures Idle(b, t)
  {
    hide BuildIntents, OpenOrders;
    assert FillOps(t.fills) == [];
    assert CancelRequestsOf([]) == [];
    assert Batches([], CancelSymbol) == [] && Batches([], RequestSymbol) == [];
  }

  /** The loop comes to rest: after a tick that got all its intents through, every tick on the same quotes, markets and
      rules and without new fills is idle, whenever it comes, whatever its requote interval, ids, limits or gateway. */
  lemma LoopComesToRest(a: AppState, t: TickInput, again: TickInput)
    requires Slots.Kept(a.oms) && GetsThrough(a, t)
    requires again.fills == [] && again.quotes == t.quotes
    requires again.view.rules == t.view.rules && again.view.markets == t.view.markets
    ensures Idle(Tick(a, t).state, again)
  {
    hide Through, Slots.Kept, BuildIntents, Idle, CarriedOut, FirstPass;
    TickGoesThrough(a, t);
    var q, s, b := TickQuoteView(t), TickFills(a, t).state, Tick(a, t).state;
    ThroughIsCarriedOut(q, t.quotes, a.last, s, AfterCancelPhase(a, t), b.oms, t.gateway, TickView(a, t));
    ThroughIsFirst(q, t.quotes, a.last, s, AfterCancelPhase(a, t), b.oms, t.gateway, TickView(a, t));
    Fixpoint(q, t.quotes, OpenOrders(s, None), a.last, OpenOrders(b.oms, None), TickQuoteView(again), b.last);
    NoFills(b, again);
    NothingToDo(b, again);
  }

  lemma NoFills(b: AppState, t: TickInput)
    requires t.fills == []
    ensures TickFills(b, t) == Step(b.oms, Ok)
  {
    assert FillOps(t.fills) == [];
  }

  lemma ThroughIsFirst(q: QuoteView, quotes: seq<QuoteIntent>, last: map<Slot, int>, s: OmsState, c: OmsState,
      end: OmsState, gateway: Gateway, view: RiskView)
    requires Through(q, quotes, last, s, c, end, gateway, view)
    ensures FirstPass(q, quotes, OpenOrders(s, None), last)
  {
    hide BuildIntents, OpenOrders, FirstPass, AfterCancels, SubmitBatches, Screen, Validate, FreshIds, AnswersCancels;
  }

  // ------------------------------------------------------------------------------- throttled ticks

  /** The requote time of a slot; a slot never placed counts as placed at time 0. */
  function LastPlaced(last: map<Slot, int>, slot: Slot): int {
    if slot in last then last[slot] else 0
  }

  /** The clock has passed the requote interval of every desired slot. */
  ghost predicate Waited(a: AppState, t: TickInput) {
    forall slot | slot in Desired(t.quotes).at :: t.quoteNowMs >= LastPlaced(a.last, slot) + t.minRequoteMs
  }

  lemma WaitedSlot(q: QuoteView, open: map<Slot, OrderRecord>, last: map<Slot, int>, slot: Slot, quote: QuoteIntent)
    requires q.nowMs >= LastPlaced(last, slot) + q.minRequoteMs
    ensures Decide(q, open, last, slot, quote) != Throttled
  {
    hide SameQuote;
  }

  /** Then no desired slot is throttled, whatever the fills did to the open orders. */
  lemma WaitedIsUnthrottled(a: AppState, t: TickInput)
    requires Waited(a, t)
    ensures Unthrottled(a, t)
  {
    hide Decide, OpenOrders, TickFills, IndexOpen, LastPlaced;
    var open := IndexOpen(OpenOrders(TickFills(a, t).state, None)).at;
    forall slot | slot in Desired(t.quotes).at
      ensures Decide(TickQuoteView(t), open, a.last, slot, Desired(t.quotes).at[slot]) != Throttled
    {
      WaitedSlot(TickQuoteView(t), open, a.last, slot, Desired(t.quotes).at[slot]);
    }
  }

  /** No requote time is later than `now`. */
  ghost predicate PlacedBy(last: map<Slot, int>, now: int) {
    forall slot | slot in last :: last[slot] <= now
  }

  lemma {:induction false} SlotsPlacedBy(q: QuoteView, open: map<Slot, OrderRecord>, keys: seq<Slot>,
      at: map<Slot, QuoteIntent>, last: map<Slot, int>)
    requires PlacedBy(last, q.nowMs)
    ensures PlacedBy(BuildSlots(q, open, keys, at, last).last, q.nowMs)
  {
    hide Decide, SlotIntents;
    if keys != [] {
      SlotsPlacedBy(q, open, keys[..|keys| - 1], at, last);
    }
  }

  /** A tick, whether or not it returns, leaves no requote time later than its own clock. */
  lemma TickPlacedBy(a: AppState, t: TickInput)
    requires PlacedBy(a.last, t.quoteNowMs)
    ensures PlacedBy(Tick(a, t).state.last, t.quoteNowMs)
  {
    hide PlacedBy, BuildSlots, TickFills, Execute, StaleCancels, OpenOrders;
    var orders := OpenOrders(TickFills(a, t).state, None);
    SlotsPlacedBy(TickQuoteView(t), IndexOpen(orders).at, Desired(t.quotes).keys, Desired(t.quotes).at, a.last);
  }

  /** A throttled loop settles: whatever a tick did, throttled or raising, a tick at least one requote interval later
      (on the same or other quotes) has no throttled slot; if it gets the intents it builds through, every tick after
      it on its quotes, markets and rules and without new fills is idle. */
  lemma ThrottledLoopSettles(a: AppState, first: TickInput, second: TickInput, again: TickInput)
    requires Slots.Kept(a.oms) && AnswersCancels(first.gateway.cancel)
    requires PlacedBy(a.last, first.quoteNowMs) && first.quoteNowMs >= 0
    requires second.quoteNowMs >= first.quoteNowMs + second.minRequoteMs
    requires Delivers(Tick(a, first).state, second)
    requires again.fills == [] && again.quotes == second.quotes
    requires again.view.rules == second.view.rules && again.view.markets == second.view.markets
    ensures var b := Tick(a, first).state; Unthrottled(b, second) && Idle(Tick(b, second).state, again)
  {
    hide Slots.Kept, Tick, Idle, Unthrottled, Delivers, AnswersCancels, Desired;
    TickKeepsOneLive(a, first);
    TickPlacedBy(a, first);
    WaitedIsUnthrottled(Tick(a, first).state, second);
    LoopComesToRest(Tick(a, first).state, second, again);
  }
}
