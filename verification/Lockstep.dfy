/** The order manager driving the paper exchange: two machines that stay in step
    (src/mm/oms/manager.py with src/mm/exchange/paper.py).
 */
module Lockstep {
  import opened Dicts
  import opened Types
  import opened OrderState
  import opened Oms
  import opened OmsRuns
  import opened Paper
  import L = Ledger
  import R = Reconcile

  /** The keys of the open records, in order. */
  function OpenKeysOf(keys: seq<string>, at: map<string, OrderRecord>): seq<string> {
    if keys == [] then []
    else
      var n := |keys| - 1;
      var rest := OpenKeysOf(keys[..n], at);
      if keys[n] in at && IsOpen(at[keys[n]].status) then rest + [keys[n]] else rest
  }

  function OpenKeys(s: OmsState): seq<string> {
    OpenKeysOf(s.orders.keys, s.orders.at)
  }

  /** A local record and the exchange order it stands for. */
  predicate Mirrors(r: OrderRecord, order: PaperOrder, canceling: bool) {
    && r.symbol == order.request.symbol && r.side == order.request.side
    && r.price == order.request.price && r.size == order.request.size
    && r.exchangeOrderId == Some(order.exchangeOrderId)
    && r.filledSize == order.request.size - order.remaining
    && (r.filledSize > 0.0 ==> r.avgFillPrice.Some?)
    && r.status == if canceling then Canceling
                   else if order.remaining == order.request.size then Open else PartiallyFilled
  }

  predicate NamedByPaper(order: PaperOrder) {
    order.exchangeOrderId != ""
  }

  /** A record's status says how much of it was filled: nothing for CANCELED and REJECTED, a part for
      PARTIALLY_CANCELED, all for FILLED; it is neither UNKNOWN nor EXPIRED. */
  predicate FitsStatus(r: OrderRecord) {
    match r.status
    case Canceled => r.filledSize == 0.0
    case Rejected => r.filledSize == 0.0
    case PartiallyCanceled => 0.0 < r.filledSize < r.size
    case Filled => 0.0 < r.filledSize == r.size
    case Expired => false
    case Unknown => false
    case _ => true
  }

  ghost predicate Accounted(s: OmsState) {
    forall id | id in s.orders.at :: FitsStatus(s.orders.at[id])
  }

  ghost predicate Mirrored(s: OmsState, open: map<string, PaperOrder>, canceling: set<string>) {
    forall id | id in open ::
      id in s.orders.at && NamedByPaper(open[id]) && Mirrors(s.orders.at[id], open[id], id in canceling)
  }

  ghost predicate PendingIn(s: OmsState, rules: map<string, MarketRule>, pending: seq<OrderRequest>) {
    forall i | 0 <= i < |pending| ::
      && pending[i].clientOrderId in s.orders.at && pending[i].symbol in rules
      && s.orders.at[pending[i].clientOrderId] == FromRequest(pending[i]).(status := Submitting)
  }

  /** The two machines in the middle of a batch: `canceling` orders are asked to be canceled, `pending` requests are
      SUBMITTING and not yet on the exchange. */
  ghost predicate InStepDuring(s: OmsState, ex: Exchange, canceling: set<string>, pending: seq<OrderRequest>) {
    && s.orders.Valid() && WellKeyed(s) && Accounted(s) && L.WellFormed(ex)
    && OpenKeys(s) == ex.open.keys + RequestIds(pending)
    && Mirrored(s, ex.open.at, canceling)
    && PendingIn(s, ex.rules, pending)
  }

  /** Lockstep: the local open orders are exactly the exchange's open orders, in the same order; each has filled what
      the exchange says, all of it or half of it is left, and every record's status fits what was filled. */
  ghost predicate InStep(s: OmsState, ex: Exchange) {
    InStepDuring(s, ex, {}, [])
  }

  /** What lockstep says in plain terms. */
  lemma InStepMeans(s: OmsState, ex: Exchange)
    requires InStep(s, ex)
    ensures RecordIds(OpenOrders(s, None)) == ex.open.keys
    ensures forall id | id in ex.open.at ::
      && id in s.orders.at && s.orders.at[id].filledSize == ex.open.at[id].request.size - ex.open.at[id].remaining
      && s.orders.at[id].status in {Open, PartiallyFilled}
      && (ex.open.at[id].remaining == ex.open.at[id].request.size
          || ex.open.at[id].remaining == ex.open.at[id].request.size / 2.0)
    ensures forall id | id in s.orders.at && id !in ex.open.at :: IsTerminal(s.orders.at[id].status)
    ensures forall id | id in s.orders.at :: FitsStatus(s.orders.at[id])
  {
    ValidKeys(s.orders);
    ValidKeys(ex.open);
    assert RequestIds([]) == [];
    OpenKeysAreOpenOrders(s.orders.keys, s.orders.at);
    OpenKeysMembers(s.orders.keys, s.orders.at);
    forall id | id in ex.open.at
      ensures ex.open.at[id].remaining == ex.open.at[id].request.size
           || ex.open.at[id].remaining == ex.open.at[id].request.size / 2.0
    {
      assert L.OrderFits(ex, id, ex.open.at[id]);
    }
  }

  lemma {:induction false} OpenKeysAreOpenOrders(keys: seq<string>, at: map<string, OrderRecord>)
    requires forall k | k in keys :: k in at && at[k].clientOrderId == k
    ensures RecordIds(OpenOrdersOf(keys, at, None)) == OpenKeysOf(keys, at)
  {
    if keys != [] {
      var n := |keys| - 1;
      OpenKeysAreOpenOrders(keys[..n], at);
    }
  }

  lemma {:induction false} OpenKeysMembers(keys: seq<string>, at: map<string, OrderRecord>)
    ensures forall k | k in OpenKeysOf(keys, at) :: k in keys && k in at && IsOpen(at[k].status)
    ensures forall k | k in keys && k in at :: IsOpen(at[k].status) ==> k in OpenKeysOf(keys, at)
  {
    if keys != [] {
      var n := |keys| - 1;
      assert keys == keys[..n] + [keys[n]];
      OpenKeysMembers(keys[..n], at);
    }
  }

  lemma {:induction false} OpenKeysSame(keys: seq<string>, a: map<string, OrderRecord>, b: map<string, OrderRecord>)
    requires forall k | k in keys :: k in a && k in b && IsOpen(a[k].status) == IsOpen(b[k].status)
    ensures OpenKeysOf(keys, a) == OpenKeysOf(keys, b)
  {
    if keys != [] {
      OpenKeysSame(keys[..|keys| - 1], a, b);
    }
  }

  lemma {:induction false} OpenKeysClose(keys: seq<string>, at: map<string, OrderRecord>, id: string, r: OrderRecord)
    requires Distinct(keys) && (forall k | k in keys :: k in at) && id in keys
    requires IsOpen(at[id].status) && !IsOpen(r.status)
    ensures OpenKeysOf(keys, at[id := r]) == Without(OpenKeysOf(keys, at), id)
  {
    hide Without;
    var n := |keys| - 1;
    var init := keys[..n];
    assert keys == init + [keys[n]];
    OpenKeysMembers(init, at);
    if keys[n] == id {
      OpenKeysSame(init, at, at[id := r]);
      WithoutAbsent(OpenKeysOf(init, at), id);
      WithoutConcat(OpenKeysOf(init, at), [id], id);
      WithoutSelf(id);
    } else {
      OpenKeysClose(init, at, id, r);
      WithoutConcat(OpenKeysOf(init, at), [keys[n]], id);
      WithoutAbsent([keys[n]], id);
    }
  }

  lemma WithoutSelf(id: string)
    ensures Without([id], id) == []
  {
    assert [id][..0] == [];
  }

  /** Rewriting one record without opening or closing it keeps the open keys; closing it removes its key. */
  lemma OpenKeysPut(s: OmsState, id: string, r: OrderRecord)
    requires s.orders.Valid() && id in s.orders.at
    ensures var d := Put(s.orders, id, r);
      && (IsOpen(s.orders.at[id].status) == IsOpen(r.status) ==> OpenKeysOf(d.keys, d.at) == OpenKeys(s))
      && (IsOpen(s.orders.at[id].status) && !IsOpen(r.status) ==> OpenKeysOf(d.keys, d.at) == Without(OpenKeys(s), id))
  {
    ValidKeys(s.orders);
    var d := Put(s.orders, id, r);
    if IsOpen(s.orders.at[id].status) == IsOpen(r.status) {
      OpenKeysSame(s.orders.keys, s.orders.at, d.at);
    } else if IsOpen(s.orders.at[id].status) {
      OpenKeysClose(s.orders.keys, s.orders.at, id, r);
    }
  }

  lemma OpenKeysNew(s: OmsState, id: string, r: OrderRecord)
    requires s.orders.Valid() && id !in s.orders.at && IsOpen(r.status)
    ensures var d := Put(s.orders, id, r); OpenKeysOf(d.keys, d.at) == OpenKeys(s) + [id]
  {
    ValidKeys(s.orders);
    var d := Put(s.orders, id, r);
    assert d.keys[..|s.orders.keys|] == s.orders.keys;
    OpenKeysSame(s.orders.keys, s.orders.at, d.at);
  }

  lemma OpenFits(r: OrderRecord)
    ensures IsOpen(r.status) ==> FitsStatus(r)
  {
  }

  lemma RecordKeeps(s: OmsState, id: string, t: Touch)
    requires s.orders.Valid() && WellKeyed(s) && Accounted(s)
    requires t.record.clientOrderId == id && FitsStatus(t.record)
    ensures var r := Record(s, id, t); r.orders.Valid() && WellKeyed(r) && Accounted(r)
  {
    hide Distinct, KeySet, FitsStatus;
    PutValid(s.orders, id, t.record);
  }

  /** Rewriting the record of an order that stays open. */
  lemma RewriteOpen(s: OmsState, ex: Exchange, canceling: set<string>, id: string, t: Touch, after: set<string>)
    requires InStepDuring(s, ex, canceling, []) && id in ex.open.at
    requires t.record.clientOrderId == id && IsOpen(t.record.status)
    requires Mirrors(t.record, ex.open.at[id], id in after)
    requires forall x | x in ex.open.at && x != id :: x in after <==> x in canceling
    ensures InStepDuring(Record(s, id, t), ex, after, [])
  {
    hide WellKeyed, Accounted, L.WellFormed, Distinct, KeySet, OpenKeysOf, FitsStatus;
    assert Mirrors(s.orders.at[id], ex.open.at[id], id in canceling);
    OpenFits(t.record);
    RecordKeeps(s, id, t);
    OpenKeysPut(s, id, t.record);
  }

  /** Rewriting the record of an order that is no longer open. */
  lemma RewriteClosed(s: OmsState, ex: Exchange, canceling: set<string>, pending: seq<OrderRequest>, id: string,
      t: Touch)
    requires InStepDuring(s, ex, canceling, pending) && id in s.orders.at && IsTerminal(s.orders.at[id].status)
    requires t.record.clientOrderId == id && IsTerminal(t.record.status) && FitsStatus(t.record)
    ensures InStepDuring(Record(s, id, t), ex, canceling, pending)
  {
    hide WellKeyed, Accounted, L.WellFormed, Distinct, KeySet;
    RecordKeeps(s, id, t);
    OpenKeysPut(s, id, t.record);
    forall x | x in ex.open.at
      ensures x != id
    {
      assert Mirrors(s.orders.at[x], ex.open.at[x], x in canceling);
    }
  }

  /** The local record of an id is open exactly when the exchange has the order open. */
  lemma OpenIffListed(s: OmsState, ex: Exchange, canceling: set<string>, id: string)
    requires InStepDuring(s, ex, canceling, [])
    ensures id in s.orders.at && !IsTerminal(s.orders.at[id].status) <==> id in ex.open.at
  {
    assert RequestIds([]) == [];
    ValidKeys(s.orders);
    ValidKeys(ex.open);
    OpenKeysMembers(s.orders.keys, s.orders.at);
  }

  lemma KeyedAt(s: OmsState, ex: Exchange, canceling: set<string>, pending: seq<OrderRequest>, id: string)
    requires InStepDuring(s, ex, canceling, pending) && id in s.orders.at
    ensures s.orders.at[id].clientOrderId == id && FitsStatus(s.orders.at[id])
  {
  }

  lemma MirroredIn(s: OmsState, ex: Exchange, canceling: set<string>, id: string)
    requires InStepDuring(s, ex, canceling, []) && id in ex.open.at
    ensures L.WellFormed(ex) && L.OrderFits(ex, id, ex.open.at[id]) && NamedByPaper(ex.open.at[id])
    ensures id in s.orders.at && s.orders.at[id].clientOrderId == id
    ensures Mirrors(s.orders.at[id], ex.open.at[id], id in canceling)
  {
  }

  // ------------------------------------------------------------------------------- cancels

  lemma TerminalCancelStart(r: OrderRecord, id: string)
    ensures IsTerminal(r.status) ==> TouchRecord(r, CancelStart(id)) == Touch(r, [], Ok)
  {
  }

  lemma MirroredCancelStart(r: OrderRecord, order: PaperOrder, canceling: bool, id: string)
    requires Mirrors(r, order, canceling)
    ensures var t := TouchRecord(r, CancelStart(id));
      && t.outcome == Ok && t.record.clientOrderId == r.clientOrderId
      && IsOpen(t.record.status) && Mirrors(t.record, order, true)
  {
  }

  lemma StartCancel(s: OmsState, ex: Exchange, canceling: set<string>, id: string)
    requires InStepDuring(s, ex, canceling, [])
    ensures var t := ApplyOp(s, CancelStart(id));
      && t.outcome == Ok
      && InStepDuring(t.state, ex, canceling + {id}, [])
      && (IsLive(s, id) <==> id in ex.open.at)
  {
    hide InStepDuring, Mirrors, TouchRecord, Distinct, KeySet;
    OpenIffListed(s, ex, canceling, id);
    if id in s.orders.at {
      var r := s.orders.at[id];
      var t := TouchRecord(r, CancelStart(id));
      KeyedAt(s, ex, canceling, [], id);
      TerminalCancelStart(r, id);
      if id in ex.open.at {
        MirroredIn(s, ex, canceling, id);
        MirroredCancelStart(r, ex.open.at[id], id in canceling, id);
        RewriteOpen(s, ex, canceling, id, t, canceling + {id});
      } else {
        RewriteClosed(s, ex, canceling, [], id, t);
        MirroredSame(ApplyOp(s, CancelStart(id)).state, ex, canceling, canceling + {id});
      }
    } else {
      MirroredSame(s, ex, canceling, canceling + {id});
    }
  }

  lemma MirroredSame(s: OmsState, ex: Exchange, canceling: set<string>, after: set<string>)
    requires InStepDuring(s, ex, canceling, [])
    requires forall x | x in ex.open.at :: x in after <==> x in canceling
    ensures InStepDuring(s, ex, after, [])
  {
  }

  /** Closing an order on both sides. */
  lemma CloseBoth(s: OmsState, ex: Exchange, canceling: set<string>, id: string, t: Touch, after: Exchange)
    requires InStepDuring(s, ex, canceling, []) && id in ex.open.at
    requires t.record.clientOrderId == id && IsTerminal(t.record.status) && FitsStatus(t.record)
    requires L.WellFormed(after) && after.rules == ex.rules && after.open == Pop(ex.open, id)
    ensures InStepDuring(Record(s, id, t), after, canceling, [])
  {
    hide WellKeyed, Accounted, L.WellFormed, Distinct, KeySet, OpenKeysOf, FitsStatus, Without;
    assert Mirrors(s.orders.at[id], ex.open.at[id], id in canceling);
    assert ex.open.keys + RequestIds([]) == ex.open.keys;
    RecordKeeps(s, id, t);
    OpenKeysPut(s, id, t.record);
    assert after.open.keys + RequestIds([]) == after.open.keys;
  }

  /** The status of an accepted cancel fits what was filled. */
  lemma CanceledFits(ex: Exchange, request: CancelRequest, r: OrderRecord)
    requires request.clientOrderId in ex.open.at
    requires L.OrderFits(ex, request.clientOrderId, ex.open.at[request.clientOrderId])
    requires Mirrors(r, ex.open.at[request.clientOrderId], true)
    ensures FitsStatus(TouchRecord(r, CancelAcked(CancelOrder(ex, request).ack)).record)
  {
  }

  lemma FinishCancel(s: OmsState, ex: Exchange, canceling: set<string>, request: CancelRequest)
    requires InStepDuring(s, ex, canceling, [])
    requires request.clientOrderId in s.orders.at
    requires request.clientOrderId in ex.open.at ==> request.clientOrderId in canceling
    ensures var c := CancelOrder(ex, request); var t := ApplyOp(s, CancelAcked(c.ack));
      && t.outcome == Ok && InStepDuring(t.state, c.exchange, canceling, [])
      && t.state.orders.at.Keys == s.orders.at.Keys
  {
    hide InStepDuring, L.WellFormed, Distinct, KeySet, Without;
    var id := request.clientOrderId;
    var c := CancelOrder(ex, request);
    var op := CancelAcked(c.ack);
    var t := TouchRecord(s.orders.at[id], op);
    TouchFacts(s.orders.at[id], op);
    OpenIffListed(s, ex, canceling, id);
    KeyedAt(s, ex, canceling, [], id);
    if id in ex.open.at {
      MirroredIn(s, ex, canceling, id);
      CanceledFits(ex, request, s.orders.at[id]);
      L.CancelWellFormed(ex, request);
      CloseBoth(s, ex, canceling, id, t, c.exchange);
    } else {
      RewriteClosed(s, ex, canceling, [], id, t);
    }
  }

  function IdSet(requests: seq<CancelRequest>): set<string> {
    set id | id in CancelIds(requests)
  }

  lemma {:induction false} StartAll(s: OmsState, ex: Exchange, requests: seq<CancelRequest>)
    requires InStep(s, ex)
    ensures var phase := StartCancels(s, requests);
      && phase.step.outcome == Ok
      && InStepDuring(phase.step.state, ex, IdSet(requests), [])
      && (forall id | id in CancelIds(phase.active) :: id in ex.open.at && id in IdSet(requests))
      && (forall id | id in CancelIds(requests) :: id in ex.open.at ==> id in CancelIds(phase.active))
  {
    hide InStepDuring;
    if requests == [] {
      assert CancelIds(requests) == [];
      assert IdSet(requests) == {};
    } else {
      var n := |requests| - 1;
      var init := requests[..n];
      StartAll(s, ex, init);
      var before := StartCancels(s, init);
      var id := requests[n].clientOrderId;
      StartCancel(before.step.state, ex, IdSet(init), id);
      assert CancelIds(requests) == CancelIds(init) + [id];
      assert IdSet(requests) == IdSet(init) + {id};
      assert CancelIds(before.active + [requests[n]]) == CancelIds(before.active) + [id];
    }
  }

  lemma {:induction false} FinishAll(s: OmsState, ex: Exchange, canceling: set<string>, requests: seq<CancelRequest>)
    requires InStepDuring(s, ex, canceling, [])
    requires forall id | id in CancelIds(requests) :: id in s.orders.at && id in canceling
    ensures var c := CancelBatch(ex, requests); var t := RunOps(s, CancelAcks(c.acks));
      && t.outcome == Ok && InStepDuring(t.state, c.exchange, canceling, [])
      && t.state.orders.at.Keys == s.orders.at.Keys
      && (forall id | id in c.exchange.open.at :: id in ex.open.at && id !in CancelIds(requests))
  {
    hide InStepDuring, ApplyOp, CancelOrder;
    if requests == [] {
      assert CancelAcks([]) == [];
    } else {
      var n := |requests| - 1;
      var init := requests[..n];
      assert CancelIds(requests) == CancelIds(init) + [requests[n].clientOrderId];
      FinishAll(s, ex, canceling, init);
      var before := CancelBatch(ex, init);
      var mid := RunOps(s, CancelAcks(before.acks)).state;
      FinishCancel(mid, before.exchange, canceling, requests[n]);
      var acks := CancelBatch(ex, requests).acks;
      assert CancelAcks(acks)[..|acks| - 1] == CancelAcks(before.acks);
      PopMembers(before.exchange, requests[n]);
    }
  }

  lemma PopMembers(ex: Exchange, request: CancelRequest)
    ensures forall id | id in CancelOrder(ex, request).exchange.open.at ::
      id in ex.open.at && id != request.clientOrderId
  {
  }

  /** The paper exchange answering `cancel_batch_orders`. */
  function CancelGateway(ex: Exchange): seq<CancelRequest> -> Reply<CancelAck> {
    requests => Acks(CancelBatch(ex, requests).acks)
  }

  /** A cancel batch with the paper exchange as the gateway, and the exchange after it. */
  datatype Pair = Pair(oms: OmsState, exchange: Exchange)

  datatype PairStep = PairStep(pair: Pair, outcome: Outcome)

  function CancelBoth(p: Pair, requests: seq<CancelRequest>): PairStep {
    var phase := StartCancels(p.oms, requests);
    var t := BatchCanceled(p.oms, requests, CancelGateway(p.exchange));
    var exchange := if phase.step.outcome.Raised? then p.exchange else CancelBatch(p.exchange, phase.active).exchange;
    PairStep(Pair(t.state, exchange), t.outcome)
  }

  lemma AllSettled(s: OmsState, ex: Exchange, requests: seq<CancelRequest>)
    requires InStepDuring(s, ex, IdSet(requests), [])
    requires forall id | id in CancelIds(requests) :: id !in ex.open.at
    ensures InStep(s, ex)
  {
    MirroredSame(s, ex, IdSet(requests), {});
  }

  lemma ActiveKnown(s: OmsState, ex: Exchange, requests: seq<CancelRequest>, active: seq<CancelRequest>)
    requires InStepDuring(s, ex, IdSet(requests), [])
    requires forall id | id in CancelIds(active) :: id in ex.open.at
    ensures forall id | id in CancelIds(active) :: id in s.orders.at
  {
  }

  lemma CancelKeepsStep(p: Pair, requests: seq<CancelRequest>)
    requires InStep(p.oms, p.exchange)
    ensures var r := CancelBoth(p, requests); r.outcome == Ok && InStep(r.pair.oms, r.pair.exchange)
  {
    hide InStepDuring, IdSet, StartCancels;
    StartAll(p.oms, p.exchange, requests);
    var phase := StartCancels(p.oms, requests);
    var s := phase.step.state;
    var c := CancelBatch(p.exchange, phase.active);
    if phase.active == [] {
      assert CancelIds(phase.active) == [];
      AllSettled(s, p.exchange, requests);
    } else {
      ActiveKnown(s, p.exchange, requests, phase.active);
      FinishAll(s, p.exchange, IdSet(requests), phase.active);
      AllSettled(RunOps(s, CancelAcks(c.acks)).state, c.exchange, requests);
    }
  }

  // ------------------------------------------------------------------------------- submits

  lemma BeginSubmit(s: OmsState, ex: Exchange, pending: seq<OrderRequest>, request: OrderRequest)
    requires InStepDuring(s, ex, {}, pending)
    requires request.clientOrderId !in s.orders.at && request.symbol in ex.rules
    ensures var t := ApplyOp(s, SubmitStart(request));
      && t.outcome == Ok && InStepDuring(t.state, ex, {}, pending + [request])
      && t.state.orders.at.Keys == s.orders.at.Keys + {request.clientOrderId}
  {
    hide WellKeyed, Accounted, L.WellFormed, Distinct, KeySet;
    RecordKeeps(s, request.clientOrderId, NewRecord(SubmitStart(request)).value);
    var id := request.clientOrderId;
    var r := FromRequest(request).(status := Submitting);
    PutValid(s.orders, id, r);
    OpenKeysNew(s, id, r);
    assert RequestIds(pending + [request]) == RequestIds(pending) + [id];
    assert ex.open.keys + (RequestIds(pending) + [id]) == ex.open.keys + RequestIds(pending) + [id];
  }

  predicate FreshRequests(s: OmsState, ex: Exchange, requests: seq<OrderRequest>) {
    && (forall i | 0 <= i < |requests| ::
          requests[i].clientOrderId !in s.orders.at && requests[i].symbol in ex.rules)
    && (forall i, j | 0 <= i < j < |requests| :: requests[i].clientOrderId != requests[j].clientOrderId)
  }

  lemma FreshPrefix(s: OmsState, ex: Exchange, requests: seq<OrderRequest>, n: nat)
    requires FreshRequests(s, ex, requests) && |requests| == n + 1
    ensures FreshRequests(s, ex, requests[..n])
    ensures requests[n].clientOrderId !in s.orders.at && requests[n].symbol in ex.rules
    ensures requests[n].clientOrderId !in RequestIds(requests[..n])
  {
  }

  lemma {:induction false} BeginAll(s: OmsState, ex: Exchange, requests: seq<OrderRequest>)
    requires InStep(s, ex) && FreshRequests(s, ex, requests)
    ensures var t := RunOps(s, SubmitStarts(requests));
      && t.outcome == Ok && InStepDuring(t.state, ex, {}, requests)
      && forall id | id in t.state.orders.at :: id in s.orders.at || id in RequestIds(requests)
  {
    hide InStepDuring, FreshRequests, ApplyOp;
    if requests == [] {
      assert SubmitStarts(requests) == [];
    } else {
      var n := |requests| - 1;
      var init := requests[..n];
      FreshPrefix(s, ex, requests, n);
      BeginAll(s, ex, init);
      assert SubmitStarts(requests)[..n] == SubmitStarts(init);
      assert RequestIds(requests) == RequestIds(init) + [requests[n].clientOrderId];
      assert requests == init + [requests[n]];
      BeginSubmit(RunOps(s, SubmitStarts(init)).state, ex, init, requests[n]);
    }
  }

  lemma {:induction false} DistinctMiddle(a: seq<string>, x: string, b: seq<string>)
    requires Distinct(a + [x] + b)
    ensures x !in a && x !in b
  {
    if b == [] {
      assert a + [x] + b == a + [x];
      assert (a + [x])[..|a|] == a;
    } else {
      var n := |b| - 1;
      var all := a + [x] + b;
      assert all[..|all| - 1] == a + [x] + b[..n];
      DistinctMiddle(a, x, b[..n]);
      assert b == b[..n] + [b[n]];
      assert all[..|all| - 1][|a|] == x;
    }
  }

  lemma {:induction false} OpenKeysDistinct(keys: seq<string>, at: map<string, OrderRecord>)
    requires Distinct(keys)
    ensures Distinct(OpenKeysOf(keys, at))
  {
    if keys != [] {
      var n := |keys| - 1;
      OpenKeysDistinct(keys[..n], at);
      OpenKeysMembers(keys[..n], at);
      var rest := OpenKeysOf(keys[..n], at);
      assert (rest + [keys[n]])[..|rest|] == rest;
    }
  }

  /** The first pending request is neither on the exchange nor pending twice. */
  lemma PendingOnce(s: OmsState, ex: Exchange, request: OrderRequest, rest: seq<OrderRequest>)
    requires InStepDuring(s, ex, {}, [request] + rest)
    ensures ex.open.Valid() && request.clientOrderId !in ex.open.at && request.clientOrderId !in RequestIds(rest)
    ensures request.clientOrderId in s.orders.at && request.symbol in ex.rules
    ensures s.orders.at[request.clientOrderId] == FromRequest(request).(status := Submitting)
    ensures OpenKeys(s) == ex.open.keys + [request.clientOrderId] + RequestIds(rest)
  {
    var id := request.clientOrderId;
    assert ([request] + rest)[0] == request;
    assert RequestIds([request] + rest) == [id] + RequestIds(rest);
    assert ex.open.keys + ([id] + RequestIds(rest)) == ex.open.keys + [id] + RequestIds(rest);
    OpenKeysDistinct(s.orders.keys, s.orders.at);
    DistinctMiddle(ex.open.keys, id, RequestIds(rest));
    ValidKeys(ex.open);
  }

  lemma RestPending(s: OmsState, ex: Exchange, request: OrderRequest, rest: seq<OrderRequest>, t: Touch,
      after: Exchange)
    requires InStepDuring(s, ex, {}, [request] + rest) && after.rules == ex.rules
    ensures PendingIn(Record(s, request.clientOrderId, t), after.rules, rest)
  {
    PendingOnce(s, ex, request, rest);
    var id := request.clientOrderId;
    forall i | 0 <= i < |rest|
      ensures rest[i].clientOrderId != id && rest[i].clientOrderId in s.orders.at && rest[i].symbol in ex.rules
      ensures s.orders.at[rest[i].clientOrderId] == FromRequest(rest[i]).(status := Submitting)
    {
      assert RequestIds(rest)[i] == rest[i].clientOrderId;
      assert ([request] + rest)[i + 1] == rest[i];
    }
  }

  lemma FinishAccepted(s: OmsState, ex: Exchange, request: OrderRequest, rest: seq<OrderRequest>, t: Touch,
      after: Exchange)
    requires InStepDuring(s, ex, {}, [request] + rest)
    requires L.WellFormed(after) && after.rules == ex.rules
    requires var order := PaperOrder(request, PaperId(ex.nextOrder), request.size);
      && after.open == Put(ex.open, request.clientOrderId, order)
      && t.record == FromRequest(request).(status := Open, exchangeOrderId := Some(order.exchangeOrderId))
    ensures InStepDuring(Record(s, request.clientOrderId, t), after, {}, rest)
  {
    hide WellKeyed, Accounted, L.WellFormed, Distinct, KeySet, PendingIn, OpenKeysOf, FitsStatus;
    var id := request.clientOrderId;
    PendingOnce(s, ex, request, rest);
    RestPending(s, ex, request, rest, t, after);
    OpenFits(t.record);
    RecordKeeps(s, id, t);
    OpenKeysPut(s, id, t.record);
    assert Mirrors(t.record, after.open.at[id], false);
  }

  lemma FinishRejected(s: OmsState, ex: Exchange, request: OrderRequest, rest: seq<OrderRequest>, t: Touch,
      after: Exchange)
    requires InStepDuring(s, ex, {}, [request] + rest)
    requires L.WellFormed(after) && after.rules == ex.rules && after.open == ex.open
    requires t.record.clientOrderId == request.clientOrderId && t.record.status == Rejected
    requires t.record.filledSize == 0.0
    ensures InStepDuring(Record(s, request.clientOrderId, t), after, {}, rest)
  {
    hide WellKeyed, Accounted, L.WellFormed, Distinct, KeySet, PendingIn;
    var id := request.clientOrderId;
    PendingOnce(s, ex, request, rest);
    RestPending(s, ex, request, rest, t, after);
    RecordKeeps(s, id, t);
    OpenKeysPut(s, id, t.record);
    WithoutMiddle(ex.open.keys, id, RequestIds(rest), ex.open);
  }

  lemma WithoutMiddle(a: seq<string>, id: string, b: seq<string>, d: Dict<string, PaperOrder>)
    requires d.Valid() && a == d.keys && id !in d.at && id !in b
    ensures Without(a + [id] + b, id) == a + b
  {
    ValidKeys(d);
    WithoutConcat(a + [id], b, id);
    WithoutConcat(a, [id], id);
    WithoutSelf(id);
    WithoutAbsent(a, id);
    WithoutAbsent(b, id);
  }

  lemma FinishSubmit(s: OmsState, ex: Exchange, request: OrderRequest, rest: seq<OrderRequest>)
    requires InStepDuring(s, ex, {}, [request] + rest)
    ensures var sub := SubmitOrder(ex, request);
      && sub.ack.Some?
      && var t := ApplyOp(s, OrderAcked(sub.ack.value));
      && t.outcome == Ok && InStepDuring(t.state, sub.exchange, {}, rest)
  {
    hide L.WellFormed, OpenKeys, WellKeyed, Accounted, Mirrored, Distinct, KeySet, Put, Adjust;
    PendingOnce(s, ex, request, rest);
    assert L.WellFormed(ex);
    var sub := SubmitOrder(ex, request);
    var t := TouchRecord(s.orders.at[request.clientOrderId], OrderAcked(sub.ack.value));
    L.SubmitWellFormed(ex, request);
    if sub.ack.value.accepted {
      FinishAccepted(s, ex, request, rest, t, sub.exchange);
    } else {
      FinishRejected(s, ex, request, rest, t, sub.exchange);
    }
  }

  lemma {:induction false} FinishSubmits(s: OmsState, ex: Exchange, requests: seq<OrderRequest>, n: nat)
    requires InStepDuring(s, ex, {}, requests) && n <= |requests|
    ensures var b := SubmitBatch(ex, requests[..n]);
      && !b.raised && |b.acks| == n
      && var t := RunOps(s, OrderAcks(b.acks));
      && t.outcome == Ok && InStepDuring(t.state, b.exchange, {}, requests[n..])
  {
    hide InStepDuring, SubmitOrder, ApplyOp;
    if n == 0 {
      assert requests[0..] == requests;
      assert OrderAcks([]) == [];
    } else {
      FinishSubmits(s, ex, requests, n - 1);
      assert requests[..n][..n - 1] == requests[..n - 1];
      assert requests[n - 1..] == [requests[n - 1]] + requests[n..];
      var before := SubmitBatch(ex, requests[..n - 1]);
      FinishSubmit(RunOps(s, OrderAcks(before.acks)).state, before.exchange, requests[n - 1], requests[n..]);
      var acks := SubmitBatch(ex, requests[..n]).acks;
      assert OrderAcks(acks)[..n - 1] == OrderAcks(before.acks);
    }
  }

  /** A submit batch with the paper exchange as the gateway. */
  function SubmitBoth(p: Pair, requests: seq<OrderRequest>): PairStep {
    var b := SubmitBatch(p.exchange, requests);
    var t := BatchSubmitted(p.oms, requests, if b.raised then GatewayRaised else Acks(b.acks));
    PairStep(Pair(t.state, b.exchange), t.outcome)
  }

  lemma SubmitKeepsStep(p: Pair, requests: seq<OrderRequest>)
    requires InStep(p.oms, p.exchange) && FreshRequests(p.oms, p.exchange, requests)
    ensures var r := SubmitBoth(p, requests); r.outcome == Ok && InStep(r.pair.oms, r.pair.exchange)
  {
    hide InStepDuring, FreshRequests;
    if requests != [] {
      BeginAll(p.oms, p.exchange, requests);
      FinishSubmits(RunOps(p.oms, SubmitStarts(requests)).state, p.exchange, requests, |requests|);
      assert requests[..|requests|] == requests && requests[|requests|..] == [];
    }
  }

  // ------------------------------------------------------------------------------- fills

  /** What a fill does to the record that mirrors the order. */
  lemma MirroredTouch(r: OrderRecord, order: PaperOrder, fill: FillEvent)
    requires Mirrors(r, order, false) && order.request.size > 0.0 && fill.size == order.request.size / 2.0
    requires order.remaining == order.request.size || order.remaining == fill.size
    ensures var t := TouchRecord(r, FillApplied(fill));
      && t.outcome == Ok && t.record.clientOrderId == r.clientOrderId
      && if order.remaining == fill.size then t.record.status == Filled && FitsStatus(t.record)
         else t.record.status == PartiallyFilled && Mirrors(t.record, order.(remaining := fill.size), false)
  {
    hide BlendedPrice;
  }

  lemma FillStep(s: OmsState, ex: Exchange, id: string, snapshot: MarketSnapshot)
    requires InStep(s, ex)
    ensures var e := TryFill(ex, id, snapshot); var t := RunOps(s, OmsRuns.FillOps(e.fills));
      t.outcome == Ok && InStep(t.state, e.exchange)
  {
    hide InStep;
    if L.Settles(ex, id, snapshot) {
      SettledStep(s, ex, id, snapshot);
    } else {
      assert OmsRuns.FillOps(TryFill(ex, id, snapshot).fills) == [];
    }
  }

  lemma SettledStep(s: OmsState, ex: Exchange, id: string, snapshot: MarketSnapshot)
    requires InStep(s, ex) && L.Settles(ex, id, snapshot)
    ensures var e := TryFill(ex, id, snapshot); var t := RunOps(s, OmsRuns.FillOps(e.fills));
      t.outcome == Ok && InStep(t.state, e.exchange)
  {
    hide InStepDuring, TryFill, TouchRecord, Mirrors, L.WellFormed, L.Settles, RunOps, Without;
    var e := TryFill(ex, id, snapshot);
    L.SettlesOpen(ex, id, snapshot);
    MirroredIn(s, ex, {}, id);
    var order := ex.open.at[id];
    L.SettledOrder(ex, id, snapshot);
    L.FillWellFormed(ex, id, snapshot);
    OneFill(s, e.fills);
    MirroredTouch(s.orders.at[id], order, e.fills[0]);
    var t := TouchRecord(s.orders.at[id], FillApplied(e.fills[0]));
    if order.remaining == e.fills[0].size {
      CloseBoth(s, ex, {}, id, t, e.exchange);
    } else {
      FillOpen(s, ex, id, t, e.exchange);
    }
  }

  lemma OneFill(s: OmsState, fills: seq<FillEvent>)
    requires |fills| == 1
    ensures RunOps(s, OmsRuns.FillOps(fills)) == ApplyOp(s, FillApplied(fills[0]))
  {
    var ops := OmsRuns.FillOps(fills);
    assert ops[..0] == [];
  }

  lemma FillOpen(s: OmsState, ex: Exchange, id: string, t: Touch, after: Exchange)
    requires InStep(s, ex) && id in ex.open.at
    requires t.record.clientOrderId == id && IsOpen(t.record.status)
    requires L.WellFormed(after) && after.rules == ex.rules
    requires after.open.keys == ex.open.keys && after.open.at.Keys == ex.open.at.Keys
    requires forall x | x in ex.open.at && x != id :: after.open.at[x] == ex.open.at[x]
    requires after.open.at[id].exchangeOrderId == ex.open.at[id].exchangeOrderId
    requires Mirrors(t.record, after.open.at[id], false)
    ensures InStep(Record(s, id, t), after)
  {
    hide WellKeyed, Accounted, L.WellFormed, Distinct, KeySet, OpenKeysOf, FitsStatus;
    assert Mirrors(s.orders.at[id], ex.open.at[id], id in {});
    OpenFits(t.record);
    RecordKeeps(s, id, t);
    OpenKeysPut(s, id, t.record);
  }

  lemma {:induction false} RunOpsConcat(s: OmsState, a: seq<Op>, b: seq<Op>)
    requires RunOps(s, a).outcome == Ok
    ensures RunOps(s, a + b) == RunOps(RunOps(s, a).state, b)
  {
    if b == [] {
      assert a + b == a;
    } else {
      var n := |b| - 1;
      assert (a + b)[..|a + b| - 1] == a + b[..n];
      RunOpsConcat(s, a, b[..n]);
    }
  }

  lemma {:induction false} FillRound(s: OmsState, ex: Exchange, ids: seq<string>, snapshot: MarketSnapshot)
    requires InStep(s, ex)
    ensures var e := RunEx(ex, Paper.RoundOps(ids, snapshot)); var t := RunOps(s, OmsRuns.FillOps(e.fills));
      t.outcome == Ok && InStep(t.state, e.exchange)
  {
    hide InStep, TryFill, ApplyOp;
    var ops := Paper.RoundOps(ids, snapshot);
    if ids == [] {
      assert OmsRuns.FillOps([]) == [];
    } else {
      var n := |ids| - 1;
      FillRound(s, ex, ids[..n], snapshot);
      assert ops[..n] == Paper.RoundOps(ids[..n], snapshot);
      var before := RunEx(ex, ops[..n]);
      var mid := RunOps(s, OmsRuns.FillOps(before.fills)).state;
      FillStep(mid, before.exchange, ids[n], snapshot);
      var more := TryFill(before.exchange, ids[n], snapshot).fills;
      assert OmsRuns.FillOps(before.fills + more) == OmsRuns.FillOps(before.fills) + OmsRuns.FillOps(more);
      RunOpsConcat(s, OmsRuns.FillOps(before.fills), OmsRuns.FillOps(more));
    }
  }

  /** A round of `simulate_fills`, each fill passed to `apply_fill`. */
  function FillBoth(p: Pair, snapshot: MarketSnapshot): PairStep {
    var e := SimulateFills(p.exchange, snapshot);
    var t := RunOps(p.oms, OmsRuns.FillOps(e.fills));
    PairStep(Pair(t.state, e.exchange), t.outcome)
  }

  lemma FillsKeepStep(p: Pair, snapshot: MarketSnapshot)
    requires InStep(p.oms, p.exchange)
    ensures var r := FillBoth(p, snapshot); r.outcome == Ok && InStep(r.pair.oms, r.pair.exchange)
  {
    FillRound(p.oms, p.exchange, p.exchange.open.keys, snapshot);
  }

  // ------------------------------------------------------------------------------- reconciliation

  ghost predicate SameStatuses(a: OmsState, b: OmsState) {
    && b.orders.keys == a.orders.keys && b.orders.at.Keys == a.orders.at.Keys
    && forall id | id in a.orders.at :: b.orders.at[id].status == a.orders.at[id].status
  }

  lemma UpdateTouch(ex: Exchange, r: OrderRecord, order: PaperOrder)
    requires L.OrderFits(ex, r.clientOrderId, order) && NamedByPaper(order) && Mirrors(r, order, false)
    ensures var t := TouchRecord(r, RemoteUpdated(OrderStatusUpdate(order)));
      t.outcome == Ok && t.record.clientOrderId == r.clientOrderId && t.record.status == r.status
      && Mirrors(t.record, order, false)
  {
  }

  lemma UpdateStep(s: OmsState, ex: Exchange, id: string)
    requires InStep(s, ex) && id in ex.open.at
    ensures var t := ApplyOp(s, RemoteUpdated(OrderStatusUpdate(ex.open.at[id])));
      t.outcome == Ok && InStep(t.state, ex) && SameStatuses(s, t.state)
  {
    hide InStepDuring, Mirrors, TouchRecord, L.OrderFits, Distinct, KeySet;
    var order := ex.open.at[id];
    MirroredIn(s, ex, {}, id);
    UpdateTouch(ex, s.orders.at[id], order);
    RewriteOpen(s, ex, {}, id, TouchRecord(s.orders.at[id], RemoteUpdated(OrderStatusUpdate(order))), {});
  }

  /** Every update is what the exchange says of one of its open orders. */
  ghost predicate FromOpen(ex: Exchange, updates: seq<OrderUpdate>) {
    forall i | 0 <= i < |updates| ::
      && updates[i].clientOrderId in ex.open.at
      && updates[i] == OrderStatusUpdate(ex.open.at[updates[i].clientOrderId])
  }

  lemma {:induction false} UpdatesKeepStep(s: OmsState, ex: Exchange, updates: seq<OrderUpdate>)
    requires InStep(s, ex) && FromOpen(ex, updates)
    ensures var t := RunOps(s, RemoteUpdates(updates));
      t.outcome == Ok && InStep(t.state, ex) && SameStatuses(s, t.state)
  {
    hide InStep, ApplyOp;
    if updates == [] {
      assert RemoteUpdates(updates) == [];
    } else {
      var n := |updates| - 1;
      UpdatesKeepStep(s, ex, updates[..n]);
      assert RemoteUpdates(updates)[..n] == RemoteUpdates(updates[..n]);
      UpdateStep(RunOps(s, RemoteUpdates(updates[..n])).state, ex, updates[n].clientOrderId);
    }
  }

  lemma {:induction false} OpenUpdatesMembers(ex: Exchange, keys: seq<string>, symbol: Option<string>)
    requires forall k | k in keys :: k in ex.open.at && L.OrderFits(ex, k, ex.open.at[k])
    ensures FromOpen(ex, OpenUpdatesOf(keys, ex.open.at, symbol))
    ensures forall k | k in keys && OfSymbol(ex.open.at[k], symbol) ::
      k in UpdateIds(OpenUpdatesOf(keys, ex.open.at, symbol))
  {
    if keys != [] {
      var n := |keys| - 1;
      assert keys == keys[..n] + [keys[n]];
      OpenUpdatesMembers(ex, keys[..n], symbol);
      var before, all := OpenUpdatesOf(keys[..n], ex.open.at, symbol), OpenUpdatesOf(keys, ex.open.at, symbol);
      assert L.OrderFits(ex, keys[n], ex.open.at[keys[n]]);
      if all != before {
        assert UpdateIds(all) == UpdateIds(before) + {keys[n]};
      }
    }
  }

  lemma {:induction false} NoneMissing(ids: seq<string>, seen: set<string>)
    requires forall id | id in ids :: id in seen
    ensures Missing(ids, seen) == []
  {
    if ids != [] {
      NoneMissing(ids[..|ids| - 1], seen);
    }
  }

  lemma AllListed(s: OmsState, ex: Exchange, symbol: Option<string>)
    requires InStep(s, ex)
    ensures FromOpen(ex, OpenUpdates(ex, symbol))
    ensures Missing(RecordIds(OpenOrders(s, symbol)), UpdateIds(OpenUpdates(ex, symbol))) == []
  {
    ValidKeys(s.orders);
    ValidKeys(ex.open);
    OpenUpdatesMembers(ex, ex.open.keys, symbol);
    R.OpenIdsMembers(s.orders.keys, s.orders.at, symbol);
    var ids := RecordIds(OpenOrders(s, symbol));
    forall id | id in ids
      ensures id in UpdateIds(OpenUpdates(ex, symbol))
    {
      OpenIffListed(s, ex, {}, id);
      assert Mirrors(s.orders.at[id], ex.open.at[id], id in {});
    }
    NoneMissing(ids, UpdateIds(OpenUpdates(ex, symbol)));
  }

  /** A reconciliation against the exchange's own `get_open_orders(symbol)`. */
  function ReconcileBoth(p: Pair, symbol: Option<string>): PairStep {
    var t := Reconciled(p.oms, OpenUpdates(p.exchange, symbol), symbol, true);
    PairStep(Pair(t.state, p.exchange), t.outcome)
  }

  /** In lockstep a reconciliation changes no status. */
  lemma ReconcileKeepsStep(p: Pair, symbol: Option<string>)
    requires InStep(p.oms, p.exchange)
    ensures var r := ReconcileBoth(p, symbol);
      r.outcome == Ok && InStep(r.pair.oms, r.pair.exchange) && SameStatuses(p.oms, r.pair.oms)
  {
    hide InStep;
    var updates := OpenUpdates(p.exchange, symbol);
    AllListed(p.oms, p.exchange, symbol);
    UpdatesKeepStep(p.oms, p.exchange, updates);
    AllListed(RunOps(p.oms, RemoteUpdates(updates)).state, p.exchange, symbol);
    assert UnknownMarks([]) == [];
  }

  // ------------------------------------------------------------------------------- whole runs

  datatype Turn = SubmitTurn(requests: seq<OrderRequest>) | CancelTurn(cancels: seq<CancelRequest>)
                | FillTurn(snapshot: MarketSnapshot) | ReconcileTurn(symbol: Option<string>)

  function Play(p: Pair, turn: Turn): PairStep {
    match turn
    case SubmitTurn(requests) => SubmitBoth(p, requests)
    case CancelTurn(requests) => CancelBoth(p, requests)
    case FillTurn(snapshot) => FillBoth(p, snapshot)
    case ReconcileTurn(symbol) => ReconcileBoth(p, symbol)
  }

  function PlayAll(p: Pair, turns: seq<Turn>): PairStep {
    if turns == [] then PairStep(p, Ok)
    else
      var before := PlayAll(p, turns[..|turns| - 1]);
      if before.outcome.Raised? then before else Play(before.pair, turns[|turns| - 1])
  }

  ghost predicate FreshTurn(p: Pair, turn: Turn) {
    turn.SubmitTurn? ==> FreshRequests(p.oms, p.exchange, turn.requests)
  }

  /** Lockstep over whole runs: from any state in step, in particular from both machines empty, every sequence of
      submit batches with fresh client ids, cancel batches, fill rounds and reconciliations returns normally
      throughout and ends in step. */
  lemma {:induction false} LockstepRun(p: Pair, turns: seq<Turn>)
    requires InStep(p.oms, p.exchange)
    requires forall i | 0 <= i < |turns| :: FreshTurn(PlayAll(p, turns[..i]).pair, turns[i])
    ensures var r := PlayAll(p, turns); r.outcome == Ok && InStep(r.pair.oms, r.pair.exchange)
  {
    hide InStep, FreshRequests, SubmitBoth, CancelBoth, FillBoth, ReconcileBoth;
    if turns != [] {
      var n := |turns| - 1;
      var init := turns[..n];
      forall i | 0 <= i < n
        ensures FreshTurn(PlayAll(p, init[..i]).pair, init[i])
      {
        assert init[..i] == turns[..i];
      }
      LockstepRun(p, init);
      var before := PlayAll(p, init).pair;
      assert FreshTurn(before, turns[n]);
      match turns[n]
      case SubmitTurn(requests) => SubmitKeepsStep(before, requests);
      case CancelTurn(requests) => CancelKeepsStep(before, requests);
      case FillTurn(snapshot) => FillsKeepStep(before, snapshot);
      case ReconcileTurn(symbol) => ReconcileKeepsStep(before, symbol);
    }
  }

  lemma EmptyInStep(ex: Exchange, saved: seq<OrderRecord>)
    requires ex.open == Empty()
    ensures InStep(OmsState(Empty(), saved), ex)
  {
    assert RequestIds([]) == [];
  }
}
