/** Whole runs of the order manager: the life of one record, and the average of its fills. */
module OmsRuns {
  import opened Dicts
  import opened Types
  import opened OrderState
  import opened Oms
  import opened Reals

  /** Every operation applied in turn, also after one that raised. */
  function RunAll(s: OmsState, ops: seq<Op>): OmsState {
    if ops == [] then s else ApplyOp(RunAll(s, ops[..|ops| - 1]), ops[|ops| - 1]).state
  }

  /** A call that stops at its first exception has run some prefix of its operations. */
  lemma {:induction false} RunOpsIsPrefix(s: OmsState, ops: seq<Op>) returns (n: nat)
    ensures n <= |ops| && RunOps(s, ops).state == RunAll(s, ops[..n])
    ensures RunOps(s, ops).outcome == Ok ==> n == |ops|
  {
    if ops == [] {
      n := 0;
    } else {
      var init := ops[..|ops| - 1];
      n := RunOpsIsPrefix(s, init);
      assert init[..n] == ops[..n];
      if RunOps(s, init).outcome == Ok {
        n := |ops|;
        assert ops[..n] == ops && init[..|init|] == init;
      }
    }
  }

  /** The terms of an order: what no operation changes. */
  predicate SameTerms(a: OrderRecord, b: OrderRecord) {
    && a.symbol == b.symbol && a.side == b.side && a.price == b.price && a.size == b.size
    && a.orderType == b.orderType && a.clientOrderId == b.clientOrderId
    && a.strategy == b.strategy && a.level == b.level
  }

  /** An operation keeps a record's terms, and changes its status only by an allowed, persisted transition. */
  lemma TouchFacts(record: OrderRecord, op: Op)
    ensures var t := TouchRecord(record, op);
      && SameTerms(t.record, record)
      && CanTransition(record.status, t.record.status)
      && (t.saved == [] || t.saved == [t.record])
      && (t.saved == [] ==> t.record.status == record.status)
      && (t.outcome.Raised? ==> t.saved == [])
  {
  }

  ghost predicate WellKeyed(s: OmsState) {
    forall id | id in s.orders.at :: s.orders.at[id].clientOrderId == id
  }

  lemma NewRecordFacts(op: Op)
    requires NewRecord(op).Some?
    ensures var t := NewRecord(op).value;
      && t.outcome == Ok && t.record.clientOrderId == OpId(op)
      && (op.SubmitStart? ==> t.record == FromRequest(op.request).(status := Submitting)
                              && t.saved == [FromRequest(op.request), t.record])
      && (!op.SubmitStart? ==> t.record.status == Unknown && t.saved == [t.record])
  {
  }

  lemma StepWellKeyed(s: OmsState, op: Op)
    requires WellKeyed(s)
    ensures WellKeyed(ApplyOp(s, op).state)
  {
    var id := OpId(op);
    if id in s.orders.at {
      TouchFacts(s.orders.at[id], op);
    } else if NewRecord(op).Some? {
      NewRecordFacts(op);
    }
  }

  /** An operation leaves every other id alone. */
  lemma StepElsewhere(s: OmsState, op: Op, id: string)
    requires OpId(op) != id
    ensures var end := ApplyOp(s, op).state;
      && (id in end.orders.at <==> id in s.orders.at)
      && (id in s.orders.at ==> end.orders.at[id] == s.orders.at[id])
  {
  }

  lemma StepValid(s: OmsState, op: Op)
    requires s.orders.Valid()
    ensures ApplyOp(s, op).state.orders.Valid()
  {
    var id := OpId(op);
    if id in s.orders.at {
      PutValid(s.orders, id, TouchRecord(s.orders.at[id], op).record);
    } else if NewRecord(op).Some? {
      PutValid(s.orders, id, NewRecord(op).value.record);
    }
  }

  lemma {:induction false} RunValid(s: OmsState, ops: seq<Op>)
    requires s.orders.Valid() && WellKeyed(s)
    ensures RunAll(s, ops).orders.Valid() && WellKeyed(RunAll(s, ops))
  {
    if ops != [] {
      RunValid(s, ops[..|ops| - 1]);
      StepValid(RunAll(s, ops[..|ops| - 1]), ops[|ops| - 1]);
      StepWellKeyed(RunAll(s, ops[..|ops| - 1]), ops[|ops| - 1]);
    }
  }

  // ------------------------------------------------------------------------------------------- lifecycle

  /** The statuses persisted for `id`, oldest first. */
  function History(saved: seq<OrderRecord>, id: string): seq<OrderStatus> {
    if saved == [] then []
    else
      var n := |saved| - 1;
      History(saved[..n], id) + if saved[n].clientOrderId == id then [saved[n].status] else []
  }

  lemma {:induction false} HistoryConcat(a: seq<OrderRecord>, b: seq<OrderRecord>, id: string)
    ensures History(a + b, id) == History(a, id) + History(b, id)
  {
    if b == [] {
      assert a + b == a;
    } else {
      var n := |b| - 1;
      assert (a + b)[..|a + b| - 1] == a + b[..n];
      HistoryConcat(a, b[..n], id);
    }
  }

  lemma HistoryOne(r: OrderRecord, id: string)
    ensures History([r], id) == if r.clientOrderId == id then [r.status] else []
  {
    assert [r][..0] == [];
  }

  /** The persisted history of `id` is a path that ends at its status in memory. */
  ghost predicate Tracked(s: OmsState, id: string) {
    var h := History(s.saved, id);
    if id in s.orders.at then
      && h != [] && Path(h) && h[|h| - 1] == s.orders.at[id].status
      && (h[0] == Created || h[0] == Unknown)
    else
      h == []
  }

  lemma PathAppend(h: seq<OrderStatus>, next: OrderStatus)
    requires h != [] && Path(h) && CanTransition(h[|h| - 1], next)
    ensures Path(h + [next])
  {
  }

  /** The records one operation persists are all filed under its own id. */
  lemma SavedIds(s: OmsState, op: Op, id: string)
    requires WellKeyed(s) && OpId(op) != id
    ensures History(ApplyOp(s, op).state.saved, id) == History(s.saved, id)
  {
    var key := OpId(op);
    if key in s.orders.at {
      var t := TouchRecord(s.orders.at[key], op);
      TouchFacts(s.orders.at[key], op);
      HistoryConcat(s.saved, t.saved, id);
      if t.saved != [] {
        HistoryOne(t.record, id);
      }
    } else if NewRecord(op).Some? {
      NewHistory(op, id);
      HistoryConcat(s.saved, NewRecord(op).value.saved, id);
    }
  }

  lemma NewHistory(op: Op, id: string)
    requires NewRecord(op).Some?
    ensures var t := NewRecord(op).value;
      History(t.saved, id) == if OpId(op) != id then []
                              else if op.SubmitStart? then [Created, Submitting] else [Unknown]
  {
    var t := NewRecord(op).value;
    NewRecordFacts(op);
    HistoryOne(t.record, id);
    if op.SubmitStart? {
      var created := FromRequest(op.request);
      assert t.saved == [created] + [t.record];
      HistoryConcat([created], [t.record], id);
      HistoryOne(created, id);
    }
  }

  lemma TouchKeepsId(record: OrderRecord, op: Op)
    ensures TouchRecord(record, op).record.clientOrderId == record.clientOrderId
  {
    hide TouchRecord;
    TouchFacts(record, op);
  }

  lemma TouchTracked(s: OmsState, op: Op)
    requires WellKeyed(s) && OpId(op) in s.orders.at && Tracked(s, OpId(op))
    ensures Tracked(ApplyOp(s, op).state, OpId(op))
  {
    hide TouchRecord, History, Path, CanTransition, SameTerms;
    TouchKeepsId(s.orders.at[OpId(op)], op);
    var id := OpId(op);
    var t := TouchRecord(s.orders.at[id], op);
    TouchFacts(s.orders.at[id], op);
    if t.saved == [] {
      assert s.saved + t.saved == s.saved;
    } else {
      HistoryConcat(s.saved, t.saved, id);
      HistoryOne(t.record, id);
      PathAppend(History(s.saved, id), t.record.status);
    }
  }

  lemma NewPaths()
    ensures Path([Created, Submitting]) && Path([Unknown])
  {
  }

  lemma NewTracked(s: OmsState, op: Op)
    requires OpId(op) !in s.orders.at && NewRecord(op).Some? && Tracked(s, OpId(op))
    ensures Tracked(ApplyOp(s, op).state, OpId(op))
  {
    hide History, NewRecord, Path;
    NewRecordFacts(op);
    NewPaths();
    var t := NewRecord(op).value;
    NewHistory(op, OpId(op));
    HistoryConcat(s.saved, t.saved, OpId(op));
    assert History(ApplyOp(s, op).state.saved, OpId(op)) == History(t.saved, OpId(op));
  }

  lemma StepTracked(s: OmsState, op: Op, id: string)
    requires WellKeyed(s) && Tracked(s, id)
    ensures Tracked(ApplyOp(s, op).state, id)
  {
    if OpId(op) != id {
      SavedIds(s, op, id);
      StepElsewhere(s, op, id);
    } else if id in s.orders.at {
      TouchTracked(s, op);
    } else if NewRecord(op).Some? {
      NewTracked(s, op);
    }
  }

  lemma {:induction false} RunTracked(s: OmsState, ops: seq<Op>, id: string)
    requires WellKeyed(s) && Tracked(s, id)
    ensures WellKeyed(RunAll(s, ops)) && Tracked(RunAll(s, ops), id)
  {
    if ops != [] {
      var before := RunAll(s, ops[..|ops| - 1]);
      RunTracked(s, ops[..|ops| - 1], id);
      StepWellKeyed(before, ops[|ops| - 1]);
      StepTracked(before, ops[|ops| - 1], id);
    }
  }

  /** Whatever is called, and whether or not the calls raise, a record created from a request changes status at
      most 6 + 4k times, k being the number of times it enters UNKNOWN; CREATED and SUBMITTING are never re-entered,
      and a terminal status is final. */
  lemma LifecycleBound(s: OmsState, ops: seq<Op>, id: string)
    requires WellKeyed(s) && id !in s.orders.at && History(s.saved, id) == []
    ensures var end := RunAll(s, ops); var h := History(end.saved, id);
      && (id in end.orders.at <==> h != [])
      && (h != [] ==> h[|h| - 1] == end.orders.at[id].status)
      && (h != [] && h[0] == Created ==> Changes(h) <= 6 + 4 * UnknownEntries(h))
      && (forall i, j | 0 <= i < j < |h| ::
            && (h[j] == Created ==> h[i] == Created)
            && (h[j] == Submitting ==> h[i] in {Created, Submitting})
            && (IsTerminal(h[i]) ==> h[j] == h[i]))
  {
    RunTracked(s, ops, id);
    var h := History(RunAll(s, ops).saved, id);
    if h != [] && h[0] == Created {
      CreatedChangesBound(h);
    }
    forall i, j | 0 <= i < j < |h|
      ensures (h[j] == Created ==> h[i] == Created) && (h[j] == Submitting ==> h[i] in {Created, Submitting})
           && (IsTerminal(h[i]) ==> h[j] == h[i])
    {
      PathOrder(h, i, j);
    }
  }

  /** A request, and then updates that report the statuses of `h` from the third on. */
  function PathOps(request: OrderRequest, h: seq<OrderStatus>): seq<Op> {
    if |h| <= 2 then [SubmitStart(request)]
    else
      var update := OrderUpdate(request.symbol, request.clientOrderId, None, h[|h| - 1], 0.0, None, None);
      PathOps(request, h[..|h| - 1]) + [Updated(update)]
  }

  lemma UpdateMoves(s: OmsState, update: OrderUpdate)
    requires WellKeyed(s) && update.clientOrderId in s.orders.at
    requires CanTransition(s.orders.at[update.clientOrderId].status, update.status)
    ensures var id := update.clientOrderId; var end := ApplyOp(s, Updated(update)).state;
      && WellKeyed(end) && id in end.orders.at && end.orders.at[id].status == update.status
      && History(end.saved, id) == History(s.saved, id) + [update.status]
  {
    hide History, CanTransition;
    var t := TouchRecord(s.orders.at[update.clientOrderId], Updated(update));
    HistoryConcat(s.saved, [t.record], update.clientOrderId);
    HistoryOne(t.record, update.clientOrderId);
  }

  lemma StartMoves(s: OmsState, request: OrderRequest)
    requires WellKeyed(s) && request.clientOrderId !in s.orders.at && History(s.saved, request.clientOrderId) == []
    ensures var id := request.clientOrderId; var end := ApplyOp(s, SubmitStart(request)).state;
      && WellKeyed(end) && id in end.orders.at && end.orders.at[id].status == Submitting
      && History(end.saved, id) == [Created, Submitting]
  {
    hide History;
    var op := SubmitStart(request);
    NewRecordFacts(op);
    NewHistory(op, request.clientOrderId);
    HistoryConcat(s.saved, NewRecord(op).value.saved, request.clientOrderId);
    StepWellKeyed(s, op);
  }

  /** Every path of a submitted order is the history of some run. */
  lemma {:induction false} PathIsRun(s: OmsState, request: OrderRequest, h: seq<OrderStatus>)
    requires WellKeyed(s) && request.clientOrderId !in s.orders.at && History(s.saved, request.clientOrderId) == []
    requires |h| >= 2 && Path(h) && h[0] == Created && h[1] == Submitting
    ensures var id := request.clientOrderId; var end := RunAll(s, PathOps(request, h));
      && WellKeyed(end) && id in end.orders.at && end.orders.at[id].status == h[|h| - 1]
      && History(end.saved, id) == h
  {
    hide ApplyOp, History, WellKeyed, CanTransition;
    var ops := PathOps(request, h);
    if |h| == 2 {
      StartMoves(s, request);
      assert ops[..0] == [] && h == [Created, Submitting];
    } else {
      var n := |h| - 1;
      var init := h[..n];
      PathIsRun(s, request, init);
      assert ops[..|ops| - 1] == PathOps(request, init);
      assert CanTransition(h[n - 1], h[n]);
      UpdateMoves(RunAll(s, ops[..|ops| - 1]), ops[|ops| - 1].update);
      assert h == init + [h[n]];
    }
  }

  /** The bound on an order's life is exact over runs of the order manager: for every k some run takes a new request
      through k entries into UNKNOWN and 6 + 4k changes of status. */
  lemma LifecycleBoundAttained(s: OmsState, request: OrderRequest, k: nat) returns (ops: seq<Op>)
    requires WellKeyed(s) && request.clientOrderId !in s.orders.at && History(s.saved, request.clientOrderId) == []
    ensures var h := History(RunAll(s, ops).saved, request.clientOrderId);
      h != [] && h[0] == Created && UnknownEntries(h) == k && Changes(h) == 6 + 4 * k
  {
    hide History, RunAll, Path, Changes, UnknownEntries;
    var h := ChangesBoundAttained(k);
    ops := PathOps(request, h);
    PathIsRun(s, request, h);
  }

  // ----------------------------------------------------------------------------------- single submits

  /** A submit that returns leaves its order neither CREATED, SUBMITTING nor ACKED: open only if the gateway accepted
      it, UNKNOWN if the gateway raised, UNKNOWN or REJECTED if it refused; its terms are those of the request, or of
      the order already there. */
  lemma SubmitResolves(s: OmsState, request: OrderRequest, answer: Option<OrderAck>)
    requires answer.Some? ==> answer.value.clientOrderId == request.clientOrderId
    requires Submitted(s, request, answer).outcome == Ok
    ensures var id := request.clientOrderId; var end := Submitted(s, request, answer).state;
      && id in end.orders.at
      && var r := end.orders.at[id];
      && SameTerms(r, if id in s.orders.at then s.orders.at[id] else FromRequest(request))
      && r.status !in {Created, Submitting, Acked}
      && (answer == None ==> r.status == Unknown)
      && (answer.Some? && !answer.value.accepted ==> r.status in {Unknown, Rejected})
      && (answer.Some? && answer.value.accepted && IsOpen(answer.value.status) ==> IsOpen(r.status))
      && (answer.Some? && answer.value.exchangeOrderId.Some? && answer.value.exchangeOrderId.value != "" ==>
            r.exchangeOrderId == answer.value.exchangeOrderId)
  {
    var started := ApplyOp(s, SubmitStart(request)).state;
    var id := request.clientOrderId;
    if id in s.orders.at {
      TouchFacts(s.orders.at[id], SubmitStart(request));
    } else {
      NewRecordFacts(SubmitStart(request));
    }
    TouchFacts(started.orders.at[id], if answer.Some? then OrderAcked(answer.value) else MarkedUnknown(id));
  }

  /** A cancel that returns, from a gateway whose accepted cancels end the order, leaves the order terminal or UNKNOWN,
      and leaves alone an order that was already terminal, or that was not there. */
  lemma CancelResolves(s: OmsState, request: CancelRequest, answer: Option<CancelAck>)
    requires answer.Some? ==>
      answer.value.clientOrderId == request.clientOrderId && (answer.value.accepted ==> IsTerminal(answer.value.status))
    requires CanceledOne(s, request, answer).outcome == Ok
    ensures var id := request.clientOrderId; var end := CanceledOne(s, request, answer).state;
      && (!IsLive(s, id) ==> end == s)
      && (IsLive(s, id) ==>
            && id in end.orders.at && SameTerms(end.orders.at[id], s.orders.at[id])
            && (if answer == None || !answer.value.accepted then end.orders.at[id].status == Unknown
                else end.orders.at[id].status == answer.value.status))
  {
    var id := request.clientOrderId;
    if IsLive(s, id) {
      TouchFacts(s.orders.at[id], CancelStart(id));
      var started := ApplyOp(s, CancelStart(id)).state;
      TouchFacts(started.orders.at[id], if answer.Some? then CancelAcked(answer.value) else MarkedUnknown(id));
    }
  }

  // -------------------------------------------------------------------------------------- fill averaging

  function FillOps(fills: seq<FillEvent>): seq<Op> {
    seq(|fills|, i requires 0 <= i < |fills| => FillApplied(fills[i]))
  }

  function FilledSum(fills: seq<FillEvent>): real {
    if fills == [] then 0.0 else FilledSum(fills[..|fills| - 1]) + fills[|fills| - 1].size
  }

  function PaidSum(fills: seq<FillEvent>): real {
    if fills == [] then 0.0
    else
      var n := |fills| - 1;
      PaidSum(fills[..n]) + Notional(fills[n].price, fills[n].size)
  }

  function LeastPrice(fills: seq<FillEvent>): real
    requires fills != []
  {
    if |fills| == 1 then fills[0].price else Min(LeastPrice(fills[..|fills| - 1]), fills[|fills| - 1].price)
  }

  function GreatestPrice(fills: seq<FillEvent>): real
    requires fills != []
  {
    if |fills| == 1 then fills[0].price else Max(GreatestPrice(fills[..|fills| - 1]), fills[|fills| - 1].price)
  }

  /** They are the prices of two of the fills, and bound those of all. */
  lemma {:induction false} PriceBounds(fills: seq<FillEvent>) returns (least: nat, greatest: nat)
    requires fills != []
    ensures least < |fills| && fills[least].price == LeastPrice(fills)
    ensures greatest < |fills| && fills[greatest].price == GreatestPrice(fills)
    ensures forall i | 0 <= i < |fills| :: fills[least].price <= fills[i].price <= fills[greatest].price
  {
    var n := |fills| - 1;
    least, greatest := n, n;
    if n > 0 {
      var l, g := PriceBounds(fills[..n]);
      if fills[l].price <= fills[n].price {
        least := l;
      }
      if fills[n].price <= fills[g].price {
        greatest := g;
      }
    }
  }

  ghost predicate FillsOf(fills: seq<FillEvent>, id: string) {
    forall i | 0 <= i < |fills| :: fills[i].clientOrderId == id && fills[i].size > 0.0
  }

  lemma {:induction false} FilledSumPositive(fills: seq<FillEvent>, id: string)
    requires FillsOf(fills, id)
    ensures fills != [] ==> FilledSum(fills) > 0.0
  {
    if |fills| > 1 {
      FilledSumPositive(fills[..|fills| - 1], id);
    } else if |fills| == 1 {
      assert FilledSum(fills[..0]) == 0.0;
    }
  }

  lemma Between(lo: real, a: real, p: real, q: real, z: real, b: real)
    requires p > 0.0 && z > 0.0 && b * (p + z) == a * p + q * z
    ensures lo <= a && lo <= q ==> lo <= b
    ensures a <= lo && q <= lo ==> b <= lo
  {
    var n := p + z;
    if lo <= a && lo <= q {
      calc {
        lo * n;
        lo * p + lo * z;
      <= { MulLe(lo, a, p); MulLe(lo, q, z); }
        a * p + q * z;
        b * n;
      }
      MulCancel(lo, b, n);
    }
    if a <= lo && q <= lo {
      calc {
        b * n;
        a * p + q * z;
      <= { MulLe(a, lo, p); MulLe(q, lo, z); }
        lo * p + lo * z;
        lo * n;
      }
      MulCancel(b, lo, n);
    }
  }

  lemma Blend(a: real, p: real, q: real, z: real, lo: real, hi: real)
    requires p > 0.0 && z > 0.0 && lo <= a <= hi
    ensures Notional(BlendedPrice(a, p, q, z, p + z), p + z) == Notional(a, p) + Notional(q, z)
    ensures Min(lo, q) <= BlendedPrice(a, p, q, z, p + z) <= Max(hi, q)
  {
    var b := BlendedPrice(a, p, q, z, p + z);
    Between(Min(lo, q), a, p, q, z, b);
    Between(Max(hi, q), a, p, q, z, b);
  }

  /** The order in memory after fills that were all accepted. */
  ghost predicate Averaged(r: OrderRecord, origin: OrderRecord, fills: seq<FillEvent>) {
    && SameTerms(r, origin)
    && r.filledSize == FilledSum(fills)
    && (fills == [] ==> r == origin)
    && (fills != [] ==>
        && r.avgFillPrice.Some?
        && Notional(r.avgFillPrice.value, r.filledSize) == PaidSum(fills)
        && LeastPrice(fills) <= r.avgFillPrice.value <= GreatestPrice(fills))
    && (r.status == Filled <==> FilledSum(fills) == origin.size)
  }

  lemma AveragedStep(r: OrderRecord, origin: OrderRecord, fills: seq<FillEvent>, fill: FillEvent)
    requires origin.filledSize == 0.0 && origin.avgFillPrice.None? && origin.size > 0.0
    requires FillsOf(fills + [fill], fill.clientOrderId) && FilledSum(fills + [fill]) <= origin.size
    requires Averaged(r, origin, fills) && TouchFill(r, fill).outcome == Ok
    ensures Averaged(TouchFill(r, fill).record, origin, fills + [fill])
  {
    hide BlendedPrice, Notional;
    var all := fills + [fill];
    assert all[..|fills|] == fills;
    FilledSumPositive(all, fill.clientOrderId);
    if fills == [] {
      assert r.filledSize == 0.0;
      assert TouchFill(r, fill).record.filledSize == fill.size;
      assert TouchFill(r, fill).record.avgFillPrice == Some(fill.price);
      assert PaidSum(all) == Notional(fill.price, fill.size);
    } else {
      assert FillsOf(fills, fill.clientOrderId) by {
        assert forall i | 0 <= i < |fills| :: fills[i] == all[i];
      }
      FilledSumPositive(fills, fill.clientOrderId);
      Blend(r.avgFillPrice.value, r.filledSize, fill.price, fill.size, LeastPrice(fills), GreatestPrice(fills));
    }
  }

  /** A fresh record whose accepted fills have positive sizes summing to at most its size: its average price is the
      exact size-weighted average, it lies between the least and the greatest fill price, and the record is FILLED
      exactly when the fills sum to the order size. */
  lemma FillAveraging(s: OmsState, id: string, fills: seq<FillEvent>)
    requires id in s.orders.at
    requires var r := s.orders.at[id];
      r.filledSize == 0.0 && r.avgFillPrice.None? && r.size > 0.0 && r.status != Filled
    requires FillsOf(fills, id) && FilledSum(fills) <= s.orders.at[id].size
    requires RunOps(s, FillOps(fills)).outcome == Ok
    ensures var end := RunOps(s, FillOps(fills)).state;
      && id in end.orders.at && Averaged(end.orders.at[id], s.orders.at[id], fills)
      && (fills != [] ==> exists i, j | 0 <= i < |fills| && 0 <= j < |fills| ::
            fills[i].price <= end.orders.at[id].avgFillPrice.value <= fills[j].price)
  {
    FillsAveraged(s, id, fills);
    if fills != [] {
      var least, greatest := PriceBounds(fills);
    }
  }

  lemma NothingFilled(r: OrderRecord)
    requires r.filledSize == 0.0 && r.avgFillPrice.None? && r.size > 0.0 && r.status != Filled
    ensures Averaged(r, r, [])
  {
  }

  lemma SumAppend(fills: seq<FillEvent>, fill: FillEvent)
    ensures FilledSum(fills + [fill]) == FilledSum(fills) + fill.size
  {
    assert (fills + [fill])[..|fills|] == fills;
  }

  lemma FillTouches(s: OmsState, fill: FillEvent)
    requires fill.clientOrderId in s.orders.at
    ensures var t := TouchFill(s.orders.at[fill.clientOrderId], fill); var end := ApplyOp(s, FillApplied(fill));
      && end.outcome == t.outcome && fill.clientOrderId in end.state.orders.at
      && end.state.orders.at[fill.clientOrderId] == t.record
  {
    hide TouchFill;
  }

  lemma {:induction false} FillsAveraged(s: OmsState, id: string, fills: seq<FillEvent>)
    requires id in s.orders.at
    requires var r := s.orders.at[id];
      r.filledSize == 0.0 && r.avgFillPrice.None? && r.size > 0.0 && r.status != Filled
    requires FillsOf(fills, id) && FilledSum(fills) <= s.orders.at[id].size
    requires RunOps(s, FillOps(fills)).outcome == Ok
    ensures var end := RunOps(s, FillOps(fills)).state;
      id in end.orders.at && Averaged(end.orders.at[id], s.orders.at[id], fills)
  {
    hide ApplyOp, Averaged, FilledSum, PaidSum;
    if fills == [] {
      NothingFilled(s.orders.at[id]);
    } else {
      var n := |fills| - 1;
      var init := fills[..n];
      assert FillOps(fills)[..n] == FillOps(init);
      assert fills == init + [fills[n]];
      SumAppend(init, fills[n]);
      FilledSumPositive([fills[n]], id);
      FillsAveraged(s, id, init);
      var before := RunOps(s, FillOps(init)).state;
      FillTouches(before, fills[n]);
      AveragedStep(before.orders.at[id], s.orders.at[id], init, fills[n]);
    }
  }
}
