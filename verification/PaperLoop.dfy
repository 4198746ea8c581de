/** The whole system on paper: the application (src/mm/app.py) with the paper exchange (src/mm/exchange/paper.py) behind
    its gateway, over runs of ticks. */
module PaperLoop {
  import opened Dicts
  import opened Types
  import opened OrderState
  import opened Oms
  import opened OmsRuns
  import opened Paper
  import opened Lockstep
  import opened Exposure
  import opened Quote
  import opened Risk
  import opened App
  import opened AppRuns
  import opened Slots
  import opened Caps
  import opened ClosedLoop

  // ------------------------------------------------------------------------------- the fills of a tick

  /** A tick's `simulate_fills`, one call for each market. */
  function FillRounds(ex: Exchange, snapshots: seq<MarketSnapshot>): ExStep {
    if snapshots == [] then ExStep(ex, [])
    else
      var n := |snapshots| - 1;
      var before := FillRounds(ex, snapshots[..n]);
      var last := SimulateFills(before.exchange, snapshots[n]);
      ExStep(last.exchange, before.fills + last.fills)
  }

  predicate PositiveFills(fills: seq<FillEvent>) {
    forall i | 0 <= i < |fills| :: fills[i].size > 0.0
  }

  /** The exchange's books balance. */
  ghost predicate BooksBalance(ex: Exchange) {
    L.WellFormed(ex) && forall c :: L.FrozenIsReserved(ex, c)
  }

  lemma {:induction false} OpsFacts(ex: Exchange, ids: seq<string>, snapshot: MarketSnapshot)
    ensures var e := RunEx(ex, RoundOps(ids, snapshot)); e.exchange.rules == ex.rules && PositiveFills(e.fills)
  {
    hide TryFill;
    if ids != [] {
      var n := |ids| - 1;
      OpsFacts(ex, ids[..n], snapshot);
      assert RoundOps(ids, snapshot)[..n] == RoundOps(ids[..n], snapshot);
      OneFacts(RunEx(ex, RoundOps(ids[..n], snapshot)).exchange, ids[n], snapshot);
    }
  }

  lemma OneFacts(ex: Exchange, id: string, snapshot: MarketSnapshot)
    ensures var e := TryFill(ex, id, snapshot); e.exchange.rules == ex.rules && PositiveFills(e.fills)
  {
  }

  lemma RoundBalanced(ex: Exchange, snapshot: MarketSnapshot)
    requires BooksBalance(ex)
    ensures BooksBalance(SimulateFills(ex, snapshot).exchange)
  {
    hide L.FrozenIsReserved, L.WellFormed;
    L.FrozenAlwaysReserved(ex, RoundOps(ex.open.keys, snapshot));
  }

  lemma {:induction false} RoundsFacts(ex: Exchange, snapshots: seq<MarketSnapshot>)
    requires BooksBalance(ex)
    ensures var e := FillRounds(ex, snapshots);
      e.exchange.rules == ex.rules && PositiveFills(e.fills) && BooksBalance(e.exchange)
  {
    hide BooksBalance;
    if snapshots != [] {
      var n := |snapshots| - 1;
      RoundsFacts(ex, snapshots[..n]);
      var before := FillRounds(ex, snapshots[..n]).exchange;
      RoundBalanced(before, snapshots[n]);
      OpsFacts(before, before.open.keys, snapshots[n]);
    }
  }

  lemma {:induction false} RoundsKeepStep(s: OmsState, ex: Exchange, snapshots: seq<MarketSnapshot>)
    requires InStep(s, ex)
    ensures var e := FillRounds(ex, snapshots); var t := RunOps(s, FillOps(e.fills));
      t.outcome == Ok && InStep(t.state, e.exchange)
  {
    hide InStep, SimulateFills;
    if snapshots == [] {
      assert FillOps([]) == [];
    } else {
      var n := |snapshots| - 1;
      RoundsKeepStep(s, ex, snapshots[..n]);
      var before := FillRounds(ex, snapshots[..n]);
      var last := SimulateFills(before.exchange, snapshots[n]);
      FillsKeepStep(Pair(RunOps(s, FillOps(before.fills)).state, before.exchange), snapshots[n]);
      assert FillOps(before.fills + last.fills) == FillOps(before.fills) + FillOps(last.fills);
      RunOpsConcat(s, FillOps(before.fills), FillOps(last.fills));
    }
  }

  lemma {:induction false} FillsKeepKeys(s: OmsState, fills: seq<FillEvent>)
    ensures RunOps(s, FillOps(fills)).state.orders.at.Keys == s.orders.at.Keys
  {
    hide TouchRecord;
    if fills != [] {
      var n := |fills| - 1;
      FillsKeepKeys(s, fills[..n]);
      assert FillOps(fills)[..n] == FillOps(fills[..n]);
    }
  }

  // ------------------------------------------------------------------------------- the cancels of a tick

  /** Cancel batches, one after the other, on both machines. */
  function CancelAllOn(p: Pair, batches: seq<seq<CancelRequest>>): PairStep {
    if batches == [] then PairStep(p, Ok)
    else
      var n := |batches| - 1;
      var before := CancelAllOn(p, batches[..n]);
      if before.outcome.Raised? then before else CancelBoth(before.pair, batches[n])
  }

  /** What reaches the exchange of batch n. */
  function ActiveOf(p: Pair, batches: seq<seq<CancelRequest>>, n: nat): seq<CancelRequest>
    requires n < |batches|
  {
    StartCancels(CancelAllOn(p, batches[..n]).pair.oms, batches[n]).active
  }

  /** What the exchange answers when that reaches it. */
  function CancelAnswer(p: Pair, batches: seq<seq<CancelRequest>>, n: nat): Reply<CancelAck>
    requires n < |batches|
  {
    Acks(CancelBatch(CancelAllOn(p, batches[..n]).pair.exchange, ActiveOf(p, batches, n)).acks)
  }

  /** The exchange's answer to `batch` during these batches. */
  function CancelReply(p: Pair, batches: seq<seq<CancelRequest>>, batch: seq<CancelRequest>): Reply<CancelAck> {
    if batches == [] then GatewayRaised
    else
      var n := |batches| - 1;
      if ActiveOf(p, batches, n) == batch then CancelAnswer(p, batches, n) else CancelReply(p, batches[..n], batch)
  }

  function PaperCancels(p: Pair, batches: seq<seq<CancelRequest>>): seq<CancelRequest> -> Reply<CancelAck> {
    batch => CancelReply(p, batches, batch)
  }

  /** No symbol in two batches. */
  ghost predicate Separate<T>(batches: seq<seq<T>>, key: T -> string) {
    forall i, j, x, y | 0 <= i < j < |batches| && x in batches[i] && y in batches[j] :: key(x) != key(y)
  }

  lemma NotInBoth<T>(batches: seq<seq<T>>, key: T -> string, i: nat, j: nat, x: T)
    requires Separate(batches, key) && i < j < |batches| && x in batches[i]
    ensures x !in batches[j]
  {
    var k := key(x);
  }

  lemma BatchesSeparate<T>(items: seq<T>, key: T -> string)
    ensures Separate(Batches(items, key), key)
    ensures forall i | 0 <= i < |Batches(items, key)| :: forall x | x in Batches(items, key)[i] :: x in items
  {
    hide Batches, GroupBy;
    BatchesAreGroups(items, key);
    GroupMembers(items, key);
    KeysDistinct(GroupBy(items, key));
  }

  lemma {:induction false} ActiveAsked(s: OmsState, requests: seq<CancelRequest>)
    ensures forall r | r in StartCancels(s, requests).active :: r in requests
  {
    hide ApplyOp;
    if requests != [] {
      var n := |requests| - 1;
      assert requests == requests[..n] + [requests[n]];
      ActiveAsked(s, requests[..n]);
    }
  }

  lemma ActivePrefix(p: Pair, batches: seq<seq<CancelRequest>>, n: nat, i: nat)
    requires i < n <= |batches|
    ensures ActiveOf(p, batches[..n], i) == ActiveOf(p, batches, i)
    ensures CancelAnswer(p, batches[..n], i) == CancelAnswer(p, batches, i)
  {
    assert batches[..n][..i] == batches[..i];
  }

  lemma ActiveDiffer(p: Pair, batches: seq<seq<CancelRequest>>, i: nat, j: nat)
    requires Separate(batches, CancelSymbol) && i < j < |batches| && ActiveOf(p, batches, i) != []
    ensures ActiveOf(p, batches, i) != ActiveOf(p, batches, j)
  {
    hide StartCancels, CancelAllOn, Separate;
    var active := ActiveOf(p, batches, i);
    ActiveAsked(CancelAllOn(p, batches[..i]).pair.oms, batches[i]);
    ActiveAsked(CancelAllOn(p, batches[..j]).pair.oms, batches[j]);
    assert active[0] in active;
    NotInBoth(batches, CancelSymbol, i, j, active[0]);
  }

  /** Batches for different symbols are told apart, so each gets the answer of its turn. */
  lemma {:induction false} CancelReplyInTurn(p: Pair, batches: seq<seq<CancelRequest>>, i: nat)
    requires Separate(batches, CancelSymbol) && i < |batches| && ActiveOf(p, batches, i) != []
    ensures CancelReply(p, batches, ActiveOf(p, batches, i)) == CancelAnswer(p, batches, i)
  {
    hide ActiveOf, CancelAnswer;
    var n := |batches| - 1;
    if i < n {
      ActivePrefix(p, batches, n, i);
      ActiveDiffer(p, batches, i, n);
      CancelReplyInTurn(p, batches[..n], i);
    }
  }

  lemma {:induction false} PaperAnswers(ex: Exchange, batch: seq<CancelRequest>)
    ensures var acks := CancelBatch(ex, batch).acks;
      && |acks| == |batch|
      && forall i | 0 <= i < |acks| ::
           acks[i].clientOrderId == batch[i].clientOrderId && (acks[i].accepted ==> IsTerminal(acks[i].status))
  {
    if batch != [] {
      PaperAnswers(ex, batch[..|batch| - 1]);
    }
  }

  ghost predicate AnsweredByPaper(batch: seq<CancelRequest>, reply: Reply<CancelAck>) {
    reply.Acks? ==> exists ex: Exchange :: reply.acks == CancelBatch(ex, batch).acks
  }

  lemma {:induction false} CancelReplyByPaper(p: Pair, batches: seq<seq<CancelRequest>>, batch: seq<CancelRequest>)
    ensures AnsweredByPaper(batch, CancelReply(p, batches, batch))
  {
    hide CancelBatch, StartCancels, CancelAllOn;
    if batches != [] {
      CancelReplyByPaper(p, batches[..|batches| - 1], batch);
    }
  }

  /** The paper exchange answers every cancel, for the orders it was asked about, and ends those it accepts. */
  lemma PaperCancelsAnswer(p: Pair, batches: seq<seq<CancelRequest>>)
    ensures AnswersCancels(PaperCancels(p, batches)) && OnPoint(PaperCancels(p, batches))
  {
    hide CancelReply, CancelBatch;
    var gateway := PaperCancels(p, batches);
    forall batch: seq<CancelRequest> | gateway(batch).Acks?
      ensures Answered(batch, gateway(batch).acks)
      ensures forall i | 0 <= i < |gateway(batch).acks| :: AskedAbout(batch, gateway(batch).acks[i].clientOrderId)
    {
      CancelReplyByPaper(p, batches, batch);
      var ex: Exchange :| gateway(batch).acks == CancelBatch(ex, batch).acks;
      PaperAnswers(ex, batch);
      AnswersAreOnPoint(batch, gateway(batch).acks);
    }
  }

  lemma AnswersAreOnPoint(batch: seq<CancelRequest>, acks: seq<CancelAck>)
    requires |acks| == |batch|
    requires forall i | 0 <= i < |acks| ::
      acks[i].clientOrderId == batch[i].clientOrderId && (acks[i].accepted ==> IsTerminal(acks[i].status))
    ensures Answered(batch, acks)
    ensures forall i | 0 <= i < |acks| :: AskedAbout(batch, acks[i].clientOrderId)
  {
    forall r | r in batch
      ensures exists i :: 0 <= i < |acks| && acks[i].clientOrderId == r.clientOrderId
    {
      var i :| 0 <= i < |batch| && batch[i] == r;
      assert acks[i].clientOrderId == r.clientOrderId;
    }
    forall i | 0 <= i < |acks|
      ensures AskedAbout(batch, acks[i].clientOrderId)
    {
      assert batch[i] in batch;
    }
  }

  /** The gateway answers each batch as the exchange does in its turn. */
  ghost predicate CancelsInTurn(p: Pair, batches: seq<seq<CancelRequest>>,
      gateway: seq<CancelRequest> -> Reply<CancelAck>) {
    forall i | 0 <= i < |batches| && ActiveOf(p, batches, i) != [] ::
      gateway(ActiveOf(p, batches, i)) == CancelAnswer(p, batches, i)
  }

  lemma CancelsOnce(p: Pair, batch: seq<CancelRequest>, gateway: seq<CancelRequest> -> Reply<CancelAck>)
    requires var active := StartCancels(p.oms, batch).active;
      active != [] ==> gateway(active) == Acks(CancelBatch(p.exchange, active).acks)
    ensures BatchCanceled(p.oms, batch, gateway) == Step(CancelBoth(p, batch).pair.oms, CancelBoth(p, batch).outcome)
  {
    hide StartCancels, FinishCancels, CancelBatch;
  }

  lemma CancelBothBalanced(p: Pair, batch: seq<CancelRequest>)
    requires BooksBalance(p.exchange)
    ensures BooksBalance(CancelBoth(p, batch).pair.exchange)
    ensures CancelBoth(p, batch).pair.exchange.rules == p.exchange.rules
  {
    hide StartCancels, BatchCanceled, L.WellFormed, L.FrozenIsReserved, CancelBatch;
    var active := StartCancels(p.oms, batch).active;
    L.CancelBatchFrozen(p.exchange, active);
    CancelBatchRules(p.exchange, active);
  }

  lemma {:induction false} CancelBatchRules(ex: Exchange, batch: seq<CancelRequest>)
    ensures CancelBatch(ex, batch).exchange.rules == ex.rules
  {
    if batch != [] {
      CancelBatchRules(ex, batch[..|batch| - 1]);
    }
  }

  /** A tick's cancels keep the machines in step and never raise. */
  lemma {:induction false} CancelsKeepStep(p: Pair, batches: seq<seq<CancelRequest>>,
      gateway: seq<CancelRequest> -> Reply<CancelAck>)
    requires InStep(p.oms, p.exchange) && BooksBalance(p.exchange) && CancelsInTurn(p, batches, gateway)
    ensures var r := CancelAllOn(p, batches);
      && r.outcome == Ok && InStep(r.pair.oms, r.pair.exchange) && BooksBalance(r.pair.exchange)
      && r.pair.exchange.rules == p.exchange.rules
      && CancelBatches(p.oms, batches, gateway) == Step(r.pair.oms, Ok)
  {
    hide InStep, BooksBalance, BatchCanceled, CancelBoth, StartCancels, CancelBatch;
    if batches != [] {
      var n := |batches| - 1;
      var init := batches[..n];
      forall i | 0 <= i < n && ActiveOf(p, init, i) != []
        ensures gateway(ActiveOf(p, init, i)) == CancelAnswer(p, init, i)
      {
        assert init[..i] == batches[..i];
        assert ActiveOf(p, batches, i) == ActiveOf(p, init, i);
      }
      CancelsKeepStep(p, init, gateway);
      var before := CancelAllOn(p, init).pair;
      assert ActiveOf(p, batches, n) == StartCancels(before.oms, batches[n]).active;
      CancelsOnce(before, batches[n], gateway);
      CancelKeepsStep(before, batches[n]);
      CancelBothBalanced(before, batches[n]);
    }
  }

  // ------------------------------------------------------------------------------- the submits of a tick

  /** Submit batches, one after the other, on both machines. */
  function SubmitAllOn(p: Pair, batches: seq<seq<OrderRequest>>): PairStep {
    if batches == [] then PairStep(p, Ok)
    else
      var n := |batches| - 1;
      var before := SubmitAllOn(p, batches[..n]);
      if before.outcome.Raised? then before else SubmitBoth(before.pair, batches[n])
  }

  /** What the exchange answers to batch n in its turn. */
  function SubmitAnswer(p: Pair, batches: seq<seq<OrderRequest>>, n: nat): Reply<OrderAck>
    requires n < |batches|
  {
    var b := SubmitBatch(SubmitAllOn(p, batches[..n]).pair.exchange, batches[n]);
    if b.raised then GatewayRaised else Acks(b.acks)
  }

  /** The exchange's answer to `batch` during these batches. */
  function SubmitReply(p: Pair, batches: seq<seq<OrderRequest>>, batch: seq<OrderRequest>): Reply<OrderAck> {
    if batches == [] then GatewayRaised
    else
      var n := |batches| - 1;
      if batches[n] == batch then SubmitAnswer(p, batches, n) else SubmitReply(p, batches[..n], batch)
  }

  function PaperSubmits(p: Pair, batches: seq<seq<OrderRequest>>): seq<OrderRequest> -> Reply<OrderAck> {
    batch => SubmitReply(p, batches, batch)
  }

  lemma AnswerPrefix(p: Pair, batches: seq<seq<OrderRequest>>, n: nat, i: nat)
    requires i < n <= |batches|
    ensures SubmitAnswer(p, batches[..n], i) == SubmitAnswer(p, batches, i)
  {
    assert batches[..n][..i] == batches[..i];
  }

  lemma BatchesDiffer(batches: seq<seq<OrderRequest>>, i: nat, j: nat)
    requires Separate(batches, RequestSymbol) && i < j < |batches| && batches[i] != []
    ensures batches[i] != batches[j]
  {
    NotInBoth(batches, RequestSymbol, i, j, batches[i][0]);
  }

  lemma {:induction false} SubmitReplyInTurn(p: Pair, batches: seq<seq<OrderRequest>>, i: nat)
    requires Separate(batches, RequestSymbol) && i < |batches| && batches[i] != []
    ensures SubmitReply(p, batches, batches[i]) == SubmitAnswer(p, batches, i)
  {
    hide SubmitAnswer;
    var n := |batches| - 1;
    if i < n {
      AnswerPrefix(p, batches, n, i);
      BatchesDiffer(batches, i, n);
      SubmitReplyInTurn(p, batches[..n], i);
    }
  }

  ghost predicate SubmitsInTurn(p: Pair, batches: seq<seq<OrderRequest>>,
      gateway: seq<OrderRequest> -> Reply<OrderAck>) {
    forall i | 0 <= i < |batches| && batches[i] != [] :: gateway(batches[i]) == SubmitAnswer(p, batches, i)
  }

  lemma SubmitsOnce(p: Pair, batch: seq<OrderRequest>, reply: Reply<OrderAck>)
    requires batch != [] ==>
      var b := SubmitBatch(p.exchange, batch); reply == if b.raised then GatewayRaised else Acks(b.acks)
    ensures BatchSubmitted(p.oms, batch, reply) == Step(SubmitBoth(p, batch).pair.oms, SubmitBoth(p, batch).outcome)
  {
    hide RunOps, SubmitBatch;
  }

  /** Requests with new ids for symbols the exchange knows, no id twice. */
  ghost predicate NewRequests(p: Pair, batches: seq<seq<OrderRequest>>) {
    && DistinctBatches(batches)
    && forall i, r | 0 <= i < |batches| && r in batches[i] ::
         r.clientOrderId !in p.oms.orders.at && r.symbol in p.exchange.rules
  }

  lemma {:induction false} AcksKeepKeys(s: OmsState, acks: seq<OrderAck>)
    ensures RunOps(s, OrderAcks(acks)).state.orders.at.Keys == s.orders.at.Keys
  {
    hide TouchRecord;
    if acks != [] {
      var n := |acks| - 1;
      AcksKeepKeys(s, acks[..n]);
      assert OrderAcks(acks)[..n] == OrderAcks(acks[..n]);
    }
  }

  lemma SubmitBothKeys(p: Pair, batch: seq<OrderRequest>, id: string)
    requires InStep(p.oms, p.exchange) && FreshRequests(p.oms, p.exchange, batch)
    requires id in SubmitBoth(p, batch).pair.oms.orders.at
    ensures id in p.oms.orders.at || exists r :: r in batch && r.clientOrderId == id
  {
    hide InStep, FreshRequests, SubmitBatch, RunOps, ApplyOp;
    BeginAll(p.oms, p.exchange, batch);
    var b := SubmitBatch(p.exchange, batch);
    var started := RunOps(p.oms, SubmitStarts(batch)).state;
    AcksKeepKeys(started, b.acks);
    if b.raised {
      MarksKeepKeys(started, RequestIds(batch));
    }
    if id !in p.oms.orders.at {
      var i :| 0 <= i < |batch| && RequestIds(batch)[i] == id;
      assert batch[i] in batch;
    }
  }

  lemma {:induction false} MarksKeepKeys(s: OmsState, ids: seq<string>)
    ensures RunOps(s, UnknownMarks(ids)).state.orders.at.Keys == s.orders.at.Keys
  {
    hide TouchRecord;
    if ids != [] {
      var n := |ids| - 1;
      MarksKeepKeys(s, ids[..n]);
      assert UnknownMarks(ids)[..n] == UnknownMarks(ids[..n]);
    }
  }

  lemma {:induction false} SubmitBatchFacts(ex: Exchange, batch: seq<OrderRequest>)
    requires BooksBalance(ex) && DistinctRequests(batch)
    requires forall r | r in batch :: r.clientOrderId !in ex.open.at
    ensures var end := SubmitBatch(ex, batch).exchange;
      && end.rules == ex.rules && BooksBalance(end)
      && forall id | id in end.open.at :: id in ex.open.at || exists r :: r in batch && r.clientOrderId == id
  {
    hide BooksBalance, SubmitOrder;
    if batch != [] {
      var n := |batch| - 1;
      assert batch == batch[..n] + [batch[n]];
      SubmitBatchFacts(ex, batch[..n]);
      var before := SubmitBatch(ex, batch[..n]).exchange;
      if r :| r in batch[..n] && r.clientOrderId == batch[n].clientOrderId {
        DistinctLast(batch, r);
      }
      SubmitFacts(before, batch[n]);
    }
  }

  lemma SubmitFacts(ex: Exchange, request: OrderRequest)
    requires BooksBalance(ex) && request.clientOrderId !in ex.open.at
    ensures var end := SubmitOrder(ex, request).exchange;
      && end.rules == ex.rules && BooksBalance(end)
      && forall id | id in end.open.at :: id in ex.open.at || id == request.clientOrderId
  {
    hide L.WellFormed, L.FrozenIsReserved;
    L.SubmitWellFormed(ex, request);
    var end := SubmitOrder(ex, request).exchange;
    forall c
      ensures L.FrozenIsReserved(end, c)
    {
      L.SubmitFrozen(ex, request, c);
    }
  }

  lemma FreshBatch(p: Pair, q: Pair, batches: seq<seq<OrderRequest>>)
    requires batches != [] && NewRequests(p, batches) && q.exchange.rules == p.exchange.rules
    requires forall id | id in q.oms.orders.at :: id in p.oms.orders.at || Holding(batches[..|batches| - 1], id)
    ensures FreshRequests(q.oms, q.exchange, batches[|batches| - 1])
  {
    var n := |batches| - 1;
    forall i | 0 <= i < |batches[n]|
      ensures batches[n][i].clientOrderId !in q.oms.orders.at && batches[n][i].symbol in q.exchange.rules
    {
      assert batches[n][i] in batches[n];
    }
  }

  lemma NewPrefix(p: Pair, batches: seq<seq<OrderRequest>>, n: nat)
    requires NewRequests(p, batches) && n <= |batches|
    ensures NewRequests(p, batches[..n])
  {
  }

  lemma NoneOpen(p: Pair, batch: seq<OrderRequest>)
    requires InStep(p.oms, p.exchange) && FreshRequests(p.oms, p.exchange, batch)
    ensures DistinctRequests(batch) && forall r | r in batch :: r.clientOrderId !in p.exchange.open.at
  {
    forall r | r in batch
      ensures r.clientOrderId !in p.exchange.open.at
    {
      OpenIffListed(p.oms, p.exchange, {}, r.clientOrderId);
    }
  }

  /** A tick's submits keep the machines in step and never raise. */
  lemma {:induction false} SubmitsKeepStep(p: Pair, batches: seq<seq<OrderRequest>>,
      gateway: seq<OrderRequest> -> Reply<OrderAck>)
    requires InStep(p.oms, p.exchange) && BooksBalance(p.exchange)
    requires NewRequests(p, batches) && SubmitsInTurn(p, batches, gateway)
    ensures var r := SubmitAllOn(p, batches);
      && r.outcome == Ok && InStep(r.pair.oms, r.pair.exchange) && BooksBalance(r.pair.exchange)
      && r.pair.exchange.rules == p.exchange.rules
      && SubmitBatches(p.oms, batches, gateway) == Step(r.pair.oms, Ok)
      && forall id | id in r.pair.oms.orders.at :: id in p.oms.orders.at || Holding(batches, id)
  {
    hide InStep, BooksBalance, BatchSubmitted, SubmitBoth, SubmitBatch, NewRequests, FreshRequests;
    if batches != [] {
      var n := |batches| - 1;
      var init := batches[..n];
      forall i | 0 <= i < n && init[i] != []
        ensures gateway(init[i]) == SubmitAnswer(p, init, i)
      {
        AnswerPrefix(p, batches, n, i);
        assert init[i] == batches[i];
      }
      NewPrefix(p, batches, n);
      SubmitsKeepStep(p, init, gateway);
      var before := SubmitAllOn(p, init).pair;
      FreshBatch(p, before, batches);
      SubmitsOnce(before, batches[n], gateway(batches[n]));
      SubmitKeepsStep(before, batches[n]);
      SubmitBothFacts(before, batches[n]);
      forall id | id in SubmitAllOn(p, batches).pair.oms.orders.at
        ensures id in p.oms.orders.at || Holding(batches, id)
      {
        SubmitBothKeys(before, batches[n], id);
        if id !in p.oms.orders.at {
          HoldingMore(batches, id);
        }
      }
    }
  }

  lemma HoldingMore(batches: seq<seq<OrderRequest>>, id: string)
    requires batches != []
    requires Holding(batches[..|batches| - 1], id) || exists r :: r in batches[|batches| - 1] && r.clientOrderId == id
    ensures Holding(batches, id)
  {
    var n := |batches| - 1;
    if Holding(batches[..n], id) {
      var i: int, r: OrderRequest :| 0 <= i < n && r in batches[..n][i] && r.clientOrderId == id;
      assert r in batches[i];
    }
  }

  lemma SubmitBothFacts(p: Pair, batch: seq<OrderRequest>)
    requires InStep(p.oms, p.exchange) && FreshRequests(p.oms, p.exchange, batch) && BooksBalance(p.exchange)
    ensures var end := SubmitBoth(p, batch).pair.exchange; end.rules == p.exchange.rules && BooksBalance(end)
  {
    hide InStep, FreshRequests, BooksBalance, SubmitBatch;
    NoneOpen(p, batch);
    SubmitBatchFacts(p.exchange, batch);
  }

  // ------------------------------------------------------------------------------- what cannot raise

  /** Rules under which the differ computes: positive increments. */
  predicate WorkingRules(rules: map<string, MarketRule>) {
    forall x | x in rules :: rules[x].priceIncrement > 0.0 && rules[x].sizeIncrement > 0.0
  }

  predicate KnownSymbols(q: QuoteView, quotes: seq<QuoteIntent>) {
    WorkingRules(q.rules) && forall quote | quote in quotes :: quote.symbol in q.rules
  }

  lemma {:induction false} DesiredAreQuotes(quotes: seq<QuoteIntent>)
    ensures forall slot | slot in Desired(quotes).at :: Desired(quotes).at[slot] in quotes
  {
    if quotes != [] {
      var n := |quotes| - 1;
      assert quotes == quotes[..n] + [quotes[n]];
      DesiredAreQuotes(quotes[..n]);
    }
  }

  lemma {:induction false} SlotsReturn(q: QuoteView, quotes: seq<QuoteIntent>, open: map<Slot, OrderRecord>,
      keys: seq<Slot>, at: map<Slot, QuoteIntent>, last: map<Slot, int>)
    requires KnownSymbols(q, quotes) && forall slot | slot in at :: at[slot] in quotes
    ensures BuildSlots(q, open, keys, at, last).outcome == Ok
  {
    hide SlotIntents, Touched;
    if keys != [] {
      SlotsReturn(q, quotes, open, keys[..|keys| - 1], at, last);
    }
  }

  lemma BuildReturns(q: QuoteView, quotes: seq<QuoteIntent>, orders: seq<OrderRecord>, last: map<Slot, int>)
    requires KnownSymbols(q, quotes)
    ensures BuildIntents(q, quotes, orders, last).outcome == Ok
  {
    hide BuildSlots, KnownSymbols;
    DesiredAreQuotes(quotes);
    SlotsReturn(q, quotes, IndexOpen(orders).at, Desired(quotes).keys, Desired(quotes).at, last);
  }

  predicate NonzeroMids(markets: map<string, MarketSnapshot>) {
    forall x | x in markets :: markets[x].Mid() != 0.0
  }

  lemma {:induction false} ScreenReturns(view: RiskView, s: OmsState, intents: seq<OrderIntent>)
    requires NonzeroMids(view.markets)
    requires forall i | i in intents && i.action == Place :: i.clientOrderId.Some?
    ensures Screen(view, s, intents).outcome == Ok
  {
    hide Validate;
    if intents != [] {
      var n := |intents| - 1;
      assert intents == intents[..n] + [intents[n]];
      ScreenReturns(view, s, intents[..n]);
      if intents[n].action == Place {
        ApprovedExactly(view, intents[n], s);
      }
    }
  }

  // ------------------------------------------------------------------------------- one tick

  /** The application and the exchange behind its gateway. */
  datatype Loop = Loop(app: AppState, exchange: Exchange)

  datatype LoopStep = LoopStep(loop: Loop, outcome: Outcome)

  /** A tick on paper: the market snapshots it starts with, and what else it is given; the fills and the gateway of
      `input` are not used, the exchange provides both. */
  datatype Beat = Beat(snapshots: seq<MarketSnapshot>, input: TickInput)

  function FilledInput(l: Loop, b: Beat): TickInput {
    b.input.(fills := FillRounds(l.exchange, b.snapshots).fills)
  }

  /** Both machines after the fills. */
  function FilledPair(l: Loop, b: Beat): Pair {
    Pair(TickFills(l.app, FilledInput(l, b)).state, FillRounds(l.exchange, b.snapshots).exchange)
  }

  function BeatCancels(l: Loop, b: Beat): seq<seq<CancelRequest>> {
    Batches(CancelRequestsOf(TickBuilt(l.app, FilledInput(l, b)).intents), CancelSymbol)
  }

  /** Both machines after the cancels. */
  function CanceledPair(l: Loop, b: Beat): Pair {
    CancelAllOn(FilledPair(l, b), BeatCancels(l, b)).pair
  }

  /** The tick with the exchange's fills and its answers to the cancels. */
  function CancelInput(l: Loop, b: Beat): TickInput {
    FilledInput(l, b).(gateway := Gateway(PaperCancels(FilledPair(l, b), BeatCancels(l, b)), _ => GatewayRaised))
  }

  function BeatSubmits(l: Loop, b: Beat): seq<seq<OrderRequest>> {
    Batches(TickRequests(l.app, CancelInput(l, b)), RequestSymbol)
  }

  /** The tick with the exchange's fills and all its answers. */
  function PaperInput(l: Loop, b: Beat): TickInput {
    FilledInput(l, b).(gateway := Gateway(PaperCancels(FilledPair(l, b), BeatCancels(l, b)),
                                          PaperSubmits(CanceledPair(l, b), BeatSubmits(l, b))))
  }

  /** `tick_once` with the paper exchange as the gateway. */
  function PaperTick(l: Loop, b: Beat): LoopStep {
    var t := Tick(l.app, PaperInput(l, b));
    LoopStep(Loop(t.state, SubmitAllOn(CanceledPair(l, b), BeatSubmits(l, b)).pair.exchange), t.outcome)
  }

  lemma SameUpToSubmits(l: Loop, b: Beat)
    ensures var t := PaperInput(l, b);
      && TickFills(l.app, t) == TickFills(l.app, FilledInput(l, b))
      && TickBuilt(l.app, t) == TickBuilt(l.app, FilledInput(l, b))
      && TickRequests(l.app, t) == TickRequests(l.app, CancelInput(l, b))
  {
    hide RunOps, BuildIntents, CancelBatches, Screen, Batches, OpenOrders, PaperCancels, PaperSubmits;
  }

  /** What a tick needs: the exchange's rules, known symbols, nonzero mids and new ids. */
  ghost predicate Playable(l: Loop, b: Beat) {
    && b.input.view.rules == l.exchange.rules && PositiveMinimums(l.exchange.rules)
    && KnownSymbols(TickQuoteView(b.input), b.input.quotes)
    && NonzeroMids(b.input.view.markets)
    && FreshIds(TickQuoteView(b.input), b.input.quotes, l.app.oms)
  }

  /** The machines in step, the exchange's books balanced, at most one live order in a slot. */
  ghost predicate Steady(l: Loop) {
    && InStep(l.app.oms, l.exchange) && BooksBalance(l.exchange)
    && Slots.Kept(l.app.oms) && Sound(l.app.oms)
  }

  /** What is known of both machines at any point of a tick. */
  ghost predicate Together(l: Loop, p: Pair) {
    InStep(p.oms, p.exchange) && BooksBalance(p.exchange) && p.exchange.rules == l.exchange.rules
  }

  lemma FilledTogether(l: Loop, b: Beat)
    requires Steady(l)
    ensures TickFills(l.app, FilledInput(l, b)).outcome == Ok && Together(l, FilledPair(l, b))
    ensures FilledPair(l, b).oms.orders.at.Keys == l.app.oms.orders.at.Keys
  {
    hide InStep, BooksBalance, Slots.Kept, Sound, FillRounds, RunOps;
    RoundsFacts(l.exchange, b.snapshots);
    RoundsKeepStep(l.app.oms, l.exchange, b.snapshots);
    FillsKeepKeys(l.app.oms, FillRounds(l.exchange, b.snapshots).fills);
  }

  lemma CancelsAreInTurn(p: Pair, requests: seq<CancelRequest>)
    ensures var batches := Batches(requests, CancelSymbol); CancelsInTurn(p, batches, PaperCancels(p, batches))
  {
    hide Batches, ActiveOf, CancelAnswer, CancelReply;
    var batches := Batches(requests, CancelSymbol);
    BatchesSeparate(requests, CancelSymbol);
    forall i | 0 <= i < |batches| && ActiveOf(p, batches, i) != []
      ensures PaperCancels(p, batches)(ActiveOf(p, batches, i)) == CancelAnswer(p, batches, i)
    {
      CancelReplyInTurn(p, batches, i);
    }
  }

  lemma SubmitsAreInTurn(p: Pair, requests: seq<OrderRequest>)
    ensures var batches := Batches(requests, RequestSymbol); SubmitsInTurn(p, batches, PaperSubmits(p, batches))
  {
    hide Batches, SubmitAnswer, SubmitReply;
    var batches := Batches(requests, RequestSymbol);
    BatchesSeparate(requests, RequestSymbol);
    forall i | 0 <= i < |batches| && batches[i] != []
      ensures PaperSubmits(p, batches)(batches[i]) == SubmitAnswer(p, batches, i)
    {
      SubmitReplyInTurn(p, batches, i);
    }
  }

  lemma CanceledTogether(l: Loop, b: Beat)
    requires Steady(l) && Playable(l, b)
    ensures Together(l, CanceledPair(l, b)) && CancelsReturned(l.app, PaperInput(l, b))
    ensures AfterCancelPhase(l.app, PaperInput(l, b)) == CanceledPair(l, b).oms
  {
    hide Steady, InStep, BooksBalance, TickFills, BuildIntents, CancelBatches, CancelsInTurn, CancelAllOn, Batches,
      OpenOrders, FreshIds, KnownSymbols, PaperCancels, PaperSubmits, BeatSubmits, FillRounds;
    FilledTogether(l, b);
    SameUpToSubmits(l, b);
    var p := FilledPair(l, b);
    var t := PaperInput(l, b);
    BuildReturns(TickQuoteView(b.input), b.input.quotes, OpenOrders(p.oms, None), l.app.last);
    CancelsAreInTurn(p, CancelRequestsOf(TickBuilt(l.app, t).intents));
    CancelsKeepStep(p, BeatCancels(l, b), PaperCancels(p, BeatCancels(l, b)));
  }

  /** The requests of a tick have new ids, no id twice, and symbols the rules know. */
  lemma ScreenedAreNew(q: QuoteView, quotes: seq<QuoteIntent>, last: map<Slot, int>, s: OmsState, gateway: Gateway,
      view: RiskView)
    requires s.orders.Valid() && WellKeyed(s) && FreshIds(q, quotes, s) && OnPoint(gateway.cancel)
    requires BuildIntents(q, quotes, OpenOrders(s, None), last).outcome == Ok
    ensures var intents := BuildIntents(q, quotes, OpenOrders(s, None), last).intents;
      var c := AfterCancels(s, intents, gateway).state;
      var requests := Screen(view, c, intents).requests;
      && DistinctRequests(requests)
      && (forall r | r in requests :: r.clientOrderId !in c.orders.at && r.symbol in view.rules)
      && (NonzeroMids(view.markets) ==> Screen(view, c, intents).outcome == Ok)
  {
    hide BuildIntents, OpenOrders, AfterCancels, Screen, Validate, DistinctRequests, FreshIds, NonzeroMids;
    var orders := OpenOrders(s, None);
    var intents := BuildIntents(q, quotes, orders, last).intents;
    var c := AfterCancels(s, intents, gateway).state;
    FreshAreDifferent(q, quotes, s);
    CallPlacesDistinct(q, quotes, orders, last);
    ScreenedDistinct(view, c, intents);
    ScreenMembers(view, c, intents);
    forall r | r in Screen(view, c, intents).requests
      ensures r.clientOrderId !in c.orders.at && r.symbol in view.rules
    {
      var i :| i in intents && ScreenedFrom(view, c, i, r);
      ApprovalMeans(view, i, c);
      PlaceIsFresh(q, quotes, last, s, gateway, i);
    }
    forall i | i in intents && i.action == Place
      ensures i.clientOrderId.Some?
    {
      PlaceComes(q, quotes, orders, last, i);
    }
    if NonzeroMids(view.markets) {
      ScreenReturns(view, c, intents);
    }
  }

  lemma BatchedAreNew(p: Pair, requests: seq<OrderRequest>)
    requires DistinctRequests(requests)
    requires forall r | r in requests :: r.clientOrderId !in p.oms.orders.at && r.symbol in p.exchange.rules
    ensures NewRequests(p, Batches(requests, RequestSymbol))
  {
    hide Batches, DistinctRequests;
    BatchesDistinct(requests);
    BatchesSeparate(requests, RequestSymbol);
  }

  lemma InStepSound(s: OmsState, ex: Exchange)
    requires InStep(s, ex)
    ensures s.orders.Valid() && WellKeyed(s)
  {
  }

  lemma FreshSameKeys(q: QuoteView, quotes: seq<QuoteIntent>, s: OmsState, t: OmsState)
    requires FreshIds(q, quotes, s) && t.orders.at.Keys == s.orders.at.Keys
    ensures FreshIds(q, quotes, t)
  {
  }

  lemma RequestsAreNew(l: Loop, b: Beat)
    requires Steady(l) && Playable(l, b)
    ensures NewRequests(CanceledPair(l, b), BeatSubmits(l, b))
    ensures var t := PaperInput(l, b);
      Screen(TickView(l.app, t), CanceledPair(l, b).oms, TickBuilt(l.app, t).intents).outcome == Ok
  {
    hide Steady, InStep, BooksBalance, TickFills, BuildIntents, AfterCancels, CancelAllOn, Batches, OpenOrders,
      FreshIds, KnownSymbols, PaperCancels, PaperSubmits, FillRounds, Screen, NewRequests, NonzeroMids,
      CancelsReturned, DistinctRequests;
    var p, t := FilledPair(l, b), PaperInput(l, b);
    FilledTogether(l, b);
    CanceledTogether(l, b);
    SameUpToSubmits(l, b);
    InStepSound(p.oms, p.exchange);
    FreshSameKeys(TickQuoteView(t), t.quotes, l.app.oms, p.oms);
    PaperCancelsAnswer(p, BeatCancels(l, b));
    BuildReturns(TickQuoteView(t), t.quotes, OpenOrders(p.oms, None), l.app.last);
    ScreenedAreNew(TickQuoteView(t), t.quotes, l.app.last, p.oms, t.gateway, TickView(l.app, t));
    BatchedAreNew(CanceledPair(l, b), TickRequests(l.app, t));
  }

  lemma TickReturns(a: AppState, t: TickInput)
    requires CancelsReturned(a, t)
    requires Screen(TickView(a, t), AfterCancelPhase(a, t), TickBuilt(a, t).intents).outcome == Ok
    requires
      SubmitBatches(AfterCancelPhase(a, t), Batches(TickRequests(a, t), RequestSymbol), t.gateway.submit).outcome == Ok
    ensures Tick(a, t).outcome == Ok
  {
    hide TickFills, TickBuilt, AfterCancels, Screen, Batches, TickView, SubmitBatches;
  }

  /** A tick on paper is its fills, cancel batches and submit batches played on both machines in turn; it returns, and
      keeps the machines in step and the books balanced. */
  lemma TickKeepsStep(l: Loop, b: Beat)
    requires Steady(l) && Playable(l, b)
    ensures var r := PaperTick(l, b);
      && r.outcome == Ok && InStep(r.loop.app.oms, r.loop.exchange)
      && Pair(r.loop.app.oms, r.loop.exchange) == SubmitAllOn(CanceledPair(l, b), BeatSubmits(l, b)).pair
      && BooksBalance(r.loop.exchange) && r.loop.exchange.rules == l.exchange.rules
  {
    hide Steady, Playable, InStep, BooksBalance, TickFills, TickBuilt, AfterCancels, Batches, Screen, CancelsReturned,
      NewRequests, Tick, CanceledPair, TickRequests, AfterCancelPhase, TickView, PaperCancels, PaperSubmits,
      SubmitBatches, SubmitAllOn, FilledInput, FilledPair, BeatCancels, SubmitsInTurn;
    var t := PaperInput(l, b);
    CanceledTogether(l, b);
    RequestsAreNew(l, b);
    SameUpToSubmits(l, b);
    var p := CanceledPair(l, b);
    SubmitsAreInTurn(p, TickRequests(l.app, t));
    SubmitsKeepStep(p, BeatSubmits(l, b), t.gateway.submit);
    TickReturns(l.app, t);
    TickSubmits(l.app, t);
  }

  /** The limits of a run, and at most n quotes for the symbol. */
  ghost predicate BeatWithinLimits(b: Beat, symbol: string, n: nat, total: real, most: real) {
    && b.input.view.settings.maxTotalOpenValue == total && b.input.view.settings.maxOrderValue == most
    && QuotesFor(b.input.quotes, symbol) <= n
  }

  lemma PaperWithinLimits(l: Loop, b: Beat, symbol: string, n: nat, total: real, most: real)
    requires Steady(l) && Playable(l, b) && BeatWithinLimits(b, symbol, n, total, most)
    ensures WithinLimits(l.app, PaperInput(l, b), symbol, n, total, most)
  {
    hide FillRounds, TickRequests, QuotesFor, CountFor, L.WellFormed, L.FrozenIsReserved, InStep, Slots.Kept, Sound,
      FreshIds, KnownSymbols, NonzeroMids, PaperCancels, PaperSubmits;
    var t := PaperInput(l, b);
    RoundsFacts(l.exchange, b.snapshots);
    RequestsAtMostQuotes(l.app, t, symbol);
  }

  /** A tick on paper keeps at most one live order in a slot, and the cap on a symbol's exposure. */
  lemma TickKeepsLimits(l: Loop, b: Beat, symbol: string, n: nat, total: real, most: real)
    requires Steady(l) && Playable(l, b) && n >= 1 && BeatWithinLimits(b, symbol, n, total, most)
    ensures var end := PaperTick(l, b).loop.app.oms;
      && Slots.Kept(end) && Sound(end)
      && ExposureOf(end, symbol) <= Max(ExposureOf(l.app.oms, symbol), Cap(n, total, most))
  {
    hide InStep, BooksBalance, Slots.Kept, Sound, ExposureOf, Cap, WithinLimits, Tick, SubmitAllOn, FilledPair,
      BeatCancels, BeatSubmits, CanceledPair, PaperCancels, PaperSubmits, FilledInput, Playable;
    var t := PaperInput(l, b);
    PaperWithinLimits(l, b, symbol, n, total, most);
    PaperCancelsAnswer(FilledPair(l, b), BeatCancels(l, b));
    TickKeepsOneLive(l.app, t);
    TickStaysCapped(l.app, t, symbol, n, total, most);
  }

  /** A tick on paper returns and keeps everything that is kept. */
  lemma TickKeepsSteady(l: Loop, b: Beat)
    requires Steady(l) && Playable(l, b)
    ensures PaperTick(l, b).outcome == Ok && Steady(PaperTick(l, b).loop)
    ensures PaperTick(l, b).loop.exchange.rules == l.exchange.rules
  {
    hide PaperTick, Playable, QuotesFor, ExposureOf, Cap, InStep, BooksBalance, Slots.Kept, Sound;
    TickKeepsStep(l, b);
    var settings := b.input.view.settings;
    TickKeepsLimits(l, b, "", QuotesFor(b.input.quotes, "") + 1, settings.maxTotalOpenValue, settings.maxOrderValue);
  }

  // ------------------------------------------------------------------------------- between ticks

  lemma TraceKept(s: OmsState, ops: seq<Op>)
    requires Slots.Kept(s) && SubmitsFrom(ops, [])
    ensures Slots.Kept(RunAll(s, ops))
  {
    hide OneLive, Grows;
    RunValid(s, ops);
    TraceGrows(s, ops, []);
    GrowsKeepsOneLive(s, RunAll(s, ops));
  }

  /** Cancel batches between ticks keep everything that is kept, and add no exposure. */
  lemma CancelsKeepLimits(p: Pair, batches: seq<seq<CancelRequest>>, symbol: string)
    requires InStep(p.oms, p.exchange) && BooksBalance(p.exchange) && Slots.Kept(p.oms) && Sound(p.oms)
    requires Separate(batches, CancelSymbol)
    ensures var r := CancelAllOn(p, batches);
      && r.outcome == Ok && InStep(r.pair.oms, r.pair.exchange) && BooksBalance(r.pair.exchange)
      && r.pair.exchange.rules == p.exchange.rules
      && Slots.Kept(r.pair.oms) && Sound(r.pair.oms)
      && ExposureOf(r.pair.oms, symbol) <= ExposureOf(p.oms, symbol)
  {
    hide InStep, BooksBalance, Slots.Kept, Sound, ExposureOf, ActiveOf, CancelAnswer, CancelReply, CancelBatches;
    var gateway := PaperCancels(p, batches);
    forall i | 0 <= i < |batches| && ActiveOf(p, batches, i) != []
      ensures gateway(ActiveOf(p, batches, i)) == CancelAnswer(p, batches, i)
    {
      CancelReplyInTurn(p, batches, i);
    }
    CancelsKeepStep(p, batches, gateway);
    CancelsStake(p.oms, batches, gateway, symbol);
    var trace := CancelsTrace(p.oms, batches, gateway);
    TraceKept(p.oms, trace);
  }

  lemma NoSubmits(updates: seq<OrderUpdate>, ids: seq<string>)
    ensures SubmitsFrom(RemoteUpdates(updates), []) && SubmitsFrom(UnknownMarks(ids), [])
    ensures NoSubmit(RemoteUpdates(updates)) && NoSubmit(UnknownMarks(ids))
  {
  }

  lemma OpsKeepLimits(s: OmsState, ops: seq<Op>, symbol: string)
    requires Slots.Kept(s) && Sound(s) && SubmitsFrom(ops, []) && NoSubmit(ops)
    ensures var end := RunOps(s, ops).state;
      Slots.Kept(end) && Sound(end) && ExposureOf(end, symbol) <= ExposureOf(s, symbol)
  {
    hide Slots.Kept, Sound, ExposureOf, RunOps;
    OpsStake(s, ops, symbol);
    var trace := OpsTrace(s, ops, []);
    TraceKept(s, trace);
  }

  /** So does a reconciliation. */
  lemma ReconcileKeepsLimits(p: Pair, listed: Option<string>, symbol: string)
    requires InStep(p.oms, p.exchange) && Slots.Kept(p.oms) && Sound(p.oms)
    ensures var r := ReconcileBoth(p, listed);
      && r.outcome == Ok && InStep(r.pair.oms, r.pair.exchange) && r.pair.exchange == p.exchange
      && Slots.Kept(r.pair.oms) && Sound(r.pair.oms)
      && ExposureOf(r.pair.oms, symbol) <= ExposureOf(p.oms, symbol)
  {
    hide InStep, Slots.Kept, Sound, ExposureOf, RunOps, SubmitsFrom, NoSubmit, OpenUpdates;
    ReconcileKeepsStep(p, listed);
    var updates := OpenUpdates(p.exchange, listed);
    var applied := RunOps(p.oms, RemoteUpdates(updates)).state;
    var missing := Missing(RecordIds(OpenOrders(applied, listed)), UpdateIds(updates));
    NoSubmits(updates, missing);
    OpsKeepLimits(p.oms, RemoteUpdates(updates), symbol);
    OpsKeepLimits(applied, UnknownMarks(missing), symbol);
  }

  // ------------------------------------------------------------------------------- runs

  /** What happens to the system: a tick, a runtime command with its cancels, `cancel_all`, a reconciliation, or a
      reason latched for safe mode. */
  datatype LoopEvent =
    | OnTick(beat: Beat)
    | OnCommand(requests: seq<CancelRequest>)
    | OnCancelAll
    | OnReconcile(listed: Option<string>)
    | OnReason(key: string, reason: string)

  function Played(l: Loop, r: PairStep): LoopStep {
    LoopStep(Loop(l.app.(oms := r.pair.oms), r.pair.exchange), r.outcome)
  }

  /** The batches of an event that cancels: a command's by symbol, all open orders in one. */
  function CancelsOf(l: Loop, e: LoopEvent): seq<seq<CancelRequest>> {
    match e
    case OnCommand(requests) => Batches(requests, CancelSymbol)
    case OnCancelAll => [CancelEach(OpenOrders(l.app.oms, None))]
    case _ => []
  }

  function PlayEvent(l: Loop, e: LoopEvent): LoopStep {
    match e
    case OnTick(beat) => PaperTick(l, beat)
    case OnCommand(_) => Played(l, CancelAllOn(Pair(l.app.oms, l.exchange), CancelsOf(l, e)))
    case OnCancelAll => Played(l, CancelAllOn(Pair(l.app.oms, l.exchange), CancelsOf(l, e)))
    case OnReconcile(listed) => Played(l, ReconcileBoth(Pair(l.app.oms, l.exchange), listed))
    case OnReason(key, reason) => LoopStep(l.(app := l.app.(reasons := l.app.reasons[key := reason])), Ok)
  }

  /** Events one after the other, up to the first that raises. */
  function PlayEvents(l: Loop, events: seq<LoopEvent>): LoopStep {
    if events == [] then LoopStep(l, Ok)
    else
      var before := PlayEvents(l, events[..|events| - 1]);
      if before.outcome.Raised? then before else PlayEvent(before.loop, events[|events| - 1])
  }

  ghost predicate PlayableEvent(l: Loop, e: LoopEvent) {
    e.OnTick? ==> Playable(l, e.beat)
  }

  /** Every tick of the run is playable when its turn comes. */
  ghost predicate AllPlayable(l: Loop, events: seq<LoopEvent>) {
    forall i | 0 <= i < |events| :: PlayableEvent(PlayEvents(l, events[..i]).loop, events[i])
  }

  lemma PlayablePrefix(l: Loop, events: seq<LoopEvent>, n: nat)
    requires AllPlayable(l, events) && n <= |events|
    ensures AllPlayable(l, events[..n])
  {
    hide PlayableEvent, PlayEvents;
    forall i | 0 <= i < n
      ensures PlayableEvent(PlayEvents(l, events[..n][..i]).loop, events[..n][i])
    {
      assert events[..n][..i] == events[..i];
    }
  }

  lemma OneBatchSeparate(batch: seq<CancelRequest>)
    ensures Separate([batch], CancelSymbol)
  {
  }

  lemma SteadyMeans(l: Loop)
    ensures Steady(l) <==>
      InStep(l.app.oms, l.exchange) && BooksBalance(l.exchange) && Slots.Kept(l.app.oms) && Sound(l.app.oms)
  {
  }

  /** An event other than a tick returns, keeps everything that is kept, and adds no exposure. */
  lemma EventKeepsLimits(l: Loop, e: LoopEvent, symbol: string)
    requires Steady(l) && !e.OnTick?
    ensures var r := PlayEvent(l, e);
      && r.outcome == Ok && Steady(r.loop) && r.loop.exchange.rules == l.exchange.rules
      && ExposureOf(r.loop.app.oms, symbol) <= ExposureOf(l.app.oms, symbol)
  {
    hide Steady, InStep, BooksBalance, Slots.Kept, Sound, ExposureOf, CancelAllOn, ReconcileBoth, Batches, Separate,
      OpenOrders;
    SteadyMeans(l);
    SteadyMeans(PlayEvent(l, e).loop);
    var p := Pair(l.app.oms, l.exchange);
    match e
    case OnCommand(requests) =>
      BatchesSeparate(requests, CancelSymbol);
      CancelsKeepLimits(p, CancelsOf(l, e), symbol);
    case OnCancelAll =>
      OneBatchSeparate(CancelEach(OpenOrders(l.app.oms, None)));
      CancelsKeepLimits(p, CancelsOf(l, e), symbol);
    case OnReconcile(listed) => ReconcileKeepsLimits(p, listed, symbol);
    case OnReason(_, _) =>
  }

  lemma EventKeepsSteady(l: Loop, e: LoopEvent)
    requires Steady(l) && PlayableEvent(l, e)
    ensures PlayEvent(l, e).outcome == Ok && Steady(PlayEvent(l, e).loop)
    ensures PlayEvent(l, e).loop.exchange.rules == l.exchange.rules
  {
    hide Steady, Playable, PaperTick, ExposureOf, CancelAllOn, ReconcileBoth, CancelsOf;
    if e.OnTick? {
      TickKeepsSteady(l, e.beat);
    } else {
      EventKeepsLimits(l, e, "");
    }
  }

  lemma {:induction false} RunIsSteady(l: Loop, events: seq<LoopEvent>)
    requires Steady(l) && AllPlayable(l, events)
    ensures PlayEvents(l, events).outcome == Ok && Steady(PlayEvents(l, events).loop)
    ensures PlayEvents(l, events).loop.exchange.rules == l.exchange.rules
  {
    hide Steady, PlayableEvent, PlayEvent;
    if events != [] {
      var n := |events| - 1;
      PlayablePrefix(l, events, n);
      RunIsSteady(l, events[..n]);
      EventKeepsSteady(PlayEvents(l, events[..n]).loop, events[n]);
    }
  }

  ghost predicate EventsWithinLimits(events: seq<LoopEvent>, symbol: string, n: nat, total: real, most: real) {
    forall i | 0 <= i < |events| && events[i].OnTick? :: BeatWithinLimits(events[i].beat, symbol, n, total, most)
  }

  lemma PlayStaysCapped(l: Loop, e: LoopEvent, symbol: string, n: nat, total: real, most: real)
    requires Steady(l) && PlayableEvent(l, e) && n >= 1
    requires e.OnTick? ==> BeatWithinLimits(e.beat, symbol, n, total, most)
    ensures ExposureOf(PlayEvent(l, e).loop.app.oms, symbol) <= Max(ExposureOf(l.app.oms, symbol), Cap(n, total, most))
  {
    hide Steady, Playable, PaperTick, ExposureOf, Cap, CancelAllOn, ReconcileBoth, CancelsOf, BeatWithinLimits;
    if e.OnTick? {
      TickKeepsLimits(l, e.beat, symbol, n, total, most);
    } else {
      EventKeepsLimits(l, e, symbol);
    }
  }

  lemma {:induction false} RunStaysCapped(l: Loop, events: seq<LoopEvent>, symbol: string, n: nat, total: real,
      most: real)
    requires Steady(l) && AllPlayable(l, events) && n >= 1 && EventsWithinLimits(events, symbol, n, total, most)
    ensures ExposureOf(PlayEvents(l, events).loop.app.oms, symbol)
         <= Max(ExposureOf(l.app.oms, symbol), Cap(n, total, most))
  {
    hide Steady, PlayableEvent, PlayEvent, ExposureOf, Cap, BeatWithinLimits;
    if events != [] {
      var m := |events| - 1;
      PlayablePrefix(l, events, m);
      RunIsSteady(l, events[..m]);
      RunStaysCapped(l, events[..m], symbol, n, total, most);
      PlayStaysCapped(PlayEvents(l, events[..m]).loop, events[m], symbol, n, total, most);
    }
  }

  lemma NoneUnknown(s: OmsState, ex: Exchange)
    requires InStep(s, ex)
    ensures !HasUnknown(s)
  {
    hide InStep;
    InStepMeans(s, ex);
    HasUnknownMeans(s.orders.keys, s.orders.at);
  }

  /** The whole system on paper. In any run of ticks whose fills and whose gateway are the paper exchange, with runtime
      commands, `cancel_all`, reconciliations and latched reasons between them, nothing raises, no order is ever
      UNKNOWN, the local open orders are the exchange's in the same order, every frozen amount is what the open orders
      reserve, at most one order is live in any slot, and a symbol's exposure stays within its cap. */
  lemma PaperRun(l: Loop, events: seq<LoopEvent>, symbol: string, n: nat, total: real, most: real)
    requires Steady(l) && AllPlayable(l, events) && n >= 1 && EventsWithinLimits(events, symbol, n, total, most)
    ensures var r := PlayEvents(l, events); var end := r.loop.app.oms;
      && r.outcome == Ok && InStep(end, r.loop.exchange) && !HasUnknown(end)
      && RecordIds(OpenOrders(end, None)) == r.loop.exchange.open.keys
      && (forall c :: L.FrozenIsReserved(r.loop.exchange, c))
      && OneLive(end)
      && ExposureOf(end, symbol) <= Max(ExposureOf(l.app.oms, symbol), Cap(n, total, most))
  {
    hide PlayEvents, InStep, L.FrozenIsReserved, OneLive, ExposureOf, Cap, HasUnknown, OpenOrders, Sound, L.WellFormed;
    RunIsSteady(l, events);
    RunStaysCapped(l, events, symbol, n, total, most);
    var r := PlayEvents(l, events).loop;
    NoneUnknown(r.app.oms, r.exchange);
    InStepMeans(r.app.oms, r.exchange);
  }

  /** A run can start with nothing: no orders, and no amount frozen. */
  lemma StartIsSteady(ex: Exchange, saved: seq<OrderRecord>, last: map<Slot, int>, reasons: map<string, string>)
    requires ex.open == Empty() && forall c :: BalanceOf(ex.balances, c).frozen == 0.0
    ensures Steady(Loop(AppState(OmsState(Empty(), saved), last, reasons), ex))
  {
    EmptyInStep(ex, saved);
  }
}
