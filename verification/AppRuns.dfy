/** Runs of the application: ticks, with other order-manager calls landing between them, and the safe-mode latch. */
module AppRuns {
  import opened Dicts
  import opened Types
  import opened OrderState
  import opened Oms
  import opened OmsRuns
  import opened Risk
  import opened App

  // ------------------------------------------------------------------------------- grouping

  /** The groups hold the items, each under its own key, and nothing else. */
  ghost predicate Grouped<T>(groups: Dict<string, seq<T>>, items: seq<T>, key: T -> string) {
    && groups.Valid()
    && (forall k, x | k in groups.at && x in groups.at[k] :: x in items && key(x) == k)
    && (forall x | x in items :: key(x) in groups.at && x in groups.at[key(x)])
  }

  lemma GroupPut<T>(groups: Dict<string, seq<T>>, items: seq<T>, key: T -> string, item: T)
    requires Grouped(groups, items, key)
    ensures var k := key(item); var group := if k in groups.at then groups.at[k] else [];
      Grouped(Put(groups, k, group + [item]), items + [item], key)
  {
    hide Distinct, KeySet;
    var k := key(item);
    PutValid(groups, k, (if k in groups.at then groups.at[k] else []) + [item]);
  }

  lemma {:induction false} GroupsHold<T>(items: seq<T>, key: T -> string)
    ensures Grouped(GroupBy(items, key), items, key)
  {
    if items != [] {
      var n := |items| - 1;
      assert items == items[..n] + [items[n]];
      GroupsHold(items[..n], key);
      GroupPut(GroupBy(items[..n], key), items[..n], key, items[n]);
    }
  }

  lemma GroupMembers<T>(items: seq<T>, key: T -> string)
    ensures var groups := GroupBy(items, key);
      && groups.Valid()
      && (forall k, x | k in groups.at && x in groups.at[k] :: x in items && key(x) == k)
      && (forall x | x in items :: key(x) in groups.at && x in groups.at[key(x)])
  {
    hide Distinct, KeySet, GroupBy;
    GroupsHold(items, key);
  }

  /** The batches are the groups. */
  lemma BatchesAreGroups<T>(items: seq<T>, key: T -> string)
    ensures var groups := GroupBy(items, key); var batches := Batches(items, key);
      && |batches| == |groups.keys|
      && (forall i | 0 <= i < |batches| :: groups.keys[i] in groups.at && batches[i] == groups.at[groups.keys[i]])
      && (forall k | k in groups.at :: k in groups.keys)
  {
    var groups := GroupBy(items, key);
    GroupMembers(items, key);
    ValidKeys(groups);
    ValuesAt(groups.keys, groups.at);
  }

  /** A batch holds nothing but requests. */
  lemma FromBatch<T>(items: seq<T>, key: T -> string, batch: seq<T>)
    requires batch in Batches(items, key)
    ensures forall x | x in batch :: x in items
  {
    hide Batches, GroupBy;
    BatchesAreGroups(items, key);
    GroupMembers(items, key);
  }

  /** Every request is in a batch. */
  lemma IntoBatch<T>(items: seq<T>, key: T -> string, x: T) returns (batch: seq<T>)
    requires x in items
    ensures batch in Batches(items, key) && x in batch
  {
    hide GroupBy;
    BatchesAreGroups(items, key);
    GroupMembers(items, key);
    var groups := GroupBy(items, key);
    batch := groups.at[key(x)];
    var i :| 0 <= i < |groups.keys| && groups.keys[i] == key(x);
    assert Batches(items, key)[i] == batch;
  }

  // ------------------------------------------------------------------------------- screening

  ghost predicate ScreenedFrom(view: RiskView, s: OmsState, i: OrderIntent, request: OrderRequest) {
    && i.action == Place && Validate(view, i, s).Approved?
    && i.side.Some? && i.price.Some? && i.size.Some? && i.clientOrderId.Some?
    && request == RequestFrom(i)
  }

  /** Every request was approved, against the state before any of them was submitted. */
  lemma {:induction false} ScreenMembers(view: RiskView, s: OmsState, intents: seq<OrderIntent>)
    ensures forall r | r in Screen(view, s, intents).requests :: exists i :: i in intents && ScreenedFrom(view, s, i, r)
  {
    hide Validate;
    if intents != [] {
      var n := |intents| - 1;
      ScreenMembers(view, s, intents[..n]);
      if intents[n].action == Place && Validate(view, intents[n], s).Approved? {
        ApprovalMeans(view, intents[n], s);
      }
      forall r | r in Screen(view, s, intents).requests
        ensures exists i :: i in intents && ScreenedFrom(view, s, i, r)
      {
        if r in Screen(view, s, intents[..n]).requests {
          var i :| i in intents[..n] && ScreenedFrom(view, s, i, r);
          assert i in intents;
        } else {
          assert intents[n] in intents && ScreenedFrom(view, s, intents[n], r);
        }
      }
    }
  }

  // ------------------------------------------------------------------------------- traces

  lemma {:induction false} RunAllThen(s: OmsState, a: seq<Op>, b: seq<Op>)
    ensures RunAll(s, a + b) == RunAll(RunAll(s, a), b)
  {
    if b == [] {
      assert a + b == a;
    } else {
      var n := |b| - 1;
      assert (a + b)[..|a + b| - 1] == a + b[..n];
      RunAllThen(s, a, b[..n]);
    }
  }

  predicate SubmitsFrom(ops: seq<Op>, requests: seq<OrderRequest>) {
    forall i | 0 <= i < |ops| :: ops[i].SubmitStart? ==> ops[i].request in requests
  }

  /** `t` is reached from `s` by these operations, which submit nothing but `requests`. */
  ghost predicate Traces(s: OmsState, ops: seq<Op>, t: OmsState, requests: seq<OrderRequest>) {
    t == RunAll(s, ops) && SubmitsFrom(ops, requests)
  }

  lemma TraceThen(s: OmsState, a: seq<Op>, t: OmsState, b: seq<Op>, u: OmsState, requests: seq<OrderRequest>)
    requires Traces(s, a, t, requests) && Traces(t, b, u, requests)
    ensures Traces(s, a + b, u, requests)
  {
    RunAllThen(s, a, b);
  }

  lemma OpsTrace(s: OmsState, ops: seq<Op>, requests: seq<OrderRequest>) returns (trace: seq<Op>)
    requires SubmitsFrom(ops, requests)
    ensures Traces(s, trace, RunOps(s, ops).state, requests)
  {
    var n := RunOpsIsPrefix(s, ops);
    trace := ops[..n];
  }

  lemma {:induction false} StartCancelsTrace(s: OmsState, requests: seq<CancelRequest>) returns (trace: seq<Op>)
    ensures Traces(s, trace, StartCancels(s, requests).step.state, [])
  {
    hide ApplyOp;
    if requests == [] {
      trace := [];
    } else {
      var n := |requests| - 1;
      trace := StartCancelsTrace(s, requests[..n]);
      if StartCancels(s, requests[..n]).step.outcome == Ok {
        var op := CancelStart(requests[n].clientOrderId);
        assert (trace + [op])[..|trace|] == trace;
        trace := trace + [op];
      }
    }
  }

  lemma CancelBatchTrace(s: OmsState, batch: seq<CancelRequest>, gateway: seq<CancelRequest> -> Reply<CancelAck>)
    returns (trace: seq<Op>)
    ensures Traces(s, trace, BatchCanceled(s, batch, gateway).state, [])
  {
    trace := StartCancelsTrace(s, batch);
    var phase := StartCancels(s, batch);
    if phase.step.outcome == Ok && phase.active != [] {
      var reply := gateway(phase.active);
      var ops := if reply.Acks? then CancelAcks(reply.acks) else UnknownMarks(CancelIds(phase.active));
      var more := OpsTrace(phase.step.state, ops, []);
      TraceThen(s, trace, phase.step.state, more, RunOps(phase.step.state, ops).state, []);
      trace := trace + more;
    }
  }

  lemma {:induction false} CancelsTrace(s: OmsState, batches: seq<seq<CancelRequest>>,
      gateway: seq<CancelRequest> -> Reply<CancelAck>)
    returns (trace: seq<Op>)
    ensures Traces(s, trace, CancelBatches(s, batches, gateway).state, [])
  {
    if batches == [] {
      trace := [];
    } else {
      var n := |batches| - 1;
      trace := CancelsTrace(s, batches[..n], gateway);
      var before := CancelBatches(s, batches[..n], gateway);
      if before.outcome == Ok {
        var more := CancelBatchTrace(before.state, batches[n], gateway);
        TraceThen(s, trace, before.state, more, BatchCanceled(before.state, batches[n], gateway).state, []);
        trace := trace + more;
      }
    }
  }

  lemma SubmitBatchTrace(s: OmsState, batch: seq<OrderRequest>, reply: Reply<OrderAck>, requests: seq<OrderRequest>)
    returns (trace: seq<Op>)
    requires forall r | r in batch :: r in requests
    ensures Traces(s, trace, BatchSubmitted(s, batch, reply).state, requests)
  {
    if batch == [] {
      trace := [];
    } else {
      trace := OpsTrace(s, SubmitStarts(batch), requests);
      var started := RunOps(s, SubmitStarts(batch));
      if started.outcome == Ok {
        var ops := if reply.Acks? then OrderAcks(reply.acks) else UnknownMarks(RequestIds(batch));
        var more := OpsTrace(started.state, ops, requests);
        TraceThen(s, trace, started.state, more, RunOps(started.state, ops).state, requests);
        trace := trace + more;
      }
    }
  }

  lemma {:induction false} SubmitsTrace(s: OmsState, batches: seq<seq<OrderRequest>>,
      gateway: seq<OrderRequest> -> Reply<OrderAck>, requests: seq<OrderRequest>)
    returns (trace: seq<Op>)
    requires forall batch, r | batch in batches && r in batch :: r in requests
    ensures Traces(s, trace, SubmitBatches(s, batches, gateway).state, requests)
  {
    if batches == [] {
      trace := [];
    } else {
      var n := |batches| - 1;
      trace := SubmitsTrace(s, batches[..n], gateway, requests);
      var before := SubmitBatches(s, batches[..n], gateway);
      if before.outcome == Ok {
        var reply := gateway(batches[n]);
        var more := SubmitBatchTrace(before.state, batches[n], reply, requests);
        TraceThen(s, trace, before.state, more, BatchSubmitted(before.state, batches[n], reply).state, requests);
        trace := trace + more;
      }
    }
  }

  // ------------------------------------------------------------------------------- runs

  /** What happens to the application: a call on the order manager that is not a submit, a reason latched for safe
      mode, or a tick. */
  datatype AppEvent = Between(op: Op) | Latched(key: string, reason: string) | Ticked(input: TickInput)

  predicate Admissible(e: AppEvent) {
    e.Between? ==> !e.op.SubmitStart?
  }

  /** The state after an event, whether or not the event raised. */
  function AfterEvent(a: AppState, e: AppEvent): AppState {
    match e
    case Between(op) => a.(oms := ApplyOp(a.oms, op).state)
    case Latched(key, reason) => a.(reasons := a.reasons[key := reason])
    case Ticked(input) => Tick(a, input).state
  }

  function RunApp(a: AppState, events: seq<AppEvent>): AppState {
    if events == [] then a else AfterEvent(RunApp(a, events[..|events| - 1]), events[|events| - 1])
  }

  /** The order manager after the fills and cancels of a tick that got that far. */
  function AfterCancelPhase(a: AppState, t: TickInput): OmsState {
    var filled := TickFills(a, t);
    if filled.outcome.Raised? || TickBuilt(a, t).outcome.Raised? then filled.state
    else AfterCancels(filled.state, TickBuilt(a, t).intents, t.gateway).state
  }

  /** Whether a tick's cancels all returned, so that it came to screen its places. */
  predicate CancelsReturned(a: AppState, t: TickInput) {
    var filled := TickFills(a, t);
    && filled.outcome == Ok && TickBuilt(a, t).outcome == Ok
    && AfterCancels(filled.state, TickBuilt(a, t).intents, t.gateway).outcome == Ok
  }

  /** The requests a tick submits. */
  function TickRequests(a: AppState, t: TickInput): seq<OrderRequest> {
    if !CancelsReturned(a, t) then []
    else
      var screened := Screen(TickView(a, t), AfterCancelPhase(a, t), TickBuilt(a, t).intents);
      if screened.outcome.Raised? then [] else screened.requests
  }

  /** A tick is its fills and cancels, and then the submits of its requests. */
  lemma TickSubmits(a: AppState, t: TickInput)
    ensures Tick(a, t).state.oms
         == SubmitBatches(AfterCancelPhase(a, t), Batches(TickRequests(a, t), RequestSymbol), t.gateway.submit).state
  {
    assert Batches([], RequestSymbol) == [];
    hide TickFills, TickBuilt, AfterCancels, Screen, Batches, TickView;
  }

  lemma CancelPhaseTrace(a: AppState, t: TickInput) returns (trace: seq<Op>)
    ensures Traces(a.oms, trace, AfterCancelPhase(a, t), [])
  {
    hide TickBuilt;
    trace := OpsTrace(a.oms, FillOps(t.fills), []);
    var filled := TickFills(a, t);
    var built := TickBuilt(a, t);
    if filled.outcome == Ok && built.outcome == Ok {
      var batches := Batches(CancelRequestsOf(built.intents), CancelSymbol);
      var more := CancelsTrace(filled.state, batches, t.gateway.cancel);
      TraceThen(a.oms, trace, filled.state, more, CancelBatches(filled.state, batches, t.gateway.cancel).state, []);
      trace := trace + more;
    }
  }

  lemma SubmitPhaseTrace(a: AppState, t: TickInput) returns (trace: seq<Op>)
    ensures Traces(AfterCancelPhase(a, t), trace, Tick(a, t).state.oms, TickRequests(a, t))
  {
    hide Batches, TickRequests, AfterCancelPhase;
    var requests := TickRequests(a, t);
    var batches := Batches(requests, RequestSymbol);
    forall batch, r | batch in batches && r in batch
      ensures r in requests
    {
      FromBatch(requests, RequestSymbol, batch);
    }
    TickSubmits(a, t);
    trace := SubmitsTrace(AfterCancelPhase(a, t), batches, t.gateway.submit, requests);
  }

  /** A run of the application is a run of order-manager operations: what holds over all of those holds here. */
  lemma {:induction false} RunIsTrace(a: AppState, events: seq<AppEvent>) returns (trace: seq<Op>)
    ensures RunApp(a, events).oms == RunAll(a.oms, trace)
  {
    hide Tick, AfterCancelPhase, TickRequests;
    if events == [] {
      trace := [];
    } else {
      var n := |events| - 1;
      trace := RunIsTrace(a, events[..n]);
      var b := RunApp(a, events[..n]);
      match events[n]
      case Between(op) =>
        assert (trace + [op])[..|trace|] == trace;
        trace := trace + [op];
      case Latched(_, _) =>
      case Ticked(t) =>
        var one := CancelPhaseTrace(b, t);
        var two := SubmitPhaseTrace(b, t);
        RunAllThen(b.oms, one, two);
        RunAllThen(a.oms, trace, one + two);
        trace := trace + (one + two);
    }
  }

  /** The life of an order over runs of the application: whatever ticks and calls do, raising or not, a record created
      from a request changes status at most 6 + 4k times for k entries into UNKNOWN, never goes back to CREATED or
      SUBMITTING, and never leaves a terminal status. */
  lemma AppLifecycleBound(a: AppState, events: seq<AppEvent>, id: string)
    requires WellKeyed(a.oms) && id !in a.oms.orders.at && History(a.oms.saved, id) == []
    ensures var end := RunApp(a, events).oms; var h := History(end.saved, id);
      && (id in end.orders.at <==> h != [])
      && (h != [] ==> h[|h| - 1] == end.orders.at[id].status)
      && (h != [] && h[0] == Created ==> Changes(h) <= 6 + 4 * UnknownEntries(h))
      && (forall i, j | 0 <= i < j < |h| ::
            && (h[j] == Created ==> h[i] == Created)
            && (h[j] == Submitting ==> h[i] in {Created, Submitting})
            && (IsTerminal(h[i]) ==> h[j] == h[i]))
  {
    hide RunApp, RunAll, History, WellKeyed, Changes, UnknownEntries;
    var trace := RunIsTrace(a, events);
    LifecycleBound(a.oms, trace, id);
  }

  // ------------------------------------------------------------------------------- the safe-mode latch

  lemma {:induction false} SafeModeScreensAll(view: RiskView, s: OmsState, intents: seq<OrderIntent>)
    requires view.safeMode
    ensures Screen(view, s, intents) == Screened([], Ok)
  {
    if intents != [] {
      SafeModeScreensAll(view, s, intents[..|intents| - 1]);
    }
  }

  lemma {:induction false} ReasonsStay(a: AppState, events: seq<AppEvent>)
    ensures RunApp(a, events).reasons.Keys >= a.reasons.Keys
  {
    hide App.Tick;
    if events != [] {
      var n := |events| - 1;
      ReasonsStay(a, events[..n]);
      if events[n].Ticked? {
        TickKeepsReasons(RunApp(a, events[..n]), events[n].input);
      }
    }
  }

  lemma TickKeepsReasons(a: AppState, t: TickInput)
    ensures Tick(a, t).state.reasons == a.reasons
  {
  }

  /** Once a reason is latched, every later tick still fills and cancels, but submits nothing, whatever the admin's
      switch says. */
  lemma LatchStopsSubmits(a: AppState, events: seq<AppEvent>, t: TickInput)
    requires a.reasons != map[]
    ensures var b := RunApp(a, events); TickRequests(b, t) == [] && Tick(b, t).state.oms == AfterCancelPhase(b, t)
  {
    hide TickFills, TickBuilt, AfterCancelPhase, RunApp, Screen;
    ReasonsStay(a, events);
    var b := RunApp(a, events);
    assert a.reasons.Keys != {} && b.reasons != map[];
    SafeModeScreensAll(TickView(b, t), AfterCancelPhase(b, t), TickBuilt(b, t).intents);
    assert Batches([], RequestSymbol) == [];
    TickSubmits(b, t);
  }

  /** The safe mode of a tick in any run: while the admin's switch is on or any reason is latched, the tick fills and
      cancels but submits nothing; with the switch off and no reason, what it submits is what the risk engine approves
      with safe mode off, whatever mode it was left in. */
  lemma SafeModeExactly(a: AppState, events: seq<AppEvent>, t: TickInput)
    ensures var b := RunApp(a, events); var c := AfterCancelPhase(b, t);
      && (t.adminSafeMode || b.reasons != map[] ==> TickRequests(b, t) == [] && Tick(b, t).state.oms == c)
      && (!t.adminSafeMode && b.reasons == map[] && CancelsReturned(b, t) ==>
            var screened := Screen(t.view.(safeMode := false), c, TickBuilt(b, t).intents);
            && TickRequests(b, t) == (if screened.outcome == Ok then screened.requests else [])
            && Tick(b, t).state.oms
                 == SubmitBatches(c, Batches(TickRequests(b, t), RequestSymbol), t.gateway.submit).state
            && (screened.outcome != Ok ==> Tick(b, t).outcome == screened.outcome))
  {
    hide TickFills, TickBuilt, AfterCancels, RunApp, Screen, Batches, SubmitBatches, GroupBy;
    var b := RunApp(a, events);
    TickSubmits(b, t);
    NothingBatched();
    if t.adminSafeMode || b.reasons != map[] {
      SafeModeScreensAll(TickView(b, t), AfterCancelPhase(b, t), TickBuilt(b, t).intents);
      NothingSubmitted(AfterCancelPhase(b, t), t.gateway.submit);
    }
  }

  lemma NothingBatched()
    ensures Batches([], RequestSymbol) == []
  {
  }

  lemma NothingSubmitted(s: OmsState, gateway: seq<OrderRequest> -> Reply<OrderAck>)
    ensures SubmitBatches(s, [], gateway) == Step(s, Ok)
  {
  }
}
