/** What a restarted order manager finds in the store (src/mm/oms/manager.py:33-35, 282-287). */
module Restart {
  import opened Dicts
  import opened Types
  import opened OrderState
  import opened Store
  import opened Oms
  import opened OmsRuns
  import opened Refusals

  /** The dictionary with every record as `from_dict(to_dict(record))` gives it back: an empty exchange id is absent. */
  function Normal(d: Dict<string, OrderRecord>): Dict<string, OrderRecord> {
    Dict(d.keys, map id | id in d.at ::
           var r := d.at[id]; r.(exchangeOrderId := if r.exchangeOrderId == Some("") then None else r.exchangeOrderId))
  }

  /** The rows read back as the records in memory, in the same order. */
  ghost predicate Agrees(rows: seq<OrderRecord>, d: Dict<string, OrderRecord>) {
    LoadRows(rows) == LoadRows(Values(d.keys, d.at))
  }

  lemma {:induction false} LoadAt(rows: seq<OrderRecord>)
    ensures |LoadRows(rows)| == |rows| && forall i | 0 <= i < |rows| :: LoadRows(rows)[i] == FromRow(rows[i])
  {
    if rows != [] {
      LoadAt(rows[..|rows| - 1]);
    }
  }

  lemma FromRowKeepsId(row: OrderRecord)
    ensures FromRow(row).clientOrderId == row.clientOrderId
  {
  }

  lemma ValuesAppend(keys: seq<string>, k: string, at: map<string, OrderRecord>)
    requires k in at
    ensures Values(keys + [k], at) == Values(keys, at) + [at[k]]
  {
    assert (keys + [k])[..|keys|] == keys;
  }

  lemma LoadAppend(rows: seq<OrderRecord>, row: OrderRecord)
    ensures LoadRows(rows + [row]) == LoadRows(rows) + [FromRow(row)]
  {
    assert (rows + [row])[..|rows|] == rows;
  }

  lemma IndexAppend(records: seq<OrderRecord>, r: OrderRecord)
    ensures IndexById(records + [r]) == Put(IndexById(records), r.clientOrderId, r)
  {
    assert (records + [r])[..|records|] == records;
  }

  function NormalAt(keys: seq<string>, at: map<string, OrderRecord>): map<string, OrderRecord>
    requires forall k | k in keys :: k in at
  {
    map k | k in keys :: FromRow(at[k])
  }

  lemma NormalAppend(keys: seq<string>, k: string, at: map<string, OrderRecord>)
    requires k in at && forall x | x in keys :: x in at
    ensures NormalAt(keys + [k], at) == NormalAt(keys, at)[k := FromRow(at[k])]
  {
    hide FromRow;
  }

  lemma {:induction false} IndexPrefix(keys: seq<string>, at: map<string, OrderRecord>)
    requires Distinct(keys) && forall k | k in keys :: k in at && at[k].clientOrderId == k
    ensures IndexById(LoadRows(Values(keys, at))) == Dict(keys, NormalAt(keys, at))
  {
    if keys == [] {
      assert NormalAt(keys, at) == map[];
    } else {
      var n := |keys| - 1;
      assert keys == keys[..n] + [keys[n]];
      IndexPrefix(keys[..n], at);
      IndexStep(keys[..n], keys[n], at);
    }
  }

  lemma IndexStep(keys: seq<string>, k: string, at: map<string, OrderRecord>)
    requires k in at && k !in keys && at[k].clientOrderId == k && forall x | x in keys :: x in at
    requires IndexById(LoadRows(Values(keys, at))) == Dict(keys, NormalAt(keys, at))
    ensures IndexById(LoadRows(Values(keys + [k], at))) == Dict(keys + [k], NormalAt(keys + [k], at))
  {
    hide FromRow, Values, LoadRows, IndexById;
    FromRowKeepsId(at[k]);
    ValuesAppend(keys, k, at);
    LoadAppend(Values(keys, at), at[k]);
    IndexAppend(LoadRows(Values(keys, at)), FromRow(at[k]));
    NormalAppend(keys, k, at);
  }

  /** An `OrderManager` built from rows that agree with `d` holds `Normal(d)`, in the same order. */
  lemma RebuiltFromAgreement(rows: seq<OrderRecord>, d: Dict<string, OrderRecord>)
    requires d.Valid() && (forall id | id in d.at :: d.at[id].clientOrderId == id)
    requires Agrees(rows, d)
    ensures IndexById(LoadRows(rows)) == Normal(d)
  {
    ValidKeys(d);
    IndexPrefix(d.keys, d.at);
    assert NormalAt(d.keys, d.at) == Normal(d).at;
  }

  lemma {:induction false} LoadValuesSame(keys: seq<string>, a: map<string, OrderRecord>, b: map<string, OrderRecord>)
    requires forall k | k in keys :: k in a && k in b && FromRow(a[k]) == FromRow(b[k])
    ensures LoadRows(Values(keys, a)) == LoadRows(Values(keys, b))
  {
    if keys != [] {
      var n := |keys| - 1;
      LoadValuesSame(keys[..n], a, b);
      var x, y := Values(keys, a), Values(keys, b);
      assert x[..|x| - 1] == Values(keys[..n], a);
      assert y[..|y| - 1] == Values(keys[..n], b);
    }
  }

  /** Saving one record brings the store to agree with the dictionary that holds it. */
  lemma SaveAgrees(rows: seq<OrderRecord>, d: Dict<string, OrderRecord>, r: OrderRecord)
    requires d.Valid() && (forall id | id in d.at :: d.at[id].clientOrderId == id)
    requires Agrees(rows, d)
    ensures Agrees(SaveRow(rows, r), Put(d, r.clientOrderId, r))
  {
    RebuiltFromAgreement(rows, d);
    ValidKeys(d);
    var saved := Put(Normal(d), r.clientOrderId, r);
    var memory := Put(d, r.clientOrderId, r);
    assert saved.keys == memory.keys;
    LoadValuesSame(saved.keys, saved.at, memory.at);
  }

  /** Two dictionaries with the same keys agree with the same rows only if every record reads back the same. */
  lemma SameRows(a: Dict<string, OrderRecord>, b: Dict<string, OrderRecord>, id: string)
    requires a.Valid() && b.Valid() && a.keys == b.keys && id in a.at
    requires LoadRows(Values(a.keys, a.at)) == LoadRows(Values(b.keys, b.at))
    ensures id in b.at && FromRow(a.at[id]) == FromRow(b.at[id])
  {
    ValidKeys(a);
    ValidKeys(b);
    ValuesAt(a.keys, a.at);
    ValuesAt(b.keys, b.at);
    LoadAt(Values(a.keys, a.at));
    LoadAt(Values(b.keys, b.at));
    var i :| 0 <= i < |a.keys| && a.keys[i] == id;
    assert LoadRows(Values(a.keys, a.at))[i] == FromRow(a.at[id]);
    assert LoadRows(Values(b.keys, b.at))[i] == FromRow(b.at[id]);
  }

  /** The given exchange id is not the record's own. */
  predicate NamesNew(r: OrderRecord, id: Option<string>) {
    id.Some? && id.value != "" && id != r.exchangeOrderId
  }

  /** The update says something the record does not say yet. */
  predicate Tells(r: OrderRecord, update: OrderUpdate) {
    || NamesNew(r, update.exchangeOrderId) || update.filledSize > r.filledSize
    || (update.avgFillPrice.Some? && update.avgFillPrice.value != 0.0 && update.avgFillPrice != r.avgFillPrice)
  }

  /** The operation writes to the record in memory without persisting it: its transition is refused after it wrote
      something new, or it is a refused cancel ack with a new exchange id for a record that is not CANCELING. */
  predicate LosesWrite(s: OmsState, op: Op) {
    && OpId(op) in s.orders.at
    && var r := s.orders.at[OpId(op)];
    match op
    case OrderAcked(ack) => NamesNew(r, ack.exchangeOrderId) && !CanTransition(r.status, AckTarget(ack))
    case CancelAcked(ack) =>
      NamesNew(r, ack.exchangeOrderId)
      && (if ack.accepted then !CanTransition(r.status, ack.status) else r.status != Canceling)
    case Updated(update) => Tells(r, update) && !CanTransition(r.status, update.status)
    case RemoteUpdated(update) => Tells(r, update) && !CanTransition(r.status, update.status)
    case FillApplied(fill) => AfterFill(r, fill).Some? && AfterFill(r, fill).value != r && FillRefused(r, fill)
    case _ => false
  }

  /** Among calls that return, only the cancel ack. */
  lemma ReturnedLoses(s: OmsState, op: Op)
    requires ApplyOp(s, op).outcome == Ok
    ensures LosesWrite(s, op) <==>
      && op.CancelAcked? && !op.cancelAck.accepted && op.cancelAck.clientOrderId in s.orders.at
      && var r := s.orders.at[op.cancelAck.clientOrderId];
         r.status != Canceling && NamesNew(r, op.cancelAck.exchangeOrderId)
  {
    hide BlendedPrice;
    if op.FillApplied? && OpId(op) in s.orders.at && AfterFill(s.orders.at[OpId(op)], op.fill).Some? {
      FillRefusedExactly(s.orders.at[OpId(op)], op.fill);
    }
  }

  function Rows(loaded: seq<OrderRecord>, s: OmsState): seq<OrderRecord> {
    SaveRows(loaded, s.saved)
  }

  lemma TouchAgreement(loaded: seq<OrderRecord>, s: OmsState, op: Op)
    requires s.orders.Valid() && WellKeyed(s) && Agrees(Rows(loaded, s), s.orders)
    requires OpId(op) in s.orders.at
    ensures var t := TouchRecord(s.orders.at[OpId(op)], op); var end := ApplyOp(s, op).state;
      Agrees(Rows(loaded, end), end.orders) <==> t.saved != [] || FromRow(t.record) == FromRow(s.orders.at[OpId(op)])
  {
    var id := OpId(op);
    var r := s.orders.at[id];
    var t := TouchRecord(r, op);
    var end := ApplyOp(s, op).state;
    TouchFacts(r, op);
    if t.saved == [] {
      assert s.saved + t.saved == s.saved;
      ValidKeys(s.orders);
      PutValid(s.orders, id, t.record);
      if FromRow(t.record) == FromRow(r) {
        LoadValuesSame(s.orders.keys, s.orders.at, end.orders.at);
      } else if Agrees(Rows(loaded, end), end.orders) {
        SameRows(s.orders, end.orders, id);
        assert false;
      }
    } else {
      SaveAppend(loaded, s.saved, t.record);
      SaveAgrees(Rows(loaded, s), s.orders, t.record);
    }
  }

  lemma ReadsBackSame(r: OrderRecord, id: Option<string>)
    ensures FromRow(r.(exchangeOrderId := OrId(id, r.exchangeOrderId))) == FromRow(r) <==> !NamesNew(r, id)
  {
  }

  lemma UpdateReadsBack(r: OrderRecord, update: OrderUpdate)
    ensures var t := TouchUpdate(r, update);
      t.saved != [] || FromRow(t.record) == FromRow(r) <==> CanTransition(r.status, update.status) || !Tells(r, update)
  {
    ReadsBackSame(r, update.exchangeOrderId);
  }

  lemma FillReadsBack(r: OrderRecord, fill: FillEvent)
    ensures var t := TouchFill(r, fill);
      t.saved != [] || FromRow(t.record) == FromRow(r)
      <==> !(AfterFill(r, fill).Some? && AfterFill(r, fill).value != r && FillRefused(r, fill))
  {
    hide BlendedPrice;
    if AfterFill(r, fill).Some? {
      FillRefusedExactly(r, fill);
    }
  }

  /** A touched record agrees with what is stored exactly when no write was lost. */
  lemma TouchLoses(s: OmsState, op: Op)
    requires OpId(op) in s.orders.at
    ensures var r := s.orders.at[OpId(op)]; var t := TouchRecord(r, op);
      t.saved != [] || FromRow(t.record) == FromRow(r) <==> !LosesWrite(s, op)
  {
    hide TouchUpdate, TouchFill, FromRow, FillRefused, AfterFill, BlendedPrice;
    var r := s.orders.at[OpId(op)];
    match op
    case OrderAcked(ack) => ReadsBackSame(r, ack.exchangeOrderId);
    case CancelAcked(ack) => ReadsBackSame(r, ack.exchangeOrderId);
    case Updated(update) => UpdateReadsBack(r, update);
    case RemoteUpdated(update) => UpdateReadsBack(r, update);
    case FillApplied(fill) => FillReadsBack(r, fill);
    case _ =>
  }

  /** Creating a record persists it twice, as CREATED and as SUBMITTING. */
  lemma CreateAgrees(rows: seq<OrderRecord>, d: Dict<string, OrderRecord>, created: OrderRecord,
      submitting: OrderRecord)
    requires d.Valid() && (forall id | id in d.at :: d.at[id].clientOrderId == id)
    requires Agrees(rows, d) && submitting.clientOrderId == created.clientOrderId
    ensures Agrees(SaveRow(SaveRow(rows, created), submitting), Put(d, created.clientOrderId, submitting))
  {
    var id := created.clientOrderId;
    SaveAgrees(rows, d, created);
    PutValid(d, id, created);
    SaveAgrees(SaveRow(rows, created), Put(d, id, created), submitting);
    PutTwice(d, id, created, submitting);
  }

  lemma SaveTwice(rows: seq<OrderRecord>, saved: seq<OrderRecord>, a: OrderRecord, b: OrderRecord)
    ensures SaveRows(rows, saved + [a, b]) == SaveRow(SaveRow(SaveRows(rows, saved), a), b)
  {
    hide SaveRows, SaveRow;
    SaveAppend(rows, saved, a);
    SaveAppend(rows, saved + [a], b);
    assert saved + [a] + [b] == saved + [a, b];
  }

  lemma NewAgreement(loaded: seq<OrderRecord>, s: OmsState, op: Op)
    requires s.orders.Valid() && WellKeyed(s) && Agrees(Rows(loaded, s), s.orders)
    requires OpId(op) !in s.orders.at && NewRecord(op).Some?
    ensures var end := ApplyOp(s, op).state; Agrees(Rows(loaded, end), end.orders)
  {
    var t := NewRecord(op).value;
    NewRecordFacts(op);
    if op.SubmitStart? {
      SaveTwice(loaded, s.saved, FromRequest(op.request), t.record);
      CreateAgrees(Rows(loaded, s), s.orders, FromRequest(op.request), t.record);
    } else {
      SaveAppend(loaded, s.saved, t.record);
      SaveAgrees(Rows(loaded, s), s.orders, t.record);
    }
  }

  /** A call, whether it returns or raises, keeps the store in agreement with memory exactly when it loses no write. */
  lemma StepAgreement(loaded: seq<OrderRecord>, s: OmsState, op: Op)
    requires s.orders.Valid() && WellKeyed(s) && Agrees(Rows(loaded, s), s.orders)
    ensures var end := ApplyOp(s, op).state; Agrees(Rows(loaded, end), end.orders) <==> !LosesWrite(s, op)
  {
    hide TouchRecord, LosesWrite, Agrees, NewRecord, WellKeyed;
    KnownLoses(s, op);
    if OpId(op) in s.orders.at {
      TouchAgreement(loaded, s, op);
      TouchLoses(s, op);
    } else if NewRecord(op).Some? {
      NewAgreement(loaded, s, op);
    }
  }

  /** A manager just started with one stored record. */
  lemma OneStored(r: OrderRecord, s: OmsState)
    requires s == OmsState(Put(Empty(), r.clientOrderId, r), [])
    ensures s.orders.Valid() && WellKeyed(s) && Agrees(Rows([r], s), s.orders)
  {
    hide FromRow;
    var none: Dict<string, OrderRecord> := Empty();
    PutValid(none, r.clientOrderId, r);
    assert s.orders.keys[..0] == [] && s.orders.keys == [r.clientOrderId];
    assert Values(s.orders.keys, s.orders.at) == [r];
  }

  /** A refused cancel ack that names an open order's exchange id: the call returns, and the store falls behind. */
  lemma LostWriteExample(r: OrderRecord, ack: CancelAck) returns (s: OmsState)
    requires r.status == Open && !ack.accepted && ack.clientOrderId == r.clientOrderId
    requires NamesNew(r, ack.exchangeOrderId)
    ensures s.orders.Valid() && WellKeyed(s) && Agrees(Rows([r], s), s.orders)
    ensures var end := ApplyOp(s, CancelAcked(ack));
      end.outcome == Ok && !Agrees(Rows([r], end.state), end.state.orders)
  {
    hide Agrees, Rows, WellKeyed;
    s := OmsState(Put(Empty(), r.clientOrderId, r), []);
    OneStored(r, s);
    StepAgreement([r], s, CancelAcked(ack));
  }

  lemma KnownLoses(s: OmsState, op: Op)
    ensures LosesWrite(s, op) ==> OpId(op) in s.orders.at
  {
  }

  /** Restart agreement over a run that loses no write, whether its calls return or raise: a manager rebuilt from the
      store holds the records in memory, in the same order, up to an empty exchange id reading back as absent. */
  lemma {:induction false} RestartAgreement(loaded: seq<OrderRecord>, s: OmsState, ops: seq<Op>)
    requires s.orders.Valid() && WellKeyed(s) && Agrees(Rows(loaded, s), s.orders)
    requires forall i | 0 <= i < |ops| :: !LosesWrite(RunAll(s, ops[..i]), ops[i])
    ensures var end := RunAll(s, ops);
      && end.orders.Valid() && WellKeyed(end)
      && Agrees(Rows(loaded, end), end.orders)
      && IndexById(LoadRows(Rows(loaded, end))) == Normal(end.orders)
  {
    hide LosesWrite, ApplyOp, Agrees;
    if ops != [] {
      var n := |ops| - 1;
      var init := ops[..n];
      forall i | 0 <= i < n
        ensures !LosesWrite(RunAll(s, init[..i]), init[i])
      {
        assert init[..i] == ops[..i];
      }
      RestartAgreement(loaded, s, init);
      var before := RunAll(s, init);
      assert !LosesWrite(before, ops[n]);
      StepValid(before, ops[n]);
      StepWellKeyed(before, ops[n]);
      StepAgreement(loaded, before, ops[n]);
    }
    WellKeyedMeans(RunAll(s, ops));
    RebuiltFromAgreement(Rows(loaded, RunAll(s, ops)), RunAll(s, ops).orders);
  }

  lemma WellKeyedMeans(s: OmsState)
    requires WellKeyed(s)
    ensures forall id | id in s.orders.at :: s.orders.at[id].clientOrderId == id
  {
  }

  // ------------------------------------------------------------------------------- several restarts

  predicate DistinctRows(rows: seq<OrderRecord>) {
    forall i, j | 0 <= i < j < |rows| :: rows[i].clientOrderId != rows[j].clientOrderId
  }

  /** The order manager that a restart builds from the stored rows. */
  function Restarted(rows: seq<OrderRecord>): OmsState {
    OmsState(IndexById(LoadRows(rows)), [])
  }

  lemma {:induction false} ValuesOther(keys: seq<string>, at: map<string, OrderRecord>, k: string, v: OrderRecord)
    requires k !in keys
    ensures Values(keys, at[k := v]) == Values(keys, at)
  {
    if keys != [] {
      ValuesOther(keys[..|keys| - 1], at, k, v);
    }
  }

  /** Indexing never gains an entry, and loses none exactly when every id occurs once; then it keeps the records in
      their order. */
  lemma {:induction false} IndexCounts(records: seq<OrderRecord>)
    ensures var d := IndexById(records);
      && d.Valid() && (forall id | id in d.at :: d.at[id].clientOrderId == id)
      && (forall id :: id in d.at <==> exists r :: r in records && r.clientOrderId == id)
      && |d.keys| <= |records|
      && (|d.keys| == |records| <==> DistinctRows(records))
      && (DistinctRows(records) ==> Values(d.keys, d.at) == records)
  {
    hide Distinct, KeySet, Values;
    if records == [] {
      NothingIndexed();
    } else {
      var n := |records| - 1;
      var init, last := records[..n], records[n];
      assert records == init + [last];
      IndexCounts(init);
      var d := IndexById(init);
      var id := last.clientOrderId;
      PutValid(d, id, last);
      ValidKeys(d);
      assert IndexById(records) == Put(d, id, last);
      assert DistinctRows(records) <==> DistinctRows(init) && id !in d.at by {
        DistinctRowsAppend(init, last);
      }
      if DistinctRows(records) {
        ValuesOther(d.keys, d.at, id, last);
        ValuesAppend(d.keys, id, d.at[id := last]);
      }
    }
  }

  lemma DistinctRowsAppend(init: seq<OrderRecord>, last: OrderRecord)
    ensures DistinctRows(init + [last])
      <==> DistinctRows(init) && !(exists r :: r in init && r.clientOrderId == last.clientOrderId)
  {
    var all := init + [last];
    if DistinctRows(all) {
      assert forall i | 0 <= i < |init| :: all[i] == init[i];
      assert all[|init|] == last;
    }
  }

  lemma NothingIndexed()
    ensures IndexById([]) == Empty() && (IndexById([])).Valid() && Values<string, OrderRecord>([], map[]) == []
  {
  }

  lemma {:induction false} LoadTwice(rows: seq<OrderRecord>)
    ensures LoadRows(LoadRows(rows)) == LoadRows(rows) && (DistinctRows(LoadRows(rows)) <==> DistinctRows(rows))
  {
    LoadAt(rows);
    LoadAt(LoadRows(rows));
  }

  lemma NothingSaved(rows: seq<OrderRecord>)
    ensures Rows(rows, Restarted(rows)) == rows
  {
  }

  /** A restarted manager is sound, and agrees with the store exactly when every id is stored once. */
  lemma RestartedAgreesExactly(rows: seq<OrderRecord>)
    ensures var s := Restarted(rows);
      && s.orders.Valid() && WellKeyed(s)
      && (Agrees(Rows(rows, s), s.orders) <==> DistinctRows(rows))
  {
    hide LoadRows, IndexById, Values, Distinct, KeySet, DistinctRows, Rows;
    var s := Restarted(rows);
    var records := LoadRows(rows);
    IndexCounts(records);
    LoadTwice(rows);
    NothingSaved(rows);
    LoadAt(rows);
    LoadAt(Values(s.orders.keys, s.orders.at));
    ValidKeys(s.orders);
    ValuesAt(s.orders.keys, s.orders.at);
  }

  /** No call of a run loses a write. */
  ghost predicate LosesNothing(s: OmsState, ops: seq<Op>) {
    forall i | 0 <= i < |ops| :: !LosesWrite(RunAll(s, ops[..i]), ops[i])
  }

  /** The rows after sessions of calls, with a restart before each. */
  function AfterSessions(rows: seq<OrderRecord>, sessions: seq<seq<Op>>): seq<OrderRecord> {
    if sessions == [] then rows
    else
      var before := AfterSessions(rows, sessions[..|sessions| - 1]);
      Rows(before, RunAll(Restarted(before), sessions[|sessions| - 1]))
  }

  /** What a manager rebuilt from rows that agree with sound records reads. */
  lemma AgreeingRowsAreDistinct(rows: seq<OrderRecord>, d: Dict<string, OrderRecord>)
    requires d.Valid() && (forall id | id in d.at :: d.at[id].clientOrderId == id) && Agrees(rows, d)
    ensures DistinctRows(rows)
  {
    hide IndexById, Distinct, KeySet;
    RebuiltFromAgreement(rows, d);
    IndexCounts(LoadRows(rows));
    LoadTwice(rows);
    LoadAt(rows);
    LoadAt(Values(d.keys, d.at));
    ValidKeys(d);
    ValuesAt(d.keys, d.at);
  }

  /** A session from a store with distinct ids that loses no write: the next restart finds what was in memory at its
      end, an empty exchange id reading back as absent, and distinct ids again. */
  lemma SessionAgrees(rows: seq<OrderRecord>, ops: seq<Op>)
    requires DistinctRows(rows) && LosesNothing(Restarted(rows), ops)
    ensures var end := RunAll(Restarted(rows), ops); var stored := Rows(rows, end);
      DistinctRows(stored) && Restarted(stored).orders == Normal(end.orders)
  {
    hide Agrees, DistinctRows, LosesWrite, Rows, WellKeyed, RunAll, LoadRows, IndexById, Normal;
    RestartedAgreesExactly(rows);
    RestartAgreement(rows, Restarted(rows), ops);
    var end := RunAll(Restarted(rows), ops);
    WellKeyedMeans(end);
    AgreeingRowsAreDistinct(Rows(rows, end), end.orders);
  }

  /** Over any number of restarts, each session's memory survives into the next, as long as no session loses a write. */
  lemma {:induction false} RestartsAgree(rows: seq<OrderRecord>, sessions: seq<seq<Op>>)
    requires DistinctRows(rows)
    requires forall k | 0 <= k < |sessions| ::
      LosesNothing(Restarted(AfterSessions(rows, sessions[..k])), sessions[k])
    ensures DistinctRows(AfterSessions(rows, sessions))
    ensures sessions != [] ==>
      var n := |sessions| - 1;
      Restarted(AfterSessions(rows, sessions)).orders
      == Normal(RunAll(Restarted(AfterSessions(rows, sessions[..n])), sessions[n]).orders)
  {
    hide DistinctRows, LosesNothing, Restarted, Rows, RunAll, Normal;
    if sessions != [] {
      var n := |sessions| - 1;
      var init := sessions[..n];
      forall k | 0 <= k < n
        ensures LosesNothing(Restarted(AfterSessions(rows, init[..k])), init[k])
      {
        assert init[..k] == sessions[..k];
      }
      RestartsAgree(rows, init);
      SessionAgrees(AfterSessions(rows, init), sessions[n]);
    }
  }
}
