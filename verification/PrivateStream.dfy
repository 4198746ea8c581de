/** Order rows of the private stream (src/mm/exchange/bitmart/private_stream.py): cumulative filled sizes in,
    incremental fills out. */
module PrivateStream {
  import opened Dicts
  import opened Types
  import opened OrderState
  import opened Oms
  import opened OmsRuns
  import opened OrderManagers
  import opened Refusals

  /** The fields a row carries; absent ids are empty strings. */
  datatype Row = Row(
    symbol: string, clientOrderId: string, orderId: string, orderState: string, filledSize: real, price: Option<real>,
    side: Option<Side>, fee: real, feeCurrency: string)

  function StatusOf(orderState: string): OrderStatus {
    if orderState == "new" || orderState == "4" then Open
    else if orderState == "partially_filled" || orderState == "5" then PartiallyFilled
    else if orderState == "filled" || orderState == "6" then Filled
    else if orderState == "canceled" || orderState == "8" then Canceled
    else if orderState == "partially_canceled" || orderState == "12" then PartiallyCanceled
    else Unknown
  }

  /** `parse_private_order_update` */
  function ParseRow(row: Row): OrderUpdate {
    OrderUpdate(row.symbol, row.clientOrderId, Some(row.orderId), StatusOf(row.orderState), row.filledSize, row.price,
                row.side)
  }

  /** The update applied for a row: one without a client id is filed as UNKNOWN under its exchange id. */
  function UpdateOf(row: Row): OrderUpdate {
    var update := ParseRow(row);
    if update.clientOrderId == "" && row.orderId != "" then
      update.(clientOrderId := "exchange:" + row.orderId, status := Unknown)
    else update
  }

  function OrText(a: string, b: string): string { if a != "" then a else b }

  /** `_fill_from_private_row` */
  function FillFrom(row: Row, update: OrderUpdate, record: OrderRecord, delta: real): FillEvent {
    FillEvent(OrText(record.symbol, update.symbol), record.clientOrderId,
              OrId(record.exchangeOrderId, update.exchangeOrderId), record.side,
              OrPrice(update.avgFillPrice, OrPrice(record.avgFillPrice, record.price)).GetOr(0.0),
              delta, row.fee, row.feeCurrency)
  }

  datatype Report = Report(orderUpdates: nat, orphanOrders: nat, unknownOrders: nat, fills: seq<FillEvent>)

  /** The state, the report so far, and how the call has gone: a row that raises ends it. */
  datatype Streamed = Streamed(state: OmsState, report: Report, outcome: Outcome)

  /** The fill emitted for a row that left `record` behind. */
  function Emitted(s: OmsState, row: Row, record: OrderRecord): seq<FillEvent> {
    var update := UpdateOf(row);
    var delta := if update.clientOrderId in s.orders.at
                 then record.filledSize - s.orders.at[update.clientOrderId].filledSize else 0.0;
    if delta > 0.0 && record.status != Unknown then [FillFrom(row, update, record, delta)] else []
  }

  function AfterRow(t: Streamed, row: Row): Streamed {
    var update := UpdateOf(row);
    var applied := ApplyOp(t.state, RemoteUpdated(update));
    if applied.outcome.Raised? then t.(state := applied.state, outcome := applied.outcome)
    else
      var record := applied.state.orders.at[update.clientOrderId];
      Streamed(applied.state,
               Report(t.report.orderUpdates + 1,
                      t.report.orphanOrders + (if update.clientOrderId in t.state.orders.at then 0 else 1),
                      t.report.unknownOrders + (if record.status == Unknown then 1 else 0),
                      t.report.fills + Emitted(t.state, row, record)),
               Ok)
  }

  /** `_apply_order_rows` */
  function ApplyRows(s: OmsState, rows: seq<Row>): Streamed {
    if rows == [] then Streamed(s, Report(0, 0, 0, []), Ok)
    else
      var before := ApplyRows(s, rows[..|rows| - 1]);
      if before.outcome.Raised? then before else AfterRow(before, rows[|rows| - 1])
  }

  lemma AppliedHolds(s: OmsState, update: OrderUpdate)
    ensures update.clientOrderId in ApplyOp(s, RemoteUpdated(update)).state.orders.at
  {
  }

  class BitMartPrivateStreamProcessor {
    const oms: OrderManager

    constructor (oms: OrderManager)
      ensures this.oms == oms
    {
      this.oms := oms;
    }

    method ApplyOne(row: Row, ghost t: Streamed) returns (orphan: bool, unknown: bool, fills: seq<FillEvent>,
        outcome: Outcome)
      requires oms.Valid() && oms.State() == t.state && t.outcome == Ok
      modifies oms, oms.store
      ensures oms.Valid()
      ensures
        var after := AfterRow(t, row);
        && oms.State() == after.state && outcome == after.outcome
        && (outcome == Ok ==>
              && after.report.orderUpdates == t.report.orderUpdates + 1
              && after.report.orphanOrders == t.report.orphanOrders + (if orphan then 1 else 0)
              && after.report.unknownOrders == t.report.unknownOrders + (if unknown then 1 else 0)
              && after.report.fills == t.report.fills + fills)
    {
      hide ApplyOp, FillFrom, StatusOf;
      AppliedHolds(t.state, UpdateOf(row));
      var update := ParseRow(row);
      if update.clientOrderId == "" && row.orderId != "" {
        update := OrderUpdate(update.symbol, "exchange:" + row.orderId, update.exchangeOrderId, Unknown,
                              update.filledSize, update.avgFillPrice, update.side);
      }
      orphan := update.clientOrderId !in oms.orders.at;
      var previousFilled := if orphan then 0.0 else oms.orders.at[update.clientOrderId].filledSize;
      unknown := false;
      fills := [];
      outcome := oms.ApplyRemoteOrderUpdate(update);
      if outcome.Raised? {
        return;
      }
      var record := oms.orders.at[update.clientOrderId];
      var filledDelta := if orphan then 0.0 else record.filledSize - previousFilled;
      unknown := record.status == Unknown;
      if filledDelta > 0.0 && !unknown {
        fills := [FillFrom(row, update, record, filledDelta)];
      }
    }

    method ApplyOrderRows(rows: seq<Row>) returns (report: Report, outcome: Outcome)
      requires oms.Valid()
      modifies oms, oms.store
      ensures oms.Valid()
      ensures Streamed(oms.State(), report, outcome) == ApplyRows(old(oms.State()), rows)
    {
      var orphanOrders, unknownOrders, applied := 0, 0, 0;
      var fills: seq<FillEvent> := [];
      outcome := Ok;
      for i := 0 to |rows|
        invariant oms.Valid() && outcome == Ok
        invariant Streamed(oms.State(), Report(applied, orphanOrders, unknownOrders, fills), outcome)
               == ApplyRows(old(oms.State()), rows[..i])
      {
        Prefixes(rows, i);
        var orphan, unknown, more;
        orphan, unknown, more, outcome := ApplyOne(rows[i], ApplyRows(old(oms.State()), rows[..i]));
        if outcome.Raised? {
          RowsStop(old(oms.State()), rows, i + 1);
          return Report(applied, orphanOrders, unknownOrders, fills), outcome;
        }
        fills := fills + more;
        orphanOrders := orphanOrders + if orphan then 1 else 0;
        unknownOrders := unknownOrders + if unknown then 1 else 0;
        applied := applied + 1;
      }
      assert rows[..|rows|] == rows;
      report := Report(applied, orphanOrders, unknownOrders, fills);
    }
  }

  lemma {:induction false} RowsStop(s: OmsState, rows: seq<Row>, n: nat)
    requires n <= |rows| && ApplyRows(s, rows[..n]).outcome.Raised?
    ensures ApplyRows(s, rows) == ApplyRows(s, rows[..n])
  {
    if n < |rows| {
      assert rows[..|rows| - 1][..n] == rows[..n];
      RowsStop(s, rows[..|rows| - 1], n);
    } else {
      assert rows[..n] == rows;
    }
  }

  // ------------------------------------------------------------------------------- conservation

  /** The sizes emitted for an order. */
  function EmittedFor(fills: seq<FillEvent>, id: string): real {
    if fills == [] then 0.0
    else
      var n := |fills| - 1;
      EmittedFor(fills[..n], id) + if fills[n].clientOrderId == id then fills[n].size else 0.0
  }

  lemma EmittedAppend(fills: seq<FillEvent>, fill: FillEvent, id: string)
    ensures EmittedFor(fills + [fill], id)
         == EmittedFor(fills, id) + if fill.clientOrderId == id then fill.size else 0.0
  {
    assert (fills + [fill])[..|fills|] == fills;
  }

  /** The greatest cumulative size the rows report for an order that starts at `filled`. */
  function Peak(rows: seq<Row>, id: string, filled: real): real {
    if rows == [] then filled
    else
      var n := |rows| - 1;
      var before := Peak(rows[..n], id, filled);
      if UpdateOf(rows[n]).clientOrderId == id then Max(before, rows[n].filledSize) else before
  }

  /** What a row reports beyond the rows before it. */
  function Beyond(before: real, row: Row): real {
    Max(before, row.filledSize) - before
  }

  /** What is never emitted: the new part of the rows whose state is not a known one. */
  function Lost(rows: seq<Row>, id: string, filled: real): real {
    if rows == [] then 0.0
    else
      var n := |rows| - 1;
      var update := UpdateOf(rows[n]);
      Lost(rows[..n], id, filled)
      + if update.clientOrderId == id && update.status == Unknown
        then Beyond(Peak(rows[..n], id, filled), rows[n]) else 0.0
  }

  /** Row `i` is of an unknown state and reports a new filled size. */
  predicate Loses(rows: seq<Row>, id: string, filled: real, i: nat)
    requires i < |rows|
  {
    && UpdateOf(rows[i]).clientOrderId == id && UpdateOf(rows[i]).status == Unknown
    && rows[i].filledSize > Peak(rows[..i], id, filled)
  }

  lemma AcceptedUpdate(r: OrderRecord, u: OrderUpdate)
    requires TouchUpdate(r, u).outcome == Ok
    ensures var t := TouchUpdate(r, u).record;
      && t.status == u.status && t.filledSize == Max(r.filledSize, u.filledSize) && SameTerms(t, r)
  {
  }

  lemma EmittedSize(fills: seq<FillEvent>, s: OmsState, row: Row, record: OrderRecord, id: string)
    requires record.clientOrderId == UpdateOf(row).clientOrderId
    ensures var more := EmittedFor(fills + Emitted(s, row, record), id) - EmittedFor(fills, id);
      more == if record.clientOrderId == id && id in s.orders.at && record.status != Unknown
              then Max(record.filledSize - s.orders.at[id].filledSize, 0.0) else 0.0
  {
    hide EmittedFor, UpdateOf;
    var more := Emitted(s, row, record);
    if more == [] {
      assert fills + more == fills;
    } else {
      assert more == [more[0]];
      EmittedAppend(fills, more[0], id);
    }
  }

  /** One accepted row: it emits what it reports beyond the record, unless its state is unknown. */
  lemma RowEmits(t: Streamed, row: Row, id: string)
    requires t.outcome == Ok && WellKeyed(t.state) && id in t.state.orders.at && AfterRow(t, row).outcome == Ok
    ensures var after := AfterRow(t, row); var before := t.state.orders.at[id].filledSize;
      && WellKeyed(after.state) && id in after.state.orders.at
      && after.state.orders.at[id].filledSize
           == (if UpdateOf(row).clientOrderId == id then Max(before, row.filledSize) else before)
      && EmittedFor(after.report.fills, id) == EmittedFor(t.report.fills, id)
           + (if UpdateOf(row).clientOrderId == id && UpdateOf(row).status != Unknown then Beyond(before, row) else 0.0)
  {
    var u := UpdateOf(row);
    var op := RemoteUpdated(u);
    var key := u.clientOrderId;
    assert u.filledSize == row.filledSize;
    hide UpdateOf;
    StepWellKeyed(t.state, op);
    var after := AfterRow(t, row);
    EmittedSize(t.report.fills, t.state, row, after.state.orders.at[key], id);
    hide Emitted, EmittedFor;
    if key == id {
      AcceptedUpdate(t.state.orders.at[key], u);
    } else {
      StepElsewhere(t.state, op, id);
    }
  }

  /** Conservation: over rows that were all accepted, duplicated or out of order, an order's record ends at the
      greatest size reported, and what was emitted is its whole increase but for the part first reported by rows of
      unknown state. */
  lemma {:induction false} FillsAreConserved(s: OmsState, rows: seq<Row>, id: string)
    requires WellKeyed(s) && id in s.orders.at && ApplyRows(s, rows).outcome == Ok
    ensures var end := ApplyRows(s, rows); var filled := s.orders.at[id].filledSize;
      && WellKeyed(end.state) && id in end.state.orders.at
      && end.state.orders.at[id].filledSize == Peak(rows, id, filled)
      && EmittedFor(end.report.fills, id) == Peak(rows, id, filled) - filled - Lost(rows, id, filled)
  {
    if rows != [] {
      var n := |rows| - 1;
      FillsAreConserved(s, rows[..n], id);
      RowEmits(ApplyRows(s, rows[..n]), rows[n], id);
      hide AfterRow, EmittedFor, WellKeyed, UpdateOf;
    }
  }

  lemma LostStep(rows: seq<Row>, id: string, filled: real)
    requires rows != []
    ensures var n := |rows| - 1; var more := Lost(rows, id, filled) - Lost(rows[..n], id, filled);
      more >= 0.0 && (more > 0.0 <==> Loses(rows, id, filled, n))
  {
    hide UpdateOf, Peak;
  }

  lemma LosesPrefix(rows: seq<Row>, id: string, filled: real, n: nat, i: nat)
    requires i < n <= |rows|
    ensures Loses(rows, id, filled, i) == Loses(rows[..n], id, filled, i)
  {
    hide UpdateOf, Peak;
    assert rows[..n][..i] == rows[..i];
  }

  lemma {:induction false} LostMeans(rows: seq<Row>, id: string, filled: real)
    ensures Lost(rows, id, filled) >= 0.0
    ensures Lost(rows, id, filled) == 0.0 <==> forall i: nat | i < |rows| :: !Loses(rows, id, filled, i)
  {
    if rows != [] {
      var n := |rows| - 1;
      LostMeans(rows[..n], id, filled);
      LostStep(rows, id, filled);
      hide Lost, Loses;
      forall i: nat | i < n
        ensures Loses(rows, id, filled, i) == Loses(rows[..n], id, filled, i)
      {
        LosesPrefix(rows, id, filled, n, i);
      }
      if Lost(rows, id, filled) != 0.0 && !Loses(rows, id, filled, n) {
        var i: nat :| i < n && Loses(rows[..n], id, filled, i);
        assert Loses(rows, id, filled, i);
      }
    }
  }

  // ------------------------------------------------------------------------------- messages

  /** The rows a call has handled: all of them, or those up to the one that raises. */
  function Handled(s: OmsState, rows: seq<Row>): seq<Row> {
    if rows == [] then []
    else
      var init := rows[..|rows| - 1];
      if ApplyRows(s, init).outcome.Raised? then Handled(s, init) else rows
  }

  /** A row raises exactly when its order is known and cannot take its status. */
  lemma RowRefusedExactly(t: Streamed, row: Row)
    requires t.outcome == Ok
    ensures var u := UpdateOf(row);
      AfterRow(t, row).outcome.Raised?
      <==> u.clientOrderId in t.state.orders.at
           && !CanTransition(t.state.orders.at[u.clientOrderId].status, u.status)
  {
    hide UpdateOf, TouchUpdate, Emitted;
    var u := UpdateOf(row);
    if u.clientOrderId in t.state.orders.at {
      UpdateRefusedExactly(t.state.orders.at[u.clientOrderId], u);
    }
  }

  /** A row writes the filled size whether or not it is refused. */
  lemma RowFills(t: Streamed, row: Row, id: string)
    requires t.outcome == Ok && id in t.state.orders.at
    ensures var after := AfterRow(t, row); var before := t.state.orders.at[id].filledSize;
      && id in after.state.orders.at
      && after.state.orders.at[id].filledSize
           == if UpdateOf(row).clientOrderId == id then Max(before, row.filledSize) else before
  {
    hide Emitted;
    assert UpdateOf(row).filledSize == row.filledSize;
    hide UpdateOf;
    StepElsewhereOrSame(t.state, RemoteUpdated(UpdateOf(row)), id);
  }

  lemma StepElsewhereOrSame(s: OmsState, op: Op, id: string)
    ensures OpId(op) == id || (id in s.orders.at ==>
      id in ApplyOp(s, op).state.orders.at && ApplyOp(s, op).state.orders.at[id] == s.orders.at[id])
  {
    hide ApplyOp;
    if OpId(op) != id {
      StepElsewhere(s, op, id);
    }
  }

  /** However a call ends, a record's filled size is the greatest that the handled rows reported. */
  lemma {:induction false} FilledIsPeak(s: OmsState, rows: seq<Row>, id: string)
    requires id in s.orders.at
    ensures var end := ApplyRows(s, rows).state;
      && id in end.orders.at
      && end.orders.at[id].filledSize == Peak(Handled(s, rows), id, s.orders.at[id].filledSize)
  {
    hide AfterRow, UpdateOf;
    if rows != [] {
      var init := rows[..|rows| - 1];
      FilledIsPeak(s, init, id);
      var before := ApplyRows(s, init);
      if before.outcome == Ok {
        AllHandled(s, init);
        RowFills(before, rows[|rows| - 1], id);
      }
    }
  }

  lemma AllHandled(s: OmsState, rows: seq<Row>)
    requires ApplyRows(s, rows).outcome == Ok
    ensures Handled(s, rows) == rows
  {
  }

  /** What a run of messages leaves: the state, and the fills of the messages that returned; the report of a message
      that raises is gone with the exception. */
  datatype Delivered = Delivered(state: OmsState, fills: seq<FillEvent>)

  function RunMessages(s: OmsState, messages: seq<seq<Row>>): Delivered {
    if messages == [] then Delivered(s, [])
    else
      var n := |messages| - 1;
      var before := RunMessages(s, messages[..n]);
      var t := ApplyRows(before.state, messages[n]);
      Delivered(t.state, before.fills + if t.outcome == Ok then t.report.fills else [])
  }

  /** The part of an order's increase that one message never emits: what its rows of unknown state were first to report,
      or, when it raises, everything its handled rows wrote. */
  function MissedBy(s: OmsState, rows: seq<Row>, id: string): real {
    if id !in s.orders.at then 0.0
    else
      var filled := s.orders.at[id].filledSize;
      if ApplyRows(s, rows).outcome == Ok then Lost(rows, id, filled) else Peak(Handled(s, rows), id, filled) - filled
  }

  function Missed(s: OmsState, messages: seq<seq<Row>>, id: string): real {
    if messages == [] then 0.0
    else
      var n := |messages| - 1;
      Missed(s, messages[..n], id) + MissedBy(RunMessages(s, messages[..n]).state, messages[n], id)
  }

  lemma {:induction false} EmittedConcat(a: seq<FillEvent>, b: seq<FillEvent>, id: string)
    ensures EmittedFor(a + b, id) == EmittedFor(a, id) + EmittedFor(b, id)
  {
    if b == [] {
      assert a + b == a;
    } else {
      var n := |b| - 1;
      assert (a + b)[..|a + b| - 1] == a + b[..n];
      EmittedConcat(a, b[..n], id);
    }
  }

  lemma MessageConserved(s: OmsState, rows: seq<Row>, id: string)
    requires WellKeyed(s) && id in s.orders.at
    ensures var t := ApplyRows(s, rows); var fills := if t.outcome == Ok then t.report.fills else [];
      && WellKeyed(t.state) && id in t.state.orders.at
      && EmittedFor(fills, id) == t.state.orders.at[id].filledSize - s.orders.at[id].filledSize - MissedBy(s, rows, id)
  {
    hide ApplyRows, Lost, Peak, WellKeyed, Handled;
    StreamKeepsTerms(s, rows, id);
    FilledIsPeak(s, rows, id);
    if ApplyRows(s, rows).outcome == Ok {
      FillsAreConserved(s, rows, id);
    } else {
      assert EmittedFor([], id) == 0.0;
    }
  }

  /** Conservation over any messages, in any order, duplicated or refused: an order's emitted fills are its whole
      increase less what was missed. */
  lemma {:induction false} MessagesConserved(s: OmsState, messages: seq<seq<Row>>, id: string)
    requires WellKeyed(s) && id in s.orders.at
    ensures var end := RunMessages(s, messages);
      && WellKeyed(end.state) && id in end.state.orders.at
      && EmittedFor(end.fills, id)
           == end.state.orders.at[id].filledSize - s.orders.at[id].filledSize - Missed(s, messages, id)
  {
    hide ApplyRows, MissedBy, EmittedFor, WellKeyed;
    if messages == [] {
      NothingEmitted(id);
    } else {
      var n := |messages| - 1;
      MessagesConserved(s, messages[..n], id);
      var before := RunMessages(s, messages[..n]);
      MessageConserved(before.state, messages[n], id);
      var t := ApplyRows(before.state, messages[n]);
      EmittedConcat(before.fills, if t.outcome == Ok then t.report.fills else [], id);
    }
  }

  lemma NothingEmitted(id: string)
    ensures EmittedFor([], id) == 0.0
  {
  }

  /** Row `i` reports more for the order than it had before the message. */
  predicate Raises(rows: seq<Row>, id: string, filled: real, i: nat)
    requires i < |rows|
  {
    UpdateOf(rows[i]).clientOrderId == id && rows[i].filledSize > filled
  }

  /** A message misses fills of the order: it returns, and a row of unknown state was first to report a larger size; or
      it raises, and one of the rows it handled reported a larger size. */
  ghost predicate Misses(s: OmsState, rows: seq<Row>, id: string) {
    && id in s.orders.at
    && var filled := s.orders.at[id].filledSize;
    if ApplyRows(s, rows).outcome == Ok then exists i: nat | i < |rows| :: Loses(rows, id, filled, i)
    else exists i: nat | i < |Handled(s, rows)| :: Raises(Handled(s, rows), id, filled, i)
  }

  lemma {:induction false} PeakMeans(rows: seq<Row>, id: string, filled: real)
    ensures Peak(rows, id, filled) >= filled
    ensures Peak(rows, id, filled) > filled <==> exists i: nat | i < |rows| :: Raises(rows, id, filled, i)
  {
    hide UpdateOf;
    if rows != [] {
      var n := |rows| - 1;
      var init := rows[..n];
      PeakMeans(init, id, filled);
      forall i: nat | i < n
        ensures Raises(rows, id, filled, i) == Raises(init, id, filled, i)
      {
      }
      if Peak(init, id, filled) > filled {
        var i: nat :| i < n && Raises(init, id, filled, i);
        assert Raises(rows, id, filled, i);
      } else {
        assert Peak(rows, id, filled) > filled <==> Raises(rows, id, filled, n);
      }
    }
  }

  lemma MissedMeans(s: OmsState, rows: seq<Row>, id: string)
    ensures MissedBy(s, rows, id) >= 0.0
    ensures MissedBy(s, rows, id) > 0.0 <==> Misses(s, rows, id)
  {
    hide ApplyRows, Lost, Peak, Handled, Loses, Raises;
    if id in s.orders.at {
      LostMeans(rows, id, s.orders.at[id].filledSize);
      PeakMeans(Handled(s, rows), id, s.orders.at[id].filledSize);
    }
  }

  ghost predicate MissesAt(s: OmsState, messages: seq<seq<Row>>, id: string, k: nat)
    requires k < |messages|
  {
    Misses(RunMessages(s, messages[..k]).state, messages[k], id)
  }

  lemma MissesPrefix(s: OmsState, messages: seq<seq<Row>>, id: string, n: nat, k: nat)
    requires k < n <= |messages|
    ensures MissesAt(s, messages, id, k) == MissesAt(s, messages[..n], id, k)
  {
    hide RunMessages, Misses;
    assert messages[..n][..k] == messages[..k];
  }

  lemma MissedStep(s: OmsState, messages: seq<seq<Row>>, id: string)
    requires messages != []
    ensures var n := |messages| - 1; var more := Missed(s, messages, id) - Missed(s, messages[..n], id);
      more >= 0.0 && (more > 0.0 <==> MissesAt(s, messages, id, n))
  {
    hide ApplyRows, MissedBy, Misses;
    var n := |messages| - 1;
    MissedMeans(RunMessages(s, messages[..n]).state, messages[n], id);
  }

  lemma {:induction false} MissedSum(s: OmsState, messages: seq<seq<Row>>, id: string)
    ensures Missed(s, messages, id) >= 0.0
    ensures Missed(s, messages, id) == 0.0 <==> forall k: nat | k < |messages| :: !MissesAt(s, messages, id, k)
  {
    hide MissesAt, MissedBy, RunMessages;
    if messages != [] {
      var n := |messages| - 1;
      MissedSum(s, messages[..n], id);
      MissedStep(s, messages, id);
      forall k: nat | k < n
        ensures MissesAt(s, messages, id, k) == MissesAt(s, messages[..n], id, k)
      {
        MissesPrefix(s, messages, id, n, k);
      }
      if Missed(s, messages, id) != 0.0 && !MissesAt(s, messages, id, n) {
        var k: nat :| k < n && MissesAt(s, messages[..n], id, k);
        assert MissesAt(s, messages, id, k);
      }
    }
  }

  /** Over any messages the emitted sizes add up to the increase of the order's filled size exactly when no message
      misses fills of it: none that returns has a row of unknown state that was first to report a larger size, and none
      that raises handled a row that reported a larger size. */
  lemma ConservedExactly(s: OmsState, messages: seq<seq<Row>>, id: string)
    requires WellKeyed(s) && id in s.orders.at
    ensures id in RunMessages(s, messages).state.orders.at
    ensures var end := RunMessages(s, messages);
      EmittedFor(end.fills, id) == end.state.orders.at[id].filledSize - s.orders.at[id].filledSize
      <==> forall k: nat | k < |messages| :: !MissesAt(s, messages, id, k)
  {
    hide RunMessages, Missed, MissesAt;
    MessagesConserved(s, messages, id);
    MissedSum(s, messages, id);
  }

  /** The manager holds one order. */
  function SingleOrder(r: OrderRecord, saved: seq<OrderRecord>): OmsState {
    OmsState(Put(Empty(), r.clientOrderId, r), saved)
  }

  /** A message of one row about that order, which emits nothing unless it raises the filled size of a known state. */
  lemma OneRow(r: OrderRecord, saved: seq<OrderRecord>, row: Row)
    requires UpdateOf(row).clientOrderId == r.clientOrderId
    ensures var t := TouchUpdate(r, UpdateOf(row)); var end := ApplyRows(SingleOrder(r, saved), [row]);
      && end.outcome == t.outcome
      && (t.record.clientOrderId == r.clientOrderId ==> end.state == SingleOrder(t.record, saved + t.saved))
      && (t.record.filledSize <= r.filledSize || t.record.status == Unknown ==> end.report.fills == [])
  {
    hide UpdateOf, TouchUpdate, FillFrom;
    var s := SingleOrder(r, saved);
    assert [row][..0] == [];
    assert ApplyRows(s, []) == Streamed(s, Report(0, 0, 0, []), Ok);
  }

  lemma TwoMessages(s: OmsState, a: seq<Row>, b: seq<Row>)
    requires var t := ApplyRows(s, a); t.outcome == Ok ==> t.report.fills == []
    requires var u := ApplyRows(ApplyRows(s, a).state, b); u.outcome == Ok ==> u.report.fills == []
    ensures RunMessages(s, [a, b]) == Delivered(ApplyRows(ApplyRows(s, a).state, b).state, [])
  {
    hide ApplyRows;
    assert [a, b][..1] == [a] && [a][..0] == [];
    assert RunMessages(s, [a]) == Delivered(ApplyRows(s, a).state, []);
  }

  lemma OwnUpdate(row: Row)
    requires row.clientOrderId != ""
    ensures UpdateOf(row) == ParseRow(row)
  {
  }

  lemma SomeStatuses()
    ensures StatusOf("partially_filled") == PartiallyFilled && StatusOf("partially_canceled") == PartiallyCanceled
    ensures StatusOf("suspended") == Unknown
    ensures CanTransition(Open, Unknown) && CanTransition(Unknown, PartiallyFilled)
    ensures !CanTransition(Canceling, PartiallyFilled) && CanTransition(Canceling, PartiallyCanceled)
  {
  }

  lemma UpdateTouches(r: OrderRecord, update: OrderUpdate)
    ensures var t := TouchUpdate(r, update); var moves := CanTransition(r.status, update.status);
      && t.record.clientOrderId == r.clientOrderId && t.record.filledSize == Max(r.filledSize, update.filledSize)
      && t.record.status == (if moves then update.status else r.status)
      && t.saved == (if moves then [t.record] else []) && t.outcome == (if moves then Ok else Raised(OrderStateError))
  {
  }

  /** A row of a state the processor does not know reports a fill first: it is swallowed, whatever follows. */
  lemma SwallowedByUnknown()
    returns (s: OmsState, messages: seq<seq<Row>>)
    ensures WellKeyed(s) && "a" in s.orders.at && s.orders.at["a"].filledSize == 0.0
    ensures var end := RunMessages(s, messages);
      && "a" in end.state.orders.at && end.state.orders.at["a"].status == PartiallyFilled
      && end.state.orders.at["a"].filledSize == 3.0 && end.fills == []
  {
    hide ApplyRows, RunMessages, UpdateOf, StatusOf, TouchUpdate, CanTransition, OrId, OrPrice;
    SomeStatuses();
    var r := OrderRecord("X", Buy, Some(5.0), 4.0, "limit", "a", "maker", Some(1), Open, None, 0.0, None);
    var odd := Row("X", "a", "1", "suspended", 3.0, None, None, 0.0, "Q");
    var known := Row("X", "a", "1", "partially_filled", 3.0, None, None, 0.0, "Q");
    s, messages := SingleOrder(r, [r]), [[odd], [known]];
    OwnUpdate(odd);
    OwnUpdate(known);
    OneRow(r, [r], odd);
    UpdateTouches(r, UpdateOf(odd));
    var written := TouchUpdate(r, UpdateOf(odd)).record;
    UpdateTouches(written, UpdateOf(known));
    OneRow(written, [r] + [written], known);
    TwoMessages(s, [odd], [known]);
  }

  /** A partial fill reported while a cancel is pending is refused, and swallowed: the next message finds it written. */
  lemma SwallowedByRefusal()
    returns (s: OmsState, messages: seq<seq<Row>>)
    ensures WellKeyed(s) && "a" in s.orders.at && s.orders.at["a"].filledSize == 0.0
    ensures forall k, i | 0 <= k < |messages| && 0 <= i < |messages[k]| :: UpdateOf(messages[k][i]).status != Unknown
    ensures var end := RunMessages(s, messages);
      && "a" in end.state.orders.at && end.state.orders.at["a"].status == PartiallyCanceled
      && end.state.orders.at["a"].filledSize == 3.0 && end.fills == []
  {
    hide ApplyRows, RunMessages, UpdateOf, StatusOf, TouchUpdate, CanTransition, OrId, OrPrice;
    SomeStatuses();
    var r := OrderRecord("X", Buy, Some(5.0), 4.0, "limit", "a", "maker", Some(1), Canceling, None, 0.0, None);
    var refused := Row("X", "a", "1", "partially_filled", 3.0, None, None, 0.0, "Q");
    var ended := Row("X", "a", "1", "partially_canceled", 3.0, None, None, 0.0, "Q");
    s, messages := SingleOrder(r, [r]), [[refused], [ended]];
    OwnUpdate(refused);
    OwnUpdate(ended);
    OneRow(r, [r], refused);
    UpdateTouches(r, UpdateOf(refused));
    var written := TouchUpdate(r, UpdateOf(refused)).record;
    UpdateTouches(written, UpdateOf(ended));
    OneRow(written, [r] + [], ended);
    TwoMessages(s, [refused], [ended]);
  }

  /** Every emitted fill has a positive size, also when the call ends in an exception. */
  lemma {:induction false} EmittedArePositive(s: OmsState, rows: seq<Row>)
    ensures forall f | f in ApplyRows(s, rows).report.fills :: f.size > 0.0
  {
    hide ApplyOp, UpdateOf;
    if rows != [] {
      EmittedArePositive(s, rows[..|rows| - 1]);
    }
  }

  lemma {:induction false} StreamKeepsTerms(s: OmsState, rows: seq<Row>, id: string)
    requires WellKeyed(s)
    ensures WellKeyed(ApplyRows(s, rows).state)
    ensures id in s.orders.at ==>
      id in ApplyRows(s, rows).state.orders.at && SameTerms(ApplyRows(s, rows).state.orders.at[id], s.orders.at[id])
  {
    hide TouchRecord, NewRecord, UpdateOf;
    if rows != [] {
      var n := |rows| - 1;
      StreamKeepsTerms(s, rows[..n], id);
      var before := ApplyRows(s, rows[..n]);
      var op := RemoteUpdated(UpdateOf(rows[n]));
      if before.outcome == Ok {
        StepWellKeyed(before.state, op);
        if OpId(op) != id {
          StepElsewhere(before.state, op, id);
        } else if id in before.state.orders.at {
          TouchFacts(before.state.orders.at[id], op);
        }
      }
    }
  }

  /** A fill speaks of its row's order, with the row's fee and price, and the side and symbol of an order known
      before. */
  predicate FillMatches(f: FillEvent, row: Row, s: OmsState) {
    && f.clientOrderId == UpdateOf(row).clientOrderId && f.fee == row.fee && f.feeCurrency == row.feeCurrency
    && (row.price.Some? && row.price.value != 0.0 ==> f.price == row.price.value)
    && (f.clientOrderId in s.orders.at ==>
          var r := s.orders.at[f.clientOrderId]; f.side == r.side && (r.symbol != "" ==> f.symbol == r.symbol))
  }

  lemma FillFromMatches(s: OmsState, t: OmsState, row: Row, record: OrderRecord, f: FillEvent)
    requires f in Emitted(t, row, record) && record.clientOrderId == UpdateOf(row).clientOrderId
    requires record.clientOrderId in s.orders.at ==> SameTerms(record, s.orders.at[record.clientOrderId])
    ensures FillMatches(f, row, s)
  {
    assert UpdateOf(row).avgFillPrice == row.price;
    hide UpdateOf;
  }

  /** Every emitted fill comes from one of the rows. */
  lemma {:induction false} EmittedFillsMatchRows(s: OmsState, rows: seq<Row>)
    requires WellKeyed(s)
    ensures forall f | f in ApplyRows(s, rows).report.fills :: exists row :: row in rows && FillMatches(f, row, s)
  {
    hide ApplyOp, UpdateOf, Emitted, FillMatches;
    if rows != [] {
      var n := |rows| - 1;
      EmittedFillsMatchRows(s, rows[..n]);
      assert forall row | row in rows[..n] :: row in rows;
      assert rows[n] in rows;
      var before := ApplyRows(s, rows[..n]);
      var after := ApplyRows(s, rows);
      if after.outcome == Ok {
        var update := UpdateOf(rows[n]);
        var id := update.clientOrderId;
        AppliedHolds(before.state, update);
        var record := after.state.orders.at[id];
        StreamKeepsTerms(s, rows, id);
        forall f | f in Emitted(before.state, rows[n], record)
          ensures FillMatches(f, rows[n], s)
        {
          FillFromMatches(s, before.state, rows[n], record, f);
        }
      }
    }
  }

  /** Delivering an accepted row again at once is accepted and emits no fill; it changes nothing, unless the row had
      just created an orphan, which then takes the reported status. */
  lemma RedeliveryEmitsNothing(t: Streamed, row: Row)
    requires t.outcome == Ok && AfterRow(t, row).outcome == Ok
    ensures var once := AfterRow(t, row); var twice := AfterRow(once, row);
      && twice.outcome == Ok && twice.report.fills == once.report.fills
      && twice.report.orphanOrders == once.report.orphanOrders
      && (UpdateOf(row).clientOrderId in t.state.orders.at ==> twice.state.orders == once.state.orders)
  {
    var u := UpdateOf(row);
    var key := u.clientOrderId;
    if key in t.state.orders.at {
      AcceptedUpdate(t.state.orders.at[key], u);
      PutSame(AfterRow(t, row).state.orders, key);
    }
    hide UpdateOf;
  }

  // ------------------------------------------------------------------------------- one row, exactly

  /** The states the exchange sends for a status. */
  function StatesFor(status: OrderStatus): set<string> {
    match status
    case Open => {"new", "4"}
    case PartiallyFilled => {"partially_filled", "5"}
    case Filled => {"filled", "6"}
    case Canceled => {"canceled", "8"}
    case PartiallyCanceled => {"partially_canceled", "12"}
    case _ => {}
  }

  /** A row without a client id is filed as UNKNOWN under its exchange id; any other has the status its state stands
      for, and UNKNOWN if it stands for none. */
  lemma RowExactly(row: Row)
    ensures var u := UpdateOf(row); var unnamed := row.clientOrderId == "" && row.orderId != "";
      && u.symbol == row.symbol && u.exchangeOrderId == Some(row.orderId) && u.filledSize == row.filledSize
      && u.avgFillPrice == row.price && u.side == row.side
      && u.clientOrderId == (if unnamed then "exchange:" + row.orderId else row.clientOrderId)
      && (unnamed ==> u.status == Unknown)
      && (!unnamed ==> forall status | status != Unknown :: u.status == status <==> row.orderState in StatesFor(status))
  {
  }

  /** The fill for what a row added: at the price the row reports, or else the order's average or limit price. */
  predicate FillFor(f: FillEvent, row: Row, record: OrderRecord, added: real) {
    && f.clientOrderId == record.clientOrderId && f.side == record.side && f.size == added
    && f.fee == row.fee && f.feeCurrency == row.feeCurrency
    && f.symbol == (if record.symbol == "" then row.symbol else record.symbol)
    && (if record.exchangeOrderId == None || record.exchangeOrderId == Some("") then
          f.exchangeOrderId == Some(row.orderId)
        else f.exchangeOrderId == record.exchangeOrderId)
    && (if row.price != None && row.price != Some(0.0) then Some(f.price) == row.price
        else if record.avgFillPrice != None && record.avgFillPrice != Some(0.0) then
          Some(f.price) == record.avgFillPrice
        else f.price == if record.price == None then 0.0 else record.price.value)
  }

  /** A row emits a fill exactly when its order was known, now has more filled, and has a known status. */
  lemma EmittedExactly(s: OmsState, row: Row, record: OrderRecord)
    ensures var id, fills := UpdateOf(row).clientOrderId, Emitted(s, row, record);
      if id !in s.orders.at || record.filledSize <= s.orders.at[id].filledSize || record.status == Unknown then
        fills == []
      else |fills| == 1 && FillFor(fills[0], row, record, record.filledSize - s.orders.at[id].filledSize)
  {
    hide UpdateOf;
    RowExactly(row);
  }

  /** The order of row `k` is UNKNOWN after it. */
  predicate LeftUnknown(s: OmsState, rows: seq<Row>, k: nat)
    requires k < |rows|
  {
    var end, id := ApplyRows(s, rows[..k + 1]).state, UpdateOf(rows[k]).clientOrderId;
    id in end.orders.at && end.orders.at[id].status == Unknown
  }

  ghost function UnknownRows(s: OmsState, rows: seq<Row>): set<nat> {
    set k: nat | k < |rows| && LeftUnknown(s, rows, k)
  }

  lemma UnknownRowsStep(s: OmsState, rows: seq<Row>)
    requires rows != []
    ensures var n := |rows| - 1; var before, all := UnknownRows(s, rows[..n]), UnknownRows(s, rows);
      n !in before && all == if LeftUnknown(s, rows, n) then before + {n} else before
  {
    hide LeftUnknown;
    var n := |rows| - 1;
    forall k: nat | k < n
      ensures LeftUnknown(s, rows[..n], k) == LeftUnknown(s, rows, k)
    {
      PrefixLeaves(s, rows, n, k);
    }
  }

  lemma PrefixLeaves(s: OmsState, rows: seq<Row>, n: nat, k: nat)
    requires k < n <= |rows|
    ensures LeftUnknown(s, rows[..n], k) == LeftUnknown(s, rows, k)
  {
    hide ApplyRows;
    assert rows[..n][..k + 1] == rows[..k + 1];
  }

  lemma NewKeys(a: set<string>, b: set<string>, x: string)
    requires a <= b
    ensures |b + {x} - a| == |b - a| + if x in b then 0 else 1
  {
    if x in b {
      assert b + {x} == b;
    } else {
      assert b + {x} - a == (b - a) + {x};
    }
  }

  /** What one more row adds to the state and the report. */
  lemma RowCounts(t: Streamed, row: Row)
    requires t.outcome == Ok && AfterRow(t, row).outcome == Ok
    ensures var end, id := AfterRow(t, row), UpdateOf(row).clientOrderId;
      && end.state.orders.at.Keys == t.state.orders.at.Keys + {id} && id in end.state.orders.at
      && end.report.orderUpdates == t.report.orderUpdates + 1
      && end.report.orphanOrders == t.report.orphanOrders + (if id in t.state.orders.at then 0 else 1)
      && end.report.unknownOrders
           == t.report.unknownOrders + (if end.state.orders.at[id].status == Unknown then 1 else 0)
  {
    hide UpdateOf, ApplyOp, Emitted;
    RowAdds(t.state, UpdateOf(row));
  }

  /** The report of a call that returns counts the rows, the orders it created, and the rows that left their order
      UNKNOWN. */
  lemma {:induction false} ReportCounts(s: OmsState, rows: seq<Row>)
    requires ApplyRows(s, rows).outcome == Ok
    ensures var t := ApplyRows(s, rows);
      && s.orders.at.Keys <= t.state.orders.at.Keys
      && t.report.orderUpdates == |rows|
      && t.report.orphanOrders == |t.state.orders.at.Keys - s.orders.at.Keys|
      && t.report.unknownOrders == |UnknownRows(s, rows)|
  {
    hide UpdateOf, AfterRow, UnknownRows;
    if rows == [] {
      NothingUnknown(s);
    } else {
      var n := |rows| - 1;
      ReportCounts(s, rows[..n]);
      var before := ApplyRows(s, rows[..n]);
      RowCounts(before, rows[n]);
      NewKeys(s.orders.at.Keys, before.state.orders.at.Keys, UpdateOf(rows[n]).clientOrderId);
      UnknownRowsStep(s, rows);
      assert rows[..n + 1] == rows;
    }
  }

  lemma NothingUnknown(s: OmsState)
    ensures UnknownRows(s, []) == {}
  {
  }

  lemma RowAdds(s: OmsState, update: OrderUpdate)
    ensures ApplyOp(s, RemoteUpdated(update)).state.orders.at.Keys == s.orders.at.Keys + {update.clientOrderId}
  {
  }
}
