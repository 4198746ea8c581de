/** The order store as a keyed list of rows (JsonOrderStore in src/mm/persistence/order_store.py). */
module Store {
  import opened Dicts
  import opened Types

  /** Reading a row back: `from_dict` turns an empty exchange id into `None`. */
  function FromRow(row: OrderRecord): OrderRecord {
    row.(exchangeOrderId := OrId(row.exchangeOrderId, None))
  }

  /** `{order.client_order_id: order for order in records}` */
  function IndexById(records: seq<OrderRecord>): Dict<string, OrderRecord> {
    if records == [] then Empty()
    else
      var last := records[|records| - 1];
      Put(IndexById(records[..|records| - 1]), last.clientOrderId, last)
  }

  function LoadRows(rows: seq<OrderRecord>): seq<OrderRecord> {
    if rows == [] then [] else LoadRows(rows[..|rows| - 1]) + [FromRow(rows[|rows| - 1])]
  }

  /** The rows after `save_order(order)`. */
  function SaveRow(rows: seq<OrderRecord>, order: OrderRecord): seq<OrderRecord> {
    var d := Put(IndexById(LoadRows(rows)), order.clientOrderId, order);
    Values(d.keys, d.at)
  }

  function SaveRows(rows: seq<OrderRecord>, orders: seq<OrderRecord>): seq<OrderRecord> {
    if orders == [] then rows
    else SaveRow(SaveRows(rows, orders[..|orders| - 1]), orders[|orders| - 1])
  }

  lemma SaveAppend(rows: seq<OrderRecord>, orders: seq<OrderRecord>, a: OrderRecord)
    ensures SaveRows(rows, orders + [a]) == SaveRow(SaveRows(rows, orders), a)
  {
    assert (orders + [a])[..|orders|] == orders;
  }

  class JsonOrderStore {
    var rows: seq<OrderRecord>

    constructor ()
      ensures rows == []
    {
      rows := [];
    }

    method Load() returns (records: seq<OrderRecord>)
      ensures records == LoadRows(rows)
    {
      records := [];
      for i := 0 to |rows|
        invariant records == LoadRows(rows[..i])
      {
        assert rows[..i + 1][..i] == rows[..i];
        records := records + [FromRow(rows[i])];
      }
      assert rows[..|rows|] == rows;
    }

    method Save(orders: seq<OrderRecord>)
      modifies this
      ensures rows == orders
    {
      rows := orders;
    }

    method SaveOrder(order: OrderRecord)
      modifies this
      ensures rows == SaveRow(old(rows), order)
    {
      var loaded := Load();
      var orders: Dict<string, OrderRecord> := Empty();
      for i := 0 to |loaded|
        invariant orders == IndexById(loaded[..i])
      {
        assert loaded[..i + 1][..i] == loaded[..i];
        orders := Put(orders, loaded[i].clientOrderId, loaded[i]);
      }
      assert loaded[..|loaded|] == loaded;
      orders := Put(orders, order.clientOrderId, order);
      Save(Values(orders.keys, orders.at));
    }
  }
}
