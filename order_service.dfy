/**
 * The order orchestrator (`createOrder` in src/services/orderService.js):
 * inside one database transaction it checks that the order id is new, asks
 * the carrier gateway for a shipment, inserts the order row and then one
 * row per item, and commits; any error rolls the transaction back and is
 * rethrown, and the connection is released on every path.
 *
 * The two tables are the fields of a `Store`; the transaction works on a
 * copy of them that is written back on COMMIT and dropped on ROLLBACK.
 * Which INSERT statements fail is given as `insertFails`, where
 * `insertFails(0)` is the error (if any) of the order-row INSERT and
 * `insertFails(i + 1)` that of the INSERT of item i.
 */
module OrderService {
  import opened Wrappers
  import opened JsValues
  import opened JsStrings
  import opened Retry
  import opened ShipmentService

  /**
   * A row of `shipment_orders`: the request's fields under their own
   * names, the shipment columns, and the insert time in `created_at` and
   * `updated_at`.
   */
  datatype OrderRow = OrderRow(
    order_id: Js,
    order_created_time: Js,
    pickup_location: Js,
    customer_name: Js,
    customer_address_line1: Js,
    customer_address_line2: Js,
    customer_pincode: Js,
    customer_city: Js,
    customer_state: Js,
    customer_country: Js,
    customer_phone: Js,
    customer_email: Js,
    invoice_value: Js,
    dimensions: Js,
    marketplace: Js,
    order_type: Js,
    cod_amount: Js,
    gst_total_tax: Js,
    tax_percentage: Js,
    invoice_number: Js,
    order_note: Js,
    order_mode: Js,
    shipment_api_response: ShipmentResult,
    shipment_id: Js,
    shipment_status: Js,
    created_at: int,
    updated_at: int)

  /** A row of `order_items`. */
  datatype ItemRow = ItemRow(
    order_id: Js, sku: Js, sku_mrp: Js, quantity: Js, sku_name: Js,
    brand_name: Js, product_image: Js)

  /** The statements the transaction sends on its connection, and the release of the connection. */
  datatype Statement =
    | Begin
    | SelectExisting(orderId: Js)
    | InsertOrder(row: OrderRow)
    | InsertItem(item: ItemRow)
    | Commit
    | Rollback
    | Release

  /** The value `createOrder` returns. */
  datatype Created = Created(message: string, order: OrderRow, shipmentResult: ShipmentResult)

  /** The `shipment_id` and `shipment_status` columns. */
  datatype ShipmentColumns = ShipmentColumns(shipmentId: Js, shipmentStatus: Js)

  /**
   * The shipment columns derived from the gateway's result: with a
   * successful result carrying a truthy body, the id is the first truthy
   * of the body's `shipment_id` and `order_id` (else null) and the status
   * the body's `status` unless falsy (else "created"); otherwise the order
   * is recorded with no id and status "pending".
   */
  function ShipmentColumnsOf(result: ShipmentResult): (c: ShipmentColumns)
    ensures !(result.Succeeded? && Truthy(result.data)) ==> c == ShipmentColumns(Null, Str("pending"))
    ensures result.Succeeded? && Truthy(result.data) ==>
      var body := result.data;
      && (Truthy(Get(body, "shipment_id")) ==> c.shipmentId == Get(body, "shipment_id"))
      && (!Truthy(Get(body, "shipment_id")) && Truthy(Get(body, "order_id")) ==> c.shipmentId == Get(body, "order_id"))
      && (!Truthy(Get(body, "shipment_id")) && !Truthy(Get(body, "order_id")) ==> c.shipmentId == Null)
      && (Truthy(Get(body, "status")) ==> c.shipmentStatus == Get(body, "status"))
      && (!Truthy(Get(body, "status")) ==> c.shipmentStatus == Str("created"))
    ensures c.shipmentId == Null || Truthy(c.shipmentId)
    ensures Truthy(c.shipmentStatus)
  {
    if result.Succeeded? && Truthy(result.data) then
      ShipmentColumns(
        Or(Get(result.data, "shipment_id"), Or(Get(result.data, "order_id"), Null)),
        Or(Get(result.data, "status"), Str("created")))
    else ShipmentColumns(Null, Str("pending"))
  }

  /**
   * The order row inserted for `order`: every request column holds the
   * request's field of the same name, `shipment_api_response` the
   * gateway's result, the shipment columns as derived from it, and both
   * timestamps the insert time.
   */
  function OrderRowOf(order: JsObject, result: ShipmentResult, now: int): (row: OrderRow)
    ensures row.order_id == Field(order, "order_id")
    ensures row.order_created_time == Field(order, "order_created_time")
    ensures row.pickup_location == Field(order, "pickup_location")
    ensures row.customer_name == Field(order, "customer_name")
    ensures row.customer_address_line1 == Field(order, "customer_address_line1")
    ensures row.customer_address_line2 == Field(order, "customer_address_line2")
    ensures row.customer_pincode == Field(order, "customer_pincode")
    ensures row.customer_city == Field(order, "customer_city")
    ensures row.customer_state == Field(order, "customer_state")
    ensures row.customer_country == Field(order, "customer_country")
    ensures row.customer_phone == Field(order, "customer_phone")
    ensures row.customer_email == Field(order, "customer_email")
    ensures row.invoice_value == Field(order, "invoice_value")
    ensures row.dimensions == Field(order, "dimensions")
    ensures row.marketplace == Field(order, "marketplace")
    ensures row.order_type == Field(order, "order_type")
    ensures row.cod_amount == Field(order, "cod_amount")
    ensures row.gst_total_tax == Field(order, "gst_total_tax")
    ensures row.tax_percentage == Field(order, "tax_percentage")
    ensures row.invoice_number == Field(order, "invoice_number")
    ensures row.order_note == Field(order, "order_note")
    ensures row.order_mode == Field(order, "order_mode")
    ensures row.shipment_api_response == result
    ensures ShipmentColumns(row.shipment_id, row.shipment_status) == ShipmentColumnsOf(result)
    ensures row.created_at == now && row.updated_at == now
  {
    var columns := ShipmentColumnsOf(result);
    OrderRow(
      Field(order, "order_id"), Field(order, "order_created_time"), Field(order, "pickup_location"),
      Field(order, "customer_name"), Field(order, "customer_address_line1"),
      Field(order, "customer_address_line2"), Field(order, "customer_pincode"),
      Field(order, "customer_city"), Field(order, "customer_state"), Field(order, "customer_country"),
      Field(order, "customer_phone"), Field(order, "customer_email"), Field(order, "invoice_value"),
      Field(order, "dimensions"), Field(order, "marketplace"), Field(order, "order_type"),
      Field(order, "cod_amount"), Field(order, "gst_total_tax"), Field(order, "tax_percentage"),
      Field(order, "invoice_number"), Field(order, "order_note"), Field(order, "order_mode"),
      result, columns.shipmentId, columns.shipmentStatus, now, now)
  }

  /**
   * The item row inserted for `item` of order `orderId`: the item's fields,
   * with `brand_name` and `product_image` defaulting to "" when falsy.
   */
  function ItemRowOf(orderId: Js, item: Js): (row: ItemRow)
    requires !Nullish(item)
    ensures row.order_id == orderId
    ensures row.sku == Get(item, "sku") && row.sku_mrp == Get(item, "sku_mrp")
    ensures row.quantity == Get(item, "quantity") && row.sku_name == Get(item, "sku_name")
    ensures Truthy(Get(item, "brand_name")) ==> row.brand_name == Get(item, "brand_name")
    ensures !Truthy(Get(item, "brand_name")) ==> row.brand_name == Str("")
    ensures Truthy(Get(item, "product_image")) ==> row.product_image == Get(item, "product_image")
    ensures !Truthy(Get(item, "product_image")) ==> row.product_image == Str("")
  {
    ItemRow(orderId, Get(item, "sku"), Get(item, "sku_mrp"), Get(item, "quantity"), Get(item, "sku_name"),
            Or(Get(item, "brand_name"), Str("")), Or(Get(item, "product_image"), Str("")))
  }

  /** The item rows of an order, one per item, in order. */
  function ItemRows(orderId: Js, elems: seq<Js>): (rows: seq<ItemRow>)
    requires forall i :: 0 <= i < |elems| ==> !Nullish(elems[i])
    ensures |rows| == |elems|
    ensures forall i :: 0 <= i < |elems| ==> rows[i] == ItemRowOf(orderId, elems[i])
  {
    seq(|elems|, (i: int) requires 0 <= i < |elems| => ItemRowOf(orderId, elems[i]))
  }

  /** The INSERT statements of an order's item rows, in order. */
  function ItemInserts(rows: seq<ItemRow>): (s: seq<Statement>)
    ensures |s| == |rows|
    ensures forall i :: 0 <= i < |rows| ==> s[i] == InsertItem(rows[i])
  {
    seq(|rows|, (i: int) requires 0 <= i < |rows| => InsertItem(rows[i]))
  }

  /** The first statement at or after `from` and before `count` that fails, if any. */
  function FirstFailure(fails: nat -> Option<Error>, from: nat, count: nat): (f: Option<nat>)
    ensures f.Some? ==>
      && from <= f.value < count && fails(f.value).Some?
      && forall j :: from <= j < f.value ==> fails(j).None?
    ensures f.None? ==> forall j :: from <= j < count ==> fails(j).None?
    decreases count - from
  {
    if from >= count then None
    else if fails(from).Some? then Some(from)
    else FirstFailure(fails, from + 1, count)
  }

  /** The error thrown for an order id that is already stored. */
  function DuplicateOrderError(orderId: Js): (e: Error)
    ensures e.response.None?
  {
    Error("Order with ID " + ToString(orderId) + " already exists", None)
  }

  /** The duplicate-order error mentions "already exists", which the controller maps to 409. */
  lemma DuplicateErrorSaysAlreadyExists(orderId: Js)
    ensures Includes(DuplicateOrderError(orderId).message, "already exists")
  {
    var p := "Order with ID " + ToString(orderId) + " ";
    IncludesInfix(p, "already exists", "");
    assert p + "already exists" + "" == DuplicateOrderError(orderId).message;
  }

  /**
   * The loop over the order's items: sends one INSERT per item, in order,
   * and stops at the first that fails.  Returns the index (in statement
   * numbering, item i being statement i + 1) of the failing INSERT if any,
   * the item table with the rows inserted, and the statements sent.
   */
  method InsertItems(orderId: Js, elems: seq<Js>, items: seq<ItemRow>, insertFails: nat -> Option<Error>)
    returns (failed: Option<nat>, newItems: seq<ItemRow>, sent: seq<Statement>)
    requires forall i :: 0 <= i < |elems| ==> !Nullish(elems[i])
    ensures failed == FirstFailure(insertFails, 1, |elems| + 1)
    ensures failed.None? ==> newItems == items + ItemRows(orderId, elems)
    ensures sent == ItemInserts(ItemRows(orderId, elems))[..if failed.Some? then failed.value else |elems|]
  {
    ghost var rows := ItemRows(orderId, elems);
    newItems, sent, failed := items, [], None;
    var i := 0;
    while i < |elems|
      invariant 0 <= i <= |elems|
      invariant forall j :: 1 <= j <= i ==> insertFails(j).None?
      invariant newItems == items + rows[..i]
      invariant sent == ItemInserts(rows)[..i]
    {
      var row := ItemRowOf(orderId, elems[i]);
      sent := sent + [InsertItem(row)];
      if insertFails(i + 1).Some? {
        failed := Some(i + 1);
        FirstFailureAt(insertFails, 1, |elems| + 1, i + 1);
        return;
      }
      newItems := newItems + [row];
      i := i + 1;
    }
    assert rows[..i] == rows;
    assert ItemInserts(rows)[..i] == ItemInserts(rows);
  }

  /** The first failure is the one failing statement with none failing before it. */
  lemma FirstFailureAt(fails: nat -> Option<Error>, from: nat, count: nat, f: nat)
    requires from <= f < count && fails(f).Some?
    requires forall j :: from <= j < f ==> fails(j).None?
    ensures FirstFailure(fails, from, count) == Some(f)
  {
  }

  /** INSERT statements are neither COMMIT, ROLLBACK nor the release. */
  lemma {:induction false} InsertsAreNotControl(sent: seq<Statement>)
    requires forall i :: 0 <= i < |sent| ==> sent[i].InsertOrder? || sent[i].InsertItem?
    ensures multiset(sent)[Commit] == 0 && multiset(sent)[Rollback] == 0 && multiset(sent)[Release] == 0
  {
    if sent != [] {
      InsertsAreNotControl(sent[1..]);
      assert sent == [sent[0]] + sent[1..];
    }
  }

  /** The statements of a transaction on order `id` that sent `sent` and ended with `last`. */
  function TxLog(id: Js, sent: seq<Statement>, last: Statement): seq<Statement>
  {
    [Begin, SelectExisting(id)] + sent + [last, Release]
  }

  /**
   * A transaction log made of BEGIN, the SELECT, INSERTs, then COMMIT or
   * ROLLBACK and the release, has one release and one of COMMIT and
   * ROLLBACK.
   */
  lemma ControlCounts(id: Js, sent: seq<Statement>, last: Statement)
    requires forall i :: 0 <= i < |sent| ==> sent[i].InsertOrder? || sent[i].InsertItem?
    requires last == Commit || last == Rollback
    ensures var log := TxLog(id, sent, last);
      && multiset(log)[Release] == 1
      && multiset(log)[Commit] == (if last == Commit then 1 else 0)
      && multiset(log)[Rollback] == (if last == Rollback then 1 else 0)
  {
    InsertsAreNotControl(sent);
    var log := TxLog(id, sent, last);
    assert multiset(log) == multiset([Begin, SelectExisting(id)]) + multiset(sent) + multiset([last, Release]);
  }

  /**
   * The tables are consistent: every order row is stored under its own
   * order id, and every item row belongs to a stored order.
   */
  predicate TablesValid(orders: map<Js, OrderRow>, items: seq<ItemRow>)
  {
    && (forall k :: k in orders ==> orders[k].order_id == k)
    && (forall i :: 0 <= i < |items| ==> items[i].order_id in orders)
  }

  /** The two tables, `shipment_orders` keyed by order id and `order_items` in insertion order. */
  class Store {
    var orders: map<Js, OrderRow>
    var items: seq<ItemRow>

    predicate Valid()
      reads this
    {
      TablesValid(orders, items)
    }

    constructor ()
      ensures orders == map[] && items == []
      ensures Valid()
    {
      orders := map[];
      items := [];
    }
  }

  /**
   * Everything one `createOrder` call does: its result, the tables after
   * it, the INSERT statements it sends and the number of carrier POSTs it
   * makes.
   */
  datatype Transaction = Transaction(
    result: Result<Created, Error>,
    orders: map<Js, OrderRow>,
    items: seq<ItemRow>,
    inserts: seq<Statement>,
    remoteCalls: nat)
  {
    /** The statements sent for order `id`: the INSERTs framed by the transaction's control statements. */
    function Log(id: Js): seq<Statement>
    {
      TxLog(id, inserts, if result.Ok? then Commit else Rollback)
    }
  }

  class OrderService {
    const store: Store
    const shipments: ShipmentService

    constructor (store: Store, shipments: ShipmentService)
      ensures this.store == store && this.shipments == shipments
    {
      this.store := store;
      this.shipments := shipments;
    }

    /**
     * `createOrder(order)` against tables `orders` and `items`: a stored
     * order id is rejected before the gateway is called; an error from the
     * gateway rolls back; otherwise the order is recorded.
     */
    function Run(orders: map<Js, OrderRow>, items: seq<ItemRow>, order: JsObject,
                 carrier: (ShipmentPayload, nat) -> CallResult, insertFails: nat -> Option<Error>, now: int): (t: Transaction)
      ensures t.result.Err? ==> t.orders == orders && t.items == items
      ensures forall i :: 0 <= i < |t.inserts| ==> t.inserts[i].InsertOrder? || t.inserts[i].InsertItem?
    {
      var id := Field(order, "order_id");
      if id in orders then
        Transaction(Err(DuplicateOrderError(id)), orders, items, [], 0)
      else
        var calls := shipments.ShipmentCalls(order, carrier);
        match shipments.ShipmentOutcome(order, carrier)
        case Err(e) =>
          Transaction(Err(e), orders, items, [], calls)
        case Ok(result) =>
          Record(orders, items, order, result, insertFails, now).(remoteCalls := calls)
    }

    /**
     * The inserts after the gateway answered with `result`: the order row,
     * then one row per item in order, then COMMIT; the first INSERT that
     * fails is the last statement before ROLLBACK, and its error is the
     * result.
     */
    function Record(orders: map<Js, OrderRow>, items: seq<ItemRow>, order: JsObject, result: ShipmentResult,
                    insertFails: nat -> Option<Error>, now: int): (t: Transaction)
      requires Transformable(order)
      ensures t.result.Err? ==> t.orders == orders && t.items == items
      ensures forall i :: 0 <= i < |t.inserts| ==> t.inserts[i].InsertOrder? || t.inserts[i].InsertItem?
    {
      var id := Field(order, "order_id");
      var row := OrderRowOf(order, result, now);
      var rows := ItemRows(id, Field(order, "order_items").elems);
      var inserts := [InsertOrder(row)] + ItemInserts(rows);
      match FirstFailure(insertFails, 0, |inserts|)
      case Some(f) =>
        Transaction(Err(insertFails(f).value), orders, items, inserts[..f + 1], 0)
      case None =>
        Transaction(Ok(Created("Order created successfully", row, result)), orders[id := row], items + rows, inserts, 0)
    }

    /**
     * `createOrder(order)`: runs the transaction on a working copy of the
     * tables, which is written back on COMMIT and dropped on ROLLBACK.
     * Returns the result (or the error rethrown), the number of carrier
     * POSTs and the statements sent.
     */
    method CreateOrder(order: JsObject, carrier: (ShipmentPayload, nat) -> CallResult,
                       random: nat -> real, insertFails: nat -> Option<Error>, now: int)
      returns (r: Result<Created, Error>, remoteCalls: nat, log: seq<Statement>)
      requires forall k :: 0.0 <= random(k) < 1.0
      modifies store
      ensures var t := Run(old(store.orders), old(store.items), order, carrier, insertFails, now);
        && r == t.result && store.orders == t.orders && store.items == t.items
        && log == t.Log(Field(order, "order_id")) && remoteCalls == t.remoteCalls
      ensures old(store.Valid()) ==> store.Valid()
    {
      ghost var t := Run(store.orders, store.items, order, carrier, insertFails, now);
      var orders, items := store.orders, store.items;
      log := [Begin];
      var id := Field(order, "order_id");
      log := log + [SelectExisting(id)];
      remoteCalls := 0;
      assert log == [Begin, SelectExisting(id)];
      var outcome: Result<Created, Error>;
      ghost var sentInserts: seq<Statement> := [];
      if id in orders {
        outcome := Err(DuplicateOrderError(id));
      } else {
        var shipment, sent, calls := shipments.CreateShipment(order, carrier, random);
        remoteCalls := calls;
        if shipment.Err? {
          outcome := Err(shipment.error);
        } else {
          var inserted;
          outcome, orders, items, inserted := RecordOrder(orders, items, order, shipment.value, insertFails, now);
          log := log + inserted;
          sentInserts := inserted;
          assert t == Record(store.orders, store.items, order, shipment.value, insertFails, now).(remoteCalls := calls);
        }
      }
      assert log == [Begin, SelectExisting(id)] + sentInserts;
      assert t.inserts == sentInserts;
      assert outcome == t.result && remoteCalls == t.remoteCalls;
      assert outcome.Ok? ==> orders == t.orders && items == t.items;
      if outcome.Ok? {
        log := log + [Commit];
        store.orders, store.items := orders, items;
      } else {
        log := log + [Rollback];
      }
      r := outcome;
      log := log + [Release];
      if old(store.Valid()) {
        RunKeepsTablesValid(old(store.orders), old(store.items), order, carrier, insertFails, now);
      }
    }

    /**
     * The part of `createOrder` after the gateway answered with `result`:
     * the order row's shipment columns, its INSERT, then the loop over the
     * items.  Returns the outcome, the working copy of the tables and the
     * INSERT statements sent.
     */
    method RecordOrder(orders: map<Js, OrderRow>, items: seq<ItemRow>, order: JsObject, result: ShipmentResult,
                       insertFails: nat -> Option<Error>, now: int)
      returns (outcome: Result<Created, Error>, newOrders: map<Js, OrderRow>, newItems: seq<ItemRow>, inserted: seq<Statement>)
      requires Transformable(order)
      ensures var t := Record(orders, items, order, result, insertFails, now);
        && outcome == t.result
        && (outcome.Ok? ==> newOrders == t.orders && newItems == t.items)
        && t.inserts == inserted
    {
      var id := Field(order, "order_id");
      var shipmentId := Null;
      var shipmentStatus := Str("pending");
      if result.Succeeded? && Truthy(result.data) {
        shipmentId := Or(Get(result.data, "shipment_id"), Or(Get(result.data, "order_id"), Null));
        shipmentStatus := Or(Get(result.data, "status"), Str("created"));
      }
      assert ShipmentColumns(shipmentId, shipmentStatus) == ShipmentColumnsOf(result);
      var row := OrderRowOf(order, result, now).(shipment_id := shipmentId, shipment_status := shipmentStatus);
      assert row == OrderRowOf(order, result, now);
      var elems := Field(order, "order_items").elems;
      ghost var rows := ItemRows(id, elems);
      ghost var inserts := [InsertOrder(row)] + ItemInserts(rows);
      inserted := [InsertOrder(row)];
      newOrders, newItems := orders, items;
      if insertFails(0).Some? {
        outcome := Err(insertFails(0).value);
        assert FirstFailure(insertFails, 0, |inserts|) == Some(0);
        assert inserts[..1] == inserted;
        return;
      }
      newOrders := newOrders[id := row];
      var failed, sentItems;
      failed, newItems, sentItems := InsertItems(id, elems, newItems, insertFails);
      inserted := inserted + sentItems;
      assert FirstFailure(insertFails, 0, |inserts|) == failed;
      if failed.Some? {
        outcome := Err(insertFails(failed.value).value);
        assert inserts[..failed.value + 1] == inserted;
      } else {
        outcome := Ok(Created("Order created successfully", row, result));
        assert inserts == inserted;
      }
    }

    /** A transaction keeps the tables consistent. */
    lemma RunKeepsTablesValid(orders: map<Js, OrderRow>, items: seq<ItemRow>, order: JsObject,
                              carrier: (ShipmentPayload, nat) -> CallResult, insertFails: nat -> Option<Error>, now: int)
      requires TablesValid(orders, items)
      ensures var t := Run(orders, items, order, carrier, insertFails, now); TablesValid(t.orders, t.items)
    {
      var id := Field(order, "order_id");
      if id !in orders {
        var shipment := shipments.ShipmentOutcome(order, carrier);
        if shipment.Ok? {
          RecordKeepsTablesValid(orders, items, order, shipment.value, insertFails, now);
        }
      }
    }

    /** Recording a new order keeps the tables consistent: the new item rows belong to the new order row. */
    lemma RecordKeepsTablesValid(orders: map<Js, OrderRow>, items: seq<ItemRow>, order: JsObject, result: ShipmentResult,
                                 insertFails: nat -> Option<Error>, now: int)
      requires TablesValid(orders, items)
      requires Transformable(order)
      ensures var t := Record(orders, items, order, result, insertFails, now); TablesValid(t.orders, t.items)
    {
      var t := Record(orders, items, order, result, insertFails, now);
      if t.result.Ok? {
        var id := Field(order, "order_id");
        var rows := ItemRows(id, Field(order, "order_items").elems);
        assert t.orders == orders[id := OrderRowOf(order, result, now)];
        assert t.items == items + rows;
        forall i | 0 <= i < |t.items|
          ensures t.items[i].order_id in t.orders
        {
          if i >= |items| {
            assert t.items[i] == rows[i - |items|];
          }
        }
      }
    }

    /**
     * An order id that is already stored is rejected with an "already
     * exists" error before the gateway is called, and the tables are left
     * as they were.
     */
    lemma DuplicateOrderRejected(orders: map<Js, OrderRow>, items: seq<ItemRow>, order: JsObject,
                                 carrier: (ShipmentPayload, nat) -> CallResult, insertFails: nat -> Option<Error>, now: int)
      requires Field(order, "order_id") in orders
      ensures var t := Run(orders, items, order, carrier, insertFails, now);
        && t.result == Err(DuplicateOrderError(Field(order, "order_id")))
        && Includes(t.result.error.message, "already exists")
        && t.remoteCalls == 0
        && t.inserts == []
        && t.orders == orders && t.items == items
    {
      DuplicateErrorSaysAlreadyExists(Field(order, "order_id"));
    }

    /**
     * A gateway failure does not abort the order: when no INSERT fails, the
     * order is committed with no shipment id and status "pending".
     */
    lemma FailedShipmentStillRecorded(orders: map<Js, OrderRow>, items: seq<ItemRow>, order: JsObject,
                                      carrier: (ShipmentPayload, nat) -> CallResult, insertFails: nat -> Option<Error>, now: int)
      requires Field(order, "order_id") !in orders
      requires shipments.ShipmentOutcome(order, carrier).Ok? && shipments.ShipmentOutcome(order, carrier).value.Failed?
      requires forall k :: 0 <= k <= |Field(order, "order_items").elems| ==> insertFails(k).None?
      ensures var t := Run(orders, items, order, carrier, insertFails, now);
        && t.result.Ok?
        && t.result.value.order.shipment_id == Null
        && t.result.value.order.shipment_status == Str("pending")
    {
    }

    /**
     * A committed order adds exactly one order row, under the new order id,
     * and appends one item row per item of the order, in order; the
     * returned row holds the returned shipment result.
     */
    lemma CommitAddsOneOrder(orders: map<Js, OrderRow>, items: seq<ItemRow>, order: JsObject,
                             carrier: (ShipmentPayload, nat) -> CallResult, insertFails: nat -> Option<Error>, now: int)
      requires Run(orders, items, order, carrier, insertFails, now).result.Ok?
      ensures var t := Run(orders, items, order, carrier, insertFails, now);
        var id := Field(order, "order_id");
        var created := t.result.value;
        && Transformable(order)
        && id !in orders
        && created.message == "Order created successfully"
        && created.order.order_id == id
        && created.order.shipment_api_response == created.shipmentResult
        && shipments.ShipmentOutcome(order, carrier) == Ok(created.shipmentResult)
        && t.orders == orders[id := created.order]
        && |t.items| == |items| + |Field(order, "order_items").elems|
        && t.items[..|items|] == items
        && (forall i :: 0 <= i < |Field(order, "order_items").elems| ==>
              t.items[|items| + i] == ItemRowOf(id, Field(order, "order_items").elems[i]))
    {
      var t := Run(orders, items, order, carrier, insertFails, now);
      var id := Field(order, "order_id");
      var elems := Field(order, "order_items").elems;
      var rows := ItemRows(id, elems);
      assert t.items == items + rows;
    }

    /**
     * If the first failing INSERT is number k (0 the order row, i + 1 item
     * i), the transaction rolls back with that error after sending exactly
     * k + 1 INSERTs; the tables are unchanged, but the carrier was already
     * called and the shipment is not undone.
     */
    lemma InsertFailureRollsBack(orders: map<Js, OrderRow>, items: seq<ItemRow>, order: JsObject,
                                 carrier: (ShipmentPayload, nat) -> CallResult, insertFails: nat -> Option<Error>, now: int,
                                 k: nat)
      requires Field(order, "order_id") !in orders
      requires shipments.ShipmentOutcome(order, carrier).Ok?
      requires k <= |Field(order, "order_items").elems| && insertFails(k).Some?
      requires forall j :: 0 <= j < k ==> insertFails(j).None?
      ensures var t := Run(orders, items, order, carrier, insertFails, now);
        && t.result == Err(insertFails(k).value)
        && t.orders == orders && t.items == items
        && |t.inserts| == k + 1
        && t.remoteCalls == shipments.ShipmentCalls(order, carrier)
        && (shipments.retryHandler.maxRetries >= 0 ==> t.remoteCalls >= 1)
    {
      var id := Field(order, "order_id");
      var result := shipments.ShipmentOutcome(order, carrier).value;
      var row := OrderRowOf(order, result, now);
      var rows := ItemRows(id, Field(order, "order_items").elems);
      var inserts := [InsertOrder(row)] + ItemInserts(rows);
      FirstFailureAt(insertFails, 0, |inserts|, k);
      if shipments.retryHandler.maxRetries >= 0 {
        shipments.TransformableOrderNeverThrows(order, carrier);
      }
    }

    /**
     * Every call begins the transaction, ends it with COMMIT exactly when it
     * succeeds and ROLLBACK exactly when it fails, and releases the
     * connection exactly once, as its last step.
     */
    lemma ReleasedExactlyOnce(orders: map<Js, OrderRow>, items: seq<ItemRow>, order: JsObject,
                              carrier: (ShipmentPayload, nat) -> CallResult, insertFails: nat -> Option<Error>, now: int)
      ensures var t := Run(orders, items, order, carrier, insertFails, now);
        var log := t.Log(Field(order, "order_id"));
        && log[0] == Begin
        && log[|log| - 1] == Release
        && multiset(log)[Release] == 1
        && multiset(log)[Commit] == (if t.result.Ok? then 1 else 0)
        && multiset(log)[Rollback] == (if t.result.Err? then 1 else 0)
    {
      var t := Run(orders, items, order, carrier, insertFails, now);
      ControlCounts(Field(order, "order_id"), t.inserts, if t.result.Ok? then Commit else Rollback);
    }
  }
}
