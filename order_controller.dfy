/**
 * The HTTP layer for orders (src/controllers/orderController.js): request
 * validation and the mapping of the service's outcome to a status code and
 * a JSON body, for creating an order, reading one and listing them.
 */
module OrderController {
  import opened Wrappers
  import opened JsValues
  import opened JsStrings
  import opened ShipmentService
  import opened Retry
  import opened OrderService

  /** A response: its status code and its JSON body. */
  datatype HttpResponse = HttpResponse(status: int, body: Js)

  /** The request fields that must be truthy, in the order they are reported. */
  const RequiredFields: seq<string> := [
    "order_id", "order_created_time", "customer_name", "customer_address_line1",
    "customer_pincode", "customer_city", "customer_state", "customer_country",
    "customer_phone", "customer_email", "order_items", "invoice_value",
    "dimensions", "order_type"]

  /** The dimensions that must be truthy, in the order they are reported. */
  const RequiredDimensions: seq<string> := ["height", "length", "weight", "breadth"]

  /** `sub` is `names` with some elements left out, the rest in their order. */
  predicate SubsequenceOf(sub: seq<string>, names: seq<string>)
    decreases |names|
  {
    if sub == [] then true
    else if names == [] then false
    else (sub[0] == names[0] && SubsequenceOf(sub[1..], names[1..])) || SubsequenceOf(sub, names[1..])
  }

  /**
   * `names.filter(name => !v[name])`: the names whose property on `v` is
   * falsy, in the order of `names`.
   */
  function FalsyProps(v: Js, names: seq<string>): (r: seq<string>)
    requires !Nullish(v)
    ensures SubsequenceOf(r, names)
    ensures forall n :: n in r <==> n in names && !Truthy(Get(v, n))
  {
    if names == [] then []
    else if Truthy(Get(v, names[0])) then FalsyProps(v, names[1..])
    else [names[0]] + FalsyProps(v, names[1..])
  }

  /**
   * Each falsy name is reported as many times as it is listed, and a
   * truthy one never.
   */
  lemma {:induction false} FalsyPropsCounts(v: Js, names: seq<string>)
    requires !Nullish(v)
    ensures forall n ::
      multiset(FalsyProps(v, names))[n] == (if Truthy(Get(v, n)) then 0 else multiset(names)[n])
  {
    if names != [] {
      FalsyPropsCounts(v, names[1..]);
      assert names == [names[0]] + names[1..];
    }
  }

  /** When every named property is truthy, nothing is reported. */
  lemma {:induction false} NoFalsyProps(v: Js, names: seq<string>)
    requires !Nullish(v)
    requires forall n :: n in names ==> Truthy(Get(v, n))
    ensures FalsyProps(v, names) == []
  {
    if names != [] {
      NoFalsyProps(v, names[1..]);
    }
  }

  function StringArray(names: seq<string>): (a: Js)
    ensures a.Arr? && |a.elems| == |names|
    ensures forall i :: 0 <= i < |names| ==> a.elems[i] == Str(names[i])
  {
    Arr(seq(|names|, (i: int) requires 0 <= i < |names| => Str(names[i])))
  }

  /** `{success: false, message}` */
  function Failure(message: string): Js
  {
    Obj(map["success" := Bool(false), "message" := Str(message)])
  }

  /**
   * The validation of `createOrder`: the required fields that are falsy
   * (400), then `order_items` not a non-empty array (400), then the
   * dimensions that are falsy (400); none when the body passes all three.
   */
  function Validate(body: JsObject): (rejection: Option<HttpResponse>)
    ensures rejection.Some? ==> rejection.value.status == 400
    ensures rejection.None? <==>
      && (forall f :: f in RequiredFields ==> Truthy(Field(body, f)))
      && Field(body, "order_items").Arr? && |Field(body, "order_items").elems| > 0
      && (forall d :: d in RequiredDimensions ==> Truthy(Get(Field(body, "dimensions"), d)))
    ensures FalsyProps(Obj(body), RequiredFields) != [] ==>
      rejection == Some(HttpResponse(400, Obj(map[
        "success" := Bool(false), "message" := Str("Missing required fields"),
        "missingFields" := StringArray(FalsyProps(Obj(body), RequiredFields))])))
    ensures (FalsyProps(Obj(body), RequiredFields) == []
             && !(Field(body, "order_items").Arr? && |Field(body, "order_items").elems| > 0)) ==>
      rejection == Some(HttpResponse(400, Failure("order_items must be a non-empty array")))
    ensures (FalsyProps(Obj(body), RequiredFields) == []
             && Field(body, "order_items").Arr? && |Field(body, "order_items").elems| > 0
             && !Nullish(Field(body, "dimensions"))
             && FalsyProps(Field(body, "dimensions"), RequiredDimensions) != []) ==>
      rejection == Some(HttpResponse(400, Obj(map[
        "success" := Bool(false), "message" := Str("Missing required dimensions"),
        "missingDimensions" := StringArray(FalsyProps(Field(body, "dimensions"), RequiredDimensions))])))
  {
    var missingFields := FalsyProps(Obj(body), RequiredFields);
    if missingFields != [] then
      assert missingFields[0] in missingFields;
      Some(HttpResponse(400, Obj(map[
        "success" := Bool(false), "message" := Str("Missing required fields"),
        "missingFields" := StringArray(missingFields)])))
    else
      var items := Field(body, "order_items");
      if !items.Arr? || |items.elems| == 0 then
        Some(HttpResponse(400, Failure("order_items must be a non-empty array")))
      else
        var dimensions := Field(body, "dimensions");
        assert "dimensions" in RequiredFields;
        var missingDimensions := FalsyProps(dimensions, RequiredDimensions);
        if missingDimensions != [] then
          assert missingDimensions[0] in missingDimensions;
          Some(HttpResponse(400, Obj(map[
            "success" := Bool(false), "message" := Str("Missing required dimensions"),
            "missingDimensions" := StringArray(missingDimensions)])))
        else None
  }

  /** A dimension given as 0 is falsy and so reported missing. */
  lemma ZeroDimensionMissing(body: JsObject, d: string)
    requires forall f :: f in RequiredFields ==> Truthy(Field(body, f))
    requires Field(body, "order_items").Arr? && |Field(body, "order_items").elems| > 0
    requires Field(body, "dimensions").Obj? && d in RequiredDimensions
    requires Field(Field(body, "dimensions").props, d) == Num(0)
    ensures Validate(body).Some?
    ensures Validate(body).value.body.props["message"] == Str("Missing required dimensions")
    ensures Str(d) in Validate(body).value.body.props["missingDimensions"].elems
  {
    assert "dimensions" in RequiredFields;
    var missing := FalsyProps(Field(body, "dimensions"), RequiredDimensions);
    assert d in missing;
    NoFalsyProps(Obj(body), RequiredFields);
    var i :| 0 <= i < |missing| && missing[i] == d;
    assert StringArray(missing).elems[i] == Str(d);
  }

  /** The JSON form of the gateway's result, as the service returns it. */
  function ShipmentResultJson(result: ShipmentResult): (j: Js)
    ensures j.Obj? && Field(j.props, "success") == Bool(result.Succeeded?)
  {
    match result
    case Succeeded(data) => Obj(map["success" := Bool(true), "data" := data])
    case Failed(e) =>
      Obj(map["success" := Bool(false), "error" := Obj(map[
        "message" := Str(e.message),
        "status" := if e.status.Some? then Num(e.status.value) else Undefined,
        "data" := if e.data.Some? then e.data.value else Undefined])])
  }

  /**
   * 201 with the service's message, the stored row's order id, shipment
   * id, shipment status and creation time, and the gateway's result.
   */
  function CreatedResponse(created: Created): (response: HttpResponse)
    ensures response.status == 201 && response.body.Obj?
    ensures Field(response.body.props, "data") == Obj(map[
      "order_id" := created.order.order_id,
      "shipment_id" := created.order.shipment_id,
      "shipment_status" := created.order.shipment_status,
      "created_at" := Num(created.order.created_at)])
  {
    HttpResponse(201, Obj(map[
      "success" := Bool(true),
      "message" := Str(created.message),
      "data" := Obj(map[
        "order_id" := created.order.order_id,
        "shipment_id" := created.order.shipment_id,
        "shipment_status" := created.order.shipment_status,
        "created_at" := Num(created.order.created_at)]),
      "shipment_api_response" := ShipmentResultJson(created.shipmentResult)]))
  }

  /**
   * An error from the service: 409 with its message when the message
   * mentions "already exists", otherwise 500 carrying the message.
   */
  function ErrorResponse(error: Error): (response: HttpResponse)
    ensures response.status == 409 <==> Includes(error.message, "already exists")
    ensures response.status == 409 || response.status == 500
    ensures response.status == 409 ==> response.body == Failure(error.message)
    ensures response.status == 500 ==> response.body.Obj? && Field(response.body.props, "error") == Str(error.message)
  {
    if Includes(error.message, "already exists") then HttpResponse(409, Failure(error.message))
    else HttpResponse(500, Obj(map[
      "success" := Bool(false), "message" := Str("Failed to create order"),
      "error" := Str(error.message)]))
  }

  /** The response to the service's outcome. */
  function OutcomeResponse(outcome: Result<Created, Error>): (response: HttpResponse)
    ensures outcome.Ok? ==> response.status == 201
    ensures outcome.Err? ==> response.status in {409, 500}
  {
    match outcome
    case Ok(created) => CreatedResponse(created)
    case Err(e) => ErrorResponse(e)
  }

  /** A duplicate order id is answered with 409 Conflict. */
  lemma DuplicateIsConflict(orderId: Js)
    ensures ErrorResponse(DuplicateOrderError(orderId)).status == 409
  {
    DuplicateErrorSaysAlreadyExists(orderId);
  }

  /**
   * `createOrder(req, res)`: a request that fails validation is answered
   * with 400 and the service is not called; otherwise the service runs and
   * its outcome is mapped to 201, 409 or 500.
   */
  method CreateOrder(service: OrderService, body: JsObject,
                     carrier: (ShipmentPayload, nat) -> CallResult, random: nat -> real,
                     insertFails: nat -> Option<Error>, now: int)
    returns (response: HttpResponse, serviceCalled: bool)
    requires forall k :: 0.0 <= random(k) < 1.0
    modifies service.store
    ensures serviceCalled <==> Validate(body).None?
    ensures !serviceCalled ==> response == Validate(body).value && unchanged(service.store)
    ensures serviceCalled ==>
      var t := service.Run(old(service.store.orders), old(service.store.items), body, carrier, insertFails, now);
      && response == OutcomeResponse(t.result)
      && service.store.orders == t.orders && service.store.items == t.items
    ensures old(service.store.Valid()) ==> service.store.Valid()
  {
    var rejection := Validate(body);
    if rejection.Some? {
      return rejection.value, false;
    }
    var outcome, calls, log := service.CreateOrder(body, carrier, random, insertFails, now);
    response := OutcomeResponse(outcome);
    serviceCalled := true;
  }

  /**
   * A valid request repeating a stored order id is answered with 409, and
   * the tables stay as they were.
   */
  lemma RepeatedOrderIsConflict(service: OrderService, orders: map<Js, OrderRow>, items: seq<ItemRow>,
                                body: JsObject, carrier: (ShipmentPayload, nat) -> CallResult,
                                insertFails: nat -> Option<Error>, now: int)
    requires Field(body, "order_id") in orders
    ensures var t := service.Run(orders, items, body, carrier, insertFails, now);
      && OutcomeResponse(t.result).status == 409
      && t.orders == orders && t.items == items
  {
    service.DuplicateOrderRejected(orders, items, body, carrier, insertFails, now);
    DuplicateIsConflict(Field(body, "order_id"));
  }

  /**
   * A 201 answer reports the request's own order id and the shipment id
   * and status that were stored with it, and the order is then in the table.
   */
  lemma CreatedReportsStoredOrder(service: OrderService, orders: map<Js, OrderRow>, items: seq<ItemRow>,
                                  body: JsObject, carrier: (ShipmentPayload, nat) -> CallResult,
                                  insertFails: nat -> Option<Error>, now: int)
    requires service.Run(orders, items, body, carrier, insertFails, now).result.Ok?
    ensures var t := service.Run(orders, items, body, carrier, insertFails, now);
      var id := Field(body, "order_id");
      var response := OutcomeResponse(t.result);
      && response.status == 201
      && id in t.orders
      && Field(response.body.props, "data") == Obj(map[
           "order_id" := id,
           "shipment_id" := t.orders[id].shipment_id,
           "shipment_status" := t.orders[id].shipment_status,
           "created_at" := Num(t.orders[id].created_at)])
  {
    var t := service.Run(orders, items, body, carrier, insertFails, now);
    var id := Field(body, "order_id");
    service.CommitAddsOneOrder(orders, items, body, carrier, insertFails, now);
    var created := t.result.value;
    assert t.orders[id] == created.order;
    assert OutcomeResponse(t.result) == CreatedResponse(created);
  }

  /**
   * `getOrder(req, res)` for the service's answer: 404 when no order was
   * found (null), 200 with the order otherwise, 500 on an error.
   */
  function GetOrderResponse(found: Result<Js, Error>): (response: HttpResponse)
    ensures found.Ok? && !Truthy(found.value) ==> response == HttpResponse(404, Failure("Order not found"))
    ensures found.Ok? && Truthy(found.value) ==>
      response == HttpResponse(200, Obj(map["success" := Bool(true), "data" := found.value]))
    ensures found.Err? ==> response.status == 500
  {
    match found
    case Ok(order) =>
      if !Truthy(order) then HttpResponse(404, Failure("Order not found"))
      else HttpResponse(200, Obj(map["success" := Bool(true), "data" := order]))
    case Err(e) =>
      HttpResponse(500, Obj(map[
        "success" := Bool(false), "message" := Str("Failed to retrieve order"),
        "error" := Str(e.message)]))
  }

  /** The page `getAllOrders` asks for. */
  datatype Window = Window(limit: int, offset: int)

  /**
   * `getAllOrders` query defaults: `parseInt(limit) || 50` and
   * `parseInt(offset) || 0`, so a missing, unparsable or zero limit is 50.
   */
  function ListingWindow(query: JsObject): (w: Window)
    ensures w.limit != 0
    ensures ParseInt(ToString(Field(query, "limit"))).NaN? ==> w.limit == 50
    ensures ParseInt(ToString(Field(query, "offset"))).NaN? ==> w.offset == 0
  {
    Window(ParseIntOr(Field(query, "limit"), 50), ParseIntOr(Field(query, "offset"), 0))
  }

  /** `limit=0` is falsy after parsing and becomes 50; a non-zero integer is kept. */
  lemma ListingLimitDefaults(query: JsObject, n: int)
    requires Field(query, "limit") == Str(IntToString(n))
    ensures n == 0 ==> ListingWindow(query).limit == 50
    ensures n != 0 ==> ListingWindow(query).limit == n
  {
    ParseIntOfToString(n);
  }

  /** Without query parameters the window is the first 50 orders. */
  lemma ListingWithoutQuery()
    ensures ListingWindow(map[]) == Window(50, 0)
  {
    UndefinedParsesToNaN();
  }
}
