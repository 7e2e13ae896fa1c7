/**
 * The carrier gateway (src/services/shipmentService.js): it turns an order
 * into the carrier's payload and posts it through the retry handler,
 * reporting the outcome as a success or failure value.
 *
 * The carrier is given as `carrier`, where `carrier(payload, k)` is how the
 * k-th POST of `payload` settles.
 */
module ShipmentService {
  import opened Wrappers
  import opened JsValues
  import opened JsStrings
  import opened Retry

  datatype Name = Name(firstName: string, lastName: string)

  /**
   * A trimmed name cut at its first space: a name with no space is all first
   * name with "." as last name; otherwise the first name is the text up to
   * the first space and the last name the rest after it.
   */
  function SplitTrimmed(t: string): (n: Name)
    ensures ' ' !in t ==> n == Name(t, ".")
    ensures ' ' in t ==> ' ' !in n.firstName && n.firstName + " " + n.lastName == t
  {
    var parts := Split(t, ' ');
    if |parts| == 1 then Name(parts[0], ".")
    else Name(parts[0], Join(parts[1..], ' '))
  }

  /**
   * `splitName(fullName)`: a falsy name gives ("Customer", "Name"); a string
   * is trimmed and cut at its first space; any other truthy value has no
   * `trim` method, so the call throws.
   */
  function SplitName(fullName: Js): (r: Result<Name, Error>)
    ensures !Truthy(fullName) ==> r == Ok(Name("Customer", "Name"))
    ensures Truthy(fullName) && !fullName.Str? ==> r == Err(NotAFunction("fullName.trim"))
    ensures Truthy(fullName) && fullName.Str? ==> r == Ok(SplitTrimmed(Trim(fullName.s)))
  {
    if !Truthy(fullName) then Ok(Name("Customer", "Name"))
    else if !fullName.Str? then Err(NotAFunction("fullName.trim"))
    else Ok(SplitTrimmed(Trim(fullName.s)))
  }

  /** A non-empty name made only of whitespace trims to "" and gives ("", "."). */
  lemma WhitespaceOnlyName(s: string)
    requires s != ""
    requires forall i :: 0 <= i < |s| ==> IsJsWhitespace(s[i])
    ensures SplitName(Str(s)) == Ok(Name("", "."))
  {
    TrimAllWhitespace(s);
  }

  /** A trimmed name whose first space is at `i` splits around that space. */
  lemma SplitAtFirstSpace(t: string, i: nat)
    requires i < |t| && t[i] == ' ' && ' ' !in t[..i]
    ensures SplitTrimmed(t) == Name(t[..i], t[i + 1..])
  {
    var n := SplitTrimmed(t);
    var f := n.firstName;
    assert n.firstName + " " + n.lastName == t;
    assert forall j :: 0 <= j < |f| ==> t[j] == f[j];
    assert t[|f|] == ' ';
    assert forall j :: 0 <= j < i ==> t[j] == t[..i][j];
    assert |f| == i;
    assert f == t[..i];
    assert n.lastName == t[i + 1..];
  }

  lemma JaneDoeIsTrimmed()
    ensures Trim("Jane  Doe") == "Jane  Doe"
  {
    var t := "Jane  Doe";
    assert !IsJsWhitespace(t[0]);
    assert TrimStart(t) == t;
    assert !IsJsWhitespace(t[|t| - 1]);
    assert TrimEnd(t) == t;
  }

  lemma JaneDoeSplit()
    ensures SplitTrimmed("Jane  Doe") == Name("Jane", " Doe")
  {
    var t := "Jane  Doe";
    assert t[4] == ' ';
    assert t[..4] == "Jane";
    assert ' ' !in t[..4];
    SplitAtFirstSpace(t, 4);
    assert t[5..] == " Doe";
  }

  /**
   * The split is on each single space, not on runs of whitespace, so the
   * extra spaces stay at the front of the last name.
   */
  lemma DoubleSpaceKeptInLastName(fullName: string)
    requires fullName == "Jane  Doe"
    ensures SplitName(Str(fullName)) == Ok(Name("Jane", " Doe"))
  {
    JaneDoeIsTrimmed();
    JaneDoeSplit();
    var t := Trim(fullName);
    assert t == fullName;
    var n := SplitTrimmed(t);
    assert n == Name("Jane", " Doe");
    assert Truthy(Str(fullName));
    assert SplitName(Str(fullName)) == Ok(n);
  }

  /** One element of the carrier's `order_items`. */
  datatype ItemPayload = ItemPayload(
    name: Js, sku: Js, units: Js, selling_price: string,
    discount: string, tax: string, hsn: string)

  /**
   * The mapping of one order item: name, sku and units copied from
   * sku_name, sku and quantity, the price as the string of sku_mrp, and
   * empty discount, tax and hsn.  A null or undefined item, or one whose
   * sku_mrp is null or undefined, throws the TypeError of the failing read.
   */
  function ItemOf(item: Js): (r: Result<ItemPayload, Error>)
    ensures Nullish(item) ==> r == Err(ReadError(item, "sku_name"))
    ensures !Nullish(item) && Nullish(Get(item, "sku_mrp")) ==>
      r == Err(ReadError(Get(item, "sku_mrp"), "toString"))
    ensures r.Ok? <==> !Nullish(item) && !Nullish(Get(item, "sku_mrp"))
    ensures r.Ok? ==>
      && r.value.name == Get(item, "sku_name")
      && r.value.sku == Get(item, "sku")
      && r.value.units == Get(item, "quantity")
      && r.value.selling_price == ToString(Get(item, "sku_mrp"))
      && r.value.discount == "" && r.value.tax == "" && r.value.hsn == ""
  {
    if Nullish(item) then Err(ReadError(item, "sku_name"))
    else
      var mrp := Get(item, "sku_mrp");
      if Nullish(mrp) then Err(ReadError(mrp, "toString"))
      else Ok(ItemPayload(Get(item, "sku_name"), Get(item, "sku"), Get(item, "quantity"),
                          ToString(mrp), "", "", ""))
  }

  /**
   * `items.map(...)` with the item mapping: one payload item per order
   * item, in order, or the error of the first item that cannot be mapped.
   */
  function TransformItems(items: seq<Js>): (r: Result<seq<ItemPayload>, Error>)
    ensures r.Ok? <==> forall i :: 0 <= i < |items| ==> ItemOf(items[i]).Ok?
    ensures r.Ok? ==>
      |r.value| == |items| && forall i :: 0 <= i < |items| ==> r.value[i] == ItemOf(items[i]).value
    ensures r.Err? ==>
      exists i :: 0 <= i < |items| && ItemOf(items[i]) == Err(r.error)
        && forall j :: 0 <= j < i ==> ItemOf(items[j]).Ok?
  {
    if items == [] then Ok([])
    else
      match ItemOf(items[0])
      case Err(e) => Err(e)
      case Ok(p) =>
        var rest := TransformItems(items[1..]);
        match rest
        case Err(e) =>
          ghost var i :| 0 <= i < |items[1..]| && ItemOf(items[1..][i]) == Err(e)
            && forall j :: 0 <= j < i ==> ItemOf(items[1..][j]).Ok?;
          assert ItemOf(items[i + 1]) == Err(e);
          Err(e)
        case Ok(ps) => Ok([p] + ps)
  }

  /** The payload posted to the carrier, with the carrier's field names. */
  datatype ShipmentPayload = ShipmentPayload(
    order_id: Js,
    order_date: Js,
    pickup_location: Js,
    billing_customer_name: string,
    billing_last_name: string,
    billing_address: Js,
    billing_address_2: Js,
    billing_city: Js,
    billing_pincode: Js,
    billing_state: Js,
    billing_country: Js,
    billing_email: Js,
    billing_phone: Js,
    shipping_is_billing: bool,
    order_items: seq<ItemPayload>,
    payment_method: string,
    sub_total: Js,
    length: Js,
    breadth: Js,
    height: Js,
    weight: Js)

  /**
   * An order `transformOrderData` can map without throwing: a name that is
   * falsy or a string, an array of items that can all be mapped, and
   * dimensions that are not null or undefined.
   */
  predicate Transformable(order: JsObject)
  {
    var items := Field(order, "order_items");
    && SplitName(Field(order, "customer_name")).Ok?
    && items.Arr?
    && (forall i :: 0 <= i < |items.elems| ==> ItemOf(items.elems[i]).Ok?)
    && !Nullish(Field(order, "dimensions"))
  }

  /**
   * `transformOrderData(order)`: the carrier's payload, its fields read from
   * the order's fields in the order the object literal evaluates them; the
   * first read that throws is the error.
   */
  function TransformOrderData(order: JsObject): (r: Result<ShipmentPayload, Error>)
    ensures r.Ok? <==> Transformable(order)
    ensures SplitName(Field(order, "customer_name")).Err? ==>
      r == Err(SplitName(Field(order, "customer_name")).error)
    ensures SplitName(Field(order, "customer_name")).Ok? && Nullish(Field(order, "order_items")) ==>
      r == Err(ReadError(Field(order, "order_items"), "map"))
    ensures (SplitName(Field(order, "customer_name")).Ok? && !Nullish(Field(order, "order_items"))
             && !Field(order, "order_items").Arr?) ==>
      r == Err(NotAFunction("orderData.order_items.map"))
    ensures (SplitName(Field(order, "customer_name")).Ok? && Field(order, "order_items").Arr?
             && TransformItems(Field(order, "order_items").elems).Err?) ==>
      r == Err(TransformItems(Field(order, "order_items").elems).error)
    ensures (SplitName(Field(order, "customer_name")).Ok? && Field(order, "order_items").Arr?
             && TransformItems(Field(order, "order_items").elems).Ok?
             && Nullish(Field(order, "dimensions"))) ==>
      r == Err(ReadError(Field(order, "dimensions"), "length"))
    ensures r.Ok? ==> PayloadOf(order, r.value)
  {
    match SplitName(Field(order, "customer_name"))
    case Err(e) => Err(e)
    case Ok(name) =>
      var items := Field(order, "order_items");
      if Nullish(items) then Err(ReadError(items, "map"))
      else if !items.Arr? then Err(NotAFunction("orderData.order_items.map"))
      else
        match TransformItems(items.elems)
        case Err(e) => Err(e)
        case Ok(mapped) =>
          var dimensions := Field(order, "dimensions");
          if Nullish(dimensions) then Err(ReadError(dimensions, "length"))
          else
            Ok(ShipmentPayload(
              order_id := Field(order, "order_id"),
              order_date := Field(order, "order_created_time"),
              pickup_location := Field(order, "pickup_location"),
              billing_customer_name := name.firstName,
              billing_last_name := name.lastName,
              billing_address := Field(order, "customer_address_line1"),
              billing_address_2 := Or(Field(order, "customer_address_line2"), Str("")),
              billing_city := Field(order, "customer_city"),
              billing_pincode := Field(order, "customer_pincode"),
              billing_state := Field(order, "customer_state"),
              billing_country := Field(order, "customer_country"),
              billing_email := Field(order, "customer_email"),
              billing_phone := Field(order, "customer_phone"),
              shipping_is_billing := true,
              order_items := mapped,
              payment_method := if Field(order, "order_type") == Str("COD") then "COD" else "Prepaid",
              sub_total := Field(order, "invoice_value"),
              length := Get(dimensions, "length"),
              breadth := Get(dimensions, "breadth"),
              height := Get(dimensions, "height"),
              weight := Get(dimensions, "weight")))
  }

  /**
   * What the payload of a transformable order says about it: the name
   * split, the copied billing fields, the second address line defaulting
   * to "", shipping to the billing address, one item per order item in
   * order, "COD" exactly when the order type is the string "COD" and
   * "Prepaid" otherwise, and the four dimensions copied unchanged.
   */
  ghost predicate PayloadOf(order: JsObject, p: ShipmentPayload)
    requires Transformable(order)
  {
    var items := Field(order, "order_items").elems;
    var dimensions := Field(order, "dimensions");
    && Name(p.billing_customer_name, p.billing_last_name) == SplitName(Field(order, "customer_name")).value
    && p.order_id == Field(order, "order_id")
    && p.order_date == Field(order, "order_created_time")
    && p.pickup_location == Field(order, "pickup_location")
    && p.billing_address == Field(order, "customer_address_line1")
    && (Truthy(Field(order, "customer_address_line2")) ==> p.billing_address_2 == Field(order, "customer_address_line2"))
    && (!Truthy(Field(order, "customer_address_line2")) ==> p.billing_address_2 == Str(""))
    && p.billing_city == Field(order, "customer_city")
    && p.billing_pincode == Field(order, "customer_pincode")
    && p.billing_state == Field(order, "customer_state")
    && p.billing_country == Field(order, "customer_country")
    && p.billing_email == Field(order, "customer_email")
    && p.billing_phone == Field(order, "customer_phone")
    && p.shipping_is_billing
    && |p.order_items| == |items|
    && (forall i :: 0 <= i < |items| ==> p.order_items[i] == ItemOf(items[i]).value)
    && (p.payment_method == "COD" <==> Field(order, "order_type") == Str("COD"))
    && (p.payment_method == "COD" || p.payment_method == "Prepaid")
    && p.sub_total == Field(order, "invoice_value")
    && p.length == Get(dimensions, "length")
    && p.breadth == Get(dimensions, "breadth")
    && p.height == Get(dimensions, "height")
    && p.weight == Get(dimensions, "weight")
  }

  /** The `error` object of a failed result: the message and, when the carrier replied, its status and body. */
  datatype ShipmentError = ShipmentError(message: string, status: Option<int>, data: Option<Js>)

  /** `{success: true, data}` or `{success: false, error}`. */
  datatype ShipmentResult = Succeeded(data: Js) | Failed(error: ShipmentError)

  /**
   * The `try`/`catch` around the retry loop: a returned value becomes a
   * success; a thrown error becomes a failure carrying its message and the
   * status and body of its response, if any.  When the loop throws
   * `undefined` (no attempt was allowed), reading its `message` in the
   * handler throws a TypeError that escapes.
   */
  function Normalise(outcome: RetryOutcome): (r: Result<ShipmentResult, Error>)
    ensures outcome.Returned? ==> r == Ok(Succeeded(outcome.value))
    ensures outcome.Threw? ==>
      && r.Ok? && r.value.Failed?
      && r.value.error.message == outcome.error.message
      && (r.value.error.status.Some? <==> outcome.error.response.Some?)
      && (r.value.error.data.Some? <==> outcome.error.response.Some?)
      && (outcome.error.response.Some? ==>
            && r.value.error.status.value == outcome.error.response.value.status
            && r.value.error.data.value == outcome.error.response.value.data)
    ensures outcome.ThrewUndefined? ==> r == Err(ReadError(Undefined, "message"))
  {
    match outcome
    case Returned(v) => Ok(Succeeded(v))
    case Threw(e) =>
      var status := if e.response.Some? then Some(e.response.value.status) else None;
      var data := if e.response.Some? then Some(e.response.value.data) else None;
      Ok(Failed(ShipmentError(e.message, status, data)))
    case ThrewUndefined => Err(ReadError(Undefined, "message"))
  }

  /** The k-th POST of `payload`, as the retry loop's operation. */
  function Attempts(carrier: (ShipmentPayload, nat) -> CallResult, payload: ShipmentPayload): nat -> CallResult
  {
    (k: nat) => carrier(payload, k)
  }

  /** The retry settings read from the environment, defaulting to 3 retries and 1000 ms. */
  function MaxRetriesSetting(env: Js): int
  {
    ParseIntOr(env, 3)
  }

  function InitialDelaySetting(env: Js): int
  {
    ParseIntOr(env, 1000)
  }

  /** `parseInt(undefined)` reads the string "undefined", which has no digits: NaN. */
  lemma UndefinedParsesToNaN()
    ensures ParseInt(ToString(Undefined)) == NaN
  {
    var s := ToString(Undefined);
    assert s == "undefined";
    assert s[0] == 'u' && !IsJsWhitespace(s[0]);
    assert TrimStart(s) == s;
    assert !IsRadixDigit(s[0], 10);
    assert DigitPrefix(s, 10) == [];
    assert ParseUnsigned(s) == NaN;
  }

  /** Unset variables give 3 retries and a 1000 ms base delay. */
  lemma UnsetSettingsDefault()
    ensures MaxRetriesSetting(Undefined) == 3 && InitialDelaySetting(Undefined) == 1000
  {
    UndefinedParsesToNaN();
  }

  /** A setting of "0" parses to the falsy 0 and so gives the default: retries cannot be turned off. */
  lemma ZeroSettingGivesDefault()
    ensures MaxRetriesSetting(Str("0")) == 3 && InitialDelaySetting(Str("0")) == 1000
  {
    ParseIntOfToString(0);
    assert ToString(Num(0)) == "0";
  }

  /** Any other integer setting is taken as written. */
  lemma NonzeroSettingKept(n: int)
    requires n != 0
    ensures MaxRetriesSetting(Str(IntToString(n))) == n
    ensures InitialDelaySetting(Str(IntToString(n))) == n
  {
    ParseIntOfToString(n);
  }

  class ShipmentService {
    const retryHandler: RetryHandler

    /** The service, configured from the MAX_RETRIES and INITIAL_RETRY_DELAY settings (undefined when unset). */
    constructor (maxRetriesEnv: Js, initialDelayEnv: Js)
      ensures retryHandler.maxRetries == MaxRetriesSetting(maxRetriesEnv)
      ensures retryHandler.initialDelay == InitialDelaySetting(initialDelayEnv)
    {
      retryHandler := new RetryHandler(MaxRetriesSetting(maxRetriesEnv), InitialDelaySetting(initialDelayEnv));
    }

    /**
     * How `createShipment(order)` settles: the payload is built before the
     * `try`, so a malformed order throws; otherwise the retry loop's outcome
     * is normalised.
     */
    function ShipmentOutcome(order: JsObject, carrier: (ShipmentPayload, nat) -> CallResult): (r: Result<ShipmentResult, Error>)
      ensures !Transformable(order) ==> r == Err(TransformOrderData(order).error)
      ensures r.Ok? ==> Transformable(order)
    {
      match TransformOrderData(order)
      case Err(e) => Err(e)
      case Ok(payload) => Normalise(retryHandler.Outcome(Attempts(carrier, payload)))
    }

    /** How many POSTs `createShipment(order)` makes. */
    function ShipmentCalls(order: JsObject, carrier: (ShipmentPayload, nat) -> CallResult): nat
    {
      match TransformOrderData(order)
      case Err(_) => 0
      case Ok(payload) => retryHandler.Calls(Attempts(carrier, payload))
    }

    /**
     * `createShipment(order)`: builds the payload, posts it through the
     * retry loop and reports the result.  Returns how it settles, the
     * payload sent (if any) and the number of POSTs.
     */
    method CreateShipment(order: JsObject, carrier: (ShipmentPayload, nat) -> CallResult, random: nat -> real)
      returns (r: Result<ShipmentResult, Error>, sent: Option<ShipmentPayload>, calls: nat)
      requires forall k :: 0.0 <= random(k) < 1.0
      ensures r == ShipmentOutcome(order, carrier)
      ensures calls == ShipmentCalls(order, carrier)
      ensures sent.Some? <==> Transformable(order)
      ensures sent.Some? ==> TransformOrderData(order) == Ok(sent.value)
    {
      var transformed := TransformOrderData(order);
      if transformed.Err? {
        return Err(transformed.error), None, 0;
      }
      var payload := transformed.value;
      sent := Some(payload);
      var outcome, n, delays := retryHandler.ExecuteWithRetry(Attempts(carrier, payload), random);
      calls := n;
      r := Normalise(outcome);
    }

    /** A malformed order throws before any POST is made. */
    lemma MalformedOrderThrows(order: JsObject, carrier: (ShipmentPayload, nat) -> CallResult)
      requires !Transformable(order)
      ensures ShipmentOutcome(order, carrier).Err?
      ensures ShipmentCalls(order, carrier) == 0
    {
    }

    /** With a non-negative retry count, a transformable order never makes `createShipment` throw. */
    lemma TransformableOrderNeverThrows(order: JsObject, carrier: (ShipmentPayload, nat) -> CallResult)
      requires Transformable(order)
      requires retryHandler.maxRetries >= 0
      ensures ShipmentOutcome(order, carrier).Ok?
      ensures ShipmentCalls(order, carrier) >= 1
    {
    }

    /**
     * With a negative retry count no POST is made, `throw lastError` throws
     * undefined, and reading its message throws a TypeError.
     */
    lemma NegativeRetriesThrow(order: JsObject, carrier: (ShipmentPayload, nat) -> CallResult)
      requires Transformable(order)
      requires retryHandler.maxRetries < 0
      ensures ShipmentOutcome(order, carrier) == Err(ReadError(Undefined, "message"))
      ensures ShipmentCalls(order, carrier) == 0
    {
    }

    /**
     * A success carries the body of some POST that resolved; a failure
     * carries the error of some POST that was rejected.
     */
    lemma ResultComesFromACall(order: JsObject, carrier: (ShipmentPayload, nat) -> CallResult)
      requires Transformable(order)
      requires retryHandler.maxRetries >= 0
      ensures var payload := TransformOrderData(order).value;
        var r := ShipmentOutcome(order, carrier);
        var last := ShipmentCalls(order, carrier) - 1;
        && 0 <= last <= retryHandler.maxRetries
        && (r.value.Succeeded? ==> carrier(payload, last) == Resolved(r.value.data))
        && (r.value.Failed? ==>
              carrier(payload, last).Rejected? && carrier(payload, last).error.message == r.value.error.message)
    {
    }

    /**
     * A failure that reports a retryable condition (no response, 408, 429
     * or a 5xx status) comes only after all maxRetries + 1 POSTs were made.
     */
    lemma RetryableFailureExhaustedRetries(order: JsObject, carrier: (ShipmentPayload, nat) -> CallResult)
      requires Transformable(order)
      requires ShipmentOutcome(order, carrier).Ok? && ShipmentOutcome(order, carrier).value.Failed?
      requires var status := ShipmentOutcome(order, carrier).value.error.status;
        status.None? || status.value == 408 || status.value == 429 || status.value >= 500
      ensures ShipmentCalls(order, carrier) == retryHandler.maxRetries + 1
    {
      var payload := TransformOrderData(order).value;
      var fn := Attempts(carrier, payload);
      var stop := retryHandler.StopAttempt(fn, 0);
      assert fn(stop).Rejected? && retryHandler.IsRetryableError(fn(stop).error);
    }
  }
}
