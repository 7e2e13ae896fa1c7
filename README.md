# Order pipeline with carrier shipments: a Dafny model

This project models the order-creation path of a small Express/PostgreSQL
service that books a shipment with a third-party carrier for every order:

- **Retry handler.** This is `src/utils/retryHandler.js`. It computes
  exponential back-off with jitter, classifies errors as retryable or not,
  and runs the bounded retry loop around one remote call.
- **Shipment gateway.** This is `src/services/shipmentService.js`. It splits
  the customer name, maps the order to the carrier's payload, posts it
  through the retry loop, and reports the outcome as a `{success, data}` or
  `{success: false, error}` value.
- **Order orchestrator.** This is `createOrder` in
  `src/services/orderService.js`. It runs one database transaction:
  - BEGIN, then the duplicate check, then the carrier call;
  - the order-row INSERT, then one INSERT per item;
  - COMMIT, or ROLLBACK and rethrow;
  - the connection is released on every path.
- **Controller.** This is `src/controllers/orderController.js`. It covers
  request validation, the 201/400/409/500 mapping of `createOrder`, the 404
  branch of `getOrder`, and the paging defaults of `getAllOrders`.
- **Authentication middleware.** This is `src/middleware/authMiddleware.js`,
  the bearer-header check. It loosely follows section 2.1 of RFC 6750, but
  matches the scheme case-sensitively and does not check the token syntax.

JavaScript values are modelled by the datatype `JsValues.Js`. The model
states the JavaScript semantics the code relies on explicitly:

- truthiness and `||`;
- property reads, including the TypeError thrown when reading a property of
  null or undefined;
- `String(v)`, `trim`, `split`/`join` on one character, `includes`, and
  `parseInt` (ECMA-262 sections 19.2.5 and 22.1.3).

Effects are replaced by inputs:

- **Carrier.** The carrier is a function `carrier(payload, k)`: how the k-th
  POST of `payload` settles.
- **`Math.random()`.** It is a function `random(k)`, the draw for the pause
  after attempt k, in [0, 1).
- **Insert failures.** `insertFails(k)` is the error, if any, of INSERT
  number k: 0 is the order row, i + 1 is item i.
- **Clock.** The insert time is a parameter `now`.

Pauses are returned as the list of delays the loop would sleep for.

Modules:

- `Wrappers`: Option and Result.
- `JsValues`, `JsStrings`: JavaScript values and string built-ins.
- `Retry`: the class `RetryHandler`.
- `ShipmentService`: the payload mapping and the class `ShipmentService`.
- `OrderService`:
  - the class `Store`, which holds the two tables as a map and a sequence;
  - the class `OrderService`, whose `CreateOrder` works on a copy of the
    tables, writes it back on COMMIT and drops it on ROLLBACK. It is proved
    against the specification function `Run`.
- `OrderController`.
- `AuthMiddleware`.

Notable behaviours of the code, all stated in the model:

- The gateway can throw. `transformOrderData` runs before the `try`, so a
  malformed order (missing `dimensions`, an item without `sku_mrp`, a
  truthy name that is not a string) makes `createShipment` throw, and `createOrder` rolls
  back.
- Names are not split on runs of whitespace. The code splits the trimmed
  name on the single character ' ', so extra spaces stay at the front of
  the last name.
- Retries cannot be turned off. A `MAX_RETRIES` of "0" parses to the falsy
  0, and `|| 3` replaces it with 3.
- A negative `MAX_RETRIES` makes the loop run zero times. `throw lastError`
  then throws undefined, and reading its `message` in the gateway's `catch`
  throws a TypeError. `ShipmentService.ShipmentService.NegativeRetriesThrow`
  states this.

## Model

| member | source | states |
|---|---|---|
| JsStrings.Split | src/services/shipmentService.js:37 | `split(' ')` gives pieces without the separator; joining them back gives the input; there is exactly one piece iff the separator is absent |
| JsStrings.Trim | src/services/shipmentService.js:37 | `trim()` removes exactly the leading and trailing whitespace; the result neither starts nor ends with whitespace |
| JsStrings.ParseIntOr | src/services/shipmentService.js:12-13 | `parseInt(v) \|\| d` is `d` when parsing gives NaN or 0, and is the parsed integer otherwise; it is never 0 when `d` is not |
| JsStrings.ParseIntOfToString | src/controllers/orderController.js:126 | `parseInt(String(n)) == n` for every integer of the model, whose numbers are unbounded integers, so a numeric query value is read back exactly |
| Retry.RetryHandler.constructor | src/utils/retryHandler.js:6-9 | the handler keeps the retry count and base delay it was given |
| Retry.RetryHandler.ExponentialDelay | src/utils/retryHandler.js:18 | `initialDelay * 2^attempt` has the sign of `initialDelay` and is at least `initialDelay` when that is positive |
| Retry.JitterOf | src/utils/retryHandler.js:21 | the jitter `random * 0.3 * e` lies in [0, 0.3·e) for a positive `e` and is 0 for `e` = 0 |
| Retry.RetryHandler.CalculateDelay | src/utils/retryHandler.js:16-24 | for a positive base delay, the delay lies in [initialDelay·2^a, 1.3·initialDelay·2^a) |
| Retry.RetryHandler.ExponentialDelayGrowth | src/utils/retryHandler.js:18 | the exponential part doubles with each attempt and grows by 2^k over k attempts |
| Retry.RetryHandler.DelayGrowsNetOfJitter | src/utils/retryHandler.js:16-24 | whatever both random draws are, the next delay is at least twice the previous delay minus its jitter |
| Retry.RetryHandler.IsRetryableError | src/utils/retryHandler.js:31-44 | no response gives retryable; with a response, retryable iff the status is 408, 429 or ≥ 500, so every other 4xx and everything below 400 is not |
| Retry.RetryHandler.StopAttempt | src/utils/retryHandler.js:50-74 | the loop stops at the first attempt that resolves, fails non-retryably, or is attempt maxRetries; every earlier attempt failed retryably |
| Retry.RetryHandler.StopsAt | src/utils/retryHandler.js:50-74 | the stopping attempt is unique: any attempt with those properties is it |
| Retry.RetryHandler.StoppedAt | src/utils/retryHandler.js:50-84 | stopping at attempt k means k + 1 calls and k pauses, and settling with that attempt's value or error |
| Retry.RetryHandler.SucceedsAtAttempt | src/utils/retryHandler.js:50-60 | first success at attempt k ≤ maxRetries returns that value after exactly k + 1 calls |
| Retry.RetryHandler.ExhaustsRetries | src/utils/retryHandler.js:61-84 | always failing retryably gives maxRetries + 1 calls, maxRetries pauses, and the last failure thrown |
| Retry.RetryHandler.FatalErrorRethrown | src/utils/retryHandler.js:70-74 | a non-retryable failure at attempt k is rethrown at once: k + 1 calls, no pause after it |
| Retry.RetryHandler.PausesFollowRetryableFailures | src/utils/retryHandler.js:64-80 | on every path the pauses number the calls minus one; each follows a retryable failure of an attempt below maxRetries |
| Retry.RetryHandler.ExecuteWithRetry | src/utils/retryHandler.js:47-85 | the loop's outcome, number of calls and the delays slept (the i-th being `calculateDelay(i)`) are those of the specification `Outcome`, `Calls` and `Delays` |
| ShipmentService.SplitTrimmed | src/services/shipmentService.js:37-45 | a name without a space gives (name, "."); otherwise the first name has no space and first + " " + last is the trimmed name |
| ShipmentService.SplitName | src/services/shipmentService.js:32-46 | a falsy name gives ("Customer", "Name"); a string is trimmed and split; any other truthy value throws "fullName.trim is not a function" |
| ShipmentService.WhitespaceOnlyName | src/services/shipmentService.js:37-40 | a non-empty all-whitespace name gives ("", ".") |
| ShipmentService.SplitAtFirstSpace | src/services/shipmentService.js:37-45 | the split happens at the first space: the first name is the text before it and the last name all text after it |
| ShipmentService.DoubleSpaceKeptInLastName | src/services/shipmentService.js:37-43 | "Jane  Doe" gives last name " Doe": the split is on single spaces |
| ShipmentService.ItemOf | src/services/shipmentService.js:66-74 | an item maps to name/sku/units from sku_name/sku/quantity, the price as the string of sku_mrp and empty discount, tax and hsn; a null item or sku_mrp throws the read's TypeError |
| ShipmentService.TransformItems | src/services/shipmentService.js:66-74 | the items map one to one, in order, iff every item maps; otherwise the error is the first failing item's |
| ShipmentService.TransformOrderData | src/services/shipmentService.js:48-82 | succeeds iff the order is transformable, giving a payload satisfying `PayloadOf`: the name split, the copied fields, address line 2 defaulting to "", `shipping_is_billing` true, "COD" iff `order_type` is "COD" and "Prepaid" otherwise, and the dimensions copied; each failing read gives its own error in evaluation order |
| ShipmentService.Normalise | src/services/shipmentService.js:101-124 | a returned value gives `{success: true, data}`; a thrown error gives `{success: false, error}` with its message, plus status and data exactly when it has a response; a thrown undefined makes the handler throw |
| ShipmentService.UndefinedParsesToNaN | src/services/shipmentService.js:12-13 | `parseInt(undefined)` is NaN |
| ShipmentService.UnsetSettingsDefault | src/services/shipmentService.js:11-14 | unset settings give 3 retries and a 1000 ms base delay |
| ShipmentService.ZeroSettingGivesDefault | src/services/shipmentService.js:12-13 | a setting of "0" gives the default, not 0 |
| ShipmentService.NonzeroSettingKept | src/services/shipmentService.js:12-13 | any non-zero integer setting of the model, written as its decimal numeral, is used as written |
| ShipmentService.ShipmentService.constructor | src/services/shipmentService.js:11-14 | the retry handler is built from the two parsed settings |
| ShipmentService.ShipmentService.ShipmentOutcome | src/services/shipmentService.js:89-125 | a non-transformable order throws the transform's error; a result is only ever produced for a transformable order |
| ShipmentService.ShipmentService.CreateShipment | src/services/shipmentService.js:89-125 | settles as `ShipmentOutcome`, makes `ShipmentCalls` POSTs, and sends the transformed payload iff the order is transformable |
| ShipmentService.ShipmentService.MalformedOrderThrows | src/services/shipmentService.js:90 | a malformed order throws and no POST is made |
| ShipmentService.ShipmentService.TransformableOrderNeverThrows | src/services/shipmentService.js:101-124 | with maxRetries ≥ 0, a transformable order always yields a result, after at least one POST |
| ShipmentService.ShipmentService.NegativeRetriesThrow | src/services/shipmentService.js:111-119 | with maxRetries < 0 no POST is made and reading `message` of undefined throws |
| ShipmentService.ShipmentService.ResultComesFromACall | src/services/shipmentService.js:101-123 | a success carries the body of the last POST, which resolved; a failure carries the message of the last POST, which was rejected |
| ShipmentService.ShipmentService.RetryableFailureExhaustedRetries | src/services/shipmentService.js:101-123 | a failure with no status, 408, 429 or ≥ 500 only comes after all maxRetries + 1 POSTs |
| OrderService.ShipmentColumnsOf | src/services/orderService.js:27-35 | for a successful result with a truthy body: id = the body's shipment_id, else its order_id, else null; status = the body's status, else "created". Otherwise id null and status "pending" |
| OrderService.OrderRowOf | src/services/orderService.js:53-79 | each request column holds the request's field, `shipment_api_response` holds the gateway's result, and the shipment columns are derived from it |
| OrderService.ItemRowOf | src/services/orderService.js:91-99 | the item row copies the item's fields under the order id; brand_name and product_image default to "" when falsy |
| OrderService.ItemRows | src/services/orderService.js:90-100 | one item row per item, in order |
| OrderService.FirstFailure | src/services/orderService.js:81-100 | the first failing INSERT in a range, with none failing before it, or none at all |
| OrderService.DuplicateOrderError | src/services/orderService.js:19 | the duplicate error carries no HTTP response |
| OrderService.DuplicateErrorSaysAlreadyExists | src/services/orderService.js:19 | the duplicate error's message contains "already exists" |
| OrderService.InsertItems | src/services/orderService.js:90-100 | the loop inserts the item rows in order and stops at the first failing INSERT; with no failure the item table gains exactly those rows |
| OrderService.ControlCounts | src/services/orderService.js:102-115 | a log of BEGIN, the SELECT, INSERTs, then COMMIT or ROLLBACK and the release, has one release and exactly one of COMMIT and ROLLBACK |
| OrderService.OrderService.Run | src/services/orderService.js:6-116 | a failed call leaves both tables as they were, and sends only INSERTs between the control statements |
| OrderService.OrderService.Record | src/services/orderService.js:27-109 | after the gateway answers, a failed INSERT leaves the tables unchanged |
| OrderService.OrderService.CreateOrder | src/services/orderService.js:6-116 | the result, the new tables, the statements sent and the carrier POSTs are those of `Run` on the old tables; consistent tables stay consistent |
| OrderService.OrderService.RecordOrder | src/services/orderService.js:27-109 | the shipment columns, order-row INSERT and item loop produce the outcome, tables and INSERTs of `Record` |
| OrderService.OrderService.RunKeepsTablesValid | src/services/orderService.js:81-102 | every order row stays stored under its own id, and every item row belongs to a stored order |
| OrderService.OrderService.RecordKeepsTablesValid | src/services/orderService.js:81-102 | recording a new order keeps the tables consistent |
| OrderService.OrderService.DuplicateOrderRejected | src/services/orderService.js:13-20 | a stored order id gives the "already exists" error before any POST and before any INSERT, with the tables unchanged |
| OrderService.OrderService.FailedShipmentStillRecorded | src/services/orderService.js:27-35 | a failed shipment still commits the order, with shipment id null and status "pending" |
| OrderService.OrderService.CommitAddsOneOrder | src/services/orderService.js:102-109 | on success: exactly one new order row under the new id; the item rows appended in order; nothing else changed; the returned row stores the returned shipment result |
| OrderService.OrderService.InsertFailureRollsBack | src/services/orderService.js:110-112 | the first failing INSERT k rolls back with its error after k + 1 INSERTs: tables unchanged, but the carrier POSTs already made |
| OrderService.OrderService.ReleasedExactlyOnce | src/services/orderService.js:9-115 | the log starts with BEGIN and ends with the release, which occurs once; COMMIT occurs iff the call succeeds, ROLLBACK iff it fails |
| OrderController.FalsyProps | src/controllers/orderController.js:31 | the names whose property is falsy, exactly, in declared order |
| OrderController.FalsyPropsCounts | src/controllers/orderController.js:31 | each falsy name is reported as many times as it is listed, a truthy one never |
| OrderController.NoFalsyProps | src/controllers/orderController.js:31 | when every property is truthy, the list is empty |
| OrderController.Validate | src/controllers/orderController.js:13-61 | missing fields, then a non-array or empty `order_items`, then missing dimensions each give 400, with the exact body of each: the falsy required fields, the "order_items must be a non-empty array" message, or the falsy dimensions in the order height, length, weight, breadth; the body passes iff every required field and dimension is truthy and `order_items` is a non-empty array |
| OrderController.ZeroDimensionMissing | src/controllers/orderController.js:50-61 | a dimension of 0 is reported missing |
| OrderController.ShipmentResultJson | src/controllers/orderController.js:74 | the JSON of the gateway result has `success` true iff it succeeded |
| OrderController.CreatedResponse | src/controllers/orderController.js:63-75 | 201, with order_id, shipment_id, shipment_status and created_at taken from the stored row |
| OrderController.ErrorResponse | src/controllers/orderController.js:79-90 | 409 iff the message contains "already exists", else 500 carrying the message |
| OrderController.OutcomeResponse | src/controllers/orderController.js:63-90 | success gives 201, an error 409 or 500 |
| OrderController.DuplicateIsConflict | src/controllers/orderController.js:79-84 | the duplicate-order error is answered with 409 |
| OrderController.CreateOrder | src/controllers/orderController.js:9-92 | the service is called iff validation passes; a rejection leaves the store unchanged; otherwise the response maps the outcome of `Run` and the store holds its tables |
| OrderController.RepeatedOrderIsConflict | src/controllers/orderController.js:79-84 | a stored order id is answered with 409 and the tables are unchanged |
| OrderController.CreatedReportsStoredOrder | src/controllers/orderController.js:65-75 | a created order is answered with 201, its data naming the request's order id and the shipment id, status and time stored with it |
| OrderController.GetOrderResponse | src/controllers/orderController.js:95-121 | no order gives 404 "Order not found", an order 200 with it, an error 500 |
| OrderController.ListingWindow | src/controllers/orderController.js:126-127 | the limit is never 0; an unparsable limit gives 50 and an unparsable offset gives 0 |
| OrderController.ListingLimitDefaults | src/controllers/orderController.js:126 | `limit=0` gives 50; any other integer of the model, written as its decimal numeral, is kept |
| OrderController.ListingWithoutQuery | src/controllers/orderController.js:126-127 | no query parameters give limit 50 and offset 0 |
| AuthMiddleware.Authenticate | src/middleware/authMiddleware.js:5-29 | passes (next called with the token) iff the header starts with "Bearer " and has more after it; the token is the header minus that prefix; otherwise 401 with the message of the failing check |
| AuthMiddleware.BearerRoundTrip | src/middleware/authMiddleware.js:15-28 | "Bearer " + token gives back exactly the token for every non-empty token, blank ones included |
| AuthMiddleware.PrefixAloneRefused | src/middleware/authMiddleware.js:19-24 | "Bearer " alone gives 401 "Invalid authentication token" |
| AuthMiddleware.LowerCaseSchemeRefused | src/middleware/authMiddleware.js:8-13 | "bearer " (lower case) gives 401 "Missing or invalid Authorization header" |

## Left out

- **HTTP client.** The axios client, its 30 s timeout and its headers are
  replaced by the `carrier` function.
- **Sleeps and logging.** `sleep` is not performed; its delays are
  returned. The `console` logging is dropped.
- **Fractional numbers.** `Math.random()` is a parameter. The delay is
  an exact real, so floating-point rounding of `Math.pow` and of the jitter
  is not modelled.
- **Number range.** JavaScript numbers are modelled as unbounded
  integers. So the loss of precision of doubles above 2^53 is not modelled,
  and neither is the exponent form `String` gives from 1e21 on. For
  example, `parseInt(String(1e21))` is 1 in JavaScript. The round trips
  `JsStrings.ParseIntOfToString`, `ShipmentService.NonzeroSettingKept` and
  `OrderController.ListingLimitDefaults` hold on the model's integers only.
- **Environment variables.** They are the constructor's parameters.
- **Queries that only read.** The SQL behind `getOrderById` and
  `getAllOrders` is out of scope. The controller takes the service's answer
  as input.
- **Storage conversions.** `JSON.stringify` of the dimensions and of the
  shipment result, and PostgreSQL's text conversion of values, are not
  modelled. The order table is keyed by the JavaScript value of `order_id`,
  so ids 5 and "5" are distinct here, though they would collide in the
  VARCHAR column.
- **Database-generated values.** Serial ids and the database's
  timestamps are not modelled; `created_at` and `updated_at` are the
  parameter `now`.
- **Database constraints.** The unique, foreign-key and NOT NULL
  constraints appear only as failures given by `insertFails`.
- **Connection failures.** `pool.connect` and failures of BEGIN, the
  SELECT, COMMIT and ROLLBACK are not modelled.
- **Concurrency.** Simultaneous `createOrder` calls and the connection
  pool are not modelled. A call is one transaction run to completion.
- **Inherited properties.** Objects have only their own properties, so
  inherited ones and objects with a custom `toString` are not modelled.
  Reading `length` of a string or an array is modelled.
- **Characters.** Strings are sequences of characters, not UTF-16 code
  units.
- **Response serialisation.** `res.json` serialisation, including the
  dropping of undefined properties, is not modelled. Response bodies are
  JavaScript values.
- **Request shapes.** The request body is a plain object and the
  Authorization header is a string or absent. A body that is not an
  object is not modelled.
