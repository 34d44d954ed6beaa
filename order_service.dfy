/** frontend/src/services/orderService.js: the browser-side checks made
    before an order request is sent, and the errors the caller sees. Each
    operation yields the request it sends (None when a check rejects the
    input first) and its result, given the server's `response` to that
    request. A check that fails throws inside the `try`, so its message is
    wrapped by the same `catch` as a failed request. */
module OrderService {
  import opened Text
  import opened Js
  import opened Store
  import Http
  import OrdersController
  import OrderModel

  /** An HTTP request to the backend. */
  datatype Request = Request(verb: string, path: string, body: Fields)

  /** A failed request: the HTTP status when there is one, and the message. */
  datatype ApiError = ApiError(status: Option<int>, message: string)

  datatype ApiResult<T> = Answered(value: T) | Failed(err: ApiError)

  /** The request an operation sent, if any, and what it returns or throws. */
  datatype Outcome<T> = Outcome(sent: Option<Request>, result: Result<T>)

  /** The statuses updateOrderStatus accepts. */
  const ORDER_STATUSES: set<string> := {"pending", "processing", "completed", "cancelled"}

  /** The spellings getOrdersByStatus compares the normalised query with. */
  const CAPITALISED_STATUSES: set<string> := {"Pending", "Processing", "Completed", "Cancelled"}

  /** Stands for the message of the TypeError thrown by `toLowerCase` on an
      order status that is not text. */
  const STATUS_TYPE_ERROR := "order.status.toLowerCase is not a function"

  /** axios's message for a reply outside 2xx whose body gives none. */
  function AxiosMessage(code: int): string {
    "Request failed with status code " + DecimalText(code)
  }

  /** The message the response interceptor throws for a failed reply: the
      body's `error` when it is a non-empty text, otherwise axios's own
      message. The development error body's `error` is the error object,
      which becomes "[object Object]". */
  function ErrorText(code: int, body: Http.Body): string {
    match body
    case ErrorBody(e) => if e != "" then e else AxiosMessage(code)
    case ErrorDetailsBody(e, _) => if e != "" then e else AxiosMessage(code)
    case DebugBody(_, _, _) => "[object Object]"
    case _ => AxiosMessage(code)
  }

  /** What a call through the `api` instance yields for the reply the
      server sends: the JSON body of a 2xx reply (the response interceptor
      returns `response.data`), otherwise a new Error built from the
      message alone, so it carries no HTTP status. */
  function Received(reply: Http.Reply): (r: ApiResult<Http.Body>)
    ensures var sent := Http.Delivered(reply);
      && (r.Answered? <==> 200 <= sent.code < 300)
      && (r.Answered? ==> r.value == sent.body)
      && (r.Failed? ==> r.err == ApiError(None, ErrorText(sent.code, sent.body)))
    ensures reply.Next? ==> r == Failed(ApiError(None, Http.SERVER_ERROR))
    ensures r.Failed? ==> r.err.status.None?
  {
    var sent := Http.Delivered(reply);
    if 200 <= sent.code < 300 then Answered(sent.body)
    else Failed(ApiError(None, ErrorText(sent.code, sent.body)))
  }

  /** No error that reaches the service's catch blocks through `api` has a
      status, so their 404 test never holds: a missing order surfaces as
      the prefixed server message, never as "Order not found". */
  lemma NotFoundNeverRecognised(prefix: string, reply: Http.Reply)
    requires Received(reply).Failed?
    ensures Rethrow404(prefix, Received(reply).err) == PlainError(prefix + Received(reply).err.message)
  {
  }

  /** A catch block that turns a 404 into "Order not found" and prefixes
      every other message. */
  function Rethrow404(prefix: string, e: ApiError): (err: Error)
    ensures e.status == Some(404) ==> err == PlainError("Order not found")
    ensures e.status != Some(404) ==> err == PlainError(prefix + e.message)
  {
    if e.status == Some(404) then PlainError("Order not found") else PlainError(prefix + e.message)
  }

  /** The reason createOrder refuses the order data, if it does. */
  function CreateOrderProblem(orderData: Fields): (p: Option<string>)
    ensures !Truthy(Get(orderData, "productId")) || !Truthy(Get(orderData, "customerId")) ==>
      p == Some("Product ID and Customer ID are required")
    ensures Truthy(Get(orderData, "productId")) && Truthy(Get(orderData, "customerId")) ==>
      (p.Some? <==> !Truthy(Get(orderData, "quantity")) || LessThan(Get(orderData, "quantity"), 1))
    ensures p.Some? && Truthy(Get(orderData, "productId")) && Truthy(Get(orderData, "customerId")) ==>
      p == Some("Valid quantity is required")
  {
    if !Truthy(Get(orderData, "productId")) || !Truthy(Get(orderData, "customerId")) then
      Some("Product ID and Customer ID are required")
    else if !Truthy(Get(orderData, "quantity")) || LessThan(Get(orderData, "quantity"), 1) then
      Some("Valid quantity is required")
    else None
  }

  /** `createOrder(orderData)` */
  function CreateOrder(orderData: Fields, response: ApiResult<Fields>): (o: Outcome<Fields>)
    ensures o.sent.None? <==> CreateOrderProblem(orderData).Some?
    ensures o.sent.None? ==> o.result == Err(PlainError("Failed to create order: " + CreateOrderProblem(orderData).value))
    ensures o.sent.Some? ==> o.sent.value == Request("POST", "/orders", orderData)
    ensures o.sent.Some? ==> Truthy(Get(o.sent.value.body, "productId"))
    ensures o.sent.Some? && response.Answered? ==> o.result == Ok(response.value)
    ensures o.sent.Some? && response.Failed? ==> o.result == Err(PlainError("Failed to create order: " + response.err.message))
  {
    match CreateOrderProblem(orderData)
    case Some(problem) => Outcome(None, Err(PlainError("Failed to create order: " + problem)))
    case None =>
      var sent := Some(Request("POST", "/orders", orderData));
      match response
      case Answered(order) => Outcome(sent, Ok(order))
      case Failed(e) => Outcome(sent, Err(PlainError("Failed to create order: " + e.message)))
  }

  /** A quantity that is not a number is let through: `"abc" < 1` is false. */
  lemma NonNumericQuantityIsSent(productId: string, customerId: string, response: ApiResult<Fields>)
    requires productId != "" && customerId != ""
    ensures var data := map["productId" := Str(productId), "customerId" := Str(customerId), "quantity" := Str("abc")];
      CreateOrder(data, response).sent.Some?
  {
    var data := map["productId" := Str(productId), "customerId" := Str(customerId), "quantity" := Str("abc")];
    assert !IsDigit(data["quantity"].s[0]);
  }

  /** `updateOrderStatus(id, status)` */
  function UpdateOrderStatus(id: string, status: Option<Value>, response: ApiResult<Fields>): (o: Outcome<Fields>)
    ensures o.sent.Some? <==> status.Some? && status.value.Str? && status.value.s in ORDER_STATUSES
    ensures o.sent.None? ==> o.result == Err(PlainError("Failed to update order status: " + "Invalid order status"))
    ensures o.sent.Some? ==> o.sent.value == Request("PUT", "/orders/" + id, map["status" := status.value])
    ensures o.sent.Some? ==> OrdersController.IsValidStatus(o.sent.value.body["status"])
    ensures o.sent.Some? && response.Failed? ==> o.result == Err(Rethrow404("Failed to update order status: ", response.err))
    ensures o.sent.Some? && response.Answered? ==> o.result == Ok(response.value)
  {
    if !(status.Some? && status.value.Str? && status.value.s in ORDER_STATUSES) then
      Outcome(None, Err(Rethrow404("Failed to update order status: ", ApiError(None, "Invalid order status"))))
    else
      var sent := Some(Request("PUT", "/orders/" + id, map["status" := status.value]));
      match response
      case Answered(order) => Outcome(sent, Ok(order))
      case Failed(e) => Outcome(sent, Err(Rethrow404("Failed to update order status: ", e)))
  }

  /** `order.status` is text, so `toLowerCase` can be called on it. */
  predicate HasTextStatus(order: Fields) {
    "status" in order && order["status"].Str?
  }

  /** `order.status.toLowerCase() === status.toLowerCase()` */
  predicate SameStatus(order: Fields, status: string)
    requires HasTextStatus(order)
  {
    Lower(order["status"].s) == Lower(status)
  }

  /** The orders whose status equals `status` up to letter case, in order. */
  function StatusMatches(orders: seq<Fields>, status: string): (r: seq<Fields>)
    requires forall o :: o in orders ==> HasTextStatus(o)
    ensures forall o :: o in r <==> o in orders && SameStatus(o, status)
    ensures Subsequence(r, orders)
  {
    var keep := (o: Fields) => HasTextStatus(o) && SameStatus(o, status);
    FilterIsSubsequence(orders, keep);
    Filter(orders, keep)
  }

  /** Stands for the message of the TypeError thrown by `orders.filter`
      when the fetched value is not an array. */
  const FILTER_TYPE_ERROR := "orders.filter is not a function"

  /** `getOrdersByStatus(status)`. `response` is what `ordersApi.getAll()`
      yields: the JSON body of `GET /orders`, or the error it throws. Only
      an array body can be filtered. */
  function GetOrdersByStatus(status: string, response: ApiResult<Http.Body>): (o: Outcome<seq<Fields>>)
    ensures o.sent.Some? <==> Capitalize(status) in CAPITALISED_STATUSES
    ensures o.sent.None? ==> o.result == Err(PlainError("Failed to fetch orders by status: Invalid status parameter"))
    ensures o.sent.Some? ==> o.sent.value == Request("GET", "/orders", map[])
    ensures o.sent.Some? && response.Failed? ==>
      o.result == Err(PlainError("Failed to fetch orders by status: " + response.err.message))
    ensures o.sent.Some? && response.Answered? && !response.value.ListBody? ==>
      o.result == Err(PlainError("Failed to fetch orders by status: " + FILTER_TYPE_ERROR))
    ensures o.sent.Some? && response.Answered? && response.value.ListBody? &&
            (exists x :: x in response.value.records && !HasTextStatus(x)) ==>
      o.result == Err(PlainError("Failed to fetch orders by status: " + STATUS_TYPE_ERROR))
    ensures o.result.Ok? ==>
      && response.Answered? && response.value.ListBody?
      && (forall x :: x in o.result.value <==> x in response.value.records && HasTextStatus(x) && SameStatus(x, status))
      && Subsequence(o.result.value, response.value.records)
  {
    if Capitalize(status) !in CAPITALISED_STATUSES then
      Outcome(None, Err(PlainError("Failed to fetch orders by status: Invalid status parameter")))
    else
      var sent := Some(Request("GET", "/orders", map[]));
      match response
      case Failed(e) => Outcome(sent, Err(PlainError("Failed to fetch orders by status: " + e.message)))
      case Answered(body) =>
        if !body.ListBody? then
          Outcome(sent, Err(PlainError("Failed to fetch orders by status: " + FILTER_TYPE_ERROR)))
        else if exists x :: x in body.records && !HasTextStatus(x) then
          Outcome(sent, Err(PlainError("Failed to fetch orders by status: " + STATUS_TYPE_ERROR)))
        else
          Outcome(sent, Ok(StatusMatches(body.records, status)))
  }

  /** Against this backend the status listing never succeeds: `GET /orders`
      answers the `{ data }` envelope rather than an array, so every
      accepted query fails on `orders.filter`, and a store failure arrives
      as the backend's "Failed to fetch orders". */
  lemma StatusListingAlwaysFails(orders: Table, status: string)
    requires Lower(status) in ORDER_STATUSES
    ensures var o := GetOrdersByStatus(status, Received(OrdersController.GetAllOrders(orders)));
      && o.sent.Some?
      && o.result == Err(PlainError("Failed to fetch orders by status: " +
                                    if orders.outage.None? then FILTER_TYPE_ERROR else "Failed to fetch orders"))
  {
    StatusAcceptedInAnyCase(status);
  }

  /** Any letter casing of the four statuses is accepted, and nothing else. */
  lemma StatusAcceptedInAnyCase(status: string)
    ensures Capitalize(status) in CAPITALISED_STATUSES <==> Lower(status) in ORDER_STATUSES
  {
    var c, l := Capitalize(status), Lower(status);
    assert c == "Pending" <==> l == "pending" by {
      CapitalisedWord(status, "Pending", "pending");
    }
    assert c == "Processing" <==> l == "processing" by {
      CapitalisedWord(status, "Processing", "processing");
    }
    assert c == "Completed" <==> l == "completed" by {
      CapitalisedWord(status, "Completed", "completed");
    }
    assert c == "Cancelled" <==> l == "cancelled" by {
      CapitalisedWord(status, "Cancelled", "cancelled");
    }
    WordwiseMembership(c, l);
  }

  /** Membership in the two status lists follows word by word. */
  lemma WordwiseMembership(c: string, l: string)
    requires c == "Pending" <==> l == "pending"
    requires c == "Processing" <==> l == "processing"
    requires c == "Completed" <==> l == "completed"
    requires c == "Cancelled" <==> l == "cancelled"
    ensures c in CAPITALISED_STATUSES <==> l in ORDER_STATUSES
  {
  }

  /** One status word: Capitalize yields its capitalised spelling exactly
      when the query lower-cases to its lower-case spelling. */
  lemma CapitalisedWord(status: string, capitalised: string, lower: string)
    requires |capitalised| == |lower| >= 1 && 'a' <= lower[0] <= 'z'
    requires capitalised[0] as int == lower[0] as int - 32
    requires capitalised[1..] == lower[1..]
    requires forall i :: 0 <= i < |lower| ==> 'a' <= lower[i] <= 'z'
    ensures Capitalize(status) == capitalised <==> Lower(status) == lower
  {
    LowerOfCapitalised(capitalised, lower);
    CapitalizeMatchesLower(status, capitalised);
  }

  /** A capitalised lower-case word lowers back to the word, and has no
      upper-case letter after its first. */
  lemma LowerOfCapitalised(capitalised: string, lower: string)
    requires |capitalised| == |lower| >= 1 && 'a' <= lower[0] <= 'z'
    requires capitalised[0] as int == lower[0] as int - 32
    requires capitalised[1..] == lower[1..]
    requires forall i :: 0 <= i < |lower| ==> 'a' <= lower[i] <= 'z'
    ensures Lower(capitalised) == lower
    ensures 'A' <= capitalised[0] <= 'Z'
    ensures forall i :: 1 <= i < |capitalised| ==> !('A' <= capitalised[i] <= 'Z')
  {
    forall i | 1 <= i < |capitalised| ensures capitalised[i] == lower[i] {
      assert capitalised[i] == capitalised[1..][i - 1];
    }
    assert Lower(capitalised) == lower;
  }

  /** Were the body an array of orders with text statuses, an order whose
      status matches an accepted query would be listed. */
  lemma MatchingOrderIsListed(orders: seq<Fields>, status: string, order: Fields)
    requires Capitalize(status) in CAPITALISED_STATUSES
    requires forall x :: x in orders ==> HasTextStatus(x)
    requires order in orders && SameStatus(order, status)
    ensures var o := GetOrdersByStatus(status, Answered(Http.ListBody(orders)));
      o.result.Ok? && order in o.result.value
  {
  }

  /** `cancelOrder(id)` */
  function CancelOrder(id: string, response: ApiResult<Fields>): (o: Outcome<Fields>)
    ensures o.sent == Some(Request("PUT", "/orders/" + id, map["status" := Str("cancelled")]))
    ensures OrdersController.IsValidStatus(o.sent.value.body["status"])
    ensures response.Failed? ==> o.result == Err(Rethrow404("Failed to cancel order: ", response.err))
    ensures response.Answered? ==> o.result == Ok(response.value)
  {
    var sent := Some(Request("PUT", "/orders/" + id, map["status" := Str("cancelled")]));
    match response
    case Answered(order) => Outcome(sent, Ok(order))
    case Failed(e) => Outcome(sent, Err(Rethrow404("Failed to cancel order: ", e)))
  }

  /** `acceptOrder(id)` */
  function AcceptOrder(id: string, response: ApiResult<Fields>): (o: Outcome<Fields>)
    ensures o.sent == Some(Request("PUT", "/orders/" + id, map["status" := Str("processing")]))
    ensures OrdersController.IsValidStatus(o.sent.value.body["status"])
    ensures response.Failed? ==> o.result == Err(Rethrow404("Failed to accept order: ", response.err))
    ensures response.Answered? ==> o.result == Ok(response.value)
  {
    var sent := Some(Request("PUT", "/orders/" + id, map["status" := Str("processing")]));
    match response
    case Answered(order) => Outcome(sent, Ok(order))
    case Failed(e) => Outcome(sent, Err(Rethrow404("Failed to accept order: ", e)))
  }
}
