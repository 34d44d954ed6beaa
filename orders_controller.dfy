/** backend/src/controllers/orders.controller.js: the gates between an
    order request and the Orders table, and the status code of each
    outcome. `buyerId` is the authenticated caller (`req.user.userId`) and
    `now` the current ISO time. */
module OrdersController {
  import opened Js
  import opened Store
  import opened Http
  import ProductModel
  import OrderModel

  /** The status values updateOrder and getOrdersByStatus accept; the
      comparison is case-sensitive, so "Pending" is not among them. */
  const VALID_STATUSES: set<string> := {"pending", "processing", "completed", "cancelled"}

  predicate IsValidStatus(v: Value) {
    v.Str? && v.s in VALID_STATUSES
  }

  /** `const { productId, quantity = 1 } = req.body`: the quantity. */
  function Quantity(body: Fields): (q: Value)
    ensures "quantity" in body ==> q == body["quantity"]
    ensures "quantity" !in body ==> q == Num(1)
  {
    if "quantity" in body then body["quantity"] else Num(1)
  }

  /** The `orderData` createOrder hands to Order.create: the product's name
      and seller and price times quantity, copied at creation time, the
      caller as buyer and the status "Pending". */
  function OrderData(product: Fields, body: Fields, buyerId: string, now: string): (d: Fields)
    ensures Get(d, "productId") == Get(body, "productId")
    ensures Get(d, "productName") == Get(product, "name")
    ensures Get(d, "sellerId") == Get(product, "sellerId")
    ensures Get(d, "buyerId") == Some(Str(buyerId))
    ensures Get(d, "quantity") == Some(Quantity(body))
    ensures Get(d, "totalAmount") == Some(Mul(Get(product, "price"), Some(Quantity(body))))
    ensures Get(d, "status") == Some(Str("Pending"))
  {
    var given := Snapshot(product, body);
    given["buyerId" := Str(buyerId)]
      ["quantity" := Quantity(body)]
      ["totalAmount" := Mul(Get(product, "price"), Some(Quantity(body)))]
      ["orderDate" := Str(now)]
      ["status" := Str("Pending")]
  }

  /** The product id from the request and the product's name and seller. */
  function Snapshot(product: Fields, body: Fields): (f: Fields)
    ensures Get(f, "productId") == Get(body, "productId")
    ensures Get(f, "productName") == Get(product, "name")
    ensures Get(f, "sellerId") == Get(product, "sellerId")
    ensures f.Keys <= {"productId", "productName", "sellerId"}
  {
    Pick(body, {"productId"}) + Rename(product, "name", "productName") + Pick(product, {"sellerId"})
  }

  /** `{ to: f.from }` once an undefined member is dropped. */
  function Rename(f: Fields, from: string, to: string): (r: Fields)
    ensures r.Keys == if from in f then {to} else {}
    ensures from in f ==> r[to] == f[from]
  {
    if from in f then map[to := f[from]] else map[]
  }

  /** The fields of the order createOrder stores for `product`: the
      snapshot of the product, the buyer, the quantity (1 by default), the
      total, the date and the status "Pending", and no other field. */
  function StoredOrder(product: Fields, body: Fields, buyerId: string, now: string): (f: Fields)
    ensures f.Keys <= OrderModel.COPIED_FIELDS + {"orderDate", "status"}
    ensures Get(f, "productId") == Get(body, "productId")
    ensures Get(f, "productName") == Get(product, "name")
    ensures Get(f, "sellerId") == Get(product, "sellerId")
    ensures Get(f, "buyerId") == Some(Str(buyerId))
    ensures Get(f, "quantity") == Some(Quantity(body))
    ensures Get(f, "totalAmount") == Some(Mul(Get(product, "price"), Some(Quantity(body))))
    ensures Get(f, "status") == Some(Str(OrderModel.INITIAL_STATUS))
    ensures Get(f, "orderDate") == Some(Str(OrderModel.DatePart(now)))
  {
    OrderModel.NewOrderFields(OrderData(product, body, buyerId, now), now)
  }

  /** The product createOrder looks up for this body. */
  function ProductLookup(products: Table, body: Fields): Result<Fields>
    reads products
  {
    ProductModel.GetById(products, ToText(Get(body, "productId")))
  }

  /** `createOrder`. A missing product makes Product.getById throw, so the
      outcome is 500 through the catch block: the 404 branch is never taken. */
  method CreateOrder(orders: Table, products: Table, body: Fields, buyerId: string, now: string)
    returns (reply: Reply)
    requires orders.Valid()
    modifies orders
    ensures orders.Valid() && orders.outage == old(orders.outage)
    ensures reply.Reply? && reply.code != 404
    ensures !Truthy(Get(body, "productId")) ==>
      reply == Fail(400, "Product ID is required") && orders.rows == old(orders.rows)
    ensures Truthy(Get(body, "productId")) && old(ProductLookup(products, body)).Err? ==>
      && reply == Reply(500, ErrorDetailsBody("Failed to create order", old(ProductLookup(products, body)).error.message))
      && orders.rows == old(orders.rows)
    ensures Truthy(Get(body, "productId")) && old(ProductLookup(products, body)).Ok? && old(orders.outage).Some? ==>
      && reply == Reply(500, ErrorDetailsBody("Failed to create order", "Failed to create order: " + old(orders.outage).value.message))
      && orders.rows == old(orders.rows)
    ensures Truthy(Get(body, "productId")) && old(ProductLookup(products, body)).Ok? && old(orders.outage).None? ==>
      var row := Row(old(orders.nextId), StoredOrder(old(ProductLookup(products, body)).value, body, buyerId, now));
      && orders.rows == old(orders.rows) + [row]
      && reply == Reply(201, RecordBody(Flatten(row)))
  {
    var productId := Get(body, "productId");
    if !Truthy(productId) {
      return Fail(400, "Product ID is required");
    }
    var lookup := ProductLookup(products, body);
    if lookup.Err? {
      return Reply(500, ErrorDetailsBody("Failed to create order", lookup.error.message));
    }
    // lookup.value is an object, hence truthy: `if (!product)` cannot fire.
    var product := lookup.value;
    var created := OrderModel.Create(orders, OrderData(product, body, buyerId, now), now);
    match created
    case Err(e) => reply := Reply(500, ErrorDetailsBody("Failed to create order", e.message));
    case Ok(order) => reply := Reply(201, RecordBody(order));
  }

  /** `updateOrder`. The status gate runs before any store call; a store
      error other than NOT_FOUND is answered with 400. */
  method UpdateOrder(orders: Table, id: string, body: Fields) returns (reply: Reply)
    requires orders.Valid()
    modifies orders
    ensures orders.Valid() && orders.outage == old(orders.outage)
    ensures reply.Reply?
    ensures Truthy(Get(body, "status")) && !IsValidStatus(body["status"]) ==>
      reply == Fail(400, "Invalid order status") && orders.rows == old(orders.rows)
    ensures reply.code == 404 <==>
      (!Truthy(Get(body, "status")) || IsValidStatus(body["status"])) &&
      (if old(orders.outage).Some? then old(orders.outage).value.errorCode == Some(NOT_FOUND)
       else id !in Ids(old(orders.rows)))
    ensures reply.code == 404 ==> reply == Fail(404, "Order not found") && orders.rows == old(orders.rows)
    ensures reply.code == 200 <==>
      (!Truthy(Get(body, "status")) || IsValidStatus(body["status"])) &&
      old(orders.outage).None? && id in Ids(old(orders.rows))
    ensures reply.code == 200 ==>
      var i := IndexOf(old(orders.rows), id).value;
      var row := Row(old(orders.rows)[i].key, old(orders.rows)[i].fields + body);
      orders.rows == Replace(old(orders.rows), i, row) && reply == Reply(200, RecordBody(Flatten(row)))
    ensures reply.code != 200 ==> orders.rows == old(orders.rows)
    ensures (!Truthy(Get(body, "status")) || IsValidStatus(body["status"])) &&
            old(orders.outage).Some? && old(orders.outage).value.errorCode != Some(NOT_FOUND) ==>
      reply == Fail(400, "Failed to update order: " + ("Failed to update order: " + old(orders.outage).value.message))
  {
    var status := Get(body, "status");
    if Truthy(status) && !IsValidStatus(status.value) {
      return Fail(400, "Invalid order status");
    }
    var updated := OrderModel.Update(orders, id, body);
    match updated
    case Err(e) => reply := Fail(400, "Failed to update order: " + e.message);
    case Ok(None) => reply := Fail(404, "Order not found");
    case Ok(Some(order)) => reply := Reply(200, RecordBody(order));
  }

  /** `deleteOrder` */
  method DeleteOrder(orders: Table, id: string) returns (reply: Reply)
    requires orders.Valid()
    modifies orders
    ensures orders.Valid() && orders.outage == old(orders.outage)
    ensures reply.Reply?
    ensures reply.code == 404 <==>
      (if old(orders.outage).Some? then old(orders.outage).value.errorCode == Some(NOT_FOUND)
       else id !in Ids(old(orders.rows)))
    ensures reply.code == 404 ==> reply == Fail(404, "Order not found") && orders.rows == old(orders.rows)
    ensures reply.code == 200 <==> old(orders.outage).None? && id in Ids(old(orders.rows))
    ensures reply.code == 200 ==>
      var i := IndexOf(old(orders.rows), id).value;
      && orders.rows == Remove(old(orders.rows), i)
      && reply == Reply(200, MessageRecordBody("Order deleted successfully", "order", Flatten(old(orders.rows)[i])))
    ensures reply.code != 200 ==> orders.rows == old(orders.rows)
    ensures old(orders.outage).None? ==> id !in Ids(orders.rows)
    ensures old(orders.outage).Some? && old(orders.outage).value.errorCode != Some(NOT_FOUND) ==>
      reply == Fail(500, "Failed to delete order: " + ("Failed to delete order: " + old(orders.outage).value.message))
  {
    var deleted := OrderModel.Delete(orders, id);
    match deleted
    case Err(e) => reply := Fail(500, "Failed to delete order: " + e.message);
    case Ok(None) => reply := Fail(404, "Order not found");
    case Ok(Some(order)) => reply := Reply(200, MessageRecordBody("Order deleted successfully", "order", order));
  }

  /** Deleting is not idempotent: deleting an order that was just deleted
      answers 404. */
  method DeleteTwice(orders: Table, id: string) returns (first: Reply, second: Reply)
    requires orders.Valid() && orders.outage.None?
    modifies orders
    ensures old(id in Ids(orders.rows)) ==> first.Reply? && first.code == 200
    ensures second == Fail(404, "Order not found")
  {
    first := DeleteOrder(orders, id);
    second := DeleteOrder(orders, id);
  }

  /** `getAllOrders` */
  function GetAllOrders(orders: Table): (reply: Reply)
    reads orders
    ensures orders.outage.None? ==> reply == Reply(200, DataBody(OrderModel.Summaries(orders.rows)))
    ensures orders.outage.Some? ==> reply == Fail(500, "Failed to fetch orders")
  {
    match OrderModel.GetAll(orders)
    case Err(_) => Fail(500, "Failed to fetch orders")
    case Ok(os) => Reply(200, DataBody(os))
  }

  /** `getOrderById`: 404 exactly when Order.getById yields null. */
  function GetOrderById(orders: Table, id: string): (reply: Reply)
    reads orders
    ensures reply.Reply?
    ensures reply.code == 404 <==> OrderModel.GetById(orders, id) == Ok(None)
    ensures reply.code == 404 ==> reply == Fail(404, "Order not found")
    ensures orders.outage.None? && id in Ids(orders.rows) ==>
      reply == Reply(200, RecordBody(Flatten(orders.rows[IndexOf(orders.rows, id).value])))
    ensures OrderModel.GetById(orders, id).Err? ==> reply == Fail(500, "Failed to fetch order")
  {
    match OrderModel.GetById(orders, id)
    case Err(_) => Fail(500, "Failed to fetch order")
    case Ok(None) => Fail(404, "Order not found")
    case Ok(Some(order)) => Reply(200, RecordBody(order))
  }

  /** `orders.filter(order => order.status === status)` */
  function WithStatus(orders: seq<Fields>, status: string): (r: seq<Fields>)
    ensures forall o :: o in r <==> o in orders && Get(o, "status") == Some(Str(status))
    ensures Subsequence(r, orders)
  {
    FilterIsSubsequence(orders, (o: Fields) => Get(o, "status") == Some(Str(status)));
    Filter(orders, (o: Fields) => Get(o, "status") == Some(Str(status)))
  }

  /** `getOrdersByStatus` with the query parameter `status` (None when absent). */
  function GetOrdersByStatus(orders: Table, status: Option<string>): (reply: Reply)
    reads orders
    ensures reply.Reply?
    ensures status.None? || status.value !in VALID_STATUSES ==> reply == Fail(400, "Invalid status parameter")
    ensures status.Some? && status.value in VALID_STATUSES && orders.outage.None? ==>
      reply == Reply(200, ListBody(WithStatus(OrderModel.Summaries(orders.rows), status.value)))
    ensures status.Some? && status.value in VALID_STATUSES && orders.outage.Some? ==>
      reply == Fail(500, "Failed to fetch orders: " + ("Failed to fetch orders: " + orders.outage.value.message))
  {
    if status.None? || status.value == "" || status.value !in VALID_STATUSES then
      Fail(400, "Invalid status parameter")
    else match OrderModel.GetAll(orders)
      case Err(e) => Fail(500, "Failed to fetch orders: " + e.message)
      case Ok(os) => Reply(200, ListBody(WithStatus(os, status.value)))
  }

  /** An order stored with the status "Pending", as createOrder stores every
      new order, is never listed by getOrdersByStatus: the query must be
      lower-case and the comparison is exact. */
  lemma ByStatusNeverListsNewOrders(orders: Table, status: Option<string>, k: nat)
    requires k < |orders.rows|
    requires Get(orders.rows[k].fields, "status") == Some(Str(OrderModel.INITIAL_STATUS))
    ensures var reply := GetOrdersByStatus(orders, status);
      reply.code == 200 ==> OrderModel.Summary(orders.rows[k]) !in reply.body.records
  {
    if status.Some? && status.value in VALID_STATUSES && orders.outage.None? {
      PendingNotListed(orders.rows[k], OrderModel.Summaries(orders.rows), status.value);
    }
  }

  lemma PendingNotListed(row: Row, summaries: seq<Fields>, status: string)
    requires status in VALID_STATUSES
    requires Get(row.fields, "status") == Some(Str(OrderModel.INITIAL_STATUS))
    ensures OrderModel.Summary(row) !in WithStatus(summaries, status)
  {
    var s := OrderModel.Summary(row);
    assert s["status"] == Str(OrderModel.INITIAL_STATUS);
    assert OrderModel.INITIAL_STATUS != status;
  }

  /** `getOrdersByBuyerId`: every match, and `[]` (never an error) when
      there is none. */
  function GetOrdersByBuyerId(orders: Table, buyerId: string, now: string): (reply: Reply)
    reads orders
    ensures orders.outage.None? ==>
      reply == Reply(200, ListBody(OrderModel.Listings(Where(orders.rows, "buyerId", buyerId), now)))
    ensures orders.outage.None? && (forall r :: r in orders.rows ==> !Matches(r, "buyerId", buyerId)) ==>
      reply == Reply(200, ListBody([]))
    ensures orders.outage.Some? ==> reply == Fail(500, "Failed to fetch orders")
  {
    match OrderModel.GetByBuyerId(orders, buyerId, now)
    case Err(_) => Fail(500, "Failed to fetch orders")
    case Ok(os) => Reply(200, ListBody(os))
  }

  /** `getOrdersBySellerId` */
  function GetOrdersBySellerId(orders: Table, sellerId: string, now: string): (reply: Reply)
    reads orders
    ensures orders.outage.None? ==>
      reply == Reply(200, ListBody(OrderModel.Listings(Where(orders.rows, "sellerId", sellerId), now)))
    ensures orders.outage.None? && (forall r :: r in orders.rows ==> !Matches(r, "sellerId", sellerId)) ==>
      reply == Reply(200, ListBody([]))
    ensures orders.outage.Some? ==> reply == Fail(500, "Failed to fetch orders")
  {
    match OrderModel.GetBySellerId(orders, sellerId, now)
    case Err(_) => Fail(500, "Failed to fetch orders")
    case Ok(os) => Reply(200, ListBody(os))
  }
}
