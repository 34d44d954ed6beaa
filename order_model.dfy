/** backend/src/models/Order.js: the Orders table. getById, update and
    delete turn a NOT_FOUND store error into null (here `Ok(None)`);
    listings project each record onto a fixed set of order fields. The
    current time is a parameter: `now` is `new Date().toISOString()`. */
module OrderModel {
  import opened Text
  import opened Js
  import opened Store

  /** The input fields Order.create copies into the new record. */
  const COPIED_FIELDS: set<string> := {"productId", "buyerId", "sellerId", "quantity", "productName", "totalAmount"}

  /** The status every new order is stored with. */
  const INITIAL_STATUS := "Pending"

  /** The status a listing reports for an order that has none. */
  const DEFAULT_STATUS := "pending"

  /** `now.split('T')[0]`: the date part of an ISO timestamp. */
  function DatePart(now: string): (d: string)
    ensures |d| <= |now| && d == now[..|d|]
    ensures forall i :: 0 <= i < |d| ==> d[i] != 'T'
  {
    Before(now, 'T')
  }

  /** The record Order.create stores for `orderData` at time `now`: the six
      copied fields that are defined, the date of `now` and the status
      "Pending", whatever status or date the caller supplied. */
  function NewOrderFields(orderData: Fields, now: string): (f: Fields)
    ensures f.Keys == (orderData.Keys * COPIED_FIELDS) + {"orderDate", "status"}
    ensures f["status"] == Str(INITIAL_STATUS)
    ensures f["orderDate"] == Str(DatePart(now))
    ensures forall k :: k in orderData && k in COPIED_FIELDS ==> f[k] == orderData[k]
  {
    Pick(orderData, COPIED_FIELDS)["orderDate" := Str(DatePart(now))]["status" := Str(INITIAL_STATUS)]
  }

  /** `Order.create(orderData)` */
  method Create(t: Table, orderData: Fields, now: string) returns (r: Result<Fields>)
    requires t.Valid()
    modifies t
    ensures t.Valid() && t.outage == old(t.outage)
    ensures old(t.outage).Some? ==>
      && r == Err(PlainError("Failed to create order: " + old(t.outage).value.message))
      && t.rows == old(t.rows)
    ensures old(t.outage).None? ==>
      && t.rows == old(t.rows) + [Row(old(t.nextId), NewOrderFields(orderData, now))]
      && r == Ok(Flatten(Row(old(t.nextId), NewOrderFields(orderData, now))))
  {
    var created := t.Create(NewOrderFields(orderData, now));
    match created
    case Err(e) => r := Err(PlainError("Failed to create order: " + e.message));
    case Ok(row) => r := Ok(Flatten(row));
  }

  /** An order as getAll reports it: id, productId, customerId, quantity,
      productName, totalAmount and orderDate as stored (absent ones left
      out), and the status with "pending" for a missing one. buyerId and
      sellerId are not part of this projection. */
  function Summary(r: Row): (f: Fields)
    ensures f.Keys == (r.fields.Keys * {"productId", "customerId", "quantity", "productName", "totalAmount", "orderDate"}) + {"id", "status"}
    ensures f["id"] == Str(r.Id())
    ensures f["status"] == Or(Get(r.fields, "status"), Str(DEFAULT_STATUS))
    ensures forall k :: k in f && k != "id" && k != "status" ==> f[k] == r.fields[k]
  {
    Pick(r.fields, {"productId", "customerId", "quantity", "productName", "totalAmount", "orderDate"})
      ["id" := Str(r.Id())]
      ["status" := Or(Get(r.fields, "status"), Str(DEFAULT_STATUS))]
  }

  function Summaries(rows: seq<Row>): (fs: seq<Fields>)
    ensures |fs| == |rows|
    ensures forall i :: 0 <= i < |rows| ==> fs[i] == Summary(rows[i])
  {
    if rows == [] then [] else [Summary(rows[0])] + Summaries(rows[1..])
  }

  /** `Order.getAll()` */
  function GetAll(t: Table): (r: Result<seq<Fields>>)
    reads t
    ensures t.outage.Some? ==> r == Err(PlainError("Failed to fetch orders: " + t.outage.value.message))
    ensures t.outage.None? ==> r == Ok(Summaries(t.rows))
  {
    match t.All()
    case Err(e) => Err(PlainError("Failed to fetch orders: " + e.message))
    case Ok(rows) => Ok(Summaries(rows))
  }

  /** The order that Order.create stored is listed by getAll as "Pending",
      with its copied fields other than buyerId and sellerId unchanged. */
  lemma SummaryOfNewOrder(key: nat, orderData: Fields, now: string)
    ensures var s := Summary(Row(key, NewOrderFields(orderData, now)));
      && s["status"] == Str(INITIAL_STATUS)
      && s["orderDate"] == Str(DatePart(now))
      && "buyerId" !in s && "sellerId" !in s
      && (forall k :: k in orderData && k in {"productId", "quantity", "productName", "totalAmount"} ==> s[k] == orderData[k])
  {
    var f := NewOrderFields(orderData, now);
    var s := Summary(Row(key, f));
    assert Truthy(Get(f, "status"));
    SummaryLeavesOutParties(Row(key, f));
    forall k | k in orderData && k in {"productId", "quantity", "productName", "totalAmount"} ensures s[k] == orderData[k] {
      assert k in COPIED_FIELDS && k in f;
    }
  }

  /** getAll reports neither the buyer nor the seller of an order. */
  lemma SummaryLeavesOutParties(r: Row)
    ensures "buyerId" !in Summary(r) && "sellerId" !in Summary(r)
  {
  }

  /** `Order.getById(id)`: null (None) exactly on a NOT_FOUND error, every
      other store error rethrown as it is. */
  function GetById(t: Table, id: string): (r: Result<Option<Fields>>)
    reads t
    ensures t.outage.Some? && t.outage.value.errorCode != Some(NOT_FOUND) ==> r == Err(t.outage.value)
    ensures t.outage.Some? && t.outage.value.errorCode == Some(NOT_FOUND) ==> r == Ok(None)
    ensures t.outage.None? ==> r.Ok? && (r.value.Some? <==> id in Ids(t.rows))
    ensures t.outage.None? && id in Ids(t.rows) ==> r.value.value == Flatten(t.rows[IndexOf(t.rows, id).value])
  {
    match t.Find(id)
    case Ok(row) => Ok(Some(Flatten(row)))
    case Err(e) => if e.errorCode == Some(NOT_FOUND) then Ok(None) else Err(e)
  }

  /** `Order.update(id, orderData)`: the given fields are written onto the
      order with that id; no other order changes. */
  method Update(t: Table, id: string, orderData: Fields) returns (r: Result<Option<Fields>>)
    requires t.Valid()
    modifies t
    ensures t.Valid() && t.outage == old(t.outage) && t.nextId == old(t.nextId)
    ensures old(t.outage).Some? ==> t.rows == old(t.rows)
    ensures old(t.outage).Some? && old(t.outage).value.errorCode == Some(NOT_FOUND) ==> r == Ok(None)
    ensures old(t.outage).Some? && old(t.outage).value.errorCode != Some(NOT_FOUND) ==>
      r == Err(PlainError("Failed to update order: " + old(t.outage).value.message))
    ensures old(t.outage).None? && id !in Ids(old(t.rows)) ==> r == Ok(None) && t.rows == old(t.rows)
    ensures old(t.outage).None? && id in Ids(old(t.rows)) ==>
      var i := IndexOf(old(t.rows), id).value;
      var row := Row(old(t.rows)[i].key, old(t.rows)[i].fields + orderData);
      t.rows == Replace(old(t.rows), i, row) && r == Ok(Some(Flatten(row)))
  {
    var updated := t.Update(id, orderData);
    match updated
    case Ok(row) => r := Ok(Some(Flatten(row)));
    case Err(e) =>
      if e.errorCode == Some(NOT_FOUND) {
        r := Ok(None);
      } else {
        r := Err(PlainError("Failed to update order: " + e.message));
      }
  }

  /** `Order.delete(id)` */
  method Delete(t: Table, id: string) returns (r: Result<Option<Fields>>)
    requires t.Valid()
    modifies t
    ensures t.Valid() && t.outage == old(t.outage) && t.nextId == old(t.nextId)
    ensures old(t.outage).Some? ==> t.rows == old(t.rows)
    ensures old(t.outage).Some? && old(t.outage).value.errorCode == Some(NOT_FOUND) ==> r == Ok(None)
    ensures old(t.outage).Some? && old(t.outage).value.errorCode != Some(NOT_FOUND) ==>
      r == Err(PlainError("Failed to delete order: " + old(t.outage).value.message))
    ensures old(t.outage).None? && id !in Ids(old(t.rows)) ==> r == Ok(None) && t.rows == old(t.rows)
    ensures old(t.outage).None? && id in Ids(old(t.rows)) ==>
      var i := IndexOf(old(t.rows), id).value;
      t.rows == Remove(old(t.rows), i) && r == Ok(Some(Flatten(old(t.rows)[i])))
    ensures old(t.outage).None? ==> id !in Ids(t.rows)
  {
    var destroyed := t.Destroy(id);
    match destroyed
    case Ok(row) => r := Ok(Some(Flatten(row)));
    case Err(e) =>
      if e.errorCode == Some(NOT_FOUND) {
        r := Ok(None);
      } else {
        r := Err(PlainError("Failed to delete order: " + e.message));
      }
  }

  /** An order as the buyer and seller listings report it: the order
      fields as stored, "pending" for a missing status and the current
      time for a missing order date. */
  function Listing(r: Row, now: string): (f: Fields)
    ensures f.Keys == (r.fields.Keys * {"productId", "productName", "buyerId", "sellerId", "quantity", "totalAmount"}) + {"id", "status", "orderDate"}
    ensures f["id"] == Str(r.Id())
    ensures f["status"] == Or(Get(r.fields, "status"), Str(DEFAULT_STATUS))
    ensures f["orderDate"] == Or(Get(r.fields, "orderDate"), Str(now))
    ensures forall k :: k in f && k !in {"id", "status", "orderDate"} ==> f[k] == r.fields[k]
  {
    Pick(r.fields, {"productId", "productName", "buyerId", "sellerId", "quantity", "totalAmount"})
      ["id" := Str(r.Id())]
      ["status" := Or(Get(r.fields, "status"), Str(DEFAULT_STATUS))]
      ["orderDate" := Or(Get(r.fields, "orderDate"), Str(now))]
  }

  function Listings(rows: seq<Row>, now: string): (fs: seq<Fields>)
    ensures |fs| == |rows|
    ensures forall i :: 0 <= i < |rows| ==> fs[i] == Listing(rows[i], now)
  {
    if rows == [] then [] else [Listing(rows[0], now)] + Listings(rows[1..], now)
  }

  /** `Order.getByBuyerId(buyerId)`: the orders whose buyerId equals the
      argument, in table order; store errors are rethrown as they are. */
  function GetByBuyerId(t: Table, buyerId: string, now: string): (r: Result<seq<Fields>>)
    reads t
    ensures t.outage.Some? ==> r == Err(t.outage.value)
    ensures t.outage.None? ==> r == Ok(Listings(Where(t.rows, "buyerId", buyerId), now))
  {
    match t.Select("buyerId", buyerId)
    case Err(e) => Err(e)
    case Ok(rows) => Ok(Listings(rows, now))
  }

  /** `Order.getBySellerId(sellerId)` */
  function GetBySellerId(t: Table, sellerId: string, now: string): (r: Result<seq<Fields>>)
    reads t
    ensures t.outage.Some? ==> r == Err(t.outage.value)
    ensures t.outage.None? ==> r == Ok(Listings(Where(t.rows, "sellerId", sellerId), now))
  {
    match t.Select("sellerId", sellerId)
    case Err(e) => Err(e)
    case Ok(rows) => Ok(Listings(rows, now))
  }

  /** The buyer listing (column "buyerId") and the seller listing (column
      "sellerId") are exact: every order reported carries the requested id
      in that column, and every stored order that carries it is reported. */
  lemma ListingIsExact(rows: seq<Row>, column: string, id: string, now: string)
    requires column == "buyerId" || column == "sellerId"
    ensures forall o :: o in Listings(Where(rows, column, id), now) ==> Get(o, column) == Some(Str(id))
    ensures forall r :: r in rows && Matches(r, column, id) ==> Listing(r, now) in Listings(Where(rows, column, id), now)
  {
    var matching := Where(rows, column, id);
    ListingsCarryColumn(matching, column, id, now);
    ListingsCover(matching, rows, column, id, now);
  }

  lemma ListingsCarryColumn(matching: seq<Row>, column: string, id: string, now: string)
    requires column == "buyerId" || column == "sellerId"
    requires forall r :: r in matching ==> Matches(r, column, id)
    ensures forall o :: o in Listings(matching, now) ==> Get(o, column) == Some(Str(id))
  {
    var listed := Listings(matching, now);
    forall o | o in listed ensures Get(o, column) == Some(Str(id)) {
      var i :| 0 <= i < |listed| && listed[i] == o;
      assert matching[i] in matching;
      ListingKeepsColumn(matching[i], column, id, now);
    }
  }

  lemma ListingsCover(matching: seq<Row>, rows: seq<Row>, column: string, id: string, now: string)
    requires forall r :: r in rows && Matches(r, column, id) ==> r in matching
    ensures forall r :: r in rows && Matches(r, column, id) ==> Listing(r, now) in Listings(matching, now)
  {
    var listed := Listings(matching, now);
    forall r | r in rows && Matches(r, column, id) ensures Listing(r, now) in listed {
      var i :| 0 <= i < |matching| && matching[i] == r;
      assert listed[i] == Listing(r, now);
    }
  }

  /** The buyer and seller columns pass through a listing unchanged. */
  lemma ListingKeepsColumn(r: Row, column: string, id: string, now: string)
    requires column == "buyerId" || column == "sellerId"
    requires Matches(r, column, id)
    ensures Get(Listing(r, now), column) == Some(Str(id))
  {
    var f := Listing(r, now);
    assert column in f;
  }
}
