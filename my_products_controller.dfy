/** backend/src/controllers/myProducts.controller.js: a seller's own
    products. `userId` is the authenticated caller (`req.user.userId`).
    Reading, updating or deleting first fetches the product and answers 404
    when its sellerId is not the caller's; Product.getById throws on an
    unknown id, so that case is answered 500 with "Resource not found". */
module MyProductsController {
  import opened Js
  import opened Store
  import opened Http
  import opened ErrorHandler
  import ProductModel

  /** `product.sellerId === sellerId` */
  predicate OwnedBy(product: Fields, userId: string) {
    Get(product, "sellerId") == Some(Str(userId))
  }

  /** `getAllMyProducts` */
  function GetAllMyProducts(t: Table, userId: string): (reply: Reply)
    reads t
    ensures t.outage.Some? ==> reply == Fail(500, HandleAirtableError(t.outage.value).message)
    ensures t.outage.None? ==> reply == Reply(200, ListBody(FlattenAll(Where(t.rows, "sellerId", userId))))
    ensures reply.Reply? && reply.code == 200 ==> forall p :: p in reply.body.records ==> OwnedBy(p, userId)
  {
    match ProductModel.GetProductsBySellerId(t, userId)
    case Err(e) => Fail(500, e.message)
    case Ok(products) =>
      ProductModel.SellerListingIsExact(t, userId);
      Reply(200, ListBody(products))
  }

  /** The fields createMyProduct passes on: the body with its sellerId
      replaced by the caller. */
  function WithSeller(body: Fields, userId: string): (d: Fields)
    ensures OwnedBy(d, userId)
    ensures forall k :: k != "sellerId" ==> Get(d, k) == Get(body, k)
  {
    body["sellerId" := Str(userId)]
  }

  /** `createMyProduct`: the new product belongs to the caller, whatever
      sellerId the body names. */
  method CreateMyProduct(t: Table, body: Fields, userId: string) returns (reply: Reply)
    requires t.Valid()
    modifies t
    ensures t.Valid() && t.outage == old(t.outage)
    ensures reply.Reply?
    ensures old(t.outage).Some? ==>
      reply == Fail(400, HandleAirtableError(old(t.outage).value).message) && t.rows == old(t.rows)
    ensures old(t.outage).None? ==>
      var row := Row(old(t.nextId), ProductModel.ProductFields(WithSeller(body, userId)));
      && t.rows == old(t.rows) + [row]
      && reply == Reply(201, RecordBody(Flatten(row)))
      && OwnedBy(Flatten(row), userId)
  {
    var created := ProductModel.Create(t, WithSeller(body, userId));
    match created
    case Err(e) => reply := Fail(400, e.message);
    case Ok(product) => reply := Reply(201, RecordBody(product));
  }

  /** The product the ownership check fetches. */
  function Lookup(t: Table, id: string): Result<Fields>
    reads t
  {
    ProductModel.GetById(t, id)
  }

  /** `getMyProductById` */
  function GetMyProductById(t: Table, id: string, userId: string): (reply: Reply)
    reads t
    ensures reply.Reply?
    ensures Lookup(t, id).Err? ==> reply == Fail(500, Lookup(t, id).error.message)
    ensures t.outage.None? && id !in Ids(t.rows) ==> reply == Fail(500, "Resource not found")
    ensures reply.code == 200 <==> Lookup(t, id).Ok? && OwnedBy(Lookup(t, id).value, userId)
    ensures reply.code == 200 ==> reply == Reply(200, RecordBody(Lookup(t, id).value))
    ensures reply.code == 404 <==> Lookup(t, id).Ok? && !OwnedBy(Lookup(t, id).value, userId)
    ensures reply.code == 404 ==> reply == Fail(404, "Product not found")
  {
    match Lookup(t, id)
    case Err(e) => Fail(500, e.message)
    case Ok(product) =>
      if !OwnedBy(product, userId) then Fail(404, "Product not found")
      else Reply(200, RecordBody(product))
  }

  /** `updateMyProduct`: only the owner's product is written. The body is
      merged as it is, so it may name another sellerId. */
  method UpdateMyProduct(t: Table, id: string, body: Fields, userId: string) returns (reply: Reply)
    requires t.Valid()
    modifies t
    ensures t.Valid() && t.outage == old(t.outage)
    ensures reply.Reply?
    ensures old(Lookup(t, id)).Err? ==>
      reply == Fail(500, old(Lookup(t, id)).error.message) && t.rows == old(t.rows)
    ensures old(Lookup(t, id)).Ok? && !OwnedBy(old(Lookup(t, id)).value, userId) ==>
      reply == Fail(404, "Product not found") && t.rows == old(t.rows)
    ensures old(Lookup(t, id)).Ok? && OwnedBy(old(Lookup(t, id)).value, userId) ==>
      var i := IndexOf(old(t.rows), id).value;
      var row := Row(old(t.rows)[i].key, old(t.rows)[i].fields + ProductModel.UpdateFields(body));
      t.rows == Replace(old(t.rows), i, row) && reply == Reply(200, RecordBody(Flatten(row)))
    ensures t.rows != old(t.rows) ==> old(Lookup(t, id)).Ok? && OwnedBy(old(Lookup(t, id)).value, userId)
  {
    var existing := Lookup(t, id);
    if existing.Err? {
      return Fail(500, existing.error.message);
    }
    if !OwnedBy(existing.value, userId) {
      return Fail(404, "Product not found");
    }
    var updated := ProductModel.Update(t, id, body);
    match updated
    case Err(e) => reply := Fail(500, e.message);
    case Ok(product) => reply := Reply(200, RecordBody(product));
  }

  /** `deleteMyProduct`: only the owner's product is removed. */
  method DeleteMyProduct(t: Table, id: string, userId: string) returns (reply: Reply)
    requires t.Valid()
    modifies t
    ensures t.Valid() && t.outage == old(t.outage)
    ensures reply.Reply?
    ensures old(Lookup(t, id)).Err? ==>
      reply == Fail(500, old(Lookup(t, id)).error.message) && t.rows == old(t.rows)
    ensures old(Lookup(t, id)).Ok? && !OwnedBy(old(Lookup(t, id)).value, userId) ==>
      reply == Fail(404, "Product not found") && t.rows == old(t.rows)
    ensures old(Lookup(t, id)).Ok? && OwnedBy(old(Lookup(t, id)).value, userId) ==>
      && t.rows == Remove(old(t.rows), IndexOf(old(t.rows), id).value)
      && reply == Reply(200, MessageBody("Product deleted successfully"))
    ensures t.rows != old(t.rows) ==> old(Lookup(t, id)).Ok? && OwnedBy(old(Lookup(t, id)).value, userId)
  {
    var existing := Lookup(t, id);
    if existing.Err? {
      return Fail(500, existing.error.message);
    }
    if !OwnedBy(existing.value, userId) {
      return Fail(404, "Product not found");
    }
    var deleted := ProductModel.Delete(t, id);
    match deleted
    case Err(e) => reply := Fail(500, e.message);
    case Ok(_) => reply := Reply(200, MessageBody("Product deleted successfully"));
  }

  /** A seller can read back a product they have just created. */
  method CreateThenRead(t: Table, body: Fields, userId: string) returns (created: Reply, read: Reply)
    requires t.Valid() && t.outage.None?
    modifies t
    ensures created.Reply? && created.code == 201 && created.body.RecordBody?
    ensures read == Reply(200, RecordBody(created.body.record))
  {
    created := CreateMyProduct(t, body, userId);
    var last := |t.rows| - 1;
    var id := t.rows[last].Id();
    var k := IndexOf(t.rows, id).value;
    DistinctIds(t.rows, t.nextId, k, last);
    read := GetMyProductById(t, id, userId);
  }
}
