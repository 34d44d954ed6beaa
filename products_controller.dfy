/** backend/src/controllers/products.controller.js: the public product
    endpoints. getAllProducts and getProductById are wrapped in catchAsync
    and forward a thrown error to the error middleware (`Next`); the other
    three answer 500 from their own catch block. Product never yields a
    falsy record, so none of the "Product not found" 404 branches can be
    taken: a missing id arrives as a thrown 404 APIError instead. The
    running server does not mount these handlers (it serves /api/products
    from products.route.js, which is not part of this model), nor the
    error middleware of errorHandler.js; the lemmas below say what the
    handlers would answer under each error handler. */
module ProductsController {
  import opened Js
  import opened Store
  import opened Http
  import opened ErrorHandler
  import ProductModel

  /** `getAllProducts`: the first 100 products, or the store error
      forwarded to the error middleware. */
  function GetAllProducts(t: Table): (reply: Reply)
    reads t
    ensures t.outage.Some? ==> reply == Next(HandleAirtableError(t.outage.value))
    ensures t.outage.None? ==> reply.Reply? && reply.code == 200 && reply.body.ListBody?
    ensures t.outage.None? ==>
      |reply.body.records| == (if |t.rows| < ProductModel.DEFAULT_LIMIT then |t.rows| else ProductModel.DEFAULT_LIMIT)
    ensures t.outage.None? ==>
      forall i :: 0 <= i < |reply.body.records| ==> reply.body.records[i] == ProductModel.Listed(t.rows[i])
  {
    match ProductModel.GetAll(t, 0)
    case Err(e) => Next(e)
    case Ok(products) => Reply(200, ListBody(products))
  }

  /** `getProductById` */
  function GetProductById(t: Table, id: string): (reply: Reply)
    reads t
    ensures t.outage.Some? ==> reply == Next(HandleAirtableError(t.outage.value))
    ensures t.outage.None? && id !in Ids(t.rows) ==> reply == Next(APIError("Resource not found", 404))
    ensures t.outage.None? && id in Ids(t.rows) ==>
      reply == Reply(200, RecordBody(Flatten(t.rows[IndexOf(t.rows, id).value])))
  {
    match ProductModel.GetById(t, id)
    case Err(e) => Next(e)
    case Ok(product) => Reply(200, RecordBody(product))
  }

  /** errorHandler.js's middleware, were it mounted, would answer an
      unknown product id 404 with status "fail" in every environment; in
      production the body carries only the status and the message. */
  lemma UnknownProductIs404(t: Table, id: string, nodeEnv: string)
    requires t.outage.None? && id !in Ids(t.rows)
    ensures var reply := HandleError(GetProductById(t, id).err, nodeEnv).1;
      reply.Reply? && reply.code == 404
    ensures nodeEnv != "development" ==>
      HandleError(GetProductById(t, id).err, nodeEnv).1 == Reply(404, StatusBody("fail", "Resource not found"))
  {
    APIErrorFailIffClientError("Resource not found", 404);
  }

  /** Under the server's own last error handler, the one installed, the
      404 is lost: an unknown product id is answered 500 "Something went
      wrong!", like every other forwarded error. */
  lemma UnknownProductUnderServerHandler(t: Table, id: string)
    requires t.outage.None? && id !in Ids(t.rows)
    ensures Delivered(GetProductById(t, id)) == Fail(500, SERVER_ERROR)
  {
  }

  /** `!productData.name || !productData.price`: the create gate. A price of
      0 or "" is refused like a missing one. */
  predicate LacksNameOrPrice(body: Fields) {
    !Truthy(Get(body, "name")) || !Truthy(Get(body, "price"))
  }

  /** `createProduct` */
  method CreateProduct(t: Table, body: Fields) returns (reply: Reply)
    requires t.Valid()
    modifies t
    ensures t.Valid() && t.outage == old(t.outage)
    ensures reply.Reply?
    ensures reply.code == 400 <==> LacksNameOrPrice(body)
    ensures reply.code == 400 ==> reply == Fail(400, "Name and price are required")
    ensures !LacksNameOrPrice(body) && old(t.outage).Some? ==> reply == Fail(500, "Failed to create product")
    ensures reply.code != 201 ==> t.rows == old(t.rows)
    ensures reply.code == 201 <==> !LacksNameOrPrice(body) && old(t.outage).None?
    ensures reply.code == 201 ==>
      var row := Row(old(t.nextId), ProductModel.ProductFields(body));
      t.rows == old(t.rows) + [row] && reply == Reply(201, RecordBody(Flatten(row)))
  {
    if LacksNameOrPrice(body) {
      return Fail(400, "Name and price are required");
    }
    var created := ProductModel.Create(t, body);
    match created
    case Err(_) => reply := Fail(500, "Failed to create product");
    case Ok(product) => reply := Reply(201, RecordBody(product));
  }

  /** `updateProduct`: an unknown id is a thrown error, hence 500. */
  method UpdateProduct(t: Table, id: string, body: Fields) returns (reply: Reply)
    requires t.Valid()
    modifies t
    ensures t.Valid() && t.outage == old(t.outage)
    ensures reply.Reply? && reply.code != 404
    ensures reply.code == 200 <==> old(t.outage).None? && id in Ids(old(t.rows))
    ensures reply.code != 200 ==> reply == Fail(500, "Failed to update product") && t.rows == old(t.rows)
    ensures reply.code == 200 ==>
      var i := IndexOf(old(t.rows), id).value;
      var row := Row(old(t.rows)[i].key, old(t.rows)[i].fields + ProductModel.UpdateFields(body));
      t.rows == Replace(old(t.rows), i, row) && reply == Reply(200, RecordBody(Flatten(row)))
  {
    var updated := ProductModel.Update(t, id, body);
    match updated
    case Err(_) => reply := Fail(500, "Failed to update product");
    case Ok(product) => reply := Reply(200, RecordBody(product));
  }

  /** `deleteProduct`: an unknown id is a thrown error, hence 500. */
  method DeleteProduct(t: Table, id: string) returns (reply: Reply)
    requires t.Valid()
    modifies t
    ensures t.Valid() && t.outage == old(t.outage)
    ensures reply.Reply? && reply.code != 404
    ensures reply.code == 200 <==> old(t.outage).None? && id in Ids(old(t.rows))
    ensures reply.code != 200 ==> reply == Fail(500, "Failed to delete product") && t.rows == old(t.rows)
    ensures reply.code == 200 ==>
      var i := IndexOf(old(t.rows), id).value;
      && t.rows == Remove(old(t.rows), i)
      && reply == Reply(200, MessageRecordBody("Product deleted successfully", "product", Flatten(old(t.rows)[i])))
  {
    var deleted := ProductModel.Delete(t, id);
    match deleted
    case Err(_) => reply := Fail(500, "Failed to delete product");
    case Ok(product) => reply := Reply(200, MessageRecordBody("Product deleted successfully", "product", product));
  }
}
