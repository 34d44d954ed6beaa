/** backend/src/models/Product.js: the Products table. Every store failure
    is rethrown through handleAirtableError, so a missing id comes back as
    a 404 APIError and never as null. */
module ProductModel {
  import opened Js
  import opened Store
  import opened ErrorHandler

  /** The columns a product is created with and listed by. */
  const PRODUCT_FIELDS: set<string> := {"name", "description", "price", "image", "sellerId"}

  /** Page size of getAll when no positive limit is given. */
  const DEFAULT_LIMIT := 100

  /** `maxRecords: options.limit || 100`, where a limit of 0 is absent. */
  function MaxRecords(limit: nat): (n: nat)
    ensures n > 0
    ensures limit > 0 ==> n == limit
    ensures limit == 0 ==> n == DEFAULT_LIMIT
  {
    if limit > 0 then limit else DEFAULT_LIMIT
  }

  /** A record as getAll lists it: only the five product columns are fetched. */
  function Listed(r: Row): (f: Fields)
    ensures f.Keys == (r.fields.Keys * PRODUCT_FIELDS) + {"id"}
    ensures f["id"] == Str(r.Id())
    ensures forall k :: k in r.fields && k in PRODUCT_FIELDS ==> f[k] == r.fields[k]
  {
    Flatten(Row(r.key, Pick(r.fields, PRODUCT_FIELDS)))
  }

  function ListAll(rows: seq<Row>): (fs: seq<Fields>)
    ensures |fs| == |rows|
    ensures forall i :: 0 <= i < |rows| ==> fs[i] == Listed(rows[i])
  {
    if rows == [] then [] else [Listed(rows[0])] + ListAll(rows[1..])
  }

  /** `Product.getAll(options)`: the first `options.limit` (default 100)
      products in view order, each with its id and the five product columns. */
  function GetAll(t: Table, limit: nat): (r: Result<seq<Fields>>)
    reads t
    ensures t.outage.Some? ==> r == Err(HandleAirtableError(t.outage.value))
    ensures r.Ok? ==> |r.value| <= MaxRecords(limit)
    ensures r.Ok? ==> |r.value| == if |t.rows| < MaxRecords(limit) then |t.rows| else MaxRecords(limit)
    ensures r.Ok? ==> forall i :: 0 <= i < |r.value| ==> r.value[i] == Listed(t.rows[i])
  {
    match t.All()
    case Err(e) => Err(HandleAirtableError(e))
    case Ok(rows) =>
      var n := MaxRecords(limit);
      Ok(ListAll(if |rows| <= n then rows else rows[..n]))
  }

  /** `Product.getById(id)` */
  function GetById(t: Table, id: string): (r: Result<Fields>)
    reads t
    ensures t.outage.Some? ==> r == Err(HandleAirtableError(t.outage.value))
    ensures t.outage.None? && id !in Ids(t.rows) ==> r == Err(APIError("Resource not found", 404))
    ensures t.outage.None? && id in Ids(t.rows) ==> r == Ok(Flatten(t.rows[IndexOf(t.rows, id).value]))
    ensures r.Err? ==> r.error.isOperational && r.error.statusCode.Some?
  {
    match t.Find(id)
    case Err(e) => Err(HandleAirtableError(e))
    case Ok(row) => Ok(Flatten(row))
  }

  /** The fields Product.create stores: the five product columns of the
      input, nothing else. */
  function ProductFields(data: Fields): (f: Fields)
    ensures f.Keys == data.Keys * PRODUCT_FIELDS
    ensures forall k :: k in f ==> f[k] == data[k]
  {
    Pick(data, PRODUCT_FIELDS)
  }

  /** `Product.create(data)` */
  method Create(t: Table, data: Fields) returns (r: Result<Fields>)
    requires t.Valid()
    modifies t
    ensures t.Valid() && t.outage == old(t.outage)
    ensures old(t.outage).Some? ==> r == Err(HandleAirtableError(old(t.outage).value)) && t.rows == old(t.rows)
    ensures old(t.outage).None? ==>
      && t.rows == old(t.rows) + [Row(old(t.nextId), ProductFields(data))]
      && r == Ok(Flatten(Row(old(t.nextId), ProductFields(data))))
  {
    var created := t.Create(ProductFields(data));
    match created
    case Err(e) => r := Err(HandleAirtableError(e));
    case Ok(row) => r := Ok(Flatten(row));
  }

  /** The fields Product.update writes: everything given but `createdAt`. */
  function UpdateFields(data: Fields): (f: Fields)
    ensures "createdAt" !in f
    ensures forall k :: k in data && k != "createdAt" ==> k in f && f[k] == data[k]
    ensures forall k :: k in f ==> k in data
  {
    data - {"createdAt"}
  }

  /** `Product.update(id, data)` */
  method Update(t: Table, id: string, data: Fields) returns (r: Result<Fields>)
    requires t.Valid()
    modifies t
    ensures t.Valid() && t.outage == old(t.outage) && t.nextId == old(t.nextId)
    ensures old(t.outage).Some? ==> r == Err(HandleAirtableError(old(t.outage).value)) && t.rows == old(t.rows)
    ensures old(t.outage).None? && id !in Ids(old(t.rows)) ==>
      r == Err(APIError("Resource not found", 404)) && t.rows == old(t.rows)
    ensures old(t.outage).None? && id in Ids(old(t.rows)) ==>
      var i := IndexOf(old(t.rows), id).value;
      var row := Row(old(t.rows)[i].key, old(t.rows)[i].fields + UpdateFields(data));
      t.rows == Replace(old(t.rows), i, row) && r == Ok(Flatten(row))
  {
    var updated := t.Update(id, UpdateFields(data));
    match updated
    case Err(e) => r := Err(HandleAirtableError(e));
    case Ok(row) => r := Ok(Flatten(row));
  }

  /** `Product.delete(id)` */
  method Delete(t: Table, id: string) returns (r: Result<Fields>)
    requires t.Valid()
    modifies t
    ensures t.Valid() && t.outage == old(t.outage) && t.nextId == old(t.nextId)
    ensures old(t.outage).Some? ==> r == Err(HandleAirtableError(old(t.outage).value)) && t.rows == old(t.rows)
    ensures old(t.outage).None? && id !in Ids(old(t.rows)) ==>
      r == Err(APIError("Resource not found", 404)) && t.rows == old(t.rows)
    ensures old(t.outage).None? && id in Ids(old(t.rows)) ==>
      var i := IndexOf(old(t.rows), id).value;
      t.rows == Remove(old(t.rows), i) && r == Ok(Flatten(old(t.rows)[i]))
  {
    var destroyed := t.Destroy(id);
    match destroyed
    case Err(e) => r := Err(HandleAirtableError(e));
    case Ok(row) => r := Ok(Flatten(row));
  }

  /** `Product.findByName(name)`: at most one record (the first in table
      order), and it carries exactly that name. */
  function FindByName(t: Table, name: string): (r: Result<seq<Fields>>)
    reads t
    ensures t.outage.Some? ==> r == Err(HandleAirtableError(t.outage.value))
    ensures r.Ok? ==> |r.value| <= 1
    ensures r.Ok? ==> forall i :: 0 <= i < |r.value| ==> Get(r.value[i], "name") == Some(Str(name))
    ensures r.Ok? && |r.value| == 1 ==> exists row :: row in t.rows && r.value[0] == Flatten(row)
    ensures t.outage.None? ==> r.Ok? && (|r.value| == 1 <==> exists row :: row in t.rows && Matches(row, "name", name))
    ensures t.outage.None? ==> var named := Where(t.rows, "name", name);
      r == Ok(if named == [] then [] else [Flatten(named[0])])
  {
    match t.Select("name", name)
    case Err(e) => Err(HandleAirtableError(e))
    case Ok(rows) =>
      if rows == [] then Ok([])
      else
        assert rows[0] in rows;
        Ok([Flatten(rows[0])])
  }

  /** `Product.getProductsBySellerId(sellerId)`: exactly the records whose
      sellerId is the given one, in table order. */
  function GetProductsBySellerId(t: Table, sellerId: string): (r: Result<seq<Fields>>)
    reads t
    ensures t.outage.Some? ==> r == Err(HandleAirtableError(t.outage.value))
    ensures t.outage.None? ==> r == Ok(FlattenAll(Where(t.rows, "sellerId", sellerId)))
  {
    match t.Select("sellerId", sellerId)
    case Err(e) => Err(HandleAirtableError(e))
    case Ok(rows) => Ok(FlattenAll(rows))
  }

  /** Every product the seller listing returns belongs to that seller, and
      every product of that seller is returned. */
  lemma SellerListingIsExact(t: Table, sellerId: string)
    requires t.outage.None?
    ensures var listed := GetProductsBySellerId(t, sellerId).value;
      && (forall p :: p in listed ==> exists row :: row in t.rows && p == Flatten(row) && Matches(row, "sellerId", sellerId))
      && (forall row :: row in t.rows && Matches(row, "sellerId", sellerId) ==> Flatten(row) in listed)
  {
    var matching := Where(t.rows, "sellerId", sellerId);
    var listed := FlattenAll(matching);
    forall p | p in listed
      ensures exists row :: row in t.rows && p == Flatten(row) && Matches(row, "sellerId", sellerId)
    {
      var i :| 0 <= i < |listed| && listed[i] == p;
      assert matching[i] in matching;
    }
    forall row | row in t.rows && Matches(row, "sellerId", sellerId)
      ensures Flatten(row) in listed
    {
      var i :| 0 <= i < |matching| && matching[i] == row;
      assert listed[i] == Flatten(row);
    }
  }
}
