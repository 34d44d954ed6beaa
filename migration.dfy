/** backend/src/utils/migration.js: `syncProducts` joins every MyProducts
    record to the first Products record of the same name and writes that
    record's id into the MyProducts record's `productId`. MyProduct.js is
    not part of this model: MyProduct.getAll is taken to list every record
    of the MyProducts table, in table order, failing with the table's own
    error. */
module Migration {
  import opened Js
  import opened Store
  import ProductModel
  import ErrorHandler

  /** The columns the migration rewrites with their own values. */
  const KEPT_COLUMNS: set<string> := {"name", "description", "price", "image"}

  /** The fields written for a matched record: its name, description,
      price and image as they are, and the product id. */
  function SyncFields(fields: Fields, productId: Value): (f: Fields)
    ensures f.Keys == (fields.Keys * KEPT_COLUMNS) + {"productId"}
    ensures f["productId"] == productId
    ensures forall k :: k in f && k != "productId" ==> f[k] == fields[k]
  {
    Pick(fields, KEPT_COLUMNS)["productId" := productId]
  }

  /** The Products records that share the record's name, in table order. */
  function NameMatches(r: Row, products: seq<Row>): seq<Row> {
    Where(products, "name", ToText(Get(r.fields, "name")))
  }

  /** A MyProducts record after the migration: with a same-named product,
      its `productId` is that product's id and every other column is as it
      was; without one, the record is unchanged. */
  function Synced(r: Row, products: seq<Row>): (s: Row)
    ensures s.key == r.key
    ensures NameMatches(r, products) == [] ==> s == r
    ensures NameMatches(r, products) != [] ==>
      s.fields == r.fields["productId" := Flatten(NameMatches(r, products)[0])["id"]]
    ensures forall k :: k != "productId" ==> Get(s.fields, k) == Get(r.fields, k)
  {
    var named := NameMatches(r, products);
    if named == [] then r
    else
      var f := r.fields + SyncFields(r.fields, Flatten(named[0])["id"]);
      assert f == r.fields["productId" := Flatten(named[0])["id"]];
      Row(r.key, f)
  }

  /** The whole MyProducts table after a successful migration. */
  function SyncAll(rows: seq<Row>, products: seq<Row>): (s: seq<Row>)
    ensures |s| == |rows|
    ensures forall i :: 0 <= i < |rows| ==> s[i] == Synced(rows[i], products)
  {
    seq(|rows|, i requires 0 <= i < |rows| => Synced(rows[i], products))
  }

  /** The matched product id is the id of a Products record that carries
      the MyProducts record's name, and no earlier Products record does. */
  lemma {:induction false} FirstMatch(name: string, products: seq<Row>)
    requires Where(products, "name", name) != []
    ensures exists i :: 0 <= i < |products| && products[i] == Where(products, "name", name)[0] &&
              (forall j :: 0 <= j < i ==> !Matches(products[j], "name", name))
  {
    var keep := (x: Row) => Matches(x, "name", name);
    if Matches(products[0], "name", name) {
      assert Where(products, "name", name)[0] == products[0];
    } else {
      assert Where(products, "name", name) == Where(products[1..], "name", name);
      FirstMatch(name, products[1..]);
      var i :| 0 <= i < |products[1..]| && products[1..][i] == Where(products[1..], "name", name)[0] &&
               (forall j :: 0 <= j < i ==> !Matches(products[1..][j], "name", name));
      assert products[i + 1] == Where(products, "name", name)[0];
      forall j | 0 <= j < i + 1 ensures !Matches(products[j], "name", name) {
        if j > 0 {
          assert products[j] == products[1..][j - 1];
        }
      }
    }
  }

  /** Rows with distinct keys keep them after the migration. */
  lemma SyncAllKeepsKeys(rows: seq<Row>, products: seq<Row>, nextId: nat)
    requires WellKeyed(rows, nextId)
    ensures WellKeyed(SyncAll(rows, products), nextId)
  {
  }

  /** One pass of the loop: the record at position i is joined to its
      first same-named product, if any. */
  method SyncRecord(myProducts: Table, products: Table, i: nat) returns (r: Result<()>)
    requires myProducts.Valid() && myProducts.outage.None? && myProducts != products
    requires i < |myProducts.rows|
    modifies myProducts
    ensures myProducts.Valid() && myProducts.outage == old(myProducts.outage) && myProducts.nextId == old(myProducts.nextId)
    ensures r.Err? <==> products.outage.Some?
    ensures r.Err? ==> r.error == ErrorHandler.HandleAirtableError(products.outage.value) && myProducts.rows == old(myProducts.rows)
    ensures r.Ok? ==> myProducts.rows == old(myProducts.rows)[i := Synced(old(myProducts.rows)[i], products.rows)]
  {
    var record := myProducts.rows[i];
    var found := ProductModel.FindByName(products, ToText(Get(record.fields, "name")));
    if found.Err? {
      return Err(found.error);
    }
    if |found.value| > 0 {
      var main := found.value[0];
      var k := IndexOf(myProducts.rows, record.Id()).value;
      DistinctIds(myProducts.rows, myProducts.nextId, k, i);
      var updated := myProducts.Update(record.Id(), SyncFields(record.fields, main["id"]));
      assert updated.Ok?;
    }
    return Ok(());
  }

  /** `syncProducts()`. The Products table is only read. Records are
      handled in order; the first failure is rethrown. */
  method SyncProducts(myProducts: Table, products: Table) returns (r: Result<()>)
    requires myProducts.Valid() && myProducts != products
    modifies myProducts
    ensures myProducts.Valid() && myProducts.outage == old(myProducts.outage) && myProducts.nextId == old(myProducts.nextId)
    ensures products.rows == old(products.rows)
    ensures old(myProducts.outage).Some? ==> r == Err(old(myProducts.outage).value)
    ensures old(myProducts.outage).None? && products.outage.Some? && old(myProducts.rows) != [] ==>
      r == Err(ErrorHandler.HandleAirtableError(products.outage.value))
    ensures r.Ok? <==> old(myProducts.outage).None? && (products.outage.None? || old(myProducts.rows) == [])
    ensures r.Ok? ==> myProducts.rows == SyncAll(old(myProducts.rows), products.rows)
    ensures r.Err? ==> myProducts.rows == old(myProducts.rows)
  {
    var listed := myProducts.All();
    if listed.Err? {
      return Err(listed.error);
    }
    var records := listed.value;
    var i := 0;
    while i < |records|
      invariant 0 <= i <= |records|
      invariant myProducts.Valid() && myProducts.outage.None? && myProducts.nextId == old(myProducts.nextId)
      invariant i > 0 ==> products.outage.None?
      invariant |myProducts.rows| == |records|
      invariant forall j :: 0 <= j < i ==> myProducts.rows[j] == Synced(records[j], products.rows)
      invariant forall j :: i <= j < |records| ==> myProducts.rows[j] == records[j]
    {
      ghost var before := myProducts.rows;
      var step := SyncRecord(myProducts, products, i);
      if step.Err? {
        assert before == records;
        return step;
      }
      i := i + 1;
    }
    return Ok(());
  }
}
