/** The remote record store, as the backend sees it: each table holds
    records `{ id, fields }` in table order, assigns a fresh id to each
    record it creates, merges the fields of an update into the record, and
    answers a lookup of an unknown id with a NOT_FOUND error. A table that
    is failing (network, credentials, quota) answers every call with the
    same error. Formula filters are modelled as equality on one field. */
module Store {
  import opened Text
  import opened Js

  /** The text id the store gives to the record created as number `key`. */
  function RecordId(key: nat): (id: string)
    ensures |id| > 3 && id[..3] == "rec"
  {
    "rec" + Digits(key)
  }

  /** Distinct record numbers give distinct ids. */
  lemma RecordIdInjective(a: nat, b: nat)
    requires RecordId(a) == RecordId(b)
    ensures a == b
  {
    assert Digits(a) == RecordId(a)[3..];
    assert Digits(b) == RecordId(b)[3..];
    DigitsInjective(a, b);
  }

  datatype Row = Row(key: nat, fields: Fields) {
    function Id(): string {
      RecordId(key)
    }
  }

  /** `{ id: record.id, ...record.fields }` */
  function Flatten(r: Row): (f: Fields)
    ensures f.Keys == r.fields.Keys + {"id"}
    ensures "id" !in r.fields ==> f["id"] == Str(r.Id())
    ensures forall k :: k in r.fields ==> f[k] == r.fields[k]
  {
    map["id" := Str(r.Id())] + r.fields
  }

  /** `records.map(record => ({ id: record.id, ...record.fields }))` */
  function FlattenAll(rows: seq<Row>): (fs: seq<Fields>)
    ensures |fs| == |rows|
    ensures forall i :: 0 <= i < |rows| ==> fs[i] == Flatten(rows[i])
  {
    if rows == [] then [] else [Flatten(rows[0])] + FlattenAll(rows[1..])
  }

  function Ids(rows: seq<Row>): (ids: set<string>)
    ensures forall i :: 0 <= i < |rows| ==> rows[i].Id() in ids
    ensures forall id :: id in ids ==> exists i :: 0 <= i < |rows| && rows[i].Id() == id
  {
    set i | 0 <= i < |rows| :: rows[i].Id()
  }

  /** Position of the record with the given id. */
  function IndexOf(rows: seq<Row>, id: string): (r: Option<nat>)
    ensures r.Some? ==> r.value < |rows| && rows[r.value].Id() == id
    ensures r.Some? ==> forall j :: 0 <= j < r.value ==> rows[j].Id() != id
    ensures r.None? <==> id !in Ids(rows)
  {
    if rows == [] then None
    else if rows[0].Id() == id then Some(0)
    else match IndexOf(rows[1..], id)
      case None => None
      case Some(i) => Some(i + 1)
  }

  /** Does the record's `column` hold exactly the text `text`? */
  predicate Matches(r: Row, column: string, text: string) {
    Get(r.fields, column) == Some(Str(text))
  }

  /** `select({ filterByFormula: "{column} = 'text'" })`: the matching
      records, in table order. */
  function Where(rows: seq<Row>, column: string, text: string): (r: seq<Row>)
    ensures forall x :: x in r ==> x in rows && Matches(x, column, text)
    ensures forall x :: x in rows && Matches(x, column, text) ==> x in r
  {
    Filter(rows, (x: Row) => Matches(x, column, text))
  }

  /** `rows` with the record at position i replaced; the others keep their places. */
  function Replace(rows: seq<Row>, i: nat, r: Row): (s: seq<Row>)
    requires i < |rows|
    ensures |s| == |rows| && s[i] == r
    ensures forall j :: 0 <= j < |rows| && j != i ==> s[j] == rows[j]
  {
    rows[i := r]
  }

  /** `rows` without the record at position i, the others in their order. */
  function Remove(rows: seq<Row>, i: nat): (s: seq<Row>)
    requires i < |rows|
    ensures |s| == |rows| - 1
    ensures forall j :: 0 <= j < i ==> s[j] == rows[j]
    ensures forall j :: i <= j < |s| ==> s[j] == rows[j + 1]
  {
    rows[..i] + rows[i + 1..]
  }

  /** Record numbers are below the counter and used at most once. */
  ghost predicate WellKeyed(rows: seq<Row>, nextId: nat) {
    && (forall i :: 0 <= i < |rows| ==> rows[i].key < nextId)
    && (forall i, j :: 0 <= i < j < |rows| ==> rows[i].key != rows[j].key)
  }

  /** In a well-keyed table no two records share an id. */
  lemma DistinctIds(rows: seq<Row>, nextId: nat, i: nat, j: nat)
    requires WellKeyed(rows, nextId)
    requires i < |rows| && j < |rows| && rows[i].Id() == rows[j].Id()
    ensures i == j
  {
    RecordIdInjective(rows[i].key, rows[j].key);
  }

  /** The id the counter hands out next belongs to no record. */
  lemma FreshId(rows: seq<Row>, nextId: nat)
    requires WellKeyed(rows, nextId)
    ensures RecordId(nextId) !in Ids(rows)
  {
    if RecordId(nextId) in Ids(rows) {
      var i :| 0 <= i < |rows| && rows[i].Id() == RecordId(nextId);
      RecordIdInjective(rows[i].key, nextId);
    }
  }

  /** Removing a record of a well-keyed table removes its id. */
  lemma RemovedIdIsGone(rows: seq<Row>, nextId: nat, i: nat)
    requires WellKeyed(rows, nextId) && i < |rows|
    ensures WellKeyed(Remove(rows, i), nextId)
    ensures rows[i].Id() !in Ids(Remove(rows, i))
  {
    var s := Remove(rows, i);
    forall j | 0 <= j < |s| ensures s[j].Id() != rows[i].Id() {
      var k := if j < i then j else j + 1;
      assert s[j] == rows[k];
      if rows[k].Id() == rows[i].Id() {
        DistinctIds(rows, nextId, i, k);
      }
    }
  }

  class Table {
    /** The records, in table (view) order. */
    var rows: seq<Row>
    /** Number of the next record to create. */
    var nextId: nat
    /** When set, the failure every call to this table currently meets. */
    var outage: Option<Error>

    ghost predicate Valid()
      reads this
    {
      WellKeyed(rows, nextId)
    }

    constructor (failing: Option<Error>)
      ensures Valid() && rows == [] && nextId == 0 && outage == failing
    {
      rows, nextId, outage := [], 0, failing;
    }

    /** `base(table).select().all()` */
    function All(): (r: Result<seq<Row>>)
      reads this
      ensures outage.Some? ==> r == Err(outage.value)
      ensures outage.None? ==> r == Ok(rows)
    {
      if outage.Some? then Err(outage.value) else Ok(rows)
    }

    /** `base(table).find(id)` */
    function Find(id: string): (r: Result<Row>)
      reads this
      ensures outage.Some? ==> r == Err(outage.value)
      ensures outage.None? ==> (r.Ok? <==> id in Ids(rows))
      ensures outage.None? && r.Err? ==> r.error == NotFoundError
      ensures r.Ok? ==> r.value in rows && r.value.Id() == id
    {
      if outage.Some? then Err(outage.value)
      else match IndexOf(rows, id)
        case None => Err(NotFoundError)
        case Some(i) => Ok(rows[i])
    }

    /** `base(table).select({ filterByFormula: "{column} = 'text'" }).all()` */
    function Select(column: string, text: string): (r: Result<seq<Row>>)
      reads this
      ensures outage.Some? ==> r == Err(outage.value)
      ensures outage.None? ==> r == Ok(Where(rows, column, text))
    {
      if outage.Some? then Err(outage.value) else Ok(Where(rows, column, text))
    }

    /** `base(table).create([{ fields }])`: appends a record with a fresh id. */
    method Create(fields: Fields) returns (r: Result<Row>)
      requires Valid()
      modifies this
      ensures Valid() && outage == old(outage)
      ensures old(outage).Some? ==> r == Err(old(outage).value) && rows == old(rows) && nextId == old(nextId)
      ensures old(outage).None? ==> r == Ok(Row(old(nextId), fields))
      ensures old(outage).None? ==> rows == old(rows) + [r.value] && nextId == old(nextId) + 1
      ensures r.Ok? ==> r.value.Id() !in Ids(old(rows))
    {
      if outage.Some? {
        return Err(outage.value);
      }
      FreshId(rows, nextId);
      var row := Row(nextId, fields);
      rows := rows + [row];
      nextId := nextId + 1;
      r := Ok(row);
    }

    /** `base(table).update([{ id, fields }])`: merges `fields` into the
        record with that id; no other record changes. */
    method Update(id: string, fields: Fields) returns (r: Result<Row>)
      requires Valid()
      modifies this
      ensures Valid() && outage == old(outage) && nextId == old(nextId)
      ensures old(outage).Some? ==> r == Err(old(outage).value) && rows == old(rows)
      ensures old(outage).None? && id !in Ids(old(rows)) ==> r == Err(NotFoundError) && rows == old(rows)
      ensures old(outage).None? && id in Ids(old(rows)) ==>
        var i := IndexOf(old(rows), id).value;
        && r == Ok(Row(old(rows)[i].key, old(rows)[i].fields + fields))
        && rows == Replace(old(rows), i, r.value)
    {
      if outage.Some? {
        return Err(outage.value);
      }
      match IndexOf(rows, id)
      case None =>
        r := Err(NotFoundError);
      case Some(i) =>
        var row := Row(rows[i].key, rows[i].fields + fields);
        rows := Replace(rows, i, row);
        r := Ok(row);
    }

    /** `base(table).destroy([id])`: removes the record with that id and
        returns it. */
    method Destroy(id: string) returns (r: Result<Row>)
      requires Valid()
      modifies this
      ensures Valid() && outage == old(outage) && nextId == old(nextId)
      ensures old(outage).Some? ==> r == Err(old(outage).value) && rows == old(rows)
      ensures old(outage).None? && id !in Ids(old(rows)) ==> r == Err(NotFoundError) && rows == old(rows)
      ensures old(outage).None? && id in Ids(old(rows)) ==>
        var i := IndexOf(old(rows), id).value;
        r == Ok(old(rows)[i]) && rows == Remove(old(rows), i)
      ensures old(outage).None? ==> id !in Ids(rows)
    {
      if outage.Some? {
        return Err(outage.value);
      }
      if id !in Ids(rows) {
        return Err(NotFoundError);
      }
      var i := IndexOf(rows, id).value;
      RemovedIdIsGone(rows, nextId, i);
      r := Ok(rows[i]);
      rows := Remove(rows, i);
    }
  }
}
