/** The JavaScript values that flow between request bodies, the record
    store and the handlers, with the few language rules the handlers rely
    on: truthiness, numeric coercion, String(...) and object spreading. */
module Js {
  import opened Text

  datatype Option<+T> = None | Some(value: T) {
    function GetOr(default: T): T {
      if Some? then value else default
    }
  }

  /** A scalar field value. Numbers are integers (money in whole units of
      the smallest denomination); `undefined` is a missing key. */
  datatype Value = Str(s: string) | Num(n: int) | Bool(b: bool) | Null | NaN

  /** A record's fields, or a JSON request body: `{ key: value, ... }`. */
  type Fields = map<string, Value>

  /** Every thrown error of the core. `errorCode` is the record store's
      `err.error` tag; `statusCode`, `status` and `isOperational` are the
      properties the error middleware reads. */
  datatype Error = Error(
    message: string,
    errorCode: Option<string>,
    statusCode: Option<int>,
    status: Option<string>,
    isOperational: bool)

  datatype Result<+T> = Ok(value: T) | Err(error: Error)

  /** A plain `new Error(message)`. */
  function PlainError(message: string): (e: Error)
    ensures e.message == message && !e.isOperational
    ensures e.errorCode == None && e.statusCode == None && e.status == None
  {
    Error(message, None, None, None, false)
  }

  /** An error raised by the record store, tagged with its `error` code. */
  function StoreError(code: string, message: string): (e: Error)
    ensures e.errorCode == Some(code) && e.message == message && !e.isOperational
  {
    Error(message, Some(code), None, None, false)
  }

  const NOT_FOUND := "NOT_FOUND"
  const INVALID_PERMISSIONS := "INVALID_PERMISSIONS"

  /** The store's answer to a lookup of an id it does not hold. */
  const NotFoundError := StoreError(NOT_FOUND, "Could not find what you are looking for")

  /** `obj.key` */
  function Get(f: Fields, key: string): (v: Option<Value>)
    ensures v.Some? <==> key in f
    ensures v.Some? ==> v.value == f[key]
  {
    if key in f then Some(f[key]) else None
  }

  /** `typeof v === 'string'` */
  predicate IsText(v: Option<Value>) {
    v.Some? && v.value.Str?
  }

  /** `typeof v` (`Null` is "object", NaN a "number"). */
  function TypeOf(v: Option<Value>): (t: string)
    ensures t == "string" <==> v.Some? && v.value.Str?
    ensures t == "undefined" <==> v.None?
    ensures t == "number" <==> v.Some? && (v.value.Num? || v.value.NaN?)
  {
    match v
    case None => "undefined"
    case Some(Str(_)) => "string"
    case Some(Num(_)) => "number"
    case Some(NaN) => "number"
    case Some(Bool(_)) => "boolean"
    case Some(Null) => "object"
  }

  /** JavaScript truthiness; `undefined` (None) is falsy. */
  predicate Truthy(v: Option<Value>) {
    match v
    case None => false
    case Some(Str(s)) => s != ""
    case Some(Num(n)) => n != 0
    case Some(Bool(b)) => b
    case Some(Null) => false
    case Some(NaN) => false
  }

  /** `a || b` on values. */
  function Or(a: Option<Value>, b: Value): (r: Value)
    ensures Truthy(a) ==> r == a.value
    ensures !Truthy(a) ==> r == b
  {
    if Truthy(a) then a.value else b
  }

  /** Numeric coercion (`Number(v)`); None is NaN. Text is read only when
      it is empty or all digits. */
  function ToNumber(v: Option<Value>): (r: Option<int>)
    ensures v.Some? && v.value.Num? ==> r == Some(v.value.n)
    ensures v.None? ==> r.None?
  {
    match v
    case None => None
    case Some(Num(n)) => Some(n)
    case Some(Null) => Some(0)
    case Some(Bool(b)) => Some(if b then 1 else 0)
    case Some(NaN) => None
    case Some(Str(s)) =>
      if forall i | 0 <= i < |s| :: IsDigit(s[i]) then Some(ParseDigits(s)) else None
  }

  /** `a * b` */
  function Mul(a: Option<Value>, b: Option<Value>): (r: Value)
    ensures ToNumber(a).Some? && ToNumber(b).Some? ==> r == Num(ToNumber(a).value * ToNumber(b).value)
    ensures ToNumber(a).None? || ToNumber(b).None? ==> r == NaN
  {
    match (ToNumber(a), ToNumber(b))
    case (Some(x), Some(y)) => Num(x * y)
    case _ => NaN
  }

  /** `a < b` with a number on the right: NaN compares false. */
  predicate LessThan(a: Option<Value>, b: int) {
    ToNumber(a).Some? && ToNumber(a).value < b
  }

  /** String(v), as template literals interpolate it. */
  function ToText(v: Option<Value>): string {
    match v
    case None => "undefined"
    case Some(Str(s)) => s
    case Some(Num(n)) => DecimalText(n)
    case Some(Bool(b)) => if b then "true" else "false"
    case Some(Null) => "null"
    case Some(NaN) => "NaN"
  }

  /** `{ ...f, key: v }`, where a `v` of `undefined` leaves the key out,
      as JSON serialisation does. */
  function Put(f: Fields, key: string, v: Option<Value>): (r: Fields)
    ensures v.Some? ==> key in r && r[key] == v.value
    ensures v.None? ==> key !in r
    ensures forall k :: k != key ==> Get(r, k) == Get(f, k)
  {
    if v.Some? then f[key := v.value] else f - {key}
  }

  /** The fields of f whose keys are in `keys`: the object literal
      `{ a: f.a, b: f.b, ... }` once undefined members are dropped. */
  function Pick(f: Fields, keys: set<string>): (r: Fields)
    ensures r.Keys == f.Keys * keys
    ensures forall k :: k in r ==> r[k] == f[k]
  {
    map k | k in f && k in keys :: f[k]
  }

  // ---------------------------------------------------------------------
  // Array.prototype.filter
  // ---------------------------------------------------------------------

  /** `xs.filter(keep)` */
  function Filter<T>(xs: seq<T>, keep: T -> bool): (r: seq<T>)
    ensures |r| <= |xs|
    ensures forall x :: x in r ==> x in xs && keep(x)
    ensures forall x :: x in xs && keep(x) ==> x in r
    ensures (forall x :: x in xs ==> !keep(x)) ==> r == []
  {
    if xs == [] then []
    else if keep(xs[0]) then [xs[0]] + Filter(xs[1..], keep)
    else Filter(xs[1..], keep)
  }

  /** a is b with some elements left out, the rest in their order. */
  predicate Subsequence<T(==)>(a: seq<T>, b: seq<T>)
    decreases |b|
  {
    if a == [] then true
    else if b == [] then false
    else if a[0] == b[0] then Subsequence(a[1..], b[1..])
    else Subsequence(a, b[1..])
  }

  /** A filter keeps the kept elements in their original order. */
  lemma {:induction false} FilterIsSubsequence<T>(xs: seq<T>, keep: T -> bool)
    ensures Subsequence(Filter(xs, keep), xs)
  {
    if xs != [] {
      FilterIsSubsequence(xs[1..], keep);
      var rest := Filter(xs[1..], keep);
      if !keep(xs[0]) && rest != [] {
        assert rest[0] in rest;
      }
    }
  }

  /** Filtering a concatenation filters each part. */
  lemma {:induction false} FilterAppend<T>(a: seq<T>, b: seq<T>, keep: T -> bool)
    ensures Filter(a + b, keep) == Filter(a, keep) + Filter(b, keep)
  {
    if a == [] {
      assert a + b == b;
    } else {
      assert (a + b)[1..] == a[1..] + b;
      FilterAppend(a[1..], b, keep);
    }
  }

  /** A filter that every element passes changes nothing. */
  lemma {:induction false} FilterKeepsAll<T>(xs: seq<T>, keep: T -> bool)
    requires forall i :: 0 <= i < |xs| ==> keep(xs[i])
    ensures Filter(xs, keep) == xs
  {
    if xs != [] {
      FilterKeepsAll(xs[1..], keep);
    }
  }

  /** Filtering twice with the same test is filtering once. */
  lemma FilterIdempotent<T>(xs: seq<T>, keep: T -> bool)
    ensures Filter(Filter(xs, keep), keep) == Filter(xs, keep)
  {
    var r := Filter(xs, keep);
    forall i | 0 <= i < |r| ensures keep(r[i]) {
      assert r[i] in r;
    }
    FilterKeepsAll(r, keep);
  }
}
