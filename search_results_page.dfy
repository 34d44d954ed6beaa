/** frontend/src/pages/SearchResultsPage.jsx: the product search run when
    the page's `q` parameter is set. The fetched product list is a
    parameter (`fetched`); rendering is not modelled. */
module SearchResultsPage {
  import opened Text
  import opened Js

  /** What the page ends up holding: no search (the query is absent or
      empty), the products found, or the error message. */
  datatype SearchOutcome = NoSearch | Found(products: seq<Fields>) | Failed(message: string)

  /** Stands for the message of the TypeError thrown by `toLowerCase` on a
      name or description that is not text. */
  const FIELD_TYPE_ERROR := "Cannot read properties of a non-text field (reading 'toLowerCase')"

  /** `p[key]` is text. */
  predicate HasText(p: Fields, key: string) {
    key in p && p[key].Str?
  }

  /** `p[key].toLowerCase().includes(query.toLowerCase())` */
  predicate Mentions(p: Fields, key: string, query: string)
    requires HasText(p, key)
  {
    Contains(Lower(p[key].s), Lower(query))
  }

  /** The filter test for one product: Some(kept?), or None when it throws.
      `||` only reads the description when the name does not match. */
  function Test(p: Fields, query: string): (t: Option<bool>)
    ensures t == Some(true) <==> HasText(p, "name") && (Mentions(p, "name", query) || (HasText(p, "description") && Mentions(p, "description", query)))
    ensures t.None? <==> !HasText(p, "name") || (!Mentions(p, "name", query) && !HasText(p, "description"))
  {
    if !HasText(p, "name") then None
    else if Mentions(p, "name", query) then Some(true)
    else if !HasText(p, "description") then None
    else Some(Mentions(p, "description", query))
  }

  /** The effect's outcome for the query `q` and the products fetched. */
  function Search(query: Option<string>, fetched: Result<seq<Fields>>): (o: SearchOutcome)
    ensures query.None? || query.value == "" ==> o == NoSearch
    ensures query.Some? && query.value != "" && fetched.Err? ==> o == Failed(fetched.error.message)
    ensures o.Found? ==> query.Some? && query.value != "" && fetched.Ok?
    ensures o.Found? ==> Subsequence(o.products, fetched.value)
    ensures o.Found? ==> forall p :: p in o.products <==> p in fetched.value && Test(p, query.value) == Some(true)
    ensures query.Some? && query.value != "" && fetched.Ok? ==>
      (o.Failed? <==> exists p :: p in fetched.value && Test(p, query.value).None?)
    ensures fetched.Ok? && o.Failed? ==> o.message == FIELD_TYPE_ERROR
  {
    if query.None? || query.value == "" then NoSearch
    else match fetched
      case Err(e) => Failed(e.message)
      case Ok(all) =>
        if exists p :: p in all && Test(p, query.value).None? then Failed(FIELD_TYPE_ERROR)
        else
          var keep := (p: Fields) => Test(p, query.value) == Some(true);
          FilterIsSubsequence(all, keep);
          Found(Filter(all, keep))
  }

  /** When every product has a text name and description, the search
      succeeds and keeps a product exactly when its name or description
      contains the query, ignoring letter case. */
  lemma SearchKeepsExactlyTheMatches(query: string, all: seq<Fields>)
    requires query != ""
    requires forall p :: p in all ==> HasText(p, "name") && HasText(p, "description")
    ensures var o := Search(Some(query), Ok(all));
      && o.Found?
      && forall p :: p in o.products <==> p in all && (Mentions(p, "name", query) || Mentions(p, "description", query))
  {
  }

  /** The letter case of the query does not matter. */
  lemma SearchIgnoresQueryCase(query: string, fetched: Result<seq<Fields>>)
    ensures Search(Some(query), fetched) == Search(Some(Lower(query)), fetched)
  {
    LowerIdempotent(query);
    if query != "" && fetched.Ok? {
      var all := fetched.value;
      forall p ensures Test(p, query) == Test(p, Lower(query)) {
      }
      FilterSameTest(all, (p: Fields) => Test(p, query) == Some(true), (p: Fields) => Test(p, Lower(query)) == Some(true));
    }
  }

  lemma LowerIdempotent(s: string)
    ensures Lower(Lower(s)) == Lower(s)
  {
  }

  /** Filters with tests that agree everywhere keep the same elements. */
  lemma {:induction false} FilterSameTest<T>(xs: seq<T>, k1: T -> bool, k2: T -> bool)
    requires forall x :: k1(x) == k2(x)
    ensures Filter(xs, k1) == Filter(xs, k2)
  {
    if xs != [] {
      FilterSameTest(xs[1..], k1, k2);
    }
  }
}
