/**
 * The search page's local filter record: its initial value read from the URL, the update on a
 * filter change together with the URL query it writes, and the reset.
 */
module SearchPage {
  import opened Wrappers
  import opened Js
  import opened Seqs
  import opened ProvidersSlice

  /** A URL query string as `URLSearchParams` holds it: name/value pairs in order. */
  type Query = seq<(string, string)>

  /** `searchParams.get(k)`: the first value under `k`, `None` standing for `null`. */
  function Get(query: Query, k: string): Option<string>
    decreases |query|
  {
    if query == [] then None
    else if query[0].0 == k then Some(query[0].1)
    else Get(query[1..], k)
  }

  /** `searchParams.get(k) || d`. */
  function UrlOr(query: Query, k: string, d: string): string {
    match Get(query, k)
    case Some(s) => if s != "" then s else d
    case None => d
  }

  /** The filter keys, in the order of the record literal. */
  const FILTER_KEYS: seq<string> := ["q", "category", "subcategory", "location", "minRating", "maxPrice", "sort"]

  /** The initial `localFilters` for the page's URL. */
  function InitialFilters(query: Query): seq<Entry> {
    [("q", Str(UrlOr(query, "q", ""))),
     ("category", Str(UrlOr(query, "category", ""))),
     ("subcategory", Str(UrlOr(query, "subcategory", ""))),
     ("location", Str(UrlOr(query, "location", ""))),
     ("minRating", Str(UrlOr(query, "minRating", ""))),
     ("maxPrice", Str(UrlOr(query, "maxPrice", ""))),
     ("sort", Str(UrlOr(query, "sort", "relevance")))]
  }

  /** The record `handleClearFilters` installs. */
  const CLEARED: seq<Entry> := [
    ("q", Str("")), ("category", Str("")), ("subcategory", Str("")), ("location", Str("")),
    ("minRating", Str("")), ("maxPrice", Str("")), ("sort", Str("relevance"))]

  /** `{ ...obj, [k]: v }`: an existing key keeps its place and takes `v`, a new key goes last. */
  function SetEntry(obj: seq<Entry>, k: string, v: Value): (r: seq<Entry>)
    decreases |obj|
  {
    if obj == [] then [(k, v)]
    else if obj[0].0 == k then [(k, v)] + obj[1..]
    else [obj[0]] + SetEntry(obj[1..], k, v)
  }

  /** Every pair of the query except those named `k`. */
  function DropName(query: Query, k: string): Query
    decreases |query|
  {
    if query == [] then []
    else (if query[0].0 == k then [] else [query[0]]) + DropName(query[1..], k)
  }

  /**
   * `params.set(k, v)`: the first pair named `k` takes `v` and any later ones are dropped; with
   * no such pair, `(k, v)` is appended.
   */
  function SetParam(query: Query, k: string, v: string): Query
    decreases |query|
  {
    if query == [] then [(k, v)]
    else if query[0].0 == k then [(k, v)] + DropName(query[1..], k)
    else [query[0]] + SetParam(query[1..], k, v)
  }

  /** The query the page writes for a filter record: each truthy value under its key, in order. */
  function UrlParams(obj: seq<Entry>): Query
    decreases |obj|
  {
    if obj == [] then []
    else (if Truthy(obj[0].1) then [(obj[0].0, ToString(obj[0].1))] else []) + UrlParams(obj[1..])
  }

  predicate NameAbsent(query: Query, k: string) {
    forall i :: 0 <= i < |query| ==> query[i].0 != k
  }

  /** Setting a name the query does not hold appends it. */
  lemma {:induction false} SetParamAppends(query: Query, k: string, v: string)
    requires NameAbsent(query, k)
    ensures SetParam(query, k, v) == query + [(k, v)]
    decreases |query|
  {
    if query != [] {
      assert query[0].0 != k;
      assert NameAbsent(query[1..], k) by {
        assert forall i :: 0 <= i < |query[1..]| ==> query[1..][i] == query[i + 1];
      }
      SetParamAppends(query[1..], k, v);
      assert [query[0]] + (query[1..] + [(k, v)]) == query + [(k, v)];
    }
  }

  lemma {:induction false} UrlParamsConcat(a: seq<Entry>, b: seq<Entry>)
    ensures UrlParams(a + b) == UrlParams(a) + UrlParams(b)
    decreases |a|
  {
    if a == [] {
      assert a + b == b;
    } else {
      var head := if Truthy(a[0].1) then [(a[0].0, ToString(a[0].1))] else [];
      assert (a + b)[0] == a[0];
      assert (a + b)[1..] == a[1..] + b;
      assert UrlParams(a + b) == head + UrlParams(a[1..] + b);
      UrlParamsConcat(a[1..], b);
      assert head + (UrlParams(a[1..]) + UrlParams(b)) == (head + UrlParams(a[1..])) + UrlParams(b);
    }
  }

  /** Every name in the written query is a key of the record. */
  lemma {:induction false} UrlParamsNames(obj: seq<Entry>, k: string)
    requires forall i :: 0 <= i < |obj| ==> obj[i].0 != k
    ensures NameAbsent(UrlParams(obj), k)
    decreases |obj|
  {
    if obj != [] {
      assert forall i :: 0 <= i < |obj[1..]| ==> obj[1..][i] == obj[i + 1];
      UrlParamsNames(obj[1..], k);
    }
  }

  /** One loop step: the next truthy entry is appended to the query of the prefix. */
  lemma UrlParamsStep(obj: seq<Entry>, i: int)
    requires DistinctKeys(obj) && 0 <= i < |obj|
    ensures NameAbsent(UrlParams(obj[..i]), obj[i].0)
    ensures UrlParams(obj[..i + 1])
            == UrlParams(obj[..i]) + (if Truthy(obj[i].1) then [(obj[i].0, ToString(obj[i].1))] else [])
  {
    assert forall j :: 0 <= j < i ==> obj[..i][j] == obj[j];
    UrlParamsNames(obj[..i], obj[i].0);
    assert obj[..i + 1] == obj[..i] + [obj[i]];
    UrlParamsConcat(obj[..i], [obj[i]]);
  }

  /** `{ ...obj, [k]: v }` keeps the keys distinct. */
  lemma {:induction false} SetEntryKeys(obj: seq<Entry>, k: string, v: Value)
    requires DistinctKeys(obj)
    ensures DistinctKeys(SetEntry(obj, k, v))
    ensures forall j :: 0 <= j < |SetEntry(obj, k, v)| ==>
              SetEntry(obj, k, v)[j].0 == k || exists i :: 0 <= i < |obj| && obj[i].0 == SetEntry(obj, k, v)[j].0
    decreases |obj|
  {
    if obj != [] && obj[0].0 != k {
      assert DistinctKeys(obj[1..]) by {
        assert forall j :: 0 <= j < |obj[1..]| ==> obj[1..][j] == obj[j + 1];
      }
      SetEntryKeys(obj[1..], k, v);
      var r := SetEntry(obj, k, v);
      assert r[1..] == SetEntry(obj[1..], k, v);
      forall j | 0 < j < |r|
        ensures r[j].0 == k || exists i :: 0 <= i < |obj| && obj[i].0 == r[j].0
      {
        if r[j].0 != k {
          var i :| 0 <= i < |obj[1..]| && obj[1..][i].0 == r[1..][j - 1].0;
          assert obj[i + 1].0 == r[j].0;
        }
      }
      forall j | 0 < j < |r|
        ensures r[0].0 != r[j].0
      {
        if r[j].0 != k {
          var i :| 0 <= i < |obj[1..]| && obj[1..][i].0 == r[1..][j - 1].0;
          assert obj[i + 1].0 == r[j].0;
        }
      }
    } else if obj != [] {
      var r := SetEntry(obj, k, v);
      forall j | 0 <= j < |r|
        ensures r[j].0 == obj[j].0
      {
      }
    }
  }

  /** `handleFilterChange(key, value)`: the new record and the query written to the URL. */
  method HandleFilterChange(filters: seq<Entry>, key: string, value: Value) returns (newFilters: seq<Entry>, params: Query)
    requires DistinctKeys(filters)
    ensures newFilters == SetEntry(filters, key, value)
    ensures params == UrlParams(newFilters)
  {
    newFilters := SetEntry(filters, key, value);
    SetEntryKeys(filters, key, value);
    params := [];
    var i := 0;
    while i < |newFilters|
      invariant 0 <= i <= |newFilters|
      invariant params == UrlParams(newFilters[..i])
    {
      var (k, v) := newFilters[i];
      UrlParamsStep(newFilters, i);
      if Truthy(v) {
        SetParamAppends(params, k, ToString(v));
        params := SetParam(params, k, ToString(v));
      }
      i := i + 1;
    }
    assert newFilters[..i] == newFilters;
  }

  /** `handleClearFilters`: the reset record and the empty query. */
  function ClearFilters(): (seq<Entry>, Query) {
    (CLEARED, [])
  }

  /** The changed key takes the new value and every other key keeps its own. */
  lemma {:induction false} SetEntryLookup(obj: seq<Entry>, k: string, v: Value, other: string)
    ensures Lookup(SetEntry(obj, k, v), k) == v
    ensures other != k ==> Lookup(SetEntry(obj, k, v), other) == Lookup(obj, other)
    decreases |obj|
  {
    if obj != [] && obj[0].0 != k {
      SetEntryLookup(obj[1..], k, v, other);
      assert SetEntry(obj, k, v)[1..] == SetEntry(obj[1..], k, v);
    }
  }

  /** A key the record already has keeps its position; no key is added. */
  lemma {:induction false} SetEntryInPlace(obj: seq<Entry>, k: string, v: Value, i: int)
    requires 0 <= i < |obj| && obj[i].0 == k && forall j :: 0 <= j < i ==> obj[j].0 != k
    ensures SetEntry(obj, k, v) == obj[i := (k, v)]
    decreases |obj|
  {
    if i > 0 {
      SetEntryInPlace(obj[1..], k, v, i - 1);
    }
  }

  /** A written pair is a truthy entry of the record, rendered as text, and every truthy entry is written. */
  lemma {:induction false} UrlParamsExactlyTruthy(obj: seq<Entry>)
    ensures forall e :: e in UrlParams(obj) <==> exists i :: 0 <= i < |obj| && Truthy(obj[i].1) && e == (obj[i].0, ToString(obj[i].1))
    decreases |obj|
  {
    if obj != [] {
      UrlParamsExactlyTruthy(obj[1..]);
      assert forall i :: 0 <= i < |obj[1..]| ==> obj[1..][i] == obj[i + 1];
      forall e | e in UrlParams(obj)
        ensures exists i :: 0 <= i < |obj| && Truthy(obj[i].1) && e == (obj[i].0, ToString(obj[i].1))
      {
        if e !in UrlParams(obj[1..]) {
          assert Truthy(obj[0].1) && e == (obj[0].0, ToString(obj[0].1));
        } else {
          var i :| 0 <= i < |obj[1..]| && Truthy(obj[1..][i].1) && e == (obj[1..][i].0, ToString(obj[1..][i].1));
          assert obj[i + 1] == obj[1..][i];
        }
      }
      forall e | exists i :: 0 <= i < |obj| && Truthy(obj[i].1) && e == (obj[i].0, ToString(obj[i].1))
        ensures e in UrlParams(obj)
      {
        var i :| 0 <= i < |obj| && Truthy(obj[i].1) && e == (obj[i].0, ToString(obj[i].1));
        if i > 0 {
          assert obj[1..][i - 1] == obj[i];
        }
      }
    }
  }

  /**
   * For text filters, a non-empty value is written unchanged under its key, and an empty one
   * leaves its key out of the query.
   */
  lemma TextValuesUnchanged(obj: seq<Entry>, i: int)
    requires DistinctKeys(obj) && 0 <= i < |obj| && obj[i].1.Str?
    ensures obj[i].1.s != "" ==> (obj[i].0, obj[i].1.s) in UrlParams(obj)
    ensures obj[i].1.s == "" ==> forall e :: e in UrlParams(obj) ==> e.0 != obj[i].0
  {
    UrlParamsExactlyTruthy(obj);
    if obj[i].1.s == "" {
      forall e | e in UrlParams(obj)
        ensures e.0 != obj[i].0
      {
        var j :| 0 <= j < |obj| && Truthy(obj[j].1) && e == (obj[j].0, ToString(obj[j].1));
        assert j != i;
      }
    }
  }

  /** Each initial filter is the URL's non-empty value under its name, or its default. */
  lemma InitialFiltersFromUrl(query: Query)
    ensures |InitialFilters(query)| == |FILTER_KEYS|
    ensures forall i :: 0 <= i < |FILTER_KEYS| ==> InitialFilters(query)[i].0 == FILTER_KEYS[i]
    ensures forall i :: 0 <= i < 6 ==>
              InitialFilters(query)[i].1 == Str(UrlOr(query, FILTER_KEYS[i], ""))
    ensures InitialFilters(query)[6].1 == Str(UrlOr(query, "sort", "relevance"))
    ensures forall k, d :: Get(query, k).Some? && Get(query, k).value != "" ==> UrlOr(query, k, d) == Get(query, k).value
    ensures forall k, d :: (Get(query, k).None? || Get(query, k).value == "") ==> UrlOr(query, k, d) == d
  {
  }

  /**
   * The reset record is the record of a page opened with no query: every filter is empty except
   * `sort`, which is `relevance`; the query written on reset is empty.
   */
  lemma ClearIsFreshPage()
    ensures ClearFilters().0 == InitialFilters([])
    ensures forall i :: 0 <= i < 6 ==> ClearFilters().0[i].1 == Str("")
    ensures ClearFilters().0[6] == ("sort", Str("relevance"))
    ensures ClearFilters().1 == []
  {
  }
}
