/**
 * The search slice of the frontend store: the current search filters, the last page of results
 * and the request lifecycle of `searchProviders`.
 */
module SearchSlice {
  import opened Js
  import ProvidersSlice

  type Pagination = ProvidersSlice.Pagination
  type Page = ProvidersSlice.Page

  /** The filter record as `clearFilters` writes it and as the store starts with. */
  const INITIAL_FILTERS: map<string, Value> := map[
    "category" := Str(""),
    "subcategory" := Str(""),
    "location" := Str(""),
    "radius" := Num(10),
    "minRating" := Num(0),
    "maxPrice" := Str(""),
    "sort" := Str("relevance")]

  datatype SearchRecord = SearchRecord(
    results: seq<Value>,
    loading: bool,
    error: Value,
    filters: map<string, Value>,
    pagination: Pagination)

  const INITIAL := SearchRecord([], false, Null, INITIAL_FILTERS, ProvidersSlice.Pagination(Num(0), Null, Null))

  datatype Action =
    | SetFilters(changes: map<string, Value>)
    | ClearFilters
    | ClearError
    | SearchPending
    | SearchFulfilled(page: Page)
    | SearchRejected(reason: Value)

  /** The slice's reducers; `{...a, ...b}` is the map union in which `b` wins. */
  function Next(s: SearchRecord, a: Action): SearchRecord {
    match a
    case SetFilters(p) => s.(filters := s.filters + p)
    case ClearFilters => s.(filters := INITIAL_FILTERS)
    case ClearError => s.(error := Null)
    case SearchPending => s.(loading := true, error := Null)
    case SearchFulfilled(page) =>
      s.(loading := false, results := page.results,
         pagination := ProvidersSlice.Pagination(page.count, page.next, page.previous))
    case SearchRejected(p) => s.(loading := false, error := p)
  }

  /** The slice as the store holds it; every reducer assigns fields of the state. */
  class SearchStore {
    var results: seq<Value>
    var loading: bool
    var error: Value
    var filters: map<string, Value>
    var pagination: Pagination

    function Record(): SearchRecord
      reads this
    {
      SearchRecord(results, loading, error, filters, pagination)
    }

    constructor ()
      ensures Record() == INITIAL
    {
      results := [];
      loading := false;
      error := Null;
      filters := INITIAL_FILTERS;
      pagination := ProvidersSlice.Pagination(Num(0), Null, Null);
    }

    method Dispatch(a: Action)
      modifies this
      ensures Record() == Next(old(Record()), a)
    {
      match a {
        case SetFilters(p) =>
          filters := filters + p;
        case ClearFilters =>
          filters := INITIAL_FILTERS;
        case ClearError =>
          error := Null;
        case SearchPending =>
          loading := true;
          error := Null;
        case SearchFulfilled(page) =>
          loading := false;
          results := page.results;
          pagination := ProvidersSlice.Pagination(page.count, page.next, page.previous);
        case SearchRejected(p) =>
          loading := false;
          error := p;
      }
    }
  }

  /**
   * `setFilters` is a shallow merge: every key of the payload takes the payload's value, every
   * other filter keeps its own, no other key appears, and nothing but the filters changes.
   */
  lemma SetFiltersMerges(s: SearchRecord, p: map<string, Value>)
    ensures var r := Next(s, SetFilters(p));
            r.filters.Keys == s.filters.Keys + p.Keys
            && (forall k :: k in p ==> r.filters[k] == p[k])
            && (forall k :: k in s.filters && k !in p ==> r.filters[k] == s.filters[k])
            && r.(filters := s.filters) == s
  {
  }

  /** Merging an empty payload changes nothing; merging the same payload twice is merging it once. */
  lemma SetFiltersIdempotent(s: SearchRecord, p: map<string, Value>)
    ensures Next(s, SetFilters(map[])) == s
    ensures Next(Next(s, SetFilters(p)), SetFilters(p)) == Next(s, SetFilters(p))
  {
    assert s.filters + map[] == s.filters;
    assert s.filters + p + p == s.filters + p;
  }

  /** `clearFilters` restores the initial filters whatever came before, and is idempotent. */
  lemma ClearFiltersRestores(s: SearchRecord, t: SearchRecord, p: map<string, Value>)
    ensures Next(s, ClearFilters).filters == INITIAL.filters
    ensures Next(s, ClearFilters).filters == Next(t, ClearFilters).filters
    ensures Next(Next(s, SetFilters(p)), ClearFilters) == Next(s, ClearFilters)
    ensures Next(Next(s, ClearFilters), ClearFilters) == Next(s, ClearFilters)
    ensures Next(s, ClearFilters).(filters := s.filters) == s
  {
  }

  /** The initial filters hold these seven entries and no others. */
  lemma InitialFilterValues()
    ensures |INITIAL_FILTERS| == 7
    ensures INITIAL_FILTERS["radius"] == Num(10) && INITIAL_FILTERS["minRating"] == Num(0)
    ensures INITIAL_FILTERS["sort"] == Str("relevance")
    ensures INITIAL_FILTERS["category"] == INITIAL_FILTERS["subcategory"] == Str("")
    ensures INITIAL_FILTERS["location"] == INITIAL_FILTERS["maxPrice"] == Str("")
  {
    assert INITIAL_FILTERS.Keys == {"category", "subcategory", "location", "radius", "minRating", "maxPrice", "sort"};
  }

  /** `clearError` sets the error to null and changes nothing else. */
  lemma ClearErrorOnlyError(s: SearchRecord)
    ensures var r := Next(s, ClearError);
            r.error == Null && r.(error := s.error) == s
  {
  }

  /** A fulfilled search takes the results and the whole pagination triple of the page. */
  lemma FulfilledTakesPage(s: SearchRecord, page: Page)
    ensures var r := Next(s, SearchFulfilled(page));
            !r.loading && r.results == page.results
            && r.pagination == ProvidersSlice.Pagination(page.count, page.next, page.previous)
            && r.error == s.error && r.filters == s.filters
  {
  }

  /** Pending starts loading with no error; rejected stops loading with the payload as error. */
  lemma LifecycleFlags(s: SearchRecord, p: Value)
    ensures Next(s, SearchPending) == s.(loading := true, error := Null)
    ensures Next(s, SearchRejected(p)) == s.(loading := false, error := p)
    ensures Next(s, SearchRejected(p)).results == s.results
  {
  }
}
