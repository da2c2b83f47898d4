/**
 * The project-level provider list view, whose filter chain is the provider search without the
 * bounding box: the same text, category, subcategory and location filters and the same sorts.
 */
module EduactivityViews {
  import opened Seqs
  import opened ProviderModels
  import opened ProviderViews

  /** The list result: the providers admitted up to the location filter, then sorted. */
  function ListResult(table: seq<Provider>, params: Params): seq<Provider> {
    Ordered(Filter(table, AfterLocation(params)), Param(params, "sort", "relevance"))
  }

  /** `ProviderListView.get_queryset`; `min_rating` and `max_price` are read and change nothing. */
  method ProviderListQueryset(table: seq<Provider>, params: Params) returns (queryset: seq<Provider>)
    ensures queryset == ListResult(table, params)
  {
    queryset := Filter(table, IsApproved);
    var q := Param(params, "q", "");
    var category := Param(params, "category", "");
    var subcategory := Param(params, "subcategory", "");
    var location := Param(params, "location", "");
    var sort := Param(params, "sort", "relevance");

    Narrow(table, IsApproved, MatchingText(q), AfterQ(params), q != "");
    if q != "" {
      queryset := Filter(queryset, MatchingText(q));
    }
    assert queryset == Filter(table, AfterQ(params));
    Narrow(table, AfterQ(params), InCategory(category), AfterCategory(params), category != "");
    if category != "" {
      queryset := Filter(queryset, InCategory(category));
    }
    assert queryset == Filter(table, AfterCategory(params));
    Narrow(table, AfterCategory(params), InSubcategory(subcategory), AfterSubcategory(params), subcategory != "");
    if subcategory != "" {
      queryset := Filter(queryset, InSubcategory(subcategory));
    }
    assert queryset == Filter(table, AfterSubcategory(params));
    Narrow(table, AfterSubcategory(params), AddressMatching(location), AfterLocation(params), location != "");
    if location != "" {
      queryset := Filter(queryset, AddressMatching(location));
    }
    assert queryset == Filter(table, AfterLocation(params));
    queryset := SortQueryset(queryset, sort);
  }

  /** The sort step of `ProviderListView.get_queryset`. */
  method SortQueryset(s: seq<Provider>, sort: string) returns (queryset: seq<Provider>)
    ensures queryset == Ordered(s, sort)
  {
    queryset := s;
    if sort == "rating" {
      queryset := SortDesc(queryset, Views);
    } else if sort == "popularity" {
      queryset := SortDesc(queryset, Views);
    } else if sort == "newest" {
      queryset := SortDesc(queryset, Created);
    }
  }

  /** Without both coordinates the bounding-box step keeps everything. */
  lemma AfterBoxWithoutCoordinates(params: Params, inBox: Provider -> bool, p: Provider)
    requires Param(params, "lat", "") == "" || Param(params, "lng", "") == ""
    ensures AfterBox(params, inBox)(p) == AfterLocation(params)(p)
  {
  }

  /** The two views agree on every request that does not give both `lat` and `lng`. */
  lemma AgreesWithSearch(table: seq<Provider>, params: Params, inBox: Provider -> bool)
    requires Param(params, "lat", "") == "" || Param(params, "lng", "") == ""
    ensures ListResult(table, params) == SearchResult(table, params, inBox)
  {
    forall p
      ensures AfterBox(params, inBox)(p) == AfterLocation(params)(p)
    {
      AfterBoxWithoutCoordinates(params, inBox, p);
    }
    FilterExt(table, AfterBox(params, inBox), AfterLocation(params));
  }

  /** The list is the search of the same request with its `lat` left out. */
  lemma ListIsSearchWithoutLat(table: seq<Provider>, params: Params, inBox: Provider -> bool)
    ensures ListResult(table, params) == SearchResult(table, params - {"lat"}, inBox)
  {
    var located := params - {"lat"};
    assert Param(located, "lat", "") == "";
    assert forall k :: k != "lat" ==> Param(located, k, "") == Param(params, k, "");
    assert Param(located, "sort", "relevance") == Param(params, "sort", "relevance");
    forall p
      ensures AfterLocation(located)(p) == AfterLocation(params)(p)
    {
      AfterLocationReads(located, params, p);
    }
    FilterExt(table, AfterLocation(located), AfterLocation(params));
    AgreesWithSearch(table, located, inBox);
  }

  /**
   * The list admits exactly the approved providers matching every given text, category,
   * subcategory and location filter.
   */
  lemma ListMembership(table: seq<Provider>, params: Params, inBox: Provider -> bool)
    ensures forall p :: p in ListResult(table, params) <==> p in table && Admitted(p, params - {"lat"}, inBox)
    ensures forall p :: p in ListResult(table, params) ==> p.isApproved
  {
    ListIsSearchWithoutLat(table, params, inBox);
    SearchMembership(table, params - {"lat"}, inBox);
  }

  /**
   * `newest` orders by creation, latest first; `rating` and `popularity` by views, most first;
   * any other sort value keeps the table order.
   */
  lemma ListOrder(table: seq<Provider>, params: Params)
    ensures var sort := Param(params, "sort", "relevance");
            var r := ListResult(table, params);
            (sort == "newest" ==> SortedDesc(r, Created))
            && (sort == "rating" || sort == "popularity" ==> SortedDesc(r, Views))
            && (sort !in {"newest", "rating", "popularity"} ==> Subsequence(r, table))
  {
    var inBox := (p: Provider) => true;
    ListIsSearchWithoutLat(table, params, inBox);
    assert Param(params - {"lat"}, "sort", "relevance") == Param(params, "sort", "relevance");
    SearchOrder(table, params - {"lat"}, inBox);
  }

  /** `min_rating`, whatever its value and whether or not it parses, never changes the result. */
  lemma MinRatingIgnored(table: seq<Provider>, params: Params, rating: string)
    ensures ListResult(table, params["min_rating" := rating]) == ListResult(table, params - {"min_rating"})
  {
    var rated := params["min_rating" := rating];
    var unrated := params - {"min_rating"};
    assert forall k :: k != "min_rating" ==> Param(rated, k, "") == Param(unrated, k, "");
    assert Param(rated, "sort", "relevance") == Param(unrated, "sort", "relevance");
    forall p
      ensures AfterLocation(rated)(p) == AfterLocation(unrated)(p)
    {
      AfterLocationReads(rated, unrated, p);
    }
    FilterExt(table, AfterLocation(rated), AfterLocation(unrated));
  }

  /** With no parameters the list is every approved provider, in table order. */
  lemma ListWithoutParams(table: seq<Provider>)
    ensures ListResult(table, map[]) == Filter(table, IsApproved)
  {
    var inBox := (p: Provider) => true;
    AgreesWithSearch(table, map[], inBox);
    SearchWithoutParams(table, inBox);
  }
}
