/**
 * The categories page: providers grouped into five fixed buckets by their lower-cased category,
 * the tab list with its counts, the providers shown for the selected tab, and the card gradient.
 */
module CategoriesPage {
  import opened Wrappers
  import opened Text
  import opened Js
  import opened Seqs

  /** The keys of the grouping object, each an (always truthy) array. */
  const BUCKETS: set<string> := {"education", "sports", "music", "arts", "other"}

  /**
   * `provider.category?.toLowerCase() || 'other'`. `None` is the TypeError of reading a
   * property of a null or undefined provider, or of calling `toLowerCase` on a category that
   * is not a string.
   */
  function CategoryKey(p: Value): (r: Option<string>)
    ensures r.Some? ==> r.value != ""
  {
    match Member(p, "category")
    case None => None
    case Some(Undefined) => Some("other")
    case Some(Null) => Some("other")
    case Some(Str(s)) => if s == "" then Some("other") else Some(LowerStr(s))
    case Some(_) => None
  }

  /** The bucket a provider is pushed onto: its key when the grouping has one, else `other`. */
  function BucketOf(p: Value): string {
    match CategoryKey(p)
    case None => ""
    case Some(c) => if c in BUCKETS then c else "other"
  }

  function InBucket(key: string): Value -> bool {
    (p: Value) => BucketOf(p) == key
  }

  /** The providers that belong in bucket `key`, in list order. */
  function Bucket(providers: seq<Value>, key: string): seq<Value> {
    Filter(providers, InBucket(key))
  }

  /** No provider makes the grouping throw. */
  predicate Groupable(providers: seq<Value>) {
    forall i :: 0 <= i < |providers| ==> CategoryKey(providers[i]).Some?
  }

  /** One more provider extends exactly its own bucket, at the end. */
  lemma BucketStep(providers: seq<Value>, i: int)
    requires 0 <= i < |providers|
    ensures forall k :: Bucket(providers[..i + 1], k)
                        == Bucket(providers[..i], k) + (if BucketOf(providers[i]) == k then [providers[i]] else [])
  {
    assert providers[..i + 1] == providers[..i] + [providers[i]];
    forall k
      ensures Bucket(providers[..i + 1], k)
              == Bucket(providers[..i], k) + (if BucketOf(providers[i]) == k then [providers[i]] else [])
    {
      FilterConcat(providers[..i], [providers[i]], InBucket(k));
      assert Filter([providers[i]], InBucket(k)) == (if BucketOf(providers[i]) == k then [providers[i]] else []);
    }
  }

  /** `g` holds the five buckets of `providers`. */
  predicate GroupedAs(g: map<string, seq<Value>>, providers: seq<Value>) {
    g.Keys == BUCKETS && forall k :: k in BUCKETS ==> g[k] == Bucket(providers, k)
  }

  /** Pushing provider `i` onto its bucket keeps the grouping equal to the buckets of the prefix. */
  lemma GroupStep(providers: seq<Value>, i: int, g: map<string, seq<Value>>)
    requires 0 <= i < |providers| && CategoryKey(providers[i]).Some?
    requires GroupedAs(g, providers[..i])
    ensures BucketOf(providers[i]) in g
    ensures GroupedAs(g[BucketOf(providers[i]) := g[BucketOf(providers[i])] + [providers[i]]], providers[..i + 1])
  {
    var key := BucketOf(providers[i]);
    BucketIsKnown(providers[i]);
    var g2 := g[key := g[key] + [providers[i]]];
    assert g2.Keys == g.Keys;
    BucketStep(providers, i);
    forall k | k in BUCKETS
      ensures g2[k] == Bucket(providers[..i + 1], k)
    {
      assert Bucket(providers[..i + 1], k)
             == Bucket(providers[..i], k) + (if key == k then [providers[i]] else []);
    }
  }

  /** The prefix of a list that does not throw at its next element does not throw either. */
  lemma GroupableStep(providers: seq<Value>, i: int)
    requires 0 <= i < |providers| && CategoryKey(providers[i]).Some?
    requires Groupable(providers[..i])
    ensures Groupable(providers[..i + 1])
  {
    assert forall j :: 0 <= j < i ==> providers[..i + 1][j] == providers[..i][j];
  }

  /** `groupProvidersByCategory`: `None` when the loop throws part way. */
  method GroupProvidersByCategory(providers: seq<Value>) returns (grouped: Option<map<string, seq<Value>>>)
    ensures grouped.None? <==> !Groupable(providers)
    ensures grouped.Some? ==> GroupedAs(grouped.value, providers)
  {
    var g: map<string, seq<Value>> := map["education" := [], "sports" := [], "music" := [], "arts" := [], "other" := []];
    var i := 0;
    while i < |providers|
      invariant 0 <= i <= |providers|
      invariant GroupedAs(g, providers[..i])
      invariant Groupable(providers[..i])
    {
      var provider := providers[i];
      var category := CategoryKey(provider);
      if category.None? {
        return None;
      }
      var key := if category.value in g then category.value else "other";
      assert key == BucketOf(provider);
      GroupStep(providers, i, g);
      GroupableStep(providers, i);
      g := g[key := g[key] + [provider]];
      i := i + 1;
    }
    assert providers[..i] == providers;
    return Some(g);
  }

  /** Each provider is in its own bucket and in no other, and each bucket keeps the list order. */
  lemma EachProviderInOneBucket(providers: seq<Value>, k: string)
    ensures forall p :: p in Bucket(providers, k) <==> p in providers && BucketOf(p) == k
    ensures Subsequence(Bucket(providers, k), providers)
  {
  }

  /** Every groupable provider lands in one of the five buckets. */
  lemma BucketIsKnown(p: Value)
    requires CategoryKey(p).Some?
    ensures BucketOf(p) in BUCKETS
  {
  }

  /**
   * Matching is on the lower-cased category; a missing, null or empty category and any category
   * outside the four named ones go to `other`.
   */
  lemma BucketChoice(p: Value, s: string)
    ensures Member(p, "category") == Some(Undefined) ==> BucketOf(p) == "other"
    ensures Member(p, "category") == Some(Null) ==> BucketOf(p) == "other"
    ensures Member(p, "category") == Some(Str("")) ==> BucketOf(p) == "other"
    ensures Member(p, "category") == Some(Str(s)) && s != "" && LowerStr(s) in BUCKETS ==> BucketOf(p) == LowerStr(s)
    ensures Member(p, "category") == Some(Str(s)) && s != "" && LowerStr(s) !in BUCKETS ==> BucketOf(p) == "other"
  {
  }

  /** The five bucket lengths add up to the number of providers. */
  lemma {:induction false} BucketsCoverAll(providers: seq<Value>)
    requires Groupable(providers)
    ensures |Bucket(providers, "education")| + |Bucket(providers, "sports")| + |Bucket(providers, "music")|
            + |Bucket(providers, "arts")| + |Bucket(providers, "other")| == |providers|
    decreases |providers|
  {
    if providers != [] {
      var rest := providers[1..];
      assert Groupable(rest) by {
        forall i | 0 <= i < |rest|
          ensures CategoryKey(rest[i]).Some?
        {
          assert rest[i] == providers[i + 1];
        }
      }
      BucketsCoverAll(rest);
      BucketIsKnown(providers[0]);
    }
  }

  /** A tab of the category list and the number shown on it. */
  datatype Tab = Tab(key: string, count: int)

  /** The category list: `all` and the four named buckets; there is no tab for `other`. */
  function Tabs(providers: seq<Value>, grouped: map<string, seq<Value>>): seq<Tab>
    requires grouped.Keys == BUCKETS
  {
    [Tab("all", |providers|),
     Tab("education", |grouped["education"]|),
     Tab("sports", |grouped["sports"]|),
     Tab("music", |grouped["music"]|),
     Tab("arts", |grouped["arts"]|)]
  }

  /**
   * The `all` tab counts every provider, each named tab counts its bucket, and the named tabs
   * together miss exactly the providers in `other`.
   */
  lemma TabCounts(providers: seq<Value>, grouped: map<string, seq<Value>>)
    requires Groupable(providers) && GroupedAs(grouped, providers)
    ensures var tabs := Tabs(providers, grouped);
            tabs[0] == Tab("all", |providers|)
            && (forall i :: 1 <= i < |tabs| ==> tabs[i].count == |Bucket(providers, tabs[i].key)|)
            && tabs[1].count + tabs[2].count + tabs[3].count + tabs[4].count
               == |providers| - |Bucket(providers, "other")|
  {
    BucketsCoverAll(providers);
  }

  /** `getFilteredProviders`: everything for `all`, a bucket for its key, nothing otherwise. */
  function FilteredProviders(providers: seq<Value>, grouped: map<string, seq<Value>>, selected: string): seq<Value> {
    if selected == "all" then providers
    else if selected in grouped then grouped[selected]
    else []
  }

  /** The shown list for each kind of selection, with the grouping the page computes. */
  lemma FilteredProvidersCases(providers: seq<Value>, grouped: map<string, seq<Value>>, selected: string)
    requires GroupedAs(grouped, providers)
    ensures selected == "all" ==> FilteredProviders(providers, grouped, selected) == providers
    ensures selected in BUCKETS ==> FilteredProviders(providers, grouped, selected) == Bucket(providers, selected)
    ensures selected != "all" && selected !in BUCKETS ==> FilteredProviders(providers, grouped, selected) == []
    ensures Subsequence(FilteredProviders(providers, grouped, selected), providers)
  {
    AllIsNoBucket();
    if selected == "all" {
      SubsequenceSelf(providers);
    } else if selected in BUCKETS {
      assert FilteredProviders(providers, grouped, selected) == grouped[selected] == Bucket(providers, selected);
    } else {
      assert selected !in grouped;
      assert Subsequence<Value>([], providers);
    }
  }

  /** `all` names no bucket. */
  lemma AllIsNoBucket()
    ensures "all" !in BUCKETS
  {
  }

  const OTHER_GRADIENT := "linear-gradient(135deg, #a8edea 0%, #fed6e3 100%)"

  /** `getCategoryGradient`: the card background of a category key. */
  function CategoryGradient(category: string): string {
    match category
    case "education" => "linear-gradient(135deg, #667eea 0%, #764ba2 100%)"
    case "sports" => "linear-gradient(135deg, #f093fb 0%, #f5576c 100%)"
    case "music" => "linear-gradient(135deg, #4facfe 0%, #00f2fe 100%)"
    case "arts" => "linear-gradient(135deg, #fa709a 0%, #fee140 100%)"
    case _ => OTHER_GRADIENT
  }

  /** The four named categories have gradients of their own; every other key gets `other`'s. */
  lemma GradientFallback(category: string)
    ensures category !in {"education", "sports", "music", "arts"} <==> CategoryGradient(category) == OTHER_GRADIENT
  {
  }
}
