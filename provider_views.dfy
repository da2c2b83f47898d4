/**
 * The provider app's views: the permission classes, the querysets of the list, detail, search
 * and booking views over a table of records, the profile-view counters, and the status of a
 * profile save. A queryset is a sequence of records in table order.
 */
module ProviderViews {
  import opened Wrappers
  import opened Text
  import opened Seqs
  import opened Accounts
  import opened ProviderModels

  // ---------------------------------------------------------------- permissions

  const SAFE_METHODS: set<string> := {"GET", "HEAD", "OPTIONS"}

  /** `IsProviderOrReadOnly.has_object_permission`; `owner` is the id of `obj.user`. */
  predicate ProviderOrReadOnly(verb: string, user: User, owner: int) {
    verb in SAFE_METHODS || (user.authenticated && owner == user.id)
  }

  /** Reads are open to everyone; a write needs the signed-in owner. */
  lemma ProviderOrReadOnlyCases(verb: string, user: User, owner: int)
    ensures verb in SAFE_METHODS ==> ProviderOrReadOnly(verb, user, owner)
    ensures verb !in SAFE_METHODS ==> (ProviderOrReadOnly(verb, user, owner) <==> user.authenticated && user.id == owner)
    ensures !user.authenticated ==> (ProviderOrReadOnly(verb, user, owner) <==> verb in SAFE_METHODS)
  {
  }

  /** `IsProviderOwner.has_permission`: a signed-in provider user. */
  predicate IsProviderUser(user: User) {
    user.authenticated && user.userType == "provider"
  }

  /**
   * What `hasattr` finds on an object: the owner's user id through `obj.provider` when it has
   * that attribute (a service, or a booking through its `provider` property), and through
   * `obj.service.provider` when it has a service but no `provider` (a pricing).
   */
  datatype Links = Links(providerOwner: Option<int>, serviceOwner: Option<int>)

  /** `IsProviderOwner.has_object_permission`. */
  predicate OwnerObjectPermission(user: User, obj: Links) {
    if obj.providerOwner.Some? then user.authenticated && obj.providerOwner.value == user.id
    else if obj.serviceOwner.Some? then user.authenticated && obj.serviceOwner.value == user.id
    else false
  }

  /**
   * The view-level check holds exactly for provider users; the object check looks at the
   * object's own provider first, then at its service's provider, and denies an object with
   * neither.
   */
  lemma ProviderOwnerCases(user: User, obj: Links)
    ensures !user.authenticated || user.userType != "provider" ==> !IsProviderUser(user)
    ensures obj.providerOwner.Some? ==>
              (OwnerObjectPermission(user, obj) <==> user.authenticated && user.id == obj.providerOwner.value)
    ensures obj.providerOwner.None? && obj.serviceOwner.Some? ==>
              (OwnerObjectPermission(user, obj) <==> user.authenticated && user.id == obj.serviceOwner.value)
    ensures obj.providerOwner.None? && obj.serviceOwner.None? ==> !OwnerObjectPermission(user, obj)
    ensures OwnerObjectPermission(user, obj) ==> user.authenticated
  {
  }

  // ---------------------------------------------------------------- list and detail

  /** `request.query_params`, one value per key. */
  type Params = map<string, string>

  /** `query_params.get(key, default)`. */
  function Param(params: Params, key: string, default: string): string {
    if key in params then params[key] else default
  }

  predicate IsApproved(p: Provider) {
    p.isApproved
  }

  /**
   * `ProviderListCreateView.get_queryset`: the approved providers. The `lat`/`lng` and
   * `min_rating` branches do nothing.
   */
  function ListCreateQueryset(table: seq<Provider>, params: Params): seq<Provider> {
    Filter(table, IsApproved)
  }

  /** The list holds exactly the approved providers, in table order, whatever the query says. */
  lemma ListCreateQuerysetSpec(table: seq<Provider>, params: Params, other: Params)
    ensures forall p :: p in ListCreateQueryset(table, params) <==> p in table && p.isApproved
    ensures Subsequence(ListCreateQueryset(table, params), table)
    ensures ListCreateQueryset(table, params) == ListCreateQueryset(table, other)
  {
  }

  /** Approved, or owned by user `owner`. */
  function ApprovedOrOwnedBy(owner: int): Provider -> bool {
    (p: Provider) => p.isApproved || p.user == owner
  }

  /** `ProviderDetailView.get_queryset`. */
  function DetailQueryset(table: seq<Provider>, user: User): seq<Provider> {
    if user.authenticated && user.userType == "provider" then Filter(table, ApprovedOrOwnedBy(user.id))
    else Filter(table, IsApproved)
  }

  /** Whether the detail view shows profile `p` to `user`, stated on its own. */
  predicate Visible(p: Provider, user: User) {
    p.isApproved || (IsProviderUser(user) && p.user == user.id)
  }

  /** Provider users see approved profiles and their own; everyone else sees approved ones only. */
  lemma DetailVisibility(table: seq<Provider>, user: User)
    ensures forall p :: p in DetailQueryset(table, user) <==> p in table && Visible(p, user)
    ensures !IsProviderUser(user) ==> DetailQueryset(table, user) == Filter(table, IsApproved)
    ensures Subsequence(DetailQueryset(table, user), table)
  {
  }

  /** The index of the first record with id `id` that the detail view shows `user`, from `from` on. */
  function FindVisible(ps: seq<Provider>, id: int, user: User, from: nat): (r: Option<nat>)
    requires from <= |ps|
    ensures r.Some? ==> from <= r.value < |ps|
    decreases |ps| - from
  {
    if from == |ps| then None
    else if ps[from].id == id && Visible(ps[from], user) then Some(from)
    else FindVisible(ps, id, user, from + 1)
  }

  /** `FindVisible` finds a visible record with the id, and the first one; `None` means there is none. */
  lemma {:induction false} FindVisibleSpec(ps: seq<Provider>, id: int, user: User, from: nat)
    requires from <= |ps|
    ensures var r := FindVisible(ps, id, user, from);
            (r.Some? ==> ps[r.value].id == id && Visible(ps[r.value], user)
                         && forall j :: from <= j < r.value ==> !(ps[j].id == id && Visible(ps[j], user)))
            && (r.None? <==> forall j :: from <= j < |ps| ==> !(ps[j].id == id && Visible(ps[j], user)))
    decreases |ps| - from
  {
    if from < |ps| {
      FindVisibleSpec(ps, id, user, from + 1);
    }
  }

  /** The profile views summed over a table. */
  function TotalViews(ps: seq<Provider>): int
    decreases |ps|
  {
    if ps == [] then 0 else ps[0].profileViews + TotalViews(ps[1..])
  }

  /** Raising one record's counter by one raises the sum by one. */
  lemma {:induction false} BumpRaisesTotal(ps: seq<Provider>, i: nat)
    requires i < |ps|
    ensures TotalViews(ps[i := ps[i].(profileViews := ps[i].profileViews + 1)]) == TotalViews(ps) + 1
    decreases |ps|
  {
    var bumped := ps[i := ps[i].(profileViews := ps[i].profileViews + 1)];
    if i == 0 {
      assert bumped[1..] == ps[1..];
    } else {
      assert bumped[1..] == ps[1..][i - 1 := ps[i].(profileViews := ps[i].profileViews + 1)];
      BumpRaisesTotal(ps[1..], i - 1);
    }
  }

  /** Appending a record adds its views to the sum. */
  lemma {:induction false} AppendRaisesTotal(ps: seq<Provider>, p: Provider)
    ensures TotalViews(ps + [p]) == TotalViews(ps) + p.profileViews
    decreases |ps|
  {
    if ps == [] {
      assert [p][1..] == [];
    } else {
      assert (ps + [p])[1..] == ps[1..] + [p];
      AppendRaisesTotal(ps[1..], p);
    }
  }

  /** Record ids are primary keys. */
  predicate DistinctIds(ps: seq<Provider>) {
    forall i, j :: 0 <= i < j < |ps| ==> ps[i].id != ps[j].id
  }

  /** `Provider.user` is a one-to-one field: no two profiles share a user. */
  predicate DistinctUsers(ps: seq<Provider>) {
    forall i, j :: 0 <= i < j < |ps| ==> ps[i].user != ps[j].user
  }

  /** With one profile per user, `ProfileOf` finds the only record of the user, wherever it sits. */
  lemma {:induction false} ProfileOfUnique(ps: seq<Provider>, k: int)
    requires DistinctUsers(ps) && 0 <= k < |ps|
    ensures ProfileOf(ps, ps[k].user) == Some(ps[k])
    decreases |ps|
  {
    if k > 0 {
      var t := ps[1..];
      assert ps[0].user != ps[k].user;
      assert forall i :: 0 <= i < |t| ==> t[i] == ps[i + 1];
      assert DistinctUsers(t);
      ProfileOfUnique(t, k - 1);
    }
  }

  /** The providers table, which the create and retrieve views write to. */
  class ProviderTable {
    var providers: seq<Provider>

    predicate Valid()
      reads this
    {
      DistinctIds(providers) && DistinctUsers(providers)
    }

    constructor ()
      ensures providers == [] && Valid()
    {
      providers := [];
    }

    /**
     * `ProviderListCreateView.perform_create`: the saved record, under a fresh primary key,
     * is stored with its view counter raised by one. The requirement that its user has no
     * profile yet stands for the database's one-to-one constraint on `user`: a second profile
     * for the same user fails in `save()` with a database error, which is not modelled.
     */
    method PerformCreate(saved: Provider)
      requires Valid()
      requires forall i :: 0 <= i < |providers| ==> providers[i].id != saved.id
      requires forall i :: 0 <= i < |providers| ==> providers[i].user != saved.user
      modifies this
      ensures Valid()
      ensures providers == old(providers) + [saved.(profileViews := saved.profileViews + 1)]
      ensures TotalViews(providers) == TotalViews(old(providers)) + saved.profileViews + 1
    {
      var provider := saved;
      provider := provider.(profileViews := provider.profileViews + 1);
      AppendRaisesTotal(providers, provider);
      providers := providers + [provider];
    }

    /**
     * `ProviderDetailView.retrieve`: the record with primary key `id` in the detail queryset,
     * its counter raised by one in the table and in the response, or `None` for the 404. The
     * object permission is always granted, as `GET` is a safe method.
     */
    method Retrieve(id: int, user: User) returns (shown: Option<Provider>)
      requires Valid()
      modifies this
      ensures Valid()
      ensures shown.None? <==> FindVisible(old(providers), id, user, 0).None?
      ensures shown.None? ==> providers == old(providers)
      ensures shown.Some? ==>
                var i := FindVisible(old(providers), id, user, 0).value;
                providers == old(providers)[i := old(providers)[i].(profileViews := old(providers)[i].profileViews + 1)]
                && shown == Some(providers[i])
                && TotalViews(providers) == TotalViews(old(providers)) + 1
    {
      var i := 0;
      while i < |providers|
        invariant 0 <= i <= |providers|
        invariant FindVisible(providers, id, user, 0) == FindVisible(providers, id, user, i)
      {
        if providers[i].id == id && Visible(providers[i], user) {
          var instance := providers[i];
          instance := instance.(profileViews := instance.profileViews + 1);
          BumpRaisesTotal(providers, i);
          providers := providers[i := instance];
          return Some(instance);
        }
        i := i + 1;
      }
      return None;
    }
  }

  // ---------------------------------------------------------------- search

  /** `name__icontains=q | description__icontains=q | address__icontains=q`; a null description never matches. */
  predicate MatchesText(p: Provider, q: string) {
    IContains(p.name, q) || (p.description.Some? && IContains(p.description.value, q)) || IContains(p.address, q)
  }

  function MatchingText(q: string): Provider -> bool {
    (p: Provider) => MatchesText(p, q)
  }

  function InCategory(category: string): Provider -> bool {
    (p: Provider) => p.category == category
  }

  /** `subcategory=...`; a null subcategory never matches. */
  function InSubcategory(subcategory: string): Provider -> bool {
    (p: Provider) => p.subcategory == Some(subcategory)
  }

  function AddressMatching(location: string): Provider -> bool {
    (p: Provider) => IContains(p.address, location)
  }

  /** The providers the chain admits after the `q` step. */
  function AfterQ(params: Params): Provider -> bool {
    (p: Provider) => p.isApproved && (Param(params, "q", "") == "" || MatchesText(p, Param(params, "q", "")))
  }

  /** After the category step. */
  function AfterCategory(params: Params): Provider -> bool {
    (p: Provider) => AfterQ(params)(p)
                     && (Param(params, "category", "") == "" || p.category == Param(params, "category", ""))
  }

  /** After the subcategory step. */
  function AfterSubcategory(params: Params): Provider -> bool {
    (p: Provider) => AfterCategory(params)(p)
                     && (Param(params, "subcategory", "") == "" || p.subcategory == Some(Param(params, "subcategory", "")))
  }

  /** After the location step: what the search admits without coordinates. */
  function AfterLocation(params: Params): Provider -> bool {
    (p: Provider) => AfterSubcategory(params)(p)
                     && (Param(params, "location", "") == "" || IContains(p.address, Param(params, "location", "")))
  }

  /** After the bounding-box step, which applies only when both `lat` and `lng` are given. */
  function AfterBox(params: Params, inBox: Provider -> bool): Provider -> bool {
    (p: Provider) => AfterLocation(params)(p)
                     && (Param(params, "lat", "") == "" || Param(params, "lng", "") == "" || inBox(p))
  }

  /** What the search admits, stated as one condition per parameter. */
  predicate Admitted(p: Provider, params: Params, inBox: Provider -> bool) {
    var q := Param(params, "q", "");
    var category := Param(params, "category", "");
    var subcategory := Param(params, "subcategory", "");
    var location := Param(params, "location", "");
    var lat := Param(params, "lat", "");
    var lng := Param(params, "lng", "");
    && p.isApproved
    && (q == "" || MatchesText(p, q))
    && (category == "" || p.category == category)
    && (subcategory == "" || p.subcategory == Some(subcategory))
    && (location == "" || IContains(p.address, location))
    && (lat == "" || lng == "" || inBox(p))
  }

  function Views(p: Provider): int {
    p.profileViews
  }

  function Created(p: Provider): int {
    p.createdAt
  }

  /** The sort step: `-profile_views` for `rating` and `popularity`, `-created_at` for `newest`. */
  function Ordered(s: seq<Provider>, sort: string): seq<Provider> {
    if sort == "rating" || sort == "popularity" then SortDesc(s, Views)
    else if sort == "newest" then SortDesc(s, Created)
    else s
  }

  /** The search result: the admitted providers in table order, then sorted. */
  function SearchResult(table: seq<Provider>, params: Params, inBox: Provider -> bool): seq<Provider> {
    Ordered(Filter(table, AfterBox(params, inBox)), Param(params, "sort", "relevance"))
  }

  /** One step of the chain: applying a filter, or skipping it when it would keep everything. */
  lemma Narrow(table: seq<Provider>, before: Provider -> bool, step: Provider -> bool, after: Provider -> bool, applied: bool)
    requires applied ==> forall p :: after(p) == (before(p) && step(p))
    requires !applied ==> forall p :: after(p) == before(p)
    ensures (if applied then Filter(Filter(table, before), step) else Filter(table, before)) == Filter(table, after)
  {
    if applied {
      FilterThen(table, before, step, after);
    } else {
      FilterExt(table, before, after);
    }
  }

  /**
   * `ProviderSearchView.get_queryset`. `inBox` decides the bounding box of `lat`, `lng` and
   * `radius`; `min_reviews` and `max_price` do nothing.
   */
  method SearchQueryset(table: seq<Provider>, params: Params, inBox: Provider -> bool) returns (queryset: seq<Provider>)
    ensures queryset == SearchResult(table, params, inBox)
  {
    queryset := Filter(table, IsApproved);
    var q := Param(params, "q", "");
    var category := Param(params, "category", "");
    var subcategory := Param(params, "subcategory", "");
    var location := Param(params, "location", "");
    var lat := Param(params, "lat", "");
    var lng := Param(params, "lng", "");
    var sort := Param(params, "sort", "relevance");

    Narrow(table, IsApproved, MatchingText(q), AfterQ(params), q != "");
    if q != "" {
      queryset := Filter(queryset, MatchingText(q));
    }
    assert queryset == Filter(table, AfterQ(params));
    Narrow(table, AfterQ(params), InCategory(category), AfterCategory(params), category != "");
    if category != "" {
      queryset := Filter(queryset, InCategory(category));
    }
    assert queryset == Filter(table, AfterCategory(params));
    Narrow(table, AfterCategory(params), InSubcategory(subcategory), AfterSubcategory(params), subcategory != "");
    if subcategory != "" {
      queryset := Filter(queryset, InSubcategory(subcategory));
    }
    assert queryset == Filter(table, AfterSubcategory(params));
    Narrow(table, AfterSubcategory(params), AddressMatching(location), AfterLocation(params), location != "");
    if location != "" {
      queryset := Filter(queryset, AddressMatching(location));
    }
    assert queryset == Filter(table, AfterLocation(params));
    Narrow(table, AfterLocation(params), inBox, AfterBox(params, inBox), lat != "" && lng != "");
    if lat != "" && lng != "" {
      queryset := Filter(queryset, inBox);
    }

    assert queryset == Filter(table, AfterBox(params, inBox));
    queryset := OrderQueryset(queryset, sort, lat != "" && lng != "");
  }

  /** The sort step of `ProviderSearchView.get_queryset`; `distance` and `reviews` keep the order. */
  method OrderQueryset(s: seq<Provider>, sort: string, located: bool) returns (queryset: seq<Provider>)
    ensures queryset == Ordered(s, sort)
  {
    queryset := s;
    if sort == "distance" && located {
    } else if sort == "rating" {
      queryset := SortDesc(queryset, Views);
    } else if sort == "popularity" {
      queryset := SortDesc(queryset, Views);
    } else if sort == "newest" {
      queryset := SortDesc(queryset, Created);
    }
  }

  /** The chained predicate is the per-parameter condition. */
  lemma AfterBoxIsAdmitted(params: Params, inBox: Provider -> bool, p: Provider)
    ensures AfterBox(params, inBox)(p) == Admitted(p, params, inBox)
  {
    assert AfterQ(params)(p) == (p.isApproved && (Param(params, "q", "") == "" || MatchesText(p, Param(params, "q", ""))));
    assert AfterCategory(params)(p) == (AfterQ(params)(p)
             && (Param(params, "category", "") == "" || p.category == Param(params, "category", "")));
    assert AfterSubcategory(params)(p) == (AfterCategory(params)(p)
             && (Param(params, "subcategory", "") == "" || p.subcategory == Some(Param(params, "subcategory", ""))));
    assert AfterLocation(params)(p) == (AfterSubcategory(params)(p)
             && (Param(params, "location", "") == "" || IContains(p.address, Param(params, "location", ""))));
  }

  /** The filters up to the location step read only `q`, `category`, `subcategory` and `location`. */
  lemma AfterLocationReads(params: Params, other: Params, p: Provider)
    requires Param(params, "q", "") == Param(other, "q", "")
    requires Param(params, "category", "") == Param(other, "category", "")
    requires Param(params, "subcategory", "") == Param(other, "subcategory", "")
    requires Param(params, "location", "") == Param(other, "location", "")
    ensures AfterLocation(params)(p) == AfterLocation(other)(p)
  {
    AfterBoxIsAdmitted(params, (x: Provider) => true, p);
    AfterBoxIsAdmitted(other, (x: Provider) => true, p);
  }

  /** Every ordering keeps exactly the elements it is given, each as often. */
  lemma OrderedIsPermutation(s: seq<Provider>, sort: string)
    ensures multiset(Ordered(s, sort)) == multiset(s)
    ensures forall p :: p in Ordered(s, sort) <==> p in s
  {
    assert multiset(Ordered(s, sort)) == multiset(s);
    forall p
      ensures p in Ordered(s, sort) <==> p in s
    {
      assert p in Ordered(s, sort) <==> p in multiset(Ordered(s, sort));
      assert p in s <==> p in multiset(s);
    }
  }

  /**
   * A provider is in the search result exactly when it is in the table and admitted: approved,
   * matching `q` in name, description or address, in the category and subcategory, with the
   * location in its address, and in the box when coordinates are given.
   */
  lemma SearchMembership(table: seq<Provider>, params: Params, inBox: Provider -> bool)
    ensures forall p :: p in SearchResult(table, params, inBox) <==> p in table && Admitted(p, params, inBox)
    ensures forall p :: p in SearchResult(table, params, inBox) ==> p.isApproved
  {
    var admitted := Filter(table, AfterBox(params, inBox));
    OrderedIsPermutation(admitted, Param(params, "sort", "relevance"));
    forall p
      ensures p in SearchResult(table, params, inBox) <==> p in table && Admitted(p, params, inBox)
    {
      AfterBoxIsAdmitted(params, inBox, p);
    }
  }

  /** Leaving out any parameter can only let more providers in: each filter only narrows. */
  lemma SearchNarrows(p: Provider, params: Params, inBox: Provider -> bool, key: string)
    ensures Admitted(p, params, inBox) ==> Admitted(p, params - {key}, inBox)
  {
    assert forall k :: k != key ==> Param(params - {key}, k, "") == Param(params, k, "");
    assert Param(params - {key}, key, "") == "";
  }

  /** With no parameters the search returns every approved provider, in table order. */
  lemma SearchWithoutParams(table: seq<Provider>, inBox: Provider -> bool)
    ensures SearchResult(table, map[], inBox) == Filter(table, IsApproved)
  {
    forall p
      ensures AfterBox(map[], inBox)(p) == IsApproved(p)
    {
      AfterBoxIsAdmitted(map[], inBox, p);
    }
    FilterExt(table, AfterBox(map[], inBox), IsApproved);
  }

  /**
   * `newest` orders by creation, latest first; `rating` and `popularity` by views, most first;
   * any other sort value keeps the filtered table order.
   */
  lemma SearchOrder(table: seq<Provider>, params: Params, inBox: Provider -> bool)
    ensures var sort := Param(params, "sort", "relevance");
            var r := SearchResult(table, params, inBox);
            (sort == "newest" ==> SortedDesc(r, Created))
            && (sort == "rating" || sort == "popularity" ==> SortedDesc(r, Views))
            && (sort !in {"newest", "rating", "popularity"} ==> Subsequence(r, table))
            && multiset(r) == multiset(Filter(table, AfterBox(params, inBox)))
  {
    OrderedIsPermutation(Filter(table, AfterBox(params, inBox)), Param(params, "sort", "relevance"));
  }

  /** A text query keeps exactly the providers matching it in name, description or address. */
  lemma TextQueryMatches(table: seq<Provider>, q: string, inBox: Provider -> bool)
    requires q != ""
    ensures forall p :: p in SearchResult(table, map["q" := q], inBox) <==> p in table && p.isApproved && MatchesText(p, q)
  {
    SearchMembership(table, map["q" := q], inBox);
  }

  // ---------------------------------------------------------------- bookings and profile saves

  /** `Provider.objects.get(user=...)`: the profile of a user, of which there is at most one. */
  function ProfileOf(providers: seq<Provider>, userId: int): (r: Option<Provider>)
    ensures r.Some? ==> r.value in providers && r.value.user == userId
    ensures r.None? ==> forall p :: p in providers ==> p.user != userId
    decreases |providers|
  {
    if providers == [] then None
    else if providers[0].user == userId then Some(providers[0])
    else ProfileOf(providers[1..], userId)
  }

  function OnProvider(providerId: int): Booking -> bool {
    (b: Booking) => b.provider == providerId
  }

  function BookedBy(userId: int): Booking -> bool {
    (b: Booking) => b.user == userId
  }

  /**
   * `BookingListCreateView.get_queryset`, and `BookingDetailView.get_queryset`, which is the same.
   * `bookings` is `Booking.objects.all()` in the model's default order, newest first
   * (`ordering = ['-created_at']`), and each filter keeps that order.
   */
  function BookingQueryset(bookings: seq<Booking>, providers: seq<Provider>, user: User): seq<Booking> {
    if user.userType == "provider" then
      match ProfileOf(providers, user.id)
      case None => []
      case Some(profile) => Filter(bookings, OnProvider(profile.id))
    else Filter(bookings, BookedBy(user.id))
  }

  /**
   * A provider user sees the bookings of their own profile's services, and none without a
   * profile; any other user sees exactly the bookings they made.
   */
  lemma BookingVisibility(bookings: seq<Booking>, providers: seq<Provider>, user: User)
    ensures user.userType != "provider" ==>
              forall b :: b in BookingQueryset(bookings, providers, user) <==> b in bookings && b.user == user.id
    ensures user.userType == "provider" && ProfileOf(providers, user.id).None? ==>
              BookingQueryset(bookings, providers, user) == []
    ensures user.userType == "provider" && ProfileOf(providers, user.id).Some? ==>
              var profile := ProfileOf(providers, user.id).value;
              profile.user == user.id
              && forall b :: b in BookingQueryset(bookings, providers, user) <==> b in bookings && b.provider == profile.id
    ensures Subsequence(BookingQueryset(bookings, providers, user), bookings)
  {
    if user.userType == "provider" && ProfileOf(providers, user.id).None? {
      assert Subsequence<Booking>([], bookings);
    }
  }

  /** The status `MyProviderView.post` answers with. */
  function ProfileSaveStatus(created: bool, valid: bool): int {
    if !valid then 400 else if created then 201 else 200
  }

  /** Invalid data is a 400; a valid save is 201 for a new profile and 200 for an existing one. */
  lemma ProfileSaveStatusTable(created: bool, valid: bool)
    ensures ProfileSaveStatus(created, valid) == 400 <==> !valid
    ensures ProfileSaveStatus(created, valid) == 201 <==> valid && created
    ensures ProfileSaveStatus(created, valid) == 200 <==> valid && !created
  {
  }
}
