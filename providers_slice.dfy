/**
 * The `providers` slice: how `fetchProviders` turns the frontend's filter object into the query
 * parameters of `/api/search/`, and the reducers over the provider list, the current provider,
 * the pagination triple, `loading` and `error`.
 */
module ProvidersSlice {
  import opened Wrappers
  import opened Js
  import opened Seqs

  /** One property of a JavaScript object, in insertion order. */
  type Entry = (string, Value)

  /** `o.k` on a plain object: `undefined` when the key is absent. */
  function Prop(o: map<string, Value>, k: string): Value {
    if k in o then o[k] else Undefined
  }

  /** The backend parameter names, in the order `fetchProviders` lists them. */
  const BACKEND_KEYS: seq<string> := ["q", "category", "subcategory", "location", "min_rating", "max_price", "sort"]

  /** The `backendParams` object literal built from the thunk's `params`. */
  function BackendParams(params: map<string, Value>): seq<Entry> {
    [("q", Prop(params, "q")),
     ("category", Prop(params, "category")),
     ("subcategory", Prop(params, "subcategory")),
     ("location", Prop(params, "location")),
     ("min_rating", Prop(params, "min_rating")),
     ("max_price", Prop(params, "maxPrice")),
     ("sort", Prop(params, "sort"))]
  }

  function KeysOf(obj: seq<Entry>): (r: seq<string>)
    ensures |r| == |obj| && forall i :: 0 <= i < |obj| ==> r[i] == obj[i].0
  {
    seq(|obj|, i requires 0 <= i < |obj| => obj[i].0)
  }

  /** No two properties share a key, as in every JavaScript object. */
  predicate DistinctKeys(obj: seq<Entry>) {
    forall i, j :: 0 <= i < j < |obj| ==> obj[i].0 != obj[j].0
  }

  predicate KeyAbsent(obj: seq<Entry>, k: string) {
    forall e :: e in obj ==> e.0 != k
  }

  /** `obj[k]`: the value under `k`, `undefined` when there is none. */
  function Lookup(obj: seq<Entry>, k: string): Value
    decreases |obj|
  {
    if obj == [] then Undefined
    else if obj[0].0 == k then obj[0].1
    else Lookup(obj[1..], k)
  }

  /** `delete obj[k]`. */
  function RemoveKey(obj: seq<Entry>, k: string): seq<Entry>
    decreases |obj|
  {
    if obj == [] then []
    else if obj[0].0 == k then RemoveKey(obj[1..], k)
    else [obj[0]] + RemoveKey(obj[1..], k)
  }

  /** The values the cleanup deletes: `''`, `undefined` and `null`. */
  predicate IsEmpty(v: Value) {
    v == Str("") || v == Undefined || v == Null
  }

  predicate Kept(e: Entry) {
    !IsEmpty(e.1)
  }

  /** The properties the cleanup keeps, in order. */
  function Cleaned(obj: seq<Entry>): seq<Entry>
    decreases |obj|
  {
    if obj == [] then []
    else (if Kept(obj[0]) then [obj[0]] else []) + Cleaned(obj[1..])
  }

  lemma {:induction false} CleanedConcat(a: seq<Entry>, b: seq<Entry>)
    ensures Cleaned(a + b) == Cleaned(a) + Cleaned(b)
    decreases |a|
  {
    if a == [] {
      assert a + b == b;
    } else {
      var head := if Kept(a[0]) then [a[0]] else [];
      assert (a + b)[0] == a[0];
      assert (a + b)[1..] == a[1..] + b;
      assert Cleaned(a + b) == head + Cleaned(a[1..] + b);
      CleanedConcat(a[1..], b);
      assert head + (Cleaned(a[1..]) + Cleaned(b)) == (head + Cleaned(a[1..])) + Cleaned(b);
    }
  }

  /** The cleanup keeps exactly the properties whose value is not empty. */
  lemma {:induction false} CleanedMembers(obj: seq<Entry>)
    ensures forall e :: e in Cleaned(obj) <==> e in obj && Kept(e)
    decreases |obj|
  {
    if obj != [] {
      CleanedMembers(obj[1..]);
      assert forall e :: e in obj <==> e == obj[0] || e in obj[1..];
    }
  }

  /** The cleanup preserves the order of what it keeps. */
  lemma {:induction false} CleanedIsSubsequence(obj: seq<Entry>)
    ensures Subsequence(Cleaned(obj), obj)
    decreases |obj|
  {
    if obj != [] {
      CleanedIsSubsequence(obj[1..]);
      if Kept(obj[0]) {
        assert Cleaned(obj)[0] == obj[0] && Cleaned(obj)[1..] == Cleaned(obj[1..]);
      } else {
        assert Cleaned(obj) == Cleaned(obj[1..]);
      }
    }
  }

  lemma {:induction false} LookupSkipsAbsent(a: seq<Entry>, b: seq<Entry>, k: string)
    requires KeyAbsent(a, k)
    ensures Lookup(a + b, k) == Lookup(b, k)
    decreases |a|
  {
    if a == [] {
      assert a + b == b;
    } else {
      assert a[0] in a;
      assert (a + b)[1..] == a[1..] + b;
      LookupSkipsAbsent(a[1..], b, k);
    }
  }

  lemma {:induction false} RemoveAbsentKey(a: seq<Entry>, k: string)
    requires KeyAbsent(a, k)
    ensures RemoveKey(a, k) == a
    decreases |a|
  {
    if a != [] {
      assert a[0] in a;
      RemoveAbsentKey(a[1..], k);
    }
  }

  lemma {:induction false} RemoveKeyConcat(a: seq<Entry>, b: seq<Entry>, k: string)
    ensures RemoveKey(a + b, k) == RemoveKey(a, k) + RemoveKey(b, k)
    decreases |a|
  {
    if a == [] {
      assert a + b == b;
    } else {
      assert (a + b)[0] == a[0];
      assert (a + b)[1..] == a[1..] + b;
      RemoveKeyConcat(a[1..], b, k);
    }
  }

  /** Nothing already processed, and nothing after position `i`, has the key at position `i`. */
  lemma KeyOnlyAt(params: seq<Entry>, i: int)
    requires DistinctKeys(params) && 0 <= i < |params|
    ensures KeyAbsent(Cleaned(params[..i]), params[i].0)
    ensures KeyAbsent(params[i + 1..], params[i].0)
  {
    var key := params[i].0;
    CleanedMembers(params[..i]);
    forall e | e in Cleaned(params[..i])
      ensures e.0 != key
    {
      var j :| 0 <= j < i && params[..i][j] == e;
    }
    forall e | e in params[i + 1..]
      ensures e.0 != key
    {
      var j :| 0 <= j < |params[i + 1..]| && params[i + 1..][j] == e;
      assert params[i + 1 + j] == e;
    }
  }

  /** One turn of the cleanup loop keeps `obj` equal to the cleaned prefix followed by the rest. */
  lemma CleanStep(params: seq<Entry>, i: int, obj: seq<Entry>)
    requires DistinctKeys(params) && 0 <= i < |params|
    requires obj == Cleaned(params[..i]) + params[i..]
    ensures var key := params[i].0;
            (if IsEmpty(Lookup(obj, key)) then RemoveKey(obj, key) else obj) == Cleaned(params[..i + 1]) + params[i + 1..]
  {
    var key := params[i].0;
    var done := Cleaned(params[..i]);
    var rest := params[i + 1..];
    KeyOnlyAt(params, i);
    assert params[i..] == [params[i]] + rest;
    LookupSkipsAbsent(done, [params[i]] + rest, key);
    assert ([params[i]] + rest)[0] == params[i];
    assert Lookup(obj, key) == params[i].1;
    assert params[..i + 1] == params[..i] + [params[i]];
    CleanedConcat(params[..i], [params[i]]);
    assert [params[i]][1..] == [];
    if IsEmpty(params[i].1) {
      assert Cleaned(params[..i + 1]) == done;
      RemoveKeyConcat(done, [params[i]] + rest, key);
      RemoveAbsentKey(done, key);
      assert ([params[i]] + rest)[1..] == rest;
      RemoveAbsentKey(rest, key);
    } else {
      assert Cleaned(params[..i + 1]) == done + [params[i]];
      assert done + ([params[i]] + rest) == (done + [params[i]]) + rest;
    }
  }

  /**
   * The cleanup loop: for each key, delete it when its value is `''`, `undefined` or `null`.
   * The result is exactly the properties with any other value, 0 and false included, in order.
   */
  method RemoveEmptyParams(params: seq<Entry>) returns (obj: seq<Entry>)
    requires DistinctKeys(params)
    ensures obj == Cleaned(params)
  {
    obj := params;
    var keys := KeysOf(params);
    var i := 0;
    while i < |keys|
      invariant 0 <= i <= |keys|
      invariant obj == Cleaned(params[..i]) + params[i..]
    {
      var key := keys[i];
      assert key == params[i].0;
      CleanStep(params, i, obj);
      if IsEmpty(Lookup(obj, key)) {
        obj := RemoveKey(obj, key);
      }
      i := i + 1;
    }
    assert params[..i] == params;
  }

  /** In an object with distinct keys, looking up the key at position `i` gives the value there. */
  lemma {:induction false} LookupAt(obj: seq<Entry>, i: int)
    requires DistinctKeys(obj) && 0 <= i < |obj|
    ensures Lookup(obj, obj[i].0) == obj[i].1
    decreases i
  {
    if i > 0 {
      assert obj[0].0 != obj[i].0;
      LookupAt(obj[1..], i - 1);
    }
  }

  lemma BackendKeysDistinct(params: map<string, Value>)
    ensures DistinctKeys(BackendParams(params))
    ensures KeysOf(BackendParams(params)) == BACKEND_KEYS
  {
  }

  /** The query parameters `fetchProviders` sends for `params`. */
  method FetchParams(params: map<string, Value>) returns (query: seq<Entry>)
    ensures query == Cleaned(BackendParams(params))
  {
    BackendKeysDistinct(params);
    query := RemoveEmptyParams(BackendParams(params));
  }

  /**
   * `maxPrice` is sent as `max_price`; the other six keys, `min_rating` included, keep their
   * names; nothing else of `params` is read.
   */
  lemma ParamRenaming(params: map<string, Value>)
    ensures Lookup(BackendParams(params), "max_price") == Prop(params, "maxPrice")
    ensures forall i :: 0 <= i < |BACKEND_KEYS| && i != 5 ==>
              Lookup(BackendParams(params), BACKEND_KEYS[i]) == Prop(params, BACKEND_KEYS[i])
    ensures KeyAbsent(BackendParams(params), "maxPrice")
  {
    var obj := BackendParams(params);
    BackendKeysDistinct(params);
    LookupAt(obj, 5);
    forall i | 0 <= i < |BACKEND_KEYS|
      ensures Lookup(obj, BACKEND_KEYS[i]) == obj[i].1
    {
      LookupAt(obj, i);
    }
  }

  /** A sent parameter is never empty, and a non-empty one, 0 and false included, is always sent. */
  lemma SentExactlyNonEmpty(params: map<string, Value>, query: seq<Entry>)
    requires query == Cleaned(BackendParams(params))
    ensures forall e :: e in query ==> !IsEmpty(e.1) && e in BackendParams(params)
    ensures forall e :: e in BackendParams(params) && !IsEmpty(e.1) ==> e in query
    ensures Prop(params, "min_rating") == Num(0) ==> ("min_rating", Num(0)) in query
    ensures Prop(params, "q") == Bool(false) ==> ("q", Bool(false)) in query
    ensures Subsequence(query, BackendParams(params))
  {
    CleanedMembers(BackendParams(params));
    CleanedIsSubsequence(BackendParams(params));
    assert BackendParams(params)[0] == ("q", Prop(params, "q"));
    assert BackendParams(params)[4] == ("min_rating", Prop(params, "min_rating"));
  }

  /** `{count, next, previous}` as the slice keeps them. */
  datatype Pagination = Pagination(count: Value, next: Value, previous: Value)

  /** A page as the search endpoint returns it. */
  datatype Page = Page(results: seq<Value>, count: Value, next: Value, previous: Value)

  datatype ProvidersRecord = ProvidersRecord(
    providers: seq<Value>,
    currentProvider: Value,
    loading: bool,
    error: Value,
    pagination: Pagination)

  const INITIAL := ProvidersRecord([], Null, false, Null, Pagination(Num(0), Null, Null))

  datatype Thunk = FetchProviders | FetchProviderDetail | CreateProvider | UpdateProvider

  datatype Action =
    | Pending(thunk: Thunk)
    | Rejected(thunk: Thunk, payload: Value)
    | ListFulfilled(page: Page)
    | DetailFulfilled(payload: Value)
    | CreateFulfilled(payload: Value)
    | UpdateFulfilled(payload: Value)
    | ClearError
    | ClearCurrentProvider

  /** `v?.id`: `undefined` for `undefined` or `null`, as `state.currentProvider?.id` reads it. */
  function IdOf(v: Value): Value {
    match Member(v, "id")
    case Some(id) => id
    case None => Undefined
  }

  /** `v.id` can be read: `v` is neither `undefined` nor `null`. */
  predicate Readable(v: Value) {
    Member(v, "id").Some?
  }

  /** `v.id === id`, for a readable `v`. */
  predicate HasId(v: Value, id: Value) {
    Member(v, "id") == Some(id)
  }

  /** `k` is the first index whose element has id `id`, and every element before it is readable. */
  predicate FirstMatch(s: seq<Value>, id: Value, k: int) {
    0 <= k < |s| && HasId(s[k], id) && forall j :: 0 <= j < k ==> Readable(s[j]) && !HasId(s[j], id)
  }

  /** Every element is readable and none has id `id`. */
  predicate NoMatch(s: seq<Value>, id: Value) {
    forall j :: 0 <= j < |s| ==> Readable(s[j]) && !HasId(s[j], id)
  }

  /** The search reaches position `k`, whose element is `undefined` or `null`: reading its `id` throws. */
  predicate Blocked(s: seq<Value>, id: Value, k: int) {
    0 <= k < |s| && !Readable(s[k]) && forall j :: 0 <= j < k ==> Readable(s[j]) && !HasId(s[j], id)
  }

  /** How `findIndex(p => p.id === id)` ends: at an index, with -1, or with a TypeError. */
  datatype Located = Found(index: nat) | Absent | Threw

  /** `s.findIndex(p => p.id === id)`, which visits the elements in order and stops at the first match. */
  function Locate(s: seq<Value>, id: Value): (r: Located)
    ensures r.Found? ==> r.index < |s|
    decreases |s|
  {
    if s == [] then Absent
    else if !Readable(s[0]) then Threw
    else if HasId(s[0], id) then Found(0)
    else
      match Locate(s[1..], id)
      case Found(k) => Found(k + 1)
      case other => other
  }

  /** Past a readable element without the id, the three ends of the search shift by one. */
  lemma LocateShift(s: seq<Value>, id: Value)
    requires s != [] && Readable(s[0]) && !HasId(s[0], id)
    ensures forall k: nat :: FirstMatch(s, id, k + 1) <==> FirstMatch(s[1..], id, k)
    ensures !FirstMatch(s, id, 0)
    ensures NoMatch(s, id) <==> NoMatch(s[1..], id)
    ensures forall k: nat :: Blocked(s, id, k + 1) <==> Blocked(s[1..], id, k)
    ensures !Blocked(s, id, 0)
  {
    var t := s[1..];
    assert forall j :: 0 <= j < |t| ==> t[j] == s[j + 1];
    if NoMatch(t, id) {
      assert forall j :: 0 < j < |s| ==> s[j] == t[j - 1];
    }
  }

  /** The three ends of the search, each stated on its own: exactly one of them describes the list. */
  lemma {:induction false} LocateSpec(s: seq<Value>, id: Value)
    ensures forall k: nat :: Locate(s, id) == Found(k) <==> FirstMatch(s, id, k)
    ensures Locate(s, id) == Absent <==> NoMatch(s, id)
    ensures Locate(s, id) == Threw <==> exists k :: Blocked(s, id, k)
    decreases |s|
  {
    if s != [] {
      if !Readable(s[0]) {
        assert Blocked(s, id, 0);
      } else if HasId(s[0], id) {
        assert FirstMatch(s, id, 0);
      } else {
        LocateSpec(s[1..], id);
        LocateShift(s, id);
        if exists k :: Blocked(s, id, k) {
          var k :| Blocked(s, id, k);
          assert Blocked(s[1..], id, k - 1);
        }
        if exists k :: Blocked(s[1..], id, k) {
          var k :| Blocked(s[1..], id, k);
          assert Blocked(s, id, k + 1);
        }
        forall k: nat | FirstMatch(s, id, k)
          ensures k > 0 && FirstMatch(s[1..], id, k - 1)
        {
        }
      }
    }
  }

  /**
   * `providers.findIndex(p => p.id === id)`: the first index with the id, or -1 when every
   * element is readable and none has it; `threw` when it reaches an `undefined` or `null`
   * element first, `k` being that element's index.
   */
  method FindIndex(s: seq<Value>, id: Value) returns (k: int, threw: bool)
    ensures threw ==> Blocked(s, id, k)
    ensures !threw && k == -1 ==> NoMatch(s, id)
    ensures !threw && k != -1 ==> FirstMatch(s, id, k)
  {
    k := 0;
    while k < |s|
      invariant 0 <= k <= |s|
      invariant NoMatch(s[..k], id)
    {
      assert forall j :: 0 <= j < k ==> s[..k][j] == s[j];
      if !Readable(s[k]) {
        return k, true;
      }
      if HasId(s[k], id) {
        return k, false;
      }
      assert forall j :: 0 <= j < k + 1 ==> s[..k + 1][j] == s[j];
      k := k + 1;
    }
    assert s[..k] == s;
    return -1, false;
  }

  /**
   * The dispatch throws: `updateProvider.fulfilled` reads `action.payload.id` of an `undefined`
   * or `null` payload, or `p.id` of an `undefined` or `null` element the search reaches.
   */
  predicate Throws(s: ProvidersRecord, a: Action) {
    a.UpdateFulfilled? && (!Readable(a.payload) || Locate(s.providers, IdOf(a.payload)).Threw?)
  }

  /** The record after an update that does not throw, with the list `providers` it leaves. */
  function Updated(s: ProvidersRecord, p: Value, providers: seq<Value>): ProvidersRecord {
    s.(loading := false, providers := providers,
       currentProvider := if IdOf(s.currentProvider) == IdOf(p) then p else s.currentProvider)
  }

  /** The slice's reducers. A reducer that throws leaves the state as it was. */
  function Next(s: ProvidersRecord, a: Action): ProvidersRecord {
    match a
    case ClearError => s.(error := Null)
    case ClearCurrentProvider => s.(currentProvider := Null)
    case Pending(_) => s.(loading := true, error := Null)
    case Rejected(_, p) => s.(loading := false, error := p)
    case ListFulfilled(page) =>
      s.(loading := false, providers := page.results,
         pagination := Pagination(page.count, page.next, page.previous))
    case DetailFulfilled(p) => s.(loading := false, currentProvider := p)
    case CreateFulfilled(p) => s.(loading := false, providers := s.providers + [p])
    case UpdateFulfilled(p) =>
      if !Readable(p) then s
      else
        var id := IdOf(p);
        match Locate(s.providers, id)
        case Threw => s
        case Found(k) => Updated(s, p, s.providers[k := p])
        case Absent => Updated(s, p, s.providers)
  }

  /** The slice as the store holds it; `push` and indexed assignment update the list in place. */
  class ProvidersStore {
    var providers: seq<Value>
    var currentProvider: Value
    var loading: bool
    var error: Value
    var pagination: Pagination

    function Record(): ProvidersRecord
      reads this
    {
      ProvidersRecord(providers, currentProvider, loading, error, pagination)
    }

    constructor ()
      ensures Record() == INITIAL
    {
      providers := [];
      currentProvider := Null;
      loading := false;
      error := Null;
      pagination := Pagination(Num(0), Null, Null);
    }

    /**
     * Dispatch one action; `threw` is the TypeError of the update reducer, after which Immer
     * discards the draft and the state is unchanged.
     */
    method Dispatch(a: Action) returns (threw: bool)
      modifies this
      ensures threw == Throws(old(Record()), a)
      ensures Record() == Next(old(Record()), a)
    {
      threw := false;
      match a {
        case ClearError =>
          error := Null;
        case ClearCurrentProvider =>
          currentProvider := Null;
        case Pending(_) =>
          loading := true;
          error := Null;
        case Rejected(_, p) =>
          loading := false;
          error := p;
        case ListFulfilled(page) =>
          loading := false;
          providers := page.results;
          pagination := Pagination(page.count, page.next, page.previous);
        case DetailFulfilled(p) =>
          loading := false;
          currentProvider := p;
        case CreateFulfilled(p) =>
          loading := false;
          providers := providers + [p];
        case UpdateFulfilled(p) =>
          if !Readable(p) {
            return true;
          }
          var index, failed := FindIndex(providers, IdOf(p));
          LocateSpec(providers, IdOf(p));
          if failed {
            return true;
          }
          if index != -1 {
            providers := providers[index := p];
          }
          if IdOf(currentProvider) == IdOf(p) {
            currentProvider := p;
          }
          loading := false;
      }
    }
  }

  /** `createProvider.fulfilled` appends the payload and leaves every existing element in place. */
  lemma CreateAppends(s: ProvidersRecord, p: Value)
    ensures var r := Next(s, CreateFulfilled(p));
            |r.providers| == |s.providers| + 1 && r.providers[|s.providers|] == p
            && r.providers[..|s.providers|] == s.providers
  {
  }

  /**
   * `updateProvider.fulfilled` on a readable payload whose search does not throw replaces exactly
   * the first element with the payload's id, and no element when none has it.
   */
  lemma UpdateReplacesFirstMatch(s: ProvidersRecord, p: Value)
    ensures Readable(p) ==> forall k :: FirstMatch(s.providers, IdOf(p), k) ==>
              Next(s, UpdateFulfilled(p)).providers == s.providers[k := p]
    ensures Readable(p) && NoMatch(s.providers, IdOf(p)) ==> Next(s, UpdateFulfilled(p)).providers == s.providers
  {
    LocateSpec(s.providers, IdOf(p));
  }

  /**
   * An `undefined` or `null` payload, or an `undefined` or `null` element reached before a match,
   * makes the update throw and leaves the whole state unchanged.
   */
  lemma UpdateThrowsOnMissingValue(s: ProvidersRecord, p: Value, k: int)
    ensures !Readable(p) ==> Throws(s, UpdateFulfilled(p)) && Next(s, UpdateFulfilled(p)) == s
    ensures Blocked(s.providers, IdOf(p), k) ==> Throws(s, UpdateFulfilled(p)) && Next(s, UpdateFulfilled(p)) == s
  {
    LocateSpec(s.providers, IdOf(p));
  }

  /** Only the update reducer can throw, and one that does not throw ends loading. */
  lemma OnlyUpdateThrows(s: ProvidersRecord, a: Action)
    ensures Throws(s, a) ==> a.UpdateFulfilled? && Next(s, a) == s
    ensures a.UpdateFulfilled? && !Throws(s, a) ==> !Next(s, a).loading
  {
  }

  /** When the update does not throw, the current provider is replaced exactly when its id matches the payload's. */
  lemma UpdateCurrentOnlyOnMatch(s: ProvidersRecord, p: Value)
    requires !Throws(s, UpdateFulfilled(p))
    ensures var r := Next(s, UpdateFulfilled(p));
            (IdOf(s.currentProvider) == IdOf(p) ==> r.currentProvider == p)
            && (IdOf(s.currentProvider) != IdOf(p) ==> r.currentProvider == s.currentProvider)
  {
  }

  /**
   * With no current provider, `state.currentProvider?.id` is `undefined`, so an update whose
   * payload has no `id` becomes the current provider, as long as the list holds no `undefined`
   * or `null` element.
   */
  lemma UpdateWithoutIdSetsMissingCurrent(s: ProvidersRecord, f: map<string, Value>)
    requires s.currentProvider == Null && "id" !in f
    requires forall j :: 0 <= j < |s.providers| ==> Readable(s.providers[j])
    ensures Next(s, UpdateFulfilled(Obj(f))).currentProvider == Obj(f)
  {
    LocateSpec(s.providers, Undefined);
    assert forall k :: !Blocked(s.providers, Undefined, k);
  }

  /** A fetched page replaces the list and the whole pagination triple. */
  lemma ListFulfilledTakesPage(s: ProvidersRecord, page: Page)
    ensures var r := Next(s, ListFulfilled(page));
            r.providers == page.results && r.pagination == Pagination(page.count, page.next, page.previous)
            && !r.loading && r.error == s.error && r.currentProvider == s.currentProvider
  {
  }

  /** Pending starts loading with no error; rejected stops loading with the payload as error. */
  lemma LifecycleFlags(s: ProvidersRecord, t: Thunk, p: Value)
    ensures Next(s, Pending(t)) == s.(loading := true, error := Null)
    ensures Next(s, Rejected(t, p)) == s.(loading := false, error := p)
    ensures Next(s, Rejected(t, p)).providers == s.providers
  {
  }
}
