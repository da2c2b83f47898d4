/**
 * A concrete run of the authenticated client: a refresh endpoint that itself answers 401, under
 * the guard as written and as corrected.
 */
module AuthScenarios {
  import opened Wrappers
  import opened Text
  import opened Js
  import opened AuthSession
  import opened AuthSessionProperties

  const A1 := "A1"
  const R1 := "R1"
  const A2 := "A2"

  const PROFILE_URL := "/api/users/profile/"

  lemma ProfileUrlIsNotLoginOrRegister()
    ensures !Contains(PROFILE_URL, "/login") && !Contains(PROFILE_URL, "/register")
  {
    MissingCharNotContained(PROFILE_URL, "/login", 'g');
    MissingCharNotContained(PROFILE_URL, "/register", 'g');
  }

  lemma ProfileUrlIsNotRefreshUrl()
    ensures !Contains(PROFILE_URL, REFRESH_URL)
  {
    assert REFRESH_URL[8] == 'h';
    MissingCharNotContained(PROFILE_URL, REFRESH_URL, 'h');
  }

  /** A URL naming none of the endpoints the interceptor treats specially. */
  predicate NotExempt(url: string) {
    !Contains(url, "/login") && !Contains(url, "/register") && !Contains(url, REFRESH_URL)
  }

  /** The profile endpoint is such a URL. */
  lemma ProfileUrlIsNotExempt()
    ensures NotExempt(PROFILE_URL)
  {
    ProfileUrlIsNotLoginOrRegister();
    ProfileUrlIsNotRefreshUrl();
  }

  /** Access token A1 (expired) and refresh token R1 (valid) are stored. */
  predicate ExpiredSession(w: World) {
    w.store == map[AccessToken := A1, RefreshToken := R1]
  }

  /** A first 401 from a request that names no exempt endpoint, with R1 stored, is refreshed. */
  lemma FirstUnauthorizedIsRefreshed(w: World, req: Request, guard: Guard)
    requires ExpiredSession(w) && |w.network| == 2 && AllUnauthorized(w.network)
    requires NotExempt(req.url) && !req.retry
    ensures ShouldRefresh(AxiosError(WithToken(req, w.store), ResponseOf(w.network[0])), w.store, guard)
  {
    assert w.network[0].Responded? && w.network[0].reply.status == 401;
  }

  /** The answers of a run in which the refresh succeeds: a 401, a new access token A2, then the resource. */
  predicate RefreshThenResource(net: seq<Answer>, resource: Value) {
    && |net| == 3
    && net[0].Responded? && net[0].reply.status == 401
    && net[1] == Responded(Reply(200, Obj(map["access" := Str(A2)])))
    && net[2] == Responded(Reply(200, resource))
  }

  /**
   * The refresh succeeds: a request to an endpoint such as the profile gets a 401, the refresh
   * POST returns access token A2, and the replay returns the resource. The call ends with A2 and
   * the unchanged R1 stored, no redirect, and the resource as its result.
   */
  lemma ScenarioRefreshSucceeds(w: World, req: Request, guard: Guard, resource: Value)
    requires ExpiredSession(w) && RefreshThenResource(w.network, resource)
    requires NotExempt(req.url) && !req.retry
    ensures Axios(w, req, "/dashboard", guard).0.store == map[AccessToken := A2, RefreshToken := R1]
    ensures Axios(w, req, "/dashboard", guard).0.redirects == w.redirects
    ensures Axios(w, req, "/dashboard", guard).1 == Resolved(Reply(200, resource))
  {
    assert w.store[RefreshToken] == R1;
    assert Fails(w.network[0]) && !Fails(w.network[2]);
    assert Member(w.network[1].reply.data, "access") == Some(Str(A2));
    RefreshSuccessReplaysOnce(w, req, "/dashboard", guard, Str(A2));
    assert w.store[AccessToken := A2] == map[AccessToken := A2, RefreshToken := R1];
  }

  /**
   * The refresh endpoint answers 401 too: two 401s in a row for a request to an endpoint such as
   * the profile (`ProfileUrlIsNotExempt`), with A1 and R1 stored, on the dashboard. With the corrected guard both tokens are removed, the page goes to
   * the login page and the refresh error is returned.
   */
  lemma ScenarioRefreshRejectedGuarded(w: World, req: Request)
    requires ExpiredSession(w) && |w.network| == 2 && AllUnauthorized(w.network)
    requires NotExempt(req.url) && !req.retry
    ensures Axios(w, req, "/dashboard", RefreshGuarded).0.store == map[]
    ensures Axios(w, req, "/dashboard", RefreshGuarded).0.redirects == w.redirects + [LOGIN_PAGE]
    ensures Axios(w, req, "/dashboard", RefreshGuarded).1
              == Rejected(Http(AxiosError(WithToken(RefreshRequest(R1), w.store), ResponseOf(w.network[1]))))
  {
    FirstUnauthorizedIsRefreshed(w, req, RefreshGuarded);
    MissingCharNotContained("/dashboard", "/register", 'g');
    assert Fails(w.network[0]) && Fails(w.network[1]);
    assert w.store[RefreshToken] == R1;
    GuardedRefreshIsNeverRefreshed(w.store, R1, ResponseOf(w.network[1]));
    RefreshFailurePurges(w, req, "/dashboard", RefreshGuarded);
    ExpiredSessionPurgedIsEmpty(w.store);
  }

  /** Removing both tokens from the expired session leaves nothing. */
  lemma ExpiredSessionPurgedIsEmpty(store: TokenStore)
    requires store == map[AccessToken := A1, RefreshToken := R1]
    ensures store - {AccessToken, RefreshToken} == map[]
  {
    assert forall s: Slot :: s !in store - {AccessToken, RefreshToken};
  }

  /**
   * The same run as written: the refresh POST's 401 is itself refreshed, nothing is purged or
   * redirected, and with no third answer the call is still waiting.
   */
  lemma ScenarioRefreshRejectedAsWritten(w: World, req: Request)
    requires ExpiredSession(w) && |w.network| == 2 && AllUnauthorized(w.network)
    requires NotExempt(req.url) && !req.retry
    ensures Axios(w, req, "/dashboard", AsWritten).0.store == w.store
    ensures Axios(w, req, "/dashboard", AsWritten).0.redirects == w.redirects
    ensures Axios(w, req, "/dashboard", AsWritten).1 == Unsettled
  {
    AsWrittenUnauthorizedNeverSettles(w, req, "/dashboard");
  }
}
