/**
 * Properties of the authenticated client (`AuthSession`): when a refresh is attempted, what a
 * refresh success and a refresh failure leave behind, the immunity of login and registration,
 * and the re-entry of the refresh call into its own interceptor.
 */
module AuthSessionProperties {
  import opened Wrappers
  import opened Text
  import opened Js
  import opened AuthSession

  /**
   * With a token stored, the Authorization header is `Bearer ` followed by that token and every
   * other header is kept; with none, the request goes out as it is. Nothing but the headers
   * ever changes.
   */
  lemma BearerExactlyWhenStored(req: Request, store: TokenStore)
    ensures HasToken(store, AccessToken) ==>
              var h := WithToken(req, store).headers;
              AUTHORIZATION in h && h[AUTHORIZATION][..7] == "Bearer " && h[AUTHORIZATION][7..] == store[AccessToken]
              && h.Keys == req.headers.Keys + {AUTHORIZATION}
              && forall k :: k in req.headers && k != AUTHORIZATION ==> h[k] == req.headers[k]
    ensures !HasToken(store, AccessToken) ==> WithToken(req, store) == req
    ensures WithToken(req, store).(headers := req.headers) == req
  {
  }

  /** Whatever happens next, the first transmission is the request with the stored token attached. */
  lemma FirstTransmission(w: World, req: Request, pathname: string, guard: Guard)
    requires w.network != []
    ensures var r := Axios(w, req, pathname, guard).0;
            |r.sent| > |w.sent| && r.sent[|w.sent|] == WithToken(req, w.store)
  {
    var cfg := WithToken(req, w.store);
    var w1 := Transmitted(w, cfg);
    assert w1.sent[|w.sent|] == cfg;
    if Fails(w.network[0]) {
      OnRejectedEvolves(w1, AxiosError(cfg, ResponseOf(w.network[0])), pathname, guard);
    }
  }

  /** A failure that does not meet the refresh condition is rejected unchanged after one transmission, tokens untouched. */
  lemma RejectedUnchangedUnlessEligible(w: World, req: Request, pathname: string, guard: Guard)
    requires w.network != [] && Fails(w.network[0])
    requires !ShouldRefresh(AxiosError(WithToken(req, w.store), ResponseOf(w.network[0])), w.store, guard)
    ensures var cfg := WithToken(req, w.store);
            Axios(w, req, pathname, guard)
              == (Transmitted(w, cfg), Rejected(Http(AxiosError(cfg, ResponseOf(w.network[0])))))
  {
  }

  /** The second transmission is the refresh POST exactly when the refresh condition holds. */
  lemma RefreshIssuedIffEligible(w: World, req: Request, pathname: string, guard: Guard)
    requires |w.network| >= 2 && Fails(w.network[0])
    ensures var err := AxiosError(WithToken(req, w.store), ResponseOf(w.network[0]));
            var r := Axios(w, req, pathname, guard).0;
            (&& |r.sent| >= |w.sent| + 2
             && RefreshToken in w.store
             && r.sent[|w.sent| + 1] == WithToken(RefreshRequest(w.store[RefreshToken]), w.store))
            <==> ShouldRefresh(err, w.store, guard)
  {
    var cfg := WithToken(req, w.store);
    var err := AxiosError(cfg, ResponseOf(w.network[0]));
    var w1 := Transmitted(w, cfg);
    if ShouldRefresh(err, w.store, guard) {
      var refresh := RefreshRequest(w.store[RefreshToken]);
      FirstTransmission(w1, refresh, pathname, guard);
      var (w2, refreshed) := Axios(w1, refresh, pathname, guard);
      assert w2.sent[|w.sent| + 1] == WithToken(refresh, w.store);
      if refreshed.Resolved? && Member(refreshed.reply.data, "access").Some? {
        var token := ToString(Member(refreshed.reply.data, "access").value);
        var original := cfg.(retry := true);
        var w3 := w2.(store := w2.store[AccessToken := token]);
        AxiosEvolves(w3, original.(headers := original.headers[AUTHORIZATION := Bearer(token)]), pathname, guard);
      }
    }
  }

  /**
   * Refresh success: the new access token is stored, the refresh token is kept, the replay is the
   * original config marked `_retry` with `Bearer <access>`, and its answer is returned as it is,
   * with no second refresh even if it is another 401.
   */
  lemma RefreshSuccessReplaysOnce(w: World, req: Request, pathname: string, guard: Guard, access: Value)
    requires |w.network| >= 3 && Fails(w.network[0])
    requires ShouldRefresh(AxiosError(WithToken(req, w.store), ResponseOf(w.network[0])), w.store, guard)
    requires w.network[1].Responded? && 200 <= w.network[1].reply.status < 300
    requires Member(w.network[1].reply.data, "access") == Some(access)
    ensures var cfg := WithToken(req, w.store);
            var token := ToString(access);
            var replay := cfg.(retry := true, headers := cfg.headers[AUTHORIZATION := Bearer(token)]);
            var refresh := WithToken(RefreshRequest(w.store[RefreshToken]), w.store);
            var (r, out) := Axios(w, req, pathname, guard);
            && r.store == w.store[AccessToken := token]
            && r.sent == w.sent + [cfg, refresh, replay]
            && r.network == w.network[3..]
            && r.redirects == w.redirects
            && out == (if Fails(w.network[2]) then Rejected(Http(AxiosError(replay, ResponseOf(w.network[2]))))
                       else Resolved(w.network[2].reply))
  {
    var cfg := WithToken(req, w.store);
    var token := ToString(access);
    var replay := cfg.(retry := true, headers := cfg.headers[AUTHORIZATION := Bearer(token)]);
    var refresh := WithToken(RefreshRequest(w.store[RefreshToken]), w.store);
    var w1 := Transmitted(w, cfg);
    var w2 := Transmitted(w1, refresh);
    assert Axios(w1, RefreshRequest(w.store[RefreshToken]), pathname, guard) == (w2, Resolved(w1.network[0].reply));
    var w3 := w2.(store := w2.store[AccessToken := token]);
    assert WithToken(replay, w3.store) == replay;
    var w4 := Transmitted(w3, replay);
    assert w2.network == w.network[2..];
    assert !ShouldRefresh(AxiosError(replay, ResponseOf(w.network[2])), w3.store, guard);
    assert Axios(w3, replay, pathname, guard)
      == (w4, if Fails(w.network[2]) then Rejected(Http(AxiosError(replay, ResponseOf(w.network[2]))))
              else Resolved(w.network[2].reply));
  }

  /**
   * Refresh failure: when the refresh POST is rejected and that rejection is not itself refreshed,
   * both tokens are removed, the page is sent to the login page unless it is the registration page,
   * and the call rejects with the refresh error.
   */
  lemma RefreshFailurePurges(w: World, req: Request, pathname: string, guard: Guard)
    requires |w.network| >= 2 && Fails(w.network[0]) && Fails(w.network[1])
    requires ShouldRefresh(AxiosError(WithToken(req, w.store), ResponseOf(w.network[0])), w.store, guard)
    requires var refresh := WithToken(RefreshRequest(w.store[RefreshToken]), w.store);
             !ShouldRefresh(AxiosError(refresh, ResponseOf(w.network[1])), w.store, guard)
    ensures var cfg := WithToken(req, w.store);
            var refresh := WithToken(RefreshRequest(w.store[RefreshToken]), w.store);
            var (r, out) := Axios(w, req, pathname, guard);
            && r.store == w.store - {AccessToken, RefreshToken}
            && r.redirects == (if Contains(pathname, "/register") then w.redirects else w.redirects + [LOGIN_PAGE])
            && r.sent == w.sent + [cfg, refresh]
            && out == Rejected(Http(AxiosError(refresh, ResponseOf(w.network[1]))))
  {
    var cfg := WithToken(req, w.store);
    var refresh := WithToken(RefreshRequest(w.store[RefreshToken]), w.store);
    var w1 := Transmitted(w, cfg);
    var w2 := Transmitted(w1, refresh);
    assert Axios(w1, RefreshRequest(w.store[RefreshToken]), pathname, guard)
      == (w2, Rejected(Http(AxiosError(refresh, ResponseOf(w.network[1])))));
  }

  /** The refresh endpoint's URL names neither the login nor the registration endpoint. */
  lemma RefreshUrlIsNotExempt()
    ensures !Contains(REFRESH_URL, "/login") && !Contains(REFRESH_URL, "/register")
  {
    MissingCharNotContained(REFRESH_URL, "/login", 'g');
    MissingCharNotContained(REFRESH_URL, "/register", 'g');
  }

  /** Under the corrected guard a rejection of the refresh POST is never itself refreshed. */
  lemma GuardedRefreshIsNeverRefreshed(store: TokenStore, rt: string, response: Option<Reply>)
    ensures !ShouldRefresh(AxiosError(WithToken(RefreshRequest(rt), store), response), store, RefreshGuarded)
  {
    ContainsSelf(REFRESH_URL);
  }

  /** As written, a 401 from the refresh POST meets the refresh condition again. */
  lemma AsWrittenRefreshUnauthorizedIsRefreshed(store: TokenStore, rt: string, data: Value)
    requires HasToken(store, RefreshToken)
    ensures ShouldRefresh(AxiosError(WithToken(RefreshRequest(rt), store), Some(Reply(401, data))), store, AsWritten)
  {
    RefreshUrlIsNotExempt();
  }

  predicate AllUnauthorized(net: seq<Answer>) {
    forall i :: 0 <= i < |net| ==> net[i].Responded? && net[i].reply.status == 401
  }

  /**
   * As written, when every answer is a 401 an eligible call never settles: each refresh POST is
   * refreshed in turn, however long the script, and the tokens are never purged.
   */
  lemma {:induction false} AsWrittenUnauthorizedNeverSettles(w: World, req: Request, pathname: string)
    requires AllUnauthorized(w.network)
    requires !req.retry && !Contains(req.url, "/login") && !Contains(req.url, "/register")
    requires HasToken(w.store, RefreshToken)
    ensures var (r, out) := Axios(w, req, pathname, AsWritten);
            out == Unsettled && r.store == w.store && r.redirects == w.redirects && r.network == []
    decreases |w.network|
  {
    if w.network != [] {
      var cfg := WithToken(req, w.store);
      var w1 := Transmitted(w, cfg);
      var err := AxiosError(cfg, ResponseOf(w.network[0]));
      assert w.network[0].Responded? && w.network[0].reply.status == 401;
      assert Axios(w, req, pathname, AsWritten) == OnRejected(w1, err, pathname, AsWritten);
      assert cfg.url == req.url && !cfg.retry && w1.store == w.store;
      assert ShouldRefresh(err, w1.store, AsWritten);
      assert AllUnauthorized(w1.network) by {
        forall i | 0 <= i < |w1.network|
          ensures w1.network[i].Responded? && w1.network[i].reply.status == 401
        {
          assert w1.network[i] == w.network[i + 1];
        }
      }
      RefreshUrlIsNotExempt();
      AsWrittenUnauthorizedNeverSettles(w1, RefreshRequest(w.store[RefreshToken]), pathname);
    }
  }

  /** The single step of a call whose URL names the login or registration endpoint: never refreshed. */
  lemma ExemptRequestIsNeverRefreshed(w: World, req: Request, pathname: string, guard: Guard)
    requires Contains(req.url, "/login") || Contains(req.url, "/register")
    ensures var cfg := WithToken(req, w.store);
            Axios(w, req, pathname, guard)
              == if w.network == [] then (w, Unsettled)
                 else if Fails(w.network[0]) then (Transmitted(w, cfg), Rejected(Http(AxiosError(cfg, ResponseOf(w.network[0])))))
                 else (Transmitted(w, cfg), Resolved(w.network[0].reply))
  {
    var cfg := WithToken(req, w.store);
    assert cfg.url == req.url;
    if w.network != [] && Fails(w.network[0]) {
      assert !ShouldRefresh(AxiosError(cfg, ResponseOf(w.network[0])), w.store, guard);
    }
  }

  /** A 401 from the login endpoint never triggers a refresh: at most one transmission, tokens untouched. */
  lemma LoginNeverRefreshes(w: World, email: string, password: string, pathname: string, guard: Guard)
    ensures var r := Axios(w, LoginRequest(email, password), pathname, guard).0;
            r.store == w.store && r.redirects == w.redirects && |r.sent| <= |w.sent| + 1
  {
    assert LOGIN_URL[10..][..6] == "/login";
    ContainsAtOffset(LOGIN_URL, "/login", 10);
    ExemptRequestIsNeverRefreshed(w, LoginRequest(email, password), pathname, guard);
  }

  /**
   * `register` removes both tokens before its POST, so the POST goes out without an Authorization
   * header, is never refreshed, and leaves no token behind.
   */
  lemma RegisterClearsSession(w: World, userData: Value, pathname: string, guard: Guard)
    ensures var r := RegisterCall(w, userData, pathname, guard).0;
            && AccessToken !in r.store && RefreshToken !in r.store
            && r.redirects == w.redirects && |r.sent| <= |w.sent| + 1
            && (w.network != [] ==> r.sent == w.sent + [RegisterRequest(userData)])
  {
    assert REGISTER_URL[10..][..9] == "/register";
    ContainsAtOffset(REGISTER_URL, "/register", 10);
    var w0 := w.(store := w.store - {AccessToken, RefreshToken});
    assert WithToken(RegisterRequest(userData), w0.store) == RegisterRequest(userData);
    ExemptRequestIsNeverRefreshed(w0, RegisterRequest(userData), pathname, guard);
  }

  /** A login response carrying string tokens stores both and fulfils with the user. */
  lemma LoginStoresBothTokens(store: TokenStore, status: int, user: Value, access: string, refresh: string)
    ensures var data := Obj(map["user" := user, "tokens" := Obj(map["access" := Str(access), "refresh" := Str(refresh)])]);
            CompleteLogin(store, Resolved(Reply(status, data)))
              == (store[AccessToken := access][RefreshToken := refresh], Fulfilled(user))
  {
  }

  /** A failed login stores nothing and rejects with the error body, or 'Login failed' when there is none. */
  lemma LoginFailureStoresNothing(store: TokenStore, f: Failure)
    ensures CompleteLogin(store, Rejected(f)).0 == store
    ensures CompleteLogin(store, Rejected(f)).1 == RejectedWith(RejectPayload(f, "Login failed"))
  {
  }
}
