/**
 * The authenticated HTTP client of the frontend: axios with a request interceptor that attaches
 * the stored access token and a response interceptor that, on a 401, refreshes the access token
 * once and replays the request; plus the token effects of the `login`, `register` and `logout`
 * actions.
 *
 * The browser's `localStorage` is a map from the two token slots to strings. The network is an
 * oracle: an ordered script of answers, one consumed per transmission. When the script runs out
 * the call is `Unsettled`: the model does not assume that a call terminates. A redirect of
 * `window.location` is an event appended to `redirects`.
 */
module AuthSession {
  import opened Wrappers
  import opened Text
  import opened Js

  /** The two `localStorage` entries the client uses, `access_token` and `refresh_token`. */
  datatype Slot = AccessToken | RefreshToken

  type TokenStore = map<Slot, string>

  datatype HttpMethod = Get | Post | Put | Patch | Delete

  /** An axios request config; `retry` is the `_retry` mark the response interceptor sets. */
  datatype Request = Request(
    verb: HttpMethod,
    url: string,
    headers: map<string, string>,
    body: Value,
    retry: bool)

  datatype Reply = Reply(status: int, data: Value)

  /** What the network gives one transmission: a response, or none at all (a network error). */
  datatype Answer = Responded(reply: Reply) | NoResponse

  /** The error axios rejects with: the config as sent and the response, if there was one. */
  datatype AxiosError = AxiosError(config: Request, response: Option<Reply>)

  /** A rejection: an axios error, or the TypeError of reading a property of `undefined`/`null`. */
  datatype Failure = Http(err: AxiosError) | TypeError

  datatype Outcome = Resolved(reply: Reply) | Rejected(failure: Failure) | Unsettled

  /**
   * Which refresh condition the response interceptor applies: the one in the source, or the
   * corrected one that also exempts the refresh endpoint itself (see `OnRejected`).
   */
  datatype Guard = AsWritten | RefreshGuarded

  /** Everything a call can change: tokens, the rest of the network script, the log, the redirects. */
  datatype World = World(
    store: TokenStore,
    network: seq<Answer>,
    sent: seq<Request>,
    redirects: seq<string>)

  const AUTHORIZATION := "Authorization"
  const REFRESH_URL := "/api/auth/token/refresh/"
  const LOGIN_URL := "/api/users/login/"
  const REGISTER_URL := "/api/users/register/"
  const LOGIN_PAGE := "/login"

  /** `localStorage.getItem(slot)` is truthy: present and not the empty string. */
  predicate HasToken(store: TokenStore, slot: Slot) {
    slot in store && store[slot] != ""
  }

  function Bearer(token: string): string {
    "Bearer " + token
  }

  /** The request interceptor: attach `Bearer <access token>` when one is stored. */
  function WithToken(req: Request, store: TokenStore): Request {
    if HasToken(store, AccessToken) then
      req.(headers := req.headers[AUTHORIZATION := Bearer(store[AccessToken])])
    else req
  }

  /** The condition under which the response interceptor refreshes and replays. */
  predicate ShouldRefresh(err: AxiosError, store: TokenStore, guard: Guard) {
    && err.response.Some?
    && err.response.value.status == 401
    && !err.config.retry
    && HasToken(store, RefreshToken)
    && !Contains(err.config.url, "/login")
    && !Contains(err.config.url, "/register")
    && (guard == RefreshGuarded ==> !Contains(err.config.url, REFRESH_URL))
  }

  /** The POST the interceptor issues to mint a new access token; a fresh config, so not `_retry`. */
  function RefreshRequest(refreshToken: string): Request {
    Request(Post, REFRESH_URL, map[], Obj(map["refresh" := Str(refreshToken)]), false)
  }

  /** The refresh-failure branch: remove both tokens and redirect unless on the registration page. */
  function Purge(w: World, pathname: string): (r: World)
    ensures r.store.Keys == w.store.Keys - {AccessToken, RefreshToken}
    ensures r.network == w.network && r.sent == w.sent
  {
    w.(store := w.store - {AccessToken, RefreshToken},
       redirects := if Contains(pathname, "/register") then w.redirects else w.redirects + [LOGIN_PAGE])
  }

  /** What a call may do to the world in any case: consume answers, log as many transmissions, never rotate the refresh token. */
  predicate Evolves(w: World, r: World) {
    && |r.network| <= |w.network|
    && r.network == w.network[|w.network| - |r.network|..]
    && w.sent <= r.sent
    && |r.sent| - |w.sent| == |w.network| - |r.network|
    && (RefreshToken in r.store ==> RefreshToken in w.store && r.store[RefreshToken] == w.store[RefreshToken])
    && w.redirects <= r.redirects
    && (forall i :: |w.redirects| <= i < |r.redirects| ==> r.redirects[i] == LOGIN_PAGE)
  }

  lemma EvolvesTrans(a: World, b: World, c: World)
    requires Evolves(a, b) && Evolves(b, c)
    ensures Evolves(a, c)
  {
  }

  /** What axios attaches to its error for an answer: the response, if there was one. */
  function ResponseOf(a: Answer): Option<Reply> {
    match a
    case Responded(reply) => Some(reply)
    case NoResponse => None
  }

  /** The answer makes axios reject: a network error or a status outside 2xx. */
  predicate Fails(a: Answer) {
    a.NoResponse? || !(200 <= a.reply.status < 300)
  }

  /** The world after one transmission of `cfg`. */
  function Transmitted(w: World, cfg: Request): (r: World)
    requires w.network != []
    ensures |r.network| < |w.network|
  {
    w.(network := w.network[1..], sent := w.sent + [cfg])
  }

  /**
   * One `axios(req)` call: the request interceptor, one transmission, and on a non-2xx answer or
   * a network error the response interceptor.
   */
  function Axios(w: World, req: Request, pathname: string, guard: Guard): (r: (World, Outcome))
    ensures |r.0.network| <= |w.network|
    decreases |w.network|, 0
  {
    var cfg := WithToken(req, w.store);
    if w.network == [] then (w, Unsettled)
    else if Fails(w.network[0]) then
      OnRejected(Transmitted(w, cfg), AxiosError(cfg, ResponseOf(w.network[0])), pathname, guard)
    else (Transmitted(w, cfg), Resolved(w.network[0].reply))
  }

  /**
   * The response interceptor's error handler. When `ShouldRefresh` holds it marks the request
   * `_retry`, posts the stored refresh token through `axios` itself, and then either stores the
   * new access token and replays the request (whose result, success or failure, is returned as
   * it is: the replay is returned, not awaited, inside the `try`), or purges the session and
   * rejects with the refresh error. Otherwise the error is rejected unchanged.
   */
  function OnRejected(w: World, err: AxiosError, pathname: string, guard: Guard): (r: (World, Outcome))
    ensures |r.0.network| <= |w.network|
    decreases |w.network|, 1
  {
    if !ShouldRefresh(err, w.store, guard) then (w, Rejected(Http(err)))
    else
      var original := err.config.(retry := true);
      var (w2, refreshed) := Axios(w, RefreshRequest(w.store[RefreshToken]), pathname, guard);
      match refreshed
      case Unsettled => (w2, Unsettled)
      case Rejected(f) => (Purge(w2, pathname), Rejected(f))
      case Resolved(reply) =>
        match Member(reply.data, "access")
        case None => (Purge(w2, pathname), Rejected(TypeError))
        case Some(access) =>
          var token := ToString(access);
          Axios(w2.(store := w2.store[AccessToken := token]),
                original.(headers := original.headers[AUTHORIZATION := Bearer(token)]), pathname, guard)
  }

  /** Every call evolves the world as `Evolves` says. */
  lemma {:induction false} AxiosEvolves(w: World, req: Request, pathname: string, guard: Guard)
    ensures Evolves(w, Axios(w, req, pathname, guard).0)
    decreases |w.network|, 0
  {
    var cfg := WithToken(req, w.store);
    if w.network != [] {
      var w1 := Transmitted(w, cfg);
      if Fails(w.network[0]) {
        OnRejectedEvolves(w1, AxiosError(cfg, ResponseOf(w.network[0])), pathname, guard);
        EvolvesTrans(w, w1, Axios(w, req, pathname, guard).0);
      }
    }
  }

  lemma {:induction false} OnRejectedEvolves(w: World, err: AxiosError, pathname: string, guard: Guard)
    ensures Evolves(w, OnRejected(w, err, pathname, guard).0)
    decreases |w.network|, 1
  {
    if ShouldRefresh(err, w.store, guard) {
      var original := err.config.(retry := true);
      var (w2, refreshed) := Axios(w, RefreshRequest(w.store[RefreshToken]), pathname, guard);
      AxiosEvolves(w, RefreshRequest(w.store[RefreshToken]), pathname, guard);
      if refreshed.Resolved? && Member(refreshed.reply.data, "access").Some? {
        var token := ToString(Member(refreshed.reply.data, "access").value);
        var w3 := w2.(store := w2.store[AccessToken := token]);
        var replay := original.(headers := original.headers[AUTHORIZATION := Bearer(token)]);
        AxiosEvolves(w3, replay, pathname, guard);
        EvolvesTrans(w, w3, Axios(w3, replay, pathname, guard).0);
      }
    }
  }

  /** How a `createAsyncThunk` call ends: its fulfilled payload, its rejected payload, or not yet. */
  datatype ThunkResult = Fulfilled(payload: Value) | RejectedWith(payload: Value) | Pending

  /** `rejectWithValue(error.response?.data || fallback)`. */
  function RejectPayload(f: Failure, fallback: string): (v: Value)
    ensures f.Http? && f.err.response.Some? && Truthy(f.err.response.value.data) ==> v == f.err.response.value.data
    ensures f.Http? && (f.err.response.None? || !Truthy(f.err.response.value.data)) ==> v == Str(fallback)
    ensures f.TypeError? ==> v == Str(fallback)
  {
    match f
    case Http(e) => if e.response.Some? then Or(e.response.value.data, Str(fallback)) else Str(fallback)
    case TypeError => Str(fallback)
  }

  /** The thunk result of a call that only returns `response.data`, as `getCurrentUser` does. */
  function Settle(out: Outcome, fallback: string): ThunkResult {
    match out
    case Unsettled => Pending
    case Resolved(reply) => Fulfilled(reply.data)
    case Rejected(f) => RejectedWith(RejectPayload(f, fallback))
  }

  function LoginRequest(email: string, password: string): Request {
    Request(Post, LOGIN_URL, map[], Obj(map["email" := Str(email), "password" := Str(password)]), false)
  }

  function RegisterRequest(userData: Value): Request {
    Request(Post, REGISTER_URL, map[], userData, false)
  }

  /**
   * The rest of `login` once the POST has settled: `const { user, tokens } = response.data`,
   * then store `tokens.access` and `tokens.refresh` and fulfil with `user`. Reading a property
   * of a missing `data` or `tokens` throws, and the thunk rejects with 'Login failed'
   * (the error has no response) before anything is stored.
   */
  function CompleteLogin(store: TokenStore, out: Outcome): (TokenStore, ThunkResult) {
    match out
    case Unsettled => (store, Pending)
    case Rejected(f) => (store, RejectedWith(RejectPayload(f, "Login failed")))
    case Resolved(reply) =>
      match Member(reply.data, "user")
      case None => (store, RejectedWith(Str("Login failed")))
      case Some(user) =>
        var tokens := Member(reply.data, "tokens").value;
        match Member(tokens, "access")
        case None => (store, RejectedWith(Str("Login failed")))
        case Some(access) =>
          var refresh := Member(tokens, "refresh").value;
          (store[AccessToken := ToString(access)][RefreshToken := ToString(refresh)], Fulfilled(user))
  }

  /** The whole `login` thunk: the POST through `axios`, then `CompleteLogin`. */
  function LoginCall(w: World, email: string, password: string, pathname: string, guard: Guard): (World, ThunkResult) {
    var (w1, out) := Axios(w, LoginRequest(email, password), pathname, guard);
    var (store, result) := CompleteLogin(w1.store, out);
    (w1.(store := store), result)
  }

  /** The whole `register` thunk: remove both tokens, then the POST through `axios`. */
  function RegisterCall(w: World, userData: Value, pathname: string, guard: Guard): (World, ThunkResult) {
    var (w1, out) := Axios(w.(store := w.store - {AccessToken, RefreshToken}), RegisterRequest(userData), pathname, guard);
    (w1, Settle(out, "Registration failed"))
  }

  /**
   * The client as the browser holds it: `localStorage`, what the network will answer, what was
   * transmitted and where the page was sent. `pathname` is the page the client runs on.
   */
  class Session {
    var store: TokenStore
    var network: seq<Answer>
    var sent: seq<Request>
    var redirects: seq<string>
    const pathname: string
    const guard: Guard

    function State(): World
      reads this
    {
      World(store, network, sent, redirects)
    }

    constructor (store: TokenStore, network: seq<Answer>, pathname: string, guard: Guard)
      ensures State() == World(store, network, [], [])
      ensures this.pathname == pathname && this.guard == guard
    {
      this.store := store;
      this.network := network;
      this.sent := [];
      this.redirects := [];
      this.pathname := pathname;
      this.guard := guard;
    }

    /** `axios(req)`. */
    method Send(req: Request) returns (out: Outcome)
      modifies this
      ensures (State(), out) == Axios(old(State()), req, pathname, guard)
      decreases |network|, 0
    {
      var cfg := WithToken(req, store);
      if network == [] {
        return Unsettled;
      }
      var answer := network[0];
      network := network[1..];
      sent := sent + [cfg];
      match answer {
        case Responded(reply) =>
          if 200 <= reply.status < 300 {
            out := Resolved(reply);
          } else {
            out := HandleRejection(AxiosError(cfg, Some(reply)));
          }
        case NoResponse =>
          out := HandleRejection(AxiosError(cfg, None));
      }
    }

    /** The error handler of the response interceptor. */
    method HandleRejection(err: AxiosError) returns (out: Outcome)
      modifies this
      ensures (State(), out) == OnRejected(old(State()), err, pathname, guard)
      decreases |network|, 1
    {
      if !ShouldRefresh(err, store, guard) {
        return Rejected(Http(err));
      }
      var original := err.config.(retry := true);
      var refreshed := Send(RefreshRequest(store[RefreshToken]));
      match refreshed {
        case Unsettled =>
          out := Unsettled;
        case Rejected(f) =>
          ExpireSession();
          out := Rejected(f);
        case Resolved(reply) =>
          var access := Member(reply.data, "access");
          if access.None? {
            ExpireSession();
            out := Rejected(TypeError);
          } else {
            var token := ToString(access.value);
            store := store[AccessToken := token];
            out := Send(original.(headers := original.headers[AUTHORIZATION := Bearer(token)]));
          }
      }
    }

    /** Remove both tokens and, unless on the registration page, redirect to the login page. */
    method ExpireSession()
      modifies this
      ensures State() == Purge(old(State()), pathname)
    {
      store := store - {AccessToken, RefreshToken};
      if !Contains(pathname, "/register") {
        redirects := redirects + [LOGIN_PAGE];
      }
    }

    /** The `login` thunk. */
    method Login(email: string, password: string) returns (result: ThunkResult)
      modifies this
      ensures (State(), result) == LoginCall(old(State()), email, password, pathname, guard)
    {
      var out := Send(LoginRequest(email, password));
      result := FinishLogin(out);
    }

    /** What `login` does once its POST has settled (see `CompleteLogin`). */
    method FinishLogin(out: Outcome) returns (result: ThunkResult)
      modifies this
      ensures (store, result) == CompleteLogin(old(store), out)
      ensures network == old(network) && sent == old(sent) && redirects == old(redirects)
    {
      match out {
        case Unsettled =>
          result := Pending;
        case Rejected(f) =>
          result := RejectedWith(RejectPayload(f, "Login failed"));
        case Resolved(reply) =>
          var user := Member(reply.data, "user");
          if user.None? {
            return RejectedWith(Str("Login failed"));
          }
          var tokens := Member(reply.data, "tokens").value;
          var access := Member(tokens, "access");
          if access.None? {
            return RejectedWith(Str("Login failed"));
          }
          store := store[AccessToken := ToString(access.value)];
          store := store[RefreshToken := ToString(Member(tokens, "refresh").value)];
          result := Fulfilled(user.value);
      }
    }

    /** The `register` thunk: both tokens are removed before the POST is issued. */
    method Register(userData: Value) returns (result: ThunkResult)
      modifies this
      ensures (State(), result) == RegisterCall(old(State()), userData, pathname, guard)
    {
      store := store - {AccessToken, RefreshToken};
      result := Call(RegisterRequest(userData), "Registration failed");
    }

    /**
     * A thunk that returns `response.data` or rejects with `error.response?.data || fallback`:
     * `getCurrentUser`, `updateProfile`, `changePassword`.
     */
    method Call(req: Request, fallback: string) returns (result: ThunkResult)
      modifies this
      ensures var (w, out) := Axios(old(State()), req, pathname, guard);
              State() == w && result == Settle(out, fallback)
    {
      var out := Send(req);
      result := Settle(out, fallback);
    }

    /** The token effect of the `logout` reducer: purely local, no transmission. */
    method ClearTokens()
      modifies this
      ensures store == old(store) - {AccessToken, RefreshToken}
      ensures network == old(network) && sent == old(sent) && redirects == old(redirects)
    {
      store := store - {AccessToken};
      store := store - {RefreshToken};
    }
  }
}
