/**
 * The `auth` slice of the Redux store: the `{user, isAuthenticated, loading, error}` record and
 * how each lifecycle action of the five auth thunks, `logout` and `clearError` move it.
 */
module AuthState {
  import opened Js
  import AuthSession

  datatype AuthRecord = AuthRecord(user: Value, isAuthenticated: bool, loading: bool, error: Value)

  /** The slice's `initialState`. */
  const INITIAL := AuthRecord(Null, false, false, Null)

  /** The five `createAsyncThunk` actions whose lifecycle the slice handles. */
  datatype Thunk = Login | Register | GetCurrentUser | UpdateProfile | ChangePassword

  datatype Action =
    | Pending(thunk: Thunk)
    | Fulfilled(thunk: Thunk, payload: Value)
    | Rejected(thunk: Thunk, payload: Value)
    | Logout
    | ClearError

  /** The reducer: the slice's `reducers` and `extraReducers` over the auth record. */
  function Next(s: AuthRecord, a: Action): AuthRecord {
    match a
    case Logout => s.(user := Null, isAuthenticated := false, error := Null)
    case ClearError => s.(error := Null)
    case Pending(t) =>
      if t == GetCurrentUser then s.(loading := true) else s.(loading := true, error := Null)
    case Fulfilled(t, p) =>
      (match t
       case Login => s.(loading := false, user := p, isAuthenticated := true)
       case GetCurrentUser => s.(loading := false, user := p, isAuthenticated := true)
       case UpdateProfile => s.(loading := false, user := p)
       case Register => s.(loading := false)
       case ChangePassword => s.(loading := false))
    case Rejected(t, p) =>
      match t
      case Login => s.(loading := false, error := p, isAuthenticated := false)
      case GetCurrentUser => s.(loading := false, isAuthenticated := false, user := Null)
      case _ => s.(loading := false, error := p)
  }

  /** The record a sequence of dispatches leads to. */
  function Run(s: AuthRecord, actions: seq<Action>): AuthRecord
    decreases |actions|
  {
    if actions == [] then s else Run(Next(s, actions[0]), actions[1..])
  }

  /** The slice as the store holds it, updated field by field as the reducers do. */
  class AuthStore {
    var user: Value
    var isAuthenticated: bool
    var loading: bool
    var error: Value

    function Record(): AuthRecord
      reads this
    {
      AuthRecord(user, isAuthenticated, loading, error)
    }

    constructor ()
      ensures Record() == INITIAL
    {
      user := Null;
      isAuthenticated := false;
      loading := false;
      error := Null;
    }

    /** Dispatch one action that is not `logout` (which also needs the token store). */
    method Dispatch(a: Action)
      requires !a.Logout?
      modifies this
      ensures Record() == Next(old(Record()), a)
    {
      match a {
        case ClearError =>
          error := Null;
        case Pending(t) =>
          loading := true;
          if t != GetCurrentUser {
            error := Null;
          }
        case Fulfilled(t, p) =>
          loading := false;
          if t == Login || t == GetCurrentUser || t == UpdateProfile {
            user := p;
          }
          if t == Login || t == GetCurrentUser {
            isAuthenticated := true;
          }
        case Rejected(t, p) =>
          loading := false;
          if t == GetCurrentUser {
            isAuthenticated := false;
            user := Null;
          } else {
            error := p;
            if t == Login {
              isAuthenticated := false;
            }
          }
      }
    }

    /** `logout`: remove both tokens from the session's store, then reset the user fields. */
    method DispatchLogout(session: AuthSession.Session)
      modifies this, session
      ensures Record() == Next(old(Record()), Logout)
      ensures session.store == old(session.store) - {AuthSession.AccessToken, AuthSession.RefreshToken}
      ensures session.network == old(session.network) && session.sent == old(session.sent)
      ensures session.redirects == old(session.redirects)
    {
      session.ClearTokens();
      user := Null;
      isAuthenticated := false;
      error := Null;
    }

    /**
     * Dispatch a sequence of actions; each `logout` also clears the session's tokens, so the
     * tokens are gone exactly when the sequence holds a `logout`.
     */
    method DispatchAll(actions: seq<Action>, session: AuthSession.Session)
      modifies this, session
      ensures Record() == Run(old(Record()), actions)
      ensures session.store == if Logout in actions then old(session.store) - {AuthSession.AccessToken, AuthSession.RefreshToken}
                               else old(session.store)
      ensures session.network == old(session.network) && session.sent == old(session.sent)
      ensures session.redirects == old(session.redirects)
    {
      var i := 0;
      while i < |actions|
        invariant 0 <= i <= |actions|
        invariant Run(old(Record()), actions) == Run(Record(), actions[i..])
        invariant session.store == if Logout in actions[..i] then old(session.store) - {AuthSession.AccessToken, AuthSession.RefreshToken}
                                   else old(session.store)
        invariant session.network == old(session.network) && session.sent == old(session.sent)
        invariant session.redirects == old(session.redirects)
      {
        assert actions[i..][1..] == actions[i + 1..];
        assert actions[..i + 1] == actions[..i] + [actions[i]];
        if actions[i].Logout? {
          DispatchLogout(session);
        } else {
          Dispatch(actions[i]);
        }
        i := i + 1;
      }
      assert actions[..i] == actions;
    }
  }

  /** Every `pending` except `getCurrentUser`'s sets loading and clears the error, nothing else. */
  lemma PendingClearsError(s: AuthRecord, t: Thunk)
    ensures var r := Next(s, Pending(t));
            r.loading && r.user == s.user && r.isAuthenticated == s.isAuthenticated
            && (t != GetCurrentUser ==> r.error == Null)
            && (t == GetCurrentUser ==> r.error == s.error)
  {
  }

  /** Every `fulfilled` or `rejected` ends loading. */
  lemma SettledStopsLoading(s: AuthRecord, a: Action)
    requires a.Fulfilled? || a.Rejected?
    ensures !Next(s, a).loading
  {
  }

  /** A failed login leaves the user unauthenticated with the rejection payload as error. */
  lemma LoginRejectedUnauthenticates(s: AuthRecord, p: Value)
    ensures var r := Next(s, Rejected(Login, p));
            !r.isAuthenticated && r.error == p && !r.loading && r.user == s.user
  {
  }

  /** A failed `getCurrentUser` clears the user and authentication but keeps the error. */
  lemma CurrentUserRejectedKeepsError(s: AuthRecord, p: Value)
    ensures var r := Next(s, Rejected(GetCurrentUser, p));
            r.user == Null && !r.isAuthenticated && r.error == s.error && !r.loading
  {
  }

  /** `logout` clears user, authentication and error, and keeps `loading`. */
  lemma LogoutResets(s: AuthRecord)
    ensures Next(s, Logout) == AuthRecord(Null, false, s.loading, Null)
  {
  }

  /** `clearError` changes only the error, and twice is once. */
  lemma ClearErrorOnlyError(s: AuthRecord)
    ensures Next(s, ClearError) == s.(error := Null)
    ensures Next(Next(s, ClearError), ClearError) == Next(s, ClearError)
  {
  }

  /** Only a fulfilled `login` or `getCurrentUser` can make an unauthenticated user authenticated. */
  lemma AuthenticatedOnlyByFulfilment(s: AuthRecord, a: Action)
    requires !s.isAuthenticated && Next(s, a).isAuthenticated
    ensures a.Fulfilled? && (a.thunk == Login || a.thunk == GetCurrentUser)
  {
  }

  /** The user is replaced only by the fulfilled payload of `login`, `getCurrentUser` or `updateProfile`, or cleared. */
  lemma UserChangesOnlyByPayloadOrClear(s: AuthRecord, a: Action)
    requires Next(s, a).user != s.user
    ensures Next(s, a).user == Null
            || (a.Fulfilled? && a.thunk != Register && a.thunk != ChangePassword && Next(s, a).user == a.payload)
  {
  }

  /**
   * Starting from the initial state, any run that never fulfils `login` or `getCurrentUser`
   * stays unauthenticated.
   */
  lemma {:induction false} NeverAuthenticatedWithoutFulfilment(s: AuthRecord, actions: seq<Action>)
    requires !s.isAuthenticated
    requires forall i :: 0 <= i < |actions| ==>
               !(actions[i].Fulfilled? && (actions[i].thunk == Login || actions[i].thunk == GetCurrentUser))
    ensures !Run(s, actions).isAuthenticated
    decreases |actions|
  {
    if actions != [] {
      if Next(s, actions[0]).isAuthenticated {
        AuthenticatedOnlyByFulfilment(s, actions[0]);
      }
      NeverAuthenticatedWithoutFulfilment(Next(s, actions[0]), actions[1..]);
    }
  }
}
