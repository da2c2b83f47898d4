/**
 * The users app's views: registration, the login decision table, password change and reset,
 * e-mail verification and the admin permission. Password hashing and checking, token issuing
 * and mail sending are passed in as functions.
 */
module UserViews {
  import opened Wrappers
  import opened Accounts

  /** The JSON bodies the views answer with. */
  datatype Body =
    | Error(error: string)
    | LoggedIn(user: User, refresh: string, access: string)
    | Registered(user: User, message: string)
    | Message(message: string)
    | FieldError(field: string, detail: string)
    | ServerError

  datatype Response = Response(status: int, body: Body)

  const REGISTERED := "User registered successfully. Please login to continue."
  const MISSING_CREDENTIALS := "Email and password are required."
  const INVALID_CREDENTIALS := "Invalid credentials."
  const DISABLED := "User account is disabled."
  const RESET_SENT := "Password reset email sent."

  /** `RegisterView.create` once the serializer has saved `user`. */
  function Register(user: User): (r: Response)
    ensures r.status == 201 && !r.body.LoggedIn?
  {
    Response(201, Registered(user, REGISTERED))
  }

  /** Registration answers with the saved user and a message, and issues no tokens. */
  lemma RegisterIssuesNoTokens(user: User)
    ensures Register(user).body == Registered(user, REGISTERED)
    ensures Register(user).body.user == user
  {
  }

  /** `User.objects.get(email=email)`; e-mail addresses are unique. */
  function FindByEmail(users: seq<User>, email: string): (r: Option<User>)
    ensures r.Some? ==> r.value in users && r.value.email == email
    ensures r.None? ==> forall u :: u in users ==> u.email != email
    decreases |users|
  {
    if users == [] then None
    else if users[0].email == email then Some(users[0])
    else FindByEmail(users[1..], email)
  }

  /** A field of the request that is absent or empty, which `not` treats alike. */
  predicate Blank(field: Option<string>) {
    field.None? || field.value == ""
  }

  /**
   * `LoginView.post`. `checkPassword(u, p)` is `u.check_password(p)`, and `issue(u)` is the
   * refresh and access token pair of `RefreshToken.for_user(u)`.
   */
  function Login(users: seq<User>, email: Option<string>, password: Option<string>,
                 checkPassword: (User, string) -> bool, issue: User -> (string, string)): Response
  {
    if Blank(email) || Blank(password) then Response(400, Error(MISSING_CREDENTIALS))
    else
      match FindByEmail(users, email.value)
      case None => Response(401, Error(INVALID_CREDENTIALS))
      case Some(user) =>
        if !checkPassword(user, password.value) then Response(401, Error(INVALID_CREDENTIALS))
        else if !user.isActive then Response(400, Error(DISABLED))
        else Response(200, LoggedIn(user, issue(user).0, issue(user).1))
  }

  /** Without both an e-mail and a password the answer is the 400 that asks for them. */
  lemma LoginNeedsBothFields(users: seq<User>, email: Option<string>, password: Option<string>,
                             checkPassword: (User, string) -> bool, issue: User -> (string, string))
    requires Blank(email) || Blank(password)
    ensures Login(users, email, password, checkPassword, issue) == Response(400, Error(MISSING_CREDENTIALS))
  {
  }

  /** An unknown e-mail and a wrong password get the same 401, so neither reveals which it was. */
  lemma LoginFailuresAlike(users: seq<User>, unknown: string, known: User, wrong: string, password: string,
                           checkPassword: (User, string) -> bool, issue: User -> (string, string))
    requires unknown != "" && password != "" && wrong != "" && known.email != ""
    requires forall u :: u in users ==> u.email != unknown
    requires FindByEmail(users, known.email) == Some(known) && !checkPassword(known, wrong)
    ensures Login(users, Some(unknown), Some(password), checkPassword, issue)
            == Login(users, Some(known.email), Some(wrong), checkPassword, issue)
            == Response(401, Error(INVALID_CREDENTIALS))
  {
    assert FindByEmail(users, unknown).None?;
  }

  /**
   * The login decision table: tokens are issued, with the found user and both tokens, exactly
   * when both fields are given, the account exists, the password checks and the account is
   * active; a disabled account with the right password gets the 400 and no tokens.
   */
  lemma LoginDecision(users: seq<User>, email: Option<string>, password: Option<string>,
                      checkPassword: (User, string) -> bool, issue: User -> (string, string))
    ensures var r := Login(users, email, password, checkPassword, issue);
            (r.status == 200 <==>
               !Blank(email) && !Blank(password) && FindByEmail(users, email.value).Some?
               && checkPassword(FindByEmail(users, email.value).value, password.value)
               && FindByEmail(users, email.value).value.isActive)
            && (r.status == 200 ==>
                  var user := FindByEmail(users, email.value).value;
                  r.body == LoggedIn(user, issue(user).0, issue(user).1) && user.email == email.value)
            && (r.body.LoggedIn? <==> r.status == 200)
            && r.status in {200, 400, 401}
    ensures !Blank(email) && !Blank(password) && FindByEmail(users, email.value).Some?
            && checkPassword(FindByEmail(users, email.value).value, password.value)
            && !FindByEmail(users, email.value).value.isActive ==>
              Login(users, email, password, checkPassword, issue) == Response(400, Error(DISABLED))
  {
  }

  /** The account behind `request.user`, with its stored password hash. */
  class Account {
    var user: User
    var passwordHash: string

    constructor (user: User, passwordHash: string)
      ensures this.user == user && this.passwordHash == passwordHash
    {
      this.user := user;
      this.passwordHash := passwordHash;
    }

    /**
     * `ChangePasswordView.post` on validated data. `checkPassword(h, p)` says whether `p` matches
     * hash `h`, and `hashOf` is what `set_password` stores.
     */
    method ChangePassword(oldPassword: string, newPassword: string,
                          checkPassword: (string, string) -> bool, hashOf: string -> string)
      returns (r: Response)
      modifies this
      ensures user == old(user)
      ensures !checkPassword(old(passwordHash), oldPassword) ==>
                r == Response(400, FieldError("old_password", "Wrong password.")) && passwordHash == old(passwordHash)
      ensures checkPassword(old(passwordHash), oldPassword) ==>
                r == Response(200, Message("Password changed successfully.")) && passwordHash == hashOf(newPassword)
    {
      if !checkPassword(passwordHash, oldPassword) {
        return Response(400, FieldError("old_password", "Wrong password."));
      }
      passwordHash := hashOf(newPassword);
      return Response(200, Message("Password changed successfully."));
    }

    /** `verify_email`: marks the user verified and changes nothing else. */
    method VerifyEmail() returns (r: Response)
      modifies this
      ensures user == old(user).(isVerified := true)
      ensures passwordHash == old(passwordHash)
      ensures r == Response(200, Message("Email verified successfully."))
    {
      user := user.(isVerified := true);
      return Response(200, Message("Email verified successfully."));
    }
  }

  /** The mail `password_reset` hands to `send_mail`: the recipient and the reset link. */
  datatype Mail = Mail(recipient: string, link: string)

  /**
   * `password_reset` on a validated e-mail. `resetLink(u)` is the link built from `u`'s uid and
   * token, and `delivered(m)` says whether `send_mail` returns for `m`. It sends with
   * `fail_silently=False`, and the view catches only `User.DoesNotExist`, so a failed send
   * escapes the view as a 500. The mail is the one handed to `send_mail`, delivered or not.
   */
  function PasswordReset(users: seq<User>, email: string, resetLink: User -> string,
                         delivered: Mail -> bool): (Response, Option<Mail>) {
    match FindByEmail(users, email)
    case Some(user) =>
      var mail := Mail(email, resetLink(user));
      if delivered(mail) then (Response(200, Message(RESET_SENT)), Some(mail))
      else (Response(500, ServerError), Some(mail))
    case None => (Response(200, Message(RESET_SENT)), None)
  }

  /**
   * While mail delivery succeeds, the answer is the same whether or not the address is
   * registered; a mail is sent, to that address, exactly when it is.
   */
  lemma PasswordResetUniform(users: seq<User>, email: string, other: string, resetLink: User -> string,
                             delivered: Mail -> bool)
    requires forall m :: delivered(m)
    ensures PasswordReset(users, email, resetLink, delivered).0 == PasswordReset(users, other, resetLink, delivered).0
    ensures PasswordReset(users, email, resetLink, delivered).0 == Response(200, Message(RESET_SENT))
    ensures PasswordReset(users, email, resetLink, delivered).1.Some? <==> exists u :: u in users && u.email == email
    ensures PasswordReset(users, email, resetLink, delivered).1.Some? ==>
              PasswordReset(users, email, resetLink, delivered).1.value.recipient == email
  {
    if FindByEmail(users, email).Some? {
      assert FindByEmail(users, email).value in users;
    }
  }

  /**
   * A failed send is a 500, and only a registered address can get one: an unknown address is
   * always answered with the 200, so a failing mail server tells the two apart.
   */
  lemma PasswordResetFailureReveals(users: seq<User>, email: string, resetLink: User -> string,
                                    delivered: Mail -> bool)
    ensures PasswordReset(users, email, resetLink, delivered).0.status == 500 <==>
              FindByEmail(users, email).Some? && !delivered(Mail(email, resetLink(FindByEmail(users, email).value)))
    ensures (forall u :: u in users ==> u.email != email) ==>
              PasswordReset(users, email, resetLink, delivered) == (Response(200, Message(RESET_SENT)), None)
    ensures PasswordReset(users, email, resetLink, delivered).0.status in {200, 500}
  {
  }

  /** `IsAdminUser.has_permission`; `request.user` is always present, anonymous or not. */
  predicate IsAdminUser(user: User) {
    user.authenticated && user.userType == "admin"
  }

  /** Admins only: no anonymous user and no user of another type. */
  lemma IsAdminUserCases(user: User)
    ensures !user.authenticated ==> !IsAdminUser(user)
    ensures user.userType != "admin" ==> !IsAdminUser(user)
  {
  }
}
