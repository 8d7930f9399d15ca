/** controllers/authController.js: the session middleware (`protect`,
    `isLoggedIn`, `restrictTo`), the credential checks of `logIn` and `signUp`,
    and the password-reset token lifecycle. Signing and verifying tokens,
    hashing and the user schema are oracles handed in by the caller. */
module AuthController {
  import opened Js
  import opened Errors
  import opened UserModel
  import opened Http

  /** The payload of a verified session token (RFC 7519 `iat` is in seconds). */
  datatype Claims = Claims(id: string, iat: int)

  /** What `jwt.verify(token, secret)` yields at the current time. */
  datatype Verification = Verified(claims: Claims) | Malformed | Expired

  /** The collaborators the controller calls but does not define. */
  datatype Oracles = Oracles(
    /** `jwt.verify` with the server secret, at the current time */
    verify: string -> Verification,
    /** `signToken(id)` */
    sign: string -> string,
    /** `crypto.createHash('sha256').update(x).digest('hex')` */
    sha256Hex: string -> string,
    /** `user.correctPassword(candidate, storedHash)` */
    correctPassword: (string, string) -> bool,
    /** `user.changedPasswordAfter(iat)` */
    changedPasswordAfter: (UserRecord, int) -> bool,
    /** the user schema's validators, run by a validating `save()` or `create()` */
    validUser: UserRecord -> bool)

  const NotLoggedIn := "You are not logged in! Please log in to get access."
  const UserGone := "The user belonging to this token does no longer exist."
  const PasswordChanged := "User recently changed password! Please log in again."
  const NoPermission := "You do not have permission to perform this action"
  const MissingCredentials := "Please provide email and password"
  const BadCredentials := "Incorrect email or password"
  const NoUserWithEmail := "There is no user with email address."
  const EmailFailed := "There was an error sending the email. Try again later!"
  const TokenSent := "Token sent to email!"
  const InvalidResetToken := "Token is invalid or has expired"
  const ResetDone := "password reset sucessfully"
  const UserNotFound := "User not found"
  const IncorrectPassword := "Password entered is Incorrect"
  const PasswordUpdated := "Password updated successfully"

  // ---------------------------------------------------------------------------
  // Issuing a session

  /** The JSON body and `jwt` cookie that `createSendToken` sends. */
  datatype SentToken = SentToken(statusCode: int, message: string, token: string, cookieJwt: string, user: UserRecord)

  /** `createSendToken`: signs a token for the user, sets it as the `jwt`
      cookie and returns the user with its password removed. */
  function CreateSendToken(u: UserRecord, statusCode: int, message: string, o: Oracles): (r: SentToken)
    ensures r.user.password == None
    ensures r.user.(password := u.password) == u
    ensures r.token == r.cookieJwt == o.sign(u.id)
    ensures r.statusCode == statusCode
  {
    SentToken(statusCode, message, o.sign(u.id), o.sign(u.id), u.(password := None))
  }

  /** The role names of the user schema's enum. */
  function RoleNamed(name: string): (r: Option<Role>)
    ensures r == Some(User) <==> name == "user"
    ensures r == Some(Guide) <==> name == "guide"
    ensures r == Some(LeadGuide) <==> name == "lead-guide"
    ensures r == Some(Admin) <==> name == "admin"
  {
    if name == "user" then Some(User)
    else if name == "guide" then Some(Guide)
    else if name == "lead-guide" then Some(LeadGuide)
    else if name == "admin" then Some(Admin)
    else None
  }

  /** `signUp`: creates a user from exactly the body's name, email, password,
      confirmPassword and role (an absent role takes the schema default `user`)
      and sends a session for it. `newId` is the fresh identifier the store
      assigns, so afterwards `findById(newId)` finds the new user. */
  function SignUpEffect(users: seq<UserRecord>, newId: string, name: Option<string>, email: Option<string>,
                        password: Option<string>, confirmPassword: Option<string>, role: Option<string>,
                        o: Oracles): (e: Effect<seq<UserRecord>, SentToken>)
    requires FindById(users, newId).None?
    ensures e.reply.Err? ==> e.store == users && e.reply.error == ValidationError
    ensures e.reply.Ok? ==> |e.store| == |users| + 1 && e.store[..|users|] == users
    ensures e.reply.Ok? ==> FindById(e.store, newId) == Some(|users|)
    ensures e.reply.Ok? ==> var u := e.store[|users|];
      && u.id == newId && u.name == name && u.email == email && u.password == password
      && (role.Some? ==> RoleNamed(role.value) == Some(u.role))
      && (role.None? ==> u.role == User)
      && u.passwordResetToken.None? && u.active
      && e.reply.value.user == u.(password := None)
  {
    var r := if role.None? then Some(User) else RoleNamed(role.value);
    if r.None? then Effect(users, Err(ValidationError))
    else
      var u := UserRecord(newId, name, email, password, confirmPassword, r.value, None, None, true);
      if !o.validUser(u) then Effect(users, Err(ValidationError))
      else
        NewIdFindsAppended(users, u);
        Effect(users + [u], Ok(CreateSendToken(u, 200, "success", o)))
  }

  /** A record appended under an id no stored record has is the one
      `findById` finds. */
  lemma NewIdFindsAppended(users: seq<UserRecord>, u: UserRecord)
    requires FindById(users, u.id).None?
    ensures FindById(users + [u], u.id) == Some(|users|)
  {
    assert (users + [u])[|users|].id == u.id;
  }

  /** `signUp` as the controller runs it: `User.create` appends the validated
      record, then the session is sent. */
  method SignUp(store: UserStore, newId: string, name: Option<string>, email: Option<string>,
                password: Option<string>, confirmPassword: Option<string>, role: Option<string>, o: Oracles)
    returns (reply: Result<SentToken>)
    requires FindById(store.users, newId).None?
    modifies store
    ensures Effect(store.users, reply) == SignUpEffect(old(store.users), newId, name, email, password, confirmPassword, role, o)
  {
    var r := if role.None? then Some(User) else RoleNamed(role.value);
    if r.None? {
      return Err(ValidationError);
    }
    var u := UserRecord(newId, name, email, password, confirmPassword, r.value, None, None, true);
    if !o.validUser(u) {
      return Err(ValidationError);
    }
    store.users := store.users + [u];
    reply := Ok(CreateSendToken(u, 200, "success", o));
  }

  /** Whoever signs up chooses their own role, `admin` included, as long as
      the schema's validators accept the record. */
  lemma SignUpGrantsRequestedRole(users: seq<UserRecord>, newId: string, name: Option<string>, email: Option<string>,
                                  password: Option<string>, confirmPassword: Option<string>, o: Oracles)
    requires FindById(users, newId).None?
    requires o.validUser(UserRecord(newId, name, email, password, confirmPassword, Admin, None, None, true))
    ensures var e := SignUpEffect(users, newId, name, email, password, confirmPassword, Some("admin"), o);
      e.reply.Ok? && e.store[|users|].role == Admin
  {
  }

  /** `logout`: overwrites the `jwt` cookie with the empty string. */
  function LogoutCookie(): (cookieJwt: string)
    ensures !Present(Some(cookieJwt))
  {
    ""
  }

  // ---------------------------------------------------------------------------
  // Finding the token

  /** The token `protect` looks at: the second space-separated word of an
      Authorization header that starts with `Bearer`, otherwise a non-empty
      `jwt` cookie. */
  function ExtractToken(authorization: Option<string>, cookieJwt: Option<string>): (token: Option<string>)
    ensures token.Some? && authorization.Some? && StartsWith(authorization.value, "Bearer") ==> ' ' !in token.value
  {
    if authorization.Some? && StartsWith(authorization.value, "Bearer") then
      var words := Split(authorization.value, ' ');
      if |words| > 1 then Some(words[1]) else None
    else if Present(cookieJwt) then cookieJwt
    else None
  }

  /** A header of the form `Bearer <token>` (section 2.1 of RFC 6750) yields
      exactly its token, whatever the cookie holds. */
  lemma BearerHeaderYieldsToken(token: string, cookieJwt: Option<string>)
    requires ' ' !in token
    ensures ExtractToken(Some("Bearer " + token), cookieJwt) == Some(token)
  {
    var h := "Bearer " + token;
    assert h == Join(["Bearer", token], ' ');
    SplitJoin(["Bearer", token], ' ');
    assert StartsWith(h, "Bearer");
  }

  /** A header that starts with `Bearer` decides the token alone: the cookie is
      not consulted, even when the header carries no second word. */
  lemma BearerHeaderTakesPrecedence(authorization: string, c1: Option<string>, c2: Option<string>)
    requires StartsWith(authorization, "Bearer")
    ensures ExtractToken(Some(authorization), c1) == ExtractToken(Some(authorization), c2)
  {
  }

  /** Without a `Bearer` header the token is the `jwt` cookie when it is non-empty. */
  lemma CookieIsTheFallback(authorization: Option<string>, cookieJwt: Option<string>)
    requires authorization.None? || !StartsWith(authorization.value, "Bearer")
    ensures ExtractToken(authorization, cookieJwt) == (if Present(cookieJwt) then cookieJwt else None)
  {
  }

  // ---------------------------------------------------------------------------
  // protect, isLoggedIn, restrictTo

  /** The decision `protect` takes on a token. */
  function Authenticate(token: Option<string>, o: Oracles, users: seq<UserRecord>): (r: Result<UserRecord>)
    ensures r.Ok? <==>
      && Present(token)
      && o.verify(token.value).Verified?
      && FindById(users, o.verify(token.value).claims.id).Some?
      && !o.changedPasswordAfter(users[FindById(users, o.verify(token.value).claims.id).value],
                                 o.verify(token.value).claims.iat)
    ensures r.Ok? ==> r.value in users && r.value.id == o.verify(token.value).claims.id
    ensures !Present(token) ==> r == Err(AppError(NotLoggedIn, Some(401)))
    ensures r.Err? && r.error.AppError? ==> r.error.statusCode == Some(401)
  {
    if !Present(token) then Err(AppError(NotLoggedIn, Some(401)))
    else match o.verify(token.value)
      case Malformed => Err(JwtError("JsonWebTokenError"))
      case Expired => Err(JwtError("TokenExpiredError"))
      case Verified(c) =>
        match FindById(users, c.id)
        case None => Err(AppError(UserGone, Some(401)))
        case Some(i) =>
          if o.changedPasswordAfter(users[i], c.iat) then Err(AppError(PasswordChanged, Some(401)))
          else Ok(users[i])
  }

  /** A token issued before its user's password changed is refused with 401,
      even while the token itself has not expired. */
  lemma StaleTokenIsRefused(token: string, o: Oracles, users: seq<UserRecord>)
    requires token != ""
    requires o.verify(token).Verified?
    requires FindById(users, o.verify(token).claims.id).Some?
    requires o.changedPasswordAfter(users[FindById(users, o.verify(token).claims.id).value], o.verify(token).claims.iat)
    ensures Authenticate(Some(token), o, users) == Err(AppError(PasswordChanged, Some(401)))
  {
  }

  /** `protect`: on success attaches the user to `req.user` and
      `res.locals.user` and calls `next()`; on failure calls `next(err)` and
      attaches nobody. */
  method Protect(ex: Exchange, o: Oracles, users: seq<UserRecord>) returns (err: Option<Failure>)
    modifies ex`reqUser, ex`localsUser
    ensures var r := Authenticate(ExtractToken(ex.authorization, ex.cookieJwt), o, users);
      && (r.Ok? ==> err == None && ex.reqUser == Some(r.value) && ex.localsUser == Some(r.value))
      && (r.Err? ==> err == Some(r.error) && ex.reqUser == old(ex.reqUser) && ex.localsUser == old(ex.localsUser))
  {
    var token := ExtractToken(ex.authorization, ex.cookieJwt);
    if !Present(token) {
      return Some(AppError(NotLoggedIn, Some(401)));
    }
    var decoded := o.verify(token.value);
    if decoded.Malformed? {
      return Some(JwtError("JsonWebTokenError"));
    } else if decoded.Expired? {
      return Some(JwtError("TokenExpiredError"));
    }
    var found := FindById(users, decoded.claims.id);
    if found.None? {
      return Some(AppError(UserGone, Some(401)));
    }
    var currentUser := users[found.value];
    if o.changedPasswordAfter(currentUser, decoded.claims.iat) {
      return Some(AppError(PasswordChanged, Some(401)));
    }
    ex.reqUser := Some(currentUser);
    ex.localsUser := Some(currentUser);
    err := None;
  }

  /** The decision `isLoggedIn` takes: the user the `jwt` cookie stands for, if
      the cookie verifies, its user exists and the password is unchanged. */
  function CookieUser(cookieJwt: Option<string>, o: Oracles, users: seq<UserRecord>): (r: Option<UserRecord>)
    ensures r.Some? ==> Present(cookieJwt) && r.value in users
  {
    if !Present(cookieJwt) then None
    else match o.verify(cookieJwt.value)
      case Verified(c) =>
        (match FindById(users, c.id)
         case None => None
         case Some(i) => if o.changedPasswordAfter(users[i], c.iat) then None else Some(users[i]))
      case _ => None
  }

  /** `isLoggedIn` recognises exactly the sessions `protect` accepts from the
      cookie alone. */
  lemma CookieUserAgreesWithProtect(cookieJwt: Option<string>, o: Oracles, users: seq<UserRecord>)
    ensures var r := Authenticate(ExtractToken(None, cookieJwt), o, users);
      CookieUser(cookieJwt, o, users) == (if r.Ok? then Some(r.value) else None)
  {
  }

  /** After `logout` the browser's cookie holds no session: without a `Bearer`
      header `protect` refuses the request with 401, and `isLoggedIn`
      recognises nobody. */
  lemma LoggedOutCookieIsNoSession(authorization: Option<string>, o: Oracles, users: seq<UserRecord>)
    requires authorization.None? || !StartsWith(authorization.value, "Bearer")
    ensures Authenticate(ExtractToken(authorization, Some(LogoutCookie())), o, users) == Err(AppError(NotLoggedIn, Some(401)))
    ensures CookieUser(Some(LogoutCookie()), o, users).None?
  {
  }

  /** `isLoggedIn`: never fails; sets `res.locals.user` only for a good cookie,
      ignores the Authorization header and never sets `req.user`. */
  method IsLoggedIn(ex: Exchange, o: Oracles, users: seq<UserRecord>)
    modifies ex`localsUser
    ensures var u := CookieUser(ex.cookieJwt, o, users);
      ex.localsUser == (if u.Some? then u else old(ex.localsUser))
  {
    if Present(ex.cookieJwt) {
      var decoded := o.verify(ex.cookieJwt.value);
      if !decoded.Verified? {
        return;
      }
      var found := FindById(users, decoded.claims.id);
      if found.None? {
        return;
      }
      if o.changedPasswordAfter(users[found.value], decoded.claims.iat) {
        return;
      }
      ex.localsUser := Some(users[found.value]);
    }
  }

  /** `restrictTo(...roles)`: passes exactly when the attached user's role is
      one of `roles`; a user who is attached but not allowed gets 403. With no
      user attached, reading `req.user.role` throws. */
  function RestrictTo(roles: seq<Role>, reqUser: Option<UserRecord>): (r: Option<Failure>)
    ensures r.None? <==> reqUser.Some? && reqUser.value.role in roles
    ensures reqUser.Some? && r.Some? ==> r == Some(AppError(NoPermission, Some(403)))
    ensures reqUser.None? ==> r == Some(ScriptError("TypeError"))
  {
    if reqUser.None? then Some(ScriptError("TypeError"))
    else if reqUser.value.role !in roles then Some(AppError(NoPermission, Some(403)))
    else None
  }

  // ---------------------------------------------------------------------------
  // logIn

  /** The stored user for an email, if its password matches the candidate. */
  predicate Authentic(users: seq<UserRecord>, email: string, password: string, o: Oracles) {
    var found := FindByEmail(users, Some(email));
    found.Some? && users[found.value].password.Some?
      && o.correctPassword(password, users[found.value].password.value)
  }

  /** The user stored under a given email has no password hash. */
  predicate StoredHashMissing(users: seq<UserRecord>, email: Option<string>) {
    FindByEmail(users, email).Some? && users[FindByEmail(users, email).value].password.None?
  }

  /** `logIn`: 400 unless both email and password are given; then one and the
      same 401 for an unknown email and for a wrong password; otherwise a
      session for that user, without its password. A found user without a
      stored hash makes `correctPassword` throw, as in `updatePassword`. */
  function LogIn(email: Option<string>, password: Option<string>, o: Oracles, users: seq<UserRecord>): (r: Result<SentToken>)
    ensures !Present(email) || !Present(password) ==> r == Err(AppError(MissingCredentials, Some(400)))
    ensures r.Ok? <==> Present(email) && Present(password) && Authentic(users, email.value, password.value, o)
    ensures Present(email) && Present(password) && StoredHashMissing(users, email) ==> r == Err(ScriptError("Error"))
    ensures r.Err? && Present(email) && Present(password) && !StoredHashMissing(users, email) ==>
      r == Err(AppError(BadCredentials, Some(401)))
    ensures r.Ok? ==> r.value.user.email == email && r.value.user.password == None && r.value.statusCode == 200
  {
    if !Present(email) || !Present(password) then Err(AppError(MissingCredentials, Some(400)))
    else
      var found := FindByEmail(users, email);
      if StoredHashMissing(users, email) then Err(ScriptError("Error"))
      else if found.None? || !o.correctPassword(password.value, users[found.value].password.value)
      then Err(AppError(BadCredentials, Some(401)))
      else Ok(CreateSendToken(users[found.value], 200, "Success", o))
  }

  /** An unknown email and a known email with a wrong password cannot be told
      apart from the reply. */
  lemma UnknownUserLooksLikeWrongPassword(users: seq<UserRecord>, unknown: string, known: string,
                                          wrong: string, o: Oracles)
    requires unknown != "" && known != "" && wrong != ""
    requires forall j :: 0 <= j < |users| ==> users[j].email != Some(unknown)
    requires var f := FindByEmail(users, Some(known));
      f.Some? && users[f.value].password.Some? && !o.correctPassword(wrong, users[f.value].password.value)
    ensures LogIn(Some(unknown), Some(wrong), o, users) == LogIn(Some(known), Some(wrong), o, users)
  {
  }

  // ---------------------------------------------------------------------------
  // The password-reset token

  /** What `createPasswordResetToken` stores for a raw token: its digest and expiry. */
  function IssueResetToken(u: UserRecord, raw: string, expires: int, o: Oracles): UserRecord {
    u.(passwordResetToken := Some(o.sha256Hex(raw)), passwordResetExpires := Some(expires))
  }

  function ClearResetToken(u: UserRecord): UserRecord {
    u.(passwordResetToken := None, passwordResetExpires := None)
  }

  /** The query of `resetPassword`: the stored digest matches and the expiry
      is strictly later than now. */
  predicate Redeemable(u: UserRecord, digest: string, now: int) {
    u.passwordResetToken == Some(digest) && u.passwordResetExpires.Some? && u.passwordResetExpires.value > now
  }

  function FindRedeemable(users: seq<UserRecord>, digest: string, now: int): (r: Option<nat>)
    ensures r.Some? ==> r.value < |users| && Redeemable(users[r.value], digest, now)
    ensures r.None? ==> forall j :: 0 <= j < |users| ==> !Redeemable(users[j], digest, now)
  {
    FindFirst(users, (u: UserRecord) => Redeemable(u, digest, now))
  }

  /** `forgotPassword` on the user collection. `raw` and `expires` are what
      `createPasswordResetToken` draws; `emailSent` is whether `sendEmail`
      succeeded. An unknown email changes nothing; otherwise that user alone
      gets the digest and expiry, which a failed email rolls back to
      undefined. The 500 is handed to `next` beside the error, so the error
      itself carries no status. */
  function ForgotPasswordEffect(users: seq<UserRecord>, email: Option<string>, raw: string, expires: int,
                                emailSent: bool, o: Oracles): (e: Effect<seq<UserRecord>, string>)
    ensures |e.store| == |users|
    ensures FindByEmail(users, email).None? ==> e == Effect(users, Err(AppError(NoUserWithEmail, Some(404))))
    ensures FindByEmail(users, email).Some? ==>
      var i := FindByEmail(users, email).value;
      && (forall j :: 0 <= j < |users| && j != i ==> e.store[j] == users[j])
      && (emailSent ==> e.store[i] == IssueResetToken(users[i], raw, expires, o) && e.reply == Ok(TokenSent))
      && (!emailSent ==> e.store[i] == ClearResetToken(users[i]) && e.reply == Err(AppError(EmailFailed, None)))
  {
    match FindByEmail(users, email)
    case None => Effect(users, Err(AppError(NoUserWithEmail, Some(404))))
    case Some(i) =>
      var issued := users[i := IssueResetToken(users[i], raw, expires, o)];
      if emailSent then Effect(issued, Ok(TokenSent))
      else Effect(issued[i := ClearResetToken(issued[i])], Err(AppError(EmailFailed, None)))
  }

  /** `forgotPassword` as the controller runs it: store the token, send the
      email, and on failure store the rollback. */
  method ForgotPassword(store: UserStore, email: Option<string>, raw: string, expires: int, emailSent: bool, o: Oracles)
    returns (reply: Result<string>)
    modifies store
    ensures Effect(store.users, reply) == ForgotPasswordEffect(old(store.users), email, raw, expires, emailSent, o)
  {
    var found := FindByEmail(store.users, email);
    if found.None? {
      return Err(AppError(NoUserWithEmail, Some(404)));
    }
    var i := found.value;
    var user1 := IssueResetToken(store.users[i], raw, expires, o);
    store.users := store.users[i := user1];
    if !emailSent {
      user1 := user1.(passwordResetToken := None, passwordResetExpires := None);
      store.users := store.users[i := user1];
      return Err(AppError(EmailFailed, None));
    }
    reply := Ok(TokenSent);
  }

  /** `forgotPassword` replies with success, and so calls `next()` afterwards,
      exactly when the email belongs to a user and the email was sent. */
  lemma ForgotPasswordSucceeds(users: seq<UserRecord>, email: Option<string>, raw: string, expires: int,
                               emailSent: bool, o: Oracles)
    ensures ForgotPasswordEffect(users, email, raw, expires, emailSent, o).reply.Ok?
        <==> FindByEmail(users, email).Some? && emailSent
  {
  }

  /** What `resetPassword` writes into the user it found. */
  function Redeem(u: UserRecord, password: Option<string>, confirmPassword: Option<string>): UserRecord {
    u.(password := password, confirmPassword := confirmPassword, passwordResetToken := None, passwordResetExpires := None)
  }

  /** `resetPassword` on the user collection: hash the raw token, take the
      first user whose digest matches with an expiry after `now`, give it the
      new password and clear both reset fields, then save with validation and
      send a session without the password. */
  function ResetPasswordEffect(users: seq<UserRecord>, raw: string, now: int,
                               password: Option<string>, confirmPassword: Option<string>,
                               o: Oracles): (e: Effect<seq<UserRecord>, SentToken>)
    ensures |e.store| == |users|
    ensures FindRedeemable(users, o.sha256Hex(raw), now).None? ==>
      e == Effect(users, Err(AppError(InvalidResetToken, Some(400))))
    ensures e.reply.Ok? ==>
      var i := FindRedeemable(users, o.sha256Hex(raw), now).value;
      && e.store == users[i := Redeem(users[i], password, confirmPassword)]
      && e.reply.value.user.password == None
      && e.reply.value.user.id == users[i].id
    ensures e.reply.Err? ==> e.store == users
  {
    match FindRedeemable(users, o.sha256Hex(raw), now)
    case None => Effect(users, Err(AppError(InvalidResetToken, Some(400))))
    case Some(i) =>
      var u := Redeem(users[i], password, confirmPassword);
      if !o.validUser(u) then Effect(users, Err(ValidationError))
      else Effect(users[i := u], Ok(CreateSendToken(u, 200, ResetDone, o)))
  }

  /** `resetPassword` as the controller runs it. */
  method ResetPassword(store: UserStore, raw: string, now: int, password: Option<string>,
                       confirmPassword: Option<string>, o: Oracles) returns (reply: Result<SentToken>)
    modifies store
    ensures Effect(store.users, reply) == ResetPasswordEffect(old(store.users), raw, now, password, confirmPassword, o)
  {
    var hashedToken := o.sha256Hex(raw);
    var found := FindRedeemable(store.users, hashedToken, now);
    if found.None? {
      return Err(AppError(InvalidResetToken, Some(400)));
    }
    var user1 := store.users[found.value];
    user1 := user1.(password := password, confirmPassword := confirmPassword);
    user1 := user1.(passwordResetToken := None, passwordResetExpires := None);
    if !o.validUser(user1) {
      return Err(ValidationError);
    }
    store.users := store.users[found.value := user1];
    reply := Ok(CreateSendToken(user1, 200, ResetDone, o));
  }

  /** No two users hold the same reset digest. */
  predicate DigestHeldOnce(users: seq<UserRecord>, digest: string) {
    forall j, k ::
      0 <= j < |users| && 0 <= k < |users| &&
      users[j].passwordResetToken == Some(digest) && users[k].passwordResetToken == Some(digest)
      ==> j == k
  }

  /** A reset token works once: after a successful reset, presenting the same
      raw token again, at any time, is refused with 400. */
  lemma ResetTokenIsSingleUse(users: seq<UserRecord>, raw: string, now: int, later: int,
                              password: Option<string>, confirmPassword: Option<string>,
                              password2: Option<string>, confirmPassword2: Option<string>, o: Oracles)
    requires DigestHeldOnce(users, o.sha256Hex(raw))
    requires ResetPasswordEffect(users, raw, now, password, confirmPassword, o).reply.Ok?
    ensures var after := ResetPasswordEffect(users, raw, now, password, confirmPassword, o).store;
      ResetPasswordEffect(after, raw, later, password2, confirmPassword2, o)
        == Effect(after, Err(AppError(InvalidResetToken, Some(400))))
  {
    var digest := o.sha256Hex(raw);
    var i := FindRedeemable(users, digest, now).value;
    var after := ResetPasswordEffect(users, raw, now, password, confirmPassword, o).store;
    forall j | 0 <= j < |after|
      ensures !Redeemable(after[j], digest, later)
    {
      if j != i {
        assert users[i].passwordResetToken == Some(digest);
        assert after[j] == users[j];
      }
    }
  }

  /** A token whose every holder's expiry is at or before now is refused with
      400 and changes nothing: the expiry comparison is strict. */
  lemma ExpiredResetTokenIsRefused(users: seq<UserRecord>, raw: string, now: int,
                                   password: Option<string>, confirmPassword: Option<string>, o: Oracles)
    requires forall j :: 0 <= j < |users| && users[j].passwordResetToken == Some(o.sha256Hex(raw)) ==>
      users[j].passwordResetExpires.Some? && users[j].passwordResetExpires.value <= now
    ensures ResetPasswordEffect(users, raw, now, password, confirmPassword, o)
      == Effect(users, Err(AppError(InvalidResetToken, Some(400))))
  {
  }

  /** A token that reached its owner by email resets that owner's password at
      any time before its expiry, provided no other user holds the same digest
      and the new password passes the schema. */
  lemma SentTokenResetsItsOwner(users: seq<UserRecord>, email: string, raw: string, expires: int, now: int,
                                password: Option<string>, confirmPassword: Option<string>, o: Oracles)
    requires FindByEmail(users, Some(email)).Some?
    requires forall j :: 0 <= j < |users| ==> users[j].passwordResetToken != Some(o.sha256Hex(raw))
    requires now < expires
    requires var i := FindByEmail(users, Some(email)).value;
      o.validUser(Redeem(IssueResetToken(users[i], raw, expires, o), password, confirmPassword))
    ensures var issued := ForgotPasswordEffect(users, Some(email), raw, expires, true, o).store;
      var r := ResetPasswordEffect(issued, raw, now, password, confirmPassword, o);
      && r.reply.Ok?
      && r.reply.value.user.email == Some(email)
      && r.store[FindByEmail(users, Some(email)).value].password == password
  {
    var i := FindByEmail(users, Some(email)).value;
    var issued := ForgotPasswordEffect(users, Some(email), raw, expires, true, o).store;
    var digest := o.sha256Hex(raw);
    assert Redeemable(issued[i], digest, now);
    forall j | 0 <= j < |issued| && j != i
      ensures !Redeemable(issued[j], digest, now)
    {
      assert issued[j] == users[j];
    }
    var f := FindRedeemable(issued, digest, now);
    assert f == Some(i);
  }

  /** When the email cannot be sent, the token just drawn is of no use: no
      user holds its digest afterwards, so presenting it is refused at any
      time. */
  lemma FailedEmailLeavesNoUsableToken(users: seq<UserRecord>, email: Option<string>, raw: string, expires: int,
                                       now: int, password: Option<string>, confirmPassword: Option<string>, o: Oracles)
    requires forall j :: 0 <= j < |users| ==> users[j].passwordResetToken != Some(o.sha256Hex(raw))
    ensures var after := ForgotPasswordEffect(users, email, raw, expires, false, o).store;
      ResetPasswordEffect(after, raw, now, password, confirmPassword, o)
        == Effect(after, Err(AppError(InvalidResetToken, Some(400))))
  {
    var after := ForgotPasswordEffect(users, email, raw, expires, false, o).store;
    var digest := o.sha256Hex(raw);
    forall j | 0 <= j < |after|
      ensures !Redeemable(after[j], digest, now)
    {
      if FindByEmail(users, email).Some? && j == FindByEmail(users, email).value {
        assert after[j].passwordResetToken == None;
      } else {
        assert after[j] == users[j];
      }
    }
  }

  // ---------------------------------------------------------------------------
  // updatePassword

  /** `updatePassword` as written: the user is looked up by `req.params.id`
      (absent on its route, and then no user matches), the body's `password`
      is checked against the stored hash and then stored as the new password,
      and the `save()` is not awaited, so the reply is a success whether or
      not the save passes validation. */
  function UpdatePasswordAsWritten(users: seq<UserRecord>, paramsId: Option<string>,
                                   password: Option<string>, confirmPassword: Option<string>,
                                   o: Oracles): (e: Effect<seq<UserRecord>, SentToken>)
    ensures |e.store| == |users|
    ensures paramsId.None? ==> e == Effect(users, Err(AppError(UserNotFound, Some(404))))
  {
    var found := if paramsId.None? then None else FindById(users, paramsId.value);
    if found.None? then Effect(users, Err(AppError(UserNotFound, Some(404))))
    else
      var user1 := users[found.value];
      if password.None? || user1.password.None? then Effect(users, Err(ScriptError("Error")))
      else if !o.correctPassword(password.value, user1.password.value)
      then Effect(users, Err(AppError(IncorrectPassword, Some(400))))
      else
        var changed := user1.(password := password, confirmPassword := confirmPassword);
        var saved := if o.validUser(changed) then users[found.value := changed] else users;
        Effect(saved, Ok(CreateSendToken(changed, 200, PasswordUpdated, o)))
  }

  /** On `PATCH /updatepassword` no `:id` is bound, so every request, from any
      signed-in user, ends in 404 and changes nothing. */
  lemma UpdatePasswordOnItsRouteIsNotFound(users: seq<UserRecord>, password: Option<string>,
                                           confirmPassword: Option<string>, o: Oracles)
    ensures UpdatePasswordAsWritten(users, None, password, confirmPassword, o)
      == Effect(users, Err(AppError(UserNotFound, Some(404))))
  {
  }

  /** Even with an id, the only password `updatePassword` as written will
      store is one that already matched the stored hash. */
  lemma UpdatePasswordStoresCheckedValue(users: seq<UserRecord>, id: string, password: Option<string>,
                                         confirmPassword: Option<string>, o: Oracles)
    requires UpdatePasswordAsWritten(users, Some(id), password, confirmPassword, o).reply.Ok?
    ensures var i := FindById(users, id).value;
      && password.Some? && users[i].password.Some?
      && o.correctPassword(password.value, users[i].password.value)
      && UpdatePasswordAsWritten(users, Some(id), password, confirmPassword, o).reply.value.user.id == id
  {
  }

  /** `updatePassword` as evidently intended: the session user's record,
      checked against the body's `passwordCurrent`, receives the body's
      `password`; the save is awaited, so a rejected save is reported. */
  function UpdateOwnPasswordEffect(users: seq<UserRecord>, reqUser: Option<UserRecord>,
                                   passwordCurrent: Option<string>, password: Option<string>,
                                   confirmPassword: Option<string>, o: Oracles): (e: Effect<seq<UserRecord>, SentToken>)
    ensures |e.store| == |users|
    ensures e.reply.Err? ==> e.store == users
    ensures reqUser.None? ==> e == Effect(users, Err(ScriptError("TypeError")))
    ensures reqUser.Some? && FindById(users, reqUser.value.id).None? ==>
      e == Effect(users, Err(AppError(UserNotFound, Some(404))))
    ensures reqUser.Some? && FindById(users, reqUser.value.id).Some? ==>
      var i := FindById(users, reqUser.value.id).value;
      && (passwordCurrent.None? || users[i].password.None? ==> e == Effect(users, Err(ScriptError("Error"))))
      && (passwordCurrent.Some? && users[i].password.Some? &&
          !o.correctPassword(passwordCurrent.value, users[i].password.value) ==>
            e == Effect(users, Err(AppError(IncorrectPassword, Some(400)))))
    ensures e.reply.Ok? ==>
      && reqUser.Some?
      && FindById(users, reqUser.value.id).Some?
      && var i := FindById(users, reqUser.value.id).value;
      && passwordCurrent.Some? && users[i].password.Some?
      && o.correctPassword(passwordCurrent.value, users[i].password.value)
      && e.store == users[i := users[i].(password := password, confirmPassword := confirmPassword)]
      && e.reply.value.user.id == reqUser.value.id
      && e.reply.value.user.password == None
  {
    if reqUser.None? then Effect(users, Err(ScriptError("TypeError")))
    else match FindById(users, reqUser.value.id)
      case None => Effect(users, Err(AppError(UserNotFound, Some(404))))
      case Some(i) =>
        if passwordCurrent.None? || users[i].password.None? then Effect(users, Err(ScriptError("Error")))
        else if !o.correctPassword(passwordCurrent.value, users[i].password.value)
        then Effect(users, Err(AppError(IncorrectPassword, Some(400))))
        else
          var changed := users[i].(password := password, confirmPassword := confirmPassword);
          if !o.validUser(changed) then Effect(users, Err(ValidationError))
          else Effect(users[i := changed], Ok(CreateSendToken(changed, 200, PasswordUpdated, o)))
  }

  /** The intended `updatePassword` lets a signed-in user move from the current
      password to a new one, and touches no other user. */
  lemma UpdateOwnPasswordChangesPassword(users: seq<UserRecord>, me: UserRecord, current: string,
                                         newPassword: string, o: Oracles)
    requires FindById(users, me.id).Some?
    requires var i := FindById(users, me.id).value;
      users[i].password.Some? && o.correctPassword(current, users[i].password.value)
    requires var i := FindById(users, me.id).value;
      o.validUser(users[i].(password := Some(newPassword), confirmPassword := Some(newPassword)))
    ensures var e := UpdateOwnPasswordEffect(users, Some(me), Some(current), Some(newPassword), Some(newPassword), o);
      && e.reply.Ok?
      && e.store[FindById(users, me.id).value].password == Some(newPassword)
      && forall j :: 0 <= j < |users| && users[j].id != me.id ==> e.store[j] == users[j]
  {
  }

  /** `updatePassword` as evidently intended, run against the store. */
  method UpdateOwnPassword(ex: Exchange, store: UserStore, passwordCurrent: Option<string>, password: Option<string>,
                           confirmPassword: Option<string>, o: Oracles) returns (reply: Result<SentToken>)
    modifies store
    ensures Effect(store.users, reply)
      == UpdateOwnPasswordEffect(old(store.users), ex.reqUser, passwordCurrent, password, confirmPassword, o)
  {
    if ex.reqUser.None? {
      return Err(ScriptError("TypeError"));
    }
    var found := FindById(store.users, ex.reqUser.value.id);
    if found.None? {
      return Err(AppError(UserNotFound, Some(404)));
    }
    var user1 := store.users[found.value];
    if passwordCurrent.None? || user1.password.None? {
      return Err(ScriptError("Error"));
    }
    if !o.correctPassword(passwordCurrent.value, user1.password.value) {
      return Err(AppError(IncorrectPassword, Some(400)));
    }
    user1 := user1.(password := password, confirmPassword := confirmPassword);
    if !o.validUser(user1) {
      return Err(ValidationError);
    }
    store.users := store.users[found.value := user1];
    reply := Ok(CreateSendToken(user1, 200, PasswordUpdated, o));
  }
}
