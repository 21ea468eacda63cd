/** The account handlers of src/controllers/authController.js: token issue,
    the token response, the OAuth redirect, register, login, logout, the
    current-user read and the profile update. `db` is what `getUser()` returned
    (null before the model is initialised); `now` is `Date.now()` in
    milliseconds; `salt` is the one bcrypt would draw. */
module AuthController {
  import opened Wrappers
  import opened JsString
  import Crypto
  import opened UserPG
  import opened Http

  /** `generateToken(id)`: signs `{ id }` with the configured key, issued now
      and expiring `JWT_EXPIRE || '7d'` later. */
  function GenerateToken(codec: Crypto.TokenCodec, env: Env, now: nat, id: UserId): string
  {
    codec.sign(Crypto.Claims(id, now / 1000, now / 1000 + TokenLifetime(env)), SigningKey(env))
  }

  /** An issued token verifies under the same key to the user's id exactly
      until its lifetime has passed, and not after. */
  lemma GeneratedTokenVerifies(codec: Crypto.TokenCodec, env: Env, now: nat, id: UserId, later: nat)
    requires Crypto.SoundCodec(codec)
    ensures var d := codec.verify(GenerateToken(codec, env, now, id), SigningKey(env), later);
      && (d.Some? <==> later < now / 1000 + TokenLifetime(env))
      && (d.Some? ==> d.value.id == id)
  {
  }

  /** `sendTokenResponse(user, statusCode, res)`: the token in a cookie and in
      the body, with the user reduced to id, name and email. The cookie is
      httpOnly, secure only in production, and expires `COOKIE_EXPIRE || 7`
      days from now. */
  function SendTokenResponse(u: User, status: nat, codec: Crypto.TokenCodec, env: Env, now: nat): (res: Response)
    ensures res.status == status && res.redirect.None?
    ensures res.body.TokenAndUser? && res.body.user == PublicUser(u.id, u.name, u.email)
    ensures res.cookie.Some? && res.cookie.value.value == res.body.token
    ensures res.cookie.value.name == "token" && res.cookie.value.httpOnly
    ensures res.cookie.value.secure <==> env.production
    ensures res.cookie.value.expires == now + env.cookieExpireDays.GetOr(7) * DayMs
    ensures Crypto.SoundCodec(codec) && TokenLifetime(env) > 0 ==>
      codec.verify(res.body.token, SigningKey(env), now / 1000) == Some(Crypto.Claims(u.id, now / 1000, now / 1000 + TokenLifetime(env)))
  {
    var token := GenerateToken(codec, env, now, u.id);
    Response(status, TokenAndUser(token, PublicView(u)),
             Some(Cookie("token", token, now + env.cookieExpireDays.GetOr(7) * DayMs, true, env.production)),
             None)
  }

  /** `oauthSuccess`: with a user, a seven-day token cookie and a redirect to
      the dashboard carrying the same token in the URL; without one, a
      redirect to the login page. */
  function OauthSuccess(user: Option<User>, codec: Crypto.TokenCodec, env: Env, now: nat): (res: Response)
    ensures res.status == 302 && res.body == NoBody
    ensures user.None? ==> res.redirect == Some("/login?error=auth_failed") && res.cookie.None?
    ensures user.Some? ==>
      && res.cookie.Some?
      && res.redirect == Some("/dashboard?auth=success&token=" + res.cookie.value.value)
      && res.cookie.value.name == "token" && res.cookie.value.httpOnly
      && (res.cookie.value.secure <==> env.production)
      && res.cookie.value.expires == now + 7 * DayMs
    ensures user.Some? && Crypto.SoundCodec(codec) && TokenLifetime(env) > 0 ==>
      codec.verify(res.cookie.value.value, SigningKey(env), now / 1000).Some?
      && codec.verify(res.cookie.value.value, SigningKey(env), now / 1000).value.id == user.value.id
  {
    if user.Some? then
      var token := GenerateToken(codec, env, now, user.value.id);
      Redirect("/dashboard?auth=success&token=" + token,
               Some(Cookie("token", token, now + 7 * DayMs, true, env.production)))
    else
      Redirect("/login?error=auth_failed", None)
  }

  /** The attributes `register` passes to `User.create`. */
  function LocalAccount(name: Option<string>, email: Option<string>, password: Option<string>): NewUser
  {
    NewUser(name, email, password, None, Some(Local), None, None)
  }

  /** `register`: 500 without a database; a duplicate email is refused with
      400 before anything is written; otherwise the local user is created
      (the store's validators may still refuse it, reported as 500), and the
      answer is a 201 token response. */
  method Register(db: UserTable?, codec: Crypto.TokenCodec, env: Env, now: nat, salt: Crypto.Salt,
                  name: Option<string>, email: Option<string>, password: Option<string>)
    returns (res: Response)
    requires db != null ==> db.Valid()
    modifies db
    ensures db != null ==> db.Valid()
    ensures db == null ==> res == DatabaseNotInitialized
    ensures db != null && email.None? ==>
      res == Json(500, FaultMessage(UndefinedWhere)) && db.rows == old(db.rows)
    ensures db != null && email.Some? && old(db.FindByEmail(email.value)).Some? ==>
      res == Json(400, Message(false, "Email already registered")) && db.rows == old(db.rows)
    ensures db != null && email.Some? && old(db.FindByEmail(email.value)).None? ==>
      var v := Violations(name, email, db.isEmail);
      if v != {} then
        res == Json(500, FaultMessage(StoreFault(ValidationError(v)))) && db.rows == old(db.rows)
      else
        var u := Build(old(db.nextId), LocalAccount(name, email, password), db.hasher, salt);
        && u.provider == Local && u.id !in old(db.rows)
        && db.rows == old(db.rows)[u.id := u]
        && res == SendTokenResponse(u, 201, codec, env, now)
  {
    if db == null {
      return DatabaseNotInitialized;
    }
    if email.None? {
      return Json(500, FaultMessage(UndefinedWhere));
    }
    var existing := db.FindByEmail(email.value);
    if existing.Some? {
      return Json(400, Message(false, "Email already registered"));
    }
    var created := db.Create(LocalAccount(name, email, password), salt);
    match created {
      case Failure(e) =>
        res := Json(500, FaultMessage(StoreFault(e)));
      case Success(u) =>
        res := SendTokenResponse(u, 201, codec, env, now);
    }
  }

  const InvalidCredentials := Json(401, Message(false, "Invalid credentials"))

  /** The 401 for an account without a password, which names its provider. */
  function UseProviderLogin(p: Provider): Response
  {
    Json(401, Message(false, "This account uses " + ProviderName(p) + " login. Please use that method."))
  }

  /** `login`: 500 without a database; 400 when email or password is missing,
      before any lookup; 401 for an unknown email, for an account with no
      password and for a wrong password; 200 with a token response exactly
      when the account exists, has a password and bcrypt accepts the input. */
  function Login(db: UserTable?, codec: Crypto.TokenCodec, env: Env, now: nat,
                 email: Option<string>, password: Option<string>): (res: Response)
    reads db
    requires db != null ==> db.Valid()
    ensures db == null ==> res == DatabaseNotInitialized
    ensures db != null && !(Truthy(email) && Truthy(password)) ==>
      res == Json(400, Message(false, "Please provide email and password"))
    ensures db != null && Truthy(email) && Truthy(password) ==>
      var found := db.FindByEmail(email.value);
      && (found.None? ==> res == InvalidCredentials)
      && (found.Some? && !Truthy(found.value.password) ==> res == UseProviderLogin(found.value.provider))
      && ((found.Some? && Truthy(found.value.password)
           && !db.hasher.compare(password.value, found.value.password.value)) ==> res == InvalidCredentials)
    ensures res.status == 200 <==>
      && db != null && Truthy(email) && Truthy(password)
      && db.FindByEmail(email.value).Some?
      && MatchPassword(db.FindByEmail(email.value).value, password.value, db.hasher)
    ensures res.status == 200 ==> res == SendTokenResponse(db.FindByEmail(email.value).value, 200, codec, env, now)
    ensures res.status in {200, 400, 401, 500}
  {
    if db == null then DatabaseNotInitialized
    else if !Truthy(email) || !Truthy(password) then Json(400, Message(false, "Please provide email and password"))
    else
      var found := db.FindByEmail(email.value);
      if found.None? then InvalidCredentials
      else if !Truthy(found.value.password) then UseProviderLogin(found.value.provider)
      else if !MatchPassword(found.value, password.value, db.hasher) then InvalidCredentials
      else SendTokenResponse(found.value, 200, codec, env, now)
  }

  /** The cookie both logout handlers set: the token replaced by `'none'`,
      expiring ten seconds from now. */
  function ClearedTokenCookie(now: nat): Cookie
  {
    Cookie("token", "none", now + 10 * 1000, true, false)
  }

  /** `logout` (POST): always 200; the session is ended on the client only, so
      the previous token is not revoked. */
  function Logout(now: nat): (res: Response)
    ensures res.status == 200 && res.body == Message(true, "Logged out successfully")
    ensures res.cookie == Some(ClearedTokenCookie(now)) && res.redirect.None?
  {
    Response(200, Message(true, "Logged out successfully"), Some(ClearedTokenCookie(now)), None)
  }

  /** `logoutRedirect` (GET): the same cookie, then a redirect home. */
  function LogoutRedirect(now: nat): (res: Response)
    ensures res.status == 302 && res.redirect == Some("/") && res.cookie == Some(ClearedTokenCookie(now))
  {
    Redirect("/", Some(ClearedTokenCookie(now)))
  }

  /** `getMe`: 500 without a database or when the gate let a null user
      through (`req.user.id` throws); otherwise 200 with the row for that id
      read without its password column (null if it is gone). */
  function GetMe(db: UserTable?, reqUser: Option<User>): (res: Response)
    reads db
    requires db != null ==> db.Valid()
    ensures db == null ==> res == DatabaseNotInitialized
    ensures db != null && reqUser.None? ==> res == Json(500, FaultMessage(NullUser))
    ensures db != null && reqUser.Some? ==>
      && res.status == 200 && res.body.CurrentUser?
      && (res.body.profile.Some? <==> reqUser.value.id in db.rows)
      && (res.body.profile.Some? ==> res.body.profile.value == WithoutPassword(db.rows[reqUser.value.id]))
  {
    if db == null then DatabaseNotInitialized
    else if reqUser.None? then Json(500, FaultMessage(NullUser))
    else
      var found := db.FindByPk(reqUser.value.id);
      Json(200, CurrentUser(if found.Some? then Some(WithoutPassword(found.value)) else None))
  }

  /** The attributes `updateProfile` passes to `user.update`. */
  function ProfileChanges(name: Option<string>, email: Option<string>): Changes
  {
    Changes(name, email, None, None, None, None, None)
  }

  /** `updateProfile`: 500 without a database or with a null `req.user`; 404
      for an id with no row; otherwise only that row's name and email change
      (validators and the unique index may refuse, reported as 500), and the
      answer is 200 with the updated public view. */
  method UpdateProfile(db: UserTable?, reqUser: Option<User>, salt: Crypto.Salt,
                       name: Option<string>, email: Option<string>)
    returns (res: Response)
    requires db != null ==> db.Valid()
    modifies db
    ensures db != null ==> db.Valid() && db.nextId == old(db.nextId)
    ensures db == null ==> res == DatabaseNotInitialized
    ensures db != null && reqUser.None? ==> res == Json(500, FaultMessage(NullUser)) && db.rows == old(db.rows)
    ensures db != null && reqUser.Some? && reqUser.value.id !in old(db.rows) ==>
      res == Json(404, Message(false, "User not found")) && db.rows == old(db.rows)
    ensures res.status != 200 ==> db != null ==> db.rows == old(db.rows)
    ensures db != null && reqUser.Some? && reqUser.value.id in old(db.rows) ==>
      var id := reqUser.value.id;
      var before := old(db.rows)[id];
      var after := before.(name := name.GetOr(before.name), email := email.GetOr(before.email));
      var v := Violations(Some(after.name), Some(after.email), db.isEmail);
      if v != {} then res == Json(500, FaultMessage(StoreFault(ValidationError(v))))
      else if after.email in old(db.byEmail) && old(db.byEmail)[after.email] != id then
        res == Json(500, FaultMessage(StoreFault(UniqueConstraintError)))
      else res == Json(200, UpdatedUser(PublicView(after)))
    ensures res.status == 200 ==>
      && db != null && reqUser.Some? && reqUser.value.id in old(db.rows)
      && var before := old(db.rows)[reqUser.value.id];
         var after := before.(name := name.GetOr(before.name), email := email.GetOr(before.email));
         && db.rows == old(db.rows)[reqUser.value.id := after]
         && res == Json(200, UpdatedUser(PublicView(after)))
  {
    if db == null {
      return DatabaseNotInitialized;
    }
    if reqUser.None? {
      return Json(500, FaultMessage(NullUser));
    }
    var found := db.FindByPk(reqUser.value.id);
    if found.None? {
      return Json(404, Message(false, "User not found"));
    }
    var updated := db.Update(reqUser.value.id, ProfileChanges(name, email), salt);
    match updated {
      case Failure(e) =>
        res := Json(500, FaultMessage(StoreFault(e)));
      case Success(u) =>
        res := Json(200, UpdatedUser(PublicView(u)));
    }
  }
}
