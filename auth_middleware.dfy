/** The route guards of src/middleware/auth.js: `protect`, which finds the
    session token, verifies it and loads the user, and `authorize`, which
    admits only the listed roles. A guard either answers the request itself or
    lets it through to the next handler with `req.user` set. */
module AuthMiddleware {
  import opened Wrappers
  import opened JsString
  import Crypto
  import opened UserPG
  import opened Http

  /** The request headers and cookies the guard reads. */
  datatype Request = Request(authorization: Option<string>, tokenCookie: Option<string>)

  /** The guard answered the request, or called `next()` with this `req.user`
      (`null` when the token's id names no row). */
  datatype GateOutcome = Reject(response: Response) | Proceed(user: Option<User>)

  const NotAuthorized := Json(401, Message(false, "Not authorized to access this route"))

  const RoleNotAuthorized := Json(403, Message(false, "User role is not authorized to access this route"))

  /** Where `protect` takes the token from. An `Authorization` header that
      starts with `Bearer` decides alone: the token is the second
      space-separated word, or undefined when there is none, and the cookie is
      not consulted. Otherwise the `token` cookie if it is truthy. */
  function ExtractToken(req: Request): (token: Option<string>)
    ensures Truthy(req.authorization) && StartsWith(req.authorization.value, "Bearer") ==>
      var words := Split(req.authorization.value, ' ');
      token == if |words| > 1 then Some(words[1]) else None
    ensures !(Truthy(req.authorization) && StartsWith(req.authorization.value, "Bearer")) ==>
      token == if Truthy(req.tokenCookie) then req.tokenCookie else None
  {
    if Truthy(req.authorization) && StartsWith(req.authorization.value, "Bearer") then
      var words := Split(req.authorization.value, ' ');
      if |words| > 1 then Some(words[1]) else None
    else if Truthy(req.tokenCookie) then req.tokenCookie
    else None
  }

  /** A token sent as `Bearer <token>` is read back unchanged, whatever the
      cookie holds. */
  lemma BearerRoundTrip(t: string, cookie: Option<string>)
    requires ' ' !in t
    ensures ExtractToken(Request(Some("Bearer " + t), cookie)) == Some(t)
  {
    SplitNoSeparator(t, ' ');
    SplitFirst("Bearer", t, ' ');
    assert "Bearer " + t == "Bearer" + [' '] + t;
  }

  /** A `Bearer` header without a token hides a valid cookie: the guard sees
      no token at all. */
  lemma BareBearerIgnoresCookie(cookie: Option<string>)
    ensures ExtractToken(Request(Some("Bearer"), cookie)) == None
  {
    SplitNoSeparator("Bearer", ' ');
  }

  /** `protect` at clock reading `now` (milliseconds). No truthy token: 401.
      No model: 500. A token that does not verify under the configured key at
      the current second: 401. Otherwise the request proceeds with the row
      the token's id names, or with no user when there is none. */
  function Protect(db: UserTable?, codec: Crypto.TokenCodec, env: Env, now: nat, req: Request): (g: GateOutcome)
    reads db
    requires db != null ==> db.Valid()
    ensures !Truthy(ExtractToken(req)) ==> g == Reject(NotAuthorized)
    ensures Truthy(ExtractToken(req)) && db == null ==> g == Reject(DatabaseNotInitialized)
    ensures Truthy(ExtractToken(req)) && db != null ==>
      var d := codec.verify(ExtractToken(req).value, SigningKey(env), now / 1000);
      && (d.None? ==> g == Reject(NotAuthorized))
      && (d.Some? ==> g == Proceed(if d.value.id in db.rows then Some(db.rows[d.value.id]) else None))
    ensures g.Proceed? && g.user.Some? ==> db != null && g.user.value.id in db.rows && db.rows[g.user.value.id] == g.user.value
  {
    var token := ExtractToken(req);
    if !Truthy(token) then Reject(NotAuthorized)
    else if db == null then Reject(DatabaseNotInitialized)
    else match codec.verify(token.value, SigningKey(env), now / 1000)
      case None => Reject(NotAuthorized)
      case Some(decoded) => Proceed(db.FindByPk(decoded.id))
  }

  /** A token issued for a stored user, sent back as a bearer token or as the
      cookie, lets the request through with that user until the token
      expires, and is refused from then on. */
  lemma IssuedTokenPassesGate(db: UserTable, codec: Crypto.TokenCodec, env: Env, issued: nat, later: nat,
                              u: User, viaHeader: bool)
    requires db.Valid() && u.id in db.rows && db.rows[u.id] == u
    requires Crypto.SoundCodec(codec)
    ensures var token := codec.sign(Crypto.Claims(u.id, issued / 1000, issued / 1000 + TokenLifetime(env)), SigningKey(env));
      var req := if viaHeader then Request(Some("Bearer " + token), None) else Request(None, Some(token));
      Protect(db, codec, env, later, req) ==
        if later / 1000 < issued / 1000 + TokenLifetime(env) then Proceed(Some(u)) else Reject(NotAuthorized)
  {
    var token := codec.sign(Crypto.Claims(u.id, issued / 1000, issued / 1000 + TokenLifetime(env)), SigningKey(env));
    if viaHeader {
      BearerRoundTrip(token, None);
    }
  }

  /** `authorize(...roles)` after `protect`: a null `req.user` throws when
      its role is read, which Express answers with 500; a role outside the
      list is refused with 403; the listed roles proceed. */
  function Authorize(roles: seq<string>, reqUser: Option<User>): (g: GateOutcome)
    ensures reqUser.None? ==> g == Reject(Json(500, FaultMessage(NullUser)))
    ensures reqUser.Some? ==>
      (g == Proceed(reqUser) <==> RoleName(reqUser.value.role) in roles)
    ensures reqUser.Some? && RoleName(reqUser.value.role) !in roles ==> g == Reject(RoleNotAuthorized)
  {
    match reqUser
    case None => Reject(Json(500, FaultMessage(NullUser)))
    case Some(u) => if RoleName(u.role) in roles then Proceed(reqUser) else Reject(RoleNotAuthorized)
  }

  /** Widening the role list never refuses a user the narrower list admitted. */
  lemma AuthorizeMonotone(roles: seq<string>, more: seq<string>, reqUser: Option<User>)
    requires Authorize(roles, reqUser).Proceed?
    ensures Authorize(roles + more, reqUser) == Authorize(roles, reqUser)
  {
  }
}
