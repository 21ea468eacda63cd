/** What the handlers read from the process environment and what they hand
    back to Express: a status, a JSON body, at most one `token` cookie and an
    optional redirect. Express itself is not part of this model. */
module Http {
  import opened Wrappers
  import opened JsString
  import UserPG

  /** The environment variables the account layer reads. `JWT_EXPIRE` is
      given already converted to seconds (the parsing of strings such as
      `'7d'` belongs to jsonwebtoken). */
  datatype Env = Env(
    jwtSecret: Option<string>,
    jwtExpireSeconds: Option<nat>,
    cookieExpireDays: Option<nat>,
    production: bool)

  /** `process.env.JWT_SECRET || 'fallback-secret'`, shared by the issuer and
      the session gate. */
  function SigningKey(env: Env): string
  {
    OrElse(env.jwtSecret, "fallback-secret")
  }

  /** `process.env.JWT_EXPIRE || '7d'`, in seconds. */
  function TokenLifetime(env: Env): nat
  {
    env.jwtExpireSeconds.GetOr(7 * 24 * 60 * 60)
  }

  const DayMs: nat := 24 * 60 * 60 * 1000

  /** A `res.cookie(name, value, options)` call; `expires` is in
      milliseconds since the epoch. */
  datatype Cookie = Cookie(name: string, value: string, expires: int, httpOnly: bool, secure: bool)

  /** The `user` object of a token response: the id, name and email only. */
  datatype PublicUser = PublicUser(id: UserPG.UserId, name: string, email: string)

  function PublicView(u: UserPG.User): PublicUser
  {
    PublicUser(u.id, u.name, u.email)
  }

  /** An exception a handler catches and reports as `error.message`: one the
      store threw, a lookup with an undefined email, or a property read on a
      null `req.user`. Their message texts are not modelled. */
  datatype Fault = StoreFault(error: UserPG.DbError) | UndefinedWhere | NullUser

  datatype Body =
    | NoBody
    | Message(success: bool, message: string)
    | FaultMessage(fault: Fault)
    | TokenAndUser(token: string, user: PublicUser)
    | CurrentUser(profile: Option<UserPG.Profile>)
    | UpdatedUser(user: PublicUser)

  datatype Response = Response(status: nat, body: Body, cookie: Option<Cookie>, redirect: Option<string>)

  function Json(status: nat, body: Body): Response
  {
    Response(status, body, None, None)
  }

  /** `res.redirect(url)`, which answers 302. */
  function Redirect(url: string, cookie: Option<Cookie>): Response
  {
    Response(302, NoBody, cookie, Some(url))
  }

  const DatabaseNotInitialized := Json(500, Message(false, "Database not initialized"))
}
