/** End-to-end account flows across the handlers: registering, logging in
    with the new password, sending the issued cookie back through the
    session gate, and registering the same email twice. */
module AccountFlows {
  import opened Wrappers
  import opened JsString
  import Crypto
  import opened UserPG
  import opened Http
  import AuthController
  import AuthMiddleware

  /** The `token` cookie a browser sends back after a response. */
  function CookieSentBack(res: Response): Option<string>
  {
    if res.cookie.Some? then Some(res.cookie.value.value) else None
  }

  /** A successful registration can log in with the same password at once
      and gets the same public user back; the login cookie lets a request
      through the gate with the new row; a second registration with the same
      email is refused with 400 and changes nothing. */
  method RegisterLoginAndProtect(db: UserTable, codec: Crypto.TokenCodec, env: Env, now: nat, salt: Crypto.Salt,
                                 name: Option<string>, email: string, password: string)
    returns (reg: Response, login: Response, gate: AuthMiddleware.GateOutcome, again: Response)
    requires db.Valid() && Crypto.SoundHasher(db.hasher) && Crypto.SoundCodec(codec) && TokenLifetime(env) > 0
    requires email != [] && password != []
    modifies db
    ensures db.Valid()
    ensures reg.status == 201 ==>
      && reg.body.TokenAndUser? && login.body.TokenAndUser?
      && login.status == 200 && login.body.user == reg.body.user
      && reg.body.user.email == email
      && reg.body.user.id in db.rows
      && gate == AuthMiddleware.Proceed(Some(db.rows[reg.body.user.id]))
      && again == Json(400, Message(false, "Email already registered"))
    ensures reg.status == 201 || db.rows == old(db.rows)
  {
    reg := AuthController.Register(db, codec, env, now, salt, name, Some(email), Some(password));
    login := AuthController.Login(db, codec, env, now, Some(email), Some(password));
    gate := AuthMiddleware.Protect(db, codec, env, now, AuthMiddleware.Request(None, CookieSentBack(login)));
    if reg.status == 201 {
      var a := AuthController.LocalAccount(name, Some(email), Some(password));
      var u := Build(old(db.nextId), a, db.hasher, salt);
      assert db.rows[u.id] == u;
      CreatedPasswordMatches(u.id, a, db.hasher, salt);
      assert db.FindByEmail(email) == Some(u);
      AuthMiddleware.IssuedTokenPassesGate(db, codec, env, now, now, u, false);
    }
    again := AuthController.Register(db, codec, env, now, salt, name, Some(email), Some(password));
  }
}
