/** The OAuth federation of src/config/passport.js: the session
    (de)serialisers and the Google and GitHub verify callbacks. Each callback
    looks the profile's email up and either creates a user or, when the stored
    provider differs, relinks the existing one; the email is the only merge key.
    The callbacks run as one atomic step over the table. */
module Passport {
  import opened Wrappers
  import opened JsString
  import Crypto
  import opened UserPG

  /** The part of a passport-google-oauth20 profile the callback reads. An
      absent `emails` or `photos` property is `None`; each element stands for
      the `value` of one entry. */
  datatype GoogleProfile = GoogleProfile(
    id: string,
    displayName: Option<string>,
    emails: Option<seq<string>>,
    photos: Option<seq<string>>)

  /** The part of a passport-github2 profile the callback reads; `id` is
      already `profile.id.toString()`. */
  datatype GitHubProfile = GitHubProfile(
    id: string,
    username: string,
    displayName: Option<string>,
    emails: Option<seq<string>>,
    photos: Option<seq<string>>)

  /** What the callback passes to `done` as its error: the missing model, a
      `TypeError` from reading an absent profile property, or a store error. */
  datatype AuthError = DatabaseNotInitialized | ProfileTypeError | StoreError(error: DbError)

  /** `serializeUser`: the session keeps the user's id. */
  function SerializeUser(u: User): UserId
  {
    u.id
  }

  /** `deserializeUser`: no user when the model is not initialised, else the
      row for that id, if any. */
  function DeserializeUser(db: UserTable?, id: UserId): (r: Option<User>)
    reads db
    requires db != null ==> db.Valid()
    ensures db == null ==> r.None?
    ensures db != null ==> (r.Some? <==> id in db.rows)
    ensures r.Some? ==> r.value.id == id
    ensures db != null && r.Some? ==> r.value == db.rows[id]
  {
    if db == null then None else db.FindByPk(id)
  }

  /** Deserialising what was serialised gives the stored user back. */
  lemma SessionRoundTrip(db: UserTable, u: User)
    requires db.Valid() && u.id in db.rows && db.rows[u.id] == u
    ensures DeserializeUser(db, SerializeUser(u)) == Some(u)
  {
  }

  /** `profile.emails[0].value`, which throws when there is no first entry. */
  function GoogleEmail(p: GoogleProfile): Result<string, AuthError>
  {
    if p.emails.Some? && |p.emails.value| > 0 then Success(p.emails.value[0]) else Failure(ProfileTypeError)
  }

  /** `profile.emails && profile.emails[0] ? profile.emails[0].value
      : `${profile.username}@github.local``. */
  function GitHubEmail(p: GitHubProfile): (e: string)
    ensures p.emails.Some? && |p.emails.value| > 0 ==> e == p.emails.value[0]
    ensures !(p.emails.Some? && |p.emails.value| > 0) ==> e == p.username + "@github.local"
  {
    if p.emails.Some? && |p.emails.value| > 0 then p.emails.value[0] else p.username + "@github.local"
  }

  /** `profile.photos[0]?.value`, which throws when `photos` is absent and is
      undefined when it is empty. */
  function FirstPhoto(photos: Option<seq<string>>): Result<Option<string>, AuthError>
  {
    if photos.None? then Failure(ProfileTypeError)
    else if |photos.value| == 0 then Success(None)
    else Success(Some(photos.value[0]))
  }

  /** `photo || user.avatar` */
  function AvatarOr(photo: Option<string>, current: Option<string>): Option<string>
  {
    if Truthy(photo) then photo else current
  }

  /** The `user.update` of a Google relink: provider, provider id, avatar
      and `emailVerified`. */
  function GoogleRelink(u: User, profileId: string, photo: Option<string>): Changes
  {
    Changes(None, None, None, Some(AvatarOr(photo, u.avatar)), Some(Google), Some(profileId), Some(true))
  }

  /** The `user.update` of a GitHub relink: provider, provider id and avatar;
      unlike Google it leaves `emailVerified` alone. */
  function GitHubRelink(u: User, profileId: string, photo: Option<string>): Changes
  {
    Changes(None, None, None, Some(AvatarOr(photo, u.avatar)), Some(GitHub), Some(profileId), None)
  }

  /** A relink touches only the provider columns and the avatar: name, email,
      password, role and plan are kept; Google also marks the email verified,
      GitHub keeps the old flag. */
  lemma {:induction false} RelinkPreserves(u: User, profileId: string, photo: Option<string>, h: Crypto.PasswordHasher, salt: Crypto.Salt)
    ensures var g := ApplyChanges(u, GoogleRelink(u, profileId, photo), h, salt);
      && g == u.(provider := Google, providerId := Some(profileId), avatar := AvatarOr(photo, u.avatar), emailVerified := true)
      && (Truthy(photo) ==> g.avatar == photo) && (!Truthy(photo) ==> g.avatar == u.avatar)
    ensures var b := ApplyChanges(u, GitHubRelink(u, profileId, photo), h, salt);
      b == u.(provider := GitHub, providerId := Some(profileId), avatar := AvatarOr(photo, u.avatar))
  {
  }

  /** The attributes of a user created from a Google profile. */
  function GoogleAccount(p: GoogleProfile, email: string, photo: Option<string>): NewUser
  {
    NewUser(p.displayName, Some(email), None, photo, Some(Google), Some(p.id), Some(true))
  }

  /** The attributes of a user created from a GitHub profile: the display
      name, or the username when it is missing or empty. */
  function GitHubAccount(p: GitHubProfile, photo: Option<string>): NewUser
  {
    NewUser(Some(OrElse(p.displayName, p.username)), Some(GitHubEmail(p)), None, photo, Some(GitHub), Some(p.id), Some(true))
  }

  /** A relink never fails: it changes neither the name nor the email, which
      the table already holds valid and unique. */
  method Relink(db: UserTable, u: User, ch: Changes, salt: Crypto.Salt) returns (r: User)
    requires db.Valid() && u.id in db.rows && db.rows[u.id] == u
    requires ch.name.None? && ch.email.None? && ch.password.None?
    modifies db
    ensures db.Valid()
    ensures r == ApplyChanges(u, ch, db.hasher, salt)
    ensures db.rows == old(db.rows)[u.id := r]
  {
    var res := db.Update(u.id, ch, salt);
    assert Violations(Some(u.name), Some(u.email), db.isEmail) == {};
    r := res.value;
  }

  /** The Google verify callback. Without a model it fails; with an existing
      Google user it changes nothing and returns that user, so repeated logins
      are idempotent; with a user of another provider it relinks that same
      row; otherwise it creates exactly one Google user with no password and a
      verified email. An email already present never gets a second row. */
  method GoogleVerify(db: UserTable?, p: GoogleProfile, salt: Crypto.Salt) returns (r: Result<User, AuthError>)
    requires db != null ==> db.Valid()
    modifies db
    ensures db != null ==> db.Valid()
    ensures db == null ==> r == Failure(DatabaseNotInitialized)
    ensures db != null && r.Failure? ==> db.rows == old(db.rows)
    ensures db != null && GoogleEmail(p).Failure? ==> r == Failure(ProfileTypeError)
    ensures db != null && GoogleEmail(p).Success? ==>
      var email := GoogleEmail(p).value;
      var found := old(db.FindByEmail(email));
      && (found.Some? ==> db.rows.Keys == old(db.rows.Keys) && (r.Success? ==> r.value.id == found.value.id))
      && (found.Some? && found.value.provider == Google ==> r == Success(found.value) && db.rows == old(db.rows))
      && (found.Some? && found.value.provider != Google ==>
            if FirstPhoto(p.photos).Failure? then r == Failure(ProfileTypeError)
            else
              var u := ApplyChanges(found.value, GoogleRelink(found.value, p.id, FirstPhoto(p.photos).value), db.hasher, salt);
              r == Success(u) && db.rows == old(db.rows)[u.id := u])
      && (found.None? ==>
            if FirstPhoto(p.photos).Failure? then r == Failure(ProfileTypeError)
            else
              var a := GoogleAccount(p, email, FirstPhoto(p.photos).value);
              var v := Violations(a.name, a.email, db.isEmail);
              if v != {} then r == Failure(StoreError(ValidationError(v)))
              else
                var u := Build(old(db.nextId), a, db.hasher, salt);
                && r == Success(u) && u.id !in old(db.rows) && db.rows == old(db.rows)[u.id := u]
                && u.provider == Google && u.providerId == Some(p.id) && u.emailVerified && u.password.None?)
    ensures r.Success? ==> db != null && r.value.provider == Google && db.rows[r.value.id] == r.value
  {
    if db == null {
      return Failure(DatabaseNotInitialized);
    }
    var email := GoogleEmail(p);
    if email.Failure? {
      return Failure(ProfileTypeError);
    }
    var found := db.FindByEmail(email.value);
    match found {
      case Some(u) =>
        if u.provider != Google {
          var photo := FirstPhoto(p.photos);
          if photo.Failure? {
            return Failure(ProfileTypeError);
          }
          var updated := Relink(db, u, GoogleRelink(u, p.id, photo.value), salt);
          r := Success(updated);
        } else {
          r := Success(u);
        }
      case None =>
        var photo := FirstPhoto(p.photos);
        if photo.Failure? {
          return Failure(ProfileTypeError);
        }
        var created := db.Create(GoogleAccount(p, email.value, photo.value), salt);
        match created {
          case Failure(e) => r := Failure(StoreError(e));
          case Success(u) => r := Success(u);
        }
    }
  }

  /** The GitHub verify callback: the same find-or-create, keyed on the
      profile email or the synthesised `<username>@github.local`; a relink
      sets provider, provider id and avatar but not `emailVerified`. */
  method GitHubVerify(db: UserTable?, p: GitHubProfile, salt: Crypto.Salt) returns (r: Result<User, AuthError>)
    requires db != null ==> db.Valid()
    modifies db
    ensures db != null ==> db.Valid()
    ensures db == null ==> r == Failure(DatabaseNotInitialized)
    ensures db != null && r.Failure? ==> db.rows == old(db.rows)
    ensures db != null ==>
      var found := old(db.FindByEmail(GitHubEmail(p)));
      && (found.Some? ==> db.rows.Keys == old(db.rows.Keys) && (r.Success? ==> r.value.id == found.value.id))
      && (found.Some? && found.value.provider == GitHub ==> r == Success(found.value) && db.rows == old(db.rows))
      && (found.Some? && found.value.provider != GitHub ==>
            if FirstPhoto(p.photos).Failure? then r == Failure(ProfileTypeError)
            else
              var u := ApplyChanges(found.value, GitHubRelink(found.value, p.id, FirstPhoto(p.photos).value), db.hasher, salt);
              r == Success(u) && db.rows == old(db.rows)[u.id := u] && u.emailVerified == found.value.emailVerified)
      && (found.None? ==>
            if FirstPhoto(p.photos).Failure? then r == Failure(ProfileTypeError)
            else
              var a := GitHubAccount(p, FirstPhoto(p.photos).value);
              var v := Violations(a.name, a.email, db.isEmail);
              if v != {} then r == Failure(StoreError(ValidationError(v)))
              else
                var u := Build(old(db.nextId), a, db.hasher, salt);
                && r == Success(u) && u.id !in old(db.rows) && db.rows == old(db.rows)[u.id := u]
                && u.provider == GitHub && u.name == OrElse(p.displayName, p.username)
                && u.emailVerified && u.password.None?)
    ensures r.Success? ==> db != null && r.value.provider == GitHub && db.rows[r.value.id] == r.value
  {
    if db == null {
      return Failure(DatabaseNotInitialized);
    }
    var email := GitHubEmail(p);
    var found := db.FindByEmail(email);
    match found {
      case Some(u) =>
        if u.provider != GitHub {
          var photo := FirstPhoto(p.photos);
          if photo.Failure? {
            return Failure(ProfileTypeError);
          }
          var updated := Relink(db, u, GitHubRelink(u, p.id, photo.value), salt);
          r := Success(updated);
        } else {
          r := Success(u);
        }
      case None =>
        var photo := FirstPhoto(p.photos);
        if photo.Failure? {
          return Failure(ProfileTypeError);
        }
        var created := db.Create(GitHubAccount(p, photo.value), salt);
        match created {
          case Failure(e) => r := Failure(StoreError(e));
          case Success(u) => r := Success(u);
        }
    }
  }

  /** Signing in with Google twice in a row: the second call changes nothing
      and returns the same user. */
  method GoogleTwice(db: UserTable, p: GoogleProfile, salt1: Crypto.Salt, salt2: Crypto.Salt)
    returns (first: Result<User, AuthError>, second: Result<User, AuthError>)
    requires db.Valid()
    modifies db
    ensures db.Valid()
    ensures first.Success? ==> second == first
  {
    first := GoogleVerify(db, p, salt1);
    if first.Success? {
      ghost var rowsAfterFirst := db.rows;
      assert db.FindByEmail(GoogleEmail(p).value) == Some(first.value);
      second := GoogleVerify(db, p, salt2);
      assert db.rows == rowsAfterFirst;
    } else {
      second := GoogleVerify(db, p, salt2);
    }
  }
}
