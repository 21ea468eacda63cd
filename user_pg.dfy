/** The Sequelize `User` model (src/models/UserPG.js): the columns and their
    defaults and validators, the password hooks, `matchPassword`, and the
    module-level handle that `initUserModel` fills and `getUser` reads.

    The `users` table is a class holding the rows by primary key together with
    the unique index on `email`; `create` and `update` are its methods, each one
    atomic step over the table. */
module UserPG {
  import opened Wrappers
  import opened JsString
  import Crypto

  /** The primary key. The source draws a random UUIDv4; the model draws the
      next value of a counter, which is fresh in the same way. */
  type UserId = nat

  datatype Provider = Local | Google | GitHub
  datatype Role = UserRole | AdminRole
  datatype Plan = Free | Pro | Enterprise

  /** The enum label stored in the `provider` column. */
  function ProviderName(p: Provider): string
  {
    match p
    case Local => "local"
    case Google => "google"
    case GitHub => "github"
  }

  /** The enum label stored in the `role` column. */
  function RoleName(r: Role): string
  {
    match r
    case UserRole => "user"
    case AdminRole => "admin"
  }

  /** The enum label stored in the `plan` column. */
  function PlanName(p: Plan): string
  {
    match p
    case Free => "free"
    case Pro => "pro"
    case Enterprise => "enterprise"
  }

  /** One row of `users` (timestamps left out). `password` holds whatever the
      hooks stored: a digest, or the raw value when it was falsy. */
  datatype User = User(
    id: UserId,
    name: string,
    email: string,
    password: Option<string>,
    avatar: Option<string>,
    provider: Provider,
    providerId: Option<string>,
    role: Role,
    plan: Plan,
    emailVerified: bool)

  /** A row read with `attributes: { exclude: ['password'] }`. */
  datatype Profile = Profile(
    id: UserId,
    name: string,
    email: string,
    avatar: Option<string>,
    provider: Provider,
    providerId: Option<string>,
    role: Role,
    plan: Plan,
    emailVerified: bool)

  function WithoutPassword(u: User): Profile
  {
    Profile(u.id, u.name, u.email, u.avatar, u.provider, u.providerId, u.role, u.plan, u.emailVerified)
  }

  /** The attributes passed to `User.create`; `None` is an attribute left
      undefined, which takes the column default (or null). `role` and `plan`
      are never passed by any caller and always take their defaults. */
  datatype NewUser = NewUser(
    name: Option<string>,
    email: Option<string>,
    password: Option<string>,
    avatar: Option<string>,
    provider: Option<Provider>,
    providerId: Option<string>,
    emailVerified: Option<bool>)

  /** The attributes passed to `user.update`; `None` is an attribute that is
      not passed (or undefined, which Sequelize drops), and leaves the column
      as it was. `avatar` can be set to null, hence its two layers. */
  datatype Changes = Changes(
    name: Option<string>,
    email: Option<string>,
    password: Option<string>,
    avatar: Option<Option<string>>,
    provider: Option<Provider>,
    providerId: Option<string>,
    emailVerified: Option<bool>)

  datatype Column = NameColumn | EmailColumn

  /** What `create` or `update` rejects with: the columns whose validators
      failed (Sequelize collects them all), or the unique index on `email`. */
  datatype DbError = ValidationError(failed: set<Column>) | UniqueConstraintError

  /** `allowNull: false, validate: { len: [1, 50] }`, with the length in
      code points. validator.js's `isLength` also leaves the variation
      selectors U+FE0E and U+FE0F out of its count, which is not modelled. */
  predicate ValidName(n: string)
  {
    1 <= |n| <= 50
  }

  /** The validators of a record about to be written: name not null and of
      length 1 to 50, email not null and accepted by `isEmail`. */
  function Violations(name: Option<string>, email: Option<string>, isEmail: string -> bool): (v: set<Column>)
    ensures NameColumn in v <==> !(name.Some? && ValidName(name.value))
    ensures EmailColumn in v <==> !(email.Some? && isEmail(email.value))
  {
    (if name.Some? && ValidName(name.value) then {} else {NameColumn})
    + (if email.Some? && isEmail(email.value) then {} else {EmailColumn})
  }

  // ---------------------------------------------------------------------------
  // Hooks

  /** `beforeCreate`: a truthy password is replaced by its digest; a missing
      or empty one is stored as it is (the OAuth case). */
  function HashOnCreate(password: Option<string>, hasher: Crypto.PasswordHasher, salt: Crypto.Salt): Option<string>
  {
    if Truthy(password) then Some(hasher.hash(password.value, salt)) else password
  }

  /** `beforeUpdate`: the assigned password is rehashed only when it differs
      from the stored one (`changed('password')`) and is truthy. */
  function RehashOnUpdate(stored: Option<string>, newValue: Option<string>, hasher: Crypto.PasswordHasher, salt: Crypto.Salt): Option<string>
  {
    if newValue != stored && Truthy(newValue) then Some(hasher.hash(newValue.value, salt)) else newValue
  }

  /** The row `create` inserts: the given attributes, the `beforeCreate`
      password and the column defaults. Every new row has role `user` and plan
      `free`; provider `local` and `emailVerified = false` unless the caller
      passed them. */
  function Build(id: UserId, a: NewUser, hasher: Crypto.PasswordHasher, salt: Crypto.Salt): (u: User)
    requires a.name.Some? && a.email.Some?
    ensures u.id == id && u.name == a.name.value && u.email == a.email.value
    ensures u.role == UserRole && u.plan == Free
    ensures u.provider == a.provider.GetOr(Local)
    ensures u.emailVerified == a.emailVerified.GetOr(false)
    ensures u.avatar == a.avatar && u.providerId == a.providerId
    ensures u.password == HashOnCreate(a.password, hasher, salt)
  {
    User(id, a.name.value, a.email.value, HashOnCreate(a.password, hasher, salt), a.avatar,
         a.provider.GetOr(Local), a.providerId, UserRole, Free, a.emailVerified.GetOr(false))
  }

  /** The row after `user.update(ch)`: each passed attribute replaces its
      column, the password goes through `beforeUpdate`, and id, role and plan
      never change. */
  function ApplyChanges(u: User, ch: Changes, hasher: Crypto.PasswordHasher, salt: Crypto.Salt): (r: User)
    ensures r.id == u.id && r.role == u.role && r.plan == u.plan
    ensures r.name == ch.name.GetOr(u.name) && r.email == ch.email.GetOr(u.email)
    ensures r.avatar == ch.avatar.GetOr(u.avatar)
    ensures r.provider == ch.provider.GetOr(u.provider)
    ensures r.providerId == (if ch.providerId.Some? then ch.providerId else u.providerId)
    ensures r.emailVerified == ch.emailVerified.GetOr(u.emailVerified)
    ensures r.password == if ch.password.Some? then RehashOnUpdate(u.password, ch.password, hasher, salt) else u.password
  {
    u.(name := ch.name.GetOr(u.name),
       email := ch.email.GetOr(u.email),
       password := if ch.password.Some? then RehashOnUpdate(u.password, ch.password, hasher, salt) else u.password,
       avatar := ch.avatar.GetOr(u.avatar),
       provider := ch.provider.GetOr(u.provider),
       providerId := if ch.providerId.Some? then ch.providerId else u.providerId,
       emailVerified := ch.emailVerified.GetOr(u.emailVerified))
  }

  /** The check both `matchPassword` methods make on a stored password:
      false whenever none (truthy) is stored, for any input; otherwise
      bcrypt's verdict. */
  function MatchStored(stored: Option<string>, entered: string, hasher: Crypto.PasswordHasher): (ok: bool)
    ensures !Truthy(stored) ==> !ok
    ensures Truthy(stored) ==> (ok <==> hasher.compare(entered, stored.value))
  {
    if !Truthy(stored) then false else hasher.compare(entered, stored.value)
  }

  /** `matchPassword` on a row. */
  function MatchPassword(u: User, entered: string, hasher: Crypto.PasswordHasher): (ok: bool)
    ensures !Truthy(u.password) ==> !ok
    ensures Truthy(u.password) ==> (ok <==> hasher.compare(entered, u.password.value))
  {
    MatchStored(u.password, entered, hasher)
  }

  /** The round trip of the create hook and `matchPassword`: a user created
      with a non-empty plaintext matches that plaintext. */
  lemma CreatedPasswordMatches(id: UserId, a: NewUser, hasher: Crypto.PasswordHasher, salt: Crypto.Salt)
    requires Crypto.SoundHasher(hasher)
    requires a.name.Some? && a.email.Some? && Truthy(a.password)
    ensures MatchPassword(Build(id, a, hasher, salt), a.password.value, hasher)
  {
    assert Truthy(Build(id, a, hasher, salt).password);
  }

  /** The update hook keeps the stored digest when no password or the same
      one is passed; a new truthy password is hashed and the user then
      matches it; a falsy one (such as `""`) is stored as given. */
  lemma UpdateKeepsOrRehashes(u: User, ch: Changes, hasher: Crypto.PasswordHasher, salt: Crypto.Salt)
    requires Crypto.SoundHasher(hasher)
    ensures var r := ApplyChanges(u, ch, hasher, salt);
      && (ch.password.None? || ch.password == u.password ==> r.password == u.password)
      && (Truthy(ch.password) && ch.password != u.password ==> MatchPassword(r, ch.password.value, hasher))
      && (ch.password.Some? && !Truthy(ch.password) ==> r.password == ch.password)
  {
    var r := ApplyChanges(u, ch, hasher, salt);
    if Truthy(ch.password) && ch.password != u.password {
      assert r.password == Some(hasher.hash(ch.password.value, salt));
    }
  }

  // ---------------------------------------------------------------------------
  // The table

  class UserTable {
    /** Sequelize's `isEmail` validator (validator.js), not part of this model. */
    const isEmail: string -> bool
    /** The bcrypt instance the hooks and `matchPassword` call. */
    const hasher: Crypto.PasswordHasher
    var rows: map<UserId, User>
    /** The unique index on `email`. */
    var byEmail: map<string, UserId>
    var nextId: UserId

    /** Every row is stored under its own id, passed its validators when it
        was written, and is the one row the index gives for its email. */
    ghost predicate Valid()
      reads this
    {
      && (forall id :: id in rows ==>
            && rows[id].id == id && id < nextId
            && ValidName(rows[id].name) && isEmail(rows[id].email)
            && rows[id].email in byEmail && byEmail[rows[id].email] == id)
      && (forall e :: e in byEmail ==> byEmail[e] in rows && rows[byEmail[e]].email == e)
    }

    constructor (isEmail: string -> bool, hasher: Crypto.PasswordHasher)
      ensures Valid()
      ensures this.isEmail == isEmail && this.hasher == hasher
      ensures rows == map[] && byEmail == map[]
    {
      this.isEmail := isEmail;
      this.hasher := hasher;
      rows, byEmail, nextId := map[], map[], 0;
    }

    /** `User.findOne({ where: { email } })` */
    function FindByEmail(email: string): (r: Option<User>)
      reads this
      requires Valid()
      ensures r.Some? <==> exists id :: id in rows && rows[id].email == email
      ensures r.Some? ==> r.value.id in rows && rows[r.value.id] == r.value && r.value.email == email
    {
      if email in byEmail then Some(rows[byEmail[email]]) else None
    }

    /** `User.findByPk(id)` */
    function FindByPk(id: UserId): (r: Option<User>)
      reads this
      requires Valid()
      ensures r.Some? <==> id in rows
      ensures r.Some? ==> r.value == rows[id] && r.value.id == id
    {
      if id in rows then Some(rows[id]) else None
    }

    /** `User.create(a)`: validation, then the `beforeCreate` hook, then the
        insert, which the unique index refuses for an email already present.
        On failure the table is unchanged; on success exactly one row is added
        under a fresh id. */
    method Create(a: NewUser, salt: Crypto.Salt) returns (r: Result<User, DbError>)
      requires Valid()
      modifies this
      ensures Valid()
      ensures var v := Violations(a.name, a.email, isEmail);
        if v != {} then r == Failure(ValidationError(v))
        else if a.email.value in old(byEmail) then r == Failure(UniqueConstraintError)
        else r == Success(Build(old(nextId), a, hasher, salt))
      ensures r.Failure? ==> rows == old(rows) && byEmail == old(byEmail) && nextId == old(nextId)
      ensures r.Success? ==>
        && r.value.id !in old(rows)
        && rows == old(rows)[r.value.id := r.value]
        && byEmail == old(byEmail)[r.value.email := r.value.id]
    {
      var v := Violations(a.name, a.email, isEmail);
      if v != {} {
        return Failure(ValidationError(v));
      }
      if a.email.value in byEmail {
        return Failure(UniqueConstraintError);
      }
      var u := Build(nextId, a, hasher, salt);
      rows := rows[nextId := u];
      byEmail := byEmail[u.email := nextId];
      nextId := nextId + 1;
      r := Success(u);
    }

    /** `user.update(ch)` on a fetched row: the changed values are validated,
        the `beforeUpdate` hook runs, and the write fails on an email another
        row holds. On failure the table is unchanged; on success only that
        row changes. */
    method Update(id: UserId, ch: Changes, salt: Crypto.Salt) returns (r: Result<User, DbError>)
      requires Valid() && id in rows
      modifies this
      ensures Valid()
      ensures nextId == old(nextId)
      ensures var u := ApplyChanges(old(rows)[id], ch, hasher, salt);
        var v := Violations(Some(u.name), Some(u.email), isEmail);
        if v != {} then r == Failure(ValidationError(v))
        else if u.email in old(byEmail) && old(byEmail)[u.email] != id then r == Failure(UniqueConstraintError)
        else r == Success(u)
      ensures r.Failure? ==> rows == old(rows) && byEmail == old(byEmail)
      ensures r.Success? ==> rows == old(rows)[id := r.value]
    {
      var old_ := rows[id];
      var u := ApplyChanges(old_, ch, hasher, salt);
      var v := Violations(Some(u.name), Some(u.email), isEmail);
      if v != {} {
        return Failure(ValidationError(v));
      }
      if u.email in byEmail && byEmail[u.email] != id {
        return Failure(UniqueConstraintError);
      }
      rows := rows[id := u];
      byEmail := (byEmail - {old_.email})[u.email := id];
      r := Success(u);
    }
  }

  /** In a valid table no two rows share an email. */
  lemma EmailsUnique(t: UserTable, a: UserId, b: UserId)
    requires t.Valid() && a in t.rows && b in t.rows
    requires t.rows[a].email == t.rows[b].email
    ensures a == b
  {
  }

  // ---------------------------------------------------------------------------
  // The module-level handle

  /** The module's `let User = null`, which `initUserModel` assigns and
      `getUser` returns. */
  class Registry {
    var model: UserTable?

    /** Before `initUserModel` has run, `getUser()` is null. */
    constructor ()
      ensures GetUser() == null
    {
      model := null;
    }

    /** `initUserModel(sequelize)`: defines the model over the persisted
        `users` table, whose stored rows it keeps as they are. */
    method InitUserModel(persisted: UserTable)
      requires persisted.Valid()
      modifies this
      ensures GetUser() == persisted
      ensures GetUser().Valid() && GetUser().rows == old(persisted.rows)
    {
      model := persisted;
    }

    /** `getUser()` */
    function GetUser(): UserTable?
      reads this
    {
      model
    }
  }
}
