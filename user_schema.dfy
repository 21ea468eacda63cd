/** The older mongoose `User` schema (src/models/User.js): its setters,
    validators and defaults, the `pre('save')` password hook and
    `matchPassword`. A document is a class whose `password` the hook
    reassigns; the `users` collection is a map keyed by the unique, lower-cased
    email. */
module UserSchema {
  import opened Wrappers
  import opened JsString
  import Crypto
  import EmailPattern
  import UserPG

  // ---------------------------------------------------------------------------
  // Enumerations

  function ParseProvider(s: string): (p: Option<UserPG.Provider>)
    ensures p.Some? ==> UserPG.ProviderName(p.value) == s
    ensures p.None? ==> forall q: UserPG.Provider :: UserPG.ProviderName(q) != s
  {
    if s == "local" then Some(UserPG.Local)
    else if s == "google" then Some(UserPG.Google)
    else if s == "github" then Some(UserPG.GitHub)
    else None
  }

  function ParseRole(s: string): (r: Option<UserPG.Role>)
    ensures r.Some? ==> UserPG.RoleName(r.value) == s
    ensures r.None? ==> forall q: UserPG.Role :: UserPG.RoleName(q) != s
  {
    if s == "user" then Some(UserPG.UserRole)
    else if s == "admin" then Some(UserPG.AdminRole)
    else None
  }

  function ParsePlan(s: string): (p: Option<UserPG.Plan>)
    ensures p.Some? ==> UserPG.PlanName(p.value) == s
    ensures p.None? ==> forall q: UserPG.Plan :: UserPG.PlanName(q) != s
  {
    if s == "free" then Some(UserPG.Free)
    else if s == "pro" then Some(UserPG.Pro)
    else if s == "enterprise" then Some(UserPG.Enterprise)
    else None
  }

  /** Every enum label parses back to its value. */
  lemma EnumLabelsRoundTrip(p: UserPG.Provider, r: UserPG.Role, q: UserPG.Plan)
    ensures ParseProvider(UserPG.ProviderName(p)) == Some(p)
    ensures ParseRole(UserPG.RoleName(r)) == Some(r)
    ensures ParsePlan(UserPG.PlanName(q)) == Some(q)
  {
  }

  // ---------------------------------------------------------------------------
  // Documents and validation

  /** The values handed to `new User({...})`; `None` is an unset path. */
  datatype UserInput = UserInput(
    name: Option<string>,
    email: Option<string>,
    password: Option<string>,
    avatar: Option<string>,
    provider: Option<string>,
    providerId: Option<string>,
    role: Option<string>,
    plan: Option<string>,
    emailVerified: Option<bool>)

  /** A document that passed validation, with defaults filled in (the
      `createdAt` timestamp left out). */
  datatype Doc = Doc(
    name: string,
    email: string,
    password: Option<string>,
    avatar: Option<string>,
    provider: UserPG.Provider,
    providerId: Option<string>,
    role: UserPG.Role,
    plan: UserPG.Plan,
    emailVerified: bool)

  datatype FieldError =
    | NameRequired | NameTooLong
    | EmailRequired | EmailInvalid
    | PasswordTooShort
    | ProviderNotInEnum | RoleNotInEnum | PlanNotInEnum

  /** The messages the schema declares; the enum validators use mongoose's
      generated message, which is not modelled. */
  function Message(e: FieldError): Option<string>
  {
    match e
    case NameRequired => Some("Please add a name")
    case NameTooLong => Some("Name cannot be more than 50 characters")
    case EmailRequired => Some("Please add an email")
    case EmailInvalid => Some("Please add a valid email")
    case PasswordTooShort => Some("Password must be at least 6 characters")
    case _ => None
  }

  /** The `trim` and `lowercase` setters run when a path is assigned. */
  function SetName(name: Option<string>): Option<string>
  {
    if name.Some? then Some(Trim(name.value)) else None
  }

  function SetEmail(email: Option<string>): Option<string>
  {
    if email.Some? then Some(ToLower(email.value)) else None
  }

  const AllFieldErrors: set<FieldError> := {NameRequired, NameTooLong, EmailRequired, EmailInvalid,
                                            PasswordTooShort, ProviderNotInEnum, RoleNotInEnum, PlanNotInEnum}

  /** Whether the validator behind `e` rejects the input, after the setters.
      A validator other than `required` is skipped for an unset path;
      `required` rejects an unset or empty string; `match` lets the empty
      string through; lengths are UTF-16 lengths. */
  predicate Fails(input: UserInput, e: FieldError)
  {
    match e
    case NameRequired => !Truthy(SetName(input.name))
    case NameTooLong => input.name.Some? && Utf16Length(Trim(input.name.value)) > 50
    case EmailRequired => !Truthy(SetEmail(input.email))
    case EmailInvalid => Truthy(input.email) && !EmailPattern.Matches(ToLower(input.email.value))
    case PasswordTooShort => input.password.Some? && Utf16Length(input.password.value) < 6
    case ProviderNotInEnum => input.provider.Some? && ParseProvider(input.provider.value).None?
    case RoleNotInEnum => input.role.Some? && ParseRole(input.role.value).None?
    case PlanNotInEnum => input.plan.Some? && ParsePlan(input.plan.value).None?
  }

  /** Mongoose runs every validator and reports all that fail. */
  function Errors(input: UserInput): (errs: set<FieldError>)
    ensures forall e :: e in errs <==> Fails(input, e)
  {
    set e | e in AllFieldErrors && Fails(input, e)
  }

  /** What an input without errors has: a non-empty trimmed name of at most
      50 UTF-16 units, a well-formed email, a long enough password if any,
      and enum labels the schema knows. */
  lemma NoErrors(input: UserInput)
    requires Errors(input) == {}
    ensures input.name.Some? && Trim(input.name.value) != [] && Utf16Length(Trim(input.name.value)) <= 50
    ensures input.email.Some? && input.email.value != [] && EmailPattern.Matches(ToLower(input.email.value))
    ensures input.password.Some? ==> Utf16Length(input.password.value) >= 6
    ensures input.provider.Some? ==> ParseProvider(input.provider.value).Some?
    ensures input.role.Some? ==> ParseRole(input.role.value).Some?
    ensures input.plan.Some? ==> ParsePlan(input.plan.value).Some?
  {
    assert !Fails(input, NameRequired);
    assert !Fails(input, NameTooLong);
    assert !Fails(input, EmailRequired);
    assert !Fails(input, EmailInvalid);
    assert !Fails(input, PasswordTooShort);
    assert !Fails(input, ProviderNotInEnum);
    assert !Fails(input, RoleNotInEnum);
    assert !Fails(input, PlanNotInEnum);
  }

  /** `document.validate()`: every failing validator at once, or the document
      with the setters applied and the defaults filled in (avatar and
      providerId `null`, provider `local`, role `user`, plan `free`,
      `emailVerified` false). */
  function Validate(input: UserInput): (r: Result<Doc, set<FieldError>>)
    ensures r.Failure? <==> Errors(input) != {}
    ensures r.Failure? ==> r.error == Errors(input)
  {
    var errs := Errors(input);
    if errs != {} then Failure(errs)
    else
      NoErrors(input);
      Success(Doc(
      Trim(input.name.value),
      ToLower(input.email.value),
      input.password,
      input.avatar,
      if input.provider.Some? then ParseProvider(input.provider.value).value else UserPG.Local,
      input.providerId,
      if input.role.Some? then ParseRole(input.role.value).value else UserPG.UserRole,
      if input.plan.Some? then ParsePlan(input.plan.value).value else UserPG.Free,
      input.emailVerified.GetOr(false)))
  }

  /** What every validated document satisfies before the hook runs. */
  predicate Conforms(d: Doc)
  {
    && d.name != [] && Utf16Length(d.name) <= 50 && Trim(d.name) == d.name
    && d.email != [] && ToLower(d.email) == d.email && EmailPattern.Matches(d.email)
    && (d.password.Some? ==> Utf16Length(d.password.value) >= 6)
  }

  /** A validated document conforms: its name is trimmed, non-empty and at
      most 50 long, its email lower-case and well-formed, its password, if
      any, at least 6 long. */
  lemma ValidatedConforms(input: UserInput)
    requires Validate(input).Success?
    ensures Conforms(Validate(input).value)
  {
    NoErrors(input);
    TrimIdempotent(input.name.value);
    ToLowerIdempotent(input.email.value);
  }

  /** The input that states a document in full. */
  function AsInput(d: Doc): UserInput
  {
    UserInput(Some(d.name), Some(d.email), d.password, d.avatar, Some(UserPG.ProviderName(d.provider)),
              d.providerId, Some(UserPG.RoleName(d.role)), Some(UserPG.PlanName(d.plan)), Some(d.emailVerified))
  }

  /** Validation gives back a conforming document unchanged, so validating
      twice is validating once. */
  lemma {:induction false} RevalidateConforming(d: Doc)
    requires Conforms(d)
    ensures Validate(AsInput(d)) == Success(d)
  {
    EnumLabelsRoundTrip(d.provider, d.role, d.plan);
    assert Errors(AsInput(d)) == {};
  }

  /** A document given only a name, an email and a password gets the
      schema's defaults. */
  lemma LocalDefaults(name: string, email: string, password: Option<string>)
    requires Validate(UserInput(Some(name), Some(email), password, None, None, None, None, None, None)).Success?
    ensures var d := Validate(UserInput(Some(name), Some(email), password, None, None, None, None, None, None)).value;
      && d.provider == UserPG.Local && d.role == UserPG.UserRole && d.plan == UserPG.Free
      && !d.emailVerified && d.avatar.None? && d.providerId.None?
      && d.name == Trim(name) && d.email == ToLower(email) && d.password == password
  {
  }

  /** `select: false`: a query returns the password only when it asks for it
      with `.select('+password')`. */
  function Project(d: Doc, withPassword: bool): (r: Doc)
    ensures r.password == (if withPassword then d.password else None)
    ensures r.(password := d.password) == d
  {
    if withPassword then d else d.(password := None)
  }

  // ---------------------------------------------------------------------------
  // The save hook and matchPassword

  /** The `pre('save')` hook as written: the early `next()` on line 63 is not
      followed by `return`, so whenever the password is truthy it is hashed,
      modified or not. */
  function SaveHookAsWritten(password: Option<string>, hasher: Crypto.PasswordHasher, salt: Crypto.Salt): Option<string>
  {
    if Truthy(password) then Some(hasher.hash(password.value, salt)) else password
  }

  /** How often the hook as written calls `next`: twice when it takes the
      early exit, once otherwise. */
  function NextCallsAsWritten(password: Option<string>, modified: bool): nat
  {
    if !modified || !Truthy(password) then 2 else 1
  }

  /** The hook as intended: only a modified, truthy password is hashed. */
  function SaveHook(password: Option<string>, modified: bool, hasher: Crypto.PasswordHasher, salt: Crypto.Salt): (r: Option<string>)
    ensures !modified ==> r == password
    ensures !Truthy(password) ==> r == password
  {
    if modified && Truthy(password) then Some(hasher.hash(password.value, salt)) else password
  }

  /** `matchPassword`: false without a stored password, for any input. */
  function MatchPassword(d: Doc, entered: string, hasher: Crypto.PasswordHasher): (ok: bool)
    ensures !Truthy(d.password) ==> !ok
    ensures Truthy(d.password) ==> (ok <==> hasher.compare(entered, d.password.value))
  {
    UserPG.MatchStored(d.password, entered, hasher)
  }

  /** After the intended hook, the plaintext that was set matches the stored
      digest, and an unmodified digest is kept as it was. */
  lemma SaveHookMatches(d: Doc, modified: bool, hasher: Crypto.PasswordHasher, salt: Crypto.Salt)
    requires Crypto.SoundHasher(hasher)
    ensures var saved := d.(password := SaveHook(d.password, modified, hasher, salt));
      && (modified && Truthy(d.password) ==> MatchPassword(saved, d.password.value, hasher))
      && (!modified ==> saved == d)
  {
  }

  /** On a new document, whose given password counts as modified, the hook as
      written and the intended hook store the same password, so `Create`
      below models the code as written too. */
  lemma NewDocumentHooksAgree(password: Option<string>, hasher: Crypto.PasswordHasher, salt: Crypto.Salt)
    ensures SaveHookAsWritten(password, hasher, salt) == SaveHook(password, password.Some?, hasher, salt)
  {
  }

  /** The hook as written rehashes on a re-save: with a hasher that prefixes
      `$toy$`, the document's digest of "secret" is hashed again on a save
      that did not touch the password, and "secret" no longer matches it once
      a save persists it; the intended hook keeps it, and "secret" still
      matches. */
  lemma RehashOnResave()
    ensures var h := Crypto.ToyHasher();
      var stored := Some(h.hash("secret", 0));
      && h.compare("secret", stored.value)
      && SaveHookAsWritten(stored, h, 0) == Some("$toy$$toy$secret")
      && !h.compare("secret", SaveHookAsWritten(stored, h, 0).value)
      && NextCallsAsWritten(stored, false) == 2
      && SaveHook(stored, false, h, 0) == stored
  {
    var h := Crypto.ToyHasher();
    assert h.hash("secret", 0) == "$toy$" + "secret" == "$toy$secret";
    assert h.hash("$toy$secret", 0) == "$toy$" + "$toy$secret" == "$toy$$toy$secret";
    assert |"$toy$$toy$secret"| != |"$toy$" + "secret"|;
  }

  /** A mongoose document: its values and whether `password` was assigned
      since it was loaded or created. */
  class UserDocument {
    var doc: Doc
    var passwordModified: bool

    /** `new User(values)`: every path that was given counts as modified. */
    constructor (d: Doc)
      ensures doc == d && passwordModified == d.password.Some?
    {
      doc := d;
      passwordModified := d.password.Some?;
    }

    /** A document read back from the collection: nothing is modified. */
    constructor Load(d: Doc)
      ensures doc == d && !passwordModified
    {
      doc := d;
      passwordModified := false;
    }

    /** `user.password = plain` */
    method SetPassword(plain: string)
      modifies this
      ensures doc == old(doc).(password := Some(plain)) && passwordModified
    {
      doc := doc.(password := Some(plain));
      passwordModified := true;
    }

    /** The hook of src/models/User.js as written; `nextCalls` is how often it
      calls `next`. */
    method PreSaveAsWritten(hasher: Crypto.PasswordHasher, salt: Crypto.Salt) returns (nextCalls: nat)
      modifies this
      ensures doc == old(doc).(password := SaveHookAsWritten(old(doc.password), hasher, salt))
      ensures passwordModified == old(passwordModified)
      ensures nextCalls == NextCallsAsWritten(old(doc.password), old(passwordModified))
    {
      nextCalls := 0;
      if !passwordModified || !Truthy(doc.password) {
        nextCalls := nextCalls + 1;
      }
      if Truthy(doc.password) {
        doc := doc.(password := Some(hasher.hash(doc.password.value, salt)));
      }
      nextCalls := nextCalls + 1;
    }

    /** The hook with the early exit taken: it calls `next` once and hashes
      only a modified, truthy password. */
    method PreSave(hasher: Crypto.PasswordHasher, salt: Crypto.Salt) returns (nextCalls: nat)
      modifies this
      ensures doc == old(doc).(password := SaveHook(old(doc.password), old(passwordModified), hasher, salt))
      ensures passwordModified == old(passwordModified)
      ensures nextCalls == 1
    {
      if !passwordModified || !Truthy(doc.password) {
        return 1;
      }
      doc := doc.(password := Some(hasher.hash(doc.password.value, salt)));
      nextCalls := 1;
    }
  }

  // ---------------------------------------------------------------------------
  // The collection

  datatype SaveError = Invalid(errors: set<FieldError>) | DuplicateKey

  /** `User.create(values)` on a collection keyed by email: validation, the
      save hook on a new document (whose password, when given, is modified),
      then the unique index. */
  function Create(stored: map<string, Doc>, input: UserInput, hasher: Crypto.PasswordHasher, salt: Crypto.Salt)
    : (r: Result<(map<string, Doc>, Doc), SaveError>)
    ensures Validate(input).Failure? ==> r == Failure(Invalid(Errors(input)))
    ensures Validate(input).Success? && Validate(input).value.email in stored ==> r == Failure(DuplicateKey)
    ensures r.Success? ==>
      var (after, d) := r.value;
      && Validate(input).Success? && d.email !in stored && after == stored[d.email := d]
      && d == Validate(input).value.(password := SaveHook(input.password, input.password.Some?, hasher, salt))
  {
    match Validate(input)
    case Failure(errs) => Failure(Invalid(errs))
    case Success(v) =>
      var d := v.(password := SaveHook(v.password, v.password.Some?, hasher, salt));
      if d.email in stored then Failure(DuplicateKey) else Success((stored[d.email := d], d))
  }

  /** Validation sees an email only through its lower-cased form. */
  lemma ValidateSeesLowercase(input: UserInput, e1: string, e2: string)
    requires ToLower(e1) == ToLower(e2)
    ensures Validate(input.(email := Some(e1))) == Validate(input.(email := Some(e2)))
  {
    var i1, i2 := input.(email := Some(e1)), input.(email := Some(e2));
    assert |e1| == |ToLower(e1)| == |e2|;
    forall e
      ensures Fails(i1, e) == Fails(i2, e)
    {
    }
    assert Errors(i1) == Errors(i2);
  }

  /** Emails are compared after lower-casing: once an address is stored, the
      same address in other letter case is a duplicate. */
  lemma CreateIgnoresCase(stored: map<string, Doc>, input: UserInput, e1: string, e2: string,
                          hasher: Crypto.PasswordHasher, salt1: Crypto.Salt, salt2: Crypto.Salt)
    requires ToLower(e1) == ToLower(e2)
    requires Create(stored, input.(email := Some(e1)), hasher, salt1).Success?
    ensures var after := Create(stored, input.(email := Some(e1)), hasher, salt1).value.0;
      Create(after, input.(email := Some(e2)), hasher, salt2) == Failure(DuplicateKey)
  {
    ValidateSeesLowercase(input, e1, e2);
  }

  /** A created local account verifies its plaintext through `matchPassword`. */
  lemma CreatedPasswordMatches(stored: map<string, Doc>, input: UserInput, hasher: Crypto.PasswordHasher, salt: Crypto.Salt)
    requires Crypto.SoundHasher(hasher)
    requires Create(stored, input, hasher, salt).Success? && Truthy(input.password)
    ensures MatchPassword(Create(stored, input, hasher, salt).value.1, input.password.value, hasher)
  {
  }
}
