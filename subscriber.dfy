/** The mongoose `Subscriber` schema (src/models/Subscriber.js) for the
    newsletter and the waitlist: a required, unique, lower-cased email that
    must match the email pattern, an optional trimmed name, a `type` enum and
    an `isActive` flag. The collection is a map keyed by the unique email. */
module SubscriberSchema {
  import opened Wrappers
  import opened JsString
  import EmailPattern

  datatype Kind = Newsletter | Waitlist

  function KindName(k: Kind): string
  {
    match k
    case Newsletter => "newsletter"
    case Waitlist => "waitlist"
  }

  function ParseKind(s: string): (k: Option<Kind>)
    ensures k.Some? ==> KindName(k.value) == s
    ensures k.None? ==> forall q: Kind :: KindName(q) != s
  {
    if s == "newsletter" then Some(Newsletter) else if s == "waitlist" then Some(Waitlist) else None
  }

  /** The values handed to `new Subscriber({...})`; `None` is an unset path. */
  datatype SubscriberInput = SubscriberInput(email: Option<string>, name: Option<string>, kind: Option<string>, isActive: Option<bool>)

  /** A validated subscriber (the `createdAt` timestamp left out). */
  datatype Subscriber = Subscriber(email: string, name: Option<string>, kind: Kind, isActive: bool)

  datatype FieldError = EmailRequired | EmailInvalid | KindNotInEnum

  function Message(e: FieldError): Option<string>
  {
    match e
    case EmailRequired => Some("Please add an email")
    case EmailInvalid => Some("Please add a valid email")
    case KindNotInEnum => None
  }

  /** Whether the validator behind `e` rejects the input: `required` after
      lower-casing, `match` on a non-empty email, `enum` on a set type. */
  predicate Fails(input: SubscriberInput, e: FieldError)
  {
    match e
    case EmailRequired => !Truthy(input.email)
    case EmailInvalid => Truthy(input.email) && !EmailPattern.Matches(ToLower(input.email.value))
    case KindNotInEnum => input.kind.Some? && ParseKind(input.kind.value).None?
  }

  function Errors(input: SubscriberInput): (errs: set<FieldError>)
    ensures forall e :: e in errs <==> Fails(input, e)
  {
    set e | e in {EmailRequired, EmailInvalid, KindNotInEnum} && Fails(input, e)
  }

  lemma NoErrors(input: SubscriberInput)
    requires Errors(input) == {}
    ensures input.email.Some? && input.email.value != [] && EmailPattern.Matches(ToLower(input.email.value))
    ensures input.kind.Some? ==> ParseKind(input.kind.value).Some?
  {
    assert !Fails(input, EmailRequired);
    assert !Fails(input, EmailInvalid);
    assert !Fails(input, KindNotInEnum);
  }

  /** Validation and defaults: the email lower-cased, the name trimmed when
      given, `type` defaulting to `newsletter` and `isActive` to true. */
  function Validate(input: SubscriberInput): (r: Result<Subscriber, set<FieldError>>)
    ensures r.Failure? <==> Errors(input) != {}
    ensures r.Failure? ==> r.error == Errors(input)
  {
    var errs := Errors(input);
    if errs != {} then Failure(errs)
    else
      NoErrors(input);
      Success(Subscriber(
        ToLower(input.email.value),
        if input.name.Some? then Some(Trim(input.name.value)) else None,
        if input.kind.Some? then ParseKind(input.kind.value).value else Newsletter,
        input.isActive.GetOr(true)))
  }

  predicate Conforms(s: Subscriber)
  {
    && s.email != [] && ToLower(s.email) == s.email && EmailPattern.Matches(s.email)
    && (s.name.Some? ==> Trim(s.name.value) == s.name.value)
  }

  /** A validated subscriber has a lower-case, well-formed email and a
      trimmed name. */
  lemma ValidatedConforms(input: SubscriberInput)
    requires Validate(input).Success?
    ensures Conforms(Validate(input).value)
  {
    NoErrors(input);
    ToLowerIdempotent(input.email.value);
    if input.name.Some? {
      TrimIdempotent(input.name.value);
    }
  }

  /** Only an email given: a newsletter subscription, active, without name. */
  lemma Defaults(email: string)
    requires Validate(SubscriberInput(Some(email), None, None, None)).Success?
    ensures Validate(SubscriberInput(Some(email), None, None, None)).value == Subscriber(ToLower(email), None, Newsletter, true)
  {
  }

  function AsInput(s: Subscriber): SubscriberInput
  {
    SubscriberInput(Some(s.email), s.name, Some(KindName(s.kind)), Some(s.isActive))
  }

  /** Validating a conforming subscriber again gives it back unchanged. */
  lemma {:induction false} RevalidateConforming(s: Subscriber)
    requires Conforms(s)
    ensures Validate(AsInput(s)) == Success(s)
  {
    assert ParseKind(KindName(s.kind)) == Some(s.kind);
    assert !Fails(AsInput(s), EmailRequired) && !Fails(AsInput(s), EmailInvalid) && !Fails(AsInput(s), KindNotInEnum);
    assert Errors(AsInput(s)) == {};
  }

  datatype SaveError = Invalid(errors: set<FieldError>) | DuplicateKey

  /** `Subscriber.create(values)`: validation, then the unique index on the
      stored (lower-cased) email. Nothing already stored is changed. */
  function Create(stored: map<string, Subscriber>, input: SubscriberInput): (r: Result<map<string, Subscriber>, SaveError>)
    ensures Validate(input).Failure? ==> r == Failure(Invalid(Errors(input)))
    ensures Validate(input).Success? ==>
      var s := Validate(input).value;
      r == if s.email in stored then Failure(DuplicateKey) else Success(stored[s.email := s])
    ensures r.Success? ==> stored.Keys < r.value.Keys && forall e :: e in stored ==> r.value[e] == stored[e]
  {
    match Validate(input)
    case Failure(errs) => Failure(Invalid(errs))
    case Success(s) => if s.email in stored then Failure(DuplicateKey) else Success(stored[s.email := s])
  }

  /** A second subscription with the same address in any letter case is a
      duplicate. */
  lemma SubscribeTwice(stored: map<string, Subscriber>, input: SubscriberInput, e1: string, e2: string)
    requires ToLower(e1) == ToLower(e2)
    requires Create(stored, input.(email := Some(e1))).Success?
    ensures Create(Create(stored, input.(email := Some(e1))).value, input.(email := Some(e2))) == Failure(DuplicateKey)
  {
    var i1, i2 := input.(email := Some(e1)), input.(email := Some(e2));
    assert |e1| == |ToLower(e1)| == |e2|;
    forall e
      ensures Fails(i1, e) == Fails(i2, e)
    {
    }
    assert Errors(i1) == Errors(i2);
  }
}
