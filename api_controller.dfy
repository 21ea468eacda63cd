/** The form-intake handlers of src/controllers/apiController.js: contact,
    newsletter and waitlist. Each checks its required fields, writes one log
    line on success and stores nothing; being functions of the request body,
    they cannot change any state. */
module ApiController {
  import opened Wrappers
  import opened JsString
  import opened Http

  /** The fields of `req.body` the handlers read; the body itself is `None`
      when `req.body` is undefined, which makes the destructuring throw. */
  datatype FormBody = FormBody(name: Option<string>, email: Option<string>, message: Option<string>)

  /** The `console.log` line a successful submission writes. */
  datatype LogLine =
    | ContactLog(name: string, email: string, message: string)
    | NewsletterLog(email: string)
    | WaitlistLog(email: string, optionalName: Option<string>)

  datatype Outcome = Outcome(response: Response, log: Option<LogLine>)

  const SomethingWentWrong := Json(500, Message(false, "Something went wrong. Please try again."))
  const ProvideEmail := Json(400, Message(false, "Please provide an email address"))

  /** `submitContact`: 400 unless name, email and message are all truthy. */
  function SubmitContact(body: Option<FormBody>): (o: Outcome)
    ensures body.None? ==> o == Outcome(SomethingWentWrong, None)
    ensures body.Some? ==>
      var b := body.value;
      if Truthy(b.name) && Truthy(b.email) && Truthy(b.message) then
        o == Outcome(Json(200, Message(true, "Thank you for contacting us! We will get back to you soon.")),
                     Some(ContactLog(b.name.value, b.email.value, b.message.value)))
      else
        o == Outcome(Json(400, Message(false, "Please provide name, email and message")), None)
  {
    match body
    case None => Outcome(SomethingWentWrong, None)
    case Some(b) =>
      if !Truthy(b.name) || !Truthy(b.email) || !Truthy(b.message) then
        Outcome(Json(400, Message(false, "Please provide name, email and message")), None)
      else
        Outcome(Json(200, Message(true, "Thank you for contacting us! We will get back to you soon.")),
                Some(ContactLog(b.name.value, b.email.value, b.message.value)))
  }

  /** `subscribeNewsletter`: 400 exactly when the email is falsy. */
  function SubscribeNewsletter(body: Option<FormBody>): (o: Outcome)
    ensures body.None? ==> o == Outcome(SomethingWentWrong, None)
    ensures body.Some? && !Truthy(body.value.email) ==> o == Outcome(ProvideEmail, None)
    ensures body.Some? && Truthy(body.value.email) ==>
      o == Outcome(Json(200, Message(true, "Successfully subscribed to newsletter!")),
                   Some(NewsletterLog(body.value.email.value)))
  {
    match body
    case None => Outcome(SomethingWentWrong, None)
    case Some(b) =>
      if !Truthy(b.email) then Outcome(ProvideEmail, None)
      else Outcome(Json(200, Message(true, "Successfully subscribed to newsletter!")), Some(NewsletterLog(b.email.value)))
  }

  /** `joinWaitlist`: 400 exactly when the email is falsy; the name is only
      logged. */
  function JoinWaitlist(body: Option<FormBody>): (o: Outcome)
    ensures body.None? ==> o == Outcome(SomethingWentWrong, None)
    ensures body.Some? && !Truthy(body.value.email) ==> o == Outcome(ProvideEmail, None)
    ensures body.Some? && Truthy(body.value.email) ==>
      o == Outcome(Json(200, Message(true, "You have been added to the waitlist!")),
                   Some(WaitlistLog(body.value.email.value, body.value.name)))
  {
    match body
    case None => Outcome(SomethingWentWrong, None)
    case Some(b) =>
      if !Truthy(b.email) then Outcome(ProvideEmail, None)
      else Outcome(Json(200, Message(true, "You have been added to the waitlist!")), Some(WaitlistLog(b.email.value, b.name)))
  }

  /** Every handler answers 200, 400 or 500, logs exactly when it answers
      200, and never sets a cookie or redirects. */
  lemma HandlersShape(body: Option<FormBody>)
    ensures forall o :: o in {SubmitContact(body), SubscribeNewsletter(body), JoinWaitlist(body)} ==>
      && o.response.status in {200, 400, 500}
      && (o.log.Some? <==> o.response.status == 200)
      && o.response.cookie.None? && o.response.redirect.None?
  {
  }

  /** The waitlist does not require a name: its answer does not depend on
      it, and it accepts whatever the newsletter accepts. */
  lemma WaitlistIgnoresName(b: FormBody, otherName: Option<string>)
    ensures JoinWaitlist(Some(b)).response == JoinWaitlist(Some(b.(name := otherName))).response
    ensures JoinWaitlist(Some(b)).response.status == SubscribeNewsletter(Some(b)).response.status
  {
  }

  /** A contact form passes only when the newsletter form with the same body
      does too. */
  lemma ContactStricterThanNewsletter(b: FormBody)
    ensures SubmitContact(Some(b)).response.status == 200 ==> SubscribeNewsletter(Some(b)).response.status == 200
  {
  }
}
