# framelabs account and form core, in Dafny

This project models the server-side account layer of the framelabs site and
two of its browser scripts:

- the Sequelize `User` model over PostgreSQL: columns, defaults,
  validators, the password hooks, `matchPassword` and the `getUser` handle;
- the Passport Google and GitHub find-or-create callbacks, and the session
  (de)serialisers;
- the authentication controller: token issue, `register`, `login`,
  `logout`, `getMe` and `updateProfile`;
- the `protect` and `authorize` route guards;
- the older mongoose `User` and `Subscriber` schemas, with their email
  pattern;
- the contact, newsletter and waitlist form handlers;
- the hero-text `TypeWriter` animation;
- the header theme script.

Modelling choices:

- The `users` table, a mongoose document, a `TypeWriter` and the root
  element's class list change in place. They are classes whose methods
  carry `modifies` clauses.
- Everything else is a function of its inputs.
- bcrypt and JSON Web Tokens are opaque oracles (`Crypto.PasswordHasher`,
  `Crypto.TokenCodec`). The model assumes only what the code relies on
  (`Crypto.SoundHasher`, `Crypto.SoundCodec`): a digest is non-empty and
  verifies its plaintext; a token is a non-empty string without spaces and
  verifies to its claims exactly before it expires. Small concrete witnesses
  show these assumptions can be met.
- Clock readings, salts and the `isEmail` validator are parameters.
- Each Express handler is one atomic step that returns the status, the
  JSON body, the cookie and the redirect it sends.

Files:

| file | module | models |
|---|---|---|
| wrappers.dfy | `Wrappers` | `Option`, `Result` |
| js_string.dfy | `JsString` | JavaScript truthiness, `substring`, `split`/`join`, `trim`, `toLowerCase`, UTF-16 length |
| crypto.dfy | `Crypto` | the bcrypt and JWT oracles, their soundness assumptions and toy witnesses |
| user_pg.dfy | `UserPG` | src/models/UserPG.js |
| http.dfy | `Http` | environment, responses, cookies, the public user view |
| passport.dfy | `Passport` | src/config/passport.js |
| auth_controller.dfy | `AuthController` | src/controllers/authController.js |
| auth_middleware.dfy | `AuthMiddleware` | src/middleware/auth.js |
| email_pattern.dfy | `EmailPattern` | the email regular expression of both mongoose schemas |
| user_schema.dfy | `UserSchema` | src/models/User.js |
| subscriber.dfy | `SubscriberSchema` | src/models/Subscriber.js |
| api_controller.dfy | `ApiController` | src/controllers/apiController.js |
| typewriter.dfy | `TypeWriterAnimation` | the `TypeWriter` class of public/js/animations.js |
| theme_script.dfy | `ThemeScript` | `applyThemeScript` of public/js/theme-script.test.js |
| account_flows.dfy | `AccountFlows` | register, then login, then `protect`, across the handlers |

Where the code and its description disagree, the model follows the code:

- `protect` hands a null `req.user` to the next handler when a valid token
  names a deleted row. `getMe` and `updateProfile` then throw on `req.user.id`,
  and the model answers 500 (`NullUser`). They do not answer 404.
- `register` refuses a duplicate email with 400. Any other store error, such
  as a missing name, reaches the catch block and answers 500 with the error.
- The PostgreSQL email uniqueness is case-sensitive: `UserPG` does not
  lower-case. Only the mongoose schemas lower-case.
- GitHub relinks do not set `emailVerified`. Google relinks set it to true.

## Model

| member | source | states |
|---|---|---|
| UserPG.Violations | src/models/UserPG.js:14-28 | the name column fails exactly when the name is null or outside 1..50 characters; the email column fails exactly when the email is null or rejected by `isEmail` |
| UserPG.Build | src/models/UserPG.js:37-66 | a created row keeps the given name, email, avatar and provider id. Provider defaults to `local` and `emailVerified` to false. Role is always `user` and plan `free`. The password is the `beforeCreate` result |
| UserPG.ApplyChanges | src/models/UserPG.js:67-72 | an update replaces exactly the passed columns; id, role and plan never change; the password goes through `beforeUpdate` only when it is passed |
| UserPG.MatchStored | src/models/UserPG.js:77-80 | the check on a stored password: false for any input when none truthy is stored; otherwise exactly bcrypt's verdict |
| UserPG.MatchPassword | src/models/UserPG.js:77-80 | `matchPassword` on a row: false for any input when no truthy password is stored; otherwise exactly bcrypt's verdict |
| UserPG.CreatedPasswordMatches | src/models/UserPG.js:61-66 | a user created with a non-empty plaintext matches that plaintext |
| UserPG.UpdateKeepsOrRehashes | src/models/UserPG.js:67-72 | the digest is kept when no password or the same one is passed; a new truthy password is hashed and the user then matches it; a falsy one (such as `""`) is stored as given |
| UserPG.UserTable.constructor | src/models/UserPG.js:7-8 | a newly created `users` table is empty and its email index consistent |
| UserPG.UserTable.FindByEmail | src/models/UserPG.js:21-28 | a row is found exactly when some stored row has that email, and it is that row |
| UserPG.UserTable.FindByPk | src/models/UserPG.js:9-13 | a row is found exactly when the id is stored, and it is the stored row |
| UserPG.UserTable.Create | src/models/UserPG.js:14-66 | every failing validator is reported, then the unique index refuses a present email; on failure nothing changes; on success exactly one row, the `Build` result, is added under a fresh id and indexed; the index stays consistent |
| UserPG.UserTable.Update | src/models/UserPG.js:14-72 | the `ApplyChanges` row is validated and checked against the unique index for other rows; on failure nothing changes; on success only that row changes |
| UserPG.EmailsUnique | src/models/UserPG.js:24 | in a consistent table no two rows share an email |
| UserPG.Registry.constructor | src/models/UserPG.js:5 | `getUser()` is null before initialisation |
| UserPG.Registry.InitUserModel | src/models/UserPG.js:7-83 | after initialisation `getUser()` is the persisted, consistent `users` table with its stored rows unchanged |
| Passport.DeserializeUser | src/config/passport.js:13-22 | no user without a model; otherwise a user exactly when the id is stored, and then the stored row |
| Passport.SessionRoundTrip | src/config/passport.js:8-22 | deserialising the serialised id of a stored user gives that user back |
| Passport.GitHubEmail | src/config/passport.js:84 | the first profile email when there is one; otherwise `<username>@github.local` |
| Passport.RelinkPreserves | src/config/passport.js:39-48 | a relink changes only provider, provider id and avatar (the new photo only when truthy). Google also sets `emailVerified`; GitHub keeps it. Name, email, password, role and plan are kept |
| Passport.Relink | src/config/passport.js:42-47 | a relink of a stored row never fails, and only that row changes |
| Passport.GoogleVerify | src/config/passport.js:31-64 | without a model it fails. It fails on a profile with no emails, or, when it has to read photos, none. An existing Google user is returned with nothing changed. A user of another provider has that same row relinked. Otherwise exactly one passwordless, verified Google row is created or validation fails. An existing email never gets a second row, and a failure changes nothing |
| Passport.GitHubVerify | src/config/passport.js:78-113 | the same find-or-create, keyed on the profile or synthesised email. The relink leaves `emailVerified` as it was, and a created row is named by the display name or the username |
| Passport.GoogleTwice | src/config/passport.js:37-48 | a second Google login right after a successful one returns the same user |
| AuthController.GeneratedTokenVerifies | src/controllers/authController.js:7-11 | an issued token verifies under the same key to the same id exactly until its lifetime (default 7 days) has passed |
| AuthController.SendTokenResponse | src/controllers/authController.js:14-37 | the given status and a body with the token and id/name/email only. The cookie carries the same token, is httpOnly, secure exactly in production, and expires after `COOKIE_EXPIRE` (default 7) days. The token verifies to the user's id |
| AuthController.OauthSuccess | src/controllers/authController.js:40-56 | with a user: a 7-day token cookie and a redirect to the dashboard carrying that same token; without one: a redirect to the login page and no cookie |
| AuthController.Register | src/controllers/authController.js:59-95 | 500 without a model or with an undefined email. 400 for a registered email, with nothing written. 500 when validation fails, with nothing written. Otherwise exactly one local row, the `Build` result, is added, and the answer is a 201 token response for it |
| AuthController.Login | src/controllers/authController.js:98-151 | 500 without a model. 400 when email or password is falsy. 401 for an unknown email, an account without a password (naming its provider) or a wrong password. 200 exactly when the account exists and its password matches, and then the token response for that account |
| AuthController.Logout | src/controllers/authController.js:154-168 | always 200 with the logout message and the `none` cookie expiring in 10 seconds |
| AuthController.LogoutRedirect | src/controllers/authController.js:171-182 | the same cookie and a 302 redirect to `/` |
| AuthController.GetMe | src/controllers/authController.js:185-209 | 500 without a model or with a null `req.user`; otherwise 200 with the stored row without its password, or null when the row is gone |
| AuthController.UpdateProfile | src/controllers/authController.js:212-248 | 500 without a model or with a null `req.user`; 404 for an unknown id. For a stored row, the name and email are replaced when given: a failing validator answers 500 with it, an email held by another row answers 500 with the unique error, and otherwise the answer is 200 with the new public view and only that row changes. Every non-200 answer leaves the table unchanged |
| AuthMiddleware.ExtractToken | src/middleware/auth.js:8-13 | an `Authorization` header starting with `Bearer` decides alone: its second space-separated word or none; otherwise a truthy `token` cookie; otherwise none |
| AuthMiddleware.BearerRoundTrip | src/middleware/auth.js:9-10 | `Bearer <t>` yields exactly `t` for a token without spaces, whatever the cookie |
| AuthMiddleware.BareBearerIgnoresCookie | src/middleware/auth.js:9-13 | a bare `Bearer` header yields no token even when a cookie is present |
| AuthMiddleware.Protect | src/middleware/auth.js:5-41 | 401 without a token. 500 without a model. 401 when the token does not verify now under the configured key. Otherwise the request proceeds with the stored row for the token's id, or with no user |
| AuthMiddleware.IssuedTokenPassesGate | src/middleware/auth.js:22-34 | a token issued for a stored user, sent as header or cookie, admits exactly that user until it expires and is refused with 401 afterwards |
| AuthMiddleware.Authorize | src/middleware/auth.js:44-54 | a null user is a 500. A listed role proceeds, exactly when it is listed. Any other role gets 403 |
| AuthMiddleware.AuthorizeMonotone | src/middleware/auth.js:44-54 | adding roles never refuses a user the shorter list admitted |
| EmailPattern.MatchesIsRegex | src/models/User.js:17-20 | the email predicate accepts exactly the strings the anchored regular expression matches |
| EmailPattern.LocalReIsDotted | src/models/User.js:18 | `\w+([.-]?\w+)*` matches exactly word runs joined by single dots or dashes |
| EmailPattern.DomainReIsShape | src/models/User.js:18 | the domain part matches exactly such a run that ends in a dot and two or three word characters |
| EmailPattern.LowercaseKeepsMatch | src/models/User.js:16-18 | lower-casing never changes whether an email matches |
| EmailPattern.MatchesJoin | src/models/User.js:18 | a dotted local part, `@` and a well-shaped domain always match |
| EmailPattern.ExampleAccepted | src/models/User.js:18 | `ada@example.com` matches |
| EmailPattern.ExamplesRejected | src/models/User.js:18 | a domain without a final label, or one ending in a four-letter label, does not match |
| JsString.Substring | public/js/animations.js:191-195 | `substring(0, n)` is the prefix of length `n` clamped to `0..length` |
| JsString.Split | src/middleware/auth.js:10 | `split` gives at least one piece and no piece contains the separator |
| JsString.JoinSplit | src/middleware/auth.js:10 | joining the pieces of a split gives the string back |
| JsString.SplitJoin | src/middleware/auth.js:10 | splitting joined separator-free pieces gives the pieces back |
| JsString.TrimIdempotent | src/models/User.js:9 | trimming a trimmed string changes nothing, and the result has no leading or trailing whitespace |
| JsString.ToLower | src/models/User.js:16 | lower-casing keeps the length and lower-cases every character |
| JsString.ToLowerIdempotent | src/models/User.js:16 | lower-casing twice is lower-casing once |
| JsString.Utf16Length | src/models/User.js:10 | the UTF-16 length lies between the code-point length and twice that |
| Crypto.ToyHasherSound | src/models/UserPG.js:77-80 | the hashing assumption can be met |
| Crypto.ToyCodecSound | src/controllers/authController.js:7-11 | the token assumption can be met |
| UserSchema.ParseProvider | src/models/User.js:31-35 | a label parses exactly when it is one of the provider enum labels, and to that value |
| UserSchema.ParseRole | src/models/User.js:40-44 | the same for the role enum |
| UserSchema.ParsePlan | src/models/User.js:45-49 | the same for the plan enum |
| UserSchema.EnumLabelsRoundTrip | src/models/User.js:31-49 | every enum label parses back to its value |
| UserSchema.Errors | src/models/User.js:5-53 | the reported errors are exactly the validators that fail after the setters run |
| UserSchema.NoErrors | src/models/User.js:5-53 | an input with no errors has a trimmed name of 1 to 50 UTF-16 units and a matching email. A password, if given, is at least 6 long. The enum labels are known |
| UserSchema.Validate | src/models/User.js:5-58 | validation fails exactly when some validator fails, with all failing validators |
| UserSchema.ValidatedConforms | src/models/User.js:6-26 | a validated document has a trimmed, non-empty name of at most 50, a lower-case matching email, and a long enough password |
| UserSchema.RevalidateConforming | src/models/User.js:5-53 | validating a conforming document gives it back unchanged |
| UserSchema.LocalDefaults | src/models/User.js:27-53 | given only name, email and password: null avatar and provider id, `local`, `user`, `free`, unverified, trimmed name, lower-case email |
| UserSchema.Project | src/models/User.js:25 | the password is returned only when selected; every other path is unchanged |
| UserSchema.SaveHook | src/models/User.js:61-70 | the intended hook leaves an unmodified or falsy password as it was |
| UserSchema.MatchPassword | src/models/User.js:73-76 | false for any input without a truthy stored password; otherwise bcrypt's verdict |
| UserSchema.SaveHookMatches | src/models/User.js:60-76 | after the intended hook a newly set password matches, and an unmodified document is unchanged |
| UserSchema.NewDocumentHooksAgree | src/models/User.js:61-70 | on a new document, whose given password counts as modified, the hook as written and the intended hook store the same password |
| UserSchema.RehashOnResave | src/models/User.js:62-69 | on a save that did not touch the password, the hook as written hashes the document's digest again and calls `next` twice, and the plaintext no longer matches the new digest, which a save persists; the intended hook keeps the digest |
| UserSchema.UserDocument.constructor | src/models/User.js:5-58 | a new document counts a given password as modified |
| UserSchema.UserDocument.Load | src/models/User.js:5-58 | a loaded document has nothing modified |
| UserSchema.UserDocument.SetPassword | src/models/User.js:22-26 | assigning the password replaces it and marks it modified |
| UserSchema.UserDocument.PreSaveAsWritten | src/models/User.js:61-70 | the hook as written hashes any truthy password and calls `next` twice on its early exit |
| UserSchema.UserDocument.PreSave | src/models/User.js:61-70 | the intended hook hashes only a modified, truthy password and calls `next` once |
| UserSchema.Create | src/models/User.js:5-70 | an invalid input fails with its errors. An email already stored (lower-cased) is a duplicate. Otherwise exactly the new document is added, after the intended hook |
| UserSchema.ValidateSeesLowercase | src/models/User.js:16-20 | validation depends on the email only through its lower-cased form |
| UserSchema.CreateIgnoresCase | src/models/User.js:15-16 | once an address is stored, the same address in other letter case is a duplicate |
| UserSchema.CreatedPasswordMatches | src/models/User.js:61-76 | a created document with a non-empty password matches it |
| SubscriberSchema.ParseKind | src/models/Subscriber.js:19-23 | a label parses exactly when it is `newsletter` or `waitlist`, and to that value |
| SubscriberSchema.Errors | src/models/Subscriber.js:4-27 | the reported errors are exactly the failing validators: email required, email pattern, type enum |
| SubscriberSchema.NoErrors | src/models/Subscriber.js:5-23 | an input with no errors has a matching non-empty email and a known type |
| SubscriberSchema.Validate | src/models/Subscriber.js:4-27 | validation fails exactly when some validator fails, with all failing validators |
| SubscriberSchema.ValidatedConforms | src/models/Subscriber.js:5-18 | a validated subscriber has a lower-case matching email and a trimmed name |
| SubscriberSchema.Defaults | src/models/Subscriber.js:19-27 | given only an email: a newsletter subscription, active, without a name |
| SubscriberSchema.RevalidateConforming | src/models/Subscriber.js:4-27 | validating a conforming subscriber gives it back unchanged |
| SubscriberSchema.Create | src/models/Subscriber.js:5-14 | an invalid input fails with its errors, a stored email is a duplicate, and otherwise exactly the new subscriber is added, with every stored entry kept |
| SubscriberSchema.SubscribeTwice | src/models/Subscriber.js:8-9 | subscribing the same address twice, in any letter case, is a duplicate |
| ApiController.SubmitContact | src/controllers/apiController.js:3-28 | 200 with the thank-you message and one log line exactly when name, email and message are all truthy; otherwise 400; 500 for a missing body |
| ApiController.SubscribeNewsletter | src/controllers/apiController.js:30-54 | 200 and a log line exactly when the email is truthy; otherwise 400; 500 for a missing body |
| ApiController.JoinWaitlist | src/controllers/apiController.js:56-80 | the same, logging the email and the optional name |
| ApiController.HandlersShape | src/controllers/apiController.js:3-80 | every handler answers 200, 400 or 500, logs exactly on 200, and sets no cookie or redirect |
| ApiController.WaitlistIgnoresName | src/controllers/apiController.js:56-80 | the waitlist answer does not depend on the name and has the newsletter status |
| ApiController.ContactStricterThanNewsletter | src/controllers/apiController.js:3-54 | a contact body that passes also passes the newsletter |
| TypeWriterAnimation.Step | public/js/animations.js:187-215 | the text is always a prefix of the current word and grows or shrinks by one, clamped. A finished word switches to deleting and waits `wait`. An emptied word moves on and waits 500 ms. Otherwise the delay is 100 ms typing or 50 ms deleting |
| TypeWriterAnimation.RunAppend | public/js/animations.js:214 | running `a` steps and then `b` steps is running `a + b` steps, with the delays added |
| TypeWriterAnimation.TypeUp | public/js/animations.js:191-212 | typing from a prefix reaches the whole word in the remaining number of steps at 100 ms each, the last waiting `wait` |
| TypeWriterAnimation.DeleteDown | public/js/animations.js:191-212 | deleting `k` characters takes `k` steps at 50 ms each, the last waiting 500 ms and moving to the next word |
| TypeWriterAnimation.FullCycle | public/js/animations.js:187-215 | one word takes `2 * max(len, 1)` steps and `150 * (max(len, 1) - 1) + wait + 500` ms, and ends empty at the next word |
| TypeWriterAnimation.TypeWriter.constructor | public/js/animations.js:177-185 | a new writer starts empty at the first word and performs one step at once |
| TypeWriterAnimation.TypeWriter.Type | public/js/animations.js:187-215 | one call moves the fields and the scheduled delay exactly as `Step` does, keeps the text a prefix of the current word, and renders it |
| TypeWriterAnimation.PageDefaults | public/js/animations.js:219-225 | the page writer first shows `A` and schedules its next step in 100 ms |
| ThemeScript.AddToken | public/js/theme-script.test.js:49 | `classList.add` keeps the existing tokens in order, adds the token only when it is absent, and keeps tokens distinct |
| ThemeScript.RootElement.Add | public/js/theme-script.test.js:49 | the class list becomes the `AddToken` result |
| ThemeScript.ApplyThemeScript | public/js/theme-script.test.js:43-51 | `dark-mode` is added exactly when the saved theme is `dark` and the path is not `/dashboard`; otherwise nothing changes |
| ThemeScript.ScriptDecision | public/js/theme-script.test.js:65-211 | on a fresh page the class is present exactly for a saved `dark` off `/dashboard`; `light`, a missing or any other value never adds it |
| ThemeScript.ScriptOnlyAdds | public/js/theme-script.test.js:43-51 | existing classes stay, only `dark-mode` can appear, and running the script again changes nothing |
| ThemeScript.FreshPage | public/js/theme-script.test.js:213-251 | on a fresh document the class is present exactly when the decision holds |
| ThemeScript.TrailingSlashDashboardDarkened | public/js/theme-script.test.js:45 | as written, `/dashboard/` with a saved `dark` gets `dark-mode` |
| ThemeScript.ApplyThemeScriptIntended | public/js/theme-script.test.js:97-120 | the intended script adds `dark-mode` exactly for a saved `dark` off both dashboard paths |
| ThemeScript.IntendedMeetsTests | public/js/theme-script.test.js:65-251 | the intended script meets every property the tests state and differs from the script as written only on `/dashboard/` |
| AccountFlows.RegisterLoginAndProtect | src/controllers/authController.js:59-151 | after a 201 registration, login with the same password answers 200 for the same public user. The login cookie passes `protect` with the new row. Registering again answers 400. A failed registration writes nothing |

## Left out

- bcrypt and JWT internals are left out: hashing, salting rounds and the token encoding are oracles. The model assumes that a digest is non-empty and verifies its plaintext, that a signed token is non-empty and has no spaces (a JWT is three base64url segments joined by dots, which the `Bearer` split relies on), and that a token verifies to its claims exactly before it expires. Tokens without an `exp` claim never arise, because `generateToken` always sets one.
- Sequelize's `isEmail` (validator.js) is a parameter of the table, not a definition.
- UUIDv4 primary keys are modelled by a counter, which is fresh in the same way.
- `createdAt`/`updatedAt` timestamps are left out, and so is `syncUserModel`, which only migrates the schema.
- `async`/`await` is left out: each handler runs as one atomic step, so interleavings of concurrent requests are not modelled. The unique index still rules out duplicate emails in the table.
- Express routing, `cookie-parser`, `express-session` and `req.logout` are left out. Handlers take their inputs and return the response they send.
- Error message texts thrown by Sequelize, mongoose or `jwt.verify` are not modelled, only which error occurs. The same goes for mongoose's generated enum messages.
- `JWT_EXPIRE` strings such as `'7d'` are given already converted to seconds. `COOKIE_EXPIRE` is given as a number of days.
- Request bodies hold strings or nothing. JSON `null`, numbers, arrays and objects, whose truthiness differs, are not modelled. A missing body is the 500 case.
- `ToLower` lower-cases ASCII letters only. Unicode case mapping is not modelled.
- Lengths are code points, except where mongoose counts UTF-16 units, which `Utf16Length` models.
- The GitHub profile id is given already converted with `toString()`.
- `ThemeScript.ApplyThemeScript` takes `location.pathname` as given. The URL parsing that produces it is not modelled.
- The `setTimeout` timer and `element.innerHTML` are left out. `TypeWriter` keeps the scheduled delay and the markup in fields.
- `animateCounter` and the rest of public/js/animations.js are left out, as not part of this core.
- `AuthMiddleware.Authorize` answers a null `req.user` with a JSON 500 (`NullUser`). In Express the TypeError goes to the default error handler, which sends an HTML 500 page; its body is not modelled.
- `TypeWriterAnimation.TypeWriter.constructor` takes `wait` as an integer. The `parseInt(wait, 10)` conversion and the `wait = 3000` default are not modelled; the page always passes 2000.
- `TypeWriterAnimation.TypeWriter.constructor` requires a non-empty word list. With none, `words[0 % 0]` is undefined and the first step throws, which is not modelled.
- `UserPG.UserTable.Update` does not state the new email index beyond its consistency (`Valid()`).
- `Passport.GoogleTwice` states that the second result equals the first. It does not restate that the table is untouched by the second call, which `Passport.GoogleVerify` already states.

## Findings

| source | as written | input that shows it | evidently intended | confidence | as-written member | corrected member |
|---|---|---|---|---|---|---|
| src/models/User.js:62-64 | the early `next()` has no `return`. The hook goes on to hash any truthy password, modified or not, and calls `next` a second time | re-saving a loaded user whose password was not changed: the document's digest is hashed again, and a save persists it | skip hashing when the password was not modified (`return next()`) | high, not executed | UserSchema.RehashOnResave | UserSchema.UserDocument.PreSave |
| public/js/theme-script.test.js:45 | the dashboard check is `pathname === '/dashboard'` | saved theme `dark` on `/dashboard/`, which the test at lines 97-120 expects to stay light | treat `/dashboard` and `/dashboard/` as the dashboard | high, not executed | ThemeScript.TrailingSlashDashboardDarkened | ThemeScript.ApplyThemeScriptIntended |
