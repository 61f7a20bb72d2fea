# OTP authentication flow and bearer-token gate

A Dafny model of the authentication core of the vidhanaa API backend:

- the in-memory OTP challenge store (`otpMap`) and the five routes that read and write it next
  to the user table: `/login`, `/signup`, `/social-login`, `/verify-otp`, `/resend-otp`
  (`src/routes/userAuth.ts`);
- the bearer-token gate `authMiddleware` that guards the user routes
  (`src/middleware/authMiddleware.ts`).

## Layout

| file | module | what it holds |
|---|---|---|
| `wrappers.dfy` | `Wrappers` | `Option`, for absent body fields and map misses |
| `decimal.dfy` | `Decimal` | `Number#toString` of a non-negative integer, its parser, round trip and length |
| `js_string.dfy` | `JsString` | the logical-or default of a string, `String#indexOf`, and `String#replace` with a string pattern (first occurrence only) |
| `auth_flow.dfy` | `AuthFlow` | the store, the collaborators, and each route as a pure transition with its contract |
| `auth_routes.dfy` | `AuthRoutes` | class `AuthRouter`: the routes as methods that update `otpMap` and the table in place |
| `auth_scenarios.dfy` | `AuthScenarios` | properties of sequences of requests |
| `auth_middleware.dfy` | `AuthMiddleware` | token extraction and the gate's three outcomes |
| `sessions.dfy` | `Sessions` | the routes' session tokens presented to the gate |
| `auth_findings.dfy` | `AuthFindings` | the two handlers that answer an error without returning, and their corrected forms |

How the source is represented:

- **State.** `AuthFlow.Store` holds `otpMap: map<string, Challenge>`, the user table as
  `map<string, User>` keyed by email with the next auto-increment id, and an outbox of mails.
  `AuthRoutes.AuthRouter` holds the same four things as mutable fields. Each method is proved
  to leave exactly the store, and return exactly the response, that the `AuthFlow` function
  of its route gives. `AuthFlow.Valid` is the invariant every route keeps:
  - the table is keyed by each row's email;
  - ids are distinct and below the next id;
  - every challenge code is six decimal digits;
  - a challenge carries a password hash exactly when it carries a name.
- **Responses.** A handler's outcome is the FIRST status and body it sends. A second write
  makes Express throw "headers already sent" at once. The throw skips the rest of the
  handler and lands in its `catch`. The `catch`'s own 500 write throws again, so the
  handler's promise rejects. The store is what it was at the second write:
  - in `/verify-otp`, every change comes before the second write, so a refused code still
    deletes the entry and can still create the user;
  - in `/resend-otp`, the 404 after the 400 for `""` ends the handler before the challenge
    is written.
- **Collaborators.** They are the fields of `AuthFlow.Env`:
  - bcrypt `hash` (the salt is folded in) and `compare`, as arbitrary total functions;
  - express-validator `isEmail`;
  - the signing key.
- **Inputs.**
  - `Date.now()` is the input `now`, in milliseconds.
  - The `Math.random` expression is the input `code`, required to lie in 100000..999999.
  - Nodemailer's success is the input `mailOk`.
- **Body fields.** A field is `Option<string>`. JavaScript's `!field` is `!Truthy(field)`: the
  field is absent or "".
- **Plain definitions.** `JsString.Or` is `||` on a string, `AuthFlow.Lookup` is
  `Map#get`, and `AuthFlow.Sign` is the `jwt.sign` call of the routes. What they do is
  stated in the contracts of the routes and the gate that use them.
- **The gate.** `jwt.verify` is a parameter `verify: (string, string) -> Option<Payload>`. The
  key is a parameter, so the two default keys can differ: `"your_secret"` in the routes and
  `"your-secret-key"` in the gate. `Sessions.Jwt` states what is taken from jsonwebtoken: a
  token verifies only under the key it was signed with, and decodes to the claim it was
  signed over.

Library behaviour the model fixes:

- A Prisma `findUnique` whose `where` email is undefined throws, because it names no unique
  field. The handler's `catch` takes over. So `/resend-otp` with NO email field answers 400
  and writes nothing. `""` writes the entry only when some user has the email `""`, which
  `/social-login` allows. Any other email writes the entry, whether or not it has a user
  (`AuthFlow.ResendWrites`).
- The table's `name` and `password` columns are taken as required; the schema is not part of
  this model. A create that lacks one of them fails:
  - `/verify-otp` on a login challenge for an email with no user, with the code accepted in
    time, answers 500 "Failed to create user";
  - `/social-login` without a name for a new email answers 500.

The code's behaviour in edge cases:

- A code presented exactly at the expiry instant is accepted, because the test is
  `now > expires` (`AuthScenarios.AcceptedAtExactExpiry`).
- `/resend-otp` writes a challenge for a non-empty email with no user.
- `/verify-otp` tries to create a user whenever a challenge existed and no user has the
  email, not only for signup challenges. It does so even when the code was refused.
- A non-empty header without "Bearer " is not refused as missing. It is passed whole to
  `jwt.verify`.

## Model

| member | source | states |
|---|---|---|
| `Decimal.Show` | src/routes/userAuth.ts:62 | the decimal string of `n` is non-empty, all digits, and starts with '0' only for 0 |
| `Decimal.ParseShow` | src/routes/userAuth.ts:62 | parsing the decimal string of `n` gives back `n` |
| `Decimal.ShowLength` | src/routes/userAuth.ts:62 | a number between 10^k and 10^(k+1) renders as k+1 characters |
| `JsString.IndexOfFrom` | src/middleware/authMiddleware.ts:23 | the result is an occurrence at or after `k` with none before it; `None` only when no occurrence exists from `k` on |
| `JsString.IndexOf` | src/middleware/authMiddleware.ts:23 | finds an occurrence exactly when one exists, and it is the first |
| `JsString.ReplaceFirst` | src/middleware/authMiddleware.ts:23 | without an occurrence the string is unchanged; otherwise only the first occurrence is replaced |
| `JsString.ReplaceLeading` | src/middleware/authMiddleware.ts:23 | a string that starts with the pattern loses exactly that prefix occurrence, whatever follows |
| `AuthFlow.OtpString` | src/routes/userAuth.ts:62 | the passcode is six decimal digits with no leading zero and denotes the drawn code |
| `AuthFlow.NewChallenge` | src/routes/userAuth.ts:62-63 | a challenge expires exactly 300000 ms after `now` and its code denotes the drawn number |
| `AuthFlow.Remove` | src/routes/userAuth.ts:185 | `otpMap.delete(email)` removes that email's entry and keeps every other entry |
| `AuthFlow.Login` | src/routes/userAuth.ts:35-86 | status 400 iff the credentials fail; a 400 leaves the whole store unchanged; missing fields and an unknown email or wrong password give their two messages; success overwrites the email's entry with exactly a password-less 5-minute challenge and keeps every other entry; the mail decides 200 vs 500; no user is created |
| `AuthFlow.ValidatorLength` | src/routes/userAuth.ts:18-20 | the length `isLength` measures is at most the number of code points, and equal to it exactly when the password has no U+FE0E or U+FE0F selector |
| `AuthFlow.SignupErrors` | src/routes/userAuth.ts:16-22 | no error exactly when the email passes `isEmail`, the password has 6 or more characters as `isLength` counts them, and the name is non-empty; absent fields read as "" |
| `AuthFlow.Signup` | src/routes/userAuth.ts:89-141 | validation errors and "Email already in use" leave the store unchanged; otherwise the email's entry carries the password hash and the name and expires 300000 ms after `now`; no user row is created |
| `AuthFlow.SocialLogin` | src/routes/userAuth.ts:143-174 | never touches `otpMap`; an existing user is answered unchanged; a new email gets one row with an empty password and the next id; no validation applies |
| `AuthFlow.VerifyOtp` | src/routes/userAuth.ts:176-213 | 400 iff no entry, another code or `now > expires`; the entry is deleted whatever the outcome; a user is created iff an entry existed, the email had no user, and the entry carries hash and name, even after a 400; an existing user is never duplicated; a 200 is the session of the email's user; an accepted code answers 200 with the session of the existing or newly created user, or 500 "Failed to create user" when the email has no user and the challenge lacks hash or name |
| `AuthFlow.ResendOtp` | src/routes/userAuth.ts:215-252 | an absent email, or "" with no user, changes nothing and answers 400; any other email, including one with no user and "" when a user has it, gets a password-less 5-minute challenge and, when the mail goes out, one resend mail; the first response is 400 for "", 404 for an unknown non-empty email, else 200 or 500 by the mail; no user is created |
| `AuthRoutes.AuthRouter.constructor` | src/routes/userAuth.ts:8-11 | the router starts with an empty challenge map over the given user table |
| `AuthRoutes.AuthRouter.Login` | src/routes/userAuth.ts:35-86 | the in-place handler leaves exactly the store and response of `AuthFlow.Login` and keeps `Valid` |
| `AuthRoutes.AuthRouter.Signup` | src/routes/userAuth.ts:89-141 | the in-place handler leaves exactly the store and response of `AuthFlow.Signup` and keeps `Valid` |
| `AuthRoutes.AuthRouter.SocialLogin` | src/routes/userAuth.ts:143-174 | the in-place handler leaves exactly the store and response of `AuthFlow.SocialLogin` and keeps `Valid` |
| `AuthRoutes.AuthRouter.VerifyOtp` | src/routes/userAuth.ts:176-213 | the in-place handler leaves exactly the store and response of `AuthFlow.VerifyOtp` and keeps `Valid` |
| `AuthRoutes.AuthRouter.ResendOtp` | src/routes/userAuth.ts:215-252 | the in-place handler leaves exactly the store and response of `AuthFlow.ResendOtp` and keeps `Valid` |
| `AuthScenarios.WrongCodeConsumesChallenge` | src/routes/userAuth.ts:182-185 | after a wrong code, the mailed code is refused too |
| `AuthScenarios.NoChallengeRefused` | src/routes/userAuth.ts:180-184 | any code for an email without an entry is refused |
| `AuthScenarios.SignupThenVerifyCreatesUser` | src/routes/userAuth.ts:113-118 | signup and then the mailed code within five minutes create the user with that email, name and password hash, answer its session, and let its password pass the login check |
| `AuthScenarios.LoginThenVerifyIssuesSession` | src/routes/userAuth.ts:62-63 | login and then the mailed code within five minutes answer a session for the existing user and create no user |
| `AuthScenarios.AcceptedAtExactExpiry` | src/routes/userAuth.ts:182 | the mailed code is accepted exactly 300000 ms after issue and refused 1 ms later |
| `AuthScenarios.SecondLoginSupersedesFirst` | src/routes/userAuth.ts:63 | a second login overwrites the challenge, so the first mailed code is refused |
| `AuthScenarios.SocialLoginIdempotent` | src/routes/userAuth.ts:150-162 | a second social login for the same email leaves the store as the first left it and answers the same session |
| `AuthMiddleware.ExtractToken` | src/middleware/authMiddleware.ts:23 | the token is the header with its first "Bearer " removed wherever it occurs, or the whole header when there is none; no header, no token |
| `AuthMiddleware.Gate` | src/middleware/authMiddleware.ts:18-41 | every refusal is 401; "Authorization token required" iff the token is absent or empty; "Invalid or expired token" iff `verify` fails on a non-empty token; admitted iff `verify` succeeds on a non-empty token, and then `req.user` is exactly the decoded id and email |
| `AuthMiddleware.AbsentHeaderRejected` | src/middleware/authMiddleware.ts:23-27 | no `Authorization` header gives 401 "Authorization token required" |
| `AuthMiddleware.BearerTokenExtracted` | src/middleware/authMiddleware.ts:23 | "Bearer " + t yields t, even when t contains "Bearer " |
| `AuthMiddleware.BareBearerRejected` | src/middleware/authMiddleware.ts:23-27 | the header "Bearer " alone gives the missing-token 401 |
| `AuthMiddleware.BearerHeaderVerified` | src/middleware/authMiddleware.ts:30-39 | for "Bearer " + t with t non-empty, a failed verification gives the invalid-token 401, a successful one admits with the decoded id and email |
| `Sessions.KeysAgreeOnlyWhenConfigured` | src/middleware/authMiddleware.ts:4 | the routes' signing key equals the gate's key iff `JWT_SECRET_KEY` is set and non-empty |
| `Sessions.UnconfiguredKeyRefusesEverySession` | src/middleware/authMiddleware.ts:31-39 | with the variable unset or empty, every session token the routes sign is refused by the gate as invalid |
| `Sessions.SocialSessionPassesGate` | src/middleware/authMiddleware.ts:31-36 | with the key configured, a social login's session is admitted with `req.user` = the user's id and email |
| `AuthFindings.RefusedCodeStillCreatesUser` | src/routes/userAuth.ts:182-198 | as written, a refused code for a pending signup answers 400 and still creates the account from the stored hash and name |
| `AuthFindings.VerifyOtpReturning` | src/routes/userAuth.ts:182-184 | with the missing return added, a refusal changes nothing and a user is created only by the stored code before expiry |
| `AuthFindings.UnknownEmailGetsChallenge` | src/routes/userAuth.ts:219-230 | as written, resend for a non-empty email with no user answers 404 and still issues a challenge and mails its code |
| `AuthFindings.UnknownEmailChallengeCannotComplete` | src/routes/userAuth.ts:187-202 | for a non-empty email with no user, the code of such a challenge, presented in time, answers 500 "Failed to create user" |
| `AuthFindings.ResendOtpReturning` | src/routes/userAuth.ts:219-227 | with the missing returns added, a challenge is issued only for an email that belongs to a user |

## Left out

- `src/index.ts` (app wiring, CORS, `listen`, shutdown), `src/routes/users.ts` and
  `prisma/seed.ts` are not part of this model.
- `errorHandler` (src/routes/userAuth.ts:25-33) is left out. No route passes an error to
  `next`, so it never answers any of these requests.
- Console logging and nodemailer's transport configuration are left out. A mail is recorded
  in the outbox when `mailOk` holds, and `!mailOk` stands for `sendMail` throwing.
- Prisma failures other than two are left out: a lookup by an absent email and a create
  missing a required column. Also left out: a lost database connection, and a unique-email
  violation from a concurrent create.
- Concurrent requests are left out. Each handler runs as one atomic step, so interleavings
  on `otpMap` are not modelled.
- `AuthFlow.Env.hash` is a deterministic function, because bcrypt's random salt is not
  modelled. `compare` is arbitrary; a lemma that needs `compare(p, hash(p))` says so.
- `Math.random` (floating point) and `Date.now` are inputs. The only property used of the
  former is its range.
- Token expiry and the compact encoding of a token are left out. They are inside the
  abstract `verify` and `encode` parameters; `jwt.verify` is not modelled past `Sessions.Jwt`.
- Body values that are neither strings nor absent are left out (a numeric `otp`, say).
- Express-validator is reduced to the three checks with `isEmail` abstract. It is attached
  to `/social-login` but its result is never read there, so it has no effect.
- The promise rejection a second write causes is left out. No handler for it is installed,
  and Express and Node versions are not part of this model, so what the process does next
  is not modelled. The model stops at the store as it was at the second write.
- `String#replace` replacement patterns (`$&`, …) are left out; the gate replaces with "".

## Findings

| source | as written | input that shows it | evidently intended | confidence | as-written member | corrected member |
|---|---|---|---|---|---|---|
| src/routes/userAuth.ts:182-198 | the 400 for a refused code is not followed by `return`; the challenge is deleted and, for a signup challenge, the account is created | a pending signup challenge for e, then `/verify-otp` for e with any other code | a refused code creates no account | not executed; high | `AuthFindings.RefusedCodeStillCreatesUser` | `AuthFindings.VerifyOtpReturning` |
| src/routes/userAuth.ts:219-230 | the 404 is not followed by `return`; a login challenge is stored and mailed anyway | `/resend-otp` for a non-empty email with no user | only existing users receive a challenge | not executed; high | `AuthFindings.UnknownEmailGetsChallenge` | `AuthFindings.ResendOtpReturning` |
