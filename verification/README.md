# PlayCafe customer accounts in Dafny

This project models the customer account lifecycle of the PlayCafe
restaurant-reservation backend: registration with an emailed one-time code,
code verification, login (server session, signed token and `authToken`
cookie), password reset and logout. It proves the orders in which the
handlers check things and which fields each handler may change.

- `types.dfy` (`Types`): the customer record, session projection, token
  claims, cookie, responses and verification mail. It also holds `Env`, the
  external pieces (the email-format rule, bcrypt's hash and compare), given as
  functions whose internals are not modelled.
- `decimal.dfy` (`Decimal`): `Number.prototype.toString()` on non-negative
  integers below 10^21 (the one-time code's range is far below that). It proves that the string reads back as the number, that it has
  no leading zero, and that its length depends on the number's magnitude.
- `schema.dfy` (`Schema`): the zod schemas. Each one gives the list of rules
  a request breaks, in field order.
- `customer_controller.dfy` (`CustomerController`): each handler as a step
  function from (store, session) to the new state, the response and the mail.
  The class `Controller` holds `store: map<string, Customer>` (keyed by email,
  since every lookup is by email) and `session: Option<SessionUser>`. Its
  methods update those fields in place, and each method's contract is the
  matching step function. `Consistent` is the store invariant the methods
  keep:
  - an unverified record has a six-digit code and an expiry;
  - a verified record has neither;
  - the session belongs to a verified customer.
- `lifecycle.dfy` (`Lifecycle`): sequences of requests and the properties
  that hold across them.

The clock (`now`, milliseconds), the random draw, bcrypt's salt and the
document id assigned on insert are parameters of the handlers.

## Model

| member | source | states |
|---|---|---|
| `Schema.CustomerIssues` | backend/controller/customer.controller.js:10-20 | Registration input is accepted exactly when the name is non-empty, the email is well formed and the password has at least 6 characters. Each broken rule appears in the issue list. Every issue is one of the three rules, and the issues come in field order (name, email, password), each at most once. |
| `Schema.CredentialIssues` | backend/controller/customer.controller.js:87-96 | The login/reset schema accepts exactly a well-formed email with a password of at least 6 characters. Each broken rule appears in the issue list, it never reports a name issue, and its issues come in field order (email, password), each at most once. |
| `Schema.RegisteredInputPassesLoginSchema` | backend/controller/customer.controller.js:87-90 | Input that passes the registration schema also passes the login schema. |
| `Decimal.DecimalRoundTrip` | backend/controller/customer.controller.js:29 | For a non-negative integer below 10^21, which covers every one-time code, `toString` is all digits, and parsing it back gives the same number. |
| `Decimal.DecimalInjective` | backend/controller/customer.controller.js:29 | Two different draws always render as two different codes. |
| `Decimal.DecimalLength` | backend/controller/customer.controller.js:29 | A number in [10^k, 10^(k+1)) renders as k+1 characters, and the first one is not '0'. |
| `CustomerController.OtpCodeShape` | backend/controller/customer.controller.js:29 | Every value `crypto.randomInt(100000, 999999)` can return renders as a six-digit code with no leading zero that reads back as the value. |
| `CustomerController.RegisterStep` | backend/controller/customer.controller.js:16-50 | If the schema fails, the result is 400 with the schema's issues and nothing changes. If the email is already stored, the result is 400 "Email is already registered" and nothing changes. Otherwise the result is 201 and exactly one record is added at the email, leaving the other records and the session untouched. The new record holds the given id and name, the hash of the password, `isVerified = false`, a six-digit code that reads back as the draw, and expiry `now + 300000`. The same code is mailed to the email. The store invariant is kept. |
| `CustomerController.VerifyStep` | backend/controller/customer.controller.js:53-83 | Status 200 is returned exactly when the email is stored, the account is unverified, the code matches and `now` is not past the expiry (equal is accepted). Each failure is a 400 that leaves everything unchanged, checked in this order: missing or verified account ("Invalid request or already verified"), then wrong code ("Invalid OTP"), then expired code. On success `isVerified` becomes true and `otp` and `otpExpiry` are cleared. Id, name, email, password, the other records and the session are unchanged. The store invariant is kept. |
| `CustomerController.TokenPayload` | backend/controller/customer.controller.js:114-125 | The token claims carry the customer's id as `sub`, plus name, email and role "customer". `iat` is `now` in whole seconds, and `exp` is exactly 3600 seconds later. |
| `CustomerController.LoginStep` | backend/controller/customer.controller.js:86-153 | A schema failure gives 400. 200 is returned exactly when the input is valid and the account exists, is verified and the password matches. 401 is returned exactly when the email is unknown, or the account is verified and the password does not match, and both cases get the same "Invalid email or password" response. 403 is returned exactly when the account exists and is unverified, whatever the password. No failure changes the session or the store. On success the store is unchanged and the session becomes the customer's (id, name). The body carries the token with `TokenPayload`, role "customer" and the user view {id, name, email}. The `authToken` cookie is HTTP-only and secure, and its max-age equals the token's lifetime in milliseconds. The store invariant is kept. |
| `CustomerController.ResetStep` | backend/controller/customer.controller.js:156-179 | A schema failure gives 400. An unknown email gives 401 "Invalid email". In both cases nothing changes. Otherwise the result is 200, and only that record's password becomes the new hash, whether or not the account is verified. All other fields, records and the session are unchanged. |
| `CustomerController.LogoutStep` | backend/controller/customer.controller.js:181-188 | The session becomes empty, the store is untouched, and the result is 200 with text "Logged out successfully!". |
| `CustomerController.Controller.CreateCustomer` | backend/controller/customer.controller.js:16-50 | The in-place handler keeps `Valid()`. Its new fields, response and mail are `RegisterStep` of the old fields, and the session is never touched. |
| `CustomerController.Controller.VerifyOtp` | backend/controller/customer.controller.js:53-83 | The in-place handler keeps `Valid()` and matches `VerifyStep`. On success only the record at the email changes: its `isVerified`, `otp` and `otpExpiry` are updated. On failure the store is unchanged. |
| `CustomerController.Controller.LoginCustomer` | backend/controller/customer.controller.js:86-153 | The in-place handler keeps `Valid()` and matches `LoginStep`. It never changes the store, and it sets the session only on success. |
| `CustomerController.Controller.ResetPassword` | backend/controller/customer.controller.js:156-179 | The in-place handler keeps `Valid()` and matches `ResetStep`. On success only the password of the record at the email is replaced. |
| `CustomerController.Controller.Logout` | backend/controller/customer.controller.js:181-188 | The in-place handler keeps `Valid()` and matches `LogoutStep`: the session is emptied and the store is kept. |
| `Lifecycle.RunKeepsConsistent` | backend/controller/customer.controller.js:33-78 | After any sequence of requests the store is still consistent: every record is either unverified with a six-digit code and an expiry, or verified with neither. Any session belongs to a verified customer. |
| `Lifecycle.HandleKeeps` | backend/controller/customer.controller.js:16-188 | No handler deletes a record or changes its id, name or email, and none turns a verified account back to unverified. |
| `Lifecycle.RunKeeps` | backend/controller/customer.controller.js:16-188 | The guarantees of `HandleKeeps` hold across any sequence of requests. |
| `Lifecycle.VerifiedAtMostOnce` | backend/controller/customer.controller.js:60-62 | Over any sequence of requests an account is verified successfully at most once. If it is already verified, it is never verified again. |
| `Lifecycle.WrongCodeBeatsExpiry` | backend/controller/customer.controller.js:65-70 | A wrong code that has also expired is reported as "Invalid OTP", and nothing changes. |
| `Lifecycle.CodeAcceptedAtExpiry` | backend/controller/customer.controller.js:68-70 | The right code is still accepted at the exact expiry instant. |
| `Lifecycle.UnknownEmailLooksLikeWrongPassword` | backend/controller/customer.controller.js:101-112 | Login with an unknown email and login with a verified account's wrong password produce identical responses. |
| `Lifecycle.RegisterVerifyLogin` | backend/controller/customer.controller.js:16-147 | Assume a password matches its own hash. Then a new customer who registers and verifies with the mailed code no later than its expiry gets 200 from login with their password. Login returns the user {id, name, email} and sets session (id, name). A second verification with the same code gets "Invalid request or already verified". |
| `Lifecycle.SecondRegistrationRefused` | backend/controller/customer.controller.js:22-25 | After a successful registration, registering the same email again with valid input gets 400 "Email is already registered". |

Notes on the source:
- The random code comes from `crypto.randomInt(100000, 999999)`, whose upper bound is exclusive. So the code ranges over 100000–999998, and 999999 is never issued.
- Reset answers an unknown email with "Invalid email". This is not the
  "Invalid email or password" message login uses.
- A missing `otpExpiry` never counts as expired, because comparing a date with `undefined` is false. The invariant means this never arises.

## Left out

- The 500 paths of every handler. The catch blocks answer 500 when the
  database, bcrypt, mail delivery or token signing fails. Token signing fails,
  for example, when the signing secret is unset. None of these failures is
  modelled. So the case where a record stays stored although its mail failed
  is not modelled either.
- A failure of the duplicate-email lookup in registration. That lookup runs
  before the `try` block, so its failure is not caught and produces no 500
  response. It is not modelled.
- Logout's error path, where destroying the session fails (500 "Failed to log out."). Logout always succeeds here.
- `Decimal.DecimalString` does not model JavaScript's exponent form (`"1e+21"`) for Numbers of 10^21 or more, nor the loss of exactness above 2^53. The one-time codes it renders are six-digit numbers.
- Requests whose fields are missing or are not strings, for example a numeric `otp`. All fields are strings here.
- zod's issue objects are reduced to their path and message. Lengths are counted in characters, not UTF-16 code units.
- bcrypt, the email-format rule and bcrypt's comparison are the functions of
  `Env`, and their internals are not modelled. "A password matches its own
  hash" (`HashSound`) is assumed only where a lemma needs it.
- The token signature, the signing secret and the session cookie of the
  session middleware are not modelled. The token is modelled as its claims.
- The document id is a parameter, and the database's guarantee that ids are unique is not modelled.
- Concurrency: each handler is one atomic step, so races between the lookup and the save are not modelled.
- The reservation router and the footer component are route wiring and markup with no logic of their own.
