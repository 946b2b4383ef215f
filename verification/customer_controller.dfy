/** The customer account lifecycle: registration with a one-time code,
    code verification, login, password reset and logout.

    Each handler is given twice: as a step function from the server state
    before the request to the state after it and the response (used to reason
    about sequences of requests), and as a method of `Controller`, whose
    fields the handler updates in place and whose contract is that step. */
module CustomerController {
  import opened Types
  import opened Decimal
  import opened Schema

  // Bounds of crypto.randomInt(100000, 999999): the upper bound is exclusive.
  const OtpLow := 100000
  const OtpHigh := 999999
  // The code stays valid five minutes after registration.
  const OtpLifetimeMs := 5 * 60 * 1000
  // jwt.sign(..., {expiresIn: "1h"})
  const TokenLifetimeSeconds := 60 * 60
  const AuthCookieName := "authToken"
  const AuthCookieMaxAgeMs := 1000 * 60 * 60
  const CustomerRole := "customer"

  const EmailTaken := "Email is already registered"
  const OtpSent := "OTP sent to your email. Verify to complete registration."
  const AlreadyVerified := "Invalid request or already verified"
  const InvalidOtp := "Invalid OTP"
  const OtpExpired := "OTP expired. Please register again."
  const Verified := "Registration successful!"
  const InvalidCredentials := "Invalid email or password"
  const NotVerified := "Account not verified. Please verify your email."
  const LoginSucceeded := "Login successful"
  const UnknownEmail := "Invalid email"
  const PasswordReset := "Password reset successful"
  const LoggedOut := "Logged out successfully!"

  /** The account store, keyed by email (every lookup is by email), and the
      session slot of the current browser context. */
  datatype Server = Server(store: map<string, Customer>, session: Option<SessionUser>)

  /** The state after a request, the HTTP response, and the mail sent, if any. */
  datatype Outcome = Outcome(server: Server, response: Response, mail: Option<Mail>)

  /** A code as registration issues it: six digits, the first not zero. */
  predicate IsOtpCode(s: string)
  {
    |s| == 6 && AllDigits(s) && s[0] != '0'
  }

  /** Every draw of the random generator renders as a six-digit code that
      reads back as the draw. */
  lemma OtpCodeShape(draw: nat)
    requires OtpLow <= draw < OtpHigh
    ensures IsOtpCode(DecimalString(draw))
    ensures ParseDecimal(DecimalString(draw)) == draw
  {
    assert Pow10(5) == OtpLow && Pow10(6) == 1000000;
    DecimalLength(draw, 5);
    DecimalRoundTrip(draw);
  }

  /** A record is either unverified with a code and its expiry, or verified
      with neither; it is filed under its own email. */
  predicate RecordConsistent(email: string, c: Customer)
  {
    && c.email == email
    && (c.isVerified <==> c.otp.None?)
    && (c.otp.None? <==> c.otpExpiry.None?)
    && (c.otp.Some? ==> IsOtpCode(c.otp.value))
  }

  predicate SessionOf(u: SessionUser, c: Customer)
  {
    c.isVerified && u == SessionUser(c.id, c.name)
  }

  /** Every record is consistent, and a session belongs to a verified customer. */
  predicate Consistent(s: Server)
  {
    && (forall e :: e in s.store ==> RecordConsistent(e, s.store[e]))
    && (s.session.Some? ==> exists e :: e in s.store && SessionOf(s.session.value, s.store[e]))
  }

  /** m2 has the keys of m1 and differs from it at most at key k. */
  predicate SameExcept(m1: map<string, Customer>, m2: map<string, Customer>, k: string)
  {
    m1.Keys == m2.Keys && forall e :: e in m1 && e != k ==> m2[e] == m1[e]
  }

  /** The fields verification never changes. */
  predicate SameAccount(c1: Customer, c2: Customer)
  {
    c1.id == c2.id && c1.name == c2.name && c1.email == c2.email && c1.password == c2.password
  }

  /** Replacing records without changing any id, name or verified flag keeps
      the owner of the session in the store. */
  lemma KeepsSessionOwner(s: Server, store': map<string, Customer>)
    requires forall e :: e in s.store ==>
               && e in store' && store'[e].id == s.store[e].id && store'[e].name == s.store[e].name
               && (s.store[e].isVerified ==> store'[e].isVerified)
    ensures s.session.Some? && (exists e :: e in s.store && SessionOf(s.session.value, s.store[e])) ==>
              exists e :: e in store' && SessionOf(s.session.value, store'[e])
  {
  }

  /** A refusal: the state is unchanged, no cookie is set and no mail is sent. */
  function Reject(s: Server, status: nat, body: Body): Outcome
  {
    Outcome(s, Response(status, body, None), None)
  }

  // ---------------------------------------------------------------- register

  /** createCustomer: validate, refuse a known email, then file an unverified
      record carrying a fresh code that expires five minutes from `now`. */
  function RegisterStep(env: Env, s: Server, name: string, email: string, password: string,
                        draw: nat, salt: Salt, now: nat, id: CustomerId): (o: Outcome)
    requires OtpLow <= draw < OtpHigh
    ensures o.response.status in {201, 400}
    ensures o.response.status == 201 <==> CustomerIssues(env.isEmail, name, email, password) == [] && email !in s.store
    ensures CustomerIssues(env.isEmail, name, email, password) != [] ==>
              o == Reject(s, 400, Issues(CustomerIssues(env.isEmail, name, email, password)))
    ensures CustomerIssues(env.isEmail, name, email, password) == [] && email in s.store ==>
              o == Reject(s, 400, Error(EmailTaken))
    ensures o.response.status == 201 ==>
              && o.response == Response(201, Message(OtpSent), None)
              && o.server.session == s.session
              && o.server.store.Keys == s.store.Keys + {email}
              && (forall e :: e in s.store ==> o.server.store[e] == s.store[e])
              && var c := o.server.store[email];
              && c == Customer(id, name, email, env.hash(password, salt), false, c.otp, Some(now + OtpLifetimeMs))
              && c.otp.Some? && IsOtpCode(c.otp.value) && ParseDecimal(c.otp.value) == draw
              && o.mail == Some(VerificationMail(email, c.otp.value))
    ensures Consistent(s) ==> Consistent(o.server)
  {
    var issues := CustomerIssues(env.isEmail, name, email, password);
    if issues != [] then Reject(s, 400, Issues(issues))
    else if email in s.store then Reject(s, 400, Error(EmailTaken))
    else
      OtpCodeShape(draw);
      var otp := DecimalString(draw);
      var c := Customer(id, name, email, env.hash(password, salt), false, Some(otp), Some(now + OtpLifetimeMs));
      var s' := s.(store := s.store[email := c]);
      KeepsSessionOwner(s, s'.store);
      Outcome(s', Response(201, Message(OtpSent), None), Some(VerificationMail(email, otp)))
  }

  // -------------------------------------------------------------- verify otp

  /** The code is still accepted at the expiry instant itself. */
  predicate Expired(c: Customer, now: nat)
  {
    c.otpExpiry.Some? && now > c.otpExpiry.value
  }

  /** verifyOtp: the checks run in a fixed order (unknown or verified account,
      wrong code, expired code); success marks the account verified and
      clears exactly the code fields. */
  function VerifyStep(s: Server, email: string, otp: string, now: nat): (o: Outcome)
    ensures o.response.status in {200, 400} && o.response.cookie == None && o.mail == None
    ensures o.response.status == 200 <==>
              email in s.store && !s.store[email].isVerified && s.store[email].otp == Some(otp)
              && !Expired(s.store[email], now)
    ensures email !in s.store || s.store[email].isVerified ==> o == Reject(s, 400, Error(AlreadyVerified))
    ensures email in s.store && !s.store[email].isVerified && s.store[email].otp != Some(otp) ==>
              o == Reject(s, 400, Error(InvalidOtp))
    ensures email in s.store && !s.store[email].isVerified && s.store[email].otp == Some(otp)
            && Expired(s.store[email], now) ==>
              o == Reject(s, 400, Error(OtpExpired))
    ensures o.response.status == 200 ==>
              && o.response.body == Message(Verified)
              && o.server.session == s.session
              && SameExcept(s.store, o.server.store, email)
              && SameAccount(s.store[email], o.server.store[email])
              && o.server.store[email].isVerified
              && o.server.store[email].otp == None && o.server.store[email].otpExpiry == None
    ensures Consistent(s) ==> Consistent(o.server)
  {
    if email !in s.store || s.store[email].isVerified then Reject(s, 400, Error(AlreadyVerified))
    else
      var c := s.store[email];
      if c.otp != Some(otp) then Reject(s, 400, Error(InvalidOtp))
      else if Expired(c, now) then Reject(s, 400, Error(OtpExpired))
      else
        var c' := c.(isVerified := true, otp := None, otpExpiry := None);
        var s' := s.(store := s.store[email := c']);
        KeepsSessionOwner(s, s'.store);
        Outcome(s', Response(200, Message(Verified), None), None)
  }

  // ------------------------------------------------------------------- login

  /** The claims signed into the login token: who the customer is, with a
      lifetime of one hour counted from `now` truncated to whole seconds. */
  function TokenPayload(c: Customer, now: nat): (claims: Claims)
    ensures claims.sub == c.id && claims.name == c.name && claims.email == c.email
    ensures claims.role == CustomerRole
    ensures claims.iat * 1000 <= now < claims.iat * 1000 + 1000
    ensures claims.exp - claims.iat == TokenLifetimeSeconds
  {
    var iat := now / 1000;
    Claims(c.id, c.name, CustomerRole, c.email, iat, iat + TokenLifetimeSeconds)
  }

  /** The `authToken` cookie: HTTP-only, secure, living exactly as long as the token. */
  function AuthCookie(token: Token): Cookie
  {
    Cookie(AuthCookieName, token, AuthCookieMaxAgeMs, true, true)
  }

  /** loginCustomer: validate; unknown email is 401; an unverified account is
      403 before its password is compared; a wrong password is 401 with the
      same message as an unknown email; success fills the session and issues
      the token both in the body and in the `authToken` cookie. */
  function LoginStep(env: Env, s: Server, email: string, password: string, now: nat): (o: Outcome)
    ensures o.response.status in {200, 400, 401, 403} && o.mail == None
    ensures CredentialIssues(env.isEmail, email, password) != [] ==>
              o == Reject(s, 400, Issues(CredentialIssues(env.isEmail, email, password)))
    ensures o.response.status == 401 <==>
              CredentialIssues(env.isEmail, email, password) == []
              && (email !in s.store
                  || (s.store[email].isVerified && !env.matches(password, s.store[email].password)))
    ensures o.response.status == 401 ==> o == Reject(s, 401, Error(InvalidCredentials))
    ensures o.response.status == 403 <==>
              CredentialIssues(env.isEmail, email, password) == [] && email in s.store && !s.store[email].isVerified
    ensures o.response.status == 403 ==> o == Reject(s, 403, Error(NotVerified))
    ensures o.response.status == 200 <==>
              CredentialIssues(env.isEmail, email, password) == [] && email in s.store
              && s.store[email].isVerified && env.matches(password, s.store[email].password)
    ensures o.response.status != 200 ==> o.server == s
    ensures o.response.status == 200 ==>
              && email in s.store
              && var c := s.store[email];
              && c.isVerified && env.matches(password, c.password)
              && o.server == s.(session := Some(SessionUser(c.id, c.name)))
              && var token := Signed(TokenPayload(c, now));
              && o.response == Response(200, LoginBody(LoginSucceeded, token, CustomerRole, UserView(c.id, c.name, c.email)),
                                        Some(AuthCookie(token)))
              && var cookie := o.response.cookie.value;
              && cookie.name == AuthCookieName && cookie.value == token && cookie.httpOnly && cookie.secure
              && cookie.maxAge == (token.claims.exp - token.claims.iat) * 1000
    ensures Consistent(s) ==> Consistent(o.server)
  {
    var issues := CredentialIssues(env.isEmail, email, password);
    if issues != [] then Reject(s, 400, Issues(issues))
    else if email !in s.store then Reject(s, 401, Error(InvalidCredentials))
    else
      var c := s.store[email];
      if !c.isVerified then Reject(s, 403, Error(NotVerified))
      else if !env.matches(password, c.password) then Reject(s, 401, Error(InvalidCredentials))
      else
        var token := Signed(TokenPayload(c, now));
        var user := UserView(c.id, c.name, c.email);
        var s' := s.(session := Some(SessionUser(c.id, c.name)));
        assert SessionOf(s'.session.value, s'.store[email]);
        Outcome(s', Response(200, LoginBody(LoginSucceeded, token, CustomerRole, user), Some(AuthCookie(token))), None)
  }

  // ---------------------------------------------------------- reset password

  /** resetPassword: validate; unknown email is 401; otherwise only that
      record's password hash is replaced, whether or not it is verified. */
  function ResetStep(env: Env, s: Server, email: string, password: string, salt: Salt): (o: Outcome)
    ensures o.response.status in {200, 400, 401} && o.response.cookie == None && o.mail == None
    ensures CredentialIssues(env.isEmail, email, password) != [] ==>
              o == Reject(s, 400, Issues(CredentialIssues(env.isEmail, email, password)))
    ensures CredentialIssues(env.isEmail, email, password) == [] && email !in s.store ==>
              o == Reject(s, 401, Error(UnknownEmail))
    ensures o.response.status == 200 <==> CredentialIssues(env.isEmail, email, password) == [] && email in s.store
    ensures o.response.status == 200 ==>
              && o.response.body == Message(PasswordReset)
              && o.server.session == s.session
              && SameExcept(s.store, o.server.store, email)
              && o.server.store[email] == s.store[email].(password := env.hash(password, salt))
    ensures Consistent(s) ==> Consistent(o.server)
  {
    var issues := CredentialIssues(env.isEmail, email, password);
    if issues != [] then Reject(s, 400, Issues(issues))
    else if email !in s.store then Reject(s, 401, Error(UnknownEmail))
    else
      var c := s.store[email];
      var s' := s.(store := s.store[email := c.(password := env.hash(password, salt))]);
      KeepsSessionOwner(s, s'.store);
      Outcome(s', Response(200, Message(PasswordReset), None), None)
  }

  // ------------------------------------------------------------------ logout

  /** logout: the session is destroyed; the store is untouched. */
  function LogoutStep(s: Server): (o: Outcome)
    ensures o.server.store == s.store && o.server.session == None
    ensures o.response == Response(200, Text(LoggedOut), None) && o.mail == None
    ensures Consistent(s) ==> Consistent(o.server)
  {
    Outcome(s.(session := None), Response(200, Text(LoggedOut), None), None)
  }

  // ------------------------------------------------------- the handler object

  /** The controller with its account store and session slot, updated in
      place by the handlers. */
  class Controller {
    const env: Env
    var store: map<string, Customer>
    var session: Option<SessionUser>

    function State(): Server
      reads this
    {
      Server(store, session)
    }

    ghost predicate Valid()
      reads this
    {
      Consistent(State())
    }

    constructor (env: Env)
      ensures this.env == env && store == map[] && session == None
      ensures Valid()
    {
      this.env := env;
      store := map[];
      session := None;
    }

    method CreateCustomer(name: string, email: string, password: string,
                          draw: nat, salt: Salt, now: nat, id: CustomerId)
      returns (response: Response, mail: Option<Mail>)
      requires Valid()
      requires OtpLow <= draw < OtpHigh
      modifies this
      ensures Valid()
      ensures Outcome(State(), response, mail) == RegisterStep(env, old(State()), name, email, password, draw, salt, now, id)
      ensures session == old(session)
      ensures response.status == 201 ==> store.Keys == old(store.Keys) + {email} && !store[email].isVerified
      ensures response.status != 201 ==> store == old(store)
    {
      // Names the step on the entry state, so that its contract is available below.
      ghost var step := RegisterStep(env, State(), name, email, password, draw, salt, now, id);
      var issues := CustomerIssues(env.isEmail, name, email, password);
      if issues != [] {
        return Response(400, Issues(issues), None), None;
      }
      if email in store {
        return Response(400, Error(EmailTaken), None), None;
      }
      var otp := DecimalString(draw);
      var otpExpiry := now + OtpLifetimeMs;
      var hashed := env.hash(password, salt);
      var customer := Customer(id, name, email, hashed, false, Some(otp), Some(otpExpiry));
      store := store[email := customer];
      mail := Some(VerificationMail(email, otp));
      response := Response(201, Message(OtpSent), None);
    }

    method VerifyOtp(email: string, otp: string, now: nat) returns (response: Response)
      requires Valid()
      modifies this
      ensures Valid()
      ensures Outcome(State(), response, None) == VerifyStep(old(State()), email, otp, now)
      ensures session == old(session)
      ensures response.status == 200 ==>
                SameExcept(old(store), store, email) && store[email] ==
                  old(store[email]).(isVerified := true, otp := None, otpExpiry := None)
      ensures response.status != 200 ==> store == old(store)
    {
      // Names the step on the entry state, so that its contract is available below.
      ghost var step := VerifyStep(State(), email, otp, now);
      if email !in store || store[email].isVerified {
        return Response(400, Error(AlreadyVerified), None);
      }
      var customer := store[email];
      if customer.otp != Some(otp) {
        return Response(400, Error(InvalidOtp), None);
      }
      if customer.otpExpiry.Some? && now > customer.otpExpiry.value {
        return Response(400, Error(OtpExpired), None);
      }
      customer := customer.(isVerified := true);
      customer := customer.(otp := None);
      customer := customer.(otpExpiry := None);
      store := store[email := customer];
      response := Response(200, Message(Verified), None);
    }

    method LoginCustomer(email: string, password: string, now: nat) returns (response: Response)
      requires Valid()
      modifies this
      ensures Valid()
      ensures Outcome(State(), response, None) == LoginStep(env, old(State()), email, password, now)
      ensures store == old(store)
      ensures response.status != 200 ==> session == old(session)
      ensures response.status == 200 ==>
                session == Some(SessionUser(store[email].id, store[email].name))
    {
      // Names the step on the entry state, so that its contract is available below.
      ghost var step := LoginStep(env, State(), email, password, now);
      var issues := CredentialIssues(env.isEmail, email, password);
      if issues != [] {
        return Response(400, Issues(issues), None);
      }
      if email !in store {
        return Response(401, Error(InvalidCredentials), None);
      }
      var customer := store[email];
      if !customer.isVerified {
        return Response(403, Error(NotVerified), None);
      }
      var validPassword := env.matches(password, customer.password);
      if !validPassword {
        return Response(401, Error(InvalidCredentials), None);
      }
      var token := Signed(TokenPayload(customer, now));
      session := Some(SessionUser(customer.id, customer.name));
      var cookie := AuthCookie(token);
      response := Response(200, LoginBody(LoginSucceeded, token, CustomerRole,
                                          UserView(customer.id, customer.name, customer.email)),
                           Some(cookie));
    }

    method ResetPassword(email: string, password: string, salt: Salt) returns (response: Response)
      requires Valid()
      modifies this
      ensures Valid()
      ensures Outcome(State(), response, None) == ResetStep(env, old(State()), email, password, salt)
      ensures session == old(session)
      ensures response.status == 200 ==>
                SameExcept(old(store), store, email) && store[email] == old(store[email]).(password := env.hash(password, salt))
      ensures response.status != 200 ==> store == old(store)
    {
      // Names the step on the entry state, so that its contract is available below.
      ghost var step := ResetStep(env, State(), email, password, salt);
      var issues := CredentialIssues(env.isEmail, email, password);
      if issues != [] {
        return Response(400, Issues(issues), None);
      }
      if email !in store {
        return Response(401, Error(UnknownEmail), None);
      }
      var customer := store[email];
      customer := customer.(password := env.hash(password, salt));
      store := store[email := customer];
      response := Response(200, Message(PasswordReset), None);
    }

    method Logout() returns (response: Response)
      requires Valid()
      modifies this
      ensures Valid()
      ensures Outcome(State(), response, None) == LogoutStep(old(State()))
      ensures store == old(store) && session == None
    {
      session := None;
      response := Response(200, Text(LoggedOut), None);
    }
  }
}
