/** Sequences of requests against the customer controller, and what holds of
    every such sequence: the store stays consistent, records are never
    deleted or re-assigned, an account is verified at most once, and the
    registration, verification and login steps compose as the flow intends. */
module Lifecycle {
  import opened Types
  import opened Schema
  import opened CustomerController

  /** One request to a handler, with the values the outside world supplies to
      it: the random draw and the salt, the clock, the assigned id. */
  datatype Request =
    | Register(name: string, email: string, password: string, draw: nat, salt: Salt, now: nat, id: CustomerId)
    | Verify(email: string, otp: string, now: nat)
    | Login(email: string, password: string, now: nat)
    | Reset(email: string, password: string, salt: Salt)
    | Logout

  /** The random draw lies in the range crypto.randomInt produces. */
  predicate Admissible(r: Request)
  {
    r.Register? ==> OtpLow <= r.draw < OtpHigh
  }

  predicate AllAdmissible(reqs: seq<Request>)
  {
    forall i :: 0 <= i < |reqs| ==> Admissible(reqs[i])
  }

  function Handle(env: Env, s: Server, r: Request): (o: Outcome)
    requires Admissible(r)
  {
    match r
    case Register(name, email, password, draw, salt, now, id) =>
      RegisterStep(env, s, name, email, password, draw, salt, now, id)
    case Verify(email, otp, now) => VerifyStep(s, email, otp, now)
    case Login(email, password, now) => LoginStep(env, s, email, password, now)
    case Reset(email, password, salt) => ResetStep(env, s, email, password, salt)
    case Logout => LogoutStep(s)
  }

  /** The final state and the responses, one per request, in order. */
  datatype Trace = Trace(last: Server, responses: seq<Response>)

  function Run(env: Env, s: Server, reqs: seq<Request>): (t: Trace)
    requires AllAdmissible(reqs)
    ensures |t.responses| == |reqs|
    decreases |reqs|
  {
    if reqs == [] then Trace(s, [])
    else
      var o := Handle(env, s, reqs[0]);
      var rest := Run(env, o.server, reqs[1..]);
      Trace(rest.last, [o.response] + rest.responses)
  }

  /** Every handler keeps the store consistent and the session owned by a
      verified customer, over any sequence of requests. */
  lemma {:induction false} RunKeepsConsistent(env: Env, s: Server, reqs: seq<Request>)
    requires AllAdmissible(reqs)
    requires Consistent(s)
    ensures Consistent(Run(env, s, reqs).last)
    decreases |reqs|
  {
    if reqs != [] {
      var o := Handle(env, s, reqs[0]);
      RunKeepsConsistent(env, o.server, reqs[1..]);
    }
  }

  /** A record, once stored, stays under its email with the same id, name and
      email, and a verified record stays verified. */
  predicate Keeps(before: map<string, Customer>, after: map<string, Customer>)
  {
    forall e :: e in before ==>
      && e in after
      && after[e].id == before[e].id && after[e].name == before[e].name && after[e].email == before[e].email
      && (before[e].isVerified ==> after[e].isVerified)
  }

  lemma HandleKeeps(env: Env, s: Server, r: Request)
    requires Admissible(r)
    ensures Keeps(s.store, Handle(env, s, r).server.store)
  {
  }

  lemma {:induction false} RunKeeps(env: Env, s: Server, reqs: seq<Request>)
    requires AllAdmissible(reqs)
    ensures Keeps(s.store, Run(env, s, reqs).last.store)
    decreases |reqs|
  {
    if reqs != [] {
      var o := Handle(env, s, reqs[0]);
      HandleKeeps(env, s, reqs[0]);
      RunKeeps(env, o.server, reqs[1..]);
    }
  }

  /** The number of requests that verified `email` successfully. */
  function Verifications(email: string, reqs: seq<Request>, responses: seq<Response>): nat
    requires |reqs| == |responses|
    decreases |reqs|
  {
    if reqs == [] then 0
    else
      (if reqs[0].Verify? && reqs[0].email == email && responses[0].status == 200 then 1 else 0)
      + Verifications(email, reqs[1..], responses[1..])
  }

  /** An account is verified at most once over any sequence of requests, and
      never again once it is verified. */
  lemma {:induction false} VerifiedAtMostOnce(env: Env, s: Server, reqs: seq<Request>, email: string)
    requires AllAdmissible(reqs)
    ensures Verifications(email, reqs, Run(env, s, reqs).responses)
            <= if email in s.store && s.store[email].isVerified then 0 else 1
    decreases |reqs|
  {
    if reqs != [] {
      var o := Handle(env, s, reqs[0]);
      var t := Run(env, s, reqs);
      var rest := Run(env, o.server, reqs[1..]);
      assert t.responses == [o.response] + rest.responses;
      assert t.responses[1..] == rest.responses;
      VerifiedAtMostOnce(env, o.server, reqs[1..], email);
      HandleKeeps(env, s, reqs[0]);
      if reqs[0].Verify? && reqs[0].email == email && o.response.status == 200 {
        assert o.server.store[email].isVerified;
      }
    }
  }

  /** A wrong code is reported as wrong even when the code has also expired. */
  lemma WrongCodeBeatsExpiry(s: Server, email: string, otp: string, now: nat)
    requires email in s.store && !s.store[email].isVerified
    requires s.store[email].otp != Some(otp) && Expired(s.store[email], now)
    ensures VerifyStep(s, email, otp, now).response.body == Error(InvalidOtp)
    ensures VerifyStep(s, email, otp, now).server == s
  {
  }

  /** At the expiry instant itself the right code is still accepted. */
  lemma CodeAcceptedAtExpiry(s: Server, email: string, otp: string, now: nat)
    requires email in s.store && !s.store[email].isVerified
    requires s.store[email].otp == Some(otp) && s.store[email].otpExpiry == Some(now)
    ensures VerifyStep(s, email, otp, now).response == Response(200, Message(Verified), None)
  {
  }

  /** Login cannot tell an unknown email from a wrong password: the two
      responses are identical. */
  lemma UnknownEmailLooksLikeWrongPassword(env: Env, s: Server, unknown: string, known: string,
                                            password: string, wrong: string, now: nat)
    requires unknown !in s.store && CredentialIssues(env.isEmail, unknown, password) == []
    requires known in s.store && s.store[known].isVerified && !env.matches(wrong, s.store[known].password)
    requires CredentialIssues(env.isEmail, known, wrong) == []
    ensures LoginStep(env, s, unknown, password, now).response == LoginStep(env, s, known, wrong, now).response
  {
  }

  /** The flow as intended: a new customer registers, verifies with the code
      mailed to them no later than its expiry, and can then log in with the
      password they registered; a second verification then fails. */
  lemma RegisterVerifyLogin(env: Env, s: Server, name: string, email: string, password: string,
                               draw: nat, salt: Salt, t0: nat, id: CustomerId, t1: nat, t2: nat)
    requires HashSound(env)
    requires OtpLow <= draw < OtpHigh
    requires CustomerIssues(env.isEmail, name, email, password) == []
    requires email !in s.store
    requires t1 <= t0 + OtpLifetimeMs
    ensures var registered := RegisterStep(env, s, name, email, password, draw, salt, t0, id);
            && registered.response.status == 201
            && registered.mail.Some?
            && var verified := VerifyStep(registered.server, email, registered.mail.value.otp, t1);
            && verified.response.status == 200
            && VerifyStep(verified.server, email, registered.mail.value.otp, t1).response.body == Error(AlreadyVerified)
            && var login := LoginStep(env, verified.server, email, password, t2);
            && login.response.status == 200
            && login.response.body.user == UserView(id, name, email)
            && login.server.session == Some(SessionUser(id, name))
  {
  }

  /** Registering an email a second time is refused, whatever the other inputs. */
  lemma SecondRegistrationRefused(env: Env, s: Server, name: string, email: string, password: string,
                                  draw: nat, salt: Salt, now: nat, id: CustomerId,
                                  name': string, password': string, draw': nat, salt': Salt, now': nat, id': CustomerId)
    requires OtpLow <= draw < OtpHigh && OtpLow <= draw' < OtpHigh
    requires RegisterStep(env, s, name, email, password, draw, salt, now, id).response.status == 201
    requires CustomerIssues(env.isEmail, name', email, password') == []
    ensures var again := RegisterStep(env, RegisterStep(env, s, name, email, password, draw, salt, now, id).server,
                                      name', email, password', draw', salt', now', id');
            again.response == Response(400, Error(EmailTaken), None)
  {
  }
}
