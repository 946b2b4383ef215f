/** Values exchanged by the customer authentication controller: the stored
    customer record, the session projection, the token claims, the HTTP
    responses and the external collaborators the handlers call. */
module Types {

  datatype Option<+T> = None | Some(value: T)

  /** The document id the persistence layer assigns to a new customer. */
  type CustomerId = nat

  /** The randomness bcrypt draws for its salt. */
  type Salt = nat

  /** A bcrypt hash string, as stored in the customer record. */
  type Digest = string

  /** The foreign pieces the handlers call and whose internals are not modelled:
      - isEmail: zod's email-format rule,
      - hash: bcrypt.hash(password, 10) with the salt it draws,
      - matches: bcrypt.compare(password, digest). */
  datatype Env = Env(
    isEmail: string -> bool,
    hash: (string, Salt) -> Digest,
    matches: (string, Digest) -> bool)

  /** The one property of bcrypt the flow relies on: a password matches every
      hash made from it, whatever the salt. Hashes are compared by `matches`,
      never by equality, since two salts give two different digests. */
  ghost predicate HashSound(env: Env)
  {
    forall pw: string, salt: Salt :: env.matches(pw, env.hash(pw, salt))
  }

  /** A customer document. `otp` and `otpExpiry` are absent (None) once the
      account is verified; `otpExpiry` is an absolute time in milliseconds. */
  datatype Customer = Customer(
    id: CustomerId,
    name: string,
    email: string,
    password: Digest,
    isVerified: bool,
    otp: Option<string>,
    otpExpiry: Option<nat>)

  /** What a successful login stores in the server-side session. */
  datatype SessionUser = SessionUser(id: CustomerId, name: string)

  /** The token payload plus the `iat`/`exp` claims (seconds) the signer adds. */
  datatype Claims = Claims(
    sub: CustomerId,
    name: string,
    role: string,
    email: string,
    iat: nat,
    exp: nat)

  /** A signed token; the signature and the secret are not modelled. */
  datatype Token = Signed(claims: Claims)

  /** The `authToken` cookie set on login; `maxAge` is in milliseconds. */
  datatype Cookie = Cookie(
    name: string,
    value: Token,
    maxAge: nat,
    httpOnly: bool,
    secure: bool)

  /** The public projection of a customer returned by login. */
  datatype UserView = UserView(id: CustomerId, name: string, email: string)

  /** One entry of a schema validation failure: the offending field and its message. */
  datatype Issue = Issue(path: string, message: string)

  datatype Body =
    | Issues(issues: seq<Issue>)   // {error: validation.error.errors}
    | Error(error: string)         // {error: "..."}
    | Message(message: string)     // {message: "..."}
    | LoginBody(message: string, token: Token, role: string, user: UserView)
    | Text(text: string)           // plain-text body

  datatype Response = Response(status: nat, body: Body, cookie: Option<Cookie>)

  /** The verification mail sent after registration. */
  datatype Mail = VerificationMail(to: string, otp: string)
}
