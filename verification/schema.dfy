/** The zod request schemas of the customer controller. A schema reports every
    rule the request breaks, in field order, and succeeds when it reports none. */
module Schema {
  import opened Types

  const MinPasswordLength := 6

  const NameRequired := Issue("name", "Name is required")
  const BadEmail := Issue("email", "Invalid email address")
  const ShortPassword := Issue("password", "Password must be at least 6 characters long")

  /** The position of an issue's field in the schema: name, email, password. */
  function FieldRank(i: Issue): nat
  {
    if i.path == "name" then 0 else if i.path == "email" then 1 else 2
  }

  /** Every issue is one of the schema's rules, and the issues come in field
      order, each at most once. */
  predicate KnownInFieldOrder(r: seq<Issue>)
  {
    && (forall k :: 0 <= k < |r| ==> r[k] in {NameRequired, BadEmail, ShortPassword})
    && (forall i, j :: 0 <= i < j < |r| ==> FieldRank(r[i]) < FieldRank(r[j]))
  }

  function NameIssues(name: string): seq<Issue>
  {
    if |name| < 1 then [NameRequired] else []
  }

  function EmailIssues(isEmail: string -> bool, email: string): seq<Issue>
  {
    if isEmail(email) then [] else [BadEmail]
  }

  function PasswordIssues(password: string): seq<Issue>
  {
    if |password| < MinPasswordLength then [ShortPassword] else []
  }

  /** The registration schema `{name: min 1, email: email, password: min 6}`. */
  function CustomerIssues(isEmail: string -> bool, name: string, email: string, password: string): (r: seq<Issue>)
    ensures r == [] <==> |name| >= 1 && isEmail(email) && |password| >= MinPasswordLength
    ensures NameRequired in r <==> |name| < 1
    ensures BadEmail in r <==> !isEmail(email)
    ensures ShortPassword in r <==> |password| < MinPasswordLength
    ensures KnownInFieldOrder(r) && |r| <= 3
  {
    NameIssues(name) + EmailIssues(isEmail, email) + PasswordIssues(password)
  }

  /** The login and password-reset schema `{email: email, password: min 6}`. */
  function CredentialIssues(isEmail: string -> bool, email: string, password: string): (r: seq<Issue>)
    ensures r == [] <==> isEmail(email) && |password| >= MinPasswordLength
    ensures NameRequired !in r
    ensures BadEmail in r <==> !isEmail(email)
    ensures ShortPassword in r <==> |password| < MinPasswordLength
    ensures KnownInFieldOrder(r) && |r| <= 2
  {
    EmailIssues(isEmail, email) + PasswordIssues(password)
  }

  /** Input that passes registration also passes the login schema, so a
      freshly registered customer can always submit a login request. */
  lemma RegisteredInputPassesLoginSchema(isEmail: string -> bool, name: string, email: string, password: string)
    requires CustomerIssues(isEmail, name, email, password) == []
    ensures CredentialIssues(isEmail, email, password) == []
  {
  }
}
