/**
 * The authentication domain: the user record, the response envelope every
 * backend call returns, and the two form schemas (login and registration).
 *
 * The schema library's email and URL format checks are not modelled: they
 * are handed in as the two fields of `FormatChecks`, so every statement
 * below holds whatever those checks accept.
 */
module AuthSchema {
  import opened Wrappers

  datatype Role = ADMIN | USER

  datatype User = User(
    id: string,
    email: string,
    firstName: string,
    lastName: string,
    avatar: Option<string>,
    role: Role,
    createdAt: string,
    updatedAt: string)

  /** What login, registration and the token refresh hand back. */
  datatype AuthResponse = AuthResponse(user: User, accessToken: string, refreshToken: string)

  /**
   * The response envelope. The declared type is a union: with `success` the
   * envelope carries `data`; without it, `data` is null and `errors` may map
   * field names to messages. The record below admits every shape so that
   * the code's own `success && data` test has something to decide;
   * `WellTyped` is the declared union.
   */
  datatype ApiResponse<T> = ApiResponse(
    success: bool,
    data: Option<T>,
    message: string,
    errors: Option<map<string, seq<string>>>)

  predicate WellTyped<T>(r: ApiResponse<T>) {
    if r.success then r.data.Some? && r.errors.None? else r.data.None?
  }

  /**
   * The test `response.success && response.data` that the service and the
   * store both apply. On an envelope of the declared type it is the same as
   * `success`, and it always yields a payload.
   */
  predicate Delivers<T>(r: ApiResponse<T>)
    ensures Delivers(r) ==> r.data.Some?
    ensures WellTyped(r) ==> (Delivers(r) <==> r.success)
  {
    r.success && r.data.Some?
  }

  /** One validation message, attached to the field named by `path`. */
  datatype Issue = Issue(path: string, message: string)

  /** The schema library's format checks, kept abstract. */
  datatype FormatChecks = FormatChecks(isEmail: string -> bool, isUrl: string -> bool)

  const MinPasswordLength := 6
  const MinNameLength := 2

  const InvalidEmailMessage := "Invalid email address"
  const ShortPasswordMessage := "Password must be at least 6 characters"
  const ShortFirstNameMessage := "First name must be at least 2 characters"
  const ShortLastNameMessage := "Last name must be at least 2 characters"
  const PasswordMismatchMessage := "Passwords don't match"

  datatype LoginInput = LoginInput(email: string, password: string)

  datatype RegisterInput = RegisterInput(
    firstName: string,
    lastName: string,
    email: string,
    password: string,
    confirmPassword: string)

  /** The issue a field check contributes: none when it passes. */
  function Check(ok: bool, path: string, message: string): (issues: seq<Issue>)
    ensures issues == [] <==> ok
    ensures forall k | 0 <= k < |issues| :: issues[k] == Issue(path, message)
  {
    if ok then [] else [Issue(path, message)]
  }

  function EmailIssues(c: FormatChecks, email: string): seq<Issue> {
    Check(c.isEmail(email), "email", InvalidEmailMessage)
  }

  function PasswordIssues(password: string): seq<Issue> {
    Check(|password| >= MinPasswordLength, "password", ShortPasswordMessage)
  }

  /** The login schema: an email address and a password of at least six characters. */
  function LoginIssues(c: FormatChecks, input: LoginInput): (issues: seq<Issue>)
    ensures issues == [] <==> c.isEmail(input.email) && |input.password| >= MinPasswordLength
    ensures Issue("email", InvalidEmailMessage) in issues <==> !c.isEmail(input.email)
    ensures Issue("password", ShortPasswordMessage) in issues <==> |input.password| < MinPasswordLength
    ensures forall k | 0 <= k < |issues| :: issues[k].path in {"email", "password"}
  {
    EmailIssues(c, input.email) + PasswordIssues(input.password)
  }

  predicate LoginValid(c: FormatChecks, input: LoginInput) {
    LoginIssues(c, input) == []
  }

  /**
   * The registration schema. The field checks come first, in declaration
   * order; the password confirmation rule is a refinement of the whole
   * object and reports on `confirmPassword`. Every field here is a string,
   * so the object check never aborts and the refinement always runs.
   */
  function RegisterIssues(c: FormatChecks, input: RegisterInput): (issues: seq<Issue>)
    ensures issues == [] <==>
      && |input.firstName| >= MinNameLength
      && |input.lastName| >= MinNameLength
      && c.isEmail(input.email)
      && |input.password| >= MinPasswordLength
      && input.password == input.confirmPassword
    ensures Issue("confirmPassword", PasswordMismatchMessage) in issues <==> input.password != input.confirmPassword
    ensures forall k | 0 <= k < |issues| && issues[k].path == "confirmPassword" ::
      issues[k].message == PasswordMismatchMessage
  {
    Check(|input.firstName| >= MinNameLength, "firstName", ShortFirstNameMessage)
    + Check(|input.lastName| >= MinNameLength, "lastName", ShortLastNameMessage)
    + EmailIssues(c, input.email)
    + PasswordIssues(input.password)
    + Check(input.password == input.confirmPassword, "confirmPassword", PasswordMismatchMessage)
  }

  predicate RegisterValid(c: FormatChecks, input: RegisterInput) {
    RegisterIssues(c, input) == []
  }

  /** Whatever passes the registration form would also pass the login form. */
  lemma RegisterValidImpliesLoginValid(c: FormatChecks, input: RegisterInput)
    requires RegisterValid(c, input)
    ensures LoginValid(c, LoginInput(input.email, input.password))
  {
  }
}
