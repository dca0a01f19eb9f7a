/**
 * The login form's submit handler: it logs in through the store, then
 * admits only administrators; any other user is logged out again. A thrown
 * value is reported and clears the password field.
 */
module UseLogin {
  import opened Wrappers
  import opened AuthSchema
  import opened Remote
  import opened Service
  import opened Store

  const AdminGrantedMessage := "Admin access granted"
  const AdminRequiredMessage := "Access denied. Admin role required."
  const AuthenticationFailedMessage := "Authentication failed"
  const HomePath := "/"

  /** A notification: `toast.success` or `toast.error`. */
  datatype Toast = SuccessToast(message: string) | ErrorToast(message: string)

  /** The effects of one submission besides the store and the form. */
  datatype Effects = Effects(toasts: seq<Toast>, navigatedTo: Option<string>, calledLogout: bool)

  const NoEffects := Effects([], None, false)

  /** The form's field values. */
  class LoginForm {
    var email: string
    var password: string

    constructor ()
      ensures email == "" && password == ""
    {
      email, password := "", "";
    }
  }

  /** The message reported for a thrown value: an `Error`'s own, else a generic one. */
  function ReportedMessage(t: Thrown): (m: string)
    ensures t.ErrorInstance? ==> m == t.message
    ensures t.NonError? ==> m == AuthenticationFailedMessage
  {
    match t
    case ErrorInstance(msg) => msg
    case NonError(_) => AuthenticationFailedMessage
  }

  predicate IsAdmin(u: Option<User>) {
    u.Some? && u.value.role == ADMIN
  }

  /**
   * What one run of `onSubmit` does, from the store's state `before` and
   * the password field `password0` to `after`, `password` and the effects.
   * The store's login completes before the user is read. An administrator
   * is sent home and stays logged in. Anyone else is told that the
   * administrator role is required and logged out, which leaves no user and
   * no authentication; if that logout rejects, its error is reported too
   * and the password is cleared. A failed login reports its error, clears
   * the password and neither navigates nor logs out.
   */
  predicate Submitted(before: World, after: World, password0: string, password: string, fx: Effects,
                      auth: Outcome<AuthResponse>, done: Outcome<()>)
  {
    var login := AuthenticateStep(before, LoginCall(auth));
    && (login.raised.Some? ==>
         && fx == Effects([ErrorToast(ReportedMessage(login.raised.value))], None, false)
         && after == login.world && password == "")
    && (login.raised.None? && IsAdmin(login.world.session.user) ==>
         && fx == Effects([SuccessToast(AdminGrantedMessage)], Some(HomePath), false)
         && after == login.world && after.session.isAuthenticated
         && password == password0)
    && (login.raised.None? && !IsAdmin(login.world.session.user) ==>
         var out := LogoutStep(login.world, done);
         && after == out.world
         && after.session.user.None? && !after.session.isAuthenticated
         && fx.calledLogout && fx.navigatedTo.None?
         && fx.toasts == [ErrorToast(AdminRequiredMessage)] +
              (if out.raised.Some? then [ErrorToast(ReportedMessage(out.raised.value))] else [])
         && password == (if out.raised.Some? then "" else password0))
  }

  /** `onSubmit`: performs `Submitted`; the email field is never touched. */
  method OnSubmit(store: AuthStore, form: LoginForm, auth: Outcome<AuthResponse>, done: Outcome<()>)
    returns (fx: Effects)
    modifies store, store.service.storage, form
    ensures form.email == old(form.email)
    ensures Submitted(old(store.Snapshot()), store.Snapshot(), old(form.password), form.password, fx, auth, done)
  {
    fx := NoEffects;
    var raised := store.Login(auth);
    if raised.None? {
      var user := store.user;
      if user.Some? && user.value.role == ADMIN {
        fx := fx.(toasts := fx.toasts + [SuccessToast(AdminGrantedMessage)], navigatedTo := Some(HomePath));
        return;
      }
      fx := fx.(toasts := fx.toasts + [ErrorToast(AdminRequiredMessage)], calledLogout := true);
      raised := store.Logout(done);
      if raised.None? {
        return;
      }
    }
    fx := fx.(toasts := fx.toasts + [ErrorToast(ReportedMessage(raised.value))]);
    form.password := "";
  }

  /**
   * `handleSubmit(onSubmit)`: the form is validated against the login
   * schema first, and `onSubmit` runs only when there is no issue.
   */
  method HandleSubmit(checks: FormatChecks, store: AuthStore, form: LoginForm,
                      auth: Outcome<AuthResponse>, done: Outcome<()>)
    returns (issues: seq<Issue>, fx: Effects)
    modifies store, store.service.storage, form
    ensures issues == LoginIssues(checks, LoginInput(old(form.email), old(form.password)))
    ensures issues != [] ==>
      && fx == NoEffects && store.Snapshot() == old(store.Snapshot())
      && form.password == old(form.password) && form.email == old(form.email)
    ensures issues == [] ==>
      && Submitted(old(store.Snapshot()), store.Snapshot(), old(form.password), form.password, fx, auth, done)
      && form.email == old(form.email) && fx.toasts != []
  {
    issues := LoginIssues(checks, LoginInput(form.email, form.password));
    if issues != [] {
      fx := NoEffects;
      return;
    }
    fx := OnSubmit(store, form, auth, done);
  }
}
