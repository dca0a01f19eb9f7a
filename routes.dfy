/**
 * The two route guards. Each reads only `isAuthenticated` from the session
 * store; the redirect replaces the current history entry.
 */
module Routes {
  import opened Wrappers
  import opened AuthSchema
  import opened Store

  datatype Element = Outlet | Navigate(to: string, replace: bool)

  const LoginRoute := "/login"
  const HomeRoute := "/"

  /** Authenticated sessions see the nested routes; others go to the login page. */
  function ProtectedRoute(s: Session): (e: Element)
    ensures e == Outlet <==> s.isAuthenticated
    ensures !s.isAuthenticated ==> e == Navigate(LoginRoute, true)
  {
    if s.isAuthenticated then Outlet else Navigate(LoginRoute, true)
  }

  /** Unauthenticated sessions see the nested routes; others go home. */
  function PublicRoute(s: Session): (e: Element)
    ensures e == Outlet <==> !s.isAuthenticated
    ensures s.isAuthenticated ==> e == Navigate(HomeRoute, true)
  {
    if s.isAuthenticated then Navigate(HomeRoute, true) else Outlet
  }

  /** For every session exactly one of the two guards renders its outlet. */
  lemma ExactlyOneOutlet(s: Session)
    ensures ProtectedRoute(s).Outlet? != PublicRoute(s).Outlet?
  {
  }

  /** The user record plays no part in either decision. */
  lemma GuardsIgnoreUser(s: Session, u: Option<User>)
    ensures ProtectedRoute(s.(user := u)) == ProtectedRoute(s)
    ensures PublicRoute(s.(user := u)) == PublicRoute(s)
  {
  }

  /**
   * A persisted `isAuthenticated` admits a reloaded page to the protected
   * routes before any check with the server, whatever user was persisted.
   */
  lemma PersistedFlagAdmits(p: Persisted)
    requires p.isAuthenticated
    ensures ProtectedRoute(Rehydrate(InitialSession, p)) == Outlet
  {
  }
}
