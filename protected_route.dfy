/** The route guard wrapped around pages that need a signed-in user (and, for
    `adminOnly` routes, an administrator). */
module ProtectedRoute {
  import opened Wrappers
  import opened AuthContext

  const LoginPath: string := "/login"
  const HomePath: string := "/"
  const SignInMessage: string := "Please sign in to continue"

  /** What the guard renders. A redirect to the login page carries the path the user
      asked for and a message in its navigation state. */
  datatype Route =
    | Spinner
    | Redirect(to: string, from: Option<string>, message: Option<string>, replace: bool)
    | Children

  /** `user?.isAdmin`, tested for truthiness. */
  predicate IsAdmin(user: Option<User>) {
    user.Some? && user.value.isAdmin
  }

  /** The guard's chain of early returns. */
  function Guard(isLoading: bool, isAuthenticated: bool, user: Option<User>, pathname: string,
                 adminOnly: bool := false): (r: Route)
    ensures isLoading ==> r == Spinner
    ensures !isLoading && !isAuthenticated ==>
              r == Redirect(LoginPath, Some(pathname), Some(SignInMessage), true)
    ensures !isLoading && isAuthenticated && adminOnly && !IsAdmin(user) ==>
              r == Redirect(HomePath, None, None, true)
    ensures r == Children <==> !isLoading && isAuthenticated && (!adminOnly || IsAdmin(user))
    ensures r.Redirect? ==> r.replace
  {
    if isLoading then Spinner
    else if !isAuthenticated then Redirect(LoginPath, Some(pathname), Some(SignInMessage), true)
    else if adminOnly && !IsAdmin(user) then Redirect(HomePath, None, None, true)
    else Children
  }

  /** The guard over the auth provider's session. */
  function GuardSession(s: Session, pathname: string, adminOnly: bool := false): Route {
    Guard(s.isLoading, s.isAuthenticated, s.user, pathname, adminOnly)
  }

  /** While the provider mounts the guard waits; once the stored session is restored it
      lets a stored user through to an ordinary route, and an admin route exactly when
      the stored admin flag is the string `true`. */
  lemma GuardAfterRestore(storage: Storage, pathname: string)
    requires StoredUser(storage).Some?
    ensures GuardSession(InitialSession(storage), pathname, true) == Spinner
    ensures GuardSession(Restore(InitialSession(storage)), pathname) == Children
    ensures GuardSession(Restore(InitialSession(storage)), pathname, true) == Children <==>
              UserIsAdminKey in storage && storage[UserIsAdminKey] == "true"
  {
  }

  /** After logout, once loading is over, every guarded route sends the user to sign in
      and remembers where they were going. */
  lemma GuardAfterSignOut(s: Session, pathname: string, adminOnly: bool)
    requires !s.isLoading
    ensures GuardSession(SignOut(s), pathname, adminOnly) == Redirect(LoginPath, Some(pathname), Some(SignInMessage), true)
  {
  }

  /** On a coherent session an admin route renders exactly for a signed-in administrator. */
  lemma AdminRouteNeedsAdmin(s: Session, pathname: string)
    requires Coherent(s) && !s.isLoading
    ensures GuardSession(s, pathname, true) == Children <==> s.user.Some? && s.user.value.isAdmin
  {
  }
}
