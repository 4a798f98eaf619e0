/** The guard in front of protected pages: a decision on the session state and the page's required role. */
module RouteGuard {
  import opened Wrappers
  import Auth

  const LoginPath := "/login"
  const HomePath := "/"
  const AdminRole := "admin"

  /** What the guard renders: the loading spinner, a redirect, or the protected page itself. */
  datatype View = Spinner | Redirect(to: string) | Children

  /** The guard's decision for the session's `user` and `loading` and the page's `minRole`. */
  function Guard(loading: bool, user: Option<Auth.User>, minRole: Option<string>): (v: View)
    ensures v == Spinner <==> loading
    ensures v == Redirect(LoginPath) <==> !loading && user.None?
    ensures v == Redirect(HomePath) <==> !loading && user.Some? && minRole == Some(AdminRole) && !user.value.isAdmin
    ensures v == Children <==> !loading && user.Some? && (minRole != Some(AdminRole) || user.value.isAdmin)
  {
    if loading then Spinner
    else if user.None? then Redirect(LoginPath)
    else if minRole == Some(AdminRole) && !user.value.isAdmin then Redirect(HomePath)
    else Children
  }

  /**
   * For a user the session store built, an admin-only page opens exactly for
   * the username "admin", and every other page opens for anyone logged in.
   */
  lemma AdminPageNeedsAdminName(username: Option<string>, minRole: Option<string>)
    ensures (Guard(false, Some(Auth.Identity(username)), Some(AdminRole)) == Children) <==>
            username == Some(Auth.AdminUsername)
    ensures minRole != Some(AdminRole) ==> Guard(false, Some(Auth.Identity(username)), minRole) == Children
  {
  }
}
