/** The ProtectedRoute decision: a loading screen, a redirect, or the wrapped children. */
module ProtectedRoute {

  datatype View = LoadingScreen | Redirect(to: string) | Children

  /** The component, with its default props: `redirectTo = "/login"`, `requireAuth = true`. */
  function Guard(isLoading: bool, isAuthenticated: bool, redirectTo: string := "/login", requireAuth: bool := true): (v: View)
    ensures isLoading ==> v == LoadingScreen
    ensures !isLoading && requireAuth && !isAuthenticated ==> v == Redirect(redirectTo)
    ensures !isLoading && !requireAuth && isAuthenticated ==> v == Redirect("/dashboard")
    ensures v == Children <==> !isLoading && requireAuth == isAuthenticated
  {
    if isLoading then LoadingScreen
    else if requireAuth && !isAuthenticated then Redirect(redirectTo)
    else if !requireAuth && isAuthenticated then Redirect("/dashboard")
    else Children
  }

  /** Without props, a signed-out visitor is sent to "/login". */
  lemma DefaultRedirect()
    ensures Guard(false, false) == Redirect("/login")
    ensures Guard(false, true) == Children
  {
  }

  /**
   * Once loading is over, a protected page and a signed-out-only page are
   * complementary: for any authentication state exactly one of them shows
   * its children, and the other redirects.
   */
  lemma GuardsComplementary(isAuthenticated: bool, redirectTo: string)
    ensures (Guard(false, isAuthenticated, redirectTo, true) == Children)
        != (Guard(false, isAuthenticated, redirectTo, false) == Children)
    ensures Guard(false, isAuthenticated, redirectTo, true).Redirect? != Guard(false, isAuthenticated, redirectTo, false).Redirect?
  {
  }
}
