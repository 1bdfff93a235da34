/** The client-side route table and its guard. */
module Router {
  /** A route either renders its page or navigates elsewhere, replacing the
      history entry. */
  datatype View = Render(page: string) | Redirect(to: string, replace: bool)

  const RegisterPath := "/register"
  const LoginPath := "/login"

  /** The application pages, each behind the guard and inside the main
      layout. */
  const PrivatePaths: set<string> :=
    {"/dashboard", "/send", "/transactions", "/blocks", "/reports", "/logs", "/wallet", "/beneficiaries"}

  /** The guard: no user, back to the login page; a user, the child. */
  function PrivateRoute(signedIn: bool, child: View): (v: View)
    ensures !signedIn ==> v == Redirect(LoginPath, true)
    ensures signedIn ==> v == child
  {
    if !signedIn then Redirect(LoginPath, true) else child
  }

  /** What the router shows for `path` when a user is or is not signed
      in. */
  function Resolve(path: string, signedIn: bool): (v: View)
    ensures path == "/" ==> v == Redirect(RegisterPath, true)
    ensures path == RegisterPath || path == LoginPath ==> v == Render(path)
    ensures path in PrivatePaths ==> v == (if signedIn then Render(path) else Redirect(LoginPath, true))
    ensures path !in PrivatePaths && path != "/" && path != RegisterPath && path != LoginPath ==>
      v == Redirect(RegisterPath, true)
    ensures v.Redirect? ==> v.replace && (v.to == RegisterPath || v.to == LoginPath)
    ensures v.Render? ==> v.page == path && (path in PrivatePaths ==> signedIn)
  {
    if path == "/" then Redirect(RegisterPath, true)
    else if path == RegisterPath || path == LoginPath then Render(path)
    else if path in PrivatePaths then PrivateRoute(signedIn, Render(path))
    else Redirect(RegisterPath, true)
  }

  /** Following a redirect lands on a page at once: there are no redirect
      chains and no loops. */
  lemma OneRedirectAtMost(path: string, signedIn: bool)
    ensures var v := Resolve(path, signedIn);
      v.Redirect? ==> Resolve(v.to, signedIn).Render?
  {
  }

  /** A page is rendered exactly when it is public or a user is signed in,
      and the only pages are the public ones and the application pages. */
  lemma Rendered(path: string, signedIn: bool)
    ensures Resolve(path, signedIn).Render? <==>
      (path == RegisterPath || path == LoginPath || (path in PrivatePaths && signedIn))
  {
  }
}
