/** The route guards of frontend/src/App.js: `PrivateRoute` and
    `PublicRoute`, each a chain of conditionals over the `useAuth` flags.
    `isAuthenticated` reads the `access` entry and `isAdmin` the stored
    profile's `est_admin`, so the guards are stated over the session store
    as well as over the bare flags. */
module AppRoutes {
  import opened Common
  import opened JsonValue
  import opened SessionStore
  import opened AxiosInstance
  import opened AuthApi
  import opened UseAuth

  const TasksPath := "/taches"

  /** What a guard renders: the full-page spinner, a redirect, or the
      wrapped page. */
  datatype View = Spinner | Redirect(to: string) | Children

  /** `PrivateRoute({children, requireAdmin})`. */
  function PrivateRoute(loading: bool, authenticated: bool, admin: Json, requireAdmin: bool): (v: View)
    ensures loading ==> v == Spinner
    ensures !loading && !authenticated ==> v == Redirect(LoginPath)
    ensures v == Children <==> !loading && authenticated && (!requireAdmin || Truthy(admin))
    ensures v == Redirect(TasksPath) <==> !loading && authenticated && requireAdmin && !Truthy(admin)
  {
    if loading then Spinner
    else if !authenticated then Redirect(LoginPath)
    else if requireAdmin && !Truthy(admin) then Redirect(TasksPath)
    else Children
  }

  /** `PublicRoute({children})`. */
  function PublicRoute(loading: bool, authenticated: bool): (v: View)
    ensures loading ==> v == Spinner
    ensures v == Redirect(TasksPath) <==> !loading && authenticated
    ensures v == Children <==> !loading && !authenticated
  {
    if loading then Spinner
    else if authenticated then Redirect(TasksPath)
    else Children
  }

  /** Both guards read the store through the hook. */
  function PrivateView(items: map<string, string>, codec: Codec, loading: bool, requireAdmin: bool): View {
    PrivateRoute(loading, IsAuthenticated(items), IsAdmin(items, codec), requireAdmin)
  }

  function PublicView(items: map<string, string>, loading: bool): View {
    PublicRoute(loading, IsAuthenticated(items))
  }

  /** Once loading is over, at most one of the two guards shows its page
      for a given store: when a private page opens, a public one redirects
      to the task list, and when a public page opens, a private one
      redirects to the login page. */
  lemma {:induction false} GuardsComplement(items: map<string, string>, codec: Codec, requireAdmin: bool)
    ensures PrivateView(items, codec, false, requireAdmin) == Children ==>
      PublicView(items, false) == Redirect(TasksPath)
    ensures PublicView(items, false) == Children ==>
      PrivateView(items, codec, false, requireAdmin) == Redirect(LoginPath)
  {
  }

  /** After the interceptor's teardown the private pages send the visitor
      to the login page, even though the `user` entry (and with it an admin
      flag) may still be stored; after a logout the admin flag is gone too. */
  lemma {:induction false} TeardownLocksPrivatePages(items: map<string, string>, codec: Codec, requireAdmin: bool)
    ensures PrivateView(Teardown(items), codec, false, requireAdmin) == Redirect(LoginPath)
    ensures PublicView(Teardown(items), false) == Children
    ensures PrivateView(LoggedOut(items), codec, false, requireAdmin) == Redirect(LoginPath)
    ensures IsAdmin(LoggedOut(items), codec) == JBool(false)
  {
    TeardownKeepsUser(items);
    LogoutClearsSession(items, codec);
  }

  /** After a complete sign-in through the hook (with a codec that reads
      the profile back), an admin page opens exactly when the profile's
      `est_admin` is truthy, provided the stored access token is not empty. */
  lemma {:induction false} AdminPageAfterLogin(base: string, items: map<string, string>, codec: Codec,
      pathname: string, username: string, password: string, replies: seq<Reply>)
    requires var run := LoginSpec(base, items, codec, pathname, username, password, replies);
      run.result.Succeeded? && RoundTrips(codec, run.profile.value)
      && codec.stringify(run.profile.value) != "" && IsAuthenticated(run.items)
    ensures var run := LoginSpec(base, items, codec, pathname, username, password, replies);
      PrivateView(run.items, codec, false, true) ==
        (if Truthy(Get(run.profile.value, "est_admin")) then Children else Redirect(TasksPath))
  {
    AdminAfterLogin(base, items, codec, pathname, username, password, replies);
  }
}
