/** The root-layout `AuthWrapper`: the public-route test, the `checkAuth`
    effect run on mount, the `onAuthStateChange` handler, and the render
    decision.  `getSession` is replaced by its abstract outcome. */
module AuthWrapper {
  import opened Wrappers
  import opened Session
  import Text

  const PublicRoutes: seq<string> := ["/login", "/test-auth"]
  const LoginPath := "/login"
  const LandingPath := "/"

  /** `publicRoutes.includes(pathname)`: exact membership, never a prefix test. */
  predicate IsPublicRoute(pathname: string) {
    pathname in PublicRoutes
  }

  /** The outcome of `await supabase.auth.getSession()`: the call returned a
      session (or not) and an error (or not), or it threw. */
  datatype SessionCheck = Returned(hasSession: bool, hasError: bool) | Threw

  datatype WrapperState = WrapperState(isLoading: bool, isAuthenticated: bool)

  /** The state after a step and the `router.push` target, if any. */
  datatype Transition = Transition(state: WrapperState, redirect: Option<string>)

  /** What the component renders. */
  datatype View = Spinner | Children

  const InitialState := WrapperState(true, false)

  /** `checkAuth`: a session on a public route goes to "/", no session on a
      private route goes to "/login"; an exception redirects private routes
      only; `isLoading` always ends false (the `finally`). */
  function CheckAuth(state: WrapperState, pathname: string, check: SessionCheck): (t: Transition)
    ensures !t.state.isLoading
    ensures check.Threw? ==>
              !t.state.isAuthenticated
              && t.redirect == (if IsPublicRoute(pathname) then None else Some(LoginPath))
    ensures check.Returned? ==> t.state.isAuthenticated == (check.hasSession && !check.hasError)
    ensures check.Returned? ==>
              (t.redirect == Some(LandingPath) <==> check.hasSession && IsPublicRoute(pathname))
              && (t.redirect == Some(LoginPath) <==> !check.hasSession && !IsPublicRoute(pathname))
              && (t.redirect.None? <==> check.hasSession != IsPublicRoute(pathname))
  {
    match check
    case Threw =>
      Transition(WrapperState(false, false), if IsPublicRoute(pathname) then None else Some(LoginPath))
    case Returned(hasSession, hasError) =>
      var authenticated := if hasError then false else hasSession;
      var redirect :=
        if hasSession && IsPublicRoute(pathname) then Some(LandingPath)
        else if !hasSession && !IsPublicRoute(pathname) then Some(LoginPath)
        else None;
      Transition(WrapperState(false, authenticated), redirect)
  }

  /** The `onAuthStateChange` handler: `isAuthenticated` follows the session,
      `SIGNED_IN` with a session goes to "/", `SIGNED_OUT` goes to "/login". */
  function OnAuthEvent(state: WrapperState, event: AuthEvent, hasSession: bool): (t: Transition)
    ensures t.state == state.(isAuthenticated := hasSession)
    ensures t.redirect == Some(LandingPath) <==> event == SignedIn && hasSession
    ensures t.redirect == Some(LoginPath) <==> event == SignedOut
    ensures t.redirect.None? <==> !(event == SignedIn && hasSession) && event != SignedOut
  {
    var redirect :=
      if event == SignedIn && hasSession then Some(LandingPath)
      else if event == SignedOut then Some(LoginPath)
      else None;
    Transition(state.(isAuthenticated := hasSession), redirect)
  }

  /** The render decision. */
  function Render(state: WrapperState, pathname: string): (v: View)
    ensures state.isLoading ==> v == Spinner
    ensures !state.isLoading ==> (v == Children <==> IsPublicRoute(pathname) || state.isAuthenticated)
  {
    if state.isLoading then Spinner
    else if IsPublicRoute(pathname) then Children
    else if state.isAuthenticated then Children
    else Spinner
  }

  /** A redirect issued by `checkAuth` never bounces: re-checking the target
      path with the same (error-free) session result asks for no further
      redirect, so the wrapper cannot loop between "/" and "/login". */
  lemma NoRedirectLoop(state: WrapperState, pathname: string, hasSession: bool)
    ensures var t := CheckAuth(state, pathname, Returned(hasSession, false));
            t.redirect.Some? ==>
              CheckAuth(t.state, t.redirect.value, Returned(hasSession, false)).redirect.None?
  {
  }

  /** Private content is never rendered to a visitor without a session:
      after `checkAuth` finds none, only public routes show their children. */
  lemma NoPrivateContentWithoutSession(state: WrapperState, pathname: string, hasError: bool)
    ensures Render(CheckAuth(state, pathname, Returned(false, hasError)).state, pathname) == Children
            ==> IsPublicRoute(pathname)
    ensures Render(CheckAuth(state, pathname, Threw).state, pathname) == Children ==> IsPublicRoute(pathname)
  {
  }

  /** After any auth event, a private route shows its children exactly when
      the event carried a session, and `SIGNED_OUT` always sends the user to
      the login page, where the wrapper then shows the login form. */
  lemma EventThenRender(state: WrapperState, event: AuthEvent, hasSession: bool, pathname: string)
    requires !state.isLoading
    ensures !IsPublicRoute(pathname) ==>
              (Render(OnAuthEvent(state, event, hasSession).state, pathname) == Children <==> hasSession)
    ensures event == SignedOut ==>
              var t := OnAuthEvent(state, event, hasSession);
              t.redirect == Some(LoginPath) && Render(t.state, t.redirect.value) == Children
    ensures event == SignedIn && hasSession ==>
              var t := OnAuthEvent(state, event, hasSession);
              t.redirect == Some(LandingPath) && Render(t.state, t.redirect.value) == Children
  {
  }

  /** Sub-paths and other extensions of a public route are private. */
  lemma PublicRoutesAreExact(pathname: string)
    requires Text.StartsWith(pathname, "/login") && pathname != "/login"
    ensures !IsPublicRoute(pathname)
  {
    assert pathname[..6] == "/login";
    assert pathname[1] == 'l';
  }
}
