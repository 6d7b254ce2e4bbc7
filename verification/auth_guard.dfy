/** The client-side `AuthGuard` component: from the provider's
    `(isLoading, user)` and the page's `requiredRole` list it decides where to
    redirect (the `useEffect`) and what to render. */
module AuthGuard {
  import opened Wrappers
  import opened Session

  /** What the component returns: the spinner, its children, or `null`. */
  datatype View = LoadingPlaceholder | Children | Nothing

  datatype Decision = Decision(redirect: Option<string>, view: View)

  const LoginPath := "/login"
  const LandingPath := "/"

  /** The guard's redirect and its rendered view.  The role check only
      redirects; the children are rendered for any present user. */
  function Guard(isLoading: bool, user: Option<Profile>, requiredRole: seq<string>): (d: Decision)
    ensures isLoading ==> d == Decision(None, LoadingPlaceholder)
    ensures d.redirect == Some(LoginPath) <==> !isLoading && user.None?
    ensures d.redirect == Some(LandingPath) <==>
              !isLoading && user.Some? && |requiredRole| > 0 && user.value.role !in requiredRole
    ensures d.redirect.None? || d.redirect == Some(LoginPath) || d.redirect == Some(LandingPath)
    ensures d.view == Children <==> !isLoading && user.Some?
    ensures d.view == Nothing <==> !isLoading && user.None?
  {
    var redirect :=
      if !isLoading && user.None? then Some(LoginPath)
      else if !isLoading && user.Some? && |requiredRole| > 0 && user.value.role !in requiredRole then Some(LandingPath)
      else None;
    var view :=
      if isLoading then LoadingPlaceholder
      else if user.Some? then Children
      else Nothing;
    Decision(redirect, view)
  }

  /** With the default empty `requiredRole`, a signed-in user is never sent
      away, whatever the role. */
  lemma DefaultRoleNeverRedirects(user: Profile)
    ensures Guard(false, Some(user), []) == Decision(None, Children)
  {
  }

  /** A decision that renders the children is never also a redirect to the
      login page: content is shown only to a present user. */
  lemma ChildrenOnlyForUsers(isLoading: bool, user: Option<Profile>, requiredRole: seq<string>)
    ensures Guard(isLoading, user, requiredRole).view == Children ==>
              user.Some? && Guard(isLoading, user, requiredRole).redirect != Some(LoginPath)
  {
  }

  /** A signed-in user without the required role is sent to "/", yet the
      page's children are rendered in the same pass. */
  lemma ForbiddenPageStillRenders(user: Profile, requiredRole: seq<string>)
    requires |requiredRole| > 0 && user.role !in requiredRole
    ensures Guard(false, Some(user), requiredRole) == Decision(Some(LandingPath), Children)
  {
  }
}
