/** The `AuthProvider` context: `user` and `isLoading`, the initial
    resolution, the auth-event handler, and `signOut`.  Network calls are
    replaced by their abstract outcomes. */
module AuthProvider {
  import opened Wrappers
  import opened Session

  datatype ProviderState = ProviderState(user: Option<Profile>, isLoading: bool)

  /** `useState(null)` and `useState(true)`. */
  const Initial := ProviderState(None, true)

  /** The outcome of `supabase.auth.getSession()` as the provider reads it. */
  datatype SessionLookup = NoSession | Active(user: SessionUser) | SessionThrew

  /** The outcome of `.from("user_profiles").select("*").eq("id", …).single()`:
      a row, no row (`data` is null), or an exception. */
  datatype ProfileFetch = Found(profile: Profile) | NotFound | FetchThrew

  /** `getUser`: no session clears the user; a session with a profile row sets
      it; a missing row or an exception leaves the user as it was.  Loading
      always ends. */
  function Resolve(state: ProviderState, session: SessionLookup, fetch: ProfileFetch): (s: ProviderState)
    ensures !s.isLoading
    ensures session.NoSession? ==> s.user.None?
    ensures session.Active? && fetch.Found? ==> s.user == Some(fetch.profile)
    ensures session.Active? && !fetch.Found? ==> s.user == state.user
    ensures session.SessionThrew? ==> s.user == state.user
  {
    match session
    case NoSession => ProviderState(None, false)
    case SessionThrew => state.(isLoading := false)
    case Active(_) =>
      if fetch.Found? then ProviderState(Some(fetch.profile), false) else state.(isLoading := false)
  }

  /** The `onAuthStateChange` handler.  `fetch` answers the profile lookup
      made for `SIGNED_IN`; an exception there is an unhandled rejection and
      changes nothing. */
  function OnAuthStateChange(state: ProviderState, event: AuthEvent, session: Option<SessionUser>, fetch: ProfileFetch)
    : (s: ProviderState)
    ensures s.isLoading == state.isLoading
    ensures event == SignedOut ==> s.user.None?
    ensures event == SignedIn && session.Some? && fetch.Found? ==> s.user == Some(fetch.profile)
    ensures !(event == SignedIn && session.Some? && fetch.Found?) && event != SignedOut ==> s == state
  {
    if event == SignedIn && session.Some? then
      if fetch.Found? then state.(user := Some(fetch.profile)) else state
    else if event == SignedOut then state.(user := None)
    else state
  }

  /** `signOut`: once `supabase.auth.signOut()` has returned, the user is
      cleared; if the call throws, `setUser(null)` is never reached. */
  function SignOut(state: ProviderState, callThrew: bool): (s: ProviderState)
    ensures s.isLoading == state.isLoading
    ensures !callThrew ==> s.user.None?
    ensures callThrew ==> s == state
  {
    if callThrew then state else state.(user := None)
  }

  /** A user is never left in place once the session is gone: signing out
      (whether `signOut` itself returns or the `SIGNED_OUT` event arrives
      first) ends with no user. */
  lemma SignOutClearsUser(state: ProviderState, session: Option<SessionUser>, fetch: ProfileFetch)
    ensures OnAuthStateChange(SignOut(state, false), SignedOut, session, fetch).user.None?
    ensures SignOut(OnAuthStateChange(state, SignedOut, session, fetch), false).user.None?
    ensures OnAuthStateChange(SignOut(state, true), SignedOut, session, fetch).user.None?
  {
  }
}
