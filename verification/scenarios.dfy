/** End-to-end runs that chain the demo auth store, the `AuthProvider`, the
    `AuthGuard` and the `Sidebar`: signing in as each seeded account, signing
    out, and letting a session expire.  The program itself never hands the
    demo store to the provider and never gives `AuthGuard` a role list, so
    these runs describe what that wiring would do, not a page of the
    program. */
module Scenarios {
  import opened Wrappers
  import opened Session
  import DemoAuth
  import AuthProvider
  import AuthGuard
  import Sidebar
  import Header
  import HomePage

  /** The `user_profiles` row of a demo user. */
  function ProfileOf(u: DemoAuth.DemoUser): (p: Profile)
    ensures p.id == u.id && p.email == Some(u.email) && p.name == u.name
    ensures p.role == u.role && p.isActive == u.isActive && p.createdAt == u.createdAt
  {
    Profile(u.id, Some(u.email), u.name, u.role, u.isActive, u.createdAt)
  }

  /** A page load at time `now`: the provider reads the stored session and
      looks its user's profile up by id. */
  function LoadProvider(store: DemoAuth.Store, accounts: seq<DemoAuth.Account>, now: int): (s: AuthProvider.ProviderState)
    ensures !s.isLoading
    ensures s.user.Some? ==> DemoAuth.GetSession(store, now).response.session.Some?
    ensures DemoAuth.GetSession(store, now).response.session.None? ==> s.user.None?
  {
    var session := DemoAuth.GetSession(store, now).response.session;
    if session.None? then AuthProvider.Resolve(AuthProvider.Initial, AuthProvider.NoSession, AuthProvider.NotFound)
    else
      var user := session.value.user;
      var profile := DemoAuth.GetUserProfile(accounts, user.id);
      AuthProvider.Resolve(AuthProvider.Initial, AuthProvider.Active(SessionUser(user.id, Some(user.email))),
                           if profile.data.Some? then AuthProvider.Found(ProfileOf(profile.data.value)) else AuthProvider.NotFound)
  }

  /** The guard with a role list agrees with the sidebar built from the same
      list: a signed-in user passes the users-page guard iff the sidebar
      shows "Usuarios", and the logs-page guard iff it shows "Logs". */
  lemma GuardAgreesWithSidebar(user: Profile)
    ensures AuthGuard.Guard(false, Some(user), Sidebar.UserAdminRoles).redirect.None? <==> Sidebar.CanViewUsers(Some(user))
    ensures AuthGuard.Guard(false, Some(user), Sidebar.LogRoles).redirect.None? <==> Sidebar.CanViewLogs(Some(user))
  {
    assert "" !in Sidebar.UserAdminRoles;
  }

  /** The seeded administrator signs in and reloads within the day: the
      provider holds the "administrador" profile, the sidebar shows
      "Usuarios" but not "Logs", and a guard given the sidebar's lists would
      admit them under `UserAdminRoles` and send them home under `LogRoles`. */
  lemma AdminScenario(loadedAt: string, now: nat, later: int)
    requires now <= later <= now + DemoAuth.SessionLifetime
    ensures var accounts := DemoAuth.DemoUsers(loadedAt);
            var signedIn := DemoAuth.SignIn(DemoAuth.Initial, accounts, "admin@onvia.com", "admin123", now);
            var state := LoadProvider(signedIn.store, accounts, later);
            && state.user.Some? && state.user.value.role == "administrador"
            && AuthGuard.Guard(state.isLoading, state.user, Sidebar.UserAdminRoles) == AuthGuard.Decision(None, AuthGuard.Children)
            && AuthGuard.Guard(state.isLoading, state.user, Sidebar.LogRoles).redirect == Some(AuthGuard.LandingPath)
            && Sidebar.Link("/usuarios", "Usuarios") in Sidebar.Links(state.user)
            && Sidebar.Link("/logs", "Logs") !in Sidebar.Links(state.user)
  {
    var accounts := DemoAuth.DemoUsers(loadedAt);
    var signedIn := DemoAuth.SignIn(DemoAuth.Initial, accounts, "admin@onvia.com", "admin123", now);
    assert signedIn.store.storage.session.user == accounts[0].user;
  }

  /** The seeded visitor signs in: the provider holds the "visitante"
      profile, neither gated link is shown, a guard without a role list shows
      the page, and one given `UserAdminRoles` would send them home. */
  lemma VisitorScenario(loadedAt: string, now: nat)
    ensures var accounts := DemoAuth.DemoUsers(loadedAt);
            var signedIn := DemoAuth.SignIn(DemoAuth.Initial, accounts, "user@onvia.com", "user123", now);
            var state := LoadProvider(signedIn.store, accounts, now);
            && state.user.Some? && state.user.value.role == "visitante"
            && AuthGuard.Guard(state.isLoading, state.user, []) == AuthGuard.Decision(None, AuthGuard.Children)
            && AuthGuard.Guard(state.isLoading, state.user, Sidebar.UserAdminRoles).redirect == Some(AuthGuard.LandingPath)
            && Sidebar.Links(state.user) == Sidebar.BaseLinks + [Sidebar.Link("/configuracion", "Configuración")]
  {
    var accounts := DemoAuth.DemoUsers(loadedAt);
    var signedIn := DemoAuth.SignIn(DemoAuth.Initial, accounts, "user@onvia.com", "user123", now);
    assert signedIn.store.storage.session.user == accounts[1].user;
  }

  /** After signing out, or once the session has expired, a guard with any
      role list redirects to the login page and renders nothing. */
  lemma NoSessionScenario(store: DemoAuth.Store, accounts: seq<DemoAuth.Account>, now: int, roles: seq<string>)
    ensures var state := LoadProvider(DemoAuth.SignOut(store).store, accounts, now);
            AuthGuard.Guard(state.isLoading, state.user, roles) == AuthGuard.Decision(Some(AuthGuard.LoginPath), AuthGuard.Nothing)
    ensures store.storage.Saved? && now > store.storage.session.expiresAt ==>
              var state := LoadProvider(store, accounts, now);
              AuthGuard.Guard(state.isLoading, state.user, roles) == AuthGuard.Decision(Some(AuthGuard.LoginPath), AuthGuard.Nothing)
  {
  }
  /** The header and the home page name a profile-less user the same way:
      the header's stand-in carries the name and email of the row the home
      page inserts, and once that row exists the header shows it. */
  lemma HeaderAgreesWithHomePage(current: Option<Header.HeaderUser>, u: SessionUser, nowIso: string)
    ensures var standIn := Header.LoadUser(current, Header.Active(u), Header.Rows([]));
            var row := HomePage.BootstrapProfile(u, nowIso);
            && standIn.Some?
            && Header.Name(standIn.value) == row.name
            && standIn.value.FromSession? && standIn.value.email == row.email
    ensures var row := HomePage.BootstrapProfile(u, nowIso);
            var loaded := Header.LoadUser(current, Header.Active(u), Header.Rows([row]));
            loaded == Some(Header.FromProfile(row)) && Header.Name(loaded.value) == FallbackName(u.email)
  {
  }
}
