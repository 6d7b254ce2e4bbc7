/** The home page's `getUser` effect: read the session, look the profile up,
    and create a minimal profile when none exists.  Each awaited call is
    replaced by its abstract outcome; `nowIso` is `new Date().toISOString()`. */
module HomePage {
  import opened Wrappers
  import opened Session

  /** The outcome of `supabase.auth.getSession()`. */
  datatype SessionLookup =
    | SessionFailed(message: string)
    | NoSession
    | Active(user: SessionUser)
    | SessionThrew(message: string)

  /** The outcome of a select or an insert-and-select on `user_profiles`. */
  datatype Query = QueryFailed(message: string) | Rows(rows: seq<Profile>) | QueryThrew(message: string)

  /** The page's state once `getUser` has finished, the navigation it made,
      and the rows it asked to insert. */
  datatype HomeState = HomeState(
    user: Option<Profile>,
    isLoading: bool,
    error: Option<string>,
    redirect: Option<string>,
    inserted: seq<Profile>)

  const LoginPath := "/login"
  const BootstrapRole := "visitante"
  const BootstrapFailed := "No se pudo crear un perfil básico"

  /** The row inserted for a signed-in user who has no profile yet. */
  function BootstrapProfile(user: SessionUser, nowIso: string): (p: Profile)
    ensures p.id == user.id && p.email == user.email
    ensures p.role == BootstrapRole && p.isActive
    ensures p.name == FallbackName(user.email)
  {
    Profile(user.id, user.email, FallbackName(user.email), BootstrapRole, true, nowIso)
  }

  function Unexpected(message: string): string { "Error inesperado: " + message }

  /** `getUser` from start to `finally`.  `check` answers the profile lookup
      and `insert` the bootstrap insert; each is consulted only when the flow
      reaches that call. */
  function GetUser(session: SessionLookup, check: Query, insert: Query, nowIso: string): (s: HomeState)
    ensures !s.isLoading
    ensures |s.inserted| <= 1
    ensures s.user.Some? ==> s.error.None? && s.redirect.None?
    ensures s.redirect.Some? <==> session.NoSession?
    ensures s.redirect.Some? ==> s.redirect == Some(LoginPath) && s.user.None? && s.error.None?
    ensures session.SessionFailed? ==>
              s == HomeState(None, false, Some("Error de sesión: " + session.message), None, [])
    ensures session.Active? && check.Rows? && |check.rows| > 0 ==>
              s.user == Some(check.rows[0]) && s.inserted == []
    ensures session.Active? && check.Rows? && |check.rows| == 0 ==>
              s.inserted == [BootstrapProfile(session.user, nowIso)]
              && (s.user.Some? <==> insert.Rows? && |insert.rows| > 0)
              && (s.user.Some? ==> s.user == Some(insert.rows[0]))
    ensures session.Active? && check.QueryFailed? ==>
              s.user.None? && s.inserted == [] && s.error == Some("Error al verificar perfil: " + check.message)
    ensures s.inserted != [] ==> session.Active? && check == Rows([])
    ensures s.user.None? && !session.NoSession? ==> s.error.Some?
  {
    match session
    case SessionFailed(m) => HomeState(None, false, Some("Error de sesión: " + m), None, [])
    case SessionThrew(m) => HomeState(None, false, Some(Unexpected(m)), None, [])
    case NoSession => HomeState(None, false, None, Some(LoginPath), [])
    case Active(u) =>
      match check
      case QueryFailed(m) => HomeState(None, false, Some("Error al verificar perfil: " + m), None, [])
      case QueryThrew(m) => HomeState(None, false, Some(Unexpected(m)), None, [])
      case Rows(existing) =>
        if |existing| > 0 then HomeState(Some(existing[0]), false, None, None, [])
        else
          var row := BootstrapProfile(u, nowIso);
          match insert
          case QueryFailed(m) => HomeState(None, false, Some("Error al crear perfil: " + m), None, [row])
          case QueryThrew(m) => HomeState(None, false, Some(Unexpected(m)), None, [row])
          case Rows(created) =>
            if |created| > 0 then HomeState(Some(created[0]), false, None, None, [row])
            else HomeState(None, false, Some(BootstrapFailed), None, [row])
  }

  /** Loading the page again after a successful bootstrap finds the row it
      created: the same user is shown and nothing more is inserted. */
  lemma BootstrapIsNotRepeated(u: SessionUser, nowIso: string, laterIso: string, insert: Query)
    ensures var first := GetUser(Active(u), Rows([]), Rows([BootstrapProfile(u, nowIso)]), nowIso);
            var second := GetUser(Active(u), Rows(first.inserted), insert, laterIso);
            && first.user == Some(BootstrapProfile(u, nowIso))
            && second.user == first.user
            && second.inserted == []
  {
  }

  /** The bootstrap name is the text before the first "@" of the email, or
      "Usuario" when that is empty or there is no email. */
  lemma BootstrapName(id: string, local: string, domain: string, nowIso: string)
    requires local != [] && '@' !in local
    ensures BootstrapProfile(SessionUser(id, Some(local + "@" + domain)), nowIso).name == local
    ensures BootstrapProfile(SessionUser(id, Some("@" + domain)), nowIso).name == DefaultName
    ensures BootstrapProfile(SessionUser(id, None), nowIso).name == DefaultName
  {
    var e := local + "@" + domain;
    var r := FallbackName(Some(e));
    assert e[..|local|] == local;
    assert e[|local|] == '@';
    assert |r| == |local|;
  }
}
