/** The navigation `Sidebar`: role-gated links and the active-link test. */
module Sidebar {
  import opened Wrappers
  import opened Session
  import Text

  const UserAdminRoles: seq<string> := ["administrador", "admin_superior", "super_usuario"]
  const LogRoles: seq<string> := ["admin_superior", "super_usuario"]

  datatype Link = Link(href: string, title: string)

  /** `user?.role && roles.includes(user.role)`: an absent user or an empty
      role is falsy. */
  predicate HasRoleIn(user: Option<Profile>, roles: seq<string>) {
    user.Some? && user.value.role != [] && user.value.role in roles
  }

  /** `canViewUsers`. */
  predicate CanViewUsers(user: Option<Profile>) {
    HasRoleIn(user, UserAdminRoles)
  }

  /** `canViewLogs`. */
  predicate CanViewLogs(user: Option<Profile>) {
    HasRoleIn(user, LogRoles)
  }

  /** Everyone who may see the logs may also see the users page. */
  lemma LogsImplyUsers(user: Option<Profile>)
    ensures CanViewLogs(user) ==> CanViewUsers(user)
    ensures user.None? ==> !CanViewUsers(user) && !CanViewLogs(user)
    ensures CanViewUsers(user) <==>
              user.Some? && (user.value.role == "administrador" || user.value.role == "admin_superior"
                             || user.value.role == "super_usuario")
    ensures CanViewLogs(user) <==>
              user.Some? && (user.value.role == "admin_superior" || user.value.role == "super_usuario")
  {
  }

  /** The highlight test: the home link matches "/" exactly, every other link
      matches any path that starts with its href. */
  function IsActive(pathname: string, href: string): (b: bool)
    ensures href == "/" ==> (b <==> pathname == "/")
    ensures href != "/" ==> (b <==> |href| <= |pathname| && pathname[..|href|] == href)
  {
    if href == "/" then pathname == "/" else Text.StartsWith(pathname, href)
  }

  /** The links shown, in order; "Usuarios" and "Logs" appear only to the
      roles allowed to see them. */
  function Links(user: Option<Profile>): (ls: seq<Link>)
    ensures Link("/usuarios", "Usuarios") in ls <==> CanViewUsers(user)
    ensures Link("/logs", "Logs") in ls <==> CanViewLogs(user)
    ensures |ls| == 7 + (if CanViewUsers(user) then 1 else 0) + (if CanViewLogs(user) then 1 else 0)
    ensures ls[..6] == BaseLinks && ls[|ls| - 1] == Link("/configuracion", "Configuración")
  {
    BaseLinks
    + (if CanViewUsers(user) then [Link("/usuarios", "Usuarios")] else [])
    + (if CanViewLogs(user) then [Link("/logs", "Logs")] else [])
    + [Link("/configuracion", "Configuración")]
  }

  const BaseLinks: seq<Link> := [
    Link("/", "Inicio"),
    Link("/buses", "Buses"),
    Link("/novedades", "Novedades"),
    Link("/notificaciones", "Notificaciones"),
    Link("/reportes", "Reportes"),
    Link("/historial", "Historial")
  ]

  /** On the home page only the home link is highlighted. */
  lemma HomeHighlightsOnlyHome(user: Option<Profile>)
    ensures forall i :: 0 <= i < |Links(user)| ==>
              (IsActive("/", Links(user)[i].href) <==> Links(user)[i].href == "/")
  {
  }
}
