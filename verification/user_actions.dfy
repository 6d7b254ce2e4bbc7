/** The `createUser` server action: create the auth user, then the profile,
    then the permissions row, then a log line, undoing the earlier steps
    when a later insert reports an error.  The three back-end stores are
    modelled as one value, and every awaited call is answered by an
    abstract outcome: it succeeded, it returned an error object, or it
    threw. */
module UserActions {
  import opened Wrappers
  import opened Session

  datatype Params = Params(email: string, password: string, name: string, role: string, permissions: map<string, bool>)

  datatype LogEntry = LogEntry(action: string, description: string, userId: Option<string>, userName: string, fechaCreacion: string)

  /** Auth users, `user_profiles`, `user_permissions` and `system_logs`. */
  datatype Backend = Backend(
    authUsers: set<string>,
    profiles: map<string, Profile>,
    permissions: map<string, map<string, bool>>,
    logs: seq<LogEntry>)

  /** The outcome of `auth.admin.createUser`. */
  datatype AuthOutcome = AuthCreated(userId: string) | AuthFailed(message: string) | AuthThrew(message: string)

  /** The outcome of any other call. */
  datatype Outcome = Done | Failed(message: string) | Threw(message: string)

  /** How each call after the first turns out; a call the flow never
      reaches leaves its outcome unused. */
  datatype Outcomes = Outcomes(
    auth: AuthOutcome,
    profile: Outcome,
    permissions: Outcome,
    log: Outcome,
    deleteProfile: Outcome,
    deleteAuthUser: Outcome)

  datatype ActionResult = Success(userId: string) | Error(message: string)

  /** The back-end calls the action makes, in order. */
  datatype Call = CreateAuthUser | InsertProfile | InsertPermissions | InsertLog | DeleteProfileRow | DeleteAuthUserCall

  datatype Run = Run(result: ActionResult, backend: Backend, calls: seq<Call>)

  const DefaultError := "Error al crear usuario"
  const LogUserName := "Sistema"

  /** `error.message || "Error al crear usuario"` in the catch block. */
  function Caught(message: string): (r: string)
    ensures r != []
    ensures message != [] ==> r == message
  {
    if message == [] then DefaultError else message
  }

  function ProfileRow(id: string, p: Params, nowIso: string): Profile {
    Profile(id, Some(p.email), p.name, p.role, true, nowIso)
  }

  function LogLine(p: Params, nowIso: string): LogEntry {
    LogEntry("create_user", "Usuario " + p.name + " (" + p.email + ") creado con rol " + p.role, None, LogUserName, nowIso)
  }

  /** `auth.admin.deleteUser(id)`; an error object is ignored, a throw
      reaches the catch block. */
  function DeleteAuthUser(b: Backend, id: string, o: Outcome): Backend {
    if o.Done? then b.(authUsers := b.authUsers - {id}) else b
  }

  function DeleteProfile(b: Backend, id: string, o: Outcome): Backend {
    if o.Done? then b.(profiles := b.profiles - {id}) else b
  }

  /** The whole action.  `nowIso` stands for both `new Date().toISOString()`
      calls. */
  function CreateUser(b: Backend, p: Params, o: Outcomes, nowIso: string): (r: Run)
    ensures o.auth.AuthFailed? ==> r == Run(Error(o.auth.message), b, [CreateAuthUser])
    ensures o.auth.AuthThrew? ==> r == Run(Error(Caught(o.auth.message)), b, [CreateAuthUser])
    ensures o.auth.AuthCreated? && o.profile.Failed? ==>
              && r.calls == [CreateAuthUser, InsertProfile, DeleteAuthUserCall]
              && r.result == Error(if o.deleteAuthUser.Threw? then Caught(o.deleteAuthUser.message) else o.profile.message)
    ensures o.auth.AuthCreated? && o.profile.Done? && o.permissions.Failed? ==>
              && r.calls == [CreateAuthUser, InsertProfile, InsertPermissions, DeleteProfileRow]
                            + (if o.deleteProfile.Threw? then [] else [DeleteAuthUserCall])
              && r.result == Error(if o.deleteProfile.Threw? then Caught(o.deleteProfile.message)
                                   else if o.deleteAuthUser.Threw? then Caught(o.deleteAuthUser.message)
                                   else o.permissions.message)
    ensures r.result.Success? <==>
              o.auth.AuthCreated? && o.profile.Done? && o.permissions.Done? && !o.log.Threw?
    ensures r.result.Success? ==>
              && r.result.userId == o.auth.userId
              && r.calls == [CreateAuthUser, InsertProfile, InsertPermissions, InsertLog]
              && r.backend.authUsers == b.authUsers + {r.result.userId}
              && r.backend.profiles == b.profiles[r.result.userId := ProfileRow(r.result.userId, p, nowIso)]
              && r.backend.permissions == b.permissions[r.result.userId := p.permissions]
              && r.backend.logs == b.logs + (if o.log.Done? then [LogLine(p, nowIso)] else [])
    ensures r.backend.logs != b.logs ==> r.result.Success?
    ensures r.backend.permissions != b.permissions ==> o.permissions.Done?
  {
    match o.auth
    case AuthFailed(m) => Run(Error(m), b, [CreateAuthUser])
    case AuthThrew(m) => Run(Error(Caught(m)), b, [CreateAuthUser])
    case AuthCreated(id) =>
      var b1 := b.(authUsers := b.authUsers + {id});
      match o.profile
      case Threw(m) => Run(Error(Caught(m)), b1, [CreateAuthUser, InsertProfile])
      case Failed(m) =>
        var b2 := DeleteAuthUser(b1, id, o.deleteAuthUser);
        var calls := [CreateAuthUser, InsertProfile, DeleteAuthUserCall];
        if o.deleteAuthUser.Threw? then Run(Error(Caught(o.deleteAuthUser.message)), b2, calls)
        else Run(Error(m), b2, calls)
      case Done =>
        var b2 := b1.(profiles := b1.profiles[id := ProfileRow(id, p, nowIso)]);
        match o.permissions
        case Threw(m) => Run(Error(Caught(m)), b2, [CreateAuthUser, InsertProfile, InsertPermissions])
        case Failed(m) =>
          var b3 := DeleteProfile(b2, id, o.deleteProfile);
          var calls := [CreateAuthUser, InsertProfile, InsertPermissions, DeleteProfileRow];
          if o.deleteProfile.Threw? then Run(Error(Caught(o.deleteProfile.message)), b3, calls)
          else
            var b4 := DeleteAuthUser(b3, id, o.deleteAuthUser);
            if o.deleteAuthUser.Threw? then Run(Error(Caught(o.deleteAuthUser.message)), b4, calls + [DeleteAuthUserCall])
            else Run(Error(m), b4, calls + [DeleteAuthUserCall])
        case Done =>
          var b3 := b2.(permissions := b2.permissions[id := p.permissions]);
          var calls := [CreateAuthUser, InsertProfile, InsertPermissions, InsertLog];
          match o.log
          case Threw(m) => Run(Error(Caught(m)), b3, calls)
          case Failed(_) => Run(Success(id), b3, calls)
          case Done => Run(Success(id), b3.(logs := b3.logs + [LogLine(p, nowIso)]), calls)
  }

  /** A log insert that reports an error does not undo or fail the creation:
      the result and the stored user are the same as when it succeeds. */
  lemma LogFailureIsHarmless(b: Backend, p: Params, o: Outcomes, nowIso: string, m: string)
    requires o.auth.AuthCreated? && o.profile.Done? && o.permissions.Done?
    ensures var done := CreateUser(b, p, o.(log := Done), nowIso);
            var failed := CreateUser(b, p, o.(log := Failed(m)), nowIso);
            && failed.result == done.result == Success(o.auth.userId)
            && failed.backend == done.backend.(logs := b.logs)
            && failed.calls == done.calls
  {
  }

  /** The id is new to every store the action writes. */
  predicate Fresh(b: Backend, id: string) {
    id !in b.authUsers && id !in b.profiles
  }

  /** All or nothing: when no call throws and every compensating delete
      succeeds, the action either creates the user in all three stores or
      leaves the back end exactly as it found it. */
  lemma {:induction false} AllOrNothing(b: Backend, p: Params, o: Outcomes, nowIso: string)
    requires o.auth.AuthCreated? ==> Fresh(b, o.auth.userId)
    requires !o.auth.AuthThrew? && !o.profile.Threw? && !o.permissions.Threw? && !o.log.Threw?
    requires o.deleteProfile.Done? && o.deleteAuthUser.Done?
    ensures var r := CreateUser(b, p, o, nowIso);
            || (&& r.result.Success?
                && r.result.userId in r.backend.authUsers
                && r.backend.profiles[r.result.userId] == ProfileRow(r.result.userId, p, nowIso)
                && r.backend.permissions[r.result.userId] == p.permissions)
            || (r.result.Error? && r.backend == b)
  {
    var r := CreateUser(b, p, o, nowIso);
    if o.auth.AuthCreated? && !o.profile.Done? {
      assert b.authUsers + {o.auth.userId} - {o.auth.userId} == b.authUsers;
    } else if o.auth.AuthCreated? && !o.permissions.Done? {
      var id := o.auth.userId;
      assert b.authUsers + {id} - {id} == b.authUsers;
      assert b.profiles[id := ProfileRow(id, p, nowIso)] - {id} == b.profiles;
    }
  }

  /** A compensating delete that throws leaves the half-created user behind
      and reports the delete's own error. */
  lemma CompensationThrowLeavesUser(b: Backend, p: Params, o: Outcomes, nowIso: string)
    requires o.auth.AuthCreated? && o.profile.Failed? && o.deleteAuthUser.Threw?
    ensures var r := CreateUser(b, p, o, nowIso);
            && r.result == Error(Caught(o.deleteAuthUser.message))
            && o.auth.userId in r.backend.authUsers
  {
  }
}
