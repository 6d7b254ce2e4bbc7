/** The authentication values every component passes around: the auth
    events, the user carried by a session, and a `user_profiles` row. */
module Session {
  import opened Wrappers
  import Text

  /** The `event` string handed to `onAuthStateChange` listeners. */
  datatype AuthEvent = SignedIn | SignedOut | OtherEvent(name: string)

  /** `session.user` as the components read it: an id and, possibly, an email. */
  datatype SessionUser = SessionUser(id: string, email: Option<string>)

  /** A row of the `user_profiles` table. */
  datatype Profile = Profile(
    id: string,
    email: Option<string>,
    name: string,
    role: string,
    isActive: bool,
    createdAt: string)

  const DefaultName := "Usuario"

  /** `email?.split("@")[0] || "Usuario"`: the email's local part, or
      "Usuario" when the email is absent or its local part is empty. */
  function FallbackName(email: Option<string>): (r: string)
    ensures r != []
    ensures '@' !in r || r == DefaultName
    ensures email.Some? && Text.TakeUntil(email.value, '@') != [] ==>
              Text.StartsWith(email.value, r)
              && (|r| == |email.value| || email.value[|r|] == '@')
    ensures email.None? ==> r == DefaultName
    ensures email.Some? && (email.value == [] || email.value[0] == '@') ==> r == DefaultName
  {
    match email
    case None => DefaultName
    case Some(e) =>
      var local := Text.TakeUntil(e, '@');
      if local == [] then DefaultName else local
  }
}
