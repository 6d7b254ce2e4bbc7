/** The in-memory stand-in for the hosted auth service (`DemoAuth`) and its
    profile table (`DemoDatabase`).  The browser's `localStorage` entry is the
    `Storage` field, the static listener array is `listeners`, and `Date.now()`
    is the `now` parameter. */
module DemoAuth {
  import opened Wrappers
  import opened Session
  import Seqs
  import Text

  datatype DemoUser = DemoUser(
    id: string,
    email: string,
    name: string,
    role: string,
    isActive: bool,
    createdAt: string)

  datatype DemoSession = DemoSession(user: DemoUser, accessToken: string, expiresAt: int)

  /** One entry of `DEMO_USERS`: the key (an email), its password and its user. */
  datatype Account = Account(email: string, password: string, user: DemoUser)

  /** The `"demo-session"` entry of `localStorage`: absent, a stored session,
      or text that `JSON.parse` rejects. */
  datatype Storage = Empty | Saved(session: DemoSession) | Corrupt

  /** A registered `onAuthStateChange` callback, identified by the callback
      value itself (the same callback may be registered more than once). */
  type ListenerId = nat

  datatype Store = Store(storage: Storage, listeners: seq<ListenerId>)

  /** The event and session passed to every listener. */
  datatype Notification = Notification(event: AuthEvent, session: Option<DemoSession>)

  /** `{ data: { user, session }, error }` returned by `signIn`. */
  datatype SignInResponse = SignInResponse(
    user: Option<DemoUser>,
    session: Option<DemoSession>,
    error: Option<string>)

  /** `{ data: { session }, error }` returned by `getSession`. */
  datatype SessionResponse = SessionResponse(session: Option<DemoSession>, error: Option<string>)

  /** `{ data, error }` returned by `getUserProfile` and `createUserProfile`. */
  datatype ProfileResponse = ProfileResponse(data: Option<DemoUser>, error: Option<string>)

  /** The new store, the value handed back to the caller, and the notification
      broadcast to the listeners (if any). */
  datatype Step<R> = Step(store: Store, response: R, notified: Option<Notification>)

  /** One listener invocation of `notifyListeners`, and whether it threw. */
  datatype Call = Call(listener: ListenerId, note: Notification, threw: bool)

  /** A session lives for 24 hours, in milliseconds. */
  const SessionLifetime: int := 24 * 60 * 60 * 1000
  const InvalidCredentials := "Credenciales inválidas"
  const UserNotFound := "Usuario no encontrado"
  const DefaultRole := "visitante"
  const TokenPrefix := "demo-token-"
  const NewUserIdPrefix := "demo-new-user-"

  /** `DEMO_USERS`; `loadedAt` is the `new Date().toISOString()` evaluated
      when the module is loaded. */
  function DemoUsers(loadedAt: string): seq<Account> {
    [ Account("admin@onvia.com", "admin123",
        DemoUser("demo-admin-id", "admin@onvia.com", "Administrador Demo", "administrador", true, loadedAt)),
      Account("user@onvia.com", "user123",
        DemoUser("demo-user-id", "user@onvia.com", "Usuario Demo", "visitante", true, loadedAt)) ]
  }

  /** The store before anything has happened. */
  const Initial := Store(Empty, [])

  /** `DEMO_USERS[email]`. */
  function Lookup(accounts: seq<Account>, email: string): (r: Option<Account>)
    ensures r.Some? ==> r.value in accounts && r.value.email == email
    ensures r.None? ==> forall a :: a in accounts ==> a.email != email
  {
    if accounts == [] then None
    else if accounts[0].email == email then Some(accounts[0])
    else Lookup(accounts[1..], email)
  }

  /** The credentials `signIn` accepts. */
  predicate ValidCredentials(accounts: seq<Account>, email: string, password: string) {
    var a := Lookup(accounts, email);
    a.Some? && a.value.password == password
  }

  /** `DemoAuth.signIn`: on valid credentials stores a fresh 24-hour session
      for the account's user and announces `SIGNED_IN`; otherwise reports
      invalid credentials and touches nothing. */
  function SignIn(store: Store, accounts: seq<Account>, email: string, password: string, now: nat)
    : (o: Step<SignInResponse>)
    ensures o.store.listeners == store.listeners
    ensures o.response.error.None? <==> ValidCredentials(accounts, email, password)
    ensures !ValidCredentials(accounts, email, password) ==>
              o.store == store
              && o.response == SignInResponse(None, None, Some(InvalidCredentials))
              && o.notified.None?
    ensures ValidCredentials(accounts, email, password) ==>
              exists a :: a in accounts && a.email == email && a.password == password
                && o.store.storage.Saved?
                && o.store.storage.session.user == a.user
                && o.store.storage.session.expiresAt == now + SessionLifetime
                && o.response.user == Some(a.user)
                && o.response.session == Some(o.store.storage.session)
                && o.notified == Some(Notification(SignedIn, Some(o.store.storage.session)))
  {
    var record := Lookup(accounts, email);
    if record.None? || record.value.password != password then
      Step(store, SignInResponse(None, None, Some(InvalidCredentials)), None)
    else
      var session := DemoSession(record.value.user, TokenPrefix + Text.NatToString(now), now + SessionLifetime);
      Step(store.(storage := Saved(session)),
           SignInResponse(Some(session.user), Some(session), None),
           Some(Notification(SignedIn, Some(session))))
  }

  /** `DemoAuth.signOut`: forgets the stored session and announces
      `SIGNED_OUT` with no session. */
  function SignOut(store: Store): (o: Step<Option<string>>)
    ensures o.store == Store(Empty, store.listeners)
    ensures o.response.None?
    ensures o.notified == Some(Notification(SignedOut, None))
  {
    Step(store.(storage := Empty), None, Some(Notification(SignedOut, None)))
  }

  /** `DemoAuth.getSession` at time `now`: a stored session is returned while
      `now <= expiresAt`; an expired or unreadable entry is removed and reported
      as no session.  No outcome carries an error. */
  function GetSession(store: Store, now: int): (o: Step<SessionResponse>)
    ensures o.response.error.None?
    ensures o.notified.None?
    ensures o.store.listeners == store.listeners
    ensures o.response.session.Some? <==> store.storage.Saved? && now <= store.storage.session.expiresAt
    ensures o.response.session.Some? ==> o.response.session.value == store.storage.session && o.store == store
    ensures o.response.session.None? ==> o.store.storage == Empty
  {
    match store.storage
    case Empty => Step(store, SessionResponse(None, None), None)
    case Corrupt => Step(store.(storage := Empty), SessionResponse(None, None), None)
    case Saved(session) =>
      if now > session.expiresAt then
        Step(store.(storage := Empty), SessionResponse(None, None), None)
      else
        Step(store, SessionResponse(Some(session), None), None)
  }

  /** `DemoAuth.onAuthStateChange(callback)`: appends the callback. */
  function Subscribe(store: Store, callback: ListenerId): (r: Store)
    ensures r.storage == store.storage
    ensures r.listeners == store.listeners + [callback]
  {
    store.(listeners := store.listeners + [callback])
  }

  /** The returned `unsubscribe()`: removes the first registration of
      `callback` and leaves the others in order. */
  function Unsubscribe(store: Store, callback: ListenerId): (r: Store)
    ensures r.storage == store.storage
    ensures callback !in store.listeners ==> r == store
    ensures callback in store.listeners ==>
              var k := Seqs.IndexOf(store.listeners, callback);
              callback !in store.listeners[..k]
              && r.listeners == store.listeners[..k] + store.listeners[k + 1..]
    ensures multiset(r.listeners) == multiset(store.listeners) - multiset{callback}
  {
    store.(listeners := Seqs.RemoveFirst(store.listeners, callback))
  }

  /** Unsubscribing right after subscribing a callback that was not yet
      registered restores the listener list. */
  lemma {:induction false} SubscribeUnsubscribe(store: Store, callback: ListenerId)
    requires callback !in store.listeners
    ensures Unsubscribe(Subscribe(store, callback), callback) == store
  {
    var l := store.listeners + [callback];
    assert Seqs.IndexOf(l, callback) == |store.listeners|;
    assert l[..|store.listeners|] == store.listeners;
  }

  /** A callback registered once: the second `unsubscribe()` changes nothing. */
  lemma UnsubscribeTwice(store: Store, callback: ListenerId)
    requires Seqs.Occurrences(store.listeners, callback) == 1
    ensures Unsubscribe(Unsubscribe(store, callback), callback) == Unsubscribe(store, callback)
  {
    var once := Unsubscribe(store, callback);
    assert multiset(once.listeners)[callback] == 0;
  }

  /** `notifyListeners`: every listener registered at the time is called, in
      registration order, with the same event and session; a listener that
      throws is caught and the remaining ones are still called.  Whether a
      listener throws is the parameter `throws`. */
  method NotifyListeners(listeners: seq<ListenerId>, note: Notification, throws: ListenerId -> bool)
    returns (calls: seq<Call>)
    ensures |calls| == |listeners|
    ensures forall i :: 0 <= i < |calls| ==>
              calls[i].listener == listeners[i] && calls[i].note == note && calls[i].threw == throws(listeners[i])
  {
    calls := [];
    var i := 0;
    while i < |listeners|
      invariant 0 <= i <= |listeners|
      invariant |calls| == i
      invariant forall j :: 0 <= j < i ==>
                  calls[j].listener == listeners[j] && calls[j].note == note && calls[j].threw == throws(listeners[j])
    {
      var threw := throws(listeners[i]);
      calls := calls + [Call(listeners[i], note, threw)];
      i := i + 1;
    }
  }

  /** `DemoDatabase.getUserProfile`: the first user whose id matches. */
  function GetUserProfile(accounts: seq<Account>, userId: string): (r: ProfileResponse)
    ensures r.data.Some? <==> exists a :: a in accounts && a.user.id == userId
    ensures r.data.Some? ==>
              r.data.value.id == userId && r.error.None?
              && exists a :: a in accounts && a.user == r.data.value
    ensures r.data.None? ==> r.error == Some(UserNotFound)
  {
    if accounts == [] then ProfileResponse(None, Some(UserNotFound))
    else if accounts[0].user.id == userId then ProfileResponse(Some(accounts[0].user), None)
    else
      var r := GetUserProfile(accounts[1..], userId);
      assert forall a :: a in accounts[1..] ==> a in accounts;
      r
  }

  /** The `profileData` object handed to `createUserProfile`; a `None` field
      is one the caller left `undefined`. */
  datatype ProfileInput = ProfileInput(
    id: Option<string>,
    email: string,
    name: string,
    role: Option<string>,
    isActive: Option<bool>)

  /** `DemoDatabase.createUserProfile`: an empty or missing id becomes
      `"demo-new-user-" + now`, an empty or missing role becomes
      `"visitante"`, and the user is inactive only when `is_active` is
      exactly `false`.  It never fails. */
  function CreateUserProfile(input: ProfileInput, now: nat, nowIso: string): (r: ProfileResponse)
    ensures r.error.None? && r.data.Some?
    ensures r.data.value.email == input.email && r.data.value.name == input.name
    ensures r.data.value.createdAt == nowIso
    ensures r.data.value.isActive <==> input.isActive != Some(false)
    ensures input.role.Some? && input.role.value != [] ==> r.data.value.role == input.role.value
    ensures input.role.None? || input.role.value == [] ==> r.data.value.role == DefaultRole
    ensures input.id.Some? && input.id.value != [] ==> r.data.value.id == input.id.value
    ensures input.id.None? || input.id.value == [] ==> Text.StartsWith(r.data.value.id, NewUserIdPrefix)
  {
    var id := if input.id.Some? && input.id.value != [] then input.id.value
              else NewUserIdPrefix + Text.NatToString(now);
    var role := if input.role.Some? && input.role.value != [] then input.role.value else DefaultRole;
    ProfileResponse(Some(DemoUser(id, input.email, input.name, role, input.isActive != Some(false), nowIso)), None)
  }

  /** `createUserProfile` does not write to the profile table, and an id it
      generates cannot clash with a seeded one: looking the new profile up
      afterwards finds nothing. */
  lemma {:induction false} CreatedProfileIsNotStored(input: ProfileInput, now: nat, nowIso: string, loadedAt: string)
    requires input.id.None? || input.id.value == []
    ensures GetUserProfile(DemoUsers(loadedAt), CreateUserProfile(input, now, nowIso).data.value.id)
            == ProfileResponse(None, Some(UserNotFound))
  {
    var id := CreateUserProfile(input, now, nowIso).data.value.id;
    assert id[..|NewUserIdPrefix|] == NewUserIdPrefix;
    assert id[5] == 'n';
    assert "demo-admin-id"[5] == 'a' && "demo-user-id"[5] == 'u';
  }

  /** Signing in and then reading the session before it expires returns the
      stored session, whose user is the one `getUserProfile` finds by id. */
  lemma SignInThenGetSession(store: Store, loadedAt: string, email: string, password: string, now: nat, later: int)
    requires ValidCredentials(DemoUsers(loadedAt), email, password)
    requires later <= now + SessionLifetime
    ensures var signedIn := SignIn(store, DemoUsers(loadedAt), email, password, now);
            var read := GetSession(signedIn.store, later);
            && read.response.session == signedIn.response.session
            && read.store == signedIn.store
            && GetUserProfile(DemoUsers(loadedAt), read.response.session.value.user.id).data
               == Some(read.response.session.value.user)
  {
    var accounts := DemoUsers(loadedAt);
    var signedIn := SignIn(store, accounts, email, password, now);
    var a := Lookup(accounts, email).value;
    assert a == accounts[0] || a == accounts[1];
  }

  /** After `signOut`, `getSession` reports no session and no error. */
  lemma SignOutThenGetSession(store: Store, now: int)
    ensures GetSession(SignOut(store).store, now).response == SessionResponse(None, None)
  {
  }

  /** Once the clock passes `expiresAt` the session is gone for good. */
  lemma ExpiredSessionIsAbsent(store: Store, now: int)
    requires store.storage.Saved? && now > store.storage.session.expiresAt
    ensures GetSession(store, now).response == SessionResponse(None, None)
    ensures GetSession(GetSession(store, now).store, now).response == SessionResponse(None, None)
  {
  }

  /** The two seeded accounts sign in with their documented passwords, with
      roles "administrador" and "visitante"; any other password is refused. */
  lemma DemoAccounts(store: Store, loadedAt: string, now: nat, password: string)
    ensures SignIn(store, DemoUsers(loadedAt), "admin@onvia.com", "admin123", now).response.user.value.role
            == "administrador"
    ensures SignIn(store, DemoUsers(loadedAt), "user@onvia.com", "user123", now).response.user.value.role
            == "visitante"
    ensures password != "admin123" ==>
              SignIn(store, DemoUsers(loadedAt), "admin@onvia.com", password, now).response.error
              == Some(InvalidCredentials)
  {
  }
}
