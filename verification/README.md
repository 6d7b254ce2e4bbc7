# ONVIA fleet dashboard — decision logic in Dafny

This project models the decision logic of the ONVIA bus-fleet dashboard, a
Next.js front end over a hosted auth/database service. It is a functional
model: every network call, `localStorage` access and clock read becomes a
parameter or an abstract outcome value. What is left are total functions
over records, strings and sequences, whose behaviour is stated and proved.

The model covers:

- the in-memory demo auth store (`DemoAuth`/`DemoDatabase`): sign-in, sign-out, session expiry, and the listener list with subscribe, unsubscribe and fan-out;
- route gating in the client guard, the layout wrapper, the middleware and the sidebar;
- the home page's session → profile → bootstrap sequence;
- the `AuthProvider` state;
- the header's displayed user and avatar initials;
- the list operations of the notifications, novedades and historial pages;
- the image-upload component;
- the compensating `createUser` server action;
- the settings record;
- the auth-error API route.

One module per source file (`demo_auth.dfy` ↔ `lib/auth-demo.ts`, and so on). The shared modules are:

- `Wrappers`: `Option`.
- `Text`: ASCII case folding, `startsWith`, `includes`, `split`.
- `Seqs`: a `filter` whose contract gives membership and multiplicity, with order preservation proved separately (`Seqs.FilterIsSubseq`). It also has `splice` and `indexOf`.
- `Session`: the session user, the profile row, auth events, and the email-based fallback name used by both the home page and the header.

`Scenarios` chains the modules: demo sign-in → provider → guard and sidebar. It also relates the header's stand-in user to the home page's bootstrap row. The program does not connect the demo store to the provider. No page gives `AuthGuard` a role list. So these chains say what that wiring would do (see "## Left out").

Behaviours of the code worth knowing:

- **AuthGuard renders the page while redirecting.** A signed-in user without the required role is redirected to "/", but the guard still renders the page's children in that pass. See `AuthGuard.ForbiddenPageStillRenders`.
- **AuthProvider keeps the user if sign-out throws.** `signOut` clears the user only after `supabase.auth.signOut()` returns. If that call throws, the user stays (`AuthProvider.SignOut`).

## Model

| member | source | states |
|---|---|---|
| DemoAuth.Lookup | lib/auth-demo.ts:87 | the account found has the requested email and is one of the table's accounts; none found means no account has that email |
| DemoAuth.SignIn | lib/auth-demo.ts:87-117 | succeeds iff the email is a table key and the password matches; failure leaves the store untouched and reports "Credenciales inválidas" with no notification; success stores a session for exactly that account's user expiring at now + 86 400 000 ms and announces SIGNED_IN with it |
| DemoAuth.SignOut | lib/auth-demo.ts:119-126 | the stored session is gone, listeners are kept, SIGNED_OUT is announced with no session, no error |
| DemoAuth.GetSession | lib/auth-demo.ts:128-161 | a session is returned iff one is stored and now ≤ expires_at (the boundary instant is still valid); an expired or unparseable entry is cleared; never an error |
| DemoAuth.Subscribe | lib/auth-demo.ts:163-164 | the callback is appended after the existing listeners |
| DemoAuth.Unsubscribe | lib/auth-demo.ts:169-174 | only the first registration of the callback is removed, the rest stay in order; absent callback changes nothing |
| DemoAuth.SubscribeUnsubscribe | lib/auth-demo.ts:163-174 | unsubscribing a freshly subscribed callback restores the listener list |
| DemoAuth.UnsubscribeTwice | lib/auth-demo.ts:169-174 | for a callback registered once, a second unsubscribe is a no-op |
| DemoAuth.NotifyListeners | lib/auth-demo.ts:180-188 | every listener is called once, in registration order, with the same event and session, and a throwing listener does not stop the later ones |
| DemoAuth.GetUserProfile | lib/auth-demo.ts:192-212 | returns a table user with the requested id iff one exists, else no data and "Usuario no encontrado" |
| DemoAuth.CreateUserProfile | lib/auth-demo.ts:226-245 | a missing or empty id/role defaults to "demo-new-user-…"/"visitante"; inactive only when is_active is exactly false; never fails |
| DemoAuth.CreatedProfileIsNotStored | lib/auth-demo.ts:226-245 | a profile created without an id gets a "demo-new-user-" id that getUserProfile does not find: nothing is stored and it clashes with no seeded id |
| DemoAuth.SignInThenGetSession | lib/auth-demo.ts:96-153 | after a valid sign-in, reading the session before expiry returns it, and its user is the one getUserProfile finds by id |
| DemoAuth.SignOutThenGetSession | lib/auth-demo.ts:119-136 | after signOut, getSession reports no session and no error |
| DemoAuth.ExpiredSessionIsAbsent | lib/auth-demo.ts:142-148 | past expires_at the session is absent, and stays absent on the next read |
| DemoAuth.DemoAccounts | lib/auth-demo.ts:19-42 | the two seeded accounts sign in with admin123/user123 and get roles administrador/visitante; any other admin password is refused |
| AuthGuard.Guard | components/auth/auth-guard.tsx:13-43 | loading gives the placeholder and no redirect; "/login" iff not loading and no user; "/" iff a present user's role is missing from a non-empty role list; children iff not loading and a user is present, regardless of role; null otherwise |
| AuthGuard.DefaultRoleNeverRedirects | components/auth/auth-guard.tsx:13-20 | with the default empty role list a signed-in user is never redirected and sees the page |
| AuthGuard.ChildrenOnlyForUsers | components/auth/auth-guard.tsx:38-43 | content is rendered only for a present user and never alongside a redirect to login |
| AuthGuard.ForbiddenPageStillRenders | components/auth/auth-guard.tsx:20-24 | a signed-in user lacking the role gets both the redirect to "/" and the rendered children |
| AuthWrapper.CheckAuth | components/auth-wrapper.tsx:26-64 | session on a public route → "/", no session on a private route → "/login", otherwise no redirect; a getSession error makes isAuthenticated false; an exception redirects private routes only; isLoading always ends false |
| AuthWrapper.OnAuthEvent | components/auth-wrapper.tsx:72-82 | isAuthenticated becomes whether there is a session; SIGNED_IN with a session → "/", SIGNED_OUT → "/login", nothing else redirects |
| AuthWrapper.EventThenRender | components/auth-wrapper.tsx:72-82 | after any auth event a private route shows children iff the event carried a session; SIGNED_OUT redirects to "/login", which then renders; SIGNED_IN with a session redirects to "/", which then renders |
| AuthWrapper.Render | components/auth-wrapper.tsx:99-122 | spinner while loading; afterwards children iff the route is public or the user is authenticated |
| AuthWrapper.NoRedirectLoop | components/auth-wrapper.tsx:43-54 | re-checking the redirect target with the same session asks for no further redirect |
| AuthWrapper.NoPrivateContentWithoutSession | components/auth-wrapper.tsx:35-64 | when checkAuth finds no session or throws, only public routes render children |
| AuthWrapper.PublicRoutesAreExact | components/auth-wrapper.tsx:22-23 | any extension of "/login" (e.g. "/login/x") is not public: membership is exact, not by prefix |
| Middleware.Handle | middleware.ts:4-21 | every path gets next(); the passthrough branch is taken iff the path starts with "/api/", "/_next/" or "/favicon.ico" or contains "."; the public branch iff otherwise it is exactly "/login" or "/test-auth"; the outcome is a function of the pathname alone |
| Middleware.PublicBranchAgreesWithWrapper | middleware.ts:13-16 | the middleware's public branch is taken for exactly the wrapper's public routes |
| Sidebar.LogsImplyUsers | components/sidebar.tsx:21-22 | users link iff role ∈ {administrador, admin_superior, super_usuario}; logs link iff role ∈ {admin_superior, super_usuario}; logs implies users; no user grants neither |
| Sidebar.IsActive | components/sidebar.tsx:46-63 | the home link is active only on exactly "/", any other link on every path that starts with its href |
| Sidebar.Links | components/sidebar.tsx:44-167 | "Usuarios" is listed iff canViewUsers and "Logs" iff canViewLogs, between the six fixed links and "Configuración" |
| Sidebar.HomeHighlightsOnlyHome | components/sidebar.tsx:46-59 | on "/" the home link is the only highlighted one |
| Session.FallbackName | app/page.tsx:67 | the email's text before the first "@" (a prefix of the email, free of "@"), or "Usuario" when the email is absent or that text is empty; never empty |
| HomePage.BootstrapProfile | app/page.tsx:61-72 | the inserted row carries the session user's id and email, role "visitante", is_active true and the fallback name |
| HomePage.GetUser | app/page.tsx:22-96 | session error → error, no user, no redirect; no session → "/login"; an existing profile becomes the user with no insert; an empty result triggers exactly one bootstrap insert, and the user is set iff it returns a row; check/insert errors leave no user and an error; loading always ends |
| HomePage.BootstrapIsNotRepeated | app/page.tsx:43-90 | reloading after a successful bootstrap shows the same user and inserts nothing more |
| HomePage.BootstrapName | app/page.tsx:67 | "local@domain" yields "local"; "@domain" and no email yield "Usuario" |
| AuthProvider.Resolve | components/auth/auth-provider.tsx:36-59 | no session clears the user; a profile row becomes the user; no row or an exception leaves the user as it was; loading always ends |
| AuthProvider.OnAuthStateChange | components/auth/auth-provider.tsx:65-76 | SIGNED_OUT clears the user; SIGNED_IN with a session sets it only when a profile is found; nothing else changes state |
| AuthProvider.SignOut | components/auth/auth-provider.tsx:85-88 | once the service call returns the user is cleared; a throwing call leaves the state as it was |
| AuthProvider.SignOutClearsUser | components/auth/auth-provider.tsx:73-88 | whichever of signOut and the SIGNED_OUT event comes first, the user ends cleared |
| Header.LoadUser | components/header.tsx:24-56 | first profile row when there is one; with none, a stand-in named by the email's local part (or "Usuario") carrying the email unchanged; no session or any failure keeps the current user |
| Header.Initials | components/header.tsx:58-66 | "U" for an absent or empty name; otherwise the upper-cased first letters of the space-separated words (empty pieces from repeated spaces contribute nothing), at most two |
| Header.FirstCharsOfSplit | components/header.tsx:60-63 | splitting on " " and taking each piece's first character yields exactly the word-initial characters of the name |
| Header.WordStartsAppend | components/header.tsx:60-63 | word starts of a concatenation are those of each part, the second read in the context the first leaves |
| Notifications.MarkRead | app/notificaciones/page.tsx:100-101 | items with that id become read; every other item, the length and the order are unchanged |
| Notifications.MarkReadIdempotent | app/notificaciones/page.tsx:101 | marking the same id twice equals marking it once |
| Notifications.Delete | app/notificaciones/page.tsx:107-108 | exactly the items with that id disappear; every other item keeps its multiplicity |
| Notifications.DeleteKeepsOrder | app/notificaciones/page.tsx:108 | the remaining items are an order-preserving subsequence |
| Notifications.MarkAllRead | app/notificaciones/page.tsx:114-115 | same length and order, every item read, nothing else changed |
| Notifications.MarkAllReadClearsUnread | app/notificaciones/page.tsx:114-121 | afterwards the unread count is 0; marking all again changes nothing |
| Notifications.FilterByTab | app/notificaciones/page.tsx:72-77 | an item is listed iff the tab admits it: all for "todas" or unknown tabs, unread for "no_leidas", read for "leidas" |
| Notifications.TabsPartition | app/notificaciones/page.tsx:72-77 | "todas"/unknown tabs list everything; the "no_leidas" and "leidas" tabs have sizes equal to the badge counts (noLeidasCount and length − noLeidasCount) and together cover the list |
| Novedades.Visible | app/novedades/page.tsx:87-104 | an item is shown iff it matches both the case-insensitive search on title, description or bus number and the tab; shown items keep their multiplicity |
| Novedades.VisibleKeepsOrder | app/novedades/page.tsx:88-103 | the filtered list is an order-preserving subsequence |
| Novedades.EmptySearchShowsAll | app/novedades/page.tsx:89-95 | the empty search matches everything, so "todas" with no search shows the whole list |
| Novedades.TabEdgeCases | app/novedades/page.tsx:94-98 | an unrecognised tab shows nothing; a cancelled item is shown only under "todas" |
| Novedades.Create | app/novedades/page.tsx:134-150 | one new pending item by "Usuario Actual" built from the form goes in front; the old items follow unchanged |
| Novedades.CreatedShowsFirstAsPending | app/novedades/page.tsx:94-150 | with no search the new item heads the "pendientes" tab, followed by the pending items that were already there |
| Historial.ApplyFiltersSelects | app/historial/page.tsx:113-142 | the sequential filters return exactly the entries satisfying every active predicate (search on descripcion/usuario/modulo, case-insensitive module and action, exact user), in order, so filter order does not matter |
| Historial.Stage | app/historial/page.tsx:117-139 | a filter applied only when its control is active narrows the running conjunction by one predicate |
| Historial.DefaultsShowEverything | app/historial/page.tsx:109-117 | empty search and the "todos"/"todas" sentinels leave the list as it is |
| Historial.Unique | app/historial/page.tsx:179-181 | no duplicates, exactly the values that occur, in order of first occurrence |
| Historial.DropDownValues | app/historial/page.tsx:179-181 | each drop-down lists every module/action/user that occurs in the history, once |
| ImageUpload.Init | components/ui/image-upload.tsx:20-28 | no files, one preview per given URL, no error, not uploading |
| ImageUpload.InitAligned | components/ui/image-upload.tsx:25-26 | the mounted component has no files and one preview per given URL, so previews and files start aligned; this is the invariant that local drops and the corrected removal preserve |
| ImageUpload.DefaultLimits | components/ui/image-upload.tsx:16-45 | with the default 5 files and 5·1024·1024 bytes, a fresh component accepts a file of exactly that size, rejects one byte more as too large, and rejects a sixth image as too many |
| ImageUpload.OnDrop | components/ui/image-upload.tsx:30-74 | too many files (counting shown previews) is rejected first, then any file larger than maxSize (equal passes), both leaving state unchanged but the error; an accepted drop appends the files, reports old files then new to onChange, and appends uploaded URLs, or object URLs without onUpload; an upload throw keeps the previews and sets the error |
| ImageUpload.OnDropKeepsAlignment | components/ui/image-upload.tsx:48-71 | without onUpload, previews stay "given URLs then one per file", and never exceed maxFiles when they did not before |
| ImageUpload.RemoveImage | components/ui/image-upload.tsx:83-96 | preview i is removed; file i is removed and reported to onChange only when i < files.length |
| ImageUpload.RemoveImageAlignedWithoutValue | components/ui/image-upload.tsx:83-96 | with no initial URLs, removing preview i removes the matching file |
| ImageUpload.RemoveImageMisaligned | components/ui/image-upload.tsx:84-91 | with one initial URL and one dropped file, removing the URL's preview removes the file and leaves its preview on screen |
| ImageUpload.RemoveImageFixed | components/ui/image-upload.tsx:83-96 | the corrected removal: the preview at i goes, error and upload flag are untouched |
| ImageUpload.RemoveImageFixedKeepsAlignment | components/ui/image-upload.tsx:83-96 | the corrected removal keeps previews and files aligned and removes exactly the clicked image's file |
| UserActions.Caught | lib/actions/user-actions.ts:72-75 | a caught exception reports its message, or "Error al crear usuario" when that is empty |
| UserActions.CreateUser | lib/actions/user-actions.ts:14-76 | an auth failure returns its message and calls nothing else; a profile failure deletes the auth user; a permissions failure deletes the profile then the auth user; success iff auth, profile and permissions succeed and the log insert does not throw, with the user's id, profile (is_active true, caller's name, email, role) and permissions stored |
| UserActions.LogFailureIsHarmless | lib/actions/user-actions.ts:63-71 | a log insert that returns an error changes neither the result nor the stored user |
| UserActions.AllOrNothing | lib/actions/user-actions.ts:19-71 | with no throws and successful compensating deletes on a fresh id, either the user exists in all three stores or the back end is exactly as before |
| UserActions.CompensationThrowLeavesUser | lib/actions/user-actions.ts:43-47 | a throwing compensating delete leaves the auth user behind and reports the delete's error |
| Configuracion.Update | app/configuracion/page.tsx:51-56 | the key holds the new value and every other key keeps its value |
| Configuracion.LastWriteWins | app/configuracion/page.tsx:52-55 | two updates to one key equal the later update alone |
| Configuracion.DistinctKeysCommute | app/configuracion/page.tsx:52-55 | updates to different keys commute |
| Configuracion.InitialDefaults | app/configuracion/page.tsx:16-40 | the initial record holds intentosLogin "3", timeoutSesion "60", two-factor off, and other defaults survive an update |
| AuthErrorRoute.Get | app/api/auth/error/route.ts:4-6 | the value of the first pair with the name, or nothing iff no pair has it |
| AuthErrorRoute.Handle | app/api/auth/error/route.ts:3-17 | status 400; error and errorDescription echo their parameters when non-empty and otherwise take their own defaults |
| AuthErrorRoute.FieldsAreIndependent | app/api/auth/error/route.ts:5-13 | each field depends only on its own parameter |
| AuthErrorRoute.Examples | app/api/auth/error/route.ts:12-15 | a request with only "error=access_denied" gets that error with the default description; an empty first "error" falls back even if a later one is set |
| Scenarios.LoadProvider | components/auth/auth-provider.tsx:36-59 | a page load never shows a user without a live demo session |
| Scenarios.GuardAgreesWithSidebar | components/sidebar.tsx:21-22 | a guard configured with the sidebar's role list admits a user iff the sidebar shows the matching link |
| Scenarios.AdminScenario | lib/auth-demo.ts:20-30 | the seeded administrator account (admin@onvia.com / admin123) signs in and reloads within the day; a provider fed by the demo store then holds a user with role "administrador"; the sidebar shows "Usuarios" but not "Logs"; a guard given the sidebar's user-admin list would show the page, and one given the log list would redirect to "/" |
| Scenarios.VisitorScenario | lib/auth-demo.ts:31-41 | the seeded visitor account (user@onvia.com / user123) signs in; a provider fed by the demo store then holds a user with role "visitante"; the sidebar shows the base links and "Configuración" only; a guard without a role list shows the page, and one given the user-admin list would redirect to "/" |
| Scenarios.NoSessionScenario | lib/auth-demo.ts:119-148 | after sign-out or expiry, a guard with any role list, fed by the demo store, redirects to "/login" and renders nothing |
| Scenarios.HeaderAgreesWithHomePage | components/header.tsx:40-47 | for a user without a profile, the header's stand-in has the same name and email as the row the home page inserts (app/page.tsx:61-72); once that row exists the header shows it |
| Seqs.Filter | app/notificaciones/page.tsx:108 | `Array.filter`: exactly the elements satisfying the predicate, each with its original multiplicity |
| Seqs.FilterIsSubseq | app/novedades/page.tsx:88 | a filtered list is an order-preserving subsequence of its source |
| Seqs.RemoveAt | components/ui/image-upload.tsx:85 | `splice(i, 1)`: the element at i is dropped and the rest shift down; an index past the end changes nothing |
| Seqs.IndexOf | lib/auth-demo.ts:170 | `indexOf`: the first position holding the value, or −1 iff it is absent |
| Seqs.RemoveFirst | lib/auth-demo.ts:170-173 | when the value occurs, exactly its first occurrence (at `indexOf`) is removed and the rest keep their order; otherwise nothing changes; as a multiset, one occurrence fewer |
| Text.Lower | app/novedades/page.tsx:90 | `toLowerCase` on ASCII: upper-case letters are folded, everything else kept |
| Text.Upper | components/header.tsx:64 | `toUpperCase` on ASCII: lower-case letters are raised, everything else kept |
| Text.ContainsIffOccurs | app/novedades/page.tsx:90 | `includes` holds iff the needle occurs at some position |
| Text.TakeUntil | app/page.tsx:67 | the longest prefix free of the separator, followed by the separator or the end |
| Text.Split | components/header.tsx:61 | `split(c)`: at least one piece, none containing the separator |
| Text.SplitJoin | components/header.tsx:61 | joining the pieces of a split with the separator gives back the string |

## Left out

- JSX rendering, styling, icons, toasts and dialogs are presentation only. Render decisions are enums (`AuthGuard.View`, `AuthWrapper.View`).
- The hosted-service client singletons and the server cookie adapter are thin wrappers over a library outside this code. Their calls are abstract outcomes.
- These pages and routes are out of scope: the login page, the test-auth page and API route, the reports page's fixed figures, the layouts, the auth error-page shells, and `backend/index.js`. They hold no decision logic of their own; the redirect policy is in `AuthWrapper`.
- `DemoDatabase.getBuses` returns a constant list after a delay and makes no decision.
- The header's `handleSignOut` only calls the service and navigates.
- `Date.now()` and `new Date().toISOString()` are parameters (`now`, `nowIso`). The `setTimeout` delays are dropped.
- `localStorage` is the `Storage` field and a `JSON.parse` failure is the `Corrupt` state. A stored value that parses but has another shape is not modelled.
- Text.Lower: folds ASCII letters only; JavaScript's Unicode `toLowerCase` (é, Ñ, …) is not modelled, so the novedades and historial searches are modelled for ASCII case differences only.
- Text.Upper: raises ASCII letters only, so `Header.Initials` upper-cases ASCII initials only. `n[0]` is modelled as the first character, not the first UTF-16 code unit.
- ImageUpload.OnDrop: the error text, whose megabyte figure `maxSize / (1024 * 1024)` is floating-point division, is replaced by its cause (`TooManyFiles`, `TooLarge`, `UploadFailed`). The `accept` list and react-dropzone's own pre-filtering are not modelled, so `accepted` can be any list of files. `URL.createObjectURL(file)` is the preview `ObjectUrl(file)`.
- Concurrency and async interleavings are not modelled: listener races across mounts, a superseded provider resolution, concurrent bootstraps, and the stale `files` closure in `onDrop`. Each awaited call is one atomic step.
- The `DemoAuth` callbacks are identified by a `ListenerId`. What a listener does when called is outside the store; only whether it throws is a parameter.
- `AuthWrapper` subscribes and unsubscribes its listener inside try/catch. That set-up and its error paths are not modelled.
- The middleware's `config.matcher` is not modelled: the Next.js runtime decides which requests reach the function.
- UserActions.CreateUser: the three stores are one value, the password and `email_confirm` flag are not stored, and both timestamps are the single `nowIso`.
- The demo history entry at app/historial/page.tsx:61 spells its key "descripción", so at run time that entry has no `descripcion` and the search would fail on it. The model treats `descripcion` as a required field and does not reproduce the failure.
- Novedades: `tipo` and `prioridad` come from the form unchecked (`as any`) and are kept as strings.

- Scenarios: no file hands the demo store to `AuthProvider`, because lib/supabase-browser.ts always builds the hosted client. `AuthGuard` is never used with a role list. The users page (app/usuarios/layout.tsx, app/(dashboard)/usuarios/page.tsx) has no guard, so any signed-in user who types /usuarios reaches it; only the sidebar link is hidden. The scenario lemmas therefore take two things as assumptions, not code: the demo store wired into the provider, and pages gated by the sidebar's role lists.

## Findings

| source | as written | input that shows it | evidently intended | confidence | as-written member | corrected member |
|---|---|---|---|---|---|---|
| components/ui/image-upload.tsx:83-96 | `removeImage(i)` removes preview `i` and file `i`. When the component starts with `value` URLs, the previews begin with those URLs, so preview and file indices differ | `value = ["a.jpg"]`, one file dropped, then × on the "a.jpg" preview: the dropped file is removed and reported to `onChange([])`, while its preview stays on screen | remove the file whose preview was clicked, at index `i - (previews.length - files.length)`, and no file when a given URL's preview is removed | medium, not executed | ImageUpload.RemoveImageMisaligned | ImageUpload.RemoveImageFixedKeepsAlignment |
