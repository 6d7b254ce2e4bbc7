/** The edge `middleware`: it sorts the request path into one of three
    branches, and every branch lets the request through. */
module Middleware {
  import Text
  import AuthWrapper

  /** The branch taken: static assets and API calls, the public routes, or
      everything else. */
  datatype Branch = Passthrough | PublicRoute | Default

  /** `NextResponse.next()` is the only response the middleware produces. */
  datatype Response = Next

  datatype Outcome = Outcome(branch: Branch, response: Response)

  const PublicRoutes: seq<string> := ["/login", "/test-auth"]

  /** Paths served without any auth consideration. */
  predicate IsStaticOrApi(path: string) {
    || Text.StartsWith(path, "/api/")
    || Text.StartsWith(path, "/_next/")
    || Text.StartsWith(path, "/favicon.ico")
    || '.' in path
  }

  /** `middleware(request)`, as a function of `request.nextUrl.pathname`
      alone. */
  function Handle(path: string): (o: Outcome)
    ensures o.response == Next
    ensures o.branch == Passthrough <==> IsStaticOrApi(path)
    ensures o.branch == PublicRoute <==> !IsStaticOrApi(path) && (path == "/login" || path == "/test-auth")
  {
    if IsStaticOrApi(path) then Outcome(Passthrough, Next)
    else if path in PublicRoutes then Outcome(PublicRoute, Next)
    else Outcome(Default, Next)
  }

  /** The middleware's public branch is taken for exactly the routes the
      client-side wrapper treats as public. */
  lemma PublicBranchAgreesWithWrapper(path: string)
    ensures Handle(path).branch == PublicRoute <==> AuthWrapper.IsPublicRoute(path)
  {
    if AuthWrapper.IsPublicRoute(path) {
      Text.DiffersAt(path, "/api/", 1);
      Text.DiffersAt(path, "/_next/", 1);
      Text.DiffersAt(path, "/favicon.ico", 1);
    }
  }
}
