/**
 * The session fields the server keeps per browser session, and the two
 * access-control middlewares that decide, from the request path and the
 * session, whether a request goes on, is answered with JSON, or is redirected.
 */
module AuthMiddleware {
  import opened Wrappers
  import Text

  /** `SessionData`: each field may be absent. */
  datatype SessionData = SessionData(userId: Option<int>, isAuthenticated: Option<bool>, tempSecret: Option<string>)

  /** The per-request session object, which the route handlers change in place. */
  class Session {
    var userId: Option<int>
    var isAuthenticated: Option<bool>
    var tempSecret: Option<string>

    constructor ()
      ensures userId.None? && isAuthenticated.None? && tempSecret.None?
    {
      userId, isAuthenticated, tempSecret := None, None, None;
    }

    function Data(): SessionData
      reads this
    {
      SessionData(userId, isAuthenticated, tempSecret)
    }
  }

  /** The JSON bodies the middlewares send. */
  datatype JsonBody =
    | AuthenticationRequired(message: string, redirect: string)
    | AlreadyAuthenticated(authenticated: bool, redirect: string)

  /** What a middleware does with a request. */
  datatype Response = Next | Json(status: int, body: JsonBody) | Redirect(location: string)

  predicate IsApiPath(path: string) {
    Text.StartsWith(path, "/api/")
  }

  /** `req.session.isAuthenticated` is truthy. */
  predicate Authenticated(s: SessionData) {
    s.isAuthenticated == Some(true)
  }

  /** `req.session.userId` is truthy: present and not 0. */
  predicate HasUserId(s: SessionData) {
    s.userId.Some? && s.userId.value != 0
  }

  /** `requireAuth`: API paths get a JSON 401, pages a redirect to the login page. */
  function RequireAuth(path: string, s: SessionData): (r: Response)
    ensures r.Json? ==> r.status == 401 && IsApiPath(path)
    ensures r.Redirect? ==> r.location == "/login" && !IsApiPath(path)
  {
    if IsApiPath(path) then
      if !Authenticated(s) then Json(401, AuthenticationRequired("Authentication required", "/login"))
      else Next
    else if !Authenticated(s) then Redirect("/login")
    else Next
  }

  /**
   * `requireAuth` lets a request through exactly when the session is
   * authenticated, on API and page paths alike; otherwise an API path gets
   * 401 with a redirect hint to '/login' and a page is redirected to '/login'.
   */
  lemma RequireAuthDecision(path: string, s: SessionData)
    ensures RequireAuth(path, s) == Next <==> Authenticated(s)
    ensures !Authenticated(s) && IsApiPath(path) ==>
      RequireAuth(path, s) == Json(401, AuthenticationRequired("Authentication required", "/login"))
    ensures !Authenticated(s) && !IsApiPath(path) ==> RequireAuth(path, s) == Redirect("/login")
  {
  }

  /** `redirectIfAuthenticated`: sends a signed-in user away from the login flow. */
  function RedirectIfAuthenticated(path: string, s: SessionData): (r: Response)
    ensures r.Json? ==> r.status == 200 && IsApiPath(path)
    ensures r.Redirect? ==> r.location == "/" && !IsApiPath(path)
  {
    if Authenticated(s) && HasUserId(s) then
      if IsApiPath(path) then Json(200, AlreadyAuthenticated(true, "/"))
      else Redirect("/")
    else Next
  }

  /**
   * `redirectIfAuthenticated` acts exactly when both the flag and the user
   * id are truthy: it answers an API path with 200 and a redirect hint to
   * '/', and redirects a page to '/'. A user id of 0 does not count.
   */
  lemma RedirectIfAuthenticatedDecision(path: string, s: SessionData)
    ensures RedirectIfAuthenticated(path, s) != Next <==> Authenticated(s) && HasUserId(s)
    ensures RedirectIfAuthenticated(path, s) != Next && IsApiPath(path) ==>
      RedirectIfAuthenticated(path, s) == Json(200, AlreadyAuthenticated(true, "/"))
    ensures RedirectIfAuthenticated(path, s) != Next && !IsApiPath(path) ==>
      RedirectIfAuthenticated(path, s) == Redirect("/")
    ensures s.userId == Some(0) ==> RedirectIfAuthenticated(path, s) == Next
  {
  }

  /**
   * The two middlewares never both stop a request: a session that
   * requireAuth turns away is one that redirectIfAuthenticated lets through.
   */
  lemma MiddlewaresComplementary(path: string, s: SessionData)
    ensures RequireAuth(path, s) == Next || RedirectIfAuthenticated(path, s) == Next
  {
  }
}
