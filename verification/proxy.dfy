/** The request middleware: clears the session cookies after a refresh-token
  * or not-found session error, then gates the dashboard, login and admin API
  * paths on whether a session exists. */
module Proxy {

  import opened Text

  const AccessCookie := "sb-access-token"
  const RefreshCookie := "sb-refresh-token"

  /** What the middleware does with a request. */
  datatype Gate = Pass | RedirectTo(location: string) | Unauthorized

  predicate IsDashboard(path: string) { StartsWith(path, "/dashboard") }
  predicate IsLogin(path: string) { StartsWith(path, "/login") }
  predicate IsApiAdmin(path: string) { StartsWith(path, "/api/admin") }

  /** The three path classes are pairwise exclusive, so at most one gating rule applies. */
  lemma PathClassesExclusive(path: string)
    ensures !(IsDashboard(path) && IsLogin(path))
    ensures !(IsDashboard(path) && IsApiAdmin(path))
    ensures !(IsLogin(path) && IsApiAdmin(path))
  {
    if IsDashboard(path) {
      assert path[1] == "/dashboard"[1] == 'd';
    }
    if IsLogin(path) {
      assert path[1] == "/login"[1] == 'l';
    }
    if IsApiAdmin(path) {
      assert path[1] == "/api/admin"[1] == 'a';
    }
  }

  /** The gating decision for a path, given whether a session was found. */
  function Route(path: string, hasSession: bool): (g: Gate)
    ensures g == RedirectTo("/login") <==> IsDashboard(path) && !hasSession
    ensures g == RedirectTo("/dashboard") <==> IsLogin(path) && hasSession
    ensures g == Unauthorized <==> IsApiAdmin(path) && !hasSession
    ensures g.RedirectTo? ==> g.location in {"/login", "/dashboard"}
    ensures !IsDashboard(path) && !IsLogin(path) && !IsApiAdmin(path) ==> g == Pass
  {
    PathClassesExclusive(path);
    if IsDashboard(path) && !hasSession then RedirectTo("/login")
    else if IsLogin(path) && hasSession then RedirectTo("/dashboard")
    else if IsApiAdmin(path) && !hasSession then Unauthorized
    else Pass
  }

  /** The session error's lower-cased message mentions a refresh token or "not found". */
  predicate ClearsCookies(sessionError: Option<string>)
    ensures ClearsCookies(sessionError) <==>
              sessionError.Some? &&
              ((exists i :: OccursAt(Lower(sessionError.value), "refresh token", i)) ||
               (exists i :: OccursAt(Lower(sessionError.value), "not found", i)))
  {
    sessionError.Some?
    && (ContainsAt(Lower(sessionError.value), "refresh token");
        ContainsAt(Lower(sessionError.value), "not found");
        Contains(Lower(sessionError.value), "refresh token") || Contains(Lower(sessionError.value), "not found"))
  }

  /** A `NextResponse` as the middleware builds it. */
  class Response {
    var gate: Gate
    /** The cookies deleted on this response, in order. */
    var deletedCookies: seq<string>

    /** `NextResponse.next(...)`: pass the request on. */
    constructor Next()
      ensures gate == Pass && deletedCookies == []
    {
      gate := Pass;
      deletedCookies := [];
    }

    /** `NextResponse.redirect(...)`. */
    constructor Redirect(location: string)
      ensures gate == RedirectTo(location) && deletedCookies == []
    {
      gate := RedirectTo(location);
      deletedCookies := [];
    }

    /** `NextResponse.json({ error: 'Unauthorized' }, { status: 401 })`. */
    constructor Denied()
      ensures gate == Unauthorized && deletedCookies == []
    {
      gate := Unauthorized;
      deletedCookies := [];
    }

    /** `response.cookies.delete(name)`. */
    method DeleteCookie(name: string)
      modifies this
      ensures gate == old(gate)
      ensures deletedCookies == old(deletedCookies) + [name]
    {
      deletedCookies := deletedCookies + [name];
    }
  }

  /** The middleware for one request. `hasSession` and `sessionError` are the
    * result of reading the session from the request's cookies. */
  method Middleware(path: string, hasSession: bool, sessionError: Option<string>) returns (res: Response)
    ensures fresh(res)
    ensures res.gate == Route(path, hasSession)
    // Cleared cookies travel only on the pass-through response.
    ensures res.deletedCookies ==
              if res.gate == Pass && ClearsCookies(sessionError) then [AccessCookie, RefreshCookie] else []
  {
    var response := new Response.Next();
    if ClearsCookies(sessionError) {
      response.DeleteCookie(AccessCookie);
      response.DeleteCookie(RefreshCookie);
    }
    if IsDashboard(path) && !hasSession {
      res := new Response.Redirect("/login");
      return;
    }
    if IsLogin(path) && hasSession {
      res := new Response.Redirect("/dashboard");
      return;
    }
    if IsApiAdmin(path) && !hasSession {
      res := new Response.Denied();
      return;
    }
    res := response;
  }

  /** The session error never decides the gate: only the path and the session do. */
  lemma GateIgnoresSessionError(path: string, hasSession: bool)
    ensures hasSession ==> Route(path, hasSession) != Unauthorized && Route(path, hasSession) != RedirectTo("/login")
    ensures !hasSession ==> Route(path, hasSession) != RedirectTo("/dashboard")
  {
  }

  /** Concrete paths of the application and how they are gated. */
  lemma KnownPaths()
    ensures Route("/dashboard/staff/my-jobs", false) == RedirectTo("/login")
    ensures Route("/login", true) == RedirectTo("/dashboard")
    ensures Route("/api/admin/delete-user", false) == Unauthorized
    ensures Route("/api/admin/delete-user", true) == Pass
    ensures Route("/api/vendors", false) == Pass
  {
    assert StartsWith("/dashboard/staff/my-jobs", "/dashboard");
    assert StartsWith("/api/admin/delete-user", "/api/admin");
    PathClassesExclusive("/api/admin/delete-user");
    assert "/api/vendors"[..10][5] == 'v';
  }

  /** The provider's expired-session wording clears the cookies. */
  lemma RefreshErrorClearsCookies()
    ensures ClearsCookies(Some("Refresh Token Not Found"))
  {
    assert Lower("Refresh Token Not Found") == "refresh token not found";
    assert StartsWith("refresh token not found", "refresh token");
  }
}
