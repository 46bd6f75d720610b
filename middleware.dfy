/** The request gate that runs before every matched page and API route: it
    decides from the path, the session cookie and the role inside the cookie
    whether the request passes, is redirected, or is refused. */
module Middleware {
  import opened Common

  datatype Outcome = Next | Redirect(location: string) | Reject(response: Response)

  const PublicPaths: set<string> := {"/login", "/register", "/api/login", "/api/register"}

  const NoToken := Response(401, "Unauthorized: No authentication token provided")
  const Forbidden := Response(403, "Forbidden: You do not have permission to access this resource")

  /** `path.startsWith('/api/')` */
  predicate IsApiRoute(path: string) {
    |path| >= 5 && path[..5] == "/api/"
  }

  /** A path is an API route exactly when it is "/api/" followed by something. */
  lemma ApiRouteIsPrefix(path: string)
    ensures IsApiRoute(path) <==> exists rest :: path == "/api/" + rest
  {
    if IsApiRoute(path) {
      assert path == "/api/" + path[5..];
    }
    if exists rest :: path == "/api/" + rest {
      var rest :| path == "/api/" + rest;
      assert path[..5] == "/api/";
    }
  }

  /** Exactly four paths are public, and two of them are API routes. */
  lemma PublicPathsShape()
    ensures |PublicPaths| == 4
    ensures forall p :: p in PublicPaths ==> (IsApiRoute(p) <==> p == "/api/login" || p == "/api/register")
  {
    assert "/login" != "/register" && "/login" != "/api/login" && "/login" != "/api/register";
    assert "/register" != "/api/login" && "/register" != "/api/register";
    assert "/api/login" != "/api/register";
    assert "/login"[..5][1] == 'l' && "/register"[..5][1] == 'r';
  }

  /** The decision of src/middleware.js:3-48. `cookie` is the token cookie's
      value ("" when there is none); `parsed` is the `role` that parsing a
      non-empty cookie yields (`None` when the parse fails or has no role). */
  function Decide(path: string, cookie: string, parsed: Option<string>): (r: Outcome)
    // the 403 branch is never taken: "/product" is not an API route
    ensures r.Reject? ==> r.response == NoToken
    ensures r.Reject? <==> path !in PublicPaths && cookie == "" && IsApiRoute(path)
    ensures r == Redirect("/login") <==> path !in PublicPaths && cookie == "" && !IsApiRoute(path)
    ensures r == Redirect("/dashboard") <==> path in PublicPaths && cookie != "" && !IsApiRoute(path)
    ensures r == Redirect("/access-denied") <==> path == "/product" && cookie != "" && parsed != Some("manager")
    ensures r.Redirect? ==> r.location in {"/login", "/dashboard", "/access-denied"}
    // a non-empty cookie counts as a session even when it cannot be parsed
    ensures cookie != "" && path != "/product" && !(path in PublicPaths && !IsApiRoute(path)) ==> r == Next
  {
    // "/product" does not start with "/api/": they differ at index 1
    assert "/product"[..5][1] == 'p';
    var isApi := IsApiRoute(path);
    var isPublic := path in PublicPaths;
    var role := if cookie != "" then parsed else None;
    if isPublic && cookie != "" then
      if isApi then Next else Redirect("/dashboard")
    else if !isPublic && cookie == "" then
      if isApi then Reject(NoToken) else Redirect("/login")
    else if path == "/product" && role != Some("manager") then
      if isApi then Reject(Forbidden) else Redirect("/access-denied")
    else Next
  }
}
