/**
  The site-wide route guard (`middleware.ts`): signed-out visitors are sent from the
  member pages to /login, signed-in ones from the landing and login pages to /dashboard.
  The `matcher` that decides which requests reach it is not modelled: `Decide` is given
  every path.
*/
module Middleware {
  import opened Text

  datatype Response = Next | Redirect(to: string)

  /** The request's cookies, by name. */
  type Cookies = map<string, string>

  /** Signed in: a `user` cookie with a non-empty value. */
  predicate IsLoggedIn(cookies: Cookies) {
    "user" in cookies && cookies["user"] != ""
  }

  /** A member page: a prefix test, so "/dashboard-1" and "/send-moneyX" count too. */
  predicate IsProtected(path: string) {
    StartsWith(path, "/dashboard") || StartsWith(path, "/send-money") || StartsWith(path, "/beneficiaries")
  }

  predicate IsAuthRoute(path: string) {
    path == "/login" || path == "/"
  }

  /** The guard's decision. */
  function Decide(path: string, cookies: Cookies): (r: Response)
    ensures r == Redirect("/login") <==> !IsLoggedIn(cookies) && IsProtected(path)
    ensures r == Redirect("/dashboard") <==> IsLoggedIn(cookies) && IsAuthRoute(path)
    ensures r == Next <==> !(!IsLoggedIn(cookies) && IsProtected(path)) && !(IsLoggedIn(cookies) && IsAuthRoute(path))
  {
    if !IsLoggedIn(cookies) && IsProtected(path) then Redirect("/login")
    else if IsLoggedIn(cookies) && IsAuthRoute(path) then Redirect("/dashboard")
    else Next
  }

  /** No path is both a member page and an auth route, so at most one redirect applies. */
  lemma RouteClassesDisjoint(path: string)
    ensures !(IsProtected(path) && IsAuthRoute(path))
  {
  }

  /** Following a redirect never leads to another one: /login lets a signed-out visitor
      through and /dashboard lets a signed-in one through. */
  lemma NoRedirectLoop(path: string, cookies: Cookies)
    ensures Decide(path, cookies).Redirect? ==> Decide(Decide(path, cookies).to, cookies) == Next
  {
    RouteClassesDisjoint("/login");
    assert StartsWith("/dashboard", "/dashboard");
    RouteClassesDisjoint("/dashboard");
  }

  /** "/dashboard-1" is guarded like "/dashboard". */
  lemma PrefixGuardsLookalikes(cookies: Cookies)
    requires !IsLoggedIn(cookies)
    ensures Decide("/dashboard-1", cookies) == Redirect("/login")
  {
    assert "/dashboard-1"[..|"/dashboard"|] == "/dashboard";
  }
}
