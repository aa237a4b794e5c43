/**
  The admin route guard (`app/admin/middleware.ts`): every admin page except the admin
  login page needs an `adminUser` cookie whose JSON has role "ADMIN". `JSON.parse` is the
  `parse` argument (`None` when it throws).
*/
module AdminMiddleware {
  import opened Wrappers
  import opened Json
  import opened Middleware

  /** What reading `.role` of the parsed cookie does: on `null` it throws (like a parse
      error); on anything else it yields the property, `undefined` when absent. */
  datatype RoleRead = Throws | Role(value: Option<Json>)

  function ReadRole(parsed: Option<Json>): RoleRead {
    if parsed.None? || parsed.value.JNull? then Throws else Role(Get(parsed.value, "role"))
  }

  /** The guard's decision. */
  function Decide(path: string, cookies: Cookies, parse: string -> Option<Json>): (r: Response)
    ensures path == "/admin/login" ==> r == Next
    ensures path != "/admin/login" && ("adminUser" !in cookies || cookies["adminUser"] == "") ==> r == Redirect("/admin/login")
    ensures r == Next <==>
      path == "/admin/login"
      || ("adminUser" in cookies && cookies["adminUser"] != ""
          && parse(cookies["adminUser"]).Some? && Get(parse(cookies["adminUser"]).value, "role") == Some(JString("ADMIN")))
    ensures r == Redirect("/admin/access-denied") <==>
      path != "/admin/login" && "adminUser" in cookies && cookies["adminUser"] != ""
      && parse(cookies["adminUser"]).Some? && !parse(cookies["adminUser"]).value.JNull?
      && Get(parse(cookies["adminUser"]).value, "role") != Some(JString("ADMIN"))
  {
    if path == "/admin/login" then Next
    else if "adminUser" !in cookies || cookies["adminUser"] == "" then Redirect("/admin/login")
    else
      match ReadRole(parse(cookies["adminUser"]))
      case Throws => Redirect("/admin/login")
      case Role(role) => if role != Some(JString("ADMIN")) then Redirect("/admin/access-denied") else Next
  }

  /** A cookie holding the JSON of an admin record is let through on every admin page,
      provided `parse` reads back what `JSON.stringify` wrote. */
  lemma AdminCookiePasses(path: string, cookies: Cookies, parse: string -> Option<Json>, admin: Json)
    requires admin.JObject? && Get(admin, "role") == Some(JString("ADMIN"))
    requires ReadsBack(parse, admin)
    requires "adminUser" in cookies && cookies["adminUser"] == Stringify(admin)
    ensures Decide(path, cookies, parse) == Next
  {
  }

  /** Any other role, or none at all, is turned away to the access-denied page. */
  lemma OtherRolesDenied(path: string, cookies: Cookies, parse: string -> Option<Json>, user: Json)
    requires path != "/admin/login" && user.JObject? && Get(user, "role") != Some(JString("ADMIN"))
    requires ReadsBack(parse, user)
    requires "adminUser" in cookies && cookies["adminUser"] == Stringify(user)
    ensures Decide(path, cookies, parse) == Redirect("/admin/access-denied")
  {
  }
}
