/**
  Which cookie the profile-update handler finds the user in. `setSession`
  (`lib/auth-service.ts`) writes a single `user` cookie holding the session record's
  JSON; the handler (`app/api/update-user/route.ts` and its copy in the settings page)
  looks for a `user_id` cookie, which nothing writes. `SessionIdRead` and
  `HandleSessionUpdate` read the id from the `user` cookie instead.

  The header a browser sends is modelled for a browser whose only cookie is the
  session's: `name=value`, with the value written as is.
*/
module SessionCookie {
  import opened Wrappers
  import opened Text
  import opened Json
  import opened Database
  import opened AuthService
  import opened UpdateUserRoute

  /** The `Cookie` header sent when the session cookie is the only cookie: `name=value`. */
  function CookieHeader(cookies: map<string, string>): Option<string> {
    if cookies.Keys == {"user"} then Some("user" + "=" + cookies["user"]) else None
  }

  /** The session JSON travels through the cookie unchanged: it has no ';' (which would
      end the cookie) and no '=' (which would end `split("=")[1]`), and decoding leaves it as is. */
  predicate CookieSafe(u: SessionUser, decode: string -> Option<string>) {
    var text := Stringify(ToJson(u));
    ';' !in text && '=' !in text && decode(text) == Some(text)
  }

  /** The session record's JSON is an object, so it ends with '}'. */
  lemma SessionTextEnds(u: SessionUser)
    ensures var text := Stringify(ToJson(u));
      text[0] == '{' && text[|text| - 1] == '}'
  {
    assert Stringify(ToJson(u)) == "{" + Members(ToJson(u), 0) + "}";
  }

  /** A header without ';' that starts and ends with a non-space is one cookie, untrimmed. */
  lemma SingleCookie(h: string)
    requires ';' !in h && h != [] && !IsSpace(h[0]) && !IsSpace(h[|h| - 1])
    ensures CookieList(h) == [h]
  {
    assert Split(h, ';') == [h];
    assert TrimStart(h) == h;
  }

  /** What a cookie value must be to travel as the one cookie of a header: no ';', and
      a last character that trimming keeps. */
  predicate Unbroken(text: string) {
    ';' !in text && text != [] && !IsSpace(text[|text| - 1])
  }

  /** What a cookie name must be: non-empty, no ';' or '=', and no leading white space. */
  predicate CookieName(name: string) {
    name != [] && ';' !in name && '=' !in name && !IsSpace(name[0])
  }

  /** `name=text` is a header of one cookie, which starts with `name=` and ends with `text`. */
  lemma OneCookie(name: string, text: string, h: string)
    requires CookieName(name) && Unbroken(text) && h == name + "=" + text
    ensures h != [] && CookieList(h) == [h] && StartsWith(h, name + "=") && h[|name| + 1..] == text
  {
    assert h[0] == name[0] && h[|h| - 1] == text[|text| - 1];
    assert ';' !in h by {
      assert forall i :: 0 <= i < |h| ==> h[i] == if i < |name| then name[i] else if i == |name| then '=' else text[i - |name| - 1];
    }
    SingleCookie(h);
    assert h[..|name| + 1] == name + "=";
  }

  /** A one-cookie header whose cookie starts with `prefix` matches at its first entry. */
  lemma FirstCookieMatches(h: string, prefix: string)
    requires CookieList(h) == [h] && StartsWith(h, prefix)
    ensures FirstMatch(CookieList(h), prefix) == Some(0)
  {
  }

  /** The value of the one cookie `name=text`, when `text` has no '=', is all of `text`. */
  lemma OneCookieValue(name: string, text: string, h: string)
    requires CookieName(name) && Unbroken(text) && '=' !in text && h == name + "=" + text
    ensures RawCookieValue(Some(h), name) == Some(text)
  {
    OneCookie(name, text, h);
    RawIsSecondField(h, name);
    SecondFieldIs(name, text, h);
  }

  /** The raw value of a one-cookie header's matching cookie is its second field. */
  lemma RawIsSecondField(h: string, name: string)
    requires h != [] && CookieList(h) == [h] && StartsWith(h, name + "=")
    ensures '=' in h && RawCookieValue(Some(h), name) == Some(SecondField(h))
  {
    FirstCookieMatches(h, name + "=");
    PrefixHasEquals(h, name);
  }

  /** The second `=`-separated field of `name=text` is `text` when neither has a '='. */
  lemma SecondFieldIs(name: string, text: string, h: string)
    requires '=' !in name && '=' !in text && h == name + "=" + text
    ensures '=' in h && SecondField(h) == text
  {
    assert h[..|name|] == name && h[|name|] == '=';
    FirstEqualsAt(h, |name|);
    SplitSecond(h, '=');
    assert h[|name| + 1..] == text;
    assert TakeUntil(text, '=') == text;
  }

  /** A header that is one cookie, not named `name`, has no cookie of that name. */
  lemma NoCookieNamed(h: string, name: string)
    requires h != [] && CookieList(h) == [h] && !StartsWith(h, name + "=")
    ensures RawCookieValue(Some(h), name) == None
  {
  }

  /** A cookie that starts with `user=` does not start with `user_id=`: the two differ
      at their fifth character. */
  lemma UserIsNotUserId(c: string)
    requires StartsWith(c, "user" + "=")
    ensures !StartsWith(c, "user_id" + "=")
  {
    assert c[4] == c[..5][4] == '=';
    assert |c| >= 8 ==> c[..8][4] == c[4];
  }

  lemma UserIsCookieName()
    ensures CookieName("user")
  {
  }

  /** As written: the handler finds no `user_id` cookie in a header whose one cookie is
      `user`, which is the header `setSession` leads to. */
  lemma {:induction false} UserCookieHasNoUserId(text: string, decode: string -> Option<string>)
    requires Unbroken(text)
    ensures GetCookieValue(Some("user" + "=" + text), "user_id", decode) == NoCookie
  {
    var h := "user" + "=" + text;
    UserIsCookieName();
    OneCookie("user", text, h);
    UserIsNotUserId(h);
    NoCookieNamed(h, "user_id");
  }

  /** Signed in as `u` in a browser with no other cookie, every well-formed profile
      update is answered 401 "User not authenticated" and changes nothing. */
  method SessionUpdateUnauthenticated(db: Store, rule: EmailChangeRule, b: UpdateBody, u: SessionUser,
                                      decode: string -> Option<string>,
                                      fetchFails: bool, updateFailure: Option<DbError>, mailFails: bool)
    returns (reply: Reply, mailed: Option<(string, string)>)
    requires !MissingField(b) && ';' !in Stringify(ToJson(u))
    modifies db`users, db`log
    ensures reply == Reply(401, ErrorMessage("User not authenticated"))
    ensures db.users == old(db.users) && db.log == old(db.log) && mailed.None?
  {
    var browser := new Browser(true, None, map[]);
    browser.SetSession(u);
    SessionTextEnds(u);
    UserCookieHasNoUserId(Stringify(ToJson(u)), decode);
    reply, mailed := HandleUpdate(db, rule, Some(b), CookieHeader(browser.cookies), decode, fetchFails, updateFailure, mailFails);
  }

  /** The intended read: the `user` cookie's value, parsed, and its `id` field. A header
      without that cookie, or a record without a string `id`, is no user; a failing
      `decodeURIComponent` or `JSON.parse` throws (`DecodeThrows`). */
  function SessionIdRead(header: Option<string>, decode: string -> Option<string>, parse: string -> Option<Json>): (r: CookieRead)
    ensures r.CookieValue? ==>
      && GetCookieValue(header, "user", decode).CookieValue?
      && parse(GetCookieValue(header, "user", decode).value).Some?
      && Get(parse(GetCookieValue(header, "user", decode).value).value, "id") == Some(JString(r.value))
    ensures GetCookieValue(header, "user", decode).NoCookie? ==> r.NoCookie?
  {
    match GetCookieValue(header, "user", decode)
    case NoCookie => NoCookie
    case DecodeThrows => DecodeThrows
    case CookieValue(text) =>
      match parse(text)
      case None => DecodeThrows
      case Some(j) =>
        match Get(j, "id")
        case Some(JString(id)) => CookieValue(id)
        case _ => NoCookie
  }

  /** The intended read finds the id of the record a `user` cookie holds, when the
      cookie's text survives the trip (no ';', no '=', decoded as is). */
  lemma {:induction false} UserCookieReadsBack(text: string, j: Json, id: UserId,
                                               decode: string -> Option<string>, parse: string -> Option<Json>)
    requires Unbroken(text) && '=' !in text
    requires decode(text) == Some(text) && parse(text) == Some(j) && Get(j, "id") == Some(JString(id))
    ensures SessionIdRead(Some("user" + "=" + text), decode, parse) == CookieValue(id)
  {
    var h := "user" + "=" + text;
    assert GetCookieValue(Some(h), "user", decode) == CookieValue(text) by {
      UserIsCookieName();
      OneCookieValue("user", text, h);
      DecodedCookie(Some(h), "user", text, decode);
    }
    IdFromUserCookie(Some(h), text, j, id, decode, parse);
  }

  /** A `user` cookie read as `text` that parses to a record with a string `id` yields that id. */
  lemma IdFromUserCookie(header: Option<string>, text: string, j: Json, id: UserId,
                         decode: string -> Option<string>, parse: string -> Option<Json>)
    requires GetCookieValue(header, "user", decode) == CookieValue(text)
    requires parse(text) == Some(j) && Get(j, "id") == Some(JString(id))
    ensures SessionIdRead(header, decode, parse) == CookieValue(id)
  {
  }

  /** A cookie value that decoding leaves as it is is read as is. */
  lemma DecodedCookie(header: Option<string>, name: string, text: string, decode: string -> Option<string>)
    requires RawCookieValue(header, name) == Some(text) && decode(text) == Some(text)
    ensures GetCookieValue(header, name, decode) == CookieValue(text)
  {
  }

  /** The intended read finds the signed-in user in the header `setSession` leads to. */
  lemma SessionIdReadsBack(u: SessionUser, decode: string -> Option<string>, parse: string -> Option<Json>)
    requires CookieSafe(u, decode) && ReadsBack(parse, ToJson(u))
    ensures SessionIdRead(Some("user" + "=" + Stringify(ToJson(u))), decode, parse) == CookieValue(u.id)
  {
    SessionTextEnds(u);
    SessionFields(u);
    UserCookieReadsBack(Stringify(ToJson(u)), ToJson(u), u.id, decode, parse);
  }

  /** `POST` with the id read from the session cookie: the same checks in the same order,
      then `UpdateKnownUser` for that id. */
  method HandleSessionUpdate(db: Store, rule: EmailChangeRule, body: Option<UpdateBody>, cookieHeader: Option<string>,
                             decode: string -> Option<string>, parse: string -> Option<Json>,
                             fetchFails: bool, updateFailure: Option<DbError>, mailFails: bool)
    returns (reply: Reply, mailed: Option<(string, string)>)
    modifies db`users, db`log
    ensures body.None? ==> reply == Reply(500, ErrorMessage("Internal Server Error"))
    ensures body.Some? && MissingField(body.value) ==> reply == Reply(400, ErrorMessage("All fields are required"))
    ensures var read := SessionIdRead(cookieHeader, decode, parse);
      body.Some? && !MissingField(body.value) ==>
        && (read.DecodeThrows? ==> reply == Reply(500, ErrorMessage("Internal Server Error")))
        && (reply.status == 401 <==> read.NoCookie? || read == CookieValue(""))
    ensures reply.status == 401 || reply == Reply(500, ErrorMessage("Internal Server Error"))
            || reply == Reply(400, ErrorMessage("All fields are required")) ==>
      db.log == old(db.log) && db.users == old(db.users) && mailed.None?
    ensures var read := SessionIdRead(cookieHeader, decode, parse);
      body.Some? && !MissingField(body.value) && read.CookieValue? && read.value != ""
      && !fetchFails && read.value in old(db.users) && updateFailure.None? ==>
        var b, id := body.value, read.value;
        var changed := EmailChanged(rule, b, old(db.users)[id]);
        !EmailTaken(old(db.users), id, Updates(b, changed)) ==>
          && db.users == old(db.users)[id := ApplyPatch(old(db.users)[id], Updates(b, changed))]
          && mailed == (if changed then Some((b.email, id)) else None)
    ensures UniqueEmails(old(db.users)) ==> UniqueEmails(db.users)
  {
    if body.None? {
      return Reply(500, ErrorMessage("Internal Server Error")), None;
    }
    var b := body.value;
    if MissingField(b) {
      return Reply(400, ErrorMessage("All fields are required")), None;
    }
    var read := SessionIdRead(cookieHeader, decode, parse);
    if read.DecodeThrows? {
      return Reply(500, ErrorMessage("Internal Server Error")), None;
    }
    if read.NoCookie? || read.value == "" {
      return Reply(401, ErrorMessage("User not authenticated")), None;
    }
    reply, mailed := UpdateKnownUser(db, rule, b, read.value, fetchFails, updateFailure, mailFails);
  }

  /** Signed in as a known user `u` in a browser with no other cookie, a well-formed
      update that takes no other user's e-mail is applied to `u`'s row. */
  method SessionUpdateApplies(db: Store, rule: EmailChangeRule, b: UpdateBody, u: SessionUser,
                              decode: string -> Option<string>, parse: string -> Option<Json>, mailFails: bool)
    returns (reply: Reply, mailed: Option<(string, string)>)
    requires !MissingField(b) && CookieSafe(u, decode) && ReadsBack(parse, ToJson(u))
    requires u.id != "" && u.id in db.users
    requires !EmailTaken(db.users, u.id, Updates(b, EmailChanged(rule, b, db.users[u.id])))
    modifies db`users, db`log
    ensures reply.status != 401
    ensures db.users == old(db.users)[u.id := ApplyPatch(old(db.users)[u.id], Updates(b, EmailChanged(rule, b, old(db.users)[u.id])))]
  {
    var browser := new Browser(true, None, map[]);
    browser.SetSession(u);
    SessionIdReadsBack(u, decode, parse);
    reply, mailed := HandleSessionUpdate(db, rule, Some(b), CookieHeader(browser.cookies), decode, parse, false, None, mailFails);
  }
}
