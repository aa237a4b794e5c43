/**
  The profile-update endpoint (`app/api/update-user/route.ts`): validates the request,
  finds the user from the `user_id` cookie, writes the new details and, when the e-mail
  changed, mails a verification link.

  The handler is shared with the copy of it in `app/settings/page.tsx`, which differs only
  in how it decides that the e-mail changed (`EmailChangeRule`). `req.json()` is the
  `body` argument (`None` when it throws), `decodeURIComponent` the `decode` argument
  (`None` when it throws), and sending the e-mail is the `mailed` result plus the
  `mailFails` flag.
*/
module UpdateUserRoute {
  import opened Wrappers
  import opened Text
  import opened Database
  import TokenService

  /** Each part of the cookie header, trimmed. */
  function TrimAll(parts: seq<string>): seq<string> {
    seq(|parts|, i requires 0 <= i < |parts| => Trim(parts[i]))
  }

  /** `cookieHeader.split(";").map((cookie) => cookie.trim())`. */
  function CookieList(header: string): seq<string> {
    TrimAll(Split(header, ';'))
  }

  /** The position `find` stops at: the first entry starting with `prefix`. */
  function FirstMatch(entries: seq<string>, prefix: string): (r: Option<nat>)
    ensures r.Some? ==> r.value < |entries| && StartsWith(entries[r.value], prefix)
                        && forall j :: 0 <= j < r.value ==> !StartsWith(entries[j], prefix)
    ensures r.None? ==> forall j :: 0 <= j < |entries| ==> !StartsWith(entries[j], prefix)
  {
    if entries == [] then None
    else if StartsWith(entries[0], prefix) then Some(0)
    else
      var rest := FirstMatch(entries[1..], prefix);
      if rest.None? then None else Some(rest.value + 1)
  }

  /** `getCookieValue` before decoding: the second `=`-separated field of the first
      trimmed cookie that starts with `name=`. */
  function RawCookieValue(header: Option<string>, name: string): (r: Option<string>)
    ensures header.None? || header.value == "" ==> r.None?
    ensures header.Some? && header.value != "" ==>
      (r.None? <==> forall j :: 0 <= j < |CookieList(header.value)| ==> !StartsWith(CookieList(header.value)[j], name + "="))
  {
    if header.None? || header.value == "" then None
    else
      var cookies := CookieList(header.value);
      var k := FirstMatch(cookies, name + "=");
      if k.None? then None
      else
        var c := cookies[k.value];
        PrefixHasEquals(c, name);
        Some(SecondField(c))
  }

  lemma PrefixHasEquals(c: string, name: string)
    requires StartsWith(c, name + "=")
    ensures |c| > |name| && c[|name|] == '=' && c[..|name|] == name && '=' in c
  {
    assert c[..|name| + 1] == name + "=";
    assert c[..|name|] == c[..|name| + 1][..|name|];
  }

  /** `c.split("=")[1]` for a cookie that has a '='. */
  function SecondField(c: string): string
    requires '=' in c
  {
    SplitSecond(c, '=');
    Split(c, '=')[1]
  }

  /** For a name without '=', the value is the text after `name=` up to the next '='. */
  lemma {:induction false} CookieValueAfterName(header: string, name: string)
    requires header != "" && '=' !in name
    ensures var cookies := CookieList(header);
            var k := FirstMatch(cookies, name + "=");
            k.Some? ==> RawCookieValue(Some(header), name) == Some(TakeUntil(cookies[k.value][|name| + 1..], '='))
  {
    var cookies := CookieList(header);
    var k := FirstMatch(cookies, name + "=");
    if k.Some? {
      var c := cookies[k.value];
      PrefixHasEquals(c, name);
      FirstEqualsAt(c, |name|);
      SplitSecond(c, '=');
      assert RawCookieValue(Some(header), name) == Some(SecondField(c));
    }
  }

  /** A '=' with none before it is the first '='. */
  lemma FirstEqualsAt(c: string, i: nat)
    requires i < |c| && c[i] == '=' && '=' !in c[..i]
    ensures IndexOf(c, '=') == i
  {
  }

  /** What `getCookieValue` yields: no cookie (`undefined`), its decoded value, or the
      exception `decodeURIComponent` throws. */
  datatype CookieRead = NoCookie | CookieValue(value: string) | DecodeThrows

  function GetCookieValue(header: Option<string>, name: string, decode: string -> Option<string>): (r: CookieRead)
    ensures r == NoCookie <==> RawCookieValue(header, name).None?
    ensures r.CookieValue? ==> decode(RawCookieValue(header, name).value) == Some(r.value)
  {
    match RawCookieValue(header, name)
    case None => NoCookie
    case Some(raw) => if decode(raw).None? then DecodeThrows else CookieValue(decode(raw).value)
  }

  /** The JSON body the settings page posts. */
  datatype UpdateBody = UpdateBody(
    username: string, firstName: string, lastName: string, phoneNumber: string, email: string,
    country: Option<string>, isEmailChanged: bool)

  /** `!username || !first_name || !last_name || !phone_number || !email`. */
  predicate MissingField(b: UpdateBody) {
    b.username == "" || b.firstName == "" || b.lastName == "" || b.phoneNumber == "" || b.email == ""
  }

  /** How the handler decides that the e-mail changed: the request's own flag (this
      route) or a comparison with the stored address (the copy in the settings page). */
  datatype EmailChangeRule = FromRequestFlag | CompareWithStored

  function EmailChanged(rule: EmailChangeRule, b: UpdateBody, stored: UserRow): bool {
    match rule
    case FromRequestFlag => b.isEmailChanged
    case CompareWithStored => b.email != stored.email
  }

  /** The `updates` object: the four detail columns always, the e-mail (with
      `email_verified` reset) only when it changed, and never the country. */
  function Updates(b: UpdateBody, emailChanged: bool): UserPatch {
    SetDetails(b.username, b.firstName, b.lastName, b.phoneNumber, if emailChanged then Some(b.email) else None)
  }

  /** What applying `updates` does to a user row. */
  lemma UpdatesEffect(row: UserRow, b: UpdateBody, emailChanged: bool)
    ensures var after := ApplyPatch(row, Updates(b, emailChanged));
      && after.username == b.username && after.firstName == b.firstName
      && after.lastName == b.lastName && after.phoneNumber == b.phoneNumber
      && after.country == row.country && after.password == row.password && after.role == row.role
      && (emailChanged ==> after.email == b.email && !after.emailVerified)
      && (!emailChanged ==> after.email == row.email && after.emailVerified == row.emailVerified)
  {
  }

  /** The message for a failed update: a unique violation that mentions the e-mail
      is reported as such, anything else generically. */
  function UpdateErrorMessage(e: DbError): string {
    if e.code == "23505" && Contains(e.details, "email") then "This email is already in use"
    else "Failed to update user details"
  }

  /** Taking another user's e-mail is reported as "This email is already in use". */
  lemma EmailViolationMessage(email: string)
    ensures UpdateErrorMessage(EmailViolation(email)) == "This email is already in use"
  {
    var d := EmailViolation(email).details;
    assert d[5..][..5] == "email";
    ContainsAt(d, "email");
  }

  datatype ReplyBody = ErrorMessage(message: string) | UpdatedUser(user: UserRow)
  datatype Reply = Reply(status: nat, body: ReplyBody)

  /** The part of `POST` after the user id is known: read the current row, write the
      updates, then mail the verification link when the e-mail changed. */
  method UpdateKnownUser(db: Store, rule: EmailChangeRule, b: UpdateBody, id: UserId,
                         fetchFails: bool, updateFailure: Option<DbError>, mailFails: bool)
    returns (reply: Reply, mailed: Option<(string, string)>)
    modifies db`users, db`log
    ensures (fetchFails || id !in old(db.users)) <==> reply == Reply(400, ErrorMessage("Failed to fetch current user details"))
    ensures fetchFails || id !in old(db.users) ==>
      db.log == old(db.log) + [Access(Users, Select)] && db.users == old(db.users) && mailed.None?
    ensures !fetchFails && id in old(db.users) ==>
      var changed := EmailChanged(rule, b, old(db.users)[id]);
      var patch := Updates(b, changed);
      && db.log == old(db.log) + [Access(Users, Select), Access(Users, Update)]
      && (updateFailure.Some? ==>
            reply == Reply(400, ErrorMessage(UpdateErrorMessage(updateFailure.value))) && db.users == old(db.users) && mailed.None?)
      && (updateFailure.None? && EmailTaken(old(db.users), id, patch) ==>
            reply == Reply(400, ErrorMessage("This email is already in use")) && db.users == old(db.users) && mailed.None?)
      && (updateFailure.None? && !EmailTaken(old(db.users), id, patch) ==>
            && db.users == old(db.users)[id := ApplyPatch(old(db.users)[id], patch)]
            && mailed == (if changed then Some((b.email, id)) else None)
            && reply == if changed && mailFails then Reply(500, ErrorMessage("Failed to send verification email"))
                        else Reply(200, UpdatedUser(db.users[id])))
    ensures reply.status != 401 && reply != Reply(500, ErrorMessage("Internal Server Error"))
            && reply != Reply(400, ErrorMessage("All fields are required"))
    ensures UniqueEmails(old(db.users)) ==> UniqueEmails(db.users)
  {
    mailed := None;
    var current := db.SelectUser(id, fetchFails);
    if current.None? {
      return Reply(400, ErrorMessage("Failed to fetch current user details")), None;
    }
    var changed := EmailChanged(rule, b, current.value);
    var err := db.UpdateUserReturning(id, Updates(b, changed), updateFailure);
    if err.Some? {
      if updateFailure.None? {
        EmailViolationMessage(Updates(b, changed).newEmail.value);
      }
      return Reply(400, ErrorMessage(UpdateErrorMessage(err.value))), None;
    }
    if changed {
      mailed := Some((b.email, id));
      if mailFails {
        return Reply(500, ErrorMessage("Failed to send verification email")), mailed;
      }
    }
    reply := Reply(200, UpdatedUser(db.users[id]));
  }

  /** `POST`: the checks in order (body, required fields, cookie), then `UpdateKnownUser`.
      `mailed` is the (address, link token) a verification mail was sent with. */
  method HandleUpdate(db: Store, rule: EmailChangeRule, body: Option<UpdateBody>, cookieHeader: Option<string>,
                      decode: string -> Option<string>, fetchFails: bool, updateFailure: Option<DbError>, mailFails: bool)
    returns (reply: Reply, mailed: Option<(string, string)>)
    modifies db`users, db`log
    ensures body.None? ==> reply == Reply(500, ErrorMessage("Internal Server Error"))
    ensures body.Some? && MissingField(body.value) ==> reply == Reply(400, ErrorMessage("All fields are required"))
    ensures var read := GetCookieValue(cookieHeader, "user_id", decode);
      body.Some? && !MissingField(body.value) ==>
        && (read.DecodeThrows? ==> reply == Reply(500, ErrorMessage("Internal Server Error")))
        && ((read.NoCookie? || read == CookieValue("")) ==> reply == Reply(401, ErrorMessage("User not authenticated")))
    ensures reply.status == 401 <==> reply == Reply(401, ErrorMessage("User not authenticated"))
    ensures reply.status == 401 || reply == Reply(500, ErrorMessage("Internal Server Error"))
            || reply == Reply(400, ErrorMessage("All fields are required")) ==>
      db.log == old(db.log) && db.users == old(db.users) && mailed.None?
    ensures var read := GetCookieValue(cookieHeader, "user_id", decode);
      body.Some? && !MissingField(body.value) && read.CookieValue? && read.value != "" ==>
        var b, id := body.value, read.value;
        && ((fetchFails || id !in old(db.users)) <==> reply == Reply(400, ErrorMessage("Failed to fetch current user details")))
        && ((fetchFails || id !in old(db.users)) ==> db.log == old(db.log) + [Access(Users, Select)] && db.users == old(db.users) && mailed.None?)
        && (!fetchFails && id in old(db.users) ==>
              var changed := EmailChanged(rule, b, old(db.users)[id]);
              var patch := Updates(b, changed);
              && db.log == old(db.log) + [Access(Users, Select), Access(Users, Update)]
              && (updateFailure.Some? ==>
                    reply == Reply(400, ErrorMessage(UpdateErrorMessage(updateFailure.value))) && db.users == old(db.users) && mailed.None?)
              && (updateFailure.None? && EmailTaken(old(db.users), id, patch) ==>
                    reply == Reply(400, ErrorMessage("This email is already in use")) && db.users == old(db.users) && mailed.None?)
              && (updateFailure.None? && !EmailTaken(old(db.users), id, patch) ==>
                    && db.users == old(db.users)[id := ApplyPatch(old(db.users)[id], patch)]
                    && mailed == (if changed then Some((b.email, id)) else None)
                    && reply == if changed && mailFails then Reply(500, ErrorMessage("Failed to send verification email"))
                                else Reply(200, UpdatedUser(db.users[id]))))
    ensures UniqueEmails(old(db.users)) ==> UniqueEmails(db.users)
  {
    if body.None? {
      return Reply(500, ErrorMessage("Internal Server Error")), None;
    }
    var b := body.value;
    if MissingField(b) {
      return Reply(400, ErrorMessage("All fields are required")), None;
    }
    var read := GetCookieValue(cookieHeader, "user_id", decode);
    if read.DecodeThrows? {
      return Reply(500, ErrorMessage("Internal Server Error")), None;
    }
    if read.NoCookie? || read.value == "" {
      return Reply(401, ErrorMessage("User not authenticated")), None;
    }
    reply, mailed := UpdateKnownUser(db, rule, b, read.value, fetchFails, updateFailure, mailFails);
  }

  /** `POST` of this route. */
  method Post(db: Store, body: Option<UpdateBody>, cookieHeader: Option<string>, decode: string -> Option<string>,
              fetchFails: bool, updateFailure: Option<DbError>, mailFails: bool)
    returns (reply: Reply, mailed: Option<(string, string)>)
    modifies db`users, db`log
    ensures var read := GetCookieValue(cookieHeader, "user_id", decode);
      body.Some? && !MissingField(body.value) && read.CookieValue? && read.value != ""
      && !fetchFails && read.value in old(db.users) && updateFailure.None?
      && !EmailTaken(old(db.users), read.value, Updates(body.value, body.value.isEmailChanged)) ==>
        && db.users == old(db.users)[read.value := ApplyPatch(old(db.users)[read.value], Updates(body.value, body.value.isEmailChanged))]
        && mailed == if body.value.isEmailChanged then Some((body.value.email, read.value)) else None
    ensures UniqueEmails(old(db.users)) ==> UniqueEmails(db.users)
  {
    reply, mailed := HandleUpdate(db, FromRequestFlag, body, cookieHeader, decode, fetchFails, updateFailure, mailFails);
  }

  /** The link mailed after an e-mail change carries the user's id as its token. No code
      path issues a verification token equal to a user id, so when the user follows that
      link right after the change, the verification finds no token: it yields `None`
      and the new address stays unverified. */
  method MailedLinkCannotVerify(db: Store, rule: EmailChangeRule, b: UpdateBody, id: UserId, now: int,
                                readFails: bool, updateFails: bool, deleteFails: bool)
    returns (reply: Reply, mailed: Option<(string, string)>, verified: Option<UserId>)
    requires id in db.users && EmailChanged(rule, b, db.users[id])
    requires !EmailTaken(db.users, id, Updates(b, true))
    requires forall t :: t in db.verificationTokens ==> t !in db.users
    modifies db`users, db`verificationTokens, db`resetTokens, db`log
    ensures reply.status == 200 && mailed == Some((b.email, id))
    ensures verified.None?
    ensures id in db.users && db.users[id].email == b.email && !db.users[id].emailVerified
    ensures db.verificationTokens == old(db.verificationTokens)
  {
    reply, mailed := UpdateKnownUser(db, rule, b, id, false, None, false);
    UpdatesEffect(old(db.users)[id], b, true);
    verified := TokenService.VerifyEmailToken(db, mailed.value.1, now, readFails, updateFails, deleteFails);
  }

  /** The intended verification link: a verification token issued for the user, sent to
      the new address; the token it carries verifies that user until it expires. */
  method IssueVerificationLink(db: Store, id: UserId, email: string, token: Token, now: int,
                               deleteFails: bool, insertFails: bool)
    returns (mailed: Option<(string, Token)>)
    modifies db`verificationTokens, db`resetTokens, db`log
    ensures mailed.Some? ==>
      && mailed.value.0 == email
      && TokenService.Owner(db.verificationTokens, mailed.value.1, now) == Some(id)
      && TokenService.Owner(db.verificationTokens, mailed.value.1, now + TokenService.DAY) == Some(id)
    ensures mailed.None? <==> !(!insertFails && token !in (if deleteFails then old(db.verificationTokens)
                                else old(db.verificationTokens) - TokensOf(old(db.verificationTokens), id)))
  {
    var t := TokenService.CreateVerificationToken(db, id, token, now, deleteFails, insertFails);
    mailed := if t.Some? then Some((email, t.value)) else None;
  }
}
