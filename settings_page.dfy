/**
  The account-settings page (`app/settings/page.tsx`): one field is edited at a time and
  saved by posting the whole form to the profile-update endpoint; the page then shows
  the outcome. The file also carries a second `POST` handler, which is the endpoint's
  handler with the e-mail change decided by comparing with the stored address.

  The form's current values are the `form` field. What `fetch` and `response.json()`
  produce is the `response` argument of `HandleUpdate`.
*/
module SettingsPage {
  import opened Wrappers
  import opened Text
  import opened Database
  import opened UpdateUserRoute

  /** `value.trim().toLowerCase()`, the form an e-mail is compared and sent in. */
  function Normalize(s: string): string {
    Lower(Trim(s))
  }

  /** Lower-casing keeps the characters that count as white space where they are. */
  lemma LowerKeepsTrimmed(t: string)
    requires t == [] || (!IsSpace(t[0]) && !IsSpace(t[|t| - 1]))
    ensures var l := Lower(t); l == [] || (!IsSpace(l[0]) && !IsSpace(l[|l| - 1]))
  {
  }

  lemma LowerIdempotent(s: string)
    ensures Lower(Lower(s)) == Lower(s)
  {
  }

  /** A text with no white space at either end is its own trim. */
  lemma TrimOfTrimmed(s: string)
    requires s == [] || (!IsSpace(s[0]) && !IsSpace(s[|s| - 1]))
    ensures Trim(s) == s
  {
    assert TrimStart(s) == s;
    assert TrimEnd(s) == s;
  }

  /** Normalizing twice is normalizing once. */
  lemma NormalizeIdempotent(s: string)
    ensures Normalize(Normalize(s)) == Normalize(s)
  {
    var t := Trim(s);
    TrimTrims(s);
    LowerKeepsTrimmed(t);
    calc {
      Normalize(Normalize(s));
      Lower(Trim(Lower(t)));
      { TrimOfTrimmed(Lower(t)); }
      Lower(Lower(t));
      { LowerIdempotent(t); }
      Lower(t);
    }
  }

  /** `isEmailChanged`: only an edit of the "email" field can change the e-mail, and it does
      unless the new value equals the current one up to surrounding white space and case.
      With no signed-in user `user?.email` is `undefined`, so any e-mail edit counts. */
  function IsEmailChanged(field: string, value: string, user: Option<UserRow>): (r: bool)
    ensures r ==> field == "email"
    ensures field == "email" && user.Some? ==> (r <==> Normalize(value) != Normalize(user.value.email))
  {
    field == "email" && (user.None? || Normalize(value) != Normalize(user.value.email))
  }

  /** Editing the address only in case or surrounding white space is not a change. */
  lemma CaseOnlyEditIsNoChange(value: string, u: UserRow)
    requires Lower(Trim(value)) == Lower(Trim(u.email))
    ensures !IsEmailChanged("email", value, Some(u))
  {
  }

  /** Deciding on the address as it is sent gives the same answer as on the typed value. */
  lemma SentEmailSameDecision(value: string, user: Option<UserRow>)
    ensures IsEmailChanged("email", Normalize(value), user) == IsEmailChanged("email", value, user)
  {
    NormalizeIdempotent(value);
  }

  /** The page's current field values. `country` is the selected option's label. */
  datatype Form = Form(username: string, firstName: string, lastName: string, phoneNumber: string,
                       country: Option<string>, email: string)

  /** The JSON body `handleUpdate` posts for an edit of `field` to `value`. */
  function RequestBody(field: string, value: string, form: Form, user: Option<UserRow>): (r: UpdateBody)
    ensures r.isEmailChanged == IsEmailChanged(field, value, user)
    ensures field == "email" ==> r.email == Normalize(value) && Normalize(r.email) == r.email
  {
    NormalizeIdempotent(value);
    UpdateBody(
      if field == "username" then value else form.username,
      if field == "first_name" then value else form.firstName,
      if field == "last_name" then value else form.lastName,
      if field == "phone_number" then value else form.phoneNumber,
      if field == "email" then Normalize(value) else form.email,
      if field == "country" then Some(value) else form.country,
      IsEmailChanged(field, value, user))
  }

  /** The body carries the edited value in the edited field and the form's values elsewhere. */
  lemma RequestBodyFields(field: string, value: string, form: Form, user: Option<UserRow>)
    ensures var b := RequestBody(field, value, form, user);
      && (b.username == if field == "username" then value else form.username)
      && (b.firstName == if field == "first_name" then value else form.firstName)
      && (b.lastName == if field == "last_name" then value else form.lastName)
      && (b.phoneNumber == if field == "phone_number" then value else form.phoneNumber)
      && (b.country == if field == "country" then Some(value) else form.country)
      && (field != "email" ==> b.email == form.email && !b.isEmailChanged)
  {
  }

  /** An edit of any other field leaves the stored address and its verification alone
      when the endpoint applies it. */
  lemma OtherFieldKeepsEmail(row: UserRow, field: string, value: string, form: Form, user: Option<UserRow>)
    requires field != "email"
    ensures var b := RequestBody(field, value, form, user);
      var after := ApplyPatch(row, Updates(b, b.isEmailChanged));
      after.email == row.email && after.emailVerified == row.emailVerified
  {
  }

  /** What the page got back: `fetch` or `response.json()` threw (with that message), or a
      status and the endpoint's JSON body. */
  datatype Response = Threw(message: string) | Answered(status: nat, body: ReplyBody)

  /** `response.ok`. */
  predicate IsOk(status: nat) {
    200 <= status < 300
  }

  /** The message shown for a failed save: a thrown error's own message, or the endpoint's
      `error` field; each falls back to a fixed text when empty. */
  function FailureMessage(response: Response): (m: string)
    requires !(response.Answered? && IsOk(response.status))
    ensures m != ""
    ensures response.Answered? && response.body.ErrorMessage? && response.body.message != "" ==> m == response.body.message
  {
    match response
    case Threw(message) => if message != "" then message else "Failed to update details"
    case Answered(_, body) =>
      if body.ErrorMessage? && body.message != "" then body.message else "Failed to update user details"
  }

  const Updated := "Details updated successfully!"
  const UpdatedVerify := "Details updated successfully! Please verify your new email."

  class Settings {
    /** The signed-in user (the auth context's `user`). */
    var user: Option<UserRow>
    var form: Form
    var editingField: Option<string>
    var loading: bool
    var successMessage: Option<string>
    var errorMessage: Option<string>

    /** The initial state: each field from the user ("" when unset), the country only when
        `countries` lists it. */
    constructor (user: Option<UserRow>, countries: seq<string>)
      ensures this.user == user && editingField.None? && !loading
      ensures successMessage.None? && errorMessage.None?
      ensures user.None? ==> form == Form("", "", "", "", None, "")
      ensures user.Some? ==> form == Form(user.value.username, user.value.firstName, user.value.lastName,
                                          user.value.phoneNumber,
                                          if user.value.country in countries then Some(user.value.country) else None,
                                          user.value.email)
    {
      this.user := user;
      if user.None? {
        form := Form("", "", "", "", None, "");
      } else {
        var u := user.value;
        form := Form(u.username, u.firstName, u.lastName, u.phoneNumber,
                     if u.country in countries then Some(u.country) else None, u.email);
      }
      editingField := None;
      loading := false;
      successMessage := None;
      errorMessage := None;
    }

    /** `handleUpdate(field, value)`: posts the body and shows the outcome. A failure shows
        its message and keeps the user and the open editor; a success replaces the user with
        the returned row, closes the editor and asks for verification iff the e-mail changed. */
    method HandleUpdate(field: string, value: string, response: Response) returns (sent: UpdateBody)
      modifies this`user, this`editingField, this`loading, this`successMessage, this`errorMessage
      ensures sent == RequestBody(field, value, form, old(user))
      ensures !loading
      ensures response.Answered? && IsOk(response.status) ==>
        && user == (if response.body.UpdatedUser? then Some(response.body.user) else None)
        && editingField.None? && errorMessage.None?
        && successMessage == Some(if sent.isEmailChanged then UpdatedVerify else Updated)
      ensures !(response.Answered? && IsOk(response.status)) ==>
        && user == old(user) && editingField == old(editingField)
        && successMessage.None? && errorMessage == Some(FailureMessage(response))
    {
      sent := RequestBody(field, value, form, user);
      loading := true;
      errorMessage := None;
      successMessage := None;
      if !(response.Answered? && IsOk(response.status)) {
        errorMessage := Some(FailureMessage(response));
      } else {
        user := if response.body.UpdatedUser? then Some(response.body.user) else None;
        successMessage := Some(Updated);
        if sent.isEmailChanged {
          successMessage := Some(UpdatedVerify);
        }
        editingField := None;
      }
      loading := false;
    }
  }

  /** Under the comparison with the stored address, the row always ends up with the
      requested e-mail, and its verification is kept when the address is the same. */
  lemma ComparedPatchWritesEmail(stored: UserRow, b: UpdateBody)
    ensures var after := ApplyPatch(stored, Updates(b, EmailChanged(CompareWithStored, b, stored)));
      && after.email == b.email
      && (b.email == stored.email ==> after.emailVerified == stored.emailVerified)
      && (b.email != stored.email ==> !after.emailVerified)
  {
  }

  /** The page's own `POST`: the endpoint's handler, with the e-mail written (and
      `email_verified` reset) only when it differs from the stored address. */
  method Post(db: Store, body: Option<UpdateBody>, cookieHeader: Option<string>, decode: string -> Option<string>,
              fetchFails: bool, updateFailure: Option<DbError>, mailFails: bool)
    returns (reply: Reply, mailed: Option<(string, string)>)
    modifies db`users, db`log
    ensures var read := GetCookieValue(cookieHeader, "user_id", decode);
      body.Some? && !MissingField(body.value) && read.CookieValue? && read.value != ""
      && !fetchFails && read.value in old(db.users) && updateFailure.None? ==>
        var stored := old(db.users)[read.value];
        var patch := Updates(body.value, body.value.email != stored.email);
        && db.log == old(db.log) + [Access(Users, Select), Access(Users, Update)]
        && (!EmailTaken(old(db.users), read.value, patch) ==>
              && db.users == old(db.users)[read.value := ApplyPatch(stored, patch)]
              && mailed == if body.value.email != stored.email then Some((body.value.email, read.value)) else None)
    ensures UniqueEmails(old(db.users)) ==> UniqueEmails(db.users)
  {
    reply, mailed := HandleUpdate(db, CompareWithStored, body, cookieHeader, decode, fetchFails, updateFailure, mailFails);
  }
}
