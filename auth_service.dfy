/**
  Sign-up, sign-in and the browser session (`lib/auth-service.ts`).

  The session lives in the browser: `localStorage["user"]` and the `user` cookie the
  route guard reads. `Browser.hasWindow` is `typeof window !== "undefined"`; on the
  server every session call does nothing. The id the store gives a new user row is the
  `newId` argument and `Math.random()` the `random` argument.
*/
module AuthService {
  import opened Wrappers
  import opened Text
  import opened Json
  import opened Database
  import Base64
  import Middleware

  /** The session record `{ id, email, role }`. */
  datatype SessionUser = SessionUser(id: UserId, email: string, role: string)

  function ToJson(u: SessionUser): Json {
    JObject([("id", JString(u.id)), ("email", JString(u.email)), ("role", JString(u.role))])
  }

  /** Every field of the session record reads back from its JSON. */
  lemma SessionFields(u: SessionUser)
    ensures Get(ToJson(u), "id") == Some(JString(u.id))
    ensures Get(ToJson(u), "email") == Some(JString(u.email))
    ensures Get(ToJson(u), "role") == Some(JString(u.role))
  {
    var f := ToJson(u).fields;
    assert f[..2] == [("id", JString(u.id)), ("email", JString(u.email))];
    assert f[..2][..1] == [("id", JString(u.id))];
    assert LastField(f, "email") == LastField(f[..2], "email");
    assert LastField(f, "id") == LastField(f[..2], "id") == LastField(f[..2][..1], "id");
  }

  /** `getSession` over the stored text: nothing stored (or ""), a parse error and a
      parsed `null` all give `null`. */
  function SessionOf(stored: Option<string>, parse: string -> Option<Json>): (r: Option<Json>)
    ensures r.Some? ==> stored.Some? && stored.value != "" && parse(stored.value) == r && r.value != JNull
  {
    if stored.None? || stored.value == "" then None
    else
      var parsed := parse(stored.value);
      if parsed.Some? && parsed.value != JNull then parsed else None
  }

  /** A stored session reads back as the record that was stored. */
  lemma StoredSessionReadsBack(u: SessionUser, parse: string -> Option<Json>)
    requires ReadsBack(parse, ToJson(u))
    ensures SessionOf(Some(Stringify(ToJson(u))), parse) == Some(ToJson(u))
  {
  }

  class Browser {
    const hasWindow: bool
    /** `localStorage.getItem("user")`. */
    var storedUser: Option<string>
    /** `document.cookie`, by name. */
    var cookies: Middleware.Cookies

    constructor(hasWindow: bool, storedUser: Option<string>, cookies: Middleware.Cookies)
      ensures this.hasWindow == hasWindow && this.storedUser == storedUser && this.cookies == cookies
    {
      this.hasWindow := hasWindow;
      this.storedUser := storedUser;
      this.cookies := cookies;
    }

    /** `getSession`. */
    function GetSession(parse: string -> Option<Json>): Option<Json>
      reads this
    {
      if hasWindow then SessionOf(storedUser, parse) else None
    }

    /** `setSession(u)`: stores the record's JSON and sets the `user` cookie to it. */
    method SetSession(u: SessionUser)
      modifies this`storedUser, this`cookies
      ensures hasWindow ==> storedUser == Some(Stringify(ToJson(u))) && cookies == old(cookies)["user" := Stringify(ToJson(u))]
      ensures !hasWindow ==> storedUser == old(storedUser) && cookies == old(cookies)
      ensures hasWindow ==> Middleware.IsLoggedIn(cookies)
      ensures forall parse :: hasWindow && ReadsBack(parse, ToJson(u)) ==> GetSession(parse) == Some(ToJson(u))
    {
      if hasWindow {
        var text := Stringify(ToJson(u));
        storedUser := Some(text);
        cookies := cookies["user" := text];
      }
    }

    /** `clearSession`: removes the stored record and expires the `user` cookie. */
    method ClearSession()
      modifies this`storedUser, this`cookies
      ensures hasWindow ==> storedUser == None && cookies == old(cookies) - {"user"}
      ensures !hasWindow ==> storedUser == old(storedUser) && cookies == old(cookies)
      ensures forall parse :: GetSession(parse) == None
      ensures hasWindow ==> !Middleware.IsLoggedIn(cookies)
    {
      if hasWindow {
        storedUser := None;
        cookies := cookies - {"user"};
      }
    }

    /** `signOut`. */
    method SignOut()
      modifies this`storedUser, this`cookies
      ensures hasWindow ==> storedUser == None && cookies == old(cookies) - {"user"}
      ensures !hasWindow ==> storedUser == old(storedUser) && cookies == old(cookies)
      ensures forall parse :: GetSession(parse) == None
    {
      ClearSession();
    }
  }

  /** The thrown errors, by message. */
  datatype AuthError =
    | NotEncodable          // `btoa` threw on the password
    | CheckFailed           // "Error during signup process"
    | AlreadyExists         // "User with this email already exists"
    | CreateFailed          // "Failed to create user account"
    | ProfileFailed         // "Failed to create user profile"
    | InvalidCredentials    // "Invalid email or password"

  datatype AuthResult = SignedIn(user: SessionUser) | Failed(error: AuthError)

  /** `encodePassword`. */
  function EncodePassword(password: string): Option<string> {
    Base64.Btoa(password)
  }

  /** The new user's row: role USER, not yet verified, no details. */
  function NewUserRow(email: string, encoded: string): UserRow {
    UserRow(email, encoded, "USER", false, "", "", "", "", "")
  }

  /** `Math.floor(1000000000 + Math.random() * 9000000000).toString()`: ten digits, the first
      of them not 0. */
  function AccountNumber(random: real): (r: string)
    requires 0.0 <= random < 1.0
    ensures |r| == 10 && r[0] != '0'
    ensures forall i :: 0 <= i < |r| ==> IsDigit(r[i])
  {
    var n := (1000000000.0 + random * 9000000000.0).Floor;
    assert 1000000000 <= n < 10000000000;
    TenDigits(n);
    DecimalString(n)
  }

  lemma TenDigits(n: nat)
    requires 1000000000 <= n < 10000000000
    ensures |DecimalString(n)| == 10
  {
    assert Pow10(9) == 1000000000 by {
      assert Pow10(3) == 1000;
      assert Pow10(6) == 1000 * Pow10(3) by { Pow10Add(3, 3); }
      Pow10Add(6, 3);
    }
    assert Pow10(10) == 10 * Pow10(9);
    DecimalStringLength(n, 10);
  }

  lemma {:induction false} Pow10Add(a: nat, b: nat)
    ensures Pow10(a + b) == Pow10(a) * Pow10(b)
  {
    if b > 0 {
      Pow10Add(a, b - 1);
      assert Pow10(a + b) == 10 * Pow10(a + b - 1);
    }
  }

  /** After a sign-up inserted a row for an e-mail nobody had, signing in with that e-mail
      and password finds exactly the new user. */
  lemma FreshCredentials(users: map<UserId, UserRow>, id: UserId, email: string, encoded: string)
    requires WithEmail(users, email) == {}
    ensures Credentials(users[id := NewUserRow(email, encoded)], email, encoded) == {id}
  {
  }

  /** Signing in with a different password than the stored one cannot find the user. */
  lemma SignInNeedsSamePassword(users: map<UserId, UserRow>, id: UserId, email: string, password: string, stored: string)
    requires id in users && EncodePassword(stored).Some? && users[id].password == EncodePassword(stored).value
    requires EncodePassword(password).Some? && id in Credentials(users, email, EncodePassword(password).value)
    ensures password == stored
  {
    Base64.BtoaInjective(password, stored);
  }

  /** The writes of `signUp` once the e-mail is known to be free: the user row, then the
      profile; when the profile cannot be created the user row is deleted again. */
  method CreateAccount(db: Store, id: UserId, row: UserRow, profile: Profile,
                       insertFails: bool, profileFails: bool, deleteFails: bool)
    returns (failure: Option<AuthError>)
    requires WithEmail(db.users, row.email) == {}
    modifies db`users, db`profiles, db`log
    ensures failure == Some(CreateFailed) <==> insertFails || id in old(db.users)
    ensures failure == Some(ProfileFailed) <==> !insertFails && id !in old(db.users) && (profileFails || id in old(db.profiles))
    ensures failure.None? || failure == Some(CreateFailed) || failure == Some(ProfileFailed)
    ensures failure.Some? ==> db.profiles == old(db.profiles)
    ensures failure == Some(CreateFailed) ==> db.users == old(db.users) && db.log == old(db.log) + [Access(Users, Insert)]
    ensures failure == Some(ProfileFailed) ==>
      && db.log == old(db.log) + [Access(Users, Insert), Access(Profiles, Insert), Access(Users, Delete)]
      && db.users == if deleteFails then old(db.users)[id := row] else old(db.users)
    ensures failure.None? ==>
      && db.log == old(db.log) + [Access(Users, Insert), Access(Profiles, Insert)]
      && db.users == old(db.users)[id := row] && db.profiles == old(db.profiles)[id := profile]
  {
    var inserted := db.InsertUser(id, row, insertFails);
    if !inserted {
      return Some(CreateFailed);
    }
    var created := db.InsertProfile(id, profile, profileFails);
    if !created {
      var deleted := db.DeleteUser(id, deleteFails);
      if deleted {
        assert db.users == old(db.users)[id := row] - {id};
        assert db.users == old(db.users);
      }
      return Some(ProfileFailed);
    }
    return None;
  }

  /** `signUp`: refuses an e-mail that is taken, inserts the user with role USER and the
      encoded password, gives them a profile with balance 0 and a fresh account number
      (deleting the user again if that fails), and starts their session. */
  method SignUp(db: Store, browser: Browser, email: string, password: string, newId: UserId, random: real,
                checkFails: bool, insertFails: bool, profileFails: bool, deleteFails: bool)
    returns (r: AuthResult)
    requires 0.0 <= random < 1.0
    modifies db`users, db`profiles, db`log, browser`storedUser, browser`cookies
    ensures r == Failed(NotEncodable) <==> EncodePassword(password).None?
    ensures EncodePassword(password).None? ==> r == Failed(NotEncodable) && db.log == old(db.log)
    ensures var canEncode := EncodePassword(password).Some?;
            var taken := WithEmail(old(db.users), email);
            && (r == Failed(CheckFailed) <==> canEncode && (checkFails || |taken| > 1))
            && (r == Failed(AlreadyExists) <==> canEncode && !checkFails && |taken| == 1)
            && (r == Failed(CreateFailed) <==> canEncode && !checkFails && taken == {}
                                               && (insertFails || newId in old(db.users)))
            && (r == Failed(ProfileFailed) <==> canEncode && !checkFails && taken == {} && !insertFails
                                                && newId !in old(db.users) && (profileFails || newId in old(db.profiles)))
    ensures r.Failed? ==> r.error != InvalidCredentials
    ensures r.Failed? ==>
      (db.profiles == old(db.profiles)
       && browser.storedUser == old(browser.storedUser) && browser.cookies == old(browser.cookies))
    ensures r.Failed? && !(r.error == ProfileFailed && deleteFails) ==> db.users == old(db.users)
    ensures r == Failed(ProfileFailed) ==>
      && db.log == old(db.log) + [Access(Users, Select), Access(Users, Insert), Access(Profiles, Insert), Access(Users, Delete)]
      && (deleteFails ==> db.users == old(db.users)[newId := NewUserRow(email, EncodePassword(password).value)])
    ensures r.SignedIn? ==>
      && r.user == SessionUser(newId, email, "USER")
      && db.log == old(db.log) + [Access(Users, Select), Access(Users, Insert), Access(Profiles, Insert)]
      && db.users == old(db.users)[newId := NewUserRow(email, EncodePassword(password).value)]
      && db.profiles == old(db.profiles)[newId := Profile(AccountNumber(random), 0)]
      && Credentials(db.users, email, EncodePassword(password).value) == {newId}
      && (browser.hasWindow ==> browser.storedUser == Some(Stringify(ToJson(r.user))) && Middleware.IsLoggedIn(browser.cookies))
  {
    var encoded := EncodePassword(password);
    if encoded.None? {
      return Failed(NotEncodable);
    }
    var existing := db.MaybeUserByEmail(email, checkFails);
    if existing.LookupFailed? {
      return Failed(CheckFailed);
    }
    if existing.OneRow? {
      return Failed(AlreadyExists);
    }
    var row := NewUserRow(email, encoded.value);
    var failure := CreateAccount(db, newId, row, Profile(AccountNumber(random), 0), insertFails, profileFails, deleteFails);
    if failure.Some? {
      return Failed(failure.value);
    }
    FreshCredentials(old(db.users), newId, email, encoded.value);
    r := SignedIn(SessionUser(newId, email, "USER"));
    browser.SetSession(r.user);
  }

  /** `signIn`: succeeds exactly when one user has this e-mail and the encoded password,
      and then starts that user's session. */
  method SignIn(db: Store, browser: Browser, email: string, password: string, fail: bool)
    returns (r: AuthResult)
    modifies db`log, browser`storedUser, browser`cookies
    ensures r == Failed(NotEncodable) <==> EncodePassword(password).None?
    ensures EncodePassword(password).None? ==> r == Failed(NotEncodable) && db.log == old(db.log)
    ensures EncodePassword(password).Some? ==> db.log == old(db.log) + [Access(Users, Select)]
    ensures r.SignedIn? <==>
      EncodePassword(password).Some? && !fail && |Credentials(db.users, email, EncodePassword(password).value)| == 1
    ensures r.SignedIn? ==>
      && Credentials(db.users, email, EncodePassword(password).value) == {r.user.id}
      && r.user == SessionUser(r.user.id, db.users[r.user.id].email, db.users[r.user.id].role)
      && (browser.hasWindow ==> browser.storedUser == Some(Stringify(ToJson(r.user))) && Middleware.IsLoggedIn(browser.cookies))
    ensures r.Failed? ==>
      ((r.error == NotEncodable || r.error == InvalidCredentials)
       && browser.storedUser == old(browser.storedUser) && browser.cookies == old(browser.cookies))
  {
    var encoded := EncodePassword(password);
    if encoded.None? {
      return Failed(NotEncodable);
    }
    var id := db.SelectUserByCredentials(email, encoded.value, fail);
    if id.None? {
      return Failed(InvalidCredentials);
    }
    assert id.value in Credentials(db.users, email, encoded.value);
    var row := db.users[id.value];
    r := SignedIn(SessionUser(id.value, row.email, row.role));
    browser.SetSession(r.user);
  }
}
