/**
  The token life-cycle (`lib/token-service.ts`): e-mail verification tokens (valid
  for 24 hours, consumed when used) and password-reset tokens (valid for one hour,
  consumed only when the password is actually reset).

  `uuidv4()` is the `token` argument of the creating methods, `new Date()` is the
  `now` argument (milliseconds), and every store error is a `...Fails` flag.
*/
module TokenService {
  import opened Wrappers
  import opened Database
  import Base64

  const HOUR: int := 60 * 60 * 1000
  const DAY: int := 24 * HOUR

  /** The owner of `t` if it is in the table and not expired. The test is the source's
      strict `expires_at < now`, so a token is still good at the very millisecond it expires. */
  function Owner(tokens: map<Token, TokenRow>, t: Token, now: int): (r: Option<UserId>)
    ensures r.Some? <==> t in tokens && now <= tokens[t].expiresAt
    ensures r.Some? ==> r.value == tokens[t].userId
  {
    if t !in tokens || tokens[t].expiresAt < now then None else Some(tokens[t].userId)
  }

  /** A token table after a user's tokens are replaced by a single new one. */
  function Reissue(tokens: map<Token, TokenRow>, t: Token, row: TokenRow): (r: map<Token, TokenRow>)
    requires t !in tokens - TokensOf(tokens, row.userId)
    ensures TokensOf(r, row.userId) == {t} && r[t] == row
    ensures forall s :: s in tokens && tokens[s].userId != row.userId ==> s in r && r[s] == tokens[s]
    ensures forall s :: s in r && s != t ==> s in tokens && tokens[s].userId != row.userId
  {
    var rest := tokens - TokensOf(tokens, row.userId);
    var r := rest[t := row];
    assert forall s :: s in r && r[s].userId == row.userId ==> s == t;
    r
  }

  /** `createVerificationToken`: deletes the user's verification tokens (an error there is
      ignored), then inserts a fresh one expiring a day from now; `None` is the thrown error. */
  method CreateVerificationToken(db: Store, userId: UserId, token: Token, now: int, deleteFails: bool, insertFails: bool)
    returns (r: Option<Token>)
    modifies db`verificationTokens, db`resetTokens, db`log
    ensures db.log == old(db.log) + [Access(VerificationTokens, Delete), Access(VerificationTokens, Insert)]
    ensures db.resetTokens == old(db.resetTokens)
    ensures var cleared := if deleteFails then old(db.verificationTokens)
                           else old(db.verificationTokens) - TokensOf(old(db.verificationTokens), userId);
            && (r.Some? <==> !insertFails && token !in cleared)
            && db.verificationTokens == if r.Some? then cleared[token := TokenRow(userId, now + DAY)] else cleared
    ensures r.Some? ==> r.value == token && db.verificationTokens[token] == TokenRow(userId, now + DAY)
    ensures r.Some? ==> Owner(db.verificationTokens, token, now + DAY) == Some(userId)
                        && Owner(db.verificationTokens, token, now + DAY + 1).None?
    ensures r.Some? && !deleteFails ==>
      db.verificationTokens == Reissue(old(db.verificationTokens), token, TokenRow(userId, now + DAY))
  {
    var _ := db.DeleteTokensOf(Verification, userId, deleteFails);
    var ok := db.InsertToken(Verification, token, TokenRow(userId, now + DAY), insertFails);
    r := if ok then Some(token) else None;
  }

  /** `verifyEmailToken`: a known, unexpired token marks its user verified, is deleted
      (an error there is ignored) and yields the user id; every failure yields `None`. */
  method VerifyEmailToken(db: Store, token: Token, now: int, readFails: bool, updateFails: bool, deleteFails: bool)
    returns (r: Option<UserId>)
    modifies db`users, db`verificationTokens, db`resetTokens, db`log
    ensures db.resetTokens == old(db.resetTokens)
    ensures var owner := if readFails then None else Owner(old(db.verificationTokens), token, now);
            r == if owner.Some? && !updateFails then owner else None
    ensures r.None? ==> db.users == old(db.users) && db.verificationTokens == old(db.verificationTokens)
    ensures r.None? && (readFails || Owner(old(db.verificationTokens), token, now).None?) ==>
      db.log == old(db.log) + [Access(VerificationTokens, Select)]
    ensures r.None? && !readFails && Owner(old(db.verificationTokens), token, now).Some? ==>
      db.log == old(db.log) + [Access(VerificationTokens, Select), Access(Users, Update)]
    ensures r.Some? ==>
      && db.log == old(db.log) + [Access(VerificationTokens, Select), Access(Users, Update), Access(VerificationTokens, Delete)]
      && db.users == (if r.value in old(db.users) then old(db.users)[r.value := old(db.users)[r.value].(emailVerified := true)]
                      else old(db.users))
      && db.verificationTokens == if deleteFails then old(db.verificationTokens) else old(db.verificationTokens) - {token}
  {
    var row := db.SelectToken(Verification, token, readFails);
    if row.None? || row.value.expiresAt < now {
      return None;
    }
    var ok := db.UpdateUser(row.value.userId, MarkVerified, updateFails);
    if !ok {
      return None;
    }
    var _ := db.DeleteToken(Verification, token, deleteFails);
    r := Some(row.value.userId);
  }

  /** A verification token works once: after it has verified its user and been deleted,
      presenting it again yields `None`, however the second call's store calls go. */
  method VerifyEmailTokenTwice(db: Store, token: Token, now: int, later: int,
                               deleteFails: bool, readFails2: bool, updateFails2: bool, deleteFails2: bool)
    returns (first: Option<UserId>, second: Option<UserId>)
    modifies db`users, db`verificationTokens, db`resetTokens, db`log
    ensures first == Owner(old(db.verificationTokens), token, now)
    ensures first.Some? && !deleteFails ==> second.None?
  {
    first := VerifyEmailToken(db, token, now, false, false, deleteFails);
    second := VerifyEmailToken(db, token, later, readFails2, updateFails2, deleteFails2);
  }

  /** `createPasswordResetToken`: for the one user with this e-mail, replaces their reset
      tokens with a fresh one expiring an hour from now; an unknown e-mail changes nothing. */
  method CreatePasswordResetToken(db: Store, email: string, token: Token, now: int,
                                  readFails: bool, deleteFails: bool, insertFails: bool)
    returns (r: Option<Token>)
    modifies db`verificationTokens, db`resetTokens, db`log
    ensures db.verificationTokens == old(db.verificationTokens)
    ensures readFails || |WithEmail(old(db.users), email)| != 1 ==>
      r.None? && db.resetTokens == old(db.resetTokens) && db.log == old(db.log) + [Access(Users, Select)]
    ensures forall uid :: !readFails && WithEmail(old(db.users), email) == {uid} ==>
      var cleared := if deleteFails then old(db.resetTokens) else old(db.resetTokens) - TokensOf(old(db.resetTokens), uid);
      && db.log == old(db.log) + [Access(Users, Select), Access(ResetTokens, Delete), Access(ResetTokens, Insert)]
      && (r.Some? <==> !insertFails && token !in cleared)
      && db.resetTokens == if r.Some? then cleared[token := TokenRow(uid, now + HOUR)] else cleared
    ensures r.Some? ==>
      && r.value == token && token in db.resetTokens
      && WithEmail(old(db.users), email) == {db.resetTokens[token].userId}
      && db.resetTokens[token].expiresAt == now + HOUR
      && Owner(db.resetTokens, token, now + HOUR) == Some(db.resetTokens[token].userId)
      && Owner(db.resetTokens, token, now + HOUR + 1).None?
      && (!deleteFails ==>
            && token !in old(db.resetTokens) - TokensOf(old(db.resetTokens), db.resetTokens[token].userId)
            && db.resetTokens == Reissue(old(db.resetTokens), token, db.resetTokens[token]))
  {
    var uid := db.SelectUserByEmail(email, readFails);
    if uid.None? {
      return None;
    }
    var _ := db.DeleteTokensOf(Reset, uid.value, deleteFails);
    var ok := db.InsertToken(Reset, token, TokenRow(uid.value, now + HOUR), insertFails);
    r := if ok then Some(token) else None;
  }

  /** `verifyPasswordResetToken`: reads only; the token is not consumed. */
  method VerifyPasswordResetToken(db: Store, token: Token, now: int, readFails: bool) returns (r: Option<UserId>)
    modifies db`log
    ensures db.log == old(db.log) + [Access(ResetTokens, Select)]
    ensures r == if readFails then None else Owner(db.resetTokens, token, now)
  {
    var row := db.SelectToken(Reset, token, readFails);
    if row.None? || row.value.expiresAt < now {
      return None;
    }
    r := Some(row.value.userId);
  }

  /** Checking a reset token twice gives the same answer both times. */
  method VerifyPasswordResetTokenTwice(db: Store, token: Token, now: int) returns (first: Option<UserId>, second: Option<UserId>)
    modifies db`log
    ensures first == second == Owner(db.resetTokens, token, now)
  {
    first := VerifyPasswordResetToken(db, token, now, false);
    second := VerifyPasswordResetToken(db, token, now, false);
  }

  /** `resetPassword`: with a valid token, stores `btoa(newPassword)` as the owner's
      password and deletes the token (an error there is ignored). An invalid or expired
      token, a password `btoa` rejects, or a failed update yield `false` and change no row. */
  method ResetPassword(db: Store, token: Token, newPassword: string, now: int,
                       readFails: bool, updateFails: bool, deleteFails: bool)
    returns (ok: bool)
    modifies db`users, db`verificationTokens, db`resetTokens, db`log
    ensures db.verificationTokens == old(db.verificationTokens)
    ensures var owner := if readFails then None else Owner(old(db.resetTokens), token, now);
            ok <==> owner.Some? && Base64.Btoa(newPassword).Some? && !updateFails
    ensures !ok ==> db.users == old(db.users) && db.resetTokens == old(db.resetTokens)
    ensures ok ==>
      var uid := old(db.resetTokens)[token].userId;
      && db.log == old(db.log) + [Access(ResetTokens, Select), Access(Users, Update), Access(ResetTokens, Delete)]
      && db.users == (if uid in old(db.users)
                      then old(db.users)[uid := old(db.users)[uid].(password := Base64.Btoa(newPassword).value)]
                      else old(db.users))
      && db.resetTokens == if deleteFails then old(db.resetTokens) else old(db.resetTokens) - {token}
    ensures ok && old(db.resetTokens)[token].userId in db.users ==>
      Base64.Decode(db.users[old(db.resetTokens)[token].userId].password) == newPassword
  {
    var uid := VerifyPasswordResetToken(db, token, now, readFails);
    if uid.None? {
      return false;
    }
    var encoded := Base64.Btoa(newPassword);
    if encoded.None? {
      return false;
    }
    ok := db.UpdateUser(uid.value, SetPassword(encoded.value), updateFails);
    if !ok {
      return;
    }
    var _ := db.DeleteToken(Reset, token, deleteFails);
  }
}
