/**
  The reset-password page (`app/reset-password/page.tsx`): checks the link's token when
  it opens, then validates the two password fields before asking for the reset.

  The `token` query parameter is the page's `token` (`None` when absent). Both token
  calls catch their own errors and answer `null`/`false`, so the page shows "An error
  occurred" only for the error it throws itself when submitting without a token.
*/
module ResetPasswordPage {
  import opened Wrappers
  import opened Database
  import TokenService
  import Base64

  const MissingLink := "Invalid reset link. Please request a new password reset."
  const ExpiredLink := "Reset link is invalid or has expired. Please request a new password reset."
  const TooShort := "Password must be at least 6 characters long."
  const NoMatch := "Passwords do not match."
  const ResetFailed := "Failed to reset password. Please try again."
  const Unexpected := "An error occurred. Please try again later."

  /** `!token`: absent or empty. */
  predicate NoToken(token: Option<string>) {
    token.None? || token.value == ""
  }

  /** The form's own checks, in order: the length first, then the match. `None` lets the
      reset go ahead. */
  function FormError(password: string, confirm: string): (e: Option<string>)
    ensures e.None? <==> |password| >= 6 && password == confirm
    ensures |password| < 6 ==> e == Some(TooShort)
    ensures |password| >= 6 && password != confirm ==> e == Some(NoMatch)
  {
    if |password| < 6 then Some(TooShort)
    else if password != confirm then Some(NoMatch)
    else None
  }

  /** A short password is reported as short even when the confirmation differs. */
  lemma LengthCheckedFirst(password: string, confirm: string)
    requires |password| < 6 && password != confirm
    ensures FormError(password, confirm) == Some(TooShort)
  {
  }

  /** What the card shows, in the order the page decides it. */
  datatype Card = Verifying | LinkError(message: string) | Done | Form(alert: Option<string>)

  function CardOf(verifying: bool, error: Option<string>, validToken: bool, success: bool): (c: Card)
    ensures c.Verifying? <==> verifying
    ensures c.LinkError? <==> !verifying && error.Some? && error.value != "" && !validToken
    ensures c.Done? <==> !verifying && !(error.Some? && error.value != "" && !validToken) && success
    ensures c.Form? ==> validToken || error.None? || error.value == ""
  {
    if verifying then Verifying
    else if error.Some? && error.value != "" && !validToken then LinkError(error.value)
    else if success then Done
    else Form(if error.Some? && error.value != "" then error else None)
  }

  class ResetPage {
    const token: Option<string>
    var password: string
    var confirmPassword: string
    var loading: bool
    var verifying: bool
    var error: Option<string>
    var success: bool
    var validToken: bool

    constructor (token: Option<string>)
      ensures this.token == token && password == "" && confirmPassword == ""
      ensures !loading && verifying && error.None? && !success && !validToken
    {
      this.token := token;
      password, confirmPassword := "", "";
      loading, verifying, error, success, validToken := false, true, None, false, false;
    }

    function Shown(): Card
      reads this
    {
      CardOf(verifying, error, validToken, success)
    }

    /** `checkToken`: without a token, the link error and no store call; otherwise the
        token is valid exactly when `verifyPasswordResetToken` names a user. */
    method CheckToken(db: Store, now: int, readFails: bool)
      modifies this`verifying, this`error, this`validToken, db`log
      ensures !verifying
      ensures NoToken(token) ==> error == Some(MissingLink) && validToken == old(validToken) && db.log == old(db.log)
      ensures !NoToken(token) ==>
        && db.log == old(db.log) + [Access(ResetTokens, Select)]
        && var owner := if readFails then None else TokenService.Owner(db.resetTokens, token.value, now);
           && validToken == (owner.Some? || old(validToken))
           && (owner.Some? ==> error == old(error))
           && (owner.None? ==> error == Some(ExpiredLink) && validToken == old(validToken))
    {
      if NoToken(token) {
        verifying := false;
        error := Some(MissingLink);
        return;
      }
      var userId := TokenService.VerifyPasswordResetToken(db, token.value, now, readFails);
      if userId.Some? {
        validToken := true;
      } else {
        error := Some(ExpiredLink);
      }
      verifying := false;
    }

    /** `handleSubmit`: the form checks first (no store call when one fails), then
        `resetPassword`; success is set exactly when it answers `true`. A missing token
        is thrown and caught as the generic error. */
    method HandleSubmit(db: Store, now: int, readFails: bool, updateFails: bool, deleteFails: bool)
      modifies this`loading, this`error, this`success, db`users, db`verificationTokens, db`resetTokens, db`log
      ensures !loading
      ensures FormError(password, confirmPassword).Some? ==>
        && error == FormError(password, confirmPassword) && success == old(success)
        && db.log == old(db.log) && db.users == old(db.users) && db.resetTokens == old(db.resetTokens)
      ensures FormError(password, confirmPassword).None? && NoToken(token) ==>
        && error == Some(Unexpected) && success == old(success)
        && db.log == old(db.log) && db.users == old(db.users) && db.resetTokens == old(db.resetTokens)
      ensures FormError(password, confirmPassword).None? && !NoToken(token) ==>
        var owner := if readFails then None else TokenService.Owner(old(db.resetTokens), token.value, now);
        var reset := owner.Some? && Base64.Btoa(password).Some? && !updateFails;
        && (reset ==> success && error.None?)
        && (!reset ==> error == Some(ResetFailed) && success == old(success)
                       && db.users == old(db.users) && db.resetTokens == old(db.resetTokens))
      ensures success && !old(success) ==>
        && FormError(password, confirmPassword).None? && !NoToken(token)
        && !readFails && TokenService.Owner(old(db.resetTokens), token.value, now).Some?
    {
      loading := true;
      error := None;
      var formError := FormError(password, confirmPassword);
      if formError.Some? {
        error := formError;
        loading := false;
        return;
      }
      if NoToken(token) {
        error := Some(Unexpected);
        loading := false;
        return;
      }
      var result := TokenService.ResetPassword(db, token.value, password, now, readFails, updateFails, deleteFails);
      if result {
        success := true;
      } else {
        error := Some(ResetFailed);
      }
      loading := false;
    }
  }
}
