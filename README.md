# Trustfund core, modelled in Dafny

Trustfund is a small Next.js banking demo. Users sign up, receive a ten-digit account
number with a zero balance, and send money to other accounts. An administrator can credit
accounts and delete users. E-mail changes are confirmed through a mailed link, and
passwords are reset through a one-hour token. All state lives in six store tables:

- `profiles`
- `transactions`
- `beneficiaries`
- `users`
- `email_verification_tokens`
- `password_reset_tokens`

This project models the handlers that change those tables, together with the decisions
the pages and route guards take from them, and proves what each handler promises.

- **Store.** `Database.Store` is a class with one field per table. Every store call the
  pages make (a `select … single()`, an `insert`, an `update … eq`, a `delete … or`) is a
  method of it:
  - it may fail, through a flag chosen by the caller;
  - it appends the table and operation to a ghost `log`.

  So "no store access", "the record is written before the balances move" and "nothing
  else changes" are stated on the log and on the other fields.
- **Peer transfer** (`SendMoney`). The chain of checks comes first: logged in, valid
  amount, sender found, enough money, recipient found, not oneself. Then come three writes
  in source order, and last the best-effort beneficiary insert.
  - Each way of ending is an `Outcome`. `DebitFailed` is the run whose record was inserted
    but whose money did not move.
  - Conservation of the balance total is a lemma over the profile map.
  - No balance becomes negative.
- **Admin console** (`AdminConsole`). It covers:
  - the search and tab filter as one order-preserving filter;
  - the statistics bar;
  - crediting a user, which raises the total by exactly the amount;
  - the deletion cascade.
- **Tokens** (`TokenService`):
  - issuing one token per user;
  - the strict expiry test, under which a token is still good at its expiry instant;
  - verification tokens are consumed on use;
  - reset tokens are consumed only by the reset.
- **Sign-up, sign-in and the browser session** (`AuthService`). `btoa` is modelled
  concretely (`Base64`). The proofs show that the encoding round-trips and that sign-in
  therefore needs the same password.
- **The profile-update endpoint and the settings page** (`UpdateUserRoute`,
  `SettingsPage`). The page's second `POST` is the endpoint's handler with a different
  rule for deciding that the e-mail changed.
- **Which cookie names the user** (`SessionCookie`). The endpoint looks for a `user_id`
  cookie that nothing sets; the module proves that a signed-in browser is refused, and
  models the intended read of the id from the `user` cookie.
- **The two route guards** (`Middleware`, `AdminMiddleware`).
- **The display derivations**: the transaction list, the dashboard's recent list, render
  precedence and link gating, and the reset-password page.

Parameters stand in for what the code cannot see:

- `JSON.parse` is a `string -> Option<Json>` argument. `ReadsBack` says it reads back
  what `JSON.stringify` (modelled concretely) wrote.
- `decodeURIComponent` is a `string -> Option<string>` argument.
- `new Date()` is an integer `now` in milliseconds.
- `uuidv4()` is a `token` or `newId` argument.
- `Math.random()` is a `real` in [0, 1).
- Sending an e-mail is a returned (address, token) pair, and its failure a flag.

## Model

| member | source | states |
|---|---|---|
| SendMoney.Validate | app/send-money/page.tsx:33-78 | the checks in source order; a run that passes them has a user, a positive amount, a sender whose balance covers it, exactly one profile with the recipient account, and that profile is not the sender's |
| SendMoney.Check | app/send-money/page.tsx:33-78 | the checks as store calls: the verdict is `Validate` of the profiles; no user or a bad amount reads nothing; a rejection writes nothing |
| SendMoney.Move | app/send-money/page.tsx:81-113 | the record is inserted first and a failed insert moves no money; a failed debit leaves the record and all balances; a failed credit leaves the record and the sender debited; success debits and credits exactly the amount; non-negative balances stay non-negative |
| SendMoney.TransferKeepsTotal | app/send-money/page.tsx:95-113 | debiting one account and crediting another by the same amount keeps the sum of all balances |
| SendMoney.DebitAloneLosesAmount | app/send-money/page.tsx:95-113 | a debit whose credit fails takes exactly the amount out of the sum of balances |
| SendMoney.Bookkeeping | app/send-money/page.tsx:115-128 | the beneficiary step starts with a lookup and touches only the beneficiaries table |
| SendMoney.Remember | app/send-money/page.tsx:115-128 | inserts the (sender, recipient) pair unless exactly one row for it is found; an existing pair is not added twice; a table with no duplicate pairs keeps none |
| SendMoney.Complete | app/send-money/page.tsx:81-128 | the writes and then, only after full success, the beneficiary bookkeeping |
| SendMoney.HandleSubmit | app/send-money/page.tsx:30-146 | every rejection is the first failing check and changes no table; the store calls in order, by outcome; after the checks the writes as in `Move` and `Remember`; no balance goes negative; `Sent` only for the logged-in sender |
| AdminConsole.Filtered | app/admin/page.tsx:114-138 | a user is listed iff they are loaded and match the search (e-mail and role case-insensitively, account number as typed) and the tab |
| AdminConsole.FilteredInOrder | app/admin/page.tsx:114-138 | the two filters are one filter, so the listed users keep the loaded order |
| AdminConsole.RoleCounts | app/admin/page.tsx:471-478 | the USER count, the ADMIN count and the users of any other role add up to the list |
| AdminConsole.TotalBalanceSplit | app/admin/page.tsx:479-483 | the total balance (a missing profile counts 0) splits over any partition of the users |
| AdminConsole.TotalBalanceCredit | app/admin/page.tsx:479-483 | crediting one listed profile raises the total balance by exactly the credit |
| AdminConsole.Console.HandleAddFunds | app/admin/page.tsx:151-209 | no selection, an empty amount field or a field that parses to an invalid amount changes nothing and touches no table; otherwise read, update, insert in order; the deposit succeeds exactly when the amount is valid, the profile is read and the balance update goes through; success sets exactly that balance to old + amount, raises the total by the amount, records an "Admin deposit" from the admin, and clears the form |
| AdminConsole.DeleteAccount | app/admin/page.tsx:218-252 | deletes every beneficiary row and transaction involving the user (failures ignored), then the profile, then the user row only if the profile went |
| AdminConsole.Console.HandleDeleteUser | app/admin/page.tsx:211-272 | the cascade of `DeleteAccount`; on success both lists lose exactly that user and keep their order; on failure they are unchanged |
| AdminConsole.DeleteKeepsListsConsistent | app/admin/page.tsx:254-256 | removing the user from the filtered list gives the filter of the loaded list without the user |
| AdminConsole.EffectAfterDeleteIsStable | app/admin/page.tsx:114-138 | the filter effect, re-run on the lists a deletion left (filtering afresh, or returning early once no user is left), shows exactly the list the deletion computed |
| Database.KeepTransactions | app/admin/page.tsx:229-232 | the remaining transactions are exactly those in which the user is neither sender nor recipient |
| Database.KeepLinks | app/admin/page.tsx:219-222 | the remaining beneficiary rows are exactly those in which the user is neither owner nor beneficiary |
| TokenService.Owner | lib/token-service.ts:40-55 | a token names its user iff it is in the table and `now` is not after its expiry |
| TokenService.Reissue | lib/token-service.ts:12-20 | after the user's tokens are deleted and one inserted, the user has exactly that token; other users' tokens are untouched |
| TokenService.CreateVerificationToken | lib/token-service.ts:6-32 | delete then insert; on success the user has exactly one verification token, expiring 24 hours from now, accepted at that very millisecond and refused one millisecond later; reset tokens untouched |
| TokenService.VerifyEmailToken | lib/token-service.ts:35-73 | null for an unknown or expired token or a failed update, with users and tokens unchanged; otherwise marks the owner verified, deletes the token and returns the owner |
| TokenService.VerifyEmailTokenTwice | lib/token-service.ts:57-68 | a verification token that verified its user and was deleted is refused the second time |
| TokenService.CreatePasswordResetToken | lib/token-service.ts:76-111 | an unknown e-mail changes no token; otherwise the table is exactly that user's old tokens removed (kept when the delete fails) plus, iff the insert succeeds with a fresh token, one token for that user expiring in an hour, accepted at that millisecond and refused one later |
| TokenService.VerifyPasswordResetToken | lib/token-service.ts:114-141 | reads only, and names the owner of a known unexpired token |
| TokenService.VerifyPasswordResetTokenTwice | lib/token-service.ts:114-141 | checking a reset token twice gives the same answer, since it is not consumed |
| TokenService.ResetPassword | lib/token-service.ts:144-174 | true iff the token is valid, `btoa` accepts the password and the update succeeds; false changes no user and no token; true stores the encoding, which decodes to the new password, and deletes the token |
| Base64.Btoa | lib/auth-service.ts:42-44 | defined exactly for byte-sized characters, a multiple of four long, and decodes back to the input |
| Base64.DecodeEncode | lib/auth-service.ts:42-44 | `atob(btoa(s)) == s` |
| Base64.EncodedLength | lib/auth-service.ts:42-44 | every started group of three characters takes four |
| Base64.BtoaInjective | lib/auth-service.ts:42-44 | two passwords encode alike only when they are equal |
| AuthService.SessionOf | lib/auth-service.ts:19-32 | a session is returned only for stored, non-empty text that parses to something other than null |
| AuthService.StoredSessionReadsBack | lib/auth-service.ts:11-32 | what `setSession` stored reads back as the same record |
| AuthService.Browser.SetSession | lib/auth-service.ts:11-17 | in a browser, stores the record's JSON and sets the `user` cookie, which the route guard then sees as signed in; `getSession` returns the record; on the server nothing changes |
| AuthService.Browser.ClearSession | lib/auth-service.ts:34-39 | removes the stored record and the cookie; `getSession` then returns null and the guard sees no sign-in |
| AuthService.Browser.SignOut | lib/auth-service.ts:143-145 | as `ClearSession` |
| AuthService.AccountNumber | lib/auth-service.ts:85 | ten decimal digits, the first not 0 |
| AuthService.FreshCredentials | lib/auth-service.ts:64-73 | after inserting a user for an unused e-mail, exactly the new user has those credentials |
| AuthService.SignInNeedsSamePassword | lib/auth-service.ts:114-121 | a user found by e-mail and encoded password was found with their own password |
| AuthService.CreateAccount | lib/auth-service.ts:68-98 | inserts the user row, then the profile; when the profile fails the user row is deleted again, so no user is left without a profile unless that delete fails too |
| AuthService.SignUp | lib/auth-service.ts:47-109 | each error by its cause, in source order, as an iff (`btoa` failing is the only cause of `NotEncodable`); a taken e-mail creates nothing; success inserts a USER row with the encoded password and a zero-balance profile with a ten-digit account number, and sets the session to {id, email, role} |
| AuthService.SignIn | lib/auth-service.ts:111-141 | succeeds iff exactly one user has the e-mail and encoded password, then sets the session to that user's {id, email, role}; a failure leaves the session alone |
| Database.Store.MaybeUserByEmail | lib/auth-service.ts:53-62 | no row is not an error, one row is found, and more than one row is an error |
| Database.Store.InsertUser | lib/auth-service.ts:69-78 | the insert succeeds iff the id is new and the e-mail is unused; e-mails stay unique |
| UpdateUserRoute.RawCookieValue | app/api/update-user/route.ts:5-12 | no value for a missing or empty header; otherwise a value iff some trimmed cookie starts with `name=` |
| UpdateUserRoute.CookieValueAfterName | app/api/update-user/route.ts:10-12 | the value is the first matching cookie's text between `name=` and the next `=` |
| UpdateUserRoute.GetCookieValue | app/api/update-user/route.ts:5-13 | no cookie, the decoded value of the first match, or the decoder's exception |
| UpdateUserRoute.UpdatesEffect | app/api/update-user/route.ts:65-76 | the update always sets the four detail columns, never the country, and sets the e-mail with `email_verified` false only when it changed |
| UpdateUserRoute.EmailViolationMessage | app/api/update-user/route.ts:90-98 | a unique violation on the e-mail is reported as "This email is already in use" |
| Database.Store.UpdateUserReturning | app/api/update-user/route.ts:81-86 | the update is refused with a 23505 error when the new e-mail is another user's, and with an error when no row matches; e-mails stay unique |
| UpdateUserRoute.UpdateKnownUser | app/api/update-user/route.ts:47-121 | the fetch error; the update error mapping; the row after a successful update; a mail only when the e-mail changed; and a 500 after an applied update when mailing fails |
| UpdateUserRoute.HandleUpdate | app/api/update-user/route.ts:15-129 | in order: an unreadable body gives 500, a missing field gives 400 before authentication, no usable `user_id` gives 401, and these touch no table; then as `UpdateKnownUser` |
| UpdateUserRoute.Post | app/api/update-user/route.ts:15-129 | the e-mail change is decided by the request's `isEmailChanged` flag |
| UpdateUserRoute.MailedLinkCannotVerify | app/api/update-user/route.ts:107-118 | after an applied e-mail change (reply 200, link mailed to the new address with the user id as its token), following that link in a store where no verification token equals a user id yields no user, leaves the token table as it was and leaves the new address unverified |
| UpdateUserRoute.IssueVerificationLink | app/api/update-user/route.ts:107-118 | the intended link: the token mailed to the new address verifies that user, now and for the next day |
| SessionCookie.UserCookieHasNoUserId | app/api/update-user/route.ts:5-13 | in a header whose one cookie is `user=` followed by the session JSON, the handler's lookup finds no `user_id` cookie |
| SessionCookie.SessionUpdateUnauthenticated | app/api/update-user/route.ts:36-43 | a browser signed in through `setSession`, with no other cookie, gets 401 "User not authenticated" for every well-formed update, and no table changes |
| SessionCookie.SessionIdRead | lib/auth-service.ts:11-17 | the intended read: an id is found only as the string `id` of the parsed `user` cookie, and no `user` cookie means no user |
| SessionCookie.UserCookieReadsBack | lib/auth-service.ts:15 | a `user` cookie whose text survives the trip yields the `id` of the record it holds |
| SessionCookie.SessionIdReadsBack | lib/auth-service.ts:11-17 | the intended read finds the signed-in user's id in the header `setSession` leads to |
| SessionCookie.HandleSessionUpdate | app/api/update-user/route.ts:15-129 | the endpoint with the intended read: the same checks in the same order, 401 exactly when no user id is read, and the update applied to the user read |
| SessionCookie.SessionUpdateApplies | app/api/update-user/route.ts:36-76 | a browser signed in as a known user through `setSession` gets no 401, and the update is applied to that user's row |
| SettingsPage.IsEmailChanged | app/settings/page.tsx:132-134 | only an e-mail edit counts, and it counts iff the trimmed, lower-cased value differs from the current e-mail |
| SettingsPage.NormalizeIdempotent | app/settings/page.tsx:145 | trimming and lower-casing twice is doing it once |
| SettingsPage.CaseOnlyEditIsNoChange | app/settings/page.tsx:132-134 | an edit in case or surrounding white space only is not a change |
| SettingsPage.SentEmailSameDecision | app/settings/page.tsx:132-145 | deciding on the sent (normalised) e-mail gives the same answer as on the typed one |
| SettingsPage.RequestBody | app/settings/page.tsx:139-146 | carries `isEmailChanged`; an edited e-mail is sent trimmed and lower-cased |
| SettingsPage.RequestBodyFields | app/settings/page.tsx:139-146 | the edited field carries the new value and every other field the form's value |
| SettingsPage.OtherFieldKeepsEmail | app/settings/page.tsx:139-146 | an edit of any other field leaves the stored e-mail and its verification alone |
| SettingsPage.FailureMessage | app/settings/page.tsx:152-154 | a non-empty message: the endpoint's error when it has one |
| SettingsPage.Settings.HandleUpdate | app/settings/page.tsx:125-173 | posts `RequestBody`; a failure shows its message and keeps the user and the editor; a success replaces the user, closes the editor and asks for verification iff the e-mail changed |
| SettingsPage.ComparedPatchWritesEmail | app/settings/page.tsx:358-369 | under the comparison with the stored e-mail the row ends with the requested e-mail, and verification is reset iff it differed |
| SettingsPage.Post | app/settings/page.tsx:311-415 | the e-mail and `email_verified` are written, and the mail sent, only when the submitted e-mail differs from the stored one |
| Middleware.Decide | middleware.ts:4-28 | /login for a signed-out visitor on a member page (a prefix test), /dashboard for a signed-in one on "/" or "/login", through otherwise, each as an iff |
| Middleware.RouteClassesDisjoint | middleware.ts:10-16 | no path is both a member page and an auth route |
| Middleware.NoRedirectLoop | middleware.ts:19-27 | following a redirect never leads to another |
| Middleware.PrefixGuardsLookalikes | middleware.ts:10-13 | "/dashboard-1" is guarded like "/dashboard" |
| AdminMiddleware.Decide | app/admin/middleware.ts:4-27 | /admin/login always passes; no cookie or an unreadable one goes to /admin/login; a role other than "ADMIN" goes to /admin/access-denied; "ADMIN" passes |
| AdminMiddleware.AdminCookiePasses | app/admin/middleware.ts:17-26 | a cookie holding an admin record lets every admin page through |
| AdminMiddleware.OtherRolesDenied | app/admin/middleware.ts:17-21 | any other role, or none, is sent to the access-denied page |
| TransactionList.RowOf | components/transaction-list.tsx:40-66 | outgoing iff sent by the viewer; signed "-" and captioned with the recipient's account when outgoing, "+" and the sender's otherwise; the amount unchanged |
| TransactionList.RowsOf | components/transaction-list.tsx:40 | one row per transaction, in input order |
| TransactionList.AnyMissing | components/transaction-list.tsx:22 | true iff some transaction lacks its sender or recipient |
| TransactionList.Render | components/transaction-list.tsx:11-74 | "No transactions yet" iff the list is missing or empty; the warning card iff some transaction lacks a party; otherwise the rows |
| TransactionList.RowsOfAppend | components/transaction-list.tsx:40 | the rows of a longer list extend the rows of its prefix |
| TransactionList.OppositeViews | components/transaction-list.tsx:41-43 | the two parties see a transfer in opposite directions, each with the other's account |
| Dashboard.Newest | app/dashboard/page.tsx:40-51 | at most n of the table's transactions, each involving the user |
| Dashboard.NewestIsFirstOfReversed | app/dashboard/page.tsx:49-51 | exactly the first n of the user's transactions, newest first |
| Dashboard.NewestHeadsRecent | app/dashboard/page.tsx:49-51 | a transaction just recorded for the user heads the recent list |
| Dashboard.Joined | app/dashboard/page.tsx:42-48 | each row carries the account numbers of its sender's and recipient's profiles, absent when there is none |
| Dashboard.ScreenOf | app/dashboard/page.tsx:77-103 | render precedence: loading (unless refreshing), then the error, then a missing profile, then the page |
| Dashboard.LinkHref | app/dashboard/page.tsx:145-172 | the link leads to its page iff the user's e-mail is verified, and to "#" otherwise |
| Dashboard.SessionUserLinksDisabled | app/dashboard/page.tsx:145-172 | with the session record as the user, which has no `email_verified`, both links are disabled |
| Dashboard.VerifiedSessionUserBlocked | app/dashboard/page.tsx:145-172 | a signed-in user who follows a valid verification link gets their row marked verified, yet with the session record as the page user both links stay "#" |
| Dashboard.FromRow | app/dashboard/page.tsx:145-172 | the intended gate input: the stored row's `email_verified` for the user, none for an unknown id |
| Dashboard.StoredGateIsVerification | app/dashboard/page.tsx:145-172 | read from the stored row, a link opens iff the user is stored and verified |
| Dashboard.VerifiedUserLinksEnabled | app/dashboard/page.tsx:145-172 | with the gate read from the stored row, the user a valid verification link verifies gets both links |
| Dashboard.RecentView | app/dashboard/page.tsx:177-196 | the empty card iff there are no transactions, otherwise one row per transaction as in the transaction list |
| Dashboard.RecentViewMatchesList | app/dashboard/page.tsx:191-196 | when every transaction has both parties the dashboard shows what the transaction list would |
| Dashboard.DashboardPage.LoadData | app/dashboard/page.tsx:21-66 | no user: nothing happens; otherwise the profile, then the five newest of the user's transactions; a failure sets the error and keeps what was loaded |
| Dashboard.DashboardPage.HandleRefresh | app/dashboard/page.tsx:72-75 | marks the page refreshing and reloads; a full load shows the main page |
| ResetPasswordPage.FormError | app/reset-password/page.tsx:63-73 | no error iff the password has at least 6 characters and matches the confirmation; length is checked first |
| ResetPasswordPage.LengthCheckedFirst | app/reset-password/page.tsx:63-73 | a short password is reported as short even when the confirmation differs |
| ResetPasswordPage.CardOf | app/reset-password/page.tsx:107-133 | the card shown, in the page's order: verifying, the link error, success, the form |
| ResetPasswordPage.ResetPage.CheckToken | app/reset-password/page.tsx:31-52 | no token: the link error, no store call, `validToken` unchanged; otherwise `validToken` is set iff the token names a user, and the expired-link error otherwise |
| ResetPasswordPage.ResetPage.HandleSubmit | app/reset-password/page.tsx:57-97 | a form error or a missing token calls no store; success iff `resetPassword` answers true; a newly set success implies a valid token and a valid form |

## Left out

- Concurrency: two requests that read and then write the same balance can interleave in the real system. The model runs one request at a time.
- Floating point: amounts and balances are whole cents (`int`). `Number.parseFloat` is an `Amount`, either `NaN` or a value.
- Sending e-mail (`lib/email-service.ts`, `app/api/send-email/route.ts`) is left out. The model returns the (address, token) the mail would carry, and a flag says whether sending failed.
- `JSON.parse`, `decodeURIComponent`, `uuidv4`, `Math.random` and the clock are parameters, as described above.
- Each middleware's `matcher` configuration is left out. The guards decide for any path they are given.
- React rendering, `formatCurrency`, `formatDate`, toasts and the redirect timers are left out. Only the decisions the pages take are modelled.
- AdminConsole.Console.HandleAddFunds: does not model the `loadUsers` reload that follows a deposit, since it only re-reads the tables.
- The admin page's `checkAdmin` effect, `loadUsers`, refresh and logout are left out: they read state and do not change tables.
- Dashboard.Newest: `created_at` is a transaction's position in the table, so "newest first" is reverse insertion order, and ties cannot occur.
- Dashboard.DashboardPage.LoadData: the `transactionData || []` fallback for a successful query with no data is not modelled. A successful query always returns rows.
- SettingsPage.IsEmailChanged: lower-cases ASCII letters only, while `toLowerCase` maps all of Unicode. AdminConsole.Filtered has the same limit.
- SettingsPage.Normalize: `trim` removes the ASCII white space, U+00A0, U+FEFF, U+2028 and U+2029. It does not remove the other Unicode space separators.
- SettingsPage.Settings.HandleUpdate: the country select sends an option object. The model sends its label as a string.
- SettingsPage.Post: the page file uses `NextResponse`, `getSupabase`, `sendVerificationEmail` and `getCookieValue` without importing them. The model gives them the meaning they have in the update endpoint.
- UpdateUserRoute.HandleUpdate: request fields are strings, and a missing one is "". JavaScript's other falsy values (a number 0, `null`) are not distinguished from "".
- ResetPasswordPage.FormError: counts characters, while `password.length` counts UTF-16 code units. A character outside the Basic Multilingual Plane counts once here and twice in the page.
- SendMoney.Remember: `beneficiaries` is a sequence of rows, since the table has no unique key. A failed lookup can insert a duplicate pair, and the contract says so.
- SendMoney.Validate: a sender with no profile and a failing read are one outcome, because the page reports both alike.
- Base64.Btoa: `btoa` is not modelled on characters above U+00FF. It throws on them, and the model returns `None`.
- `getCurrentUser` is `Browser.GetSession`. `SessionFields` states that the session record's fields read back.
- SessionCookie.SessionUpdateApplies: only the header of a browser whose one cookie is the session's is modelled (`CookieHeader`); headers with several cookies are not built from the cookie map.
- SessionCookie.SessionIdReadsBack: holds for session records whose JSON has no ';' and no '=' and which `decodeURIComponent` leaves unchanged, since `setSession` writes the JSON unencoded and the read stops at the next '='.
- The endpoint's own `HandleUpdate` and `Post`, and the settings page, keep the source's `user_id` lookup; only `SessionCookie.HandleSessionUpdate` reads the session cookie.
- The dashboard's `LinkHref` keeps the source's gate on the page user; only `Dashboard.VerifiedUserLinksEnabled` reads the stored row. The one way the page user gets `email_verified` in the source, a settings save replacing it with the returned row (app/settings/page.tsx:156), is not carried over to the dashboard model.

## Findings

| source | as written | input that shows it | evidently intended | confidence | as-written member | corrected member |
|---|---|---|---|---|---|---|
| app/api/update-user/route.ts:107-118 (and its copy at app/settings/page.tsx:395-405) | after an e-mail change, `sendVerificationEmail(email, userId)` mails a link whose `token` is the user's id; `verifyEmailToken` looks that up in `email_verification_tokens`, where tokens are fresh UUIDs | a user whose e-mail change is applied while no verification token equals a user id: following the mailed link right away yields `None` and `email_verified` stays false for the new address | call `createVerificationToken(userId)` and mail the token it returns | not executed | UpdateUserRoute.MailedLinkCannotVerify | UpdateUserRoute.IssueVerificationLink |
| app/api/update-user/route.ts:36-43 (and its copy at app/settings/page.tsx:331-337) | the handler takes the user id from a `user_id` cookie; the only session cookie, written by `setSession` at lib/auth-service.ts:15, is `user`, holding the `{ id, email, role }` JSON, and nothing writes `user_id` | a browser signed in through `setSession`, with no other cookie, posting a well-formed update: the reply is 401 "User not authenticated" | parse the `user` cookie's JSON and use its `id` | not executed | SessionCookie.SessionUpdateUnauthenticated | SessionCookie.SessionUpdateApplies |
| app/dashboard/page.tsx:145-172 | the links are gated on `user?.email_verified` of the auth context's user, which `getCurrentUser`, `signIn` and `signUp` set to the `{ id, email, role }` session record (context/auth-context.tsx:45-46, 70-71, 83-84); that record has no `email_verified` | a user who signs in and verifies the e-mail through a valid link: the row is marked verified, yet "Send Money" and "Beneficiaries" stay "#" and disabled | read `email_verified` from the user's stored `users` row | not executed | Dashboard.VerifiedSessionUserBlocked | Dashboard.VerifiedUserLinksEnabled |
