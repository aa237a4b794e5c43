/**
  The dashboard (`app/dashboard/page.tsx`): loads the signed-in user's profile and
  recent transactions, chooses what to render, and gates the links that need a
  verified e-mail.

  The page's `user` (from the auth context) is the `user` argument of `LoadData`. Rows
  are `TransactionList.RowOf`, the same derivation the transaction list uses.
*/
module Dashboard {
  import opened Wrappers
  import opened Seqs
  import opened Database
  import opened TransactionList
  import AuthService
  import TokenService

  /** What the page reads of the auth context's user. A session record has no
      `email_verified` field, which reads as not verified. */
  datatype PageUser = PageUser(id: UserId, emailVerified: bool)

  function FromSession(u: AuthService.SessionUser): PageUser {
    PageUser(u.id, false)
  }

  function InvolvesTest(uid: UserId): TxRecord -> bool {
    (t: TxRecord) => Involves(t, uid)
  }

  function Reverse<T>(s: seq<T>): (r: seq<T>)
    ensures |r| == |s| && forall i :: 0 <= i < |s| ==> r[i] == s[|s| - 1 - i]
  {
    if s == [] then [] else [s[|s| - 1]] + Reverse(s[..|s| - 1])
  }

  /** `.limit(n)`. */
  function Take<T(==)>(s: seq<T>, n: nat): (r: seq<T>)
    ensures |r| <= n && IsPrefix(r, s)
  {
    if |s| <= n then s else s[..n]
  }

  predicate IsPrefix<T(==)>(r: seq<T>, s: seq<T>) {
    |r| <= |s| && s[..|r|] == r
  }

  /** The query `or(sender_id.eq.uid, recipient_id.eq.uid).order(created_at desc).limit(n)`
      over a table kept in insertion order: the newest `n` transactions involving `uid`,
      newest first. */
  function Newest(txs: seq<TxRecord>, uid: UserId, n: nat): (r: seq<TxRecord>)
    ensures |r| <= n
    ensures forall i :: 0 <= i < |r| ==> Involves(r[i], uid) && r[i] in txs
    decreases |txs|
  {
    if txs == [] || n == 0 then []
    else
      var last, older := txs[|txs| - 1], txs[..|txs| - 1];
      if Involves(last, uid) then [last] + Newest(older, uid, n - 1) else Newest(older, uid, n)
  }

  lemma ReverseSnoc<T>(s: seq<T>, x: T)
    ensures Reverse(s + [x]) == [x] + Reverse(s)
  {
    assert (s + [x])[..|s|] == s;
  }

  lemma TakeCons<T>(x: T, s: seq<T>, n: nat)
    requires n > 0
    ensures Take([x] + s, n) == [x] + Take(s, n - 1)
  {
    if |s| > n - 1 {
      assert ([x] + s)[..n] == [x] + s[..n - 1];
    }
  }

  lemma LastSplit<T>(s: seq<T>)
    requires s != []
    ensures s == s[..|s| - 1] + [s[|s| - 1]]
  {
  }

  /** The user's transactions of a table that grew by one record. */
  lemma FilterSnoc(older: seq<TxRecord>, last: TxRecord, uid: UserId)
    ensures Filter(older + [last], InvolvesTest(uid))
         == Filter(older, InvolvesTest(uid)) + if Involves(last, uid) then [last] else []
  {
    var keep := InvolvesTest(uid);
    FilterAppend(older, [last], keep);
    assert Filter([last], keep) == if Involves(last, uid) then [last] else [];
  }

  /** The inductive step of `NewestIsFirstOfReversed` when the newest row is the user's. */
  lemma NewestKeptStep(txs: seq<TxRecord>, uid: UserId, n: nat)
    requires txs != [] && n != 0 && Involves(txs[|txs| - 1], uid)
    requires Newest(txs[..|txs| - 1], uid, n - 1) == Take(Reverse(Filter(txs[..|txs| - 1], InvolvesTest(uid))), n - 1)
    ensures Newest(txs, uid, n) == Take(Reverse(Filter(txs, InvolvesTest(uid))), n)
  {
    var last, older := txs[|txs| - 1], txs[..|txs| - 1];
    var f := Filter(older, InvolvesTest(uid));
    LastSplit(txs);
    FilterSnoc(older, last, uid);
    calc {
      Newest(txs, uid, n);
      [last] + Newest(older, uid, n - 1);
      [last] + Take(Reverse(f), n - 1);
      { TakeCons(last, Reverse(f), n); }
      Take([last] + Reverse(f), n);
      { ReverseSnoc(f, last); }
      Take(Reverse(f + [last]), n);
    }
  }

  /** The inductive step of `NewestIsFirstOfReversed` when the newest row is not the user's. */
  lemma NewestSkippedStep(txs: seq<TxRecord>, uid: UserId, n: nat)
    requires txs != [] && n != 0 && !Involves(txs[|txs| - 1], uid)
    requires Newest(txs[..|txs| - 1], uid, n) == Take(Reverse(Filter(txs[..|txs| - 1], InvolvesTest(uid))), n)
    ensures Newest(txs, uid, n) == Take(Reverse(Filter(txs, InvolvesTest(uid))), n)
  {
    var last, older := txs[|txs| - 1], txs[..|txs| - 1];
    var f := Filter(older, InvolvesTest(uid));
    assert Filter(txs, InvolvesTest(uid)) == f by {
      LastSplit(txs);
      FilterSnoc(older, last, uid);
      assert f + [] == f;
    }
    calc {
      Newest(txs, uid, n);
      Newest(older, uid, n);
      Take(Reverse(f), n);
    }
  }

  /** `Newest` is the first `n` of the user's transactions in reverse table order. */
  lemma {:induction false} NewestIsFirstOfReversed(txs: seq<TxRecord>, uid: UserId, n: nat)
    ensures Newest(txs, uid, n) == Take(Reverse(Filter(txs, InvolvesTest(uid))), n)
    decreases |txs|
  {
    if txs != [] && n != 0 {
      var older := txs[..|txs| - 1];
      if Involves(txs[|txs| - 1], uid) {
        NewestIsFirstOfReversed(older, uid, n - 1);
        NewestKeptStep(txs, uid, n);
      } else {
        NewestIsFirstOfReversed(older, uid, n);
        NewestSkippedStep(txs, uid, n);
      }
    }
  }

  /** A transaction just recorded for the user heads the recent list. */
  lemma NewestHeadsRecent(txs: seq<TxRecord>, t: TxRecord, uid: UserId, n: nat)
    requires Involves(t, uid) && n > 0
    ensures Newest(txs + [t], uid, n) == [t] + Newest(txs, uid, n - 1)
  {
    assert (txs + [t])[..|txs|] == txs;
  }

  /** The joined `account_number` of a profile id. */
  function AccountOf(profiles: map<UserId, Profile>, id: UserId): (r: Option<string>)
    ensures r.Some? <==> id in profiles
  {
    if id in profiles then Some(profiles[id].accountNumber) else None
  }

  /** The selected rows with their `sender` and `recipient` profiles joined. */
  function Joined(profiles: map<UserId, Profile>, txs: seq<TxRecord>): (r: seq<ListedTx>)
    ensures |r| == |txs|
    ensures forall i :: 0 <= i < |txs| ==>
      r[i] == ListedTx(txs[i], AccountOf(profiles, txs[i].senderId), AccountOf(profiles, txs[i].recipientId))
  {
    seq(|txs|, i requires 0 <= i < |txs| =>
      ListedTx(txs[i], AccountOf(profiles, txs[i].senderId), AccountOf(profiles, txs[i].recipientId)))
  }

  const LoadError := "Failed to load dashboard data"

  /** What the page renders, in the order it decides it. */
  datatype Screen = Spinner | ErrorBox(message: string) | NoProfile | Main

  function ScreenOf(loading: bool, refreshing: bool, error: Option<string>, profile: Option<Profile>): (s: Screen)
    ensures s.Spinner? <==> loading && !refreshing
    ensures s.ErrorBox? <==> !(loading && !refreshing) && error.Some? && error.value != ""
    ensures s.ErrorBox? ==> s.message == error.value
    ensures s.NoProfile? <==> !(loading && !refreshing) && (error.None? || error.value == "") && profile.None?
    ensures s.Main? ==> profile.Some?
  {
    if loading && !refreshing then Spinner
    else if error.Some? && error.value != "" then ErrorBox(error.value)
    else if profile.None? then NoProfile
    else Main
  }

  /** The "Send Money" and "Beneficiaries" links: their page for a verified user, `#` otherwise. */
  function LinkHref(user: Option<PageUser>, target: string): (href: string)
    requires target != "#"
    ensures href != "#" <==> user.Some? && user.value.emailVerified
    ensures href != "#" ==> href == target
  {
    if user.Some? && user.value.emailVerified then target else "#"
  }

  /** Right after signing in, the page user is the session record, so both links stay
      disabled until the user object is replaced by a full row. */
  lemma SessionUserLinksDisabled(u: AuthService.SessionUser)
    ensures LinkHref(Some(FromSession(u)), "/send-money") == "#"
    ensures LinkHref(Some(FromSession(u)), "/beneficiaries") == "#"
  {
  }

  /** As written: a signed-in user who follows a valid verification link has their row
      marked verified, yet the page user is still the session record, so both links stay
      disabled. */
  method VerifiedSessionUserBlocked(db: Store, u: AuthService.SessionUser, token: Token, now: int)
    returns (verified: Option<UserId>)
    requires u.id in db.users
    modifies db`users, db`verificationTokens, db`resetTokens, db`log
    ensures verified == TokenService.Owner(old(db.verificationTokens), token, now)
    ensures verified == Some(u.id) ==>
      && u.id in db.users && db.users[u.id].emailVerified
      && LinkHref(Some(FromSession(u)), "/send-money") == "#"
      && LinkHref(Some(FromSession(u)), "/beneficiaries") == "#"
  {
    verified := TokenService.VerifyEmailToken(db, token, now, false, false, false);
    SessionUserLinksDisabled(u);
  }

  /** The gate read from the stored `users` row instead of the session record. */
  function FromRow(users: map<UserId, UserRow>, id: UserId): (p: Option<PageUser>)
    ensures p.Some? <==> id in users
    ensures p.Some? ==> p.value.id == id && p.value.emailVerified == users[id].emailVerified
  {
    if id in users then Some(PageUser(id, users[id].emailVerified)) else None
  }

  /** Read from the stored row, a link opens exactly for a stored, verified user. */
  lemma StoredGateIsVerification(users: map<UserId, UserRow>, id: UserId, target: string)
    requires target != "#"
    ensures LinkHref(FromRow(users, id), target) == target <==> id in users && users[id].emailVerified
  {
  }

  /** Intended: with the gate read from the stored row, following a valid verification
      link opens both links for the user it verified. */
  method VerifiedUserLinksEnabled(db: Store, u: AuthService.SessionUser, token: Token, now: int)
    returns (verified: Option<UserId>)
    requires u.id in db.users
    modifies db`users, db`verificationTokens, db`resetTokens, db`log
    ensures verified == TokenService.Owner(old(db.verificationTokens), token, now)
    ensures verified == Some(u.id) ==>
      && LinkHref(FromRow(db.users, u.id), "/send-money") == "/send-money"
      && LinkHref(FromRow(db.users, u.id), "/beneficiaries") == "/beneficiaries"
  {
    verified := TokenService.VerifyEmailToken(db, token, now, false, false, false);
  }

  /** The "Recent Transactions" section: the empty card, or one row per transaction. */
  function RecentView(txs: seq<ListedTx>, uid: UserId): (v: View)
    ensures v.NoTransactions? <==> txs == []
    ensures !v.InvalidData?
    ensures v.Rows? ==> v.rows == RowsOf(txs, uid)
  {
    if txs == [] then NoTransactions else Rows(RowsOf(txs, uid))
  }

  /** When every transaction has both parties, the dashboard shows what the transaction
      list component would. */
  lemma RecentViewMatchesList(txs: seq<ListedTx>, uid: UserId)
    requires forall i :: 0 <= i < |txs| ==> !Missing(txs[i])
    ensures RecentView(txs, uid) == Render(Some(txs), uid)
  {
  }

  class DashboardPage {
    var profile: Option<Profile>
    var transactions: seq<ListedTx>
    var loading: bool
    var error: Option<string>
    var refreshing: bool

    constructor ()
      ensures profile.None? && transactions == [] && loading && error.None? && !refreshing
    {
      profile, transactions, loading, error, refreshing := None, [], true, None, false;
    }

    function Screen(): Screen
      reads this
    {
      ScreenOf(loading, refreshing, error, profile)
    }

    /** `loadData`: nothing without a user; otherwise the profile, then the five newest
        transactions involving the user. A failure sets the error and keeps what was
        already loaded. */
    method LoadData(db: Store, user: Option<PageUser>, profileFails: bool, txFails: bool)
      modifies this, db`log
      ensures user.None? ==> unchanged(this) && db.log == old(db.log)
      ensures user.Some? ==> !loading && !refreshing
      ensures user.Some? && (profileFails || user.value.id !in db.profiles) ==>
        && db.log == old(db.log) + [Access(Profiles, Select)]
        && error == Some(LoadError) && profile == old(profile) && transactions == old(transactions)
      ensures user.Some? && !profileFails && user.value.id in db.profiles ==>
        && db.log == old(db.log) + [Access(Profiles, Select), Access(Transactions, Select)]
        && profile == Some(db.profiles[user.value.id])
        && (txFails ==> error == Some(LoadError) && transactions == old(transactions))
        && (!txFails ==> error.None? && transactions == Joined(db.profiles, Newest(db.transactions, user.value.id, 5)))
    {
      if user.None? {
        return;
      }
      loading := true;
      var p := db.SelectProfile(user.value.id, profileFails);
      if p.None? {
        error := Some(LoadError);
      } else {
        profile := p;
        var rows := db.SelectTransactions(txFails);
        if rows.None? {
          error := Some(LoadError);
        } else {
          transactions := Joined(db.profiles, Newest(rows.value, user.value.id, 5));
          error := None;
        }
      }
      loading := false;
      refreshing := false;
    }

    /** `handleRefresh`: marks the page refreshing and reloads. Without a user `loadData`
        returns before its `finally`, so the page stays marked refreshing. */
    method HandleRefresh(db: Store, user: Option<PageUser>, profileFails: bool, txFails: bool)
      modifies this, db`log
      ensures user.None? ==> refreshing && db.log == old(db.log)
      ensures user.None? ==> profile == old(profile) && transactions == old(transactions)
                             && loading == old(loading) && error == old(error)
      ensures user.Some? ==> !loading && !refreshing
      ensures user.Some? && !profileFails && user.value.id in db.profiles && !txFails ==>
        && Screen() == Main
        && transactions == Joined(db.profiles, Newest(db.transactions, user.value.id, 5))
    {
      refreshing := true;
      LoadData(db, user, profileFails, txFails);
    }
  }
}
