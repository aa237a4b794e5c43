/**
  The application's tables and the store calls made on them.

  Each table is a field of `Store`; each query-builder call the pages make
  (`select ... single()`, `insert`, `update ... eq`, `delete ... eq/or`) is one
  method that may fail (its `fail` argument is the store's error, chosen by the
  caller) and that appends an `Access` to the ghost `log`, so that the order
  in which a handler touches the tables can be stated.
*/
module Database {
  import opened Wrappers

  type UserId = string
  type Token = string

  /** What `Number.parseFloat` made of an amount field: not a number, or a value in cents. */
  datatype Amount = NaN | Num(cents: int)

  /** `isNaN(x) || x <= 0`, the test both amount forms apply. */
  predicate InvalidAmount(a: Amount) {
    a.NaN? || a.cents <= 0
  }

  /** A row of `profiles`; its id is the map key. Balances are whole cents. */
  datatype Profile = Profile(accountNumber: string, balance: int)

  /** A row of `transactions`. Its `created_at` is its position in the table. */
  datatype TxRecord = TxRecord(senderId: UserId, recipientId: UserId, amount: int, note: Option<string>)

  /** A row of `beneficiaries`: `userId` has sent money to `beneficiaryId`. */
  datatype Link = Link(userId: UserId, beneficiaryId: UserId)

  /** A row of `users`; its id is the map key. An unset text column is "". */
  datatype UserRow = UserRow(
    email: string, password: string, role: string, emailVerified: bool,
    username: string, firstName: string, lastName: string, phoneNumber: string, country: string)

  /** A row of `email_verification_tokens` or `password_reset_tokens`; the token is the key.
      Times are milliseconds. */
  datatype TokenRow = TokenRow(userId: UserId, expiresAt: int)

  datatype TokenKind = Verification | Reset

  /** The columns an `update` on `users` sets. */
  datatype UserPatch =
    | MarkVerified
    | SetPassword(encoded: string)
    | SetDetails(username: string, firstName: string, lastName: string, phoneNumber: string,
                 newEmail: Option<string>)

  function ApplyPatch(row: UserRow, patch: UserPatch): UserRow {
    match patch
    case MarkVerified => row.(emailVerified := true)
    case SetPassword(p) => row.(password := p)
    case SetDetails(u, f, l, ph, e) =>
      var r := row.(username := u, firstName := f, lastName := l, phoneNumber := ph);
      if e.Some? then r.(email := e.value, emailVerified := false) else r
  }

  /** The outcome of a `maybeSingle()` query. */
  datatype Lookup = LookupFailed | NoRow | OneRow(id: UserId)

  datatype Table = Profiles | Transactions | Beneficiaries | Users | VerificationTokens | ResetTokens
  datatype Op = Select | Insert | Update | Delete
  datatype Access = Access(table: Table, op: Op)

  function TokenTable(kind: TokenKind): Table {
    if kind == Verification then VerificationTokens else ResetTokens
  }

  /** The ids of the profiles that carry account number `acct`. */
  function WithAccount(profiles: map<UserId, Profile>, acct: string): set<UserId> {
    set id | id in profiles && profiles[id].accountNumber == acct
  }

  /** The ids of the users whose email is `email`. */
  function WithEmail(users: map<UserId, UserRow>, email: string): set<UserId> {
    set id | id in users && users[id].email == email
  }

  /** The tokens of a token table that belong to `uid`. */
  function TokensOf(tokens: map<Token, TokenRow>, uid: UserId): set<Token> {
    set t | t in tokens && tokens[t].userId == uid
  }

  /** How many rows of `links` are `l`. */
  function LinkCount(links: seq<Link>, l: Link): nat {
    if links == [] then 0 else (if links[0] == l then 1 else 0) + LinkCount(links[1..], l)
  }

  lemma {:induction false} LinkCountAppend(links: seq<Link>, x: Link, l: Link)
    ensures LinkCount(links + [x], l) == LinkCount(links, l) + (if x == l then 1 else 0)
  {
    if links != [] {
      assert (links + [x])[1..] == links[1..] + [x];
      LinkCountAppend(links[1..], x, l);
    }
  }

  /** Every balance is non-negative. */
  ghost predicate AllNonNegative(profiles: map<UserId, Profile>) {
    forall id :: id in profiles ==> profiles[id].balance >= 0
  }

  /** The sum of all balances. */
  ghost function Total(profiles: map<UserId, Profile>): int
    decreases |profiles|
  {
    if profiles == map[] then 0
    else
      var k :| k in profiles;
      profiles[k].balance + Total(profiles - {k})
  }

  /** The sum can be split at any account, not just the one `Total` happens to pick. */
  lemma {:induction false} TotalRemove(profiles: map<UserId, Profile>, k: UserId)
    requires k in profiles
    ensures Total(profiles) == profiles[k].balance + Total(profiles - {k})
    decreases |profiles|
  {
    var j :| j in profiles && Total(profiles) == profiles[j].balance + Total(profiles - {j});
    if j != k {
      var rest := profiles - {j};
      TotalRemove(rest, k);
      TotalRemove(profiles - {k}, j);
      assert rest - {k} == (profiles - {k}) - {j};
    }
  }

  /** Replacing one balance moves the sum by the difference. */
  lemma TotalUpdate(profiles: map<UserId, Profile>, k: UserId, p: Profile)
    requires k in profiles
    ensures Total(profiles[k := p]) == Total(profiles) - profiles[k].balance + p.balance
  {
    TotalRemove(profiles, k);
    TotalRemove(profiles[k := p], k);
    assert profiles[k := p] - {k} == profiles - {k};
  }

  /** A set of one element is that element alone. */
  lemma SingletonSet<T>(s: set<T>, x: T)
    requires x in s && |s| == 1
    ensures s == {x}
  {
    var rest := s - {x};
    assert s == rest + {x};
    assert |rest| == 0;
  }

  class Store {
    var profiles: map<UserId, Profile>
    var transactions: seq<TxRecord>
    var beneficiaries: seq<Link>
    var users: map<UserId, UserRow>
    var verificationTokens: map<Token, TokenRow>
    var resetTokens: map<Token, TokenRow>
    /** Every store call made so far, in order. */
    ghost var log: seq<Access>

    constructor ()
      ensures profiles == map[] && transactions == [] && beneficiaries == [] && users == map[]
      ensures verificationTokens == map[] && resetTokens == map[] && log == []
    {
      profiles, transactions, beneficiaries, users := map[], [], [], map[];
      verificationTokens, resetTokens := map[], map[];
      log := [];
    }

    function Tokens(kind: TokenKind): map<Token, TokenRow>
      reads this
    {
      if kind == Verification then verificationTokens else resetTokens
    }

    // ---- profiles ----

    /** `from("profiles").select().eq("id", id).single()`. */
    method SelectProfile(id: UserId, fail: bool) returns (p: Option<Profile>)
      modifies this`log
      ensures log == old(log) + [Access(Profiles, Select)]
      ensures p == if fail || id !in profiles then None else Some(profiles[id])
    {
      log := log + [Access(Profiles, Select)];
      p := if fail || id !in profiles then None else Some(profiles[id]);
    }

    /** `from("profiles").select().eq("account_number", acct).single()`: a row only when
        exactly one profile has that account number. */
    method SelectProfileByAccount(acct: string, fail: bool) returns (r: Option<(UserId, Profile)>)
      modifies this`log
      ensures log == old(log) + [Access(Profiles, Select)]
      ensures r.Some? <==> !fail && |WithAccount(profiles, acct)| == 1
      ensures r.Some? ==> WithAccount(profiles, acct) == {r.value.0} && r.value.1 == profiles[r.value.0]
    {
      log := log + [Access(Profiles, Select)];
      var ids := WithAccount(profiles, acct);
      if !fail && |ids| == 1 {
        var id :| id in ids;
        SingletonSet(ids, id);
        r := Some((id, profiles[id]));
      } else {
        r := None;
      }
    }

    /** `from("profiles").update({ balance: b }).eq("id", id)`: no matching row is not an error. */
    method UpdateBalance(id: UserId, b: int, fail: bool) returns (ok: bool)
      modifies this`profiles, this`log
      ensures log == old(log) + [Access(Profiles, Update)]
      ensures ok == !fail
      ensures profiles == if ok && id in old(profiles) then old(profiles)[id := old(profiles)[id].(balance := b)]
                          else old(profiles)
    {
      log := log + [Access(Profiles, Update)];
      ok := !fail;
      if ok && id in profiles {
        profiles := profiles[id := profiles[id].(balance := b)];
      }
    }

    /** `from("profiles").insert({ id, ... })`: the primary key must be new. */
    method InsertProfile(id: UserId, p: Profile, fail: bool) returns (ok: bool)
      modifies this`profiles, this`log
      ensures log == old(log) + [Access(Profiles, Insert)]
      ensures ok == (!fail && id !in old(profiles))
      ensures profiles == if ok then old(profiles)[id := p] else old(profiles)
    {
      log := log + [Access(Profiles, Insert)];
      ok := !fail && id !in profiles;
      if ok {
        profiles := profiles[id := p];
      }
    }

    /** `from("profiles").delete().eq("id", id)`. */
    method DeleteProfile(id: UserId, fail: bool) returns (ok: bool)
      modifies this`profiles, this`log
      ensures log == old(log) + [Access(Profiles, Delete)]
      ensures ok == !fail
      ensures profiles == if ok then old(profiles) - {id} else old(profiles)
    {
      log := log + [Access(Profiles, Delete)];
      ok := !fail;
      if ok {
        profiles := profiles - {id};
      }
    }

    // ---- transactions ----

    /** `from("transactions").insert(rec)`: appended, so it is the newest row. */
    method InsertTransaction(rec: TxRecord, fail: bool) returns (ok: bool)
      modifies this`transactions, this`log
      ensures log == old(log) + [Access(Transactions, Insert)]
      ensures ok == !fail
      ensures transactions == if ok then old(transactions) + [rec] else old(transactions)
    {
      log := log + [Access(Transactions, Insert)];
      ok := !fail;
      if ok {
        transactions := transactions + [rec];
      }
    }

    /** `from("transactions").select(...)`: the whole table, oldest first; the dashboard
        narrows, orders and limits it (`Dashboard.Newest`). */
    method SelectTransactions(fail: bool) returns (r: Option<seq<TxRecord>>)
      modifies this`log
      ensures log == old(log) + [Access(Transactions, Select)]
      ensures r == if fail then None else Some(transactions)
    {
      log := log + [Access(Transactions, Select)];
      r := if fail then None else Some(transactions);
    }

    /** `from("transactions").delete().or("sender_id.eq.id,recipient_id.eq.id")`. */
    method DeleteTransactionsOf(id: UserId, fail: bool) returns (ok: bool)
      modifies this`transactions, this`log
      ensures log == old(log) + [Access(Transactions, Delete)]
      ensures ok == !fail
      ensures ok ==> transactions == KeepTransactions(old(transactions), id)
      ensures !ok ==> transactions == old(transactions)
    {
      log := log + [Access(Transactions, Delete)];
      ok := !fail;
      if ok {
        transactions := KeepTransactions(transactions, id);
      }
    }

    // ---- beneficiaries ----

    /** `from("beneficiaries").select().eq("user_id", ..).eq("beneficiary_id", ..).maybeSingle()`:
        `data` is the row when exactly one matches, and null when none match, when
        several match (an error) or when the call fails. */
    method SelectLink(l: Link, fail: bool) returns (found: bool)
      modifies this`log
      ensures log == old(log) + [Access(Beneficiaries, Select)]
      ensures found <==> !fail && LinkCount(beneficiaries, l) == 1
    {
      log := log + [Access(Beneficiaries, Select)];
      found := !fail && LinkCount(beneficiaries, l) == 1;
    }

    /** `from("beneficiaries").insert(l)`: the table has no uniqueness constraint on the pair. */
    method InsertLink(l: Link, fail: bool) returns (ok: bool)
      modifies this`beneficiaries, this`log
      ensures log == old(log) + [Access(Beneficiaries, Insert)]
      ensures ok == !fail
      ensures beneficiaries == if ok then old(beneficiaries) + [l] else old(beneficiaries)
    {
      log := log + [Access(Beneficiaries, Insert)];
      ok := !fail;
      if ok {
        beneficiaries := beneficiaries + [l];
      }
    }

    /** `from("beneficiaries").delete().or("user_id.eq.id,beneficiary_id.eq.id")`. */
    method DeleteLinksOf(id: UserId, fail: bool) returns (ok: bool)
      modifies this`beneficiaries, this`log
      ensures log == old(log) + [Access(Beneficiaries, Delete)]
      ensures ok == !fail
      ensures ok ==> beneficiaries == KeepLinks(old(beneficiaries), id)
      ensures !ok ==> beneficiaries == old(beneficiaries)
    {
      log := log + [Access(Beneficiaries, Delete)];
      ok := !fail;
      if ok {
        beneficiaries := KeepLinks(beneficiaries, id);
      }
    }

    // ---- users ----

    /** `from("users").select().eq("id", id).single()`. */
    method SelectUser(id: UserId, fail: bool) returns (u: Option<UserRow>)
      modifies this`log
      ensures log == old(log) + [Access(Users, Select)]
      ensures u == if fail || id !in users then None else Some(users[id])
    {
      log := log + [Access(Users, Select)];
      u := if fail || id !in users then None else Some(users[id]);
    }

    /** `from("users").select().eq("email", email)` with `single()`: the id when exactly one
        user has that email. */
    method SelectUserByEmail(email: string, fail: bool) returns (r: Option<UserId>)
      modifies this`log
      ensures log == old(log) + [Access(Users, Select)]
      ensures r.Some? <==> !fail && |WithEmail(users, email)| == 1
      ensures r.Some? ==> WithEmail(users, email) == {r.value}
    {
      log := log + [Access(Users, Select)];
      var ids := WithEmail(users, email);
      if !fail && |ids| == 1 {
        var id :| id in ids;
        SingletonSet(ids, id);
        r := Some(id);
      } else {
        r := None;
      }
    }

    /** `from("users").select("*").eq("email", e).maybeSingle()`: no row is not an error,
        more than one is. */
    method MaybeUserByEmail(email: string, fail: bool) returns (r: Lookup)
      modifies this`log
      ensures log == old(log) + [Access(Users, Select)]
      ensures r == LookupFailed <==> fail || |WithEmail(users, email)| > 1
      ensures r == NoRow <==> !fail && WithEmail(users, email) == {}
      ensures r.OneRow? ==> !fail && WithEmail(users, email) == {r.id}
    {
      log := log + [Access(Users, Select)];
      var ids := WithEmail(users, email);
      if fail || |ids| > 1 {
        r := LookupFailed;
      } else if |ids| == 0 {
        r := NoRow;
      } else {
        var id :| id in ids;
        SingletonSet(ids, id);
        r := OneRow(id);
      }
    }

    /** `from("users").select().eq("email", e).eq("password", p).single()`. */
    method SelectUserByCredentials(email: string, encoded: string, fail: bool) returns (r: Option<UserId>)
      modifies this`log
      ensures log == old(log) + [Access(Users, Select)]
      ensures r.Some? <==> !fail && |Credentials(users, email, encoded)| == 1
      ensures r.Some? ==> Credentials(users, email, encoded) == {r.value}
    {
      log := log + [Access(Users, Select)];
      var ids := Credentials(users, email, encoded);
      if !fail && |ids| == 1 {
        var id :| id in ids;
        SingletonSet(ids, id);
        r := Some(id);
      } else {
        r := None;
      }
    }

    /** `from("users").insert(row)`: the id is the primary key and `email` is unique. */
    method InsertUser(id: UserId, row: UserRow, fail: bool) returns (ok: bool)
      modifies this`users, this`log
      ensures log == old(log) + [Access(Users, Insert)]
      ensures ok == (!fail && id !in old(users) && WithEmail(old(users), row.email) == {})
      ensures users == if ok then old(users)[id := row] else old(users)
      ensures UniqueEmails(old(users)) ==> UniqueEmails(users)
    {
      log := log + [Access(Users, Insert)];
      ok := !fail && id !in users && WithEmail(users, row.email) == {};
      if ok {
        ghost var before := users;
        users := users[id := row];
        forall a, b | a in users && b in users && a != b && UniqueEmails(before)
          ensures users[a].email != users[b].email
        {
          if a == id {
            assert b !in WithEmail(before, row.email);
          } else if b == id {
            assert a !in WithEmail(before, row.email);
          }
        }
      }
    }

    /** `from("users").update(patch).eq("id", id)`: no matching row is not an error. */
    method UpdateUser(id: UserId, patch: UserPatch, fail: bool) returns (ok: bool)
      modifies this`users, this`log
      ensures log == old(log) + [Access(Users, Update)]
      ensures ok == !fail
      ensures users == if ok && id in old(users) then old(users)[id := ApplyPatch(old(users)[id], patch)]
                       else old(users)
    {
      log := log + [Access(Users, Update)];
      ok := !fail;
      if ok && id in users {
        users := users[id := ApplyPatch(users[id], patch)];
      }
    }

    /** `from("users").update(patch).eq("id", id).select().single()`: the store's own
        error if it has one; otherwise a unique-key violation when the new e-mail belongs
        to another user, and an error when no row matched. */
    method UpdateUserReturning(id: UserId, patch: UserPatch, failure: Option<DbError>) returns (err: Option<DbError>)
      modifies this`users, this`log
      ensures log == old(log) + [Access(Users, Update)]
      ensures err == if failure.Some? then failure
                     else if EmailTaken(old(users), id, patch) then Some(EmailViolation(patch.newEmail.value))
                     else if id !in old(users) then Some(NoRowError)
                     else None
      ensures users == if err.None? then old(users)[id := ApplyPatch(old(users)[id], patch)] else old(users)
      ensures UniqueEmails(old(users)) ==> UniqueEmails(users)
    {
      log := log + [Access(Users, Update)];
      if failure.Some? {
        err := failure;
      } else if EmailTaken(users, id, patch) {
        err := Some(EmailViolation(patch.newEmail.value));
      } else if id !in users {
        err := Some(NoRowError);
      } else {
        if UniqueEmails(users) {
          UpdateKeepsEmailsUnique(users, id, patch);
        }
        users := users[id := ApplyPatch(users[id], patch)];
        err := None;
      }
    }

    /** `from("users").delete().eq("id", id)`. */
    method DeleteUser(id: UserId, fail: bool) returns (ok: bool)
      modifies this`users, this`log
      ensures log == old(log) + [Access(Users, Delete)]
      ensures ok == !fail
      ensures users == if ok then old(users) - {id} else old(users)
    {
      log := log + [Access(Users, Delete)];
      ok := !fail;
      if ok {
        users := users - {id};
      }
    }

    // ---- the two token tables ----

    /** `from(table).select("user_id, expires_at").eq("token", t).single()`. */
    method SelectToken(kind: TokenKind, t: Token, fail: bool) returns (r: Option<TokenRow>)
      modifies this`log
      ensures log == old(log) + [Access(TokenTable(kind), Select)]
      ensures r == if fail || t !in Tokens(kind) then None else Some(Tokens(kind)[t])
    {
      log := log + [Access(TokenTable(kind), Select)];
      var table := Tokens(kind);
      r := if fail || t !in table then None else Some(table[t]);
    }

    /** `from(table).insert({ user_id, token, expires_at })`: the token must be new. */
    method InsertToken(kind: TokenKind, t: Token, row: TokenRow, fail: bool) returns (ok: bool)
      modifies this`verificationTokens, this`resetTokens, this`log
      ensures log == old(log) + [Access(TokenTable(kind), Insert)]
      ensures ok == (!fail && t !in old(Tokens(kind)))
      ensures Tokens(kind) == if ok then old(Tokens(kind))[t := row] else old(Tokens(kind))
      ensures Tokens(Other(kind)) == old(Tokens(Other(kind)))
    {
      log := log + [Access(TokenTable(kind), Insert)];
      ok := !fail && t !in Tokens(kind);
      if ok {
        if kind == Verification {
          verificationTokens := verificationTokens[t := row];
        } else {
          resetTokens := resetTokens[t := row];
        }
      }
    }

    /** `from(table).delete().eq("user_id", uid)`. */
    method DeleteTokensOf(kind: TokenKind, uid: UserId, fail: bool) returns (ok: bool)
      modifies this`verificationTokens, this`resetTokens, this`log
      ensures log == old(log) + [Access(TokenTable(kind), Delete)]
      ensures ok == !fail
      ensures Tokens(kind) == if ok then old(Tokens(kind)) - TokensOf(old(Tokens(kind)), uid)
                              else old(Tokens(kind))
      ensures Tokens(Other(kind)) == old(Tokens(Other(kind)))
    {
      log := log + [Access(TokenTable(kind), Delete)];
      ok := !fail;
      if ok {
        if kind == Verification {
          verificationTokens := verificationTokens - TokensOf(verificationTokens, uid);
        } else {
          resetTokens := resetTokens - TokensOf(resetTokens, uid);
        }
      }
    }

    /** `from(table).delete().eq("token", t)`. */
    method DeleteToken(kind: TokenKind, t: Token, fail: bool) returns (ok: bool)
      modifies this`verificationTokens, this`resetTokens, this`log
      ensures log == old(log) + [Access(TokenTable(kind), Delete)]
      ensures ok == !fail
      ensures Tokens(kind) == if ok then old(Tokens(kind)) - {t} else old(Tokens(kind))
      ensures Tokens(Other(kind)) == old(Tokens(Other(kind)))
    {
      log := log + [Access(TokenTable(kind), Delete)];
      ok := !fail;
      if ok {
        if kind == Verification {
          verificationTokens := verificationTokens - {t};
        } else {
          resetTokens := resetTokens - {t};
        }
      }
    }
  }

  /** An error reported by the store: its code and its details text. */
  datatype DbError = DbError(code: string, details: string)

  /** What the store reports when a `users` update would duplicate an e-mail. */
  function EmailViolation(email: string): DbError {
    DbError("23505", "Key (email)=(" + email + ") already exists.")
  }

  /** What `.single()` reports when the update matched no row. */
  const NoRowError := DbError("PGRST116", "The result contains 0 rows")

  /** No two users share an e-mail (the column's unique constraint). */
  ghost predicate UniqueEmails(users: map<UserId, UserRow>) {
    forall a, b :: a in users && b in users && a != b ==> users[a].email != users[b].email
  }

  /** The patch would give `id` an e-mail another user already has. */
  predicate EmailTaken(users: map<UserId, UserRow>, id: UserId, patch: UserPatch) {
    patch.SetDetails? && patch.newEmail.Some?
    && exists other :: other in users && other != id && users[other].email == patch.newEmail.value
  }

  /** An update the unique constraint lets through keeps the e-mails unique. */
  lemma UpdateKeepsEmailsUnique(users: map<UserId, UserRow>, id: UserId, patch: UserPatch)
    requires UniqueEmails(users) && id in users && !EmailTaken(users, id, patch)
    ensures UniqueEmails(users[id := ApplyPatch(users[id], patch)])
  {
    var after := users[id := ApplyPatch(users[id], patch)];
    forall a, b | a in after && b in after && a != b
      ensures after[a].email != after[b].email
    {
      if a == id || b == id {
        var other := if a == id then b else a;
        assert after[other] == users[other];
      }
    }
  }

  function Other(kind: TokenKind): TokenKind {
    if kind == Verification then Reset else Verification
  }

  /** The ids of the users with this email and this stored password. */
  function Credentials(users: map<UserId, UserRow>, email: string, encoded: string): set<UserId> {
    set id | id in users && users[id].email == email && users[id].password == encoded
  }

  predicate Involves(rec: TxRecord, id: UserId) {
    rec.senderId == id || rec.recipientId == id
  }

  /** The transactions left after deleting those where `id` is sender or recipient. */
  function KeepTransactions(txs: seq<TxRecord>, id: UserId): (r: seq<TxRecord>)
    ensures forall i :: 0 <= i < |r| ==> !Involves(r[i], id)
    ensures forall x :: x in txs && !Involves(x, id) ==> x in r
    ensures forall x :: x in r ==> x in txs
  {
    if txs == [] then []
    else (if Involves(txs[0], id) then [] else [txs[0]]) + KeepTransactions(txs[1..], id)
  }

  predicate Touches(l: Link, id: UserId) {
    l.userId == id || l.beneficiaryId == id
  }

  /** The beneficiary rows left after deleting those where `id` is owner or beneficiary. */
  function KeepLinks(links: seq<Link>, id: UserId): (r: seq<Link>)
    ensures forall i :: 0 <= i < |r| ==> !Touches(r[i], id)
    ensures forall x :: x in links && !Touches(x, id) ==> x in r
    ensures forall x :: x in r ==> x in links
  {
    if links == [] then []
    else (if Touches(links[0], id) then [] else [links[0]]) + KeepLinks(links[1..], id)
  }
}
