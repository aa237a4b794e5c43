/**
  The admin dashboard (`app/admin/page.tsx`): the searchable, tabbed list of users,
  the statistics bar under it, crediting funds to a user and deleting a user with
  everything that refers to them.
*/
module AdminConsole {
  import opened Wrappers
  import opened Text
  import opened Seqs
  import opened Database

  /** A row of the users list: the user joined with their profile, if they have one. */
  datatype ListedUser = ListedUser(id: UserId, email: string, role: string, profile: Option<Profile>)

  /** The search box: the lower-cased query occurs in the lower-cased e-mail, in the
      account number or in the lower-cased role. */
  predicate MatchesQuery(u: ListedUser, query: string) {
    Contains(Lower(u.email), query)
    || (u.profile.Some? && Contains(u.profile.value.accountNumber, query))
    || Contains(Lower(u.role), query)
  }

  /** The tabs: "admin" and "user" keep one role each, any other tab keeps everyone. */
  predicate InTab(u: ListedUser, tab: string) {
    if tab == "admin" then u.role == "ADMIN"
    else if tab == "user" then u.role == "USER"
    else true
  }

  /** Whether a user survives both the search (when there is one) and the tab. */
  predicate Selected(u: ListedUser, searchQuery: string, tab: string) {
    (searchQuery == "" || MatchesQuery(u, Lower(searchQuery))) && InTab(u, tab)
  }

  /** The callbacks the page hands to `filter`. */
  function SearchTest(searchQuery: string): ListedUser -> bool {
    (u: ListedUser) => MatchesQuery(u, Lower(searchQuery))
  }

  function RoleTest(role: string): ListedUser -> bool {
    (u: ListedUser) => u.role == role
  }

  function OtherThan(id: UserId): ListedUser -> bool {
    (u: ListedUser) => u.id != id
  }

  function SelectedTest(searchQuery: string, tab: string): ListedUser -> bool {
    (u: ListedUser) => Selected(u, searchQuery, tab)
  }

  /** The filtering effect: the search filter, then the tab filter. */
  function Filtered(users: seq<ListedUser>, searchQuery: string, tab: string): (r: seq<ListedUser>)
    ensures |r| <= |users|
    ensures forall u :: u in r <==> u in users && Selected(u, searchQuery, tab)
  {
    var searched := if searchQuery != "" then Filter(users, SearchTest(searchQuery)) else users;
    if tab == "admin" then Filter(searched, RoleTest("ADMIN"))
    else if tab == "user" then Filter(searched, RoleTest("USER"))
    else searched
  }

  /** What the effect leaves on screen: nothing changes while the users list is empty. */
  function Displayed(users: seq<ListedUser>, shown: seq<ListedUser>, searchQuery: string, tab: string): seq<ListedUser> {
    if |users| == 0 then shown else Filtered(users, searchQuery, tab)
  }

  /** The two filters amount to one, so the list on screen keeps the users' order. */
  lemma FilteredInOrder(users: seq<ListedUser>, searchQuery: string, tab: string)
    ensures Filtered(users, searchQuery, tab) == Filter(users, SelectedTest(searchQuery, tab))
    ensures IsSubsequence(Filtered(users, searchQuery, tab), users)
  {
    var searched := if searchQuery != "" then Filter(users, SearchTest(searchQuery)) else users;
    var sel := SelectedTest(searchQuery, tab);
    if tab == "admin" || tab == "user" {
      var t := RoleTest(if tab == "admin" then "ADMIN" else "USER");
      if searchQuery != "" {
        FilterFilter(users, SearchTest(searchQuery), t, sel);
      } else {
        FilterSame(users, t, sel);
      }
    } else if searchQuery != "" {
      FilterSame(users, SearchTest(searchQuery), sel);
    } else {
      FilterAll(users, sel);
    }
    FilterIsSubsequence(users, sel);
  }

  /** The statistics bar's role counts. */
  function CountRole(users: seq<ListedUser>, role: string): nat {
    |Filter(users, RoleTest(role))|
  }

  /** The "Total Users" and "Admins" figures and the users of any other role make up the list. */
  lemma {:induction false} RoleCounts(users: seq<ListedUser>)
    ensures CountRole(users, "USER") + CountRole(users, "ADMIN")
            + |Filter(users, (u: ListedUser) => u.role != "USER" && u.role != "ADMIN")| == |users|
  {
    if users != [] {
      RoleCounts(users[1..]);
    }
  }

  /** A user's share of the "Total Balance": their balance, or 0 without a profile. */
  function Contribution(u: ListedUser): int {
    if u.profile.Some? then u.profile.value.balance else 0
  }

  /** The "Total Balance" figure (the sum is independent of the order it is added in). */
  function TotalBalance(users: seq<ListedUser>): int {
    if users == [] then 0 else Contribution(users[0]) + TotalBalance(users[1..])
  }

  /** Splitting the list by any test splits the total. */
  lemma {:induction false} TotalBalanceSplit(users: seq<ListedUser>, keep: ListedUser -> bool)
    ensures TotalBalance(users) == TotalBalance(Filter(users, keep)) + TotalBalance(Filter(users, (u: ListedUser) => !keep(u)))
  {
    if users != [] {
      TotalBalanceSplit(users[1..], keep);
    }
  }

  /** Crediting one listed user's profile raises the total by exactly the credit. */
  lemma {:induction false} TotalBalanceCredit(users: seq<ListedUser>, i: nat, amount: int)
    requires i < |users| && users[i].profile.Some?
    ensures TotalBalance(users[i := users[i].(profile := Some(users[i].profile.value.(balance := users[i].profile.value.balance + amount)))])
            == TotalBalance(users) + amount
  {
    var p := users[i].profile.value;
    var credited := users[i := users[i].(profile := Some(p.(balance := p.balance + amount)))];
    if i > 0 {
      TotalBalanceCredit(users[1..], i - 1, amount);
      assert credited[1..] == users[1..][i - 1 := users[i].(profile := Some(p.(balance := p.balance + amount)))];
    } else {
      assert credited[1..] == users[1..];
    }
  }

  datatype AddFundsOutcome =
    | MissingAmount       // "Please enter an amount"
    | NotAValidAmount     // "Please enter a valid amount"
    | ProfileReadFailed   // the balance could not be read (or there is no profile)
    | UpdateFailed        // the new balance was not written
    | FundsAdded          // the deposit record may still have failed to insert

  /** The store side of `handleDeleteUser`: the user's beneficiary rows, transactions,
      profile and user row, in that order. Failing to delete the first two is ignored;
      failing to delete the profile or the user row stops there. */
  method DeleteAccount(db: Store, id: UserId, linksFail: bool, transactionsFail: bool, profileFails: bool, userFails: bool)
    returns (ok: bool)
    modifies db`beneficiaries, db`transactions, db`profiles, db`users, db`log
    ensures ok <==> !profileFails && !userFails
    ensures db.beneficiaries == if linksFail then old(db.beneficiaries) else KeepLinks(old(db.beneficiaries), id)
    ensures db.transactions == if transactionsFail then old(db.transactions) else KeepTransactions(old(db.transactions), id)
    ensures db.profiles == if profileFails then old(db.profiles) else old(db.profiles) - {id}
    ensures db.users == if ok then old(db.users) - {id} else old(db.users)
    ensures db.log == old(db.log)
      + [Access(Beneficiaries, Delete), Access(Transactions, Delete), Access(Profiles, Delete)]
      + (if profileFails then [] else [Access(Users, Delete)])
  {
    var _ := db.DeleteLinksOf(id, linksFail);
    var _ := db.DeleteTransactionsOf(id, transactionsFail);
    ok := db.DeleteProfile(id, profileFails);
    if !ok {
      return;
    }
    ok := db.DeleteUser(id, userFails);
  }

  /** The page's state: the users as loaded, the list on screen, the user picked for a
      deposit and the amount field. */
  class Console {
    const adminId: UserId
    var users: seq<ListedUser>
    var filteredUsers: seq<ListedUser>
    var selected: Option<ListedUser>
    var amountText: string

    constructor(adminId: UserId, users: seq<ListedUser>)
      ensures this.adminId == adminId && this.users == users && filteredUsers == users
      ensures selected == None && amountText == ""
    {
      this.adminId := adminId;
      this.users := users;
      filteredUsers := users;
      selected := None;
      amountText := "";
    }

    /** Credits the amount field, read by `parse` (`Number.parseFloat`), to the selected
        user: reads the balance, writes balance + amount, then records an "Admin deposit"
        from the admin, ignoring whether that record was stored. */
    method HandleAddFunds(db: Store, parse: string -> Amount, readFails: bool, updateFails: bool, insertFails: bool)
      returns (o: AddFundsOutcome)
      modifies this`selected, this`amountText, db`profiles, db`transactions, db`log
      ensures o == MissingAmount <==> old(selected).None? || old(amountText) == ""
      ensures o == NotAValidAmount <==> old(selected).Some? && old(amountText) != "" && InvalidAmount(parse(old(amountText)))
      ensures o == ProfileReadFailed <==>
        (old(selected).Some? && old(amountText) != "" && !InvalidAmount(parse(old(amountText)))
         && (readFails || old(selected).value.id !in old(db.profiles)))
      ensures o == FundsAdded <==>
        (old(selected).Some? && old(amountText) != "" && !InvalidAmount(parse(old(amountText)))
         && !readFails && old(selected).value.id in old(db.profiles) && !updateFails)
      ensures o == MissingAmount || o == NotAValidAmount ==> db.log == old(db.log)
      ensures o == ProfileReadFailed ==> db.log == old(db.log) + [Access(Profiles, Select)]
      ensures o == UpdateFailed ==> db.log == old(db.log) + [Access(Profiles, Select), Access(Profiles, Update)]
      ensures o == FundsAdded ==>
        db.log == old(db.log) + [Access(Profiles, Select), Access(Profiles, Update), Access(Transactions, Insert)]
      ensures o != FundsAdded ==> db.profiles == old(db.profiles) && db.transactions == old(db.transactions)
      ensures o != FundsAdded ==> selected == old(selected) && amountText == old(amountText)
      ensures o == FundsAdded ==>
        var id := old(selected).value.id;
        && id in old(db.profiles)
        && db.profiles == old(db.profiles)[id := old(db.profiles)[id].(balance := old(db.profiles)[id].balance + parse(old(amountText)).cents)]
        && Total(db.profiles) == Total(old(db.profiles)) + parse(old(amountText)).cents
        && db.transactions == old(db.transactions)
             + (if insertFails then [] else [TxRecord(adminId, id, parse(old(amountText)).cents, Some("Admin deposit"))])
        && selected == None && amountText == ""
      ensures AllNonNegative(old(db.profiles)) ==> AllNonNegative(db.profiles)
    {
      if selected.None? || amountText == "" {
        return MissingAmount;
      }
      var amount := parse(amountText);
      if InvalidAmount(amount) {
        return NotAValidAmount;
      }
      var id := selected.value.id;
      var p := db.SelectProfile(id, readFails);
      if p.None? {
        return ProfileReadFailed;
      }
      var ok := db.UpdateBalance(id, p.value.balance + amount.cents, updateFails);
      if !ok {
        return UpdateFailed;
      }
      TotalUpdate(old(db.profiles), id, old(db.profiles)[id].(balance := p.value.balance + amount.cents));
      var _ := db.InsertTransaction(TxRecord(adminId, id, amount.cents, Some("Admin deposit")), insertFails);
      amountText := "";
      selected := None;
      o := FundsAdded;
    }

    /** Deletes a user: their beneficiary links and transactions (errors ignored), then
        their profile and their user row (an error stops the deletion); on success both
        lists drop the user and keep their order. */
    method HandleDeleteUser(db: Store, target: ListedUser,
                            linksFail: bool, transactionsFail: bool, profileFails: bool, userFails: bool)
      returns (ok: bool)
      modifies this`users, this`filteredUsers,
               db`beneficiaries, db`transactions, db`profiles, db`users, db`log
      ensures ok <==> !profileFails && !userFails
      ensures db.beneficiaries == if linksFail then old(db.beneficiaries) else KeepLinks(old(db.beneficiaries), target.id)
      ensures db.transactions == if transactionsFail then old(db.transactions) else KeepTransactions(old(db.transactions), target.id)
      ensures db.profiles == if profileFails then old(db.profiles) else old(db.profiles) - {target.id}
      ensures db.users == if ok then old(db.users) - {target.id} else old(db.users)
      ensures db.log == old(db.log)
        + [Access(Beneficiaries, Delete), Access(Transactions, Delete), Access(Profiles, Delete)]
        + (if profileFails then [] else [Access(Users, Delete)])
      ensures ok ==>
        (users == Filter(old(users), OtherThan(target.id))
         && filteredUsers == Filter(old(filteredUsers), OtherThan(target.id)))
      ensures !ok ==> users == old(users) && filteredUsers == old(filteredUsers)
    {
      ok := DeleteAccount(db, target.id, linksFail, transactionsFail, profileFails, userFails);
      if ok {
        users := Filter(users, OtherThan(target.id));
        filteredUsers := Filter(filteredUsers, OtherThan(target.id));
      }
    }
  }

  /** After a deletion the list on screen is still the filter of the loaded users:
      dropping the user from both lists commutes with the search and the tab. */
  lemma DeleteKeepsListsConsistent(users: seq<ListedUser>, id: UserId, searchQuery: string, tab: string)
    ensures Filter(Filtered(users, searchQuery, tab), OtherThan(id))
            == Filtered(Filter(users, OtherThan(id)), searchQuery, tab)
  {
    var sel := SelectedTest(searchQuery, tab);
    var other := OtherThan(id);
    var both := (x: ListedUser) => other(x) && sel(x);
    calc {
      Filter(Filtered(users, searchQuery, tab), other);
      { FilteredInOrder(users, searchQuery, tab); }
      Filter(Filter(users, sel), other);
      { FilterFilter(users, sel, other, both); }
      Filter(users, both);
      { FilterFilter(users, other, sel, both); }
      Filter(Filter(users, other), sel);
      { FilteredInOrder(Filter(users, other), searchQuery, tab); }
      Filtered(Filter(users, other), searchQuery, tab);
    }
  }

  /** A deletion changes `users`, so the filter effect runs again on the two lists the
      deletion left. Whether users remain (the effect filters afresh) or none do (it
      returns early), it leaves on screen exactly the list the deletion computed. */
  lemma EffectAfterDeleteIsStable(users: seq<ListedUser>, prev: seq<ListedUser>, id: UserId, searchQuery: string, tab: string)
    ensures var shown := Filter(Displayed(users, prev, searchQuery, tab), OtherThan(id));
      Displayed(Filter(users, OtherThan(id)), shown, searchQuery, tab) == shown
  {
    if |Filter(users, OtherThan(id))| != 0 {
      assert users != [];
      DeleteKeepsListsConsistent(users, id, searchQuery, tab);
    }
  }
}
