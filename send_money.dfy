/**
  The peer transfer of the Send Money page (`handleSubmit`).

  A fixed chain of checks (logged in, valid amount, sender found, enough money,
  recipient found, not oneself) is followed by three writes in this order:
  the transaction record, the sender's debit and the recipient's credit, each
  computed from the balance read during the checks. A failed write stops the
  chain, so the writes that came before it stay. Last comes a best-effort
  "insert the beneficiary row if absent".
*/
module SendMoney {
  import opened Wrappers
  import opened Database

  /** What the page ends up showing. */
  datatype Outcome =
    | NotLoggedIn         // "You must be logged in to send money"
    | BadAmount           // "Please enter a valid amount"
    | SenderUnavailable   // "Could not retrieve your account information"
    | InsufficientBalance // "Insufficient balance"
    | RecipientNotFound   // "Recipient account not found"
    | SelfTransfer        // "You cannot send money to yourself"
    | RecordFailed        // "Failed to create transaction": nothing written
    | DebitFailed         // "Failed to update your balance": record written, no money moved
    | CreditFailed        // "Failed to update recipient balance": record written, sender debited only
    | Sent                // success

  /** Which store calls fail in this run. */
  datatype Faults = Faults(
    senderRead: bool, recipientRead: bool, insert: bool, debit: bool, credit: bool,
    linkRead: bool, linkInsert: bool)

  /** Result of the checks made before the first write. */
  datatype Verdict =
    | Reject(outcome: Outcome)
    | Proceed(sender: UserId, senderBalance: int, recipient: UserId, recipientBalance: int, amount: int)

  /** The validation chain, in the order the page runs it, against the profiles as they
      are when the request starts. */
  ghost function Validate(profiles: map<UserId, Profile>, user: Option<UserId>, recipientAccount: string,
                          amount: Amount, f: Faults): (v: Verdict)
    ensures v.Proceed? ==>
      && user == Some(v.sender) && amount == Num(v.amount) && v.amount > 0
      && v.sender in profiles && v.senderBalance == profiles[v.sender].balance >= v.amount
      && WithAccount(profiles, recipientAccount) == {v.recipient}
      && v.recipientBalance == profiles[v.recipient].balance
      && v.recipient != v.sender
    ensures v.Reject? ==> v.outcome in {NotLoggedIn, BadAmount, SenderUnavailable, InsufficientBalance,
                                        RecipientNotFound, SelfTransfer}
  {
    if user.None? then Reject(NotLoggedIn)
    else if InvalidAmount(amount) then Reject(BadAmount)
    else if f.senderRead || user.value !in profiles then Reject(SenderUnavailable)
    else if profiles[user.value].balance < amount.cents then Reject(InsufficientBalance)
    else if f.recipientRead || |WithAccount(profiles, recipientAccount)| != 1 then Reject(RecipientNotFound)
    else
      var r :| r in WithAccount(profiles, recipientAccount);
      SingletonSet(WithAccount(profiles, recipientAccount), r);
      if r == user.value then Reject(SelfTransfer)
      else Proceed(user.value, profiles[user.value].balance, r, profiles[r].balance, amount.cents)
  }

  /** The row the page inserts: an empty note is stored as null. */
  function Record(sender: UserId, recipient: UserId, amount: int, note: string): TxRecord {
    TxRecord(sender, recipient, amount, if note == "" then None else Some(note))
  }

  /** No (owner, beneficiary) pair has two rows. */
  ghost predicate NoDuplicateLinks(links: seq<Link>) {
    forall l :: LinkCount(links, l) <= 1
  }

  /** The lookups the checks make before a run ends with `o`. */
  function Lookups(o: Outcome): seq<Access> {
    match o
    case NotLoggedIn | BadAmount => []
    case SenderUnavailable | InsufficientBalance => [Access(Profiles, Select)]
    case _ => [Access(Profiles, Select), Access(Profiles, Select)]
  }

  /** The writes made before a run ends with `o`: the record, the debit, the credit. */
  function Writes(o: Outcome): seq<Access> {
    match o
    case RecordFailed => [Access(Transactions, Insert)]
    case DebitFailed => [Access(Transactions, Insert), Access(Profiles, Update)]
    case CreditFailed | Sent => [Access(Transactions, Insert), Access(Profiles, Update), Access(Profiles, Update)]
    case _ => []
  }

  /** The store calls a run makes up to and including the credit, by how it ends. */
  function Steps(o: Outcome): seq<Access> {
    Lookups(o) + Writes(o)
  }

  /** A completed transfer between two accounts keeps the sum of all balances. */
  lemma TransferKeepsTotal(profiles: map<UserId, Profile>, sender: UserId, recipient: UserId, amount: int)
    requires sender in profiles && recipient in profiles && sender != recipient
    ensures var debited := profiles[sender := profiles[sender].(balance := profiles[sender].balance - amount)];
      Total(debited[recipient := profiles[recipient].(balance := profiles[recipient].balance + amount)]) == Total(profiles)
  {
    var debited := profiles[sender := profiles[sender].(balance := profiles[sender].balance - amount)];
    TotalUpdate(profiles, sender, debited[sender]);
    TotalUpdate(debited, recipient, profiles[recipient].(balance := profiles[recipient].balance + amount));
  }

  /** A debit whose credit then fails takes exactly the amount out of the sum. */
  lemma DebitAloneLosesAmount(profiles: map<UserId, Profile>, sender: UserId, amount: int)
    requires sender in profiles
    ensures Total(profiles[sender := profiles[sender].(balance := profiles[sender].balance - amount)]) == Total(profiles) - amount
  {
    TotalUpdate(profiles, sender, profiles[sender].(balance := profiles[sender].balance - amount));
  }

  /** The calls of the checks followed by those of the writes are the calls `Steps` lists. */
  lemma ChecksThenWrites(log0: seq<Access>, o: Outcome, rest: seq<Access>)
    requires o.RecordFailed? || o.DebitFailed? || o.CreditFailed? || o.Sent?
    ensures log0 + Lookups(SelfTransfer) + (Writes(o) + rest) == log0 + Steps(o) + rest
  {
    assert Lookups(o) == Lookups(SelfTransfer);
  }

  /** The checks of `handleSubmit` (lines 33-78): reads only. */
  method Check(db: Store, user: Option<UserId>, recipientAccount: string, amount: Amount, f: Faults)
    returns (v: Verdict)
    modifies db`log
    ensures v == Validate(db.profiles, user, recipientAccount, amount, f)
    ensures v.Reject? ==> db.log == old(db.log) + Lookups(v.outcome) && Writes(v.outcome) == []
    ensures v.Proceed? ==> db.log == old(db.log) + Lookups(SelfTransfer)
  {
    if user.None? {
      return Reject(NotLoggedIn);
    }
    var uid := user.value;
    if amount.NaN? || amount.cents <= 0 {
      return Reject(BadAmount);
    }
    var a := amount.cents;
    var sender := db.SelectProfile(uid, f.senderRead);
    if sender.None? {
      return Reject(SenderUnavailable);
    }
    if sender.value.balance < a {
      return Reject(InsufficientBalance);
    }
    var recipient := db.SelectProfileByAccount(recipientAccount, f.recipientRead);
    if recipient.None? {
      return Reject(RecipientNotFound);
    }
    var (rid, recipientProfile) := recipient.value;
    if rid == uid {
      return Reject(SelfTransfer);
    }
    return Proceed(uid, sender.value.balance, rid, recipientProfile.balance, a);
  }

  /** The three writes of `handleSubmit` (lines 81-113), from the balances the checks read. */
  method Move(db: Store, v: Verdict, note: string, f: Faults) returns (outcome: Outcome)
    requires v.Proceed? && v.sender != v.recipient
    requires v.sender in db.profiles && v.recipient in db.profiles
    requires db.profiles[v.sender].balance == v.senderBalance && db.profiles[v.recipient].balance == v.recipientBalance
    modifies db`profiles, db`transactions, db`log
    ensures outcome == (if f.insert then RecordFailed else if f.debit then DebitFailed
                        else if f.credit then CreditFailed else Sent)
    ensures db.log == old(db.log) + Writes(outcome)
    ensures db.transactions == if outcome == RecordFailed then old(db.transactions)
                               else old(db.transactions) + [Record(v.sender, v.recipient, v.amount, note)]
    ensures outcome in {RecordFailed, DebitFailed} ==> db.profiles == old(db.profiles)
    ensures outcome in {CreditFailed, Sent} ==>
      db.profiles == old(db.profiles)[v.sender := old(db.profiles)[v.sender].(balance := v.senderBalance - v.amount)]
                     [v.recipient := if outcome == Sent then old(db.profiles)[v.recipient].(balance := v.recipientBalance + v.amount)
                                     else old(db.profiles)[v.recipient]]
    ensures v.senderBalance >= v.amount >= 0 && AllNonNegative(old(db.profiles)) ==> AllNonNegative(db.profiles)
  {
    var ok := db.InsertTransaction(Record(v.sender, v.recipient, v.amount, note), f.insert);
    if !ok {
      return RecordFailed;
    }
    ok := db.UpdateBalance(v.sender, v.senderBalance - v.amount, f.debit);
    if !ok {
      return DebitFailed;
    }
    ok := db.UpdateBalance(v.recipient, v.recipientBalance + v.amount, f.credit);
    if !ok {
      return CreditFailed;
    }
    return Sent;
  }

  /** The store calls of the beneficiary bookkeeping: the lookup, then the insert unless
      the lookup found exactly one row. */
  function Bookkeeping(links: seq<Link>, l: Link, f: Faults): (calls: seq<Access>)
    ensures |calls| > 0 && calls[0] == Access(Beneficiaries, Select)
    ensures forall i :: 0 <= i < |calls| ==> calls[i].table == Beneficiaries
  {
    if !f.linkRead && LinkCount(links, l) == 1 then [Access(Beneficiaries, Select)]
    else [Access(Beneficiaries, Select), Access(Beneficiaries, Insert)]
  }

  /** The beneficiary bookkeeping of `handleSubmit` (lines 115-128): insert the pair unless
      exactly one row for it is found. Its errors are ignored. */
  method Remember(db: Store, l: Link, f: Faults)
    modifies db`beneficiaries, db`log
    ensures db.beneficiaries == old(db.beneficiaries) || db.beneficiaries == old(db.beneficiaries) + [l]
    ensures db.log == old(db.log) + Bookkeeping(old(db.beneficiaries), l, f)
    ensures LinkCount(old(db.beneficiaries), l) == 1 && !f.linkRead ==> db.beneficiaries == old(db.beneficiaries)
    ensures LinkCount(old(db.beneficiaries), l) == 0 && !f.linkInsert ==> LinkCount(db.beneficiaries, l) == 1
    ensures NoDuplicateLinks(old(db.beneficiaries)) && !f.linkRead ==> NoDuplicateLinks(db.beneficiaries)
  {
    var found := db.SelectLink(l, f.linkRead);
    if !found {
      var _ := db.InsertLink(l, f.linkInsert);
      LinkCountAppend(old(db.beneficiaries), l, l);
      forall m ensures LinkCount(db.beneficiaries, m) <= LinkCount(old(db.beneficiaries), m) + (if m == l then 1 else 0) {
        LinkCountAppend(old(db.beneficiaries), l, m);
      }
    }
  }

  /** What the writes and the beneficiary bookkeeping leave behind once the checks have
      passed with `v`: which write fails decides the outcome, the writes before it stay,
      and only a full success touches the beneficiaries, and then only for
      (sender, recipient). The `0`-suffixed tables are those of the start. */
  ghost predicate Effect(v: Verdict, note: string, f: Faults, outcome: Outcome,
                         txs0: seq<TxRecord>, txs: seq<TxRecord>,
                         profiles0: map<UserId, Profile>, profiles: map<UserId, Profile>,
                         links0: seq<Link>, links: seq<Link>)
    requires v.Proceed? && v.sender in profiles0 && v.recipient in profiles0
  {
    var l := Link(v.sender, v.recipient);
    && outcome == (if f.insert then RecordFailed else if f.debit then DebitFailed
                   else if f.credit then CreditFailed else Sent)
    && txs == (if outcome == RecordFailed then txs0 else txs0 + [Record(v.sender, v.recipient, v.amount, note)])
    && (outcome in {RecordFailed, DebitFailed} ==> profiles == profiles0)
    && (outcome == CreditFailed ==>
          profiles == profiles0[v.sender := profiles0[v.sender].(balance := v.senderBalance - v.amount)])
    && (outcome == Sent ==>
          profiles == profiles0[v.sender := profiles0[v.sender].(balance := v.senderBalance - v.amount)]
                               [v.recipient := profiles0[v.recipient].(balance := v.recipientBalance + v.amount)])
    && (outcome != Sent ==> links == links0)
    && (outcome == Sent ==>
          && (links == links0 || links == links0 + [l])
          && (LinkCount(links0, l) == 1 && !f.linkRead ==> links == links0)
          && (LinkCount(links0, l) == 0 && !f.linkInsert ==> LinkCount(links, l) == 1)
          && (NoDuplicateLinks(links0) && !f.linkRead ==> NoDuplicateLinks(links)))
  }

  /** Everything `handleSubmit` does once the checks have passed: the writes, then the
      beneficiary bookkeeping after a full success. */
  method Complete(db: Store, v: Verdict, note: string, f: Faults) returns (outcome: Outcome)
    requires v.Proceed? && v.sender != v.recipient
    requires v.sender in db.profiles && v.recipient in db.profiles
    requires db.profiles[v.sender].balance == v.senderBalance && db.profiles[v.recipient].balance == v.recipientBalance
    modifies db`profiles, db`transactions, db`beneficiaries, db`log
    ensures Effect(v, note, f, outcome, old(db.transactions), db.transactions, old(db.profiles), db.profiles,
                   old(db.beneficiaries), db.beneficiaries)
    ensures db.log == old(db.log) + (Writes(outcome)
                      + if outcome == Sent then Bookkeeping(old(db.beneficiaries), Link(v.sender, v.recipient), f) else [])
    ensures v.senderBalance >= v.amount >= 0 && AllNonNegative(old(db.profiles)) ==> AllNonNegative(db.profiles)
  {
    outcome := Move(db, v, note, f);
    if outcome == Sent {
      Remember(db, Link(v.sender, v.recipient), f);
    }
  }

  /** `handleSubmit`. `verdict` is the outcome of its checks, named for the contract. */
  method HandleSubmit(db: Store, user: Option<UserId>, recipientAccount: string, amount: Amount,
                      note: string, f: Faults) returns (outcome: Outcome, ghost verdict: Verdict)
    modifies db`profiles, db`transactions, db`beneficiaries, db`log
    ensures verdict == Validate(old(db.profiles), user, recipientAccount, amount, f)
    // the checks, in order, decide every rejection; a rejection writes nothing
    ensures verdict.Reject? ==>
      && outcome == verdict.outcome
      && db.profiles == old(db.profiles) && db.transactions == old(db.transactions)
      && db.beneficiaries == old(db.beneficiaries)
    // the store calls, in order: without a user or a valid amount there are none
    ensures outcome != Sent ==> db.log == old(db.log) + Steps(outcome)
    ensures outcome == Sent ==>
      db.log == old(db.log) + Steps(Sent) + Bookkeeping(old(db.beneficiaries), Link(verdict.sender, verdict.recipient), f)
    // once the checks pass, the writes and the bookkeeping; no balance goes negative
    ensures verdict.Proceed? ==>
      && Effect(verdict, note, f, outcome, old(db.transactions), db.transactions, old(db.profiles), db.profiles,
                old(db.beneficiaries), db.beneficiaries)
      && (AllNonNegative(old(db.profiles)) ==> AllNonNegative(db.profiles))
    ensures outcome == Sent ==> verdict.Proceed? && user == Some(verdict.sender)
  {
    var v := Check(db, user, recipientAccount, amount, f);
    verdict := v;
    if v.Reject? {
      return v.outcome, verdict;
    }
    assert db.profiles == old(db.profiles) && db.transactions == old(db.transactions) && db.beneficiaries == old(db.beneficiaries);
    outcome := Complete(db, v, note, f);
    ChecksThenWrites(old(db.log), outcome,
                     if outcome == Sent then Bookkeeping(old(db.beneficiaries), Link(v.sender, v.recipient), f) else []);
  }
}
