/**
  The transaction list (`components/transaction-list.tsx`) and the row derivation it
  shares with the dashboard: which way the money went, whose account is shown and the
  sign in front of the amount. Date and currency formatting are not modelled.
*/
module TransactionList {
  import opened Wrappers
  import opened Database

  /** A `transactions` row as the pages select it: the record and the `account_number`
      of the joined sender and recipient profiles (`None` when the join came back empty). */
  datatype ListedTx = ListedTx(record: TxRecord, sender: Option<string>, recipient: Option<string>)

  /** One rendered row. `caption` is "From: …" or "To: …". */
  datatype Row = Row(incoming: bool, caption: string, note: string, sign: string, amount: int)

  /** What the component renders. */
  datatype View = NoTransactions | InvalidData | Rows(rows: seq<Row>)

  /** `accountNumber || "Unknown"`. */
  function ShownAccount(a: Option<string>): (r: string)
    ensures r != ""
    ensures a.Some? && a.value != "" ==> r == a.value
  {
    if a.Some? && a.value != "" then a.value else "Unknown"
  }

  /** The account of the other party: the recipient's when `userId` sent the money,
      the sender's otherwise. */
  function Counterpart(t: ListedTx, userId: UserId): Option<string> {
    if t.record.senderId == userId then t.recipient else t.sender
  }

  /** The row for one transaction as seen by `userId`. */
  function RowOf(t: ListedTx, userId: UserId): (r: Row)
    ensures r.incoming <==> t.record.senderId != userId
    ensures r.sign == (if r.incoming then "+" else "-")
    ensures r.caption == (if r.incoming then "From: " else "To: ") + ShownAccount(Counterpart(t, userId))
    ensures r.amount == t.record.amount
  {
    var incoming := t.record.senderId != userId;
    var account := ShownAccount(if incoming then t.sender else t.recipient);
    Row(incoming,
        (if incoming then "From: " else "To: ") + account,
        if t.record.note.Some? && t.record.note.value != "" then t.record.note.value else "No note",
        if incoming then "+" else "-",
        t.record.amount)
  }

  /** `transactions.map(...)`: one row per transaction, in the given order. */
  function RowsOf(txs: seq<ListedTx>, userId: UserId): (rows: seq<Row>)
    ensures |rows| == |txs|
    ensures forall i :: 0 <= i < |txs| ==> rows[i] == RowOf(txs[i], userId)
  {
    if txs == [] then [] else [RowOf(txs[0], userId)] + RowsOf(txs[1..], userId)
  }

  /** `!transaction.sender || !transaction.recipient`. */
  predicate Missing(t: ListedTx) {
    t.sender.None? || t.recipient.None?
  }

  /** `transactions.some(...)` over `Missing`. */
  function AnyMissing(txs: seq<ListedTx>): (r: bool)
    ensures r <==> exists i :: 0 <= i < |txs| && Missing(txs[i])
  {
    if txs == [] then false
    else if Missing(txs[0]) then true
    else
      var r := AnyMissing(txs[1..]);
      assert forall i :: 1 <= i < |txs| ==> txs[i] == txs[1..][i - 1];
      r
  }

  /** `TransactionList`: "No transactions yet" for a missing or empty list, the warning card
      when any transaction lacks its sender or recipient, and otherwise the rows. */
  function Render(txs: Option<seq<ListedTx>>, userId: UserId): (v: View)
    ensures v.NoTransactions? <==> txs.None? || txs.value == []
    ensures v.InvalidData? <==> txs.Some? && txs.value != [] && exists i :: 0 <= i < |txs.value| && Missing(txs.value[i])
    ensures v.Rows? ==> v.rows == RowsOf(txs.value, userId)
  {
    if txs.None? || txs.value == [] then NoTransactions
    else if AnyMissing(txs.value) then InvalidData
    else Rows(RowsOf(txs.value, userId))
  }

  /** Rows are computed transaction by transaction, so the rows of a longer list extend
      the rows of its prefix. */
  lemma {:induction false} RowsOfAppend(a: seq<ListedTx>, b: seq<ListedTx>, userId: UserId)
    ensures RowsOf(a + b, userId) == RowsOf(a, userId) + RowsOf(b, userId)
  {
    if a == [] {
      assert a + b == b;
    } else {
      assert (a + b)[1..] == a[1..] + b;
      RowsOfAppend(a[1..], b, userId);
    }
  }

  /** A transfer is shown in opposite directions to its two parties, each with the other's
      account, when they are different users. */
  lemma OppositeViews(t: ListedTx)
    requires t.record.senderId != t.record.recipientId
    ensures var out, inc := RowOf(t, t.record.senderId), RowOf(t, t.record.recipientId);
      && !out.incoming && out.sign == "-" && out.caption == "To: " + ShownAccount(t.recipient)
      && inc.incoming && inc.sign == "+" && inc.caption == "From: " + ShownAccount(t.sender)
  {
  }
}
