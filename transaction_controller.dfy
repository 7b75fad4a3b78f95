/**
 * Payments of a customer: adding, editing and deleting entries of the
 * customer's transaction file (or, for edits and deletions, chat file),
 * each followed by an incremental change of the stored line balance:
 *
 *   add     BF := BF + amount
 *   update  BF := BF + (newAmount - oldAmount)
 *   delete  BF := BF - deletedAmount
 *
 * where BF is read as `currentBF || amount || 0`. An arithmetic result that
 * is `NaN` in the program (a stored entry without a numeric amount) is
 * written to `lines.json` as `null`, modelled as `None`.
 */
module TransactionController {
  import opened Common
  import Text
  import opened CustomerModel
  import opened TransactionModel
  import opened LineModel
  import opened FileStore

  /** The entry `addTransaction` appends: a quick payment, id from the clock. */
  function QuickPayment(amount: int, date: Time, comment: Option<string>, customerName: Option<string>, now: Time)
    : (d: TxnData)
    ensures d.id == Some(Text.IntToString(now))
    ensures d.amount == Some(amount) && d.date == Some(date)
    ensures d.txType == Some("payment") && d.source == Some("quick")
    ensures d.comment == Some(OrElse(comment, ""))
  {
    TransactionModel.ToJson(TransactionModel.New(TransactionModel.Blank.(
      amount := Some(amount), date := Some(date), comment := Some(OrElse(comment, "")),
      customerName := customerName, txType := Some("payment"), source := Some("quick")), now))
  }

  /**
   * `addTransaction`: 404, writing nothing, when no active customer of the day
   * has the id; otherwise one quick payment is appended to the customer's
   * transaction file and the line's balance grows by the amount.
   */
  method AddTransaction(
    st: Store, lineId: string, day: string, customerId: string,
    amount: int, date: Time, comment: Option<string>, now: Time)
    returns (status: Status, newBF: int)
    requires amount >= 0
    modifies st`transactions, st`lines
    ensures status == NotFound <==> FindCustomer(Read(st.customers, DayKey(lineId, day)), customerId).None?
    ensures status == NotFound ==> st.transactions == old(st.transactions) && st.lines == old(st.lines)
    ensures status != NotFound ==> status == Created
    ensures status == Created ==>
      var c := FindCustomer(Read(st.customers, DayKey(lineId, day)), customerId).value;
      var k := FileKey(lineId, day, Owner(c));
      st.transactions == old(st.transactions)[k := old(Read(st.transactions, k)) + [QuickPayment(amount, date, comment, c.name, now)]]
    ensures status == Created ==> newBF == old(ReadBF(st.lines, lineId)) + amount
    ensures status == Created ==> st.lines == SetBF(old(st.lines), lineId, Some(newBF))
  {
    var found := FindCustomer(Read(st.customers, DayKey(lineId, day)), customerId);
    if found.None? {
      return NotFound, 0;
    }
    var customer := found.value;
    var k := FileKey(lineId, day, Owner(customer));
    var transactions := Read(st.transactions, k);
    transactions := transactions + [QuickPayment(amount, date, comment, customer.name, now)];
    st.transactions := st.transactions[k := transactions];
    newBF := ReadBF(st.lines, lineId) + amount;
    st.lines := SetBF(st.lines, lineId, Some(newBF));
    status := Created;
  }

  /** `targetArray[i] = { ...targetArray[i], amount, comment, isEdited: true, editedAt, updatedAt }`. */
  function Edited(t: TxnData, amount: int, comment: Option<string>, now: Time): (e: TxnData)
    ensures e.id == t.id && e.txType == t.txType && e.date == t.date
    ensures e.amount == Some(amount) && e.isEdited && e.editedAt == Some(now)
  {
    t.(amount := Some(amount), comment := Some(OrElse(comment, "")), isEdited := true,
       editedAt := Some(now), updatedAt := Some(now))
  }

  /**
   * The balance after an entry's stored amount is replaced by `replacement`
   * (0 when the entry is deleted): `currentBF + (replacement - stored)`, or
   * `NaN` (`None`) when the stored amount is not a number.
   */
  function Adjusted(current: int, stored: Option<int>, replacement: int): (r: Option<int>)
    ensures r.Some? <==> stored.Some?
    ensures stored.Some? ==> r.value - current == replacement - stored.value
  {
    if stored.Some? then Some(current + (replacement - stored.value)) else None
  }

  /** Where `updateTransaction` and `deleteTransaction` find an entry. */
  datatype Location = InTransactions(index: nat) | InChat(index: nat) | Nowhere

  /** The transactions file is searched first, the chat file second. */
  function Locate(transactions: seq<TxnData>, chat: seq<TxnData>, id: string): (loc: Location)
    ensures loc.InTransactions? ==>
      && loc.index < |transactions| && transactions[loc.index].id == Some(id)
      && (forall i :: 0 <= i < loc.index ==> transactions[i].id != Some(id))
    ensures loc.InChat? ==>
      && loc.index < |chat| && chat[loc.index].id == Some(id)
      && (forall i :: 0 <= i < |transactions| ==> transactions[i].id != Some(id))
      && (forall i :: 0 <= i < loc.index ==> chat[i].id != Some(id))
    ensures loc.Nowhere? <==>
      (forall i :: 0 <= i < |transactions| ==> transactions[i].id != Some(id))
      && (forall i :: 0 <= i < |chat| ==> chat[i].id != Some(id))
  {
    var i := FindIndex(transactions, (t: TxnData) => t.id == Some(id));
    if i != -1 then InTransactions(i)
    else
      var j := FindIndex(chat, (t: TxnData) => t.id == Some(id));
      if j != -1 then InChat(j) else Nowhere
  }

  /**
   * `updateTransaction`: 404 when the customer is not active on the day or
   * the entry is in neither file; otherwise only the found entry is replaced
   * by its edited copy and the balance moves by the difference of amounts.
   */
  method UpdateTransaction(
    st: Store, lineId: string, day: string, customerId: string, id: string,
    amount: int, comment: Option<string>, now: Time)
    returns (status: Status, newBF: Option<int>)
    requires amount >= 0
    modifies st`transactions, st`chat, st`lines
    ensures status == NotFound <==>
      var found := FindCustomer(Read(st.customers, DayKey(lineId, day)), customerId);
      found.None? ||
        var k := FileKey(lineId, day, Owner(found.value));
        Locate(old(Read(st.transactions, k)), old(Read(st.chat, k)), id).Nowhere?
    ensures status == NotFound ==>
      st.transactions == old(st.transactions) && st.chat == old(st.chat) && st.lines == old(st.lines)
    ensures status != NotFound ==> status == Ok
    ensures status == Ok ==>
      var k := FileKey(lineId, day, Owner(FindCustomer(Read(st.customers, DayKey(lineId, day)), customerId).value));
      var txs := old(Read(st.transactions, k));
      var chat := old(Read(st.chat, k));
      match Locate(txs, chat, id)
      case InTransactions(i) =>
        && st.transactions == old(st.transactions)[k := txs[i := Edited(txs[i], amount, comment, now)]]
        && st.chat == old(st.chat)
        && newBF == Adjusted(old(ReadBF(st.lines, lineId)), txs[i].amount, amount)
      case InChat(i) =>
        && st.chat == old(st.chat)[k := chat[i := Edited(chat[i], amount, comment, now)]]
        && st.transactions == old(st.transactions)
        && newBF == Adjusted(old(ReadBF(st.lines, lineId)), chat[i].amount, amount)
      case Nowhere => false
    ensures status == Ok ==> st.lines == SetBF(old(st.lines), lineId, newBF)
  {
    var found := FindCustomer(Read(st.customers, DayKey(lineId, day)), customerId);
    if found.None? {
      return NotFound, None;
    }
    var k := FileKey(lineId, day, Owner(found.value));
    var transactions := Read(st.transactions, k);
    var chat := Read(st.chat, k);
    var oldAmount: Option<int>;
    match Locate(transactions, chat, id) {
    case Nowhere =>
      return NotFound, None;
    case InTransactions(i) =>
      oldAmount := transactions[i].amount;
      newBF := Adjusted(ReadBF(st.lines, lineId), oldAmount, amount);
      WriteFileAndSetBF(st, k, false, transactions[i := Edited(transactions[i], amount, comment, now)], lineId, newBF);
    case InChat(i) =>
      oldAmount := chat[i].amount;
      newBF := Adjusted(ReadBF(st.lines, lineId), oldAmount, amount);
      WriteFileAndSetBF(st, k, true, chat[i := Edited(chat[i], amount, comment, now)], lineId, newBF);
    }
    status := Ok;
  }

  /**
   * Writes back the file the entry was found in (the chat file when
   * `inChat`), then sets the line's `currentBF` to `bf`.
   */
  method WriteFileAndSetBF(st: Store, k: FileKey, inChat: bool, entries: seq<TxnData>, lineId: string, bf: Option<int>)
    modifies st`transactions, st`chat, st`lines
    ensures inChat ==> st.chat == old(st.chat)[k := entries] && st.transactions == old(st.transactions)
    ensures !inChat ==> st.transactions == old(st.transactions)[k := entries] && st.chat == old(st.chat)
    ensures st.lines == SetBF(old(st.lines), lineId, bf)
  {
    if inChat {
      st.chat := st.chat[k := entries];
    } else {
      st.transactions := st.transactions[k := entries];
    }
    st.lines := SetBF(st.lines, lineId, bf);
  }

  /** `list.filter(t => t.id !== id)`. */
  function Without(entries: seq<TxnData>, id: string): (r: seq<TxnData>)
    ensures forall i :: 0 <= i < |r| ==> r[i].id != Some(id)
    ensures forall i :: 0 <= i < |entries| && entries[i].id != Some(id) ==> entries[i] in r
  {
    Filter(entries, (t: TxnData) => t.id != Some(id))
  }

  /**
   * `deleteTransaction`: 404 as for an update; otherwise every entry with the
   * id is removed from the file where the first one was found, and the
   * balance drops by that entry's amount.
   */
  method DeleteTransaction(st: Store, lineId: string, day: string, customerId: string, id: string)
    returns (status: Status, newBF: Option<int>)
    modifies st`transactions, st`chat, st`lines
    ensures status == NotFound <==>
      var found := FindCustomer(Read(st.customers, DayKey(lineId, day)), customerId);
      found.None? ||
        var k := FileKey(lineId, day, Owner(found.value));
        Locate(old(Read(st.transactions, k)), old(Read(st.chat, k)), id).Nowhere?
    ensures status == NotFound ==>
      st.transactions == old(st.transactions) && st.chat == old(st.chat) && st.lines == old(st.lines)
    ensures status != NotFound ==> status == Ok
    ensures status == Ok ==>
      var k := FileKey(lineId, day, Owner(FindCustomer(Read(st.customers, DayKey(lineId, day)), customerId).value));
      var txs := old(Read(st.transactions, k));
      var chat := old(Read(st.chat, k));
      match Locate(txs, chat, id)
      case InTransactions(i) =>
        && st.transactions == old(st.transactions)[k := Without(txs, id)]
        && st.chat == old(st.chat)
        && newBF == Adjusted(old(ReadBF(st.lines, lineId)), txs[i].amount, 0)
      case InChat(i) =>
        && st.chat == old(st.chat)[k := Without(chat, id)]
        && st.transactions == old(st.transactions)
        && newBF == Adjusted(old(ReadBF(st.lines, lineId)), chat[i].amount, 0)
      case Nowhere => false
    ensures status == Ok ==> st.lines == SetBF(old(st.lines), lineId, newBF)
  {
    var found := FindCustomer(Read(st.customers, DayKey(lineId, day)), customerId);
    if found.None? {
      return NotFound, None;
    }
    var k := FileKey(lineId, day, Owner(found.value));
    var transactions := Read(st.transactions, k);
    var chat := Read(st.chat, k);
    var deletedAmount: Option<int>;
    match Locate(transactions, chat, id) {
    case Nowhere =>
      return NotFound, None;
    case InTransactions(i) =>
      deletedAmount := transactions[i].amount;
      newBF := Adjusted(ReadBF(st.lines, lineId), deletedAmount, 0);
      WriteFileAndSetBF(st, k, false, Without(transactions, id), lineId, newBF);
    case InChat(i) =>
      deletedAmount := chat[i].amount;
      newBF := Adjusted(ReadBF(st.lines, lineId), deletedAmount, 0);
      WriteFileAndSetBF(st, k, true, Without(chat, id), lineId, newBF);
    }
    status := Ok;
  }

  // ------------------------------------------------------------ properties

  /**
   * Adding a payment and then deleting it restores the customer's file: the
   * appended entry is the first one carrying its id, and removing that id
   * removes nothing else.
   */
  lemma PaymentFileRoundTrip(file: seq<TxnData>, chat: seq<TxnData>, p: TxnData, id: string)
    requires p.id == Some(id)
    requires forall i :: 0 <= i < |file| ==> file[i].id != Some(id)
    ensures Locate(file + [p], chat, id) == InTransactions(|file|)
    ensures Without(file + [p], id) == file
  {
    var s := file + [p];
    assert s[|file|].id == Some(id);
    assert forall i :: 0 <= i < |file| ==> s[i] == file[i];
    FilterAppendedOut(file, p, (t: TxnData) => t.id != Some(id));
  }

  /**
   * Adding a payment of `a` and then deleting it returns the stored balance
   * to its prior value, provided the balance is read back as stored: the
   * line's `currentBF` is non-zero before and after the payment, and every
   * line carrying the id holds the same balance.
   */
  lemma PaymentBalanceRoundTrip(lines: seq<LineData>, lineId: string, a: int)
    requires FindLine(lines, lineId).Some?
    requires NonZero(FindLine(lines, lineId).value.currentBF)
    requires forall i :: 0 <= i < |lines| && lines[i].id == Some(lineId) ==>
      lines[i].currentBF == FindLine(lines, lineId).value.currentBF
    requires ReadBF(lines, lineId) + a != 0
    ensures
      var added := SetBF(lines, lineId, Some(ReadBF(lines, lineId) + a));
      SetBF(added, lineId, Adjusted(ReadBF(added, lineId), Some(a), 0)) == lines
  {
    var bf := ReadBF(lines, lineId);
    assert FindLine(lines, lineId).value.currentBF == Some(bf);
    var added := SetBF(lines, lineId, Some(bf + a));
    ReadAfterSetBF(lines, lineId, Some(bf + a));
    assert Adjusted(ReadBF(added, lineId), Some(a), 0) == Some(bf);
    SetBFBack(lines, lineId, bf, Some(bf + a));
  }

  /** Writing a balance and then the one every line of the id held before gives the lines back. */
  lemma SetBFBack(lines: seq<LineData>, lineId: string, bf: int, other: Option<int>)
    requires forall i :: 0 <= i < |lines| && lines[i].id == Some(lineId) ==> lines[i].currentBF == Some(bf)
    ensures SetBF(SetBF(lines, lineId, other), lineId, Some(bf)) == lines
  {
  }

  /**
   * The stored balance after a payment is read back as written, unless it
   * came to zero: then the next handler starts from the line's opening
   * amount instead.
   */
  lemma BalanceAfterPayment(lines: seq<LineData>, lineId: string, a: int)
    requires FindLine(lines, lineId).Some?
    ensures
      var added := SetBF(lines, lineId, Some(ReadBF(lines, lineId) + a));
      ReadBF(added, lineId) == if ReadBF(lines, lineId) + a != 0 then ReadBF(lines, lineId) + a
        else Num(FindLine(lines, lineId).value.amount)
  {
    ReadAfterSetBF(lines, lineId, Some(ReadBF(lines, lineId) + a));
  }

  /**
   * Editing an entry whose stored amount is missing writes `null` as the
   * balance, so the next handler starts from the line's opening amount.
   */
  lemma EditWithoutAmountResetsBalance(lines: seq<LineData>, lineId: string, amount: int)
    requires FindLine(lines, lineId).Some?
    ensures
      var after := SetBF(lines, lineId, Adjusted(ReadBF(lines, lineId), None, amount));
      ReadBF(after, lineId) == Num(FindLine(lines, lineId).value.amount)
  {
    ReadAfterSetBF(lines, lineId, None);
  }
}
