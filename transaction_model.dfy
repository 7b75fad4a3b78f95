/**
 * The `Transaction` model class: constructor defaults, the optional renewal
 * and restoration fields it copies only when present, and its `toJSON`.
 *
 * `TxnData` is an entry of a transaction or chat file as stored. Besides the
 * fields the class writes it carries the edit stamp `updateTransaction`
 * spreads in, the `message`/`timestamp` of a chat comment, and the archive
 * flags of entries kept from deleted customers.
 */
module TransactionModel {
  import opened Common
  import Text

  datatype TxnData = TxnData(
    id: Option<string>,
    amount: Option<int>,
    date: Option<Time>,
    comment: Option<string>,
    customerName: Option<string>,
    createdAt: Option<Time>,
    txType: Option<string>,
    source: Option<string>,
    loanType: Option<string>,
    isRenewal: Option<bool>,
    renewedAt: Option<Time>,
    interest: Option<int>,
    pc: Option<int>,
    weeks: Option<int>,
    isRestoredLoan: Option<bool>,
    restoredAt: Option<Time>,
    isEdited: bool,
    editedAt: Option<Time>,
    updatedAt: Option<Time>,
    message: Option<string>,
    timestamp: Option<Time>,
    isArchived: bool,
    isSettled: bool)

  /** A record with every field absent, to build others with update syntax. */
  const Blank := TxnData(
    None, None, None, None, None, None, None, None, None, None, None, None, None,
    None, None, None, false, None, None, None, None, false, false)

  /** An instance of the model class after its constructor ran. */
  datatype Transaction = Transaction(
    id: string,
    amount: int,
    date: Option<Time>,
    comment: string,
    customerName: string,
    createdAt: Time,
    txType: string,
    source: Option<string>,
    loanType: Option<string>,
    isRenewal: Option<bool>,
    renewedAt: Option<Time>,
    interest: Option<int>,
    pc: Option<int>,
    weeks: Option<int>,
    isRestoredLoan: Option<bool>,
    restoredAt: Option<Time>)

  /**
   * `new Transaction(data)` at time `now`: a missing id becomes the decimal
   * clock reading; a truthy `loanType`, `renewedAt`, `weeks` or `restoredAt`
   * and a defined `isRenewal`, `interest`, `pc` or `isRestoredLoan` is copied.
   */
  function New(data: TxnData, now: Time): (t: Transaction)
    ensures t.id != "" && t.txType != ""
    ensures Truthy(data.id) ==> t.id == data.id.value
    ensures !Truthy(data.id) ==> t.id == Text.IntToString(now)
    ensures t.amount == Num(data.amount) && t.date == data.date
    ensures t.comment == OrElse(data.comment, "") && t.customerName == OrElse(data.customerName, "")
    ensures t.createdAt == data.createdAt.GetOr(now)
    ensures Truthy(data.txType) ==> t.txType == data.txType.value
    ensures !Truthy(data.txType) ==> t.txType == "payment"
    ensures t.source == data.source
    ensures t.loanType.Some? <==> Truthy(data.loanType)
    ensures t.loanType.Some? ==> t.loanType == data.loanType
    ensures t.isRenewal == data.isRenewal && t.interest == data.interest && t.pc == data.pc
    ensures t.renewedAt.Some? <==> NonZero(data.renewedAt)
    ensures t.renewedAt.Some? ==> t.renewedAt == data.renewedAt
    ensures t.weeks.Some? <==> NonZero(data.weeks)
    ensures t.weeks.Some? ==> t.weeks == data.weeks
    ensures t.isRestoredLoan == data.isRestoredLoan
    ensures t.restoredAt.Some? <==> NonZero(data.restoredAt)
    ensures t.restoredAt.Some? ==> t.restoredAt == data.restoredAt
  {
    Transaction(
      if Truthy(data.id) then data.id.value else Text.IntToString(now),
      Num(data.amount),
      data.date,
      OrElse(data.comment, ""),
      OrElse(data.customerName, ""),
      data.createdAt.GetOr(now),
      OrElse(data.txType, "payment"),
      data.source,
      if Truthy(data.loanType) then data.loanType else None,
      data.isRenewal,
      if NonZero(data.renewedAt) then data.renewedAt else None,
      data.interest,
      data.pc,
      if NonZero(data.weeks) then data.weeks else None,
      data.isRestoredLoan,
      if NonZero(data.restoredAt) then data.restoredAt else None)
  }

  /** `transaction.toJSON()`: the seven base fields, `source` only when truthy, and each optional field only when present. */
  function ToJson(t: Transaction): (d: TxnData)
    ensures d.source.Some? <==> Truthy(t.source)
    ensures d.source.Some? ==> d.source == t.source
    ensures d.loanType.Some? <==> Truthy(t.loanType)
    ensures d.loanType.Some? ==> d.loanType == t.loanType
    ensures d.weeks.Some? <==> NonZero(t.weeks)
    ensures d.weeks.Some? ==> d.weeks == t.weeks
    ensures d.interest == t.interest && d.pc == t.pc
    ensures d.id == Some(t.id) && d.amount == Some(t.amount) && d.txType == Some(t.txType)
    ensures d.date == t.date && d.comment == Some(t.comment) && d.customerName == Some(t.customerName)
    ensures d.createdAt == Some(t.createdAt)
    ensures d.renewedAt.Some? <==> NonZero(t.renewedAt)
    ensures d.renewedAt.Some? ==> d.renewedAt == t.renewedAt
    ensures d.restoredAt.Some? <==> NonZero(t.restoredAt)
    ensures d.restoredAt.Some? ==> d.restoredAt == t.restoredAt
    ensures d.isRenewal == t.isRenewal && d.isRestoredLoan == t.isRestoredLoan
    ensures !d.isEdited && d.message.None?
  {
    Blank.(
      id := Some(t.id), amount := Some(t.amount), date := t.date,
      comment := Some(t.comment), customerName := Some(t.customerName),
      createdAt := Some(t.createdAt), txType := Some(t.txType),
      source := if Truthy(t.source) then t.source else None,
      loanType := if Truthy(t.loanType) then t.loanType else None,
      isRenewal := t.isRenewal,
      renewedAt := if NonZero(t.renewedAt) then t.renewedAt else None,
      interest := t.interest, pc := t.pc,
      weeks := if NonZero(t.weeks) then t.weeks else None,
      isRestoredLoan := t.isRestoredLoan,
      restoredAt := if NonZero(t.restoredAt) then t.restoredAt else None)
  }

  /** Re-reading what `toJSON` wrote and writing it again gives the same JSON. */
  lemma ToJsonIdempotent(data: TxnData, now: Time, later: Time)
    ensures ToJson(New(ToJson(New(data, now)), later)) == ToJson(New(data, now))
  {
  }
}
