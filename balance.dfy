/**
 * What a customer owes and has paid on the current loan, as the customer
 * views compute it: the loan is the latest renewal when the customer has
 * renewal records and the original loan otherwise, and only payments dated
 * at or after that renewal are counted against it.
 *
 * Two variants exist. The listing, detail and pending views read the
 * `renewals/` file of the customer and count every entry of the
 * transaction file as paid. The renewal handler instead finds renewals
 * among the transaction entries themselves and counts only the entries
 * that are payments.
 */
module CustomerBalance {
  import opened Common
  import Sorting
  import opened CustomerModel
  import opened TransactionModel
  import opened FileStore

  /** What a view reports about the current loan. */
  datatype Balance = Balance(totalOwed: int, totalPaid: int, remainingAmount: int)

  // ------------------------------------------------------------ the latest renewal

  /**
   * The key of `sort((a, b) => time(b) - time(a))`: latest first. A record
   * without a time sorts as the epoch.
   */
  function NewestFirst<T>(time: T -> Option<Time>): T -> (int, int)
  {
    (x: T) => (-time(x).GetOr(0), 0)
  }

  /**
   * `s.sort((a, b) => time(b) - time(a))[0]`: a record with the latest time;
   * among records with equal times, the first in file order.
   */
  function LatestBy<T>(s: seq<T>, time: T -> Option<Time>): (r: T)
    requires s != []
    ensures r in s
    ensures forall x :: x in s ==> time(x).GetOr(0) <= time(r).GetOr(0)
    decreases |s|
  {
    var last := s[|s| - 1];
    if |s| == 1 then last
    else
      var r := LatestBy(s[..|s| - 1], time);
      assert forall x :: x in s ==> x in s[..|s| - 1] || x == last;
      if time(last).GetOr(0) <= time(r).GetOr(0) then r else last
  }

  /** `LatestBy` is the head of the stable descending sort: the first of the latest records. */
  lemma {:induction false} LatestIsSortedHead<T>(s: seq<T>, time: T -> Option<Time>)
    requires s != []
    ensures LatestBy(s, time) == Sorting.SortBy(s, NewestFirst(time))[0]
    decreases |s|
  {
    var key := NewestFirst(time);
    var init := s[..|s| - 1];
    if |s| > 1 {
      LatestIsSortedHead(init, time);
      var sorted := Sorting.SortBy(init, key);
      assert Sorting.SortBy(s, key) == Sorting.Insert(s[|s| - 1], sorted, key);
    }
  }

  /** `new Date(r.renewalDate || r.date)`: when a renewal record took effect. */
  function RenewalTime(r: RenewalData): Option<Time>
  {
    if r.renewalDate.Some? then r.renewalDate else r.date
  }

  /** The latest renewal record, if there is one. */
  function LatestRenewal(renewals: seq<RenewalData>): (r: Option<RenewalData>)
    ensures r.None? <==> renewals == []
    ensures r.Some? ==> r.value in renewals
    ensures r.Some? ==> forall x :: x in renewals ==> RenewalTime(x).GetOr(0) <= RenewalTime(r.value).GetOr(0)
  {
    if renewals == [] then None else Some(LatestBy(renewals, RenewalTime))
  }

  // ------------------------------------------------------------ counting payments

  /** `new Date(t.createdAt || t.date)`: when a payment was made. */
  function PaymentTime(t: TxnData): Option<Time>
  {
    if t.createdAt.Some? then t.createdAt else t.date
  }

  /**
   * Whether a payment counts against the loan that started at `cutoff`:
   * it is skipped only when the cutoff is truthy and the payment is dated
   * before it. A payment without any date compares as `NaN` and is kept.
   */
  predicate Counted(t: TxnData, cutoff: Option<Time>)
  {
    !(NonZero(cutoff) && PaymentTime(t).Some? && PaymentTime(t).value < cutoff.value)
  }

  /** `parseFloat(t.amount) || 0`. */
  function Amount(t: TxnData): int
  {
    Num(t.amount)
  }

  /** One step of the `reduce`: the amount of a counted payment, 0 for a skipped one. */
  function PaidAmount(cutoff: Option<Time>): TxnData -> int
  {
    (t: TxnData) => if Counted(t, cutoff) then Amount(t) else 0
  }

  /** The payments that count against the loan that started at `cutoff`. */
  function CountedPayments(payments: seq<TxnData>, cutoff: Option<Time>): (r: seq<TxnData>)
    ensures forall t :: t in r <==> t in payments && Counted(t, cutoff)
  {
    Filter(payments, (t: TxnData) => Counted(t, cutoff))
  }

  /** The counted payments once `t` is appended. */
  lemma CountedAppend(payments: seq<TxnData>, t: TxnData, start: Option<Time>)
    ensures CountedPayments(payments + [t], start)
      == if Counted(t, start) then CountedPayments(payments, start) + [t] else CountedPayments(payments, start)
  {
    FilterAppend(payments, t, (x: TxnData) => Counted(x, start));
  }

  /** The `reduce` skipping early payments adds up exactly the counted payments. */
  lemma {:induction false} PaidIsCountedTotal(payments: seq<TxnData>, cutoff: Option<Time>)
    ensures Sum(payments, PaidAmount(cutoff)) == Sum(CountedPayments(payments, cutoff), Amount)
    decreases |payments|
  {
    if payments != [] {
      var init := payments[..|payments| - 1];
      var last := payments[|payments| - 1];
      assert payments == init + [last];
      PaidIsCountedTotal(init, cutoff);
      PaidStep(init, last, cutoff);
    }
  }

  /** One more payment adds the same to the `reduce` and to the counted total. */
  lemma PaidStep(init: seq<TxnData>, last: TxnData, cutoff: Option<Time>)
    ensures Sum(init + [last], PaidAmount(cutoff)) - Sum(init, PaidAmount(cutoff))
         == Sum(CountedPayments(init + [last], cutoff), Amount) - Sum(CountedPayments(init, cutoff), Amount)
  {
    var p := (t: TxnData) => Counted(t, cutoff);
    FilterAppend(init, last, p);
    SumAppend(init, last, PaidAmount(cutoff));
    if p(last) {
      SumAppend(Filter(init, p), last, Amount);
    }
  }

  /**
   * The balance of a loan of `owed` that started at `cutoff`: the counted
   * payments are what was paid, and what remains is the difference.
   */
  function BalanceAfter(owed: int, payments: seq<TxnData>, cutoff: Option<Time>): (b: Balance)
    ensures b.totalOwed == owed
    ensures b.totalPaid == Sum(CountedPayments(payments, cutoff), Amount)
    ensures b.remainingAmount == owed - Sum(CountedPayments(payments, cutoff), Amount)
  {
    var paid := Sum(payments, PaidAmount(cutoff));
    PaidIsCountedTotal(payments, cutoff);
    Balance(owed, paid, owed - paid)
  }

  // ------------------------------------------------------------ the views' balance

  /** The time the views count payments from: the latest renewal's, when there is one. */
  function Cutoff(renewals: seq<RenewalData>): Option<Time>
  {
    match LatestRenewal(renewals)
    case None => None
    case Some(r) => RenewalTime(r)
  }

  /**
   * The balance the listing, detail and pending views show: owed is the
   * latest renewal's `takenAmount`, or the customer's own without renewals;
   * every entry of the transaction file dated at or after that renewal is paid.
   */
  function ViewBalance(customer: CustomerData, transactions: seq<TxnData>, renewals: seq<RenewalData>): (b: Balance)
    ensures renewals == [] ==> b.totalOwed == Num(customer.takenAmount)
    ensures renewals != [] ==> b.totalOwed == Num(LatestRenewal(renewals).value.takenAmount)
    ensures b.totalPaid == Sum(CountedPayments(transactions, Cutoff(renewals)), Amount)
    ensures b.remainingAmount == b.totalOwed - b.totalPaid
  {
    var owed := match LatestRenewal(renewals)
      case None => Num(customer.takenAmount)
      case Some(r) => Num(r.takenAmount);
    BalanceAfter(owed, transactions, Cutoff(renewals))
  }

  /** Without renewals every entry of the transaction file counts as paid. */
  lemma NoRenewalCountsEverything(customer: CustomerData, transactions: seq<TxnData>)
    ensures ViewBalance(customer, transactions, []).totalPaid == Sum(transactions, Amount)
  {
    FilterAll(transactions, (t: TxnData) => Counted(t, None));
  }

  /** Appending a payment that counts lowers what remains by exactly its amount. */
  lemma CountedPaymentLowersRemaining(customer: CustomerData, transactions: seq<TxnData>, renewals: seq<RenewalData>, t: TxnData)
    requires Counted(t, Cutoff(renewals))
    ensures ViewBalance(customer, transactions + [t], renewals).remainingAmount
      == ViewBalance(customer, transactions, renewals).remainingAmount - Amount(t)
  {
    var p := (x: TxnData) => Counted(x, Cutoff(renewals));
    FilterConcat(transactions, [t], p);
    assert Filter([t], p) == [t] by {
      assert [t][..0] == [];
    }
    SumConcat(Filter(transactions, p), [t], Amount);
    assert Sum([t], Amount) == Amount(t) by {
      assert [t][..0] == [];
    }
  }

  /** Appending a payment dated before the latest renewal changes nothing. */
  lemma EarlyPaymentIgnored(customer: CustomerData, transactions: seq<TxnData>, renewals: seq<RenewalData>, t: TxnData)
    requires !Counted(t, Cutoff(renewals))
    ensures ViewBalance(customer, transactions + [t], renewals) == ViewBalance(customer, transactions, renewals)
  {
    var p := (x: TxnData) => Counted(x, Cutoff(renewals));
    FilterConcat(transactions, [t], p);
    assert Filter([t], p) == [] by {
      assert [t][..0] == [];
    }
    assert Filter(transactions, p) + [] == Filter(transactions, p);
  }

  // ------------------------------------------------------------ the renewal handler's balance

  /** `t.type === 'renewal' || t.isRenewal === true`. */
  predicate IsRenewalEntry(t: TxnData)
  {
    t.txType == Some("renewal") || t.isRenewal == Some(true)
  }

  /** `t.type === 'payment' || (!t.type && t.amount) || t.type === 'chat'`. */
  predicate IsPaymentEntry(t: TxnData)
  {
    t.txType == Some("payment") || (!Truthy(t.txType) && NonZero(t.amount)) || t.txType == Some("chat")
  }

  /** `new Date(t.renewedAt || t.createdAt || t.date)`: when a renewal entry took effect. */
  function RenewedTime(t: TxnData): Option<Time>
  {
    if NonZero(t.renewedAt) then t.renewedAt else if t.createdAt.Some? then t.createdAt else t.date
  }

  /**
   * The balance `createRenewal` checks before renewing: owed is the amount
   * of the latest renewal entry of the transaction file, or the customer's
   * `takenAmount` when there is none; paid counts only the payment entries
   * dated at or after that renewal.
   */
  function RenewalCheckBalance(customer: CustomerData, transactions: seq<TxnData>): (b: Balance)
    ensures
      var renewals := Filter(transactions, IsRenewalEntry);
      && (renewals == [] ==> b.totalOwed == Num(customer.takenAmount))
      && (renewals != [] ==> b.totalOwed == Amount(LatestBy(renewals, RenewedTime)))
    ensures
      var renewals := Filter(transactions, IsRenewalEntry);
      var cutoff := if renewals == [] then None else RenewedTime(LatestBy(renewals, RenewedTime));
      b.totalPaid == Sum(CountedPayments(Filter(transactions, IsPaymentEntry), cutoff), Amount)
    ensures b.remainingAmount == b.totalOwed - b.totalPaid
  {
    var renewals := Filter(transactions, IsRenewalEntry);
    if renewals == [] then
      BalanceAfter(Num(customer.takenAmount), Filter(transactions, IsPaymentEntry), None)
    else
      var latest := LatestBy(renewals, RenewedTime);
      BalanceAfter(Amount(latest), Filter(transactions, IsPaymentEntry), RenewedTime(latest))
  }
}
