/**
 * The data behind the three PDF reports (`pdfController.js`): the
 * statement of one customer, the collections of a line, and the per-day
 * summary of what every customer owes. The handlers read the store and
 * write nothing; turning the data into pages is not part of this model.
 */
module PdfData {
  import opened Common
  import Sorting
  import opened CustomerModel
  import opened TransactionModel
  import opened LineModel
  import opened FileStore
  import opened CustomerBalance
  import CollectionController

  // ------------------------------------------------------------ the current loan

  /** `!(r.isArchived && r.isSettled)`: not kept from a deletion that settled the loan. */
  predicate LiveRenewal(r: RenewalData)
  {
    !(r.isArchived && r.isSettled)
  }

  /** `!(t.isArchived && t.isSettled)`, for entries of transaction and chat files. */
  predicate LivePayment(t: TxnData)
  {
    !(t.isArchived && t.isSettled)
  }

  /** `r` is a live renewal with the latest time among the live renewals. */
  predicate LatestLive(r: RenewalData, renewals: seq<RenewalData>)
  {
    r in renewals && LiveRenewal(r)
    && forall x :: x in renewals && LiveRenewal(x) ==> RenewalTime(x).GetOr(0) <= RenewalTime(r).GetOr(0)
  }

  /** The latest live renewal, as the descending sort of the live renewals puts it first. */
  function LatestLiveRenewal(renewals: seq<RenewalData>): (r: Option<RenewalData>)
    ensures r.None? <==> forall x :: x in renewals ==> !LiveRenewal(x)
    ensures r.Some? ==> LatestLive(r.value, renewals)
  {
    var live := Filter(renewals, LiveRenewal);
    if live == [] then
      assert forall i :: 0 <= i < |renewals| ==> !LiveRenewal(renewals[i]);
      None
    else
      var r := LatestBy(live, RenewalTime);
      assert forall x :: x in renewals && LiveRenewal(x) ==> x in live;
      Some(r)
  }

  /** The loan a report is about: what is owed and the time payments count from. */
  datatype Loan = Loan(owed: int, start: Option<Time>)

  /**
   * The loan of the statement: the latest live renewal's amount from that
   * renewal's time on; a customer without renewal records owes the
   * original `takenAmount`, counted from `createdAt` when the customer was
   * restored. When every renewal record is archived and settled nothing is
   * owed and every payment counts.
   */
  function StatementLoan(customer: CustomerData, renewals: seq<RenewalData>): (l: Loan)
    ensures renewals == [] ==> l.owed == Num(customer.takenAmount)
    ensures renewals == [] && customer.isRestoredCustomer ==> l.start == customer.createdAt
    ensures renewals == [] && !customer.isRestoredCustomer ==> l.start == None
    ensures renewals != [] && (forall x :: x in renewals ==> !LiveRenewal(x)) ==> l == Loan(0, None)
    ensures LatestLiveRenewal(renewals).Some? ==> l.owed == Num(LatestLiveRenewal(renewals).value.takenAmount)
    ensures LatestLiveRenewal(renewals).Some? ==> l.start == RenewalTime(LatestLiveRenewal(renewals).value)
  {
    if renewals == [] then
      Loan(Num(customer.takenAmount), if customer.isRestoredCustomer then customer.createdAt else None)
    else
      match LatestLiveRenewal(renewals)
      case None => Loan(0, None)
      case Some(r) => Loan(Num(r.takenAmount), RenewalTime(r))
  }

  /**
   * The loan of a summary row: always the customer's own `takenAmount`.
   * Payments count from the latest live renewal, or from `createdAt` when
   * the customer was created after it; without renewal records, from
   * `createdAt` for a restored customer only.
   */
  function SummaryLoan(customer: CustomerData, renewals: seq<RenewalData>): (l: Loan)
    ensures l.owed == Num(customer.takenAmount)
    ensures renewals == [] && customer.isRestoredCustomer && NonZero(customer.createdAt) ==> l.start == customer.createdAt
    ensures renewals == [] && !(customer.isRestoredCustomer && NonZero(customer.createdAt)) ==> l.start == None
    ensures renewals != [] && (forall x :: x in renewals ==> !LiveRenewal(x)) ==> l.start == None
    ensures
      var latest := if LatestLiveRenewal(renewals).Some? then RenewalTime(LatestLiveRenewal(renewals).value) else None;
      && (LatestLiveRenewal(renewals).Some? && NonZero(customer.createdAt) && latest.Some? && customer.createdAt.value > latest.value
          ==> l.start == customer.createdAt)
      && (LatestLiveRenewal(renewals).Some? && !(NonZero(customer.createdAt) && latest.Some? && customer.createdAt.value > latest.value)
          ==> l.start == latest)
  {
    var owed := Num(customer.takenAmount);
    var created := customer.createdAt;
    if renewals == [] then
      Loan(owed, if customer.isRestoredCustomer && NonZero(created) then created else None)
    else
      match LatestLiveRenewal(renewals)
      case None => Loan(owed, None)
      case Some(r) =>
        var latest := RenewalTime(r);
        Loan(owed, if NonZero(created) && latest.Some? && created.value > latest.value then created else latest)
  }

  /** A summary row's loan never starts before its latest live renewal. */
  lemma SummaryStartNotBeforeRenewal(customer: CustomerData, renewals: seq<RenewalData>)
    requires LatestLiveRenewal(renewals).Some?
    requires RenewalTime(LatestLiveRenewal(renewals).value).Some?
    ensures SummaryLoan(customer, renewals).start.Some?
    ensures RenewalTime(LatestLiveRenewal(renewals).value).value <= SummaryLoan(customer, renewals).start.value
  {
  }

  /**
   * The totals of a loan: every live entry of the transaction and chat
   * files that counts from the loan's start is paid.
   */
  function LoanBalance(loan: Loan, transactions: seq<TxnData>, chat: seq<TxnData>): (b: Balance)
    ensures b.totalOwed == loan.owed
    ensures b.totalPaid == Sum(CountedPayments(Filter(transactions + chat, LivePayment), loan.start), Amount)
    ensures b.remainingAmount == b.totalOwed - b.totalPaid
  {
    BalanceAfter(loan.owed, Filter(transactions + chat, LivePayment), loan.start)
  }

  /** The live entries once `t` is appended to the chat file. */
  lemma LiveAppend(transactions: seq<TxnData>, chat: seq<TxnData>, t: TxnData)
    ensures Filter(transactions + (chat + [t]), LivePayment)
      == if LivePayment(t) then Filter(transactions + chat, LivePayment) + [t] else Filter(transactions + chat, LivePayment)
  {
    assert transactions + (chat + [t]) == (transactions + chat) + [t];
    FilterAppend(transactions + chat, t, LivePayment);
  }

  /** A payment dated before the loan's start leaves the totals as they were. */
  lemma EarlyPaymentExcluded(loan: Loan, transactions: seq<TxnData>, chat: seq<TxnData>, t: TxnData)
    requires NonZero(loan.start) && PaymentTime(t).Some? && PaymentTime(t).value < loan.start.value
    ensures LoanBalance(loan, transactions, chat + [t]) == LoanBalance(loan, transactions, chat)
  {
    LiveAppend(transactions, chat, t);
    var live := Filter(transactions + chat, LivePayment);
    CountedAppend(live, t, loan.start);
    assert !Counted(t, loan.start);
  }

  /** An archived entry of a settled loan leaves the totals as they were. */
  lemma SettledArchiveExcluded(loan: Loan, transactions: seq<TxnData>, chat: seq<TxnData>, t: TxnData)
    requires t.isArchived && t.isSettled
    ensures LoanBalance(loan, transactions, chat + [t]) == LoanBalance(loan, transactions, chat)
  {
    LiveAppend(transactions, chat, t);
  }

  /** A live payment dated at or after the start lowers what remains by its amount. */
  lemma CountedPaymentPaid(loan: Loan, transactions: seq<TxnData>, chat: seq<TxnData>, t: TxnData)
    requires LivePayment(t) && Counted(t, loan.start)
    ensures LoanBalance(loan, transactions, chat + [t]).totalPaid == LoanBalance(loan, transactions, chat).totalPaid + Amount(t)
    ensures LoanBalance(loan, transactions, chat + [t]).remainingAmount == LoanBalance(loan, transactions, chat).remainingAmount - Amount(t)
  {
    LiveAppend(transactions, chat, t);
    var live := Filter(transactions + chat, LivePayment);
    CountedAppend(live, t, loan.start);
    SumAppend(CountedPayments(live, loan.start), t, Amount);
  }

  // ------------------------------------------------------------ the statement

  /**
   * A line of the statement: what was taken and what was received on one
   * date. A single loan, renewal or payment is a row of its own before the
   * rows are merged by date.
   */
  datatype Row = Row(date: Time, taken: int, received: int)

  /** `x.date && x.takenAmount > 0`: a dated loan, as the creation and every chain record give one. */
  function LoanEntries(loans: seq<CustomerData>): (r: seq<Row>)
    ensures forall e :: e in r ==> e.received == 0
    decreases |loans|
  {
    if loans == [] then []
    else
      var c := loans[0];
      (if c.date.Some? && Num(c.takenAmount) > 0 then [Row(c.date.value, Num(c.takenAmount), 0)] else [])
      + LoanEntries(loans[1..])
  }

  /** Every dated renewal record, whatever its archive flags. */
  function RenewalEntries(renewals: seq<RenewalData>): (r: seq<Row>)
    ensures forall e :: e in r ==> e.received == 0
    decreases |renewals|
  {
    if renewals == [] then []
    else
      var x := renewals[0];
      (if x.date.Some? then [Row(x.date.value, Num(x.takenAmount), 0)] else [])
      + RenewalEntries(renewals[1..])
  }

  /** Every dated entry of the transaction and chat files, whatever its archive flags. */
  function PaymentEntries(received: seq<TxnData>): (r: seq<Row>)
    ensures forall e :: e in r ==> e.taken == 0
    decreases |received|
  {
    if received == [] then []
    else
      var t := received[0];
      (if t.date.Some? then [Row(t.date.value, 0, Num(t.amount))] else [])
      + PaymentEntries(received[1..])
  }

  /**
   * What the statement adds up, in the order the handler adds it: the
   * customer's own loan, the loans of the restoration chain, the renewals,
   * then the payments.
   */
  function StatementEntries(customer: CustomerData, chain: seq<CustomerData>, renewals: seq<RenewalData>, received: seq<TxnData>): seq<Row>
  {
    LoanEntries([customer] + chain) + RenewalEntries(renewals) + PaymentEntries(received)
  }

  /** `e` is dated `d`. */
  function At(d: Time): Row -> bool
  {
    (e: Row) => e.date == d
  }

  /** The entries dated `d`. */
  function On(entries: seq<Row>, d: Time): seq<Row>
  {
    Filter(entries, At(d))
  }

  function Taken(e: Row): int { e.taken }

  function Received(e: Row): int { e.received }

  /** Everything taken on `d`. */
  function TakenOn(entries: seq<Row>, d: Time): int
  {
    Sum(On(entries, d), Taken)
  }

  /** Everything received on `d`. */
  function ReceivedOn(entries: seq<Row>, d: Time): int
  {
    Sum(On(entries, d), Received)
  }

  /**
   * Statement dates are always present, so they are plain `Time`s here. The
   * collections report keeps its own version over `Option<Time>`, where a
   * missing date sorts last; mapping these dates through `Some` to share it
   * would put `Some` into every statement row and its lemmas.
   */
  predicate StrictlyAscending(ds: seq<Time>)
  {
    forall i, j | 0 <= i < j < |ds| :: ds[i] < ds[j]
  }

  /** Adds `d` to the ascending dates `ds` unless it is there already. */
  function InsertDate(d: Time, ds: seq<Time>): (r: seq<Time>)
    requires StrictlyAscending(ds)
    ensures StrictlyAscending(r)
    ensures forall x :: x in r <==> x == d || x in ds
    decreases |ds|
  {
    if ds == [] then [d]
    else if d < ds[0] then
      assert forall x :: x in [d] + ds <==> x == d || x in ds;
      [d] + ds
    else if d == ds[0] then ds
    else
      var rest := InsertDate(d, ds[1..]);
      var r := [ds[0]] + rest;
      assert forall x :: x in ds[1..] ==> ds[0] < x;
      assert forall j :: 0 <= j < |rest| ==> ds[0] < rest[j] by {
        forall j | 0 <= j < |rest| ensures ds[0] < rest[j] {
          assert rest[j] in rest;
        }
      }
      assert StrictlyAscending(r) by {
        forall i, j | 0 <= i < j < |r| ensures r[i] < r[j] {
          assert r[j] == rest[j - 1];
          if i > 0 {
            assert r[i] == rest[i - 1];
          }
        }
      }
      assert forall x :: x in ds <==> x == ds[0] || x in ds[1..] by {
        assert ds == [ds[0]] + ds[1..];
      }
      r
  }

  /** The distinct dates of the entries, ascending. */
  function Dates(entries: seq<Row>): (r: seq<Time>)
    ensures StrictlyAscending(r)
    ensures forall e :: e in entries ==> e.date in r
    decreases |entries|
  {
    if entries == [] then []
    else
      var init := entries[..|entries| - 1];
      var last := entries[|entries| - 1];
      assert entries == init + [last];
      InsertDate(last.date, Dates(init))
  }

  /** Every date of the list is the date of an entry. */
  lemma {:induction false} DatesOfEntries(entries: seq<Row>, x: Time)
    requires x in Dates(entries)
    ensures exists e :: e in entries && e.date == x
    decreases |entries|
  {
    var init := entries[..|entries| - 1];
    var last := entries[|entries| - 1];
    assert entries == init + [last];
    if x != last.date {
      DatesOfEntries(init, x);
      var e :| e in init && e.date == x;
      assert e in entries;
    }
  }

  lemma DatesAppend(entries: seq<Row>, e: Row)
    ensures Dates(entries + [e]) == InsertDate(e.date, Dates(entries))
  {
    assert (entries + [e])[..|entries|] == entries;
  }

  /** `statementMap.get(e.date) || {date, taken: 0, received: 0}` with `e`'s amounts added. */
  function Added(m: map<Time, Row>, e: Row): Row
  {
    var base := if e.date in m then m[e.date] else Row(e.date, 0, 0);
    Row(e.date, base.taken + e.taken, base.received + e.received)
  }

  /** The statement map once the entries are added one after the other. */
  function Aggregated(entries: seq<Row>): map<Time, Row>
    decreases |entries|
  {
    if entries == [] then map[]
    else
      var m := Aggregated(entries[..|entries| - 1]);
      var e := entries[|entries| - 1];
      m[e.date := Added(m, e)]
  }

  lemma {:induction false} SumZero<T>(s: seq<T>, f: T -> int)
    requires forall x :: x in s ==> f(x) == 0
    ensures Sum(s, f) == 0
    decreases |s|
  {
    if s != [] {
      assert forall x :: x in s[..|s| - 1] ==> x in s;
      SumZero(s[..|s| - 1], f);
    }
  }

  /** One more entry adds its amounts to the sums of its own date only. */
  lemma OnAppend(entries: seq<Row>, e: Row, d: Time)
    ensures TakenOn(entries + [e], d) == TakenOn(entries, d) + (if e.date == d then e.taken else 0)
    ensures ReceivedOn(entries + [e], d) == ReceivedOn(entries, d) + (if e.date == d then e.received else 0)
  {
    FilterAppend(entries, e, At(d));
    if e.date == d {
      SumAppend(On(entries, d), e, Taken);
      SumAppend(On(entries, d), e, Received);
    }
  }

  /** Nothing is taken or received on a date no entry has. */
  lemma NoneOn(entries: seq<Row>, d: Time)
    requires d !in Dates(entries)
    ensures TakenOn(entries, d) == 0 && ReceivedOn(entries, d) == 0
  {
    assert forall x :: x in On(entries, d) ==> x in entries && x.date == d;
    SumZero(On(entries, d), Taken);
    SumZero(On(entries, d), Received);
  }

  /** The map holds one row per date of the entries, with that date's sums. */
  ghost predicate SumsByDate(m: map<Time, Row>, entries: seq<Row>)
  {
    && (forall d :: d in m <==> d in Dates(entries))
    && (forall d :: d in m ==> m[d] == Row(d, TakenOn(entries, d), ReceivedOn(entries, d)))
  }

  /** After one more entry, the row of its date when that date had a row already. */
  lemma SumsAtSeenDate(m: map<Time, Row>, entries: seq<Row>, e: Row)
    requires e.date in m && m[e.date] == Row(e.date, TakenOn(entries, e.date), ReceivedOn(entries, e.date))
    ensures m[e.date := Added(m, e)][e.date] == Row(e.date, TakenOn(entries + [e], e.date), ReceivedOn(entries + [e], e.date))
  {
    OnAppend(entries, e, e.date);
  }

  /** After one more entry, the row of its date when that date is new. */
  lemma SumsAtNewDate(m: map<Time, Row>, entries: seq<Row>, e: Row)
    requires e.date !in m && e.date !in Dates(entries)
    ensures m[e.date := Added(m, e)][e.date] == Row(e.date, TakenOn(entries + [e], e.date), ReceivedOn(entries + [e], e.date))
  {
    NoneOn(entries, e.date);
    OnAppend(entries, e, e.date);
    assert TakenOn(entries + [e], e.date) == e.taken;
    assert ReceivedOn(entries + [e], e.date) == e.received;
  }

  /** After one more entry, the row of another date. */
  lemma SumsAtOtherDate(m: map<Time, Row>, entries: seq<Row>, e: Row, d: Time)
    requires d in m && m[d] == Row(d, TakenOn(entries, d), ReceivedOn(entries, d)) && d != e.date
    ensures m[e.date := Added(m, e)][d] == Row(d, TakenOn(entries + [e], d), ReceivedOn(entries + [e], d))
  {
    OnAppend(entries, e, d);
  }

  /**
   * Adding the entries one by one leaves exactly one row per date, whose
   * `taken` and `received` are everything taken and received on that date.
   */
  lemma {:induction false} AggregatedSums(entries: seq<Row>)
    ensures SumsByDate(Aggregated(entries), entries)
    decreases |entries|
  {
    if entries != [] {
      var init, e := entries[..|entries| - 1], entries[|entries| - 1];
      assert entries == init + [e];
      AggregatedSums(init);
      var m := Aggregated(init);
      DatesAppend(init, e);
      forall d | d in Dates(entries)
        ensures d in Aggregated(entries)
        ensures Aggregated(entries)[d] == Row(d, TakenOn(entries, d), ReceivedOn(entries, d))
      {
        if d != e.date {
          SumsAtOtherDate(m, init, e, d);
        } else if d in Dates(init) {
          SumsAtSeenDate(m, init, e);
        } else {
          SumsAtNewDate(m, init, e);
        }
      }
    }
  }

  /** The statement map built entry by entry, as the handler's `get`/`set` pairs do. */
  method Aggregate(entries: seq<Row>) returns (m: map<Time, Row>)
    ensures m == Aggregated(entries)
  {
    m := map[];
    var i := 0;
    assert entries[..0] == [];
    while i < |entries|
      invariant 0 <= i <= |entries|
      invariant m == Aggregated(entries[..i])
    {
      var e := entries[i];
      var existing := if e.date in m then m[e.date] else Row(e.date, 0, 0);
      assert entries[..i + 1][..i] == entries[..i];
      m := m[e.date := Row(e.date, existing.taken + e.taken, existing.received + e.received)];
      i := i + 1;
    }
    assert entries[..i] == entries;
  }

  /**
   * `Array.from(statementMap.values()).sort(by date)`: the rows of the map
   * taken in the ascending order `ds` of its dates. The map holds one row
   * per date, so the order the rows were inserted in does not show after
   * sorting.
   */
  function Rows(m: map<Time, Row>, ds: seq<Time>): (rows: seq<Row>)
    requires forall i :: 0 <= i < |ds| ==> ds[i] in m
    ensures |rows| == |ds|
    ensures forall i :: 0 <= i < |ds| ==> rows[i] == m[ds[i]]
  {
    seq(|ds|, i requires 0 <= i < |ds| => m[ds[i]])
  }

  function DateOf(e: Row): Time { e.date }

  /**
   * The statement: exactly one row per date that has an entry, in strictly
   * ascending order of date; a row's `taken` is everything taken on its
   * date and its `received` everything received.
   */
  function Statement(entries: seq<Row>): (rows: seq<Row>)
    ensures Map(rows, DateOf) == Dates(entries)
    ensures forall i, j | 0 <= i < j < |rows| :: rows[i].date < rows[j].date
    ensures forall i :: 0 <= i < |rows| ==> rows[i].taken == TakenOn(entries, rows[i].date)
    ensures forall i :: 0 <= i < |rows| ==> rows[i].received == ReceivedOn(entries, rows[i].date)
  {
    AggregatedSums(entries);
    Rows(Aggregated(entries), Dates(entries))
  }

  /** The handler's statement: the map built entry by entry, its rows in date order. */
  method BuildStatement(entries: seq<Row>) returns (rows: seq<Row>)
    ensures rows == Statement(entries)
  {
    var m := Aggregate(entries);
    AggregatedSums(entries);
    rows := Rows(m, Dates(entries));
  }

  /**
   * Taken and received come from disjoint entries: on every date the
   * statement's `taken` adds up the loans and renewals of that date and
   * its `received` the payments of that date.
   */
  lemma TakenAndReceived(customer: CustomerData, chain: seq<CustomerData>, renewals: seq<RenewalData>, received: seq<TxnData>, d: Time)
    ensures TakenOn(StatementEntries(customer, chain, renewals, received), d)
      == TakenOn(LoanEntries([customer] + chain), d) + TakenOn(RenewalEntries(renewals), d)
    ensures ReceivedOn(StatementEntries(customer, chain, renewals, received), d) == ReceivedOn(PaymentEntries(received), d)
  {
    var loans, renews, pays := LoanEntries([customer] + chain), RenewalEntries(renewals), PaymentEntries(received);
    FilterConcat(loans, renews, At(d));
    FilterConcat(loans + renews, pays, At(d));
    SumConcat(On(loans, d), On(renews, d), Taken);
    SumConcat(On(loans + renews, d), On(pays, d), Taken);
    SumConcat(On(loans, d), On(renews, d), Received);
    SumConcat(On(loans + renews, d), On(pays, d), Received);
    SumZero(On(pays, d), Taken);
    SumZero(On(loans, d), Received);
    SumZero(On(renews, d), Received);
  }

  // ------------------------------------------------------------ the restoration chain

  /**
   * `deletedCustomers.find(dc => dc.deletionTimestamp === ts && dc.id === id && dc.deletedFrom === day)`.
   */
  function Deletion(deleted: seq<CustomerData>, day: string, ts: Option<Time>, id: Option<string>): (r: Option<CustomerData>)
    ensures r.Some? ==> r.value in deleted && r.value.deletionTimestamp == ts && r.value.id == id && r.value.deletedFrom == Some(day)
    ensures r.None? ==> forall dc :: dc in deleted ==> !(dc.deletionTimestamp == ts && dc.id == id && dc.deletedFrom == Some(day))
  {
    var i := FindIndex(deleted, (dc: CustomerData) => dc.deletionTimestamp == ts && dc.id == id && dc.deletedFrom == Some(day));
    if i < 0 then None else Some(deleted[i])
  }

  /** `dc.wasRestoredCustomer && dc.restoredFromTimestamp`: the walk goes on past `dc`. */
  predicate Continues(dc: CustomerData)
  {
    dc.wasRestoredCustomer && NonZero(dc.restoredFromTimestamp)
  }

  /**
   * The deleted records the walk finds from the link (`ts`, `id`) when the
   * timestamps in `visited` were seen already. Each record is found by its
   * deletion timestamp, its id and its day, and links to the next by its
   * `restoredFromTimestamp` and `restoredFromId`. The walk stops at a
   * timestamp that is missing or was seen before, at a link no record
   * matches, or at a record that was not itself restored. No timestamp is
   * visited twice, so it visits at most as many records as there are
   * deletion timestamps it has not seen.
   */
  function Restorations(deleted: seq<CustomerData>, day: string, ts: Option<Time>, id: Option<string>, visited: set<Option<Time>>)
    : (r: seq<CustomerData>)
    ensures forall d :: d in r ==> d in deleted && d.deletedFrom == Some(day) && d.deletionTimestamp !in visited
    ensures r == [] <==> !NonZero(ts) || ts in visited || Deletion(deleted, day, ts, id).None?
    ensures r != [] ==> r[0] == Deletion(deleted, day, ts, id).value
    decreases |CollectionController.Stamps(deleted) - visited|
  {
    if !NonZero(ts) || ts in visited then []
    else
      match Deletion(deleted, day, ts, id)
      case None => []
      case Some(dc) =>
        var stamps := CollectionController.Stamps(deleted);
        assert ts in stamps;
        assert stamps - (visited + {ts}) == (stamps - visited) - {ts};
        if Continues(dc) then [dc] + Restorations(deleted, day, dc.restoredFromTimestamp, dc.restoredFromId, visited + {ts})
        else [dc]
  }

  /** `a` was restored from `b`: the walk goes on from `a` to `b`. */
  predicate Link(a: CustomerData, b: CustomerData)
  {
    Continues(a) && b.deletionTimestamp == a.restoredFromTimestamp && b.id == a.restoredFromId
  }

  predicate Linked(chain: seq<CustomerData>)
  {
    forall i | 0 <= i < |chain| - 1 :: Link(chain[i], chain[i + 1])
  }

  lemma LinkedCons(a: CustomerData, rest: seq<CustomerData>)
    requires Linked(rest) && (rest != [] ==> Link(a, rest[0]))
    ensures Linked([a] + rest)
  {
    var r := [a] + rest;
    forall i | 0 <= i < |r| - 1
      ensures Link(r[i], r[i + 1])
    {
      if i > 0 {
        assert r[i] == rest[i - 1] && r[i + 1] == rest[i];
      }
    }
  }

  /** One step of the walk: the first record found, then the walk from its link with its timestamp seen. */
  lemma RestorationsStep(deleted: seq<CustomerData>, day: string, ts: Option<Time>, id: Option<string>, visited: set<Option<Time>>)
    requires Restorations(deleted, day, ts, id, visited) != []
    ensures
      var r := Restorations(deleted, day, ts, id, visited);
      var stamps := CollectionController.Stamps(deleted);
      && ts == r[0].deletionTimestamp && ts !in visited
      && |stamps - (visited + {ts})| < |stamps - visited|
      && (Continues(r[0]) ==> r == [r[0]] + Restorations(deleted, day, r[0].restoredFromTimestamp, r[0].restoredFromId, visited + {ts}))
      && (!Continues(r[0]) ==> r == [r[0]])
  {
    var stamps := CollectionController.Stamps(deleted);
    var dc := Deletion(deleted, day, ts, id).value;
    assert ts in stamps;
    assert stamps - (visited + {ts}) == (stamps - visited) - {ts};
  }

  /**
   * Each record the walk finds links to the next: it was itself restored,
   * and the next record carries the deletion timestamp and the id it was
   * restored from.
   */
  lemma {:induction false} RestorationsLinked(deleted: seq<CustomerData>, day: string, ts: Option<Time>, id: Option<string>, visited: set<Option<Time>>)
    ensures Linked(Restorations(deleted, day, ts, id, visited))
    decreases |CollectionController.Stamps(deleted) - visited|
  {
    var r := Restorations(deleted, day, ts, id, visited);
    if r != [] {
      RestorationsStep(deleted, day, ts, id, visited);
      var dc := r[0];
      if Continues(dc) {
        var rest := Restorations(deleted, day, dc.restoredFromTimestamp, dc.restoredFromId, visited + {ts});
        RestorationsLinked(deleted, day, dc.restoredFromTimestamp, dc.restoredFromId, visited + {ts});
        LinkedCons(dc, rest);
      }
    }
  }

  /**
   * The walk never visits a deletion timestamp twice, so it finds at most
   * as many records as there are deletion timestamps it has not seen.
   */
  lemma {:induction false} RestorationsDistinct(deleted: seq<CustomerData>, day: string, ts: Option<Time>, id: Option<string>, visited: set<Option<Time>>)
    ensures CollectionController.DistinctStamps(Restorations(deleted, day, ts, id, visited))
    ensures |Restorations(deleted, day, ts, id, visited)| <= |CollectionController.Stamps(deleted) - visited|
    decreases |CollectionController.Stamps(deleted) - visited|
  {
    var r := Restorations(deleted, day, ts, id, visited);
    if r != [] {
      RestorationsStep(deleted, day, ts, id, visited);
      var dc := r[0];
      if Continues(dc) {
        var rest := Restorations(deleted, day, dc.restoredFromTimestamp, dc.restoredFromId, visited + {ts});
        RestorationsDistinct(deleted, day, dc.restoredFromTimestamp, dc.restoredFromId, visited + {ts});
        assert forall j :: 0 <= j < |rest| ==> rest[j].deletionTimestamp != ts;
        DistinctCons(dc, rest);
      }
    }
  }

  lemma DistinctCons(d: CustomerData, rest: seq<CustomerData>)
    requires CollectionController.DistinctStamps(rest)
    requires forall j :: 0 <= j < |rest| ==> rest[j].deletionTimestamp != d.deletionTimestamp
    ensures CollectionController.DistinctStamps([d] + rest)
  {
    var r := [d] + rest;
    forall i, j | 0 <= i < j < |r|
      ensures r[i].deletionTimestamp != r[j].deletionTimestamp
    {
      assert r[j] == rest[j - 1];
      if i > 0 {
        assert r[i] == rest[i - 1];
      }
    }
  }

  /** The walk ends only at a record that was not restored or whose link leads nowhere new. */
  lemma {:induction false} WalkStops(deleted: seq<CustomerData>, day: string, ts: Option<Time>, id: Option<string>, visited: set<Option<Time>>)
    requires Restorations(deleted, day, ts, id, visited) != []
    ensures StopsWhereItShould(deleted, day, Restorations(deleted, day, ts, id, visited), visited)
    decreases |CollectionController.Stamps(deleted) - visited|
  {
    var r := Restorations(deleted, day, ts, id, visited);
    RestorationsStep(deleted, day, ts, id, visited);
    var dc := r[0];
    if Continues(dc) {
      var next, nextId := dc.restoredFromTimestamp, dc.restoredFromId;
      var rest := Restorations(deleted, day, next, nextId, visited + {ts});
      if rest != [] {
        WalkStops(deleted, day, next, nextId, visited + {ts});
      }
      StopsCons(deleted, day, dc, rest, visited, ts);
    }
  }

  /**
   * A walk that ends on a record that would continue ends because the
   * timestamp that record links to was visited (before the walk, or by it)
   * or has no deleted record.
   */
  predicate StopsWhereItShould(deleted: seq<CustomerData>, day: string, r: seq<CustomerData>, visited: set<Option<Time>>)
  {
    r != [] &&
    var last := r[|r| - 1];
    Continues(last) ==> last.restoredFromTimestamp in visited + CollectionController.Stamps(r)
                        || Deletion(deleted, day, last.restoredFromTimestamp, last.restoredFromId).None?
  }

  /** One step of `WalkStops`: a record put in front of the rest of the walk. */
  lemma StopsCons(deleted: seq<CustomerData>, day: string, dc: CustomerData, rest: seq<CustomerData>,
                  visited: set<Option<Time>>, ts: Option<Time>)
    requires dc.deletionTimestamp == ts && Continues(dc)
    requires rest != [] ==> StopsWhereItShould(deleted, day, rest, visited + {ts})
    requires rest == [] ==>
      (dc.restoredFromTimestamp in visited + {ts} || Deletion(deleted, day, dc.restoredFromTimestamp, dc.restoredFromId).None?)
    ensures StopsWhereItShould(deleted, day, [dc] + rest, visited)
  {
    var r := [dc] + rest;
    StampsOfCons(dc, rest);
    if rest != [] {
      assert r[|r| - 1] == rest[|rest| - 1];
    }
  }

  lemma StampsOfCons(d: CustomerData, rest: seq<CustomerData>)
    ensures CollectionController.Stamps([d] + rest) == {d.deletionTimestamp} + CollectionController.Stamps(rest)
  {
    assert forall x :: x in [d] + rest <==> x == d || x in rest;
  }

  /** The records whose loans the statement adds: the chain a restored customer came from. */
  function RestorationChain(deleted: seq<CustomerData>, day: string, customer: CustomerData): seq<CustomerData>
  {
    if customer.isRestoredCustomer && NonZero(customer.restoredFromTimestamp)
    then Restorations(deleted, day, customer.restoredFromTimestamp, customer.restoredFromId, {})
    else []
  }

  /** One pass of the loop: the record found joins the chain, and the walk goes on from its link. */
  lemma WalkAdvance(deleted: seq<CustomerData>, day: string, ts: Option<Time>, id: Option<string>, visited: set<Option<Time>>,
                    chain: seq<CustomerData>, full: seq<CustomerData>, dc: CustomerData)
    requires chain + Restorations(deleted, day, ts, id, visited) == full
    requires NonZero(ts) && ts !in visited && Deletion(deleted, day, ts, id) == Some(dc)
    ensures Continues(dc) ==> (chain + [dc]) + Restorations(deleted, day, dc.restoredFromTimestamp, dc.restoredFromId, visited + {ts}) == full
    ensures !Continues(dc) ==> chain + [dc] == full
    ensures |CollectionController.Stamps(deleted) - (visited + {ts})| < |CollectionController.Stamps(deleted) - visited|
  {
    var stamps := CollectionController.Stamps(deleted);
    assert ts in stamps;
    assert stamps - (visited + {ts}) == (stamps - visited) - {ts};
    if Continues(dc) {
      var rest := Restorations(deleted, day, dc.restoredFromTimestamp, dc.restoredFromId, visited + {ts});
      assert Restorations(deleted, day, ts, id, visited) == [dc] + rest;
      assert chain + ([dc] + rest) == (chain + [dc]) + rest;
    } else {
      assert Restorations(deleted, day, ts, id, visited) == [dc];
    }
  }

  /** The loop stops where the walk stops. */
  lemma WalkEnds(deleted: seq<CustomerData>, day: string, ts: Option<Time>, id: Option<string>, visited: set<Option<Time>>,
                 chain: seq<CustomerData>, full: seq<CustomerData>)
    requires chain + Restorations(deleted, day, ts, id, visited) == full
    requires !NonZero(ts) || ts in visited || Deletion(deleted, day, ts, id).None?
    ensures chain == full
  {
    assert chain + [] == chain;
  }

  /** The `while` loop of the handler that traces the chain back. */
  method WalkRestorations(deleted: seq<CustomerData>, day: string, customer: CustomerData) returns (chain: seq<CustomerData>)
    ensures chain == RestorationChain(deleted, day, customer)
  {
    chain := [];
    if customer.isRestoredCustomer && NonZero(customer.restoredFromTimestamp) {
      ghost var full := RestorationChain(deleted, day, customer);
      var ts, id := customer.restoredFromTimestamp, customer.restoredFromId;
      var visited: set<Option<Time>> := {};
      while NonZero(ts) && ts !in visited
        invariant chain + Restorations(deleted, day, ts, id, visited) == full
        decreases |CollectionController.Stamps(deleted) - visited|
      {
        var found := Deletion(deleted, day, ts, id);
        if found.None? {
          WalkEnds(deleted, day, ts, id, visited, chain, full);
          break;
        }
        var dc := found.value;
        WalkAdvance(deleted, day, ts, id, visited, chain, full, dc);
        visited := visited + {ts};
        chain := chain + [dc];
        if !Continues(dc) {
          break;
        }
        ts, id := dc.restoredFromTimestamp, dc.restoredFromId;
      }
      WalkEnds(deleted, day, ts, id, visited, chain, full);
    }
  }

  // ------------------------------------------------------------ the statement data

  datatype StatementData = StatementData(
    customer: CustomerData,
    totals: Balance,
    statement: seq<Row>,
    transactions: seq<TxnData>,
    chat: seq<TxnData>,
    renewals: seq<RenewalData>)

  /**
   * `getCustomerTransactionData`: nothing for a customer the day's file
   * does not hold; otherwise the totals of the current loan, the statement
   * of the whole history, and the files it was made from.
   */
  function StatementOf(st: Store, lineId: string, day: string, id: string): (r: Option<StatementData>)
    reads st
    ensures r.None? <==> FindCustomer(Read(st.customers, DayKey(lineId, day)), id).None?
    ensures r.Some? ==> r.value.customer == FindCustomer(Read(st.customers, DayKey(lineId, day)), id).value
    ensures r.Some? ==> r.value.customer.id == Some(id)
    ensures r.Some? ==> r.value.totals == LoanBalance(StatementLoan(r.value.customer, r.value.renewals), r.value.transactions, r.value.chat)
    ensures r.Some? ==> r.value.statement == Statement(StatementEntries(r.value.customer,
      RestorationChain(Read(st.deletedCustomers, lineId), day, r.value.customer), r.value.renewals, r.value.transactions + r.value.chat))
  {
    match FindCustomer(Read(st.customers, DayKey(lineId, day)), id)
    case None => None
    case Some(c) =>
      var key := FileKey(lineId, day, Owner(c));
      var transactions, chat, renewals := Read(st.transactions, key), Read(st.chat, key), Read(st.renewals, key);
      var chain := RestorationChain(Read(st.deletedCustomers, lineId), day, c);
      Some(StatementData(
        c,
        LoanBalance(StatementLoan(c, renewals), transactions, chat),
        Statement(StatementEntries(c, chain, renewals, transactions + chat)),
        transactions, chat, renewals))
  }

  /** The handler: 404 for an unknown customer, otherwise the statement data. */
  method GetCustomerTransactionData(st: Store, lineId: string, day: string, id: string) returns (status: Status, data: Option<StatementData>)
    ensures status == NotFound <==> FindCustomer(Read(st.customers, DayKey(lineId, day)), id).None?
    ensures status == NotFound || status == Ok
    ensures data == StatementOf(st, lineId, day, id)
  {
    var found := FindCustomer(Read(st.customers, DayKey(lineId, day)), id);
    if found.None? {
      return NotFound, None;
    }
    var c := found.value;
    var key := FileKey(lineId, day, Owner(c));
    var transactions, chat, renewals := Read(st.transactions, key), Read(st.chat, key), Read(st.renewals, key);
    var totals := LoanBalance(StatementLoan(c, renewals), transactions, chat);
    var chain := WalkRestorations(Read(st.deletedCustomers, lineId), day, c);
    var rows := BuildStatement(StatementEntries(c, chain, renewals, transactions + chat));
    status, data := Ok, Some(StatementData(c, totals, rows, transactions, chat, renewals));
  }

  // ------------------------------------------------------------ the collections data

  /** `dayOrder.indexOf(day)`: the position of the first equal day, -1 when absent. */
  function DayIndex(days: seq<string>, day: string): (r: int)
    ensures -1 <= r < |days|
    ensures r == -1 <==> day !in days
    ensures r >= 0 ==> days[r] == day && forall i :: 0 <= i < r ==> days[i] != day
  {
    FindIndex(days, (d: string) => d == day)
  }

  /** The sort key of a row: its day's position, then its date, latest first; no date sorts as the epoch. */
  function DayThenLatest(days: seq<string>): CollectionController.Flow -> (int, int)
  {
    (f: CollectionController.Flow) => (DayIndex(days, f.day), -f.date.GetOr(0))
  }

  /**
   * The rows in the order of the report: by the position of their day in
   * the selected days, and within a day latest first. The rows are the
   * same, each as often as before.
   */
  function Ordered(rows: seq<CollectionController.Flow>, days: seq<string>): (r: seq<CollectionController.Flow>)
    ensures multiset(r) == multiset(rows)
    ensures forall i, j | 0 <= i < j < |r| :: DayIndex(days, r[i].day) <= DayIndex(days, r[j].day)
    ensures forall i, j | 0 <= i < j < |r| && r[i].day == r[j].day :: r[j].date.GetOr(0) <= r[i].date.GetOr(0)
  {
    var key := DayThenLatest(days);
    var sorted := Sorting.SortBy(rows, key);
    assert forall i, j | 0 <= i < j < |sorted| :: Sorting.KeyLe(key(sorted[i]), key(sorted[j]));
    sorted
  }

  /** `t.date >= dateFrom && t.date <= dateTo`, applied only when both ends are given. */
  function InRange(rows: seq<CollectionController.Flow>, dateFrom: Option<Time>, dateTo: Option<Time>): (r: seq<CollectionController.Flow>)
    ensures forall f :: f in r <==> f in rows && (dateFrom.Some? && dateTo.Some? ==> f.date.Some? && dateFrom.value <= f.date.value <= dateTo.value)
    ensures dateFrom.None? || dateTo.None? ==> r == rows
  {
    CollectionController.DateFiltered(rows, None, dateFrom, dateTo)
  }

  datatype CollectionsData = CollectionsData(
    selectedDays: seq<string>,
    incoming: seq<CollectionController.Flow>,
    going: seq<CollectionController.Flow>,
    totals: CollectionController.Totals,
    bfAmount: int)

  /** `line?.currentBF || 0`. */
  function CurrentBF(lines: seq<LineData>, lineId: string): (bf: int)
    ensures FindLine(lines, lineId).Some? && NonZero(FindLine(lines, lineId).value.currentBF) ==> bf == FindLine(lines, lineId).value.currentBF.value
    ensures !(FindLine(lines, lineId).Some? && NonZero(FindLine(lines, lineId).value.currentBF)) ==> bf == 0
  {
    match FindLine(lines, lineId)
    case Some(l) => if NonZero(l.currentBF) then l.currentBF.value else 0
    case None => 0
  }

  /**
   * `getCollectionsData` from the rows it gathers for the selected days:
   * the rows in the date range, ordered by day then latest first, their
   * totals and the net flow, and the line's current BF.
   */
  function CollectionsDataOf(lines: seq<LineData>, storedDays: map<string, seq<string>>, lineId: string, daysQuery: Option<string>,
                             incoming: seq<CollectionController.Flow>, going: seq<CollectionController.Flow>,
                             dateFrom: Option<Time>, dateTo: Option<Time>): (r: CollectionsData)
    ensures r.selectedDays == CollectionController.SelectedDays(daysQuery, storedDays, lineId)
    ensures multiset(r.incoming) == multiset(InRange(incoming, dateFrom, dateTo))
    ensures multiset(r.going) == multiset(InRange(going, dateFrom, dateTo))
    ensures forall i, j | 0 <= i < j < |r.incoming| :: DayIndex(r.selectedDays, r.incoming[i].day) <= DayIndex(r.selectedDays, r.incoming[j].day)
    ensures forall i, j | 0 <= i < j < |r.going| :: DayIndex(r.selectedDays, r.going[i].day) <= DayIndex(r.selectedDays, r.going[j].day)
    ensures r.totals.incoming == CollectionController.Total(r.incoming)
    ensures r.totals.going == CollectionController.Total(r.going)
    ensures r.totals.netFlow == r.totals.incoming - r.totals.going
    ensures r.bfAmount == CurrentBF(lines, lineId)
  {
    var days := CollectionController.SelectedDays(daysQuery, storedDays, lineId);
    var inc := Ordered(InRange(incoming, dateFrom, dateTo), days);
    var out := Ordered(InRange(going, dateFrom, dateTo), days);
    var tIn, tOut := CollectionController.Total(inc), CollectionController.Total(out);
    CollectionsData(days, inc, out, CollectionController.Totals(tIn, tOut, tIn - tOut), CurrentBF(lines, lineId))
  }

  // ------------------------------------------------------------ the customer summary

  datatype CustomerTotals = CustomerTotals(id: Option<string>, name: Option<string>, day: string, totals: Balance)

  datatype DaySummary = DaySummary(day: string, customers: seq<CustomerTotals>)

  datatype SummaryData = SummaryData(selectedDays: seq<string>, isSelectAllDays: bool, summary: seq<DaySummary>, bfAmount: int)

  /** A customer's row of the summary: what the customer owes on the own loan, and what was paid since it started. */
  function CustomerTotalsOf(transactions: map<FileKey, seq<TxnData>>, chat: map<FileKey, seq<TxnData>>,
                            renewals: map<FileKey, seq<RenewalData>>, lineId: string, day: string, c: CustomerData)
    : (r: CustomerTotals)
    ensures r.id == c.id && r.name == c.name && r.day == day
    ensures r.totals.totalOwed == Num(c.takenAmount)
    ensures r.totals.remainingAmount == Num(c.takenAmount) - r.totals.totalPaid
    ensures
      var key := FileKey(lineId, day, Owner(c));
      r.totals == LoanBalance(SummaryLoan(c, Read(renewals, key)), Read(transactions, key), Read(chat, key))
  {
    var key := FileKey(lineId, day, Owner(c));
    CustomerTotals(c.id, c.name, day, LoanBalance(SummaryLoan(c, Read(renewals, key)), Read(transactions, key), Read(chat, key)))
  }

  /** `CustomerTotalsOf` for the customers of one day. */
  function TotalsOf(transactions: map<FileKey, seq<TxnData>>, chat: map<FileKey, seq<TxnData>>,
                    renewals: map<FileKey, seq<RenewalData>>, lineId: string, day: string): CustomerData -> CustomerTotals
  {
    (c: CustomerData) => CustomerTotalsOf(transactions, chat, renewals, lineId, day, c)
  }

  /** The files the summary reads. */
  datatype SummaryFiles = SummaryFiles(
    customers: map<DayKey, seq<CustomerData>>,
    transactions: map<FileKey, seq<TxnData>>,
    chat: map<FileKey, seq<TxnData>>,
    renewals: map<FileKey, seq<RenewalData>>)

  /** `customers.map(...)`: a summary row for each customer, in file order. */
  function CustomerRows(files: SummaryFiles, lineId: string, day: string, customers: seq<CustomerData>): (r: seq<CustomerTotals>)
    ensures |r| == |customers|
    ensures forall i :: 0 <= i < |customers| ==>
      r[i] == CustomerTotalsOf(files.transactions, files.chat, files.renewals, lineId, day, customers[i])
  {
    Map(customers, TotalsOf(files.transactions, files.chat, files.renewals, lineId, day))
  }

  /** The summary of one day: a row for every customer of the day's file. */
  function DaySummaryOf(files: SummaryFiles, lineId: string, day: string): (r: DaySummary)
    ensures r.day == day
    ensures r.customers == CustomerRows(files, lineId, day, Read(files.customers, DayKey(lineId, day)))
  {
    DaySummary(day, CustomerRows(files, lineId, day, Read(files.customers, DayKey(lineId, day))))
  }

  /** The summaries of the days, in the order given. */
  function Summaries(files: SummaryFiles, lineId: string, days: seq<string>): (r: seq<DaySummary>)
    ensures |r| == |days|
    ensures forall i :: 0 <= i < |days| ==> r[i].day == days[i]
    decreases |days|
  {
    if days == [] then []
    else Summaries(files, lineId, days[..|days| - 1]) + [DaySummaryOf(files, lineId, days[|days| - 1])]
  }

  /** The entry of each selected day is that day's summary. */
  lemma {:induction false} SummaryOfEachDay(files: SummaryFiles, lineId: string, days: seq<string>, i: int)
    requires 0 <= i < |days|
    ensures Summaries(files, lineId, days)[i] == DaySummaryOf(files, lineId, days[i])
    decreases |days|
  {
    if i < |days| - 1 {
      var init := days[..|days| - 1];
      SummaryOfEachDay(files, lineId, init, i);
      assert Summaries(files, lineId, days)[i] == Summaries(files, lineId, init)[i];
    }
  }

  /** `getCustomerSummaryData`: one entry per selected day, in the order the days were selected. */
  method GetCustomerSummaryData(st: Store, lineId: string, daysQuery: Option<string>, selectAllDays: Option<string>) returns (data: SummaryData)
    ensures data.selectedDays == CollectionController.SelectedDays(daysQuery, st.days, lineId)
    ensures data.isSelectAllDays <==> selectAllDays == Some("true")
    ensures data.summary == Summaries(SummaryFiles(st.customers, st.transactions, st.chat, st.renewals), lineId, data.selectedDays)
    ensures data.bfAmount == CurrentBF(st.lines, lineId)
  {
    var days := CollectionController.SelectedDays(daysQuery, st.days, lineId);
    var files := SummaryFiles(st.customers, st.transactions, st.chat, st.renewals);
    var summary: seq<DaySummary> := [];
    for i := 0 to |days|
      invariant summary == Summaries(files, lineId, days[..i])
    {
      assert days[..i + 1][..i] == days[..i];
      summary := summary + [DaySummaryOf(files, lineId, days[i])];
    }
    assert days[..|days|] == days;
    data := SummaryData(days, selectAllDays == Some("true"), summary, CurrentBF(st.lines, lineId));
  }
}
