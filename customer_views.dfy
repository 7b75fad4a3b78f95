/**
 * The read-only customer handlers: the day listing and the detail view with
 * their balances, the overdue report across all days of a line, the tab of
 * deleted customers, and the suggestion of the next free customer id.
 */
module CustomerViews {
  import opened Common
  import Text
  import opened CustomerModel
  import opened TransactionModel
  import opened FileStore
  import opened CustomerBalance

  // ------------------------------------------------------------ listing and detail

  /**
   * The latest renewal's terms laid over a customer as the day listing does
   * it: a renewal's `interest` and `pc` replace the customer's whenever they
   * are present, even when 0.
   */
  function ListOverlay(c: CustomerData, r: RenewalData): (o: CustomerData)
    ensures o.date == r.date && o.takenAmount == r.takenAmount
    ensures r.interest.Some? ==> o.interest == r.interest
    ensures r.interest.None? ==> o.interest == c.interest
    ensures r.pc.Some? ==> o.pc == r.pc
    ensures r.pc.None? ==> o.pc == c.pc
    ensures NonZero(r.weeks) ==> o.weeks == r.weeks
    ensures !NonZero(r.weeks) ==> o.weeks == c.weeks
    ensures o.id == c.id && o.internalId == c.internalId && o.name == c.name && o.createdAt == c.createdAt
  {
    c.(date := r.date,
       interest := if r.interest.Some? then r.interest else c.interest,
       pc := if r.pc.Some? then r.pc else c.pc,
       weeks := if NonZero(r.weeks) then r.weeks else c.weeks,
       takenAmount := r.takenAmount)
  }

  /**
   * The same overlay as the detail view and the overdue report do it: a
   * renewal's `interest` and `pc` of 0 fall back to the customer's.
   */
  function DetailOverlay(c: CustomerData, r: RenewalData): (o: CustomerData)
    ensures o.date == r.date && o.takenAmount == r.takenAmount
    ensures NonZero(r.interest) ==> o.interest == r.interest
    ensures !NonZero(r.interest) ==> o.interest == c.interest
    ensures NonZero(r.pc) ==> o.pc == r.pc
    ensures !NonZero(r.pc) ==> o.pc == c.pc
    ensures NonZero(r.weeks) ==> o.weeks == r.weeks
    ensures !NonZero(r.weeks) ==> o.weeks == c.weeks
    ensures o.id == c.id && o.internalId == c.internalId && o.name == c.name && o.createdAt == c.createdAt
  {
    c.(date := r.date,
       interest := if NonZero(r.interest) then r.interest else c.interest,
       pc := if NonZero(r.pc) then r.pc else c.pc,
       weeks := if NonZero(r.weeks) then r.weeks else c.weeks,
       takenAmount := r.takenAmount)
  }

  /** A customer of the day listing: the overlaid record, `hasRenewals`, and the balance. */
  datatype Listed = Listed(customer: CustomerData, hasRenewals: bool, balance: Balance)

  /** A customer of the detail view: the overlaid record and the balance. */
  datatype Shown = Shown(customer: CustomerData, balance: Balance)

  /** The file key of a customer's transaction, chat and renewal files. */
  function FilesOf(lineId: string, day: string, c: CustomerData): FileKey
  {
    FileKey(lineId, day, Owner(c))
  }

  function ListEntry(c: CustomerData, transactions: seq<TxnData>, renewals: seq<RenewalData>): Listed
  {
    var balance := ViewBalance(c, transactions, renewals);
    match LatestRenewal(renewals)
    case None => Listed(c, false, balance)
    case Some(r) => Listed(ListOverlay(c, r), true, balance)
  }

  function DetailEntry(c: CustomerData, transactions: seq<TxnData>, renewals: seq<RenewalData>): Shown
  {
    var balance := ViewBalance(c, transactions, renewals);
    match LatestRenewal(renewals)
    case None => Shown(c, balance)
    case Some(r) => Shown(DetailOverlay(c, r), balance)
  }

  /**
   * `getCustomersByLineAndDay`: every active customer of the day, in file
   * order, with the balance of its current loan; the customer's identity
   * and file key are never changed by the overlay.
   */
  function CustomersByLineAndDay(
    customers: seq<CustomerData>, transactions: map<FileKey, seq<TxnData>>,
    renewals: map<FileKey, seq<RenewalData>>, lineId: string, day: string)
    : (r: seq<Listed>)
    ensures |r| == |customers|
    ensures forall i :: 0 <= i < |customers| ==>
      var k := FilesOf(lineId, day, customers[i]);
      && r[i].balance == ViewBalance(customers[i], Read(transactions, k), Read(renewals, k))
      && (r[i].hasRenewals <==> Read(renewals, k) != [])
      && r[i].customer.id == customers[i].id
      && Owner(r[i].customer) == Owner(customers[i])
      && (LatestRenewal(Read(renewals, k)).None? ==> r[i].customer == customers[i])
      && (LatestRenewal(Read(renewals, k)).Some? ==>
            r[i].customer == ListOverlay(customers[i], LatestRenewal(Read(renewals, k)).value))
  {
    Map(customers, (c: CustomerData) =>
      ListEntry(c, Read(transactions, FilesOf(lineId, day, c)), Read(renewals, FilesOf(lineId, day, c))))
  }

  /** A handler's answer: a status and, on success, a body. */
  datatype Reply<T> = Reply(status: Status, body: Option<T>)

  /**
   * `getCustomerById`: 400 when the `lineId` or `day` query parameter is
   * missing or empty, 404 when no active customer of that day has the id,
   * otherwise the first such customer with its balance.
   */
  function CustomerById(
    customers: map<DayKey, seq<CustomerData>>, transactions: map<FileKey, seq<TxnData>>,
    renewals: map<FileKey, seq<RenewalData>>, id: string, lineId: Option<string>, day: Option<string>)
    : (r: Reply<Shown>)
    ensures r.status == BadRequest <==> !Truthy(lineId) || !Truthy(day)
    ensures r.status == NotFound <==>
      Truthy(lineId) && Truthy(day) && FindCustomer(Read(customers, DayKey(lineId.value, day.value)), id).None?
    ensures r.status == Ok <==> r.body.Some?
    ensures r.status == Ok || r.status == BadRequest || r.status == NotFound
    ensures r.status == Ok ==>
      var c := FindCustomer(Read(customers, DayKey(lineId.value, day.value)), id).value;
      var k := FilesOf(lineId.value, day.value, c);
      && c.id == Some(id)
      && r.body.value.balance == ViewBalance(c, Read(transactions, k), Read(renewals, k))
      && Owner(r.body.value.customer) == Owner(c)
      && (LatestRenewal(Read(renewals, k)).None? ==> r.body.value.customer == c)
      && (LatestRenewal(Read(renewals, k)).Some? ==>
            r.body.value.customer == DetailOverlay(c, LatestRenewal(Read(renewals, k)).value))
  {
    if !Truthy(lineId) || !Truthy(day) then Reply(BadRequest, None)
    else
      match FindCustomer(Read(customers, DayKey(lineId.value, day.value)), id)
      case None => Reply(NotFound, None)
      case Some(c) =>
        var k := FilesOf(lineId.value, day.value, c);
        Reply(Ok, Some(DetailEntry(c, Read(transactions, k), Read(renewals, k))))
  }

  /**
   * A payment recorded at `now` through the quick or chat form counts
   * against the loan shown in the views unless it is dated before the
   * latest renewal, and then lowers what remains by its amount.
   */
  lemma PaymentAtNowLowersRemaining(
    c: CustomerData, transactions: seq<TxnData>, renewals: seq<RenewalData>, p: TxnData, now: Time)
    requires p.createdAt == Some(now)
    requires !NonZero(Cutoff(renewals)) || now >= Cutoff(renewals).value
    ensures ViewBalance(c, transactions + [p], renewals).remainingAmount
      == ViewBalance(c, transactions, renewals).remainingAmount - Num(p.amount)
  {
    CountedPaymentLowersRemaining(c, transactions, renewals, p);
  }

  // ------------------------------------------------------------ overdue report

  /** `parseInt(weeks) || 12`. */
  function WeeksOf(c: CustomerData): int
  {
    if NonZero(c.weeks) then c.weeks.value else 12
  }

  /** The end of the loan term: the effective date plus seven days per week; none without a date. */
  function DueTime(c: CustomerData): Option<Time>
  {
    if c.date.None? then None else Some(c.date.value + 7 * WeeksOf(c) * DayMs)
  }

  /** A customer of the overdue report. */
  datatype Pending = Pending(customer: CustomerData, dayName: string, balance: Balance, daysOverdue: int, dueDate: Time)

  /**
   * Whether the overlaid customer `c` of `day` is overdue at `now`: something
   * remains to be paid and the term has ended. An overdue customer is
   * reported with the whole days elapsed since the end of the term and the
   * calendar day on which the term ended.
   */
  function Assess(c: CustomerData, day: string, balance: Balance, now: Time): (r: Option<Pending>)
    ensures r.Some? <==> balance.remainingAmount > 0 && DueTime(c).Some? && now > DueTime(c).value
    ensures r.Some? ==> r.value.customer == c && r.value.dayName == day && r.value.balance == balance
    ensures r.Some? ==> r.value.daysOverdue >= 0
  {
    match DueTime(c)
    case None => None
    case Some(end) =>
      if balance.remainingAmount > 0 && now > end then
        var elapsed := (now - end) / DayMs;
        Some(Pending(c, day, balance, if elapsed < 0 then 0 else elapsed, end - end % DayMs))
      else None
  }

  /**
   * An overdue customer's `daysOverdue` is the number of whole days since
   * the end of the term, and `dueDate` the start of the day the term ended.
   */
  lemma AssessTiming(c: CustomerData, day: string, balance: Balance, now: Time)
    requires Assess(c, day, balance, now).Some?
    ensures var p := Assess(c, day, balance, now).value;
      p.daysOverdue * DayMs <= now - DueTime(c).value < (p.daysOverdue + 1) * DayMs
    ensures var p := Assess(c, day, balance, now).value;
      p.dueDate <= DueTime(c).value < p.dueDate + DayMs && p.dueDate % DayMs == 0
  {
  }

  /**
   * The report's verdict on one customer of a day: the customer overlaid
   * with its latest renewal as the detail view does, assessed with the
   * balance of its current loan.
   */
  function Verdict(
    c: CustomerData, transactions: map<FileKey, seq<TxnData>>, renewals: map<FileKey, seq<RenewalData>>,
    lineId: string, day: string, now: Time): Option<Pending>
  {
    var k := FilesOf(lineId, day, c);
    var shown := DetailEntry(c, Read(transactions, k), Read(renewals, k));
    Assess(shown.customer, day, shown.balance, now)
  }

  /** The verdict on one customer of a day, as a list of at most one entry. */
  function PendingEntry(
    c: CustomerData, transactions: map<FileKey, seq<TxnData>>, renewals: map<FileKey, seq<RenewalData>>,
    lineId: string, day: string, now: Time): (r: seq<Pending>)
    ensures |r| <= 1
    ensures forall p :: p in r <==> Verdict(c, transactions, renewals, lineId, day, now) == Some(p)
    ensures forall p :: p in r ==> p.balance.remainingAmount > 0 && p.daysOverdue >= 0 && p.dayName == day
  {
    match Verdict(c, transactions, renewals, lineId, day, now)
    case None => []
    case Some(p) => [p]
  }

  /** `PendingEntry` for the customers of one day. */
  function PendingEntryOf(
    transactions: map<FileKey, seq<TxnData>>, renewals: map<FileKey, seq<RenewalData>>,
    lineId: string, day: string, now: Time): CustomerData -> seq<Pending>
  {
    (c: CustomerData) => PendingEntry(c, transactions, renewals, lineId, day, now)
  }

  /** Whether `p` may be reported for `day`. */
  predicate OverdueOn(day: string, p: Pending)
  {
    p.balance.remainingAmount > 0 && p.daysOverdue >= 0 && p.dayName == day
  }

  /** The overdue customers of one day file, in file order. */
  function PendingOfDay(
    file: seq<CustomerData>, transactions: map<FileKey, seq<TxnData>>, renewals: map<FileKey, seq<RenewalData>>,
    lineId: string, day: string, now: Time): (r: seq<Pending>)
    ensures |r| <= |file|
    ensures forall i :: 0 <= i < |r| ==> r[i].balance.remainingAmount > 0 && r[i].daysOverdue >= 0
    ensures forall i :: 0 <= i < |r| ==> r[i].dayName == day
    ensures forall c :: c in file && Verdict(c, transactions, renewals, lineId, day, now).Some? ==>
      Verdict(c, transactions, renewals, lineId, day, now).value in r
    ensures forall p :: p in r ==> exists c :: c in file && Verdict(c, transactions, renewals, lineId, day, now) == Some(p)
  {
    var entry := PendingEntryOf(transactions, renewals, lineId, day, now);
    ConcatBounded(file, entry, (p: Pending) => OverdueOn(day, p));
    PendingOfDayExactly(file, transactions, renewals, lineId, day, now);
    var r := Concat(file, entry);
    assert forall i :: 0 <= i < |r| ==> r[i] in r;
    r
  }

  /** The joined day entries hold exactly the verdicts on the day's customers. */
  lemma PendingOfDayExactly(
    file: seq<CustomerData>, transactions: map<FileKey, seq<TxnData>>, renewals: map<FileKey, seq<RenewalData>>,
    lineId: string, day: string, now: Time)
    ensures var r := Concat(file, PendingEntryOf(transactions, renewals, lineId, day, now));
      forall c :: c in file && Verdict(c, transactions, renewals, lineId, day, now).Some? ==>
        Verdict(c, transactions, renewals, lineId, day, now).value in r
    ensures var r := Concat(file, PendingEntryOf(transactions, renewals, lineId, day, now));
      forall p :: p in r ==> exists c :: c in file && Verdict(c, transactions, renewals, lineId, day, now) == Some(p)
  {
    var entry := PendingEntryOf(transactions, renewals, lineId, day, now);
    var r := Concat(file, entry);
    forall c | c in file && Verdict(c, transactions, renewals, lineId, day, now).Some?
      ensures Verdict(c, transactions, renewals, lineId, day, now).value in r
    {
      var p := Verdict(c, transactions, renewals, lineId, day, now).value;
      assert p in entry(c);
      ConcatExactly(file, entry, p);
    }
    forall p | p in r
      ensures exists c :: c in file && Verdict(c, transactions, renewals, lineId, day, now) == Some(p)
    {
      ConcatExactly(file, entry, p);
      var c :| c in file && p in entry(c);
      assert Verdict(c, transactions, renewals, lineId, day, now) == Some(p);
    }
  }

  /** The report of a day file grows, in file order, by the verdict on each customer appended to it. */
  lemma PendingOfDayAppend(
    file: seq<CustomerData>, c: CustomerData, transactions: map<FileKey, seq<TxnData>>,
    renewals: map<FileKey, seq<RenewalData>>, lineId: string, day: string, now: Time)
    ensures PendingOfDay(file + [c], transactions, renewals, lineId, day, now)
      == PendingOfDay(file, transactions, renewals, lineId, day, now)
         + PendingEntry(c, transactions, renewals, lineId, day, now)
  {
  }

  /** The overdue customers of the listed days, day by day. */
  function PendingOf(
    days: seq<string>, customers: map<DayKey, seq<CustomerData>>, transactions: map<FileKey, seq<TxnData>>,
    renewals: map<FileKey, seq<RenewalData>>, lineId: string, now: Time): (r: seq<Pending>)
    ensures forall i :: 0 <= i < |r| ==> r[i].balance.remainingAmount > 0 && r[i].daysOverdue >= 0
    ensures forall i :: 0 <= i < |r| ==> r[i].dayName in days
    ensures forall d, c ::
      (d in days && c in Read(customers, DayKey(lineId, d)) && Verdict(c, transactions, renewals, lineId, d, now).Some?)
      ==> Verdict(c, transactions, renewals, lineId, d, now).value in r
    ensures forall p :: p in r ==>
      exists d, c :: d in days && c in Read(customers, DayKey(lineId, d)) && Verdict(c, transactions, renewals, lineId, d, now) == Some(p)
    decreases |days|
  {
    if days == [] then []
    else
      var day := days[|days| - 1];
      var init := days[..|days| - 1];
      var rest := PendingOf(init, customers, transactions, renewals, lineId, now);
      var here := PendingOfDay(Read(customers, DayKey(lineId, day)), transactions, renewals, lineId, day, now);
      assert forall i :: 0 <= i < |rest| ==> rest[i].dayName in init;
      assert forall d :: d in days ==> d in init || d == day;
      assert forall d :: d in init ==> d in days;
      rest + here
  }

  /** The report of the listed days grows, day by day, by the report of each day appended to them. */
  lemma PendingOfAppendDay(
    days: seq<string>, day: string, customers: map<DayKey, seq<CustomerData>>, transactions: map<FileKey, seq<TxnData>>,
    renewals: map<FileKey, seq<RenewalData>>, lineId: string, now: Time)
    ensures PendingOf(days + [day], customers, transactions, renewals, lineId, now)
      == PendingOf(days, customers, transactions, renewals, lineId, now)
         + PendingOfDay(Read(customers, DayKey(lineId, day)), transactions, renewals, lineId, day, now)
  {
  }

  /** The inner loop of `getPendingCustomers`: the overdue customers of one day file. */
  method ScanDayForPending(
    file: seq<CustomerData>, transactions: map<FileKey, seq<TxnData>>, renewals: map<FileKey, seq<RenewalData>>,
    lineId: string, day: string, now: Time)
    returns (found: seq<Pending>)
    ensures found == PendingOfDay(file, transactions, renewals, lineId, day, now)
  {
    found := ConcatEach(file, PendingEntryOf(transactions, renewals, lineId, day, now));
  }

  /**
   * `getPendingCustomers`: walks the days of the line and the customers of
   * each day, collecting the overdue ones. A line without days yields none.
   */
  method GetPendingCustomers(st: Store, lineId: string, now: Time) returns (pending: seq<Pending>)
    ensures pending == PendingOf(Read(st.days, lineId), st.customers, st.transactions, st.renewals, lineId, now)
    ensures Read(st.days, lineId) == [] ==> pending == []
    ensures forall i :: 0 <= i < |pending| ==> pending[i].balance.remainingAmount > 0 && pending[i].daysOverdue >= 0
  {
    var days := Read(st.days, lineId);
    pending := [];
    if days == [] {
      return;
    }
    var d := 0;
    while d < |days|
      invariant 0 <= d <= |days|
      invariant pending == PendingOf(days[..d], st.customers, st.transactions, st.renewals, lineId, now)
    {
      var day := days[d];
      var found := ScanDayForPending(Read(st.customers, DayKey(lineId, day)), st.transactions, st.renewals, lineId, day, now);
      assert days[..d + 1][..d] == days[..d];
      pending := pending + found;
      d := d + 1;
    }
    assert days[..d] == days;
  }

  // ------------------------------------------------------------ deleted customers

  /** A customer of the deleted tab, with the amount to display. */
  datatype DeletedView = DeletedView(customer: CustomerData, displayTakenAmount: Option<int>)

  /**
   * The amount shown for a deleted customer: the latest archived renewal's
   * `takenAmount` when it is a non-zero number, else the record's own.
   */
  function DisplayTakenAmount(c: CustomerData, archived: seq<RenewalData>): (r: Option<int>)
    ensures archived == [] ==> r == c.takenAmount
    ensures archived != [] && NonZero(LatestRenewal(archived).value.takenAmount) ==> r == LatestRenewal(archived).value.takenAmount
    ensures archived != [] && !NonZero(LatestRenewal(archived).value.takenAmount) ==> r == c.takenAmount
  {
    match LatestRenewal(archived)
    case None => c.takenAmount
    case Some(latest) => if NonZero(latest.takenAmount) then latest.takenAmount else c.takenAmount
  }

  /** The archive key of a deleted record: the day it was deleted from and its internal id. */
  function ArchiveOf(lineId: string, c: CustomerData): FileKey
  {
    FileKey(lineId, JsText(c.deletedFrom), Owner(c))
  }

  predicate NotRestored(c: CustomerData)
  {
    !c.isRestored
  }

  /** `getDeletedCustomers`: the deleted records not yet restored, in file order, with their display amounts. */
  function DeletedCustomers(deleted: seq<CustomerData>, deletedRenewals: map<FileKey, seq<RenewalData>>, lineId: string)
    : (r: seq<DeletedView>)
    ensures |r| == |Filter(deleted, NotRestored)|
    ensures forall i :: 0 <= i < |r| ==> r[i].customer == Filter(deleted, NotRestored)[i]
    ensures forall i :: 0 <= i < |r| ==> r[i].customer in deleted && !r[i].customer.isRestored
    ensures forall i :: 0 <= i < |r| ==>
      r[i].displayTakenAmount == DisplayTakenAmount(r[i].customer, Read(deletedRenewals, ArchiveOf(lineId, r[i].customer)))
  {
    Map(Filter(deleted, NotRestored), (c: CustomerData) =>
      DeletedView(c, DisplayTakenAmount(c, Read(deletedRenewals, ArchiveOf(lineId, c)))))
  }

  // ------------------------------------------------------------ next id

  /** The number `parseInt` reads from an id, if any; an absent id reads as `'undefined'`. */
  function IdNumber(id: Option<string>): Option<int>
  {
    Text.ParseInt(JsText(id))
  }

  /** The ids of the customers, in file order. */
  function IdsOf(customers: seq<CustomerData>): (r: seq<Option<string>>)
    ensures |r| == |customers| && forall i :: 0 <= i < |customers| ==> r[i] == customers[i].id
  {
    Map(customers, (c: CustomerData) => c.id)
  }

  /** The values `f` gives for the elements of `s`, in order, skipping those it gives none for. */
  function Values<T>(s: seq<T>, f: T -> Option<int>): seq<int>
    decreases |s|
  {
    if s == [] then []
    else
      var rest := Values(s[..|s| - 1], f);
      match f(s[|s| - 1])
      case None => rest
      case Some(n) => rest + [n]
  }

  lemma {:induction false} ValuesExactly<T>(s: seq<T>, f: T -> Option<int>, n: int)
    ensures n in Values(s, f) <==> exists i :: 0 <= i < |s| && f(s[i]) == Some(n)
    decreases |s|
  {
    if s != [] {
      var init := s[..|s| - 1];
      ValuesExactly(init, f, n);
      if exists i :: 0 <= i < |s| && f(s[i]) == Some(n) {
        var i :| 0 <= i < |s| && f(s[i]) == Some(n);
        if i < |init| {
          assert init[i] == s[i];
        }
      }
      if n in Values(init, f) {
        var i :| 0 <= i < |init| && f(init[i]) == Some(n);
        assert s[i] == init[i];
      }
    }
  }

  /** A key whose value `f` does not list is not among the keys. */
  lemma AbsentValue<K>(s: seq<K>, f: K -> Option<int>, k: K, v: int)
    requires f(k) == Some(v) && v !in Values(s, f)
    ensures k !in s
  {
    ValuesExactly(s, f, v);
    forall i | 0 <= i < |s|
      ensures s[i] != k
    {
      assert f(s[i]) != Some(v);
    }
  }

  /**
   * The ids of the customers that `parseInt` reads as numbers, in file order:
   * a number is listed exactly when some customer's id reads as it.
   */
  function NumericIds(customers: seq<CustomerData>): (r: seq<int>)
    ensures forall i :: 0 <= i < |customers| && IdNumber(customers[i].id).Some? ==>
      IdNumber(customers[i].id).value in r
    ensures forall n :: n in r ==> exists i :: 0 <= i < |customers| && IdNumber(customers[i].id) == Some(n)
  {
    IdValuesExactly(customers);
    Values(IdsOf(customers), IdNumber)
  }

  /** The id values listed are exactly those of the customers. */
  lemma IdValuesExactly(customers: seq<CustomerData>)
    ensures forall i :: 0 <= i < |customers| && IdNumber(customers[i].id).Some? ==>
      IdNumber(customers[i].id).value in Values(IdsOf(customers), IdNumber)
    ensures forall n :: n in Values(IdsOf(customers), IdNumber) ==>
      exists i :: 0 <= i < |customers| && IdNumber(customers[i].id) == Some(n)
  {
    var ids := IdsOf(customers);
    forall n | n in Values(ids, IdNumber)
      ensures exists i :: 0 <= i < |customers| && IdNumber(customers[i].id) == Some(n)
    {
      ValuesExactly(ids, IdNumber, n);
    }
    forall i | 0 <= i < |customers| && IdNumber(customers[i].id).Some?
      ensures IdNumber(customers[i].id).value in Values(ids, IdNumber)
    {
      ValuesExactly(ids, IdNumber, IdNumber(customers[i].id).value);
    }
  }

  /**
   * `getNextCustomerId`: one more than the largest numeric id of the day,
   * written in decimal, or `'1'` when no id is numeric.
   */
  function NextCustomerId(customers: seq<CustomerData>): (r: string)
    ensures NumericIds(customers) == [] ==> r == "1"
    ensures NumericIds(customers) != [] ==>
      exists m :: m in NumericIds(customers) && r == Text.IntToString(m + 1) &&
        forall n :: n in NumericIds(customers) ==> n <= m
  {
    NextIdAfter(NumericIds(customers))
  }

  /** One more than the largest of `ids`, written in decimal, or `'1'` when there is none. */
  function NextIdAfter(ids: seq<int>): (r: string)
    ensures ids == [] ==> r == "1"
    ensures ids != [] ==> exists m :: m in ids && r == Text.IntToString(m + 1) && forall n :: n in ids ==> n <= m
  {
    if ids == [] then "1"
    else
      var top := LatestBy(ids, (n: int) => Some(n));
      LargestFirst(ids, top);
      Text.IntToString(top + 1)
  }

  /** The first of the ids sorted in descending order is the largest. */
  lemma LargestFirst(ids: seq<int>, top: int)
    requires ids != [] && top == LatestBy(ids, (n: int) => Some(n))
    ensures top in ids && forall n :: n in ids ==> n <= top
  {
    forall n | n in ids
      ensures n <= top
    {
      assert ((n: int) => Some(n))(n).GetOr(0) <= ((n: int) => Some(n))(top).GetOr(0);
    }
  }

  /** The suggested id is taken by no active customer of the day, so creating a customer with it is never refused. */
  lemma NextIdIsFree(customers: seq<CustomerData>)
    ensures FindCustomer(customers, NextCustomerId(customers)).None?
  {
    var r := NextCustomerId(customers);
    var v := NextIdValue(customers);
    AbsentValue(IdsOf(customers), IdNumber, Some(r), v);
    forall i | 0 <= i < |customers|
      ensures customers[i].id != Some(r)
    {
      assert IdsOf(customers)[i] == customers[i].id;
    }
  }

  /** The suggested id reads back as a number that no customer's id reads as. */
  lemma NextIdValue(customers: seq<CustomerData>) returns (v: int)
    ensures IdNumber(Some(NextCustomerId(customers))) == Some(v) && v !in NumericIds(customers)
  {
    var ids := NumericIds(customers);
    var r := NextIdAfter(ids);
    if ids == [] {
      v := 1;
      assert Text.IntToString(1) == "1";
    } else {
      var m :| m in ids && r == Text.IntToString(m + 1) && forall n :: n in ids ==> n <= m;
      v := m + 1;
    }
    Text.ParseIntOfIntToString(v);
  }

}
