/**
 * The customer handlers that change the store: creating, updating,
 * soft-deleting and restoring a customer, renewing a loan, and recording a
 * chat comment or payment.
 *
 * Creating and updating recompute the line's balance in full. Restoring,
 * renewing and chat payments change it incrementally, reading the stored
 * balance as `currentBF || amount || 0`:
 *
 *   restore, renew   BF := BF - (takenAmount - interest - pc)
 *   chat payment     BF := BF + amount
 *
 * Deleting never touches the balance or the active transaction files.
 */
module CustomerController {
  import opened Common
  import Text
  import Sorting
  import opened CustomerModel
  import TransactionModel
  import opened FileStore
  import BFCalculation
  import opened CustomerBalance

  type TxnData = TransactionModel.TxnData

  // ------------------------------------------------------------ createCustomer

  /** The reason written on a restoration link that a new customer disowns. */
  const InvalidatedReason := "New customer created with same ID"

  /** A deleted record of the same id taken from the same day. */
  predicate DeletedHere(dc: CustomerData, id: string, day: string)
  {
    dc.id == Some(id) && dc.deletedFrom == Some(day)
  }

  /** Whether the first deleted record of the id and day was restored, which makes `createCustomer` invalidate the old links. */
  predicate ReusesRestoredId(deleted: seq<CustomerData>, id: string, day: string)
  {
    var i := FindIndex(deleted, (dc: CustomerData) => DeletedHere(dc, id, day));
    i >= 0 && deleted[i].isRestored
  }

  /**
   * Marks every restored deleted record of the id and day as no longer
   * linked to an active customer; every other record is left as it was.
   */
  function InvalidateRestorations(deleted: seq<CustomerData>, id: string, day: string, now: Time): (r: seq<CustomerData>)
    ensures |r| == |deleted|
    ensures forall i :: 0 <= i < |deleted| && !(DeletedHere(deleted[i], id, day) && deleted[i].isRestored) ==> r[i] == deleted[i]
    ensures forall i :: 0 <= i < |deleted| && DeletedHere(deleted[i], id, day) && deleted[i].isRestored ==>
      && r[i].restorationInvalidated && r[i].invalidatedDate == Some(now)
      && r[i].invalidatedReason == Some(InvalidatedReason)
      && r[i].(restorationInvalidated := false, invalidatedDate := None, invalidatedReason := None)
         == deleted[i].(restorationInvalidated := false, invalidatedDate := None, invalidatedReason := None)
  {
    Map(deleted, (dc: CustomerData) =>
      if DeletedHere(dc, id, day) && dc.isRestored
      then dc.(restorationInvalidated := true, invalidatedDate := Some(now), invalidatedReason := Some(InvalidatedReason))
      else dc)
  }

  /** A record appended to a list none of whose records has the id is what `find` returns afterwards. */
  lemma {:induction false} FindAppended(cs: seq<CustomerData>, c: CustomerData, id: string)
    requires FindCustomer(cs, id).None? && c.id == Some(id)
    ensures FindCustomer(cs + [c], id) == Some(c)
    decreases |cs|
  {
    if cs != [] {
      assert (cs + [c])[1..] == cs[1..] + [c];
      FindAppended(cs[1..], c, id);
    }
  }

  /**
   * `createCustomer`: 400, writing nothing, when an active customer of the
   * day already has the id. Otherwise the customer built by the model class
   * is appended to the day, the restoration links of an earlier customer of
   * the same id are invalidated when that one had been restored, and the
   * line's balance is recomputed.
   */
  method CreateCustomer(st: Store, lineId: string, day: string, body: CustomerData, now: Time, freshId: string)
    returns (status: Status, customer: CustomerData, bf: BFCalculation.BFResult)
    requires Truthy(body.id) && Truthy(body.name)
    requires body.takenAmount.Some? && body.takenAmount.value >= 0 && body.date.Some?
    requires freshId != ""
    modifies st`customers, st`deletedCustomers, st`lines
    ensures status == BadRequest <==> FindCustomer(old(Read(st.customers, DayKey(lineId, day))), body.id.value).Some?
    ensures status == BadRequest ==>
      st.customers == old(st.customers) && st.deletedCustomers == old(st.deletedCustomers) && st.lines == old(st.lines)
    ensures status != BadRequest ==> status == Created
    ensures status == Created ==> customer == ToJson(New(body, now, freshId))
    ensures status == Created ==>
      st.customers == old(st.customers)[DayKey(lineId, day) := old(Read(st.customers, DayKey(lineId, day))) + [customer]]
    ensures status == Created ==> FindCustomer(st.customers[DayKey(lineId, day)], body.id.value) == Some(customer)
    ensures status == Created && ReusesRestoredId(old(Read(st.deletedCustomers, lineId)), body.id.value, day) ==>
      st.deletedCustomers == old(st.deletedCustomers)[lineId :=
        InvalidateRestorations(old(Read(st.deletedCustomers, lineId)), body.id.value, day, now)]
    ensures status == Created && !ReusesRestoredId(old(Read(st.deletedCustomers, lineId)), body.id.value, day) ==>
      st.deletedCustomers == old(st.deletedCustomers)
    ensures status == Created ==>
      BFCalculation.Computed(bf, old(st.lines), st.customers, st.transactions, st.accounts, st.accountTransactions, lineId)
    ensures status == Created ==> st.lines == SetBF(old(st.lines), lineId, Some(bf.bfAmount))
  {
    var id := body.id.value;
    var key := DayKey(lineId, day);
    var customers := Read(st.customers, key);
    if FindCustomer(customers, id).Some? {
      return BadRequest, body, BFCalculation.BFResult(0, 0, 0, 0, 0);
    }
    var deleted := Read(st.deletedCustomers, lineId);
    customer := ToJson(New(body, now, freshId));
    FindAppended(customers, customer, id);
    bf := CommitCreate(st, lineId, key, customers + [customer],
      if ReusesRestoredId(deleted, id, day) then Some(InvalidateRestorations(deleted, id, day, now)) else None);
    status := Created;
  }

  /** Writes a day's customer list, then recomputes the line's balance through `updateBF`. */
  method WriteDayAndUpdateBF(st: Store, lineId: string, key: DayKey, customers: seq<CustomerData>)
    returns (bf: BFCalculation.BFResult)
    modifies st`customers, st`lines
    ensures st.customers == old(st.customers)[key := customers]
    ensures BFCalculation.Computed(bf, old(st.lines), st.customers, st.transactions, st.accounts, st.accountTransactions, lineId)
    ensures st.lines == SetBF(old(st.lines), lineId, Some(bf.bfAmount))
  {
    st.customers := st.customers[key := customers];
    bf := BFCalculation.UpdateBF(st, lineId);
  }

  /** The writes of a successful `createCustomer`: the deleted list when it changes, then the day and the balance. */
  method CommitCreate(st: Store, lineId: string, key: DayKey, customers: seq<CustomerData>, deleted: Option<seq<CustomerData>>)
    returns (bf: BFCalculation.BFResult)
    modifies st`customers, st`deletedCustomers, st`lines
    ensures st.customers == old(st.customers)[key := customers]
    ensures st.deletedCustomers == if deleted.Some? then old(st.deletedCustomers)[lineId := deleted.value] else old(st.deletedCustomers)
    ensures BFCalculation.Computed(bf, old(st.lines), st.customers, st.transactions, st.accounts, st.accountTransactions, lineId)
    ensures st.lines == SetBF(old(st.lines), lineId, Some(bf.bfAmount))
  {
    if deleted.Some? {
      st.deletedCustomers := st.deletedCustomers[lineId := deleted.value];
    }
    bf := WriteDayAndUpdateBF(st, lineId, key, customers);
  }

  // ------------------------------------------------------------ updateCustomer

  /** `b` where it is given, else `a`: one field of an object spread. */
  function Over<T>(a: Option<T>, b: Option<T>): Option<T>
  {
    if b.Some? then b else a
  }

  /**
   * `{ ...stored, ...body, id }`, on the fields the model class reads (the
   * constructor drops every other field): each field the body gives
   * replaces the stored one, and the id is the one in the path.
   */
  function MergeCustomer(stored: CustomerData, body: CustomerData, id: string): (m: CustomerData)
    ensures m.id == Some(id)
    ensures body.internalId.Some? ==> m.internalId == body.internalId
    ensures body.internalId.None? ==> m.internalId == stored.internalId
    ensures body.takenAmount.Some? ==> m.takenAmount == body.takenAmount
    ensures body.takenAmount.None? ==> m.takenAmount == stored.takenAmount
    ensures body.interest.Some? ==> m.interest == body.interest
    ensures body.interest.None? ==> m.interest == stored.interest
    ensures body.pc.Some? ==> m.pc == body.pc
    ensures body.pc.None? ==> m.pc == stored.pc
    ensures body.weeks.Some? ==> m.weeks == body.weeks
    ensures body.weeks.None? ==> m.weeks == stored.weeks
  {
    stored.(
      id := Some(id),
      internalId := Over(stored.internalId, body.internalId),
      name := Over(stored.name, body.name),
      village := Over(stored.village, body.village),
      phone := Over(stored.phone, body.phone),
      takenAmount := Over(stored.takenAmount, body.takenAmount),
      interest := Over(stored.interest, body.interest),
      pc := Over(stored.pc, body.pc),
      date := Over(stored.date, body.date),
      weeks := Over(stored.weeks, body.weeks),
      profileImage := Over(stored.profileImage, body.profileImage),
      createdAt := Over(stored.createdAt, body.createdAt),
      isRestoredCustomer := stored.isRestoredCustomer || body.isRestoredCustomer,
      restoredFromId := Over(stored.restoredFromId, body.restoredFromId),
      restoredFromInternalId := Over(stored.restoredFromInternalId, body.restoredFromInternalId),
      restoredFromTimestamp := Over(stored.restoredFromTimestamp, body.restoredFromTimestamp))
  }

  /** `findIndex(c => c.id === id)` over a day's customers. */
  function IndexOfId(cs: seq<CustomerData>, id: string): int
  {
    FindIndex(cs, (c: CustomerData) => c.id == Some(id))
  }

  /**
   * The renewal file as `updateCustomer` rewrites it: sorted latest first,
   * with the latest record taking the body's `takenAmount` and whichever of
   * `interest`, `pc` and `weeks` the body gives.
   */
  function RenewalsAfterUpdate(renewals: seq<RenewalData>, body: CustomerData): (r: seq<RenewalData>)
    requires renewals != [] && body.takenAmount.Some?
    ensures var sorted := Sorting.SortBy(renewals, NewestFirst(RenewalTime));
      |r| == |renewals| && r[1..] == sorted[1..]
    ensures var latest := Sorting.SortBy(renewals, NewestFirst(RenewalTime))[0];
      && r[0].takenAmount == body.takenAmount
      && (body.interest.Some? ==> r[0].interest == body.interest)
      && (body.interest.None? ==> r[0].interest == latest.interest)
      && (body.pc.Some? ==> r[0].pc == body.pc)
      && (body.pc.None? ==> r[0].pc == latest.pc)
      && (body.weeks.Some? ==> r[0].weeks == body.weeks)
      && (body.weeks.None? ==> r[0].weeks == latest.weeks)
      && r[0] == latest.(takenAmount := r[0].takenAmount, interest := r[0].interest, pc := r[0].pc, weeks := r[0].weeks)
    ensures multiset(r[1..]) + multiset{Sorting.SortBy(renewals, NewestFirst(RenewalTime))[0]} == multiset(renewals)
    ensures Sorting.SortedBy(r, NewestFirst(RenewalTime))
  {
    var sorted := Sorting.SortBy(renewals, NewestFirst(RenewalTime));
    var latest := sorted[0];
    var updated := latest.(
      takenAmount := body.takenAmount,
      interest := Over(latest.interest, body.interest),
      pc := Over(latest.pc, body.pc),
      weeks := Over(latest.weeks, body.weeks));
    var r := sorted[0 := updated];
    assert RenewalTime(updated) == RenewalTime(latest);
    Sorting.ReplaceSameKey(sorted, 0, updated, NewestFirst(RenewalTime));
    assert r[1..] == sorted[1..];
    assert sorted == [latest] + sorted[1..];
    r
  }

  /**
   * `updateCustomer`: 404, writing nothing, for an id no active customer of
   * the day has. Otherwise, when the customer has renewals and the body
   * gives a `takenAmount`, the latest renewal takes the new terms; the first
   * customer with the id is rebuilt from the merged record, and the line's
   * balance is recomputed.
   */
  method UpdateCustomer(st: Store, lineId: string, day: string, id: string, body: CustomerData, now: Time, freshId: string)
    returns (status: Status, customer: CustomerData, bf: BFCalculation.BFResult)
    requires freshId != ""
    modifies st`customers, st`renewals, st`lines
    ensures
      var i := IndexOfId(old(Read(st.customers, DayKey(lineId, day))), id);
      status == NotFound <==> i == -1
    ensures status == NotFound ==>
      st.customers == old(st.customers) && st.renewals == old(st.renewals) && st.lines == old(st.lines)
    ensures status != NotFound ==> status == Ok
    ensures status == Ok ==>
      var before := old(Read(st.customers, DayKey(lineId, day)));
      var i := IndexOfId(before, id);
      && customer == ToJson(New(MergeCustomer(before[i], body, id), now, freshId))
      && st.customers == old(st.customers)[DayKey(lineId, day) := before[i := customer]]
    ensures status == Ok ==>
      var before := old(Read(st.customers, DayKey(lineId, day)));
      var i := IndexOfId(before, id);
      var k := FileKey(lineId, day, Owner(before[i]));
      var renewals := old(Read(st.renewals, k));
      st.renewals == if renewals != [] && body.takenAmount.Some?
        then old(st.renewals)[k := RenewalsAfterUpdate(renewals, body)]
        else old(st.renewals)
    ensures status == Ok ==>
      BFCalculation.Computed(bf, old(st.lines), st.customers, st.transactions, st.accounts, st.accountTransactions, lineId)
    ensures status == Ok ==> st.lines == SetBF(old(st.lines), lineId, Some(bf.bfAmount))
  {
    var key := DayKey(lineId, day);
    var customers := Read(st.customers, key);
    var i := IndexOfId(customers, id);
    if i == -1 {
      return NotFound, Blank, BFCalculation.BFResult(0, 0, 0, 0, 0);
    }
    var k := FileKey(lineId, day, Owner(customers[i]));
    var renewals := Read(st.renewals, k);
    customer := ToJson(New(MergeCustomer(customers[i], body, id), now, freshId));
    bf := CommitUpdate(st, lineId, key, customers[i := customer], k,
      if renewals != [] && body.takenAmount.Some? then Some(RenewalsAfterUpdate(renewals, body)) else None);
    status := Ok;
  }

  /** The writes of a successful `updateCustomer`: the renewal file when it changes, then the day and the balance. */
  method CommitUpdate(
    st: Store, lineId: string, key: DayKey, customers: seq<CustomerData>, k: FileKey, renewals: Option<seq<RenewalData>>)
    returns (bf: BFCalculation.BFResult)
    modifies st`customers, st`renewals, st`lines
    ensures st.customers == old(st.customers)[key := customers]
    ensures st.renewals == if renewals.Some? then old(st.renewals)[k := renewals.value] else old(st.renewals)
    ensures BFCalculation.Computed(bf, old(st.lines), st.customers, st.transactions, st.accounts, st.accountTransactions, lineId)
    ensures st.lines == SetBF(old(st.lines), lineId, Some(bf.bfAmount))
  {
    if renewals.Some? {
      st.renewals := st.renewals[k := renewals.value];
    }
    bf := WriteDayAndUpdateBF(st, lineId, key, customers);
  }

  /** The stable sort of a list already in order leaves it as it is. */
  lemma {:induction false} SortByOfSorted<T>(s: seq<T>, key: T -> (int, int))
    requires Sorting.SortedBy(s, key)
    ensures Sorting.SortBy(s, key) == s
    decreases |s|
  {
    if s != [] {
      var init := s[..|s| - 1];
      var last := s[|s| - 1];
      assert Sorting.SortedBy(init, key);
      SortByOfSorted(init, key);
      InsertAfterAll(last, init, key);
      assert init + [last] == s;
    }
  }

  /** An element whose key is not less than any in the sorted list goes to its end. */
  lemma {:induction false} InsertAfterAll<T>(x: T, s: seq<T>, key: T -> (int, int))
    requires Sorting.SortedBy(s, key)
    requires forall i :: 0 <= i < |s| ==> Sorting.KeyLe(key(s[i]), key(x))
    ensures Sorting.Insert(x, s, key) == s + [x]
    decreases |s|
  {
    if s != [] {
      assert Sorting.SortedBy(s[1..], key);
      InsertAfterAll(x, s[1..], key);
      assert [s[0]] + (s[1..] + [x]) == s + [x];
    }
  }

  /**
   * After an update that gives a `takenAmount`, the views owe exactly that
   * amount, whether the customer has renewals (the latest one was rewritten)
   * or not (the customer's own amount was).
   */
  lemma UpdatedAmountIsOwed(
    stored: CustomerData, body: CustomerData, id: string, now: Time, freshId: string,
    transactions: seq<TxnData>, renewals: seq<RenewalData>)
    requires freshId != "" && body.takenAmount.Some?
    ensures
      var c := ToJson(New(MergeCustomer(stored, body, id), now, freshId));
      var rs := if renewals != [] then RenewalsAfterUpdate(renewals, body) else renewals;
      ViewBalance(c, transactions, rs).totalOwed == body.takenAmount.value
  {
    if renewals != [] {
      var rs := RenewalsAfterUpdate(renewals, body);
      SortByOfSorted(rs, NewestFirst(RenewalTime));
      LatestIsSortedHead(rs, RenewalTime);
      assert LatestRenewal(rs) == Some(rs[0]);
    }
  }

  // ------------------------------------------------------------ deleteCustomer

  /** The record `deleteCustomer` appends to the deleted list. */
  function DeletedEntry(c: CustomerData, day: string, now: Time): (d: CustomerData)
    ensures InternalIdOf(d) == InternalIdOf(c) && d.id == c.id
    ensures d.isDeleted && d.deletionTimestamp == Some(now) && d.deletedFrom == Some(day)
    ensures d.isRestored == c.isRestored
  {
    c.(internalId := InternalIdOf(c), isDeleted := true, deletedAt := Some(now),
       deletionTimestamp := Some(now), deletedFrom := Some(day))
  }

  /**
   * The day's customers other than those with the id, in file order: no
   * customer with the id is left, and every other one stays.
   */
  function WithoutId(customers: seq<CustomerData>, id: string): (r: seq<CustomerData>)
    ensures FindCustomer(r, id).None?
    ensures forall c :: c in r <==> c in customers && c.id != Some(id)
  {
    var r := Filter(customers, (c: CustomerData) => c.id != Some(id));
    assert forall c :: c in r ==> c in customers && c.id != Some(id) by {
      forall c | c in r ensures c in customers && c.id != Some(id) {
        var i :| 0 <= i < |r| && r[i] == c;
      }
    }
    r
  }

  /**
   * `deleteCustomer`: 404 for an id no active customer of the day has.
   * Otherwise the customer's transaction, chat and renewal files are copied
   * to the deleted folders, the record is appended to the deleted list, and
   * every customer with the id leaves the day. The balance and the active
   * transaction files are not touched.
   */
  method DeleteCustomer(st: Store, lineId: string, day: string, id: string, now: Time) returns (status: Status)
    modifies st`customers, st`deletedCustomers, st`deletedTransactions, st`deletedChat, st`deletedRenewals
    ensures status == NotFound <==> FindCustomer(old(Read(st.customers, DayKey(lineId, day))), id).None?
    ensures status == NotFound ==> st.customers == old(st.customers) && st.deletedCustomers == old(st.deletedCustomers)
    ensures status == NotFound ==>
      && st.deletedTransactions == old(st.deletedTransactions)
      && st.deletedChat == old(st.deletedChat)
      && st.deletedRenewals == old(st.deletedRenewals)
    ensures status != NotFound ==> status == Ok
    ensures status == Ok ==>
      var c := FindCustomer(old(Read(st.customers, DayKey(lineId, day))), id).value;
      var k := FileKey(lineId, day, Owner(c));
      && st.deletedTransactions == old(st.deletedTransactions)[k := old(Read(st.transactions, k))]
      && st.deletedChat == old(st.deletedChat)[k := old(Read(st.chat, k))]
      && st.deletedRenewals == old(st.deletedRenewals)[k := old(Read(st.renewals, k))]
      && st.deletedCustomers == old(st.deletedCustomers)[lineId :=
           old(Read(st.deletedCustomers, lineId)) + [DeletedEntry(c, day, now)]]
    ensures status == Ok ==>
      st.customers == old(st.customers)[DayKey(lineId, day) := WithoutId(old(Read(st.customers, DayKey(lineId, day))), id)]
    ensures st.lines == old(st.lines) && st.transactions == old(st.transactions)
  {
    var key := DayKey(lineId, day);
    var customers := Read(st.customers, key);
    var found := FindCustomer(customers, id);
    if found.None? {
      return NotFound;
    }
    var c := found.value;
    var k := FileKey(lineId, day, Owner(c));
    CommitDelete(st, lineId, key, k, DeletedEntry(c, day, now), WithoutId(customers, id));
    status := Ok;
  }

  /** The writes of a successful `deleteCustomer`: the archive copies, the deleted list, then the day. */
  method CommitDelete(st: Store, lineId: string, key: DayKey, k: FileKey, entry: CustomerData, remaining: seq<CustomerData>)
    modifies st`customers, st`deletedCustomers, st`deletedTransactions, st`deletedChat, st`deletedRenewals
    ensures st.deletedTransactions == old(st.deletedTransactions)[k := old(Read(st.transactions, k))]
    ensures st.deletedChat == old(st.deletedChat)[k := old(Read(st.chat, k))]
    ensures st.deletedRenewals == old(st.deletedRenewals)[k := old(Read(st.renewals, k))]
    ensures st.deletedCustomers == old(st.deletedCustomers)[lineId := old(Read(st.deletedCustomers, lineId)) + [entry]]
    ensures st.customers == old(st.customers)[key := remaining]
  {
    st.deletedTransactions, st.deletedChat, st.deletedRenewals :=
      st.deletedTransactions[k := Read(st.transactions, k)], st.deletedChat[k := Read(st.chat, k)],
      st.deletedRenewals[k := Read(st.renewals, k)];
    st.deletedCustomers := st.deletedCustomers[lineId := Read(st.deletedCustomers, lineId) + [entry]];
    st.customers := st.customers[key := remaining];
  }

  // ------------------------------------------------------------ restoreCustomer

  /** The deleted record of one deletion: same id, same day, same deletion time. */
  predicate SameDeletion(dc: CustomerData, id: string, deletedFrom: string, ts: Option<Time>)
  {
    DeletedHere(dc, id, deletedFrom) && dc.deletionTimestamp == ts
  }

  /** A deleted record of the id and day that has not been restored. */
  predicate Candidate(dc: CustomerData, id: string, deletedFrom: string)
  {
    DeletedHere(dc, id, deletedFrom) && !dc.isRestored
  }

  /**
   * The deleted record `restoreCustomer` acts on: with a deletion timestamp,
   * the first record of that deletion; without one, the most recently
   * deleted record of the id and day not yet restored.
   */
  function RestoreTarget(deleted: seq<CustomerData>, id: string, deletedFrom: string, ts: Option<Time>)
    : (r: Option<CustomerData>)
    ensures NonZero(ts) ==>
      (r.None? <==> forall i :: 0 <= i < |deleted| ==> !SameDeletion(deleted[i], id, deletedFrom, ts))
    ensures NonZero(ts) && r.Some? ==>
      exists i :: 0 <= i < |deleted| && r.value == deleted[i] && SameDeletion(deleted[i], id, deletedFrom, ts)
        && forall j :: 0 <= j < i ==> !SameDeletion(deleted[j], id, deletedFrom, ts)
    ensures !NonZero(ts) ==>
      (r.None? <==> forall i :: 0 <= i < |deleted| ==> !Candidate(deleted[i], id, deletedFrom))
    ensures !NonZero(ts) && r.Some? ==> r.value in deleted && Candidate(r.value, id, deletedFrom)
    ensures !NonZero(ts) && r.Some? ==> forall dc :: dc in deleted && Candidate(dc, id, deletedFrom) ==>
      dc.deletionTimestamp.GetOr(0) <= r.value.deletionTimestamp.GetOr(0)
  {
    if NonZero(ts) then
      var i := FindIndex(deleted, (dc: CustomerData) => SameDeletion(dc, id, deletedFrom, ts));
      if i == -1 then None else Some(deleted[i])
    else
      var candidates := Filter(deleted, (dc: CustomerData) => Candidate(dc, id, deletedFrom));
      if candidates == [] then None
      else Some(LatestBy(candidates, (dc: CustomerData) => dc.deletionTimestamp))
  }

  /** `x !== undefined && x !== null ? parseFloat(x) : parseFloat(fallback) || 0`. */
  function Charge(given: Option<int>, fallback: Option<int>): int
  {
    if given.Some? then given.value else Num(fallback)
  }

  /** `new Date().toISOString().split('T')[0]`: the current calendar day. */
  function Today(now: Time): (d: Time)
    ensures d <= now < d + DayMs && d % DayMs == 0
  {
    now - now % DayMs
  }

  /**
   * The customer `restoreCustomer` appends, written directly rather than
   * through the model class: the new id, the deleted record's internal id
   * and contact fields, and the new loan's terms.
   */
  function RestoredCustomer(
    dc: CustomerData, newId: string, taken: int, interest: Option<int>, pc: Option<int>,
    date: Option<Time>, weeks: Option<int>, deletedFrom: string, now: Time)
    : (c: CustomerData)
    ensures c.id == Some(newId) && c.internalId == InternalIdOf(dc)
    ensures Truthy(dc.id) ==> Owner(c) == Owner(dc)
    ensures c.takenAmount == Some(taken)
    ensures c.interest == Some(Charge(interest, dc.interest)) && c.pc == Some(Charge(pc, dc.pc))
    ensures c.isRestoredCustomer && c.restoredFrom == Some(deletedFrom) && !c.isDeleted && !c.isRestored
  {
    Blank.(
      id := Some(newId), internalId := InternalIdOf(dc),
      name := dc.name, village := dc.village, phone := dc.phone, profileImage := dc.profileImage,
      takenAmount := Some(taken),
      interest := Some(Charge(interest, dc.interest)), pc := Some(Charge(pc, dc.pc)),
      date := Some(if date.Some? then date.value else Today(now)),
      weeks := if NonZero(weeks) then weeks else dc.weeks,
      isRestoredCustomer := true, restoredAt := Some(now), restoredFrom := Some(deletedFrom))
  }

  /** The loan entry `restoreCustomer` appends to the old internal id's transaction file. */
  function RestoredLoan(taken: int, date: Option<Time>, now: Time): (t: TxnData)
    ensures t.amount == Some(taken) && t.txType == Some("restored")
    ensures t.loanType == Some("restoredLoan") && t.isRestoredLoan == Some(true)
  {
    TransactionModel.ToJson(TransactionModel.New(TransactionModel.Blank.(
      amount := Some(taken),
      date := Some(if date.Some? then date.value else Today(now)),
      comment := Some("Restored customer - New loan of \U{20B9}" + Text.IntToString(taken)),
      txType := Some("restored"), loanType := Some("restoredLoan"),
      isRestoredLoan := Some(true), restoredAt := Some(now)), now))
  }

  /** Flags the records of one deletion as restored under `newId`; every other record is left as it was. */
  function MarkRestored(deleted: seq<CustomerData>, id: string, deletedFrom: string, ts: Option<Time>, newId: string, now: Time)
    : (r: seq<CustomerData>)
    ensures |r| == |deleted|
    ensures forall i :: 0 <= i < |deleted| && !SameDeletion(deleted[i], id, deletedFrom, ts) ==> r[i] == deleted[i]
    ensures forall i :: 0 <= i < |deleted| && SameDeletion(deleted[i], id, deletedFrom, ts) ==>
      r[i] == deleted[i].(isRestored := true, restoredAs := Some(newId), restoredDate := Some(now))
  {
    Map(deleted, (dc: CustomerData) =>
      if SameDeletion(dc, id, deletedFrom, ts)
      then dc.(isRestored := true, restoredAs := Some(newId), restoredDate := Some(now))
      else dc)
  }

  /**
   * `restoreCustomer`: 404 when no deleted record matches, 400 when the
   * record was already restored or the new id is active on the day it was
   * deleted from; nothing is written in those cases. Otherwise the customer
   * comes back under `newId` with its old internal id, a restored loan is
   * appended to its old transaction file, the balance drops by the loan's
   * principal, and the deletion is flagged as restored.
   */
  method RestoreCustomer(
    st: Store, lineId: string, id: string, newId: string, taken: int, deletedFrom: string,
    interest: Option<int>, pc: Option<int>, date: Option<Time>, weeks: Option<int>,
    deletionTimestamp: Option<Time>, now: Time)
    returns (status: Status, newBF: int)
    requires id != "" && newId != "" && deletedFrom != "" && taken >= 0
    modifies st`customers, st`deletedCustomers, st`transactions, st`lines
    ensures status == NotFound <==>
      RestoreTarget(old(Read(st.deletedCustomers, lineId)), id, deletedFrom, deletionTimestamp).None?
    ensures status == BadRequest <==>
      var target := RestoreTarget(old(Read(st.deletedCustomers, lineId)), id, deletedFrom, deletionTimestamp);
      target.Some? && (target.value.isRestored || FindCustomer(old(Read(st.customers, DayKey(lineId, deletedFrom))), newId).Some?)
    ensures status == NotFound || status == BadRequest || status == Created
    ensures status != Created ==>
      && st.customers == old(st.customers) && st.deletedCustomers == old(st.deletedCustomers)
      && st.transactions == old(st.transactions) && st.lines == old(st.lines)
    ensures status == Created ==>
      var dc := RestoreTarget(old(Read(st.deletedCustomers, lineId)), id, deletedFrom, deletionTimestamp).value;
      var restored := RestoredCustomer(dc, newId, taken, interest, pc, date, weeks, deletedFrom, now);
      && st.customers == old(st.customers)[DayKey(lineId, deletedFrom) :=
           old(Read(st.customers, DayKey(lineId, deletedFrom))) + [restored]]
      && Owner(restored) == Owner(dc)
    ensures status == Created ==>
      var dc := RestoreTarget(old(Read(st.deletedCustomers, lineId)), id, deletedFrom, deletionTimestamp).value;
      var k := FileKey(lineId, deletedFrom, Owner(dc));
      st.transactions == old(st.transactions)[k := old(Read(st.transactions, k)) + [RestoredLoan(taken, date, now)]]
    ensures status == Created ==>
      var dc := RestoreTarget(old(Read(st.deletedCustomers, lineId)), id, deletedFrom, deletionTimestamp).value;
      && newBF == old(ReadBF(st.lines, lineId)) - (taken - Charge(interest, dc.interest) - Charge(pc, dc.pc))
      && st.lines == SetBF(old(st.lines), lineId, Some(newBF))
    ensures status == Created ==>
      var dc := RestoreTarget(old(Read(st.deletedCustomers, lineId)), id, deletedFrom, deletionTimestamp).value;
      st.deletedCustomers == old(st.deletedCustomers)[lineId :=
        MarkRestored(old(Read(st.deletedCustomers, lineId)), id, deletedFrom, dc.deletionTimestamp, newId, now)]
  {
    var deleted := Read(st.deletedCustomers, lineId);
    var target := RestoreTarget(deleted, id, deletedFrom, deletionTimestamp);
    if target.None? {
      return NotFound, 0;
    }
    var dc := target.value;
    if dc.isRestored {
      return BadRequest, 0;
    }
    var dayKey := DayKey(lineId, deletedFrom);
    var active := Read(st.customers, dayKey);
    if FindCustomer(active, newId).Some? {
      return BadRequest, 0;
    }
    var restored := RestoredCustomer(dc, newId, taken, interest, pc, date, weeks, deletedFrom, now);
    var k := FileKey(lineId, deletedFrom, Owner(dc));
    newBF := ReadBF(st.lines, lineId) - (taken - Charge(interest, dc.interest) - Charge(pc, dc.pc));
    var marked := MarkRestored(deleted, id, deletedFrom, dc.deletionTimestamp, newId, now);
    CommitRestore(st, lineId, dayKey, restored, k, RestoredLoan(taken, date, now), newBF, marked);
    status := Created;
  }

  /** The writes of a successful `restoreCustomer`, in the order the handler makes them. */
  method CommitRestore(
    st: Store, lineId: string, dayKey: DayKey, restored: CustomerData, k: FileKey, loan: TxnData, newBF: int,
    marked: seq<CustomerData>)
    modifies st`customers, st`deletedCustomers, st`transactions, st`lines
    ensures st.customers == old(st.customers)[dayKey := old(Read(st.customers, dayKey)) + [restored]]
    ensures st.transactions == old(st.transactions)[k := old(Read(st.transactions, k)) + [loan]]
    ensures st.lines == SetBF(old(st.lines), lineId, Some(newBF))
    ensures st.deletedCustomers == old(st.deletedCustomers)[lineId := marked]
  {
    st.customers := st.customers[dayKey := Read(st.customers, dayKey) + [restored]];
    st.transactions := st.transactions[k := Read(st.transactions, k) + [loan]];
    st.lines := SetBF(st.lines, lineId, Some(newBF));
    st.deletedCustomers := st.deletedCustomers[lineId := marked];
  }

  /**
   * A restoration cannot be repeated by its timestamp: asked again,
   * `restoreCustomer` finds the record flagged as restored and refuses with 400.
   */
  lemma RestoreByTimestampNotRepeatable(
    deleted: seq<CustomerData>, id: string, deletedFrom: string, ts: Option<Time>, newId: string, now: Time)
    requires NonZero(ts) && RestoreTarget(deleted, id, deletedFrom, ts).Some?
    ensures
      var after := MarkRestored(deleted, id, deletedFrom, ts, newId, now);
      RestoreTarget(after, id, deletedFrom, ts).Some? && RestoreTarget(after, id, deletedFrom, ts).value.isRestored
  {
    var dc := RestoreTarget(deleted, id, deletedFrom, ts).value;
    var after := MarkRestored(deleted, id, deletedFrom, ts, newId, now);
    var i :| 0 <= i < |deleted| && dc == deleted[i] && SameDeletion(deleted[i], id, deletedFrom, ts);
    assert SameDeletion(after[i], id, deletedFrom, ts);
    var r := RestoreTarget(after, id, deletedFrom, ts).value;
    var j :| 0 <= j < |after| && r == after[j] && SameDeletion(after[j], id, deletedFrom, ts);
    assert SameDeletion(deleted[j], id, deletedFrom, ts);
  }

  /**
   * Without a timestamp, `restoreCustomer` never picks a deletion that was
   * already restored: the fallback only considers unrestored records.
   */
  lemma RestoreFallbackSkipsRestored(
    deleted: seq<CustomerData>, id: string, deletedFrom: string, ts: Option<Time>, newId: string, now: Time)
    ensures
      var after := MarkRestored(deleted, id, deletedFrom, ts, newId, now);
      RestoreTarget(after, id, deletedFrom, None).Some? ==>
        RestoreTarget(after, id, deletedFrom, None).value.deletionTimestamp != ts
  {
    var after := MarkRestored(deleted, id, deletedFrom, ts, newId, now);
    var r := RestoreTarget(after, id, deletedFrom, None);
    if r.Some? {
      var j :| 0 <= j < |after| && after[j] == r.value;
      assert Candidate(after[j], id, deletedFrom);
      assert !SameDeletion(deleted[j], id, deletedFrom, ts);
    }
  }

  /**
   * Deleting a customer and restoring that deletion by its timestamp brings
   * the customer back on the same files: the restored customer's transaction
   * file is the one the deleted customer's payments are in.
   */
  lemma DeleteThenRestoreKeepsFiles(
    deleted: seq<CustomerData>, c: CustomerData, day: string, now: Time, newId: string, taken: int,
    interest: Option<int>, pc: Option<int>, date: Option<Time>, weeks: Option<int>, later: Time)
    requires Truthy(c.id) && now != 0
    requires forall i :: 0 <= i < |deleted| ==> !SameDeletion(deleted[i], c.id.value, day, Some(now))
    ensures
      var all := deleted + [DeletedEntry(c, day, now)];
      var target := RestoreTarget(all, c.id.value, day, Some(now));
      && target == Some(DeletedEntry(c, day, now))
      && Owner(RestoredCustomer(target.value, newId, taken, interest, pc, date, weeks, day, later)) == Owner(c)
  {
    var all := deleted + [DeletedEntry(c, day, now)];
    assert SameDeletion(all[|deleted|], c.id.value, day, Some(now));
    assert forall i :: 0 <= i < |deleted| ==> all[i] == deleted[i];
  }

  // ------------------------------------------------------------ createRenewal

  /**
   * `transactions.push(entry)` on a customer's transaction file, written
   * back, then the line's `currentBF` set to `bf`.
   */
  method AppendAndSetBF(st: Store, k: FileKey, entry: TxnData, lineId: string, bf: Option<int>)
    modifies st`transactions, st`lines
    ensures st.transactions == old(st.transactions)[k := old(Read(st.transactions, k)) + [entry]]
    ensures st.lines == SetBF(old(st.lines), lineId, bf)
  {
    st.transactions := st.transactions[k := Read(st.transactions, k) + [entry]];
    st.lines := SetBF(st.lines, lineId, bf);
  }

  /** The loan entry `createRenewal` appends to the customer's transaction file. */
  function RenewalLoan(
    c: CustomerData, taken: int, interest: Option<int>, pc: Option<int>, date: Time, weeks: Option<int>, now: Time)
    : (t: TxnData)
    ensures t.amount == Some(taken) && t.txType == Some("renewal") && t.isRenewal == Some(true)
    ensures t.interest == Some(Charge(interest, c.interest)) && t.pc == Some(Charge(pc, c.pc))
    ensures t.createdAt == Some(now) && (now != 0 ==> RenewedTime(t) == Some(now))
  {
    TransactionModel.ToJson(TransactionModel.New(TransactionModel.Blank.(
      amount := Some(taken), date := Some(date),
      comment := Some("Renewal - New loan of \U{20B9}" + Text.IntToString(taken)),
      txType := Some("renewal"), loanType := Some("renewalLoan"),
      isRenewal := Some(true), renewedAt := Some(now),
      interest := Some(Charge(interest, c.interest)), pc := Some(Charge(pc, c.pc)),
      weeks := if NonZero(weeks) then weeks else c.weeks,
      customerName := c.name), now))
  }

  /**
   * `createRenewal`: 404 for an id no active customer of the day has, 400
   * while something remains to be paid on the current loan; nothing is
   * written in those cases. Otherwise a renewal loan is appended to the
   * customer's transaction file and the balance drops by its principal.
   */
  method CreateRenewal(
    st: Store, lineId: string, day: string, id: string, taken: int,
    interest: Option<int>, pc: Option<int>, date: Time, weeks: Option<int>, now: Time)
    returns (status: Status, newBF: int)
    requires taken >= 0
    modifies st`transactions, st`lines
    ensures status == NotFound <==> FindCustomer(Read(st.customers, DayKey(lineId, day)), id).None?
    ensures status == BadRequest <==>
      var found := FindCustomer(Read(st.customers, DayKey(lineId, day)), id);
      found.Some? &&
      RenewalCheckBalance(found.value, old(Read(st.transactions, FileKey(lineId, day, Owner(found.value))))).remainingAmount > 0
    ensures status == NotFound || status == BadRequest || status == Created
    ensures status != Created ==> st.transactions == old(st.transactions) && st.lines == old(st.lines)
    ensures status == Created ==>
      var c := FindCustomer(Read(st.customers, DayKey(lineId, day)), id).value;
      var k := FileKey(lineId, day, Owner(c));
      && st.transactions == old(st.transactions)[k :=
           old(Read(st.transactions, k)) + [RenewalLoan(c, taken, interest, pc, date, weeks, now)]]
      && newBF == old(ReadBF(st.lines, lineId)) - (taken - Charge(interest, c.interest) - Charge(pc, c.pc))
      && st.lines == SetBF(old(st.lines), lineId, Some(newBF))
  {
    var found := FindCustomer(Read(st.customers, DayKey(lineId, day)), id);
    if found.None? {
      return NotFound, 0;
    }
    var c := found.value;
    var k := FileKey(lineId, day, Owner(c));
    var transactions := Read(st.transactions, k);
    if RenewalCheckBalance(c, transactions).remainingAmount > 0 {
      return BadRequest, 0;
    }
    newBF := ReadBF(st.lines, lineId) - (taken - Charge(interest, c.interest) - Charge(pc, c.pc));
    AppendAndSetBF(st, k, RenewalLoan(c, taken, interest, pc, date, weeks, now), lineId, Some(newBF));
    status := Created;
  }

  /**
   * After a renewal made later than every earlier renewal entry, the
   * renewal check owes exactly the new loan.
   */
  lemma RenewalStartsNewLoan(
    c: CustomerData, transactions: seq<TxnData>, taken: int,
    interest: Option<int>, pc: Option<int>, date: Time, weeks: Option<int>, now: Time)
    requires now != 0
    requires forall t :: t in transactions && IsRenewalEntry(t) ==> RenewedTime(t).GetOr(0) < now
    ensures RenewalCheckBalance(c, transactions + [RenewalLoan(c, taken, interest, pc, date, weeks, now)]).totalOwed == taken
  {
    var entry := RenewalLoan(c, taken, interest, pc, date, weeks, now);
    FilterAppend(transactions, entry, IsRenewalEntry);
    var renewals := Filter(transactions + [entry], IsRenewalEntry);
    assert entry in renewals;
  }

  /**
   * The views count every entry of the transaction file as paid, so the
   * renewal's own loan entry, recorded at `now` and not before the latest
   * renewal record, lowers the remaining amount they show by the new loan.
   */
  lemma RenewalLoanCountsAsPaidInViews(
    c: CustomerData, transactions: seq<TxnData>, renewals: seq<RenewalData>, taken: int,
    interest: Option<int>, pc: Option<int>, date: Time, weeks: Option<int>, now: Time)
    requires !NonZero(Cutoff(renewals)) || now >= Cutoff(renewals).value
    ensures ViewBalance(c, transactions + [RenewalLoan(c, taken, interest, pc, date, weeks, now)], renewals).remainingAmount
      == ViewBalance(c, transactions, renewals).remainingAmount - taken
  {
    CountedPaymentLowersRemaining(c, transactions, renewals, RenewalLoan(c, taken, interest, pc, date, weeks, now));
  }

  // ------------------------------------------------------------ addChatTransaction

  /** The comment entry `addChatTransaction` appends to the chat file. */
  function CommentEntry(message: Option<string>, now: Time): (t: TxnData)
    ensures t.txType == Some("comment") && t.message == message && t.amount.None?
  {
    TransactionModel.Blank.(txType := Some("comment"), message := message, date := Some(now), timestamp := Some(now))
  }

  /** The payment `addChatTransaction` appends to the transaction file. */
  function ChatPayment(amount: Option<int>, date: Option<Time>, comment: Option<string>, customerName: Option<string>, now: Time)
    : (t: TxnData)
    ensures t.amount == Some(Num(amount)) && t.txType == Some("payment") && t.source == Some("chat")
    ensures t.createdAt == Some(now) && IsPaymentEntry(t)
  {
    TransactionModel.ToJson(TransactionModel.New(TransactionModel.Blank.(
      amount := amount, date := date, comment := Some(OrElse(comment, "")),
      customerName := customerName, txType := Some("payment"), source := Some("chat")), now))
  }

  /**
   * `addChatTransaction`: 404 for an id no active customer of the day has.
   * A message without an amount is appended to the chat file and the
   * balance is left alone; anything else is a payment appended to the
   * transaction file, and the balance grows by its amount (a missing
   * amount makes the balance `NaN`, written as `null`).
   */
  method AddChatTransaction(
    st: Store, lineId: string, day: string, id: string,
    amount: Option<int>, date: Option<Time>, comment: Option<string>, message: Option<string>, now: Time)
    returns (status: Status, newBF: Option<int>)
    modifies st`chat, st`transactions, st`lines
    ensures status == NotFound <==> FindCustomer(Read(st.customers, DayKey(lineId, day)), id).None?
    ensures status != NotFound ==> status == Created
    ensures status == NotFound ==>
      st.chat == old(st.chat) && st.transactions == old(st.transactions) && st.lines == old(st.lines)
    ensures status == Created && Truthy(message) && !NonZero(amount) ==>
      var k := FilesKey(st, lineId, day, id);
      && st.chat == old(st.chat)[k := old(Read(st.chat, k)) + [CommentEntry(message, now)]]
      && st.transactions == old(st.transactions) && st.lines == old(st.lines)
    ensures status == Created && !(Truthy(message) && !NonZero(amount)) ==>
      var c := FindCustomer(Read(st.customers, DayKey(lineId, day)), id).value;
      var k := FileKey(lineId, day, Owner(c));
      && st.transactions == old(st.transactions)[k :=
           old(Read(st.transactions, k)) + [ChatPayment(amount, date, comment, c.name, now)]]
      && st.chat == old(st.chat)
      && newBF == (if amount.Some? then Some(old(ReadBF(st.lines, lineId)) + amount.value) else None)
      && st.lines == SetBF(old(st.lines), lineId, newBF)
  {
    var found := FindCustomer(Read(st.customers, DayKey(lineId, day)), id);
    if found.None? {
      return NotFound, None;
    }
    var c := found.value;
    var k := FileKey(lineId, day, Owner(c));
    if Truthy(message) && !NonZero(amount) {
      st.chat := st.chat[k := Read(st.chat, k) + [CommentEntry(message, now)]];
      return Created, None;
    }
    newBF := if amount.Some? then Some(ReadBF(st.lines, lineId) + amount.value) else None;
    AppendAndSetBF(st, k, ChatPayment(amount, date, comment, c.name, now), lineId, newBF);
    status := Created;
  }

  /** The file key of the active customer of the day with the id, as the handlers look it up. */
  function FilesKey(st: Store, lineId: string, day: string, id: string): FileKey
    reads st
  {
    match FindCustomer(Read(st.customers, DayKey(lineId, day)), id)
    case None => FileKey(lineId, day, "undefined")
    case Some(c) => FileKey(lineId, day, Owner(c))
  }

  /**
   * A chat payment lowers the remaining amount of the renewal check by its
   * amount, unless it is dated before the latest renewal entry.
   */
  lemma ChatPaymentCountsForRenewal(
    c: CustomerData, transactions: seq<TxnData>, amount: Option<int>, date: Option<Time>,
    comment: Option<string>, now: Time)
    requires
      var renewals := Filter(transactions, IsRenewalEntry);
      renewals == [] || !NonZero(RenewedTime(LatestBy(renewals, RenewedTime)))
        || now >= RenewedTime(LatestBy(renewals, RenewedTime)).value
    ensures RenewalCheckBalance(c, transactions + [ChatPayment(amount, date, comment, c.name, now)]).remainingAmount
      == RenewalCheckBalance(c, transactions).remainingAmount - Num(amount)
  {
    var p := ChatPayment(amount, date, comment, c.name, now);
    FilterAppend(transactions, p, IsRenewalEntry);
    FilterAppend(transactions, p, IsPaymentEntry);
    var renewals := Filter(transactions, IsRenewalEntry);
    var cutoff := if renewals == [] then None else RenewedTime(LatestBy(renewals, RenewedTime));
    var payments := Filter(transactions, IsPaymentEntry);
    assert !IsRenewalEntry(p) && Counted(p, cutoff) && Amount(p) == Num(amount);
    CountedAppend(payments, p, cutoff);
    SumAppend(CountedPayments(payments, cutoff), p, Amount);
  }
}
