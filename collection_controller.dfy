/**
 * The collections report of a line (`GET /collections/:lineId`): money
 * received (transaction and chat entries) and money given (loans and
 * renewals) on the selected days, with the data of deleted customers
 * gathered by walking back their restoration chains, then filtered by date,
 * totalled, and tagged.
 *
 * The handler reads the store and writes nothing. A row keeps the fields
 * the report is read for; the customer record attached to a row for
 * tooltips is left out.
 */
module CollectionController {
  import opened Common
  import Text
  import opened CustomerModel
  import opened TransactionModel
  import opened FileStore
  import Directory

  /** A row of the report. `kind` is the row's `type`. */
  datatype Flow = Flow(
    id: Option<string>,
    customerId: Option<string>,
    customerName: Option<string>,
    amount: Option<int>,
    date: Option<Time>,
    kind: string,
    comment: Option<string>,
    day: string,
    isDeleted: bool,
    isRestored: bool,
    isSettled: bool,
    originalCustomerId: Option<string>)

  /** The received and the given rows gathered so far. */
  datatype Flows = Flows(incoming: seq<Flow>, going: seq<Flow>)

  function Join(a: Flows, b: Flows): Flows
  {
    Flows(a.incoming + b.incoming, a.going + b.going)
  }

  // ------------------------------------------------------------ selected days

  /**
   * The days of the report: the comma-separated `days` query when it is
   * given, otherwise the days stored for the line.
   */
  function SelectedDays(daysQuery: Option<string>, stored: map<string, seq<string>>, lineId: string): (r: seq<string>)
    ensures Truthy(daysQuery) ==> Text.Join(r, ',') == daysQuery.value && forall i :: 0 <= i < |r| ==> ',' !in r[i]
    ensures !Truthy(daysQuery) ==> r == Read(stored, lineId)
  {
    if Truthy(daysQuery) then
      Text.JoinSplit(daysQuery.value, ',');
      Text.Split(daysQuery.value, ',')
    else Read(stored, lineId)
  }

  // ------------------------------------------------------------ the customer map of a day

  /**
   * The `set` calls that build the customer map of a day, in order: every
   * active customer under its internal id and under its id, then every
   * customer deleted from that day under its internal id and under
   * `<id>_deleted_<deletionTimestamp>`. A missing id is the key `undefined`,
   * which no file name looks up.
   */
  function ActiveBindings(customers: seq<CustomerData>): (r: seq<(Option<string>, CustomerData)>)
    ensures |r| == 2 * |customers|
    ensures forall i :: 0 <= i < |customers| ==>
      r[2 * i] == (InternalIdOf(customers[i]), customers[i]) && r[2 * i + 1] == (customers[i].id, customers[i])
    decreases |customers|
  {
    if customers == [] then []
    else
      var c := customers[|customers| - 1];
      ActiveBindings(customers[..|customers| - 1]) + [(InternalIdOf(c), c), (c.id, c)]
  }

  function DeletedBindings(deleted: seq<CustomerData>, day: string): (r: seq<(Option<string>, CustomerData)>)
    ensures forall i :: 0 <= i < |r| ==> r[i].1 in deleted && r[i].1.deletedFrom == Some(day)
    decreases |deleted|
  {
    if deleted == [] then []
    else
      var c := deleted[|deleted| - 1];
      DeletedBindings(deleted[..|deleted| - 1], day)
        + if c.deletedFrom == Some(day) then
            [(InternalIdOf(c), c), (Some(Suffixed(JsText(c.id) + "_deleted", c.deletionTimestamp)), c)]
          else []
  }

  /** The map of the day `day`. */
  function Bindings(customers: seq<CustomerData>, deleted: seq<CustomerData>, day: string): seq<(Option<string>, CustomerData)>
  {
    ActiveBindings(customers) + DeletedBindings(deleted, day)
  }

  /** The `set` at index `i` is the last one under `key`. */
  predicate LastSet(bindings: seq<(Option<string>, CustomerData)>, i: int, key: string)
  {
    0 <= i < |bindings| && bindings[i].0 == Some(key)
    && forall j :: i < j < |bindings| ==> bindings[j].0 != Some(key)
  }

  /** `customerMap.get(key)`: the record of the last `set` under that key. */
  function Lookup(bindings: seq<(Option<string>, CustomerData)>, key: string): (r: Option<CustomerData>)
    ensures r.None? <==> forall i :: 0 <= i < |bindings| ==> bindings[i].0 != Some(key)
    ensures r.Some? ==> exists i :: LastSet(bindings, i, key) && bindings[i].1 == r.value
    decreases |bindings|
  {
    if bindings == [] then None
    else
      var n := |bindings| - 1;
      if bindings[n].0 == Some(key) then
        assert LastSet(bindings, n, key);
        Some(bindings[n].1)
      else
        var r := Lookup(bindings[..n], key);
        assert r.Some? ==> exists i :: LastSet(bindings, i, key) && bindings[i].1 == r.value by {
          if r.Some? {
            var i :| LastSet(bindings[..n], i, key) && bindings[..n][i].1 == r.value;
            LastSetExtends(bindings, i, key);
          }
        }
        r
  }

  /** The last `set` under a key stays the last when a `set` under another key follows. */
  lemma LastSetExtends(bindings: seq<(Option<string>, CustomerData)>, i: int, key: string)
    requires bindings != [] && bindings[|bindings| - 1].0 != Some(key)
    requires LastSet(bindings[..|bindings| - 1], i, key)
    ensures LastSet(bindings, i, key) && bindings[i] == bindings[..|bindings| - 1][i]
  {
    var n := |bindings| - 1;
    forall j | i < j < |bindings|
      ensures bindings[j].0 != Some(key)
    {
      if j < n {
        assert bindings[..n][j] == bindings[j];
      }
    }
  }

  /** A key set again by the later part of the map's `set` calls is looked up there. */
  lemma LookupInLater(a: seq<(Option<string>, CustomerData)>, later: seq<(Option<string>, CustomerData)>, key: string, k: int)
    requires 0 <= k < |later| && later[k].0 == Some(key)
    ensures Lookup(a + later, key).Some?
    ensures exists j :: 0 <= j < |later| && later[j].1 == Lookup(a + later, key).value
  {
    var b := a + later;
    assert b[|a| + k] == later[k];
    var r := Lookup(b, key);
    var i :| LastSet(b, i, key) && b[i].1 == r.value;
    assert !(i < |a| + k);
    assert b[i] == later[i - |a|];
  }

  /**
   * A customer deleted from the day shadows an active customer with the
   * same internal id: the map gives a record deleted from that day.
   */
  lemma DeletedShadowsActive(customers: seq<CustomerData>, deleted: seq<CustomerData>, day: string, d: CustomerData)
    requires d in deleted && d.deletedFrom == Some(day) && InternalIdOf(d).Some?
    ensures
      var r := Lookup(Bindings(customers, deleted, day), InternalIdOf(d).value);
      r.Some? && r.value in deleted && r.value.deletedFrom == Some(day)
  {
    var ds := DeletedBindings(deleted, day);
    var k := DeletedBindingOf(deleted, day, d);
    LookupInLater(ActiveBindings(customers), ds, InternalIdOf(d).value, k);
  }

  /** Every customer deleted from the day is bound under its internal id. */
  lemma {:induction false} DeletedBindingOf(deleted: seq<CustomerData>, day: string, d: CustomerData) returns (k: int)
    requires d in deleted && d.deletedFrom == Some(day)
    ensures 0 <= k < |DeletedBindings(deleted, day)| && DeletedBindings(deleted, day)[k] == (InternalIdOf(d), d)
    decreases |deleted|
  {
    var c := deleted[|deleted| - 1];
    var init := deleted[..|deleted| - 1];
    if c == d {
      k := |DeletedBindings(init, day)|;
    } else {
      assert deleted == init + [c];
      k := DeletedBindingOf(init, day, d);
    }
  }

  // ------------------------------------------------------------ rows of the active files

  /** `trans.customerName || (customer ? customer.name : \`Customer ${displayId}\`)`. */
  function NameOf(given: Option<string>, customer: Option<CustomerData>, owner: string): Option<string>
  {
    if Truthy(given) then given
    else if customer.Some? then customer.value.name
    else Some("Customer " + owner)
  }

  /** The customer shown for a file: the mapped customer's id, or the file's owner when unmapped. */
  function DisplayId(customer: Option<CustomerData>, owner: string): Option<string>
  {
    if customer.Some? then customer.value.id else Some(owner)
  }

  /** An entry of a transaction or chat file of the day, as a received row. */
  function Received(t: TxnData, customer: Option<CustomerData>, owner: string, day: string): (f: Flow)
    ensures f.amount == t.amount && f.date == t.date && !f.isDeleted
    ensures f.kind == if Truthy(t.txType) then t.txType.value else "received"
  {
    Flow(t.id, DisplayId(customer, owner), NameOf(t.customerName, customer, owner), t.amount, t.date,
      OrElse(t.txType, "received"), t.comment, day, false,
      customer.Some? && customer.value.isRestoredCustomer, t.isSettled, None)
  }

  /** The rows of the files of one family of the day, file by file in listing order. */
  function ReceivedRows(files: map<FileKey, seq<TxnData>>, owners: seq<string>, bindings: seq<(Option<string>, CustomerData)>,
    lineId: string, day: string): (r: seq<Flow>)
    ensures forall i :: 0 <= i < |r| ==> !r[i].isDeleted && r[i].day == day
    decreases |owners|
  {
    if owners == [] then []
    else
      var o := owners[|owners| - 1];
      var customer := Lookup(bindings, o);
      ReceivedRows(files, owners[..|owners| - 1], bindings, lineId, day)
        + Map(Read(files, FileKey(lineId, day, o)), (t: TxnData) => Received(t, customer, o, day))
  }

  /** `customer.takenAmount && customer.date`: the customer's loan is a given row. */
  predicate HasLoan(c: CustomerData)
  {
    NonZero(c.takenAmount) && c.date.Some?
  }

  /** The loan of an active customer, as a given row. */
  function CreationRow(c: CustomerData, day: string): (f: Flow)
    ensures f.kind == "customer_creation" && f.amount == c.takenAmount && f.date == c.date
    ensures f.comment == Some(if c.isRestoredCustomer then "Restoration Loan" else "Customer Created")
  {
    Flow(Some("customer_creation_" + JsText(c.id)), c.id, c.name, c.takenAmount, c.date, "customer_creation",
      Some(if c.isRestoredCustomer then "Restoration Loan" else "Customer Created"), day, false,
      c.isRestoredCustomer, false, None)
  }

  /** `renewal.takenAmount && renewal.date`. */
  predicate IsGivenRenewal(r: RenewalData)
  {
    NonZero(r.takenAmount) && r.date.Some?
  }

  /** A renewal of the day's `renewals/` files, as a given row; one without an id is named after the clock. */
  function RenewalRow(r: RenewalData, customer: Option<CustomerData>, owner: string, day: string, now: Time): (f: Flow)
    ensures f.kind == "renewal" && f.amount == r.takenAmount && f.date == r.date
  {
    Flow(if Truthy(r.id) then r.id else Some("renewal_" + Text.IntToString(now)),
      DisplayId(customer, owner), NameOf(r.customerName, customer, owner), r.takenAmount, r.date,
      "renewal", Some("Renewal"), day, false, false, false, None)
  }

  function RenewalRows(files: map<FileKey, seq<RenewalData>>, owners: seq<string>, bindings: seq<(Option<string>, CustomerData)>,
    lineId: string, day: string, now: Time): (r: seq<Flow>)
    ensures forall i :: 0 <= i < |r| ==> r[i].kind == "renewal" && NonZero(r[i].amount) && r[i].date.Some?
    decreases |owners|
  {
    if owners == [] then []
    else
      var o := owners[|owners| - 1];
      var customer := Lookup(bindings, o);
      RenewalRows(files, owners[..|owners| - 1], bindings, lineId, day, now)
        + Map(Filter(Read(files, FileKey(lineId, day, o)), IsGivenRenewal),
            (r: RenewalData) => RenewalRow(r, customer, o, day, now))
  }

  /** The loans of the day's customers, in file order. */
  function LoanRows(customers: seq<CustomerData>, day: string): (r: seq<Flow>)
    ensures forall c :: c in customers && HasLoan(c) ==> CreationRow(c, day) in r
    ensures forall f :: f in r ==> exists c :: c in customers && HasLoan(c) && f == CreationRow(c, day)
  {
    var loaned := Filter(customers, HasLoan);
    var r := Map(loaned, (c: CustomerData) => CreationRow(c, day));
    assert forall c :: c in customers && HasLoan(c) ==> CreationRow(c, day) in r by {
      forall c | c in customers && HasLoan(c)
        ensures CreationRow(c, day) in r
      {
        var i :| 0 <= i < |loaned| && loaned[i] == c;
        assert r[i] == CreationRow(c, day);
      }
    }
    r
  }

  /**
   * The rows of one selected day from the active files: the transaction
   * files, then the chat files, received; the loans of the day's
   * customers, then the renewal files, given.
   */
  function DayFlows(
    transactions: map<FileKey, seq<TxnData>>, chat: map<FileKey, seq<TxnData>>, renewals: map<FileKey, seq<RenewalData>>,
    customers: seq<CustomerData>, deleted: seq<CustomerData>, lineId: string, day: string, now: Time): (r: Flows)
    ensures forall c :: c in customers && HasLoan(c) ==> CreationRow(c, day) in r.going
    ensures forall f :: f in r.incoming ==> !f.isDeleted && f.day == day
  {
    var b := Bindings(customers, deleted, day);
    var received := ReceivedRows(transactions, Directory.Listing(transactions, lineId, day), b, lineId, day);
    var chatted := ReceivedRows(chat, Directory.Listing(chat, lineId, day), b, lineId, day);
    assert forall f :: f in received + chatted ==> f in received || f in chatted;
    var loans := LoanRows(customers, day);
    Flows(received + chatted, loans + RenewalRows(renewals, Directory.Listing(renewals, lineId, day), b, lineId, day, now))
  }

  // ------------------------------------------------------------ the latest deletion of each chain

  /**
   * Some deleted record was restored from `dc` on the same day and deleted
   * again. The internal ids are compared as stored, so a record without an
   * internal id matches every record without `restoredFromInternalId`,
   * itself included.
   */
  predicate RestoredAndRedeleted(dc: CustomerData, deleted: seq<CustomerData>)
  {
    exists o :: o in deleted && o.restoredFromInternalId == dc.internalId && o.deletedFrom == dc.deletedFrom
  }

  /** A deleted record that ends a restoration chain on one of the selected days. */
  predicate Eligible(dc: CustomerData, deleted: seq<CustomerData>, days: seq<string>)
  {
    NonZero(dc.deletionTimestamp) && dc.deletedFrom.Some? && dc.deletedFrom.value in days
    && !dc.isRestored && !RestoredAndRedeleted(dc, deleted)
  }

  /** A deleted record without internal id or restoration source never ends a chain. */
  lemma UnkeyedDeletionSkipped(dc: CustomerData, deleted: seq<CustomerData>, days: seq<string>)
    requires dc in deleted && dc.internalId.None? && dc.restoredFromInternalId.None?
    ensures !Eligible(dc, deleted, days)
  {
    assert dc.restoredFromInternalId == dc.internalId;
  }

  /** No two chains share a key, `internalId || id`. */
  predicate UniqueKeys(chains: seq<CustomerData>)
  {
    forall i, j | 0 <= i < j < |chains| :: InternalIdOf(chains[i]) != InternalIdOf(chains[j])
  }

  /** The chains hold a record with the key of `dc` deleted no earlier than `dc`. */
  predicate Covers(chains: seq<CustomerData>, dc: CustomerData)
  {
    exists t :: t in chains && InternalIdOf(t) == InternalIdOf(dc)
      && dc.deletionTimestamp.GetOr(0) <= t.deletionTimestamp.GetOr(0)
  }

  /**
   * `deletionChains.set(key, dc)` when the key is new or `dc` was deleted
   * later than the record kept for it. A replaced record keeps its place in
   * the map's order.
   */
  function Record(chains: seq<CustomerData>, dc: CustomerData): (r: seq<CustomerData>)
    requires UniqueKeys(chains)
    ensures UniqueKeys(r)
    ensures forall x :: x in r ==> x in chains || x == dc
    ensures Covers(r, dc)
    ensures forall x :: x in chains ==> Covers(r, x)
  {
    var i := FindIndex(chains, (e: CustomerData) => InternalIdOf(e) == InternalIdOf(dc));
    if i < 0 then
      AppendCovers(chains, dc);
      chains + [dc]
    else if dc.deletionTimestamp.GetOr(0) > chains[i].deletionTimestamp.GetOr(0) then
      ReplaceCovers(chains, dc, i);
      chains[i := dc]
    else
      KeepCovers(chains, dc, i);
      chains
  }

  /** A new key goes to the end of the map. */
  lemma AppendCovers(chains: seq<CustomerData>, dc: CustomerData)
    requires UniqueKeys(chains)
    requires forall j :: 0 <= j < |chains| ==> InternalIdOf(chains[j]) != InternalIdOf(dc)
    ensures UniqueKeys(chains + [dc]) && Covers(chains + [dc], dc)
    ensures forall x :: x in chains ==> Covers(chains + [dc], x)
  {
    var r := chains + [dc];
    assert r[|chains|] == dc;
    forall x | x in chains
      ensures Covers(r, x)
    {
      assert x in r;
    }
  }

  /** A later deletion replaces the record of its key in place. */
  lemma ReplaceCovers(chains: seq<CustomerData>, dc: CustomerData, i: int)
    requires UniqueKeys(chains) && 0 <= i < |chains| && InternalIdOf(chains[i]) == InternalIdOf(dc)
    requires dc.deletionTimestamp.GetOr(0) > chains[i].deletionTimestamp.GetOr(0)
    ensures UniqueKeys(chains[i := dc]) && Covers(chains[i := dc], dc)
    ensures forall x :: x in chains[i := dc] ==> x in chains || x == dc
    ensures forall x :: x in chains ==> Covers(chains[i := dc], x)
  {
    var r := chains[i := dc];
    assert r[i] == dc;
    forall x | x in chains
      ensures Covers(r, x)
    {
      var j :| 0 <= j < |chains| && chains[j] == x;
      assert j == i || r[j] == x;
    }
  }

  /** An earlier deletion leaves the map as it is. */
  lemma KeepCovers(chains: seq<CustomerData>, dc: CustomerData, i: int)
    requires 0 <= i < |chains| && InternalIdOf(chains[i]) == InternalIdOf(dc)
    requires dc.deletionTimestamp.GetOr(0) <= chains[i].deletionTimestamp.GetOr(0)
    ensures Covers(chains, dc) && forall x :: x in chains ==> Covers(chains, x)
  {
    assert chains[i] in chains;
    forall x | x in chains
      ensures Covers(chains, x)
    {
      assert x in chains;
    }
  }

  /**
   * The terminal records after `scanned` was looked at: one per chain key,
   * each an eligible record, each deleted no earlier than any eligible
   * record with its key.
   */
  function Terminals(deleted: seq<CustomerData>, scanned: seq<CustomerData>, days: seq<string>): (r: seq<CustomerData>)
    ensures UniqueKeys(r)
    ensures forall t :: t in r ==> t in scanned && Eligible(t, deleted, days)
    ensures forall dc :: dc in scanned && Eligible(dc, deleted, days) ==> Covers(r, dc)
    decreases |scanned|
  {
    if scanned == [] then []
    else
      var n := |scanned| - 1;
      var dc := scanned[n];
      var before := Terminals(deleted, scanned[..n], days);
      assert scanned == scanned[..n] + [dc];
      if Eligible(dc, deleted, days) then
        var r := Record(before, dc);
        assert forall x :: x in scanned[..n] && Eligible(x, deleted, days) ==> Covers(r, x) by {
          forall x | x in scanned[..n] && Eligible(x, deleted, days)
            ensures Covers(r, x)
          {
            var t :| t in before && InternalIdOf(t) == InternalIdOf(x)
              && x.deletionTimestamp.GetOr(0) <= t.deletionTimestamp.GetOr(0);
            var u :| u in r && InternalIdOf(u) == InternalIdOf(t)
              && t.deletionTimestamp.GetOr(0) <= u.deletionTimestamp.GetOr(0);
          }
        }
        r
      else before
  }

  /** The loop over the deleted records that fills `deletionChains`. */
  method ChainTerminals(deleted: seq<CustomerData>, days: seq<string>) returns (chains: seq<CustomerData>)
    ensures chains == Terminals(deleted, deleted, days)
  {
    chains := [];
    var i := 0;
    while i < |deleted|
      invariant 0 <= i <= |deleted|
      invariant chains == Terminals(deleted, deleted[..i], days)
    {
      var dc := deleted[i];
      assert deleted[..i + 1][..i] == deleted[..i];
      if Eligible(dc, deleted, days) {
        chains := Record(chains, dc);
      }
      i := i + 1;
    }
    assert deleted[..i] == deleted;
  }

  // ------------------------------------------------------------ walking a restoration chain

  /** The deletion timestamps of the records. */
  function Stamps(records: seq<CustomerData>): set<Option<Time>>
  {
    set d | d in records :: d.deletionTimestamp
  }

  /**
   * `deletedCustomers.find(dc => dc.internalId === id && dc.deletedFrom === day && !dc.restorationInvalidated)`.
   */
  function Earlier(deleted: seq<CustomerData>, day: string, id: Option<string>): (r: Option<CustomerData>)
    ensures r.Some? ==> r.value in deleted && r.value.internalId == id
    ensures r.Some? ==> r.value.deletedFrom == Some(day) && !r.value.restorationInvalidated
  {
    var i := FindIndex(deleted, (dc: CustomerData) => dc.internalId == id && dc.deletedFrom == Some(day) && !dc.restorationInvalidated);
    if i < 0 then None else Some(deleted[i])
  }

  /**
   * The deletion the record `current` was restored from: found by
   * `restoredFromInternalId`, else by `originalCustomerInternalId`.
   */
  function Previous(deleted: seq<CustomerData>, day: string, current: CustomerData): (r: Option<CustomerData>)
    ensures r.Some? ==> r.value in deleted && r.value.deletedFrom == Some(day) && !r.value.restorationInvalidated
    ensures r.Some? ==> Truthy(current.restoredFromInternalId) || Truthy(current.originalCustomerInternalId)
  {
    var viaRestore := if Truthy(current.restoredFromInternalId) then Earlier(deleted, day, current.restoredFromInternalId) else None;
    if viaRestore.Some? then viaRestore
    else if Truthy(current.originalCustomerInternalId) then Earlier(deleted, day, current.originalCustomerInternalId)
    else None
  }

  /** No two records of the chain share a deletion timestamp. */
  predicate DistinctStamps(chain: seq<CustomerData>)
  {
    forall i, j | 0 <= i < j < |chain| :: chain[i].deletionTimestamp != chain[j].deletionTimestamp
  }

  /**
   * The records the walk visits from `current`, when the timestamps in
   * `visited` were seen already: it stops at a timestamp seen before, or
   * at a record with no earlier deletion. Every step visits a new
   * timestamp of the deleted records, so the walk ends.
   */
  function ChainFrom(deleted: seq<CustomerData>, day: string, current: CustomerData, visited: set<Option<Time>>): (r: seq<CustomerData>)
    requires current in deleted
    ensures r == [] <==> current.deletionTimestamp in visited
    ensures r != [] ==> r[0] == current
    ensures forall d :: d in r ==> d in deleted && d.deletionTimestamp !in visited
    decreases |Stamps(deleted) - visited|
  {
    var ts := current.deletionTimestamp;
    if ts in visited then []
    else
      var seen := visited + {ts};
      assert ts in Stamps(deleted);
      assert Stamps(deleted) - seen == (Stamps(deleted) - visited) - {ts};
      match Previous(deleted, day, current)
      case None => [current]
      case Some(p) => [current] + ChainFrom(deleted, day, p, seen)
  }

  /**
   * The walk never visits a deletion timestamp twice, so it visits at most
   * as many records as there are timestamps it has not seen.
   */
  lemma {:induction false} ChainNeverRevisits(deleted: seq<CustomerData>, day: string, current: CustomerData, visited: set<Option<Time>>)
    requires current in deleted
    ensures DistinctStamps(ChainFrom(deleted, day, current, visited))
    ensures |ChainFrom(deleted, day, current, visited)| <= |Stamps(deleted) - visited|
    decreases |Stamps(deleted) - visited|
  {
    var ts := current.deletionTimestamp;
    if ts !in visited {
      var seen := visited + {ts};
      assert ts in Stamps(deleted);
      assert Stamps(deleted) - seen == (Stamps(deleted) - visited) - {ts};
      match Previous(deleted, day, current)
      case None =>
      case Some(p) =>
        var rest := ChainFrom(deleted, day, p, seen);
        ChainNeverRevisits(deleted, day, p, seen);
        assert forall j :: 0 <= j < |rest| ==> rest[j].deletionTimestamp != ts;
    }
  }

  /** The records the walk visits from a terminal record, latest first. */
  function Chain(deleted: seq<CustomerData>, terminal: CustomerData): (r: seq<CustomerData>)
    requires terminal in deleted && terminal.deletedFrom.Some?
    ensures r != [] && r[0] == terminal
    ensures DistinctStamps(r) && |r| <= |Stamps(deleted)|
  {
    assert Stamps(deleted) - {} == Stamps(deleted);
    ChainNeverRevisits(deleted, terminal.deletedFrom.value, terminal, {});
    ChainFrom(deleted, terminal.deletedFrom.value, terminal, {})
  }

  // ------------------------------------------------------------ what a chain contributes

  /** `remainingAtDeletion === 0`: the loan was paid off when the customer was deleted. */
  predicate Settled(d: CustomerData)
  {
    d.remainingAtDeletion == Some(0)
  }

  /** The archive file of a deletion: `<line>/<day>/<internalId>_<deletionTimestamp>.json`. */
  function ArchiveKey(lineId: string, day: string, d: CustomerData): FileKey
  {
    FileKey(lineId, day, Suffixed(Owner(d), d.deletionTimestamp))
  }

  /** An archived entry as the walk marks it. */
  function MarkTxn(t: TxnData, settled: bool): TxnData
  {
    t.(isArchived := true, isSettled := settled)
  }

  function MarkRenewal(r: RenewalData, settled: bool): RenewalData
  {
    r.(isArchived := true, isSettled := settled)
  }

  /**
   * The archived entries of one family the walk collects along `chain`:
   * the files of the first record, and of every later record that was not
   * migrated, each file prepended, so that the oldest deletion comes first.
   */
  function Archive<T>(files: map<FileKey, seq<T>>, lineId: string, day: string, chain: seq<CustomerData>,
    mark: (T, bool) -> T): seq<T>
    decreases |chain|
  {
    if chain == [] then []
    else
      var n := |chain| - 1;
      var d := chain[n];
      (if n == 0 || !d.isMigrated then Map(Read(files, ArchiveKey(lineId, day, d)), (x: T) => mark(x, Settled(d))) else [])
        + Archive(files, lineId, day, chain[..n], mark)
  }

  /** The files of an older deletion that was migrated are not read again. */
  lemma MigratedAddsNothing<T>(files: map<FileKey, seq<T>>, lineId: string, day: string, chain: seq<CustomerData>,
    d: CustomerData, mark: (T, bool) -> T)
    requires chain != [] && d.isMigrated
    ensures Archive(files, lineId, day, chain + [d], mark) == Archive(files, lineId, day, chain, mark)
  {
    assert (chain + [d])[..|chain|] == chain;
  }

  /** The walk reads the archive files of the terminal record itself, whatever its flags. */
  lemma TerminalFilesRead<T>(files: map<FileKey, seq<T>>, lineId: string, day: string, d: CustomerData, mark: (T, bool) -> T)
    ensures Archive(files, lineId, day, [d], mark) == Map(Read(files, ArchiveKey(lineId, day, d)), (x: T) => mark(x, Settled(d)))
  {
    assert [d][..0] == [];
  }

  /** The customer a chain's rows are shown under: the terminal's id, or the id it was restored as. */
  function Shown(terminal: CustomerData): Option<string>
  {
    if terminal.isRestored then terminal.restoredAs else terminal.id
  }

  /** An archived transaction or chat entry of a chain, as a received row. */
  function ArchivedRow(t: TxnData, terminal: CustomerData, day: string): (f: Flow)
    ensures f.amount == t.amount && f.date == t.date && f.isSettled == t.isSettled
    ensures f.isDeleted == !terminal.isRestored && f.originalCustomerId == terminal.id
  {
    Flow(t.id, Shown(terminal), if Truthy(t.customerName) then t.customerName else terminal.name, t.amount, t.date,
      OrElse(t.txType, "received"), t.comment, day, !terminal.isRestored, terminal.isRestored, t.isSettled, terminal.id)
  }

  /** An archived renewal of a chain, as a given row. An archived renewal without an id gets none. */
  function ArchivedRenewalRow(r: RenewalData, terminal: CustomerData, day: string): (f: Flow)
    ensures f.kind == "renewal" && f.amount == r.takenAmount && f.date == r.date && f.isSettled == r.isSettled
    ensures f.isDeleted == !terminal.isRestored && f.originalCustomerId == terminal.id
  {
    Flow(if Truthy(r.id) then r.id else None, Shown(terminal),
      if Truthy(r.customerName) then r.customerName else terminal.name, r.takenAmount, r.date,
      "renewal", Some("Renewal"), day, !terminal.isRestored, terminal.isRestored, r.isSettled, terminal.id)
  }

  /**
   * The loan of the record `d` at position `index` of the chain, oldest
   * first: the first is the customer's creation, each later one a
   * restoration loan. The amount is the original loan when one was saved.
   */
  function LoanRow(d: CustomerData, index: nat, terminal: CustomerData, day: string): (f: Flow)
    ensures f.kind == "customer_creation" && f.date == d.date && f.isSettled == Settled(d)
    ensures f.comment == Some(if index == 0 then "Customer Created" else "Restoration Loan")
    ensures f.amount == if NonZero(d.originalTakenAmount) then d.originalTakenAmount else d.takenAmount
  {
    var prefix := if index == 0 then "customer_creation_deleted_" else "customer_restoration_";
    Flow(Some(Suffixed(prefix + JsText(d.id), d.deletionTimestamp)), Shown(terminal), terminal.name,
      if NonZero(d.originalTakenAmount) then d.originalTakenAmount else d.takenAmount, d.date, "customer_creation",
      Some(if index == 0 then "Customer Created" else "Restoration Loan"), day, !terminal.isRestored,
      d.wasRestoredCustomer || d.isRestoredCustomer || Truthy(d.originalCustomerId), Settled(d), terminal.id)
  }

  /** `chainLoans.reverse()`, as rows: the loans of the chain's records, oldest first. */
  function Loans(chain: seq<CustomerData>, terminal: CustomerData, day: string): (r: seq<Flow>)
    ensures |r| == |chain|
    ensures forall i :: 0 <= i < |r| ==> r[i] == LoanRow(chain[|chain| - 1 - i], i, terminal, day)
  {
    seq(|chain|, (i: int) requires 0 <= i < |chain| => LoanRow(chain[|chain| - 1 - i], i, terminal, day))
  }

  /**
   * The rows of one chain: its archived transactions, then its archived
   * chat, received; its archived renewals, then the loans of its records
   * from the oldest to the terminal, given.
   */
  function ChainRows(terminal: CustomerData, day: string, chain: seq<CustomerData>,
    txns: seq<TxnData>, chats: seq<TxnData>, renewals: seq<RenewalData>): (r: Flows)
    ensures |r.incoming| == |txns| + |chats|
    ensures forall f :: f in r.incoming ==> f.isDeleted == !terminal.isRestored && f.originalCustomerId == terminal.id
    ensures |r.going| >= |chain| && r.going[|r.going| - |chain|..] == Loans(chain, terminal, day)
  {
    var loans := Loans(chain, terminal, day);
    var given := Map(Filter(renewals, IsGivenRenewal), (x: RenewalData) => ArchivedRenewalRow(x, terminal, day));
    Flows(Map(txns, (t: TxnData) => ArchivedRow(t, terminal, day)) + Map(chats, (t: TxnData) => ArchivedRow(t, terminal, day)),
      given + loans)
  }

  /** The three archive families of a line, bundled to keep the signatures short. */
  datatype Archives = Archives(
    transactions: map<FileKey, seq<TxnData>>,
    chat: map<FileKey, seq<TxnData>>,
    renewals: map<FileKey, seq<RenewalData>>)

  /** The rows of the chain ending at `terminal`. */
  function ChainFlows(deleted: seq<CustomerData>, archives: Archives, lineId: string, terminal: CustomerData): Flows
    requires terminal in deleted && terminal.deletedFrom.Some?
  {
    var day := terminal.deletedFrom.value;
    var chain := Chain(deleted, terminal);
    ChainRows(terminal, day, chain,
      Archive(archives.transactions, lineId, day, chain, MarkTxn),
      Archive(archives.chat, lineId, day, chain, MarkTxn),
      Archive(archives.renewals, lineId, day, chain, MarkRenewal))
  }

  /**
   * The rows of the chains ending at `terminals`, in map order. A terminal
   * whose timestamp an earlier walk visited is skipped.
   */
  function DeletedFlows(deleted: seq<CustomerData>, archives: Archives, lineId: string,
    terminals: seq<CustomerData>, processed: set<Option<Time>>): Flows
    requires forall t :: t in terminals ==> t in deleted && t.deletedFrom.Some?
    decreases |terminals|
  {
    if terminals == [] then Flows([], [])
    else
      var t := terminals[0];
      if t.deletionTimestamp in processed then DeletedFlows(deleted, archives, lineId, terminals[1..], processed)
      else
        Join(ChainFlows(deleted, archives, lineId, t),
          DeletedFlows(deleted, archives, lineId, terminals[1..], processed + Stamps(Chain(deleted, t))))
  }

  /** A chain is never walked twice: a terminal visited by an earlier walk adds no rows. */
  lemma VisitedTerminalSkipped(deleted: seq<CustomerData>, archives: Archives, lineId: string,
    t: CustomerData, rest: seq<CustomerData>, processed: set<Option<Time>>)
    requires t in deleted && t.deletedFrom.Some? && t.deletionTimestamp in processed
    requires forall x :: x in rest ==> x in deleted && x.deletedFrom.Some?
    ensures DeletedFlows(deleted, archives, lineId, [t] + rest, processed) == DeletedFlows(deleted, archives, lineId, rest, processed)
  {
    assert ([t] + rest)[1..] == rest;
  }

  // ------------------------------------------------------------ filters, totals, dates

  /**
   * Whether a row passes the date filters: the `date` filter keeps rows of
   * exactly that date and wins over the range; the inclusive range applies
   * only when both of its ends are given; a row without a date fails both.
   */
  predicate Kept(f: Flow, date: Option<Time>, dateFrom: Option<Time>, dateTo: Option<Time>)
  {
    if date.Some? then f.date == date
    else if dateFrom.Some? && dateTo.Some? then f.date.Some? && dateFrom.value <= f.date.value <= dateTo.value
    else true
  }

  function DateFiltered(s: seq<Flow>, date: Option<Time>, dateFrom: Option<Time>, dateTo: Option<Time>): (r: seq<Flow>)
    ensures forall f :: f in r <==> f in s && Kept(f, date, dateFrom, dateTo)
    ensures forall f :: multiset(r)[f] == if Kept(f, date, dateFrom, dateTo) then multiset(s)[f] else 0
    ensures date.None? && (dateFrom.None? || dateTo.None?) ==> r == s
  {
    var p := (f: Flow) => Kept(f, date, dateFrom, dateTo);
    forall f
      ensures multiset(Filter(s, p))[f] == if Kept(f, date, dateFrom, dateTo) then multiset(s)[f] else 0
    {
      FilterCount(s, p, f);
    }
    if date.None? && (dateFrom.None? || dateTo.None?) then
      FilterAll(s, p);
      Filter(s, p)
    else Filter(s, p)
  }

  /** A `date` filter makes the range irrelevant. */
  lemma DateWinsOverRange(s: seq<Flow>, date: Option<Time>, dateFrom: Option<Time>, dateTo: Option<Time>)
    requires date.Some?
    ensures DateFiltered(s, date, dateFrom, dateTo) == DateFiltered(s, date, None, None)
  {
    FilterAgrees(s, (f: Flow) => Kept(f, date, dateFrom, dateTo), (f: Flow) => Kept(f, date, None, None));
  }

  /** Filters by predicates that agree on every row give the same rows. */
  lemma {:induction false} FilterAgrees(s: seq<Flow>, p: Flow -> bool, q: Flow -> bool)
    requires forall f :: p(f) == q(f)
    ensures Filter(s, p) == Filter(s, q)
    decreases |s|
  {
    if s != [] {
      FilterAgrees(s[..|s| - 1], p, q);
    }
  }

  /** `reduce((sum, t) => sum + (parseFloat(t.amount) || 0), 0)`. */
  function Total(s: seq<Flow>): int
  {
    Sum(s, (f: Flow) => Num(f.amount))
  }

  /** The date of the first row strictly precedes the second; a missing date sorts last. */
  predicate DateBefore(a: Option<Time>, b: Option<Time>)
  {
    a.Some? && (b.None? || a.value < b.value)
  }

  predicate StrictlyAscending(ds: seq<Option<Time>>)
  {
    forall i, j | 0 <= i < j < |ds| :: DateBefore(ds[i], ds[j])
  }

  lemma AscendingHasNoDup(ds: seq<Option<Time>>)
    requires StrictlyAscending(ds)
    ensures NoDup(ds)
  {
  }

  /** Adds a date to a strictly ascending list of dates, once. */
  function InsertDate(d: Option<Time>, ds: seq<Option<Time>>): (r: seq<Option<Time>>)
    requires StrictlyAscending(ds)
    ensures StrictlyAscending(r)
    ensures forall x :: x in r <==> x == d || x in ds
    decreases |ds|
  {
    if ds == [] then [d]
    else if d == ds[0] then ds
    else if DateBefore(d, ds[0]) then
      assert forall j :: 0 <= j < |ds| ==> DateBefore(d, ds[j]);
      [d] + ds
    else
      var rest := InsertDate(d, ds[1..]);
      assert forall x :: x in rest ==> DateBefore(ds[0], x);
      [ds[0]] + rest
  }

  /** `rows.map(t => t.date)`. */
  function Dates(rows: seq<Flow>): (r: seq<Option<Time>>)
    ensures |r| == |rows| && forall i :: 0 <= i < |rows| ==> r[i] == rows[i].date
  {
    Map(rows, (f: Flow) => f.date)
  }

  /** `[...new Set(dates)].sort()`: each date once, ascending, a missing date last. */
  function DistinctDates(dates: seq<Option<Time>>): (r: seq<Option<Time>>)
    ensures StrictlyAscending(r)
    ensures forall x :: x in r <==> x in dates
    decreases |dates|
  {
    if dates == [] then []
    else
      var n := |dates| - 1;
      assert dates == dates[..n] + [dates[n]];
      InsertDate(dates[n], DistinctDates(dates[..n]))
  }

  /** The combined list: the received rows tagged `received`, then the given rows tagged `given`. */
  function Tagged(incoming: seq<Flow>, going: seq<Flow>): (r: seq<Flow>)
    ensures |r| == |incoming| + |going|
    ensures forall i :: 0 <= i < |incoming| ==> r[i] == incoming[i].(kind := "received")
    ensures forall i :: 0 <= i < |going| ==> r[|incoming| + i] == going[i].(kind := "given")
  {
    Map(incoming, (f: Flow) => f.(kind := "received")) + Map(going, (f: Flow) => f.(kind := "given"))
  }

  /** Tagging keeps every amount, so the combined list totals what was received plus what was given. */
  lemma {:induction false} TaggedTotal(incoming: seq<Flow>, going: seq<Flow>)
    ensures Total(Tagged(incoming, going)) == Total(incoming) + Total(going)
  {
    var a := Map(incoming, (f: Flow) => f.(kind := "received"));
    var b := Map(going, (f: Flow) => f.(kind := "given"));
    SumConcat(a, b, (f: Flow) => Num(f.amount));
    RetagKeepsTotal(incoming, "received");
    RetagKeepsTotal(going, "given");
  }

  lemma {:induction false} RetagKeepsTotal(s: seq<Flow>, kind: string)
    ensures Total(Map(s, (f: Flow) => f.(kind := kind))) == Total(s)
    decreases |s|
  {
    if s != [] {
      var n := |s| - 1;
      var m := Map(s, (f: Flow) => f.(kind := kind));
      RetagKeepsTotal(s[..n], kind);
      assert m[..n] == Map(s[..n], (f: Flow) => f.(kind := kind));
    }
  }

  // ------------------------------------------------------------ the report

  datatype Totals = Totals(incoming: int, going: int, netFlow: int)

  /** The response body; of the echoed filters only the days are kept. */
  datatype Report = Report(
    collections: seq<Flow>,
    incoming: seq<Flow>,
    going: seq<Flow>,
    totals: Totals,
    uniqueDates: seq<Option<Time>>,
    days: seq<string>)

  /** The report on the gathered rows: filtered, totalled after filtering, dated, tagged. */
  function Summarize(all: Flows, days: seq<string>, date: Option<Time>, dateFrom: Option<Time>, dateTo: Option<Time>): (r: Report)
    ensures forall f :: f in r.incoming <==> f in all.incoming && Kept(f, date, dateFrom, dateTo)
    ensures forall f :: f in r.going <==> f in all.going && Kept(f, date, dateFrom, dateTo)
    ensures r.incoming == DateFiltered(all.incoming, date, dateFrom, dateTo)
    ensures r.going == DateFiltered(all.going, date, dateFrom, dateTo)
    ensures r.totals.incoming == Total(r.incoming) && r.totals.going == Total(r.going)
    ensures r.totals.netFlow == Total(r.incoming) - Total(r.going)
    ensures date.Some? ==> r.uniqueDates == []
    ensures date.None? ==> StrictlyAscending(r.uniqueDates) && NoDup(r.uniqueDates)
    ensures date.None? ==> forall x :: x in r.uniqueDates <==> x in Dates(r.incoming + r.going)
    ensures |r.collections| == |r.incoming| + |r.going|
    ensures Total(r.collections) == Total(r.incoming) + Total(r.going)
  {
    var incoming := DateFiltered(all.incoming, date, dateFrom, dateTo);
    var going := DateFiltered(all.going, date, dateFrom, dateTo);
    var dates := if date.Some? then [] else DistinctDates(Dates(incoming + going));
    AscendingHasNoDup(dates);
    TaggedTotal(incoming, going);
    Report(Tagged(incoming, going), incoming, going,
      Totals(Total(incoming), Total(going), Total(incoming) - Total(going)), dates, days)
  }

  /** The active files the first pass of the handler reads. */
  datatype ActiveFiles = ActiveFiles(
    customers: map<DayKey, seq<CustomerData>>,
    deletedCustomers: map<string, seq<CustomerData>>,
    transactions: map<FileKey, seq<TxnData>>,
    chat: map<FileKey, seq<TxnData>>,
    renewals: map<FileKey, seq<RenewalData>>)

  /** The rows of the active files of the selected days, day by day. */
  function ActiveFlows(files: ActiveFiles, lineId: string, days: seq<string>, now: Time): (r: Flows)
    ensures forall f :: f in r.incoming ==> !f.isDeleted && f.day in days
    decreases |days|
  {
    if days == [] then Flows([], [])
    else
      var n := |days| - 1;
      var day := days[n];
      var before := ActiveFlows(files, lineId, days[..n], now);
      var rows := DayFlows(files.transactions, files.chat, files.renewals, Read(files.customers, DayKey(lineId, day)),
        Read(files.deletedCustomers, lineId), lineId, day, now);
      Join(before, rows)
  }

  /** The whole report of `getCollections`, as a function of the store and the query. */
  function CollectionsOf(st: Store, lineId: string, daysQuery: Option<string>, date: Option<Time>,
    dateFrom: Option<Time>, dateTo: Option<Time>, now: Time): Report
    reads st
  {
    var days := SelectedDays(daysQuery, st.days, lineId);
    var deleted := Read(st.deletedCustomers, lineId);
    var terminals := Terminals(deleted, deleted, days);
    var archives := Archives(st.archivedTransactions, st.archivedChat, st.archivedRenewals);
    var files := ActiveFiles(st.customers, st.deletedCustomers, st.transactions, st.chat, st.renewals);
    Summarize(Join(ActiveFlows(files, lineId, days, now), DeletedFlows(deleted, archives, lineId, terminals, {})),
      days, date, dateFrom, dateTo)
  }


  /** What the walk collects from the archive files of a chain. */
  datatype Collected = Collected(txns: seq<TxnData>, chats: seq<TxnData>, renewals: seq<RenewalData>)

  function CollectedOf(archives: Archives, lineId: string, day: string, chain: seq<CustomerData>): Collected
  {
    Collected(
      Archive(archives.transactions, lineId, day, chain, MarkTxn),
      Archive(archives.chat, lineId, day, chain, MarkTxn),
      Archive(archives.renewals, lineId, day, chain, MarkRenewal))
  }

  /** `chainX = [...markedX, ...chainX]` for the three families, with the files of `d`. */
  function Prepended(collected: Collected, archives: Archives, lineId: string, day: string, d: CustomerData): Collected
  {
    var key := ArchiveKey(lineId, day, d);
    var settled := Settled(d);
    Collected(
      Map(Read(archives.transactions, key), (x: TxnData) => MarkTxn(x, settled)) + collected.txns,
      Map(Read(archives.chat, key), (x: TxnData) => MarkTxn(x, settled)) + collected.chats,
      Map(Read(archives.renewals, key), (x: RenewalData) => MarkRenewal(x, settled)) + collected.renewals)
  }

  /** Visiting one more record prepends its archive files, when they are read. */
  lemma CollectedStep(archives: Archives, lineId: string, day: string, chain: seq<CustomerData>, d: CustomerData)
    ensures CollectedOf(archives, lineId, day, chain + [d]) ==
      if chain == [] || !d.isMigrated then Prepended(CollectedOf(archives, lineId, day, chain), archives, lineId, day, d)
      else CollectedOf(archives, lineId, day, chain)
  {
    assert (chain + [d])[..|chain|] == chain;
  }

  /** One step of the walk from a record not visited yet. */
  lemma ChainStep(deleted: seq<CustomerData>, day: string, current: CustomerData, visited: set<Option<Time>>)
    requires current in deleted && current.deletionTimestamp !in visited
    ensures ChainFrom(deleted, day, current, visited) ==
      match Previous(deleted, day, current)
      case None => [current]
      case Some(p) => [current] + ChainFrom(deleted, day, p, visited + {current.deletionTimestamp})
  {
  }

  /** The walk's invariant after visiting `current`. */
  lemma WalkStep(deleted: seq<CustomerData>, day: string, terminal: CustomerData, chain: seq<CustomerData>,
    current: CustomerData, visited: set<Option<Time>>)
    requires terminal in deleted && current in deleted && current.deletionTimestamp !in visited
    requires chain + ChainFrom(deleted, day, current, visited) == ChainFrom(deleted, day, terminal, {})
    ensures Previous(deleted, day, current).None? ==> chain + [current] == ChainFrom(deleted, day, terminal, {})
    ensures Previous(deleted, day, current).Some? ==>
      chain + [current] + ChainFrom(deleted, day, Previous(deleted, day, current).value, visited + {current.deletionTimestamp})
        == ChainFrom(deleted, day, terminal, {})
  {
    ChainStep(deleted, day, current, visited);
    match Previous(deleted, day, current)
    case None =>
    case Some(p) =>
      var rest := ChainFrom(deleted, day, p, visited + {current.deletionTimestamp});
      assert chain + ([current] + rest) == chain + [current] + rest;
  }

  lemma StampsAppend(chain: seq<CustomerData>, d: CustomerData)
    ensures Stamps(chain + [d]) == Stamps(chain) + {d.deletionTimestamp}
  {
    assert forall x :: x in chain + [d] <==> x in chain || x == d;
  }

  lemma NothingCollected(archives: Archives, lineId: string, day: string)
    ensures CollectedOf(archives, lineId, day, []) == Collected([], [], [])
  {
  }

  /** Visiting one more deletion leaves fewer unvisited. */
  lemma StampsShrink(deleted: seq<CustomerData>, visited: set<Option<Time>>, d: CustomerData)
    requires d in deleted && d.deletionTimestamp !in visited
    ensures |Stamps(deleted) - (visited + {d.deletionTimestamp})| < |Stamps(deleted) - visited|
  {
    var ts := d.deletionTimestamp;
    assert ts in Stamps(deleted);
    assert Stamps(deleted) - (visited + {ts}) == (Stamps(deleted) - visited) - {ts};
  }

  /**
   * The `while` loop that walks back from a terminal record: each pass
   * visits one record, prepends its archive files when it is the first or
   * was not migrated, and moves to the deletion it was restored from.
   */
  method WalkChain(deleted: seq<CustomerData>, archives: Archives, lineId: string, day: string, terminal: CustomerData)
    returns (chain: seq<CustomerData>, collected: Collected, visited: set<Option<Time>>)
    requires terminal in deleted
    ensures chain == ChainFrom(deleted, day, terminal, {})
    ensures visited == Stamps(chain)
    ensures collected == CollectedOf(archives, lineId, day, chain)
  {
    var current := terminal;
    chain, collected, visited := [], Collected([], [], []), {};
    NothingCollected(archives, lineId, day);
    var first := true;
    while current.deletionTimestamp !in visited
      invariant current in deleted
      invariant first <==> chain == []
      invariant visited == Stamps(chain) && visited <= Stamps(deleted)
      invariant chain + ChainFrom(deleted, day, current, visited) == ChainFrom(deleted, day, terminal, {})
      invariant collected == CollectedOf(archives, lineId, day, chain)
      decreases |Stamps(deleted) - visited|
    {
      StampsShrink(deleted, visited, current);
      CollectedStep(archives, lineId, day, chain, current);
      WalkStep(deleted, day, terminal, chain, current, visited);
      StampsAppend(chain, current);
      if first || !current.isMigrated {
        collected := Prepended(collected, archives, lineId, day, current);
      }
      first := false;
      var previous := Previous(deleted, day, current);
      visited := visited + {current.deletionTimestamp};
      chain := chain + [current];
      if previous.None? {
        break;
      }
      current := previous.value;
    }
  }

  lemma JoinAssociative(a: Flows, b: Flows, c: Flows)
    ensures Join(Join(a, b), c) == Join(a, Join(b, c))
  {
    assert a.incoming + b.incoming + c.incoming == a.incoming + (b.incoming + c.incoming);
    assert a.going + b.going + c.going == a.going + (b.going + c.going);
  }

  /** The loop over the selected days. */
  method CollectActive(st: Store, lineId: string, days: seq<string>, now: Time) returns (flows: Flows)
    ensures flows == ActiveFlows(ActiveFiles(st.customers, st.deletedCustomers, st.transactions, st.chat, st.renewals), lineId, days, now)
  {
    var files := ActiveFiles(st.customers, st.deletedCustomers, st.transactions, st.chat, st.renewals);
    flows := Flows([], []);
    var i := 0;
    while i < |days|
      invariant 0 <= i <= |days|
      invariant flows == ActiveFlows(files, lineId, days[..i], now)
    {
      assert days[..i + 1][..i] == days[..i];
      var dayRows := DayFlows(st.transactions, st.chat, st.renewals, Read(st.customers, DayKey(lineId, days[i])),
        Read(st.deletedCustomers, lineId), lineId, days[i], now);
      flows := Join(flows, dayRows);
      i := i + 1;
    }
    assert days[..i] == days;
  }

  /** The walk from one terminal record and the rows it yields. */
  method ChainOf(deleted: seq<CustomerData>, archives: Archives, lineId: string, t: CustomerData)
    returns (rows: Flows, visited: set<Option<Time>>)
    requires t in deleted && t.deletedFrom.Some?
    ensures rows == ChainFlows(deleted, archives, lineId, t)
    ensures visited == Stamps(Chain(deleted, t))
  {
    var day := t.deletedFrom.value;
    var chain, collected;
    chain, collected, visited := WalkChain(deleted, archives, lineId, day, t);
    rows := ChainRows(t, day, chain, collected.txns, collected.chats, collected.renewals);
  }

  /** One step of the loop over the terminal records. */
  lemma DeletedStep(deleted: seq<CustomerData>, archives: Archives, lineId: string, rest: seq<CustomerData>,
    processed: set<Option<Time>>)
    requires rest != []
    requires forall t :: t in rest ==> t in deleted && t.deletedFrom.Some?
    ensures
      var t := rest[0];
      DeletedFlows(deleted, archives, lineId, rest, processed) ==
        if t.deletionTimestamp in processed then DeletedFlows(deleted, archives, lineId, rest[1..], processed)
        else Join(ChainFlows(deleted, archives, lineId, t),
          DeletedFlows(deleted, archives, lineId, rest[1..], processed + Stamps(Chain(deleted, t))))
  {
  }

  /** The loop over the terminal records, skipping a timestamp an earlier walk visited. */
  method CollectDeleted(deleted: seq<CustomerData>, archives: Archives, lineId: string, terminals: seq<CustomerData>)
    returns (flows: Flows)
    requires forall t :: t in terminals ==> t in deleted && t.deletedFrom.Some?
    ensures flows == DeletedFlows(deleted, archives, lineId, terminals, {})
  {
    flows := Flows([], []);
    var processed: set<Option<Time>> := {};
    var rest := terminals;
    while rest != []
      invariant forall t :: t in rest ==> t in deleted && t.deletedFrom.Some?
      invariant Join(flows, DeletedFlows(deleted, archives, lineId, rest, processed))
        == DeletedFlows(deleted, archives, lineId, terminals, {})
      decreases |rest|
    {
      var t := rest[0];
      DeletedStep(deleted, archives, lineId, rest, processed);
      if t.deletionTimestamp !in processed {
        var rows, visited := ChainOf(deleted, archives, lineId, t);
        JoinAssociative(flows, rows, DeletedFlows(deleted, archives, lineId, rest[1..], processed + visited));
        flows := Join(flows, rows);
        processed := processed + visited;
      }
      rest := rest[1..];
    }
    assert Join(flows, Flows([], [])) == flows;
  }

  /**
   * `getCollections`: the rows of the active files of each selected day,
   * then the rows of each deletion chain ending on a selected day, then the
   * filters, totals, dates and tags. The store is only read.
   */
  method GetCollections(st: Store, lineId: string, daysQuery: Option<string>, date: Option<Time>,
    dateFrom: Option<Time>, dateTo: Option<Time>, now: Time) returns (report: Report)
    ensures report == CollectionsOf(st, lineId, daysQuery, date, dateFrom, dateTo, now)
  {
    var days := SelectedDays(daysQuery, st.days, lineId);
    var active := CollectActive(st, lineId, days, now);
    var deleted := Read(st.deletedCustomers, lineId);
    var archives := Archives(st.archivedTransactions, st.archivedChat, st.archivedRenewals);
    var terminals := ChainTerminals(deleted, days);
    var chains := CollectDeleted(deleted, archives, lineId, terminals);
    report := Summarize(Join(active, chains), days, date, dateFrom, dateTo);
  }
}
