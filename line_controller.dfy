/**
 * The list of lines in `lines.json`. Reads overlay each line's stored
 * balance with a full recomputation; an update rebuilds the line through
 * its model class and then recomputes and stores its balance; a deletion
 * removes the line and the files of its days, customers, payments, chat,
 * renewals, accounts and deleted customers.
 */
module LineController {
  import opened Common
  import opened CustomerModel
  import opened TransactionModel
  import opened LineModel
  import opened FileStore
  import BFCalculation

  /** A line as the read handlers return it: the stored record with `currentBF` recomputed. */
  ghost function Overlaid(st: Store, l: LineData): LineData
    reads st
  {
    l.(currentBF := Some(BFCalculation.Recomputed(st, JsText(l.id))))
  }

  /** `getAllLines`: every stored line, in order, each with its recomputed balance. */
  method GetAllLines(st: Store) returns (lines: seq<LineData>)
    ensures |lines| == |st.lines|
    ensures forall i :: 0 <= i < |lines| ==> lines[i] == Overlaid(st, st.lines[i])
  {
    var stored := st.lines;
    ghost var customers, transactions, accounts, entries := st.customers, st.transactions, st.accounts, st.accountTransactions;
    lines := [];
    var i := 0;
    while i < |stored|
      invariant 0 <= i <= |stored| && |lines| == i
      invariant forall j :: 0 <= j < i ==>
        lines[j] == stored[j].(currentBF := Some(BFCalculation.BFOf(stored, customers, transactions, accounts, entries, JsText(stored[j].id))))
    {
      var r := BFCalculation.CalculateBF(st, JsText(stored[i].id));
      assert r.bfAmount == BFCalculation.BFOf(stored, customers, transactions, accounts, entries, JsText(stored[i].id));
      lines := lines + [stored[i].(currentBF := Some(r.bfAmount))];
      i := i + 1;
    }
  }

  /** `getLineById`: 404 for an unknown id, otherwise the first line with it and its recomputed balance. */
  method GetLineById(st: Store, id: string) returns (status: Status, line: Option<LineData>)
    ensures status == NotFound <==> FindLine(st.lines, id).None?
    ensures status == NotFound ==> line.None?
    ensures status != NotFound ==> status == Ok && line == Some(Overlaid(st, FindLine(st.lines, id).value))
  {
    var found := FindLine(st.lines, id);
    if found.None? {
      return NotFound, None;
    }
    var r := BFCalculation.CalculateBF(st, id);
    assert found.value.id == Some(id);
    return Ok, Some(found.value.(currentBF := Some(r.bfAmount)));
  }

  /** `createLine`: appends the constructed line. */
  method CreateLine(st: Store, body: LineData, now: Time) returns (line: Line)
    requires body.name.Some? && body.name.value != ""
    requires body.lineType == Some("Daily") || body.lineType == Some("Weekly")
    requires body.days.Some? && |body.days.value| >= 1
    requires body.amount.Some? && body.amount.value >= 0
    modifies st`lines
    ensures line == LineModel.New(body, now)
    ensures st.lines == old(st.lines) + [LineModel.ToJson(line)]
  {
    line := LineModel.New(body, now);
    st.lines := st.lines + [LineModel.ToJson(line)];
  }

  /** `{ ...stored, ...body }`: every field the body carries replaces the stored one. */
  function Merge(stored: LineData, body: LineData): (m: LineData)
    ensures body.amount.Some? ==> m.amount == body.amount
    ensures body.amount.None? ==> m.amount == stored.amount
    ensures body.currentBF.Some? ==> m.currentBF == body.currentBF
    ensures body.currentBF.None? ==> m.currentBF == stored.currentBF
  {
    LineData(
      if body.id.Some? then body.id else stored.id,
      if body.name.Some? then body.name else stored.name,
      if body.lineType.Some? then body.lineType else stored.lineType,
      if body.days.Some? then body.days else stored.days,
      if body.amount.Some? then body.amount else stored.amount,
      if body.currentBF.Some? then body.currentBF else stored.currentBF,
      if body.createdAt.Some? then body.createdAt else stored.createdAt,
      if body.updatedAt.Some? then body.updatedAt else stored.updatedAt)
  }

  /** The record `updateLine` writes: the merge rebuilt through the model class, under the path's id. */
  function Updated(stored: LineData, body: LineData, id: string, now: Time): (d: LineData)
    requires id != ""
    ensures d.id == Some(id)
    ensures d.amount == Some(Num(Merge(stored, body).amount))
    ensures d.createdAt.Some? && d.updatedAt == Some(now)
  {
    LineModel.ToJson(LineModel.New(Merge(stored, body).(id := Some(id)), now))
  }

  /**
   * `updateLine`: 404 for an unknown id; otherwise the first line with the id
   * is replaced by its update, and then the balance of the id is recomputed
   * and stored.
   */
  method UpdateLine(st: Store, id: string, body: LineData, now: Time)
    returns (status: Status, bf: BFCalculation.BFResult)
    requires id != ""
    modifies st`lines
    ensures status == NotFound <==> FindIndex(old(st.lines), (l: LineData) => l.id == Some(id)) == -1
    ensures status == NotFound ==> st.lines == old(st.lines)
    ensures status != NotFound ==> status == Ok
    ensures status == Ok ==>
      var i := FindIndex(old(st.lines), (l: LineData) => l.id == Some(id));
      var written := old(st.lines)[i := Updated(old(st.lines)[i], body, id, now)];
      && BFCalculation.Computed(bf, written, st.customers, st.transactions, st.accounts, st.accountTransactions, id)
      && st.lines == SetBF(written, id, Some(bf.bfAmount))
  {
    var lines := st.lines;
    var i := FindIndex(lines, (l: LineData) => l.id == Some(id));
    if i == -1 {
      return NotFound, BFCalculation.BFResult(0, 0, 0, 0, 0);
    }
    lines := lines[i := Updated(lines[i], body, id, now)];
    st.lines := lines;
    bf := BFCalculation.UpdateBF(st, id);
    status := Ok;
  }

  /**
   * An update leaves every line with another id as it was, and the updated
   * line keeps its id and carries the recomputed balance.
   */
  lemma UpdateTouchesOnlyItsLine(lines: seq<LineData>, i: nat, stored: LineData, body: LineData, id: string, now: Time, bf: int)
    requires id != "" && i < |lines| && lines[i].id == Some(id)
    ensures
      var after := SetBF(lines[i := Updated(lines[i], body, id, now)], id, Some(bf));
      && |after| == |lines|
      && (forall j :: 0 <= j < |lines| && lines[j].id != Some(id) ==> after[j] == lines[j])
      && after[i].id == Some(id) && after[i].currentBF == Some(bf)
  {
  }

  /** The day files left once those of line `id` are deleted. */
  function DropDayFiles<V>(m: map<DayKey, V>, id: string): (r: map<DayKey, V>)
    ensures forall k :: k in r <==> k in m && k.line != id
    ensures forall k :: k in r ==> r[k] == m[k]
  {
    map k | k in m && k.line != id :: m[k]
  }

  /** The per-customer files left once those of line `id` are deleted. */
  function DropFiles<V>(m: map<FileKey, V>, id: string): (r: map<FileKey, V>)
    ensures forall k :: k in r <==> k in m && k.line != id
    ensures forall k :: k in r ==> r[k] == m[k]
  {
    map k | k in m && k.line != id :: m[k]
  }

  /** The account entry files left once those of line `id` are deleted. */
  function DropAccountFiles<V>(m: map<AccountKey, V>, id: string): (r: map<AccountKey, V>)
    ensures forall k :: k in r <==> k in m && k.line != id
    ensures forall k :: k in r ==> r[k] == m[k]
  {
    map k | k in m && k.line != id :: m[k]
  }

  /** `lines.filter(l => l.id !== id)`. */
  function OtherLines(lines: seq<LineData>, id: string): seq<LineData>
  {
    Filter(lines, (l: LineData) => l.id != Some(id))
  }

  /**
   * `deleteLine`: 404 for an unknown id; otherwise every line with the id is
   * removed, the others keep their order, and the line's files are deleted.
   * Archived and deleted-payment files are left in place.
   */
  method DeleteLine(st: Store, id: string) returns (status: Status)
    modifies st`lines, st`days, st`customers, st`transactions, st`chat, st`renewals
    modifies st`accounts, st`accountTransactions, st`deletedCustomers
    ensures status == NotFound <==> FindLine(old(st.lines), id).None?
    ensures status == NotFound ==> st.lines == old(st.lines) && st.customers == old(st.customers)
    ensures status == NotFound ==> st.transactions == old(st.transactions) && st.days == old(st.days)
    ensures status == NotFound ==> st.chat == old(st.chat) && st.renewals == old(st.renewals)
    ensures status == NotFound ==> st.accounts == old(st.accounts) && st.accountTransactions == old(st.accountTransactions)
    ensures status == NotFound ==> st.deletedCustomers == old(st.deletedCustomers)
    ensures status != NotFound ==> status == Ok
    ensures status == Ok ==> st.lines == OtherLines(old(st.lines), id)
    ensures status == Ok ==> st.days == old(st.days) - {id} && st.accounts == old(st.accounts) - {id}
    ensures status == Ok ==> st.deletedCustomers == old(st.deletedCustomers) - {id}
    ensures status == Ok ==> st.customers == DropDayFiles(old(st.customers), id)
    ensures status == Ok ==> st.transactions == DropFiles(old(st.transactions), id)
    ensures status == Ok ==> st.chat == DropFiles(old(st.chat), id) && st.renewals == DropFiles(old(st.renewals), id)
    ensures status == Ok ==> st.accountTransactions == DropAccountFiles(old(st.accountTransactions), id)
  {
    if FindLine(st.lines, id).None? {
      return NotFound;
    }
    st.lines := OtherLines(st.lines, id);
    DropLineFiles(st, id);
    status := Ok;
  }

  /** Deletes the day list, the day and customer files and the accounts of line `id`. */
  method DropLineFiles(st: Store, id: string)
    modifies st`days, st`customers, st`transactions, st`chat, st`renewals
    modifies st`accounts, st`accountTransactions, st`deletedCustomers
    ensures st.days == old(st.days) - {id} && st.accounts == old(st.accounts) - {id}
    ensures st.deletedCustomers == old(st.deletedCustomers) - {id}
    ensures st.customers == DropDayFiles(old(st.customers), id)
    ensures st.transactions == DropFiles(old(st.transactions), id)
    ensures st.chat == DropFiles(old(st.chat), id) && st.renewals == DropFiles(old(st.renewals), id)
    ensures st.accountTransactions == DropAccountFiles(old(st.accountTransactions), id)
  {
    st.days := st.days - {id};
    st.customers := DropDayFiles(st.customers, id);
    st.transactions := DropFiles(st.transactions, id);
    st.chat := DropFiles(st.chat, id);
    st.renewals := DropFiles(st.renewals, id);
    st.accounts := st.accounts - {id};
    st.accountTransactions := DropAccountFiles(st.accountTransactions, id);
    st.deletedCustomers := st.deletedCustomers - {id};
  }

  /**
   * After a deletion no line with the id is left, and a recomputation of its
   * balance over what remains finds nothing: every term is 0.
   */
  lemma DeletedLineRecomputesToZero(
    lines: seq<LineData>, customers: map<DayKey, seq<CustomerData>>, transactions: map<FileKey, seq<TxnData>>,
    accounts: map<string, seq<Account>>, entries: map<AccountKey, seq<AccountTxn>>, id: string)
    ensures FindLine(OtherLines(lines, id), id).None?
    ensures BFCalculation.BFOf(OtherLines(lines, id), DropDayFiles(customers, id),
      DropFiles(transactions, id), accounts - {id}, DropAccountFiles(entries, id), id) == 0
  {
    assert BFCalculation.DayFiles(DropDayFiles(customers, id), id) == {};
    assert BFCalculation.TxnFiles(DropFiles(transactions, id), id) == {};
  }
}
