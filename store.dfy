/**
 * The JSON file tree the controllers read and write, as one object whose
 * fields are the families of files. A file that does not exist is a key
 * missing from its map and reads as the empty list. Paths are:
 *
 *   lines.json                                        lines
 *   days/<line>.json                                  days
 *   customers/<line>/<day>.json                       customers
 *   deleted_customers/<line>.json                     deletedCustomers
 *   transactions/<line>/<day>/<internalId>.json       transactions
 *   chat/<line>/<day>/<internalId>.json               chat
 *   renewals/<line>/<day>/<internalId>.json           renewals
 *   deleted_transactions/<line>/<day>/<internalId>.json   deletedTransactions (and likewise chat, renewals)
 *   transactions_deleted/<line>/<day>/<name>.json     archivedTransactions (and likewise chat, renewals)
 *   accounts/<line>.json                              accounts
 *   account_transactions/<line>/<accountId>.json      accountTransactions
 */
module FileStore {
  import opened Common
  import Text
  import opened CustomerModel
  import opened TransactionModel
  import opened LineModel

  /** A file named after a line and a day. */
  datatype DayKey = DayKey(line: string, day: string)

  /** A per-customer file: `<line>/<day>/<owner>.json`, where the owner is an internal id. */
  datatype FileKey = FileKey(line: string, day: string, owner: string)

  /** An account's entry file: `<line>/<accountId>.json`. */
  datatype AccountKey = AccountKey(line: string, account: string)

  /** An entry of a `renewals/` file, as earlier versions of the program wrote them. */
  datatype RenewalData = RenewalData(
    id: Option<string>,
    takenAmount: Option<int>,
    date: Option<Time>,
    renewalDate: Option<Time>,
    interest: Option<int>,
    pc: Option<int>,
    weeks: Option<int>,
    customerName: Option<string>,
    createdAt: Option<Time>,
    isArchived: bool,
    isSettled: bool)

  /** A side account of a line. */
  datatype Account = Account(
    id: Option<string>,
    name: Option<string>,
    createdAt: Option<Time>,
    updatedAt: Option<Time>)

  /** A credit or debit entry of a side account. */
  datatype AccountTxn = AccountTxn(
    id: Option<string>,
    name: string,
    date: Option<Time>,
    creditAmount: Option<int>,
    debitAmount: Option<int>,
    createdAt: Option<Time>)

  /** A value as a template literal renders it: a missing one becomes `undefined`. */
  function JsText(s: Option<string>): string
  {
    if s.Some? then s.value else "undefined"
  }

  /** The owner part of the file names of a customer: `customer.internalId || customer.id`. */
  function Owner(c: CustomerData): string
  {
    JsText(InternalIdOf(c))
  }

  /** The name of an archive file of the migration layout: `<internalId>_<timestamp>`. */
  function Suffixed(owner: string, ts: Option<Time>): string
  {
    owner + "_" + (if ts.Some? then Text.IntToString(ts.value) else "undefined")
  }

  class Store {
    var lines: seq<LineData>
    var days: map<string, seq<string>>
    var customers: map<DayKey, seq<CustomerData>>
    var deletedCustomers: map<string, seq<CustomerData>>
    var transactions: map<FileKey, seq<TxnData>>
    var chat: map<FileKey, seq<TxnData>>
    var renewals: map<FileKey, seq<RenewalData>>
    var deletedTransactions: map<FileKey, seq<TxnData>>
    var deletedChat: map<FileKey, seq<TxnData>>
    var deletedRenewals: map<FileKey, seq<RenewalData>>
    var archivedTransactions: map<FileKey, seq<TxnData>>
    var archivedChat: map<FileKey, seq<TxnData>>
    var archivedRenewals: map<FileKey, seq<RenewalData>>
    var accounts: map<string, seq<Account>>
    var accountTransactions: map<AccountKey, seq<AccountTxn>>

    /** An empty data directory. */
    constructor ()
      ensures lines == [] && days == map[] && customers == map[] && deletedCustomers == map[]
      ensures transactions == map[] && chat == map[] && renewals == map[]
      ensures deletedTransactions == map[] && deletedChat == map[] && deletedRenewals == map[]
      ensures archivedTransactions == map[] && archivedChat == map[] && archivedRenewals == map[]
      ensures accounts == map[] && accountTransactions == map[]
    {
      lines := [];
      days := map[];
      customers := map[];
      deletedCustomers := map[];
      transactions := map[];
      chat := map[];
      renewals := map[];
      deletedTransactions := map[];
      deletedChat := map[];
      deletedRenewals := map[];
      archivedTransactions := map[];
      archivedChat := map[];
      archivedRenewals := map[];
      accounts := map[];
      accountTransactions := map[];
    }
  }

  // ------------------------------------------------------------ lookups

  /** No customer of `cs` carries the id. */
  predicate NoCustomerWithId(cs: seq<CustomerData>, id: string)
  {
    forall i :: 0 <= i < |cs| ==> cs[i].id != Some(id)
  }

  /** No line of `lines` carries the id. */
  predicate NoLineWithId(lines: seq<LineData>, id: string)
  {
    forall i :: 0 <= i < |lines| ==> lines[i].id != Some(id)
  }

  /** The position of the first customer of `cs` with the id; `|cs|` when there is none. */
  function CustomerIndex(cs: seq<CustomerData>, id: string): (k: nat)
    ensures k <= |cs|
    ensures k < |cs| ==> cs[k].id == Some(id)
    ensures NoCustomerWithId(cs[..k], id)
    decreases |cs|
  {
    if cs == [] || cs[0].id == Some(id) then 0
    else
      var k := CustomerIndex(cs[1..], id);
      assert cs[..k + 1] == [cs[0]] + cs[1..][..k];
      k + 1
  }

  /** `list.find(c => c.id === id)` over customer records. */
  function FindCustomer(cs: seq<CustomerData>, id: string): (r: Option<CustomerData>)
    ensures r.Some? ==> r.value in cs && r.value.id == Some(id)
    ensures r.Some? ==> CustomerIndex(cs, id) < |cs| && r.value == cs[CustomerIndex(cs, id)]
    ensures r.None? <==> forall i :: 0 <= i < |cs| ==> cs[i].id != Some(id)
    decreases |cs|
  {
    if cs == [] then None
    else if cs[0].id == Some(id) then Some(cs[0])
    else FindCustomer(cs[1..], id)
  }

  /** The position of the first line with the id; `|lines|` when there is none. */
  function LineIndex(lines: seq<LineData>, lineId: string): (k: nat)
    ensures k <= |lines|
    ensures k < |lines| ==> lines[k].id == Some(lineId)
    ensures NoLineWithId(lines[..k], lineId)
    decreases |lines|
  {
    if lines == [] || lines[0].id == Some(lineId) then 0
    else
      var k := LineIndex(lines[1..], lineId);
      assert lines[..k + 1] == [lines[0]] + lines[1..][..k];
      k + 1
  }

  /** `lines.find(l => l.id === lineId)`. */
  function FindLine(lines: seq<LineData>, lineId: string): (r: Option<LineData>)
    ensures r.Some? ==> r.value in lines && r.value.id == Some(lineId)
    ensures r.Some? ==> LineIndex(lines, lineId) < |lines| && r.value == lines[LineIndex(lines, lineId)]
    ensures r.None? <==> forall i :: 0 <= i < |lines| ==> lines[i].id != Some(lineId)
    decreases |lines|
  {
    if lines == [] then None
    else if lines[0].id == Some(lineId) then Some(lines[0])
    else FindLine(lines[1..], lineId)
  }

  /**
   * The running balance the incremental handlers start from,
   * `parseFloat(line?.currentBF || line?.amount || 0)`: a stored balance of
   * zero or null reads as the line's opening amount.
   */
  function ReadBF(lines: seq<LineData>, lineId: string): (bf: int)
    ensures FindLine(lines, lineId).None? ==> bf == 0
    ensures FindLine(lines, lineId).Some? && NonZero(FindLine(lines, lineId).value.currentBF)
      ==> bf == FindLine(lines, lineId).value.currentBF.value
    ensures FindLine(lines, lineId).Some? && !NonZero(FindLine(lines, lineId).value.currentBF)
      ==> bf == Num(FindLine(lines, lineId).value.amount)
  {
    match FindLine(lines, lineId)
    case None => 0
    case Some(l) => if NonZero(l.currentBF) then l.currentBF.value else Num(l.amount)
  }

  /**
   * `lines.map(l => l.id === lineId ? { ...l, currentBF: bf } : l)`; a
   * balance that is `NaN` in the program is written as `null` (`None`).
   */
  function SetBF(lines: seq<LineData>, lineId: string, bf: Option<int>): (r: seq<LineData>)
    ensures |r| == |lines|
    ensures forall i :: 0 <= i < |lines| && lines[i].id == Some(lineId) ==> r[i] == lines[i].(currentBF := bf)
    ensures forall i :: 0 <= i < |lines| && lines[i].id != Some(lineId) ==> r[i] == lines[i]
  {
    Map(lines, (l: LineData) => if l.id == Some(lineId) then l.(currentBF := bf) else l)
  }

  lemma {:induction false} FindLineAfterSetBF(lines: seq<LineData>, lineId: string, bf: Option<int>)
    ensures FindLine(SetBF(lines, lineId, bf), lineId)
      == if FindLine(lines, lineId).Some? then Some(FindLine(lines, lineId).value.(currentBF := bf)) else None
    decreases |lines|
  {
    if lines != [] {
      var r := SetBF(lines, lineId, bf);
      assert r[1..] == SetBF(lines[1..], lineId, bf);
      FindLineAfterSetBF(lines[1..], lineId, bf);
    }
  }

  /**
   * A balance written by `SetBF` is read back unchanged, unless it is zero
   * or null, in which case the line's opening amount is read instead.
   */
  lemma ReadAfterSetBF(lines: seq<LineData>, lineId: string, bf: Option<int>)
    requires FindLine(lines, lineId).Some?
    ensures ReadBF(SetBF(lines, lineId, bf), lineId)
      == if NonZero(bf) then bf.value else Num(FindLine(lines, lineId).value.amount)
  {
    FindLineAfterSetBF(lines, lineId, bf);
  }

  /** Setting the balance of one line leaves every other line's reading alone. */
  lemma ReadOtherAfterSetBF(lines: seq<LineData>, lineId: string, other: string, bf: Option<int>)
    requires other != lineId
    ensures FindLine(SetBF(lines, lineId, bf), other) == FindLine(lines, other)
    ensures ReadBF(SetBF(lines, lineId, bf), other) == ReadBF(lines, other)
  {
    var r := SetBF(lines, lineId, bf);
    forall i | 0 <= i < |lines|
      ensures (r[i].id == Some(other)) == (lines[i].id == Some(other))
    {
    }
    FindLineOfSameIds(lines, r, other);
  }

  /** Two line lists that agree on every line carrying `id` give the same `find`. */
  lemma {:induction false} FindLineOfSameIds(a: seq<LineData>, b: seq<LineData>, id: string)
    requires |a| == |b|
    requires forall i :: 0 <= i < |a| ==> (a[i].id == Some(id)) == (b[i].id == Some(id))
    requires forall i :: 0 <= i < |a| && a[i].id == Some(id) ==> a[i] == b[i]
    ensures FindLine(a, id) == FindLine(b, id)
    decreases |a|
  {
    if a != [] {
      FindLineOfSameIds(a[1..], b[1..], id);
    }
  }
}
