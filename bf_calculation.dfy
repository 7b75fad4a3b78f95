/**
 * The full recomputation of a line's balance forward (BF):
 *
 *   BF = initialAmount - totalNetGiven + totalCollected + accountNet
 *
 * over the active customers of every day of the line, the transaction files
 * of those customers only, and the entries of the line's side accounts.
 * Chat files are not read.
 */
module BFCalculation {
  import opened Common
  import opened CustomerModel
  import opened TransactionModel
  import opened LineModel
  import opened FileStore

  /** The result of `calculateBF`: the balance and the four terms it is made of. */
  datatype BFResult = BFResult(
    bfAmount: int,
    initialAmount: int,
    totalNetGiven: int,
    totalCollected: int,
    accountNet: int)

  /** The line's opening amount; 0 for a line that does not exist. */
  function InitialAmount(lines: seq<LineData>, lineId: string): (r: int)
    ensures FindLine(lines, lineId).None? ==> r == 0
    ensures FindLine(lines, lineId).Some? ==> r == Num(FindLine(lines, lineId).value.amount)
  {
    match FindLine(lines, lineId)
    case None => 0
    case Some(l) => Num(l.amount)
  }

  /** The cash actually handed to a customer: `takenAmount - interest - pc`, missing values read as 0. */
  function NetGiven(c: CustomerData): int
  {
    Num(c.takenAmount) - Num(c.interest) - Num(c.pc)
  }

  /**
   * What one entry of a counted transaction file adds to the collected total.
   * The guard `type === 'payment' || amount` never matters: an entry it
   * rejects has a falsy amount, which reads as 0 anyway.
   */
  function Collected(t: TxnData): (r: int)
    ensures r == Num(t.amount)
  {
    if t.txType == Some("payment") || NonZero(t.amount) then Num(t.amount) else 0
  }

  /** One side-account entry: `creditAmount - debitAmount`, missing values read as 0. */
  function EntryNet(e: AccountTxn): int
  {
    Num(e.creditAmount) - Num(e.debitAmount)
  }

  /** The day files of a line: `listFiles('customers/<line>')`. */
  function DayFiles(customers: map<DayKey, seq<CustomerData>>, lineId: string): set<DayKey>
  {
    set k | k in customers.Keys && k.line == lineId
  }

  /** The transaction files of a line, over all its day folders. */
  function TxnFiles(transactions: map<FileKey, seq<TxnData>>, lineId: string): set<FileKey>
  {
    set k | k in transactions.Keys && k.line == lineId
  }

  /** The internal ids (`internalId || id`) of the customers in the given day files. */
  ghost function IdsIn(customers: map<DayKey, seq<CustomerData>>, keys: set<DayKey>): set<Option<string>>
  {
    set k, i | k in keys && k in customers && 0 <= i < |customers[k]| :: InternalIdOf(customers[k][i])
  }

  /** `activeInternalIds`: the internal ids of every active customer of the line. */
  ghost function ActiveIds(customers: map<DayKey, seq<CustomerData>>, lineId: string): set<Option<string>>
  {
    IdsIn(customers, DayFiles(customers, lineId))
  }

  /** The total net given of one day file. */
  function DayNet(customers: map<DayKey, seq<CustomerData>>): DayKey -> int
  {
    (k: DayKey) => Sum(Read(customers, k), NetGiven)
  }

  /** `totalNetGiven`: the net given to every active customer of every day of the line. */
  ghost function TotalNetGiven(customers: map<DayKey, seq<CustomerData>>, lineId: string): int
  {
    SumSet(DayFiles(customers, lineId), DayNet(customers))
  }

  /** What one transaction file adds: all its amounts when its owner is active, else nothing. */
  function FileCollected(transactions: map<FileKey, seq<TxnData>>, active: set<Option<string>>): FileKey -> int
  {
    (k: FileKey) => if Some(k.owner) in active then Sum(Read(transactions, k), Collected) else 0
  }

  /** `totalCollected`: the amounts in the transaction files of active customers. */
  ghost function TotalCollected(
    transactions: map<FileKey, seq<TxnData>>, active: set<Option<string>>, lineId: string): int
  {
    SumSet(TxnFiles(transactions, lineId), FileCollected(transactions, active))
  }

  /** `accountNet`: credit minus debit over every entry of every account of the line, in list order. */
  function AccountNet(accounts: seq<Account>, entries: map<AccountKey, seq<AccountTxn>>, lineId: string): int
  {
    Sum(accounts, AccountTotal(entries, lineId))
  }

  /** The net of one account's entry file, `account_transactions/<line>/<account.id>.json`. */
  function AccountTotal(entries: map<AccountKey, seq<AccountTxn>>, lineId: string): Account -> int
  {
    (a: Account) => Sum(Read(entries, AccountKey(lineId, JsText(a.id))), EntryNet)
  }

  /** The balance `calculateBF(lineId)` computes from the given files. */
  ghost function BFOf(
    lines: seq<LineData>, customers: map<DayKey, seq<CustomerData>>,
    transactions: map<FileKey, seq<TxnData>>, accounts: map<string, seq<Account>>,
    entries: map<AccountKey, seq<AccountTxn>>, lineId: string): int
  {
    InitialAmount(lines, lineId) - TotalNetGiven(customers, lineId)
      + TotalCollected(transactions, ActiveIds(customers, lineId), lineId)
      + AccountNet(Read(accounts, lineId), entries, lineId)
  }

  /** The balance `calculateBF(lineId)` computes on the current store. */
  ghost function Recomputed(st: Store, lineId: string): int
    reads st
  {
    BFOf(st.lines, st.customers, st.transactions, st.accounts, st.accountTransactions, lineId)
  }

  /** `r` is what `calculateBF(lineId)` returns on the given files. */
  ghost predicate Computed(
    r: BFResult, lines: seq<LineData>, customers: map<DayKey, seq<CustomerData>>,
    transactions: map<FileKey, seq<TxnData>>, accounts: map<string, seq<Account>>,
    entries: map<AccountKey, seq<AccountTxn>>, lineId: string)
  {
    && r.initialAmount == InitialAmount(lines, lineId)
    && r.totalNetGiven == TotalNetGiven(customers, lineId)
    && r.totalCollected == TotalCollected(transactions, ActiveIds(customers, lineId), lineId)
    && r.accountNet == AccountNet(Read(accounts, lineId), entries, lineId)
    && r.bfAmount == r.initialAmount - r.totalNetGiven + r.totalCollected + r.accountNet
  }

  /** The sum of `f` over `s`, accumulated front to back as `forEach` does. */
  method Accumulate<T>(s: seq<T>, f: T -> int) returns (total: int)
    ensures total == Sum(s, f)
  {
    total := 0;
    var i := 0;
    while i < |s|
      invariant 0 <= i <= |s|
      invariant total == Sum(s[..i], f)
    {
      SumStep(s, i, f);
      total := total + f(s[i]);
      i := i + 1;
    }
    assert s[..i] == s;
  }

  /** The day files still to visit add their ids to those already collected. */
  lemma IdsInStep(customers: map<DayKey, seq<CustomerData>>, done: set<DayKey>, k: DayKey)
    requires k in customers
    ensures IdsIn(customers, done + {k})
      == IdsIn(customers, done) + FileIds(customers[k])
  {
  }

  /** The internal ids of the customers of one day file. */
  ghost function FileIds(file: seq<CustomerData>): set<Option<string>>
  {
    set i | 0 <= i < |file| :: InternalIdOf(file[i])
  }

  /** One day file of the first pass. */
  method ScanDay(file: seq<CustomerData>) returns (net: int, ids: set<Option<string>>)
    ensures net == Sum(file, NetGiven)
    ensures ids == FileIds(file)
  {
    net := 0;
    ids := {};
    var i := 0;
    while i < |file|
      invariant 0 <= i <= |file|
      invariant net == Sum(file[..i], NetGiven)
      invariant ids == set j | 0 <= j < i :: InternalIdOf(file[j])
    {
      SumStep(file, i, NetGiven);
      net := net + NetGiven(file[i]);
      ids := ids + {InternalIdOf(file[i])};
      i := i + 1;
    }
    assert file[..i] == file;
  }

  /** The first pass of `calculateBF`: net given and active internal ids over the line's day files. */
  method ScanCustomers(customers: map<DayKey, seq<CustomerData>>, lineId: string)
    returns (totalNetGiven: int, activeIds: set<Option<string>>)
    ensures totalNetGiven == TotalNetGiven(customers, lineId)
    ensures activeIds == ActiveIds(customers, lineId)
  {
    var dayFiles := DayFiles(customers, lineId);
    totalNetGiven := 0;
    activeIds := {};
    var todo := dayFiles;
    ghost var done: set<DayKey> := {};
    while todo != {}
      invariant todo <= dayFiles && done <= dayFiles && todo + done == dayFiles
      invariant totalNetGiven + SumSet(todo, DayNet(customers)) == SumSet(dayFiles, DayNet(customers))
      invariant activeIds == IdsIn(customers, done)
      decreases |todo|
    {
      var k :| k in todo;
      var net, ids := ScanDay(customers[k]);
      SumSetRemove(todo, k, DayNet(customers));
      IdsInStep(customers, done, k);
      MoveOne(todo, done, dayFiles, k);
      totalNetGiven := totalNetGiven + net;
      activeIds := activeIds + ids;
      todo := todo - {k};
      done := done + {k};
    }
  }

  /** The second pass: the transaction files of the line whose owner is active. */
  method ScanTransactions(transactions: map<FileKey, seq<TxnData>>, activeIds: set<Option<string>>, lineId: string)
    returns (totalCollected: int)
    ensures totalCollected == TotalCollected(transactions, activeIds, lineId)
  {
    var txnFiles := TxnFiles(transactions, lineId);
    totalCollected := 0;
    var files := txnFiles;
    while files != {}
      invariant files <= txnFiles
      invariant totalCollected + SumSet(files, FileCollected(transactions, activeIds))
        == SumSet(txnFiles, FileCollected(transactions, activeIds))
      decreases |files|
    {
      var k :| k in files;
      if Some(k.owner) in activeIds {
        var fileTotal := Accumulate(transactions[k], Collected);
        totalCollected := totalCollected + fileTotal;
      }
      SumSetRemove(files, k, FileCollected(transactions, activeIds));
      files := files - {k};
    }
  }

  /** The third pass: every entry of every side account of the line. */
  method ScanAccounts(accounts: seq<Account>, entries: map<AccountKey, seq<AccountTxn>>, lineId: string)
    returns (accountNet: int)
    ensures accountNet == AccountNet(accounts, entries, lineId)
  {
    accountNet := 0;
    var a := 0;
    while a < |accounts|
      invariant 0 <= a <= |accounts|
      invariant accountNet == AccountNet(accounts[..a], entries, lineId)
    {
      var fileTotal := Accumulate(Read(entries, AccountKey(lineId, JsText(accounts[a].id))), EntryNet);
      SumStep(accounts, a, AccountTotal(entries, lineId));
      accountNet := accountNet + fileTotal;
      a := a + 1;
    }
    assert accounts[..a] == accounts;
  }

  /** `calculateBF(lineId)`. */
  method CalculateBF(st: Store, lineId: string) returns (r: BFResult)
    ensures r.initialAmount == InitialAmount(st.lines, lineId)
    ensures r.totalNetGiven == TotalNetGiven(st.customers, lineId)
    ensures r.totalCollected == TotalCollected(st.transactions, ActiveIds(st.customers, lineId), lineId)
    ensures r.accountNet == AccountNet(Read(st.accounts, lineId), st.accountTransactions, lineId)
    ensures r.bfAmount == r.initialAmount - r.totalNetGiven + r.totalCollected + r.accountNet
  {
    var initialAmount := InitialAmount(st.lines, lineId);
    var totalNetGiven, activeIds := ScanCustomers(st.customers, lineId);
    var totalCollected := ScanTransactions(st.transactions, activeIds, lineId);
    var accountNet := ScanAccounts(Read(st.accounts, lineId), st.accountTransactions, lineId);
    r := BFResult(initialAmount - totalNetGiven + totalCollected + accountNet,
      initialAmount, totalNetGiven, totalCollected, accountNet);
  }

  /** `updateBF(lineId)`: recompute, then store the result as the `currentBF` of every line with that id. */
  method UpdateBF(st: Store, lineId: string) returns (r: BFResult)
    modifies st`lines
    ensures Computed(r, old(st.lines), st.customers, st.transactions, st.accounts, st.accountTransactions, lineId)
    ensures st.lines == SetBF(old(st.lines), lineId, Some(r.bfAmount))
  {
    r := CalculateBF(st, lineId);
    st.lines := SetBF(st.lines, lineId, Some(r.bfAmount));
  }

  // ------------------------------------------------------------ properties

  /**
   * The transaction file of a customer who is not active (deleted, or moved
   * away) never counts: whatever it holds, the collected total is the same.
   */
  lemma InactiveFileIgnored(
    transactions: map<FileKey, seq<TxnData>>, active: set<Option<string>>, lineId: string,
    k: FileKey, file: seq<TxnData>)
    requires Some(k.owner) !in active
    ensures TotalCollected(transactions[k := file], active, lineId) == TotalCollected(transactions, active, lineId)
  {
    var after := transactions[k := file];
    var f := FileCollected(transactions, active);
    var g := FileCollected(after, active);
    var ks := TxnFiles(transactions, lineId);
    forall j | j in ks ensures f(j) == g(j) {
    }
    SumSetCongruent(ks, f, g);
    if k.line == lineId && k !in transactions {
      assert TxnFiles(after, lineId) == ks + {k};
      SumSetAddZero(ks, k, g);
    } else {
      assert TxnFiles(after, lineId) == ks;
    }
  }

  /**
   * Appending an entry to the transaction file of an active customer of the
   * line raises the recomputed collected total by exactly its amount. (The
   * stored balance the incremental handlers maintain is a different matter:
   * it is not claimed to equal the recomputed one.)
   */
  lemma AppendToActiveFile(
    transactions: map<FileKey, seq<TxnData>>, active: set<Option<string>>, lineId: string,
    k: FileKey, t: TxnData)
    requires k.line == lineId && Some(k.owner) in active
    ensures TotalCollected(transactions[k := Read(transactions, k) + [t]], active, lineId)
      == TotalCollected(transactions, active, lineId) + Num(t.amount)
  {
    var after := transactions[k := Read(transactions, k) + [t]];
    var f := FileCollected(transactions, active);
    var g := FileCollected(after, active);
    var ks := TxnFiles(transactions, lineId);
    SumConcat(Read(transactions, k), [t], Collected);
    assert Sum([t], Collected) == Num(t.amount) by {
      assert [t][..0] == [];
    }
    if k in transactions {
      assert TxnFiles(after, lineId) == ks;
      SumSetUpdate(ks, k, f, g);
    } else {
      assert TxnFiles(after, lineId) == ks + {k};
      forall j | j in ks ensures f(j) == g(j) {
      }
      SumSetCongruent(ks, f, g);
      SumSetRemove(ks + {k}, k, g);
      assert ks + {k} - {k} == ks;
    }
  }

  /** Files of other lines do not enter a line's net given. */
  lemma OtherLineCustomersIgnored(
    customers: map<DayKey, seq<CustomerData>>, lineId: string, k: DayKey, file: seq<CustomerData>)
    requires k.line != lineId
    ensures TotalNetGiven(customers[k := file], lineId) == TotalNetGiven(customers, lineId)
    ensures ActiveIds(customers[k := file], lineId) == ActiveIds(customers, lineId)
  {
    var after := customers[k := file];
    assert DayFiles(after, lineId) == DayFiles(customers, lineId);
    SumSetCongruent(DayFiles(customers, lineId), DayNet(customers), DayNet(after));
  }
}
