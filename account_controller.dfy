/**
 * The side accounts of a line (`accounts/<line>.json`) and their credit and
 * debit entries (`account_transactions/<line>/<accountId>.json`). Adding or
 * removing an entry recomputes the line's balance in full.
 */
module AccountController {
  import opened Common
  import Text
  import opened FileStore
  import BFCalculation

  /** `parseFloat(t.creditAmount) || 0`. */
  function Credit(e: AccountTxn): int
  {
    Num(e.creditAmount)
  }

  /** `parseFloat(t.debitAmount) || 0`. */
  function Debit(e: AccountTxn): int
  {
    Num(e.debitAmount)
  }

  /** The totals `getAccountTransactions` reports. */
  datatype Totals = Totals(credit: int, debit: int, netBalance: int)

  /** `getAccountTransactions`: the entries of one account and their credit, debit and net totals. */
  method GetAccountTransactions(st: Store, lineId: string, id: string)
    returns (entries: seq<AccountTxn>, totals: Totals)
    ensures entries == Read(st.accountTransactions, AccountKey(lineId, id))
    ensures totals.credit == Sum(entries, Credit)
    ensures totals.debit == Sum(entries, Debit)
    ensures totals.netBalance == totals.credit - totals.debit
  {
    entries := Read(st.accountTransactions, AccountKey(lineId, id));
    var totalCredit := 0;
    var totalDebit := 0;
    var i := 0;
    while i < |entries|
      invariant 0 <= i <= |entries|
      invariant totalCredit == Sum(entries[..i], Credit)
      invariant totalDebit == Sum(entries[..i], Debit)
    {
      SumStep(entries, i, Credit);
      SumStep(entries, i, Debit);
      totalCredit := totalCredit + Credit(entries[i]);
      totalDebit := totalDebit + Debit(entries[i]);
      i := i + 1;
    }
    assert entries[..i] == entries;
    totals := Totals(totalCredit, totalDebit, totalCredit - totalDebit);
  }

  /**
   * The net balance an account reports is what that account contributes to
   * the line's balance forward.
   */
  lemma {:induction false} NetBalanceIsBFContribution(entries: seq<AccountTxn>)
    ensures Sum(entries, BFCalculation.EntryNet) == Sum(entries, Credit) - Sum(entries, Debit)
    decreases |entries|
  {
    if entries != [] {
      NetBalanceIsBFContribution(entries[..|entries| - 1]);
    }
  }

  /** `accounts.findIndex(a => a.id === id)`. */
  function AccountIndex(accounts: seq<Account>, id: string): (r: int)
    ensures -1 <= r < |accounts|
    ensures r == -1 <==> forall i :: 0 <= i < |accounts| ==> accounts[i].id != Some(id)
    ensures r >= 0 ==> accounts[r].id == Some(id) && forall i :: 0 <= i < r ==> accounts[i].id != Some(id)
  {
    FindIndex(accounts, (a: Account) => a.id == Some(id))
  }

  /** `createAccount`: appends an account whose id is the decimal clock reading. */
  method CreateAccount(st: Store, lineId: string, name: string, now: Time) returns (account: Account)
    requires name != ""
    modifies st`accounts
    ensures account == Account(Some(Text.IntToString(now)), Some(name), Some(now), None)
    ensures st.accounts == old(st.accounts)[lineId := old(Read(st.accounts, lineId)) + [account]]
  {
    account := Account(Some(Text.IntToString(now)), Some(name), Some(now), None);
    st.accounts := st.accounts[lineId := Read(st.accounts, lineId) + [account]];
  }

  /** `updateAccount`: 404 for an unknown id; otherwise only the first match's `name` and `updatedAt` change. */
  method UpdateAccount(st: Store, lineId: string, id: string, name: string, now: Time) returns (status: Status)
    requires name != ""
    modifies st`accounts
    ensures status == NotFound <==> AccountIndex(old(Read(st.accounts, lineId)), id) == -1
    ensures status == NotFound ==> st.accounts == old(st.accounts)
    ensures status != NotFound ==> status == Ok
    ensures status == Ok ==>
      var before := old(Read(st.accounts, lineId));
      var i := AccountIndex(before, id);
      st.accounts == old(st.accounts)[lineId := before[i := before[i].(name := Some(name), updatedAt := Some(now))]]
  {
    var accounts := Read(st.accounts, lineId);
    var i := AccountIndex(accounts, id);
    if i == -1 {
      return NotFound;
    }
    accounts := accounts[i := accounts[i].(name := Some(name), updatedAt := Some(now))];
    st.accounts := st.accounts[lineId := accounts];
    status := Ok;
  }

  /** `deleteAccount`: removes every account with the id and its entry file; the balance is not recomputed. */
  method DeleteAccount(st: Store, lineId: string, id: string)
    modifies st`accounts, st`accountTransactions
    ensures st.accounts == old(st.accounts)[lineId := Filter(old(Read(st.accounts, lineId)), (a: Account) => a.id != Some(id))]
    ensures st.accountTransactions == old(st.accountTransactions) - {AccountKey(lineId, id)}
  {
    st.accounts := st.accounts[lineId := Filter(Read(st.accounts, lineId), (a: Account) => a.id != Some(id))];
    st.accountTransactions := st.accountTransactions - {AccountKey(lineId, id)};
  }

  /** The entry `addAccountTransaction` appends, with the credit and debit normalised to numbers. */
  function NewEntry(name: Option<string>, date: Time, creditAmount: Option<int>, debitAmount: Option<int>, now: Time)
    : (e: AccountTxn)
    ensures Credit(e) == Num(creditAmount) && Debit(e) == Num(debitAmount)
    ensures e.creditAmount.Some? && e.debitAmount.Some?
    ensures e.date == Some(date) && e.createdAt == Some(now)
  {
    AccountTxn(Some(Text.IntToString(now)), OrElse(name, ""), Some(date),
      Some(Num(creditAmount)), Some(Num(debitAmount)), Some(now))
  }

  /**
   * `addAccountTransaction`: refused with 400, writing nothing, when both the
   * credit and the debit read as 0; otherwise appends one entry and
   * recomputes the line's balance.
   */
  method AddAccountTransaction(
    st: Store, lineId: string, id: string, name: Option<string>, date: Time,
    creditAmount: Option<int>, debitAmount: Option<int>, now: Time)
    returns (status: Status, bf: BFCalculation.BFResult)
    modifies st`accountTransactions, st`lines
    ensures status == BadRequest <==> Num(creditAmount) == 0 && Num(debitAmount) == 0
    ensures status == BadRequest ==> st.accountTransactions == old(st.accountTransactions) && st.lines == old(st.lines)
    ensures status != BadRequest ==> status == Created
    ensures status == Created ==>
      st.accountTransactions == old(st.accountTransactions)[AccountKey(lineId, id) :=
        old(Read(st.accountTransactions, AccountKey(lineId, id))) + [NewEntry(name, date, creditAmount, debitAmount, now)]]
    ensures status == Created ==>
      BFCalculation.Computed(bf, old(st.lines), st.customers, st.transactions, st.accounts, st.accountTransactions, lineId)
    ensures status == Created ==> st.lines == SetBF(old(st.lines), lineId, Some(bf.bfAmount))
  {
    if Num(creditAmount) == 0 && Num(debitAmount) == 0 {
      return BadRequest, BFCalculation.BFResult(0, 0, 0, 0, 0);
    }
    var key := AccountKey(lineId, id);
    var entries := Read(st.accountTransactions, key);
    st.accountTransactions := st.accountTransactions[key := entries + [NewEntry(name, date, creditAmount, debitAmount, now)]];
    bf := BFCalculation.UpdateBF(st, lineId);
    status := Created;
  }

  /**
   * `deleteAccountTransaction`: 404 when no entry has the id; otherwise
   * removes every entry with it and recomputes the line's balance.
   */
  method DeleteAccountTransaction(st: Store, lineId: string, id: string, transactionId: string)
    returns (status: Status, bf: BFCalculation.BFResult)
    modifies st`accountTransactions, st`lines
    ensures status == NotFound <==>
      forall i :: 0 <= i < |old(Read(st.accountTransactions, AccountKey(lineId, id)))| ==>
        old(Read(st.accountTransactions, AccountKey(lineId, id)))[i].id != Some(transactionId)
    ensures status == NotFound ==> st.accountTransactions == old(st.accountTransactions) && st.lines == old(st.lines)
    ensures status != NotFound ==> status == Ok
    ensures status == Ok ==>
      st.accountTransactions == old(st.accountTransactions)[AccountKey(lineId, id) :=
        Filter(old(Read(st.accountTransactions, AccountKey(lineId, id))), (e: AccountTxn) => e.id != Some(transactionId))]
    ensures status == Ok ==>
      BFCalculation.Computed(bf, old(st.lines), st.customers, st.transactions, st.accounts, st.accountTransactions, lineId)
    ensures status == Ok ==> st.lines == SetBF(old(st.lines), lineId, Some(bf.bfAmount))
  {
    var key := AccountKey(lineId, id);
    var entries := Read(st.accountTransactions, key);
    var i := FindIndex(entries, (e: AccountTxn) => e.id == Some(transactionId));
    if i == -1 {
      return NotFound, BFCalculation.BFResult(0, 0, 0, 0, 0);
    }
    st.accountTransactions := st.accountTransactions[key := Filter(entries, (e: AccountTxn) => e.id != Some(transactionId))];
    bf := BFCalculation.UpdateBF(st, lineId);
    status := Ok;
  }
}
