# Micro-lending ledger backend, modelled in Dafny

This project models the backend of a small micro-lending ledger. A
*line* is a collection route with an opening amount. Lines are split into
*days*. Each day holds customers who took a loan (`takenAmount`, less
`interest` and `pc`) and pay it back. A payment is a *transaction* from the
office or a *chat* payment. A *renewal* starts a new loan for the same
customer. Each line has *accounts* whose credit and debit entries move its
balance. The balance carried forward (*BF*) is the line's amount, less
the net amount given to active customers, plus every payment, plus the
accounts' net balance.

The server stores all of this as JSON files under one data directory.
The model stands for that directory with a `Store` object whose fields
are maps from file keys (`<family>/<line>/<day>/<owner>.json`) to the
lists the files hold. A missing file reads as the empty list
(`readJSON(...) || []`). A directory listing comes back in code-unit
order of its file names.

Each handler becomes a method that reads and updates the store. It
returns the HTTP status the handler would send, together with the data
of its JSON reply. Its `ensures` states the whole new store in terms of
the old one. The pure computations become functions, and lemmas prove
what they promise:
- `bfCalculation.js`: the full recomputation of the BF, and the
  incremental `updateBF`.
- `customerController.js`: the balance views and the pending list.
- `customerController.js`: creation, update, deletion, restoration,
  renewal and chat payments, including how a deletion archives a
  customer's files and a restoration brings them back.
- The transaction, account, day, line and collection controllers.
- The data builders of the three PDF reports.
- The `Customer`, `Transaction` and `Line` models and their `toJSON`
  projections.

Modules, one per source file (plus shared helpers):

| module | models |
|---|---|
| `Common` | `Option`, JavaScript truthiness, `parseFloat(x) \|\| 0`, sums and filters |
| `Text` | `split`/`join` on a separator, `parseInt`, decimal digits, string order |
| `Sorting` | the stable `Array.prototype.sort` with a key comparator |
| `FileStore` | the data directory, `readJSON`, the line list and `currentBF` |
| `Directory` | `fs.readdirSync` order of the per-customer files |
| `CustomerModel`, `TransactionModel`, `LineModel` | `models/Customer.js`, `models/Transaction.js`, `models/Line.js` |
| `BFCalculation` | `services/bfCalculation.js` |
| `CustomerBalance` | the loan and balance rules shared by the customer views |
| `CustomerController`, `CustomerViews` | `controllers/customerController.js` |
| `TransactionController`, `AccountController`, `DayController`, `LineController`, `CollectionController` | the controllers of the same names |
| `PdfData` | the data builders of `controllers/pdfController.js` |

Some behaviours of the code matter for the properties proved here:
- The customer views count every entry of a customer's transaction file
  as paid once it is dated at or after the current loan's start. That
  includes the `renewal` entries that renewals write there and the
  `restored` entries (with `loanType: 'restoredLoan'`) that restorations
  write there.
- The collections view and the BF pass visit files in directory order.
  A customer map built with `Map.set` keeps the last value set for a key.
- The collections view never takes a deleted record with neither
  `internalId` nor `restoredFromInternalId` as the end of a restoration
  chain. The re-deletion test compares `undefined === undefined` and
  matches the record itself.
- The customer statement owes 0 when every renewal record is archived
  and settled. Its `totalOwed` starts at 0 and only a live renewal
  replaces it.
- The incremental BF update (`updateBF`) and the full recomputation
  (`calculateBF`) are modelled separately. Nothing here claims that they
  agree, because the code does not keep them in step.

## Model

| member | source | states |
|---|---|---|
| CustomerModel.New | backend/models/Customer.js:2-36 | a supplied truthy `internalId` is kept, otherwise the fresh one is used; `id`, `name` and `date` are copied; `village` and `phone` default to `''`; `takenAmount` is the parsed amount or 0; `interest` and `pc` are kept as given (0 included); `weeks` is the non-zero supplied value or 12; `profileImage` is kept iff truthy; a supplied `createdAt` is kept, otherwise it and `updatedAt` are the clock reading; the restoration fields are copied iff `isRestoredCustomer` is truthy; the result satisfies the record invariant (non-empty internal id, non-zero `weeks`) |
| CustomerModel.ToJson | backend/models/Customer.js:38-64 | the projection carries `internalId` and `takenAmount`, emits the restoration fields iff the customer is restored, and carries no deletion or restore markers |
| CustomerModel.RoundTrip | backend/models/Customer.js:2-64 | rebuilding a customer from its `toJSON()` gives back the same customer except for `updatedAt`, which is refreshed to the new clock reading |
| CustomerModel.ToJsonKeepsInternalId | backend/models/Customer.js:41 | the internal id read back from the projection (`internalId \|\| id`) is the customer's own internal id |
| TransactionModel.New | backend/models/Transaction.js:2-24 | a supplied truthy `id` is kept, otherwise it is the decimal clock reading; `amount` is the parsed amount or 0; `date` and `source` are copied; `comment` and `customerName` default to `''`; a supplied `createdAt` is kept, otherwise the clock; `type` is the supplied truthy one or `payment`; `loanType` is copied iff truthy, `renewedAt`, `weeks` and `restoredAt` iff non-zero; `isRenewal`, `interest`, `pc` and `isRestoredLoan` are copied when present |
| TransactionModel.ToJson | backend/models/Transaction.js:26-53 | `source` and `loanType` are emitted, with their values, iff truthy, and `weeks`, `renewedAt` and `restoredAt` iff non-zero; `isRenewal`, `isRestoredLoan`, `interest` and `pc` are emitted as present; `id`, `amount`, `date`, `comment`, `customerName`, `createdAt` and `type` are always emitted; no edit markers appear |
| TransactionModel.ToJsonIdempotent | backend/models/Transaction.js:2-53 | `new Transaction(t.toJSON()).toJSON()` equals `t.toJSON()`, whatever the clock reads the second time |
| LineModel.New | backend/models/Line.js:2-11 | a supplied truthy `id` is kept, otherwise it is the decimal clock reading; `name` and `type` are copied; `days` defaults to `[]`; `amount` is the parsed amount or 0; `currentBF` is the supplied one when non-zero and otherwise falls back to `amount`; a supplied `createdAt` is kept, otherwise the clock; `updatedAt` is the clock |
| LineModel.ToJson | backend/models/Line.js:13-24 | the projection emits exactly the eight fields `id`, `name`, `type`, `days`, `amount`, `currentBF`, `createdAt` and `updatedAt` as stored |
| LineModel.RoundTrip | backend/models/Line.js:2-24 | rebuilding a line from its projection preserves every field but `updatedAt` exactly when its `currentBF` is non-zero or its `amount` is 0 (a stored BF of 0 falls back to `amount`) |
| AccountController.GetAccountTransactions | backend/controllers/accountController.js:94-122 | returns the account's stored entries with credit = Σ parsed `creditAmount`, debit = Σ parsed `debitAmount` (missing read as 0) and netBalance = credit − debit |
| AccountController.NetBalanceIsBFContribution | backend/controllers/accountController.js:104-109 | an account's netBalance equals the sum of per-entry `creditAmount − debitAmount` that the BF computation adds for it |
| AccountController.AccountIndex | backend/controllers/accountController.js:51 | −1 iff no account has the id, otherwise the index of the first account with it |
| AccountController.CreateAccount | backend/controllers/accountController.js:19-42 | appends exactly one account `{id: now, name, createdAt: now}` to the line's account list and changes nothing else |
| AccountController.UpdateAccount | backend/controllers/accountController.js:45-72 | 404 iff no account has the id, with the list unchanged; otherwise only that account's `name` and `updatedAt` change |
| AccountController.DeleteAccount | backend/controllers/accountController.js:75-91 | removes every account with the id from the list and deletes its entry file |
| AccountController.NewEntry | backend/controllers/accountController.js:140-147 | the stored entry carries the normalised credit and debit (parsed or 0) and the given date and creation time |
| AccountController.AddAccountTransaction | backend/controllers/accountController.js:125-163 | 400 iff parsed credit and debit are both 0, with nothing written; otherwise exactly one entry is appended and the line's `currentBF` is set to the recomputed balance |
| AccountController.DeleteAccountTransaction | backend/controllers/accountController.js:166-190 | 404 iff no entry has the id, with nothing written; otherwise every entry with the id is removed and the line's `currentBF` is recomputed |
| DayController.GetDaysByLine | backend/controllers/dayController.js:5-15 | the stored day list, or the empty list when the line has no days file |
| DayController.CreateDay | backend/controllers/dayController.js:18-40 | 400 iff the day is already listed, with the list unchanged; otherwise the day is appended at the end and the earlier days keep their order |
| DayController.AppendKeepsNoDup | backend/controllers/dayController.js:26-31 | appending a day that is not yet listed keeps the list duplicate-free and its prefix unchanged |
| LineController.GetAllLines | backend/controllers/lineController.js:7-25 | one entry per stored line, in order, each with `currentBF` replaced by the recomputed balance of its id |
| LineController.GetLineById | backend/controllers/lineController.js:28-51 | 404 iff no line has the id; otherwise the line found by `find`, with `currentBF` replaced by the recomputed balance |
| LineController.CreateLine | backend/controllers/lineController.js:54-71 | appends exactly the projection of `new Line(body)` to the line list |
| LineController.Merge | backend/controllers/lineController.js:85-89 | fields in the request body override the stored ones, absent ones keep the stored value |
| LineController.Updated | backend/controllers/lineController.js:85-91 | the rebuilt line keeps the path id, takes the merged amount and gets the new `updatedAt` |
| LineController.UpdateLine | backend/controllers/lineController.js:74-107 | 404 iff no line has the id, with nothing written; otherwise the first such line is replaced by the merged line and the balance recomputed into its `currentBF` |
| LineController.UpdateTouchesOnlyItsLine | backend/controllers/lineController.js:78-95 | an update keeps the number of lines, leaves every line with another id unchanged, and the updated line keeps its id and carries the new balance |
| LineController.DropDayFiles | backend/controllers/lineController.js:129-132 | exactly the customer day files of other lines remain, unchanged |
| LineController.DropFiles | backend/controllers/lineController.js:135-159 | exactly the per-customer files of other lines remain, unchanged |
| LineController.DropAccountFiles | backend/controllers/lineController.js:163-166 | exactly the account entry files of other lines remain, unchanged |
| LineController.DeleteLine | backend/controllers/lineController.js:110-175 | 404 iff no line has the id, with nothing changed; otherwise the lines with that id are filtered out and its days, customers, transactions, chat, renewals, accounts, account entries and deleted customers are removed |
| LineController.DeletedLineRecomputesToZero | backend/controllers/lineController.js:121-169 | after a deletion no line has the id and a recomputation of its balance over what remains gives 0 |
| BFCalculation.InitialAmount | backend/services/bfCalculation.js:26-28 | the first line with the id gives its parsed `amount`; a missing line gives 0 |
| BFCalculation.Collected | backend/services/bfCalculation.js:73-76 | every entry adds its parsed amount whatever its type, since an entry that fails the type test has a falsy amount |
| BFCalculation.Accumulate | backend/services/bfCalculation.js:92-96 | a front-to-back `forEach` accumulation equals the sum of the terms |
| BFCalculation.ScanDay | backend/services/bfCalculation.js:40-51 | one day file adds the sum of `takenAmount − interest − pc` of its customers and adds their `internalId \|\| id` to the active set |
| BFCalculation.ScanCustomers | backend/services/bfCalculation.js:32-52 | the first pass yields the net given over all of the line's day files and the set of active internal ids |
| BFCalculation.ScanTransactions | backend/services/bfCalculation.js:59-80 | the second pass sums the amounts of exactly those transaction files of the line whose owner is an active internal id |
| BFCalculation.ScanAccounts | backend/services/bfCalculation.js:90-97 | the third pass sums credit − debit over every entry of every account of the line, in list order |
| BFCalculation.CalculateBF | backend/services/bfCalculation.js:21-127 | the result is `initialAmount − totalNetGiven + totalCollected + accountNet`, each term as defined over the current store |
| BFCalculation.UpdateBF | backend/services/bfCalculation.js:132-146 | returns what `calculateBF` computes and sets `currentBF` of the lines with that id to it, leaving every other line unchanged |
| BFCalculation.InactiveFileIgnored | backend/services/bfCalculation.js:62-79 | changing the transaction file of an owner who is not active leaves `totalCollected` unchanged: deleted customers' payments never count |
| BFCalculation.AppendToActiveFile | backend/services/bfCalculation.js:70-77 | appending an entry to an active customer's file raises `totalCollected` by exactly its parsed amount |
| BFCalculation.OtherLineCustomersIgnored | backend/services/bfCalculation.js:33-52 | day files of other lines change neither the net given nor the active ids of a line |
| CustomerBalance.LatestIsSortedHead | backend/controllers/customerController.js:45-50 | the record chosen is exactly the head of the stable descending sort by `renewalDate \|\| date`: the first, in file order, of the latest records |
| CustomerBalance.LatestBy | backend/controllers/customerController.js:45-50 | the chosen record is among the records and none is later |
| CustomerBalance.LatestRenewal | backend/controllers/customerController.js:43-52 | none iff there are no renewals; otherwise a renewal whose `renewalDate \|\| date` is the latest |
| CustomerBalance.CountedPayments | backend/controllers/customerController.js:60-67 | a payment is kept iff it is in the file and not dated before the renewal cut-off |
| CustomerBalance.PaidIsCountedTotal | backend/controllers/customerController.js:60-67 | the `reduce` that skips early payments adds up exactly the amounts of the counted payments |
| CustomerBalance.BalanceAfter | backend/controllers/customerController.js:57-69 | totalOwed is the given amount, totalPaid the sum of counted payments, remainingAmount their difference |
| CustomerBalance.ViewBalance | backend/controllers/customerController.js:38-69 | totalOwed is the latest renewal's `takenAmount` if any renewals exist, else the customer's; totalPaid sums payments not dated before that renewal; remainingAmount = totalOwed − totalPaid |
| CustomerBalance.NoRenewalCountsEverything | backend/controllers/customerController.js:57-67 | without renewals every entry of the transaction file counts as paid |
| CustomerBalance.CountedPaymentLowersRemaining | backend/controllers/customerController.js:60-69 | appending a payment that counts lowers remainingAmount by exactly its amount |
| CustomerBalance.EarlyPaymentIgnored | backend/controllers/customerController.js:63-65 | appending a payment dated before the latest renewal leaves the whole balance unchanged |
| CustomerBalance.RenewalCheckBalance | backend/controllers/customerController.js:755-792 | owed is the amount of the latest renewal entry of the transaction file (by `renewedAt \|\| createdAt \|\| date`), or the customer's `takenAmount` without one; paid sums the payment entries not dated before that renewal; remaining = owed − paid |
| CustomerController.InvalidateRestorations | backend/controllers/customerController.js:312-322 | every restored deleted record of the id and day is flagged invalidated with the date and reason and otherwise unchanged; every other record is unchanged; the length is kept |
| CustomerController.FindAppended | backend/controllers/customerController.js:329-332 | a record appended to a day with no customer of its id is what a later lookup of that id finds |
| CustomerController.CreateCustomer | backend/controllers/customerController.js:290-348 | 400 iff an active customer of the day already has the id, with nothing written; otherwise exactly the model-built customer is appended to the day, old restoration links of the id are invalidated iff the first deleted record of the id and day was restored, and the line's balance is recomputed |
| CustomerController.MergeCustomer | backend/controllers/customerController.js:391-395 | the merged record keeps the path id; an `internalId`, `takenAmount`, `interest`, `pc` or `weeks` given in the body replaces the stored one, an absent one keeps it |
| CustomerController.RenewalsAfterUpdate | backend/controllers/customerController.js:369-386 | the renewals come back sorted latest first with the same elements: the tail is the sorted tail unchanged, and the head is the latest renewal with the body's `takenAmount` and whichever of `interest`, `pc` and `weeks` the body gives (the others kept) |
| CustomerController.UpdateCustomer | backend/controllers/customerController.js:351-411 | 404 iff no active customer of the day has the id, with nothing written; otherwise the first such customer is replaced by the rebuilt merged record, iff renewals exist and `takenAmount` is given the renewal file becomes its sorted update, whose latest renewal takes the body's `takenAmount`, `interest`, `pc` and `weeks`, and the balance is recomputed |
| CustomerController.SortByOfSorted | backend/controllers/customerController.js:371-375 | sorting renewals that are already latest first leaves them as they are |
| CustomerController.InsertAfterAll | backend/controllers/customerController.js:371-375 | inserting a record whose key is not below any in a sorted list puts it last |
| CustomerController.UpdatedAmountIsOwed | backend/controllers/customerController.js:369-397 | after an update that gives `takenAmount`, the views owe exactly that amount, with or without renewals |
| CustomerController.DeletedEntry | backend/controllers/customerController.js:462-469 | the deleted record keeps the id and internal id, is flagged deleted with the deletion time and the day it was deleted from, and keeps its restored flag |
| CustomerController.DeleteCustomer | backend/controllers/customerController.js:425-489 | 404 iff no active customer of the day has the id, with nothing written; otherwise the customer's transaction, chat and renewal files are copied to the deleted folders, one deleted record is appended, every customer with the id leaves the day, and the balance and active transaction files are never touched |
| CustomerController.RestoreTarget | backend/controllers/customerController.js:502-520 | with a deletion timestamp, the first record of that id, day and timestamp (none iff there is none); without one, an unrestored record of the id and day with the latest deletion time (none iff there is none) |
| CustomerController.Today | backend/controllers/customerController.js:558 | the current calendar day is the midnight at or before the clock and less than a day before it |
| CustomerController.RestoredCustomer | backend/controllers/customerController.js:548-563 | the restored customer has the new id, the deleted record's internal id and hence the same files, the new amount, `interest` and `pc` falling back to the deleted record's, and the restored flag and source day |
| CustomerController.RestoredLoan | backend/controllers/customerController.js:575-584 | the appended loan entry has the new amount, `type: 'restored'`, `loanType: 'restoredLoan'` and `isRestoredLoan: true` |
| CustomerController.MarkRestored | backend/controllers/customerController.js:624-636 | exactly the records of the same id, day and deletion timestamp are flagged restored with `restoredAs = newId`; all others are unchanged |
| CustomerController.RestoreCustomer | backend/controllers/customerController.js:494-655 | 404 iff no deleted record matches; 400 iff it is already restored or `newId` is active on the day it was deleted from; nothing is written on failure; on success the customer is appended under `newId` with the old internal id, a restored loan is appended to the old file, BF := BF − (takenAmount − interest − pc), and the deletion is flagged restored |
| CustomerController.RestoreByTimestampNotRepeatable | backend/controllers/customerController.js:504-533 | asked again with the same timestamp, the restore finds the record flagged restored and refuses it |
| CustomerController.RestoreFallbackSkipsRestored | backend/controllers/customerController.js:510-520 | without a timestamp the restore never picks a deletion that was already restored |
| CustomerController.DeleteThenRestoreKeepsFiles | backend/controllers/customerController.js:462-550 | restoring a deletion by its timestamp finds exactly the record the deletion appended, and the restored customer owns the deleted customer's files |
| CustomerController.AppendAndSetBF | backend/controllers/customerController.js:817-844 | exactly one entry is appended to the customer's transaction file, and the given balance is written to every line with the id while the other lines are unchanged |
| CustomerController.RenewalLoan | backend/controllers/customerController.js:802-815 | the renewal entry has the new amount, `type: 'renewal'`, `isRenewal: true`, `interest` and `pc` falling back to the customer's, and takes effect at the clock reading |
| CustomerController.CreateRenewal | backend/controllers/customerController.js:730-859 | 404 iff the customer is not active on the day; 400 iff the renewal check leaves something to pay; nothing is written on failure; otherwise one renewal loan is appended and BF := BF − (takenAmount − interest − pc) |
| CustomerController.RenewalStartsNewLoan | backend/controllers/customerController.js:760-775 | after a renewal later than every earlier one, the renewal check owes exactly the new loan |
| CustomerController.RenewalLoanCountsAsPaidInViews | backend/controllers/customerController.js:57-69 | the views count the renewal's own loan entry as a payment, lowering the remaining amount they show by the new loan |
| CustomerController.CommentEntry | backend/controllers/customerController.js:1040-1045 | a chat comment has `type: 'comment'`, the message and no amount |
| CustomerController.ChatPayment | backend/controllers/customerController.js:1061-1068 | a chat payment has the parsed amount, `type: 'payment'` and `source: 'chat'`, is stamped with the clock and is a payment entry for the renewal check |
| CustomerController.AddChatTransaction | backend/controllers/customerController.js:1019-1101 | 404 iff the customer is not active on the day, with nothing written; a message without an amount goes to the chat file and leaves BF alone; anything else is appended to the transaction file and BF := BF + amount (a missing amount stores `null`) |
| CustomerController.ChatPaymentCountsForRenewal | backend/controllers/customerController.js:1070-1080 | a chat payment not dated before the latest renewal lowers the renewal check's remaining amount by exactly its amount |
| CustomerViews.ListOverlay | backend/controllers/customerController.js:72-79 | the listed record takes the latest renewal's `date` and `takenAmount`, its `interest` and `pc` whenever present (0 included), and its `weeks` when non-zero; otherwise the customer's values stay, and its ids, name and creation time are kept |
| CustomerViews.DetailOverlay | backend/controllers/customerController.js:161-167 | as the listing's overlay, except that a renewal `interest` or `pc` of 0 falls back to the customer's |
| CustomerViews.CustomersByLineAndDay | backend/controllers/customerController.js:19-96 | one entry per active customer of the day, in file order, each with the balance of its current loan, `hasRenewals` iff its renewal file is non-empty, its id and file key unchanged, and the record itself, or with a renewal the latest renewal's overlay of it |
| CustomerViews.CustomerById | backend/controllers/customerController.js:101-181 | 400 iff `lineId` or `day` is missing; 404 iff no active customer of the day has the id; otherwise that customer with the balance of its current loan, its file key unchanged, and the record itself, or with a renewal the latest renewal's detail overlay of it |
| CustomerViews.PaymentAtNowLowersRemaining | backend/controllers/customerController.js:148-158 | a payment recorded now, not before the latest renewal, lowers the remaining amount the views show by exactly its amount |
| CustomerViews.Assess | backend/controllers/customerController.js:1169-1188 | a customer is reported iff something remains to be paid and the clock is past the effective date plus 7 × weeks days; `daysOverdue` is the whole days elapsed since then and is never negative; `dueDate` is the calendar day of the term's end |
| CustomerViews.Verdict | backend/controllers/customerController.js:1119-1186 | the report's decision on one customer: its detail-view overlay with the latest renewal, assessed with the balance of its current loan |
| CustomerViews.PendingOfDay | backend/controllers/customerController.js:1117-1189 | the overdue customers of one day, never more than the day has, each with something to pay, non-negative `daysOverdue` and that day's name; an entry is listed iff it is the verdict on some customer of the day file, so every overdue customer of the day is reported |
| CustomerViews.PendingOfDayAppend | backend/controllers/customerController.js:1119-1189 | a day's report follows the file order: appending a customer to the file appends its verdict to the report |
| CustomerViews.PendingOf | backend/controllers/customerController.js:1116-1190 | every reported customer has something to pay, non-negative `daysOverdue` and a day name among the line's days; an entry is listed iff it is the verdict on some customer of one of the listed days' files, so every overdue customer of every listed day is reported |
| CustomerViews.PendingOfAppendDay | backend/controllers/customerController.js:1116-1190 | the line's report follows the day order: appending a day appends that day's report |
| CustomerViews.ScanDayForPending | backend/controllers/customerController.js:1119-1189 | the inner loop collects exactly the overdue customers of the day, in file order |
| CustomerViews.GetPendingCustomers | backend/controllers/customerController.js:1104-1196 | the nested loops collect exactly the overdue customers of every listed day, day by day; a line without days yields an empty list |
| CustomerViews.DisplayTakenAmount | backend/controllers/customerController.js:1219-1231 | the latest archived renewal's `takenAmount` when it is a non-zero number, else the deleted record's own |
| CustomerViews.DeletedCustomers | backend/controllers/customerController.js:1199-1243 | exactly the deleted records not yet restored, in file order, each with its display amount |
| CustomerViews.NumericIds | backend/controllers/customerController.js:1255-1257 | a number is listed iff `parseInt` reads some active customer's id as it |
| CustomerViews.NextCustomerId | backend/controllers/customerController.js:1246-1269 | `'1'` when no active id is numeric, otherwise the decimal text of the largest numeric id plus one |
| CustomerViews.NextIdIsFree | backend/controllers/customerController.js:1252-1263 | no active customer of the day has the suggested id, so creating a customer with it is never refused as a duplicate |
| TransactionController.QuickPayment | backend/controllers/transactionController.js:76-83 | the appended entry has the clock as its id, the amount and date given, `type: 'payment'`, `source: 'quick'` and the comment or `''` |
| TransactionController.AddTransaction | backend/controllers/transactionController.js:58-115 | 404 iff the customer is not active on the day, with nothing written; otherwise exactly one quick payment is appended to the customer's internal-id file and BF := BF + amount, on the lines with that id only |
| TransactionController.Edited | backend/controllers/transactionController.js:162-169 | the edited entry keeps its id, type and date and carries the new amount, `isEdited: true` and the edit time |
| TransactionController.Adjusted | backend/controllers/transactionController.js:157-159 | the new balance differs from the current one by the replacement amount minus the stored amount (the replacement is 0 for a deletion), and is `NaN` (written as `null`) exactly when the stored amount is missing |
| TransactionController.Locate | backend/controllers/transactionController.js:141-153 | the first entry with the id in the transactions file; failing that, the first in the chat file; nowhere iff neither file has the id |
| TransactionController.UpdateTransaction | backend/controllers/transactionController.js:121-202 | 404 iff the customer is not active or the id is in neither file, with nothing written; otherwise only the found entry is replaced by its edited copy in the file where it was found, and BF := BF + (newAmount − oldAmount) |
| TransactionController.Without | backend/controllers/transactionController.js:247-250 | no entry with the id is left and every other entry is kept |
| TransactionController.DeleteTransaction | backend/controllers/transactionController.js:208-277 | 404 as for an update; otherwise every entry with the id is removed from the file where the first was found, the other file is untouched, and BF := BF − deletedAmount |
| TransactionController.PaymentFileRoundTrip | backend/controllers/transactionController.js:85-86 | a payment appended with a fresh id is what a later delete locates, and deleting it gives back the file as it was |
| TransactionController.PaymentBalanceRoundTrip | backend/controllers/transactionController.js:92-103 | adding a payment of `a` and then deleting it returns the lines to what they were, provided the stored BF is non-zero before and after |
| TransactionController.BalanceAfterPayment | backend/controllers/transactionController.js:92-94 | the balance after a payment is read back as written unless it came to 0, when the next handler starts from the line's opening amount |
| TransactionController.EditWithoutAmountResetsBalance | backend/controllers/transactionController.js:157-192 | editing an entry whose stored amount is missing writes `null` as BF, so the next handler starts from the line's opening amount |
| FileStore.CustomerIndex | backend/controllers/transactionController.js:65 | the position of the first customer with the id: it carries the id and no earlier one does; the list length when none does |
| FileStore.FindCustomer | backend/controllers/transactionController.js:65 | the found customer is the one at `CustomerIndex`, i.e. the first in the list with the id; none iff no customer has it |
| FileStore.LineIndex | backend/controllers/transactionController.js:91 | the position of the first line with the id: it carries the id and no earlier one does; the list length when none does |
| FileStore.FindLine | backend/controllers/transactionController.js:91 | the found line is the one at `LineIndex`, i.e. the first in the list with the id; none iff no line has it |
| FileStore.ReadBF | backend/controllers/transactionController.js:92 | `currentBF \|\| amount \|\| 0`: the stored BF when non-zero, else the line's opening amount, and 0 for a missing line |
| FileStore.SetBF | backend/controllers/transactionController.js:97-102 | the lines with the id get the new `currentBF`, every other line is unchanged, and the length is kept |
| FileStore.FindLineAfterSetBF | backend/controllers/transactionController.js:97-102 | after the write, the line found by id is the old one with the new `currentBF` |
| FileStore.ReadAfterSetBF | backend/controllers/transactionController.js:92-102 | a written balance reads back unchanged unless it is 0 or `null`, when the opening amount is read |
| FileStore.ReadOtherAfterSetBF | backend/controllers/transactionController.js:97-102 | writing one line's BF changes neither the lookup nor the balance read of any other line |
| Text.IndexOf | backend/controllers/collectionController.js:14 | −1 iff the character does not occur, otherwise the position of its first occurrence |
| Text.Split | backend/controllers/collectionController.js:14 | `split(',')` gives at least one piece and no piece contains the separator |
| Text.JoinSplit | backend/controllers/collectionController.js:14 | joining the pieces of a split gives back the query string |
| Text.SplitJoin | backend/controllers/collectionController.js:14 | splitting a join of separator-free pieces gives back the pieces |
| Text.ParseIntOfIntToString | backend/controllers/customerController.js:1256-1261 | every id written with `toString` reads back with `parseInt` as the same number |
| Text.NatToStringValue | backend/controllers/customerController.js:1261 | the decimal digits of `toString` denote the number |
| Sorting.SortBy | backend/controllers/pdfController.js:391-402 | the comparator sort returns a permutation of its input in ascending key order |
| Sorting.Insert | backend/controllers/pdfController.js:391-402 | inserting into a sorted list keeps it sorted and adds exactly the element |
| Sorting.SortedFirstIsLeast | backend/controllers/customerController.js:45-50 | the head of the sorted list has the least key of all |
| Sorting.SortByMembers | backend/controllers/customerController.js:45-50 | sorting keeps exactly the elements it is given |
| Directory.Sorted | backend/services/bfCalculation.js:62-65 | the owners listed once each, in order of their file names |
| Directory.Listing | backend/services/bfCalculation.js:62-65 | the owners of the per-customer files of a day folder, each file once, in the order of their `<owner>.json` names |
| CollectionController.SelectedDays | backend/controllers/collectionController.js:11-17 | a truthy `days` query is split on commas into comma-free pieces that join back to the query; otherwise the line's stored day list (empty when missing) |
| CollectionController.ActiveBindings | backend/controllers/collectionController.js:26-32 | each active customer is set in the map twice, under `internalId \|\| id` and then under `id`, in file order |
| CollectionController.DeletedBindings | backend/controllers/collectionController.js:35-42 | only customers deleted from the day are set in the map |
| CollectionController.Lookup | backend/controllers/collectionController.js:49 | `Map.get` is undefined iff no `set` used the key, and otherwise gives the value of the last `set` of that key |
| CollectionController.LookupInLater | backend/controllers/collectionController.js:30-39 | a key set again by a later batch of `set` calls is looked up in that later batch |
| CollectionController.DeletedShadowsActive | backend/controllers/collectionController.js:26-42 | a customer deleted from the day shadows an active customer with the same internal id: the lookup gives a record deleted from that day |
| CollectionController.DeletedBindingOf | backend/controllers/collectionController.js:36-39 | every customer deleted from the day is set under its internal id |
| CollectionController.Received | backend/controllers/collectionController.js:55-66 | an incoming row keeps the entry's amount and date, is not deleted, and has the entry's truthy `type` or else `received` |
| CollectionController.ReceivedRows | backend/controllers/collectionController.js:45-68 | every row from the day's transaction or chat files is a non-deleted row of that day |
| CollectionController.CreationRow | backend/controllers/collectionController.js:99-112 | a creation row carries the customer's `takenAmount` and `date`, type `customer_creation`, and comment `Restoration Loan` for a restored customer, otherwise `Customer Created` |
| CollectionController.RenewalRow | backend/controllers/collectionController.js:128-140 | a renewal row carries the renewal's `takenAmount` and `date` with type `renewal` |
| CollectionController.RenewalRows | backend/controllers/collectionController.js:117-143 | every row from the renewal files is a `renewal` with a non-zero amount and a date, so renewals without both are skipped |
| CollectionController.LoanRows | backend/controllers/collectionController.js:97-114 | a creation row is emitted for a customer iff it has a truthy `takenAmount` and a `date` |
| CollectionController.DayFlows | backend/controllers/collectionController.js:23-143 | every active customer of the day with a loan contributes its creation row to the going rows; every incoming row is a non-deleted row of that day |
| CollectionController.ActiveFlows | backend/controllers/collectionController.js:23-144 | every incoming row of the active pass is not deleted and belongs to a selected day |
| CollectionController.CollectActive | backend/controllers/collectionController.js:23-144 | the per-day `forEach` collects exactly the active rows of all selected days, in day order |
| CollectionController.UnkeyedDeletionSkipped | backend/controllers/collectionController.js:153-171 | a deleted record with neither `internalId` nor `restoredFromInternalId` matches itself in the re-deletion test and never ends a chain |
| CollectionController.Record | backend/controllers/collectionController.js:176-179 | recording a terminal keeps one entry per chain key, and the entry kept for each key has the latest deletion timestamp seen |
| CollectionController.Terminals | backend/controllers/collectionController.js:151-181 | the chain map holds one record per key, each an eligible deletion (timestamped, on a selected day, not restored, not re-deleted), and covers every eligible record with one at least as late |
| CollectionController.ChainTerminals | backend/controllers/collectionController.js:151-181 | the `forEach` over the deleted list builds exactly that chain map |
| CollectionController.Earlier | backend/controllers/collectionController.js:273-286 | a found predecessor is a deleted record of the same day with the sought internal id whose restoration was not invalidated |
| CollectionController.Previous | backend/controllers/collectionController.js:269-287 | a predecessor is found only through a truthy `restoredFromInternalId` or `originalCustomerInternalId`, and is a non-invalidated deletion of the same day |
| CollectionController.ChainFrom | backend/controllers/collectionController.js:202-294 | the walk is empty iff its start was already visited, otherwise starts there, and only reaches deleted records not yet visited |
| CollectionController.ChainNeverRevisits | backend/controllers/collectionController.js:203-207 | the walk visits no deletion timestamp twice and so takes at most as many steps as there are unvisited timestamps |
| CollectionController.Chain | backend/controllers/collectionController.js:202-294 | the chain of a terminal starts at it, has distinct timestamps, and is no longer than the number of timestamps in the deleted list |
| CollectionController.WalkChain | backend/controllers/collectionController.js:196-294 | the `while` loop visits exactly the chain, ends with the set of its timestamps, and collects the archived files of its members |
| CollectionController.MigratedAddsNothing | backend/controllers/collectionController.js:212 | a migrated record after the first step adds no archived rows |
| CollectionController.TerminalFilesRead | backend/controllers/collectionController.js:210-251 | the latest deletion's archive files are always read, migrated or not, each entry marked settled iff `remainingAtDeletion` is 0 |
| CollectionController.ArchivedRow | backend/controllers/collectionController.js:315-342 | an archived incoming row keeps amount, date and settled flag, is deleted iff the terminal is not restored, and names the terminal as original customer |
| CollectionController.ArchivedRenewalRow | backend/controllers/collectionController.js:345-363 | an archived renewal row keeps the renewal's amount, date and settled flag, with the same deletion and original-customer marks |
| CollectionController.LoanRow | backend/controllers/collectionController.js:256-266 | a chain loan's amount is `originalTakenAmount` when non-zero, else `takenAmount`; it is settled iff the record's remaining was 0; the first loan is `Customer Created`, later ones `Restoration Loan` |
| CollectionController.Loans | backend/controllers/collectionController.js:297-387 | the loans are emitted oldest first: row i is the loan of the chain member i places from the end |
| CollectionController.ChainRows | backend/controllers/collectionController.js:315-387 | one incoming row per archived transaction and chat entry, all marked with the terminal's deletion state, and the going rows end with the chain's loans |
| CollectionController.ChainOf | backend/controllers/collectionController.js:186-388 | one terminal's walk yields exactly its chain rows and the timestamps of its chain |
| CollectionController.VisitedTerminalSkipped | backend/controllers/collectionController.js:187-190 | a terminal whose timestamp an earlier chain already processed adds nothing |
| CollectionController.CollectDeleted | backend/controllers/collectionController.js:184-388 | the `forEach` over the terminals yields exactly the rows of every chain not already processed, in map order |
| CollectionController.DateFiltered | backend/controllers/collectionController.js:391-397 | a row is kept iff its date equals `date`, or, with no `date`, lies between `dateFrom` and `dateTo`; each kept row keeps its number of copies; without `date` and with a bound missing nothing is filtered |
| CollectionController.DateWinsOverRange | backend/controllers/collectionController.js:391-394 | when `date` is given the range bounds are ignored |
| CollectionController.InsertDate | backend/controllers/collectionController.js:409 | inserting a date into a strictly ascending list keeps it strictly ascending and adds exactly that date |
| CollectionController.Dates | backend/controllers/collectionController.js:409 | the mapped dates are the rows' dates, position by position |
| CollectionController.DistinctDates | backend/controllers/collectionController.js:409 | `[...new Set(dates)].sort()` is strictly ascending and holds exactly the dates present |
| CollectionController.Tagged | backend/controllers/collectionController.js:413-416 | the combined list is the incoming rows retagged `received` followed by the going rows retagged `given` |
| CollectionController.TaggedTotal | backend/controllers/collectionController.js:413-416 | the combined list's amounts add up to the incoming plus the going total |
| CollectionController.RetagKeepsTotal | backend/controllers/collectionController.js:414-415 | retagging rows leaves their total unchanged |
| CollectionController.Summarize | backend/controllers/collectionController.js:390-434 | the filtered lists are the date filter of the gathered rows, so they keep exactly the matching rows with their multiplicities; the totals are their sums and netFlow their difference; `uniqueDates` is empty with a `date` filter and otherwise the distinct dates of the filtered rows in ascending order; the combined list has every row once |
| CollectionController.GetCollections | backend/controllers/collectionController.js:6-438 | the handler's report is the summary of the active rows of the selected days followed by the rows of the deletion chains ending on them, and the store is only read |
| PdfData.LatestLiveRenewal | backend/controllers/pdfController.js:39-48 | none iff every renewal is archived and settled; otherwise a live renewal whose `renewalDate \|\| date` is not earlier than that of any other live renewal |
| PdfData.StatementLoan | backend/controllers/pdfController.js:31-60 | without renewals the loan owes the parsed `takenAmount` and starts at `createdAt` only for a restored customer; with renewals it owes the latest live renewal's amount from that renewal's date, and owes 0 with no start when every renewal is archived and settled |
| PdfData.SummaryLoan | backend/controllers/pdfController.js:462-498 | the loan always owes the customer's parsed `takenAmount`; it starts at the later of the latest live renewal's date and a truthy `createdAt` that is strictly later; without renewals it starts at `createdAt` only for a restored customer with a truthy one; with only archived settled renewals it has no start |
| PdfData.SummaryStartNotBeforeRenewal | backend/controllers/pdfController.js:484-490 | when a live renewal has a date, the summary's loan starts no earlier than it |
| PdfData.LoanBalance | backend/controllers/pdfController.js:62-75 | owed is the loan's amount, paid is the sum of the transaction and chat entries that are not archived-and-settled and not dated before the loan's start, and remaining is owed − paid |
| PdfData.EarlyPaymentExcluded | backend/controllers/pdfController.js:67-71 | a payment timed before the loan's truthy start changes none of the totals |
| PdfData.SettledArchiveExcluded | backend/controllers/pdfController.js:64-65 | an archived, settled payment changes none of the totals |
| PdfData.CountedPaymentPaid | backend/controllers/pdfController.js:64-75 | a counted payment raises paid by its parsed amount and lowers remaining by the same amount |
| PdfData.LoanEntries | backend/controllers/pdfController.js:82-88 | the loans of the customer and its chain only add to the taken column |
| PdfData.RenewalEntries | backend/controllers/pdfController.js:136-142 | the renewals only add to the taken column |
| PdfData.PaymentEntries | backend/controllers/pdfController.js:145-151 | the transaction and chat entries only add to the received column |
| PdfData.InsertDate | backend/controllers/pdfController.js:154-156 | inserting a date into a strictly ascending list keeps it strictly ascending and adds exactly that date |
| PdfData.Dates | backend/controllers/pdfController.js:79-156 | the statement's dates are strictly ascending and include the date of every entry |
| PdfData.DatesOfEntries | backend/controllers/pdfController.js:79-156 | every statement date is the date of some entry |
| PdfData.AggregatedSums | backend/controllers/pdfController.js:79-151 | the map keyed by date holds, for each date, the sums of the taken and received amounts of the entries on that date |
| PdfData.Aggregate | backend/controllers/pdfController.js:79-151 | the loop of `get`/`set` calls on the statement map builds exactly those per-date sums |
| PdfData.Rows | backend/controllers/pdfController.js:154 | the rows are the map's values at the given dates, in that order |
| PdfData.Statement | backend/controllers/pdfController.js:79-156 | one row per distinct entry date, sorted by ascending date, each with the taken and received totals of that date |
| PdfData.TakenAndReceived | backend/controllers/pdfController.js:81-151 | the taken column sums loans and renewals and the received column sums payments only, date by date |
| PdfData.Deletion | backend/controllers/pdfController.js:104-108 | `find` gives a deleted record with the given timestamp and id deleted from the day, and none iff there is no such record |
| PdfData.Restorations | backend/controllers/pdfController.js:96-132 | the walk is empty iff the timestamp is falsy or visited or has no record, otherwise starts at the found record, and reaches only unvisited records deleted from the day |
| PdfData.RestorationsLinked | backend/controllers/pdfController.js:123-125 | each step of the walk goes to the record named by the previous record's `restoredFromTimestamp` and `restoredFromId` |
| PdfData.RestorationsDistinct | backend/controllers/pdfController.js:98-101 | the walk never visits a timestamp twice, so it takes at most as many steps as there are unvisited timestamps |
| PdfData.WalkStops | backend/controllers/pdfController.js:100-131 | a walk that ends on a record that would continue ends because the timestamp it links to was visited, by the walk or before it, or has no deleted record (`StopsWhereItShould`) |
| PdfData.WalkRestorations | backend/controllers/pdfController.js:92-133 | the `while` loop visits exactly the restoration chain of the customer |
| PdfData.StatementOf | backend/controllers/pdfController.js:6-173 | no data iff the customer is not in the day file; otherwise the customer found, the totals of its statement loan over its files, and the statement of its loans, chain, renewals and payments |
| PdfData.GetCustomerTransactionData | backend/controllers/pdfController.js:6-173 | 404 iff no customer has the id in the day file, otherwise 200 with that customer's statement data |
| PdfData.DayIndex | backend/controllers/pdfController.js:393 | `indexOf`: −1 iff the day is not selected, otherwise the first position of the day |
| PdfData.Ordered | backend/controllers/pdfController.js:391-402 | the sorted rows are a permutation of the rows, ordered by the selected-day position and, within a day, by descending date |
| PdfData.InRange | backend/controllers/pdfController.js:385-388 | with both bounds a row is kept iff its date lies between them; with a bound missing nothing is filtered |
| PdfData.CurrentBF | backend/controllers/pdfController.js:420 | `line?.currentBF \|\| 0`: the line's truthy stored BF, otherwise 0 |
| PdfData.CollectionsDataOf | backend/controllers/pdfController.js:181-421 | the selected days as in the collections view; the filtered rows in day order; totals that are the sums of the rows and netFlow their difference; the line's BF |
| PdfData.CustomerTotalsOf | backend/controllers/pdfController.js:453-521 | a customer's summary row keeps its id, name and day, owes its parsed `takenAmount`, and is the balance of its summary loan over its files |
| PdfData.CustomerRows | backend/controllers/pdfController.js:453-522 | one summary row per customer of the day file, in order: the i-th row is the i-th customer's totals |
| PdfData.DaySummaryOf | backend/controllers/pdfController.js:449-527 | a day's entry holds the day and the summary rows of its customers |
| PdfData.Summaries | backend/controllers/pdfController.js:447-528 | one entry per selected day, in the selected order |
| PdfData.SummaryOfEachDay | backend/controllers/pdfController.js:449-528 | the i-th entry is the summary of the i-th selected day |
| PdfData.GetCustomerSummaryData | backend/controllers/pdfController.js:429-537 | the selected days as in the collections view; `isSelectAllDays` iff the query is exactly `true`; the `for` loop builds exactly the per-day summaries; `bfAmount` is the line's stored `currentBF`, or 0 when it is missing or 0 |

## Left out

- Floating point: amounts are whole numbers of the smallest currency unit. `parseFloat` of a numeric field is its value, and a missing or non-numeric field reads as 0 through `|| 0`. Rounding and `toFixed`/`toLocaleString` formatting are not modelled.
- `NaN`: a sum that would be `NaN` in the program (a stored entry without a numeric amount) counts as 0. The exception is the incremental BF of the transaction handlers, which writes `null`, modelled as `None`. The difference between `''` and a missing field is not kept.
- Dates and times: a `YYYY-MM-DD` date is modelled as the `Time` of its midnight, so comparing date strings and comparing times agree. Time zones and daylight saving are not modelled. The statement map is keyed by that time, not by the raw date string, so two spellings of one date fall into one row.
- Sort keys: a record without a date or renewal date sorts as the epoch (`new Date(undefined)` is `NaN` in the program, which the comparator treats as equal to any other key).
- The clock and random ids: each handler reads the clock once, as the `now` parameter. `Date.now()`/`Math.random()` identifiers are fresh parameters or the decimal clock reading.
- File I/O (`services/fileManager.js`): the directory is the `FileStore.Store` object. A read of a missing file gives the empty list, and a write replaces a whole file. Write failures and partial writes are not modelled.
- Concurrency: handlers run one at a time on the store. Interleaved requests are not modelled.
- Display-only fields of the rows and replies are not carried: tooltip `customerDetails`, the generated ids of report rows, `customerName` fallbacks beyond the name itself, and the `line` record echoed in replies.
- `console.log` calls and the `try`/`catch` that passes exceptions to `next(error)` are not modelled. The model has no exceptions.
- Route validators (`routes/*.js`) are not modelled as code. Their checks appear only as the handlers' `requires`.
- PdfData.CollectionsDataOf: takes the rows `getCollectionsData` gathers as parameters; only the filtering, sorting, totals and BF are modelled. The row gathering (`controllers/pdfController.js:200-383`) is outside the modelled core, and it differs from the collections view's: it walks no deletion chain and skips no migrated record; it reads archived payments from `transactions_deleted/<internalId>.json` and `chat_deleted/<internalId>.json` without a timestamp suffix; it reads archived renewals from `renewals_deleted/<id>_<timestamp>.json`, keyed by `id`; and it gives a creation row of `takenAmount` for every deleted record of the day with a `takenAmount` and a date, even without a deletion timestamp.
- PdfData.Ordered: states the permutation and the day-then-latest-date order, but not that rows with equal keys keep their order (the sort is stable).
- PdfData.Summaries: states one entry per selected day. The content of each entry is stated by `PdfData.SummaryOfEachDay`.
- PdfData.LoanEntries: states only that its entries add to the taken column. The per-date sums are stated by `PdfData.TakenAndReceived` and `PdfData.Statement`.
- PdfData.RenewalEntries: states only that its entries add to the taken column. The per-date sums are stated by `PdfData.TakenAndReceived` and `PdfData.Statement`.
- PdfData.PaymentEntries: states only that its entries add to the received column. The per-date sums are stated by `PdfData.TakenAndReceived` and `PdfData.Statement`.
- `getCustomerSummaryData` reads `deleted_customers/<line>.json` for every day and never uses it. The model does not read it.
- CustomerController.MergeCustomer: merges only the fields the customer record of this model carries. Other fields of a request body are dropped.
- CustomerController.MergeCustomer: `isRestoredCustomer` is a plain flag, so an explicit `false` in a body cannot be told from an absent one. The merge keeps the flag set when either the stored record or the body sets it, while `{...stored, ...body}` would let a body `false` clear it. No request of the frontend sends that field.
- Read handlers outside the modelled core are not modelled:
  - `getAccounts` (`accountController.js`), `getLineBF` (`lineController.js`) and `getTransactions` (`transactionController.js`) only read one file or call the BF computation.
  - `getDeletedCustomerById`, `getCustomerTransactions`, `getCustomerRenewals`, `getCustomerChat`, `getDeletedCustomerTransactions`, `getDeletedCustomerChat`, `getDeletedCustomerRenewals` and `getCustomerPrintData` (`customerController.js`) only read files for display.
- PDF rendering (`generateCustomerTransactionPDF`, `generateCollectionsPDF`, `generateCustomerSummaryPDF`) is calls into PDFKit and is not modelled. So are authentication, Google Drive sync, the server and Electron process code, and the frontend.
