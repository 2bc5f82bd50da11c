# EasyMoney core, modelled in Dafny

EasyMoney is an Android personal-finance app with two halves. One half is the local ledger:
a Room table of income and expense records, the repository and view model over it, a
background service that marks records as synced, the add-transaction form, and the user's
theme and language preferences. The other half is the budget screens: they talk to an
in-memory "cloud" repository of transactions, accounts, categories and budgets, and have an
add-transaction screen of their own.

This project models those parts and proves what they promise:

- The SQL queries are functions over the stored table. The insert, update and delete
  operations are methods on a class that holds the table.
- The view model keeps its balance equal to income minus expense. That balance equals the
  signed sum over all rows.
- One sync cycle is a loop over the unsynced snapshot. Its final table is stated outright.
- The form's Save guard and reset are modelled, and so is the preference codec with its
  fallbacks.
- The cloud repository books a transaction on its account when it is added and cancels the
  booking when it is deleted. Adding a transaction and then deleting it restores the
  accounts.

Modules (one per source file, plus two helpers):

| module | file |
|---|---|
| `Wrappers` | `Option` (Kotlin's nullable values) |
| `Sequences` | Kotlin's `indexOfFirst`, `find` and `filter` on lists |
| `LedgerEntity` | the Room `Transaction` entity |
| `LedgerDao` | `TransactionDao`: queries, sums and the stored table |
| `LedgerRepository` | `TransactionRepository` |
| `LedgerViewModel` | `TransactionViewModel` |
| `SyncService` | one cycle of `SyncService.syncDataWithCloud` |
| `TransactionForm` | the `AddTransactionForm` composable's state and handlers |
| `UserPreferences` | `UserPreferences` |
| `BudgetModels` | the budget app's data classes |
| `BudgetRepository` | `CloudBudgetRepository` |
| `AddTransactionScreen` | validation, category filter and default account of `AddTransactionScreen` |

Conventions:

- Kotlin `Double` is Dafny `real`, and `Date` is milliseconds as `int`.
- The clock, `UUID.randomUUID` and `String.toDoubleOrNull` are parameters. The parser
  parameter returns `None` for text that does not parse.
- The budget transaction's `type` field is called `kind`, because `type` is a Dafny keyword.

## Model

| member | source | states |
|---|---|---|
| LedgerEntity.NewTransaction | app/src/main/java/com/dockix/myapplication/data/database/entity/Transaction.kt:8-18 | a new record has id 0, so the store assigns one. It is not synced and carries exactly the given fields. |
| LedgerEntity.SignedAmount | app/src/main/java/com/dockix/myapplication/ui/viewmodel/TransactionViewModel.kt:47-49 | an income row counts +amount towards the balance and an expense row −amount. |
| LedgerDao.First | app/src/main/java/com/dockix/myapplication/data/database/dao/TransactionDao.kt:24 | the row listed first has no earlier date than any other row (the latest date comes first). Ties go to the smaller id. |
| LedgerDao.OrderedRowsListsTable | app/src/main/java/com/dockix/myapplication/data/database/dao/TransactionDao.kt:24 | the listing holds every row of the table exactly once, with dates non-increasing. |
| LedgerDao.Select | app/src/main/java/com/dockix/myapplication/data/database/dao/TransactionDao.kt:24-34 | a `WHERE … ORDER BY date DESC` result holds exactly the stored rows satisfying the condition, each once, newest first. |
| LedgerDao.GetAllTransactions | app/src/main/java/com/dockix/myapplication/data/database/dao/TransactionDao.kt:24-25 | every stored row once (as many rows as the table has), newest first. |
| LedgerDao.GetTransactionById | app/src/main/java/com/dockix/myapplication/data/database/dao/TransactionDao.kt:27-28 | null exactly when the id is absent; otherwise the stored row with that id. |
| LedgerDao.GetTransactionsByDateRange | app/src/main/java/com/dockix/myapplication/data/database/dao/TransactionDao.kt:30-31 | exactly the rows with start ≤ date ≤ end, with both bounds inclusive, newest first. |
| LedgerDao.DateRangeBoundsInclusive | app/src/main/java/com/dockix/myapplication/data/database/dao/TransactionDao.kt:30 | a range whose start and end both equal a row's date contains that row. |
| LedgerDao.GetTransactionsByType | app/src/main/java/com/dockix/myapplication/data/database/dao/TransactionDao.kt:33-34 | exactly the rows of the requested type, newest first. |
| LedgerDao.GetUnsyncedTransactions | app/src/main/java/com/dockix/myapplication/data/database/dao/TransactionDao.kt:36-37 | exactly the rows not yet synced, each once. No order is promised. |
| LedgerDao.SumOfType | app/src/main/java/com/dockix/myapplication/data/database/dao/TransactionDao.kt:39-43 | `SUM(amount)` is null exactly when no row has that type. Otherwise it is the total of that type's amounts, and null read as 0 is that total too. |
| LedgerDao.GetTotalIncome | app/src/main/java/com/dockix/myapplication/data/database/dao/TransactionDao.kt:39-40 | null exactly when there is no income row. Otherwise it is the income total. |
| LedgerDao.GetTotalExpense | app/src/main/java/com/dockix/myapplication/data/database/dao/TransactionDao.kt:42-43 | null exactly when there is no expense row. Otherwise it is the expense total. |
| LedgerDao.OrderedRowsRemove | app/src/main/java/com/dockix/myapplication/data/database/dao/TransactionDao.kt:39-43 | a sum over the listed rows is any one row's value plus the sum over the others, so it does not depend on the listing order. |
| LedgerDao.TypeTotalRemove | app/src/main/java/com/dockix/myapplication/data/database/dao/TransactionDao.kt:21-22 | deleting a row lowers the total of its own type by its amount and leaves the other total as it was. |
| LedgerDao.TypeTotalPut | app/src/main/java/com/dockix/myapplication/data/database/dao/TransactionDao.kt:15-19 | storing a row under its id, by insert, replace or update, sets each total to the total of the other rows plus the new row's share. |
| LedgerDao.BalanceIsSignedSum | app/src/main/java/com/dockix/myapplication/ui/viewmodel/TransactionViewModel.kt:44-49 | income total minus expense total equals the signed sum over all rows. |
| LedgerDao.TransactionDao.InsertTransaction | app/src/main/java/com/dockix/myapplication/data/database/dao/TransactionDao.kt:15-16 | id 0 gets a fresh id never used before, and any other id is kept. The row is stored under the returned id, replacing any row that had it, and the table stays well keyed. |
| LedgerDao.TransactionDao.UpdateTransaction | app/src/main/java/com/dockix/myapplication/data/database/dao/TransactionDao.kt:18-19 | replaces the row with the same id. An absent id changes nothing. |
| LedgerDao.TransactionDao.DeleteTransaction | app/src/main/java/com/dockix/myapplication/data/database/dao/TransactionDao.kt:21-22 | removes the row with the same id and nothing else. An absent id changes nothing. |
| LedgerRepository.TransactionRepository.GetAllTransactions | app/src/main/java/com/dockix/myapplication/data/repository/TransactionRepository.kt:10-12 | returns the DAO's query result unchanged. |
| LedgerRepository.TransactionRepository.GetTransactionById | app/src/main/java/com/dockix/myapplication/data/repository/TransactionRepository.kt:14-16 | returns the DAO's query result unchanged. |
| LedgerRepository.TransactionRepository.InsertTransaction | app/src/main/java/com/dockix/myapplication/data/repository/TransactionRepository.kt:18-20 | has exactly the DAO insert's effect and returns the row id. |
| LedgerRepository.TransactionRepository.UpdateTransaction | app/src/main/java/com/dockix/myapplication/data/repository/TransactionRepository.kt:22-24 | has exactly the DAO update's effect. |
| LedgerRepository.TransactionRepository.DeleteTransaction | app/src/main/java/com/dockix/myapplication/data/repository/TransactionRepository.kt:26-28 | has exactly the DAO delete's effect. |
| LedgerRepository.TransactionRepository.GetTransactionsByDateRange | app/src/main/java/com/dockix/myapplication/data/repository/TransactionRepository.kt:30-32 | returns the DAO's query result unchanged. |
| LedgerRepository.TransactionRepository.GetTransactionsByType | app/src/main/java/com/dockix/myapplication/data/repository/TransactionRepository.kt:34-36 | returns the DAO's query result unchanged. |
| LedgerRepository.TransactionRepository.GetUnsyncedTransactions | app/src/main/java/com/dockix/myapplication/data/repository/TransactionRepository.kt:38-40 | returns the DAO's query result unchanged. |
| LedgerRepository.TransactionRepository.GetTotalIncome | app/src/main/java/com/dockix/myapplication/data/repository/TransactionRepository.kt:42-44 | the DAO's income sum, null exactly when there is no income row. |
| LedgerRepository.TransactionRepository.GetTotalExpense | app/src/main/java/com/dockix/myapplication/data/repository/TransactionRepository.kt:46-48 | the DAO's expense sum, null exactly when there is no expense row. |
| LedgerViewModel.TransactionViewModel.constructor | app/src/main/java/com/dockix/myapplication/ui/viewmodel/TransactionViewModel.kt:20-30 | starts with an empty list and all three totals 0. |
| LedgerViewModel.TransactionViewModel.Combine | app/src/main/java/com/dockix/myapplication/ui/viewmodel/TransactionViewModel.kt:43-54 | a null sum counts as 0, and balance = income − expense is kept. |
| LedgerViewModel.TransactionViewModel.CollectTotals | app/src/main/java/com/dockix/myapplication/ui/viewmodel/TransactionViewModel.kt:42-55 | the totals become the table's type totals, and the balance becomes the signed sum over all rows. |
| LedgerViewModel.TransactionViewModel.GetAllTransactions | app/src/main/java/com/dockix/myapplication/ui/viewmodel/TransactionViewModel.kt:99-105 | the exposed list becomes the full newest-first listing. The totals are untouched. |
| LedgerViewModel.TransactionViewModel.GetTransactionsByType | app/src/main/java/com/dockix/myapplication/ui/viewmodel/TransactionViewModel.kt:91-97 | the exposed list becomes the listing of that type, and every listed row has that type. |
| LedgerViewModel.TransactionViewModel.InsertTransaction | app/src/main/java/com/dockix/myapplication/ui/viewmodel/TransactionViewModel.kt:58-77 | stores a new, unsynced row with the given fields under the next unused id, and advances the next id by one. |
| LedgerViewModel.TransactionViewModel.UpdateTransaction | app/src/main/java/com/dockix/myapplication/ui/viewmodel/TransactionViewModel.kt:79-83 | replaces the row with that id, or changes nothing when the id is absent. The next id to assign stays the same. |
| LedgerViewModel.TransactionViewModel.DeleteTransaction | app/src/main/java/com/dockix/myapplication/ui/viewmodel/TransactionViewModel.kt:85-89 | removes the row with that id and no other. The next id to assign stays the same, so a deleted id is never handed out again. |
| SyncService.MarkSynced | app/src/main/java/com/dockix/myapplication/data/service/SyncService.kt:60-67 | writing rows back as synced keeps every key and every other field. It only sets the flag of the written ids. |
| SyncService.MarkSyncedIsMonotone | app/src/main/java/com/dockix/myapplication/data/service/SyncService.kt:65-67 | a row that is already synced is left exactly as it was. |
| SyncService.UnsyncedAfterMark | app/src/main/java/com/dockix/myapplication/data/service/SyncService.kt:55-67 | after a partial write-back, the unsynced rows are exactly the old unsynced rows that were not written. |
| SyncService.FullCycleSyncsAll | app/src/main/java/com/dockix/myapplication/data/service/SyncService.kt:55-67 | a complete cycle leaves every row synced. |
| SyncService.SyncStep | app/src/main/java/com/dockix/myapplication/data/service/SyncService.kt:60-67 | writing back snapshot row i extends the written set by that row's id. |
| SyncService.SyncService.WriteBack | app/src/main/java/com/dockix/myapplication/data/service/SyncService.kt:60-69 | after the first n snapshot rows are written back, the table is the old table with exactly those ids marked synced. |
| SyncService.SyncService.SyncDataWithCloud | app/src/main/java/com/dockix/myapplication/data/service/SyncService.kt:53-103 | the snapshot is the unsynced rows. All of them are written back, or only the first n when an exception ends the cycle early. The table is the old one with exactly the written ids marked synced. |
| TransactionForm.ParsedAmount | app/src/main/java/com/dockix/myapplication/ui/components/AddTransactionForm.kt:234 | an amount that does not parse is read as 0. Otherwise it is the parsed value. |
| TransactionForm.SaveOutcome | app/src/main/java/com/dockix/myapplication/ui/components/AddTransactionForm.kt:232-249 | submits exactly when the title and category are not blank and the amount is > 0. The submission carries the fields and the picked date, or now when none is picked. The description is null exactly when it is blank. |
| TransactionForm.UnparseableAmountRejected | app/src/main/java/com/dockix/myapplication/ui/components/AddTransactionForm.kt:234-241 | an amount that does not parse is always rejected. |
| TransactionForm.CanSave | app/src/main/java/com/dockix/myapplication/ui/components/AddTransactionForm.kt:241 | holds exactly when the title and the category each contain a non-whitespace character and the amount is > 0. Empty text never passes. |
| TransactionForm.BlankFieldRejected | app/src/main/java/com/dockix/myapplication/ui/components/AddTransactionForm.kt:241 | a blank title or a blank category is rejected, whatever the amount. |
| TransactionForm.WhitespaceIsBlank | app/src/main/java/com/dockix/myapplication/ui/components/AddTransactionForm.kt:241 | for all texts: a concatenation is blank exactly when both parts are, and a text containing an ASCII letter or digit is not blank. |
| TransactionForm.ResetFormRejectsSave | app/src/main/java/com/dockix/myapplication/ui/components/AddTransactionForm.kt:243-248 | pressing Save again on the reset form submits nothing. |
| TransactionForm.AddTransactionForm.constructor | app/src/main/java/com/dockix/myapplication/ui/components/AddTransactionForm.kt:63-71 | starts collapsed with income selected, every text field empty, and the date picker at its initial selection. That selection is the start (UTC) of the day the form was created, not the raw clock value. |
| TransactionForm.AddTransactionForm.OnFabClick | app/src/main/java/com/dockix/myapplication/ui/components/AddTransactionForm.kt:266-268 | expands the form and changes nothing else. |
| TransactionForm.AddTransactionForm.OnCancelClick | app/src/main/java/com/dockix/myapplication/ui/components/AddTransactionForm.kt:223-225 | collapses the form and keeps every field. |
| TransactionForm.AddTransactionForm.OnTypeClick | app/src/main/java/com/dockix/myapplication/ui/components/AddTransactionForm.kt:119-147 | selects income or expense and changes nothing else. |
| TransactionForm.AddTransactionForm.OnTextChange | app/src/main/java/com/dockix/myapplication/ui/components/AddTransactionForm.kt:152-215 | replaces the text fields and changes nothing else. |
| TransactionForm.AddTransactionForm.OnDateSelected | app/src/main/java/com/dockix/myapplication/ui/components/AddTransactionForm.kt:71-89 | sets the picked date and changes nothing else. |
| TransactionForm.AddTransactionForm.OnSaveClick | app/src/main/java/com/dockix/myapplication/ui/components/AddTransactionForm.kt:232-250 | submits what `SaveOutcome` gives. After a submission, title, amount, category and description are empty and the form is collapsed. A rejected Save changes nothing. The type and the date are never reset. |
| UserPreferences.EncodeTheme | app/src/main/java/com/dockix/myapplication/data/preferences/UserPreferences.kt:64-69 | writes 0, 1 or 2, and decoding that gives the same mode back. |
| UserPreferences.DecodeTheme | app/src/main/java/com/dockix/myapplication/data/preferences/UserPreferences.kt:40-46 | every int other than 1 (LIGHT) or 2 (DARK) decodes to SYSTEM. |
| UserPreferences.ThemeCodeRoundTrip | app/src/main/java/com/dockix/myapplication/data/preferences/UserPreferences.kt:93-95 | re-encoding a decoded int gives it back exactly when it is 0, 1 or 2. |
| UserPreferences.EncodeLanguage | app/src/main/java/com/dockix/myapplication/data/preferences/UserPreferences.kt:78-82 | writes "en" or "ru", and decoding that gives the same language back. |
| UserPreferences.DecodeLanguage | app/src/main/java/com/dockix/myapplication/data/preferences/UserPreferences.kt:52-58 | only "ru" decodes to RUSSIAN. Every other string decodes to ENGLISH. |
| UserPreferences.LanguageCodeRoundTrip | app/src/main/java/com/dockix/myapplication/data/preferences/UserPreferences.kt:98-99 | re-encoding a decoded string gives it back exactly when it is "en" or "ru". |
| UserPreferences.EncodingsInjective | app/src/main/java/com/dockix/myapplication/data/preferences/UserPreferences.kt:64-82 | distinct modes, and distinct languages, are stored as distinct values. |
| UserPreferences.LoadThemeMode | app/src/main/java/com/dockix/myapplication/data/preferences/UserPreferences.kt:40-47 | a missing theme key means SYSTEM. Otherwise the mode is the stored int decoded. |
| UserPreferences.LoadAppLanguage | app/src/main/java/com/dockix/myapplication/data/preferences/UserPreferences.kt:52-59 | a missing language key or a stored null means ENGLISH. Otherwise the language is the stored string decoded. |
| UserPreferences.StoreRoundTrip | app/src/main/java/com/dockix/myapplication/data/preferences/UserPreferences.kt:64-86 | loading after a write gives back what was written. |
| UserPreferences.UserPreferences.constructor | app/src/main/java/com/dockix/myapplication/data/preferences/UserPreferences.kt:20-35 | both exposed values are loaded from the stored preferences. |
| UserPreferences.UserPreferences.SetThemeMode | app/src/main/java/com/dockix/myapplication/data/preferences/UserPreferences.kt:64-73 | writes only the theme key, then exposes the mode. The language key and language value are unchanged, and the exposed values keep matching the file. |
| UserPreferences.UserPreferences.SetAppLanguage | app/src/main/java/com/dockix/myapplication/data/preferences/UserPreferences.kt:78-86 | writes only the language key, then exposes the language. The theme is unchanged. |
| BudgetModels.NewTransaction | app/src/main/java/com/dockix/easymoney/models/models.kt:11-21 | the defaults: a fresh UUID, with date, createdAt and updatedAt all at now. |
| BudgetModels.NewCategory | app/src/main/java/com/dockix/easymoney/models/models.kt:24-30 | the defaults: icon "default_icon" and colour "#000000". |
| BudgetModels.NewAccount | app/src/main/java/com/dockix/easymoney/models/models.kt:33-40 | the defaults: currency "RUB", icon "default_icon", and not the default account. |
| BudgetModels.NewBudget | app/src/main/java/com/dockix/easymoney/models/models.kt:43-50 | the defaults: starts now, with no end date. |
| BudgetRepository.AccountIndex | app/src/main/java/com/dockix/easymoney/repository/repository.kt:115 | the first account with that id, or −1 exactly when there is none. |
| BudgetRepository.TransactionIndex | app/src/main/java/com/dockix/easymoney/repository/repository.kt:66 | the first transaction with that id, or −1 exactly when there is none. |
| BudgetRepository.Applied | app/src/main/java/com/dockix/easymoney/repository/repository.kt:54-58 | income adds the amount, expense subtracts it, and a transfer leaves the balance. |
| BudgetRepository.Reversed | app/src/main/java/com/dockix/easymoney/repository/repository.kt:80-84 | income subtracts the amount, expense adds it, and a transfer leaves the balance. |
| BudgetRepository.ReversedUndoesApplied | app/src/main/java/com/dockix/easymoney/repository/repository.kt:80-84 | the reversal cancels the booking exactly, in either order. |
| BudgetRepository.WithBalance | app/src/main/java/com/dockix/easymoney/repository/repository.kt:113-121 | only the balance of the first matching account changes. Every other account and field, and the list length, stay the same. |
| BudgetRepository.Credit | app/src/main/java/com/dockix/easymoney/repository/repository.kt:53-60 | books the transaction on the first account with its account id. An unknown account leaves the list unchanged. |
| BudgetRepository.Debit | app/src/main/java/com/dockix/easymoney/repository/repository.kt:79-86 | cancels the booking on the first account with that id. An unknown account leaves the list unchanged. |
| BudgetRepository.WithoutId | app/src/main/java/com/dockix/easymoney/repository/repository.kt:87 | removes every transaction with that id, keeps every other one as often as it occurs, and keeps their order. |
| BudgetRepository.CreditChangesTotalBySignedAmount | app/src/main/java/com/dockix/easymoney/repository/repository.kt:53-60 | booking on a known account changes the sum of all balances by exactly the signed amount. |
| BudgetRepository.DebitUndoesCredit | app/src/main/java/com/dockix/easymoney/repository/repository.kt:79-86 | cancelling a booking restores every account exactly. |
| BudgetRepository.WithoutIdAppend | app/src/main/java/com/dockix/easymoney/repository/repository.kt:87 | removing the id of a just-appended transaction with a fresh id gives back the old list. |
| BudgetRepository.InitialCategories | app/src/main/java/com/dockix/easymoney/repository/repository.kt:29-34 | four categories: one income and three expense, all with the default icon and colour. |
| BudgetRepository.InitialAccounts | app/src/main/java/com/dockix/easymoney/repository/repository.kt:35-38 | account "1" holds 10000 and is the default. Account "2" holds 25000 and is not. |
| BudgetRepository.InitialTotalBalance | app/src/main/java/com/dockix/easymoney/repository/repository.kt:35-38 | the initial accounts hold 35000 in total. |
| BudgetRepository.CloudBudgetRepository.constructor | app/src/main/java/com/dockix/easymoney/repository/repository.kt:28-39 | no transactions or budgets, plus the initial categories and accounts. |
| BudgetRepository.CloudBudgetRepository.GetTransactions | app/src/main/java/com/dockix/easymoney/repository/repository.kt:41-45 | the stored list itself. |
| BudgetRepository.CloudBudgetRepository.GetCategories | app/src/main/java/com/dockix/easymoney/repository/repository.kt:91-94 | the stored list itself. |
| BudgetRepository.CloudBudgetRepository.GetAccounts | app/src/main/java/com/dockix/easymoney/repository/repository.kt:102-105 | the stored list itself. |
| BudgetRepository.CloudBudgetRepository.GetBudgets | app/src/main/java/com/dockix/easymoney/repository/repository.kt:123-126 | the stored list itself. |
| BudgetRepository.CloudBudgetRepository.UpdateAccountBalance | app/src/main/java/com/dockix/easymoney/repository/repository.kt:113-121 | true exactly when some account has the id. Only that account's balance changes. |
| BudgetRepository.CloudBudgetRepository.AddTransaction | app/src/main/java/com/dockix/easymoney/repository/repository.kt:47-62 | always appends the transaction and returns true exactly when its account exists. It books the transaction on that account; an unknown account leaves the balances alone, but the transaction stays in the list. |
| BudgetRepository.CloudBudgetRepository.UpdateTransaction | app/src/main/java/com/dockix/easymoney/repository/repository.kt:64-72 | replaces only the first transaction with the id. It returns false with no change when none exists, and the accounts are untouched. |
| BudgetRepository.CloudBudgetRepository.DeleteTransaction | app/src/main/java/com/dockix/easymoney/repository/repository.kt:74-89 | returns false with no change when the id is absent or its account is unknown. Otherwise it cancels the first match's booking once and removes every transaction with that id. |
| BudgetRepository.CloudBudgetRepository.AddCategory | app/src/main/java/com/dockix/easymoney/repository/repository.kt:96-100 | appends the category, changes nothing else, and returns true. |
| BudgetRepository.CloudBudgetRepository.AddAccount | app/src/main/java/com/dockix/easymoney/repository/repository.kt:107-111 | appends the account, changes nothing else, and returns true. |
| BudgetRepository.CloudBudgetRepository.AddBudget | app/src/main/java/com/dockix/easymoney/repository/repository.kt:128-132 | appends the budget, changes nothing else, and returns true. |
| BudgetRepository.AddThenDeleteRestores | app/src/main/java/com/dockix/easymoney/repository/repository.kt:47-89 | adding a transaction with a fresh id on a known account and then deleting it succeeds. It restores the transaction list and every balance. |
| AddTransactionScreen.ValidateInput | app/src/main/java/com/dockix/easymoney/AddTransactionActivity.kt:328-340 | when validation passes, the amount text is non-empty and parses to a positive number, the description is non-empty, and both a category and an account are selected. |
| AddTransactionScreen.ValidateInputRejects | app/src/main/java/com/dockix/easymoney/AddTransactionActivity.kt:328-340 | an empty or unparseable amount, an empty description, or a missing category or account fails validation. With all of them present, validation passes exactly when the amount is positive. |
| AddTransactionScreen.FilterCategories | app/src/main/java/com/dockix/easymoney/AddTransactionActivity.kt:182-184 | TRANSFER shows every category. Any other type shows exactly its own categories, each as often as stored, in stored order. |
| AddTransactionScreen.DefaultAccountId | app/src/main/java/com/dockix/easymoney/AddTransactionActivity.kt:98 | the first default account's id, or the first account's id when none is the default. |
| AddTransactionScreen.FreshRepositoryDefaultsToCash | app/src/main/java/com/dockix/easymoney/AddTransactionActivity.kt:97-99 | with a new repository, account "1" is selected. |
| AddTransactionScreen.FreshRepositoryCategoryCounts | app/src/main/java/com/dockix/easymoney/AddTransactionActivity.kt:182-184 | with a new repository, income offers 1 category, expense 3 and transfer all 4. |
| AddTransactionScreen.AddTransactionScreen.constructor | app/src/main/java/com/dockix/easymoney/AddTransactionActivity.kt:80-88 | expense selected, nothing chosen, nothing loaded, and loading. |
| AddTransactionScreen.AddTransactionScreen.LoadData | app/src/main/java/com/dockix/easymoney/AddTransactionActivity.kt:91-105 | loads the repository's lists. It selects the default account when an account exists and otherwise leaves the selection as it was, then ends loading. |
| AddTransactionScreen.AddTransactionScreen.ShownCategories | app/src/main/java/com/dockix/easymoney/AddTransactionActivity.kt:182-184 | the shown list is the category filter applied to the loaded categories and the selected type: all of them for TRANSFER, otherwise exactly those of the selected type, each as often as loaded, in loaded order. |
| AddTransactionScreen.AddTransactionScreen.OnTypeClick | app/src/main/java/com/dockix/easymoney/AddTransactionActivity.kt:139-158 | selects the type and changes nothing else. |
| AddTransactionScreen.AddTransactionScreen.OnCategoryClick | app/src/main/java/com/dockix/easymoney/AddTransactionActivity.kt:194-199 | selects that category and changes nothing else. |
| AddTransactionScreen.AddTransactionScreen.OnAccountClick | app/src/main/java/com/dockix/easymoney/AddTransactionActivity.kt:214-219 | selects that account and changes nothing else. |
| AddTransactionScreen.AddTransactionScreen.OnTextChange | app/src/main/java/com/dockix/easymoney/AddTransactionActivity.kt:162-175 | replaces the amount and description text and changes nothing else. |
| AddTransactionScreen.AddTransactionScreen.OnAddClick | app/src/main/java/com/dockix/easymoney/AddTransactionActivity.kt:237-250 | reports whether validation passed. Neither the screen nor the repository changes, because the add launches nothing (lines 342-372). |

## Left out

- Floating point: amounts and balances are exact reals. No rounding is modelled, and neither are NaN or infinite values from `toDoubleOrNull`.
- Coroutines, `Flow` and concurrency. Each collector is one method call that performs one emission. In the source, `init` launches two collectors, and every call of `getTransactionsByType` or `getAllTransactions` launches one more `_transactions` collector that is never cancelled. These collectors accumulate and race on `_transactions`: after each table change, whichever emits last wins. The model does not capture that race.
- LedgerViewModel.TransactionViewModel.GetTransactionsByType: the contract covers one emission of the new collector. At the next table change, the `init` collector of the full list (or an earlier filtered one) may overwrite the filtered list.
- LedgerViewModel.TransactionViewModel.GetAllTransactions: likewise covers one emission. An earlier filtered collector may overwrite the full list at the next table change.
- Sync timing: the service's endless loop, the 15-minute delay, `SupervisorJob` and `cancel` are not modelled. Only one cycle is.
- SyncService.SyncService.SyncDataWithCloud: the source writes each row back in a separately launched coroutine. A concurrent user edit made between the snapshot and a write is then overwritten by the snapshot copy. The model runs the writes one after another with no edit in between, so it does not capture that loss.
- SyncService.SyncService.SyncDataWithCloud: `interruptAfter` stands for an exception caught by the cycle's handler. Where inside the cycle it is thrown is not modelled beyond the number of writes already issued.
- The simulated network delays of the cloud repository, and its returning the live mutable lists. Callers that hold a returned list and see later changes (aliasing) are not modelled. The getters return values.
- LedgerDao.TransactionDao.InsertTransaction: does not model the 64-bit id limit, where SQLite fails with SQLITE_FULL.
- LedgerDao.GetAllTransactions: rows with equal dates come out ordered by smaller id. SQL leaves that order unspecified, so the contracts promise only non-increasing dates.
- LedgerDao.GetUnsyncedTransactions: the query has no ORDER BY, so no order is promised.
- SyncService.SyncService.SyncDataWithCloud: the model's snapshot lists the unsynced rows newest first. When a cycle is cut short after n writes, the model therefore fixes which n rows were written. In the source the query has no ORDER BY, so it could be any n rows of the snapshot.
- Updating or deleting a missing id is a silent no-op, and inserts are not validated. The model does the same and has no not-found or validation error.
- UserPreferences.UserPreferences: the preference file is modelled as one map of ints and one of strings. Reading a key stored with the other type (a `ClassCastException` in Android) is therefore not possible in the model. Persisting to disk is not modelled beyond these maps.
- BudgetModels.NewTransaction: the three `Date()` defaults are taken as one instant `now`, although the source reads the clock three times.
- AddTransactionScreen.AddTransactionScreen.OnAddClick: the source's `addTransaction` casts the repository to an activity. That cast always gives null, so no coroutine is launched, the repository is never called and the success callback never runs. The model states exactly that.
- Android lifecycle logging, toasts, navigation and all Compose layout and animation.
