# Finance tracker core, modelled in Dafny

This project models the core of a personal-finance Android application. Users record
income and expense transactions, file them under their own categories, and see a
dashboard of totals. The data lives in a remote document store with two collections,
`transactions` and `categories`.

The model covers:

- **Records** (`model.dfy`): `Transaction` and `Category` with their default values, and the two transaction types.
- **Repositories** (`transaction_repository.dfy`, `category_repository.dfy`): classes holding each collection as a map from document id to record.
  - Writes are upserts keyed by the record's id.
  - Batch updates and batch deletes are built in a loop and committed as one unit.
  - Queries filter by owner and category. Transactions come back oldest first.
- **Dashboard** (`dashboard.dfy`, `ordering.dfy`): income and expense totals, the balance, and the five newest transactions. "Newest" uses a stable descending sort on the date.
- **State holders** (`transaction_view_model.dfy`, `category_view_model.dfy`, the dashboard class): how snapshots, stream errors and failed mutations change the cached UI state.
  - The category-deletion cascade first deletes or reassigns the category's transactions in one batch, then deletes the category.
  - The category delete is skipped when the batch fails.
- **Screens** (`categories_screen.dfy`, `add_transaction_screen.dfy`, `edit_transaction_screen.dfy`, `sign_up_screen.dfy`):
  - the delete dialog, which chooses the cascade's inputs;
  - the validators of the add form, and the record its Save builds;
  - the edit form, which finds its transaction again on every recomposition, and the copy its Save writes;
  - sign-up validation.
- **Kotlin library behaviour** the core relies on (`text.dfy`, `numbers.dfy`):
  - `isBlank` and `trim`, with the JVM's whitespace set;
  - the amount pattern `^\d*\.?\d+$`;
  - the decimal subset of `toDoubleOrNull`.

Everything outside the application is a parameter of the operation that uses it:

- whether a remote call throws, and the exception's message (`fault: Option<Fault>`);
- the signed-in user (`Option<string>`);
- generated UUIDs and the clock;
- the result of the platform's e-mail pattern.

Amounts are exact `real` numbers. A transaction's `type` field is named `kind`, because
`type` is a Dafny keyword.

Listener callbacks become methods that the store calls. Each takes the snapshot, or the
error message (which may be null), as its argument.

Main results:

- **Stable sort.** `Ordering.NewestFirst` is a permutation of its input that is ordered
  newest first and keeps the input order among equal dates. `Ordering.StableSortIsUnique`
  shows these properties determine it.
- **Dashboard.** Totals are independent of snapshot order, the balance is the signed sum,
  and the recent list holds exactly the five newest transactions.
- **Cascade.** `CategoriesScreen.ConfirmedCascadeKeepsReferences` shows that the delete
  dialog's inputs never leave a transaction pointing at a deleted category, provided the cached
  transaction list is current. Without that proviso, a transaction added after the last
  snapshot keeps a dangling category id.

Behaviour of the code that a reader might not expect, which the model keeps:

- The category view model does not reject a reassignment to the category being deleted
  (`CategoryViewModel.handleCascadeAction`). Only the delete dialog keeps it out, because it
  never offers that category as a target.
- The edit screen saves any title, blank ones included, and any amount that parses,
  negative or zero ones included. The add screen allows neither.
- The edit screen preselects no category when the transaction's category id is not among
  the cached categories, so saving the untouched form writes an empty category id
  (`EditTransactionScreen.UntouchedSaveClearsDanglingCategory`).
- Adding a category trims its name. Editing stores the name as typed, which only has to be
  non-blank.
- The dashboard ignores listener errors and shows the totals of an empty list. The other
  state holders record the error.

## Model

| member | source | states |
|---|---|---|
| `Wrappers.CommitOutcome` | app/src/main/java/com/example/financetracker/data/repository/TransactionRepository.kt:59-64 | An awaited store call completes exactly when it does not throw; a throw hands its (possibly null) message to the caller |
| `Text.Trim` | app/src/main/java/com/example/financetracker/viewmodel/CategoryViewModel.kt:70 | `trim()` returns the middle part of the input between its leading and trailing whitespace, starts and ends with a non-whitespace character, and is empty exactly when the input is blank |
| `Text.LeadingSpace` | app/src/main/java/com/example/financetracker/viewmodel/CategoryViewModel.kt:70 | The leading whitespace that `trim()` drops is a blank prefix followed by a non-whitespace character or the end |
| `Text.TrailingSpace` | app/src/main/java/com/example/financetracker/viewmodel/CategoryViewModel.kt:70 | The trailing whitespace that `trim()` drops is a blank suffix preceded by a non-whitespace character or the start |
| `Text.TrimIdempotent` | app/src/main/java/com/example/financetracker/viewmodel/CategoryViewModel.kt:70 | Trimming an already trimmed name changes nothing |
| `Text.TrimKeepsBlankness` | app/src/main/java/com/example/financetracker/viewmodel/CategoryViewModel.kt:63-70 | A trimmed name is blank exactly when the original is, so the blank check and the trim agree |
| `Text.IsNotBlank` | app/src/main/java/com/example/financetracker/ui/transactions/AddTransactionScreen.kt:38 | `isNotBlank()` holds exactly when the text does not trim to nothing; it is the title check here and the Add and Save enable check of the category dialogs (CategoriesManagementScreen.kt lines 173 and 199) |
| `Numbers.AmountPatternIsRegex` | app/src/main/java/com/example/financetracker/ui/transactions/AddTransactionScreen.kt:39 | The amount matcher accepts exactly the strings of the form digits, an optional point, then at least one digit (`^\d*\.?\d+$`) |
| `Numbers.ParseDouble` | app/src/main/java/com/example/financetracker/ui/transactions/EditTransactionScreen.kt:135 | `toDoubleOrNull` rejects the empty string and yields a negative number only for a leading minus sign |
| `Numbers.PatternParses` | app/src/main/java/com/example/financetracker/ui/transactions/AddTransactionScreen.kt:164 | Every string of the amount shape parses with `toDoubleOrNull` to a non-negative number |
| `Numbers.IsAmountValid` | app/src/main/java/com/example/financetracker/ui/transactions/AddTransactionScreen.kt:39 | A valid amount parses to a positive number and starts with a digit or a point, so no sign is accepted |
| `Numbers.AmountValidIffNonZeroDigit` | app/src/main/java/com/example/financetracker/ui/transactions/AddTransactionScreen.kt:39 | An amount is valid exactly when it has the pattern's shape and one of its digits is not zero |
| `Numbers.AmountExamples` | app/src/main/java/com/example/financetracker/ui/transactions/AddTransactionScreen.kt:39 | ".5" and "12" are valid amounts; "", "5.", "-1", "1e3" and "0.0" are not |
| `Numbers.ParseExamples` | app/src/main/java/com/example/financetracker/ui/transactions/EditTransactionScreen.kt:135 | `toDoubleOrNull` reads "5." as 5, "-3" as -3, "12.5" as 12.5, and rejects "abc" |
| `Model.TransactionTypeHasTwoVariants` | app/src/main/java/com/example/financetracker/data/model/Transaction.kt:5-8 | Every transaction type is INCOME or EXPENSE, and the two differ |
| `Model.NewTransactionDefaults` | app/src/main/java/com/example/financetracker/data/model/Transaction.kt:10-19 | A default transaction is an uncategorised (`categoryId == ""`) expense of amount 0 with empty title, note and owner, keyed by the given id and dated at the given time |
| `Model.NewCategoryDefaults` | app/src/main/java/com/example/financetracker/data/model/Category.kt:5-10 | A default category has the given id, an empty name and owner, and color 0xFF2196F3 |
| `Ordering.NewestFirst` | app/src/main/java/com/example/financetracker/viewmodel/DashboardViewModel.kt:52 | `sortedByDescending { it.date }` is a permutation of its input with non-increasing dates that keeps the input order among transactions of the same date |
| `Ordering.StableSortIsUnique` | app/src/main/java/com/example/financetracker/viewmodel/DashboardViewModel.kt:52 | Any newest-first arrangement that keeps the input order on each date is the sorted list itself |
| `Dashboard.OfKindOfUniform` | app/src/main/java/com/example/financetracker/viewmodel/DashboardViewModel.kt:49-50 | Filtering by a kind keeps a list of only that kind whole and empties a list with none of it |
| `Dashboard.TotalIncome` | app/src/main/java/com/example/financetracker/viewmodel/DashboardViewModel.kt:49 | Only income counts: a list of income totals its amounts, a list of expenses totals zero |
| `Dashboard.TotalExpense` | app/src/main/java/com/example/financetracker/viewmodel/DashboardViewModel.kt:50 | Only expenses count: a list of expenses totals its amounts, a list of income totals zero |
| `Dashboard.TotalBalance` | app/src/main/java/com/example/financetracker/viewmodel/DashboardViewModel.kt:51 | Income alone gives a balance of its sum, expenses alone the negated sum |
| `Dashboard.RecentTransactions` | app/src/main/java/com/example/financetracker/viewmodel/DashboardViewModel.kt:52 | The recent list is the first min(5, n) transactions of the newest-first order |
| `Dashboard.IncomeAndExpenseCoverAll` | app/src/main/java/com/example/financetracker/viewmodel/DashboardViewModel.kt:49-50 | Income and expense totals together add up to the sum of all amounts: every transaction is counted in exactly one of them |
| `Dashboard.BalanceIsSignedSum` | app/src/main/java/com/example/financetracker/viewmodel/DashboardViewModel.kt:51 | The balance, income minus expense, is the sum of amounts taken positive for income and negative for expense |
| `Dashboard.TotalsOfConcat` | app/src/main/java/com/example/financetracker/viewmodel/DashboardViewModel.kt:49-50 | The totals of two lists joined are the sums of their totals |
| `Dashboard.TotalsIgnoreOrder` | app/src/main/java/com/example/financetracker/viewmodel/DashboardViewModel.kt:49-50 | Two snapshots with the same transactions in any order give the same income and expense totals |
| `Dashboard.DefaultTransactionChangesNoTotal` | app/src/main/java/com/example/financetracker/viewmodel/DashboardViewModel.kt:49-50 | Adding a default transaction (an expense of 0) changes neither total |
| `Dashboard.RecentTransactionsShape` | app/src/main/java/com/example/financetracker/viewmodel/DashboardViewModel.kt:52 | The recent list has min(5, n) transactions, is ordered newest first, and holds only transactions of the input |
| `Dashboard.RecentTransactionsStable` | app/src/main/java/com/example/financetracker/viewmodel/DashboardViewModel.kt:52 | For every date, the recent list's transactions of that date are the first ones of the input, in input order |
| `Dashboard.RecentTransactionsNewest` | app/src/main/java/com/example/financetracker/viewmodel/DashboardViewModel.kt:52 | No transaction left out of the recent list is newer than any transaction in it |
| `Dashboard.EmptyDashboard` | app/src/main/java/com/example/financetracker/viewmodel/DashboardViewModel.kt:48-52 | No transactions give zero income, expense and balance and an empty recent list |
| `Dashboard.DashboardExample` | app/src/main/java/com/example/financetracker/viewmodel/DashboardViewModel.kt:49-51 | Income 100 with expenses 40 and 10 give income 100, expense 50, balance 50 |
| `Dashboard.DashboardViewModel.constructor` | app/src/main/java/com/example/financetracker/viewmodel/DashboardViewModel.kt:28-30 | A new dashboard holds the default state (name "User", zero totals, nothing recent, loading) and listens only when a user is signed in |
| `Dashboard.DashboardViewModel.LoadDashboardData` | app/src/main/java/com/example/financetracker/viewmodel/DashboardViewModel.kt:32-46 | Loading is set first; with nobody signed in the method returns there, leaving it loading with no listener |
| `Dashboard.DashboardViewModel.OnUserDocument` | app/src/main/java/com/example/financetracker/viewmodel/DashboardViewModel.kt:36-39 | The user document sets only the name: its `name` field, or "User" when absent |
| `Dashboard.DashboardViewModel.OnTransactionsSnapshot` | app/src/main/java/com/example/financetracker/viewmodel/DashboardViewModel.kt:41-45 | A snapshot is processed; a listener error (no snapshot) is processed as the empty list |
| `Dashboard.DashboardViewModel.ProcessDashboardData` | app/src/main/java/com/example/financetracker/viewmodel/DashboardViewModel.kt:48-61 | Totals, balance and the recent list are replaced by those of the list and loading ends; the name is kept, and the balance equals income minus expense |
| `TransactionRepo.Put` | app/src/main/java/com/example/financetracker/data/repository/TransactionRepository.kt:59-64 | `document(id).set(t)` stores `t` at its id and leaves every other document as it was |
| `TransactionRepo.WithoutIds` | app/src/main/java/com/example/financetracker/data/repository/TransactionRepository.kt:89-96 | A batch delete leaves exactly the documents whose ids are not listed, unchanged |
| `TransactionRepo.WithCategory` | app/src/main/java/com/example/financetracker/data/repository/TransactionRepository.kt:80-87 | A batch category update keeps every document, sets `categoryId` on the listed ones and leaves the rest unchanged |
| `TransactionRepo.UpdateBatchOutcome` | app/src/main/java/com/example/financetracker/data/repository/TransactionRepository.kt:80-87 | A batch of field updates commits exactly when the call does not throw and every listed document exists |
| `TransactionRepo.PutIsUpsert` | app/src/main/java/com/example/financetracker/data/repository/TransactionRepository.kt:59-71 | Writing a transaction at its id stores it there, keeps one record per id and leaves every other document unchanged |
| `TransactionRepo.WithoutIdsRemovesExactly` | app/src/main/java/com/example/financetracker/data/repository/TransactionRepository.kt:89-96 | A batch delete removes exactly the listed ids and leaves the other documents unchanged |
| `TransactionRepo.WithCategoryChangesOnlyCategory` | app/src/main/java/com/example/financetracker/data/repository/TransactionRepository.kt:80-87 | A batch category update keeps the set of documents, changes only `categoryId` of the listed ones and leaves the others unchanged |
| `TransactionRepo.TransactionRepository.AddTransaction` | app/src/main/java/com/example/financetracker/data/repository/TransactionRepository.kt:59-64 | On success the record is upserted at its id; a throw leaves the collection unchanged |
| `TransactionRepo.TransactionRepository.UpdateTransaction` | app/src/main/java/com/example/financetracker/data/repository/TransactionRepository.kt:66-71 | The same upsert as adding; a throw leaves the collection unchanged |
| `TransactionRepo.TransactionRepository.DeleteTransaction` | app/src/main/java/com/example/financetracker/data/repository/TransactionRepository.kt:73-78 | On success only the given id is removed; a throw leaves the collection unchanged |
| `TransactionRepo.TransactionRepository.UpdateCategoryForTransactions` | app/src/main/java/com/example/financetracker/data/repository/TransactionRepository.kt:80-87 | The loop stages one category update per id; the batch commits all of them at once, or, on a throw or a missing document, none |
| `TransactionRepo.TransactionRepository.DeleteTransactions` | app/src/main/java/com/example/financetracker/data/repository/TransactionRepository.kt:89-96 | The loop stages one delete per id; the batch removes exactly the listed ids at once, or nothing on a throw |
| `TransactionRepo.TransactionRepository.Query` | app/src/main/java/com/example/financetracker/data/repository/TransactionRepository.kt:15-33 | The query returns each stored transaction that passes the filters exactly once, ordered by date ascending |
| `TransactionRepo.TransactionRepository.GetTransactions` | app/src/main/java/com/example/financetracker/data/repository/TransactionRepository.kt:15-33 | Exactly the user's stored transactions, each once, oldest first |
| `TransactionRepo.TransactionRepository.GetTransactionsByCategory` | app/src/main/java/com/example/financetracker/data/repository/TransactionRepository.kt:35-57 | Exactly the user's stored transactions of the category, each once, oldest first |
| `CategoryRepo.PutIsUpsert` | app/src/main/java/com/example/financetracker/data/repository/CategoryRepository.kt:35-47 | Writing a category at its id stores it there, keeps one record per id and leaves the others unchanged |
| `CategoryRepo.CategoryRepository.AddCategory` | app/src/main/java/com/example/financetracker/data/repository/CategoryRepository.kt:35-40 | On success the category is upserted at its id; a throw leaves the collection unchanged |
| `CategoryRepo.CategoryRepository.UpdateCategory` | app/src/main/java/com/example/financetracker/data/repository/CategoryRepository.kt:42-47 | The same upsert as adding; a throw leaves the collection unchanged |
| `CategoryRepo.CategoryRepository.DeleteCategory` | app/src/main/java/com/example/financetracker/data/repository/CategoryRepository.kt:49-54 | On success only the given id is removed; a throw leaves the collection unchanged |
| `CategoryRepo.CategoryRepository.GetCategories` | app/src/main/java/com/example/financetracker/data/repository/CategoryRepository.kt:16-33 | Exactly the categories stored with the given owner, each once |
| `TransactionVM.TransactionViewModel.constructor` | app/src/main/java/com/example/financetracker/viewmodel/TransactionViewModel.kt:32-37 | Listeners start only when a user is signed in; otherwise the state stays at its defaults |
| `TransactionVM.TransactionViewModel.LoadTransactions` | app/src/main/java/com/example/financetracker/viewmodel/TransactionViewModel.kt:39-40 | Loading is set before any snapshot arrives |
| `TransactionVM.TransactionViewModel.LoadCategories` | app/src/main/java/com/example/financetracker/viewmodel/TransactionViewModel.kt:58-62 | Registers the categories listener without touching the state |
| `TransactionVM.TransactionViewModel.OnTransactionsSnapshot` | app/src/main/java/com/example/financetracker/viewmodel/TransactionViewModel.kt:49-53 | The cached list becomes the snapshot sorted newest first (empty when there is none) and loading ends; the cache stays a stable newest-first permutation of the last snapshot |
| `TransactionVM.TransactionViewModel.OnTransactionsError` | app/src/main/java/com/example/financetracker/viewmodel/TransactionViewModel.kt:45-47 | A stream error sets the error and ends loading, keeping the cached lists |
| `TransactionVM.TransactionViewModel.OnCategoriesSnapshot` | app/src/main/java/com/example/financetracker/viewmodel/TransactionViewModel.kt:67-68 | A categories snapshot replaces only the categories |
| `TransactionVM.TransactionViewModel.OnCategoriesError` | app/src/main/java/com/example/financetracker/viewmodel/TransactionViewModel.kt:63-65 | A categories error sets only the error |
| `TransactionVM.TransactionViewModel.AddTransaction` | app/src/main/java/com/example/financetracker/viewmodel/TransactionViewModel.kt:73-83 | The store gets the upsert; a failure sets the error to the message or "Failed to add transaction" and changes no list |
| `TransactionVM.TransactionViewModel.UpdateTransaction` | app/src/main/java/com/example/financetracker/viewmodel/TransactionViewModel.kt:85-95 | The store gets the upsert; a failure sets the error to the message or "Failed to update transaction" and changes no list |
| `TransactionVM.TransactionViewModel.DeleteTransaction` | app/src/main/java/com/example/financetracker/viewmodel/TransactionViewModel.kt:97-107 | The id is removed; a failure sets the error to the message or "Failed to delete transaction" and changes no list |
| `CategoryVM.BulkStepFor` | app/src/main/java/com/example/financetracker/viewmodel/CategoryViewModel.kt:113-124 | No batch for an empty id list or a reassignment without a target; "delete" with ids deletes them, "reassign" moves them to the given target, which is not checked |
| `CategoryVM.Cascade` | app/src/main/java/com/example/financetracker/viewmodel/CategoryViewModel.kt:105-130 | The category is removed only when its delete succeeds and only after the bulk step committed; transactions are either untouched or carry the bulk step's whole effect; only a failure changes the error |
| `CategoryVM.CascadeDeletesTransactions` | app/src/main/java/com/example/financetracker/viewmodel/CategoryViewModel.kt:114-125 | Deleting with a non-empty id list removes exactly those transactions, leaves the rest unchanged, then deletes the category; when that delete fails the transactions stay deleted, the category stays, and the error is the failure's message or "Failed to delete category" |
| `CategoryVM.CascadeReassignsTransactions` | app/src/main/java/com/example/financetracker/viewmodel/CategoryViewModel.kt:119-125 | Reassigning with a target sets exactly the listed transactions' category to it, then deletes the category, with the same error as deleting when that delete fails; a listed id that is not stored fails the batch and changes nothing |
| `CategoryVM.CascadeWithoutBulkStep` | app/src/main/java/com/example/financetracker/viewmodel/CategoryViewModel.kt:113-125 | With no ids, or a reassignment without a target, no transaction changes and only the category delete runs: it removes the category, or leaves it and sets the failure's message or "Failed to delete category" |
| `CategoryVM.CascadeBulkFailure` | app/src/main/java/com/example/financetracker/viewmodel/CategoryViewModel.kt:111-128 | When the bulk step throws, both collections are untouched, so the category survives, and the error is the message or "Failed during cascade delete operation" |
| `CategoryVM.CascadeAcceptsDeletedCategoryAsTarget` | app/src/main/java/com/example/financetracker/viewmodel/CategoryViewModel.kt:119-123 | The view model accepts the deleted category as the target: the reassigned transactions end up referring to a category that is gone |
| `CategoryVM.CascadeLeavesNoDanglingReference` | app/src/main/java/com/example/financetracker/viewmodel/CategoryViewModel.kt:105-130 | When the ids cover the category's transactions and a reassignment has a target other than the category, no transaction refers to the category once it is deleted, whichever step fails |
| `CategoryVM.CategoryViewModel.constructor` | app/src/main/java/com/example/financetracker/viewmodel/CategoryViewModel.kt:36-46 | Loading starts; with nobody signed in it ends at once with "User not logged in." and no stream |
| `CategoryVM.CategoryViewModel.OnCategoriesSnapshot` | app/src/main/java/com/example/financetracker/viewmodel/CategoryViewModel.kt:52-56 | Each delivered list replaces the categories and ends loading |
| `CategoryVM.CategoryViewModel.OnCategoriesError` | app/src/main/java/com/example/financetracker/viewmodel/CategoryViewModel.kt:49-51 | A stream error sets the error and ends loading, keeping the list; the stream ends |
| `CategoryVM.CategoryViewModel.AddCategory` | app/src/main/java/com/example/financetracker/viewmodel/CategoryViewModel.kt:60-79 | With no user or a blank name, only the error is set; otherwise the trimmed name is stored under the user, and a failure sets the message or "Failed to add category" |
| `CategoryVM.CategoryViewModel.UpdateCategory` | app/src/main/java/com/example/financetracker/viewmodel/CategoryViewModel.kt:81-93 | A blank name only sets "Category name cannot be empty."; otherwise the record is upserted, and a failure sets the message or "Failed to update category" |
| `CategoryVM.CategoryViewModel.DeleteCategory` | app/src/main/java/com/example/financetracker/viewmodel/CategoryViewModel.kt:95-103 | The category is removed; a failure sets the message or "Failed to delete category" |
| `CategoryVM.CategoryViewModel.HandleCascadeAction` | app/src/main/java/com/example/financetracker/viewmodel/CategoryViewModel.kt:105-130 | Both collections and the error end up as the cascade function describes: the chosen bulk step, then the category delete unless the bulk step threw |
| `CategoryVM.CategoryViewModel.ClearError` | app/src/main/java/com/example/financetracker/viewmodel/CategoryViewModel.kt:132-134 | Only the error is reset |
| `CategoriesScreen.AssociatedTransactions` | app/src/main/java/com/example/financetracker/ui/categories/CategoriesManagementScreen.kt:94-95 | The associated transactions are exactly the cached ones filed under the category; with `AssociatedTransactionsIsFilter` they keep the cached order and repetitions |
| `CategoriesScreen.ReassignmentCandidates` | app/src/main/java/com/example/financetracker/ui/categories/CategoriesManagementScreen.kt:97-98 | The candidates are exactly the cached categories other than the one being deleted; with `ReassignmentCandidatesIsFilter` they keep the cached order, so `FirstCandidate` fixes the default target |
| `CategoriesScreen.AssociatedTransactionsIsFilter` | app/src/main/java/com/example/financetracker/ui/categories/CategoriesManagementScreen.kt:94-95 | `filter` distributes over concatenation and keeps a single transaction exactly when it is filed under the category, so order and repetitions of the cache are kept |
| `CategoriesScreen.ReassignmentCandidatesIsFilter` | app/src/main/java/com/example/financetracker/ui/categories/CategoriesManagementScreen.kt:97-98 | The same order- and repetition-preserving filter laws for the candidates |
| `CategoriesScreen.FirstCandidate` | app/src/main/java/com/example/financetracker/ui/categories/CategoriesManagementScreen.kt:219 | The default target, the first candidate, is the first cached category whose id differs from the deleted one |
| `CategoriesScreen.TransactionIds` | app/src/main/java/com/example/financetracker/ui/categories/CategoriesManagementScreen.kt:106 | The ids are those of the associated transactions, position by position |
| `CategoriesScreen.SelectedId` | app/src/main/java/com/example/financetracker/ui/categories/CategoriesManagementScreen.kt:283 | `selectedReassignCategory?.id` is present exactly when a target is selected, and is its id |
| `CategoriesScreen.ConfirmEnabled` | app/src/main/java/com/example/financetracker/ui/categories/CategoriesManagementScreen.kt:285 | Confirm is enabled exactly for "delete" or when a target is selected, so with associated transactions an enabled Confirm always issues a bulk step |
| `CategoriesScreen.TransactionIdsOfAssociated` | app/src/main/java/com/example/financetracker/ui/categories/CategoriesManagementScreen.kt:94-106 | An id is passed to the cascade exactly when a cached transaction of the category carries it |
| `CategoriesScreen.EditedCategory` | app/src/main/java/com/example/financetracker/ui/categories/CategoriesManagementScreen.kt:198 | Editing changes only the name, keeping id, color and owner |
| `CategoriesScreen.EnabledNamesAreAccepted` | app/src/main/java/com/example/financetracker/ui/categories/CategoriesManagementScreen.kt:170-200 | An enabled Add or Save never meets the view model's blank-name rejection |
| `CategoriesScreen.AddAndEditTreatSpacesDifferently` | app/src/main/java/com/example/financetracker/ui/categories/CategoriesManagementScreen.kt:196-199 | Adding " Food " stores "Food", but editing a name to " Food " stores it untrimmed |
| `CategoriesScreen.ConfirmedCascadeKeepsReferences` | app/src/main/java/com/example/financetracker/ui/categories/CategoriesManagementScreen.kt:93-115 | With a current transaction cache and a target whose id differs from the category's, a delete confirmed in the dialog never leaves a transaction referring to the deleted category |
| `CategoriesScreen.ConfirmAddCategory` | app/src/main/java/com/example/financetracker/ui/categories/CategoriesManagementScreen.kt:72-79 | The add dialog passes the typed name with color 0xFF6200EE; for a signed-in user and no failure the stored category is the trimmed, non-blank name in that color, owned by the user; otherwise only the error is set |
| `CategoriesScreen.ConfirmEditCategory` | app/src/main/java/com/example/financetracker/ui/categories/CategoriesManagementScreen.kt:82-91 | The edit dialog's Save is never rejected: the copy with only the name changed is upserted, or a failure sets the error |
| `CategoriesScreen.DeleteDialog.constructor` | app/src/main/java/com/example/financetracker/ui/categories/CategoriesManagementScreen.kt:217-219 | The dialog opens with the lists of lines 94-98 computed from the current caches, "delete transactions" chosen and, as target, the first candidate if any |
| `CategoriesScreen.DeleteDialog.OnCachesChanged` | app/src/main/java/com/example/financetracker/ui/categories/CategoriesManagementScreen.kt:93-99 | A recomposition recomputes both lists from the new caches and keeps the remembered option and target, which stays different from the deleted category even when a snapshot removed it |
| `CategoriesScreen.DeleteDialog.SelectOption` | app/src/main/java/com/example/financetracker/ui/categories/CategoriesManagementScreen.kt:231-242 | The radio buttons set the chosen action |
| `CategoriesScreen.DeleteDialog.SelectTarget` | app/src/main/java/com/example/financetracker/ui/categories/CategoriesManagementScreen.kt:263-270 | Only candidates can be chosen as the target |
| `CategoriesScreen.DeleteDialog.Confirm` | app/src/main/java/com/example/financetracker/ui/categories/CategoriesManagementScreen.kt:104-112 | Confirm (enabled unless reassigning without a target) runs the cascade on the ids of the latest associated transactions, with a target that is never the deleted category |
| `AddTransactionScreen.SaveEnabled` | app/src/main/java/com/example/financetracker/ui/transactions/AddTransactionScreen.kt:161 | An enabled Save has a title that does not trim to nothing, an amount that parses to a positive number, and a category |
| `AddTransactionScreen.FieldErrorShown` | app/src/main/java/com/example/financetracker/ui/transactions/AddTransactionScreen.kt:72 | A field's error shows only once it has been edited and only while it is invalid |
| `AddTransactionScreen.BuildTransaction` | app/src/main/java/com/example/financetracker/ui/transactions/AddTransactionScreen.kt:162-180 | No record is built when the user, the parsed amount or the category is missing; otherwise it carries the given id and time, the typed title and note, the parsed amount, the chosen type and category, and the user's id |
| `AddTransactionScreen.EnabledSaveBuildsValidTransaction` | app/src/main/java/com/example/financetracker/ui/transactions/AddTransactionScreen.kt:161-180 | An enabled Save by a signed-in user builds a record whose amount is the typed amount and positive, with a non-blank title, the chosen type and category, and the user's id |
| `AddTransactionScreen.AddTransactionForm.constructor` | app/src/main/java/com/example/financetracker/ui/transactions/AddTransactionScreen.kt:29-36 | The form starts empty, as an expense with no category, and shows no error although both fields are invalid |
| `AddTransactionScreen.AddTransactionForm.OnTitleChange` | app/src/main/java/com/example/financetracker/ui/transactions/AddTransactionScreen.kt:63-78 | Typing marks the title edited, so its error shows exactly when it is blank |
| `AddTransactionScreen.AddTransactionForm.OnAmountChange` | app/src/main/java/com/example/financetracker/ui/transactions/AddTransactionScreen.kt:80-95 | Typing marks the amount edited, so its error shows exactly when it is invalid |
| `AddTransactionScreen.AddTransactionForm.OnNoteChange` | app/src/main/java/com/example/financetracker/ui/transactions/AddTransactionScreen.kt:136-141 | The note follows the text field |
| `AddTransactionScreen.AddTransactionForm.OnTypeSelected` | app/src/main/java/com/example/financetracker/ui/transactions/AddTransactionScreen.kt:147-156 | The chips set the type |
| `AddTransactionScreen.AddTransactionForm.OnCategorySelected` | app/src/main/java/com/example/financetracker/ui/transactions/AddTransactionScreen.kt:123-130 | A menu item selects its category |
| `AddTransactionScreen.AddTransactionForm.OnCategoriesChanged` | app/src/main/java/com/example/financetracker/ui/transactions/AddTransactionScreen.kt:41-45 | The first category is selected only when none is selected and the list is not empty |
| `AddTransactionScreen.AddTransactionForm.Save` | app/src/main/java/com/example/financetracker/ui/transactions/AddTransactionScreen.kt:159-184 | An enabled Save adds the built record exactly when a user is signed in; otherwise nothing changes |
| `EditTransactionScreen.FindFirst` | app/src/main/java/com/example/financetracker/ui/transactions/EditTransactionScreen.kt:23 | `find` returns the first element whose key is the id, or nothing when none has it; the screen uses it for the transaction (by id) and for its initial category (line 38) |
| `EditTransactionScreen.SelectedCategoryId` | app/src/main/java/com/example/financetracker/ui/transactions/EditTransactionScreen.kt:136 | A selected category saves its own id, and no selection saves the empty category id |
| `EditTransactionScreen.EditedTransaction` | app/src/main/java/com/example/financetracker/ui/transactions/EditTransactionScreen.kt:133-138 | Save changes only title, amount, category and note: a selected category's id or "" for none, and an unparsable amount keeps the old one while a parsable one is taken without a positivity check |
| `EditTransactionScreen.UntouchedSaveIsIdentity` | app/src/main/java/com/example/financetracker/ui/transactions/EditTransactionScreen.kt:34-39 | Saving an untouched form writes the transaction back unchanged, when its amount text reads back and its category is found |
| `EditTransactionScreen.UntouchedSaveClearsDanglingCategory` | app/src/main/java/com/example/financetracker/ui/transactions/EditTransactionScreen.kt:38-39 | When the transaction's category id is not among the cached categories, saving the untouched form writes it back with an empty category id and nothing else changed |
| `EditTransactionScreen.EditReplacesOriginal` | app/src/main/java/com/example/financetracker/ui/transactions/EditTransactionScreen.kt:132-138 | A saved edit replaces the original document and adds none |
| `EditTransactionScreen.EditAmountExamples` | app/src/main/java/com/example/financetracker/ui/transactions/EditTransactionScreen.kt:135-136 | "-3" saves amount -3, "abc" keeps the old amount, and no category saves "" |
| `EditTransactionScreen.EditTransactionForm.constructor` | app/src/main/java/com/example/financetracker/ui/transactions/EditTransactionScreen.kt:34-39 | The first composition that finds the transaction starts the form from its title, amount text and note, with its category as both the effect key and the selection |
| `EditTransactionScreen.EditTransactionForm.OnTitleChange` | app/src/main/java/com/example/financetracker/ui/transactions/EditTransactionScreen.kt:69-74 | The title follows the text field |
| `EditTransactionScreen.EditTransactionForm.OnAmountChange` | app/src/main/java/com/example/financetracker/ui/transactions/EditTransactionScreen.kt:76-82 | The amount text follows the text field |
| `EditTransactionScreen.EditTransactionForm.OnNoteChange` | app/src/main/java/com/example/financetracker/ui/transactions/EditTransactionScreen.kt:122-127 | The note follows the text field |
| `EditTransactionScreen.EditTransactionForm.OnCategorySelected` | app/src/main/java/com/example/financetracker/ui/transactions/EditTransactionScreen.kt:103-118 | A menu item selects its category, or none for "No Category" |
| `EditTransactionScreen.EditTransactionForm.Recompose` | app/src/main/java/com/example/financetracker/ui/transactions/EditTransactionScreen.kt:23-46 | Each recomposition finds the transaction again by id. While absent, nothing but the "not found" state remains. On reappearing, the fields start afresh from the record found now. While present, title, amount and note are kept, the record is the current one, and the selection resets to the category of the current record's category id exactly when that category differs from the previous one |
| `EditTransactionScreen.EditTransactionForm.Save` | app/src/main/java/com/example/financetracker/ui/transactions/EditTransactionScreen.kt:129-141 | Only while the transaction is found: the edited copy of its current record is upserted through the view model; a failure only sets the error |
| `EditTransactionScreen.EditTransactionForm.Delete` | app/src/main/java/com/example/financetracker/ui/transactions/EditTransactionScreen.kt:153-159 | Only while the transaction is found: Delete removes exactly the edited transaction's id; a failure only sets the error |
| `EditTransactionScreen.OpenEditForm` | app/src/main/java/com/example/financetracker/ui/transactions/EditTransactionScreen.kt:23-32 | When the id is not in the cached list no form is produced; otherwise the form is present and edits the found transaction |
| `SignUpScreen.ErrorMessage` | app/src/main/java/com/example/financetracker/ui/auth/SignUpScreen.kt:30 | An error message is shown exactly in the Error state, and it is that state's message |
| `SignUpScreen.Utf16Length` | app/src/main/java/com/example/financetracker/ui/auth/SignUpScreen.kt:42 | A password's length counts UTF-16 units: one per character of the Basic Multilingual Plane, two per character beyond it |
| `SignUpScreen.Utf16LengthOfConcat` | app/src/main/java/com/example/financetracker/ui/auth/SignUpScreen.kt:42 | The length of a concatenation is the sum of the lengths, so each character contributes independently |
| `SignUpScreen.PasswordLengthExamples` | app/src/main/java/com/example/financetracker/ui/auth/SignUpScreen.kt:42-47 | "secret" is long enough, "short" is not, and three emoji are (six UTF-16 units) |
| `SignUpScreen.SignUpForm.constructor` | app/src/main/java/com/example/financetracker/ui/auth/SignUpScreen.kt:21-27 | The form starts empty with no errors |
| `SignUpScreen.SignUpForm.OnEmailChange` | app/src/main/java/com/example/financetracker/ui/auth/SignUpScreen.kt:74-80 | The e-mail follows the text field |
| `SignUpScreen.SignUpForm.OnPasswordChange` | app/src/main/java/com/example/financetracker/ui/auth/SignUpScreen.kt:92-99 | The password follows the text field |
| `SignUpScreen.SignUpForm.OnConfirmPasswordChange` | app/src/main/java/com/example/financetracker/ui/auth/SignUpScreen.kt:111-118 | The confirmation follows the text field |
| `SignUpScreen.SignUpForm.Validate` | app/src/main/java/com/example/financetracker/ui/auth/SignUpScreen.kt:32-57 | All three checks run, each sets or clears its own error with its own text, and the result is their conjunction, which holds exactly when no error is left |
| `SignUpScreen.SignUpForm.OnSignUpClick` | app/src/main/java/com/example/financetracker/ui/auth/SignUpScreen.kt:139-146 | The button, enabled only while not loading, requests sign-up with the e-mail and password exactly when validation succeeds |

## Left out

- Rendering, layout, navigation and formatting: the Compose UI, the currency and `%.2f` displays, and the screens AppNavGraph, MainActivity, Profile, Dashboard and TransactionsList are not part of this model.
- Authentication: AuthRepository, AuthViewModel and its clean-up of user data are not part of this model. The signed-in user is an `Option<string>` parameter, and sign-up is modelled up to the request the screen issues.
- Concurrency: coroutines, snapshot-listener timing and interleavings are not modelled. Every call runs to completion in sequence.
  - Firestore delivers listener callbacks in an order these methods do not constrain.
  - The category delete that the cascade launches without awaiting is modelled as a sequential call with its own fault.
- Listener registration and removal (`callbackFlow`, `awaitClose`) are not modelled; a `listening` flag records that a listener exists.
- `Double` arithmetic is not modelled. Amounts are exact, so rounding in `sumOf` and underflow in `toDoubleOrNull` are absent.
- Numbers.ParseDouble: reads an optional sign followed by decimal digits with an optional point. Exponents, `NaN`, `Infinity`, hexadecimal forms, type suffixes and surrounding whitespace are treated as unparsable.
- The e-mail address pattern is a platform regular expression. Its verdict is a boolean parameter of `Validate`.
- UUID generation and the clock are parameters (`id`, `now`, `newId`).
- EditTransactionScreen.EditTransactionForm.constructor: the initial amount text, `Double.toString()` of the amount, is a parameter. The platform's number rendering is not modelled.
- EditTransactionScreen.EditTransactionForm.Recompose: the amount text taken when the transaction reappears, `Double.toString()` of its amount, is a parameter for the same reason.
- The edit screen's dialog and menu visibility flags (`showDeleteDialog`, `isCategoryMenuExpanded`) are not modelled; `Delete` stands for confirming the dialog. The selection reset of `LaunchedEffect` runs after composition in the source; `Recompose` applies it at once.
- TransactionRepo.TransactionRepository.Query: among transactions with equal dates the order is left open; the store's tie order is not modelled.
- CategoryRepo.CategoryRepository.GetCategories: the store's result order is not modelled, only its contents.
- TransactionRepo.NotFoundMessage: the store's exact wording for an update of a missing document is not modelled; a placeholder text stands in for it.
- Snapshots are taken to hold records the store can decode; conversion failures in `toObjects` are not modelled.
- The color of a category is an unbounded integer; the 64-bit `Long` range is not enforced.
