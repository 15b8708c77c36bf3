# BizTrack in Dafny

BizTrack is a point-of-sale and bookkeeping app for small businesses. Staff
record sales and expenses, the catalog keeps stock counts, the owner approves
the people who join the business, and two screens derive figures from the
ledger: the daily summary and the 30-day progress report. All state sits in
an in-memory service over four collections: products, transactions, all
users, and the session user.

This project models that core and proves properties of the model:

- `Base` holds `Option`, `Result` and the sequence helpers the code leans on
  (`filter`, `find`, `findIndex`, `slice(0, n)`), each with its meaning
  proved.
- `Text` models JavaScript's `trim` (the exact ECMAScript white-space set)
  and an ASCII `toLowerCase`.
- `Types` holds the records of `types.ts` and the amount sums shared by both
  report screens.
- `MockDb` models the service. Each operation is first a function on the
  collections it reads, with its promise stated there. The `Store` class
  holds the four collections as fields, and its methods update them in place
  against those functions. `Store.Valid` is the invariant every method keeps:
  the session never holds a password, and no two accounts share an e-mail
  address.
- `Dashboard` is the daily summary: today's entries, sales, expenses, the
  estimated profit, the payment-method breakdown, and the low-stock and
  recent lists.
- `Reports` covers the 30-day window, the popularity tally (the `forEach`
  loop, written as a loop), the stable sort by count, the top three, the
  report profit and the inventory value.
- `TransactionEntry`, `AuthScreen` and `StockManager`: each form is a class
  whose handlers change its fields, plus a pure function that builds the
  record the submit hands over.
- `StaffManagement` holds the staff list, the pending/approved split and the
  status buttons each row offers.
- `App` is the shell: the session, the view, the loaded data, the blocked
  screen and the handlers that tie the screens to the store.

Conventions:

- JavaScript numbers are Dafny `real`, which is exact.
- Timestamps are integer milliseconds.
- `toISOString().split('T')[0]` equality is equality of the UTC day number
  `ts / 86400000`.
- `Date.now()`, the random uid and the answer to the confirmation dialog are
  parameters.
- An empty amount field is `None`.
- React effects are folded into the handlers that change what the effect
  depends on. Examples: the auto-amount effect runs inside `SelectProduct`
  and `SetQuantity`; the data refresh runs inside every handler that changes
  the user.
- A control the screen renders only in some state becomes a `requires` on
  its handler. Examples: the quantity field exists only on a sale with a
  product selected; the join-role picker exists only when joining.

Two figures called "profit" in the app are computed differently:

- The dashboard's daily estimate looks only at today's sales that carry an
  `itemId`. It skips unlinked sales entirely and never subtracts expenses.
  The 20% fallback applies only to a linked sale whose item is no longer in
  the catalog. So K100 and K50 sales without a product plus a K30 expense
  give an estimate of 0, because both sales are skipped.
  `Dashboard.DailySummaryExample` proves this figure, and also the 30 that
  the same sales give when they name an item that is no longer in the
  catalog.
- The report's profit is plainly sales minus expenses over the window
  (`Reports.ComputeStats`, `Reports.ReportProfitExample`).

The shell reloads data only for a user whose business name is not empty.
Registration checks the raw fields before trimming them, so a business name
of blanks is saved as "". Signing in to such an account keeps whatever the
previous session had loaded, because logging out does not clear it. The
`App.AppState` handlers state this: with no business name, the loaded
transactions and products stay as they were.

## Model

| member | source | states |
|---|---|---|
| Base.Filter | services/mockDb.ts:28 | the result holds only kept elements of the input and every kept element of the input, and is no longer than the input |
| Base.FilterAppend | services/mockDb.ts:28 | filtering distributes over concatenation |
| Base.FilterKeepsAll | components/Reports.tsx:13 | when every element is kept, filtering returns the input itself |
| Base.FilterIdempotent | components/StaffManagement.tsx:20 | filtering twice with the same test equals filtering once |
| Base.FindIndex | services/mockDb.ts:33 | the index of the first hit, or `None` exactly when nothing hits |
| Base.Find | services/mockDb.ts:93 | an element that hits, namely the one at the first hit index, or `None` exactly when nothing hits |
| Base.Take | components/Dashboard.tsx:121 | `slice(0, n)`: the first `min(n, length)` elements |
| Text.TrimStart | components/AuthScreen.tsx:54 | a suffix of the input, what was dropped is all white space, and the result does not start with white space |
| Text.TrimEnd | components/AuthScreen.tsx:54 | a prefix of the input, what was dropped is all white space, and the result does not end with white space |
| Text.Trim | components/AuthScreen.tsx:54-58 | the result is a slice of the input with only white space outside it, and it neither starts nor ends with white space |
| Text.TrimIdempotent | components/AuthScreen.tsx:54-58 | trimming twice is trimming once |
| Text.TrimAllSpace | components/AuthScreen.tsx:54 | a string of white space only trims to the empty string |
| Text.Lower | services/mockDb.ts:93 | same length, each character lower-cased on its own |
| Text.LowerIsLowerCase | components/AuthScreen.tsx:56 | lower-casing yields a lower-case string and leaves one unchanged |
| Text.TrimKeepsLowerCase | components/AuthScreen.tsx:56 | trimming a lower-case string keeps it lower-case, so `toLowerCase().trim()` is a fixed point of lower-casing |
| Text.NormaliseNormalises | components/AuthScreen.tsx:56 | `toLowerCase().trim()` yields a lower-case string with no white space at either end, and those are exactly the strings it leaves unchanged |
| Types.QuantityOrOne | services/mockDb.ts:61 | `quantity \|\| 1`: an absent or zero quantity gives exactly 1, and any non-zero quantity is kept |
| Types.AmountSum | components/Dashboard.tsx:18 | the `reduce` sum of the amounts; not negative when no amount is |
| Types.SalesTotal | components/Dashboard.tsx:18 | the sum of the sale amounts; with `ExpenseTotal` it partitions `AmountSum` (`TotalsPartitionAmounts`) |
| Types.ExpenseTotal | components/Dashboard.tsx:19 | the sum of the expense amounts; with `SalesTotal` it partitions `AmountSum` (`TotalsPartitionAmounts`) |
| Types.AmountSumAppend | components/Dashboard.tsx:18 | the amount sum distributes over concatenation |
| Types.TotalsPartitionAmounts | components/Dashboard.tsx:18-19 | sales plus expenses is the sum of all amounts, since every entry is one or the other |
| Types.TotalsNonNegative | components/Dashboard.tsx:18-19 | with positive amounts, as the entry form records them, both totals are non-negative |
| MockDb.ProductsOf | services/mockDb.ts:26-29 | exactly the products whose business name equals the argument, compared exactly |
| MockDb.FirstWithId | services/mockDb.ts:33 | the index of the first product with that id, or `None` exactly when there is none |
| MockDb.Upsert | services/mockDb.ts:31-37 | the first product with the id is replaced at its own index and nothing else changes; with no such product the new one is appended and the old list is its prefix |
| MockDb.RemoveProduct | services/mockDb.ts:39-43 | no product with the id is left and every other product is kept |
| MockDb.TransactionsOf | services/mockDb.ts:46-49 | exactly the entries whose business name equals the argument, compared exactly |
| MockDb.Record | services/mockDb.ts:51-54 | the new entry is element 0, the old list follows unchanged, and the length grows by one |
| MockDb.RemoveTransaction | services/mockDb.ts:68-72 | no entry with the id is left and every other entry is kept |
| MockDb.SaleTarget | services/mockDb.ts:57-60 | a target exists only for a sale with a non-empty item id, and it is the first product with that id; there is none exactly when the entry is not such a sale or no product has the id |
| MockDb.ApplySale | services/mockDb.ts:56-65 | the target's stock drops by `quantity \|\| 1` with no lower bound; every other product and, with no target, the whole catalog is unchanged |
| MockDb.SaleStockExample | services/mockDb.ts:56-65 | a sale of 3 against a stock of 10 leaves 7, and against an empty catalog changes nothing |
| MockDb.Strip | services/mockDb.ts:80 | the session copy has no password and differs from the user in nothing else |
| MockDb.Register | services/mockDb.ts:117-157 | the errors in their order (duplicate e-mail compared exactly, then an existing owner for a new business, then no owner for a join), each as an if-and-only-if; a new business saves the candidate as an approved owner, a join saves it with its own role as pending |
| MockDb.AfterRegister | services/mockDb.ts:141-155 | exactly one account is appended on success; on every error the list is unchanged |
| MockDb.RegisterKeepsEmailsUnique | services/mockDb.ts:120-124 | registration keeps e-mail addresses unique |
| MockDb.RegisterKeepsOwnersUnique | services/mockDb.ts:126-134 | registration keeps one owner per business name (lower-cased) unless someone joins with the owner role |
| MockDb.RegisterKeepsEmailsNormalised | services/mockDb.ts:141-155 | registering a candidate whose e-mail is normalised keeps every stored e-mail normalised |
| MockDb.JoiningAsOwnerBreaksOwnerUniqueness | services/mockDb.ts:144-156 | the service does not check a joiner's role, so a second owner of the same business can join |
| MockDb.NewBusinessTwiceFails | services/mockDb.ts:126-133 | registering a business name a second time as a new business fails, whatever its case |
| MockDb.LoginLookup | services/mockDb.ts:93 | the first account whose lower-cased e-mail equals the lower-cased, trimmed input; `None` exactly when there is none |
| MockDb.Login | services/mockDb.ts:89-115 | the four errors in their fixed order, each as an if-and-only-if on the earlier checks passing; on success the stored account, with the requested role, the given password and a matching business name |
| MockDb.LowerTrimCommute | services/mockDb.ts:100 | lower-casing and trimming commute |
| MockDb.RegisterThenLogin | services/mockDb.ts:89-157 | when stored e-mails are normalised, a business owner registered from the typed inputs signs in with the same inputs and gets back exactly the saved account |
| MockDb.FirstWithUid | services/mockDb.ts:161 | the index of the first account with the uid, or `None` exactly when there is none |
| MockDb.UpdateStatus | services/mockDb.ts:159-164 | only the status of the first account with the uid changes, to the status asked for, with no transition check; an unknown uid changes nothing |
| MockDb.SessionAfterStatus | services/mockDb.ts:166-169 | the session is rewritten, without password, from the updated account only when its uid is the target's; it stays stripped |
| MockDb.UpdateStatusKeepsInvariants | services/mockDb.ts:159-171 | a status change keeps e-mails unique, owners unique and e-mails normalised |
| MockDb.SeedUsers | services/mockDb.ts:175-190 | the demo owner goes only into an empty user list, and the invariants survive |
| MockDb.SeedProducts | services/mockDb.ts:192-199 | the demo catalog goes only into an empty catalog |
| MockDb.SeedIdempotent | services/mockDb.ts:173-200 | seeding twice is seeding once, and a seeded collection is never empty |
| MockDb.SeedKeepsEmailsNormalised | services/mockDb.ts:175-190 | the demo owner's e-mail is normalised, so seeding keeps every stored e-mail normalised |
| MockDb.Store.constructor | services/mockDb.ts:15-18 | empty storage: every collection reads as its default |
| MockDb.Store.SaveProduct | services/mockDb.ts:31-37 | the catalog becomes `Upsert` of the old catalog |
| MockDb.Store.DeleteProduct | services/mockDb.ts:39-43 | the catalog becomes `RemoveProduct` of the old catalog |
| MockDb.Store.AddTransaction | services/mockDb.ts:51-66 | the ledger becomes `Record` of the old ledger and the catalog `ApplySale` of the old catalog |
| MockDb.Store.DeleteTransaction | services/mockDb.ts:68-72 | the ledger becomes `RemoveTransaction` of the old ledger; the catalog, and so every stock count, is unchanged |
| MockDb.Store.SetUser | services/mockDb.ts:77-85 | the session becomes the stripped user, or is cleared by `null` |
| MockDb.Store.RegisterUser | services/mockDb.ts:117-157 | returns `Register` of the old users and leaves `AfterRegister` of them, keeping the invariant |
| MockDb.Store.UpdateUserStatus | services/mockDb.ts:159-171 | users become `UpdateStatus` and the session `SessionAfterStatus` of the old state, keeping the invariant |
| MockDb.Store.SeedIfEmpty | services/mockDb.ts:173-200 | each collection is seeded on its own and only when empty |
| Dashboard.UtcDay | components/Dashboard.tsx:14-15 | the day number whose 24-hour UTC span contains the timestamp |
| Dashboard.UtcDayUnique | components/Dashboard.tsx:14-15 | that day is the only one whose span contains it |
| Dashboard.TodayTxs | components/Dashboard.tsx:15 | exactly the entries dated on now's UTC day, in ledger order |
| Dashboard.SalesToday | components/Dashboard.tsx:18 | today's sale total; not negative when no amount is; `RecordAddsToToday` states how a new entry moves it |
| Dashboard.ExpensesToday | components/Dashboard.tsx:19 | today's expense total; not negative when no amount is; `RecordAddsToToday` states how a new entry moves it |
| Dashboard.RecordAddsToToday | components/Dashboard.tsx:18-19 | a new entry raises today's sales by its amount exactly when it is a sale dated today, and today's expenses likewise |
| Dashboard.LineProfit | components/Dashboard.tsx:24-29 | one entry's share of the estimate; its cases are stated by `LineProfitCases` |
| Dashboard.ProfitSum | components/Dashboard.tsx:23-30 | the `reduce` over the shares; `ProfitSumAppend` and `ProfitSumNonNegative` state its properties |
| Dashboard.EstimatedProfit | components/Dashboard.tsx:21-30 | `estimatedProfit`: the fold over today's linked sales; `EstimatedProfitAdditive`, `EstimatedProfitOfOne` and `ExpenseLeavesProfit` state its properties |
| Dashboard.LineProfitCases | components/Dashboard.tsx:22-29 | an entry's share is 0 unless it is a sale with an item id; then the first matching product's margin times `quantity \|\| 1`, or a fifth of the amount when no product has the id |
| Dashboard.ProfitSumAppend | components/Dashboard.tsx:23-30 | the profit fold distributes over concatenation |
| Dashboard.LinkedFilterRedundant | components/Dashboard.tsx:22 | dropping the entries that are not linked sales does not change the fold |
| Dashboard.EstimatedProfitAdditive | components/Dashboard.tsx:21-30 | the estimate over two parts of the ledger is the sum of their estimates |
| Dashboard.EstimatedProfitOfOne | components/Dashboard.tsx:21-30 | one entry contributes its share when dated today and nothing otherwise |
| Dashboard.ExpenseLeavesProfit | components/Dashboard.tsx:21-30 | recording an expense never changes the estimate |
| Dashboard.LineProfitNonNegative | components/Dashboard.tsx:24-29 | an entry's share is non-negative when no product sells below cost and amounts and quantities are non-negative |
| Dashboard.ProfitSumNonNegative | components/Dashboard.tsx:21-30 | under the same conditions the whole estimate is non-negative |
| Dashboard.MethodTotal | components/Dashboard.tsx:32-36 | `breakdown[m]`: the sum of today's sale amounts taken through method `m`; not negative when no amount is |
| Dashboard.BreakdownSumsToSales | components/Dashboard.tsx:32-36 | the three payment-method totals add up to the sales total |
| Dashboard.LowStock | components/Dashboard.tsx:38 | exactly the products whose stock is at or below their minimum, in catalog order |
| Dashboard.Alerts | components/Dashboard.tsx:121 | the first five low-stock products, or all of them when there are fewer |
| Dashboard.RecentLogs | components/Dashboard.tsx:145 | the first eight of today's entries, or all of them when there are fewer |
| Dashboard.View | components/Dashboard.tsx:69-145 | the headline is the estimate for management and today's sales otherwise; management, and only management, sees today's sales and expenses and the `Alerts`; each breakdown component is its method's `MethodTotal` of today's entries, summing to today's sales; the logs are `RecentLogs`; management also sees the full low-stock count, and the alert list is that count capped at five |
| Dashboard.DailySummaryExample | components/Dashboard.tsx:18-30 | K100 and K50 unlinked sales and a K30 expense give sales 150, expenses 30 and an estimate of 0; the same sales naming a vanished item give 30 |
| Reports.Last30Days | components/Reports.tsx:13 | exactly the entries strictly newer than now minus 2592000000 ms, in order |
| Reports.WindowBoundary | components/Reports.tsx:13 | an entry exactly thirty days old is outside the window, one a millisecond younger inside |
| Reports.CountOf | components/Reports.tsx:19-23 | the reference count of window sales carrying a name, at most the window's length |
| Reports.CountStep | components/Reports.tsx:20-22 | one `forEach` step: only a sale with an item name changes the counter; that name's key exists with a count of at least 1, no other count changes, and the key order only grows at the end |
| Reports.Tally | components/Reports.tsx:18-23 | the counter after the whole `forEach`; `TallyCounts` states its keys and counts |
| Reports.TallyCounts | components/Reports.tsx:18-23 | the tally's keys are exactly the names some window sale carries (non-empty), each listed once, each with its number of sales |
| Reports.CountProducts | components/Reports.tsx:18-23 | the loop computes the tally, and so a key exactly for each sold name with its exact count |
| Reports.Entries | components/Reports.tsx:25 | one entry per key, in key order |
| Reports.InsertPermutes | components/Reports.tsx:26 | inserting adds exactly that entry to the multiset |
| Reports.InsertSorted | components/Reports.tsx:26 | inserting into a list sorted by count keeps it sorted |
| Reports.SortByCount | components/Reports.tsx:26 | the result is sorted by non-increasing count and is a permutation of the input |
| Reports.InsertStable | components/Reports.tsx:26 | inserting keeps the new entry ahead of the entries it ties with |
| Reports.SortStable | components/Reports.tsx:26 | entries that share a count keep their relative order |
| Reports.Popular | components/Reports.tsx:25-27 | `popular`: the first three entries of the sorted tally; `PopularTopThree` states what they are |
| Reports.PopularTopThree | components/Reports.tsx:25-27 | at most three entries, sorted by count; each is a real key with its exact count, at least 1; nothing left out was sold more often than anything kept |
| Reports.ComputeStats | components/Reports.tsx:12-30 | window sales and expenses, the popular list of the window, and profit equal to sales minus expenses |
| Reports.ProfitIsSignedSum | components/Reports.tsx:29 | the report profit is the sum of the sale amounts minus the expense amounts, entry by entry |
| Reports.ReportProfitExample | components/Reports.tsx:13-29 | K100 and K50 sales and a K30 expense in the window give a profit of K120 |
| Reports.PopularExample | components/Reports.tsx:18-27 | Milk sold once and Bread twice rank Bread with 2 ahead of Milk with 1; an expense is not counted |
| Reports.TallyExample | components/Reports.tsx:18-23 | the tally of that ledger keeps keys in first-seen order with counts 1 and 2 |
| Reports.SortExample | components/Reports.tsx:26 | a higher count moves ahead |
| Reports.InventoryValue | components/Reports.tsx:109 | the stock held at cost; `InventoryValueUpdate` and `SaleLowersInventoryValue` state how the store's changes move it |
| Reports.InventoryValueUpdate | components/Reports.tsx:109 | replacing one product changes the value by the difference of the two products' value at cost |
| Reports.SaleLowersInventoryValue | components/Reports.tsx:109 | recording a sale of a catalog product lowers the value at cost by its buying price times the quantity sold; otherwise the value is unchanged |
| TransactionEntry.Selected | components/TransactionEntry.tsx:40 | the first catalog product with the id; `None` exactly when none has it |
| TransactionEntry.AutoAmount | components/TransactionEntry.tsx:21-28 | with an id selected and found, the amount is the price times the quantity; otherwise it keeps its value |
| TransactionEntry.ClampQuantity | components/TransactionEntry.tsx:113 | never below one; any whole number from one up is kept, anything else gives one |
| TransactionEntry.BuildTransaction | components/TransactionEntry.tsx:36-57 | nothing for an empty or non-positive amount; otherwise the entry with the user's business and uid, the type, the method, the quantity only for a sale with a product selected (else 1), the item id exactly when one is selected, the product's name or the type's default name |
| TransactionEntry.EntryForm.constructor | components/TransactionEntry.tsx:13-18 | a sale, no amount, quantity 1, cash, nothing selected, empty note |
| TransactionEntry.EntryForm.SelectProduct | components/TransactionEntry.tsx:30-34 | the id is selected, the quantity goes back to 1 and the amount follows the product |
| TransactionEntry.EntryForm.SetQuantity | components/TransactionEntry.tsx:105-113 | the clamped quantity, with the amount following it |
| TransactionEntry.EntryForm.SetAmount | components/TransactionEntry.tsx:124-130 | typing sets the amount; only possible with no product selected |
| TransactionEntry.EntryForm.SetType | components/TransactionEntry.tsx:71-80 | the type is set, the product and amount are cleared, the quantity stays |
| TransactionEntry.EntryForm.SetMethod | components/TransactionEntry.tsx:149 | the payment method is set |
| TransactionEntry.EntryForm.SetNote | components/TransactionEntry.tsx:164 | the note is set |
| TransactionEntry.EntryForm.Submit | components/TransactionEntry.tsx:36-57 | the built entry; with a catalog product selected it is a sale of that product for price times quantity, and exists exactly when that is positive |
| TransactionEntry.SubmittedSaleLowersStock | components/TransactionEntry.tsx:42-54 | a sale submitted with a product selected lowers that product's stock, and no other, by the chosen quantity |
| AuthScreen.BuildCandidate | components/AuthScreen.tsx:47-62 | nothing when a field is empty (checked before trimming); otherwise names and phone trimmed, e-mail lower-cased and trimmed, password verbatim, owner for a new business and the picked role otherwise, free tier, pending |
| AuthScreen.CandidateEmailNormalised | components/AuthScreen.tsx:56 | the candidate's e-mail is already in the normalised form login compares against |
| AuthScreen.BlankNameAccepted | components/AuthScreen.tsx:47-54 | a name of blanks passes validation and is saved as the empty string |
| AuthScreen.AuthForm.constructor | components/AuthScreen.tsx:13-30 | the sign-in form, empty fields, login role owner, join role sales person |
| AuthScreen.AuthForm.SetMode | components/AuthScreen.tsx:88-96 | switching tabs sets the mode and clears the error |
| AuthScreen.AuthForm.PickLoginRole | components/AuthScreen.tsx:113-117 | any of the three roles can be picked to sign in |
| AuthScreen.AuthForm.FillLogin | components/AuthScreen.tsx:134-158 | typing sets the sign-in fields |
| AuthScreen.AuthForm.FillRegister | components/AuthScreen.tsx:199-248 | typing sets the registration fields |
| AuthScreen.AuthForm.SetNewBusiness | components/AuthScreen.tsx:177-184 | the join / new-business toggle, which also clears the error |
| AuthScreen.AuthForm.PickRole | components/AuthScreen.tsx:252-263 | only manager or sales person can be picked, and only when joining |
| AuthScreen.AuthForm.HandleLogin | components/AuthScreen.tsx:32-41 | the raw inputs go to login; the account comes back exactly when login succeeds, and its error is shown otherwise |
| AuthScreen.AuthForm.HandleRegister | components/AuthScreen.tsx:43-70 | an empty field stops it with the store untouched; otherwise the candidate is registered, and the saved account or the store's error comes back |
| AuthScreen.ScreenKeepsOwnersUnique | components/AuthScreen.tsx:256-259 | registration through this screen keeps owners unique, because the picker offers no owner role |
| AuthScreen.RegisteredOwnerCanSignIn | components/AuthScreen.tsx:52-66 | a business registered through the screen can sign in straight away as owner with exactly what was typed |
| App.ScreenRegistration | components/AuthScreen.tsx:52-66 | a registration from the screen keeps stored e-mails normalised, and a new owner it saves signs in with exactly what was typed |
| StockManager.CanEdit | components/StockManager.tsx:24 | owners and managers only |
| StockManager.DraftOf | components/StockManager.tsx:49-53 | the form fields copied from the product |
| StockManager.BuildProduct | components/StockManager.tsx:32-44 | nothing exactly when the name is empty or a price is 0; otherwise the edited id or a fresh one, the user's business, the form's fields and no category |
| StockManager.BelowCostNeverBlocks | components/StockManager.tsx:102-108 | selling below cost only warns: such a draft is still submitted |
| StockManager.EditRoundTrip | components/StockManager.tsx:36-53 | editing a product and saving it unchanged gives it back with the editor's business and no category |
| StockManager.StockForm.constructor | components/StockManager.tsx:13-22 | nothing being edited, form closed, default fields |
| StockManager.StockForm.ResetForm | components/StockManager.tsx:26-30 | default fields (minimum stock 5), nothing being edited, form closed |
| StockManager.StockForm.OpenAdd | components/StockManager.tsx:59-61 | editors open the form, which is empty with nothing being edited, because only `resetForm` closes it (`StockForm.Valid`) |
| StockManager.StockForm.StartEdit | components/StockManager.tsx:49-53 | the form opens on a copy of the product and remembers its id |
| StockManager.StockForm.SetDraft | components/StockManager.tsx:82-127 | typing sets the form fields |
| StockManager.StockForm.HandleSubmit | components/StockManager.tsx:32-47 | the built product, after which the form is reset; a refused draft leaves the form as it was |
| StaffManagement.StaffOf | components/StaffManagement.tsx:15 | exactly the accounts of the same business (exact name) other than the viewer's |
| StaffManagement.PendingUsers | components/StaffManagement.tsx:23 | exactly the pending accounts of the list, in order |
| StaffManagement.ApprovedUsers | components/StaffManagement.tsx:24 | exactly the approved accounts of the list, in order |
| StaffManagement.PartitionDisjoint | components/StaffManagement.tsx:23-24 | the pending and approved lists share no account, hold only accounts with their status, and every non-rejected account is in one |
| StaffManagement.PartitionCounts | components/StaffManagement.tsx:23-24 | every account is in exactly one of the three status lists |
| StaffManagement.RowActions | components/StaffManagement.tsx:63-102 | no button leads to pending, and a rejected account has none |
| StaffManagement.ActionsMoveForward | components/StaffManagement.tsx:63-102 | every offered change moves forward from pending through approved to rejected |
| StaffManagement.StaffPanel.constructor | components/StaffManagement.tsx:13-16 | the list is the staff of the viewer's business |
| StaffManagement.StaffPanel.HandleStatusChange | components/StaffManagement.tsx:18-21 | the store writes the status, the list is read again with the same filter, and the viewer's own session is untouched |
| App.BottomNav | App.tsx:181-203 | home and record for everyone, stock for owners and managers, staff for owners |
| App.MenuViews | components/Sidebar.tsx:62-90 | the bottom bar plus reports for owners and managers |
| App.AppState.CurrentScreen | App.tsx:68-73 | the sign-in screen exactly when nobody is signed in, the blocked screen exactly when the user is not approved, the main layout otherwise |
| App.AppState.constructor | App.tsx:21-37 | the store is seeded, the stored session is restored and its business's data loaded; the shell's invariant, including normalised stored e-mails, holds from then on |
| App.AppState.RefreshData | App.tsx:28-33 | the loaded data is the signed-in business's share of the store; with no business nothing is reloaded |
| App.AppState.HandleLogin | App.tsx:39-43 | the stripped user becomes the session, the user is signed in and the home view shown. With nobody signed in afterwards, or a business name of "", the loaded transactions and products are left as they were |
| App.AppState.HandleLogout | App.tsx:45-48 | the session is cleared; view and data are left as they were |
| App.AppState.HandleTransaction | App.tsx:50-54 | the entry is recorded, stock included, the data reloaded and the home view shown. With nobody signed in afterwards, or a business name of "", the loaded transactions and products are left as they were |
| App.AppState.HandleDeleteTransaction | App.tsx:56-61 | the entry is deleted only when confirmed, and stock is never restored; unconfirmed, the loaded data is left as it was. With nobody signed in afterwards, or a business name of "", the loaded transactions and products are left as they were |
| App.AppState.HandleProductUpdate | App.tsx:63-66 | the product is saved and the data reloaded. With nobody signed in afterwards, or a business name of "", the loaded transactions and products are left as they were |
| App.AppState.HandleProductDelete | App.tsx:134 | the product is deleted and the data reloaded. With nobody signed in afterwards, or a business name of "", the loaded transactions and products are left as they were |
| App.AppState.Recheck | App.tsx:94-100 | the session moves only to a stored account with the same uid that is now approved; otherwise user, session, view and loaded data are unchanged. With nobody signed in afterwards, or a business name of "", the loaded transactions and products are left as they were |
| App.AppState.SetView | App.tsx:182-199 | only a view the user's menus offer can be chosen |
| App.AppState.SignIn | App.tsx:68-69 | the user is signed in exactly when the store accepts the credentials, with the stripped session and the home view; a refused login keeps the view. With nobody signed in afterwards, or a business name of "", the loaded transactions and products are left as they were |
| App.AppState.SignUp | components/AuthScreen.tsx:43-70 | an empty field or a refused candidate leaves nobody signed in and the store unchanged; otherwise the users become `AfterRegister` of the old ones and the saved account is signed in, with the stripped session and the home view; a new owner lands in the main layout and can sign in again with exactly what was typed, a joiner on the blocked screen; a refused or incomplete registration keeps the view. With nobody signed in afterwards, or a business name of "", the loaded transactions and products are left as they were |

## Left out

- Storage is in memory. `localStorage`, JSON encoding and the parse of stored data are foreign I/O.
- `Date.now()`, `new Date()` and `Math.random()` are parameters: a transaction's id and time, a fresh product id, a new user's uid and "now".
- `confirm` is a boolean parameter of `HandleDeleteTransaction`. `alert`, `window.open` and `e.preventDefault()` are browser side effects and are left out.
- Rendering, styling, icons, `toLocaleString` and date formatting are presentation only and left out.
- The side menu is not modelled beyond the set of views it offers. Its open/close state and the feedback link are navigation chrome.
- React scheduling is left out: effect order, memoisation and re-render timing.
- The auto-amount effect's dependency on a changing `products` prop is left out. The form's catalog is fixed at creation.
- Text.Lower: maps only A–Z. JavaScript's full Unicode case mapping is not modelled.
- String-to-number parsing (`parseFloat`, `parseInt`, `Number`) is not modelled; inputs are already-parsed numbers. `NaN`, `Infinity` and floating-point rounding are not modelled either, because `real` is exact.
- HTML `required` and `min` attributes are left out, because the handlers do not rely on them. The model only checks what the handlers check.
- Reports.Entries and Reports.Popular: the order of `Object.entries` is first-insertion order. JavaScript lists integer-like keys first; that is not modelled.
- Reports.Tally, Reports.CountStep and Reports.CountProducts: `productCounts` starts as an empty map. In JavaScript, `{}` inherits from `Object.prototype`. An item named `toString` or `constructor` would first read an inherited function, so its count becomes a string and the sort comparator yields `NaN`. An item named `__proto__` is never recorded. The model counts every such name like any other.
- `toISOString` throws a range error for out-of-range timestamps. This is not modelled: every integer has a UTC day.
- The report screen receives a delete handler but never calls it. `HandleDeleteTransaction` is therefore modelled as the shell's own handler.
- The mode toggle's visual state and error text are left out. Errors are typed values, not messages.
- The blocked screen's greeting, and the staff rows' initials taken from `fullName[0]` or `email[0]`, are rendering only.
- MockDb.Store.GetProducts, GetTransactions, GetUser, GetAllUsers and LoginUser are read-only accessors with no contract of their own. Their meaning is the contracts of `ProductsOf`, `TransactionsOf` and `Login` they return.
