# Back office: ledger, sales, cash close, shifts and access rules

This project models the core of a small back office, written as an Express server over MySQL with a React client. The core covers:

- a double-entry ledger (posting and deleting journal transactions);
- sales (numbering, totals, stock taken out on recording and put back on cancelling, the daily report), together with the client's cart;
- cash-close reconciliation (physical counts in boxes and units, and the overwrite of stock with the count);
- a shift state machine with quantity snapshots;
- the organization, membership, user and inventory handlers with their permission checks, together with the token and role middlewares;
- the client's session state, navigation table and route guard.

Each request handler is one sequential step over abstract tables. Money is integer cents, so the 0.01 tolerance of the ledger and of the accounting form is one cent. JavaScript's operators are written out where the model needs them:

- `x || 0` and `x || 1`;
- `Math.floor` division;
- the truncating `%`;
- `split(sep)[1]`;
- the truthiness of strings.

A statement that binds an absent (`undefined`) value is refused by the MySQL driver, so the handler's `catch` answers 500. The model follows this for every request field it represents as an option. The fields it takes as always present, such as the fields of a sale line or of a counted item, are listed under "## Left out".

The modules follow the program:

- `Common`: options, HTTP outcomes, roles, the caller and the JavaScript operators;
- `Products`: the products table;
- `Ledger` and `AccountingForm`: `accountingRoutes.js` and `Accounting.jsx`;
- `SaleNumber`, `Sales` and `SalesCart`: `salesRoutes.js` and `Sales.jsx`;
- `CashClose` and `CashCount`: `cashCloseRoutes.js` and `CashClose.jsx`;
- `Shifts` and `ShiftPage`: `shiftsRoutes.js` and `Shifts.jsx`;
- `Directory`, `Users`, `Organizations` and `Inventories`: the users, organizations, memberships and inventories tables and their handlers;
- `Auth`: `middleware/auth.js`;
- `AuthContext`, `Layout` and `App`: the client's session, navigation bar and routes.

Handlers that update tables in place are methods of a class holding those tables, or methods over the shared `Directory` tables. Each states its whole new state. Their laws (round trips, idempotence, invariants) are lemmas about the specification functions the methods are proved against.

Foreign calls become parameters:

- `bcrypt.compare` becomes `matches` and `bcrypt.hash` becomes `hash`;
- `jwt.verify` becomes `verify`;
- the current date becomes `today`;
- the client's HTTP answers are given to the client methods, absent when the request failed.

Observations from reading the code:

- The login route signs a token with `{id, username, role}` and no `is_superuser` (server/src/routes/authRoutes.js:24-28). So the handlers' `is_superuser` branches are reached only by tokens issued elsewhere. The model takes the decoded claims as given.
- `requireRole` ignores the roles it is given (server/src/middleware/auth.js:43-46). Every role-guarded route is therefore open to any authenticated user.
- The membership add, update and remove handlers check no permission at all.
- The password change checks no permission either, although its comment names owners, superusers and the user themself.

## Model

| member | source | states |
|---|---|---|
| Common.OrOne | client/src/pages/CashClose.jsx:21 | `x \|\| 1` of a box size: never 0; absent and 0 give 1, anything else is kept |
| Common.SecondField | server/src/routes/salesRoutes.js:57 | `split(sep)[1]` is absent exactly when the separator does not occur, and contains no separator |
| Common.RemoveAt | client/src/pages/Sales.jsx:114-119 | filtering out index `i` drops exactly that element and keeps the others in order; an index out of range changes nothing |
| Common.FindById | client/src/pages/Sales.jsx:34 | `find` by id, shared by the cart and the session: the first element with that id, absent exactly when no element has it |
| Common.FirstOutside | server/src/routes/salesRoutes.js:80-92 | where a loop of inserts into a table with a foreign key stops: every element before the index has its key in the table, and the element at the index (when there is one) does not |
| Products.AddQuantity | server/src/routes/salesRoutes.js:88-91 | the relative quantity update changes only the named product, by exactly `delta`, and no other row |
| Products.SetQuantity | server/src/routes/cashCloseRoutes.js:38-42 | the absolute quantity update sets only the named product's quantity |
| Ledger.Balanced | server/src/routes/accountingRoutes.js:51-56 | the balance check: the debit and credit totals, absent amounts as 0, differ by at most one cent (definition; its agreement with the form is `AccountingForm.SubmitAgreesWithServer`) |
| Ledger.Change | server/src/routes/accountingRoutes.js:75-81 | the change a line makes to an account: credit − debit for liabilities, equity and revenue, debit − credit otherwise (definition; undone by `Ledger.PostThenReverse`) |
| Ledger.Posted | server/src/routes/accountingRoutes.js:68-84 | the balances after the posting loop, line by line in order (definition; its meaning is `Ledger.PostedAt`) |
| Ledger.Reversed | server/src/routes/accountingRoutes.js:105-111 | the balances after the deletion loop, row by row in order (definition; its meaning is `Ledger.ReversedAt`) |
| Ledger.RowsOfAt | server/src/routes/accountingRoutes.js:68-72 | one stored row per line, in order, with absent amounts stored as 0 |
| Ledger.AddToBalance | server/src/routes/accountingRoutes.js:83 | the named account's balance moves by the given change, every other account is untouched, and an unknown id changes nothing |
| Ledger.FirstMissing | server/src/routes/accountingRoutes.js:68-84 | the line where the posting loop stops, through `Common.FirstOutside`: the first line whose account does not exist, every earlier line naming an existing account, and `\|es\|` when all exist |
| Ledger.PostedAt | server/src/routes/accountingRoutes.js:68-84 | posting keeps the set of accounts and their kinds; each account moves by exactly the net change of the lines naming it (debit − credit for assets and expenses, credit − debit otherwise); unnamed accounts keep their balance and several lines on one account add up |
| Ledger.ReversedAt | server/src/routes/accountingRoutes.js:105-111 | the deletion loop moves each account back by exactly the net change its rows record |
| Ledger.RowNetOfRows | server/src/routes/accountingRoutes.js:69-81 | the stored rows record exactly the change the posting applied |
| Ledger.PostThenReverse | server/src/routes/accountingRoutes.js:76-81 | reversing the rows of a posting restores every balance |
| Ledger.OtherRows | server/src/routes/accountingRoutes.js:97-117 | rows of other transactions are neither read nor deleted by the deletion of `txId` |
| Ledger.OwnRows | server/src/routes/accountingRoutes.js:97-114 | the rows a posting over existing accounts stored are all read back by the deletion's join and all deleted |
| Ledger.LedgerStore.constructor | server/src/routes/accountingRoutes.js:47-124 | empty journal over a chart of accounts whose ids are all ≥ 1 (`AUTO_INCREMENT`, kept by `Valid`), with the id counter at 1 |
| Ledger.LedgerStore.Post | server/src/routes/accountingRoutes.js:47-91 | 400 with nothing written when the totals (absent amounts as 0) differ by more than one cent; 500 with nothing written when `date`, `description` or `reference` is absent; otherwise the transaction row is inserted and the lines are stored and applied in order; all lines over existing accounts give 201 with the new id; at the first line naming a missing account the foreign key refuses its row and the answer is 500, with the transaction row and the earlier lines stored and applied and no rollback |
| Ledger.LedgerStore.StoreLines | server/src/routes/accountingRoutes.js:68-84 | the posting loop stores and applies the lines in order up to, and not including, the first one whose account is missing, and reports whether there was one; the transaction rows and the id counter are untouched |
| Ledger.LedgerStore.StoreNext | server/src/routes/accountingRoutes.js:68-84 | one turn of the posting loop stated on what the loop has reached: line `i` is stored and applied exactly when it comes before the first missing account; otherwise nothing is written |
| Ledger.LedgerStore.StoreLine | server/src/routes/accountingRoutes.js:69-83 | one insert and update: succeeds exactly when the line's account exists; then the line's row is appended (absent amounts as 0) and its change applied; otherwise the foreign key refuses the row and nothing changes |
| Ledger.LedgerStore.PostAsWritten | server/src/routes/accountingRoutes.js:60-72 | as written (id read from `result.lastID`): 400 for unbalanced totals; 500 with nothing written when `date`, `description` or `reference` is absent; otherwise a balanced request inserts the transaction row, then fails at the first entry insert, so no line is stored or applied and the answer is 500 (201 only for an empty line list) |
| Ledger.LedgerStore.Delete | server/src/routes/accountingRoutes.js:94-124 | always 200; every joined row's change is reversed, then the transaction's rows and its row are deleted; nothing else changes |
| Ledger.LedgerStore.ReverseRows | server/src/routes/accountingRoutes.js:105-111 | the deletion loop moves each read row's account back by the change the row recorded, in order, and touches nothing else |
| Ledger.PostThenDelete | server/src/routes/accountingRoutes.js:47-124 | posting a balanced transaction over existing accounts and then deleting it leaves every balance, transaction and entry row as it was |
| Ledger.DeleteUnknown | server/src/routes/accountingRoutes.js:97-119 | deleting an id with no transaction and no rows succeeds and changes no balance, transaction or row |
| Ledger.ScenarioPosting | server/src/routes/accountingRoutes.js:51-84 | debiting cash and crediting revenue with 100.00 passes the balance check, names only existing accounts, and brings both balances to 100.00 |
| Ledger.LastIdDiscrepancy | server/src/routes/accountingRoutes.js:65 | a 100.00 cash/revenue posting fails with 500 as written, while the corrected posting gives 201, moves both balances to 100.00, and is undone by deletion |
| AccountingForm.SubmitAccepts | client/src/pages/Accounting.jsx:43-46 | the submit handler refuses lines whose totals differ by more than one cent (definition; see `AccountingForm.SubmitAgreesWithServer`) |
| AccountingForm.IsBalanced | client/src/pages/Accounting.jsx:99-101 | the button is enabled when the totals differ by less than one cent (definition; see `AccountingForm.ButtonStricterThanHandler`) |
| AccountingForm.ToRequest | client/src/pages/Accounting.jsx:52 | the body the form sends: one request line per form line with the same amounts, and an unchosen account, sent as the empty string, stands as id 0 and is refused at its line (see `AccountingForm.UnchosenMissesChart`) |
| AccountingForm.UnchosenMissesChart | client/src/pages/Accounting.jsx:52 | a line with no account chosen is refused at its line: the model's id 0 is in no chart, so the posting stops at or before that line with 500 |
| AccountingForm.TotalsAgree | client/src/pages/Accounting.jsx:99-100 | the form's totals are the totals the server computes from the sent lines |
| AccountingForm.SubmitAgreesWithServer | client/src/pages/Accounting.jsx:43-49 | the submit handler's check accepts exactly the lines the server's balance check accepts |
| AccountingForm.ButtonStricterThanHandler | client/src/pages/Accounting.jsx:101 | an enabled submit button implies the handler accepts; in cents the button is enabled exactly when the totals are equal |
| AccountingForm.OneCentGap | client/src/pages/Accounting.jsx:358 | at a gap of exactly one cent the handler accepts but the button is disabled |
| AccountingForm.InitialIsBalanced | client/src/pages/Accounting.jsx:15-18 | the form opens with two zero lines, which are balanced |
| AccountingForm.Form.constructor | client/src/pages/Accounting.jsx:15-18 | the form opens with the two zero lines |
| AccountingForm.Form.AddEntry | client/src/pages/Accounting.jsx:79-84 | appends one zero line and nothing else |
| AccountingForm.Form.RemoveEntry | client/src/pages/Accounting.jsx:86-91 | offered only above two lines (316); drops line `i` and keeps the rest in order, so at least two lines remain |
| AccountingForm.Form.UpdateEntry | client/src/pages/Accounting.jsx:93-97 | changes one field of line `i` only: the account as given, an amount as the parsed number or 0 |
| AccountingForm.Form.HandleSubmit | client/src/pages/Accounting.jsx:40-67 | sends the lines exactly when they are at most a cent apart; the form is reset after success and kept otherwise |
| SaleNumber.Format | server/src/routes/salesRoutes.js:58 | `V-` followed by `String(n)` padded with zeros to four characters (definition; inverted by `SaleNumber.ParseFormat`) |
| SaleNumber.Parse | server/src/routes/salesRoutes.js:57 | `parseInt` of what follows the first `-`, absent when there is no `-` or no leading digit (definition; see `SaleNumber.ParseFormat`) |
| SaleNumber.Next | server/src/routes/salesRoutes.js:52-59 | `V-0001` without a latest sale, `V-0NaN` when its number does not parse, the formatted successor otherwise (definition; see `SaleNumber.NextFollows`) |
| SaleNumber.LeadingDigits | server/src/routes/salesRoutes.js:57 | what `parseInt` reads: the longest prefix of digits |
| SaleNumber.Digits | server/src/routes/salesRoutes.js:58 | `String(n)` is a non-empty string of digits |
| SaleNumber.ValueOfDigits | server/src/routes/salesRoutes.js:57-58 | reading the digits of `n` gives back `n` |
| SaleNumber.ValueIgnoresZeros | server/src/routes/salesRoutes.js:58 | zero padding does not change the value read |
| SaleNumber.ParseFormat | server/src/routes/salesRoutes.js:57-58 | round trip: the numeric part of a formatted `V-nnnn` parses back to `n`, padded or not |
| SaleNumber.NextFollows | server/src/routes/salesRoutes.js:55-59 | an inventory's first sale is `V-0001` and each later one follows its predecessor |
| Sales.Latest | server/src/routes/salesRoutes.js:51-54 | the inventory's sale with the greatest id, absent exactly when the inventory has no sale |
| Sales.ItemsOf | server/src/routes/salesRoutes.js:109 | the lines of the item rows read back, in order |
| Sales.RowsOfAt | server/src/routes/salesRoutes.js:80-85 | one item row per submitted line of the sale, in order |
| Sales.FirstUnknown | server/src/routes/salesRoutes.js:80-92 | the line where the item loop stops, through `Common.FirstOutside`: the first line naming a product the stock table lacks, every earlier line naming an existing one, and `\|items\|` when all exist |
| Sales.DecrementedAt | server/src/routes/salesRoutes.js:80-92 | recording changes only quantities; each product loses exactly the quantity its lines carry, with no stock check; unnamed products are untouched |
| Sales.RestoredAt | server/src/routes/salesRoutes.js:112-117 | cancelling puts back exactly the quantity the read rows carry for each product |
| Sales.RecordThenCancelRestores | server/src/routes/salesRoutes.js:80-117 | putting back the rows of a recorded sale restores every quantity |
| Sales.TotalsSplit | server/src/routes/salesRoutes.js:62-68 | the totals are sums of the submitted subtotals, additive over any division of the lines |
| Sales.OtherSalesRows | server/src/routes/salesRoutes.js:109-120 | rows of other sales are neither read nor deleted by a cancellation |
| Sales.OwnSaleRows | server/src/routes/salesRoutes.js:109-120 | the rows a recording stored are all read back and all deleted by its cancellation |
| Sales.SalesWithoutAbsent | server/src/routes/salesRoutes.js:120 | deleting an id no sale has leaves the sales as they are |
| Sales.BucketsAddUp | server/src/routes/salesRoutes.js:172-191 | the six payment-method buckets' counts add up to `total_sales` and their amounts to the day's totals |
| Sales.AbsentMethodCountsNothing | server/src/routes/salesRoutes.js:172-184 | a method without a bucket had no sale that day |
| Sales.AbsentNameSellsNothing | server/src/routes/salesRoutes.js:148-161 | a product name without a line sold nothing that day |
| Sales.RowsInNone | server/src/routes/salesRoutes.js:140-145 | with no sale that day no item row is read |
| Sales.SalesStore.constructor | server/src/routes/salesRoutes.js:36-203 | empty sales and items over a stock table, with the id counter at 1 |
| Sales.SalesStore.Record | server/src/routes/salesRoutes.js:36-103 | 400 with nothing written without payment method, lines or inventory header; 500 with nothing written without an exchange rate; otherwise the sale row is stored, numbered after the inventory's latest sale, with the submitted subtotals as totals, and the lines are stored and taken out of stock in order; 201 when every product exists; at the first line naming a product the stock table lacks the foreign key refuses its row and the answer is 500, with the sale row and the earlier lines kept |
| Sales.SalesStore.DailyReport | server/src/routes/salesRoutes.js:130-203 | report date is the requested one or today; one line per product name sold that day, except the names `Object.prototype` carries (`toString`, `constructor`, `__proto__`, …), with Σ quantity and Σ subtotals, the stock of some product with that name (0 when none) and initial = final + sold; one bucket per method used; totals over the day's sales |
| Sales.SalesStore.ProductStats | server/src/routes/salesRoutes.js:148-161 | the grouping loop over a plain object gives one entry, with its sums, per name that `Object.prototype` does not carry, and none for a name it carries |
| Sales.SalesStore.ProductLines | server/src/routes/salesRoutes.js:163-169 | the stock lookup loop keeps the names and fills final and initial stock |
| Sales.SalesStore.PaymentBuckets | server/src/routes/salesRoutes.js:172-184 | the bucket loop gives one bucket per method with its sums and count |
| Sales.SalesStore.InsertItems | server/src/routes/salesRoutes.js:80-92 | the item loop stores each line and takes its quantity out of stock, in order, up to and not including the first line whose product is unknown, and reports whether there was one |
| Sales.SalesStore.InsertNext | server/src/routes/salesRoutes.js:80-92 | one turn of the item loop stated on what the loop has reached: line `i` is stored and taken out of stock exactly when it comes before the first unknown product; otherwise nothing is written |
| Sales.SalesStore.InsertItem | server/src/routes/salesRoutes.js:81-91 | one insert and update: succeeds exactly when the product exists; then the line's row is appended and its quantity taken out; otherwise the foreign key refuses the row and nothing changes |
| Sales.SalesStore.Cancel | server/src/routes/salesRoutes.js:106-127 | always 200; each of the sale's lines is put back, then the sale and (by cascade) its lines are deleted |
| Sales.SaleTotals | server/src/routes/salesRoutes.js:62-68 | the totals loop sums the subtotals |
| Sales.RecordThenCancel | server/src/routes/salesRoutes.js:36-127 | recording a sale with an exchange rate and cancelling its id leaves stock, sales and item rows as they were, also when an unknown product made the recording fail part-way |
| Sales.CancelUnknownChangesNothing | server/src/routes/salesRoutes.js:108-120 | cancelling an unknown id changes no quantity, sale or line |
| SalesCart.Find | client/src/pages/Sales.jsx:34 | `products.find` by id, through `Common.FindById`: the first product with that id, absent exactly when none has it |
| SalesCart.Line | client/src/pages/Sales.jsx:89-107 | the added line: price `\|\| 0`, subtotal = price·qty, Bs price = price·rate, Bs subtotal = Bs price·qty |
| SalesCart.QtyOfPositive | client/src/pages/Sales.jsx:38-40 | the cart's quantity of a product is 0 exactly when no line names it |
| SalesCart.RemoveAtLowers | client/src/pages/Sales.jsx:114-119 | removing a line never raises any product's quantity in the cart |
| SalesCart.Cart.constructor | client/src/pages/Sales.jsx:22-29 | empty cart, `pago_movil`, no product chosen, quantity 1; within stock |
| SalesCart.Cart.MaxStock | client/src/pages/Sales.jsx:32-43 | max(0, stock − quantity already in the cart), and 999 when nothing known is chosen |
| SalesCart.Cart.SelectProduct | client/src/pages/Sales.jsx:300 | choosing a product changes only the choice; the quantity typed before is kept |
| SalesCart.Cart.ChangeQuantity | client/src/pages/Sales.jsx:313-316 | the typed number (`\|\| 1`) capped at `getMaxStock`: never above it, equal to the typed number when that is within it; with a known product chosen the line can then be added exactly when the typed number and the remaining stock are both positive; nothing else changes |
| SalesCart.Cart.AddItem | client/src/pages/Sales.jsx:66-112 | appends one line exactly when a known product is chosen and the quantity is positive and within the remaining stock, then clears the selection; otherwise nothing changes; the cart stays within stock |
| SalesCart.Cart.RemoveItem | client/src/pages/Sales.jsx:114-119 | drops only line `index`; the cart stays within stock |
| SalesCart.Cart.HandleSubmit | client/src/pages/Sales.jsx:127-146 | an empty cart sends nothing; otherwise it sends a request the server accepts as valid, with the cart and the rate, and resets after success |
| SalesCart.TotalsGrow | client/src/pages/Sales.jsx:121-125 | `getTotals` rises by exactly the added line's subtotals, the same sums the server records (from `Sales.TotalsSplit`) |
| SalesCart.TotalsShrink | client/src/pages/Sales.jsx:114-125 | removing line `index` lowers `getTotals` by exactly that line's subtotals; an index outside the cart changes neither total |
| CashClose.RecordsOfAt | server/src/routes/cashCloseRoutes.js:28-36 | one record per item with difference = system − physical and box size `\|\| 1` |
| CashClose.LastCount | server/src/routes/cashCloseRoutes.js:38-42 | the count a batch finally writes for a product: that of its last item |
| CashClose.OverwrittenAt | server/src/routes/cashCloseRoutes.js:38-42 | after a save each listed product's quantity is its (last) count whatever it was; unlisted products are unchanged; only quantities change |
| CashClose.SaveIsIdempotent | server/src/routes/cashCloseRoutes.js:38-42 | saving the same batch twice leaves the quantities as saving it once |
| CashClose.AbsSumZero | server/src/routes/cashCloseRoutes.js:57 | Σ\|difference\| of a group is never negative, and 0 exactly when all its differences are 0 |
| CashClose.HistoryGroups | server/src/routes/cashCloseRoutes.js:53-70 | every history group counts at least one product, and its total difference is ≥ 0 and 0 exactly when every count matched |
| CashClose.SaveAddsToGroup | server/src/routes/cashCloseRoutes.js:19-63 | a save adds the batch's Σ\|difference\| to its (date, author) group and nothing to any other |
| CashClose.CashCloseStore.constructor | server/src/routes/cashCloseRoutes.js:19-50 | no records over a stock table |
| CashClose.CashCloseStore.Save | server/src/routes/cashCloseRoutes.js:19-50 | 400 with nothing written for a missing or empty list; otherwise 201, one record per item dated `close_date` or today, each product's quantity set to its count |
| CashCount.FormatQuantity | client/src/pages/CashClose.jsx:7-17 | `formatQuantity`: plain units for a box size of at most 1, otherwise floored boxes and truncated remainder units (definition; see `CashCount.FormatSplits` and `CashCount.FormatPlain`) |
| CashCount.ParseToQuantity | client/src/pages/CashClose.jsx:20-22 | `parseToQuantity`: boxes `\|\| 0` times box size `\|\| 1` plus units `\|\| 0` (definition; see `CashCount.FormatSplits`) |
| CashCount.InitialCountAsWritten | client/src/pages/CashClose.jsx:50-58 | the initial count as written: `Math.floor(qty / upb)` boxes and `qty % upb` units with the truncating `%` (definition; see `CashCount.InitialCountsAgree` and `CashCount.TruncatedSplitMiscounts`) |
| CashCount.FormatSplits | client/src/pages/CashClose.jsx:13-14 | for a box size above 1 and a quantity ≥ 0: boxes·upb + units = qty with 0 ≤ units < upb, and the split parses back to the quantity |
| CashCount.FormatPlain | client/src/pages/CashClose.jsx:9-11 | a box size that is absent or at most 1 shows the plain quantity |
| CashCount.InitialCount | client/src/pages/CashClose.jsx:50-58 | corrected initial count: always parses back to the system quantity |
| CashCount.InitialCountsAgree | client/src/pages/CashClose.jsx:50-58 | for a stock ≥ 0 and a positive box size the written and the corrected initial counts are equal |
| CashCount.TruncatedSplitMiscounts | client/src/pages/CashClose.jsx:55-56 | stock −1 in boxes of 12 starts as −1 box and −1 unit, parsed as −13, a difference of 12 on an untouched form |
| CashCount.Difference | client/src/pages/CashClose.jsx:77-83 | `calculateDifference`: system quantity minus the parsed count, a missing count read as zero boxes and units (definition; see `CashCount.TotalDifferenceZero`) |
| CashCount.TotalDifference | client/src/pages/CashClose.jsx:85-87 | `getTotalDifference`: the sum of the absolute differences (definition; see `CashCount.TotalDifferenceZero`) |
| CashCount.TotalSalesUsd | client/src/pages/CashClose.jsx:89-98 | `getTotalSalesUSD`: the sum of positive differences times the price `\|\| 0` (definition; see `CashCount.SalesCountShortagesOnly`) |
| CashCount.TotalSalesBs | client/src/pages/CashClose.jsx:100-102 | `getTotalSalesBs`: the USD total times the rate (definition) |
| CashCount.TotalDifferenceZero | client/src/pages/CashClose.jsx:85-87 | the total difference is ≥ 0, and 0 exactly when every product's difference is 0 |
| CashCount.SalesCountShortagesOnly | client/src/pages/CashClose.jsx:89-98 | the USD sales total is the value of the shortages only: 0 without shortage, ≥ 0 with no negative price |
| CashCount.SaveItems | client/src/pages/CashClose.jsx:109-122 | one item per loaded product, in order, with its system quantity, its parsed count and box size `\|\| 1` |
| CashCount.SavedDifferencesMatch | client/src/pages/CashClose.jsx:77-87 | the differences the server records for the saved items are the form's, and the batch adds the form's total difference to the history |
| CashCount.CountForm.constructor | client/src/pages/CashClose.jsx:25-31 | no products, no counts, rate 50 |
| CashCount.CountForm.Load | client/src/pages/CashClose.jsx:45-59 | as written: stores products and rate `\|\| 50`, one count per product id, each the written split of its stock; with distinct ids, a stock ≥ 0 and a positive box size everywhere, every product opens with difference 0 and so does the total |
| CashCount.CorrectedLoadOpensAtZero | client/src/pages/CashClose.jsx:50-87 | with the corrected initial count for every product, whatever its stock, every difference and the total difference are 0 |
| CashCount.NegativeStockOpensMiscounted | client/src/pages/CashClose.jsx:50-87 | loading one product with stock −1 in boxes of 12 opens the untouched form with difference 12 and total difference 12 |
| CashCount.CountForm.ChangeCount | client/src/pages/CashClose.jsx:67-75 | sets only the named field of the named product, to the number or 0 |
| Shifts.SnapshotOf | server/src/routes/shiftsRoutes.js:53-60 | one row per product with its current quantity, box size `\|\| 1` and no final quantity |
| Shifts.Finalized | server/src/routes/shiftsRoutes.js:84-91 | rows whose product still exists get its current quantity as final one; no row is added |
| Shifts.TakeSnapshot | server/src/routes/shiftsRoutes.js:53-60 | the opening loop builds exactly the snapshot |
| Shifts.FinalQuantities | server/src/routes/shiftsRoutes.js:84-91 | the closing loop builds exactly the finalized rows |
| Shifts.ShiftStore.constructor | server/src/routes/shiftsRoutes.js:36-104 | no shift over a stock table; at most one open |
| Shifts.ShiftStore.OpenShift | server/src/routes/shiftsRoutes.js:36-70 | 400 with nothing created while a shift is open; otherwise 201, one open shift with the snapshot; products only read; at most one shift stays open |
| Shifts.ShiftStore.CloseShift | server/src/routes/shiftsRoutes.js:73-104 | 400 without an open shift; otherwise the open shift's rows are finalized and it is closed by the caller with its notes or null; no shift is open afterwards |
| Shifts.ShiftStore.Current | server/src/routes/shiftsRoutes.js:8-33 | the open shift with its rows, or null exactly when none is open |
| Shifts.ShiftStore.Details | server/src/routes/shiftsRoutes.js:128-156 | the shift with its rows, 404 exactly for an unknown id |
| Shifts.CloseThenOpen | server/src/routes/shiftsRoutes.js:36-104 | after a close, an open succeeds and its shift is open; quantities are untouched |
| ShiftPage.FormatQuantity | client/src/pages/Shifts.jsx:7-19 | the shift page wording: the plain number for box size ≤ 1, else units only, boxes only (plural above one) or both (definition; see `ShiftPage.WordingIsExact`) |
| ShiftPage.Sold | client/src/pages/Shifts.jsx:277-279 | initial − final once the final quantity is known, null before (definition; see `ShiftPage.SoldAcrossShift`) |
| ShiftPage.WordingIsExact | client/src/pages/Shifts.jsx:7-19 | for a quantity ≥ 0 the wording states the whole quantity: plain for box size ≤ 1; units only below one box; boxes only for whole boxes; plural exactly above one box; fewer units than a box |
| ShiftPage.SoldAcrossShift | client/src/pages/Shifts.jsx:277-279 | nothing sold while open; after the close, initial − final for a product that still exists |
| Directory.MembersOf | server/src/routes/organizationsRoutes.js:115-120 | the existing users with a membership in the organization, each with its role |
| Directory.Directory.constructor | server/src/db.js:59-63 | users with unique usernames and emails, no organizations, memberships or inventories |
| Users.Chosen | server/src/routes/usersRoutes.js:13-17 | the truthiness test of `x-organization-id`: an organization exactly for a sent, non-empty header, and then the one it names |
| Users.Utf16Length | server/src/routes/usersRoutes.js:89 | `length` of a JavaScript string: between the number of characters and twice it |
| Users.BmpLength | server/src/routes/usersRoutes.js:89 | text of Basic Multilingual Plane characters only has as many code units as characters |
| Users.FiveEmojiLength | server/src/routes/usersRoutes.js:89 | five emoji are five characters but ten code units, so they pass the six-unit minimum |
| Users.ListUsers | server/src/routes/usersRoutes.js:9-41 | 400 exactly for a non-superuser whose organization header is missing or empty; every user for a superuser without a truthy header; otherwise the named organization's members |
| Users.DeleteUser | server/src/routes/usersRoutes.js:44-80 | deleting oneself is 400 before any other check; for a non-superuser a missing header gives 500 (undefined bind), an empty one 403 (no membership matches `''`), and one naming an organization they do not own 403; 200 exactly for a superuser or owner deleting someone else, removing the membership with a truthy header or the user row without one; nothing changes otherwise |
| Users.ChangePassword | server/src/routes/usersRoutes.js:83-116 | 400 for a missing password or one of fewer than six UTF-16 code units; 404 for an unknown user; 401 exactly when changing one's own with a wrong current password; otherwise the hash of the new password is stored, with no permission check |
| Users.UpdateProfile | server/src/routes/usersRoutes.js:119-149 | 403 unless oneself or a superuser; 404 for an unknown user; 500 for a missing field; 400 for a taken username or email; otherwise updated; usernames and emails stay unique |
| Users.UpdateRole | server/src/routes/usersRoutes.js:152-189 | checks in order: a truthy organization header (400), owner unless superuser (403), role owner/admin/employee (400); then the existing membership takes the role |
| Organizations.ListOrganizations | server/src/routes/organizationsRoutes.js:16-43 | a superuser gets every organization without role; anybody else exactly their organizations, each with their role |
| Organizations.CreateOrganization | server/src/routes/organizationsRoutes.js:46-73 | 400 with nothing written without a name; otherwise the organization is inserted; a non-superuser becomes its owner, a superuser gets no membership |
| Organizations.UpdateOrganization | server/src/routes/organizationsRoutes.js:76-99 | 403 and unchanged unless superuser or owner; 500 without a name; otherwise renamed |
| Organizations.DeleteOrganization | server/src/routes/organizationsRoutes.js:102-110 | 200 exactly for a superuser (403 otherwise, via `requireSuperuser` at 8-13), removing the organization's row |
| Organizations.Members | server/src/routes/organizationsRoutes.js:113-127 | the organization's members with their roles |
| Organizations.AddMember | server/src/routes/organizationsRoutes.js:130-147 | no permission check; 500 for a missing user or role; 400 for an existing membership; otherwise 201 and the membership is added |
| Organizations.UpdateMemberRole | server/src/routes/organizationsRoutes.js:150-163 | no permission check; 500 without a role; otherwise an existing membership takes the role |
| Organizations.RemoveMember | server/src/routes/organizationsRoutes.js:166-177 | no permission check; the membership is removed |
| Inventories.ListByOrganization | server/src/routes/inventoriesRoutes.js:8-22 | exactly the organization's inventories |
| Inventories.GetInventory | server/src/routes/inventoriesRoutes.js:25-42 | 404 exactly for an unknown inventory or one whose organization is gone; otherwise the inventory with its organization's name |
| Inventories.CreateInventory | server/src/routes/inventoriesRoutes.js:45-75 | 400 without organization or name; 403 unless superuser, owner or admin of it; 201 exactly otherwise, the new inventory belonging to that organization; nothing written on refusal |
| Inventories.UpdateInventory | server/src/routes/inventoriesRoutes.js:78-89 | 500 without a name; otherwise an existing inventory is renamed |
| Inventories.DeleteInventory | server/src/routes/inventoriesRoutes.js:92-100 | the inventory is removed |
| Inventories.CreatorAddsInventory | server/src/routes/organizationsRoutes.js:60-65 | the non-superuser creator of an organization may at once create inventories in it, listed under it and found with its name |
| Auth.VerifyToken | server/src/middleware/auth.js:10-24 | 401 without a header, without a token part, with an empty one or one that does not verify; otherwise the request goes on with the token's claims |
| Auth.BearerHeader | server/src/middleware/auth.js:11-23 | a `Bearer <token>` header carries the token, accepted exactly when it verifies |
| Auth.RequireRole | server/src/middleware/auth.js:32-47 | 401 exactly without a user; any user passes, whatever the roles |
| Auth.RolesIgnored | server/src/middleware/auth.js:39-46 | the roles asked for never change the decision |
| Auth.VerifiedPassesRoles | server/src/middleware/auth.js:10-47 | behind `verifyToken`, `requireRole` always lets the request go on |
| AuthContext.FindOrg | client/src/context/AuthContext.jsx:59-62 | `find` by id through `Common.FindById`: the first listed organization with that id, absent exactly when none |
| AuthContext.FindInventory | client/src/context/AuthContext.jsx:98-100 | the listed inventory with the saved id, absent when none is saved or none matches |
| AuthContext.ChooseInventory | client/src/context/AuthContext.jsx:95-106 | the saved inventory if listed, else the first, else none |
| AuthContext.ChooseOrg | client/src/context/AuthContext.jsx:59-62 | the saved organization if the user belongs to it, else their first |
| AuthContext.AuthState.constructor | client/src/context/AuthContext.jsx:7-11 | no user, loading, stored token and ids as local storage holds them |
| AuthContext.AuthState.CurrentRole | client/src/context/AuthContext.jsx:146-151 | superuser for a superuser; none without organization or membership list; otherwise the matching membership's role |
| AuthContext.AuthState.HasRole | client/src/context/AuthContext.jsx:153-157 | `hasRole`: always for a superuser, otherwise exactly when the current role is one of those asked (definition; see `Layout.DisplayedRoleIsCurrent`) |
| AuthContext.AuthState.SwitchOrganization | client/src/context/AuthContext.jsx:136-139 | sets the organization and clears the inventory |
| AuthContext.AuthState.SwitchInventory | client/src/context/AuthContext.jsx:141-143 | sets the inventory only |
| AuthContext.AuthState.Logout | client/src/context/AuthContext.jsx:122-130 | clears user, organization, inventory, list and stored token and ids; no role remains |
| AuthContext.AuthState.LoadInventories | client/src/context/AuthContext.jsx:89-107 | keeps the list and chooses saved, first or none; a failure empties the list and the inventory |
| AuthContext.AuthState.LoadUser | client/src/context/AuthContext.jsx:50-87 | a failed lookup drops the token; otherwise the user is kept and, with organizations, the saved or first is chosen and its inventories loaded; loading ends |
| AuthContext.SwitchGivesRole | client/src/context/AuthContext.jsx:136-157 | after switching to one of their organizations, a non-superuser's role is their role there |
| Layout.Filter | client/src/components/Layout.jsx:40 | the filter never adds entries |
| Layout.FilterKeepsShown | client/src/components/Layout.jsx:40 | an entry is shown exactly when the user is a superuser or the current role is among its roles |
| Layout.SuperuserEntries | client/src/components/Layout.jsx:28-40 | a superuser sees all nine entries in order |
| Layout.OwnerEntries | client/src/components/Layout.jsx:28-40 | an owner sees every entry but Organizaciones, in order |
| Layout.AdminEntries | client/src/components/Layout.jsx:28-40 | an admin sees every entry but Usuarios and Organizaciones, in order |
| Layout.EmployeeEntries | client/src/components/Layout.jsx:28-40 | an employee sees only Dashboard and Ventas |
| Layout.NoRoleNoEntries | client/src/components/Layout.jsx:28-40 | no role shows nothing |
| Layout.OrganizationsForSuperuserOnly | client/src/components/Layout.jsx:37 | no membership role but superuser shows Organizaciones |
| Layout.DisplayRole | client/src/components/Layout.jsx:56 | superuser for a superuser, else the current role (definition; see `Layout.DisplayedRoleIsCurrent`) |
| Layout.DisplayedRoleIsCurrent | client/src/components/Layout.jsx:40-56 | the displayed role is the session's current role, and the entries shown are those `hasRole` allows |
| App.PrivateRoute | client/src/App.jsx:13-33 | spinner exactly while loading; login without user; with roles, the page exactly when the global role is among them, else the dashboard |
| App.RouteGuard | client/src/App.jsx:41-103 | the route table: Dashboard, Inventario, Contabilidad and Ventas for any user; Reportes, Configuración and Cierre de Caja for admin, owner and superuser; Usuarios for owner and superuser; no route for Organizaciones (definition; see `App.RoutesMatchNavigation`) |
| App.Visit | client/src/App.jsx:41-103 | what a visit renders: no match without a route, otherwise `PrivateRoute` with the route's roles (definition; see `App.HiddenButReachable`) |
| App.GlobalRoleDecides | client/src/App.jsx:28 | only the global role decides, so an employee account that owns the current organization is sent away from Usuarios |
| App.RoutesMatchNavigation | client/src/App.jsx:41-103 | where a route asks for roles they are those of its navigation entry |
| App.HiddenButReachable | client/src/App.jsx:41-103 | Inventario and Contabilidad are hidden from an employee yet render for any user; Organizaciones has no route |

## Left out

- I/O: the SQL driver, the pool, HTTP, React rendering and effects. This includes the effect that reloads inventories and stores `currentOrgId` when the organization changes (client/src/context/AuthContext.jsx:36-48). Handlers are steps over tables; client requests are given as their answers.
- bcrypt and jsonwebtoken are foreign calls. They are the parameters `matches`, `hash` and `verify`.
- Login, registration and `/auth/me` (server/src/routes/authRoutes.js, and `login` in AuthContext.jsx) are thin wrappers over those calls. The model takes the decoded claims and the user record as given.
- The dark-mode toggle of AuthContext.jsx is presentation only.
- Concurrency and atomicity:
  - `Promise.all`;
  - the read-then-increment sale-number race;
  - the check-then-insert open-shift race.

  Each request is one sequential step. No handler rolls back, and the model claims no rollback.
- Floating point, `DECIMAL(10,2)`, `parseFloat` and `toFixed`: amounts are integer cents and the exchange rate is an integer number of Bs per USD. `parseInt` of a non-numeric quantity is an absent value.
- `ORDER BY` and `LIMIT` of listings and of the cash-close history: results are maps or sets. The order of `Object.values(productStats)` is not modelled.
- The cash-close `products` and `details` endpoints, the sales list, and the shift history: plain `SELECT`s with no logic.
- Cascades on deleting an organization or a user: the model removes only the deleted row, because the DDL of those tables is not part of this model. The product counts of the inventory listing are left out for the same reason.
- Role strings outside the enumeration: the role parameters are `Option<Role>`, with `None` standing for a missing or unknown role.
- Identifiers in route parameters are integers: `parseInt` of a non-numeric id is not modelled.
- Uniqueness is exact string equality: database collation (case-insensitive comparison) is not modelled.
- The `UNIQUE` constraint on `sale_number` across inventories is not modelled: two inventories may both number a sale `V-0001`.
- Sales.SalesStore.DailyReport: the sums of a line named after an `Object.prototype` member are written onto that inherited member (for `__proto__`, onto `Object.prototype` itself, where they stay for the life of the process). The model drops such a line from the report and does not model that write.
- Sales.SalesStore.DailyReport: a product line's final stock is that of some product with the name, because SQL without `ORDER BY` picks an unspecified row. The model does not say which.
- settingsRoutes.js, inventoryRoutes.js and the presentational pages are not part of this model.
- CashCount.CountForm.Load: the form method keeps the written split, as the page does. No corrected load method is modelled; the corrected behaviour is stated by `CashCount.CorrectedLoadOpensAtZero` over the corrected `CashCount.InitialCount`.
- AccountingForm.ToRequest: an unchosen account is sent as the empty string. Strict SQL mode refuses `''` for the `INT` column, and otherwise it reads as 0, which the foreign key refuses. The model sends id 0, and the outcome is the same either way: 500 at that line.
- Foreign keys are taken as enforced (MySQL/TiDB with foreign key checks on): `transaction_entries.account_id` (server/src/db.js:168) and `sale_items.product_id` (server/src/db.js:130) refuse a row naming a missing account or product. `ON DELETE SET NULL` is not modelled, since no modelled handler deletes accounts or products.
- Sales.SalesStore.Record: a payment method outside the six of the `payment_method` `ENUM` (server/src/db.js:107), which the insert refuses with 500, is not modelled: the request's method is an option over the six methods, absent standing for a missing one. Checked at server/src/routes/salesRoutes.js:40.
- Sales.SalesStore.Record: an item without `product_id`, `quantity` or prices, which fails its insert with 500 after the sale row and the earlier items are stored (server/src/routes/salesRoutes.js:81-91), is not modelled: every submitted line carries all its fields.
- CashClose.CashCloseStore.Save: an item without `product_id`, `product_name`, `system_quantity` or `physical_quantity` binds `undefined`, so its insert fails with 500 after the earlier items' records are stored and their products overwritten (server/src/routes/cashCloseRoutes.js:27-42). This is not modelled: every item carries all its fields. The `cash_closes` table's DDL is not part of this model, so no foreign key on it is modelled.
- Ledger.LedgerStore.Post: a present `date` is stored as given. A text the `DATE` column refuses, and an explicit JSON `null` for `reference` (which binds SQL `NULL`), are not modelled.
- Ledger.LedgerStore.Post: a request without `entries`, where `entries.reduce` throws outside the `try` (server/src/routes/accountingRoutes.js:51) and Express answers with its default error, is not modelled: the line list is always present, possibly empty.
- Organization headers are integers when sent and non-empty: a non-numeric header text is not modelled.
- The handlers' guards `verifyToken` and `requireRole` are modelled separately, in `Auth`. Each handler takes the caller those guards let through.

## Findings

| source | as written | input that shows it | evidently intended | confidence | as-written member | corrected member |
|---|---|---|---|---|---|---|
| server/src/routes/accountingRoutes.js:65 | the new transaction's id is read from `result.lastID`, which the MySQL driver's insert result does not carry (every other route reads `insertId`); the first entry insert binds `undefined` and fails | a balanced posting debiting cash 100.00 and crediting revenue 100.00: the transaction row is inserted, the answer is 500, and no balance moves | the id of the inserted row (`insertId`), so that the entries are stored and applied and the answer is 201 | not executed | Ledger.LedgerStore.PostAsWritten, Ledger.LastIdDiscrepancy | Ledger.LedgerStore.Post |
| client/src/pages/CashClose.jsx:55-56 | the initial count takes `Math.floor(qty / upb)` boxes but `qty % upb` units, with JavaScript's truncating `%` | system quantity −1 with 12 units per box: −1 box and −1 unit, parsed back as −13, so an untouched form reports a difference of 12 and saving it would set the stock to −13 | units = what the floored boxes leave (`qty − boxes·upb`), so that every product opens with difference 0 | not executed | CashCount.InitialCountAsWritten, CashCount.TruncatedSplitMiscounts, CashCount.CountForm.Load, CashCount.NegativeStockOpensMiscounted | CashCount.InitialCount, CashCount.CorrectedLoadOpensAtZero |
