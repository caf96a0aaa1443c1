# Kiosk POS: inventory costing and cash ledger, in Dafny

This project models the server core of a small kiosk point-of-sale system and the client rules
the screens apply before they call it. The core has these parts:

- **FIFO cost lots.** Every received batch of a product is a lot. A sale line or a written-off
  loss drains the product's lots oldest first. Each drained unit is costed at its lot's price.
  Whatever the lots cannot cover is costed at the product's reference cost. Product stock drops
  by the full quantity, even below zero. Voiding a sale gives the units back to the stock
  counter only, never to the lots.
- **Container balances.** The four containers are cash (efectivo), Mercado Pago, petty cash
  (caja chica) and the safe (caja fuerte). Each balance is a fold over the whole ledger. An
  income credits its destination and an expense debits its source. The legacy tags
  `CAJA_CHICA` and `CAJA_FUERTE` count as petty cash and safe. Every open shift adds its
  opening floats.
- **Vocabulary tables.** These translate between the screens' Spanish type, category and
  container names and the stored English tags, in both directions. They include the lossy
  defaults (`SALE` and `venta`).
- **Shift lifecycle.** At most one open shift, created with the caller's floats. Closing stores
  the amounts the screen computed. Deleting cascades to the shift's transactions. An admin may see
  any user's open shift and a cashier only their own; the most recently created one they may
  see is the active one.
- **Ledger actions.** Manual transactions, voids with their role rules, and the admin-only
  safe and petty-cash movements.
- **Reports.** The per-shift report row, the page totals and the CSV export.
- **Client rules.**
  - The POS cart.
  - The money input field's cleaning and thousands grouping.
  - The shift screen: period by hour, close fold and clamp, add-transaction guard with its
    petty-cash reroute, running balance.
  - The petty-cash and safe forms.
  - The container, period and date captions.

State is one immutable record (`Store.State`): the product map, each product owning its lots in
creation order, then the shifts, the ledger rows and the losses. Every server action is a pure
function from a state to a `Result` of a new state. The signed-in user is a parameter
`Caller(id, isAdmin)`. Money and quantities are integers.

Modules:

| module | file |
|---|---|
| `Seqs` | `seqs.dfy` |
| `Outcomes` | `outcomes.dfy` |
| `Sums` | `sums.dfy` |
| `Text` | `text.dfy` |
| `Vocabulary` | `vocabulary.dfy` |
| `Fifo` | `fifo.dfy` |
| `Store` | `store.dfy` |
| `Inventory` | `inventory.dfy` |
| `Balances` | `balances.dfy` |
| `Ledger` | `ledger.dfy` |
| `Shifts` | `shifts.dfy` |
| `Sale` | `sale.dfy` |
| `Reports` | `reports.dfy` |
| `Turno` | `turno.dfy` |
| `PosCart` | `pos_cart.dfy` |
| `CurrencyInput` | `currency_input.dfy` |
| `Labels` | `labels.dfy` |
| `CashForms` | `cash_forms.dfy` |

Several server actions exist twice in the repository, once in `src/app/actions.ts` and once
under `src/server/`. Each is modelled once, and the table cites both sites.

Two facts about the code shape the model:

- Product stock is not kept equal to the lot stock plus the stock outside the lots. A sale or a
  loss decrements `stock` by the full quantity with no sufficiency check
  (src/app/actions.ts:1308-1340), so stock can go negative. `Inventory.DeductLineLegacyStock`
  states what does hold: what the lots cannot cover comes out of the stock outside the lots.
- The legacy container tags `CAJA_CHICA` and `CAJA_FUERTE` count toward their containers in
  the balance fold (src/server/actions/transactions.ts:94-100), but the read-back table
  (src/server/mappers/transactions.ts:3-8) has no entry for them. So the shift screen does not
  see petty-cash rows written under `CAJA_CHICA` (`Turno.LegacyTagInvisibleOnScreen`).

## Model

| member | source | states |
|---|---|---|
| Fifo.Consume | src/app/actions.ts:1319-1335 | Lots are walked oldest first and only `current` changes. An empty lot is left alone; a lot with stock ends between 0 and what it held. A non-positive quantity changes nothing. What is left to cost is between 0 and the quantity, and is positive only when every lot is empty. |
| Fifo.ConsumeDrawn | src/server/actions/products.ts:147-153 | The lots drop by exactly the quantity minus what was left uncovered. |
| Fifo.ConsumeCost | src/app/actions.ts:1324-1334 | The exact cost equals each drawn unit priced at the lot it came from. |
| Fifo.CostLine | src/app/actions.ts:1319-1340 | Line cost = exact lot cost + fallback cost. The fallback is (quantity − units drawn) × the reference cost. Valid lots stay valid. A non-positive quantity costs nothing and touches no lot. |
| Fifo.ConsumeMatchesTakeAt | src/app/actions.ts:1319-1335 | The allocator agrees lot by lot with an independent closed form: lot i gives min(its stock, what the earlier lots leave uncovered). |
| Fifo.DrawnIsMinOfNeedAndAvailable | src/app/actions.ts:1325-1334 | Units drawn = min(quantity, total stock in the lots). |
| Fifo.ConsumeTouchesOnlyAPrefix | src/server/actions/products.ts:147-153 | A later lot is modified only if every earlier lot is left empty. |
| Fifo.AvailableAfterDrain | src/app/actions.ts:1325-1334 | Draining lowers the units available by exactly the units drawn. |
| Fifo.DrawnNonNegative | src/app/actions.ts:1325-1334 | Draining never puts units back into the lots. |
| Fifo.NothingDrawnNothingChanged | src/app/actions.ts:1325-1334 | If nothing was drawn, no lot changed. |
| Fifo.AvailableAppend | src/server/actions/products.ts:108-115 | A lot added at the end adds its stock to what is available. |
| Fifo.CostLineWithoutStock | src/server/actions/products.ts:147-155 | With no stock in any lot, the whole line is costed at the reference cost and no lot changes. |
| Fifo.TwoLotExample | src/app/actions.ts:1319-1340 | Lots 5@10 and 5@20: 7 units cost 90 and leave the lots at 0 and 3. |
| Fifo.NoLotExample | src/app/actions.ts:1338-1340 | No lots: 4 units at reference cost 15 cost 60. |
| Inventory.ProviderField | src/server/actions/products.ts:108-110 | The stored provider is empty exactly when none or the empty name was given; otherwise it is the given name. |
| Inventory.AddProductBatch | src/server/actions/products.ts:100-129 | Checks come in order: quantity ≤ 0, then cost < 0, then an unknown product. On success exactly one lot (initial = current = quantity, the given cost) is appended. Stock rises by the quantity, the reference cost becomes the new cost, and nothing else changes. |
| Inventory.BatchKeepsLegacyStock | src/app/actions.ts:1135-1173 | A batch is fully backed by its lot: the stock outside the lots does not move, available lot stock rises by the quantity, and valid lots stay valid. |
| Inventory.DeductLine | src/app/actions.ts:1305-1340 | Stock drops by exactly the quantity, below zero if need be, and only stock and lots change. The lots drain by min(quantity, lot stock). The cost is the drawn lot cost plus the shortfall at the reference cost. |
| Inventory.DeductLineLegacyStock | src/app/actions.ts:1308-1340 | What the lots cannot cover comes out of the stock outside the lots. |
| Inventory.ReportProductLoss | src/server/actions/products.ts:131-176 | Checks come in order: quantity ≤ 0, then a blank reason, then an unknown product. On success stock drops by the quantity and the lots drain as for a sale line. One loss record is appended with the quantity, the line cost, the untrimmed reason and the caller. Nothing else changes. |
| Inventory.LossDeducts | src/server/actions/products.ts:131-176 | A valid loss of a listed product succeeds, leaves the product as the per-line deduction does, and records that deduction's cost. |
| Inventory.LossWithoutLotStock | src/server/actions/products.ts:147-161 | A loss of a product with no lot stock costs quantity × reference cost and leaves every lot as it was. |
| Inventory.AllMatches | src/server/actions/products.ts:196-201 | Keeps exactly the scanned products that pass the filter: active, and exact barcode for an all-digit query or a case-insensitive name substring. A scan without repeats gives matches without repeats. |
| Inventory.SearchProduct | src/server/actions/products.ts:191-207 | The scan lists every catalogue key exactly once. A blank query finds nothing. Otherwise the result holds min(10, number of matching products) distinct matching products and is a prefix of the scan-order matches. When at most 10 products match, every one of them is found. |
| Inventory.AllMatchesOfCatalogue | src/server/actions/products.ts:191-201 | Over a scan of the whole catalogue, the matches have no repeats and are exactly the matching products. |
| Inventory.BarcodeQueryMatches | src/server/actions/products.ts:196-201 | An all-digit query finds an active product by its exact barcode, whatever its name. |
| Inventory.NonDigitQueryMatchesNameOnly | src/server/actions/products.ts:196-201 | A query that is not all digits matches exactly the active products whose name contains it, ignoring case. |
| Inventory.AssertUniqueBarcode | src/server/services/products.ts:3-9 | No barcode, or an empty one, passes. Otherwise the check fails iff another product holds the code. The message depends only on whether a non-empty current id was given. |
| Inventory.OwnBarcodePasses | src/server/services/products.ts:5-8 | When barcodes are unique, a product keeping its own barcode passes. |
| Balances.Bucket | src/server/actions/transactions.ts:94-100 | Every stored tag falls into the container it names, or is one of the two legacy aliases. |
| Balances.Effect | src/server/actions/transactions.ts:90-100 | An income raises by its amount only the container its destination falls into. An expense lowers by its amount only the container its source falls into. |
| Balances.BalanceOf | src/server/actions/transactions.ts:86-111 | Petty cash and the safe are their ledger net alone, and with no shift open every container is. |
| Balances.FoldRow | src/server/actions/transactions.ts:90-102 | One row changes each container by that row's effect. |
| Balances.FoldLedger | src/app/actions.ts:307-319 | The loop's running totals equal the per-container net over the whole ledger. |
| Balances.FoldFloats | src/server/actions/transactions.ts:104-108 | The loop adds up the cash and digital floats of exactly the open shifts. |
| Balances.GetBalances | src/server/actions/transactions.ts:86-111 | Each returned balance equals the container's ledger net plus the open floats. |
| Balances.BalancesIgnoreOrder | src/server/actions/transactions.ts:90-110 | Any permutation of the ledger gives the same balances. |
| Balances.AliasesMerge | src/server/actions/transactions.ts:94-100 | `CAJA_CHICA` counts as `PETTY_CASH` and `CAJA_FUERTE` as `SAFE`, on both the source and the destination side. |
| Balances.IncomeSourceIgnored | src/server/actions/transactions.ts:90-96 | An income's source does not affect any balance. |
| Balances.AppendMovesOneContainer | src/app/actions.ts:307-319 | A new row moves at most one container: an income's destination or an expense's source. |
| Balances.ClosedShiftsAddNothing | src/app/actions.ts:321-325 | Closed shifts add no floats. |
| Vocabulary.MapTransactionInput | src/server/services/transactions.ts:7-32 | ingreso is stored as INCOME and egreso as EXPENSE. An expense has the chosen container as source and no destination. An income has the chosen container as destination and `CASH` as source. Untabled categories become `SALE`. No manual entry gets a safe or petty-cash-withdrawal category. |
| Vocabulary.CategoryToDb | src/server/services/transactions.ts:9-28 | A tabled category reads back as itself. The two safe categories fall back to SALE. No screen category is stored as a safe or petty-cash-withdrawal category. |
| Vocabulary.ContainerToDb | src/server/services/transactions.ts:18-23 | Each container is stored under a canonical tag that reads back as that container. |
| Vocabulary.TypeFromDb | src/server/mappers/transactions.ts:24 | Reading a type back inverts the forward type table. |
| Vocabulary.CategoryFromDb | src/server/mappers/transactions.ts:10-25 | Every stored category reads back as a tabled one, and as venta iff it is SALE or one of the three the reverse table lacks. |
| Vocabulary.ContainerFromDb | src/server/mappers/transactions.ts:3-8 | A stored tag reads back as undefined iff it is a legacy alias. |
| Vocabulary.TypeRoundTrip | src/server/mappers/transactions.ts:24 | The type survives a write and a read. |
| Vocabulary.CategoryRoundTrip | src/server/mappers/transactions.ts:10-18 | A category survives a write and a read iff it is one of the seven tabled ones. |
| Vocabulary.ContainerRoundTrip | src/server/mappers/transactions.ts:3-8 | Each of the four containers survives a write and a read. |
| Vocabulary.UnmappedCategoriesReadAsVenta | src/server/mappers/transactions.ts:25 | A stored category reads back as venta iff it is `SALE` or one of the three the reverse table lacks. |
| Vocabulary.AliasesReadAsUndefined | src/server/mappers/transactions.ts:27-28 | A stored container reads back as undefined iff it is a legacy alias. |
| Vocabulary.MapInputRoundTrip | src/server/services/transactions.ts:25-31 | For a tabled category, writing and reading gives back the type, the category, and the container on the side the type uses. An income also reads back efectivo as its source. |
| Ledger.AssertValidAmount | src/server/services/transactions.ts:3-5 | Fails iff the amount ≤ 0. |
| Ledger.AddTransaction | src/server/actions/transactions.ts:10-44 | Rejects a non-positive amount, then a shift the store does not hold, since the row's shift is a foreign key. Succeeds in every other case and appends one row with a fresh id. The row carries the shift, the caller, the amount, the description and the mapped tags. |
| Ledger.AddTransactionMovesChosenContainer | src/app/actions.ts:173-233 | A manual transaction moves only the chosen container: up for an income, down for an expense. |
| Ledger.RestoreStock | src/server/actions/transactions.ts:64-75 | If every receipt line names a known product, each product's stock rises by its receipt quantity and nothing else changes. Otherwise no stock is restored. |
| Ledger.DeleteTransaction | src/server/actions/transactions.ts:51-84 | A missing row fails. A cashier may void only a sale of their own open shift. The row is removed. Stock is restored only for a sale whose receipt parses and names known products. Shifts and losses stay. |
| Ledger.CashierVoidIsRestricted | src/app/actions.ts:255-267 | A successful void by a non-admin was of a sale in their own open shift. |
| Ledger.VoidNeverTouchesLots | src/app/actions.ts:270-286 | A void changes no product field except stock, so lots are never restored. |
| Ledger.AddSafeTransaction | src/server/actions/transactions.ts:124-148 | Admin only, amount > 0. A deposit goes to `SAFE` with no source; a withdrawal comes from `SAFE` with no destination. The row has no shift. |
| Ledger.AddPettyCashTransaction | src/server/actions/transactions.ts:161-185 | The same rules with `CAJA_CHICA` and the petty-cash categories. |
| Ledger.SafeMovesOnlySafe | src/app/actions.ts:504-539 | A safe movement changes only the safe balance, by the signed amount. |
| Ledger.PettyCashMovesOnlyPettyCash | src/app/actions.ts:558-609 | A petty-cash movement changes only the petty-cash balance, by the signed amount. |
| Ledger.PettyCashDepositThenWithdrawal | src/server/actions/transactions.ts:163-175 | A deposit followed by an equal withdrawal leaves every balance unchanged. |
| Ledger.MapTx | src/server/mappers/transactions.ts:20-33 | INCOME reads as ingreso and anything else as egreso. Category and containers go through the reverse tables. A missing or empty user reads as "System (Deleted)". Every other field is copied. |
| Ledger.AddTransactionReadsBack | src/app/actions.ts:38-67 | A manual row reads back with its own type, amount, description, creator and containers. Its category reads back iff it is tabled. |
| Shifts.ToDbShiftType | src/server/services/shifts.ts:10-12 | The stored type has the period name's length and no lower-case letter. |
| Shifts.ShiftTypeRoundTrip | src/server/mappers/shifts.ts:7 | Lower-casing the stored type gives the period name back. |
| Shifts.AssertCanOpenShift | src/server/services/shifts.ts:4-8 | Passes iff no shift is open and both floats are ≥ 0. The open-shift error wins when both checks fail. |
| Shifts.OpenShift | src/server/actions/shifts.ts:21-43 | Creates nothing unless the check passes; the check's error wins. Then an unparseable date fails, because rendering it throws. Otherwise it appends one open shift with a fresh id, the caller as owner, the floats as given, the rendered date, and no final amounts. |
| Shifts.CloseShift | src/server/actions/shifts.ts:45-61 | Fails only for an unknown shift. Otherwise that shift becomes closed with the given final amounts, with no status check. Every other shift is unchanged. |
| Shifts.WithoutShiftTxs | src/server/actions/shifts.ts:70-71 | Keeps exactly the rows of other shifts, with their multiplicities. |
| Shifts.WithoutShiftTxsKeepsOrder | src/server/actions/shifts.ts:70-71 | The kept rows stay in ledger order: a single row stays iff it belongs to another shift, and filtering a concatenation filters each part. |
| Shifts.DeleteShift | src/server/actions/shifts.ts:63-78 | Admin only, and the shift must exist. Removes that shift and its rows and keeps everything else. |
| Shifts.GetActiveShift | src/server/actions/shifts.ts:10-19 | Returns the most recent open shift the caller may see (an admin sees all, a cashier their own), or none iff there is none. |
| Shifts.OpenedShiftIsActive | src/app/actions.ts:83-118 | After an open, the owner sees the new shift as active and any further open fails. |
| Shifts.SingleOpenPreserved | src/server/services/shifts.ts:5-6 | Opening, closing and deleting keep at most one shift open. |
| Shifts.ClosedShiftNotActive | src/app/actions.ts:120-147 | Closing the open shift leaves no shift open. |
| Sale.ApplyLines | src/app/actions.ts:1305-1346 | Succeeds iff every line names a listed product. The receipt has one line per item, in order, with the product's name and a recorded cost; the cost's value is stated by `Sale.ReceiptLineCost`. |
| Sale.ApplyLinesStock | src/app/actions.ts:1308-1313 | Each product's stock drops by its total quantity over the lines, below zero if need be. |
| Sale.ApplyLinesKeepsValidLots | src/app/actions.ts:1319-1335 | Valid lots stay valid through a sale. |
| Sale.ProcessSale | src/app/actions.ts:1290-1388 | Rejects total ≤ 0 before touching anything, then any unknown product. On success: products as the lines leave them, and one new INCOME/SALE row for the total, credited to the payment container, with the item-count description and the receipt. |
| Sale.PaymentEffect | src/app/actions.ts:1378 | A sale row moves only its payment container. |
| Sale.SaleCreditsPaymentContainer | src/app/actions.ts:1368-1380 | A sale raises the payment container by the total and no other container. |
| Sale.SingleLineSaleMatchesLoss | src/server/actions/products.ts:142-155 | A one-line sale and a loss of the same quantity leave the product identical, and the sale's line cost equals the loss cost. |
| Sale.OneLineSale | src/app/actions.ts:1305-1346 | A one-line sale of a listed product succeeds, leaves the product as the per-line deduction does, and records that deduction's cost on its receipt line. |
| Sale.ReceiptLineCost | src/app/actions.ts:1306-1345 | Receipt line i records the cost of deducting line i's quantity from its product as the earlier lines left it. |
| Sale.ApplyLinesAppend | src/app/actions.ts:1306-1345 | Applying a then b in one sale is applying a, then b to the products a leaves. The receipts concatenate. |
| Sale.ApplyLinesCons | src/app/actions.ts:1306-1345 | The first line is deducted from its product and the remaining lines are applied to the result. |
| Sale.SaleReceiptQty | src/app/actions.ts:1342-1346 | The receipt quantity per product equals the sale's quantity per product. |
| Sale.ReceiptNamesKnownProducts | src/app/actions.ts:1342-1346 | Every receipt line names a product that exists. |
| Sale.RestoreUndoesApply | src/server/actions/transactions.ts:64-75 | Restoring a sale's receipt gives every product its stock back but keeps the drained lots. |
| Sale.VoidLastRow | src/server/actions/transactions.ts:64-77 | An admin void of the last sale row removes it and restores its receipt. |
| Sale.VoidAfterSaleRestoresStock | src/app/actions.ts:270-286 | Sale then admin void: the ledger and every stock are back, but the lots stay drained. |
| Reports.OperatorName | src/app/actions.ts:677-686 | The operator name is never empty. It is "Sistema" iff the user is unknown, unnamed or named "Sistema". |
| Reports.ReceiptCost | src/app/actions.ts:653-668 | The loop's total is the sum of the receipt line costs (0 for a line without one). |
| Reports.BuildRow | src/app/actions.ts:647-687 | The row is consistent: balance = ventas − egresos, ganancia = ventas − COGS, and the row counts every transaction of the shift. |
| Reports.GetReportsData | src/app/actions.ts:611-690 | Non-admins are refused. Otherwise there is one row per shift, built from that shift's rows, and the loss total is the sum of loss costs. |
| Reports.TotalMermas | src/app/actions.ts:645 | The loss total is the sum of the recorded loss costs. |
| Reports.RowOfSnoc | src/app/actions.ts:652-675 | One more transaction adds its income to ventas, its expense to egresos, its sale-receipt cost to the cost of goods, and one to the count. |
| Reports.SaleAddsToShiftRow | src/app/actions.ts:653-668 | A sale raises its shift's ventas by the total and COGS by the receipt cost, leaves egresos alone and adds one to the count. |
| Reports.ManualIncomeRaisesMargin | src/app/actions.ts:672-674 | A manual income raises ventas and ganancia by its amount and leaves COGS alone. |
| Reports.RowOfConsistent | src/app/actions.ts:677-686 | Every report row satisfies balance = ventas − egresos and ganancia = ventas − COGS. |
| Reports.TotalsConsistent | src/app/dashboard/reportes/page.tsx:69-74 | On consistent rows the page totals satisfy balance = ventas − egresos and ganancia = ventas − COGS − mermas. |
| Reports.CsvLines | src/app/dashboard/reportes/page.tsx:44-48 | One CSV line per row, in row order. |
| Reports.CsvDateColumnIsDay | src/server/mappers/shifts.ts:6 | The date column is the first ten characters of the stored start instant, its `YYYY-MM-DD` day. |
| Reports.Csv | src/app/dashboard/reportes/page.tsx:42-57 | The export starts with the fixed header. |
| Reports.NumberIsCsvSafe | src/app/dashboard/reportes/page.tsx:44-48 | A written number contains no comma or newline. |
| Reports.FieldsAreCsvSafe | src/app/dashboard/reportes/page.tsx:44-48 | If a row's date, type and operator contain no comma or newline, neither does any of its fields. |
| Reports.CsvRoundTrip | src/app/dashboard/reportes/page.tsx:43-49 | Splitting the body at newlines gives one line per row, and splitting each line at commas gives back that row's ten fields. |
| Turno.GetCurrentPeriod | src/app/dashboard/turno/page.tsx:38-43 | Hours [6,14) are mañana, [14,22) tarde, everything else noche. |
| Turno.CheckOpenForm | src/app/dashboard/turno/page.tsx:161-177 | The form is sent iff both amounts are present and ≥ 0, and it sends them unchanged. |
| Turno.OpenFormAgreesWithServer | src/app/dashboard/turno/page.tsx:165-166 | Whatever the form lets through, the server opens iff no shift is open and the date parses. |
| Turno.FoldShift | src/app/dashboard/turno/page.tsx:186-196 | The loop computes float + net for efectivo and for Mercado Pago, ignoring other containers. |
| Turno.Clamp | src/app/dashboard/turno/page.tsx:197 | The result is max(0, x). |
| Turno.HandleCloseShift | src/app/dashboard/turno/page.tsx:181-201 | The amounts sent are the clamped folds, never negative. |
| Turno.MapAll | src/app/actions.ts:235-241 | Maps each row, in order. |
| Turno.ScreenEffectMatchesLedger | src/server/mappers/transactions.ts:20-33 | For efectivo and Mercado Pago, a row's effect on screen equals its effect in the balance fold. |
| Turno.ScreenFoldMatchesLedger | src/app/dashboard/turno/page.tsx:186-196 | For those two containers, the screen's fold over the read-back rows equals the server's ledger net. |
| Turno.LegacyTagInvisibleOnScreen | src/server/mappers/transactions.ts:3-8 | A petty-cash row under the legacy tag moves petty cash in the server fold but not on screen. |
| Turno.CloseAmountsMatchLedger | src/app/dashboard/turno/page.tsx:186-197 | The close amounts equal the clamped server-side float + net. |
| Turno.HandleAddTx | src/app/dashboard/turno/page.tsx:219-225 | Rejects an amount ≤ 0, then a blank description, and otherwise hands the form to the balance rules (`Turno.RouteOutflow`). A submission always carries the amount typed, which is positive, and a non-blank description. |
| Turno.RouteOutflow | src/app/dashboard/turno/page.tsx:228-263 | An income passes as typed, and so does an egreso within its container's balance. An egreso above its container's balance is rerouted as retiro_chica from caja chica, with the "(Auto) Caja Chica → " prefix, only for a provider payment from efectivo that petty cash covers; otherwise it is rejected. A submitted egreso never exceeds its container's balance, and the amount is never altered. |
| Turno.SubmittedOutflowKeepsBalance | src/app/dashboard/turno/page.tsx:228-263 | When the screen's balances are the ledger's and its shift is on record, what it submits is accepted and leaves the debited container ≥ 0. |
| Turno.SaldoMatchesCloseFold | src/app/dashboard/turno/page.tsx:277-279 | For cash and Mercado Pago rows, the running balance equals the sum of the two close folds. |
| PosCart.FindItem | src/components/POSModal.tsx:76-77 | Returns the first position holding the id, or none iff the id is absent. |
| PosCart.Bump | src/components/POSModal.tsx:78-85 | Raises the quantity of the matching item by one and leaves the rest. |
| PosCart.AddToCart | src/components/POSModal.tsx:69-93 | Out of stock: unchanged. Present at its limit: unchanged. Present below it: the quantity rises by one. Absent: appended with quantity 1. |
| PosCart.AddToCartKeepsCartOk | src/components/POSModal.tsx:69-93 | With stock that is not stale, ids stay unique and quantities stay within 1..stock. |
| PosCart.StaleStockExample | src/components/POSModal.tsx:78-85 | The cap is the product's fresh stock while the item keeps its old one, so a stale cart can exceed its own stock. |
| PosCart.UpdateQuantity | src/components/POSModal.tsx:95-108 | Only the matching item's quantity changes, and only when the new value is in 1..stock. |
| PosCart.UpdateQuantityKeepsCartOk | src/components/POSModal.tsx:98-104 | Quantities stay within 1..stock. |
| PosCart.RemoveFromCart | src/components/POSModal.tsx:110-112 | Drops exactly the items with that id and keeps every other item as many times as the cart held it. |
| PosCart.RemoveKeepsOrder | src/components/POSModal.tsx:110-112 | The rest keep their order. |
| PosCart.RemoveKeepsCartOk | src/components/POSModal.tsx:110-112 | The cart invariant is kept. |
| PosCart.ChangeDue | src/components/POSModal.tsx:117-118 | A positive payment gives payment − total; otherwise 0. |
| PosCart.ToSaleItems | src/components/POSModal.tsx:130-134 | Sends (id, quantity, sale price) per item, in cart order. |
| PosCart.HandleConfirm | src/components/POSModal.tsx:120-136 | An empty cart is a no-op. Cash with 0 < payment < total is rejected. Otherwise the cart's items and payment method are sent. |
| PosCart.SaleTotalOfCart | src/components/POSModal.tsx:114 | The server's sale total over the sent items equals the cart total. |
| PosCart.PositiveCartTotal | src/components/POSModal.tsx:114 | A non-empty valid cart of positively priced items totals more than 0. |
| PosCart.ConfirmedCartPassesTotalCheck | src/app/actions.ts:1294-1300 | A confirmed valid cart passes the server's total check. |
| CurrencyInput.Sanitize | src/components/CurrencyInput.tsx:44 | Keeps only digits, commas and dots, never lengthens, and keeps an allowed text as it is. |
| CurrencyInput.CollapseDotsKeepsFirstDot | src/components/CurrencyInput.tsx:47-50 | Everything up to the first dot is kept. Later dots are dropped and the text after them is joined into the fraction. |
| CurrencyInput.CollapseDotsLeavesOneDot | src/components/CurrencyInput.tsx:47-50 | At most one dot remains. |
| CurrencyInput.CleanInputIsClean | src/components/CurrencyInput.tsx:44-50 | After both guards the text is allowed letters with at most one dot. |
| CurrencyInput.CleanIsFixed | src/components/CurrencyInput.tsx:44-50 | The guards leave a clean text unchanged. |
| CurrencyInput.GroupSevenDigits | src/components/CurrencyInput.tsx:67 | "1234567" is grouped as "1,234,567". |
| CurrencyInput.GroupSplit | src/components/CurrencyInput.tsx:67 | The grouped digits split at commas into a 1–3 digit head followed by groups of three. |
| CurrencyInput.GroupRemoveCommas | src/components/CurrencyInput.tsx:65-67 | Removing the commas of the grouped text gives the digits back. |
| CurrencyInput.FormatDisplayShape | src/components/CurrencyInput.tsx:63-69 | Only the whole part changes: its commas are redone, and everything from the first dot on is kept verbatim. |
| CurrencyInput.FormatKeepsClean | src/components/CurrencyInput.tsx:63-69 | Formatting a clean text gives a clean text. |
| CurrencyInput.FormatIsStable | src/components/CurrencyInput.tsx:63-69 | Formatting twice equals formatting once. |
| CurrencyInput.FormatKeepsDigits | src/components/CurrencyInput.tsx:53-69 | Formatting changes only commas. |
| CurrencyInput.HandleChange | src/components/CurrencyInput.tsx:40-76 | Text that cleans to "" or "." shows as it is and reports zero. Any other text never reports zero. It reports its comma-free clean text as a number iff that text starts like a number, and otherwise reports nothing. A reported number has no comma. |
| CurrencyInput.HandleChangeClean | src/components/CurrencyInput.tsx:44-69 | Whatever is typed, the display is allowed letters with at most one dot. |
| CurrencyInput.CleanDisplay | src/components/CurrencyInput.tsx:56-69 | A clean text is shown as it is when it is "" or ".", and formatted otherwise. |
| CurrencyInput.DisplayMatchesReport | src/components/CurrencyInput.tsx:53-75 | The displayed and the reported text differ only in commas. |
| CurrencyInput.HandleChangeIdempotent | src/components/CurrencyInput.tsx:40-76 | Feeding the field its own display back changes nothing. |
| Labels.ContainerLabel | src/lib/store.ts:82-90 | Every container has a non-empty caption. |
| Labels.ContainerLabelsDistinct | src/lib/store.ts:82-90 | Two containers share a caption iff they are the same. |
| Labels.PeriodLabel | src/lib/store.ts:92-99 | A known period gets one of the three captions. Any other text that is not the name of an inherited `Object.prototype` member comes back unchanged. |
| Labels.StoredShiftCaption | src/lib/store.ts:92-99 | A stored shift type, lower-cased on reading, gets its own period's caption, and the captions are distinct. |
| Labels.IsoDaySplit | src/lib/store.ts:110 | Splitting a bare YYYY-MM-DD at dashes gives year, month and day. |
| Labels.IsoDayIgnoresClock | src/lib/store.ts:109-112 | A bare day is written DD/MM/YYYY from its own digits; the local-time fields play no part. |
| Labels.FormatDate | src/lib/store.ts:101-117 | An empty input gives "". A non-empty text that does not parse comes back verbatim. A bare YYYY-MM-DD gives ten characters that read back as the input day. |
| Labels.ClockDateShape | src/lib/store.ts:114-117 | Other dates give a two-digit day, a slash, a two-digit month (zero-based month + 1), a slash and the year. |
| CashForms.HandleCashSubmit | src/app/dashboard/caja-chica/page.tsx:48-77 | Checks come in order: no user, then amount missing or ≤ 0, then a blank description, then an egreso above the balance. The form is sent iff it passes all four, with the trimmed, non-empty description. |
| CashForms.WithdrawalBoundIsInclusive | src/app/dashboard/caja-fuerte/page.tsx:55-58 | A withdrawal of exactly the balance passes; one unit more is rejected. |
| CashForms.DepositIgnoresBalance | src/app/dashboard/caja-chica/page.tsx:55-66 | A deposit's outcome does not depend on the balance. |
| CashForms.PettyCashFormKeepsBalance | src/app/dashboard/caja-chica/page.tsx:55-66 | When the screen shows the ledger's balance, what it sends is accepted for an admin and leaves petty cash ≥ 0. Petty cash moves by exactly the amount. |
| CashForms.SafeFormKeepsBalance | src/app/dashboard/caja-fuerte/page.tsx:55-66 | The same for the safe screen. |
| Text.Trim | src/app/dashboard/caja-chica/page.tsx:53 | The result is a slice of the input with no whitespace at either end. It is empty iff the input is blank. |
| Text.SplitJoin | src/app/dashboard/reportes/page.tsx:49 | Joining separator-free pieces and splitting again gives the pieces back. |
| Text.JoinSplit | src/components/CurrencyInput.tsx:47-69 | Splitting and joining with the same separator gives the text back. |
| Text.ConcatSplit | src/components/CurrencyInput.tsx:49 | Joining the pieces with nothing between them removes the separator. |
| Text.LowerUpperRoundTrip | src/server/mappers/shifts.ts:7 | Lower-casing an upper-cased text with no capitals gives it back. |
| Text.ParseNatToString | src/app/actions.ts:1375 | Reading back a written number gives the number. |
| Sums.SumPermutation | src/server/actions/transactions.ts:90-110 | A sum over a permutation is the same sum. |
| Store.NextTxId | src/app/actions.ts:1368-1380 | A new row's identifier differs from every existing one. |
| Store.FindTx | src/server/actions/transactions.ts:55-56 | Returns the first row with the id, or none iff no row has it. |
| Store.FindShift | src/server/actions/shifts.ts:67-68 | Returns the first shift with the id, or none iff no shift has it. |
| Store.ShiftTxs | src/server/actions/transactions.ts:46-49 | Keeps exactly the rows of that shift; their order and repeats are pinned by `Store.ShiftTxsSnoc`. |
| Store.ShiftTxsSnoc | src/server/actions/transactions.ts:46-49 | The rows stay in ledger order: a row appended to the ledger joins the end of its own shift's list and no other. |
| Store.ShiftDay | src/server/mappers/shifts.ts:6 | The shift's day is a prefix of its start instant, ten characters long unless the instant is shorter. |

## Left out

- Persistence is left out. This covers Prisma, `$transaction` mechanics, `revalidatePath` and
  the audit-log writes. Every action is a function on an in-memory state. An action that the
  database would abort leaves the state as it was.
- Sessions are left out. The caller is a parameter, so the unauthenticated path ("No
  autorizado") is not modelled.
- The clock is a parameter. `getCurrentPeriod` takes the hour. `formatDate` takes what
  `new Date(input)` yields in local time. Date-object inputs to `formatDate` are not modelled.
- Report date ranges are not modelled. `GetReportsData` receives the shifts and losses already
  filtered to the range.
- Money is a whole number. Fractional peso amounts and every floating-point computation are not
  modelled.
- CurrencyInput.HandleChange: reports the comma-free text that `parseFloat` reads, not the
  number itself, because parsing a decimal into a float is outside the model.
- The CurrencyInput `useEffect` that re-renders the `value` prop is not modelled, because it goes
  through a float's `toString`.
- Receipts are a sequence of records with an explicit "not parseable" case. JSON encoding is not
  modelled.
- Sale.ProcessSale: the final insert of the sale row can fail after stock has already been
  deducted, because it runs outside the stock transaction. The model does not model that
  foreign-key failure.
- Sale.ProcessSale: the payment method is typed, so the `|| 'CASH'` default cannot happen.
- Concurrency is left out. This covers the race between checking for an open shift and creating
  one, and concurrent allocation from the same lot. The model is sequential, and
  `Shifts.SingleOpenPreserved` holds only in it.
- Inventory.SearchProduct: the catalogue's storage order is a parameter, a scan that lists each
  product once. SQL `LIKE` is modelled as ASCII-case-insensitive substring matching.
- Labels.PeriodLabel: for the name of an `Object.prototype` member (`constructor`, `toString`,
  ...) the source's lookup returns that inherited member, which is not a string. The model
  returns the name and its contract says nothing about those names.
- Shifts.OpenShift: the date parser is outside the model. The caller passes the ISO rendering of
  the date, or nothing for a date that does not parse.
- Turno.HandleCloseShift: the call to the server is not composed into it.
  `Turno.CloseAmountsMatchLedger` and `Shifts.CloseShift` state the two halves.
- Outside the core and not modelled: user and category management, product CRUD apart from the
  barcode check, the dashboard metrics, the barcode lookup service, and the browser storage in
  `src/lib/store.ts` (lines 41-66).
