# Leonisa's Store — a Dafny model of the point-of-sale core

Leonisa's Store is a small browser point-of-sale application. A single
in-memory store holds the product catalog and the list of recorded sales;
the screens read and change it through a product API (list, list active,
save as update or create, soft delete) and a sales API (list, create).
This project models that store and the business logic of the screens built
on it:

- **Store** (`db.dfy`, module `Db`): the seed catalog, product save (update
  by id, or create with the next id and status defaulting to active), soft
  delete, and sale creation. Creation numbers the items from 1, prices each
  at the catalog's current price (the price a caller sends is ignored),
  stores the sum of the line totals as the total (no tax), gives the sale
  the next id, and puts it first. A request naming a product that is not in
  the catalog makes creation fail before anything is stored. The store is a
  class whose `Valid()` keeps product ids positive and distinct, sale ids
  distinct, and every sale consistent with its items.
- **Register** (`pos.dfy`, module `Pos`): the cart (add, change quantity
  with a floor of 1, remove), subtotal, the flat 8% tax and the total, the
  category tabs and product grid filter, and checkout. Checkout does nothing
  for an empty cart or while busy, and clears the cart only on success.
- **Log Book** (`manual_log.dfy`, module `ManualLog`): the multi-row manual
  entry form. It covers rows with search, selection and quantity, the grand
  total and the dropdown, and the save of the complete rows as one sale. The
  save rejects a form with no complete row and resets the form on success.
- **Dashboard** (`dashboard.dfy`, module `Dashboard`): today's and this
  month's revenue, active products, number of orders, the seven-day revenue
  chart with `MM/DD` labels, and the products-per-category tally (a loop
  proved against `Distinct` and `Count`).
- **Transaction screens** (`sale_views.dfy`, `sales_log.dfy`,
  `sales_history.dfy`): search by receipt number or amount, the date and
  amount filters, CSV export, zero-padded receipt numbers, the recorder's
  short id, the receipt's item lines and its 92% / 8% split.
- **Inventory** (`product_management.dfy`, module `ProductManagement`): the
  case-insensitive catalog search, the edit/new form laid over the product
  being edited, save and confirmed delete.

Shared pieces: `Seqs` (filter, sums, `Math.max(0, ...)`, `new Set`, counts),
`Text` (`startsWith`, `includes`, ASCII `toLowerCase`, string `<=`,
`substring`, `padStart`, `split`/`join`, decimal rendering of ids), `Dates`
(the day part of an ISO timestamp), `Types` (the record shapes and the
catalog search), `Wrappers` (`Option`, `Result`).

Money is Dafny `real`, so the 8%, 92% and 108% figures are exact.
Timestamps and days are strings and are compared as strings, as the screens
compare them. The clock, the random row identifiers of the Log Book, and
the runtime's renderings of numbers and dates are inputs or fields, not
computations.

### Behaviour the proofs make explicit

- `Pos.CheckoutTotalExcludesTax`: a sale recorded at the register stores
  the cart's pre-tax subtotal. The 8% tax shown to the customer is not
  stored. `SalesHistory.ReceiptOfCheckout` follows it to the receipt panel.
  The receipt computes tax as 8% of the stored amount, which matches the
  register. It shows 92% of that amount as the subtotal, which is less than
  the register's subtotal, and it shows a total lower than what the
  register charged.
- `ManualLog.StalePriceCountedInGrandTotal`: changing a selected row's
  search text clears its product but keeps its price, so the Log Book's
  grand total still counts a row that saving will drop.
- `SalesLog.CsvCommaInDate`: the export writes the local date and time
  unquoted. A rendering with a comma, such as `1/15/2025, 10:30:00 AM`,
  therefore produces five fields on that line.
- The two transaction screens read `total_amount`, `created_at`,
  `created_by` and `sale_items` from each sale. Those are the field names of
  a server-side sales table. The local store's sale records carry
  `totalAmount`, `createdAt` and `items` instead. The model describes these
  screens on records of the shape they read (`SaleViews.SaleView`), not on
  the local store's records.

## Model

| member | source | states |
|---|---|---|
| Db.ActiveProducts | db.ts:37 | exactly the catalog's active products, read at the active positions in increasing order, so catalog order and multiplicity are kept |
| Db.FindProduct | db.ts:69 | absent exactly when no product has the id; otherwise a catalog product with that id |
| Db.FindProductUnique | db.ts:69 | with distinct ids, looking a product up by its id finds that product |
| Db.UpdateProducts | db.ts:40-41 | the catalog keeps its length and ids; only the product with the patch's id changes |
| Db.NextProductId | db.ts:45 | the new id is one more than the largest existing id, or 1 when no id is positive: at least 1, above every id, and either 1 or one past an existing id |
| Db.Deactivate | db.ts:54-58 | the product with the id becomes inactive; every other product is unchanged |
| Db.FirstMissing | db.ts:68-69 | the first request whose product is not in the catalog; all earlier ones are found |
| Db.NextSaleId | db.ts:84 | the new sale id is one more than the largest existing sale id, or 1 when no sale id is positive: at least 1, above every sale id, and either 1 or one past an existing sale id |
| Db.SaleItems | db.ts:68-80 | one item per request, numbered from 1, with the product's id, current price, the requested quantity and price times quantity |
| Db.NewSale | db.ts:64-88 | the sale is consistent (total = sum of line totals, items point to it), its id is the next sale id (so above every existing one), and its items follow the requests at catalog prices |
| Db.SaleTotalIsCatalogSum | db.ts:82 | the stored total is the sum over the requests of catalog price times quantity |
| Db.EmptySale | db.ts:64-88 | a sale of no requests has no items and total 0 |
| Db.SaleIgnoresRequestPrice | db.ts:64-80 | requests that differ only in the price they send record the same sale |
| Db.Store.constructor | db.ts:12-23 | the seed catalog of three active products and no sales; the store invariant holds |
| Db.Store.GetAll | db.ts:36 | under the store invariant, the listed products' ids are positive and distinct |
| Db.Store.GetActive | db.ts:37 | the active products of the current catalog |
| Db.Store.GetSales | db.ts:63 | under the store invariant, the listed sales' ids are distinct and each total is the sum of its items' line totals |
| Db.Store.Save | db.ts:38-53 | a patch with a non-zero id updates that product; otherwise a new product with the next id is appended; sales untouched; invariant kept |
| Db.Store.Delete | db.ts:54-58 | the product becomes inactive and stays in the catalog; sales untouched; invariant kept |
| Db.Store.CreateSale | db.ts:64-93 | succeeds exactly when every requested product exists; the new sale goes first; on failure nothing changes and the error names the first missing product |
| Db.UpdateUnknownIdIsNoOp | db.ts:41 | saving with an id no product has changes nothing |
| Db.UpdateThenFind | db.ts:41 | after an update the product is found under its id, patch fields laid over the old ones, modification time refreshed |
| Db.CreateThenFind | db.ts:43-50 | a created product has a fresh id, is found under it, and is active unless the patch says otherwise |
| Db.DeactivateIdempotent | db.ts:56 | deleting twice is deleting once |
| Db.DeactivateUnknownIsNoOp | db.ts:56 | deleting an unknown id changes nothing |
| Db.DeactivateThenFind | db.ts:56 | a deleted product is still found, inactive, and drops out of the active listing |
| Pos.AddLine | components/POS.tsx:43-51 | a product already in the cart gets one more unit on its line, every other line unchanged; a new product becomes a last line with quantity 1; distinct lines and positive quantities are kept |
| Pos.AddExistingLine | components/POS.tsx:45-48 | adding a product already in the cart raises that line by one and changes nothing else |
| Pos.AddLineSubtotal | components/POS.tsx:43-51 | the subtotal grows by the unit price of the line that grew |
| Pos.ChangeQuantity | components/POS.tsx:53-61 | only the line of the id changes; its quantity becomes quantity + delta, or exactly 1 when that falls below 1; invariants kept |
| Pos.RemoveLine | components/POS.tsx:63-65 | the product has no line afterwards; invariants kept |
| Pos.RemoveExistingLine | components/POS.tsx:63-65 | removing takes out exactly that line, keeps the rest in order, and lowers the subtotal by its amount |
| Pos.RemoveAbsentLine | components/POS.tsx:63-65 | removing a product with no line changes nothing |
| Pos.TotalIsSubtotalPlusTax | components/POS.tsx:67-69 | `Tax` is 8% of `Subtotal` and `Total` is 108% of it |
| Pos.SeedCartExample | components/POS.tsx:67-69 | two bags of the 45.00 espresso beans and one 12.50 dark chocolate from the seed catalog: subtotal 102.50, tax 8.20, total 110.70 |
| Pos.CheckoutRequests | components/POS.tsx:76-80 | one request per cart line, in order, with the line's product id, quantity and price |
| Pos.Categories | components/POS.tsx:34 | "All" first, then each product category exactly once, and nothing else |
| Pos.CategoriesInOrder | components/POS.tsx:34 | the tabs after "All" are the catalog's categories in the order they first appear |
| Pos.FilteredProducts | components/POS.tsx:36-41 | exactly the products in the chosen category (or all) whose name contains the term, ignoring case, in catalog order |
| Pos.Register.constructor | components/POS.tsx:15-17 | an empty cart, not processing |
| Pos.Register.AddToCart | components/POS.tsx:43-51 | the cart becomes the added cart; invariants kept |
| Pos.Register.UpdateQuantity | components/POS.tsx:53-61 | the cart becomes the changed cart; invariants kept |
| Pos.Register.RemoveFromCart | components/POS.tsx:63-65 | the cart becomes the cart without that product; invariants kept |
| Pos.Register.Checkout | components/POS.tsx:71-91 | skipped for an empty cart or while busy; otherwise records the cart's sale and clears the cart exactly when every product exists, else keeps the cart and the sales |
| Pos.CheckoutTotalExcludesTax | components/POS.tsx:67-82 | with current prices the stored total is the cart's subtotal, and the register's total is 1.08 times it |
| ManualLog.SelectInRows | components/ManualLog.tsx:52-65 | only the chosen row changes: it takes the product's id, name and price and keeps its quantity |
| ManualLog.SetRowQuantity | components/ManualLog.tsx:67-71 | only the chosen row changes: its quantity becomes the given one, or 0 when that is negative |
| ManualLog.SetRowQuery | components/ManualLog.tsx:73-78 | only the chosen row changes: the text is stored, the product kept only when the text is unchanged, the price kept |
| ManualLog.RemoveRowFrom | components/ManualLog.tsx:46-50 | a single row is never removed; otherwise the remaining rows are old rows other than the one removed |
| ManualLog.ValidRows | components/ManualLog.tsx:85 | exactly the rows with a product and a positive quantity |
| ManualLog.ValidRowsInOrder | components/ManualLog.tsx:85 | the valid rows keep the form's order and multiplicity, so the requests follow the rows from top to bottom |
| ManualLog.SaveRequests | components/ManualLog.tsx:94-98 | one request per complete row, in order, with its product id, positive quantity and price |
| ManualLog.DropdownOptions | components/ManualLog.tsx:192-198 | empty unless the row has text and no product; then exactly the products whose name or category contains the text, ignoring case, in catalog order |
| ManualLog.LogBook.constructor | components/ManualLog.tsx:18-20 | one blank row and no error |
| ManualLog.LogBook.AddRow | components/ManualLog.tsx:42-44 | a blank row with a fresh id is appended |
| ManualLog.LogBook.RemoveRow | components/ManualLog.tsx:46-50 | rows as `RemoveRowFrom`; at least one row remains and ids stay distinct |
| ManualLog.LogBook.SelectProduct | components/ManualLog.tsx:52-65 | rows as `SelectInRows` |
| ManualLog.LogBook.UpdateQuantity | components/ManualLog.tsx:67-71 | rows as `SetRowQuantity` |
| ManualLog.LogBook.UpdateSearchQuery | components/ManualLog.tsx:73-78 | rows as `SetRowQuery` |
| ManualLog.LogBook.HandleSave | components/ManualLog.tsx:84-109 | no complete row: error, nothing stored; otherwise the complete rows become one sale and the form resets, or on failure the error is shown and the rows kept |
| ManualLog.RemoveRowKeepsOne | components/ManualLog.tsx:46-50 | removing leaves at least one row with distinct ids, and with more than one row takes out exactly the row with that id |
| ManualLog.ZeroQuantityRowNotSaved | components/ManualLog.tsx:67-85 | a quantity set to 0 or below is stored as 0 and that row is not submitted |
| ManualLog.ResetFormIsEmpty | components/ManualLog.tsx:80-101 | the form the save resets to totals 0 and has nothing to save |
| ManualLog.UnselectedRowsAddNothing | components/ManualLog.tsx:80-82 | when rows without a product have price 0, the grand total is the total of the selected rows |
| ManualLog.StalePriceCountedInGrandTotal | components/ManualLog.tsx:73-82 | for any row, typing new search text clears its product while its amount, and so the grand total, stay the same; the row is no longer saved |
| Types.SearchIgnoresTermCase | components/ProductManagement.tsx:30-35 | the catalog search gives the same answer for a term and its lower-case form |
| Types.EmptyTermMatches | components/ProductManagement.tsx:30-35 | an empty term matches every product |
| Dates.DateOfIsoTimestamp | components/Dashboard.tsx:11 | the date part of an ISO timestamp is its first ten characters |
| Dashboard.MonthKey | components/Dashboard.tsx:12 | the month key is a prefix of the day, seven characters long for a full day |
| Dashboard.RevenueAsSum | components/Dashboard.tsx:14-16 | a day's or month's revenue is the sum over all sales of their amount when they fall in it |
| Dashboard.RevenueOfPrefix | components/Dashboard.tsx:14-20 | with no negative totals, a day's revenue never exceeds its month's |
| Dashboard.RevenueBounds | components/Dashboard.tsx:14-20 | with no negative totals, a day's revenue is at least 0 and at most its month's |
| Dashboard.ComputeStats | components/Dashboard.tsx:10-28 | today's figure is the revenue of the UTC day of the moment, the month's the revenue of its first seven characters, active products the number of active products, orders the number of sales; 0 <= today <= month when no total is negative |
| Dashboard.DayLabelOfIsoDay | components/Dashboard.tsx:37 | the chart label of a `YYYY-MM-DD` day is `MM/DD` |
| Dashboard.ChartData | components/Dashboard.tsx:30-45 | seven bars, one per given day, each with its `MM/DD` label and the revenue of sales on that day |
| Dashboard.ChartCoversWindow | components/Dashboard.tsx:30-45 | over seven distinct days the bars add up to the revenue of the sales on any of them: no sale is counted twice |
| Dashboard.CategoryData | components/Dashboard.tsx:47-53 | one slice per distinct category in order of first appearance, each holding how many products carry it, summing to the catalog size |
| SaleViews.SearchByPartOfId | components/SalesHistory.tsx:29-34 | typing any run of digits of a receipt number finds that receipt |
| SaleViews.SearchByPartOfAmount | components/SalesHistory.tsx:29-34 | typing any run of characters of an amount finds that receipt |
| SaleViews.EmptySearchMatches | components/SalesHistory.tsx:29-34 | an empty search matches every sale |
| SaleViews.ItemName | components/SalesHistory.tsx:122 | the product's name when present and non-empty; `Loading item...` when it is missing or empty |
| SaleViews.ReceiptLines | components/SalesHistory.tsx:119-128 | one line per stored item, in order, with its name, quantity, price at sale and line total; none without an item list |
| SaleViews.ItemsCount | components/SalesLog.tsx:74 | the number of listed items, 0 without an item list |
| SalesLog.FilteredSales | components/SalesLog.tsx:36-54 | exactly the sales that pass the search, the date range on their UTC day and the amount range, in stored order |
| SalesLog.NoFiltersShowAll | components/SalesLog.tsx:56-64 | with every filter cleared the whole list is visible |
| SalesLog.SingleDayRange | components/SalesLog.tsx:43-45 | a range whose two ends are the same day selects exactly that day |
| SalesLog.TighterAmountRange | components/SalesLog.tsx:48-50 | narrowing the amount range never adds a sale |
| SalesLog.CsvLines | components/SalesLog.tsx:66-76 | without line breaks in the rendered texts, the export is the header then one line per sale |
| SalesLog.CsvLinesOfPart | components/SalesLog.tsx:66-76 | when no loaded sale's texts hold a line break, the export of any selection of them is the header then one line per selected sale |
| SalesLog.CsvRowFields | components/SalesLog.tsx:70-75 | without commas in the rendered texts, a line splits back into its four values |
| SalesLog.CsvCommaInDate | components/SalesLog.tsx:70-75 | a local date and time holding a comma makes the line five fields, the time in the Total Amount column |
| SalesLog.SalesLogScreen.constructor | components/SalesLog.tsx:6-17 | no sales and cleared filters |
| SalesLog.SalesLogScreen.Visible | components/SalesLog.tsx:36-54 | exactly the loaded sales that pass the current filters, in stored order |
| SalesLog.SalesLogScreen.ExportText | components/SalesLog.tsx:66-76 | without line breaks in the rendered texts, the download is the header then one line per visible sale, in order |
| SalesLog.SalesLogScreen.Load | components/SalesLog.tsx:20-30 | the list is replaced, the filters kept |
| SalesLog.SalesLogScreen.SetFilters | components/SalesLog.tsx:126-165 | the filters become the form's values, the list kept |
| SalesLog.SalesLogScreen.ResetFilters | components/SalesLog.tsx:56-64 | the filters are cleared and every loaded sale is visible again |
| SalesHistory.SearchSales | components/SalesHistory.tsx:29-34 | exactly the sales whose receipt number or amount contains the term, in order |
| SalesHistory.EmptySearchShowsAll | components/SalesHistory.tsx:29-34 | an empty search lists every sale |
| SalesHistory.PaddedReadsBack | components/SalesHistory.tsx:79 | the zero-padded digits read back as the id |
| SalesHistory.ReceiptNumber | components/SalesHistory.tsx:79 | `#` then at least six digits ending in the id's digits and reading back as the id |
| SalesHistory.ReceiptNumberInjective | components/SalesHistory.tsx:79 | different ids show different receipt numbers |
| SalesHistory.AuthLabel | components/SalesHistory.tsx:114 | at most the first eight characters of the recorder's id, then `...` |
| SalesHistory.ReceiptBreakdown | components/SalesHistory.tsx:137-145 | subtotal and tax add up to the stored amount, and the tax is 8% of it |
| SalesHistory.ReceiptOfCheckout | components/SalesHistory.tsx:137-145 | for a register sale the receipt's tax is the register's, but its subtotal and total are that tax short of the register's |
| ProductManagement.FilteredProducts | components/ProductManagement.tsx:30-35 | exactly the products, inactive ones included, whose name or category contains the term, ignoring case, in catalog order |
| ProductManagement.EmptySearchListsAll | components/ProductManagement.tsx:30-35 | an empty search lists the whole catalog |
| ProductManagement.PatchOf | components/ProductManagement.tsx:141 | the edited product as a complete patch, which takes the update path exactly when its id is non-zero |
| ProductManagement.FormPatch | components/ProductManagement.tsx:40-46 | the form's four fields over the edited product, keeping its id and creation time; always complete; nothing edited means no id |
| ProductManagement.FormDefaultStatus | components/ProductManagement.tsx:208 | the edited product's status, otherwise active |
| ProductManagement.EditSavesForm | components/ProductManagement.tsx:37-52 | saving the form of an existing product updates it in place with the form's fields and the save time |
| ProductManagement.NewItemSavesForm | components/ProductManagement.tsx:37-52 | saving a new item's form creates a product with the next free id, the form's fields and the save time |
| ProductManagement.InventoryScreen.constructor | components/ProductManagement.tsx:8-12 | empty list and search, form closed, nothing edited |
| ProductManagement.InventoryScreen.Listed | components/ProductManagement.tsx:30-35 | exactly the loaded products that match the search, in catalog order |
| ProductManagement.InventoryScreen.Load | components/ProductManagement.tsx:13-23 | the list becomes the whole catalog |
| ProductManagement.InventoryScreen.SetSearchTerm | components/ProductManagement.tsx:93 | the search term changes and nothing else |
| ProductManagement.InventoryScreen.StartNew | components/ProductManagement.tsx:76 | the form opens empty, its status selector at active |
| ProductManagement.InventoryScreen.StartEdit | components/ProductManagement.tsx:141 | the form opens on the product, its status selector at the product's status |
| ProductManagement.InventoryScreen.CloseModal | components/ProductManagement.tsx:168 | the form closes and keeps what it was editing |
| ProductManagement.InventoryScreen.HandleSave | components/ProductManagement.tsx:37-52 | the store updates or creates as the patch says, the list reloads, the form closes with nothing edited |
| ProductManagement.InventoryScreen.HandleDelete | components/ProductManagement.tsx:54-59 | when confirmed the product is archived and the list reloads; otherwise nothing changes |

## Left out

- Persistence: the store's load from and save to browser storage (JSON), and the fallback to the seed data when storage is empty, are not modelled; the store is one object that the screens share.
- Users, roles, sign-in, sessions and the navigation shell (`App.tsx`, the `User` record) are not part of this model.
- Rendering, styling, focus, timers, the success banners, the loading flags and the `activeDropdownId` focus check of the Log Book dropdown are not modelled; the dropdown is modelled as if its row had focus.
- Asynchrony: each screen operation is modelled as one atomic step, and the busy flags (`isProcessing`, `isSaving`) only as far as checkout's guard uses one.
- The clock and random identifiers: `new Date()` timestamps are parameters, the seven chart days are given as the timestamps of seven moments (date arithmetic is not modelled), and the Log Book's random row ids are a counter.
- Number and date rendering: `toString()` of amounts, `toLocaleString()` of dates, `toFixed(2)` of prices, and the UTC conversion of `new Date(...).toISOString()` are given as text fields of `SaleViews.SaleView`, not computed.
- Parsing of form inputs: `parseFloat`, `parseInt(...) || 0` and `Number(...)` are not modelled; the forms deliver numbers (`ProductManagement.ProductForm`, an `Option<real>` per amount bound, an `int` quantity). In particular the `NaN` a non-numeric amount bound would give is not modelled.
- Floating point: amounts are exact reals, so rounding differences in sums and in the 8% / 92% figures are not modelled.
- Case folding is ASCII only; Unicode case mappings are not modelled.
- Dashboard.CategoryData: gives slices in order of first appearance with a count for every category; the tally is a plain object, so the runtime lists integer-like category names first in ascending order, a category named after an inherited object member (`constructor`, `toString`, ...) starts from that member and ends up as text rather than a count, and a category named `__proto__` gets no slice. None of that is modelled.
- Db.Store.Save: requires a patch without an id to carry a name, a price and a category (the record type demands them and the only caller, the inventory form, always supplies them); a partial create is not modelled.
- The CSV download itself (file creation and naming) is not modelled; only the exported text is.
- The sales screens' field names (`total_amount`, `created_at`, `created_by`, `sale_items`, `products.name`) do not exist on the local store's sale records; the model does not connect the two shapes and describes those screens on records of the shape they read.
