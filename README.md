# toko-fadli point of sale: verified model of the cashier logic

This project models the business logic of the toko-fadli point-of-sale
frontend and proves properties of it in Dafny. It covers five parts.

- **Package ("tier") pricing** (module `Pricing`). A product can be sold in
  packages: an exact quantity for a fixed total price.
  - `validateTiers` reports three kinds of finding for each tier: a quantity
    that is not positive, a quantity already used by an earlier tier, and a
    negative price.
  - `normalizeTiers` orders the tiers by quantity.
  - `calculateLineTotal` charges a package's total when the quantity matches
    a package exactly, and the unit price times the quantity otherwise.
- **The cashier cart** (module `PosCart`, class `Cashier`). This is the
  screen's local cart.
  - Products are added by click or by barcode, and lines can be changed or
    removed. Adding a unit and changing a quantity are checked against
    stock; removing a line is not.
  - The total and the change are derived values.
  - Checkout has guards that run before anything is sent to the store
    service.
- **The product form** (module `ProductForm`, class `ProductFormDialog`).
  - The package-row editor can add, remove and update rows, and look up a
    row's finding.
  - Submit checks the fields, skips blank rows and parses the rest. It then
    validates and orders the packages, and only then saves.
- **The sales report** (module `ReportGrouping`). `groupTransactionsByPeriod`
  buckets transactions by local day, by Monday-start week or by month. It
  emits one line per bucket with the bucket's total and count, and sorts the
  lines by label.
- **The transaction history date filter** (module `TransactionFilter`). The
  start bound is inclusive. The end bound is one day after the instant the end
  date is read as. Both dates are read as midnight UTC.

The entities come from the store service's interface, `backend.d.ts`, and are
in module `Backend`: `Tier`, `Product`, `CartItem` and `Transaction`. Every
`bigint` and `number` is an unbounded `int`. The other modules are shared
helpers:
- `Wrappers`: `Option`.
- `Seqs`: order-preserving filter, subsequences, sums.
- `Sorting`: an insertion sort under a total preorder. It stands for
  `Array.prototype.sort`. The model proves that the result is ordered, is a
  permutation of the input, and that a list already in order comes back
  unchanged. It does not prove stability in general.
- `Text`: JavaScript's `trim` whitespace set, and code-point string order.

How the source's form is kept:
- Code that updates React state in place is a class. Its fields are the state
  variables and its methods are the handlers.
- The loops of `validateTiers`, of the submit row scan and of the report's
  two passes are methods with `while` loops. Each method is proved equal to a
  recursive specification function, and the properties are proved about
  that function.
- Pure computations are functions.

Quirks of the product form that the model keeps as written:
- `removeTier` drops the findings about the removed row and renumbers none
  (`RemoveTierKeepsLaterIndices`).
- Submit numbers its findings by position among the filled rows, not by the
  row they are shown against (`FindingIndexSkipsBlankRows`).

## Model

| member | source | states |
|---|---|---|
| Pricing.ValidateTiers | src/frontend/src/lib/pricing.ts:16-51 | the loop returns exactly the findings of the specification: tier by tier in order, a not-positive quantity, then a duplicate of an earlier quantity, then a negative price |
| Pricing.CheckTier | src/frontend/src/lib/pricing.ts:21-47 | one tier's checks, given the quantities of the tiers before it, report exactly that tier's findings, in the order not-positive, duplicate, negative price |
| Pricing.TierErrorsMember | src/frontend/src/lib/pricing.ts:20-48 | a finding is reported if and only if its index is a tier's position and it is one of that tier's own findings |
| Pricing.ValidateEmptyIffValid | src/frontend/src/lib/pricing.ts:16-51 | no findings if and only if every quantity is positive, no two quantities are equal, and no price is negative |
| Pricing.NotPositiveFlagged | src/frontend/src/lib/pricing.ts:22-28 | tier i gets the "Jumlah harus lebih dari 0" quantity finding if and only if its quantity is at most 0 |
| Pricing.DuplicateFlagged | src/frontend/src/lib/pricing.ts:31-38 | tier i gets the "Jumlah sudah ada" finding if and only if an earlier tier has the same quantity |
| Pricing.LaterDuplicateFlagged | src/frontend/src/lib/pricing.ts:31-38 | of two tiers with equal quantities, the later one is flagged |
| Pricing.FirstOccurrenceNotFlagged | src/frontend/src/lib/pricing.ts:31-38 | the first tier with a given quantity gets no duplicate finding |
| Pricing.NegativePriceFlagged | src/frontend/src/lib/pricing.ts:41-47 | tier i gets the totalPrice finding if and only if its price is negative |
| Pricing.FindingsJustified | src/frontend/src/lib/pricing.ts:20-48 | every finding names an existing tier, is one of the three kinds, and its condition holds for that tier |
| Pricing.FindingsOrdered | src/frontend/src/lib/pricing.ts:20-48 | findings come out in non-decreasing index order, each index below the tier count |
| Pricing.AtMostThreePerTier | src/frontend/src/lib/pricing.ts:20-48 | no tier gets more than three findings, and indices outside the list get none |
| Pricing.NormalizeTiers | src/frontend/src/lib/pricing.ts:56-58 | the result is a permutation of the input, ordered by quantity ascending |
| Pricing.NormalizeSortedUnchanged | src/frontend/src/lib/pricing.ts:56-58 | tiers already in quantity order come back unchanged |
| Pricing.NormalizeIdempotent | src/frontend/src/lib/pricing.ts:56-58 | normalizing twice is normalizing once |
| Pricing.NormalizePreservesValidity | src/frontend/src/lib/pricing.ts:56-58 | normalizing valid tiers keeps them valid |
| Pricing.FindTier | src/frontend/src/lib/pricing.ts:67 | no tier is found if and only if no tier has the quantity; otherwise the first tier with it is found |
| Pricing.CalculateLineTotal | src/frontend/src/lib/pricing.ts:65-75 | an exact match charges the first matching tier's total; with no match the charge is price times quantity |
| Pricing.LineTotalIgnoresPriceOnMatch | src/frontend/src/lib/pricing.ts:67-71 | on a tier match the unit price has no effect |
| Pricing.LineTotalWithoutTiers | src/frontend/src/lib/pricing.ts:74 | a product without tiers always costs price times quantity |
| Pricing.LineTotalOfZero | src/frontend/src/lib/pricing.ts:74 | zero units cost nothing unless a tier has quantity 0 |
| Pricing.LineTotalNonNegative | src/frontend/src/lib/pricing.ts:65-75 | non-negative prices and quantity give a non-negative line total |
| Pricing.PackagePriceExample | src/frontend/src/lib/pricing.ts:65-75 | a 5-for-12000 package on a 3000 product: 5 units cost 12000, 3 cost 9000 and 6 cost 18000 |
| Sorting.SortSorted | src/frontend/src/lib/pricing.ts:57 | under a total preorder the sort's result is in order |
| Sorting.SortOfSorted | src/frontend/src/lib/pricing.ts:57 | a list already in order comes back unchanged |
| Sorting.SortIdempotent | src/frontend/src/lib/pricing.ts:57 | sorting twice is sorting once |
| PosCart.FindLine | src/frontend/src/pages/POSPage.tsx:59 | no line is found if and only if no line has the product id; a found line is in the cart and has that id |
| PosCart.FindLineAt | src/frontend/src/pages/POSPage.tsx:114 | in a cart with one line per product, the line found is the one at the product's position |
| PosCart.AddOne | src/frontend/src/pages/POSPage.tsx:58-71 | lines of other products are untouched; a new product is appended with one unit; in a well-formed cart the product's units rise by exactly one and the cart stays well-formed |
| PosCart.AddOneAt | src/frontend/src/pages/POSPage.tsx:59-68 | in a well-formed cart, adding a product that already has a line raises exactly that line's quantity by one, in place, keeping its product record; no line is added and every other line stays |
| PosCart.AddOneWithinStock | src/frontend/src/pages/POSPage.tsx:62-67 | when the stock check passes, adding a unit keeps every line within its product's stock, provided the cart's copy of the product carries the same stock |
| PosCart.SetQuantityAt | src/frontend/src/pages/POSPage.tsx:66-68 | setting a product's quantity changes only that product's line |
| PosCart.ChangeQuantity | src/frontend/src/pages/POSPage.tsx:137-155 | lines are only dropped or changed, never added; one line per product, positive quantities and quantities within stock are kept |
| PosCart.ChangeQuantityAt | src/frontend/src/pages/POSPage.tsx:140-150 | the product's line is dropped when the new quantity is at most 0, kept when it exceeds stock, and set otherwise; other lines keep their places |
| PosCart.ChangeQuantityOthers | src/frontend/src/pages/POSPage.tsx:151 | changing a product that has no line leaves the cart as it was |
| PosCart.RemoveLines | src/frontend/src/pages/POSPage.tsx:157-160 | no line of the product remains; one line per product and stock bounds are kept |
| PosCart.RemoveLinesAt | src/frontend/src/pages/POSPage.tsx:158 | removing the product at position k deletes exactly that line and keeps the others in order |
| PosCart.RemoveLinesAbsent | src/frontend/src/pages/POSPage.tsx:158 | removing a product without a line changes nothing |
| PosCart.CartTotalAppend | src/frontend/src/pages/POSPage.tsx:162-167 | the total of two carts joined is the sum of their totals |
| PosCart.CartTotalSplit | src/frontend/src/pages/POSPage.tsx:162-167 | the total is the line total at k plus the total of the other lines |
| PosCart.CartTotalNonNegative | src/frontend/src/pages/POSPage.tsx:162-167 | non-negative prices and quantities give a non-negative total |
| PosCart.ChangeAmount | src/frontend/src/pages/POSPage.tsx:169-173 | the change is never negative; it is 0 unless the method is "Tunai"; with enough cash, total plus change equals the cash received |
| PosCart.FindBySku | src/frontend/src/pages/POSPage.tsx:90-92 | no product is found if and only if none has the SKU, compared in lower case; otherwise the first product with that SKU is returned |
| PosCart.Cashier.constructor | src/frontend/src/pages/POSPage.tsx:23-27 | the screen opens with an empty cart and no error, "Tunai" selected and no cash entered |
| PosCart.Cashier.AddToLocalCart | src/frontend/src/pages/POSPage.tsx:52-73 | out of stock: cart unchanged and "Produk habis"; otherwise one unit is added when the stock allows it, and the error is cleared; the cart keeps one line per product and stays within stock |
| PosCart.Cashier.HandleBarcodeKeyDown | src/frontend/src/pages/POSPage.tsx:75-135 | only Enter on a non-blank input acts; it reports products not loaded, an unknown SKU, no stock or not enough stock with the cart unchanged, else adds one unit; the input is cleared |
| PosCart.Cashier.UpdateQuantity | src/frontend/src/pages/POSPage.tsx:137-155 | the cart becomes the changed cart; the error becomes "Stok tidak cukup" past stock, is cleared on a change, and is kept otherwise |
| PosCart.Cashier.RemoveFromCart | src/frontend/src/pages/POSPage.tsx:157-160 | the product's lines are removed and the error is cleared; nothing else changes |
| PosCart.Cashier.SelectPaymentMethod | src/frontend/src/pages/POSPage.tsx:25 | the chosen method is stored |
| PosCart.Cashier.EnterCashReceived | src/frontend/src/pages/POSPage.tsx:26 | the entered cash is stored |
| PosCart.Cashier.HandleCheckout | src/frontend/src/pages/POSPage.tsx:175-219 | nothing is sent if and only if the cart is empty, no method is chosen, or cash is short, and each case gets its message; otherwise the handler starts a request of every line, in order, then the payment; success empties the cart and resets the payment to "Tunai", failure keeps the state and shows the message |
| ProductForm.DropIndex | src/frontend/src/components/products/ProductFormDialog.tsx:122 | the row at the index is deleted and the rest kept in order; an index outside the rows deletes nothing |
| ProductForm.RemoveTierShiftsRows | src/frontend/src/components/products/ProductFormDialog.tsx:122 | every other row survives, one place earlier when it was after the removed row |
| ProductForm.RemoveTierKeepsLaterIndices | src/frontend/src/components/products/ProductFormDialog.tsx:123 | a finding survives a removal if and only if its index is not the removed row's, and its index is not renumbered |
| ProductForm.UpdateTierClearsOnlyThatField | src/frontend/src/components/products/ProductFormDialog.tsx:132 | exactly the findings about that field of that row are cleared, and the rest keep their order |
| ProductForm.FindTierError | src/frontend/src/components/products/ProductFormDialog.tsx:233-236 | nothing if and only if no finding has that row and field; otherwise the message of the first such finding |
| ProductForm.FieldError | src/frontend/src/components/products/ProductFormDialog.tsx:140-160 | no complaint if and only if name and unit are not blank and price and stock parse to non-negative numbers; a blank name is reported first |
| ProductForm.ParseFailureSticks | src/frontend/src/components/products/ProductFormDialog.tsx:174-177 | once a row fails to parse, the submit's parse fails whatever follows |
| ProductForm.ParseTierRowsMeaning | src/frontend/src/components/products/ProductFormDialog.tsx:163-180 | parsing succeeds if and only if every filled row parses; it then yields the filled rows' tiers in order, with blank rows skipped |
| ProductForm.ParseTierRowsSucceeds | src/frontend/src/components/products/ProductFormDialog.tsx:163-180 | parsing the rows succeeds if and only if every filled row parses |
| ProductForm.ParseTierRowsYields | src/frontend/src/components/products/ProductFormDialog.tsx:163-180 | a successful parse yields one tier per filled row, in the order of the rows |
| ProductForm.ParseRows | src/frontend/src/components/products/ProductFormDialog.tsx:163-180 | the row loop computes exactly the parse of the rows |
| ProductForm.PrepareRequest | src/frontend/src/components/products/ProductFormDialog.tsx:137-222 | the submit checks, in order, give exactly the specified outcome: a refusal with its message and findings, or the request |
| ProductForm.SentRequestWellFormed | src/frontend/src/components/products/ProductFormDialog.tsx:140-222 | a request is sent only with a non-blank name and unit and non-negative price and stock; its tiers are the normalized parse of the filled rows, valid and strictly ascending in quantity |
| ProductForm.InvalidTiersBlockSubmit | src/frontend/src/components/products/ProductFormDialog.tsx:182-190 | tiers that parse but fail validation are refused with "Ada kesalahan pada paket harga" and all their findings |
| ProductForm.FindingIndexSkipsBlankRows | src/frontend/src/components/products/ProductFormDialog.tsx:165-186 | with a blank first row, a bad quantity in the second row is reported for row 0 |
| ProductForm.ProductFormDialog.constructor | src/frontend/src/components/products/ProductFormDialog.tsx:26-36 | the form opens with empty fields, no rows, no error and no findings |
| ProductForm.ProductFormDialog.AddTier | src/frontend/src/components/products/ProductFormDialog.tsx:117-119 | exactly one empty row is appended |
| ProductForm.ProductFormDialog.RemoveTier | src/frontend/src/components/products/ProductFormDialog.tsx:121-124 | the row is deleted, and the findings about that index are dropped |
| ProductForm.ProductFormDialog.UpdateTier | src/frontend/src/components/products/ProductFormDialog.tsx:126-133 | only that field of that row is replaced, and the findings about it are cleared |
| ProductForm.ProductFormDialog.HandleSubmit | src/frontend/src/components/products/ProductFormDialog.tsx:135-231 | a refusal shows its message and findings and changes no field; a request is sent, then either the form is reset or the save failure is shown |
| ProductForm.ProductFormDialog.Apply | src/frontend/src/components/products/ProductFormDialog.tsx:186-229 | the state after a submit is exactly what its outcome prescribes |
| ReportGrouping.InstantMillisTruncates | src/frontend/src/utils/reportGrouping.ts:17 | the instant is the timestamp's milliseconds with the fraction dropped toward zero |
| ReportGrouping.LocalDayContains | src/frontend/src/utils/reportGrouping.ts:22 | the local day is the one whose 24 local hours contain the instant |
| ReportGrouping.WeekStartIsMonday | src/frontend/src/utils/reportGrouping.ts:25 | the week start is a Monday, at most six days before the day |
| ReportGrouping.WeeklyKeyIsMonday | src/frontend/src/utils/reportGrouping.ts:24-26 | a transaction's weekly key is the Monday on or before its local day |
| ReportGrouping.SameWeekIffSameMonday | src/frontend/src/utils/reportGrouping.ts:24-26 | two days share a weekly key if and only if the second lies in the seven days from the first's Monday |
| ReportGrouping.MonthStartExample | src/frontend/src/utils/reportGrouping.ts:28 | 2024-01-07 is in the month that starts on 2024-01-01 |
| ReportGrouping.Keys | src/frontend/src/utils/reportGrouping.ts:14-37 | keys are listed once each |
| ReportGrouping.KeysInFirstOccurrenceOrder | src/frontend/src/utils/reportGrouping.ts:14-37 | keys are listed in order of first occurrence, the insertion order of the `Map`: of two listed keys, the earlier one's first transaction comes first |
| ReportGrouping.KeysMembers | src/frontend/src/utils/reportGrouping.ts:16-37 | a key is listed if and only if some transaction has it |
| ReportGrouping.Accumulate | src/frontend/src/utils/reportGrouping.ts:14-37 | the first loop builds exactly the map of buckets, with the keys in insertion order |
| ReportGrouping.BucketsKeys | src/frontend/src/utils/reportGrouping.ts:32-36 | the map has a bucket for a key if and only if some transaction has that key |
| ReportGrouping.BucketsTally | src/frontend/src/utils/reportGrouping.ts:32-36 | a key's bucket holds the total amount and the number of its transactions |
| ReportGrouping.TallyIsSumOfBucket | src/frontend/src/utils/reportGrouping.ts:32-36 | a key's tally is the sum over exactly the transactions with that key |
| ReportGrouping.MetKeyCountsOne | src/frontend/src/utils/reportGrouping.ts:32-36 | every listed key counts at least one transaction |
| ReportGrouping.SumTalliesOfAllKeys | src/frontend/src/utils/reportGrouping.ts:32-36 | summed over distinct keys that cover all transactions, the tallies add up to the sum over all transactions |
| ReportGrouping.Records | src/frontend/src/utils/reportGrouping.ts:39-60 | one line per key, in key order, with the key's label, total and count |
| ReportGrouping.RecordsSums | src/frontend/src/utils/reportGrouping.ts:39-60 | the lines' totals and counts add up to the keys' tallies |
| ReportGrouping.GroupTransactionsByPeriod | src/frontend/src/utils/reportGrouping.ts:10-64 | the method returns exactly the specified report; no transactions give an empty report |
| ReportGrouping.ReportAddsUp | src/frontend/src/utils/reportGrouping.ts:32-36 | the report's totals add up to the sum of all amounts, and its counts to the number of transactions |
| ReportGrouping.ReportOneLinePerKey | src/frontend/src/utils/reportGrouping.ts:39-60 | one line per distinct key: the lines are a permutation of the keys' lines, and each counts at least one transaction |
| ReportGrouping.ReportSortedByLabel | src/frontend/src/utils/reportGrouping.ts:63 | the lines are in descending label order |
| Text.LexLeTotal | src/frontend/src/utils/reportGrouping.ts:63 | any two labels compare one way or the other |
| Text.LexLeTransitive | src/frontend/src/utils/reportGrouping.ts:63 | the label comparison is transitive |
| Text.LexLeAntisymmetric | src/frontend/src/utils/reportGrouping.ts:63 | labels that compare both ways are equal |
| Text.BlankIffTrimmedEmpty | src/frontend/src/components/products/ProductFormDialog.tsx:166 | a text is all whitespace if and only if trimming it leaves the empty text |
| ReportGrouping.LabelOrderIsNotRecency | src/frontend/src/utils/reportGrouping.ts:62-63 | with daily labels, Sunday 2024-01-07 is listed before Monday 2024-01-08 |
| ReportGrouping.RecentFirstDecreasing | src/frontend/src/utils/reportGrouping.ts:62-63 | in the corrected report the periods strictly decrease: most recent first, each once |
| ReportGrouping.RecentFirstLines | src/frontend/src/utils/reportGrouping.ts:39-63 | the corrected report has one line per key, with the key's own date as label and the key's total and count |
| ReportGrouping.RecentFirstExample | src/frontend/src/utils/reportGrouping.ts:62-63 | the corrected report lists Monday 2024-01-08 before Sunday 2024-01-07 |
| ReportGrouping.ParsedKeyDayWestOfUtc | src/frontend/src/utils/reportGrouping.ts:45-51 | west of UTC, a key read back as midnight UTC is labelled with the day before |
| ReportGrouping.ParsedKeyDayEastOfUtc | src/frontend/src/utils/reportGrouping.ts:45-51 | at UTC and east of it, the label shows the key's own date |
| ReportGrouping.LocalMidnightRoundTrip | src/frontend/src/utils/reportGrouping.ts:45-51 | read back as local midnight, a key is labelled with its own date in every time zone |
| TransactionFilter.FilterTransactions | src/frontend/src/pages/TransactionsPage.tsx:30-46 | nothing while the list is not loaded; otherwise an order-preserving subsequence holding exactly the transactions inside the window |
| TransactionFilter.NoDatesKeepsAll | src/frontend/src/pages/TransactionsPage.tsx:33-45 | with both dates empty the list is returned whole |
| TransactionFilter.FilterIsWindow | src/frontend/src/pages/TransactionsPage.tsx:33-45 | the two filters in a row equal one filter on the window |
| TransactionFilter.EndDayIncluded | src/frontend/src/pages/TransactionsPage.tsx:40-43 | the last nanosecond of the day starting at the end instant is kept, and the instant one day after it is not |

## Left out

- TransactionFilter.FilterTransactions: the date inputs are parameters, already read as instants. The source reads `new Date("yyyy-MM-dd")` as midnight UTC of the entered date, not local midnight. At the shop's UTC+7 the window therefore misses the first seven local hours of the start day, and it keeps the first seven local hours of the day after the end date. The model states the window in those instants, not in local days.
- PosCart.Cashier.HandleCheckout: the source sends one `addToCart` per line, one after another, and then the checkout. A failure partway leaves the earlier lines in the store's cart and sends neither the later lines nor the checkout, and a retry adds the earlier lines again. The model returns only the request the handler starts (`attempted`). It does not record which part of it reached the store.
- `formatRupiah` is not modelled. It is a wrapper over `Intl.NumberFormat`.
- Date text is not modelled:
  - The date-fns `format` calls are the parameter `formatDate(granularity, day)`.
  - The report key is the first day of the period as a day number, not its `yyyy-MM-dd` or `yyyy-MM` text.
- The local time zone is a fixed offset. Daylight-saving changes are not modelled.
- `localeCompare` is modelled as code-point order. Locale collation is not modelled.
- `ReportGrouping.MonthStartExample`: the month start follows the standard day-number conversion. It is proved for one date only, not for all dates.
- Parsing is modelled by parameters:
  - `parseInt` and `Math.floor(parseFloat(..))` in the product form are the parser parameters `parseInt` and `parseFloor`, returning `None` for NaN.
  - The cash field is the whole amount it parses to. For this reason `PosCart.ChangeAmount` drops the fraction of a fractional cash amount.
  - Floating-point precision of `Number(bigint)` is not modelled.
- The transaction filter's dates are already read as millisecond instants. An invalid date string (NaN, which keeps nothing) is not modelled.
- Remote calls are inputs:
  - The cart items, checkout and product save are an outcome input: `None` for success, or the failure message.
  - Their asynchrony, the `useQueries` caching and its sort are not modelled.
- Photo upload, `FileReader`, the upload progress and focus handling are not modelled.
- The case-insensitive product search and the `showLatest` receipt redirect are not modelled.
- `toLowerCase` is the parameter `lower`.
- The form's load from an existing product is not modelled. The model starts from the dialog's empty state with the product id given.
- `PosCart.Cashier.AddToLocalCart`: the message "Stok tidak cukup" from inside the state updater is overwritten by the clear that follows it. The model uses the order in which React applies an updater run at once. An updater that React runs later would leave the message visible.
- `ProductForm.ProductFormDialog.UpdateTier`: requires an existing row index. The dialog only calls it for rendered rows, and an index past the end (where the source would extend the array) is not modelled.

## Findings

| source | as written | input that shows it | evidently intended | confidence | as-written member | corrected member |
|---|---|---|---|---|---|---|
| src/frontend/src/utils/reportGrouping.ts:62-63 | the lines are sorted by label text, descending | daily sales on 2024-01-07 and 2024-01-08: "Sunday, Jan 07, 2024" sorts before "Monday, Jan 08, 2024" | most recent period first, as the comment says | high (proved, not executed) | ReportGrouping.LabelOrderIsNotRecency | ReportGrouping.RecentFirstDecreasing |
| src/frontend/src/utils/reportGrouping.ts:45-51 | the key text is parsed back with `new Date(key)`, which reads a date-only string as midnight UTC, and is then formatted in local time | any transaction with the local zone west of UTC, e.g. offset -5 h: key 2024-01-08 is labelled Sunday, Jan 07 | each line labelled with its own period's date | high (proved, not executed) | ReportGrouping.ParsedKeyDayWestOfUtc | ReportGrouping.LocalMidnightRoundTrip |
