# Pharmacy inventory ledger — a Dafny model

This project models the core of a pharmacy web application. Its server is a
Laravel application over MySQL; its client is a React/Redux dashboard.

- **Drugs and batches.** Drugs are keyed by a unique `ndc`. Each drug has
  batches (lots), keyed by `(drug_id, batch_no)`. A batch has an expiry date,
  a quantity and a cost price. Deleting a drug cascades to its batches.
- **Placing an order.** One transaction creates a pending order. For every
  requested item it checks that the item's batch holds enough stock, writes
  an order line priced at the drug's selling price and decrements the batch.
  Finally it stores the order's total. Any failure rolls the whole request
  back.
- **Importing drugs.** A drug and its batch arrive as one row. The rows come
  either from a CSV file (headers normalised, values trimmed, every row
  validated, failures reported by row number) or from a single form. Each row
  upserts the drug on `ndc`, then its batch on `(drug_id, batch_no)`.
- **The read side.**
  - The overview counts drugs and low-stock drugs. It names the most and the
    least stocked drug and lists the batches that expire within 90 days.
  - The inventory list shows each drug with its unexpired batches and total
    stock. It can be narrowed by a search term and by a low-stock flag, and
    it is paginated.
- **The client.**
  - The auth slice keeps the user, the token and the loading and error flags.
    It also keeps the token in `localStorage`.
  - The upload form holds the chosen CSV file, a single-drug form with a list
    of batch rows, and a status line. It validates the form before
    submitting it and offers a sample CSV.

Modules, one per file:

| file | module | models |
|---|---|---|
| `wrappers.dfy` | `Wrappers` | `Option`, `Result` |
| `seqs.dfy` | `Seqs` | first index, filter, count, sum over sequences |
| `text.dfy` | `Text` | trim, case mapping, join/split, integer and decimal text |
| `calendar.dfy` | `Calendar` | `Y-m-d` dates and day numbers |
| `schema.dfy` | `Schema` | the tables, their keys and constraints, upserts, cascade delete, `class Database` |
| `models.dfy` | `Models` | the Eloquent scopes and relations of `Drug` and `Batch`, total stock |
| `orders.dfy` | `Orders` | placing an order |
| `upload.dfy` | `Upload` | the validation rules, the row write, CSV and single-drug import |
| `overview.dfy` | `Overview` | the dashboard statistics |
| `inventory.dfy` | `Inventory` | the searchable, paginated inventory list |
| `auth_slice.dfy` | `Auth` | the auth thunks and reducers |
| `uploads_component.dfy` | `UploadsComponent` | the upload form's state and handlers |
| `middleware.dfy` | `Middleware` | the request cleaning of Laravel's default TrimStrings and ConvertEmptyStringsToNull |

**Conventions used throughout:**

- Money is an integer number of cents.
- A date is a day number.
- The current time `now` is an integer number of seconds on the same scale,
  so the midnight that starts day `d` is `d * 86400`. This matches how SQL
  compares a `DATE` column with a `DATETIME`.
- Each table is a sequence of rows in insertion order, with an
  auto-increment counter per table.
- Controller actions are methods on `Schema.Database`. Each is proved equal to
  a pure function on `Schema.Tables`; the properties are lemmas about those
  functions.
- The server's replies to the client (HTTP) and the random part of an order
  number are parameters.

## Model

| member | source | states |
|---|---|---|
| Schema.EmptyTablesValid | server/database/migrations/2026_02_14_090641_create_drugs_table.php:14-30 | empty tables satisfy every key, foreign-key and width constraint |
| Schema.FindDrugByNdcUnique | server/database/migrations/2026_02_14_090641_create_drugs_table.php:15 | with ndc unique, a lookup by ndc finds exactly the row that carries it |
| Schema.DrugColumnsSpec | server/database/migrations/2026_02_14_090641_create_drugs_table.php:15-28 | a drug write succeeds iff every NOT NULL column without a default has a value and no nullable column gets bad text; an omitted rx_status is "Rx" and an omitted min_stock_level is 0 |
| Schema.BatchColumns | server/database/migrations/2026_02_14_090847_create_batches_table.php:20-22 | a batch write needs expiry_date and cost_price; an omitted quantity defaults to 0 |
| Schema.UpsertDrugSpec | server/app/Http/Controllers/Upload/UploadController.php:152-169 | after updateOrCreate on ndc, exactly one drug carries the ndc and the written columns; other drugs and tables are unchanged; constraints and non-negative stock still hold |
| Schema.UpsertDrugIdempotent | server/app/Http/Controllers/Upload/UploadController.php:152-169 | repeating the same drug upsert changes nothing and yields the same id |
| Schema.UpsertBatchSpec | server/app/Http/Controllers/Upload/UploadController.php:175-185 | after updateOrCreate on (drug_id, batch_no) the batch with that key has the written values; every other batch and table is unchanged; constraints hold |
| Schema.UpsertBatchIdempotent | server/app/Http/Controllers/Upload/UploadController.php:175-185 | repeating the same batch upsert changes nothing |
| Schema.DeleteDrug | server/database/migrations/2026_02_14_090847_create_batches_table.php:15-18 | deleting a drug removes it and, by cascade, exactly its batches; every other row stays |
| Schema.DeleteDrugValid | server/database/migrations/2026_02_14_090847_create_batches_table.php:15-18 | the cascade keeps every constraint, including the foreign key from batches to drugs |
| Schema.Database.constructor | server/database/migrations/2026_02_14_090641_create_drugs_table.php:14-30 | a new database holds empty tables |
| Schema.Database.Restore | server/app/Http/Controllers/Orders/OrderController.php:39 | a rolled-back transaction puts back the saved tables |
| Models.BatchesOf | server/app/Models/Drug.php:58-61 | a drug's batches are exactly the batch rows with its drug_id |
| Models.NotExpiredIffNotExpiringBefore | server/app/Models/Batch.php:57-68 | at any time a batch is in scope notExpired iff it is not in expiringBefore(now) |
| Models.ScopesPartition | server/app/Models/Batch.php:57-68 | the two scopes split any list of batches between them |
| Models.ExpiredIsNotSellable | server/app/Models/Batch.php:65-76 | an expired batch is outside notExpired and stays expired; outside notExpired means expired except at the expiry midnight itself |
| Models.ExpiryDayBoundary | server/app/Models/Batch.php:57-76 | at the expiry day's midnight a batch is neither expired nor notExpired, and is expiringBefore |
| Models.RxOtcSplit | server/app/Models/Drug.php:66-77 | scopes rx and otc are disjoint and together cover drugs whose rx_status is Rx or OTC |
| Models.SellableBatches | server/app/Http/Controllers/Overview/OverviewController.php:19-23 | the batches counted toward a drug's stock are exactly its unexpired ones |
| Models.TotalStock | server/app/Http/Controllers/Overview/OverviewController.php:19-23 | total_stock is NULL iff the drug has no unexpired batch |
| Models.TotalStockAppend | server/app/Http/Controllers/Overview/OverviewController.php:19-23 | adding a batch adds its quantity to total_stock exactly when it counts toward the drug |
| Models.TotalStockNonNegative | server/app/Http/Controllers/Overview/OverviewController.php:19-23 | with non-negative quantities total_stock (NULL read as 0) is non-negative |
| Orders.Step | server/app/Http/Controllers/Orders/OrderController.php:52-73 | one item either throws or changes only batch quantities and adds one line |
| Orders.Run | server/app/Http/Controllers/Orders/OrderController.php:49-73 | a successful loop changes only quantities and writes one line per item |
| Orders.RunStopsAtError | server/app/Http/Controllers/Orders/OrderController.php:52-58 | once an item throws, later items change nothing: the loop's result is that exception |
| Orders.RunStock | server/app/Http/Controllers/Orders/OrderController.php:52-72 | the loop succeeds iff no batch is asked for more than it holds across all items; it then leaves each batch its old quantity minus what was asked; otherwise it fails with "Insufficient stock for batch: " and an overdrawn batch's lot number |
| Orders.RunLines | server/app/Http/Controllers/Orders/OrderController.php:60-69 | line i has item i's drug, batch and quantity, the selling price of the batch's drug, and subtotal = price × quantity |
| Orders.RunTotal | server/app/Http/Controllers/Orders/OrderController.php:49-61 | the running total is the sum of the line subtotals |
| Orders.PlaceOrder | server/app/Http/Controllers/Orders/OrderController.php:26-89 | validation fails iff the request breaks a rule (no items, an unknown drug or batch, or a quantity outside 1..PHP_INT_MAX); anything but a created order leaves every table unchanged |
| Orders.PlaceOrderOutcome | server/app/Http/Controllers/Orders/OrderController.php:29-87 | a valid request creates the order iff all requested quantities fit; otherwise the 422 message names an overdrawn batch |
| Orders.PlaceOrderStock | server/app/Http/Controllers/Orders/OrderController.php:53-72 | drugs are untouched, batches change only in quantity, a created order drains exactly the requested amounts, and stock never goes negative |
| Orders.PlaceOrderReceipt | server/app/Http/Controllers/Orders/OrderController.php:42-81 | a created order is pending with the next id and the request's notes as the middleware cleaned them (trimmed, blank as null); it has one item per request line with the line's fields; total_amount is the sum of subtotals; both rows are appended |
| Orders.PlaceOrderValid | server/app/Http/Controllers/Orders/OrderController.php:39-87 | placing an order keeps every table constraint |
| Orders.SecondItemSeesDecrement | server/app/Http/Controllers/Orders/OrderController.php:52-72 | on any valid tables, an item of quantity q on a batch holding at least q but fewer than 2q is sold alone, yet the same item twice fails with the message naming that batch: the second pass sees the first decrement |
| Orders.Store | server/app/Http/Controllers/Orders/OrderController.php:26-89 | the controller action's new tables and response are those of PlaceOrder |
| Orders.SellAll | server/app/Http/Controllers/Orders/OrderController.php:49-73 | the loop over the items writes what the pure loop Run computes, or reports its exception |
| Orders.SellItem | server/app/Http/Controllers/Orders/OrderController.php:53-72 | one pass of the loop performs one Step on the database |
| Orders.PlacedOrder | server/app/Http/Controllers/Orders/OrderController.php:76-81 | the final write stores the total and answers 201 with the order and its items |
| Upload.Failing | server/app/Http/Controllers/Upload/UploadController.php:118-143 | a field is listed iff the row breaks its rule; the list is empty iff the row validates |
| Upload.FailingAmong | server/app/Http/Controllers/Upload/UploadController.php:118-143 | the listed fields are exactly the given fields whose rule the row breaks |
| Upload.ValidatedKeys | server/app/Http/Controllers/Upload/UploadController.php:122-138 | a valid row has ndc (≤ 50), brand_name (≤ 255) and batch_no (≤ 100), and rx_status Rx, OTC or empty |
| Upload.ValidatedBatchFields | server/app/Http/Controllers/Upload/UploadController.php:139-141 | a valid row has a Y-m-d expiry_date, a non-negative integer quantity and a non-negative numeric cost_price |
| Upload.ValidatedOptionalNumbers | server/app/Http/Controllers/Upload/UploadController.php:128-135 | package_size, selling_price and min_stock_level are empty or non-negative numbers of their kind |
| Upload.ValidatedOptionalTexts | server/app/Http/Controllers/Upload/UploadController.php:124-133 | generic_name, manufacturer and storage are empty or within their maximum lengths |
| Upload.IntCellRoundTrip | server/app/Http/Controllers/Upload/UploadController.php:160-167 | every value in INT range, written in decimal, is stored in an integer column as that value |
| Upload.MoneyCellRoundTrip | server/app/Http/Controllers/Upload/UploadController.php:162-183 | every amount up to 99999999.99, written with two decimals, is stored in a DECIMAL(10,2) column as that many cents |
| Upload.DateCellRoundTrip | server/app/Http/Controllers/Upload/UploadController.php:181 | every valid date with a four-digit year, written Y-m-d, is stored in a DATE column as that day |
| Upload.DrugCellsWritable | server/app/Http/Controllers/Upload/UploadController.php:152-169 | the drug write succeeds iff brand_name is given and fits and every other column accepts the row |
| Upload.ValidBatchFits | server/app/Http/Controllers/Upload/UploadController.php:175-185 | for a valid row the batch write fails only when quantity exceeds INT or cost_price exceeds 99999999.99 |
| Upload.ValidRowWritable | server/app/Http/Controllers/Upload/UploadController.php:148-187 | a valid row is written iff its drug columns and its batch columns are accepted |
| Upload.RowWrite | server/app/Http/Controllers/Upload/UploadController.php:148-187 | processDrugRow succeeds iff the row is writable |
| Upload.RowValuesOf | server/app/Http/Controllers/Upload/UploadController.php:152-185 | the stored values exist iff the row is writable, and then the keys fit their columns |
| Upload.RowWriteSpec | server/app/Http/Controllers/Upload/UploadController.php:148-187 | a written row leaves a drug with the row's ndc and fields and a batch of that drug with the row's batch fields; other drugs stay; orders are untouched; constraints hold |
| Upload.WriteRowSpec | server/app/Http/Controllers/Upload/UploadController.php:150-186 | the two upserts store the given values under their keys and keep the constraints |
| Upload.RowWriteIdempotent | server/app/Http/Controllers/Upload/UploadController.php:171-185 | writing the same row twice equals writing it once (the batch quantity is overwritten, not added) |
| Upload.Assess | server/app/Http/Controllers/Upload/UploadController.php:63-84 | a row is rejected with its failing fields iff it does not validate; it is refused by the database iff it validates but is not writable; otherwise it is written with its values |
| Upload.Outcomes | server/app/Http/Controllers/Upload/UploadController.php:57-85 | each record gets its own assessment, in file order |
| Upload.Tally | server/app/Http/Controllers/Upload/UploadController.php:51-84 | success_count plus the number of failures is the number of rows; failure rows are numbered 2.. in increasing order |
| Upload.FailureExplained | server/app/Http/Controllers/Upload/UploadController.php:66-84 | every reported failure carries the errors of the row it names |
| Upload.FailureReported | server/app/Http/Controllers/Upload/UploadController.php:66-84 | every failing row is reported under its own row number |
| Upload.InvalidRowReported | server/app/Http/Controllers/Upload/UploadController.php:64-71 | an invalid row i is reported as row i + 2 with its failing fields |
| Upload.AssessSound | server/app/Http/Controllers/Upload/UploadController.php:63-84 | every row that is written has keys within their widths and a non-negative quantity |
| Upload.ImportKeepsValid | server/app/Http/Controllers/Upload/UploadController.php:57-85 | importing any sequence of assessed rows keeps the constraints and non-negative stock |
| Upload.NormalizeHeaders | server/app/Http/Controllers/Upload/UploadController.php:39-42 | each header name is lower-cased after trimming |
| Upload.CleanRecord | server/app/Http/Controllers/Upload/UploadController.php:57-61 | a field is present iff the header has its column; its value is the trimmed cell, "" when the line is short |
| Upload.CleanRecords | server/app/Http/Controllers/Upload/UploadController.php:57-61 | one cleaned record per data line |
| Upload.UploadCsvSpec | server/app/Http/Controllers/Upload/UploadController.php:20-93 | the reader throws (500, outside the try) iff the normalised header names repeat, and then nothing changes; otherwise success_count + failure_count is the number of lines and failures are numbered from 2 |
| Upload.UploadCsvKeepsValid | server/app/Http/Controllers/Upload/UploadController.php:20-93 | a CSV import keeps every constraint and non-negative stock |
| Upload.ProcessDrugRow | server/app/Http/Controllers/Upload/UploadController.php:148-187 | the transaction succeeds iff the row is writable, and then stores RowWrite's tables; otherwise it leaves the tables unchanged |
| Upload.WriteDrug | server/app/Http/Controllers/Upload/UploadController.php:152-169 | the drug upsert on the database is UpsertDrug |
| Upload.WriteBatch | server/app/Http/Controllers/Upload/UploadController.php:175-185 | the batch upsert on the database is UpsertBatch |
| Upload.ImportRecord | server/app/Http/Controllers/Upload/UploadController.php:61-84 | one record's verdict and effect are those of its assessment |
| Upload.ImportRow | server/app/Http/Controllers/Upload/UploadController.php:57-84 | one pass of the import loop assesses the next record and applies it |
| Upload.ImportRecords | server/app/Http/Controllers/Upload/UploadController.php:51-85 | the loop's counters and tables are the tally and the effect of all the records' outcomes |
| Upload.AssessedAll | server/app/Http/Controllers/Upload/UploadController.php:57 | the outcomes gathered by the loop are those of every record |
| Upload.UploadCsv | server/app/Http/Controllers/Upload/UploadController.php:20-93 | the controller action's tables and response are those of UploadCsvSpec |
| Upload.UploadSingleDrug | server/app/Http/Controllers/Upload/UploadController.php:98-113 | the request, trimmed and with blank values as null, is rejected with 422 and its failing fields when it breaks a rule, with no change; a valid writable one is written and succeeds; a valid unwritable one gets 500 and no change |
| Upload.CleanRequestIdempotent | server/app/Http/Controllers/Upload/UploadController.php:100 | the request the controller reads is already clean: cleaning it again changes nothing |
| Upload.BlankRequiredRefused | server/app/Http/Controllers/Upload/UploadController.php:100-103 | a required field sent as only white space (a no-break space, say) reaches the rules as null and fails them, so the request is refused with 422 |
| Upload.BlankManufacturerRefused | server/app/Http/Controllers/Upload/UploadController.php:100-112 | a blank manufacturer reaches the rules as null and passes them, but the NOT NULL column refuses the row, so the single upload answers 500 |
| Upload.NullManufacturerRefused | server/app/Http/Controllers/Upload/UploadController.php:100-112 | a record without a manufacturer passes the nullable manufacturer rule but is not writable, since the column is NOT NULL without a default |
| Calendar.ParseYmd | server/app/Http/Controllers/Upload/UploadController.php:139 | whatever parses is an existing calendar date with a four-digit year |
| Calendar.FormatThenParse | server/app/Http/Controllers/Upload/UploadController.php:139 | formatting a valid date as Y-m-d and parsing it gives the date back |
| Calendar.ParseThenFormat | server/app/Http/Controllers/Upload/UploadController.php:139 | a text that parses is exactly the Y-m-d form of its date |
| Calendar.DayNumberIncreasing | server/app/Models/Batch.php:57-68 | later dates have larger day numbers, so comparing day numbers compares expiry dates |
| Calendar.DayNumberInjective | server/app/Models/Batch.php:57-68 | distinct valid dates have distinct day numbers |
| Text.Trim | server/app/Http/Controllers/Upload/UploadController.php:61 | the result is a trimmed slice of the input with no leading or trailing trim space |
| Text.TrimIdempotent | server/app/Http/Controllers/Upload/UploadController.php:61 | trimming twice is trimming once |
| Text.TrimLowerCommute | server/app/Http/Controllers/Upload/UploadController.php:41 | lower-casing and trimming commute |
| Text.SplitJoin | client/src/components/dashboard/UploadsComponent.tsx:116 | splitting a join on a separator the parts avoid gives the parts back |
| Text.IntToStringRoundTrip | server/app/Http/Controllers/Overview/OverviewController.php:56-57 | the decimal text of an integer reads back as that integer |
| Text.ContainsIff | server/app/Http/Controllers/Inventory/InventoryController.php:38-42 | the substring test holds iff the term occurs at some position |
| Text.DecimalCentsNonNegative | server/app/Http/Controllers/Upload/UploadController.php:130-141 | a decimal that passes min:0 stores a non-negative number of cents |
| Middleware.TrimInput | server/app/Http/Controllers/Upload/UploadController.php:100 | TrimStrings, stripping Unicode white space (no-break and ideographic spaces included), U+FEFF, U+200B, U+200E and NUL: the result is a slice of the input, everything cut off is an input space, and it neither starts nor ends with one; it is empty iff the input is all input spaces |
| Middleware.TrimInputIdempotent | server/app/Http/Controllers/Upload/UploadController.php:100 | trimming an input twice is trimming it once |
| Middleware.CleanInput | server/app/Http/Controllers/Upload/UploadController.php:100 | an input is null after the middleware iff it was absent or blank; otherwise it is a non-empty trimmed slice of the input |
| Middleware.CleanInputIdempotent | server/app/Http/Controllers/Upload/UploadController.php:100 | the middleware leaves a cleaned input unchanged |
| Overview.WithTotalStock | server/app/Http/Controllers/Overview/OverviewController.php:19-23 | one entry per drug, in table order, carrying the drug's total_stock |
| Overview.LowStockCount | server/app/Http/Controllers/Overview/OverviewController.php:26-28 | low_stock_alerts counts the drugs passing the PHP filter, and is at most the number of drugs |
| Overview.LowStockIsNeedsRestock | server/app/Http/Controllers/Overview/OverviewController.php:27 | with a non-negative minimum, the PHP filter is exactly "stock (NULL read as 0) ≤ min_stock_level" |
| Overview.MostStocked | server/app/Http/Controllers/Overview/OverviewController.php:31 | the chosen drug has a total_stock no drug exceeds and is the first such, as a stable sort gives; none only for no drugs |
| Overview.LeastStocked | server/app/Http/Controllers/Overview/OverviewController.php:32 | the chosen drug has the smallest positive total_stock and is the first such; none iff no drug has positive stock |
| Overview.LabelParts | server/app/Http/Controllers/Overview/OverviewController.php:56-57 | a label is the brand name, " (", the total_stock and ")"; it is never "N/A", and the number in it reads back as total_stock |
| Overview.InsertByExpiry | server/app/Http/Controllers/Overview/OverviewController.php:38 | inserting into a list ordered by expiry keeps it ordered and adds exactly the batch |
| Overview.SortByExpiry | server/app/Http/Controllers/Overview/OverviewController.php:38 | the result is ordered by expiry_date and is a permutation of the input |
| Overview.NearingEntries | server/app/Http/Controllers/Overview/OverviewController.php:40-46 | one entry per nearing batch, in order, each built from its batch |
| Overview.NearingBatchesExact | server/app/Http/Controllers/Overview/OverviewController.php:35-39 | the nearing list is ordered by expiry and holds exactly the batches expiring after now and within 90 days |
| Overview.NearingEntriesBounds | server/app/Http/Controllers/Overview/OverviewController.php:35-46 | every days_left is in (0, 90]; entries are in expiry order; with the foreign key each names its drug's brand |
| Overview.DaysLeftBounds | server/app/Http/Controllers/Overview/OverviewController.php:44 | a nearing batch's days_left is positive and at most 90 |
| Overview.LabelOr | server/app/Http/Controllers/Overview/OverviewController.php:56-57 | the text is "N/A" exactly when no drug was chosen |
| Overview.OverviewIndex | server/app/Http/Controllers/Overview/OverviewController.php:13-61 | total_drugs is the drug count; low_stock_alerts is at most that; most_stocked is "N/A" iff there are no drugs; least_stocked is "N/A" iff no drug has positive stock |
| Overview.StockedLabels | server/app/Http/Controllers/Overview/OverviewController.php:31-57 | a most_stocked label names a drug no other exceeds; a least_stocked label names a drug with the smallest positive stock |
| Inventory.Items | server/app/Http/Controllers/Inventory/InventoryController.php:25-34 | one item per drug, carrying exactly its unexpired batches and the sum of their quantities (NULL when none) |
| Inventory.SearchFilter | server/app/Http/Controllers/Inventory/InventoryController.php:37-43 | an empty or "0" search keeps every row; otherwise exactly the rows whose brand name, generic name or ndc contains the term |
| Inventory.MatchesIff | server/app/Http/Controllers/Inventory/InventoryController.php:38-42 | a drug matches iff the term occurs in its brand name, its non-NULL generic name or its ndc |
| Inventory.LowStockFilterAsWritten | server/app/Http/Controllers/Inventory/InventoryController.php:46-48 | when asked, keeps exactly the rows whose total_stock is non-NULL and at most min_stock_level, which are the rows the corrected filter keeps that have stock; otherwise keeps every row |
| Inventory.LowStockFilter | server/app/Http/Controllers/Overview/OverviewController.php:26-28 | the corrected filter: when asked, keeps exactly the rows whose stock (NULL read as 0) is at most min_stock_level, and as many as satisfy that; otherwise keeps every row |
| Inventory.SqlLowStockDropsUnstocked | server/app/Http/Controllers/Inventory/InventoryController.php:47 | a drug without batches and minimum 0 is a low-stock alert on the overview, but the filter as written drops it while the corrected one lists it |
| Inventory.LowStockMatchesOverview | server/app/Http/Controllers/Overview/OverviewController.php:26-28 | with non-negative minimums, the corrected filter lists as many drugs as the overview's low_stock_alerts |
| Inventory.PageOf | server/app/Http/Controllers/Inventory/InventoryController.php:51 | with a positive per_page, a page holds only listed rows, at most per_page of them |
| Inventory.LastPage | server/app/Http/Controllers/Inventory/InventoryController.php:61 | with rows and a positive per_page, last_page is the least n with n × per_page ≥ total; otherwise it is 1 |
| Inventory.RowOnItsPage | server/app/Http/Controllers/Inventory/InventoryController.php:51 | row k is on page k / per_page + 1 at position k mod per_page, and that page is not past the last page |
| Inventory.PagesAfterLastAreEmpty | server/app/Http/Controllers/Inventory/InventoryController.php:51-61 | pages after last_page are empty |
| Inventory.Listed | server/app/Http/Controllers/Inventory/InventoryController.php:20-48 | a drug is selected iff the cleaned search term (trimmed, blank as null), if any, matches it and, under low_stock, its total_stock is non-NULL and at most min_stock_level |
| Inventory.BlankSearchListsAll | server/app/Http/Controllers/Inventory/InventoryController.php:20-43 | an absent or blank search term lists every drug |
| Inventory.ListedCleanSearch | server/app/Http/Controllers/Inventory/InventoryController.php:20-43 | the selection depends only on the cleaned term: a term and its cleaned form select the same rows |
| Inventory.InventoryIndex | server/app/Http/Controllers/Inventory/InventoryController.php:17-64 | the query fails iff per_page is negative and some row is selected; otherwise total counts the selected rows, per_page is the given non-zero value or 15, current_page the given page ≥ 1 or 1, last_page is LastPage of them, the page holds only selected rows and at most per_page of them, and with no rows data is empty and last_page 1 |
| Inventory.ListedItems | server/app/Http/Controllers/Inventory/InventoryController.php:25-56 | every listed drug is a table row, passes the cleaned search term, under low_stock has a non-NULL total_stock at most min_stock_level, carries exactly its unexpired batches, and shows their sum as total_stock |
| Auth.TokenStorage.SetItem | client/src/redux/authSlice.ts:25 | the stored token becomes the value |
| Auth.TokenStorage.RemoveItem | client/src/redux/authSlice.ts:76 | no token is stored |
| Auth.LoginUser | client/src/redux/authSlice.ts:15-30 | an accepted login stores the token and fulfils with the user; a refused one stores nothing and rejects with the server message or "Login failed" |
| Auth.SignupUser | client/src/redux/authSlice.ts:32-49 | as LoginUser, with the fallback "Signup failed" |
| Auth.LogoutUser | client/src/redux/authSlice.ts:51-79 | the token is always removed; a request is sent iff a token was stored; the thunk is rejected iff a sent request was refused, with the message or "Logout failed" |
| Auth.AuthSlice.constructor | client/src/redux/authSlice.ts:82-88 | the initial state is authenticated iff a non-empty token is stored, and carries that token; no user, not loading, no error |
| Auth.AuthSlice.Logout | client/src/redux/authSlice.ts:95-100 | the state is signed out and no token is stored; loading and error are kept |
| Auth.AuthSlice.Pending | client/src/redux/authSlice.ts:105-108 | loading is set and error cleared; nothing else changes |
| Auth.AuthSlice.Fulfilled | client/src/redux/authSlice.ts:109-113 | loading ends; the user is set and authenticated; token and error are kept |
| Auth.AuthSlice.Rejected | client/src/redux/authSlice.ts:114-117 | loading ends and error is the payload or the fallback; nothing else changes |
| Auth.AuthSlice.LogoutUserSettled | client/src/redux/authSlice.ts:135-147 | either settled logout ends signed out with no token stored |
| Auth.AuthSlice.DispatchAuth | client/src/redux/authSlice.ts:15-49 | an accepted login or signup authenticates with the user and stores the token but leaves the state's token field as it was; a refused one records the message and changes nothing else; consistency with storage is kept |
| Auth.AuthSlice.DispatchLogout | client/src/redux/authSlice.ts:51-79 | whatever the server answers, the state ends signed out with no token stored; a request is sent iff a token was stored |
| UploadsComponent.AddBatch | client/src/components/dashboard/UploadsComponent.tsx:146-151 | the list gains one empty row at the end; the earlier rows are unchanged |
| UploadsComponent.WithoutIndexSlices | client/src/components/dashboard/UploadsComponent.tsx:154-161 | filtering out an index in range removes exactly that row; an index out of range changes nothing |
| UploadsComponent.RemoveBatch | client/src/components/dashboard/UploadsComponent.tsx:154-161 | with more than one row, the row at the index is removed; the last remaining row is never removed |
| UploadsComponent.RemoveUndoesAdd | client/src/components/dashboard/UploadsComponent.tsx:146-161 | removing the row just added gives the list back |
| UploadsComponent.Humanize | client/src/components/dashboard/UploadsComponent.tsx:182-185 | the label has no capitals and is at least as long as the key |
| UploadsComponent.HumanizeCamel | client/src/components/dashboard/UploadsComponent.tsx:182-185 | a lower-case key is kept; a camel-case key gets a space before its capital, which becomes lower case |
| UploadsComponent.SubmitReportsField | client/src/components/dashboard/UploadsComponent.tsx:168-189 | the first blank required field, in the listed order, is the one reported |
| UploadsComponent.SubmitReportsBatch | client/src/components/dashboard/UploadsComponent.tsx:192-201 | with every required field filled, the first incomplete batch row is reported by its 1-based number |
| UploadsComponent.SubmitSucceedsIff | client/src/components/dashboard/UploadsComponent.tsx:178-217 | the form is accepted iff every required field is filled and every batch row is complete |
| UploadsComponent.CsvRoundTrip | client/src/components/dashboard/UploadsComponent.tsx:116 | a header line and a row without commas or newlines make two lines that split back into the same cells |
| UploadsComponent.SampleCellsPlain | client/src/components/dashboard/UploadsComponent.tsx:76-115 | the sample headers and row have 18 cells each, none holding a comma or a newline |
| UploadsComponent.SampleCsvRoundTrip | client/src/components/dashboard/UploadsComponent.tsx:76-116 | the sample file's two lines split back into the sample headers and row |
| UploadsComponent.SampleHeadersAreUploadFields | client/src/components/dashboard/UploadsComponent.tsx:76-95 | every field the CSV upload validates has a column in the sample headers |
| UploadsComponent.UploadsForm.constructor | client/src/components/dashboard/UploadsComponent.tsx:9-33 | no file, the initial form with one empty batch row, no status |
| UploadsComponent.UploadsForm.HandleFileChange | client/src/components/dashboard/UploadsComponent.tsx:38-48 | a non-CSV file is dropped with an error; a CSV file is kept and the status cleared; no file changes nothing |
| UploadsComponent.UploadsForm.HandleCsvUpload | client/src/components/dashboard/UploadsComponent.tsx:51-55 | the upload is sent iff a file is chosen; otherwise the status asks for a file |
| UploadsComponent.UploadsForm.HandleBatchChange | client/src/components/dashboard/UploadsComponent.tsx:135-143 | only the given field of the given row changes |
| UploadsComponent.UploadsForm.HandleAddBatch | client/src/components/dashboard/UploadsComponent.tsx:146-151 | the batch list becomes AddBatch of the old one and keeps at least one row |
| UploadsComponent.UploadsForm.HandleRemoveBatch | client/src/components/dashboard/UploadsComponent.tsx:154-161 | the batch list becomes RemoveBatch of the old one and keeps at least one row |
| UploadsComponent.UploadsForm.HandleSingleSubmit | client/src/components/dashboard/UploadsComponent.tsx:164-218 | the status is the first missing field, else the first incomplete batch, else success; the form is unchanged |

## Left out

- CSV parsing (quoting, escapes, `skipEmptyRecords`) and the `csv_file`
  checks (type, 10 MB limit): the model starts from a header line and data
  lines already split into cells, so a file without a header line, which the
  reader refuses with 400 "Failed to read CSV file", is not modelled.
- The texts of the validator's messages: a rejected row or request carries
  the list of fields whose rule it breaks, not the messages.
- `is_numeric`'s exponent forms (`1e3`) and surrounding whitespace: numbers
  are an optional sign, digits and an optional fraction.
- MySQL collation (case-insensitive unique `ndc`,
  case-insensitive `LIKE`) and `LIKE` wildcards in the search term are not
  modelled: comparisons are exact and the search is a plain substring test.
- The `created_at`/`updated_at` timestamps, and with them `last_update` and
  `diffForHumans`: the overview's `last_update` is not modelled.
- Schema.Database.Restore: a rollback restores the auto-increment counters
  too, so a rolled-back order or import row gives its ids back; InnoDB does
  not reuse them, so after such a failure the source's next ids can be larger
  than the model's.
- Upload.RowWrite: Eloquent's dirty check is not modelled. When
  `updateOrCreate` finds an existing drug it writes only the columns whose
  cast value differs from the stored one, and `(int) ""` is 0; so a blank
  package_size or min_stock_level on a drug that stores 0 is not written and
  the row succeeds, where the model writes NULL and refuses the row.
- Upload.DrugCellsWritable: states writability without the dirty check
  described under Upload.RowWrite.
- Upload.ValidRowWritable: as Upload.DrugCellsWritable, without the dirty
  check.
- Upload.Assess: refuses the blank-but-unchanged column described under
  Upload.RowWrite, which the source accepts.
- Upload.ProcessDrugRow: as Upload.RowWrite, without the dirty check.
- Upload.UploadSingleDrug: as Upload.RowWrite, without the dirty check; and
  every request value is text, so a JSON number or boolean sent for a field
  with the `string` rule (such as `{"ndc": 12345}`) is not refused with 422
  as it is in the source.
- Orders.PlaceOrder: notes are text, so the `string` rule on notes always
  holds; a JSON number or boolean sent as notes, which the source refuses
  with 422, is not modelled. Item ids and quantities are integers, so a
  non-integer quantity is not modelled either.
- Orders.Store: as Orders.PlaceOrder, the `string` rule on notes is not
  modelled.
- The global middleware stack and the framework version are configuration
  that is not part of this model: Laravel's default TrimStrings and
  ConvertEmptyStringsToNull are assumed.
- Middleware.TrimInput: the character set is that of Laravel 11's `Str::trim`
  (Unicode `\s` under the `/u` flag, U+FEFF, U+200B, U+200E and NUL); an
  older framework, which strips neither U+200E nor NUL, is not modelled.
- Upload.Failing: every value is text, so the `string` rule always holds and
  is dropped; a non-string JSON value is not modelled.
- Upload.FailingAmong: as Upload.Failing, the `string` rule is dropped.
- `days_left` is a real number of days, as the fractional difference; the
  floating-point value is not modelled.
- Row order of queries without `ORDER BY` is taken to be insertion order; a
  non-integer `per_page` is not modelled (the parameter is an optional
  integer).
- The log calls, the random part of the order number (a parameter), the HTTP
  requests made by the client (the server's reply is a parameter) and
  concurrency between requests (each request runs alone).
- `parseInt`/`parseFloat` of the single-drug form before submitting and the
  request it sends: the submit handler is modelled up to its validation
  verdict.
- `handleSingleInputChange` (a plain field assignment) and all rendering.
- UploadsComponent.UploadsForm.HandleBatchChange: the source copies the old
  row object and would throw on an index past the list; the model requires an
  index in range and does not model aliasing of row objects.
- The `$fillable` lists and `$casts` of the models: they appear only as the
  fields and types of the row datatypes.
- The `orders` and `order_items` tables are modelled by the rows the order
  controller writes; their migrations are not part of this model.
- UploadsComponent.SampleHeadersAreUploadFields: states only that every
  uploaded field has a sample column, not the column order.
- Models.TotalStock: integer overflow of `SUM` is not modelled; sums are
  unbounded integers.

## Findings

| source | as written | input that shows it | evidently intended | confidence | as-written member | corrected member |
|---|---|---|---|---|---|---|
| server/app/Http/Controllers/Inventory/InventoryController.php:47 | `havingRaw('total_stock <= min_stock_level')` compares a NULL total_stock in SQL, which is never true, so a drug with no unexpired batch is not listed under `low_stock=1` | one drug with no batches and min_stock_level 0: the overview reports low_stock_alerts = 1, the low-stock list is empty (Inventory.LowStockFilterAsWritten keeps exactly the corrected filter's rows that have stock) | a drug without stock is low on stock, as the overview's PHP filter (OverviewController.php:26-28) counts it | medium; not executed | Inventory.SqlLowStockDropsUnstocked | Inventory.LowStockMatchesOverview |

The controller model `Inventory.InventoryIndex` keeps the filter as written,
so that it answers as the source does; the corrected filter
`Inventory.LowStockFilter` stands beside it, and
`Inventory.LowStockMatchesOverview` proves that it agrees with the overview.
