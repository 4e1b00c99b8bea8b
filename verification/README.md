# Stock ledger of the inventory backend, in Dafny

This project models the core of a small inventory backend (FastAPI over
SQLAlchemy). The backend keeps a ledger of item movements (`entrada`,
`salida`, `traslado`) and a table of sales. It also keeps an inventory table
with one row per (warehouse, item). That table is updated by a spreadsheet
import and recomputed from the ledger by a rebuild. The model covers:

- the inventory rebuild and the two read-side summaries (`routes/inventory.py`);
- the stock-sheet import (`core/load_file_inventory.py`);
- bulk and single sale creation and mark-as-paid (`routes/sale.py`);
- the sale-group and movement-group aggregates (`routes/sale_group.py`,
  `routes/item_movement_group.py`);
- the item-code generator (`core/generar_codigo.py`), and its one caller in
  item creation.

Layout, one module per file:

| file | module | contents |
|---|---|---|
| common.dfy | Common | `Option`, `Result`, the error cases, NULL coalescing |
| records.dfy | Records | the table rows as datatypes, first-match lookups, next-id rule, the `Store` class holding the tables |
| text.dfy | Text | Python's `str.strip()` / `str.strip(chars)` |
| projection.dfy | Projection | the movement sums, the latest-entry price table, the upsert loop, and `RebuildInventoryTable` over the `Store` |
| inventory_reads.dfy | InventoryReads | the global summary and the per-warehouse grouping |
| totals.dfy | Totals | the sale sums shared by the summary and the sale groups |
| stock_import.dfy | StockImport | the import as a fold over sheet rows, and `ImportStockSheet` as a loop over the `Store` |
| sales.dfy | Sales | bulk/single sale creation and mark-paid, as specification functions and as methods on the `Store` |
| sale_groups.dfy | SaleGroups | the sale-group subquery, outer join, coalesce and the three listings |
| movement_groups.dfy | MovementGroups | the movement-group subquery and the two reads |
| item_code.dfy | ItemCode | `generar_codigo` and the code defaulting in item creation |

Modelling choices:

- Tables are sequences of datatypes, in table order. The rebuild, the import
  and the sale writes change a `Store` object in place, and each is proved
  against a specification function on those sequences.
- Money is an exact `real`. Quantities, ids and timestamps are `int`. Clock
  readings and random numbers are parameters. The movement price columns are
  declared `Integer` (models/item_movement.py:25-26), but SQLite, the default
  engine (db/database.py:7), keeps a non-integral value written to them as a
  REAL, so movement prices are reals too.
- An inventory row's warehouse is `Option<int>`, because the rebuild can key
  a movement that has neither warehouse under NULL.
- New ids are one more than the largest id in the table (SQLite's rowid rule).
- A query's first match is the first match in table order. Where SQL leaves
  the order open (two latest entries with the same timestamp), the later
  ledger entry wins.
- A database error becomes an `Err` with an `Error` case, and the store is
  left as it was. This covers a missing category, a NOT NULL violation, an
  unknown sale id and the unpacking of a missing group row.

## Model

| member | source | states |
|---|---|---|
| Projection.SumKeys | routes/inventory.py:160-172 | the grouped keys are exactly the (warehouse-of-effect, item) pairs of the ledger, each once |
| Projection.NetQuantitySplit | routes/inventory.py:160-172 | a pair's net quantity is what came in with no source minus what left with that source |
| Projection.NetQuantityAppend | routes/inventory.py:166-171 | appending a movement changes only its own pair's net quantity, by its signed quantity |
| Projection.TransferNotCredited | routes/inventory.py:161-170 | a movement with both warehouses lowers its source and leaves its target unchanged |
| Projection.MaxTimestamp | routes/inventory.py:175-183 | the max timestamp per (item, target) is absent iff no movement targets the pair, and is attained and an upper bound otherwise |
| Projection.LatestAmong | routes/inventory.py:187-197 | the joined entries are exactly the movements that target their pair at its max timestamp |
| Projection.PriceTable | routes/inventory.py:200-206 | the price dictionary has a key iff some entry has it, and each value is the prices of such an entry |
| Projection.PriceSource | routes/inventory.py:175-216 | a pair has prices iff some movement of any type targets it; they come from a latest such movement; otherwise both are 0 |
| Projection.LatestTargetingMovementSetsPrice | routes/inventory.py:175-206 | a unique latest targeting movement sets the pair's prices |
| Projection.UpsertSettles | routes/inventory.py:218-236 | after one upsert the pair's first row holds the summed quantity, the prices and the stamp |
| Projection.UpsertOther | routes/inventory.py:218-227 | an upsert leaves every other pair's first row where and as it was |
| Projection.ApplySumsSettles | routes/inventory.py:209-236 | after the loop every summed pair is settled, as the sums are distinct |
| Projection.SumKeysDistinct | routes/inventory.py:160-172 | the grouped sums have pairwise distinct keys |
| Projection.RebuildSettles | routes/inventory.py:158-239 | after a rebuild each ledger pair's first row holds its net quantity and its looked-up prices |
| Projection.RebuildQuantity | routes/inventory.py:160-172 | after a rebuild the row for (w, i) holds direct inflow minus outflow |
| Projection.RebuildPrices | routes/inventory.py:175-216 | a rebuilt row's prices are 0 with no targeting movement, else those of a latest targeting movement |
| Projection.ApplySumsFrame | routes/inventory.py:209-236 | the loop changes only first rows of summed pairs and appends rows only for pairs that had none, one each |
| Projection.RebuildFrame | routes/inventory.py:209-236 | rows of pairs outside the sums and duplicate rows are untouched; new rows are distinct ledger pairs |
| Projection.ApplySumsStable | routes/inventory.py:218-227 | over rows that are already settled the loop only restamps them |
| Projection.RebuildIdempotent | routes/inventory.py:218-236 | a second rebuild over the same ledger changes nothing but the stamps |
| Projection.RebuildInventoryTable | routes/inventory.py:158-239 | the upsert loop over the store leaves the inventory table equal to the rebuild of the old one |
| InventoryReads.SummaryDebtIsUnpaidOnly | routes/inventory.py:130-144 | the summary's debt sums unpaid sales only, is 0 when all are paid, and is within the gross total |
| InventoryReads.TotalsAppend | routes/inventory.py:134-135 | total items and investment add over concatenated tables |
| InventoryReads.TotalQuantityUpdate | routes/inventory.py:134 | replacing one row changes the total by the difference of quantities |
| InventoryReads.ItemsInWarehouse | routes/inventory.py:62-71 | the grouped item ids are exactly those with a row in the warehouse, each once |
| InventoryReads.LatestRow | routes/inventory.py:78-86 | the last row is absent iff the item has no row there, and otherwise has the greatest `updated_at` |
| InventoryReads.GroupedCoversItems | routes/inventory.py:62-71 | every item with a row in the warehouse has an entry |
| InventoryReads.GroupedDistinct | routes/inventory.py:62-71 | no item has two entries |
| InventoryReads.GroupedEntryTotals | routes/inventory.py:62-95 | each entry sums its item's rows in the warehouse, carries the item's name and the prices of its latest row |
| Totals.Unpaid | routes/inventory.py:137 | the unpaid filter keeps exactly the unpaid sales |
| Totals.UnpaidCounts | routes/inventory.py:137 | the unpaid filter keeps each unpaid sale as often as it occurs and no paid one |
| Totals.DebtIsGrossOfUnpaid | routes/sale_group.py:33-38 | the CASE sum of debt equals the gross sum over unpaid sales |
| Totals.DebtWithinGross | routes/sale_group.py:32-38 | with non-negative values the debt lies between 0 and the gross total |
| Totals.PaidMeansNoDebt | routes/sale_group.py:33-38 | all sales paid means debt 0 |
| Totals.MarkPaidDebt | routes/sale.py:138 | marking one sale paid lowers debt by its amount if it was unpaid and keeps gross and item totals |
| Totals.SumsAppend | routes/sale_group.py:29-40 | the three sale sums add over concatenation |
| Text.Strip | core/load_file_inventory.py:28 | the stripped text is a slice of the input with only strippable characters before and after it; it starts and ends on kept characters, and is empty iff all were strippable |
| StockImport.Truncate | core/load_file_inventory.py:29 | `int()` of a number truncates toward zero |
| StockImport.NoCategoryFails | core/load_file_inventory.py:23-25 | with no category the import fails and writes nothing |
| StockImport.BlankRowSkipped | core/load_file_inventory.py:28-34 | a row whose name is blank after stripping changes no table |
| StockImport.FindOrCreateItem | core/load_file_inventory.py:36-46 | an existing code keeps the items; otherwise one item with code = name = trimmed name and the category is appended |
| StockImport.SameItemAfterCreate | core/load_file_inventory.py:36-50 | the item found after creation is the one just created |
| StockImport.AddStockSettles | core/load_file_inventory.py:48-67 | the pair's row gets the quantity added and the prices overwritten, or exactly one row is inserted with them |
| StockImport.AddStockOther | core/load_file_inventory.py:48-67 | every row other than the pair's first row keeps its place and all its fields, at most one row is appended, and other pairs' quantities are unchanged |
| StockImport.ImportRowEffect | core/load_file_inventory.py:19-80 | one sheet row: missing values count 0, the item exists, the stock is added, one `entrada` movement is appended |
| StockImport.FindOrCreateKeepsItemsValid | core/load_file_inventory.py:36-46 | item codes and ids stay unique |
| StockImport.ImportRowsKeepsItemsValid | core/load_file_inventory.py:27-80 | a whole sheet keeps item codes and ids unique |
| StockImport.ImportRowRaisesTotalItems | core/load_file_inventory.py:53-67 | after one sheet row the summary's total items is higher by the row's quantity, or unchanged for a blank row |
| StockImport.ImportRowAgrees | core/load_file_inventory.py:53-80 | a row's import keeps every pair's stock equal to the ledger's net quantity |
| StockImport.ImportRowsAgree | core/load_file_inventory.py:27-80 | a whole sheet keeps stock in agreement with the ledger |
| StockImport.ImportTwiceAccumulates | core/load_file_inventory.py:53-56 | in the intended loop, importing the same name twice adds both quantities and keeps the second row's prices (see Findings for the loop as written) |
| StockImport.ImportRowAsWritten | core/load_file_inventory.py:36-80 | one pass of the loop as the non-autoflushing session runs it: items and movements as in `ImportRow`, and with every row flushed the same tables as `ImportRow` |
| StockImport.ImportRowsAsWritten | core/load_file_inventory.py:27-80 | the row loop as written keeps its flushed count within the inventory and appends at most one movement per row |
| StockImport.RepeatedNewNameSplitsStock | core/load_file_inventory.py:48-67 | a new name repeated in one sheet gets two inventory rows as written, so the pair's stock is 1 against a ledger net of 2; the intended loop keeps one row holding 2 |
| StockImport.RepeatedXAsWritten | core/load_file_inventory.py:36-80 | the two-row sheet as written yields one item, two inventory rows and two movements |
| StockImport.RepeatedXIntended | core/load_file_inventory.py:36-80 | the two-row sheet through the intended loop yields one item, one inventory row holding 2 and two movements |
| StockImport.ImportTwoRows | core/load_file_inventory.py:27-80 | importing two rows is importing the first, then the second on the result |
| StockImport.StoreFindOrCreate | core/load_file_inventory.py:36-46 | the store's item table gains an item only when no item has the name; the id returned is the existing or the new one |
| StockImport.StoreAddStock | core/load_file_inventory.py:48-67 | the store's inventory row for the warehouse and item gains the quantity and takes the new prices, or a new row is appended |
| StockImport.ImportOneRow | core/load_file_inventory.py:28-80 | one pass of the loop body leaves the three tables as the row's specification says |
| StockImport.ImportAllRows | core/load_file_inventory.py:27-80 | the row loop on the store leaves the three tables equal to the fold over all rows |
| StockImport.ImportStockSheet | core/load_file_inventory.py:10-83 | the import fails with no category and changes nothing; otherwise the tables become the fold over all rows |
| Sales.NewSalesMirrorInputs | routes/sale.py:31-37 | one sale per input, in order, with the input's fields, the caller as user and consecutive ids; a sale submitted without `sold_at` is sold at the insert's time (the column default, models/sale.py:17) |
| Sales.SalidaMovementsMirrorInputs | routes/sale.py:39-47 | one `salida` per input from its warehouse, same item and quantity, no target, user, prices or group |
| Sales.BulkCreateOutcome | routes/sale.py:22-59 | the batch fails iff some input lacks a group; otherwise it returns one sale per input and appends as many sales and movements |
| Sales.BulkCreateKeepsSalesValid | routes/sale.py:31-49 | sale ids stay unique |
| Sales.SalidaLowersNet | routes/sale.py:40-45 | the batch's movements lower each pair's net quantity by the quantity sold there |
| Sales.BulkSaleLowersRebuiltQuantity | routes/sale.py:40-45 | the next rebuild's quantity for (w, i) is lower by the quantity sold from w |
| Sales.MarkPaidEffect | routes/sale.py:130-138 | mark-paid fails iff no sale has the id; otherwise only the first such sale changes, to paid |
| Sales.MarkPaidIdempotent | routes/sale.py:138 | marking paid twice is marking paid once |
| Sales.MarkPaidLowersDebt | routes/sale.py:138 | mark-paid lowers the debt by the sale's amount when it was unpaid and keeps the gross total |
| Sales.AddBatch | routes/sale.py:31-47 | the loop appends one sale and one salida movement per input, in input order, with consecutive ids from the first free one; each sale is `NewSale` of its input, so a missing `sold_at` becomes the insert's time |
| Sales.CreateSalesBulk | routes/sale.py:22-59 | the loop over the store returns the new sales and appends sales and movements as the specification says, or changes nothing |
| Sales.CreateSale | routes/sale.py:61-74 | a single sale is appended with no movement, or fails with no group; a missing `sold_at` becomes the insert's time |
| Sales.UpdateSalePaidStatus | routes/sale.py:120-151 | the store's sales become the mark-paid result and the updated sale is returned, or an unknown id fails and changes nothing |
| SaleGroups.SalesOf | routes/sale_group.py:28-42 | a group's sales are exactly the sales with its id |
| SaleGroups.SalesOfCounts | routes/sale_group.py:28-42 | a group keeps each of its sales as often as it occurs and nothing else |
| SaleGroups.GroupTotals | routes/sale_group.py:28-53 | a group's items, gross and debt sum its sales (debt over unpaid only); no sales gives zeros |
| SaleGroups.GroupDebtBounds | routes/sale_group.py:33-38 | a group's debt is 0 when all are paid, and within its gross total |
| SaleGroups.DebtListing | routes/sale_group.py:22-77 | the debt listing holds exactly the groups whose joined debt is positive, with full totals |
| SaleGroups.DebtListingMembership | routes/sale_group.py:49-56 | a group is listed iff its coalesced debt is positive; groups with no sales or all paid are not |
| SaleGroups.GroupTotalsAppend | routes/sale_group.py:28-42 | group totals add over new sales |
| SaleGroups.WarehouseListing | routes/sale_group.py:80-126 | the warehouse listing holds exactly that warehouse's groups with their item totals |
| SaleGroups.SingleGroupSummaryResult | routes/sale_group.py:130-180 | the single read fails iff no group has the id, else reports that group's full totals |
| MovementGroups.MovementsOf | routes/item_movement_group.py:34-41 | a group's movements are exactly those with its id |
| MovementGroups.MovementsOfCounts | routes/item_movement_group.py:93-102 | a group keeps each of its movements as often as it occurs and nothing else |
| MovementGroups.PricedTotalIsSum | routes/item_movement_group.py:96-98 | the SQL price sum skips NULL prices, equals the plain sum once coalesced, and is NULL iff nothing has a price |
| MovementGroups.GroupTotals | routes/item_movement_group.py:93-110 | a group's items and amounts sum its movements of every type; no movements gives zeros |
| MovementGroups.WarehouseSummary | routes/item_movement_group.py:28-65 | the warehouse summary holds exactly that warehouse's groups with their item totals |
| MovementGroups.GroupByIdResult | routes/item_movement_group.py:82-132 | the single read fails iff no group has the id, else reports that group's full totals |
| ItemCode.Upper | core/generar_codigo.py:6 | uppercasing is character by character |
| ItemCode.WordsAreRuns | core/generar_codigo.py:6 | every word is a nonempty run of word characters |
| ItemCode.WordsSplit | core/generar_codigo.py:6 | a non-word character splits the words, so words are the maximal runs |
| ItemCode.WordsKeepWordChars | core/generar_codigo.py:6 | the words together hold every word character, in order |
| ItemCode.NatToStringRoundTrip | core/generar_codigo.py:9 | the decimal text of a number is all digits and reads back as the number |
| ItemCode.NoWordsCode | core/generar_codigo.py:8-9 | a name with no words gives "PROD_" and four digits worth 1000..9999 |
| ItemCode.FirstTwo | core/generar_codigo.py:12 | the prefix is the first two characters of the first word, or all of it when shorter |
| ItemCode.CodeFromWordsShape | core/generar_codigo.py:12-22 | a code ends in "_" and two digits worth 10..99; one word gives prefix_n; a differing last word gives strip("_")(prefix_last)_n |
| ItemCode.WordsCode | core/generar_codigo.py:6-22 | a name with a word character is coded from its nonempty word list |
| ItemCode.CodeAlphabet | core/generar_codigo.py:4-22 | every code generated from an ASCII name uses only A-Z, 0-9 and "_" |
| ItemCode.ResolveItemCode | routes/item.py:22-23 | a nonempty submitted code is kept; an empty or missing one is generated; the result is never empty |
| Records.NextItemId | models/item.py:6-9 | a new item id is positive and above every existing id |
| Records.NextSaleId | models/sale.py:6-9 | a new sale id is positive and above every existing id |

## Left out

- HTTP routing, dependency injection, authentication and CORS: transport plumbing with no effect on the tables.
- SQLAlchemy session mechanics (flush, refresh, joinedload): modelled only as "new state or unchanged" per request.
- StockImport.ImportRows: lets each row see the inventory rows added by earlier rows of the sheet. With autoflush off (db/database.py:17), the source does not: a pending row stays hidden until an item creation flushes it. `ImportRowsAsWritten` models that; see Findings.
- Spreadsheet parsing (`pandas.read_excel`) is not modelled: rows arrive as records whose missing cells are `None`, which the model reads as 0 (core/load_file_inventory.py:19-21). An empty name cell, which pandas turns into the text "nan", is not modelled.
- The AI assistant module: it calls an external service and runs generated SQL.
- Local-time conversions (`*_local` properties, routes/item_movement_group.py:53-61): they need a time-zone database. Group creation times are passed through unchanged.
- `datetime.utcnow()` and `random.randint` become parameters. The two random numbers of the code generator come with their ranges as preconditions.
- `round(…, 2)` in the summary and all floating-point rounding: money is exact.
- Plain CRUD of warehouses, categories, items, inventory entries, movements and groups, the database wipe script and the combined models file.
- The order of rows returned without ORDER BY is modelled as table order.
- ItemCode.IsWordChar: `\w` and `str.upper()` are modelled on ASCII only, so Unicode letters are not word characters and are not uppercased.
- ItemCode.CodeAlphabet: stated for ASCII names only. On other names Python keeps non-ASCII word characters ("té verde" gives "TÉ_VERDE_nn"), which this model does not follow.
- StockImport.ImportStockSheet: one timestamp is used for the whole sheet, where the source reads the clock for each row.
- Projection.RebuildInventoryTable: one timestamp stamps every row the rebuild writes, where the source reads the clock once per row (routes/inventory.py:227 and 235). Projection.RebuildSettles and the other rebuild lemmas state the stamp under the same reading.
- A sale-group or movement-group id that does not exist makes the source raise while unpacking a missing row. The model returns `Err(GroupNotFound)` instead of modelling the exception.

## Findings

| source | as written | input that shows it | evidently intended | confidence | as-written member | corrected member |
|---|---|---|---|---|---|---|
| core/load_file_inventory.py:48-67 | the session does not autoflush (db/database.py:17), so the inventory lookup misses a row added earlier in the same sheet unless an item creation has flushed it since; a second inventory row is inserted for the same warehouse and item | a sheet with two rows named "X", quantity 1, imported into an empty store: two inventory rows of quantity 1 for the new item, whose ledger net is 2 | one inventory row per warehouse and item, holding both quantities, so that stock agrees with the ledger | medium; not executed | StockImport.RepeatedNewNameSplitsStock | StockImport.ImportRowsAgree |
