/**
 * The stock-sheet import (`importar_excel_inventario`): for every parsed sheet
 * row, find or create the item whose code is the trimmed name, add the row's
 * quantity to that item's inventory row in the target warehouse (overwriting
 * its prices), and append one `entrada` movement.
 */
module StockImport {
  import opened Common
  import opened Records
  import opened Text
  import opened Projection
  import opened InventoryReads

  /** One parsed sheet row; a `None` cell is an empty cell before `fillna(0)`. */
  datatype SheetRow = SheetRow(name: string, quantity: Option<real>, purchasePrice: Option<real>, salePrice: Option<real>)

  /** The three tables the import writes. */
  datatype Tables = Tables(items: seq<Item>, inventory: seq<InventoryRow>, movements: seq<Movement>)

  /** Python's `int(x)` on a float: truncation toward zero. */
  function Truncate(x: real): (n: int)
    ensures 0.0 <= x ==> n as real <= x < n as real + 1.0
    ensures x < 0.0 ==> n as real - 1.0 < x <= n as real
  {
    if 0.0 <= x then x.Floor else -((-x).Floor)
  }

  /** `int(row["Cantidad"])` after `fillna(0)`. */
  function Quantity(row: SheetRow): int
  {
    Truncate(RealOrZero(row.quantity))
  }

  /** The prices the row writes, after `fillna(0)`. */
  function RowPrices(row: SheetRow): PricePair
  {
    PricePair(RealOrZero(row.purchasePrice), RealOrZero(row.salePrice))
  }

  /** `str(row["Nombre"]).strip()`. */
  function RowName(row: SheetRow): string
  {
    Trim(row.name)
  }

  /** The id of the item filed under `code`: the first item with that code, or the id a new item gets. */
  function ItemIdFor(items: seq<Item>, code: string): int
  {
    var found := FirstItemWithCode(items, code);
    if found < |items| then items[found].id else NextItemId(items)
  }

  /** The item table after the find-or-create of `code`. */
  function FindOrCreate(items: seq<Item>, code: string, categoryId: int, now: int): seq<Item>
  {
    if FirstItemWithCode(items, code) < |items| then items
    else items + [Item(NextItemId(items), code, code, "", Some(categoryId), now)]
  }

  /** Adds `q` to the first row of (w, item) and overwrites its prices, or inserts a row with exactly `q`. */
  function AddStock(rows: seq<InventoryRow>, w: int, itemId: int, q: int, p: PricePair, now: int): seq<InventoryRow>
  {
    var j := FirstRow(rows, Some(w), itemId);
    if j < |rows| then
      rows[j := rows[j].(quantity := rows[j].quantity + q, purchasePrice := p.purchase, salePrice := p.sale, updatedAt := now)]
    else
      rows + [InventoryRow(Some(w), itemId, q, now, p.purchase, p.sale)]
  }

  /** The movement the import records for one row. */
  function EntryMovement(itemId: int, w: int, q: int, p: PricePair, user: int, now: int): Movement
  {
    Movement(itemId, None, Some(w), q, Entrada, Some(user), now, Some(p.purchase), Some(p.sale), None)
  }

  /** One pass of the row loop. */
  function ImportRow(t: Tables, row: SheetRow, categoryId: int, w: int, user: int, now: int): Tables
  {
    var code := RowName(row);
    if code == [] then t
    else
      var itemId := ItemIdFor(t.items, code);
      Tables(
        FindOrCreate(t.items, code, categoryId, now),
        AddStock(t.inventory, w, itemId, Quantity(row), RowPrices(row), now),
        t.movements + [EntryMovement(itemId, w, Quantity(row), RowPrices(row), user, now)])
  }

  /** The row loop over `rows`, in order, as intended: each row sees the writes of the rows before it. */
  function ImportRows(t: Tables, rows: seq<SheetRow>, categoryId: int, w: int, user: int, now: int): Tables
  {
    if rows == [] then t
    else ImportRow(ImportRows(t, rows[..|rows| - 1], categoryId, w, user, now), rows[|rows| - 1], categoryId, w, user, now)
  }

  /** The whole import: it fails before any row when there is no category, else files new items under the first one. */
  function ImportSheet(t: Tables, categories: seq<Category>, rows: seq<SheetRow>, w: int, user: int, now: int): Result<Tables>
  {
    if categories == [] then Err(NoCategory)
    else Ok(ImportRows(t, rows, categories[0].id, w, user, now))
  }

  // ---------------------------------------------------------------- the row loop as the session runs it

  /**
   * The import's tables together with how many inventory rows the session has
   * sent to the database. The session does not autoflush (db/database.py:17), so
   * `query(Inventory)…first()` reads only those `flushed` rows; rows added later
   * in the same sheet are still pending.
   */
  datatype Session = Session(tables: Tables, flushed: nat)

  /**
   * One pass of the row loop as written: only the creation of an item flushes, and
   * it does so before that row adds its inventory row, so the inventory lookup
   * misses a row that an earlier row of the same sheet added after the last flush.
   * Items and movements come out as in `ImportRow`; with every row flushed, so do
   * the inventory rows.
   */
  function ImportRowAsWritten(s: Session, row: SheetRow, categoryId: int, w: int, user: int, now: int): (r: Session)
    requires s.flushed <= |s.tables.inventory|
    ensures r.flushed <= |r.tables.inventory|
    ensures r.tables.items == ImportRow(s.tables, row, categoryId, w, user, now).items
    ensures r.tables.movements == ImportRow(s.tables, row, categoryId, w, user, now).movements
    ensures s.flushed == |s.tables.inventory| ==> r.tables == ImportRow(s.tables, row, categoryId, w, user, now)
  {
    var t := s.tables;
    var code := RowName(row);
    if code == [] then s
    else
      var itemId := ItemIdFor(t.items, code);
      var flushed := if FirstItemWithCode(t.items, code) < |t.items| then s.flushed else |t.inventory|;
      assert flushed == |t.inventory| ==> t.inventory[..flushed] == t.inventory;
      var j := FirstRow(t.inventory[..flushed], Some(w), itemId);
      var q, p := Quantity(row), RowPrices(row);
      var inventory :=
        if j < flushed then
          t.inventory[j := t.inventory[j].(quantity := t.inventory[j].quantity + q, purchasePrice := p.purchase,
                                           salePrice := p.sale, updatedAt := now)]
        else
          t.inventory + [InventoryRow(Some(w), itemId, q, now, p.purchase, p.sale)];
      Session(Tables(FindOrCreate(t.items, code, categoryId, now), inventory,
                     t.movements + [EntryMovement(itemId, w, q, p, user, now)]),
              flushed)
  }

  /** The row loop as written, starting with every stored row flushed. */
  function ImportRowsAsWritten(t: Tables, rows: seq<SheetRow>, categoryId: int, w: int, user: int, now: int): (s: Session)
    ensures s.flushed <= |s.tables.inventory|
    ensures |s.tables.movements| <= |t.movements| + |rows|
  {
    if rows == [] then Session(t, |t.inventory|)
    else ImportRowAsWritten(ImportRowsAsWritten(t, rows[..|rows| - 1], categoryId, w, user, now), rows[|rows| - 1],
                            categoryId, w, user, now)
  }

  /**
   * A sheet that names a new item twice, imported into an empty store: as written
   * the second row misses the first row's pending inventory row and adds another,
   * so the pair's first row holds 1 while its ledger net is 2. The intended loop
   * keeps one row holding 2.
   */
  lemma RepeatedNewNameSplitsStock()
    ensures var row := SheetRow("X", Some(1.0), None, None);
            var t := Tables([], [], []);
            var k := Key(Some(1), 1);
            var asWritten := ImportRowsAsWritten(t, [row, row], 1, 1, 1, 0).tables;
            var intended := ImportRows(t, [row, row], 1, 1, 1, 0);
            && |asWritten.inventory| == 2
            && RowKey(asWritten.inventory[0]) == k && RowKey(asWritten.inventory[1]) == k
            && QuantityAt(asWritten.inventory, k) == 1 && NetQuantity(asWritten.movements, k) == 2
            && |intended.inventory| == 1 && QuantityAt(intended.inventory, k) == 2
  {
    RepeatedXAsWritten();
    RepeatedXIntended();
    var m := EntryMovement(1, 1, 1, PricePair(0.0, 0.0), 1, 0);
    var k := Key(Some(1), 1);
    var entry := InventoryRow(Some(1), 1, 1, 0, 0.0, 0.0);
    assert FirstRow([entry, entry], Some(1), 1) == 0;
    assert FirstRow([InventoryRow(Some(1), 1, 2, 0, 0.0, 0.0)], Some(1), 1) == 0;
    assert [m, m][..1] == [m];
    assert [m][..0] == [];
    assert NetQuantity([m], k) == 1;
  }

  /** The two "X" rows as written: two inventory rows, one movement each. */
  lemma RepeatedXAsWritten()
    ensures var row := SheetRow("X", Some(1.0), None, None);
            var item := Item(1, "X", "X", "", Some(1), 0);
            var entry := InventoryRow(Some(1), 1, 1, 0, 0.0, 0.0);
            var m := EntryMovement(1, 1, 1, PricePair(0.0, 0.0), 1, 0);
            ImportRowsAsWritten(Tables([], [], []), [row, row], 1, 1, 1, 0) == Session(Tables([item], [entry, entry], [m, m]), 0)
  {
    var row := SheetRow("X", Some(1.0), None, None);
    var t := Tables([], [], []);
    var item := Item(1, "X", "X", "", Some(1), 0);
    var entry := InventoryRow(Some(1), 1, 1, 0, 0.0, 0.0);
    var m := EntryMovement(1, 1, 1, PricePair(0.0, 0.0), 1, 0);
    var s1 := Session(Tables([item], [entry], [m]), 0);
    RowNameOfX();
    assert [row, row][..1] == [row];
    assert [row][..0] == [];
    assert ImportRowsAsWritten(t, [], 1, 1, 1, 0) == Session(t, 0);
    assert ImportRowAsWritten(Session(t, 0), row, 1, 1, 1, 0) == s1;
    assert ImportRowsAsWritten(t, [row], 1, 1, 1, 0) == s1;
    assert FirstItemWithCode([item], "X") == 0;
    assert s1.tables.inventory[..0] == [];
    assert ImportRowAsWritten(s1, row, 1, 1, 1, 0) == Session(Tables([item], [entry, entry], [m, m]), 0);
  }

  /** The two "X" rows through the intended loop: one inventory row holding both quantities. */
  lemma RepeatedXIntended()
    ensures var row := SheetRow("X", Some(1.0), None, None);
            var item := Item(1, "X", "X", "", Some(1), 0);
            var m := EntryMovement(1, 1, 1, PricePair(0.0, 0.0), 1, 0);
            ImportRows(Tables([], [], []), [row, row], 1, 1, 1, 0) == Tables([item], [InventoryRow(Some(1), 1, 2, 0, 0.0, 0.0)], [m, m])
  {
    var row := SheetRow("X", Some(1.0), None, None);
    var t := Tables([], [], []);
    var item := Item(1, "X", "X", "", Some(1), 0);
    var m := EntryMovement(1, 1, 1, PricePair(0.0, 0.0), 1, 0);
    var t1 := Tables([item], [InventoryRow(Some(1), 1, 1, 0, 0.0, 0.0)], [m]);
    RowNameOfX();
    assert [row, row][..1] == [row];
    assert [row][..0] == [];
    assert ImportRows(t, [], 1, 1, 1, 0) == t;
    assert ImportRow(t, row, 1, 1, 1, 0) == t1;
    assert ImportRows(t, [row], 1, 1, 1, 0) == t1;
    assert FirstItemWithCode([item], "X") == 0;
    assert ImportRow(t1, row, 1, 1, 1, 0) == Tables([item], [InventoryRow(Some(1), 1, 2, 0, 0.0, 0.0)], [m, m]);
  }

  /** The sheet cell "X" is kept as it is by `strip()`. */
  lemma RowNameOfX()
    ensures RowName(SheetRow("X", Some(1.0), None, None)) == "X"
    ensures Quantity(SheetRow("X", Some(1.0), None, None)) == 1
  {
    var name := RowName(SheetRow("X", Some(1.0), None, None));
    assert !IsSpace('X');
    assert name != [];
    assert name[0] in "X";
  }

  // ---------------------------------------------------------------- properties of one row

  /** The quantity held for pair `k`: that of its first row, or 0 when it has none. */
  function QuantityAt(rows: seq<InventoryRow>, k: Key): int
  {
    var j := FirstRow(rows, k.warehouse, k.itemId);
    if j < |rows| then rows[j].quantity else 0
  }

  /** A sheet without a category fails and writes nothing. */
  lemma NoCategoryFails(t: Tables, rows: seq<SheetRow>, w: int, user: int, now: int)
    ensures ImportSheet(t, [], rows, w, user, now) == Err(NoCategory)
  {
  }

  /** A row whose trimmed name is empty writes nothing. */
  lemma BlankRowSkipped(t: Tables, row: SheetRow, categoryId: int, w: int, user: int, now: int)
    requires forall k :: 0 <= k < |row.name| ==> IsSpace(row.name[k])
    ensures ImportRow(t, row, categoryId, w, user, now) == t
  {
  }

  /** The item a row is filed under: the existing one with that code, else a new one with code = name = the trimmed name. */
  lemma {:induction false} FindOrCreateItem(items: seq<Item>, code: string, categoryId: int, now: int)
    ensures var after := FindOrCreate(items, code, categoryId, now);
      && ((exists it :: it in items && it.code == code) ==> after == items)
      && ((forall it :: it in items ==> it.code != code) ==>
            after == items + [Item(ItemIdFor(items, code), code, code, "", Some(categoryId), now)])
      && exists it :: it in after && it.code == code && it.id == ItemIdFor(items, code)
  {
    var found := FirstItemWithCode(items, code);
    var after := FindOrCreate(items, code, categoryId, now);
    if found < |items| {
      assert items[found] in after;
    } else {
      assert forall k :: 0 <= k < |items| ==> items[k].code != code;
      assert after[|items|] in after;
    }
  }

  /** The (w, item) row ends up with the old quantity plus the row's quantity and exactly the row's prices. */
  lemma AddStockSettles(rows: seq<InventoryRow>, w: int, itemId: int, q: int, p: PricePair, now: int)
    ensures var after := AddStock(rows, w, itemId, q, p, now);
      var j := FirstRow(after, Some(w), itemId);
      && j < |after|
      && after[j].quantity == QuantityAt(rows, Key(Some(w), itemId)) + q
      && after[j].purchasePrice == p.purchase && after[j].salePrice == p.sale
      && |after| == |rows| + (if FirstRow(rows, Some(w), itemId) < |rows| then 0 else 1)
  {
    var j := FirstRow(rows, Some(w), itemId);
    var after := AddStock(rows, w, itemId, q, p, now);
    FirstRowIs(after, Key(Some(w), itemId), j);
  }

  /**
   * Only the first (w, item) row changes, or one row is appended: every other
   * row keeps its place and all of its fields, so every other pair keeps its
   * first row's quantity.
   */
  lemma AddStockOther(rows: seq<InventoryRow>, w: int, itemId: int, q: int, p: PricePair, now: int, k: Key)
    requires k != Key(Some(w), itemId)
    ensures var after := AddStock(rows, w, itemId, q, p, now);
      && |rows| <= |after| <= |rows| + 1
      && forall n :: 0 <= n < |rows| && n != FirstRow(rows, Some(w), itemId) ==> after[n] == rows[n]
    ensures QuantityAt(AddStock(rows, w, itemId, q, p, now), k) == QuantityAt(rows, k)
  {
    var j := FirstRow(rows, Some(w), itemId);
    var after := AddStock(rows, w, itemId, q, p, now);
    var jk := FirstRow(rows, k.warehouse, k.itemId);
    if j < |rows| {
      FirstRowIs(after, k, jk);
    } else if jk < |rows| {
      FirstRowIs(after, k, jk);
    } else {
      FirstRowIs(after, k, |after|);
    }
  }

  /**
   * A non-blank row writes the item row of the find-or-create, the (w, item)
   * inventory row holding the old quantity plus the row's quantity with the
   * row's prices, and exactly one `entrada` movement from nowhere into `w`
   * carrying the row's quantity, prices and the importing user.
   */
  lemma ImportRowEffect(t: Tables, row: SheetRow, categoryId: int, w: int, user: int, now: int)
    requires RowName(row) != []
    ensures var after := ImportRow(t, row, categoryId, w, user, now);
      var itemId := ItemIdFor(t.items, RowName(row));
      var j := FirstRow(after.inventory, Some(w), itemId);
      && (exists it :: it in after.items && it.code == RowName(row) && it.id == itemId)
      && j < |after.inventory|
      && after.inventory[j].quantity == QuantityAt(t.inventory, Key(Some(w), itemId)) + Quantity(row)
      && after.inventory[j].purchasePrice == RealOrZero(row.purchasePrice)
      && after.inventory[j].salePrice == RealOrZero(row.salePrice)
      && after.movements == t.movements + [Movement(itemId, None, Some(w), Quantity(row), Entrada, Some(user), now,
                                                    Some(RealOrZero(row.purchasePrice)), Some(RealOrZero(row.salePrice)), None)]
  {
    var itemId := ItemIdFor(t.items, RowName(row));
    FindOrCreateItem(t.items, RowName(row), categoryId, now);
    AddStockSettles(t.inventory, w, itemId, Quantity(row), RowPrices(row), now);
  }

  /** After one sheet row the summary's `total_items` is higher by the row's quantity (by nothing for a blank row). */
  lemma ImportRowRaisesTotalItems(t: Tables, row: SheetRow, categoryId: int, w: int, user: int, now: int, sales: seq<Sale>)
    ensures GetInventorySummary(ImportRow(t, row, categoryId, w, user, now).inventory, sales).totalItems ==
            GetInventorySummary(t.inventory, sales).totalItems + (if RowName(row) == [] then 0 else Quantity(row))
  {
    if RowName(row) != [] {
      var rows := t.inventory;
      var itemId := ItemIdFor(t.items, RowName(row));
      var p := RowPrices(row);
      var j := FirstRow(rows, Some(w), itemId);
      if j < |rows| {
        TotalQuantityUpdate(rows, j, rows[j].(quantity := rows[j].quantity + Quantity(row), purchasePrice := p.purchase,
                                                 salePrice := p.sale, updatedAt := now));
      } else {
        var r := InventoryRow(Some(w), itemId, Quantity(row), now, p.purchase, p.sale);
        TotalsAppend(rows, [r]);
        assert [r][..0] == [];
      }
    }
  }

  /** The find-or-create keeps item ids and codes unique. */
  lemma FindOrCreateKeepsItemsValid(items: seq<Item>, code: string, categoryId: int, now: int)
    requires ItemsValid(items)
    ensures ItemsValid(FindOrCreate(items, code, categoryId, now))
  {
    var after := FindOrCreate(items, code, categoryId, now);
    if FirstItemWithCode(items, code) == |items| {
      forall a, b | 0 <= a < b < |after|
        ensures after[a].id != after[b].id && after[a].code != after[b].code
      {
        if b == |items| {
          assert items[a] in items;
        }
      }
    }
  }

  lemma {:induction false} ImportRowsKeepsItemsValid(t: Tables, rows: seq<SheetRow>, categoryId: int, w: int, user: int, now: int)
    requires ItemsValid(t.items)
    ensures ItemsValid(ImportRows(t, rows, categoryId, w, user, now).items)
  {
    if rows != [] {
      var mid := ImportRows(t, rows[..|rows| - 1], categoryId, w, user, now);
      ImportRowsKeepsItemsValid(t, rows[..|rows| - 1], categoryId, w, user, now);
      if RowName(rows[|rows| - 1]) != [] {
        FindOrCreateKeepsItemsValid(mid.items, RowName(rows[|rows| - 1]), categoryId, now);
      }
    }
  }

  // ---------------------------------------------------------------- agreement with the ledger

  /** Each pair's first inventory row holds the ledger's net quantity for it (0 when it has no row). */
  ghost predicate AgreesWithLedger(t: Tables)
  {
    forall k :: QuantityAt(t.inventory, k) == NetQuantity(t.movements, k)
  }

  /** One imported row keeps the inventory in agreement with the quantities a rebuild would derive. */
  lemma ImportRowAgrees(t: Tables, row: SheetRow, categoryId: int, w: int, user: int, now: int)
    requires AgreesWithLedger(t)
    ensures AgreesWithLedger(ImportRow(t, row, categoryId, w, user, now))
  {
    var code := RowName(row);
    if code != [] {
      var itemId := ItemIdFor(t.items, code);
      var after := ImportRow(t, row, categoryId, w, user, now);
      var m := EntryMovement(itemId, w, Quantity(row), RowPrices(row), user, now);
      forall k
        ensures QuantityAt(after.inventory, k) == NetQuantity(after.movements, k)
      {
        NetQuantityAppend(t.movements, m, k);
        if k == Key(Some(w), itemId) {
          AddStockSettles(t.inventory, w, itemId, Quantity(row), RowPrices(row), now);
        } else {
          AddStockOther(t.inventory, w, itemId, Quantity(row), RowPrices(row), now, k);
        }
      }
    }
  }

  lemma {:induction false} ImportRowsAgree(t: Tables, rows: seq<SheetRow>, categoryId: int, w: int, user: int, now: int)
    requires AgreesWithLedger(t)
    ensures AgreesWithLedger(ImportRows(t, rows, categoryId, w, user, now))
  {
    if rows != [] {
      ImportRowsAgree(t, rows[..|rows| - 1], categoryId, w, user, now);
      ImportRowAgrees(ImportRows(t, rows[..|rows| - 1], categoryId, w, user, now), rows[|rows| - 1], categoryId, w, user, now);
    }
  }

  /** Once the find-or-create of `code` has run, the same code resolves to the same item. */
  lemma SameItemAfterCreate(items: seq<Item>, code: string, categoryId: int, now: int)
    ensures ItemIdFor(FindOrCreate(items, code, categoryId, now), code) == ItemIdFor(items, code)
  {
    var after := FindOrCreate(items, code, categoryId, now);
    if FirstItemWithCode(items, code) == |items| {
      assert forall k :: 0 <= k < |items| ==> after[k].code != code;
      assert after[|items|].code == code;
      assert FirstItemWithCode(after, code) == |items|;
    }
  }

  /** A two-row sheet is the row step applied twice. */
  lemma ImportTwoRows(t: Tables, r1: SheetRow, r2: SheetRow, categoryId: int, w: int, user: int, now: int)
    ensures ImportRows(t, [r1, r2], categoryId, w, user, now) ==
            ImportRow(ImportRow(t, r1, categoryId, w, user, now), r2, categoryId, w, user, now)
  {
    assert [r1, r2][..1] == [r1];
    assert [r1][..0] == [];
    assert ImportRows(t, [r1], categoryId, w, user, now) == ImportRow(t, r1, categoryId, w, user, now);
  }

  /**
   * Two rows naming the same item (say 5 then 3) accumulate: the pair ends with
   * the earlier quantity plus both, and with the second row's prices.
   */
  lemma ImportTwiceAccumulates(t: Tables, r1: SheetRow, r2: SheetRow, categoryId: int, w: int, user: int, now: int)
    requires RowName(r1) != [] && RowName(r2) == RowName(r1)
    ensures var after := ImportRows(t, [r1, r2], categoryId, w, user, now);
      var k := Key(Some(w), ItemIdFor(t.items, RowName(r1)));
      var j := FirstRow(after.inventory, k.warehouse, k.itemId);
      && j < |after.inventory|
      && after.inventory[j].quantity == QuantityAt(t.inventory, k) + Quantity(r1) + Quantity(r2)
      && after.inventory[j].purchasePrice == RealOrZero(r2.purchasePrice)
      && after.inventory[j].salePrice == RealOrZero(r2.salePrice)
  {
    var code := RowName(r1);
    var mid := ImportRow(t, r1, categoryId, w, user, now);
    ImportTwoRows(t, r1, r2, categoryId, w, user, now);
    ImportRowEffect(t, r1, categoryId, w, user, now);
    var itemId := ItemIdFor(t.items, code);
    SameItemAfterCreate(t.items, code, categoryId, now);
    var k := Key(Some(w), itemId);
    assert QuantityAt(mid.inventory, k) == QuantityAt(t.inventory, k) + Quantity(r1);
    ImportRowEffect(mid, r2, categoryId, w, user, now);
  }

  // ---------------------------------------------------------------- the row loop over the store

  /** The find-or-create on the store's item table; returns the item's id. */
  method StoreFindOrCreate(db: Store, code: string, categoryId: int, now: int) returns (itemId: int)
    modifies db`items
    ensures itemId == ItemIdFor(old(db.items), code)
    ensures db.items == FindOrCreate(old(db.items), code, categoryId, now)
  {
    var found := FirstItemWithCode(db.items, code);
    if found < |db.items| {
      itemId := db.items[found].id;
    } else {
      itemId := NextItemId(db.items);
      db.items := db.items + [Item(itemId, code, code, "", Some(categoryId), now)];
    }
  }

  /** The stock update on the store's inventory table: `quantity += q` and new prices, or a new row. */
  method StoreAddStock(db: Store, w: int, itemId: int, q: int, p: PricePair, now: int)
    modifies db`inventory
    ensures db.inventory == AddStock(old(db.inventory), w, itemId, q, p, now)
  {
    var existing := FirstRow(db.inventory, Some(w), itemId);
    if existing < |db.inventory| {
      db.inventory := db.inventory[existing := db.inventory[existing].(
        quantity := db.inventory[existing].quantity + q,
        purchasePrice := p.purchase,
        salePrice := p.sale,
        updatedAt := now)];
    } else {
      db.inventory := db.inventory + [InventoryRow(Some(w), itemId, q, now, p.purchase, p.sale)];
    }
  }

  /** One pass of the row loop on the store. */
  method ImportOneRow(db: Store, row: SheetRow, categoryId: int, w: int, user: int, now: int)
    modifies db`items, db`inventory, db`movements
    ensures Tables(db.items, db.inventory, db.movements) ==
            ImportRow(Tables(old(db.items), old(db.inventory), old(db.movements)), row, categoryId, w, user, now)
  {
    var code := Trim(row.name);
    var quantity := Truncate(RealOrZero(row.quantity));
    var prices := PricePair(RealOrZero(row.purchasePrice), RealOrZero(row.salePrice));
    if code == [] {
      return;
    }
    var itemId := StoreFindOrCreate(db, code, categoryId, now);
    StoreAddStock(db, w, itemId, quantity, prices, now);
    db.movements := db.movements + [Movement(itemId, None, Some(w), quantity, Entrada, Some(user), now,
                                             Some(prices.purchase), Some(prices.sale), None)];
  }

  /** The row loop on the store: every row in order, each seeing the writes of the rows before it. */
  method ImportAllRows(db: Store, rows: seq<SheetRow>, categoryId: int, w: int, user: int, now: int)
    modifies db`items, db`inventory, db`movements
    ensures Tables(db.items, db.inventory, db.movements) ==
            ImportRows(Tables(old(db.items), old(db.inventory), old(db.movements)), rows, categoryId, w, user, now)
  {
    ghost var t0 := Tables(db.items, db.inventory, db.movements);
    for i := 0 to |rows|
      invariant Tables(db.items, db.inventory, db.movements) == ImportRows(t0, rows[..i], categoryId, w, user, now)
    {
      ImportOneRow(db, rows[i], categoryId, w, user, now);
      assert rows[..i + 1][..i] == rows[..i];
    }
    assert rows[..|rows|] == rows;
  }

  /**
   * `importar_excel_inventario` over parsed rows: with no category it fails and
   * writes nothing; otherwise it runs the row loop and commits its writes.
   */
  method ImportStockSheet(db: Store, rows: seq<SheetRow>, w: int, user: int, now: int) returns (error: Option<Error>)
    requires db.Valid()
    modifies db`items, db`inventory, db`movements
    ensures db.Valid()
    ensures var r := ImportSheet(Tables(old(db.items), old(db.inventory), old(db.movements)), db.categories, rows, w, user, now);
      && (r.Err? ==> error == Some(r.error) && unchanged(db))
      && (r.Ok? ==> error.None? && Tables(db.items, db.inventory, db.movements) == r.value)
  {
    if db.categories == [] {
      return Some(NoCategory);
    }
    ghost var t0 := Tables(db.items, db.inventory, db.movements);
    ImportAllRows(db, rows, db.categories[0].id, w, user, now);
    ImportRowsKeepsItemsValid(t0, rows, db.categories[0].id, w, user, now);
    return None;
  }
}
