/**
 * The read side of the inventory routes: the global summary
 * (`get_inventory_summary`) and the per-warehouse grouping by item
 * (`get_inventory_grouped_warehouse`). Both read the derived inventory table.
 */
module InventoryReads {
  import opened Common
  import opened Records
  import opened Totals

  // ---------------------------------------------------------------- global summary

  function TotalQuantity(rows: seq<InventoryRow>): int
  {
    if rows == [] then 0 else TotalQuantity(rows[..|rows| - 1]) + rows[|rows| - 1].quantity
  }

  /** Quantity times purchase price, the value a row ties up. */
  function Investment(r: InventoryRow): real
  {
    r.quantity as real * r.purchasePrice
  }

  function TotalInvestment(rows: seq<InventoryRow>): real
  {
    if rows == [] then 0.0 else TotalInvestment(rows[..|rows| - 1]) + Investment(rows[|rows| - 1])
  }

  /** The figures of the summary, before the final rounding to two decimals. */
  datatype InventorySummary = InventorySummary(totalItems: int, totalInvestment: real, totalDebt: real)

  /**
   * `get_inventory_summary`: quantity and investment over every inventory row,
   * debt over the unpaid sales.
   */
  function GetInventorySummary(rows: seq<InventoryRow>, sales: seq<Sale>): InventorySummary
  {
    InventorySummary(TotalQuantity(rows), TotalInvestment(rows), DebtSum(sales))
  }

  /**
   * The summary's debt is the amount of the unpaid sales and of nothing else: 0
   * when every sale is paid, and never more than the gross amount of all sales
   * when no quantity or price is negative.
   */
  lemma SummaryDebtIsUnpaidOnly(rows: seq<InventoryRow>, sales: seq<Sale>)
    ensures GetInventorySummary(rows, sales).totalDebt == GrossSum(Unpaid(sales))
    ensures NonNegative(sales) ==> 0.0 <= GetInventorySummary(rows, sales).totalDebt <= GrossSum(sales)
    ensures (forall s :: s in sales ==> s.paid) ==> GetInventorySummary(rows, sales).totalDebt == 0.0
  {
    DebtIsGrossOfUnpaid(sales);
    if NonNegative(sales) {
      DebtWithinGross(sales);
    }
    if forall s :: s in sales ==> s.paid {
      PaidMeansNoDebt(sales);
    }
  }

  lemma {:induction false} TotalsAppend(a: seq<InventoryRow>, b: seq<InventoryRow>)
    ensures TotalQuantity(a + b) == TotalQuantity(a) + TotalQuantity(b)
    ensures TotalInvestment(a + b) == TotalInvestment(a) + TotalInvestment(b)
  {
    if b == [] {
      assert a + b == a;
    } else {
      assert (a + b)[..|a + b| - 1] == a + b[..|b| - 1];
      TotalsAppend(a, b[..|b| - 1]);
    }
  }

  /** Replacing one row changes the total quantity by the difference of the two quantities. */
  lemma {:induction false} TotalQuantityUpdate(rows: seq<InventoryRow>, j: nat, r: InventoryRow)
    requires j < |rows|
    ensures TotalQuantity(rows[j := r]) == TotalQuantity(rows) - rows[j].quantity + r.quantity
  {
    var pre := rows[..|rows| - 1];
    if j == |rows| - 1 {
      assert rows[j := r][..|rows| - 1] == pre;
    } else {
      assert rows[j := r][..|rows| - 1] == pre[j := r];
      TotalQuantityUpdate(pre, j, r);
    }
  }

  // ---------------------------------------------------------------- grouping by item in one warehouse

  predicate InWarehouse(r: InventoryRow, w: int, i: int)
  {
    r.warehouseId == Some(w) && r.itemId == i
  }

  /** The item ids of the `GROUP BY item_id` over the rows of warehouse `w`, each once, in order of first appearance. */
  function ItemsInWarehouse(rows: seq<InventoryRow>, w: int): (ids: seq<int>)
    ensures forall i :: i in ids <==> exists r :: r in rows && InWarehouse(r, w, i)
    ensures forall a, b :: 0 <= a < b < |ids| ==> ids[a] != ids[b]
  {
    if rows == [] then []
    else
      var r := rows[|rows| - 1];
      var ids := ItemsInWarehouse(rows[..|rows| - 1], w);
      assert rows == rows[..|rows| - 1] + [r];
      if InWarehouse(r, w, r.itemId) && r.itemId !in ids then ids + [r.itemId] else ids
  }

  /** `SUM(quantity)` of one group. */
  function QuantityIn(rows: seq<InventoryRow>, w: int, i: int): int
  {
    if rows == [] then 0
    else
      var r := rows[|rows| - 1];
      QuantityIn(rows[..|rows| - 1], w, i) + (if InWarehouse(r, w, i) then r.quantity else 0)
  }

  /** `SUM(quantity * purchase_price)` of one group. */
  function InvestmentIn(rows: seq<InventoryRow>, w: int, i: int): real
  {
    if rows == [] then 0.0
    else
      var r := rows[|rows| - 1];
      InvestmentIn(rows[..|rows| - 1], w, i) + (if InWarehouse(r, w, i) then Investment(r) else 0.0)
  }

  /**
   * `order_by(updated_at.desc()).first()` over the rows of item `i` in warehouse `w`:
   * a row with the greatest stamp (the earliest such row in table order), or none.
   */
  function LatestRow(rows: seq<InventoryRow>, w: int, i: int): (r: Option<InventoryRow>)
    ensures r.None? <==> forall x :: x in rows ==> !InWarehouse(x, w, i)
    ensures r.Some? ==> r.value in rows && InWarehouse(r.value, w, i)
    ensures r.Some? ==> forall x :: x in rows && InWarehouse(x, w, i) ==> x.updatedAt <= r.value.updatedAt
  {
    if rows == [] then None
    else
      var x := rows[|rows| - 1];
      var prev := LatestRow(rows[..|rows| - 1], w, i);
      assert rows == rows[..|rows| - 1] + [x];
      if !InWarehouse(x, w, i) then prev
      else if prev.None? || prev.value.updatedAt < x.updatedAt then Some(x)
      else prev
  }

  /** `db.query(Item).get(item_id)` then `item.name if item else None`. */
  function ItemName(items: seq<Item>, id: int): Option<string>
  {
    if items == [] then None
    else if items[0].id == id then Some(items[0].name)
    else ItemName(items[1..], id)
  }

  /** One element of the grouped summary. */
  datatype GroupedEntry = GroupedEntry(
    itemId: int,
    itemName: Option<string>,
    totalQuantity: int,
    totalInvestment: real,
    lastSalePrice: Option<real>,
    lastPurchasePrice: Option<real>)

  function EntryFor(rows: seq<InventoryRow>, items: seq<Item>, w: int, i: int): GroupedEntry
  {
    var last := LatestRow(rows, w, i);
    GroupedEntry(
      i,
      ItemName(items, i),
      QuantityIn(rows, w, i),
      InvestmentIn(rows, w, i),
      if last.Some? then Some(last.value.salePrice) else None,
      if last.Some? then Some(last.value.purchasePrice) else None)
  }

  /** `get_inventory_grouped_warehouse`: one entry per item that has rows in warehouse `w`. */
  function GroupedByWarehouse(rows: seq<InventoryRow>, items: seq<Item>, w: int): seq<GroupedEntry>
  {
    var ids := ItemsInWarehouse(rows, w);
    seq(|ids|, n requires 0 <= n < |ids| => EntryFor(rows, items, w, ids[n]))
  }

  /** Every item with a row in `w` has an entry in the grouping. */
  lemma GroupedCoversItems(rows: seq<InventoryRow>, items: seq<Item>, w: int)
    ensures var g := GroupedByWarehouse(rows, items, w);
      forall r :: r in rows && r.warehouseId == Some(w) ==> exists n :: 0 <= n < |g| && g[n].itemId == r.itemId
  {
    var g := GroupedByWarehouse(rows, items, w);
    var ids := ItemsInWarehouse(rows, w);
    forall r | r in rows && r.warehouseId == Some(w)
      ensures exists n :: 0 <= n < |g| && g[n].itemId == r.itemId
    {
      assert InWarehouse(r, w, r.itemId);
      assert r.itemId in ids;
      var n :| 0 <= n < |ids| && ids[n] == r.itemId;
      assert g[n].itemId == r.itemId;
    }
  }

  /** No item has two entries in the grouping. */
  lemma GroupedDistinct(rows: seq<InventoryRow>, items: seq<Item>, w: int)
    ensures var g := GroupedByWarehouse(rows, items, w);
      forall a, b :: 0 <= a < b < |g| ==> g[a].itemId != g[b].itemId
  {
    var g := GroupedByWarehouse(rows, items, w);
    var ids := ItemsInWarehouse(rows, w);
    assert forall n :: 0 <= n < |g| ==> g[n].itemId == ids[n];
  }

  /**
   * Entry `n` of the grouping is an item with rows in `w`; it sums that item's
   * rows in `w` and carries the prices of its row with the greatest
   * `updated_at`. Zero totals are reported like any other.
   */
  lemma GroupedEntryTotals(rows: seq<InventoryRow>, items: seq<Item>, w: int, n: nat)
    requires n < |GroupedByWarehouse(rows, items, w)|
    ensures var e := GroupedByWarehouse(rows, items, w)[n];
      && e.totalQuantity == QuantityIn(rows, w, e.itemId)
      && e.totalInvestment == InvestmentIn(rows, w, e.itemId)
      && e.itemName == ItemName(items, e.itemId)
      && exists r :: r in rows && InWarehouse(r, w, e.itemId) &&
           e.lastSalePrice == Some(r.salePrice) && e.lastPurchasePrice == Some(r.purchasePrice) &&
           forall x :: x in rows && InWarehouse(x, w, e.itemId) ==> x.updatedAt <= r.updatedAt
  {
    var ids := ItemsInWarehouse(rows, w);
    var i := ids[n];
    assert GroupedByWarehouse(rows, items, w)[n] == EntryFor(rows, items, w, i);
    assert i in ids;
    var last := LatestRow(rows, w, i);
    assert last.Some?;
    assert last.value in rows && InWarehouse(last.value, w, i);
  }
}
