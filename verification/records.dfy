/**
 * The persisted records of the inventory backend (the ORM models) and the
 * store that holds them. Ids are plain integers; timestamps are integers
 * (instants in UTC); money is an exact `real`.
 */
module Records {
  import opened Common

  /** The three kinds of stock movement. */
  datatype MovementType = Entrada | Salida | Traslado

  /** One entry of the movement ledger. `source`/`target` are the nullable warehouse columns. */
  datatype Movement = Movement(
    itemId: int,
    source: Option<int>,
    target: Option<int>,
    quantity: int,
    kind: MovementType,
    userId: Option<int>,
    timestamp: int,
    purchasePrice: Option<real>,
    salePrice: Option<real>,
    groupId: Option<int>)

  /** One recorded sale. `soldAt` is nullable but has a default; `saleGroupId` is NOT NULL in the table. */
  datatype Sale = Sale(
    id: int,
    itemId: int,
    warehouseId: int,
    userId: int,
    quantity: int,
    salePrice: real,
    paid: bool,
    note: Option<string>,
    soldAt: Option<int>,
    createdAt: int,
    saleGroupId: Option<int>)

  /** One row of the derived inventory table, keyed by (warehouse, item) but not unique on it. */
  datatype InventoryRow = InventoryRow(
    warehouseId: Option<int>,
    itemId: int,
    quantity: int,
    updatedAt: int,
    purchasePrice: real,
    salePrice: real)

  datatype Item = Item(id: int, code: string, name: string, description: string, categoryId: Option<int>, createdAt: int)

  datatype Category = Category(id: int, name: string)

  datatype SaleGroup = SaleGroup(id: int, userId: int, note: Option<string>, createdAt: int, warehouseId: int)

  datatype MovementGroup = MovementGroup(id: int, userId: int, note: Option<string>, warehouseId: int, createdAt: int)

  predicate RowMatches(r: InventoryRow, warehouseId: Option<int>, itemId: int)
  {
    r.warehouseId == warehouseId && r.itemId == itemId
  }

  /**
   * `query(Inventory).filter_by(warehouse_id=w, item_id=i).first()`: the index of
   * the first matching row, or |rows| when there is none.
   */
  function FirstRow(rows: seq<InventoryRow>, warehouseId: Option<int>, itemId: int): (j: nat)
    ensures j <= |rows|
    ensures j < |rows| ==> RowMatches(rows[j], warehouseId, itemId)
    ensures forall k :: 0 <= k < j ==> !RowMatches(rows[k], warehouseId, itemId)
  {
    if rows == [] then 0
    else if RowMatches(rows[0], warehouseId, itemId) then 0
    else 1 + FirstRow(rows[1..], warehouseId, itemId)
  }

  /** `query(Item).filter_by(code=c).first()`: the index of the first item with that code, or |items|. */
  function FirstItemWithCode(items: seq<Item>, code: string): (j: nat)
    ensures j <= |items|
    ensures j < |items| ==> items[j].code == code
    ensures forall k :: 0 <= k < j ==> items[k].code != code
  {
    if items == [] then 0
    else if items[0].code == code then 0
    else 1 + FirstItemWithCode(items[1..], code)
  }

  /** `query(Sale).filter(Sale.id == id).first()`: the index of the first sale with that id, or |sales|. */
  function FirstSaleWithId(sales: seq<Sale>, id: int): (j: nat)
    ensures j <= |sales|
    ensures j < |sales| ==> sales[j].id == id
    ensures forall k :: 0 <= k < j ==> sales[k].id != id
  {
    if sales == [] then 0
    else if sales[0].id == id then 0
    else 1 + FirstSaleWithId(sales[1..], id)
  }

  /** The id SQLite hands the next inserted item: one more than the largest id in use (1 for an empty table). */
  function NextItemId(items: seq<Item>): (id: int)
    ensures id >= 1
    ensures forall it :: it in items ==> it.id < id
  {
    if items == [] then 1
    else
      var rest := NextItemId(items[..|items| - 1]);
      var last := items[|items| - 1];
      assert items == items[..|items| - 1] + [last];
      if last.id + 1 > rest then last.id + 1 else rest
  }

  /** The id SQLite hands the next inserted sale. */
  function NextSaleId(sales: seq<Sale>): (id: int)
    ensures id >= 1
    ensures forall s :: s in sales ==> s.id < id
  {
    if sales == [] then 1
    else
      var rest := NextSaleId(sales[..|sales| - 1]);
      var last := sales[|sales| - 1];
      assert sales == sales[..|sales| - 1] + [last];
      if last.id + 1 > rest then last.id + 1 else rest
  }

  /** The table constraints on items: primary keys and the unique `code` column. */
  ghost predicate ItemsValid(items: seq<Item>)
  {
    forall a, b :: 0 <= a < b < |items| ==> items[a].id != items[b].id && items[a].code != items[b].code
  }

  /** The table constraints on sales: primary keys and the NOT NULL `sale_group_id` column. */
  ghost predicate SalesValid(sales: seq<Sale>)
  {
    && (forall a, b :: 0 <= a < b < |sales| ==> sales[a].id != sales[b].id)
    && (forall s :: s in sales ==> s.saleGroupId.Some?)
  }

  /** The database as the core sees it: one sequence per table that the core writes. */
  class Store {
    var categories: seq<Category>
    var items: seq<Item>
    var inventory: seq<InventoryRow>
    var movements: seq<Movement>
    var sales: seq<Sale>

    ghost predicate Valid()
      reads this
    {
      ItemsValid(items) && SalesValid(sales)
    }

    constructor (categories: seq<Category>)
      ensures Valid()
      ensures this.categories == categories
      ensures items == [] && inventory == [] && movements == [] && sales == []
    {
      this.categories := categories;
      items, inventory, movements, sales := [], [], [], [];
    }
  }
}
