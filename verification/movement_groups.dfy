/**
 * Movement-group aggregates (`routes/item_movement_group.py`): a grouped
 * subquery sums each group's movements (quantity, and purchase and sale
 * amounts over the movements that carry a price), movement groups are
 * outer-joined to it, and the two reads filter and coalesce the result.
 */
module MovementGroups {
  import opened Common
  import opened Records

  /** The movements filed under group `gid`, in ledger order. */
  function MovementsOf(ms: seq<Movement>, gid: int): (r: seq<Movement>)
    ensures forall m :: m in r <==> m in ms && m.groupId == Some(gid)
  {
    if ms == [] then []
    else
      var m := ms[|ms| - 1];
      var pre := MovementsOf(ms[..|ms| - 1], gid);
      assert ms == ms[..|ms| - 1] + [m];
      if m.groupId == Some(gid) then pre + [m] else pre
  }

  /** A group keeps every one of its movements as many times as it occurs, and nothing else. */
  lemma {:induction false} MovementsOfCounts(ms: seq<Movement>, gid: int)
    ensures forall x :: multiset(MovementsOf(ms, gid))[x] == if x.groupId == Some(gid) then multiset(ms)[x] else 0
  {
    if ms != [] {
      var pre := ms[..|ms| - 1];
      var m := ms[|ms| - 1];
      MovementsOfCounts(pre, gid);
      assert ms == pre + [m];
      assert multiset(ms) == multiset(pre) + multiset{m};
    }
  }

  /** `SUM(quantity)`, whatever the movements' type or direction. */
  function QuantityTotal(ms: seq<Movement>): int
  {
    if ms == [] then 0 else QuantityTotal(ms[..|ms| - 1]) + ms[|ms| - 1].quantity
  }

  /**
   * `SUM(price * quantity)` in SQL: a movement with a NULL price has a NULL
   * product, which the sum skips; the sum is NULL when nothing is left.
   */
  function PricedTotal(ms: seq<Movement>, price: Movement -> Option<real>): Option<real>
  {
    if ms == [] then None
    else
      var m := ms[|ms| - 1];
      var pre := PricedTotal(ms[..|ms| - 1], price);
      if price(m).None? then pre
      else Some(RealOrZero(pre) + price(m).value * m.quantity as real)
  }

  function PurchasePriceOf(m: Movement): Option<real> { m.purchasePrice }

  function SalePriceOf(m: Movement): Option<real> { m.salePrice }

  /** One row of the `movement_totals` subquery. */
  datatype MovementTotals = MovementTotals(totalItems: int, totalPurchasePrice: Option<real>, totalSalePrice: Option<real>)

  /** The subquery row joined to group `gid`: none when the group has no movements. */
  function JoinedTotals(ms: seq<Movement>, gid: int): Option<MovementTotals>
  {
    var mine := MovementsOf(ms, gid);
    if mine == [] then None
    else Some(MovementTotals(QuantityTotal(mine), PricedTotal(mine, PurchasePriceOf), PricedTotal(mine, SalePriceOf)))
  }

  /** An `ItemMovementGroupWithSummary`; the warehouse summary leaves the two amounts unset. */
  datatype GroupSummary = GroupSummary(group: MovementGroup, totalItems: int, totalPurchasePrice: Option<real>, totalSalePrice: Option<real>)

  /** `coalesce(total_items, 0)`. */
  function ItemsTotal(ms: seq<Movement>, gid: int): int
  {
    var t := JoinedTotals(ms, gid);
    if t.Some? then t.value.totalItems else 0
  }

  /** The summary of one group with `coalesce(total, 0.0)` on both amounts. */
  function FullSummary(g: MovementGroup, ms: seq<Movement>): GroupSummary
  {
    var t := JoinedTotals(ms, g.id);
    GroupSummary(g, ItemsTotal(ms, g.id),
                 Some(if t.Some? then RealOrZero(t.value.totalPurchasePrice) else 0.0),
                 Some(if t.Some? then RealOrZero(t.value.totalSalePrice) else 0.0))
  }

  /** The warehouse summary (`/summary/{warehouse_id}`): that warehouse's groups with their item totals. */
  function WarehouseSummary(groups: seq<MovementGroup>, ms: seq<Movement>, w: int): (r: seq<GroupSummary>)
    ensures forall e :: e in r <==>
      e.group in groups && e.group.warehouseId == w && e == GroupSummary(e.group, ItemsTotal(ms, e.group.id), None, None)
  {
    if groups == [] then []
    else
      var g := groups[|groups| - 1];
      var pre := WarehouseSummary(groups[..|groups| - 1], ms, w);
      assert groups == groups[..|groups| - 1] + [g];
      if g.warehouseId == w then pre + [GroupSummary(g, ItemsTotal(ms, g.id), None, None)] else pre
  }

  /** The index of the first group with id `id`, or |groups|. */
  function FirstGroupWithId(groups: seq<MovementGroup>, id: int): (j: nat)
    ensures j <= |groups|
    ensures j < |groups| ==> groups[j].id == id
    ensures forall k :: 0 <= k < j ==> groups[k].id != id
  {
    if groups == [] then 0
    else if groups[0].id == id then 0
    else 1 + FirstGroupWithId(groups[1..], id)
  }

  /** The single-group read (`/group/{id}`); unpacking the missing row of an unknown id fails. */
  function GroupById(groups: seq<MovementGroup>, ms: seq<Movement>, id: int): Result<GroupSummary>
  {
    var j := FirstGroupWithId(groups, id);
    if j < |groups| then Ok(FullSummary(groups[j], ms)) else Err(GroupNotFound)
  }

  // ---------------------------------------------------------------- properties

  /** The plain reference sum: a movement without a price adds nothing. */
  function PricedSum(ms: seq<Movement>, price: Movement -> Option<real>): real
  {
    if ms == [] then 0.0
    else
      var m := ms[|ms| - 1];
      PricedSum(ms[..|ms| - 1], price) + (if price(m).Some? then price(m).value * m.quantity as real else 0.0)
  }

  /** The coalesced SQL sum is the plain sum, and is NULL exactly when no movement carries a price. */
  lemma {:induction false} PricedTotalIsSum(ms: seq<Movement>, price: Movement -> Option<real>)
    ensures RealOrZero(PricedTotal(ms, price)) == PricedSum(ms, price)
    ensures PricedTotal(ms, price).None? <==> forall m :: m in ms ==> price(m).None?
  {
    if ms != [] {
      var pre := ms[..|ms| - 1];
      PricedTotalIsSum(pre, price);
      assert ms == pre + [ms[|ms| - 1]];
    }
  }

  /**
   * A group's summary counts the quantity of all its movements and sums
   * price × quantity over those with a price; a group with no movements
   * reports zeros.
   */
  lemma GroupTotals(g: MovementGroup, ms: seq<Movement>)
    ensures var e := FullSummary(g, ms);
      && e.totalItems == QuantityTotal(MovementsOf(ms, g.id))
      && e.totalPurchasePrice == Some(PricedSum(MovementsOf(ms, g.id), PurchasePriceOf))
      && e.totalSalePrice == Some(PricedSum(MovementsOf(ms, g.id), SalePriceOf))
      && ((forall m :: m in ms ==> m.groupId != Some(g.id)) ==> e == GroupSummary(g, 0, Some(0.0), Some(0.0)))
  {
    PricedTotalIsSum(MovementsOf(ms, g.id), PurchasePriceOf);
    PricedTotalIsSum(MovementsOf(ms, g.id), SalePriceOf);
  }

  /** The single-group read fails exactly for an unknown id, and otherwise reports that group's full totals. */
  lemma GroupByIdResult(groups: seq<MovementGroup>, ms: seq<Movement>, id: int)
    ensures var r := GroupById(groups, ms, id);
      && (r.Err? <==> forall g :: g in groups ==> g.id != id)
      && (r.Err? ==> r.error == GroupNotFound)
      && (r.Ok? ==> r.value.group in groups && r.value.group.id == id && r.value == FullSummary(r.value.group, ms))
  {
    var j := FirstGroupWithId(groups, id);
    if j == |groups| {
      forall g | g in groups ensures g.id != id {
        var k :| 0 <= k < |groups| && groups[k] == g;
      }
    } else {
      assert groups[j] in groups;
    }
  }
}
