/**
 * Sale-group aggregates (`routes/sale_group.py`): a grouped subquery sums each
 * group's sales (items, gross amount, unpaid amount), sale groups are
 * outer-joined to it, and the three listings filter and coalesce the result.
 */
module SaleGroups {
  import opened Common
  import opened Records
  import opened Totals

  /** The sales filed under group `gid`, in table order. */
  function SalesOf(sales: seq<Sale>, gid: int): (r: seq<Sale>)
    ensures forall s :: s in r <==> s in sales && s.saleGroupId == Some(gid)
    ensures |r| <= |sales|
  {
    if sales == [] then []
    else
      var s := sales[|sales| - 1];
      var pre := SalesOf(sales[..|sales| - 1], gid);
      assert sales == sales[..|sales| - 1] + [s];
      if s.saleGroupId == Some(gid) then pre + [s] else pre
  }

  /** A group keeps every one of its sales as many times as it occurs, and nothing else. */
  lemma {:induction false} SalesOfCounts(sales: seq<Sale>, gid: int)
    ensures forall x :: multiset(SalesOf(sales, gid))[x] == if x.saleGroupId == Some(gid) then multiset(sales)[x] else 0
  {
    if sales != [] {
      var pre := sales[..|sales| - 1];
      var s := sales[|sales| - 1];
      SalesOfCounts(pre, gid);
      assert sales == pre + [s];
      assert multiset(sales) == multiset(pre) + multiset{s};
    }
  }

  /** One row of the `sale_totals` subquery. */
  datatype SaleTotals = SaleTotals(totalItems: int, totalSalePrice: real, totalDebt: real)

  /** The subquery row joined to group `gid`: none when the group has no sales (the outer join's NULLs). */
  function JoinedTotals(sales: seq<Sale>, gid: int): Option<SaleTotals>
  {
    var mine := SalesOf(sales, gid);
    if mine == [] then None else Some(SaleTotals(QuantitySum(mine), GrossSum(mine), DebtSum(mine)))
  }

  /** `coalesce(total, 0)` of the three joined totals. */
  function CoalescedTotals(sales: seq<Sale>, gid: int): SaleTotals
  {
    var t := JoinedTotals(sales, gid);
    if t.Some? then t.value else SaleTotals(0, 0.0, 0.0)
  }

  /** A `SaleGroupWithSummary`; the listing by warehouse leaves the two amounts unset. */
  datatype GroupSummary = GroupSummary(group: SaleGroup, totalItems: int, totalSalePrice: Option<real>, totalDebt: Option<real>)

  function FullSummary(g: SaleGroup, sales: seq<Sale>): GroupSummary
  {
    var t := CoalescedTotals(sales, g.id);
    GroupSummary(g, t.totalItems, Some(t.totalSalePrice), Some(t.totalDebt))
  }

  /** `filter(sale_totals.c.total_debt > 0)` on the joined row: a NULL debt fails the comparison. */
  predicate HasDebt(sales: seq<Sale>, gid: int)
  {
    var t := JoinedTotals(sales, gid);
    t.Some? && t.value.totalDebt > 0.0
  }

  /** The debt listing (`/sumaryDebt`): the groups with an unpaid amount, in table order. */
  function DebtListing(groups: seq<SaleGroup>, sales: seq<Sale>): (r: seq<GroupSummary>)
    ensures forall e :: e in r <==> e.group in groups && HasDebt(sales, e.group.id) && e == FullSummary(e.group, sales)
  {
    if groups == [] then []
    else
      var g := groups[|groups| - 1];
      var pre := DebtListing(groups[..|groups| - 1], sales);
      assert groups == groups[..|groups| - 1] + [g];
      if HasDebt(sales, g.id) then pre + [FullSummary(g, sales)] else pre
  }

  /** The listing by warehouse (`/summary/{warehouse_id}`): that warehouse's groups with their item totals only. */
  function WarehouseListing(groups: seq<SaleGroup>, sales: seq<Sale>, w: int): (r: seq<GroupSummary>)
    ensures forall e :: e in r <==>
      e.group in groups && e.group.warehouseId == w && e == GroupSummary(e.group, CoalescedTotals(sales, e.group.id).totalItems, None, None)
  {
    if groups == [] then []
    else
      var g := groups[|groups| - 1];
      var pre := WarehouseListing(groups[..|groups| - 1], sales, w);
      assert groups == groups[..|groups| - 1] + [g];
      if g.warehouseId == w then pre + [GroupSummary(g, CoalescedTotals(sales, g.id).totalItems, None, None)] else pre
  }

  /** The index of the first group with id `id`, or |groups|. */
  function FirstGroupWithId(groups: seq<SaleGroup>, id: int): (j: nat)
    ensures j <= |groups|
    ensures j < |groups| ==> groups[j].id == id
    ensures forall k :: 0 <= k < j ==> groups[k].id != id
  {
    if groups == [] then 0
    else if groups[0].id == id then 0
    else 1 + FirstGroupWithId(groups[1..], id)
  }

  /** The single-group summary (`/summaryGroup/{id}`); unpacking the missing row of an unknown id fails. */
  function SingleGroupSummary(groups: seq<SaleGroup>, sales: seq<Sale>, id: int): Result<GroupSummary>
  {
    var j := FirstGroupWithId(groups, id);
    if j < |groups| then Ok(FullSummary(groups[j], sales)) else Err(GroupNotFound)
  }

  // ---------------------------------------------------------------- properties

  /**
   * A group's totals are the item count and gross amount of all its sales and
   * the amount of its unpaid sales only; a group without sales reports zeros.
   */
  lemma GroupTotals(sales: seq<Sale>, gid: int)
    ensures var t := CoalescedTotals(sales, gid);
      && t.totalItems == QuantitySum(SalesOf(sales, gid))
      && t.totalSalePrice == GrossSum(SalesOf(sales, gid))
      && t.totalDebt == GrossSum(Unpaid(SalesOf(sales, gid)))
      && ((forall s :: s in sales ==> s.saleGroupId != Some(gid)) ==> t == SaleTotals(0, 0.0, 0.0))
  {
    DebtIsGrossOfUnpaid(SalesOf(sales, gid));
  }

  /** A group's debt is 0 when all its sales are paid, and at most its gross amount when nothing is negative. */
  lemma GroupDebtBounds(sales: seq<Sale>, gid: int)
    ensures (forall s :: s in sales && s.saleGroupId == Some(gid) ==> s.paid) ==> CoalescedTotals(sales, gid).totalDebt == 0.0
    ensures NonNegative(sales) ==>
      0.0 <= CoalescedTotals(sales, gid).totalDebt <= CoalescedTotals(sales, gid).totalSalePrice
  {
    var mine := SalesOf(sales, gid);
    if forall s :: s in sales && s.saleGroupId == Some(gid) ==> s.paid {
      PaidMeansNoDebt(mine);
    }
    if NonNegative(sales) {
      DebtWithinGross(mine);
    }
  }

  /** The NULL test and the coalesced value agree: a group is listed for debt exactly when its coalesced debt is positive. */
  lemma DebtListingMembership(groups: seq<SaleGroup>, sales: seq<Sale>, g: SaleGroup)
    requires g in groups
    ensures FullSummary(g, sales) in DebtListing(groups, sales) <==> CoalescedTotals(sales, g.id).totalDebt > 0.0
    ensures (forall s :: s in sales ==> s.saleGroupId != Some(g.id)) ==> FullSummary(g, sales) !in DebtListing(groups, sales)
    ensures (forall s :: s in sales && s.saleGroupId == Some(g.id) ==> s.paid) ==> FullSummary(g, sales) !in DebtListing(groups, sales)
  {
    GroupTotals(sales, g.id);
    GroupDebtBounds(sales, g.id);
  }

  /** New sales add their own totals to every group's totals. */
  lemma {:induction false} SalesOfAppend(a: seq<Sale>, b: seq<Sale>, gid: int)
    ensures SalesOf(a + b, gid) == SalesOf(a, gid) + SalesOf(b, gid)
  {
    if b == [] {
      assert a + b == a;
    } else {
      assert (a + b)[..|a + b| - 1] == a + b[..|b| - 1];
      SalesOfAppend(a, b[..|b| - 1], gid);
    }
  }

  lemma GroupTotalsAppend(a: seq<Sale>, b: seq<Sale>, gid: int)
    ensures CoalescedTotals(a + b, gid).totalItems == CoalescedTotals(a, gid).totalItems + CoalescedTotals(b, gid).totalItems
    ensures CoalescedTotals(a + b, gid).totalSalePrice == CoalescedTotals(a, gid).totalSalePrice + CoalescedTotals(b, gid).totalSalePrice
    ensures CoalescedTotals(a + b, gid).totalDebt == CoalescedTotals(a, gid).totalDebt + CoalescedTotals(b, gid).totalDebt
  {
    SalesOfAppend(a, b, gid);
    SumsAppend(SalesOf(a, gid), SalesOf(b, gid));
  }

  /** The single-group summary fails exactly for an unknown id, and otherwise reports that group's full totals. */
  lemma SingleGroupSummaryResult(groups: seq<SaleGroup>, sales: seq<Sale>, id: int)
    ensures var r := SingleGroupSummary(groups, sales, id);
      && (r.Err? <==> forall g :: g in groups ==> g.id != id)
      && (r.Err? ==> r.error == GroupNotFound)
      && (r.Ok? ==> r.value.group in groups && r.value.group.id == id && r.value == FullSummary(r.value.group, sales))
  {
    var j := FirstGroupWithId(groups, id);
    if j == |groups| {
      forall g | g in groups ensures g.id != id {
        var k :| 0 <= k < |groups| && groups[k] == g;
      }
    } else {
      assert groups[j] in groups;
    }
  }
}
