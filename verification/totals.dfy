/**
 * Sums over lists of sales shared by the inventory summary and the sale-group
 * summaries: `SUM(quantity)`, `SUM(quantity * sale_price)` and the unpaid sum
 * `SUM(CASE WHEN paid = False THEN quantity * sale_price ELSE 0 END)`.
 */
module Totals {
  import opened Records

  /** What a sale charges: quantity times unit price. */
  function Amount(s: Sale): real
  {
    s.quantity as real * s.salePrice
  }

  function QuantitySum(sales: seq<Sale>): int
  {
    if sales == [] then 0 else QuantitySum(sales[..|sales| - 1]) + sales[|sales| - 1].quantity
  }

  function GrossSum(sales: seq<Sale>): real
  {
    if sales == [] then 0.0 else GrossSum(sales[..|sales| - 1]) + Amount(sales[|sales| - 1])
  }

  /** The conditional sum: an unpaid sale adds its amount, a paid one adds 0. */
  function DebtSum(sales: seq<Sale>): real
  {
    if sales == [] then 0.0
    else
      var s := sales[|sales| - 1];
      DebtSum(sales[..|sales| - 1]) + (if !s.paid then Amount(s) else 0.0)
  }

  /** `filter(Sale.paid == False)`, in order. */
  function Unpaid(sales: seq<Sale>): (r: seq<Sale>)
    ensures forall s :: s in r <==> s in sales && !s.paid
  {
    if sales == [] then []
    else
      var s := sales[|sales| - 1];
      assert sales == sales[..|sales| - 1] + [s];
      if !s.paid then Unpaid(sales[..|sales| - 1]) + [s] else Unpaid(sales[..|sales| - 1])
  }

  /** The filter keeps every unpaid sale as many times as it occurs, and no paid one. */
  lemma {:induction false} UnpaidCounts(sales: seq<Sale>)
    ensures forall x :: multiset(Unpaid(sales))[x] == if !x.paid then multiset(sales)[x] else 0
  {
    if sales != [] {
      var pre := sales[..|sales| - 1];
      var s := sales[|sales| - 1];
      UnpaidCounts(pre);
      assert sales == pre + [s];
      assert multiset(sales) == multiset(pre) + multiset{s};
    }
  }

  ghost predicate NonNegative(sales: seq<Sale>)
  {
    forall s :: s in sales ==> s.quantity >= 0 && s.salePrice >= 0.0
  }

  /** The conditional sum equals the plain amount sum over the unpaid sales only. */
  lemma {:induction false} DebtIsGrossOfUnpaid(sales: seq<Sale>)
    ensures DebtSum(sales) == GrossSum(Unpaid(sales))
  {
    if sales != [] {
      var pre := sales[..|sales| - 1];
      DebtIsGrossOfUnpaid(pre);
      var s := sales[|sales| - 1];
      if !s.paid {
        assert (Unpaid(pre) + [s])[..|Unpaid(pre) + [s]| - 1] == Unpaid(pre);
      }
    }
  }

  /** With no negative quantity or price, the debt lies between 0 and the gross amount. */
  lemma {:induction false} DebtWithinGross(sales: seq<Sale>)
    requires NonNegative(sales)
    ensures 0.0 <= DebtSum(sales) <= GrossSum(sales)
  {
    if sales != [] {
      var pre := sales[..|sales| - 1];
      var s := sales[|sales| - 1];
      assert s in sales;
      assert NonNegative(pre) by {
        forall t | t in pre ensures t in sales { }
      }
      DebtWithinGross(pre);
      assert Amount(s) >= 0.0 by {
        assert s.quantity as real >= 0.0 && s.salePrice >= 0.0;
      }
    }
  }

  /** When every sale is paid there is no debt. */
  lemma {:induction false} PaidMeansNoDebt(sales: seq<Sale>)
    requires forall s :: s in sales ==> s.paid
    ensures DebtSum(sales) == 0.0
  {
    if sales != [] {
      var pre := sales[..|sales| - 1];
      assert forall t :: t in pre ==> t in sales;
      PaidMeansNoDebt(pre);
      assert sales[|sales| - 1] in sales;
    }
  }

  /** Marking sale `j` paid lowers the debt by its amount if it was unpaid, and by nothing otherwise. */
  lemma {:induction false} MarkPaidDebt(sales: seq<Sale>, j: nat)
    requires j < |sales|
    ensures DebtSum(sales[j := sales[j].(paid := true)]) ==
            DebtSum(sales) - (if sales[j].paid then 0.0 else Amount(sales[j]))
    ensures GrossSum(sales[j := sales[j].(paid := true)]) == GrossSum(sales)
    ensures QuantitySum(sales[j := sales[j].(paid := true)]) == QuantitySum(sales)
  {
    var after := sales[j := sales[j].(paid := true)];
    var pre := sales[..|sales| - 1];
    if j == |sales| - 1 {
      assert after[..|after| - 1] == pre;
    } else {
      assert after[..|after| - 1] == pre[j := pre[j].(paid := true)];
      MarkPaidDebt(pre, j);
    }
  }

  lemma {:induction false} SumsAppend(a: seq<Sale>, b: seq<Sale>)
    ensures QuantitySum(a + b) == QuantitySum(a) + QuantitySum(b)
    ensures GrossSum(a + b) == GrossSum(a) + GrossSum(b)
    ensures DebtSum(a + b) == DebtSum(a) + DebtSum(b)
  {
    if b == [] {
      assert a + b == a;
    } else {
      assert (a + b)[..|a + b| - 1] == a + b[..|b| - 1];
      SumsAppend(a, b[..|b| - 1]);
    }
  }
}
