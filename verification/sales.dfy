/**
 * Sale recording (`routes/sale.py`): the bulk create writes one sale and one
 * mirroring `salida` movement per input and commits them together; the single
 * create writes a sale only; mark-paid sets `paid` on the sale with a given id.
 */
module Sales {
  import opened Common
  import opened Records
  import opened Totals
  import opened Projection

  /** A submitted sale (`SaleCreate`): everything but the id, the user and the creation stamp. */
  datatype SaleInput = SaleInput(
    itemId: int,
    warehouseId: int,
    quantity: int,
    salePrice: real,
    paid: bool,
    note: Option<string>,
    soldAt: Option<int>,
    saleGroupId: Option<int>)

  /**
   * `Sale(**sale.dict(), user_id=current_user.id)` once the insert has given it `id`
   * and the stamp `now`. The ORM leaves a `None` attribute out of the INSERT when its
   * column has a default, so a sale submitted without `sold_at` is sold at `now`.
   */
  function NewSale(input: SaleInput, id: int, user: int, now: int): Sale
  {
    Sale(id, input.itemId, input.warehouseId, user, input.quantity, input.salePrice, input.paid,
         input.note, if input.soldAt.Some? then input.soldAt else Some(now), now, input.saleGroupId)
  }

  /** The `salida` movement that mirrors a sale: out of its warehouse, to nowhere, with no user, prices or group. */
  function SalidaMovement(input: SaleInput, now: int): Movement
  {
    Movement(input.itemId, Some(input.warehouseId), None, input.quantity, Salida, None, now, None, None, None)
  }

  /** The sales a batch inserts, ids handed out in input order from `firstId`. */
  function NewSales(inputs: seq<SaleInput>, firstId: int, user: int, now: int): seq<Sale>
  {
    if inputs == [] then []
    else NewSales(inputs[..|inputs| - 1], firstId, user, now) + [NewSale(inputs[|inputs| - 1], firstId + |inputs| - 1, user, now)]
  }

  function SalidaMovements(inputs: seq<SaleInput>, now: int): seq<Movement>
  {
    if inputs == [] then []
    else SalidaMovements(inputs[..|inputs| - 1], now) + [SalidaMovement(inputs[|inputs| - 1], now)]
  }

  /** Every input names a sale group, so no insert hits the NOT NULL `sale_group_id` column. */
  predicate AllGrouped(inputs: seq<SaleInput>)
  {
    forall n :: 0 <= n < |inputs| ==> inputs[n].saleGroupId.Some?
  }

  /** The tables a batch of sales writes. */
  datatype Ledger = Ledger(sales: seq<Sale>, movements: seq<Movement>)

  /**
   * `create_sales_bulk`: the created sales and the new tables, or a failed commit
   * that writes nothing when some input has no sale group.
   */
  function CreateBulk(l: Ledger, inputs: seq<SaleInput>, user: int, now: int): Result<(seq<Sale>, Ledger)>
  {
    if !AllGrouped(inputs) then Err(NotNullViolation)
    else
      var created := NewSales(inputs, NextSaleId(l.sales), user, now);
      Ok((created, Ledger(l.sales + created, l.movements + SalidaMovements(inputs, now))))
  }

  // ---------------------------------------------------------------- properties of the bulk create

  /**
   * One sale per input, in input order: each copies its input's fields, carries
   * the current user and the creation stamp, is sold at the submitted time or else
   * at the creation stamp, and gets the next id in turn.
   */
  lemma {:induction false} NewSalesMirrorInputs(inputs: seq<SaleInput>, firstId: int, user: int, now: int)
    ensures var r := NewSales(inputs, firstId, user, now);
      && |r| == |inputs|
      && forall n :: 0 <= n < |r| ==>
           && r[n].id == firstId + n && r[n].userId == user && r[n].createdAt == now
           && r[n].itemId == inputs[n].itemId && r[n].warehouseId == inputs[n].warehouseId
           && r[n].quantity == inputs[n].quantity && r[n].salePrice == inputs[n].salePrice
           && r[n].paid == inputs[n].paid && r[n].note == inputs[n].note
           && (inputs[n].soldAt.Some? ==> r[n].soldAt == inputs[n].soldAt)
           && (inputs[n].soldAt.None? ==> r[n].soldAt == Some(now))
           && r[n].saleGroupId == inputs[n].saleGroupId
  {
    if inputs != [] {
      NewSalesMirrorInputs(inputs[..|inputs| - 1], firstId, user, now);
    }
  }

  /**
   * One movement per input, in input order: a `salida` of the input's item and
   * quantity out of its warehouse, with no target, user, prices or group.
   */
  lemma {:induction false} SalidaMovementsMirrorInputs(inputs: seq<SaleInput>, now: int)
    ensures var ms := SalidaMovements(inputs, now);
      && |ms| == |inputs|
      && forall n :: 0 <= n < |ms| ==>
           && ms[n].kind == Salida && ms[n].itemId == inputs[n].itemId && ms[n].quantity == inputs[n].quantity
           && ms[n].source == Some(inputs[n].warehouseId) && ms[n].target.None?
           && ms[n].userId.None? && ms[n].purchasePrice.None? && ms[n].salePrice.None? && ms[n].groupId.None?
  {
    if inputs != [] {
      SalidaMovementsMirrorInputs(inputs[..|inputs| - 1], now);
    }
  }

  /** A batch either commits as many sales as movements, one of each per input, or fails and writes nothing. */
  lemma BulkCreateOutcome(l: Ledger, inputs: seq<SaleInput>, user: int, now: int)
    ensures var r := CreateBulk(l, inputs, user, now);
      && (r.Err? <==> exists n :: 0 <= n < |inputs| && inputs[n].saleGroupId.None?)
      && (r.Err? ==> r.error == NotNullViolation)
      && (r.Ok? ==>
            && |r.value.0| == |inputs|
            && r.value.1.sales == l.sales + r.value.0
            && |r.value.1.movements| == |l.movements| + |inputs|
            && r.value.1.movements[..|l.movements|] == l.movements)
  {
    NewSalesMirrorInputs(inputs, NextSaleId(l.sales), user, now);
    SalidaMovementsMirrorInputs(inputs, now);
    var r := CreateBulk(l, inputs, user, now);
    if r.Ok? {
      assert r.value.1.movements[..|l.movements|] == l.movements;
    }
  }

  /** A committed batch keeps sale ids unique and every sale in a group. */
  lemma BulkCreateKeepsSalesValid(l: Ledger, inputs: seq<SaleInput>, user: int, now: int)
    requires SalesValid(l.sales)
    ensures var r := CreateBulk(l, inputs, user, now);
      r.Ok? ==> SalesValid(r.value.1.sales)
  {
    var r := CreateBulk(l, inputs, user, now);
    if r.Ok? {
      var firstId := NextSaleId(l.sales);
      var created := r.value.0;
      var all := r.value.1.sales;
      NewSalesMirrorInputs(inputs, firstId, user, now);
      forall a, b | 0 <= a < b < |all| ensures all[a].id != all[b].id {
        if b >= |l.sales| {
          if a < |l.sales| {
            assert all[a] in l.sales;
          } else {
            assert all[a] == created[a - |l.sales|];
          }
        }
      }
      forall s | s in all ensures s.saleGroupId.Some? {
        if s !in l.sales {
          var n :| 0 <= n < |created| && created[n] == s;
        }
      }
    }
  }

  /** `quantity` summed over the inputs that sell item `i` out of warehouse `w`. */
  function SoldQuantity(inputs: seq<SaleInput>, w: int, i: int): int
  {
    if inputs == [] then 0
    else
      var s := inputs[|inputs| - 1];
      SoldQuantity(inputs[..|inputs| - 1], w, i) + (if s.warehouseId == w && s.itemId == i then s.quantity else 0)
  }

  /** The batch's movements lower the ledger's net quantity of (w, i) by exactly what the batch sold there. */
  lemma {:induction false} SalidaLowersNet(ms: seq<Movement>, inputs: seq<SaleInput>, now: int, w: int, i: int)
    ensures NetQuantity(ms + SalidaMovements(inputs, now), Key(Some(w), i)) ==
            NetQuantity(ms, Key(Some(w), i)) - SoldQuantity(inputs, w, i)
  {
    if inputs != [] {
      var pre := inputs[..|inputs| - 1];
      SalidaLowersNet(ms, pre, now, w, i);
      var all := ms + SalidaMovements(inputs, now);
      assert all[..|all| - 1] == ms + SalidaMovements(pre, now);
    } else {
      assert ms + SalidaMovements(inputs, now) == ms;
    }
  }

  /**
   * After a committed batch, the next rebuild gives (w, i) the quantity the
   * rebuild before it gave, minus what the batch sold from `w`.
   */
  lemma BulkSaleLowersRebuiltQuantity(l: Ledger, inputs: seq<SaleInput>, user: int, now: int,
                                      before: seq<InventoryRow>, after: seq<InventoryRow>, t1: int, t2: int, w: int, i: int)
    requires exists m :: m in l.movements && EffectKey(m) == Key(Some(w), i)
    requires CreateBulk(l, inputs, user, now).Ok?
    ensures var r1 := Rebuild(before, l.movements, t1);
      var r2 := Rebuild(after, CreateBulk(l, inputs, user, now).value.1.movements, t2);
      && FirstRow(r1, Some(w), i) < |r1| && FirstRow(r2, Some(w), i) < |r2|
      && r2[FirstRow(r2, Some(w), i)].quantity == r1[FirstRow(r1, Some(w), i)].quantity - SoldQuantity(inputs, w, i)
  {
    var ms := l.movements;
    var ms2 := ms + SalidaMovements(inputs, now);
    var m :| m in ms && EffectKey(m) == Key(Some(w), i);
    assert m in ms2;
    RebuildSettles(before, ms, t1, Key(Some(w), i));
    RebuildSettles(after, ms2, t2, Key(Some(w), i));
    SalidaLowersNet(ms, inputs, now, w, i);
  }

  // ---------------------------------------------------------------- mark-paid

  /** `update_sale_paid_status`: the first sale with that id becomes paid; an unknown id fails and writes nothing. */
  function MarkPaid(sales: seq<Sale>, id: int): Result<seq<Sale>>
  {
    var j := FirstSaleWithId(sales, id);
    if j < |sales| then Ok(sales[j := sales[j].(paid := true)]) else Err(SaleNotFound)
  }

  /**
   * Mark-paid fails exactly on an unknown id; otherwise it sets `paid` on the
   * sale with that id, whatever its prior value, and changes nothing else.
   */
  lemma MarkPaidEffect(sales: seq<Sale>, id: int)
    ensures var r := MarkPaid(sales, id);
      && (r.Err? <==> forall s :: s in sales ==> s.id != id)
      && (r.Err? ==> r.error == SaleNotFound)
      && (r.Ok? ==>
            && |r.value| == |sales|
            && (exists j :: 0 <= j < |sales| && sales[j].id == id && r.value[j] == sales[j].(paid := true))
            && forall j :: 0 <= j < |sales| && r.value[j] != sales[j] ==> sales[j].id == id && r.value[j] == sales[j].(paid := true))
  {
    var j := FirstSaleWithId(sales, id);
    if j == |sales| {
      forall s | s in sales ensures s.id != id {
        var k :| 0 <= k < |sales| && sales[k] == s;
      }
    } else {
      assert sales[j] in sales;
    }
  }

  /** Marking a sale paid twice is the same as marking it once. */
  lemma MarkPaidIdempotent(sales: seq<Sale>, id: int)
    requires MarkPaid(sales, id).Ok?
    ensures MarkPaid(MarkPaid(sales, id).value, id) == MarkPaid(sales, id)
  {
    var j := FirstSaleWithId(sales, id);
    var once := MarkPaid(sales, id).value;
    FirstSaleWithIdSameIds(sales, once, id);
    assert once[j := once[j].(paid := true)] == once;
  }

  lemma {:induction false} FirstSaleWithIdSameIds(a: seq<Sale>, b: seq<Sale>, id: int)
    requires |a| == |b| && forall k :: 0 <= k < |a| ==> a[k].id == b[k].id
    ensures FirstSaleWithId(b, id) == FirstSaleWithId(a, id)
  {
    if a != [] {
      FirstSaleWithIdSameIds(a[1..], b[1..], id);
    }
  }

  /** Marking a sale paid lowers the debt by that sale's amount if it was unpaid, and leaves the gross total alone. */
  lemma MarkPaidLowersDebt(sales: seq<Sale>, id: int)
    requires MarkPaid(sales, id).Ok?
    ensures var j := FirstSaleWithId(sales, id);
      var after := MarkPaid(sales, id).value;
      && DebtSum(after) == DebtSum(sales) - (if sales[j].paid then 0.0 else Amount(sales[j]))
      && GrossSum(after) == GrossSum(sales)
  {
    MarkPaidDebt(sales, FirstSaleWithId(sales, id));
  }

  // ---------------------------------------------------------------- the store

  /** The loop of `create_sales_bulk`: one sale and one `salida` movement per input, in input order. */
  method AddBatch(db: Store, inputs: seq<SaleInput>, firstId: int, user: int, now: int) returns (created: seq<Sale>)
    modifies db`sales, db`movements
    ensures created == NewSales(inputs, firstId, user, now)
    ensures db.sales == old(db.sales) + created
    ensures db.movements == old(db.movements) + SalidaMovements(inputs, now)
  {
    created := [];
    for n := 0 to |inputs|
      invariant created == NewSales(inputs[..n], firstId, user, now)
      invariant db.sales == old(db.sales) + created
      invariant db.movements == old(db.movements) + SalidaMovements(inputs[..n], now)
    {
      var sale := NewSale(inputs[n], firstId + n, user, now);
      db.sales := db.sales + [sale];
      created := created + [sale];
      db.movements := db.movements + [SalidaMovement(inputs[n], now)];
      assert inputs[..n + 1][..n] == inputs[..n];
    }
    assert inputs[..|inputs|] == inputs;
  }

  /**
   * `create_sales_bulk`: the batch's writes, then the commit, which rolls the
   * whole batch back when a sale has no group.
   */
  method CreateSalesBulk(db: Store, inputs: seq<SaleInput>, user: int, now: int) returns (r: Result<seq<Sale>>)
    requires db.Valid()
    modifies db`sales, db`movements
    ensures db.Valid()
    ensures var spec := CreateBulk(Ledger(old(db.sales), old(db.movements)), inputs, user, now);
      && (spec.Err? ==> r == Err(spec.error) && db.sales == old(db.sales) && db.movements == old(db.movements))
      && (spec.Ok? ==> r == Ok(spec.value.0) && Ledger(db.sales, db.movements) == spec.value.1)
  {
    var savedSales, savedMovements := db.sales, db.movements;
    var created := AddBatch(db, inputs, NextSaleId(db.sales), user, now);
    if !AllGrouped(inputs) {
      db.sales, db.movements := savedSales, savedMovements;
      return Err(NotNullViolation);
    }
    BulkCreateKeepsSalesValid(Ledger(savedSales, savedMovements), inputs, user, now);
    return Ok(created);
  }

  /** `create_sale`: one sale and no movement; the commit fails when the sale has no group. */
  method CreateSale(db: Store, input: SaleInput, user: int, now: int) returns (r: Result<Sale>)
    requires db.Valid()
    modifies db`sales
    ensures db.Valid()
    ensures input.saleGroupId.None? ==> r == Err(NotNullViolation) && db.sales == old(db.sales)
    ensures input.saleGroupId.Some? ==>
      var sale := NewSale(input, NextSaleId(old(db.sales)), user, now);
      r == Ok(sale) && db.sales == old(db.sales) + [sale]
  {
    if input.saleGroupId.None? {
      return Err(NotNullViolation);
    }
    var sale := NewSale(input, NextSaleId(db.sales), user, now);
    BulkCreateKeepsSalesValid(Ledger(db.sales, db.movements), [input], user, now);
    db.sales := db.sales + [sale];
    return Ok(sale);
  }

  /** `update_sale_paid_status`: sets `paid` on the first sale with that id, or fails on an unknown id. */
  method UpdateSalePaidStatus(db: Store, id: int) returns (r: Result<Sale>)
    requires db.Valid()
    modifies db`sales
    ensures db.Valid()
    ensures var spec := MarkPaid(old(db.sales), id);
      && (spec.Err? ==> r == Err(SaleNotFound) && db.sales == old(db.sales))
      && (spec.Ok? ==> db.sales == spec.value && r == Ok(db.sales[FirstSaleWithId(old(db.sales), id)]))
  {
    var j := FirstSaleWithId(db.sales, id);
    if j == |db.sales| {
      return Err(SaleNotFound);
    }
    db.sales := db.sales[j := db.sales[j].(paid := true)];
    assert forall s :: s in db.sales ==> s.saleGroupId.Some? by {
      forall s | s in db.sales ensures s.saleGroupId.Some? {
        var k :| 0 <= k < |db.sales| && db.sales[k] == s;
        assert old(db.sales)[k] in old(db.sales);
      }
    }
    return Ok(db.sales[j]);
  }
}
