/**
 * The inventory projection rebuild (`rebuild_inventory_table`): the movement
 * ledger is grouped by (warehouse-of-effect, item) and summed with signs, the
 * latest movement into each (item, target warehouse) supplies the prices, and
 * one inventory row per group is overwritten or inserted.
 */
module Projection {
  import opened Common
  import opened Records

  /** A (warehouse, item) pair. The warehouse is nullable, as in the grouped query. */
  datatype Key = Key(warehouse: Option<int>, itemId: int)

  function RowKey(r: InventoryRow): Key
  {
    Key(r.warehouseId, r.itemId)
  }

  /** The group a movement is summed into: its source when it has one, else its target. */
  function EffectKey(m: Movement): Key
  {
    Key(if m.source.Some? then m.source else m.target, m.itemId)
  }

  /** A movement with a source counts as an outflow from it, whatever its target. */
  function SignedQuantity(m: Movement): int
  {
    if m.source.Some? then -m.quantity else m.quantity
  }

  /** `SUM(signed quantity)` of the group `k`. */
  function NetQuantity(ms: seq<Movement>, k: Key): int
  {
    if ms == [] then 0
    else
      var m := ms[|ms| - 1];
      NetQuantity(ms[..|ms| - 1], k) + (if EffectKey(m) == k then SignedQuantity(m) else 0)
  }

  /** The groups of the grouped query, each once, in order of first appearance. */
  function SumKeys(ms: seq<Movement>): (ks: seq<Key>)
    ensures forall k :: k in ks <==> exists m :: m in ms && EffectKey(m) == k
    ensures forall a, b :: 0 <= a < b < |ks| ==> ks[a] != ks[b]
  {
    if ms == [] then []
    else
      var m := ms[|ms| - 1];
      var ks := SumKeys(ms[..|ms| - 1]);
      assert ms == ms[..|ms| - 1] + [m];
      if EffectKey(m) in ks then ks else ks + [EffectKey(m)]
  }

  /** One result record of the grouped query (`movement_sums`). */
  datatype SumRecord = SumRecord(warehouse: Option<int>, itemId: int, net: int)

  function SumKey(s: SumRecord): Key
  {
    Key(s.warehouse, s.itemId)
  }

  function MovementSums(ms: seq<Movement>): seq<SumRecord>
  {
    var ks := SumKeys(ms);
    seq(|ks|, j requires 0 <= j < |ks| => SumRecord(ks[j].warehouse, ks[j].itemId, NetQuantity(ms, ks[j])))
  }

  /** (Outflow) the quantity of item `i` that movements took out of warehouse `w`. */
  function Outflow(ms: seq<Movement>, w: int, i: int): int
  {
    if ms == [] then 0
    else
      var m := ms[|ms| - 1];
      Outflow(ms[..|ms| - 1], w, i) + (if m.itemId == i && m.source == Some(w) then m.quantity else 0)
  }

  /** (Direct inflow) the quantity of item `i` that source-less movements brought into warehouse `w`. */
  function DirectInflow(ms: seq<Movement>, w: int, i: int): int
  {
    if ms == [] then 0
    else
      var m := ms[|ms| - 1];
      DirectInflow(ms[..|ms| - 1], w, i) + (if m.itemId == i && m.source.None? && m.target == Some(w) then m.quantity else 0)
  }

  /** A group's net quantity is its direct inflow minus its outflow: transfers never credit their target. */
  lemma {:induction false} NetQuantitySplit(ms: seq<Movement>, w: int, i: int)
    ensures NetQuantity(ms, Key(Some(w), i)) == DirectInflow(ms, w, i) - Outflow(ms, w, i)
  {
    if ms != [] {
      NetQuantitySplit(ms[..|ms| - 1], w, i);
    }
  }

  /** Appending a movement changes only the net quantity of its own group, by its signed quantity. */
  lemma NetQuantityAppend(ms: seq<Movement>, m: Movement, k: Key)
    ensures NetQuantity(ms + [m], k) == NetQuantity(ms, k) + (if EffectKey(m) == k then SignedQuantity(m) else 0)
  {
    assert (ms + [m])[..|ms|] == ms;
  }

  /** Appending a movement with a source leaves the group of its target warehouse unchanged. */
  lemma {:induction false} TransferNotCredited(ms: seq<Movement>, m: Movement)
    requires m.source.Some? && m.target.Some? && m.target != m.source
    ensures NetQuantity(ms + [m], Key(m.target, m.itemId)) == NetQuantity(ms, Key(m.target, m.itemId))
    ensures NetQuantity(ms + [m], Key(m.source, m.itemId)) == NetQuantity(ms, Key(m.source, m.itemId)) - m.quantity
  {
    assert (ms + [m])[..|ms + [m]| - 1] == ms;
  }

  // ---------------------------------------------------------------- prices

  /** The prices written into an inventory row. */
  datatype PricePair = PricePair(purchase: real, sale: real)

  /** `x.purchase_price or 0.0`, `x.sale_price or 0.0`. */
  function PriceOf(m: Movement): PricePair
  {
    PricePair(RealOrZero(m.purchasePrice), RealOrZero(m.salePrice))
  }

  /** The key a movement is filed under in the price lookup: (target warehouse, item). */
  function EntryKey(m: Movement): Key
  {
    Key(m.target, m.itemId)
  }

  /** Movement `m` brings item `k.itemId` into warehouse `k.warehouse` (of any type, `traslado` included). */
  predicate Targets(m: Movement, k: Key)
  {
    m.target.Some? && EntryKey(m) == k
  }

  /** `MAX(timestamp)` over the movements that target the pair `k` (`sub_last_entry`). */
  function MaxTimestamp(ms: seq<Movement>, k: Key): (t: Option<int>)
    ensures t.None? <==> forall m :: m in ms ==> !Targets(m, k)
    ensures t.Some? ==> exists m :: m in ms && Targets(m, k) && m.timestamp == t.value
    ensures t.Some? ==> forall m :: m in ms && Targets(m, k) ==> m.timestamp <= t.value
  {
    if ms == [] then None
    else
      var m := ms[|ms| - 1];
      var prev := MaxTimestamp(ms[..|ms| - 1], k);
      assert ms == ms[..|ms| - 1] + [m];
      if !Targets(m, k) then prev
      else if prev.None? || prev.value < m.timestamp then Some(m.timestamp)
      else prev
  }

  /** `m` joins `sub_last_entry`: it has a target and the greatest timestamp for its pair. */
  predicate IsLatestEntry(all: seq<Movement>, m: Movement)
  {
    m.target.Some? && MaxTimestamp(all, EntryKey(m)) == Some(m.timestamp)
  }

  /** The rows of `latest_entries` drawn from `part`, in ledger order. */
  function LatestAmong(all: seq<Movement>, part: seq<Movement>): (es: seq<Movement>)
    ensures forall e :: e in es <==> e in part && IsLatestEntry(all, e)
  {
    if part == [] then []
    else
      var m := part[|part| - 1];
      var prev := LatestAmong(all, part[..|part| - 1]);
      assert part == part[..|part| - 1] + [m];
      if IsLatestEntry(all, m) then prev + [m] else prev
  }

  function LatestEntries(ms: seq<Movement>): seq<Movement>
  {
    LatestAmong(ms, ms)
  }

  /** The `prices` dict comprehension: a later entry overwrites an earlier one with the same key. */
  function PriceTable(entries: seq<Movement>): (t: map<Key, PricePair>)
    ensures forall k :: k in t <==> exists e :: e in entries && EntryKey(e) == k
    ensures forall k :: k in t ==> exists e :: e in entries && EntryKey(e) == k && t[k] == PriceOf(e)
  {
    if entries == [] then map[]
    else
      var e := entries[|entries| - 1];
      assert entries == entries[..|entries| - 1] + [e];
      PriceTable(entries[..|entries| - 1])[EntryKey(e) := PriceOf(e)]
  }

  function Prices(ms: seq<Movement>): map<Key, PricePair>
  {
    PriceTable(LatestEntries(ms))
  }

  /** `prices.get(key, {0.0, 0.0})`. */
  function PriceFor(prices: map<Key, PricePair>, k: Key): PricePair
  {
    if k in prices then prices[k] else PricePair(0.0, 0.0)
  }

  /**
   * A pair has prices exactly when some movement targets it, and then they are
   * those of a targeting movement with the greatest timestamp (NULL read as 0);
   * every other pair gets 0 and 0.
   */
  lemma {:induction false} PriceSource(ms: seq<Movement>, k: Key)
    ensures k in Prices(ms) <==> exists m :: m in ms && Targets(m, k)
    ensures k in Prices(ms) ==>
      exists m :: m in ms && Targets(m, k) && PriceFor(Prices(ms), k) == PriceOf(m) &&
        forall m' :: m' in ms && Targets(m', k) ==> m'.timestamp <= m.timestamp
    ensures k !in Prices(ms) ==> PriceFor(Prices(ms), k) == PricePair(0.0, 0.0)
  {
    var es := LatestEntries(ms);
    if exists m :: m in ms && Targets(m, k) {
      var t := MaxTimestamp(ms, k);
      var m :| m in ms && Targets(m, k) && m.timestamp == t.value;
      assert IsLatestEntry(ms, m);
      assert m in es;
    }
    if k in Prices(ms) {
      var e :| e in es && EntryKey(e) == k && Prices(ms)[k] == PriceOf(e);
      assert e in ms && IsLatestEntry(ms, e);
      assert Targets(e, k);
    }
  }

  /**
   * The movement into a pair with the strictly greatest timestamp sets its prices,
   * whatever its type: a `traslado` counts as much as an `entrada`.
   */
  lemma LatestTargetingMovementSetsPrice(ms: seq<Movement>, m: Movement, k: Key)
    requires m in ms && Targets(m, k)
    requires forall m' :: m' in ms && Targets(m', k) && m' != m ==> m'.timestamp < m.timestamp
    ensures PriceFor(Prices(ms), k) == PriceOf(m)
  {
    PriceSource(ms, k);
  }

  // ---------------------------------------------------------------- upserts

  /** One pass of the write loop: overwrite the first row of the pair, or insert one. */
  function Upsert(rows: seq<InventoryRow>, s: SumRecord, p: PricePair, now: int): seq<InventoryRow>
  {
    var j := FirstRow(rows, s.warehouse, s.itemId);
    if j < |rows| then
      rows[j := rows[j].(quantity := s.net, purchasePrice := p.purchase, salePrice := p.sale, updatedAt := now)]
    else
      rows + [InventoryRow(s.warehouse, s.itemId, s.net, now, p.purchase, p.sale)]
  }

  /** The write loop over `sums`, in order. */
  function ApplySums(rows: seq<InventoryRow>, sums: seq<SumRecord>, prices: map<Key, PricePair>, now: int): seq<InventoryRow>
  {
    if sums == [] then rows
    else
      var s := sums[|sums| - 1];
      Upsert(ApplySums(rows, sums[..|sums| - 1], prices, now), s, PriceFor(prices, SumKey(s)), now)
  }

  /** The inventory table after `rebuild_inventory_table` at time `now`. */
  function Rebuild(rows: seq<InventoryRow>, ms: seq<Movement>, now: int): seq<InventoryRow>
  {
    ApplySums(rows, MovementSums(ms), Prices(ms), now)
  }

  /** The first row of pair `k` holds exactly this quantity, these prices and this stamp. */
  predicate Settled(rows: seq<InventoryRow>, k: Key, net: int, p: PricePair, now: int)
  {
    var j := FirstRow(rows, k.warehouse, k.itemId);
    j < |rows| && rows[j].quantity == net && rows[j].purchasePrice == p.purchase &&
    rows[j].salePrice == p.sale && rows[j].updatedAt == now
  }

  /** `b` keeps the keys of the rows of `a` at the same positions (and may have more rows). */
  ghost predicate SameKeys(a: seq<InventoryRow>, b: seq<InventoryRow>)
  {
    |a| <= |b| && forall j :: 0 <= j < |a| ==> RowKey(b[j]) == RowKey(a[j])
  }

  function Untimed(r: InventoryRow): InventoryRow
  {
    r.(updatedAt := 0)
  }

  /** The two tables agree on everything but the `updated_at` stamps. */
  ghost predicate EqualButTimes(a: seq<InventoryRow>, b: seq<InventoryRow>)
  {
    |a| == |b| && forall j :: 0 <= j < |a| ==> Untimed(a[j]) == Untimed(b[j])
  }

  lemma FirstRowIs(rows: seq<InventoryRow>, k: Key, j: nat)
    requires j <= |rows|
    requires j < |rows| ==> RowMatches(rows[j], k.warehouse, k.itemId)
    requires forall i :: 0 <= i < j ==> !RowMatches(rows[i], k.warehouse, k.itemId)
    ensures FirstRow(rows, k.warehouse, k.itemId) == j
  {
  }

  /** Positions of rows are what `first()` sees, so tables with the same keys have the same first rows. */
  lemma FirstRowSameKeys(a: seq<InventoryRow>, b: seq<InventoryRow>, k: Key)
    requires SameKeys(a, b)
    ensures FirstRow(a, k.warehouse, k.itemId) < |a| ==> FirstRow(b, k.warehouse, k.itemId) == FirstRow(a, k.warehouse, k.itemId)
    ensures FirstRow(a, k.warehouse, k.itemId) == |a| ==> FirstRow(b, k.warehouse, k.itemId) >= |a|
  {
    var fa := FirstRow(a, k.warehouse, k.itemId);
    if fa < |a| {
      assert RowKey(a[fa]) == RowKey(b[fa]);
      FirstRowIs(b, k, fa);
    }
  }

  lemma UpsertKeepsKeys(rows: seq<InventoryRow>, s: SumRecord, p: PricePair, now: int)
    ensures SameKeys(rows, Upsert(rows, s, p, now))
  {
  }

  lemma UpsertSettles(rows: seq<InventoryRow>, s: SumRecord, p: PricePair, now: int)
    ensures Settled(Upsert(rows, s, p, now), SumKey(s), s.net, p, now)
  {
    var r := Upsert(rows, s, p, now);
    var j := FirstRow(rows, s.warehouse, s.itemId);
    UpsertKeepsKeys(rows, s, p, now);
    if j < |rows| {
      FirstRowSameKeys(rows, r, SumKey(s));
    } else {
      FirstRowIs(r, SumKey(s), j);
    }
  }

  /** Upserting another pair leaves the first row of `k` where and as it was. */
  lemma UpsertOther(rows: seq<InventoryRow>, s: SumRecord, p: PricePair, now: int, k: Key)
    requires SumKey(s) != k
    requires FirstRow(rows, k.warehouse, k.itemId) < |rows|
    ensures FirstRow(Upsert(rows, s, p, now), k.warehouse, k.itemId) == FirstRow(rows, k.warehouse, k.itemId)
    ensures Upsert(rows, s, p, now)[FirstRow(rows, k.warehouse, k.itemId)] == rows[FirstRow(rows, k.warehouse, k.itemId)]
  {
    UpsertKeepsKeys(rows, s, p, now);
    FirstRowSameKeys(rows, Upsert(rows, s, p, now), k);
  }

  /** After the write loop over records with distinct keys, every record's pair is settled. */
  lemma {:induction false} ApplySumsSettles(rows: seq<InventoryRow>, sums: seq<SumRecord>, prices: map<Key, PricePair>, now: int)
    requires forall a, b :: 0 <= a < b < |sums| ==> SumKey(sums[a]) != SumKey(sums[b])
    ensures forall n :: 0 <= n < |sums| ==>
      Settled(ApplySums(rows, sums, prices, now), SumKey(sums[n]), sums[n].net, PriceFor(prices, SumKey(sums[n])), now)
  {
    if sums != [] {
      var pre := sums[..|sums| - 1];
      var s := sums[|sums| - 1];
      var mid := ApplySums(rows, pre, prices, now);
      ApplySumsSettles(rows, pre, prices, now);
      UpsertSettles(mid, s, PriceFor(prices, SumKey(s)), now);
      forall n | 0 <= n < |pre|
        ensures Settled(ApplySums(rows, sums, prices, now), SumKey(sums[n]), sums[n].net, PriceFor(prices, SumKey(sums[n])), now)
      {
        assert sums[n] == pre[n];
        UpsertOther(mid, s, PriceFor(prices, SumKey(s)), now, SumKey(sums[n]));
      }
    }
  }

  lemma SumKeysDistinct(ms: seq<Movement>)
    ensures forall a, b :: 0 <= a < b < |MovementSums(ms)| ==> SumKey(MovementSums(ms)[a]) != SumKey(MovementSums(ms)[b])
  {
    var ks := SumKeys(ms);
    forall a, b | 0 <= a < b < |MovementSums(ms)|
      ensures SumKey(MovementSums(ms)[a]) != SumKey(MovementSums(ms)[b])
    {
      assert SumKey(MovementSums(ms)[a]) == ks[a];
      assert SumKey(MovementSums(ms)[b]) == ks[b];
    }
  }

  /**
   * After a rebuild, the first row of every pair that has movements holds the
   * pair's net quantity, the pair's prices and the rebuild's stamp: an existing
   * quantity is overwritten, not added to.
   */
  lemma RebuildSettles(rows: seq<InventoryRow>, ms: seq<Movement>, now: int, k: Key)
    requires k in SumKeys(ms)
    ensures Settled(Rebuild(rows, ms, now), k, NetQuantity(ms, k), PriceFor(Prices(ms), k), now)
  {
    var ks := SumKeys(ms);
    var n :| 0 <= n < |ks| && ks[n] == k;
    SumKeysDistinct(ms);
    ApplySumsSettles(rows, MovementSums(ms), Prices(ms), now);
    assert SumKey(MovementSums(ms)[n]) == k;
  }

  /**
   * The quantity rebuilt for (w, i): the item's movements into w that have no
   * source, minus its movements out of w (transfers included).
   */
  lemma RebuildQuantity(rows: seq<InventoryRow>, ms: seq<Movement>, now: int, w: int, i: int)
    requires exists m :: m in ms && EffectKey(m) == Key(Some(w), i)
    ensures var r := Rebuild(rows, ms, now);
      FirstRow(r, Some(w), i) < |r| &&
      r[FirstRow(r, Some(w), i)].quantity == DirectInflow(ms, w, i) - Outflow(ms, w, i)
  {
    RebuildSettles(rows, ms, now, Key(Some(w), i));
    NetQuantitySplit(ms, w, i);
  }

  /**
   * The prices rebuilt for a pair: those of a movement into it with the greatest
   * timestamp, or 0 and 0 when no movement targets the pair.
   */
  lemma RebuildPrices(rows: seq<InventoryRow>, ms: seq<Movement>, now: int, k: Key)
    requires k in SumKeys(ms)
    ensures var r := Rebuild(rows, ms, now); var j := FirstRow(r, k.warehouse, k.itemId);
      j < |r| &&
      ((forall m :: m in ms ==> !Targets(m, k)) ==> r[j].purchasePrice == 0.0 && r[j].salePrice == 0.0) &&
      ((exists m :: m in ms && Targets(m, k)) ==>
        exists m :: m in ms && Targets(m, k) && r[j].purchasePrice == PriceOf(m).purchase && r[j].salePrice == PriceOf(m).sale &&
          forall m' :: m' in ms && Targets(m', k) ==> m'.timestamp <= m.timestamp)
  {
    RebuildSettles(rows, ms, now, k);
    PriceSource(ms, k);
  }

  function SumKeySet(sums: seq<SumRecord>): set<Key>
  {
    set s | s in sums :: SumKey(s)
  }

  /** The write loop changes only first rows of its pairs and appends at most one row per absent pair. */
  lemma {:induction false} ApplySumsFrame(rows: seq<InventoryRow>, sums: seq<SumRecord>, prices: map<Key, PricePair>, now: int)
    ensures var r := ApplySums(rows, sums, prices, now);
      && SameKeys(rows, r)
      && (forall j :: 0 <= j < |rows| && r[j] != rows[j] ==>
            RowKey(rows[j]) in SumKeySet(sums) && FirstRow(rows, rows[j].warehouseId, rows[j].itemId) == j)
      && (forall j :: |rows| <= j < |r| ==>
            RowKey(r[j]) in SumKeySet(sums) && FirstRow(rows, r[j].warehouseId, r[j].itemId) == |rows|)
      && (forall a, b :: |rows| <= a < b < |r| ==> RowKey(r[a]) != RowKey(r[b]))
  {
    if sums != [] {
      var pre := sums[..|sums| - 1];
      var s := sums[|sums| - 1];
      var p := PriceFor(prices, SumKey(s));
      var mid := ApplySums(rows, pre, prices, now);
      var r := Upsert(mid, s, p, now);
      ApplySumsFrame(rows, pre, prices, now);
      assert SumKeySet(pre) <= SumKeySet(sums);
      assert SumKey(s) in SumKeySet(sums);
      UpsertKeepsKeys(mid, s, p, now);
      var j0 := FirstRow(mid, s.warehouse, s.itemId);
      if j0 < |mid| {
        if j0 < |rows| {
          assert RowKey(rows[j0]) == SumKey(s);
          FirstRowSameKeys(rows, mid, SumKey(s));
          FirstRowIs(rows, SumKey(s), j0);
        }
      } else {
        assert r == mid + [InventoryRow(s.warehouse, s.itemId, s.net, now, p.purchase, p.sale)];
        FirstRowSameKeys(rows, mid, SumKey(s));
        forall j | 0 <= j < |rows| ensures !RowMatches(rows[j], s.warehouse, s.itemId) {
          assert RowKey(mid[j]) == RowKey(rows[j]);
        }
        FirstRowIs(rows, SumKey(s), |rows|);
        forall a | |rows| <= a < |mid| ensures RowKey(r[a]) != SumKey(s) {
          assert !RowMatches(mid[a], s.warehouse, s.itemId);
        }
      }
    }
  }

  /**
   * A rebuild rewrites only the first row of each pair that has movements and
   * appends exactly one row for each such pair the table lacked; every other
   * row is left untouched.
   */
  lemma RebuildFrame(rows: seq<InventoryRow>, ms: seq<Movement>, now: int)
    ensures var r := Rebuild(rows, ms, now);
      && |r| >= |rows|
      && (forall j :: 0 <= j < |rows| && RowKey(rows[j]) !in SumKeys(ms) ==> r[j] == rows[j])
      && (forall j :: 0 <= j < |rows| && j != FirstRow(rows, rows[j].warehouseId, rows[j].itemId) ==> r[j] == rows[j])
      && (forall j :: |rows| <= j < |r| ==>
            RowKey(r[j]) in SumKeys(ms) && FirstRow(rows, r[j].warehouseId, r[j].itemId) == |rows|)
      && (forall a, b :: |rows| <= a < b < |r| ==> RowKey(r[a]) != RowKey(r[b]))
  {
    ApplySumsFrame(rows, MovementSums(ms), Prices(ms), now);
    var sums := MovementSums(ms);
    forall k | k in SumKeySet(sums) ensures k in SumKeys(ms) {
      var s :| s in sums && SumKey(s) == k;
      var n :| 0 <= n < |sums| && sums[n] == s;
    }
  }

  /** Rewriting settled pairs again changes at most their stamps (and nothing at the same stamp). */
  lemma {:induction false} ApplySumsStable(rows: seq<InventoryRow>, sums: seq<SumRecord>, prices: map<Key, PricePair>, t1: int, t2: int)
    requires forall n :: 0 <= n < |sums| ==> Settled(rows, SumKey(sums[n]), sums[n].net, PriceFor(prices, SumKey(sums[n])), t1)
    ensures EqualButTimes(ApplySums(rows, sums, prices, t2), rows)
    ensures t1 == t2 ==> ApplySums(rows, sums, prices, t2) == rows
  {
    if sums != [] {
      var pre := sums[..|sums| - 1];
      var s := sums[|sums| - 1];
      var p := PriceFor(prices, SumKey(s));
      ApplySumsStable(rows, pre, prices, t1, t2);
      var mid := ApplySums(rows, pre, prices, t2);
      assert Settled(rows, SumKey(s), s.net, p, t1);
      assert SameKeys(rows, mid) by {
        forall j | 0 <= j < |rows| ensures RowKey(mid[j]) == RowKey(rows[j]) {
          assert Untimed(mid[j]) == Untimed(rows[j]);
        }
      }
      FirstRowSameKeys(rows, mid, SumKey(s));
      var j := FirstRow(rows, s.warehouse, s.itemId);
      assert Untimed(mid[j]) == Untimed(rows[j]);
      var r := Upsert(mid, s, p, t2);
      assert r == mid[j := mid[j].(quantity := s.net, purchasePrice := p.purchase, salePrice := p.sale, updatedAt := t2)];
      assert Untimed(r[j]) == Untimed(rows[j]);
    }
  }

  /**
   * Rebuilding twice with no movement written in between gives the same
   * quantities and prices as rebuilding once; at the same stamp, the same table.
   */
  lemma RebuildIdempotent(rows: seq<InventoryRow>, ms: seq<Movement>, t1: int, t2: int)
    ensures EqualButTimes(Rebuild(Rebuild(rows, ms, t1), ms, t2), Rebuild(rows, ms, t1))
    ensures t1 == t2 ==> Rebuild(Rebuild(rows, ms, t1), ms, t2) == Rebuild(rows, ms, t1)
  {
    SumKeysDistinct(ms);
    ApplySumsSettles(rows, MovementSums(ms), Prices(ms), t1);
    ApplySumsStable(Rebuild(rows, ms, t1), MovementSums(ms), Prices(ms), t1, t2);
  }

  /** `rebuild_inventory_table`: loops over the grouped sums, overwriting or inserting one row each. */
  method RebuildInventoryTable(db: Store, now: int)
    modifies db`inventory
    ensures db.inventory == Rebuild(old(db.inventory), db.movements, now)
  {
    var movementSums := MovementSums(db.movements);
    var prices := Prices(db.movements);
    var i := 0;
    while i < |movementSums|
      invariant 0 <= i <= |movementSums|
      invariant db.inventory == ApplySums(old(db.inventory), movementSums[..i], prices, now)
    {
      var record := movementSums[i];
      var priceData := PriceFor(prices, SumKey(record));
      var existing := FirstRow(db.inventory, record.warehouse, record.itemId);
      if existing < |db.inventory| {
        db.inventory := db.inventory[existing := db.inventory[existing].(
          quantity := record.net,
          purchasePrice := priceData.purchase,
          salePrice := priceData.sale,
          updatedAt := now)];
      } else {
        db.inventory := db.inventory + [InventoryRow(record.warehouse, record.itemId, record.net, now, priceData.purchase, priceData.sale)];
      }
      assert movementSums[..i + 1][..i] == movementSums[..i];
      i := i + 1;
    }
    assert movementSums[..i] == movementSums;
  }
}
