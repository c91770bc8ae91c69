/**
 * The relational backend's inventory endpoint. One grouped query sums the
 * signed quantities per (product, warehouse) pair, restricted to one
 * warehouse when the `warehouseId` query parameter is truthy; then each group
 * whose product or warehouse cannot be found is skipped, and so is each group
 * whose quantity is not positive unless a warehouse was given.
 *
 * SQL promises no order for a GROUP BY without ORDER BY, so the loop takes
 * the query's rows as a parameter and the properties hold for every
 * sequence of rows the grouping may return (`IsGrouping`).
 */
module InventoryController {
  import opened Seqs
  import opened Wrappers
  import opened Ledger

  /** One entry of the response, with the product and warehouse attached. */
  datatype StockRow = StockRow(
    productId: string,
    warehouseId: string,
    quantity: int,
    product: Record,
    warehouse: Record)
  {
    function Pair(): Key { Key.Key(productId, warehouseId) }
  }

  function RowPair(r: StockRow): Key { r.Pair() }

  /** PHP truthiness of the query parameter: missing, "" and "0" are all false. */
  predicate Given(warehouseId: Option<string>)
  {
    warehouseId.Some? && warehouseId.value != "" && warehouseId.value != "0"
  }

  /** The test "is in warehouse `w`". */
  function InWarehouse(w: string): Movement -> bool
  {
    (m: Movement) => m.warehouseId == w
  }

  /** The movements the grouped query reads: all of them, or one warehouse's. */
  function Where(transactions: seq<Movement>, warehouseId: Option<string>): seq<Movement>
  {
    if Given(warehouseId) then Filter(transactions, InWarehouse(warehouseId.value)) else transactions
  }

  /**
   * What the GROUP BY query may return over `rows`, in any order: one row per
   * pair that moved, no pair twice, each holding its pair's signed sum.
   */
  ghost predicate IsGrouping(results: seq<Level>, rows: seq<Movement>)
  {
    && DistinctBy(results, LevelPair)
    && (forall i :: 0 <= i < |results| ==>
          Occurs(rows, results[i].Pair()) && results[i].quantity == StockOf(rows, results[i].Pair()))
    && (forall k :: Occurs(rows, k) ==> exists i :: 0 <= i < |results| && results[i].Pair() == k)
  }

  /** The grouping exists: the levels in first-movement order are one. */
  lemma AggregatedGroups(rows: seq<Movement>)
    ensures IsGrouping(Aggregated(rows), rows)
  {
    var levels := Aggregated(rows);
    forall i | 0 <= i < |levels|
      ensures Occurs(rows, levels[i].Pair()) && levels[i].quantity == StockOf(rows, levels[i].Pair())
    {
      AggregatedIsGrouping(rows, levels[i].Pair());
    }
    forall k | Occurs(rows, k) ensures exists i :: 0 <= i < |levels| && levels[i].Pair() == k {
      AggregatedIsGrouping(rows, k);
    }
    AggregatedIsGrouping(rows, Key("", ""));
  }

  /** The warehouse restriction keeps exactly the pairs in that warehouse. */
  lemma WhereOccurs(transactions: seq<Movement>, warehouseId: Option<string>, k: Key)
    ensures Occurs(Where(transactions, warehouseId), k) <==>
      Occurs(transactions, k) && (Given(warehouseId) ==> k.warehouseId == warehouseId.value)
  {
    if Given(warehouseId) {
      var keep := InWarehouse(warehouseId.value);
      var rows := Filter(transactions, keep);
      if Occurs(rows, k) {
        var i :| 0 <= i < |rows| && KeyOf(rows[i]) == k;
        FilterMembers(transactions, keep, rows[i]);
        var j :| 0 <= j < |transactions| && transactions[j] == rows[i];
        assert KeyOf(transactions[j]) == k;
      }
      if Occurs(transactions, k) && k.warehouseId == warehouseId.value {
        var j :| 0 <= j < |transactions| && KeyOf(transactions[j]) == k;
        FilterMembers(transactions, keep, transactions[j]);
        var i :| 0 <= i < |rows| && rows[i] == transactions[j];
        assert KeyOf(rows[i]) == k;
      }
    }
  }

  /**
   * Restricting to a warehouse before grouping does not change the sum of a
   * pair in that warehouse: the restricted sum is the pair's full stock.
   */
  lemma WhereKeepsStock(transactions: seq<Movement>, warehouseId: Option<string>, k: Key)
    requires Given(warehouseId) ==> k.warehouseId == warehouseId.value
    ensures StockOf(Where(transactions, warehouseId), k) == StockOf(transactions, k)
  {
    if Given(warehouseId) {
      var wide := InWarehouse(warehouseId.value);
      var rows := Filter(transactions, wide);
      assert forall m :: OnKey(k)(m) ==> wide(m);
      FilterNarrow(transactions, wide, OnKey(k));
      StockOfOwnMovements(rows, k);
      StockOfOwnMovements(transactions, k);
    }
  }

  /** What one group contributes: nothing when unresolved or hidden, else one row. */
  function Emit(result: Level, products: map<string, Record>, warehouses: map<string, Record>,
                warehouseId: Option<string>): seq<StockRow>
  {
    if result.productId !in products || result.warehouseId !in warehouses then []
    else if result.quantity <= 0 && !Given(warehouseId) then []
    else [StockRow(result.productId, result.warehouseId, result.quantity,
                   products[result.productId], warehouses[result.warehouseId])]
  }

  /** The response built from the groups, in the order the query returned them. */
  function Report(results: seq<Level>, products: map<string, Record>, warehouses: map<string, Record>,
                  warehouseId: Option<string>): seq<StockRow>
  {
    if results == [] then []
    else
      Report(results[..|results| - 1], products, warehouses, warehouseId)
      + Emit(results[|results| - 1], products, warehouses, warehouseId)
  }

  /** The loop of `index` over the query's rows. */
  method Index(results: seq<Level>, products: map<string, Record>, warehouses: map<string, Record>,
               warehouseId: Option<string>) returns (inventory: seq<StockRow>)
    ensures inventory == Report(results, products, warehouses, warehouseId)
  {
    inventory := [];
    for i := 0 to |results|
      invariant inventory == Report(results[..i], products, warehouses, warehouseId)
    {
      assert results[..i + 1][..i] == results[..i];
      var result := results[i];
      if result.productId !in products || result.warehouseId !in warehouses {
        continue;
      }
      var quantity := result.quantity;
      if quantity <= 0 && !Given(warehouseId) {
        continue;
      }
      inventory := inventory + [StockRow(result.productId, result.warehouseId, quantity,
                                         products[result.productId], warehouses[result.warehouseId])];
    }
    assert results[..|results|] == results;
  }

  /** The response keeps the query's order: the groups of `a` come before those of `b`. */
  lemma {:induction false} ReportAppend(a: seq<Level>, b: seq<Level>, products: map<string, Record>,
                                        warehouses: map<string, Record>, warehouseId: Option<string>)
    ensures Report(a + b, products, warehouses, warehouseId)
         == Report(a, products, warehouses, warehouseId) + Report(b, products, warehouses, warehouseId)
  {
    if b == [] {
      assert a + b == a;
    } else {
      var b' := b[..|b| - 1];
      assert (a + b)[..|a + b| - 1] == a + b';
      ReportAppend(a, b', products, warehouses, warehouseId);
    }
  }

  /** A row is in the response exactly when some group emits it. */
  lemma {:induction false} ReportMembers(results: seq<Level>, products: map<string, Record>,
                                         warehouses: map<string, Record>, warehouseId: Option<string>, row: StockRow)
    ensures row in Report(results, products, warehouses, warehouseId) <==>
      exists i :: 0 <= i < |results| && row in Emit(results[i], products, warehouses, warehouseId)
  {
    if results != [] {
      var front := results[..|results| - 1];
      ReportMembers(front, products, warehouses, warehouseId, row);
      if exists i :: 0 <= i < |front| && row in Emit(front[i], products, warehouses, warehouseId) {
        var i :| 0 <= i < |front| && row in Emit(front[i], products, warehouses, warehouseId);
        assert results[i] == front[i];
      }
      if exists i :: 0 <= i < |results| && row in Emit(results[i], products, warehouses, warehouseId) {
        var i :| 0 <= i < |results| && row in Emit(results[i], products, warehouses, warehouseId);
        if i < |front| {
          assert results[i] == front[i];
        }
      }
    }
  }

  /** Distinct groups give distinct rows. */
  lemma {:induction false} ReportDistinct(results: seq<Level>, products: map<string, Record>,
                                          warehouses: map<string, Record>, warehouseId: Option<string>)
    requires DistinctBy(results, LevelPair)
    ensures DistinctBy(Report(results, products, warehouses, warehouseId), RowPair)
  {
    if results != [] {
      var front := results[..|results| - 1];
      var last := results[|results| - 1];
      assert DistinctBy(front, LevelPair) by {
        forall i, j | 0 <= i < j < |front| ensures LevelPair(front[i]) != LevelPair(front[j]) {
          assert front[i] == results[i] && front[j] == results[j];
        }
      }
      ReportDistinct(front, products, warehouses, warehouseId);
      var r := Report(front, products, warehouses, warehouseId);
      forall i | 0 <= i < |r| ensures RowPair(r[i]) != last.Pair() {
        ReportMembers(front, products, warehouses, warehouseId, r[i]);
        var j :| 0 <= j < |front| && r[i] in Emit(front[j], products, warehouses, warehouseId);
        assert results[j] == front[j];
      }
    }
  }

  /**
   * The inventory response, whatever order the query returns its groups in:
   * a row is listed exactly when its pair moved, lies in the requested
   * warehouse (when one is given), refers to an existing product and
   * warehouse, carries the pair's full stock, and that stock is positive
   * unless a warehouse was given. No pair is listed twice.
   */
  lemma IndexSpec(transactions: seq<Movement>, products: map<string, Record>, warehouses: map<string, Record>,
                  warehouseId: Option<string>, results: seq<Level>, row: StockRow)
    requires IsGrouping(results, Where(transactions, warehouseId))
    ensures DistinctBy(Report(results, products, warehouses, warehouseId), RowPair)
    ensures row in Report(results, products, warehouses, warehouseId) <==>
      && Occurs(transactions, row.Pair())
      && (Given(warehouseId) ==> row.warehouseId == warehouseId.value)
      && row.productId in products && row.warehouseId in warehouses
      && row.product == products[row.productId] && row.warehouse == warehouses[row.warehouseId]
      && row.quantity == StockOf(transactions, row.Pair())
      && (Given(warehouseId) || row.quantity > 0)
  {
    var rows := Where(transactions, warehouseId);
    var k := row.Pair();
    ReportDistinct(results, products, warehouses, warehouseId);
    ReportMembers(results, products, warehouses, warehouseId, row);
    WhereOccurs(transactions, warehouseId, k);
    if row in Report(results, products, warehouses, warehouseId) {
      var i :| 0 <= i < |results| && row in Emit(results[i], products, warehouses, warehouseId);
      assert results[i].Pair() == k;
      WhereKeepsStock(transactions, warehouseId, k);
    }
    if && Occurs(transactions, k)
       && (Given(warehouseId) ==> row.warehouseId == warehouseId.value)
       && row.productId in products && row.warehouseId in warehouses
       && row.product == products[row.productId] && row.warehouse == warehouses[row.warehouseId]
       && row.quantity == StockOf(transactions, k)
       && (Given(warehouseId) || row.quantity > 0)
    {
      var i :| 0 <= i < |results| && results[i].Pair() == k;
      WhereKeepsStock(transactions, warehouseId, k);
      assert Emit(results[i], products, warehouses, warehouseId) == [row];
    }
  }

  /** One `in` and an equal `out` on the pair ("p", "w"). */
  const Emptying: seq<Movement> := [
    Movement("t1", "p", "w", "in", 500, None, None, 1),
    Movement("t2", "p", "w", "out", 500, None, None, 2)]

  /** The only grouping of `Emptying`, filtered by its warehouse or not, is one level of quantity 0. */
  lemma EmptyingGroups()
    ensures Where(Emptying, Some("w")) == Emptying
    ensures IsGrouping([Level("p", "w", 0)], Emptying)
  {
    var s := Emptying;
    var k := Key("p", "w");
    var results := [Level("p", "w", 0)];
    assert s[..1][..0] == [];
    assert StockOf(s, k) == 0;
    assert Occurs(s, k) by { assert KeyOf(s[0]) == k; }
    FilterKeepsAll(s, InWarehouse("w"));
    forall k' | Occurs(s, k') ensures exists i :: 0 <= i < |results| && results[i].Pair() == k' {
      var j :| 0 <= j < |s| && KeyOf(s[j]) == k';
      assert results[0].Pair() == k';
    }
  }

  /**
   * With a warehouse given, pairs whose stock is zero or negative are listed
   * too: after one `in` and an equal `out` the pair is listed with quantity 0
   * when its warehouse is requested, and not listed otherwise.
   */
  lemma EmptiedPairListedOnlyWithWarehouse()
    ensures
      var p := Record("p", map[]);
      var w := Record("w", map[]);
      var results := [Level("p", "w", 0)];
      && IsGrouping(results, Where(Emptying, Some("w")))
      && IsGrouping(results, Where(Emptying, None))
      && Report(results, map["p" := p], map["w" := w], Some("w")) == [StockRow("p", "w", 0, p, w)]
      && Report(results, map["p" := p], map["w" := w], None) == []
  {
    EmptyingGroups();
  }
}
