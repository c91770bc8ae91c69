/**
 * The flat-file server: an in-memory store of products, warehouses, stock
 * movements and teams, and the request handlers that read and change it.
 * Each request is modelled as one atomic step on the store; reading and
 * writing the data file is not part of this model.
 *
 * A query parameter that is missing or empty counts as "not given" (both are
 * falsy in JavaScript). Record attributes are text; generated ids and the
 * current time are parameters.
 */
module FlatServer {
  import opened Seqs
  import opened Wrappers
  import opened Ledger

  /** The record collections that the CRUD handlers edit. */
  datatype Collection = Warehouses | Products | Teams

  /** The handlers' error responses: 404 for a missing record, 400 for a refused `out`. */
  datatype ApiError = NotFound(collection: Collection) | InsufficientStock

  datatype Result<T> = Ok(value: T) | Err(error: ApiError)

  /** The body of a POST to the movements endpoint; missing notes are "". */
  datatype MovementRequest = MovementRequest(
    productId: string,
    warehouseId: string,
    kind: string,
    quantity: int,
    notes: string)

  /** One row of the inventory view; unresolved references are kept as None. */
  datatype InventoryRow = InventoryRow(
    productId: string,
    warehouseId: string,
    quantity: int,
    product: Option<Record>,
    warehouse: Option<Record>)
  {
    function Pair(): Key { Key(productId, warehouseId) }
  }

  // ---------------------------------------------------------------- lookups

  /** `findIndex` by id: the first position holding `id`, or -1. */
  function FindIndex(records: seq<Record>, id: string): (i: int)
    ensures -1 <= i < |records|
    ensures i == -1 <==> forall j :: 0 <= j < |records| ==> records[j].id != id
    ensures 0 <= i ==> records[i].id == id && forall j :: 0 <= j < i ==> records[j].id != id
  {
    if records == [] then -1
    else if records[0].id == id then 0
    else
      var j := FindIndex(records[1..], id);
      if j < 0 then -1 else j + 1
  }

  /** `find` by id: the first record holding `id`, if any. */
  function Find(records: seq<Record>, id: string): Option<Record>
  {
    var i := FindIndex(records, id);
    if i < 0 then None else Some(records[i])
  }

  // ------------------------------------------------------ record creation

  /** `body[key] || fallback` for a text attribute. */
  function Or(body: map<string, string>, key: string, fallback: string): string
  {
    if key in body && body[key] != "" then body[key] else fallback
  }

  /** The default unit of a product, "piece" in Arabic. */
  const Piece: string := "\U{0642}\U{0637}\U{0639}\U{0629}"

  /**
   * The attributes a POST copies from the body as given (`name: body.name`);
   * one the request omits is absent from the stored record.
   */
  function Copied(c: Collection): set<string>
  {
    match c
    case Warehouses => {"name", "location"}
    case Products => {"name", "code"}
    case Teams => {"name"}
  }

  /** The attributes a POST takes as `body[key] || fallback`, with their fallbacks. */
  function Fallbacks(c: Collection): map<string, string>
  {
    match c
    case Warehouses => map["description" := "", "manager" := "", "managerLocation" := ""]
    case Products => map["category" := "", "unit" := Piece, "price" := "0", "description" := "", "teamId" := ""]
    case Teams => map["color" := "#3b82f6", "description" := ""]
  }

  /** Every attribute a POST takes from the body. */
  function Attributes(c: Collection): set<string>
  {
    Copied(c) + Fallbacks(c).Keys
  }

  /** The record a POST appends: copied attributes, fallbacks, and the creation time. */
  function NewRecord(c: Collection, id: string, body: map<string, string>, now: string): Record
  {
    var copied := map k | k in Copied(c) && k in body :: body[k];
    var defaulted := map k | k in Fallbacks(c) :: Or(body, k, Fallbacks(c)[k]);
    Record(id, copied + defaulted + map["createdAt" := now])
  }

  /**
   * POST builds the record from a fixed list of attributes: it carries the
   * fresh id and the creation time, keeps every listed attribute the body
   * gives a non-empty value, falls back for a listed attribute with a
   * fallback the body leaves out or empty, stores the copied attributes as
   * given or not at all, and takes nothing else from the body.
   */
  lemma NewRecordSpec(c: Collection, id: string, body: map<string, string>, now: string)
    ensures NewRecord(c, id, body, now).id == id
    ensures "createdAt" in NewRecord(c, id, body, now).fields
         && NewRecord(c, id, body, now).fields["createdAt"] == now
    ensures NewRecord(c, id, body, now).fields.Keys <= Attributes(c) + {"createdAt"}
    ensures forall k :: k in Attributes(c) && k in body && body[k] != "" ==>
      k in NewRecord(c, id, body, now).fields && NewRecord(c, id, body, now).fields[k] == body[k]
    ensures forall k :: k in Fallbacks(c) && (k !in body || body[k] == "") ==>
      k in NewRecord(c, id, body, now).fields && NewRecord(c, id, body, now).fields[k] == Fallbacks(c)[k]
    ensures forall k :: k in Copied(c) ==>
      && (k in NewRecord(c, id, body, now).fields <==> k in body)
      && (k in body ==> NewRecord(c, id, body, now).fields[k] == body[k])
  {
    NewRecordCopied(c, id, body, now);
  }

  /**
   * The copied attributes are stored exactly as the body gives them, the
   * empty string included, and are absent from the record when the body
   * leaves them out.
   */
  lemma NewRecordCopied(c: Collection, id: string, body: map<string, string>, now: string)
    ensures forall k :: k in Copied(c) ==>
      && (k in NewRecord(c, id, body, now).fields <==> k in body)
      && (k in body ==> NewRecord(c, id, body, now).fields[k] == body[k])
  {
    forall k | k in Copied(c)
      ensures k !in Fallbacks(c) && k != "createdAt"
    {
      match c
      case Warehouses =>
        assert k == "name" || k == "location";
      case Products =>
        assert k == "name" || k == "code";
      case Teams =>
        assert k == "name";
    }
  }

  /**
   * `{...record, ...body, updatedAt: now}`: every attribute of the body,
   * the id included, overrides the record's, and `updatedAt` overrides both.
   */
  function Merge(record: Record, body: map<string, string>, now: string): Record
  {
    Record(
      if "id" in body then body["id"] else record.id,
      (record.fields + body)["updatedAt" := now] - {"id"})
  }

  /**
   * PUT is a spread: the body's attributes override the record's, `updatedAt`
   * overrides both, the record keeps the attributes the body does not
   * mention, and an `id` in the body replaces the record's id.
   */
  lemma MergeSpec(record: Record, body: map<string, string>, now: string)
    ensures Merge(record, body, now).id == (if "id" in body then body["id"] else record.id)
    ensures "updatedAt" in Merge(record, body, now).fields && Merge(record, body, now).fields["updatedAt"] == now
    ensures forall k :: k in body && k != "id" && k != "updatedAt" ==>
      k in Merge(record, body, now).fields && Merge(record, body, now).fields[k] == body[k]
    ensures forall k :: k in record.fields && k !in body && k != "id" && k != "updatedAt" ==>
      k in Merge(record, body, now).fields && Merge(record, body, now).fields[k] == record.fields[k]
    ensures forall k :: k in Merge(record, body, now).fields ==>
      k in record.fields || k in body || k == "updatedAt"
  {
  }

  // ------------------------------------------------------ record deletion

  function NotId(id: string): Record -> bool
  {
    (r: Record) => r.id != id
  }

  /** `filter(r => r.id !== id)`. */
  function RemoveId(records: seq<Record>, id: string): seq<Record>
  {
    Filter(records, NotId(id))
  }

  /**
   * DELETE removes every record with the id and keeps every other one (in
   * its original order, as `Filter` never reorders); a second DELETE of the
   * same id changes nothing, and a DELETE of an absent id changes nothing.
   */
  lemma RemoveIdSpec(records: seq<Record>, id: string, r: Record)
    ensures r in RemoveId(records, id) <==> r in records && r.id != id
    ensures RemoveId(RemoveId(records, id), id) == RemoveId(records, id)
    ensures FindIndex(records, id) == -1 ==> RemoveId(records, id) == records
  {
    FilterMembers(records, NotId(id), r);
    FilterIdempotent(records, NotId(id));
    if FindIndex(records, id) == -1 {
      forall x | x in records ensures NotId(id)(x) {
        var j :| 0 <= j < |records| && records[j] == x;
      }
      FilterKeepsAll(records, NotId(id));
    }
  }

  /** A record appended under a fresh id is the one a later PUT finds. */
  lemma CreatedIsFound(records: seq<Record>, created: Record)
    requires FindIndex(records, created.id) == -1
    ensures FindIndex(records + [created], created.id) == |records|
  {
    var s := records + [created];
    var i := FindIndex(s, created.id);
    assert s[|records|] == created;
    forall j | 0 <= j < |records| ensures s[j].id != created.id {
      assert s[j] == records[j];
    }
    assert i != -1;
    assert !(i < |records|);
  }

  /** A later DELETE of a record appended under a fresh id gives back the collection as it was. */
  lemma CreatedThenRemoved(records: seq<Record>, created: Record)
    requires FindIndex(records, created.id) == -1
    ensures RemoveId(records + [created], created.id) == records
  {
    var id := created.id;
    RemoveIdSpec(records, id, created);
    FilterAppend(records, [created], NotId(id));
    assert Filter([created], NotId(id)) == [] by {
      assert [created][..0] == [];
    }
  }

  // ------------------------------------------------------------ inventory

  /** The `forEach` that fills the inventory dictionary, keyed by pair, in insertion order. */
  method Aggregate(transactions: seq<Movement>) returns (levels: seq<Level>)
    ensures levels == Aggregated(transactions)
  {
    var order: seq<Key> := [];
    var totals: map<Key, int> := map[];
    for i := 0 to |transactions|
      invariant order == DistinctKeys(transactions[..i])
      invariant forall k :: k in totals <==> k in order
      invariant forall k :: k in totals ==> totals[k] == StockOf(transactions[..i], k)
    {
      var transaction := transactions[i];
      var key := Key(transaction.productId, transaction.warehouseId);
      assert transactions[..i + 1][..i] == transactions[..i];
      if key !in totals {
        DistinctKeysMembers(transactions[..i], key);
        StockOfAbsent(transactions[..i], key);
        order := order + [key];
        totals := totals[key := 0];
      }
      if transaction.kind == "in" {
        totals := totals[key := totals[key] + transaction.quantity];
      } else {
        totals := totals[key := totals[key] - transaction.quantity];
      }
    }
    assert transactions[..|transactions|] == transactions;
    levels := seq(|order|, j requires 0 <= j < |order| =>
      Level(order[j].productId, order[j].warehouseId, totals[order[j]]));
  }

  function InWarehouse(warehouseId: string): Level -> bool
  {
    (l: Level) => l.warehouseId == warehouseId
  }

  /** The `warehouseId` query filter, applied to the grouped levels. */
  function OfWarehouse(levels: seq<Level>, warehouseId: string): seq<Level>
  {
    if warehouseId != "" then Filter(levels, InWarehouse(warehouseId)) else levels
  }

  /** The row for pair `k`, enriched with its product and warehouse or None. */
  function RowFor(products: seq<Record>, warehouses: seq<Record>, k: Key, quantity: int): InventoryRow
  {
    InventoryRow(k.productId, k.warehouseId, quantity,
      Find(products, k.productId), Find(warehouses, k.warehouseId))
  }

  function Enrich(levels: seq<Level>, products: seq<Record>, warehouses: seq<Record>): seq<InventoryRow>
  {
    seq(|levels|, i requires 0 <= i < |levels| =>
      RowFor(products, warehouses, levels[i].Pair(), levels[i].quantity))
  }

  /** `quantity > 0 || warehouseId`: rows without stock are shown only when filtering. */
  function Shown(filtering: bool): InventoryRow -> bool
  {
    (r: InventoryRow) => r.quantity > 0 || filtering
  }

  /** `inv.product && inv.product.teamId === teamId`. */
  function OfTeam(teamId: string): InventoryRow -> bool
  {
    (r: InventoryRow) => r.product.Some? && "teamId" in r.product.value.fields && r.product.value.fields["teamId"] == teamId
  }

  /** The GET inventory response, for the given query parameters. */
  function InventoryView(products: seq<Record>, warehouses: seq<Record>, transactions: seq<Movement>,
                         warehouseId: string, teamId: string): seq<InventoryRow>
  {
    var levels := OfWarehouse(Aggregated(transactions), warehouseId);
    var shown := Filter(Enrich(levels, products, warehouses), Shown(warehouseId != ""));
    if teamId != "" then Filter(shown, OfTeam(teamId)) else shown
  }

  function RowPair(r: InventoryRow): Key { r.Pair() }

  /**
   * The grouped levels after the warehouse filter: one per pair, each the
   * pair's stock, present exactly when the pair moved and lies in the
   * filtered warehouse (when one is given).
   */
  lemma FilteredLevelsSpec(transactions: seq<Movement>, warehouseId: string, l: Level)
    ensures DistinctBy(OfWarehouse(Aggregated(transactions), warehouseId), LevelPair)
    ensures l in OfWarehouse(Aggregated(transactions), warehouseId) <==>
      && Occurs(transactions, l.Pair())
      && l.quantity == StockOf(transactions, l.Pair())
      && (warehouseId != "" ==> l.warehouseId == warehouseId)
  {
    var all := Aggregated(transactions);
    AggregatedIsGrouping(transactions, l.Pair());
    assert DistinctBy(all, LevelPair);
    if warehouseId != "" {
      FilterDistinct(all, InWarehouse(warehouseId), LevelPair);
      FilterMembers(all, InWarehouse(warehouseId), l);
    }
    if l in all {
      var i :| 0 <= i < |all| && all[i] == l;
    }
    if Occurs(transactions, l.Pair()) && l.quantity == StockOf(transactions, l.Pair()) {
      var i :| 0 <= i < |all| && all[i].Pair() == l.Pair();
      assert all[i] == l;
    }
  }

  /** Enrichment keeps one row per level, with the level's pair and quantity. */
  lemma EnrichSpec(levels: seq<Level>, products: seq<Record>, warehouses: seq<Record>, row: InventoryRow)
    requires DistinctBy(levels, LevelPair)
    ensures DistinctBy(Enrich(levels, products, warehouses), RowPair)
    ensures row in Enrich(levels, products, warehouses) <==>
      Level(row.productId, row.warehouseId, row.quantity) in levels
      && row == RowFor(products, warehouses, row.Pair(), row.quantity)
  {
    var rows := Enrich(levels, products, warehouses);
    assert forall i :: 0 <= i < |rows| ==> RowPair(rows[i]) == LevelPair(levels[i]);
    if row in rows {
      var i :| 0 <= i < |rows| && rows[i] == row;
      assert levels[i] == Level(row.productId, row.warehouseId, row.quantity);
    }
    if Level(row.productId, row.warehouseId, row.quantity) in levels
      && row == RowFor(products, warehouses, row.Pair(), row.quantity) {
      var i :| 0 <= i < |levels| && levels[i] == Level(row.productId, row.warehouseId, row.quantity);
      assert rows[i] == row;
    }
  }

  /** The inventory view holds at most one row per pair. */
  lemma InventoryRowsDistinct(products: seq<Record>, warehouses: seq<Record>, transactions: seq<Movement>,
                              warehouseId: string, teamId: string)
    ensures DistinctBy(InventoryView(products, warehouses, transactions, warehouseId, teamId), RowPair)
  {
    var levels := OfWarehouse(Aggregated(transactions), warehouseId);
    var enriched := Enrich(levels, products, warehouses);
    var shown := Filter(enriched, Shown(warehouseId != ""));
    FilteredLevelsSpec(transactions, warehouseId, Level("", "", 0));
    EnrichSpec(levels, products, warehouses, InventoryRow("", "", 0, None, None));
    FilterDistinct(enriched, Shown(warehouseId != ""), RowPair);
    if teamId != "" {
      FilterDistinct(shown, OfTeam(teamId), RowPair);
    }
  }

  /**
   * A row is in the inventory view exactly when it is its pair's row (the
   * pair's stock, with its product and warehouse as found or None), the pair
   * moved, it lies in the filtered warehouse (when one is given) or has
   * positive stock (when none is), and its product belongs to the filtered
   * team (when one is given).
   */
  lemma InventoryViewSpec(products: seq<Record>, warehouses: seq<Record>, transactions: seq<Movement>,
                          warehouseId: string, teamId: string, row: InventoryRow)
    ensures row in InventoryView(products, warehouses, transactions, warehouseId, teamId) <==>
      && row == RowFor(products, warehouses, row.Pair(), StockOf(transactions, row.Pair()))
      && Occurs(transactions, row.Pair())
      && (if warehouseId == "" then row.quantity > 0 else row.warehouseId == warehouseId)
      && (teamId == "" || OfTeam(teamId)(row))
  {
    var levels := OfWarehouse(Aggregated(transactions), warehouseId);
    var enriched := Enrich(levels, products, warehouses);
    var shown := Filter(enriched, Shown(warehouseId != ""));
    var level := Level(row.productId, row.warehouseId, row.quantity);
    FilteredLevelsSpec(transactions, warehouseId, level);
    EnrichSpec(levels, products, warehouses, row);
    FilterMembers(enriched, Shown(warehouseId != ""), row);
    if teamId != "" {
      FilterMembers(shown, OfTeam(teamId), row);
    }
  }

  // ------------------------------------------------------------- listing

  function EnrichMovement(m: Movement, products: seq<Record>, warehouses: seq<Record>): Enriched
  {
    Enriched(m, Find(products, m.productId), Find(warehouses, m.warehouseId))
  }

  function EnrichAll(transactions: seq<Movement>, products: seq<Record>, warehouses: seq<Record>): seq<Enriched>
  {
    seq(|transactions|, i requires 0 <= i < |transactions| => EnrichMovement(transactions[i], products, warehouses))
  }

  /** The GET transactions response: every movement enriched, newest first. */
  function Listing(transactions: seq<Movement>, products: seq<Record>, warehouses: seq<Record>): seq<Enriched>
  {
    SortDesc(EnrichAll(transactions, products, warehouses), CreatedAt)
  }

  /**
   * The listing is newest first, holds every stored movement exactly as
   * often as it is stored, each with its product and warehouse as found, and
   * lists movements created at the same instant in the order they were stored.
   */
  lemma ListingSpec(transactions: seq<Movement>, products: seq<Record>, warehouses: seq<Record>, c: int)
    ensures SortedDesc(Listing(transactions, products, warehouses), CreatedAt)
    ensures multiset(Listing(transactions, products, warehouses)) == multiset(EnrichAll(transactions, products, warehouses))
    ensures forall e :: e in Listing(transactions, products, warehouses) ==>
      e.movement in transactions && e == EnrichMovement(e.movement, products, warehouses)
    ensures Filter(Listing(transactions, products, warehouses), At(CreatedAt, c))
         == Filter(EnrichAll(transactions, products, warehouses), At(CreatedAt, c))
  {
    var all := EnrichAll(transactions, products, warehouses);
    var listed := Listing(transactions, products, warehouses);
    forall e | e in listed
      ensures e.movement in transactions && e == EnrichMovement(e.movement, products, warehouses)
    {
      assert e in multiset(listed);
      assert e in multiset(all);
      var i :| 0 <= i < |all| && all[i] == e;
    }
    SortDescStable(all, CreatedAt, c);
  }

  // ------------------------------------------------------------- movements

  /** The movement a POST records (the server stores no serial number). */
  function NewMovement(request: MovementRequest, id: string, now: int): Movement
  {
    Movement(id, request.productId, request.warehouseId, request.kind, request.quantity,
      None, Some(request.notes), now)
  }

  /**
   * The server never checks the type: a movement of a type other than `in`
   * and `out` passes the gate unchecked yet is subtracted from its pair.
   */
  lemma UntypedMovementIsUngatedAndSubtracted(s: seq<Movement>, m: Movement)
    requires m.kind != "in" && m.kind != "out"
    ensures PassesGate(s, m)
    ensures StockOf(s + [m], KeyOf(m)) == StockOf(s, KeyOf(m)) - m.quantity
  {
    StockOfPush(s, m, KeyOf(m));
  }

  /**
   * Consequently the gate alone does not keep stock non-negative here: a
   * single movement of type "return" is accepted on an empty ledger and
   * leaves its pair at a negative stock.
   */
  lemma UntypedMovementCanOverdraw()
    ensures var m := Movement("t1", "p1", "w1", "return", 100, None, Some(""), 0);
      GatedHistory([m]) && StockOf([m], KeyOf(m)) == -100
  {
    var m := Movement("t1", "p1", "w1", "return", 100, None, Some(""), 0);
    assert [m][..0] == [];
  }

  // ----------------------------------------------------------------- store

  /** The server's data: the four arrays of the data file, edited in place. */
  class Store {
    var products: seq<Record>
    var warehouses: seq<Record>
    var transactions: seq<Movement>
    var teams: seq<Record>

    constructor (products: seq<Record>, warehouses: seq<Record>, transactions: seq<Movement>, teams: seq<Record>)
      ensures this.products == products && this.warehouses == warehouses
      ensures this.transactions == transactions && this.teams == teams
    {
      this.products := products;
      this.warehouses := warehouses;
      this.transactions := transactions;
      this.teams := teams;
    }

    function Records(c: Collection): seq<Record>
      reads this
    {
      match c
      case Warehouses => warehouses
      case Products => products
      case Teams => teams
    }

    /** POST: appends a new record with a fresh id; nothing else changes. */
    method Create(c: Collection, id: string, body: map<string, string>, now: string) returns (record: Record)
      modifies this
      ensures record == NewRecord(c, id, body, now) && record.id == id
      ensures Records(c) == old(Records(c)) + [record]
      ensures forall d :: d != c ==> Records(d) == old(Records(d))
      ensures transactions == old(transactions)
    {
      record := NewRecord(c, id, body, now);
      match c
      case Warehouses => warehouses := warehouses + [record];
      case Products => products := products + [record];
      case Teams => teams := teams + [record];
    }

    /**
     * PUT: a missing id is a 404 that changes nothing; otherwise only the
     * first record with that id is replaced, by its merge with the body, and
     * the collection keeps its length.
     */
    method Update(c: Collection, id: string, body: map<string, string>, now: string) returns (r: Result<Record>)
      modifies this
      ensures FindIndex(old(Records(c)), id) == -1 ==> r == Err(NotFound(c)) && Records(c) == old(Records(c))
      ensures FindIndex(old(Records(c)), id) != -1 ==>
        var i := FindIndex(old(Records(c)), id);
        r == Ok(Merge(old(Records(c))[i], body, now)) && Records(c) == old(Records(c))[i := r.value]
      ensures |Records(c)| == |old(Records(c))|
      ensures forall d :: d != c ==> Records(d) == old(Records(d))
      ensures transactions == old(transactions)
    {
      var records := Records(c);
      var index := FindIndex(records, id);
      if index == -1 {
        return Err(NotFound(c));
      }
      var updated := Merge(records[index], body, now);
      match c {
        case Warehouses => warehouses := warehouses[index := updated];
        case Products => products := products[index := updated];
        case Teams => teams := teams[index := updated];
      }
      r := Ok(updated);
    }

    /** DELETE: drops every record with the id; movements are left as they are. */
    method Delete(c: Collection, id: string)
      modifies this
      ensures Records(c) == RemoveId(old(Records(c)), id)
      ensures forall d :: d != c ==> Records(d) == old(Records(d))
      ensures transactions == old(transactions)
    {
      match c
      case Warehouses => warehouses := RemoveId(warehouses, id);
      case Products => products := RemoveId(products, id);
      case Teams => teams := RemoveId(teams, id);
    }

    /** The stock of a pair: the running sum over every stored movement. */
    method GetCurrentStock(productId: string, warehouseId: string) returns (stock: int)
      ensures stock == StockOf(transactions, Key(productId, warehouseId))
    {
      stock := 0;
      for i := 0 to |transactions|
        invariant stock == StockOf(transactions[..i], Key(productId, warehouseId))
      {
        var transaction := transactions[i];
        assert transactions[..i + 1][..i] == transactions[..i];
        if transaction.productId == productId && transaction.warehouseId == warehouseId {
          if transaction.kind == "in" {
            stock := stock + transaction.quantity;
          } else {
            stock := stock - transaction.quantity;
          }
        }
      }
      assert transactions[..|transactions|] == transactions;
    }

    /** GET inventory: group, then filter by warehouse, enrich, hide empty rows, filter by team. */
    method Inventory(warehouseId: string, teamId: string) returns (rows: seq<InventoryRow>)
      ensures rows == InventoryView(products, warehouses, transactions, warehouseId, teamId)
    {
      var levels := Aggregate(transactions);
      levels := OfWarehouse(levels, warehouseId);
      var enriched := Enrich(levels, products, warehouses);
      rows := Filter(enriched, Shown(warehouseId != ""));
      if teamId != "" {
        rows := Filter(rows, OfTeam(teamId));
      }
    }

    /**
     * POST a movement: a missing product is a 404, checked before a missing
     * warehouse (also a 404); an `out` larger than the current stock is a
     * 400; any failure leaves the movements unchanged. Otherwise exactly one
     * movement is appended and returned with its product and warehouse.
     */
    method PostTransaction(request: MovementRequest, id: string, now: int) returns (r: Result<Enriched>)
      modifies this`transactions
      ensures Find(products, request.productId).None? ==> r == Err(NotFound(Products))
      ensures Find(products, request.productId).Some? && Find(warehouses, request.warehouseId).None? ==>
        r == Err(NotFound(Warehouses))
      ensures r == Err(InsufficientStock) <==>
        && Find(products, request.productId).Some? && Find(warehouses, request.warehouseId).Some?
        && request.kind == "out"
        && StockOf(old(transactions), Key(request.productId, request.warehouseId)) < request.quantity
      ensures r.Ok? <==>
        && Find(products, request.productId).Some? && Find(warehouses, request.warehouseId).Some?
        && PassesGate(old(transactions), NewMovement(request, id, now))
      ensures r.Err? ==> transactions == old(transactions)
      ensures r.Ok? ==>
        && transactions == old(transactions) + [NewMovement(request, id, now)]
        && r.value == Enriched(NewMovement(request, id, now),
                               Find(products, request.productId), Find(warehouses, request.warehouseId))
      ensures r.Ok? && request.kind == "out" ==>
        StockOf(transactions, Key(request.productId, request.warehouseId)) >= 0
    {
      var product := Find(products, request.productId);
      var warehouse := Find(warehouses, request.warehouseId);
      if product.None? {
        return Err(NotFound(Products));
      }
      if warehouse.None? {
        return Err(NotFound(Warehouses));
      }
      if request.kind == "out" {
        var currentStock := GetCurrentStock(request.productId, request.warehouseId);
        if currentStock < request.quantity {
          return Err(InsufficientStock);
        }
      }
      var transaction := NewMovement(request, id, now);
      StockOfPush(transactions, transaction, KeyOf(transaction));
      transactions := transactions + [transaction];
      r := Ok(Enriched(transaction, product, warehouse));
    }
  }
}
