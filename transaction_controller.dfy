/**
 * The relational backend's movement endpoints: listing, and storing a new
 * movement after validating the request and checking stock. The database is
 * modelled as a class holding the products and warehouses by id and the
 * movements in insertion order; each request is one atomic step.
 */
module TransactionController {
  import opened Seqs
  import opened Wrappers
  import opened Ledger

  /** A store request as received; None is a field that is missing or null. */
  datatype StoreRequest = StoreRequest(
    productId: Option<string>,
    warehouseId: Option<string>,
    kind: Option<string>,
    quantity: Option<int>,
    serialNumber: Option<string>,
    notes: Option<string>)

  /** 422 with the names of the fields whose rules failed, or 400 for a refused `out`. */
  datatype StoreError = Invalid(fields: seq<string>) | InsufficientStock

  datatype Result<T> = Ok(value: T) | Err(error: StoreError)

  // ------------------------------------------------------------ validation

  predicate IsHex(c: char)
  {
    '0' <= c <= '9' || 'a' <= c <= 'f' || 'A' <= c <= 'F'
  }

  /** The `uuid` rule: 8-4-4-4-12 hexadecimal digits separated by hyphens. */
  predicate IsUuid(s: string)
  {
    |s| == 36 && forall i :: 0 <= i < 36 ==> if i in {8, 13, 18, 23} then s[i] == '-' else IsHex(s[i])
  }

  /** `required|uuid|exists:<table>,id`. */
  predicate ReferenceOk(id: Option<string>, table: map<string, Record>)
  {
    id.Some? && IsUuid(id.value) && id.value in table
  }

  /** `required|in:in,out`. */
  predicate KindOk(kind: Option<string>)
  {
    kind == Some("in") || kind == Some("out")
  }

  /** `required|numeric|min:0.01`, in hundredths. */
  predicate QuantityOk(quantity: Option<int>)
  {
    quantity.Some? && quantity.value >= 1
  }

  /** `nullable|string|max:255`. */
  predicate SerialNumberOk(serialNumber: Option<string>)
  {
    serialNumber.None? || |serialNumber.value| <= 255
  }

  /** The fields whose rules fail, in the order the rules are listed; `notes` never fails. */
  function Failures(request: StoreRequest, products: map<string, Record>, warehouses: map<string, Record>): seq<string>
  {
    (if ReferenceOk(request.productId, products) then [] else ["product_id"])
    + (if ReferenceOk(request.warehouseId, warehouses) then [] else ["warehouse_id"])
    + (if KindOk(request.kind) then [] else ["type"])
    + (if QuantityOk(request.quantity) then [] else ["quantity"])
    + (if SerialNumberOk(request.serialNumber) then [] else ["serial_number"])
  }

  /** The movement created from a validated request. */
  function Created(request: StoreRequest, id: string, now: int): Movement
    requires request.productId.Some? && request.warehouseId.Some?
    requires request.kind.Some? && request.quantity.Some?
  {
    Movement(id, request.productId.value, request.warehouseId.value, request.kind.value,
      request.quantity.value, request.serialNumber, request.notes, now)
  }

  // --------------------------------------------------------- current stock

  /** `SUM(CASE WHEN type = "in" THEN quantity ELSE -quantity END)`, which is NULL over no rows. */
  function SignedSum(rows: seq<Movement>): Option<int>
  {
    if rows == [] then None
    else
      var last := Signed(rows[|rows| - 1]);
      match SignedSum(rows[..|rows| - 1])
      case None => Some(last)
      case Some(sum) => Some(sum + last)
  }

  /** `getCurrentStock`: the sum over the pair's rows, or 0 (`?? 0`) when the sum is NULL. */
  function CurrentStock(transactions: seq<Movement>, productId: string, warehouseId: string): int
  {
    match SignedSum(Filter(transactions, OnKey(Key(productId, warehouseId))))
    case None => 0
    case Some(stock) => stock
  }

  /** Over rows that all belong to pair `k`, the SQL sum is NULL exactly when there are none, and otherwise the stock. */
  lemma {:induction false} SignedSumIsStock(rows: seq<Movement>, k: Key)
    requires forall i :: 0 <= i < |rows| ==> KeyOf(rows[i]) == k
    ensures SignedSum(rows).None? <==> rows == []
    ensures SignedSum(rows).Some? ==> SignedSum(rows).value == StockOf(rows, k)
  {
    if rows != [] {
      var front := rows[..|rows| - 1];
      SignedSumIsStock(front, k);
      if front == [] {
        assert StockOf(front, k) == 0;
      }
    }
  }

  /**
   * The backend's current stock is the ledger stock of the pair, and it is 0
   * because the SQL sum is NULL when the pair has no movements.
   */
  lemma CurrentStockIsStock(transactions: seq<Movement>, productId: string, warehouseId: string)
    ensures CurrentStock(transactions, productId, warehouseId) == StockOf(transactions, Key(productId, warehouseId))
    ensures !Occurs(transactions, Key(productId, warehouseId)) ==>
      SignedSum(Filter(transactions, OnKey(Key(productId, warehouseId)))) == None
  {
    var k := Key(productId, warehouseId);
    var own := Filter(transactions, OnKey(k));
    forall i | 0 <= i < |own| ensures KeyOf(own[i]) == k {
      FilterMembers(transactions, OnKey(k), own[i]);
    }
    SignedSumIsStock(own, k);
    StockOfOwnMovements(transactions, k);
    if !Occurs(transactions, k) {
      StockOfAbsent(transactions, k);
    }
  }

  // ---------------------------------------------------------------- listing

  function Load(m: Movement, products: map<string, Record>, warehouses: map<string, Record>): Enriched
  {
    Enriched(m,
      if m.productId in products then Some(products[m.productId]) else None,
      if m.warehouseId in warehouses then Some(warehouses[m.warehouseId]) else None)
  }

  function LoadAll(transactions: seq<Movement>, products: map<string, Record>, warehouses: map<string, Record>): seq<Enriched>
  {
    seq(|transactions|, i requires 0 <= i < |transactions| => Load(transactions[i], products, warehouses))
  }

  /** `index`: every movement with its product and warehouse, ordered by creation time, newest first. */
  function Index(transactions: seq<Movement>, products: map<string, Record>, warehouses: map<string, Record>): seq<Enriched>
  {
    SortDesc(LoadAll(transactions, products, warehouses), CreatedAt)
  }

  /**
   * The listing is newest first and holds every stored movement exactly as
   * often as it is stored, each with its product and warehouse loaded.
   */
  lemma IndexSpec(transactions: seq<Movement>, products: map<string, Record>, warehouses: map<string, Record>)
    ensures SortedDesc(Index(transactions, products, warehouses), CreatedAt)
    ensures multiset(Index(transactions, products, warehouses)) == multiset(LoadAll(transactions, products, warehouses))
    ensures forall e :: e in Index(transactions, products, warehouses) ==>
      e.movement in transactions && e == Load(e.movement, products, warehouses)
  {
    var all := LoadAll(transactions, products, warehouses);
    var listed := Index(transactions, products, warehouses);
    forall e | e in listed
      ensures e.movement in transactions && e == Load(e.movement, products, warehouses)
    {
      assert e in multiset(listed);
      assert e in multiset(all);
      var i :| 0 <= i < |all| && all[i] == e;
    }
  }

  // --------------------------------------------------------------- database

  class Database {
    var products: map<string, Record>
    var warehouses: map<string, Record>
    var transactions: seq<Movement>

    /**
     * Every stored movement is an `in` or `out` with a positive quantity and
     * passed the stock gate when it was stored.
     */
    ghost predicate Valid()
      reads this
    {
      && (forall i :: 0 <= i < |transactions| ==> WellFormed(transactions[i]))
      && GatedHistory(transactions)
    }

    constructor (products: map<string, Record>, warehouses: map<string, Record>)
      ensures this.products == products && this.warehouses == warehouses
      ensures transactions == [] && Valid()
    {
      this.products := products;
      this.warehouses := warehouses;
      transactions := [];
    }

    /**
     * `store`: a request failing any rule is refused with every failing
     * field; an `out` larger than the current stock is refused with 400; a
     * refusal stores nothing. Otherwise exactly one movement with the
     * validated fields is appended and returned (201).
     */
    method Store(request: StoreRequest, id: string, now: int) returns (r: Result<Movement>)
      modifies this`transactions
      ensures Failures(request, products, warehouses) != [] ==>
        r == Err(Invalid(Failures(request, products, warehouses)))
      ensures r == Err(InsufficientStock) <==>
        && Failures(request, products, warehouses) == []
        && request.kind == Some("out")
        && CurrentStock(old(transactions), request.productId.value, request.warehouseId.value) < request.quantity.value
      ensures r.Ok? <==>
        && Failures(request, products, warehouses) == []
        && !(request.kind == Some("out") &&
             CurrentStock(old(transactions), request.productId.value, request.warehouseId.value) < request.quantity.value)
      ensures r.Err? ==> transactions == old(transactions)
      ensures r.Ok? ==>
        && Failures(request, products, warehouses) == []
        && r.value == Created(request, id, now)
        && transactions == old(transactions) + [r.value]
      ensures r.Ok? ==>
        && WellFormed(r.value) && PassesGate(old(transactions), r.value)
        && r.value.productId in products && r.value.warehouseId in warehouses
      ensures r.Ok? && r.value.kind == "out" ==> StockOf(transactions, KeyOf(r.value)) >= 0
      ensures old(Valid()) ==> Valid()
    {
      var failures := Failures(request, products, warehouses);
      if failures != [] {
        return Err(Invalid(failures));
      }
      var productId, warehouseId := request.productId.value, request.warehouseId.value;
      var kind, quantity := request.kind.value, request.quantity.value;
      if kind == "out" {
        var currentStock := CurrentStock(transactions, productId, warehouseId);
        if currentStock < quantity {
          return Err(InsufficientStock);
        }
      }
      var transaction := Created(request, id, now);
      CurrentStockIsStock(transactions, productId, warehouseId);
      StockOfPush(transactions, transaction, KeyOf(transaction));
      if GatedHistory(transactions) {
        GatedHistoryAppend(transactions, transaction);
      }
      transactions := transactions + [transaction];
      r := Ok(transaction);
    }
  }

  /** In a valid database no pair's stock is negative. */
  lemma ValidStockNonNegative(db: Database, k: Key)
    requires db.Valid()
    ensures StockOf(db.transactions, k) >= 0
  {
    GatedHistoryNonNegative(db.transactions, k);
  }
}
