/**
 * The stock ledger shared by both back ends: stock movements ("transactions")
 * are only ever appended, and the stock of a (product, warehouse) pair is
 * never stored but recomputed as the sum of its `in` quantities minus the sum
 * of all its other quantities.
 *
 * Quantities are integers counting hundredths (the backend stores them as
 * two-decimal numbers); a movement's creation time is an integer instant, the
 * value both listings compare.
 */
module Ledger {
  import opened Seqs
  import opened Wrappers

  /** A product, warehouse or team: its id and its other attributes, as text. */
  datatype Record = Record(id: string, fields: map<string, string>)

  /** One stock movement. `kind` is the movement's type, normally "in" or "out". */
  datatype Movement = Movement(
    id: string,
    productId: string,
    warehouseId: string,
    kind: string,
    quantity: int,
    serialNumber: Option<string>,
    notes: Option<string>,
    createdAt: int)

  /** A movement with its product and warehouse, either of which may be unresolved. */
  datatype Enriched = Enriched(movement: Movement, product: Option<Record>, warehouse: Option<Record>)

  /** The instant both listings order by. */
  function CreatedAt(e: Enriched): int { e.movement.createdAt }

  /** The grouping key of the inventory: a (product, warehouse) pair. */
  datatype Key = Key(productId: string, warehouseId: string)

  /** One inventory level: the stock of one pair. */
  datatype Level = Level(productId: string, warehouseId: string, quantity: int)
  {
    function Pair(): Key { Key.Key(productId, warehouseId) }
  }

  /** A level's pair, as a function value. */
  function LevelPair(l: Level): Key { l.Pair() }

  function KeyOf(m: Movement): Key
  {
    Key(m.productId, m.warehouseId)
  }

  /** What a movement does to its pair's stock: `in` adds, every other type subtracts. */
  function Signed(m: Movement): int
  {
    if m.kind == "in" then m.quantity else -m.quantity
  }

  /** The stock of pair `k` after the movements `s`, accumulated front to back. */
  function StockOf(s: seq<Movement>, k: Key): int
  {
    if s == [] then 0
    else StockOf(s[..|s| - 1], k) + (if KeyOf(s[|s| - 1]) == k then Signed(s[|s| - 1]) else 0)
  }

  /** Some movement of `s` is on pair `k`. */
  predicate Occurs(s: seq<Movement>, k: Key)
  {
    exists i :: 0 <= i < |s| && KeyOf(s[i]) == k
  }

  /** Absence is zero: a pair that never moved has stock 0. */
  lemma {:induction false} StockOfAbsent(s: seq<Movement>, k: Key)
    requires !Occurs(s, k)
    ensures StockOf(s, k) == 0
  {
    if s != [] {
      var front := s[..|s| - 1];
      assert !Occurs(front, k) by {
        forall i | 0 <= i < |front| ensures KeyOf(front[i]) != k {
          assert front[i] == s[i];
        }
      }
      StockOfAbsent(front, k);
    }
  }

  /** Conservation: the stock after `a` then `b` is the stock of `a` plus that of `b`. */
  lemma {:induction false} StockOfAppend(a: seq<Movement>, b: seq<Movement>, k: Key)
    ensures StockOf(a + b, k) == StockOf(a, k) + StockOf(b, k)
  {
    if b == [] {
      assert a + b == a;
    } else {
      var b' := b[..|b| - 1];
      assert (a + b)[..|a + b| - 1] == a + b';
      StockOfAppend(a, b', k);
    }
  }

  /** Appending one movement changes only its own pair's stock, by its signed quantity. */
  lemma StockOfPush(s: seq<Movement>, m: Movement, k: Key)
    ensures StockOf(s + [m], k) == StockOf(s, k) + (if KeyOf(m) == k then Signed(m) else 0)
  {
    assert (s + [m])[..|s|] == s;
  }

  /** The test "is on pair `k`". */
  function OnKey(k: Key): Movement -> bool
  {
    (m: Movement) => KeyOf(m) == k
  }

  /** Movements on other pairs never affect a pair's stock. */
  lemma {:induction false} StockOfOwnMovements(s: seq<Movement>, k: Key)
    ensures StockOf(s, k) == StockOf(Filter(s, OnKey(k)), k)
  {
    if s != [] {
      var front := s[..|s| - 1];
      var last := s[|s| - 1];
      var own := Filter(front, OnKey(k));
      StockOfOwnMovements(front, k);
      if KeyOf(last) == k {
        assert Filter(s, OnKey(k)) == own + [last];
        assert (own + [last])[..|own + [last]| - 1] == own;
      } else {
        assert Filter(s, OnKey(k)) == own;
      }
    }
  }

  /** Sum of the quantities of `s`. */
  function Total(s: seq<Movement>): int
  {
    if s == [] then 0 else Total(s[..|s| - 1]) + s[|s| - 1].quantity
  }

  /** The test "is an `in` movement on pair `k`". */
  function InOn(k: Key): Movement -> bool
  {
    (m: Movement) => KeyOf(m) == k && m.kind == "in"
  }

  /** The test "is a movement of any other type on pair `k`". */
  function OtherOn(k: Key): Movement -> bool
  {
    (m: Movement) => KeyOf(m) == k && m.kind != "in"
  }

  /**
   * The stock of a pair is the sum of its `in` quantities minus the sum of
   * the quantities of all its movements of any other type.
   */
  lemma {:induction false} StockIsInMinusOther(s: seq<Movement>, k: Key)
    ensures StockOf(s, k) == Total(Filter(s, InOn(k))) - Total(Filter(s, OtherOn(k)))
  {
    if s != [] {
      var front := s[..|s| - 1];
      var last := s[|s| - 1];
      StockIsInMinusOther(front, k);
      var ins := Filter(front, InOn(k));
      var others := Filter(front, OtherOn(k));
      if InOn(k)(last) {
        assert Filter(s, InOn(k)) == ins + [last];
        assert Filter(s, OtherOn(k)) == others;
        assert (ins + [last])[..|ins + [last]| - 1] == ins;
      } else if OtherOn(k)(last) {
        assert Filter(s, InOn(k)) == ins;
        assert Filter(s, OtherOn(k)) == others + [last];
        assert (others + [last])[..|others + [last]| - 1] == others;
      } else {
        assert Filter(s, InOn(k)) == ins;
        assert Filter(s, OtherOn(k)) == others;
      }
    }
  }

  /** The distinct pairs of `s`, in the order of their first movement. */
  function DistinctKeys(s: seq<Movement>): (r: seq<Key>)
    ensures forall i, j :: 0 <= i < j < |r| ==> r[i] != r[j]
  {
    if s == [] then []
    else
      var d := DistinctKeys(s[..|s| - 1]);
      var k := KeyOf(s[|s| - 1]);
      if k in d then d else d + [k]
  }

  /** A pair is listed exactly when some movement is on it. */
  lemma {:induction false} DistinctKeysMembers(s: seq<Movement>, k: Key)
    ensures k in DistinctKeys(s) <==> Occurs(s, k)
  {
    if s != [] {
      var front := s[..|s| - 1];
      DistinctKeysMembers(front, k);
      if Occurs(front, k) {
        var i :| 0 <= i < |front| && KeyOf(front[i]) == k;
        assert KeyOf(s[i]) == k;
      }
      if Occurs(s, k) && KeyOf(s[|s| - 1]) != k {
        var i :| 0 <= i < |s| && KeyOf(s[i]) == k;
        assert KeyOf(front[i]) == k;
      }
    }
  }

  /**
   * The inventory as grouped from the movements: one level per pair that
   * moved, in the order of the pairs' first movements.
   */
  function Aggregated(s: seq<Movement>): seq<Level>
  {
    var keys := DistinctKeys(s);
    seq(|keys|, i requires 0 <= i < |keys| =>
      Level(keys[i].productId, keys[i].warehouseId, StockOf(s, keys[i])))
  }

  /**
   * Grouping is right: no pair twice, every level holds its pair's stock,
   * and a pair has a level exactly when it moved.
   */
  lemma AggregatedIsGrouping(s: seq<Movement>, k: Key)
    ensures forall i, j :: 0 <= i < j < |Aggregated(s)| ==> Aggregated(s)[i].Pair() != Aggregated(s)[j].Pair()
    ensures forall i :: 0 <= i < |Aggregated(s)| ==>
      Aggregated(s)[i].quantity == StockOf(s, Aggregated(s)[i].Pair())
    ensures (exists i :: 0 <= i < |Aggregated(s)| && Aggregated(s)[i].Pair() == k) <==> Occurs(s, k)
  {
    var keys := DistinctKeys(s);
    var levels := Aggregated(s);
    assert forall i :: 0 <= i < |levels| ==> levels[i].Pair() == keys[i];
    DistinctKeysMembers(s, k);
  }

  /**
   * The stock gate of both back ends: an `out` is accepted only when the
   * pair's current stock covers its quantity; no other type is checked.
   */
  predicate PassesGate(s: seq<Movement>, m: Movement)
  {
    m.kind == "out" ==> StockOf(s, KeyOf(m)) >= m.quantity
  }

  /** Every movement passed the gate against the movements recorded before it. */
  predicate GatedHistory(s: seq<Movement>)
  {
    forall i :: 0 <= i < |s| ==> PassesGate(s[..i], s[i])
  }

  /** The type is `in` or `out` and the quantity is positive. */
  predicate WellFormed(m: Movement)
  {
    (m.kind == "in" || m.kind == "out") && m.quantity > 0
  }

  /**
   * Non-negativity under the gate: when every movement is an `in` or `out`
   * with a positive quantity and every one passed the gate, no pair's stock
   * is negative.
   */
  lemma {:induction false} GatedHistoryNonNegative(s: seq<Movement>, k: Key)
    requires GatedHistory(s)
    requires forall i :: 0 <= i < |s| ==> WellFormed(s[i])
    ensures StockOf(s, k) >= 0
  {
    if s != [] {
      var front := s[..|s| - 1];
      var last := s[|s| - 1];
      assert GatedHistory(front) by {
        forall i | 0 <= i < |front| ensures PassesGate(front[..i], front[i]) {
          assert front[..i] == s[..i] && front[i] == s[i];
        }
      }
      GatedHistoryNonNegative(front, k);
      assert PassesGate(s[..|s| - 1], last);
      if last.kind == "out" && KeyOf(last) == k {
        assert StockOf(front, k) >= last.quantity;
      }
    }
  }

  /** Appending a movement that passes the gate keeps a gated history gated. */
  lemma GatedHistoryAppend(s: seq<Movement>, m: Movement)
    requires GatedHistory(s) && PassesGate(s, m)
    ensures GatedHistory(s + [m])
  {
    var s' := s + [m];
    forall i | 0 <= i < |s'| ensures PassesGate(s'[..i], s'[i]) {
      if i < |s| {
        assert s'[..i] == s[..i] && s'[i] == s[i];
      } else {
        assert s'[..i] == s;
      }
    }
  }
}
