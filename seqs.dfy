/**
 * Sequence helpers shared by both ledger implementations and the client:
 * an order-preserving filter (JavaScript's `Array.prototype.filter`, a SQL
 * WHERE clause, a PHP `continue` in a `foreach`) and a stable
 * newest-first sort (JavaScript's `Array.prototype.sort`, which is stable,
 * with a comparator that subtracts timestamps).
 */
module Seqs {

  /** Keeps the elements satisfying `keep`, in their original order. */
  function Filter<T>(s: seq<T>, keep: T -> bool): (r: seq<T>)
    ensures |r| <= |s|
  {
    if s == [] then []
    else Filter(s[..|s| - 1], keep) + (if keep(s[|s| - 1]) then [s[|s| - 1]] else [])
  }

  /** An element is kept exactly when it occurs in `s` and passes the test. */
  lemma {:induction false} FilterMembers<T>(s: seq<T>, keep: T -> bool, x: T)
    ensures x in Filter(s, keep) <==> x in s && keep(x)
  {
    if s != [] {
      var front := s[..|s| - 1];
      FilterMembers(front, keep, x);
      assert s == front + [s[|s| - 1]];
    }
  }

  /** Filtering distributes over concatenation: the filter never reorders. */
  lemma {:induction false} FilterAppend<T>(a: seq<T>, b: seq<T>, keep: T -> bool)
    ensures Filter(a + b, keep) == Filter(a, keep) + Filter(b, keep)
  {
    if b == [] {
      assert a + b == a;
    } else {
      var b' := b[..|b| - 1];
      assert (a + b)[..|a + b| - 1] == a + b';
      FilterAppend(a, b', keep);
    }
  }

  /** The front element, in terms of the back-to-front definition. */
  lemma {:induction false} FilterCons<T>(x: T, s: seq<T>, keep: T -> bool)
    ensures Filter([x] + s, keep) == (if keep(x) then [x] else []) + Filter(s, keep)
  {
    FilterAppend([x], s, keep);
    assert [x][..0] == [];
  }

  /** A filter that keeps everything is the identity. */
  lemma {:induction false} FilterKeepsAll<T>(s: seq<T>, keep: T -> bool)
    requires forall x :: x in s ==> keep(x)
    ensures Filter(s, keep) == s
  {
    if s != [] {
      var front := s[..|s| - 1];
      forall x | x in front ensures keep(x) {
        var i :| 0 <= i < |front| && front[i] == x;
        assert s[i] == x;
      }
      FilterKeepsAll(front, keep);
      assert keep(s[|s| - 1]);
    }
  }

  /** Filtering twice with the same test is filtering once. */
  lemma {:induction false} FilterIdempotent<T>(s: seq<T>, keep: T -> bool)
    ensures Filter(Filter(s, keep), keep) == Filter(s, keep)
  {
    forall x | x in Filter(s, keep) ensures keep(x) {
      FilterMembers(s, keep, x);
    }
    FilterKeepsAll(Filter(s, keep), keep);
  }

  /** `s` is ordered by `stamp`, largest (newest) first. */
  predicate SortedDesc<T>(s: seq<T>, stamp: T -> int)
  {
    forall i, j :: 0 <= i < j < |s| ==> stamp(s[i]) >= stamp(s[j])
  }

  /**
   * Puts `x` after every element whose stamp is at least its own and before
   * the first one with a smaller stamp: a later element with an equal stamp
   * stays after the earlier ones.
   */
  function Insert<T>(x: T, s: seq<T>, stamp: T -> int): (r: seq<T>)
    ensures multiset(r) == multiset(s) + multiset{x}
  {
    if s == [] then [x]
    else if stamp(s[0]) < stamp(x) then [x] + s
    else
      assert s == [s[0]] + s[1..];
      [s[0]] + Insert(x, s[1..], stamp)
  }

  /** Inserting into a newest-first sequence keeps it newest first. */
  lemma {:induction false} InsertSorted<T>(x: T, s: seq<T>, stamp: T -> int)
    requires SortedDesc(s, stamp)
    ensures SortedDesc(Insert(x, s, stamp), stamp)
  {
    if s != [] && stamp(s[0]) >= stamp(x) {
      var rest := Insert(x, s[1..], stamp);
      InsertSorted(x, s[1..], stamp);
      forall i | 0 <= i < |rest| ensures stamp(s[0]) >= stamp(rest[i]) {
        assert rest[i] in multiset(rest);
        if rest[i] != x {
          assert rest[i] in multiset(s[1..]);
          var j :| 0 <= j < |s[1..]| && s[1..][j] == rest[i];
          assert s[j + 1] == rest[i];
        }
      }
    }
  }

  /** Stable sort, newest first, inserting the elements in their stored order. */
  function SortDesc<T>(s: seq<T>, stamp: T -> int): (r: seq<T>)
    ensures multiset(r) == multiset(s)
    ensures SortedDesc(r, stamp)
  {
    if s == [] then []
    else
      assert s == s[..|s| - 1] + [s[|s| - 1]];
      var front := SortDesc(s[..|s| - 1], stamp);
      InsertSorted(s[|s| - 1], front, stamp);
      Insert(s[|s| - 1], front, stamp)
  }

  /** The test "has stamp `c`", as one named function value. */
  function At<T>(stamp: T -> int, c: int): T -> bool
  {
    y => stamp(y) == c
  }

  /** The front element, for a non-empty sequence. */
  lemma FilterFront<T>(s: seq<T>, keep: T -> bool)
    requires s != []
    ensures Filter(s, keep) == (if keep(s[0]) then [s[0]] else []) + Filter(s[1..], keep)
  {
    FilterCons(s[0], s[1..], keep);
    assert [s[0]] + s[1..] == s;
  }

  lemma ConcatAssociative<T>(a: seq<T>, b: seq<T>, c: seq<T>)
    ensures a + (b + c) == (a + b) + c
  {
  }

  /** In a newest-first sequence led by an element older than `c`, nothing has stamp `c`. */
  lemma NoneAtAfterOlderHead<T>(s: seq<T>, stamp: T -> int, c: int)
    requires SortedDesc(s, stamp) && s != [] && stamp(s[0]) < c
    ensures Filter(s, At(stamp, c)) == []
  {
    forall y | y in s ensures !At(stamp, c)(y) {
      var i :| 0 <= i < |s| && s[i] == y;
      assert stamp(s[0]) >= stamp(s[i]);
    }
    FilterKeepsNone(s, At(stamp, c));
  }

  /** Inserting `x` adds it after all the elements with its stamp. */
  lemma {:induction false} InsertStable<T>(x: T, s: seq<T>, stamp: T -> int, c: int)
    requires SortedDesc(s, stamp)
    ensures Filter(Insert(x, s, stamp), At(stamp, c))
         == Filter(s, At(stamp, c)) + (if stamp(x) == c then [x] else [])
  {
    var at := At(stamp, c);
    var tail := if stamp(x) == c then [x] else [];
    if s == [] {
      assert Insert(x, s, stamp) == [] + [x];
    } else if stamp(s[0]) < stamp(x) {
      assert Insert(x, s, stamp) == [x] + s;
      FilterCons(x, s, at);
      if stamp(x) == c {
        NoneAtAfterOlderHead(s, stamp, c);
      }
    } else {
      assert SortedDesc(s[1..], stamp) by {
        forall i, j | 0 <= i < j < |s[1..]| ensures stamp(s[1..][i]) >= stamp(s[1..][j]) {
          assert s[1..][i] == s[i + 1] && s[1..][j] == s[j + 1];
        }
      }
      InsertStable(x, s[1..], stamp, c);
      InsertBehindHead(x, s, stamp, at);
      FilterFront(s, at);
      var head := if at(s[0]) then [s[0]] else [];
      ConcatAssociative(head, Filter(s[1..], at), tail);
    }
  }

  /** When `x` goes behind the head, the head's contribution to a filter comes first. */
  lemma InsertBehindHead<T>(x: T, s: seq<T>, stamp: T -> int, keep: T -> bool)
    requires s != [] && stamp(s[0]) >= stamp(x)
    ensures Filter(Insert(x, s, stamp), keep)
         == (if keep(s[0]) then [s[0]] else []) + Filter(Insert(x, s[1..], stamp), keep)
  {
    var r := Insert(x, s, stamp);
    assert r != [] && r[0] == s[0] && r[1..] == Insert(x, s[1..], stamp);
    FilterFront(r, keep);
  }

  /** A filter that keeps nothing yields the empty sequence. */
  lemma {:induction false} FilterKeepsNone<T>(s: seq<T>, keep: T -> bool)
    requires forall x :: x in s ==> !keep(x)
    ensures Filter(s, keep) == []
  {
    if s != [] {
      FilterKeepsNone(s[..|s| - 1], keep);
    }
  }

  /**
   * Stability: the elements sharing one stamp come out in the order in which
   * they were stored.
   */
  lemma {:induction false} SortDescStable<T>(s: seq<T>, stamp: T -> int, c: int)
    ensures Filter(SortDesc(s, stamp), At(stamp, c)) == Filter(s, At(stamp, c))
  {
    if s != [] {
      var front := s[..|s| - 1];
      SortDescStable(front, stamp, c);
      InsertStable(s[|s| - 1], SortDesc(front, stamp), stamp, c);
    }
  }

  /** The keys of the elements of `s` are pairwise distinct. */
  ghost predicate DistinctBy<T, K>(s: seq<T>, key: T -> K)
  {
    forall i, j :: 0 <= i < j < |s| ==> key(s[i]) != key(s[j])
  }

  /** A filter keeps distinct keys distinct. */
  lemma {:induction false} FilterDistinct<T, K>(s: seq<T>, keep: T -> bool, key: T -> K)
    requires DistinctBy(s, key)
    ensures DistinctBy(Filter(s, keep), key)
  {
    if s != [] {
      var front := s[..|s| - 1];
      var last := s[|s| - 1];
      FilterDistinct(front, keep, key);
      var f := Filter(front, keep);
      forall i | 0 <= i < |f| ensures key(f[i]) != key(last) {
        FilterMembers(front, keep, f[i]);
        var j :| 0 <= j < |front| && front[j] == f[i];
        assert s[j] == front[j];
      }
    }
  }

  /** Filtering by a test and then by a stricter one is filtering by the stricter one. */
  lemma {:induction false} FilterNarrow<T>(s: seq<T>, wide: T -> bool, narrow: T -> bool)
    requires forall x :: narrow(x) ==> wide(x)
    ensures Filter(Filter(s, wide), narrow) == Filter(s, narrow)
  {
    if s != [] {
      var front := s[..|s| - 1];
      var last := s[|s| - 1];
      FilterNarrow(front, wide, narrow);
      var f := Filter(front, wide);
      if wide(last) {
        assert Filter(s, wide) == f + [last];
        assert (f + [last])[..|f + [last]| - 1] == f;
      } else {
        assert !narrow(last);
        assert Filter(s, wide) == f;
      }
    }
  }
}
