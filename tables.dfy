/**
 * The table operations both servers' stores are built from: rows are kept
 * in insertion order, ids and timestamps grow with every insert, so an
 * `ORDER BY created_at DESC` query is the matching rows read from the end.
 */
module Tables {
  import opened Common

  /** `f` grows strictly from the first row to the last. */
  ghost predicate Ascending<R>(rows: seq<R>, f: R -> int) {
    forall i, j :: 0 <= i < j < |rows| ==> f(rows[i]) < f(rows[j])
  }

  /** `f` shrinks strictly from the first row to the last. */
  ghost predicate Descending<R>(rows: seq<R>, f: R -> int) {
    forall i, j :: 0 <= i < j < |rows| ==> f(rows[i]) > f(rows[j])
  }

  /** A serial column (ids, or the clock): ascending and below the next value to hand out. */
  ghost predicate Serial<R>(rows: seq<R>, f: R -> int, next: int) {
    && Ascending(rows, f)
    && forall i :: 0 <= i < |rows| ==> f(rows[i]) < next
  }

  /** No two rows share a key. */
  ghost predicate DistinctKeys<R, K>(rows: seq<R>, key: R -> K) {
    forall i, j :: 0 <= i < j < |rows| ==> key(rows[i]) != key(rows[j])
  }

  /** Appending a row stamped at least `next` keeps the column serial for any later `next'`. */
  lemma SerialAppend<R>(rows: seq<R>, f: R -> int, next: int, x: R, next': int)
    requires Serial(rows, f, next) && next <= f(x) < next'
    ensures Serial(rows + [x], f, next')
  {
    var rows' := rows + [x];
    forall i, j | 0 <= i < j < |rows'| ensures f(rows'[i]) < f(rows'[j]) {
      if j < |rows| {
        assert rows'[i] == rows[i] && rows'[j] == rows[j];
      } else {
        assert rows'[i] == rows[i];
      }
    }
  }

  /** Replacing a row by one with the same serial value keeps the column serial. */
  lemma SerialReplace<R>(rows: seq<R>, f: R -> int, next: int, i: nat, y: R, next': int)
    requires Serial(rows, f, next) && i < |rows| && f(y) == f(rows[i]) && next <= next'
    ensures Serial(rows[i := y], f, next')
  {
  }

  /** A serial column holds no value twice. */
  lemma SerialDistinct<R>(rows: seq<R>, f: R -> int, next: int)
    requires Serial(rows, f, next)
    ensures DistinctKeys(rows, f)
  {
  }

  /** Appending a row whose key no row holds keeps the keys distinct. */
  lemma DistinctAppend<R, K>(rows: seq<R>, key: R -> K, x: R)
    requires DistinctKeys(rows, key)
    requires forall i :: 0 <= i < |rows| ==> key(rows[i]) != key(x)
    ensures DistinctKeys(rows + [x], key)
  {
    var rows' := rows + [x];
    forall i, j | 0 <= i < j < |rows'| ensures key(rows'[i]) != key(rows'[j]) {
      assert rows'[i] == rows[i];
    }
  }

  /**
   * `SELECT * WHERE key = k ORDER BY created_at DESC` over rows kept in
   * insertion order: exactly the matching rows, the newest first.
   */
  function SelectNewestFirst<R(!new), K(==)>(rows: seq<R>, key: R -> K, k: K): (r: seq<R>)
    ensures forall x :: x in r <==> x in rows && key(x) == k
    ensures |r| <= |rows|
    decreases |rows|
  {
    if rows == [] then []
    else
      var last := rows[|rows| - 1];
      (if key(last) == k then [last] else []) + SelectNewestFirst(rows[..|rows| - 1], key, k)
  }

  /** A row inserted last comes first in the listing of its key, and nowhere else. */
  lemma SelectAfterInsert<R(!new), K>(rows: seq<R>, key: R -> K, x: R, k: K)
    ensures SelectNewestFirst(rows + [x], key, k)
         == (if key(x) == k then [x] else []) + SelectNewestFirst(rows, key, k)
  {
    assert (rows + [x])[..|rows|] == rows;
  }

  /** Read from the end, rows stamped in ascending order come out newest first. */
  lemma {:induction false} SelectNewestFirstDescending<R(!new), K>(rows: seq<R>, key: R -> K, k: K, stamp: R -> int)
    requires Ascending(rows, stamp)
    ensures Descending(SelectNewestFirst(rows, key, k), stamp)
    decreases |rows|
  {
    if rows != [] {
      var n := |rows| - 1;
      var prefix := rows[..n];
      assert Ascending(prefix, stamp);
      SelectNewestFirstDescending(prefix, key, k, stamp);
      var rest := SelectNewestFirst(prefix, key, k);
      forall x | x in rest ensures stamp(x) < stamp(rows[n]) {
        var i :| 0 <= i < n && prefix[i] == x;
      }
    }
  }

  /** Position of the first row whose key is `k`. */
  function IndexOfKey<R, K(==)>(rows: seq<R>, key: R -> K, k: K): (r: Option<nat>)
    ensures r.Some? ==> r.value < |rows| && key(rows[r.value]) == k
    ensures r.Some? ==> forall i :: 0 <= i < r.value ==> key(rows[i]) != k
    ensures r.None? ==> forall i :: 0 <= i < |rows| ==> key(rows[i]) != k
    decreases |rows|
  {
    if rows == [] then None
    else if key(rows[0]) == k then Some(0)
    else match IndexOfKey(rows[1..], key, k)
      case None => None
      case Some(i) => Some(i + 1)
  }

  /** `const [row] = SELECT * WHERE key = k`: the row with that key, or undefined. */
  function FindByKey<R(!new), K(==)>(rows: seq<R>, key: R -> K, k: K): (r: Option<R>)
    ensures r.Some? ==> r.value in rows && key(r.value) == k
    ensures r.None? <==> forall x :: x in rows ==> key(x) != k
    ensures r.Some? && DistinctKeys(rows, key) ==> forall x :: x in rows && key(x) == k ==> x == r.value
  {
    match IndexOfKey(rows, key, k)
    case None => None
    case Some(i) => Some(rows[i])
  }
}
