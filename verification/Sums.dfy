/** Sums over the rows of a table. A table is a sequence of rows in insertion order, so the
    recursion takes the newest row off the end and an appended row adds its own value. */
module Sums {

  function SumBy<T>(rows: seq<T>, f: T -> int): int {
    if rows == [] then 0 else SumBy(rows[..|rows| - 1], f) + f(rows[|rows| - 1])
  }

  lemma SumAppend<T>(rows: seq<T>, x: T, f: T -> int)
    ensures SumBy(rows + [x], f) == SumBy(rows, f) + f(x)
  {
    assert (rows + [x])[..|rows|] == rows;
  }

  lemma SumPair<T>(a: T, b: T, f: T -> int)
    ensures SumBy([a, b], f) == f(a) + f(b)
  {
    assert [a, b][..1] == [a];
    assert SumBy([a], f) == f(a);
  }

  lemma {:induction false} SumUpdate<T>(rows: seq<T>, i: nat, x: T, f: T -> int)
    requires i < |rows|
    ensures SumBy(rows[i := x], f) == SumBy(rows, f) - f(rows[i]) + f(x)
  {
    var n := |rows| - 1;
    if i == n {
      assert rows[i := x][..n] == rows[..n];
    } else {
      SumUpdate(rows[..n], i, x, f);
      assert rows[i := x][..n] == rows[..n][i := x];
    }
  }

  lemma {:induction false} SumSame<T>(rows: seq<T>, f: T -> int, g: T -> int)
    requires forall k :: 0 <= k < |rows| ==> f(rows[k]) == g(rows[k])
    ensures SumBy(rows, f) == SumBy(rows, g)
  {
    if rows != [] {
      var n := |rows| - 1;
      forall k | 0 <= k < n ensures f(rows[..n][k]) == g(rows[..n][k]) { assert rows[..n][k] == rows[k]; }
      SumSame(rows[..n], f, g);
    }
  }

  lemma {:induction false} SumBelow<T>(rows: seq<T>, f: T -> int, g: T -> int)
    requires forall k :: 0 <= k < |rows| ==> f(rows[k]) <= g(rows[k])
    ensures SumBy(rows, f) <= SumBy(rows, g)
  {
    if rows != [] {
      var n := |rows| - 1;
      forall k | 0 <= k < n ensures f(rows[..n][k]) <= g(rows[..n][k]) { assert rows[..n][k] == rows[k]; }
      SumBelow(rows[..n], f, g);
    }
  }

  /** A sum splits over a pointwise sum of integers. */
  lemma {:induction false} SumSplit<T>(rows: seq<T>, f: T -> int, g: T -> int, h: T -> int)
    requires forall k :: 0 <= k < |rows| ==> f(rows[k]) == g(rows[k]) + h(rows[k])
    ensures SumBy(rows, f) == SumBy(rows, g) + SumBy(rows, h)
  {
    if rows != [] {
      var n := |rows| - 1;
      forall k | 0 <= k < n ensures f(rows[..n][k]) == g(rows[..n][k]) + h(rows[..n][k]) {
        assert rows[..n][k] == rows[k];
      }
      SumSplit(rows[..n], f, g, h);
    }
  }

  lemma {:induction false} SumConcat<T>(a: seq<T>, b: seq<T>, f: T -> int)
    ensures SumBy(a + b, f) == SumBy(a, f) + SumBy(b, f)
  {
    if b == [] {
      assert a + b == a;
    } else {
      var n := |b| - 1;
      assert (a + b)[..|a| + n] == a + b[..n];
      SumConcat(a, b[..n], f);
    }
  }

  /** Rows that all contribute nothing add up to nothing. */
  lemma {:induction false} SumZero<T>(rows: seq<T>, f: T -> int)
    requires forall k :: 0 <= k < |rows| ==> f(rows[k]) == 0
    ensures SumBy(rows, f) == 0
  {
    if rows != [] {
      var n := |rows| - 1;
      forall k | 0 <= k < n ensures f(rows[..n][k]) == 0 { assert rows[..n][k] == rows[k]; }
      SumZero(rows[..n], f);
    }
  }

  /** A row's own value is bounded by the sum when no row is negative. */
  lemma {:induction false} SumAtLeast<T>(rows: seq<T>, i: nat, f: T -> int)
    requires i < |rows|
    requires forall k :: 0 <= k < |rows| ==> 0 <= f(rows[k])
    ensures 0 <= f(rows[i]) <= SumBy(rows, f)
  {
    var n := |rows| - 1;
    forall k | 0 <= k < n ensures 0 <= f(rows[..n][k]) { assert rows[..n][k] == rows[k]; }
    if i < n {
      SumAtLeast(rows[..n], i, f);
      assert rows[..n][i] == rows[i];
    } else {
      SumBelow(rows[..n], (_: T) => 0, f);
      SumZero(rows[..n], (_: T) => 0);
    }
  }
}
