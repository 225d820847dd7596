/** Sums over table rows. */
module Totals {
  function Total<T>(rows: seq<T>, f: T -> int): int {
    if rows == [] then 0 else Total(rows[..|rows| - 1], f) + f(rows[|rows| - 1])
  }

  lemma TotalAppend<T>(rows: seq<T>, row: T, f: T -> int)
    ensures Total(rows + [row], f) == Total(rows, f) + f(row)
  {
    assert (rows + [row])[..|rows|] == rows;
  }

  lemma {:induction false} TotalUpdate<T>(rows: seq<T>, i: nat, row: T, f: T -> int)
    requires i < |rows|
    ensures Total(rows[i := row], f) == Total(rows, f) - f(rows[i]) + f(row)
  {
    var last := |rows| - 1;
    if i < last {
      assert rows[i := row][..last] == rows[..last][i := row];
      TotalUpdate(rows[..last], i, row, f);
    } else {
      assert rows[i := row][..last] == rows[..last];
    }
  }

  lemma {:induction false} TotalSame<T>(a: seq<T>, b: seq<T>, f: T -> int)
    requires |a| == |b| && forall i | 0 <= i < |a| :: f(a[i]) == f(b[i])
    ensures Total(a, f) == Total(b, f)
  {
    if a != [] {
      TotalSame(a[..|a| - 1], b[..|b| - 1], f);
    }
  }

  lemma {:induction false} TotalBounds<T>(rows: seq<T>, f: T -> int)
    requires forall r | r in rows :: f(r) >= 0
    ensures Total(rows, f) >= 0
    ensures forall i | 0 <= i < |rows| :: f(rows[i]) <= Total(rows, f)
  {
    if rows != [] {
      var last := |rows| - 1;
      TotalBounds(rows[..last], f);
      assert forall i | 0 <= i < last :: rows[..last][i] == rows[i];
    }
  }

  /** Two different rows that count leave a total of at least two. */
  lemma {:induction false} TotalPair<T>(rows: seq<T>, i: nat, j: nat, f: T -> int)
    requires i < j < |rows| && (forall r | r in rows :: f(r) >= 0)
    ensures f(rows[i]) + f(rows[j]) <= Total(rows, f)
  {
    var last := |rows| - 1;
    if j < last {
      TotalPair(rows[..last], i, j, f);
    } else {
      TotalBounds(rows[..last], f);
      assert rows[..last][i] == rows[i];
    }
  }

  lemma {:induction false} TotalZero<T>(rows: seq<T>, f: T -> int)
    requires forall r | r in rows :: f(r) == 0
    ensures Total(rows, f) == 0
  {
    if rows != [] {
      TotalZero(rows[..|rows| - 1], f);
    }
  }

  /** Changing one summand by one changes the sum by one. */
  lemma {:induction false} TotalOneMore<T>(rows: seq<T>, k: nat, f: T -> int, g: T -> int)
    requires k < |rows| && g(rows[k]) == f(rows[k]) + 1
    requires forall i | 0 <= i < |rows| && i != k :: g(rows[i]) == f(rows[i])
    ensures Total(rows, g) == Total(rows, f) + 1
  {
    var last := |rows| - 1;
    if k == last {
      TotalAgree(rows[..last], f, g);
    } else {
      TotalOneMore(rows[..last], k, f, g);
    }
  }

  lemma {:induction false} TotalAgree<T>(rows: seq<T>, f: T -> int, g: T -> int)
    requires forall i | 0 <= i < |rows| :: g(rows[i]) == f(rows[i])
    ensures Total(rows, g) == Total(rows, f)
  {
    if rows != [] {
      TotalAgree(rows[..|rows| - 1], f, g);
    }
  }

  lemma {:induction false} TotalAtMost<T>(rows: seq<T>, f: T -> int, g: T -> int)
    requires forall i | 0 <= i < |rows| :: f(rows[i]) <= g(rows[i])
    ensures Total(rows, f) <= Total(rows, g)
    ensures forall k | 0 <= k < |rows| && f(rows[k]) < g(rows[k]) :: Total(rows, f) < Total(rows, g)
  {
    if rows != [] {
      TotalAtMost(rows[..|rows| - 1], f, g);
      assert forall i | 0 <= i < |rows| - 1 :: rows[..|rows| - 1][i] == rows[i];
    }
  }

  lemma TotalEmpty<T>(f: T -> int)
    ensures Total([], f) == 0
  {
  }
}
