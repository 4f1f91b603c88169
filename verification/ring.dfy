/**
  The circular scan table of test.py as a value: a fixed number of rows,
  written one at a time at an index that advances modulo the number of rows.
  `TableAfter(init, h)` is the table obtained from `init` by appending the
  rows of `h` in order, starting at index 0; the lemmas say which appended
  row each slot holds.
*/
module Ring {

  /** Rotate `t` left by `s`: the row at index `s` comes first. */
  function Rotate<R>(t: seq<R>, s: nat): (r: seq<R>)
    requires s <= |t|
    ensures |r| == |t|
    ensures forall j :: 0 <= j < |t| - s ==> r[j] == t[s + j]
    ensures forall j :: |t| - s <= j < |t| ==> r[j] == t[j - (|t| - s)]
  {
    t[s..] + t[..s]
  }

  /** The table after appending every row of `h`, the first one at slot 0. */
  function TableAfter<R>(init: seq<R>, h: seq<R>): (t: seq<R>)
    requires |init| > 0
    ensures |t| == |init|
    decreases |h|
  {
    if h == [] then init
    else TableAfter(init, h[..|h| - 1])[(|h| - 1) % |init| := h[|h| - 1]]
  }

  /** Euclidean division is determined by quotient and remainder. */
  lemma {:induction false} ModOfDecomposition(a: int, n: int, q: int, r: int)
    requires n > 0 && 0 <= r < n && a == n * q + r
    ensures a % n == r && a / n == q
  {
    var q', r' := a / n, a % n;
    assert a == n * q' + r';
    if q' > q {
      assert n * q' >= n * (q + 1) by { MulMonotone(n, q + 1, q'); }
      assert false;
    } else if q' < q {
      assert n * q >= n * (q' + 1) by { MulMonotone(n, q' + 1, q); }
      assert false;
    }
  }

  lemma {:induction false} MulMonotone(n: int, x: int, y: int)
    requires n > 0 && x <= y
    ensures n * x <= n * y
  {
  }

  /** Two indices fewer than `n` apart land in different slots. */
  lemma {:induction false} DistinctSlots(m: nat, d: int, n: int)
    requires n > 0 && 0 < d < n
    ensures (m + d) % n != m % n
  {
    var q, r := m / n, m % n;
    assert m == n * q + r;
    if r + d < n {
      ModOfDecomposition(m + d, n, q, r + d);
    } else {
      assert m + d == n * (q + 1) + (r + d - n);
      ModOfDecomposition(m + d, n, q + 1, r + d - n);
    }
  }

  /** Shifting by a remainder instead of the full value gives the same slot. */
  lemma {:induction false} SlotOfShift(a: nat, j: nat, n: int)
    requires n > 0
    ensures (a % n + j) % n == (a + j) % n
  {
    var q := a / n;
    var k := (a % n + j) / n;
    assert a == n * q + a % n;
    assert a % n + j == n * k + (a % n + j) % n;
    assert a + j == n * (q + k) + (a % n + j) % n;
    ModOfDecomposition(a + j, n, q + k, (a % n + j) % n);
  }

  /** A value below the modulus is its own remainder. */
  lemma {:induction false} ModSmall(a: int, n: int)
    requires 0 <= a < n
    ensures a % n == a
  {
  }

  /** Adding the modulus does not change the slot. */
  lemma {:induction false} ModAddModulus(a: nat, n: int)
    requires n > 0
    ensures (a + n) % n == a % n
  {
    var q := a / n;
    assert a == n * q + a % n;
    assert a + n == n * (q + 1) + a % n;
    ModOfDecomposition(a + n, n, q + 1, a % n);
  }

  /**
    Counting the initial rows as the oldest entries of `init + h`, each of
    the last |init| entries sits in the slot given by its position modulo
    the table size: the most recent write to a slot is the one it holds.
  */
  lemma {:induction false} SlotHolds<R>(init: seq<R>, h: seq<R>, p: nat)
    requires |init| > 0
    requires |h| <= p < |h| + |init|
    ensures TableAfter(init, h)[p % |init|] == (init + h)[p]
    decreases |h|
  {
    var n := |init|;
    if h == [] {
      ModSmall(p, n);
    } else {
      var m := |h| - 1;
      var h' := h[..m];
      assert h == h' + [h[m]];
      assert TableAfter(init, h) == TableAfter(init, h')[m % n := h[m]];
      if p == m + n {
        ModAddModulus(m, n);
        assert (init + h)[p] == h[m];
      } else {
        SlotHolds(init, h', p);
        DistinctSlots(m, p - m, n);
        assert p - m + m == p;
        assert (init + h')[p] == (init + h)[p];
      }
    }
  }

  /**
    Read from the write index onwards (wrapping round), the table holds the
    last |init| entries of `init + h` in the order they were written: while
    fewer rows than slots have been appended, the untouched initial rows
    followed by every appended row; afterwards, exactly the last |init|
    appended rows, oldest first.
  */
  lemma {:induction false} WindowFromIndex<R>(init: seq<R>, h: seq<R>)
    requires |init| > 0
    ensures Rotate(TableAfter(init, h), |h| % |init|) == (init + h)[|h|..]
  {
    var n, N := |init|, |h|;
    var t := TableAfter(init, h);
    var s := N % n;
    var r := Rotate(t, s);
    var w := (init + h)[N..];
    assert |w| == n;
    forall j | 0 <= j < n
      ensures r[j] == w[j]
    {
      SlotHolds(init, h, N + j);
      SlotOfShift(N, j, n);
      if j < n - s {
        ModSmall(s + j, n);
      } else {
        ModAddModulus(s + j - n, n);
        ModSmall(s + j - n, n);
      }
    }
  }

  /** While the table is filling up, appended rows occupy the first slots in order. */
  lemma {:induction false} FillingPhase<R>(init: seq<R>, h: seq<R>)
    requires |init| > 0 && |h| <= |init|
    ensures TableAfter(init, h) == h + init[|h|..]
  {
    var n := |init|;
    var t := TableAfter(init, h);
    forall i | 0 <= i < n
      ensures t[i] == (h + init[|h|..])[i]
    {
      if i < |h| {
        SlotHolds(init, h, i + n);
        ModAddModulus(i, n);
        ModSmall(i, n);
      } else {
        SlotHolds(init, h, i);
        ModSmall(i, n);
      }
    }
  }

  /** Once at least |init| rows are appended, the table holds only appended rows. */
  lemma {:induction false} LastRowsOnly<R>(init: seq<R>, h: seq<R>, k: nat)
    requires |init| > 0 && |h| >= |init|
    requires |h| - |init| <= k < |h|
    ensures TableAfter(init, h)[k % |init|] == h[k]
  {
    SlotHolds(init, h, k + |init|);
    ModAddModulus(k, |init|);
  }
}
