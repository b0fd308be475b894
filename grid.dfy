/**
 * Two-dimensional pixel grids and the numpy idioms the pipeline is written in:
 * element-wise comparison masks (`a == v`), boolean indexing (`a[mask]`, which
 * yields the selected pixels in row-major order), `np.sum` of a boolean mask,
 * and `np.mean`.
 */
module Grid {

  type Grid = seq<seq<real>>
  type Mask = seq<seq<bool>>

  predicate SameShape<A, B>(a: seq<seq<A>>, b: seq<seq<B>>)
  {
    |a| == |b| && forall i :: 0 <= i < |a| ==> |a[i]| == |b[i]|
  }

  /** Every row has the same length, as in a numpy 2-D array. */
  predicate IsRect<A>(g: seq<seq<A>>)
  {
    forall i :: 0 <= i < |g| ==> |g[i]| == |g[0]|
  }

  function Cols<A>(g: seq<seq<A>>): nat
  {
    if g == [] then 0 else |g[0]|
  }

  /** Number of cells, counted row by row. */
  function Cells<A>(g: seq<seq<A>>): nat
  {
    if g == [] then 0 else Cells(g[..|g| - 1]) + |g[|g| - 1]|
  }

  lemma {:induction false} RectCells<A>(g: seq<seq<A>>)
    requires IsRect(g)
    ensures Cells(g) == |g| * Cols(g)
  {
    if g != [] {
      var p := g[..|g| - 1];
      assert IsRect(p) by {
        forall i | 0 <= i < |p| ensures |p[i]| == |p[0]| { assert p[i] == g[i]; }
      }
      RectCells(p);
      if p != [] { assert Cols(p) == Cols(g); }
    }
  }

  /** Squared-distance test of `mean_intensity`: inclusive of the boundary. */
  predicate InCircle(y: int, x: int, cy: real, cx: real, r: real)
  {
    (y as real - cy) * (y as real - cy) + (x as real - cx) * (x as real - cx) <= r * r
  }

  /** The boolean mask `dist_squared <= radius ** 2` over the shape of `g`. */
  function CircleMask<A>(g: seq<seq<A>>, cy: real, cx: real, r: real): (m: Mask)
    ensures SameShape(m, g)
    ensures forall i, j :: 0 <= i < |m| && 0 <= j < |m[i]| ==> (m[i][j] <==> InCircle(i, j, cy, cx, r))
  {
    seq(|g|, i requires 0 <= i < |g| => seq(|g[i]|, j => InCircle(i, j, cy, cx, r)))
  }

  /** The boolean mask `g == v`. */
  function EqMask(g: Grid, v: real): (m: Mask)
    ensures SameShape(m, g)
    ensures forall i, j :: 0 <= i < |m| && 0 <= j < |m[i]| ==> (m[i][j] <==> g[i][j] == v)
  {
    seq(|g|, i requires 0 <= i < |g| => seq(|g[i]|, j requires 0 <= j < |g[i]| => g[i][j] == v))
  }

  /** The element-wise conjunction `a & b` of two masks. */
  function And(a: Mask, b: Mask): (m: Mask)
    requires SameShape(a, b)
    ensures SameShape(m, a)
    ensures forall i, j :: 0 <= i < |m| && 0 <= j < |m[i]| ==> (m[i][j] <==> a[i][j] && b[i][j])
  {
    seq(|a|, i requires 0 <= i < |a| => seq(|a[i]|, j requires 0 <= j < |a[i]| => a[i][j] && b[i][j]))
  }

  /** Boolean indexing of one row: the selected values, left to right. */
  function MaskedRow(row: seq<real>, m: seq<bool>): seq<real>
    requires |row| == |m|
  {
    if row == [] then []
    else MaskedRow(row[..|row| - 1], m[..|m| - 1]) + (if m[|m| - 1] then [row[|row| - 1]] else [])
  }

  /** Boolean indexing `g[m]`: the selected pixels in row-major order. */
  function Masked(g: Grid, m: Mask): seq<real>
    requires SameShape(g, m)
  {
    if g == [] then [] else Masked(g[..|g| - 1], m[..|m| - 1]) + MaskedRow(g[|g| - 1], m[|m| - 1])
  }

  function CountRow(m: seq<bool>): nat
  {
    if m == [] then 0 else CountRow(m[..|m| - 1]) + (if m[|m| - 1] then 1 else 0)
  }

  /** `np.sum(mask)`: the number of selected cells. */
  function CountTrue(m: Mask): nat
  {
    if m == [] then 0 else CountTrue(m[..|m| - 1]) + CountRow(m[|m| - 1])
  }

  lemma {:induction false} MaskedRowLength(row: seq<real>, m: seq<bool>)
    requires |row| == |m|
    ensures |MaskedRow(row, m)| == CountRow(m)
  {
    if row != [] { MaskedRowLength(row[..|row| - 1], m[..|m| - 1]); }
  }

  /** As many pixels are selected as the mask has true cells. */
  lemma {:induction false} MaskedLength(g: Grid, m: Mask)
    requires SameShape(g, m)
    ensures |Masked(g, m)| == CountTrue(m)
  {
    if g != [] {
      MaskedLength(g[..|g| - 1], m[..|m| - 1]);
      MaskedRowLength(g[|g| - 1], m[|m| - 1]);
    }
  }

  lemma {:induction false} MaskedRowSound(row: seq<real>, m: seq<bool>, v: real)
    requires |row| == |m| && v in MaskedRow(row, m)
    ensures exists j :: 0 <= j < |row| && m[j] && row[j] == v
  {
    var n := |row| - 1;
    var p, q := row[..n], m[..n];
    if v in MaskedRow(p, q) {
      MaskedRowSound(p, q, v);
      var j :| 0 <= j < |p| && q[j] && p[j] == v;
      assert m[j] && row[j] == v;
    } else {
      assert m[n] && row[n] == v;
    }
  }

  lemma {:induction false} MaskedRowComplete(row: seq<real>, m: seq<bool>, j: int)
    requires |row| == |m| && 0 <= j < |row| && m[j]
    ensures row[j] in MaskedRow(row, m)
  {
    var n := |row| - 1;
    if j < n {
      MaskedRowComplete(row[..n], m[..n], j);
      assert row[..n][j] == row[j];
    }
  }

  /** A selected value is the pixel under some true mask cell ... */
  lemma {:induction false} MaskedSound(g: Grid, m: Mask, v: real)
    requires SameShape(g, m) && v in Masked(g, m)
    ensures exists i, j :: 0 <= i < |g| && 0 <= j < |g[i]| && m[i][j] && g[i][j] == v
  {
    var k := |g| - 1;
    var p, q := g[..k], m[..k];
    if v in Masked(p, q) {
      MaskedSound(p, q, v);
      var i, j :| 0 <= i < |p| && 0 <= j < |p[i]| && q[i][j] && p[i][j] == v;
      assert m[i][j] && g[i][j] == v;
    } else {
      MaskedRowSound(g[k], m[k], v);
      var j :| 0 <= j < |g[k]| && m[k][j] && g[k][j] == v;
    }
  }

  /** ... and the pixel under every true mask cell is selected. */
  lemma {:induction false} MaskedComplete(g: Grid, m: Mask, i: int, j: int)
    requires SameShape(g, m) && 0 <= i < |g| && 0 <= j < |g[i]| && m[i][j]
    ensures g[i][j] in Masked(g, m)
  {
    var k := |g| - 1;
    if i < k {
      MaskedComplete(g[..k], m[..k], i, j);
      assert g[..k][i] == g[i];
    } else {
      MaskedRowComplete(g[k], m[k], j);
    }
  }

  /** The selected values are exactly the pixels under a true mask cell. */
  lemma MaskedMembers(g: Grid, m: Mask)
    requires SameShape(g, m)
    ensures forall v :: v in Masked(g, m) <==>
      exists i, j :: 0 <= i < |g| && 0 <= j < |g[i]| && m[i][j] && g[i][j] == v
  {
    forall v ensures v in Masked(g, m) <==>
      exists i, j :: 0 <= i < |g| && 0 <= j < |g[i]| && m[i][j] && g[i][j] == v
    {
      if v in Masked(g, m) {
        MaskedSound(g, m, v);
      }
      if exists i, j :: 0 <= i < |g| && 0 <= j < |g[i]| && m[i][j] && g[i][j] == v {
        var i, j :| 0 <= i < |g| && 0 <= j < |g[i]| && m[i][j] && g[i][j] == v;
        MaskedComplete(g, m, i, j);
      }
    }
  }

  function Sum(s: seq<real>): real
  {
    if s == [] then 0.0 else Sum(s[..|s| - 1]) + s[|s| - 1]
  }

  /** `np.mean` of a nonempty selection. */
  function Mean(s: seq<real>): real
    requires |s| > 0
  {
    Sum(s) / (|s| as real)
  }

  lemma {:induction false} SumBounds(s: seq<real>, lo: real, hi: real)
    requires forall i :: 0 <= i < |s| ==> lo <= s[i] <= hi
    ensures (|s| as real) * lo <= Sum(s) <= (|s| as real) * hi
  {
    if s != [] {
      var p := s[..|s| - 1];
      SumBounds(p, lo, hi);
      assert (|s| as real) * lo == (|p| as real) * lo + lo;
      assert (|s| as real) * hi == (|p| as real) * hi + hi;
    }
  }

  /** A mean lies within any bounds of the values averaged. */
  lemma MeanWithin(s: seq<real>, lo: real, hi: real)
    requires |s| > 0
    requires forall i :: 0 <= i < |s| ==> lo <= s[i] <= hi
    ensures lo <= Mean(s) <= hi
  {
    SumBounds(s, lo, hi);
    var n := |s| as real;
    assert Sum(s) / n - lo == (Sum(s) - n * lo) / n;
    assert hi - Sum(s) / n == (n * hi - Sum(s)) / n;
  }

  /** How many of four mask rows select column j. */
  function RowHits(a: seq<bool>, b: seq<bool>, c: seq<bool>, d: seq<bool>, j: int): nat
    requires |a| == |b| == |c| == |d| && 0 <= j < |a|
  {
    (if a[j] then 1 else 0) + (if b[j] then 1 else 0) + (if c[j] then 1 else 0) + (if d[j] then 1 else 0)
  }

  lemma {:induction false} CountRowBound(a: seq<bool>, b: seq<bool>, c: seq<bool>, d: seq<bool>)
    requires |a| == |b| == |c| == |d|
    requires forall j :: 0 <= j < |a| ==> RowHits(a, b, c, d, j) <= 1
    ensures CountRow(a) + CountRow(b) + CountRow(c) + CountRow(d) <= |a|
  {
    if a != [] {
      var n := |a| - 1;
      forall j | 0 <= j < n ensures RowHits(a[..n], b[..n], c[..n], d[..n], j) <= 1 {
        assert RowHits(a, b, c, d, j) <= 1;
      }
      CountRowBound(a[..n], b[..n], c[..n], d[..n]);
      assert RowHits(a, b, c, d, n) <= 1;
    }
  }

  lemma {:induction false} CountRowExact(a: seq<bool>, b: seq<bool>, c: seq<bool>, d: seq<bool>)
    requires |a| == |b| == |c| == |d|
    requires forall j :: 0 <= j < |a| ==> RowHits(a, b, c, d, j) == 1
    ensures CountRow(a) + CountRow(b) + CountRow(c) + CountRow(d) == |a|
  {
    if a != [] {
      var n := |a| - 1;
      forall j | 0 <= j < n ensures RowHits(a[..n], b[..n], c[..n], d[..n], j) == 1 {
        assert RowHits(a, b, c, d, j) == 1;
      }
      CountRowExact(a[..n], b[..n], c[..n], d[..n]);
      assert RowHits(a, b, c, d, n) == 1;
    }
  }

  /** How many of the four masks select cell (i, j). */
  function CellHits(a: Mask, b: Mask, c: Mask, d: Mask, i: int, j: int): nat
    requires SameShape(a, b) && SameShape(a, c) && SameShape(a, d)
    requires 0 <= i < |a| && 0 <= j < |a[i]|
  {
    RowHits(a[i], b[i], c[i], d[i], j)
  }

  /** Four masks that never select the same cell together select at most every cell. */
  ghost predicate AtMostOne(a: Mask, b: Mask, c: Mask, d: Mask)
    requires SameShape(a, b) && SameShape(a, c) && SameShape(a, d)
  {
    forall i, j :: 0 <= i < |a| && 0 <= j < |a[i]| ==> CellHits(a, b, c, d, i, j) <= 1
  }

  ghost predicate ExactlyOne(a: Mask, b: Mask, c: Mask, d: Mask)
    requires SameShape(a, b) && SameShape(a, c) && SameShape(a, d)
  {
    forall i, j :: 0 <= i < |a| && 0 <= j < |a[i]| ==> CellHits(a, b, c, d, i, j) == 1
  }

  lemma {:induction false} CountFourBound(a: Mask, b: Mask, c: Mask, d: Mask)
    requires SameShape(a, b) && SameShape(a, c) && SameShape(a, d)
    requires AtMostOne(a, b, c, d)
    ensures CountTrue(a) + CountTrue(b) + CountTrue(c) + CountTrue(d) <= Cells(a)
    ensures ExactlyOne(a, b, c, d) ==> CountTrue(a) + CountTrue(b) + CountTrue(c) + CountTrue(d) == Cells(a)
  {
    if a != [] {
      var n := |a| - 1;
      var a', b', c', d' := a[..n], b[..n], c[..n], d[..n];
      assert SameShape(a', b') && SameShape(a', c') && SameShape(a', d');
      forall i, j | 0 <= i < n && 0 <= j < |a'[i]| ensures CellHits(a', b', c', d', i, j) == CellHits(a, b, c, d, i, j) {
        assert a'[i] == a[i] && b'[i] == b[i] && c'[i] == c[i] && d'[i] == d[i];
      }
      CountFourBound(a', b', c', d');
      forall j | 0 <= j < |a[n]| ensures RowHits(a[n], b[n], c[n], d[n], j) <= 1 {
        assert CellHits(a, b, c, d, n, j) <= 1;
      }
      CountRowBound(a[n], b[n], c[n], d[n]);
      if ExactlyOne(a, b, c, d) {
        forall j | 0 <= j < |a[n]| ensures RowHits(a[n], b[n], c[n], d[n], j) == 1 {
          assert CellHits(a, b, c, d, n, j) == 1;
        }
        CountRowExact(a[n], b[n], c[n], d[n]);
      }
    }
  }
}
