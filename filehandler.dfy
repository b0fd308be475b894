/**
 * The first measurement pipeline's array helpers (modules/filehandler.py):
 * `_reduce_dims` takes the first plane of a 4-D CZI array, `_best_fit`
 * stretches the pixels up to an outlier fence onto the white point,
 * `_threshold_unique` marks the pixels at or above the 40th percentile of
 * the distinct values, and `runprocessing` clamps the radius of the fitted
 * region and averages the pixels inside it, rounded to three decimals.
 *
 * Pixels are unsigned integers (`nat`); `np.percentile` is modelled with
 * numpy's default linear interpolation on reals. Reading the CZI file, the
 * OpenCV steps and the ellipse's trigonometry are not part of this model.
 */
module FileHandler {

  import opened Wrappers
  import opened Grid
  import opened Processing

  const WhitePoint: nat := 4096

  datatype PixelError =
    | MissingPlane   // `cziarr[0][i][j][0]` indexes an empty first or last axis
    | EmptyImage     // `np.percentile` of no values
    | NaNPixel       // `0 * 4096 / 0` is NaN, which a uint64 array cannot hold
    | NoScaling    // `2500 / scaling` with a zero scaling
    | EmptyRoi       // `statistics.mean` of an empty region

  // ---------------------------------------------------------------- arrays as values

  function Row(a: array2<nat>, i: nat): (r: seq<int>)
    requires i < a.Length0
    reads a
    ensures |r| == a.Length1 && forall j :: 0 <= j < a.Length1 ==> r[j] == a[i, j]
  {
    seq(a.Length1, j requires 0 <= j < a.Length1 reads a => a[i, j])
  }

  /** The first `n` rows of `a`, flattened in row-major order. */
  function RowsUpTo(a: array2<nat>, n: nat): (s: seq<int>)
    requires n <= a.Length0
    reads a
    ensures |s| == n * a.Length1
    ensures forall i, j :: 0 <= i < n && 0 <= j < a.Length1 ==> a[i, j] in s
    ensures forall v :: v in s ==> exists i, j :: 0 <= i < n && 0 <= j < a.Length1 && a[i, j] == v
  {
    if n == 0 then []
    else
      var p, r := RowsUpTo(a, n - 1), Row(a, n - 1);
      assert |p + r| == (n - 1) * a.Length1 + a.Length1 == n * a.Length1;
      assert forall i, j :: 0 <= i < n - 1 && 0 <= j < a.Length1 ==> a[i, j] in p;
      assert forall j :: 0 <= j < a.Length1 ==> a[n - 1, j] == r[j];
      p + r
  }

  /** The pixels of `a` in row-major order (`cziarr.flatten()`). */
  function Pixels(a: array2<nat>): (s: seq<int>)
    reads a
    ensures |s| == 0 <==> a.Length0 == 0 || a.Length1 == 0
  {
    var s := RowsUpTo(a, a.Length0);
    assert a.Length0 > 0 && a.Length1 > 0 ==> a.Length0 * a.Length1 > 0 by {
      if a.Length0 > 0 && a.Length1 > 0 { ProductPositive(a.Length0, a.Length1); }
    }
    s
  }

  /** The flattened pixels are exactly the pixels of the array. */
  lemma PixelsMembers(a: array2<nat>)
    ensures forall i, j :: 0 <= i < a.Length0 && 0 <= j < a.Length1 ==> a[i, j] in Pixels(a)
    ensures forall v :: v in Pixels(a) ==> exists i, j :: 0 <= i < a.Length0 && 0 <= j < a.Length1 && a[i, j] == v
  {
    assert Pixels(a) == RowsUpTo(a, a.Length0);
  }

  lemma ProductPositive(m: nat, n: nat)
    requires m > 0 && n > 0
    ensures m * n > 0
  {
  }

  /** The pixels of `a` as a grid of reals, row by row. */
  function ToGrid(a: array2<nat>): (g: Grid)
    reads a
    ensures |g| == a.Length0 && forall i :: 0 <= i < |g| ==> |g[i]| == a.Length1
    ensures forall i, j :: 0 <= i < a.Length0 && 0 <= j < a.Length1 ==> g[i][j] == a[i, j] as real
  {
    seq(a.Length0, i requires 0 <= i < a.Length0 reads a =>
      seq(a.Length1, j requires 0 <= j < a.Length1 reads a => a[i, j] as real))
  }

  // ---------------------------------------------------------------- percentiles

  lemma FractionOfRange(f: real, d: real)
    requires 0.0 <= f <= 1.0 && d >= 0.0
    ensures 0.0 <= f * d <= d
  {
  }

  /** The position `q / 100 * last` of the `q`th percentile among `last + 1` values. */
  function Position(q: real, last: nat): (r: real)
    requires 0.0 <= q <= 100.0
    ensures 0.0 <= r <= last as real
  {
    var f, d := q / 100.0, last as real;
    FractionOfRange(f, d);
    f * d
  }

  /** `x + t * (y - x)`, the point a fraction `t` of the way from `x` to `y`. */
  function Lerp(x: int, y: int, t: real): (r: real)
    requires x <= y && 0.0 <= t <= 1.0
    ensures x as real <= r <= y as real
  {
    FractionOfRange(t, (y - x) as real);
    x as real + t * (y - x) as real
  }

  /**
   * `np.percentile(s, q)` of the ascending values `s`, interpolating
   * linearly between the two values around position `q / 100 * (n - 1)`.
   */
  function Percentile(s: seq<int>, q: real): (r: real)
    requires |s| > 0 && Sorted(s) && 0.0 <= q <= 100.0
    ensures s[0] as real <= r <= s[|s| - 1] as real
  {
    var pos := Position(q, |s| - 1);
    var lo := pos.Floor;
    assert 0 <= lo < |s|;
    var hi := if lo + 1 < |s| then lo + 1 else lo;
    assert s[0] <= s[lo] <= s[hi] <= s[|s| - 1];
    Lerp(s[lo], s[hi], pos - lo as real)
  }

  /** A higher percentile is never below a lower one. */
  lemma PercentileMonotone(s: seq<int>, q1: real, q2: real)
    requires |s| > 0 && Sorted(s) && 0.0 <= q1 <= q2 <= 100.0
    ensures Percentile(s, q1) <= Percentile(s, q2)
  {
    var p1, p2 := Position(q1, |s| - 1), Position(q2, |s| - 1);
    PositionMonotone(q1, q2, |s| - 1);
    var lo1, lo2 := p1.Floor, p2.Floor;
    var hi1 := if lo1 + 1 < |s| then lo1 + 1 else lo1;
    if lo1 == lo2 {
      LerpMonotone(s[lo1], s[hi1], p1 - lo1 as real, p2 - lo1 as real);
    } else {
      assert s[hi1] <= s[lo2];
    }
  }

  lemma PositionMonotone(q1: real, q2: real, last: nat)
    requires 0.0 <= q1 <= q2 <= 100.0
    ensures Position(q1, last) <= Position(q2, last)
  {
    var d := last as real;
    FractionOfRange((q2 - q1) / 100.0, d);
    assert q2 / 100.0 * d - q1 / 100.0 * d == (q2 - q1) / 100.0 * d;
  }

  lemma LerpMonotone(x: int, y: int, t1: real, t2: real)
    requires x <= y && 0.0 <= t1 <= t2 <= 1.0
    ensures Lerp(x, y, t1) <= Lerp(x, y, t2)
  {
    var d := (y - x) as real;
    FractionOfRange(t2 - t1, d);
    assert t2 * d - t1 * d == (t2 - t1) * d;
  }

  ghost predicate StrictlyIncreasing(s: seq<int>)
  {
    forall i, j :: 0 <= i < j < |s| ==> s[i] < s[j]
  }

  /** Drops repeats from ascending values, keeping one copy of each. */
  function Squeeze(t: seq<int>): (r: seq<int>)
    requires Sorted(t)
    ensures StrictlyIncreasing(r) && Sorted(r)
    ensures forall v :: v in r <==> v in t
    ensures |t| > 0 ==> |r| > 0 && r[|r| - 1] == t[|t| - 1]
  {
    if |t| <= 1 then t
    else
      var n := |t|;
      var p := Squeeze(t[..n - 1]);
      assert forall v :: v in t <==> v in t[..n - 1] || v == t[n - 1] by {
        assert t == t[..n - 1] + [t[n - 1]];
      }
      if t[n - 1] == t[n - 2] then p else p + [t[n - 1]]
  }

  /** `np.unique`: the distinct values of `s`, ascending. */
  function Unique(s: seq<int>): (r: seq<int>)
    ensures StrictlyIncreasing(r) && Sorted(r)
    ensures forall v :: v in r <==> v in s
    ensures |r| > 0 <==> |s| > 0
  {
    var t := SortInts(s);
    assert forall v :: v in t <==> v in multiset(s);
    Squeeze(t)
  }

  /** The largest of ascending values is at least any percentile of them. */
  lemma PercentileBelowMaximum(s: seq<int>, q: real, v: int)
    requires |s| > 0 && 0.0 <= q <= 100.0
    requires v in s && forall w :: w in s ==> w <= v
    ensures Percentile(Unique(s), q) <= v as real
  {
    var u := Unique(s);
    assert u[|u| - 1] in s;
  }

  // ---------------------------------------------------------------- _reduce_dims

  /**
   * `_reduce_dims`: the `y x x` plane `cziarr[0, :, :, 0]` of an array of
   * shape `(a, y, x, b)`. Indexing an empty first or last axis fails, unless
   * the plane is empty and nothing is indexed.
   */
  method ReduceDims(czi: array4<nat>) returns (r: Result<array2<nat>, PixelError>)
    ensures r.Err? <==> czi.Length1 > 0 && czi.Length2 > 0 && (czi.Length0 == 0 || czi.Length3 == 0)
    ensures r.Ok? ==> fresh(r.value) && r.value.Length0 == czi.Length1 && r.value.Length1 == czi.Length2
    ensures r.Ok? ==> forall i, j :: 0 <= i < czi.Length1 && 0 <= j < czi.Length2 ==> r.value[i, j] == czi[0, i, j, 0]
  {
    var plane := new nat[czi.Length1, czi.Length2];
    if czi.Length1 > 0 && czi.Length2 > 0 && (czi.Length0 == 0 || czi.Length3 == 0) {
      return Err(MissingPlane);
    }
    var i := 0;
    while i < czi.Length1
      invariant 0 <= i <= czi.Length1
      invariant forall y, x :: 0 <= y < i && 0 <= x < czi.Length2 ==> plane[y, x] == czi[0, y, x, 0]
    {
      var j := 0;
      while j < czi.Length2
        invariant 0 <= j <= czi.Length2
        invariant forall y, x :: 0 <= y < i && 0 <= x < czi.Length2 ==> plane[y, x] == czi[0, y, x, 0]
        invariant forall x :: 0 <= x < j ==> plane[i, x] == czi[0, i, x, 0]
      {
        plane[i, j] := czi[0, i, j, 0];
        j := j + 1;
      }
      i := i + 1;
    }
    return Ok(plane);
  }

  // ---------------------------------------------------------------- _best_fit

  /** `median + 1.5 * IQR` of the pixels, the fence above which pixels are outliers. */
  function UpperFence(s: seq<int>): (r: real)
    requires |s| > 0
    ensures r >= Percentile(SortInts(s), 75.0) >= Percentile(SortInts(s), 50.0)
  {
    var t := SortInts(s);
    PercentileMonotone(t, 25.0, 50.0);
    PercentileMonotone(t, 50.0, 75.0);
    Percentile(t, 50.0) + 1.5 * (Percentile(t, 75.0) - Percentile(t, 25.0))
  }

  /**
   * `b` is the largest pixel that is positive and at most `ubound`, or 0
   * when no pixel is.
   */
  ghost predicate IsBrightest(a: array2<nat>, ubound: real, b: int)
    reads a
  {
    && (b == 0 || (b as real <= ubound && exists i, j :: 0 <= i < a.Length0 && 0 <= j < a.Length1 && a[i, j] == b))
    && (forall i, j :: 0 <= i < a.Length0 && 0 <= j < a.Length1 && a[i, j] as real <= ubound ==> a[i, j] <= b)
  }

  /** The conditions fix `brightest`: two values meeting them are equal. */
  lemma BrightestUnique(a: array2<nat>, ubound: real, b: int, c: int)
    requires b >= 0 && c >= 0 && IsBrightest(a, ubound, b) && IsBrightest(a, ubound, c)
    ensures b == c
  {
    if b != 0 {
      var i, j :| 0 <= i < a.Length0 && 0 <= j < a.Length1 && a[i, j] == b;
      assert b <= c;
    }
    if c != 0 {
      var i, j :| 0 <= i < a.Length0 && 0 <= j < a.Length1 && a[i, j] == c;
      assert c <= b;
    }
  }

  /** A positive `brightest` rules out 0 as the brightest pixel. */
  lemma PositiveBrightest(a: array2<nat>, ubound: real, b: int)
    requires b > 0 && IsBrightest(a, ubound, b)
    ensures !IsBrightest(a, ubound, 0)
  {
    var i, j :| 0 <= i < a.Length0 && 0 <= j < a.Length1 && a[i, j] == b;
    assert a[i, j] as real <= ubound && a[i, j] > 0;
  }

  /** The first loop of `_best_fit`: the brightest pixel not above `ubound`. */
  method Brightest(a: array2<nat>, ubound: real) returns (b: nat)
    ensures IsBrightest(a, ubound, b)
  {
    b := 0;
    var i := 0;
    while i < a.Length0
      invariant 0 <= i <= a.Length0
      invariant b == 0 || (b as real <= ubound && exists y, x :: 0 <= y < a.Length0 && 0 <= x < a.Length1 && a[y, x] == b)
      invariant forall y, x :: 0 <= y < i && 0 <= x < a.Length1 && a[y, x] as real <= ubound ==> a[y, x] <= b
    {
      var j := 0;
      while j < a.Length1
        invariant 0 <= j <= a.Length1
        invariant b == 0 || (b as real <= ubound && exists y, x :: 0 <= y < a.Length0 && 0 <= x < a.Length1 && a[y, x] == b)
        invariant forall y, x :: 0 <= y < i && 0 <= x < a.Length1 && a[y, x] as real <= ubound ==> a[y, x] <= b
        invariant forall x :: 0 <= x < j && a[i, x] as real <= ubound ==> a[i, x] <= b
      {
        if a[i, j] > b && a[i, j] as real <= ubound {
          b := a[i, j];
        }
        j := j + 1;
      }
      i := i + 1;
    }
  }

  /**
   * One pixel of `_best_fit`'s result: the white point above `brightest`,
   * otherwise `v * 4096 / b` truncated, which never exceeds the white point.
   */
  function Stretch(v: nat, b: nat): (o: nat)
    requires v > b || b > 0
    ensures o <= WhitePoint
    ensures v > b ==> o == WhitePoint
    ensures v <= b ==> o * b <= v * WhitePoint < (o + 1) * b
  {
    if v > b then WhitePoint
    else
      StretchBelowWhite(v, b);
      v * WhitePoint / b
  }

  /** A pixel at most `brightest` stretches to at most the white point. */
  lemma StretchBelowWhite(v: nat, b: nat)
    requires 0 < b && v <= b
    ensures v * WhitePoint / b <= WhitePoint
    ensures (v * WhitePoint / b) * b <= v * WhitePoint < (v * WhitePoint / b + 1) * b
  {
    assert v * WhitePoint <= b * WhitePoint;
  }

  /** `out` is `a` stretched with `brightest` equal to `b`. */
  ghost predicate Stretched(a: array2<nat>, out: array2<nat>, b: nat)
    reads a, out
  {
    && out.Length0 == a.Length0 && out.Length1 == a.Length1
    && forall i, j :: 0 <= i < a.Length0 && 0 <= j < a.Length1 ==>
         (a[i, j] > b || b > 0) && out[i, j] == Stretch(a[i, j], b)
  }

  /**
   * The second loop of `_best_fit`, with `brightest` equal to `b`: a zero
   * pixel with `b` 0 is `0 / 0`, NaN, which the uint64 result cannot hold;
   * otherwise every pixel is stretched.
   */
  method StretchAll(a: array2<nat>, b: nat) returns (r: Option<array2<nat>>)
    ensures r.None? <==> b == 0 && exists i, j :: 0 <= i < a.Length0 && 0 <= j < a.Length1 && a[i, j] == 0
    ensures r.Some? ==> fresh(r.value) && Stretched(a, r.value, b)
  {
    var out := new nat[a.Length0, a.Length1];
    var i := 0;
    while i < a.Length0
      invariant 0 <= i <= a.Length0
      invariant forall y, x :: 0 <= y < i && 0 <= x < a.Length1 ==>
        (a[y, x] > b || b > 0) && out[y, x] == Stretch(a[y, x], b)
    {
      var j := 0;
      while j < a.Length1
        invariant 0 <= j <= a.Length1
        invariant forall y, x :: 0 <= y < i && 0 <= x < a.Length1 ==>
          (a[y, x] > b || b > 0) && out[y, x] == Stretch(a[y, x], b)
        invariant forall x :: 0 <= x < j ==> (a[i, x] > b || b > 0) && out[i, x] == Stretch(a[i, x], b)
      {
        if a[i, j] <= b && b == 0 {
          return None;
        }
        out[i, j] := Stretch(a[i, j], b);
        j := j + 1;
      }
      i := i + 1;
    }
    return Some(out);
  }

  /**
   * `_best_fit`: the pixels up to the brightest one below the outlier fence
   * are stretched onto the white point, those above it become the white point.
   */
  method BestFit(a: array2<nat>) returns (r: Result<array2<nat>, PixelError>)
    ensures r == Err(EmptyImage) <==> a.Length0 == 0 || a.Length1 == 0
    ensures r == Err(NaNPixel) <==>
      && a.Length0 > 0 && a.Length1 > 0 && IsBrightest(a, UpperFence(Pixels(a)), 0)
      && exists i, j :: 0 <= i < a.Length0 && 0 <= j < a.Length1 && a[i, j] == 0
    ensures r.Err? ==> r.error == EmptyImage || r.error == NaNPixel
    ensures r.Ok? ==> fresh(r.value)
    ensures r.Ok? ==> exists b: nat :: IsBrightest(a, UpperFence(Pixels(a)), b) && Stretched(a, r.value, b)
  {
    if a.Length0 == 0 || a.Length1 == 0 {
      return Err(EmptyImage);
    }
    var ubound := UpperFence(Pixels(a));
    var b := Brightest(a, ubound);
    if b > 0 {
      PositiveBrightest(a, ubound, b);
    }
    var out := StretchAll(a, b);
    if out.None? {
      assert b == 0 && IsBrightest(a, ubound, 0);
      return Err(NaNPixel);
    }
    assert IsBrightest(a, ubound, b) && Stretched(a, out.value, b);
    return Ok(out.value);
  }

  // ---------------------------------------------------------------- _threshold_unique

  /** One pixel of `_threshold_unique`'s result. */
  function Mark(v: int, lbound: real): (o: nat)
    ensures o == 255 || o == 0
    ensures o == 255 <==> v as real >= lbound
  {
    if v as real >= lbound then 255 else 0
  }

  /** A largest pixel is at or above the 40th percentile of the distinct values. */
  lemma MaximumReachesThreshold(a: array2<nat>, i: nat, j: nat)
    requires i < a.Length0 && j < a.Length1
    requires forall y, x :: 0 <= y < a.Length0 && 0 <= x < a.Length1 ==> a[y, x] <= a[i, j]
    ensures a[i, j] as real >= Percentile(Unique(Pixels(a)), 40.0)
  {
    var s := Pixels(a);
    PixelsMembers(a);
    forall w | w in s ensures w <= a[i, j] {
      var k, l :| 0 <= k < a.Length0 && 0 <= l < a.Length1 && a[k, l] == w;
    }
    PercentileBelowMaximum(s, 40.0, a[i, j]);
  }

  /** The loop of `_threshold_unique`: each pixel marked against `lbound`. */
  method MarkAll(a: array2<nat>, lbound: real) returns (out: array2<nat>)
    ensures fresh(out) && out.Length0 == a.Length0 && out.Length1 == a.Length1
    ensures forall i, j :: 0 <= i < a.Length0 && 0 <= j < a.Length1 ==> out[i, j] == Mark(a[i, j], lbound)
  {
    out := new nat[a.Length0, a.Length1];
    var i := 0;
    while i < a.Length0
      invariant 0 <= i <= a.Length0
      invariant forall y, x :: 0 <= y < i && 0 <= x < a.Length1 ==> out[y, x] == Mark(a[y, x], lbound)
    {
      var j := 0;
      while j < a.Length1
        invariant 0 <= j <= a.Length1
        invariant forall y, x :: 0 <= y < i && 0 <= x < a.Length1 ==> out[y, x] == Mark(a[y, x], lbound)
        invariant forall x :: 0 <= x < j ==> out[i, x] == Mark(a[i, x], lbound)
      {
        out[i, j] := Mark(a[i, j], lbound);
        j := j + 1;
      }
      i := i + 1;
    }
  }

  /**
   * `_threshold_unique`: 255 exactly on the pixels at or above the 40th
   * percentile of the distinct pixel values, 0 elsewhere; a largest pixel is
   * always marked.
   */
  method ThresholdUnique(a: array2<nat>) returns (r: Result<array2<nat>, PixelError>)
    ensures r.Err? <==> a.Length0 == 0 || a.Length1 == 0
    ensures r.Ok? ==> fresh(r.value) && r.value.Length0 == a.Length0 && r.value.Length1 == a.Length1
    ensures r.Ok? ==> forall i, j :: 0 <= i < a.Length0 && 0 <= j < a.Length1 ==>
      r.value[i, j] == Mark(a[i, j], Percentile(Unique(Pixels(a)), 40.0))
    ensures r.Ok? ==> forall i, j ::
      (0 <= i < a.Length0 && 0 <= j < a.Length1 &&
       forall y, x :: 0 <= y < a.Length0 && 0 <= x < a.Length1 ==> a[y, x] <= a[i, j]) ==> r.value[i, j] == 255
  {
    if a.Length0 == 0 || a.Length1 == 0 {
      return Err(EmptyImage);
    }
    var lbound := Percentile(Unique(Pixels(a)), 40.0);
    var out := MarkAll(a, lbound);
    forall y, x | 0 <= y < a.Length0 && 0 <= x < a.Length1 &&
      (forall k, l :: 0 <= k < a.Length0 && 0 <= l < a.Length1 ==> a[k, l] <= a[y, x])
      ensures out[y, x] == 255
    {
      MaximumReachesThreshold(a, y, x);
    }
    return Ok(out);
  }

  // ---------------------------------------------------------------- runprocessing

  /**
   * The clamp of one semi-axis AS WRITTEN: a radius smaller than the centre
   * coordinate is raised to it, then one reaching the far edge is cut to
   * end one pixel before it.
   */
  function ClampAxisAsWritten(rad: real, c: real, size: int): (r: real)
    ensures r + c < size as real
    ensures c <= rad && rad + c < size as real ==> r == rad
  {
    var raised := if rad - c < 0.0 then c else rad;
    if raised + c >= size as real then size as real - c - 1.0 else raised
  }

  /**
   * The clamp as evidently intended: a radius reaching past the near edge
   * is cut to the centre coordinate, one reaching the far edge to end one
   * pixel before it; the region then lies inside the image.
   */
  function ClampAxis(rad: real, c: real, size: int): (r: real)
    ensures r <= rad && r <= c && r + c < size as real
    ensures r == rad || r == c || r == size as real - c - 1.0
  {
    var cut := if c - rad < 0.0 then c else rad;
    if cut + c >= size as real then size as real - c - 1.0 else cut
  }

  /**
   * A centre 10 pixels from the top of a 100-row image with a semi-axis of
   * 20: the clamp as written keeps 20, so the region reaches 10 rows above
   * the image; the corrected clamp cuts it to 10.
   */
  lemma ClampCounterexample()
    ensures ClampAxisAsWritten(20.0, 10.0, 100) == 20.0 && 10.0 - ClampAxisAsWritten(20.0, 10.0, 100) < 0.0
    ensures ClampAxis(20.0, 10.0, 100) == 10.0
  {
  }

  /** `min(yrad, xrad, 2500 / scaling)` over the clamps AS WRITTEN. */
  function RoiRadiusAsWritten(yrad: real, xrad: real, cy: real, cx: real, ySize: int, xSize: int, scaling: real)
    : (r: Result<real, PixelError>)
    ensures r.Err? <==> scaling == 0.0
    ensures r.Ok? ==> r.value + cy < ySize as real && r.value + cx < xSize as real && r.value <= 2500.0 / scaling
  {
    if scaling == 0.0 then Err(NoScaling)
    else
      var y, x := ClampAxisAsWritten(yrad, cy, ySize), ClampAxisAsWritten(xrad, cx, xSize);
      Ok(Min(Min(y, x), 2500.0 / scaling))
  }

  /**
   * The radius of the region with the corrected clamps: no larger than
   * either semi-axis or `2500 / scaling`, and keeping the circle inside
   * the image on all four sides.
   */
  function RoiRadius(yrad: real, xrad: real, cy: real, cx: real, ySize: int, xSize: int, scaling: real)
    : (r: Result<real, PixelError>)
    ensures r.Err? <==> scaling == 0.0
    ensures r.Ok? ==>
      && r.value <= yrad && r.value <= xrad && r.value <= 2500.0 / scaling
      && cy - r.value >= 0.0 && cy + r.value < ySize as real
      && cx - r.value >= 0.0 && cx + r.value < xSize as real
    ensures r.Ok? ==>
      || r.value == ClampAxis(yrad, cy, ySize) || r.value == ClampAxis(xrad, cx, xSize)
      || r.value == 2500.0 / scaling
  {
    if scaling == 0.0 then Err(NoScaling)
    else
      var y, x := ClampAxis(yrad, cy, ySize), ClampAxis(xrad, cx, xSize);
      Ok(Min(Min(y, x), 2500.0 / scaling))
  }

  lemma MaskedSnoc(g: Grid, m: Mask, k: nat)
    requires SameShape(g, m) && k < |g|
    ensures Masked(g[..k + 1], m[..k + 1]) == Masked(g[..k], m[..k]) + MaskedRow(g[k], m[k])
  {
    assert g[..k + 1][..k] == g[..k] && m[..k + 1][..k] == m[..k];
  }

  lemma MaskedRowSnoc(row: seq<real>, m: seq<bool>, k: nat)
    requires |row| == |m| && k < |row|
    ensures MaskedRow(row[..k + 1], m[..k + 1]) == MaskedRow(row[..k], m[..k]) + (if m[k] then [row[k]] else [])
  {
    assert row[..k + 1][..k] == row[..k] && m[..k + 1][..k] == m[..k];
  }

  /** Row `a` of the image as reals. */
  function RowReals(img: array2<nat>, a: nat): (r: seq<real>)
    requires a < img.Length0
    reads img
    ensures |r| == img.Length1 && forall b :: 0 <= b < img.Length1 ==> r[b] == img[a, b] as real
  {
    seq(img.Length1, b requires 0 <= b < img.Length1 reads img => img[a, b] as real)
  }

  /** Row `a` of the circle mask over `n` columns. */
  function CircleRow(a: nat, n: nat, cy: real, cx: real, radius: real): (r: seq<bool>)
    ensures |r| == n && forall b :: 0 <= b < n ==> (r[b] <==> InCircle(a, b, cy, cx, radius))
  {
    seq(n, b => InCircle(a, b, cy, cx, radius))
  }

  /** The inner loop of the ROI scan: row `a`'s pixels inside the circle, left to right. */
  method RowValues(img: array2<nat>, a: nat, cx: real, cy: real, radius: real) returns (vals: seq<real>)
    requires a < img.Length0
    ensures vals == MaskedRow(RowReals(img, a), CircleRow(a, img.Length1, cy, cx, radius))
  {
    ghost var row := RowReals(img, a);
    ghost var m := CircleRow(a, img.Length1, cy, cx, radius);
    vals := [];
    var b := 0;
    while b < img.Length1
      invariant 0 <= b <= img.Length1
      invariant vals == MaskedRow(row[..b], m[..b])
    {
      MaskedRowSnoc(row, m, b);
      if (b as real - cx) * (b as real - cx) + (a as real - cy) * (a as real - cy) <= radius * radius {
        vals := vals + [img[a, b] as real];
      }
      b := b + 1;
    }
    assert row[..b] == row && m[..b] == m;
  }

  /**
   * The ROI loop of `runprocessing`: the pixels with
   * `(b - cx)^2 + (a - cy)^2 <= radius^2`, in row-major order.
   */
  method RoiValues(img: array2<nat>, cx: real, cy: real, radius: real) returns (roi: seq<real>)
    ensures var g := ToGrid(img); roi == Masked(g, CircleMask(g, cy, cx, radius))
  {
    ghost var g := ToGrid(img);
    ghost var m := CircleMask(g, cy, cx, radius);
    roi := [];
    var a := 0;
    while a < img.Length0
      invariant 0 <= a <= img.Length0
      invariant roi == Masked(g[..a], m[..a])
    {
      var vals := RowValues(img, a, cx, cy, radius);
      assert g[a] == RowReals(img, a);
      assert m[a] == CircleRow(a, img.Length1, cy, cx, radius);
      MaskedSnoc(g, m, a);
      roi := roi + vals;
      a := a + 1;
    }
    assert g[..a] == g && m[..a] == m;
  }

  /** The integer nearest `y`, ties to the even one (`ROUND_HALF_EVEN`). */
  function RoundHalfEven(y: real): (k: int)
    ensures -0.5 <= k as real - y <= 0.5
    ensures y - y.Floor as real == 0.5 ==> k % 2 == 0
  {
    var n := y.Floor;
    var f := y - n as real;
    if f > 0.5 || (f == 0.5 && n % 2 != 0) then n + 1 else n
  }

  /**
   * `round(Decimal(x), 3)`: the nearest multiple of 0.001, ties to the even
   * multiple.
   */
  function Round3(x: real): (r: real)
    ensures (r * 1000.0).Floor as real == r * 1000.0
    ensures -0.0005 <= r - x <= 0.0005
    ensures x * 1000.0 - (x * 1000.0).Floor as real == 0.5 ==> (r * 1000.0).Floor % 2 == 0
  {
    var k := RoundHalfEven(x * 1000.0);
    assert (k as real / 1000.0) * 1000.0 == k as real;
    k as real / 1000.0
  }

  /**
   * The ROI mean of `runprocessing`, rounded to three decimals; an empty
   * region makes `statistics.mean` fail.
   */
  method RoiMean(img: array2<nat>, cx: real, cy: real, radius: real) returns (r: Result<real, PixelError>)
    ensures r.Err? <==> forall a, b :: 0 <= a < img.Length0 && 0 <= b < img.Length1 ==> !InCircle(a, b, cy, cx, radius)
    ensures r.Ok? ==> var g := ToGrid(img); var s := Masked(g, CircleMask(g, cy, cx, radius));
      |s| > 0 && r.value == Round3(Mean(s))
  {
    var roi := RoiValues(img, cx, cy, radius);
    ghost var g := ToGrid(img);
    ghost var m := CircleMask(g, cy, cx, radius);
    if |roi| == 0 {
      forall a, b | 0 <= a < img.Length0 && 0 <= b < img.Length1 ensures !InCircle(a, b, cy, cx, radius) {
        if m[a][b] {
          MaskedComplete(g, m, a, b);
        }
      }
      return Err(EmptyRoi);
    }
    MaskedSound(g, m, roi[0]);
    ghost var a, b :| 0 <= a < |g| && 0 <= b < |g[a]| && m[a][b] && g[a][b] == roi[0];
    assert InCircle(a, b, cy, cx, radius);
    return Ok(Round3(Mean(roi)));
  }

  /** The reported mean lies within any bounds of the pixels in the region, up to rounding. */
  lemma RoiMeanWithin(g: Grid, cy: real, cx: real, radius: real, lo: real, hi: real)
    requires |Masked(g, CircleMask(g, cy, cx, radius))| > 0
    requires forall i, j :: 0 <= i < |g| && 0 <= j < |g[i]| && InCircle(i, j, cy, cx, radius) ==> lo <= g[i][j] <= hi
    ensures lo - 0.0005 <= Round3(Mean(Masked(g, CircleMask(g, cy, cx, radius)))) <= hi + 0.0005
  {
    var s := Masked(g, CircleMask(g, cy, cx, radius));
    forall k | 0 <= k < |s| ensures lo <= s[k] <= hi {
      MaskedSound(g, CircleMask(g, cy, cx, radius), s[k]);
    }
    MeanWithin(s, lo, hi);
  }
}
