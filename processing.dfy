/**
 * The region-of-interest pipeline (src/images/processing.py and its copy
 * src/processing/processing_functions.py): percentile normalisation,
 * thresholding, the two circle fitters and the mean over an inclusive circle.
 *
 * OpenCV and numpy numerics are parameters: the percentile, k-means, the
 * 8-bit rescale plus morphology, the ellipse fitted to the largest contour,
 * and the radius estimate `2 * sqrt(min eigenvalue)` of the covariance.
 */
module Processing {

  import opened Wrappers
  import opened Grid

  /** A fitted circle: centre row, centre column, radius. */
  datatype Circle = Circle(centerY: real, centerX: real, radius: real)

  /** `cv.fitEllipse`'s result: centre as (x, y), axes as (major, minor). */
  datatype Ellipse = Ellipse(centerX: real, centerY: real, major: real, minor: real, angle: real)

  datatype FitError =
    | NoContour        // `max` over an empty contour list
    | EmptyForeground  // `np.partition` on an empty coordinate array
    | ZeroScaling      // `max_radius // img_scaling` with a zero scaling
    | ZeroPercentile   // normalising by a zero percentile
    | Degenerate       // `eigvals` of a covariance that is NaN, or `math.sqrt` of a negative eigenvalue

  /** Python's `a // b` on floats. */
  function FloorDiv(a: real, b: real): (r: real)
    requires b != 0.0
    ensures r <= a / b < r + 1.0
  {
    (a / b).Floor as real
  }

  // ---------------------------------------------------------------- normalize

  /** One pixel of `clip(v * (white_point / ubound), None, white_point)`. */
  function NormalizePixel(v: real, whitePoint: int, ubound: real): real
    requires ubound != 0.0
  {
    var scaled := v * (whitePoint as real / ubound);
    if scaled > whitePoint as real then whitePoint as real else scaled
  }

  /** Scales by `white_point / ubound` and clips from above at the white point. */
  function Normalize(g: Grid, whitePoint: int, ubound: real): (r: Grid)
    requires ubound != 0.0
    ensures SameShape(r, g)
    ensures forall i, j :: 0 <= i < |r| && 0 <= j < |r[i]| ==> r[i][j] <= whitePoint as real
    ensures forall i, j :: 0 <= i < |r| && 0 <= j < |r[i]| ==> r[i][j] == NormalizePixel(g[i][j], whitePoint, ubound)
  {
    seq(|g|, i requires 0 <= i < |g| => seq(|g[i]|, j requires 0 <= j < |g[i]| => NormalizePixel(g[i][j], whitePoint, ubound)))
  }

  /** A pixel at the percentile maps to the white point. */
  lemma NormalizeAtPercentile(whitePoint: int, ubound: real)
    requires ubound != 0.0
    ensures NormalizePixel(ubound, whitePoint, ubound) == whitePoint as real
  {
    calc {
      ubound * (whitePoint as real / ubound);
      (ubound / ubound) * whitePoint as real;
      whitePoint as real;
    }
  }

  /** With a positive percentile and white point, normalisation keeps the order of pixels. */
  lemma NormalizeMonotone(v: real, w: real, whitePoint: int, ubound: real)
    requires ubound > 0.0 && whitePoint >= 0 && v <= w
    ensures NormalizePixel(v, whitePoint, ubound) <= NormalizePixel(w, whitePoint, ubound)
  {
    var k := whitePoint as real / ubound;
    assert k >= 0.0;
    assert v * k <= w * k;
  }

  /** Pixels below the percentile are scaled linearly, not clipped. */
  lemma NormalizeBelowPercentile(v: real, whitePoint: int, ubound: real)
    requires ubound > 0.0 && whitePoint >= 0 && v <= ubound
    ensures NormalizePixel(v, whitePoint, ubound) == v * whitePoint as real / ubound
  {
    NormalizeMonotone(v, ubound, whitePoint, ubound);
    NormalizeAtPercentile(whitePoint, ubound);
    var k := whitePoint as real / ubound;
    assert v * k <= ubound * k;
    assert ubound * k == whitePoint as real;
  }

  // ---------------------------------------------------------------- threshold

  /** `np.where(img > threshold, 1, 0)`: 1 where the pixel is strictly above the level. */
  function Threshold(g: Grid, level: int): (r: Grid)
    ensures SameShape(r, g)
    ensures forall i, j :: 0 <= i < |r| && 0 <= j < |r[i]| ==>
      r[i][j] == (if g[i][j] > level as real then 1.0 else 0.0)
  {
    seq(|g|, i requires 0 <= i < |g| => seq(|g[i]|, j requires 0 <= j < |g[i]| => if g[i][j] > level as real then 1.0 else 0.0))
  }

  /** A thresholded image is binary, and its foreground is exactly the pixels above the level. */
  lemma ThresholdForeground(g: Grid, level: int, i: int, j: int)
    requires 0 <= i < |g| && 0 <= j < |g[i]|
    ensures var r := Threshold(g, level); (r[i][j] == 0.0 || r[i][j] == 1.0) && (r[i][j] > 0.0 <==> g[i][j] > level as real)
  {
  }

  // ---------------------------------------------------------------- radius cap

  /** `max_radius // img_scaling`. */
  function RadiusCap(maxRadius: int, scaling: real): (r: Result<real, FitError>)
    ensures r.Err? <==> scaling == 0.0
    ensures r.Ok? ==> r.value <= maxRadius as real / scaling < r.value + 1.0
  {
    if scaling == 0.0 then Err(ZeroScaling) else Ok(FloorDiv(maxRadius as real, scaling))
  }

  function Min(a: real, b: real): real
  {
    if b < a then b else a
  }

  // ---------------------------------------------------------------- contour fitter

  /**
   * The contour fitter: `fitEllipse` of the largest external contour gives
   * the centre (unpacked as x, y) and the minor axis; the radius is the
   * floor-halved minor axis capped by `max_radius // img_scaling`.
   * `ellipseOf` stands for the distance transform, morphology and contour
   * search, and is `None` when no contour is found.
   */
  function CircleContour(g: Grid, scaling: real, maxRadius: int, ellipseOf: Grid -> Option<Ellipse>): (r: Result<Circle, FitError>)
    ensures r.Err? <==> ellipseOf(g).None? || scaling == 0.0
    ensures ellipseOf(g).None? ==> r == Err(NoContour)
    ensures r.Ok? ==>
      && r.value.centerY == ellipseOf(g).value.centerY
      && r.value.centerX == ellipseOf(g).value.centerX
      && r.value.radius <= RadiusCap(maxRadius, scaling).value
      && r.value.radius <= FloorDiv(ellipseOf(g).value.minor, 2.0)
      && (r.value.radius == RadiusCap(maxRadius, scaling).value || r.value.radius == FloorDiv(ellipseOf(g).value.minor, 2.0))
  {
    match ellipseOf(g)
    case None => Err(NoContour)
    case Some(e) =>
      match RadiusCap(maxRadius, scaling)
      case Err(err) => Err(err)
      case Ok(cap) => Ok(Circle(e.centerY, e.centerX, Min(FloorDiv(e.minor, 2.0), cap)))
  }

  // ---------------------------------------------------------------- eigenvalue fitter

  /** Row-major positions of the pixels of one row that are above 0. */
  function RowHits(row: seq<real>, y: int): (r: seq<(int, int)>)
    ensures forall k :: 0 <= k < |r| ==> r[k].0 == y && 0 <= r[k].1 < |row| && row[r[k].1] > 0.0
  {
    if row == [] then []
    else
      var x := |row| - 1;
      RowHits(row[..x], y) + (if row[x] > 0.0 then [(y, x)] else [])
  }

  /** `np.where(img > 0)` as (row, column) pairs in row-major order. */
  function Hits(g: Grid): (r: seq<(int, int)>)
    ensures forall k :: 0 <= k < |r| ==> 0 <= r[k].0 < |g| && 0 <= r[k].1 < |g[r[k].0]| && g[r[k].0][r[k].1] > 0.0
  {
    if g == [] then []
    else
      var y := |g| - 1;
      var p := Hits(g[..y]);
      assert forall k :: 0 <= k < |p| ==> g[..y][p[k].0] == g[p[k].0];
      p + RowHits(g[y], y)
  }

  lemma {:induction false} RowHitsComplete(row: seq<real>, y: int, x: int)
    requires 0 <= x < |row| && row[x] > 0.0
    ensures (y, x) in RowHits(row, y)
  {
    if x < |row| - 1 {
      assert row[..|row| - 1][x] == row[x];
      RowHitsComplete(row[..|row| - 1], y, x);
    }
  }

  /** Every pixel above 0 is among the foreground positions. */
  lemma {:induction false} HitsComplete(g: Grid, y: int, x: int)
    requires 0 <= y < |g| && 0 <= x < |g[y]| && g[y][x] > 0.0
    ensures (y, x) in Hits(g)
  {
    if y < |g| - 1 {
      assert g[..|g| - 1][y] == g[y];
      HitsComplete(g[..|g| - 1], y, x);
    } else {
      RowHitsComplete(g[y], y, x);
    }
  }

  function Rows(h: seq<(int, int)>): (r: seq<int>)
    ensures |r| == |h| && forall k :: 0 <= k < |h| ==> r[k] == h[k].0
  {
    seq(|h|, k requires 0 <= k < |h| => h[k].0)
  }

  function Columns(h: seq<(int, int)>): (r: seq<int>)
    ensures |r| == |h| && forall k :: 0 <= k < |h| ==> r[k] == h[k].1
  {
    seq(|h|, k requires 0 <= k < |h| => h[k].1)
  }

  ghost predicate Sorted(s: seq<int>)
  {
    forall i, j :: 0 <= i < j < |s| ==> s[i] <= s[j]
  }

  function Insert(x: int, s: seq<int>): (r: seq<int>)
    requires Sorted(s)
    ensures Sorted(r) && multiset(r) == multiset(s) + multiset{x} && |r| == |s| + 1
  {
    if s == [] then [x]
    else if x <= s[0] then
      SortedCons(x, s);
      [x] + s
    else
      var t := Insert(x, s[1..]);
      assert s == [s[0]] + s[1..];
      LowerBound(s[1..] + [x], t, s[0]);
      SortedCons(s[0], t);
      [s[0]] + t
  }

  /** A sorted sequence stays sorted under a new first element no larger than the old first. */
  lemma SortedCons(y: int, t: seq<int>)
    requires Sorted(t) && (t != [] ==> y <= t[0])
    ensures Sorted([y] + t)
  {
    var r := [y] + t;
    forall i, j | 0 <= i < j < |r| ensures r[i] <= r[j] {
      if i == 0 {
        assert r[j] == t[j - 1] && t[0] <= t[j - 1];
      } else {
        assert r[i] == t[i - 1] && r[j] == t[j - 1];
      }
    }
  }

  /** A bound on every element carries over to any permutation. */
  lemma LowerBound(u: seq<int>, t: seq<int>, m: int)
    requires multiset(t) == multiset(u)
    requires forall i :: 0 <= i < |u| ==> m <= u[i]
    ensures forall k :: 0 <= k < |t| ==> m <= t[k]
  {
    forall k | 0 <= k < |t| ensures m <= t[k] {
      assert t[k] in multiset(u);
    }
  }

  /** The values of `s` in ascending order. */
  function SortInts(s: seq<int>): (r: seq<int>)
    ensures Sorted(r) && multiset(r) == multiset(s) && |r| == |s|
  {
    if s == [] then []
    else
      assert s == s[..|s| - 1] + [s[|s| - 1]];
      Insert(s[|s| - 1], SortInts(s[..|s| - 1]))
  }

  /** `np.partition(s, |s| // 2)[|s| // 2]`: the element of rank `|s| // 2`. */
  function UpperMedian(s: seq<int>): (r: int)
    requires |s| > 0
    ensures r in s
  {
    var t := SortInts(s);
    assert t[|s| / 2] in multiset(s);
    t[|s| / 2]
  }

  /** How many elements of `s` are at most `m`. */
  function CountAtMost(s: seq<int>, m: int): nat
  {
    if s == [] then 0 else CountAtMost(s[..|s| - 1], m) + (if s[|s| - 1] <= m then 1 else 0)
  }

  /** How many elements of `s` are at least `m`. */
  function CountAtLeast(s: seq<int>, m: int): nat
  {
    if s == [] then 0 else CountAtLeast(s[..|s| - 1], m) + (if s[|s| - 1] >= m then 1 else 0)
  }

  lemma {:induction false} CountAtMostConcat(a: seq<int>, b: seq<int>, m: int)
    ensures CountAtMost(a + b, m) == CountAtMost(a, m) + CountAtMost(b, m)
  {
    if b != [] {
      assert (a + b)[..|a + b| - 1] == a + b[..|b| - 1];
      CountAtMostConcat(a, b[..|b| - 1], m);
    } else {
      assert a + b == a;
    }
  }

  lemma {:induction false} CountAtLeastConcat(a: seq<int>, b: seq<int>, m: int)
    ensures CountAtLeast(a + b, m) == CountAtLeast(a, m) + CountAtLeast(b, m)
  {
    if b != [] {
      assert (a + b)[..|a + b| - 1] == a + b[..|b| - 1];
      CountAtLeastConcat(a, b[..|b| - 1], m);
    } else {
      assert a + b == a;
    }
  }

  /** Removing one element lowers each count by that element's contribution. */
  lemma CountRemove(t: seq<int>, j: int, m: int)
    requires 0 <= j < |t|
    ensures var q := t[..j] + t[j + 1..];
      && multiset(q) == multiset(t) - multiset{t[j]}
      && CountAtMost(t, m) == CountAtMost(q, m) + (if t[j] <= m then 1 else 0)
      && CountAtLeast(t, m) == CountAtLeast(q, m) + (if t[j] >= m then 1 else 0)
  {
    var a, x, b := t[..j], t[j], t[j + 1..];
    assert t == a + ([x] + b);
    assert multiset(t) == multiset(a) + multiset{x} + multiset(b);
    CountAtMostConcat(a, [x] + b, m);
    CountAtMostConcat([x], b, m);
    CountAtMostConcat(a, b, m);
    CountAtLeastConcat(a, [x] + b, m);
    CountAtLeastConcat([x], b, m);
    CountAtLeastConcat(a, b, m);
    assert [x][..0] == [];
  }

  /** The counts depend only on the multiset of elements. */
  lemma {:induction false} CountsPermutation(s: seq<int>, t: seq<int>, m: int)
    requires multiset(s) == multiset(t)
    ensures CountAtMost(s, m) == CountAtMost(t, m) && CountAtLeast(s, m) == CountAtLeast(t, m)
    decreases |s|
  {
    if s == [] {
      assert |t| == |multiset(t)| == 0;
    } else {
      var x := s[|s| - 1];
      var p := s[..|s| - 1];
      assert s == p + [x];
      assert multiset(s) == multiset(p) + multiset{x};
      assert x in multiset(t);
      var j :| 0 <= j < |t| && t[j] == x;
      CountRemove(t, j, m);
      var q := t[..j] + t[j + 1..];
      assert multiset(p) == multiset(q);
      CountsPermutation(p, q, m);
    }
  }

  /** In a sorted sequence at least k + 1 elements are at most t[k], and at least |t| - k are at least it. */
  lemma SortedCounts(t: seq<int>, k: int)
    requires Sorted(t) && 0 <= k < |t|
    ensures CountAtMost(t, t[k]) >= k + 1 && CountAtLeast(t, t[k]) >= |t| - k
  {
    SortedCountAtMost(t, k);
    SortedCountAtLeast(t, k);
  }

  lemma SortedCountAtMost(t: seq<int>, k: int)
    requires Sorted(t) && 0 <= k < |t|
    ensures CountAtMost(t, t[k]) >= k + 1
  {
    var lo, hi := t[..k + 1], t[k + 1..];
    assert t == lo + hi;
    CountAtMostConcat(lo, hi, t[k]);
    forall i | 0 <= i < |lo| ensures lo[i] <= t[k] {
      assert lo[i] == t[i];
    }
    AllAtMost(lo, t[k]);
  }

  lemma SortedCountAtLeast(t: seq<int>, k: int)
    requires Sorted(t) && 0 <= k < |t|
    ensures CountAtLeast(t, t[k]) >= |t| - k
  {
    var lo, hi := t[..k], t[k..];
    assert t == lo + hi;
    CountAtLeastConcat(lo, hi, t[k]);
    forall i | 0 <= i < |hi| ensures hi[i] >= t[k] {
      assert hi[i] == t[k + i];
    }
    AllAtLeast(hi, t[k]);
  }

  lemma {:induction false} AllAtMost(s: seq<int>, m: int)
    requires forall i :: 0 <= i < |s| ==> s[i] <= m
    ensures CountAtMost(s, m) == |s|
  {
    if s != [] { AllAtMost(s[..|s| - 1], m); }
  }

  lemma {:induction false} AllAtLeast(s: seq<int>, m: int)
    requires forall i :: 0 <= i < |s| ==> s[i] >= m
    ensures CountAtLeast(s, m) == |s|
  {
    if s != [] { AllAtLeast(s[..|s| - 1], m); }
  }

  /**
   * The upper median splits the values: more than half of them, counting
   * the median, are at most it, and at least half are at least it.
   */
  lemma UpperMedianRank(s: seq<int>)
    requires |s| > 0
    ensures CountAtMost(s, UpperMedian(s)) >= |s| / 2 + 1
    ensures CountAtLeast(s, UpperMedian(s)) >= |s| - |s| / 2
  {
    var t := SortInts(s);
    SortedCounts(t, |s| / 2);
    CountsPermutation(s, t, t[|s| / 2]);
  }

  /** Every coordinate of `s` minus `c`. */
  function Recentred(s: seq<int>, c: int): (r: seq<int>)
    ensures |r| == |s| && forall k :: 0 <= k < |s| ==> r[k] == s[k] - c
  {
    seq(|s|, k requires 0 <= k < |s| => s[k] - c)
  }

  /**
   * The eigenvalue fitter: the centre is the upper median of the rows and of
   * the columns of the pixels above 0, and the radius is `estimate` (of the
   * coordinates recentred on that centre) capped by `max_radius // img_scaling`.
   * With no pixel above 0, `np.partition` fails before anything else. With
   * one, `np.cov` divides by zero degrees of freedom and `eigvals` rejects the
   * NaN matrix. `estimate` is `None` where it raises otherwise (a negative
   * eigenvalue under `math.sqrt`); it runs before the cap is computed.
   */
  function CircleEigenvalue(g: Grid, scaling: real, maxRadius: int,
                            estimate: (seq<int>, seq<int>) -> Option<real>): (r: Result<Circle, FitError>)
    ensures r == Err(EmptyForeground) <==> Hits(g) == []
    ensures |Hits(g)| == 1 ==> r == Err(Degenerate)
    ensures r.Err? <==>
      || |Hits(g)| <= 1
      || estimate(Recentred(Rows(Hits(g)), UpperMedian(Rows(Hits(g)))),
                  Recentred(Columns(Hits(g)), UpperMedian(Columns(Hits(g))))).None?
      || scaling == 0.0
    ensures r.Ok? ==>
      && r.value.centerY == UpperMedian(Rows(Hits(g))) as real
      && r.value.centerX == UpperMedian(Columns(Hits(g))) as real
      && r.value.radius == Min(estimate(Recentred(Rows(Hits(g)), UpperMedian(Rows(Hits(g)))),
                                        Recentred(Columns(Hits(g)), UpperMedian(Columns(Hits(g))))).value,
                               RadiusCap(maxRadius, scaling).value)
  {
    var h := Hits(g);
    if h == [] then Err(EmptyForeground)
    else if |h| == 1 then Err(Degenerate)
    else
      var cy := UpperMedian(Rows(h));
      var cx := UpperMedian(Columns(h));
      match estimate(Recentred(Rows(h), cy), Recentred(Columns(h), cx))
      case None => Err(Degenerate)
      case Some(radius) =>
        match RadiusCap(maxRadius, scaling)
        case Err(err) => Err(err)
        case Ok(cap) => Ok(Circle(cy as real, cx as real, Min(radius, cap)))
  }

  /** The eigenvalue centre is a foreground row and a foreground column. */
  lemma EigenvalueCentreInForeground(g: Grid, scaling: real, maxRadius: int, estimate: (seq<int>, seq<int>) -> Option<real>)
    requires CircleEigenvalue(g, scaling, maxRadius, estimate).Ok?
    ensures var c := CircleEigenvalue(g, scaling, maxRadius, estimate).value;
      (exists y, x :: 0 <= y < |g| && 0 <= x < |g[y]| && g[y][x] > 0.0 && c.centerY == y as real) &&
      (exists y, x :: 0 <= y < |g| && 0 <= x < |g[y]| && g[y][x] > 0.0 && c.centerX == x as real)
  {
    var c := CircleEigenvalue(g, scaling, maxRadius, estimate).value;
    var y0, x0 := MedianRowHit(g);
    var y1, x1 := MedianColumnHit(g);
    assert c.centerY == y0 as real && c.centerX == x1 as real;
  }

  /** A foreground pixel on the median row of the foreground. */
  lemma MedianRowHit(g: Grid) returns (y: int, x: int)
    requires Hits(g) != []
    ensures 0 <= y < |g| && 0 <= x < |g[y]| && g[y][x] > 0.0 && y == UpperMedian(Rows(Hits(g)))
  {
    var h := Hits(g);
    var a :| 0 <= a < |h| && Rows(h)[a] == UpperMedian(Rows(h));
    y, x := h[a].0, h[a].1;
  }

  /** A foreground pixel on the median column of the foreground. */
  lemma MedianColumnHit(g: Grid) returns (y: int, x: int)
    requires Hits(g) != []
    ensures 0 <= y < |g| && 0 <= x < |g[y]| && g[y][x] > 0.0 && x == UpperMedian(Columns(Hits(g)))
  {
    var h := Hits(g);
    var b :| 0 <= b < |h| && Columns(h)[b] == UpperMedian(Columns(h));
    y, x := h[b].0, h[b].1;
  }

  // ---------------------------------------------------------------- mean intensity

  /**
   * The pixels with `(y - cy)^2 + (x - cx)^2 <= r^2`, in row-major order, and
   * their mean; exactly 0.0 when the circle selects nothing.
   */
  function MeanIntensity(g: Grid, roi: Circle): (r: real)
    ensures r != 0.0 ==>
      exists i, j :: 0 <= i < |g| && 0 <= j < |g[i]| && InCircle(i, j, roi.centerY, roi.centerX, roi.radius)
  {
    var m := CircleMask(g, roi.centerY, roi.centerX, roi.radius);
    var selected := Masked(g, m);
    if |selected| != 0 then MaskedSound(g, m, selected[0]); Mean(selected) else 0.0
  }

  /**
   * The mean lies between any bounds of the pixels inside the circle, and is
   * 0.0 exactly when (apart from a mean that happens to be 0.0) the circle
   * selects no pixel of the image.
   */
  lemma MeanIntensityBounds(g: Grid, roi: Circle, lo: real, hi: real)
    requires forall i, j :: 0 <= i < |g| && 0 <= j < |g[i]| && InCircle(i, j, roi.centerY, roi.centerX, roi.radius) ==>
      lo <= g[i][j] <= hi
    ensures (forall i, j :: 0 <= i < |g| && 0 <= j < |g[i]| ==> !InCircle(i, j, roi.centerY, roi.centerX, roi.radius)) ==>
      MeanIntensity(g, roi) == 0.0
    ensures (exists i, j :: 0 <= i < |g| && 0 <= j < |g[i]| && InCircle(i, j, roi.centerY, roi.centerX, roi.radius)) ==>
      lo <= MeanIntensity(g, roi) <= hi
  {
    var m := CircleMask(g, roi.centerY, roi.centerX, roi.radius);
    var s := Masked(g, m);
    if |s| > 0 {
      forall k | 0 <= k < |s| ensures lo <= s[k] <= hi {
        MaskedSound(g, m, s[k]);
      }
      MeanWithin(s, lo, hi);
      MaskedSound(g, m, s[0]);
    } else {
      forall i, j | 0 <= i < |g| && 0 <= j < |g[i]| ensures !InCircle(i, j, roi.centerY, roi.centerX, roi.radius) {
        if m[i][j] {
          MaskedComplete(g, m, i, j);
        }
      }
    }
  }

  // ---------------------------------------------------------------- the processor

  datatype Masker = KMeans | Thresholding(level: int)
  datatype Fitter = ContourFitter(maxRadius: int) | EigenvalueFitter(maxRadius: int)

  /** The strategies a `Processor` holds: an optional percentile normaliser, a masker and a fitter. */
  datatype Strategies = Strategies(normalizer: Option<real>, masker: Masker, fitter: Fitter)

  /**
   * `Processor.__init__`: normalise (at the given percentile) iff
   * `normalization`; k-means iff the masking method is `K-Means`, otherwise
   * thresholding at the level; the eigenvalue fitter iff the radius method is
   * `Eigenvalue`, otherwise the contour fitter; both with `max_radius`.
   */
  function NewProcessor(normalization: bool, percentile: real, maskingMethod: string, thresholdLevel: int,
                        radiusMethod: string, maxRadius: int): (p: Strategies)
    ensures p.normalizer.Some? <==> normalization
    ensures p.normalizer.Some? ==> p.normalizer.value == percentile
    ensures p.masker.KMeans? <==> maskingMethod == "K-Means"
    ensures p.masker.Thresholding? ==> p.masker.level == thresholdLevel
    ensures p.fitter.EigenvalueFitter? <==> radiusMethod == "Eigenvalue"
    ensures p.fitter.maxRadius == maxRadius
  {
    Strategies(
      if normalization then Some(percentile) else None,
      if maskingMethod == "K-Means" then KMeans else Thresholding(thresholdLevel),
      if radiusMethod == "Eigenvalue" then EigenvalueFitter(maxRadius) else ContourFitter(maxRadius))
  }

  /** The numerics the pipeline takes from numpy and OpenCV. */
  datatype Numerics = Numerics(
    percentile: (Grid, real) -> real,              // np.percentile
    kmeans: Grid -> Grid,                          // two-cluster k-means, each pixel replaced by its centre
    prepare: Grid -> Grid,                         // cv.normalize to 0..255 then opening and closing
    ellipseOf: Grid -> Option<Ellipse>,            // the contour fitter's OpenCV steps
    estimate: (seq<int>, seq<int>) -> Option<real>) // 2 * sqrt(min eigenvalue of the covariance)

  function Fit(f: Fitter, g: Grid, scaling: real, ops: Numerics): Result<Circle, FitError>
  {
    match f
    case ContourFitter(maxRadius) => CircleContour(g, scaling, maxRadius, ops.ellipseOf)
    case EigenvalueFitter(maxRadius) => CircleEigenvalue(g, scaling, maxRadius, ops.estimate)
  }

  /** The normalised (if configured) and masked image the fitter works on, before `prepare`. */
  function MaskImage(p: Strategies, g: Grid, whitePoint: int, ops: Numerics): (r: Result<Grid, FitError>)
    ensures r.Err? <==> p.normalizer.Some? && ops.percentile(g, p.normalizer.value) == 0.0
    ensures r.Err? ==> r.error == ZeroPercentile
    ensures r.Ok? && p.masker.Thresholding? ==>
      && SameShape(r.value, g)
      && forall i, j :: 0 <= i < |g| && 0 <= j < |g[i]| ==>
           (r.value[i][j] == 0.0 || r.value[i][j] == 1.0)
           && (r.value[i][j] == 1.0 <==>
                 (if p.normalizer.None? then g[i][j]
                  else NormalizePixel(g[i][j], whitePoint, ops.percentile(g, p.normalizer.value))) > p.masker.level as real)
  {
    var normalized :=
      if p.normalizer.None? then Ok(g)
      else
        var ubound := ops.percentile(g, p.normalizer.value);
        if ubound == 0.0 then Err(ZeroPercentile) else Ok(Normalize(g, whitePoint, ubound));
    match normalized
    case Err(e) => Err(e)
    case Ok(n) =>
      Ok(match p.masker
         case KMeans => ops.kmeans(n)
         case Thresholding(level) => Threshold(n, level))
  }

  /**
   * `circular_mean_fluorescence`: the circle is fitted on the prepared mask,
   * but the mean is taken over the original image.
   */
  function CircularMeanFluorescence(p: Strategies, g: Grid, scaling: real, whitePoint: int, ops: Numerics)
    : (r: Result<(real, Circle), FitError>)
    ensures r.Ok? ==> r.value.0 == MeanIntensity(g, r.value.1)
    ensures r.Ok? <==> MaskImage(p, g, whitePoint, ops).Ok? && Fit(p.fitter, ops.prepare(MaskImage(p, g, whitePoint, ops).value), scaling, ops).Ok?
    ensures r.Ok? ==> r.value.1 == Fit(p.fitter, ops.prepare(MaskImage(p, g, whitePoint, ops).value), scaling, ops).value
  {
    match MaskImage(p, g, whitePoint, ops)
    case Err(e) => Err(e)
    case Ok(masked) =>
      match Fit(p.fitter, ops.prepare(masked), scaling, ops)
      case Err(e) => Err(e)
      case Ok(c) => Ok((MeanIntensity(g, c), c))
  }

  /** Whatever the strategies, a fitted radius never exceeds `max_radius // img_scaling`. */
  lemma FittedRadiusCapped(f: Fitter, g: Grid, scaling: real, ops: Numerics)
    requires Fit(f, g, scaling, ops).Ok?
    ensures RadiusCap(f.maxRadius, scaling).Ok?
    ensures Fit(f, g, scaling, ops).value.radius <= RadiusCap(f.maxRadius, scaling).value
  {
  }
}
