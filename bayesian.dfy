/**
 * The Bayesian threshold trainer and the segmentation tester
 * (src/images/bayesian.py, the second `Trainer` and `Tester`).
 *
 * `Trainer.update` pools the raw pixels under the true and the false region
 * of a ground-truth mask; `train` weighs the two density histograms by their
 * class priors and returns the first bin where they are closest. `Tester`
 * counts true/false positives/negatives of a pipeline's mask against ground
 * truth and `report` derives precision, sensitivity and F1.
 *
 * Reading files, `np.histogram` and the pipeline are parameters.
 */
module Bayesian {

  import opened Wrappers
  import opened Grid

  // ---------------------------------------------------------------- arg-min

  /** The first index of a smallest element (`np.argmin`). */
  function ArgMin(s: seq<real>): (r: nat)
    requires |s| > 0
    ensures r < |s|
    ensures forall j :: 0 <= j < |s| ==> s[r] <= s[j]
    ensures forall j :: 0 <= j < r ==> s[j] > s[r]
  {
    if |s| == 1 then 0
    else
      var k := ArgMin(s[..|s| - 1]);
      assert forall j :: 0 <= j < |s| - 1 ==> s[..|s| - 1][j] == s[j];
      if s[|s| - 1] < s[k] then |s| - 1 else k
  }

  function Abs(x: real): (r: real)
    ensures r >= 0.0 && (r == x || r == -x)
  {
    if x < 0.0 then -x else x
  }

  // ---------------------------------------------------------------- training

  /**
   * `np.histogram(values, bins, range=(0, bins - 1), density=True)`: `bins`
   * densities, for values of which at least one lies in the range.
   */
  type Density = f: (seq<real>, nat) -> seq<real> | forall v: seq<real>, n: nat :: |f(v, n)| == n
    witness (v: seq<real>, n: nat) => seq(n, _ => 0.0)

  /**
   * The closed range `np.histogram` counts for `range=(0, bins - 1)`. numpy
   * widens an empty range `(0, 0)` to `(-0.5, 0.5)`.
   */
  function HistogramRange(bins: int): (r: (real, real))
    ensures r.0 < r.1
  {
    if bins >= 2 then (0.0, (bins - 1) as real) else (-0.5, 0.5)
  }

  /** How many of `values` lie in the closed range `[lo, hi]`. */
  function InRange(values: seq<real>, lo: real, hi: real): (r: nat)
    ensures r <= |values|
    ensures r == 0 <==> forall i :: 0 <= i < |values| ==> values[i] < lo || hi < values[i]
  {
    if values == [] then 0
    else
      var v := values[|values| - 1];
      InRange(values[..|values| - 1], lo, hi) + (if lo <= v <= hi then 1 else 0)
  }

  /**
   * The densities of `values` have NaN in every bin when no value is counted:
   * numpy divides the zero counts by their zero sum. Every gap is then NaN,
   * and `np.argmin` returns the first NaN, bin 0.
   */
  predicate AllNaN(values: seq<real>, bins: int)
  {
    InRange(values, HistogramRange(bins).0, HistogramRange(bins).1) == 0
  }

  datatype TrainError =
    | NoUpdates    // `np.concatenate` of an empty list
    | EmptyPools   // both pools empty: the prior divides by zero
    | BadBins      // `np.histogram` with a number of bins below 1

  /** `|h_true * p_true - h_false * p_false|` per bin. */
  function Gaps(hTrue: seq<real>, hFalse: seq<real>, pTrue: real, pFalse: real): (r: seq<real>)
    requires |hTrue| == |hFalse|
    ensures |r| == |hTrue|
  {
    seq(|hTrue|, i requires 0 <= i < |hTrue| => Abs(hTrue[i] * pTrue - hFalse[i] * pFalse))
  }

  /** `np.concatenate`: every pooled value, and only those. */
  function Concat(pools: seq<seq<real>>): (r: seq<real>)
    ensures forall k :: 0 <= k < |pools| ==> |r| >= |pools[k]|
    ensures forall k, i :: 0 <= k < |pools| && 0 <= i < |pools[k]| ==> pools[k][i] in r
    ensures forall v :: v in r ==> exists k :: 0 <= k < |pools| && v in pools[k]
  {
    if pools == [] then []
    else
      var front := pools[..|pools| - 1];
      assert forall k :: 0 <= k < |front| ==> front[k] == pools[k];
      Concat(front) + pools[|pools| - 1]
  }

  /** The share of the true pool among all pooled pixels. */
  function Prior(nTrue: nat, nFalse: nat): (r: real)
    requires nTrue + nFalse > 0
    ensures 0.0 <= r <= 1.0
    ensures r == 0.0 <==> nTrue == 0
    ensures r == 1.0 <==> nFalse == 0
  {
    nTrue as real / (nTrue + nFalse) as real
  }

  class Trainer {
    const truthIntensity: int
    const preprocessing: Option<Grid -> Grid>
    const bins: int
    var truePools: seq<seq<real>>
    var falsePools: seq<seq<real>>

    /** Both pools grow together, one entry per update. */
    ghost predicate Valid()
      reads this
    {
      |truePools| == |falsePools|
    }

    constructor (truthIntensity: int, preprocessing: Option<Grid -> Grid>, bins: int)
      ensures Valid() && truePools == [] && falsePools == []
      ensures this.truthIntensity == truthIntensity && this.preprocessing == preprocessing && this.bins == bins
    {
      this.truthIntensity := truthIntensity;
      this.preprocessing := preprocessing;
      this.bins := bins;
      truePools := [];
      falsePools := [];
    }

    /** The raw pixels after the optional preprocessing. */
    function Prepared(raw: Grid): Grid
      reads this
    {
      if preprocessing.Some? then preprocessing.value(raw) else raw
    }

    /**
     * Appends the raw pixels where the truth equals the truth intensity to
     * the true pool and those where it is 0 to the false pool, row-major.
     */
    method Update(raw: Grid, truth: Grid)
      requires Valid() && SameShape(Prepared(raw), truth)
      modifies this
      ensures Valid()
      ensures truePools == old(truePools) + [Masked(Prepared(raw), EqMask(truth, truthIntensity as real))]
      ensures falsePools == old(falsePools) + [Masked(Prepared(raw), EqMask(truth, 0.0))]
    {
      var prepared := if preprocessing.Some? then preprocessing.value(raw) else raw;
      truePools := truePools + [Masked(prepared, EqMask(truth, truthIntensity as real))];
      falsePools := falsePools + [Masked(prepared, EqMask(truth, 0.0))];
    }

    /**
     * `train`: the first bin minimising `|h_true * p_true - h_false * p_false|`,
     * with `p_true` the true pool's share of all pooled pixels. When either
     * pool has no value inside the histogram's range, its densities are NaN
     * and so is every gap, and `np.argmin` gives bin 0.
     */
    function Train(density: Density): (r: Result<nat, TrainError>)
      reads this
      requires Valid()
      ensures r == Err(NoUpdates) <==> truePools == []
      ensures r.Err? <==> truePools == [] || |Concat(truePools)| + |Concat(falsePools)| == 0 || bins < 1
      ensures r.Ok? ==> r.value < bins
      ensures r.Ok? && (AllNaN(Concat(truePools), bins) || AllNaN(Concat(falsePools), bins)) ==> r.value == 0
      ensures r.Ok? && !AllNaN(Concat(truePools), bins) && !AllNaN(Concat(falsePools), bins) ==>
        var pTrue := Prior(|Concat(truePools)|, |Concat(falsePools)|);
        var gaps := Gaps(density(Concat(truePools), bins), density(Concat(falsePools), bins), pTrue, 1.0 - pTrue);
        (forall j :: 0 <= j < bins ==> gaps[r.value] <= gaps[j]) && (forall j :: 0 <= j < r.value ==> gaps[j] > gaps[r.value])
    {
      if truePools == [] then Err(NoUpdates)
      else
        var t, f := Concat(truePools), Concat(falsePools);
        if |t| + |f| == 0 then Err(EmptyPools)
        else if bins < 1 then Err(BadBins)
        else if AllNaN(t, bins) || AllNaN(f, bins) then Ok(0)
        else
          var pTrue := Prior(|t|, |f|);
          Ok(ArgMin(Gaps(density(t, bins), density(f, bins), pTrue, 1.0 - pTrue)))
    }
  }

  /** A pooled value came from a pixel whose truth is exactly the mark. */
  lemma PoolMembers(raw: Grid, truth: Grid, mark: real, v: real)
    requires SameShape(raw, truth)
    ensures v in Masked(raw, EqMask(truth, mark)) <==>
      exists i, j :: 0 <= i < |raw| && 0 <= j < |raw[i]| && truth[i][j] == mark && raw[i][j] == v
  {
    MaskedMembers(raw, EqMask(truth, mark));
  }

  // ---------------------------------------------------------------- testing

  /** A float that may be NaN, as `np.mean` of nothing is. */
  datatype Float = Num(v: real) | NaN

  function Plus(a: Float, b: Float): Float
  {
    if a.Num? && b.Num? then Num(a.v + b.v) else NaN
  }

  function MeanOrNaN(s: seq<real>): (r: Float)
    ensures r.NaN? <==> |s| == 0
  {
    if |s| == 0 then NaN else Num(Mean(s))
  }

  /** `np.mean(image[mask == v])`: NaN when no pixel of `mask` equals `v`. */
  function RegionMean(image: Grid, mask: Grid, v: real): (r: Float)
    requires SameShape(image, mask)
    ensures r.NaN? <==> CountTrue(EqMask(mask, v)) == 0
  {
    MaskedLength(image, EqMask(mask, v));
    MeanOrNaN(Masked(image, EqMask(mask, v)))
  }

  /** Pixels of `a` equal to `u` where `b` equals `w`. */
  function Both(a: Grid, u: real, b: Grid, w: real): nat
    requires SameShape(a, b)
  {
    CountTrue(And(EqMask(a, u), EqMask(b, w)))
  }

  /**
   * With a nonzero truth intensity, the four outcomes of a pixel exclude
   * each other, so they count at most the image's pixels; exactly its
   * pixels when both masks hold only 0 and the truth intensity.
   */
  lemma OutcomesBound(predicted: Grid, truth: Grid, ti: real)
    requires SameShape(predicted, truth) && ti != 0.0
    ensures Both(predicted, ti, truth, ti) + Both(predicted, ti, truth, 0.0) + Both(predicted, 0.0, truth, 0.0)
      + Both(predicted, 0.0, truth, ti) <= Cells(predicted)
    ensures (forall i, j :: 0 <= i < |predicted| && 0 <= j < |predicted[i]| ==>
        (predicted[i][j] == 0.0 || predicted[i][j] == ti) && (truth[i][j] == 0.0 || truth[i][j] == ti)) ==>
      Both(predicted, ti, truth, ti) + Both(predicted, ti, truth, 0.0) + Both(predicted, 0.0, truth, 0.0)
        + Both(predicted, 0.0, truth, ti) == Cells(predicted)
  {
    var a := And(EqMask(predicted, ti), EqMask(truth, ti));
    var b := And(EqMask(predicted, ti), EqMask(truth, 0.0));
    var c := And(EqMask(predicted, 0.0), EqMask(truth, 0.0));
    var d := And(EqMask(predicted, 0.0), EqMask(truth, ti));
    forall i, j | 0 <= i < |a| && 0 <= j < |a[i]| ensures CellHits(a, b, c, d, i, j) <= 1 { }
    if forall i, j :: 0 <= i < |predicted| && 0 <= j < |predicted[i]| ==>
        (predicted[i][j] == 0.0 || predicted[i][j] == ti) && (truth[i][j] == 0.0 || truth[i][j] == ti)
    {
      forall i, j | 0 <= i < |a| && 0 <= j < |a[i]| ensures CellHits(a, b, c, d, i, j) == 1 { }
    }
    CountFourBound(a, b, c, d);
    assert Cells(a) == Cells(predicted) by { SameShapeCells(a, predicted); }
  }

  lemma {:induction false} SameShapeCells<A, B>(a: seq<seq<A>>, b: seq<seq<B>>)
    requires SameShape(a, b)
    ensures Cells(a) == Cells(b)
  {
    if a != [] {
      SameShapeCells(a[..|a| - 1], b[..|b| - 1]);
    }
  }

  /** A prediction identical to the truth has no false positive and no false negative. */
  lemma IdenticalPrediction(m: Grid, ti: real)
    requires ti != 0.0
    ensures Both(m, ti, m, 0.0) == 0 && Both(m, 0.0, m, ti) == 0
  {
    NoneTrue(And(EqMask(m, ti), EqMask(m, 0.0)));
    NoneTrue(And(EqMask(m, 0.0), EqMask(m, ti)));
  }

  lemma {:induction false} NoneTrue(m: Mask)
    requires forall i, j :: 0 <= i < |m| && 0 <= j < |m[i]| ==> !m[i][j]
    ensures CountTrue(m) == 0
  {
    if m != [] {
      NoneTrue(m[..|m| - 1]);
      NoneTrueRow(m[|m| - 1]);
    }
  }

  lemma {:induction false} NoneTrueRow(r: seq<bool>)
    requires forall j :: 0 <= j < |r| ==> !r[j]
    ensures CountRow(r) == 0
  {
    if r != [] { NoneTrueRow(r[..|r| - 1]); }
  }

  /** No outcome counts more pixels than its prediction has. */
  lemma BothAtMostCells(a: Grid, u: real, b: Grid, w: real)
    requires SameShape(a, b)
    ensures Both(a, u, b, w) <= Cells(a)
  {
    var m := And(EqMask(a, u), EqMask(b, w));
    CountAtMostCells(m);
    SameShapeCells(m, a);
  }

  lemma {:induction false} CountAtMostCells(m: Mask)
    ensures CountTrue(m) <= Cells(m)
  {
    if m != [] {
      CountAtMostCells(m[..|m| - 1]);
      CountRowAtMost(m[|m| - 1]);
    }
  }

  lemma {:induction false} CountRowAtMost(r: seq<bool>)
    ensures CountRow(r) <= |r|
  {
    if r != [] { CountRowAtMost(r[..|r| - 1]); }
  }

  /** One image's outcomes each count at most its cells, and together too for a nonzero truth intensity. */
  lemma OutcomesWithinImage(image: Grid, p: Grid, truth: Grid, ti: real)
    requires SameShape(image, truth) && SameShape(p, truth)
    ensures var n := Cells(image);
      && Both(p, ti, truth, ti) <= n && Both(p, ti, truth, 0.0) <= n
      && Both(p, 0.0, truth, 0.0) <= n && Both(p, 0.0, truth, ti) <= n
      && (ti != 0.0 ==>
            Both(p, ti, truth, ti) + Both(p, ti, truth, 0.0) + Both(p, 0.0, truth, 0.0) + Both(p, 0.0, truth, ti) <= n)
  {
    assert SameShape(p, image);
    SameShapeCells(p, image);
    BothAtMostCells(p, ti, truth, ti);
    BothAtMostCells(p, ti, truth, 0.0);
    BothAtMostCells(p, 0.0, truth, 0.0);
    BothAtMostCells(p, 0.0, truth, ti);
    if ti != 0.0 {
      OutcomesBound(p, truth, ti);
    }
  }

  /** What `report` prints, as numbers; percentages are multiplied by 100. */
  datatype Figures = Figures(
    correct: nat, correctPct: Float,
    incorrect: nat, incorrectPct: Float,
    truePositiveRate: Float, falsePositiveRate: Float,
    trueNegativeRate: Float, falseNegativeRate: Float,
    precision: Float, sensitivity: Float, f1: Float,
    meanDifference: Float)

  datatype ReportError = ZeroDivision

  /** `part / whole * 100`. */
  function Percent(part: nat, whole: nat): (r: real)
    requires whole > 0
    ensures r >= 0.0 && (r == 0.0 <==> part == 0)
    ensures part <= whole ==> r <= 100.0
    ensures r == 100.0 <==> part == whole
  {
    var q := part as real / whole as real;
    assert q == 1.0 <==> part == whole;
    assert part <= whole ==> q <= 1.0;
    q * 100.0
  }

  /** The F1 score `2PS / (P + S)` of two percentages. */
  function Harmonic(p: real, s: real): (r: real)
    requires p >= 0.0 && s >= 0.0 && p + s > 0.0
    ensures p == s ==> r == p
  {
    2.0 * p * s / (p + s)
  }

  /** `part / whole * 100` on numpy integers: `0 / 0` gives NaN instead of raising. */
  function Ratio(part: nat, whole: nat): (r: Float)
    requires whole == 0 ==> part == 0
    ensures r.NaN? <==> whole == 0
    ensures r.Num? ==> r.v == Percent(part, whole)
  {
    if whole == 0 then NaN else Num(Percent(part, whole))
  }

  /**
   * `2PS / (P + S)` on numpy floats: NaN when either is NaN or both are 0,
   * and otherwise between the two.
   */
  function F1(p: Float, s: Float): (r: Float)
    requires p.Num? ==> p.v >= 0.0
    requires s.Num? ==> s.v >= 0.0
    ensures r.Num? <==> p.Num? && s.Num? && p.v + s.v > 0.0
    ensures r.Num? ==> (p.v <= r.v <= s.v || s.v <= r.v <= p.v)
  {
    if p.Num? && s.Num? && p.v + s.v > 0.0 then
      if p.v <= s.v then
        HarmonicBetween(p.v, s.v);
        Num(Harmonic(p.v, s.v))
      else
        HarmonicBetween(s.v, p.v);
        Num(Harmonic(p.v, s.v))
    else NaN
  }

  lemma QuotientAtLeast(a: real, b: real, c: real)
    requires b > 0.0 && a >= c * b
    ensures a / b >= c
  {
  }

  lemma QuotientAtMost(a: real, b: real, c: real)
    requires b > 0.0 && a <= c * b
    ensures a / b <= c
  {
  }

  lemma ProductNonNegative(a: real, b: real)
    requires a >= 0.0 && b >= 0.0
    ensures a * b >= 0.0
  {
  }

  /** The F1 score lies between precision and sensitivity. */
  lemma HarmonicBetween(p: real, s: real)
    requires 0.0 <= p <= s && p + s > 0.0
    ensures p <= Harmonic(p, s) <= s
    ensures Harmonic(s, p) == Harmonic(p, s)
  {
    var n, q := 2.0 * p * s, p + s;
    ProductNonNegative(p, s - p);
    ProductNonNegative(s, s - p);
    assert n == p * q + p * (s - p);
    assert n == s * q - s * (s - p);
    QuotientAtLeast(n, q, p);
    QuotientAtMost(n, q, s);
  }

  class Tester {
    const truthIntensity: int
    /** The pipeline's mask for an image. */
    const pipeline: Grid -> Grid
    var truePositive: nat
    var falsePositive: nat
    var trueNegative: nat
    var falseNegative: nat
    var totalPixels: nat
    var totalImages: nat
    var actual: Float
    var predicted: Float

    /**
     * Before any update every counter is 0; no outcome counts more than the
     * pixels seen, and with a nonzero truth intensity the four together do not.
     */
    ghost predicate Valid()
      reads this
    {
      && (totalImages == 0 ==> truePositive == falsePositive == trueNegative == falseNegative == totalPixels == 0)
      && truePositive <= totalPixels && falsePositive <= totalPixels
      && trueNegative <= totalPixels && falseNegative <= totalPixels
      && (truthIntensity != 0 ==> truePositive + falsePositive + trueNegative + falseNegative <= totalPixels)
    }

    constructor (truthIntensity: int, pipeline: Grid -> Grid)
      ensures Valid() && this.truthIntensity == truthIntensity && this.pipeline == pipeline
      ensures truePositive == falsePositive == trueNegative == falseNegative == totalPixels == totalImages == 0
      ensures actual == Num(0.0) && predicted == Num(0.0)
    {
      this.truthIntensity := truthIntensity;
      this.pipeline := pipeline;
      truePositive, falsePositive, trueNegative, falseNegative := 0, 0, 0, 0;
      totalPixels, totalImages := 0, 0;
      actual, predicted := Num(0.0), Num(0.0);
    }

    /**
     * Scores one image against its truth mask: every counter grows by the
     * pixels of its outcome, the pixel total by the image's cells (rows
     * times columns for a rectangular image, see `RectCells`), and the fluorescence sums by the mean
     * inside the true and the predicted region.
     */
    method Update(image: Grid, truth: Grid)
      requires Valid()
      requires IsRect(image) && SameShape(image, truth) && SameShape(pipeline(image), truth)
      modifies this
      ensures Valid()
      ensures truePositive == old(truePositive) + Both(pipeline(image), truthIntensity as real, truth, truthIntensity as real)
      ensures falsePositive == old(falsePositive) + Both(pipeline(image), truthIntensity as real, truth, 0.0)
      ensures trueNegative == old(trueNegative) + Both(pipeline(image), 0.0, truth, 0.0)
      ensures falseNegative == old(falseNegative) + Both(pipeline(image), 0.0, truth, truthIntensity as real)
      ensures actual == Plus(old(actual), RegionMean(image, truth, truthIntensity as real))
      ensures predicted == Plus(old(predicted), RegionMean(image, pipeline(image), truthIntensity as real))
      ensures totalPixels == old(totalPixels) + Cells(image)
      ensures totalImages == old(totalImages) + 1
    {
      var p := pipeline(image);
      var ti := truthIntensity as real;
      var n := Cells(image);
      var tp, fp, tn, fn := Both(p, ti, truth, ti), Both(p, ti, truth, 0.0), Both(p, 0.0, truth, 0.0), Both(p, 0.0, truth, ti);
      OutcomesWithinImage(image, p, truth, ti);
      var a := RegionMean(image, truth, ti);
      assert SameShape(image, p);
      var q := RegionMean(image, p, ti);
      truePositive, falsePositive, trueNegative, falseNegative, totalPixels, totalImages, actual, predicted :=
        truePositive + tp, falsePositive + fp, trueNegative + tn, falseNegative + fn,
        totalPixels + n, totalImages + 1, Plus(actual, a), Plus(predicted, q);
      assert p == pipeline(image);
    }

    /**
     * `report`. Before any update the counters are still Python ints and the
     * first division, the precision's `0 / 0`, raises. After an update they
     * are numpy integers: a zero denominator gives NaN with a warning, and
     * under `Valid` its numerator is then 0 as well, so it is never `inf`.
     */
    function Report(): (r: Result<Figures, ReportError>)
      reads this
      requires Valid()
      ensures r.Err? <==> totalImages == 0
      ensures r.Ok? ==>
        && (r.value.precision.Num? <==> truePositive + falsePositive > 0)
        && (r.value.precision.Num? ==> r.value.precision.v == Percent(truePositive, truePositive + falsePositive))
        && (r.value.sensitivity.Num? <==> truePositive + falseNegative > 0)
        && (r.value.sensitivity.Num? ==> r.value.sensitivity.v == Percent(truePositive, truePositive + falseNegative))
        && r.value.truePositiveRate == r.value.sensitivity
        && r.value.f1 == F1(r.value.precision, r.value.sensitivity)
        && (r.value.f1.Num? <==> truePositive > 0)
      ensures r.Ok? ==>
        && r.value.correct == truePositive + trueNegative && r.value.incorrect == falsePositive + falseNegative
        && (r.value.correctPct.Num? <==> totalPixels > 0) && (r.value.incorrectPct.Num? <==> totalPixels > 0)
        && (r.value.falsePositiveRate.Num? <==> falsePositive + trueNegative > 0)
        && r.value.trueNegativeRate.Num? == r.value.falsePositiveRate.Num?
        && (r.value.falseNegativeRate.Num? <==> r.value.sensitivity.Num?)
      ensures r.Ok? && totalPixels > 0 ==>
        && r.value.correctPct.v == Percent(truePositive + trueNegative, totalPixels)
        && r.value.incorrectPct.v == Percent(falsePositive + falseNegative, totalPixels)
      ensures r.Ok? && falsePositive + trueNegative > 0 ==>
        && r.value.falsePositiveRate.v == Percent(falsePositive, falsePositive + trueNegative)
        && r.value.trueNegativeRate.v == Percent(trueNegative, falsePositive + trueNegative)
      ensures r.Ok? && truePositive + falseNegative > 0 ==>
        r.value.falseNegativeRate.v == Percent(falseNegative, truePositive + falseNegative)
      ensures r.Ok? ==> (r.value.meanDifference.Num? <==> actual.Num? && predicted.Num?)
      ensures r.Ok? && r.value.meanDifference.Num? ==> r.value.meanDifference.v >= 0.0
      ensures r.Ok? && r.value.meanDifference.Num? ==>
        r.value.meanDifference.v == Abs(actual.v - predicted.v) / totalImages as real
    {
      var tp, fp, tn, fn := truePositive, falsePositive, trueNegative, falseNegative;
      if totalImages == 0 then Err(ZeroDivision)
      else
        var precision := Ratio(tp, tp + fp);
        var sensitivity := Ratio(tp, tp + fn);
        var difference :=
          if actual.Num? && predicted.Num? then Num(Abs(actual.v - predicted.v) / totalImages as real)
          else NaN;
        Ok(Figures(
          tp + tn, Ratio(tp + tn, totalPixels),
          fp + fn, Ratio(fp + fn, totalPixels),
          Ratio(tp, tp + fn), Ratio(fp, fp + tn),
          Ratio(tn, tn + fp), Ratio(fn, fn + tp),
          precision, sensitivity, F1(precision, sensitivity),
          difference))
    }

    /**
     * With no false positive and no false negative, precision, sensitivity
     * and F1 are all 100%, provided some positive exists.
     */
    lemma PerfectReport()
      requires Valid()
      requires falsePositive == 0 && falseNegative == 0 && truePositive > 0
      ensures Report().Ok?
      ensures Report().value.precision == Num(100.0) && Report().value.sensitivity == Num(100.0)
      ensures Report().value.f1 == Num(100.0)
    {
    }
  }
}
