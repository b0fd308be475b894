/**
 * The processor built from three callables (src/processing/processor.py):
 * an optional normaliser, a masker and a circle fitter, each called with the
 * image's white point and scaling. `process` fits a circle on the prepared
 * binary mask and averages the original pixels inside it; `circular_roi`
 * draws that circle as a 255/0 mask.
 *
 * The 8-bit rescale with opening and closing that prepares the fitter's input
 * is the parameter `prepare`.
 */
module Processor {

  import opened Wrappers
  import opened Grid
  import opened Image
  import opened Processing

  /** `FluorescenceResult`; `center` is (row, column). */
  datatype FluorescenceResult = FluorescenceResult(
    normalized: bool,
    writeableImg: Grid,
    binaryImg: Grid,
    center: (real, real),
    radius: real,
    meanFluorescence: real)

  /** The callables, each taking the image, its white point and its scaling. */
  datatype Processor = Processor(
    normalizer: Option<(Grid, int, real) -> Grid>,
    masker: (Grid, int, real) -> Grid,
    fitter: (Grid, int, real) -> Result<Circle, FitError>)

  /** The normaliser (when there is one) then the masker, on a copy of the pixels. */
  function BinaryMask(p: Processor, img: ImageSource): (r: Grid)
    requires img.pixels.Some?
    ensures p.normalizer.None? ==> r == p.masker(img.pixels.value, img.whitePoint, img.scaling)
    ensures p.normalizer.Some? ==>
      r == p.masker(p.normalizer.value(img.pixels.value, img.whitePoint, img.scaling), img.whitePoint, img.scaling)
  {
    var pixels := img.pixels.value;
    var processed := if p.normalizer.Some? then p.normalizer.value(pixels, img.whitePoint, img.scaling) else pixels;
    p.masker(processed, img.whitePoint, img.scaling)
  }

  /**
   * `process`: the circle is fitted on the prepared binary mask, but the mean
   * is taken over the original pixels; `normalized` records whether a
   * normaliser is configured. A failing fitter makes the whole call fail.
   */
  function Process(p: Processor, img: ImageSource, prepare: Grid -> Grid): (r: Result<FluorescenceResult, FitError>)
    requires img.pixels.Some?
    ensures var c := p.fitter(prepare(BinaryMask(p, img)), img.whitePoint, img.scaling);
      && (r.Err? <==> c.Err?)
      && (r.Ok? ==>
        && r.value.normalized == p.normalizer.Some?
        && r.value.writeableImg == img.pixels.value
        && r.value.binaryImg == BinaryMask(p, img)
        && r.value.center == (c.value.centerY, c.value.centerX)
        && r.value.radius == c.value.radius
        && r.value.meanFluorescence == MeanIntensity(img.pixels.value, c.value))
  {
    var binary := BinaryMask(p, img);
    match p.fitter(prepare(binary), img.whitePoint, img.scaling)
    case Err(e) => Err(e)
    case Ok(c) =>
      Ok(FluorescenceResult(p.normalizer.Some?, img.pixels.value, binary, (c.centerY, c.centerX), c.radius,
                            MeanIntensity(img.pixels.value, c)))
  }

  /** The reported mean lies between any bounds of the original pixels inside the reported circle. */
  lemma ProcessMeanWithin(p: Processor, img: ImageSource, prepare: Grid -> Grid, lo: real, hi: real)
    requires img.pixels.Some? && Process(p, img, prepare).Ok?
    requires var res := Process(p, img, prepare).value; var g := img.pixels.value;
      forall i, j :: 0 <= i < |g| && 0 <= j < |g[i]| && InCircle(i, j, res.center.0, res.center.1, res.radius) ==>
        lo <= g[i][j] <= hi
    ensures var res := Process(p, img, prepare).value; var g := img.pixels.value;
      (exists i, j :: 0 <= i < |g| && 0 <= j < |g[i]| && InCircle(i, j, res.center.0, res.center.1, res.radius)) ==>
        lo <= res.meanFluorescence <= hi
  {
    var res := Process(p, img, prepare).value;
    MeanIntensityBounds(img.pixels.value, Circle(res.center.0, res.center.1, res.radius), lo, hi);
  }

  /**
   * The mask `circular_roi` draws, AS WRITTEN: it unpacks the (row, column)
   * centre as `center_x, center_y`, so pixel (y, x) is 255 when
   * `(y - column)^2 + (x - row)^2 <= radius^2`.
   */
  function RoiMaskAsWritten(g: Grid, center: (real, real), radius: real): (r: Grid)
    ensures SameShape(r, g)
    ensures forall i, j :: 0 <= i < |r| && 0 <= j < |r[i]| ==>
      r[i][j] == (if InCircle(i, j, center.1, center.0, radius) then 255.0 else 0.0)
  {
    seq(|g|, i requires 0 <= i < |g| => seq(|g[i]|, j => if InCircle(i, j, center.1, center.0, radius) then 255.0 else 0.0))
  }

  /**
   * The mask `circular_roi` is meant to draw: 255 on the pixels of the
   * fitted circle, centred on (row, column), and 0 elsewhere.
   */
  function RoiMask(g: Grid, center: (real, real), radius: real): (r: Grid)
    ensures SameShape(r, g)
    ensures forall i, j :: 0 <= i < |r| && 0 <= j < |r[i]| ==> r[i][j] == 255.0 || r[i][j] == 0.0
  {
    seq(|g|, i requires 0 <= i < |g| => seq(|g[i]|, j => if InCircle(i, j, center.0, center.1, radius) then 255.0 else 0.0))
  }

  /** The corrected mask marks exactly the pixels `mean_intensity` averages. */
  lemma RoiMatchesMeanSelection(g: Grid, c: Circle)
    ensures var r := RoiMask(g, (c.centerY, c.centerX), c.radius);
      var m := CircleMask(g, c.centerY, c.centerX, c.radius);
      forall i, j :: 0 <= i < |g| && 0 <= j < |g[i]| ==> (r[i][j] == 255.0 <==> m[i][j])
  {
  }

  /**
   * A 1 x 2 image with the circle of radius 0 on row 0, column 1: the pixel
   * averaged is (0, 1), which the corrected mask marks and the mask as
   * written leaves at 0.
   */
  lemma SwappedCentreCounterexample()
    ensures var g: Grid := [[0.0, 0.0]];
      && CircleMask(g, 0.0, 1.0, 0.0)[0][1]
      && RoiMask(g, (0.0, 1.0), 0.0)[0][1] == 255.0
      && RoiMaskAsWritten(g, (0.0, 1.0), 0.0)[0][1] == 0.0
  {
    var g: Grid := [[0.0, 0.0]];
    assert InCircle(0, 1, 0.0, 1.0, 0.0);
    assert !InCircle(0, 1, 1.0, 0.0, 0.0);
  }

  /** `circular_roi` as written: the swapped mask over the result of `process`. */
  function CircularRoiAsWritten(p: Processor, img: ImageSource, prepare: Grid -> Grid): (r: Result<Grid, FitError>)
    requires img.pixels.Some?
    ensures r.Err? <==> Process(p, img, prepare).Err?
    ensures r.Ok? ==> var res := Process(p, img, prepare).value;
      r.value == RoiMaskAsWritten(img.pixels.value, res.center, res.radius)
  {
    match Process(p, img, prepare)
    case Err(e) => Err(e)
    case Ok(res) => Ok(RoiMaskAsWritten(img.pixels.value, res.center, res.radius))
  }

  /** `circular_roi` corrected: 255 exactly on the pixels whose mean `process` reports. */
  function CircularRoi(p: Processor, img: ImageSource, prepare: Grid -> Grid): (r: Result<Grid, FitError>)
    requires img.pixels.Some?
    ensures r.Err? <==> Process(p, img, prepare).Err?
    ensures r.Ok? ==> var res := Process(p, img, prepare).value; var g := img.pixels.value;
      && SameShape(r.value, g)
      && forall i, j :: 0 <= i < |g| && 0 <= j < |g[i]| ==>
           (r.value[i][j] == 255.0 <==> InCircle(i, j, res.center.0, res.center.1, res.radius))
  {
    match Process(p, img, prepare)
    case Err(e) => Err(e)
    case Ok(res) => Ok(RoiMask(img.pixels.value, res.center, res.radius))
  }
}
