/**
 * The image sources handed out by the queues (src/images/image.py): a decoded
 * 2-D array, which may be absent when the reader gave up, with a physical
 * scaling and a white point. TIFF images take both numbers from the caller;
 * CZI images parse them from the container's XML metadata and slice the raw
 * 4-D pixel array down to one plane.
 */
module Image {

  import opened Wrappers
  import opened Text
  import opened Grid

  datatype ImageSource = ImageSource(pixels: Option<Grid>, scaling: real, whitePoint: int)

  datatype ImageError =
    | MetadataError  // FileNotFoundError: a metadata field is missing or does not parse
    | FormatError    // ValueError: the pixel array is not of the expected four-axis form

  /** XML metadata: the text of the first element with each tag; `None` for an element without text. */
  type Metadata = map<string, Option<string>>

  /**
   * A raw CZI pixel array: four axes with their lengths, or fewer than four
   * axes. An array of five or more axes is not represented.
   */
  datatype RawArray =
    | Axes4(d0: nat, d1: nat, d2: nat, d3: nat, data: seq<seq<seq<seq<real>>>>)
    | FewerAxes(ndim: nat)

  /**
   * The nested sequences of a four-axis array have the lengths its shape
   * says, and an array of fewer axes has fewer than four.
   */
  ghost predicate WellShaped(raw: RawArray)
  {
    && (raw.FewerAxes? ==> raw.ndim < 4)
    && (raw.Axes4? ==>
          && |raw.data| == raw.d0
          && (forall a :: 0 <= a < raw.d0 ==> |raw.data[a]| == raw.d1)
          && (forall a, i :: 0 <= a < raw.d0 && 0 <= i < raw.d1 ==> |raw.data[a][i]| == raw.d2)
          && (forall a, i, j :: 0 <= a < raw.d0 && 0 <= i < raw.d1 && 0 <= j < raw.d2 ==> |raw.data[a][i][j]| == raw.d3))
  }

  /**
   * `asarray()[0, :, :, 0]`: the first scene and first channel of a four-axis
   * array. Indexing 0 on an empty first or last axis, or an array with fewer
   * axes, raises.
   */
  function SliceFirstPlane(raw: RawArray): (r: Option<Grid>)
    requires WellShaped(raw)
    ensures r.Some? <==> raw.Axes4? && raw.d0 > 0 && raw.d3 > 0
    ensures r.Some? ==> |r.value| == raw.d1 && IsRect(r.value) && (raw.d1 > 0 ==> Cols(r.value) == raw.d2)
    ensures r.Some? ==> forall i, j :: 0 <= i < raw.d1 && 0 <= j < raw.d2 ==> r.value[i][j] == raw.data[0][i][j][0]
  {
    match raw
    case FewerAxes(_) => None
    case Axes4(d0, d1, d2, d3, data) =>
      if d0 == 0 || d3 == 0 then None
      else Some(seq(d1, i requires 0 <= i < d1 => seq(d2, j requires 0 <= j < d2 => data[0][i][j][0])))
  }

  /** TiffImage: the reader's array, with scaling and white point exactly as given by the caller. */
  function TiffImage(read: Option<Grid>, scaling: real, whitePoint: int): (img: ImageSource)
    ensures img.pixels == read && img.scaling == scaling && img.whitePoint == whitePoint
  {
    ImageSource(read, scaling, whitePoint)
  }

  /** The text of the first element with `tag`, failing when it is missing or empty. */
  function FieldText(meta: Metadata, tag: string): Result<string, ImageError>
  {
    if tag in meta && meta[tag].Some? then Ok(meta[tag].value) else Err(MetadataError)
  }

  /**
   * `float(text[0:text.index(',')])`: the number before the first comma of the
   * pixel-size text. A missing comma or an unparsable number is a metadata error.
   */
  function ParsePixelSize(text: string): (r: Result<real, ImageError>)
    ensures r.Ok? <==> IndexOf(text, ',') < |text| && IsDecimal(text[..IndexOf(text, ',')])
    ensures r.Ok? ==> Some(r.value) == ParseDecimal(text[..IndexOf(text, ',')])
  {
    var k := IndexOf(text, ',');
    if k == |text| then Err(MetadataError)
    else match ParseDecimal(text[..k])
      case None => Err(MetadataError)
      case Some(v) => Ok(v)
  }

  /**
   * CziImage: scaling from `ImagePixelSize`, white point from
   * `CameraPixelMaximum`, then the first plane of the raw array. Every metadata
   * failure is reported as the one metadata error, before the array is looked at.
   */
  function CziImage(meta: Metadata, raw: RawArray): (r: Result<ImageSource, ImageError>)
    requires WellShaped(raw)
    ensures r.Ok? <==>
      && FieldText(meta, "ImagePixelSize").Ok?
      && ParsePixelSize(FieldText(meta, "ImagePixelSize").value).Ok?
      && FieldText(meta, "CameraPixelMaximum").Ok?
      && ParseInt(FieldText(meta, "CameraPixelMaximum").value).Some?
      && SliceFirstPlane(raw).Some?
    ensures r.Err? && r.error == FormatError ==>
      && FieldText(meta, "ImagePixelSize").Ok?
      && ParsePixelSize(FieldText(meta, "ImagePixelSize").value).Ok?
      && FieldText(meta, "CameraPixelMaximum").Ok?
      && ParseInt(FieldText(meta, "CameraPixelMaximum").value).Some?
    ensures r.Ok? ==>
      && r.value.pixels == SliceFirstPlane(raw)
      && r.value.scaling == ParsePixelSize(meta["ImagePixelSize"].value).value
      && Some(r.value.whitePoint) == ParseInt(meta["CameraPixelMaximum"].value)
  {
    match FieldText(meta, "ImagePixelSize")
    case Err(e) => Err(e)
    case Ok(sizeText) =>
      match ParsePixelSize(sizeText)
      case Err(e) => Err(e)
      case Ok(scaling) =>
        match FieldText(meta, "CameraPixelMaximum")
        case Err(e) => Err(e)
        case Ok(maxText) =>
          match ParseInt(maxText)
          case None => Err(MetadataError)
          case Some(whitePoint) =>
            match SliceFirstPlane(raw)
            case None => Err(FormatError)
            case Some(plane) => Ok(ImageSource(Some(plane), scaling, whitePoint))
  }

  /** A CZI pixel-size text such as "0.345,0.345" yields its first component. */
  lemma PixelSizeTakesFirstComponent(whole: string, frac: string, rest: string)
    requires IsDigits(whole) && IsDigits(frac)
    ensures ParsePixelSize(whole + "." + frac + "," + rest) == Ok(DecimalValue(whole, frac))
  {
    var n := whole + ['.'] + frac;
    var t := n + [','] + rest;
    assert whole + "." + frac + "," + rest == t;
    forall i | 0 <= i < |n| ensures n[i] != ',' {
      if i < |whole| { assert n[i] == whole[i]; }
      else if i > |whole| { assert n[i] == frac[i - |whole| - 1]; }
    }
    IndexOfConcat(n, ',', rest);
    assert t[..|n|] == n;
    ParseDecimalParts(whole, frac);
  }
}
