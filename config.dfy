/**
 * The configuration (src/engine/config.py): an INI parser whose sections map
 * option names to strings, typed getters with fallbacks, the validator, the
 * path-valued properties, `set`/`reset`, and the selections `create_image`,
 * `create_queue`, `create_processor`, `stable_reader` and `create_tester`
 * make from the configured strings.
 *
 * The parser stores option names lower-cased (ConfigParser's `optionxform`);
 * the option names below are written lower-cased accordingly. Reading and
 * writing `options.ini` are not part of this model: the file's parsed
 * contents are a constructor parameter.
 */
module Configuration {

  import opened Wrappers
  import opened Text
  import opened Grid
  import opened Image
  import opened QueueSpec
  import opened ImagesQueue
  import opened Processing

  /** The parser's sections, each mapping lower-cased option names to strings. */
  type Ini = map<string, map<string, string>>

  datatype ConfigError =
    | NotABoolean    // getboolean: the value is not one of the boolean words
    | NotAnInteger   // getint: `int(value)` fails
    | NotAFloat      // getfloat: `float(value)` fails
    | NoLowerMethod  // `.lower()` called on a fallback that is not a string
    | NoDirectory    // `None.iterdir()`: the watched directory is configured as None

  // ---------------------------------------------------------------- getters

  /** `get(section, option)`: `None` when the section or the option is missing. */
  function Get(ini: Ini, section: string, option: string): Option<string>
  {
    if section in ini && option in ini[section] then Some(ini[section][option]) else None
  }

  /** `get(section, option, fallback=f)` with a string fallback. */
  function GetOr(ini: Ini, section: string, option: string, fallback: string): (r: string)
    ensures Get(ini, section, option).Some? ==> r == Get(ini, section, option).value
    ensures Get(ini, section, option).None? ==> r == fallback
  {
    match Get(ini, section, option)
    case Some(v) => v
    case None => fallback
  }

  /** The words `getboolean` accepts, compared lower-cased. */
  function ParseBool(s: string): (r: Option<bool>)
    ensures r == Some(true) <==> Lower(s) in {"1", "yes", "true", "on"}
    ensures r == Some(false) <==> Lower(s) in {"0", "no", "false", "off"}
  {
    var t := Lower(s);
    if t in {"1", "yes", "true", "on"} then Some(true)
    else if t in {"0", "no", "false", "off"} then Some(false)
    else None
  }

  /**
   * `getboolean(section, option, fallback=f)`: the fallback only when the
   * option is missing; a present value that is not a boolean word fails.
   */
  function GetBoolean(ini: Ini, section: string, option: string, fallback: bool): (r: Result<bool, ConfigError>)
    ensures Get(ini, section, option).None? ==> r == Ok(fallback)
    ensures Get(ini, section, option).Some? ==>
      (r.Err? <==> ParseBool(Get(ini, section, option).value).None?) &&
      (r.Ok? ==> Some(r.value) == ParseBool(Get(ini, section, option).value))
  {
    match Get(ini, section, option)
    case None => Ok(fallback)
    case Some(v) => if ParseBool(v).Some? then Ok(ParseBool(v).value) else Err(NotABoolean)
  }

  /** `getint(section, option, fallback=f)`. */
  function GetInt(ini: Ini, section: string, option: string, fallback: int): (r: Result<int, ConfigError>)
    ensures Get(ini, section, option).None? ==> r == Ok(fallback)
    ensures Get(ini, section, option).Some? ==>
      (r.Err? <==> ParseInt(Get(ini, section, option).value).None?) &&
      (r.Ok? ==> Some(r.value) == ParseInt(Get(ini, section, option).value))
  {
    match Get(ini, section, option)
    case None => Ok(fallback)
    case Some(v) => if ParseInt(v).Some? then Ok(ParseInt(v).value) else Err(NotAnInteger)
  }

  /** `getfloat(section, option, fallback=f)`. */
  function GetFloat(ini: Ini, section: string, option: string, fallback: real): (r: Result<real, ConfigError>)
    ensures Get(ini, section, option).None? ==> r == Ok(fallback)
    ensures Get(ini, section, option).Some? ==>
      (r.Err? <==> !IsDecimal(Get(ini, section, option).value)) &&
      (r.Ok? ==> Some(r.value) == ParseDecimal(Get(ini, section, option).value))
  {
    match Get(ini, section, option)
    case None => Ok(fallback)
    case Some(v) => if ParseDecimal(v).Some? then Ok(ParseDecimal(v).value) else Err(NotAFloat)
  }

  // ---------------------------------------------------------------- properties

  /** `r` is what `get(section, option, fallback=f)` gives. */
  predicate TextOption(ini: Ini, section: string, option: string, fallback: string, r: string)
  {
    match Get(ini, section, option)
    case None => r == fallback
    case Some(v) => r == v
  }

  /** `r` is what `getboolean(section, option, fallback=f)` gives: a boolean word, or the ValueError. */
  predicate BoolOption(ini: Ini, section: string, option: string, fallback: bool, r: Result<bool, ConfigError>)
  {
    match Get(ini, section, option)
    case None => r == Ok(fallback)
    case Some(v) => (r.Ok? <==> ParseBool(v).Some?) && (r.Ok? ==> Some(r.value) == ParseBool(v))
  }

  /** `r` is what `getint(section, option, fallback=f)` gives: the integer the text spells, or the ValueError. */
  predicate IntOption(ini: Ini, section: string, option: string, fallback: int, r: Result<int, ConfigError>)
  {
    match Get(ini, section, option)
    case None => r == Ok(fallback)
    case Some(v) => (r.Ok? <==> ParseInt(v).Some?) && (r.Ok? ==> Some(r.value) == ParseInt(v))
  }

  /** `r` is what `getfloat(section, option, fallback=f)` gives: the decimal the text spells, or the ValueError. */
  predicate FloatOption(ini: Ini, section: string, option: string, fallback: real, r: Result<real, ConfigError>)
  {
    match Get(ini, section, option)
    case None => r == Ok(fallback)
    case Some(v) => (r.Ok? <==> IsDecimal(v)) && (r.Ok? ==> Some(r.value) == ParseDecimal(v))
  }

  /**
   * `r` is a path property read with `get(section, option, fallback=f)`:
   * `None` when the text is `none` in any case, otherwise that text.
   */
  predicate PathOption(ini: Ini, section: string, option: string, fallback: string, r: Option<string>)
  {
    var text := if Get(ini, section, option).Some? then Get(ini, section, option).value else fallback;
    (r.None? <==> Lower(text) == "none") && (r.Some? ==> r.value == text)
  }

  /** A path-valued option: `None` exactly when the text is `none` in any case, otherwise the path itself. */
  function PathValue(text: string): (r: Option<string>)
    ensures r.None? <==> Lower(text) == "none"
    ensures r.Some? ==> r.value == text
  {
    if Lower(text) == "none" then None else Some(text)
  }

  function Directory(ini: Ini): (r: Option<string>)
    ensures PathOption(ini, "files", "directory", "None", r)
  {
    PathValue(GetOr(ini, "files", "directory", "None"))
  }

  function QueueType(ini: Ini): (r: string)
    ensures TextOption(ini, "files", "queue_type", "File", r)
  {
    GetOr(ini, "files", "queue_type", "File")
  }

  function EnqueueExisting(ini: Ini): (r: Result<bool, ConfigError>)
    ensures BoolOption(ini, "files", "enqueue_existing", false, r)
  {
    GetBoolean(ini, "files", "enqueue_existing", false)
  }

  function WriteRoi(ini: Ini): (r: Result<bool, ConfigError>)
    ensures BoolOption(ini, "files", "write_roi", false, r)
  {
    GetBoolean(ini, "files", "write_roi", false)
  }

  /**
   * `output_directory` AS WRITTEN: the fallback is `self.directory`, a path
   * or `None`, so a missing option calls `.lower()` on something that has
   * no such method.
   */
  function OutputDirectoryAsWritten(ini: Ini): (r: Result<Option<string>, ConfigError>)
    ensures r.Err? <==> Get(ini, "files", "output_directory").None?
    ensures r.Ok? ==> r.value == PathValue(Get(ini, "files", "output_directory").value)
  {
    match Get(ini, "files", "output_directory")
    case None => Err(NoLowerMethod)
    case Some(v) => Ok(PathValue(v))
  }

  /** `output_directory` as evidently intended: falling back to the watched directory. */
  function OutputDirectory(ini: Ini): (r: Option<string>)
    ensures Get(ini, "files", "output_directory").None? ==> r == Directory(ini)
    ensures Get(ini, "files", "output_directory").Some? ==> r == PathValue(Get(ini, "files", "output_directory").value)
    ensures OutputDirectoryAsWritten(ini).Ok? ==> r == OutputDirectoryAsWritten(ini).value
  {
    match Get(ini, "files", "output_directory")
    case None => Directory(ini)
    case Some(v) => PathValue(v)
  }

  /**
   * A configuration with a `files` section that names no output directory:
   * the property as written fails, the corrected one gives the watched
   * directory, here `None`.
   */
  lemma OutputDirectoryCounterexample()
    ensures var ini: Ini := map["files" := map[]];
      OutputDirectoryAsWritten(ini).Err? && OutputDirectory(ini) == None
  {
    var ini: Ini := map["files" := map[]];
    assert Lower("None") == "none";
  }

  function ImageFormat(ini: Ini): (r: string)
    ensures TextOption(ini, "images", "image_format", "CZI", r)
  {
    GetOr(ini, "images", "image_format", "CZI")
  }

  function WhitePoint(ini: Ini): (r: Result<int, ConfigError>)
    ensures IntOption(ini, "images", "white_point", 4095, r)
  {
    GetInt(ini, "images", "white_point", 4095)
  }

  function Scaling(ini: Ini): (r: Result<real, ConfigError>)
    ensures FloatOption(ini, "images", "scaling", 3.45, r)
  {
    GetFloat(ini, "images", "scaling", 3.45)
  }

  function MaxRadius(ini: Ini): (r: Result<int, ConfigError>)
    ensures IntOption(ini, "images", "max_radius", 2500, r)
  {
    GetInt(ini, "images", "max_radius", 2500)
  }

  function MaskingMethod(ini: Ini): (r: string)
    ensures TextOption(ini, "processing", "masking_method", "Thresholding", r)
  {
    GetOr(ini, "processing", "masking_method", "Thresholding")
  }

  function Normalization(ini: Ini): (r: Result<bool, ConfigError>)
    ensures BoolOption(ini, "processing", "normalization", true, r)
  {
    GetBoolean(ini, "processing", "normalization", true)
  }

  function NormalizationPercentile(ini: Ini): (r: Result<real, ConfigError>)
    ensures FloatOption(ini, "processing", "normalization_percentile", 99.5, r)
  {
    GetFloat(ini, "processing", "normalization_percentile", 99.5)
  }

  function ThresholdLevel(ini: Ini): (r: Result<int, ConfigError>)
    ensures IntOption(ini, "processing", "threshold_level", 1526, r)
  {
    GetInt(ini, "processing", "threshold_level", 1526)
  }

  function CenterMethod(ini: Ini): (r: string)
    ensures TextOption(ini, "processing", "center_method", "Median", r)
  {
    GetOr(ini, "processing", "center_method", "Median")
  }

  function RadiusMethod(ini: Ini): (r: string)
    ensures TextOption(ini, "processing", "radius_method", "Contour", r)
  {
    GetOr(ini, "processing", "radius_method", "Contour")
  }

  function RequiredStable(ini: Ini): (r: Result<int, ConfigError>)
    ensures IntOption(ini, "processing", "required_stable", 3, r)
  {
    GetInt(ini, "processing", "required_stable", 3)
  }

  function CheckDelay(ini: Ini): (r: Result<real, ConfigError>)
    ensures FloatOption(ini, "processing", "check_delay", 0.2, r)
  {
    GetFloat(ini, "processing", "check_delay", 0.2)
  }

  function MaxChecks(ini: Ini): (r: Result<int, ConfigError>)
    ensures IntOption(ini, "processing", "max_checks", 10, r)
  {
    GetInt(ini, "processing", "max_checks", 10)
  }

  function TrainingDirectoryRaw(ini: Ini): (r: Option<string>)
    ensures PathOption(ini, "bayesian", "training_directory_raw", "./training/raw", r)
  {
    PathValue(GetOr(ini, "bayesian", "training_directory_raw", "./training/raw"))
  }

  function TrainingDirectoryTruth(ini: Ini): (r: Option<string>)
    ensures PathOption(ini, "bayesian", "training_directory_truth", "./training/truth", r)
  {
    PathValue(GetOr(ini, "bayesian", "training_directory_truth", "./training/truth"))
  }

  function TestingDirectoryRaw(ini: Ini): (r: Option<string>)
    ensures PathOption(ini, "bayesian", "testing_directory_raw", "./testing/raw", r)
  {
    PathValue(GetOr(ini, "bayesian", "testing_directory_raw", "./testing/raw"))
  }

  function TestingDirectoryTruth(ini: Ini): (r: Option<string>)
    ensures PathOption(ini, "bayesian", "testing_directory_truth", "./testing/truth", r)
  {
    PathValue(GetOr(ini, "bayesian", "testing_directory_truth", "./testing/truth"))
  }

  function TruthIntensity(ini: Ini): (r: Result<int, ConfigError>)
    ensures IntOption(ini, "bayesian", "truth_intensity", 255, r)
  {
    GetInt(ini, "bayesian", "truth_intensity", 255)
  }

  function TestingMethod(ini: Ini): (r: string)
    ensures TextOption(ini, "bayesian", "testing_method", "Circle", r)
  {
    GetOr(ini, "bayesian", "testing_method", "Circle")
  }

  // ---------------------------------------------------------------- defaults, set, reset

  /** The four sections `_create_default` writes. */
  function FilesDefaults(): map<string, string>
  {
    map["directory" := "None", "queue_type" := "File", "enqueue_existing" := "False",
        "write_roi" := "False", "output_directory" := "None"]
  }

  function ImagesDefaults(): map<string, string>
  {
    map["image_format" := "CZI", "white_point" := "4095", "scaling" := "3.45", "max_radius" := "2500"]
  }

  function ProcessingDefaults(): map<string, string>
  {
    map["masking_method" := "Thresholding", "normalization" := "True", "normalization_percentile" := "99.5",
        "threshold_level" := "1526", "center_method" := "Median", "radius_method" := "Eigenvalue",
        "required_stable" := "3", "check_delay" := "0.2", "max_checks" := "10"]
  }

  function BayesianDefaults(): map<string, string>
  {
    map["training_directory_raw" := "./training/raw", "training_directory_truth" := "./training/truth",
        "testing_directory_raw" := "./testing/raw", "testing_directory_truth" := "./testing/truth",
        "truth_intensity" := "255", "testing_method" := "Circle"]
  }

  /** The four sections `_create_default` writes. */
  function Defaults(): Ini
  {
    map["files" := FilesDefaults(), "images" := ImagesDefaults(),
        "processing" := ProcessingDefaults(), "bayesian" := BayesianDefaults()]
  }

  /** `_create_default` writes the four sections, each with exactly its own options. */
  lemma DefaultSections()
    ensures Defaults().Keys == {"files", "images", "processing", "bayesian"}
    ensures Defaults()["files"].Keys == {"directory", "queue_type", "enqueue_existing", "write_roi", "output_directory"}
    ensures Defaults()["images"].Keys == {"image_format", "white_point", "scaling", "max_radius"}
    ensures Defaults()["processing"].Keys == {"masking_method", "normalization", "normalization_percentile", "threshold_level",
                                               "center_method", "radius_method", "required_stable", "check_delay", "max_checks"}
    ensures Defaults()["bayesian"].Keys == {"training_directory_raw", "training_directory_truth", "testing_directory_raw",
                                             "testing_directory_truth", "truth_intensity", "testing_method"}
  {
  }

  lemma LowerNone()
    ensures Lower("None") == "none"
  {
  }

  /** A freshly written configuration watches no directory and writes to none. */
  lemma DefaultDirectories()
    ensures Directory(Defaults()) == None && OutputDirectory(Defaults()) == None
  {
    assert Get(Defaults(), "files", "directory") == Some("None");
    assert Get(Defaults(), "files", "output_directory") == Some("None");
    LowerNone();
  }

  /**
   * A freshly written configuration selects the file queue over CZI images
   * and does not enqueue existing files; its radius method is `Eigenvalue`,
   * although the fallback for a missing option is `Contour`.
   */
  lemma DefaultSelections()
    ensures QueueType(Defaults()) == "File" && ImageFormat(Defaults()) == "CZI"
    ensures EnqueueExisting(Defaults()) == Ok(false)
    ensures RadiusMethod(Defaults()) == "Eigenvalue" && RadiusMethod(map[]) == "Contour"
  {
    assert Get(Defaults(), "files", "enqueue_existing") == Some("False");
    assert Lower("False") == "false";
  }

  /** The numbers of a freshly written configuration read back as the getters' fallbacks. */
  lemma DefaultNumbers()
    ensures WhitePoint(Defaults()) == Ok(4095) && MaxRadius(Defaults()) == Ok(2500)
  {
    var images := Defaults()["images"];
    assert images == ImagesDefaults();
    assert DigitsValue("4095") == 4095 by {
      assert "4095"[..3] == "409" && "409"[..2] == "40" && "40"[..1] == "4";
    }
    IntWith(Defaults(), "images", "white_point", 4095, "4095");
    assert DigitsValue("2500") == 2500 by {
      assert "2500"[..3] == "250" && "250"[..2] == "25" && "25"[..1] == "2";
    }
    IntWith(Defaults(), "images", "max_radius", 2500, "2500");
  }

  /** The default scaling `3.45` reads back as 3.45 micrometres per pixel. */
  lemma DefaultScaling()
    ensures Scaling(Defaults()) == Ok(3.45)
  {
    assert Defaults()["images"]["scaling"] == "3" + ['.'] + "45";
    FloatWith(Defaults(), "images", "scaling", 3.45, "3", "45");
    ThreePointFortyFive();
  }

  lemma ThreePointFortyFive()
    ensures DecimalValue("3", "45") == 3.45
  {
    assert DigitsValue("3") == 3 by { assert "3"[..0] == ""; }
    assert DigitsValue("45") == 45 by { assert "45"[..1] == "4"; assert "4"[..0] == ""; }
    assert Pow10(2) == 100;
  }

  /** An option whose text is a plain numeral reads back as that numeral's value. */
  lemma IntWith(ini: Ini, section: string, option: string, fallback: int, v: string)
    requires section in ini && option in ini[section] && ini[section][option] == v && IsDigits(v)
    ensures GetInt(ini, section, option, fallback) == Ok(DigitsValue(v))
  {
  }

  /** An option whose text is `whole.frac` reads back as that decimal's value. */
  lemma FloatWith(ini: Ini, section: string, option: string, fallback: real, whole: string, frac: string)
    requires IsDigits(whole) && IsDigits(frac)
    requires section in ini && option in ini[section] && ini[section][option] == whole + ['.'] + frac
    ensures GetFloat(ini, section, option, fallback) == Ok(DecimalValue(whole, frac))
  {
    ParseDecimalParts(whole, frac);
  }

  /** `str(value)` of the values `set` is given. */
  datatype Value = Text(s: string) | Integer(i: int) | Boolean(b: bool)

  function Str(v: Value): string
  {
    match v
    case Text(s) => s
    case Integer(i) => IntToString(i)
    case Boolean(b) => if b then "True" else "False"
  }

  /** What `set` leaves in the parser: no change for a missing section. */
  function SetIn(ini: Ini, section: string, option: string, value: Value): (r: Ini)
    ensures section !in ini ==> r == ini
    ensures section in ini ==> r.Keys == ini.Keys && Get(r, section, Lower(option)) == Some(Str(value))
    ensures forall s, o :: s != section || o != Lower(option) ==> Get(r, s, o) == Get(ini, s, o)
  {
    if section !in ini then ini
    else ini[section := ini[section][Lower(option) := Str(value)]]
  }

  /** A value written by `set` reads back through the matching getter. */
  lemma SetThenGet(ini: Ini, section: string, option: string, v: Value)
    requires section in ini
    ensures var r := SetIn(ini, section, option, v); var o := Lower(option);
      && (v.Text? ==> GetOr(r, section, o, "") == v.s)
      && (v.Integer? ==> GetInt(r, section, o, 0) == Ok(v.i))
      && (v.Boolean? ==> GetBoolean(r, section, o, !v.b) == Ok(v.b))
  {
    if v.Integer? {
      IntRoundTrip(v.i);
    }
    if v.Boolean? {
      assert Lower("True") == "true";
      assert Lower("False") == "false";
    }
  }

  /** `Config`: the parser, read from `options.ini` (written with the defaults when absent). */
  class Config {
    var ini: Ini

    /** `file` is the parsed `options.ini`, `None` when there is no such file. */
    constructor (file: Option<Ini>)
      ensures file.None? ==> ini == Defaults()
      ensures file.Some? ==> ini == file.value
    {
      ini := if file.Some? then file.value else Defaults();
    }

    /** `set(section, option, value)`: stores `str(value)`; a no-op when the section is missing. */
    method Set(section: string, option: string, value: Value)
      modifies this
      ensures ini == SetIn(old(ini), section, option, value)
    {
      if section !in ini {
        return;
      }
      ini := ini[section := ini[section][Lower(option) := Str(value)]];
    }

    /** `reset`: the four default sections replace their namesakes; other sections stay. */
    method Reset()
      modifies this
      ensures ini == old(ini) + Defaults()
      ensures forall s :: s in Defaults() ==> ini[s] == Defaults()[s]
      ensures forall s :: s in old(ini) && s !in Defaults() ==> s in ini && ini[s] == old(ini)[s]
    {
      ini := ini + Defaults();
    }
  }

  // ---------------------------------------------------------------- validate

  /** One check of `validate`: an integer (`isdigit`) or a decimal (one dot removed, then `isdigit`). */
  datatype Check = Check(section: string, option: string, decimal: bool, field: string)

  /** The ValueError's text: the field's name and what it must be. */
  function Message(c: Check): string
  {
    c.field + (if c.decimal then " must be a numeric value." else " must be an integer value.")
  }

  datatype ValidationError =
    | NoSection(section: string)                // `get` without a fallback on a missing section
    | NoOption(section: string, option: string) // ... or on a missing option
    | Invalid(message: string)                  // the ValueError with the field's message

  /** The checks of `validate`, in the order it makes them: images, processing, bayesian. */
  function Checks(): (r: seq<Check>)
    ensures |r| == 9
    ensures forall k :: 0 <= k < |r| ==> (r[k].decimal <==> k == 1 || k == 3 || k == 6)
    ensures forall k :: 0 <= k < |r| ==> r[k].section == (if k < 3 then "images" else if k < 8 then "processing" else "bayesian")
    ensures forall i, j :: 0 <= i < j < |r| ==> r[i].option != r[j].option
  {
    ImagesChecks() + ProcessingChecks() + BayesianChecks()
  }

  function ImagesChecks(): seq<Check>
  {
    [ Check("images", "white_point", false, "Image White Point"),
      Check("images", "scaling", true, "Image Scaling"),
      Check("images", "max_radius", false, "Maximum ROI Radius") ]
  }

  function ProcessingChecks(): seq<Check>
  {
    [ Check("processing", "normalization_percentile", true, "Normalization Percentile"),
      Check("processing", "threshold_level", false, "Threshold Intensity"),
      Check("processing", "required_stable", false, "Stability Checks"),
      Check("processing", "check_delay", true, "Delay Between Stability Checks"),
      Check("processing", "max_checks", false, "Maximum Stability Checks") ]
  }

  function BayesianChecks(): seq<Check>
  {
    [ Check("bayesian", "truth_intensity", false, "Truth Intensity") ]
  }

  /** The check's option is present in its section and reads as the kind of number it must be. */
  predicate Passes(ini: Ini, c: Check)
  {
    c.section in ini && PassesIn(ini[c.section], c)
  }

  /** Every check of `cs` passes. */
  predicate AllPass(ini: Ini, cs: seq<Check>)
  {
    forall k :: 0 <= k < |cs| ==> Passes(ini, cs[k])
  }

  predicate PassesIn(options: map<string, string>, c: Check)
  {
    && c.option in options
    && (if c.decimal then IsDecimal(options[c.option]) else IsDigits(options[c.option]))
  }

  /** The exception one failing check raises. */
  function Failure(ini: Ini, c: Check): ValidationError
  {
    if c.section !in ini then NoSection(c.section)
    else if c.option !in ini[c.section] then NoOption(c.section, c.option)
    else Invalid(Message(c))
  }

  /** The checks `cs` made in order: the first that fails decides the error. */
  function ValidateAll(ini: Ini, cs: seq<Check>): (r: Result<(), ValidationError>)
    ensures r.Ok? <==> AllPass(ini, cs)
    ensures r.Err? ==> exists k ::
      && 0 <= k < |cs| && !Passes(ini, cs[k]) && r.error == Failure(ini, cs[k])
      && forall j :: 0 <= j < k ==> Passes(ini, cs[j])
  {
    if cs == [] then Ok(())
    else if !Passes(ini, cs[0]) then Err(Failure(ini, cs[0]))
    else
      var r := ValidateAll(ini, cs[1..]);
      assert forall k :: 1 <= k < |cs| ==> cs[k] == cs[1..][k - 1];
      if r.Err? then
        var k :| 0 <= k < |cs| - 1 && !Passes(ini, cs[1..][k]) && r.error == Failure(ini, cs[1..][k]) &&
          forall j :: 0 <= j < k ==> Passes(ini, cs[1..][j]);
        assert forall j :: 0 <= j < k + 1 ==> Passes(ini, cs[j]) by {
          forall j | 0 <= j < k + 1 ensures Passes(ini, cs[j]) {
            if j > 0 { assert cs[j] == cs[1..][j - 1]; }
          }
        }
        r
      else
        r
  }

  /** `validate`. */
  function Validate(ini: Ini): (r: Result<(), ValidationError>)
    ensures r.Ok? <==> AllPass(ini, Checks())
  {
    ValidateAll(ini, Checks())
  }

  /** The first field checked decides the error whenever it fails, whatever the others hold. */
  lemma WhitePointCheckedFirst(ini: Ini)
    requires "images" in ini && "white_point" in ini["images"] && !IsDigits(ini["images"]["white_point"])
    ensures Validate(ini) == Err(Invalid("Image White Point must be an integer value."))
  {
    var c := Checks()[0];
    assert c == ImagesChecks()[0];
    assert !Passes(ini, c);
    assert Message(c) == "Image White Point must be an integer value.";
  }

  lemma PassesWith(options: map<string, string>, c: Check, v: string)
    requires c.option in options && options[c.option] == v
    requires if c.decimal then IsDecimal(v) else IsDigits(v)
    ensures PassesIn(options, c)
  {
  }

  /** Each section `_create_default` writes passes the checks on that section. */
  lemma DefaultImagesPass()
    ensures forall k :: 0 <= k < |ImagesChecks()| ==> PassesIn(ImagesDefaults(), ImagesChecks()[k])
  {
    var m, cs := ImagesDefaults(), ImagesChecks();
    PassesWith(m, cs[0], "4095");
    DecimalParts("3", "45");
    assert "3" + ['.'] + "45" == "3.45";
    PassesWith(m, cs[1], "3.45");
    PassesWith(m, cs[2], "2500");
  }

  lemma DefaultProcessingPass()
    ensures forall k :: 0 <= k < |ProcessingChecks()| ==> PassesIn(ProcessingDefaults(), ProcessingChecks()[k])
  {
    DefaultProcessingDecimalsPass();
    DefaultProcessingIntegersPass();
  }

  lemma DefaultProcessingDecimalsPass()
    ensures PassesIn(ProcessingDefaults(), ProcessingChecks()[0])
    ensures PassesIn(ProcessingDefaults(), ProcessingChecks()[3])
  {
    var m, cs := ProcessingDefaults(), ProcessingChecks();
    DecimalParts("99", "5");
    assert "99" + ['.'] + "5" == "99.5";
    PassesWith(m, cs[0], "99.5");
    DecimalParts("0", "2");
    assert "0" + ['.'] + "2" == "0.2";
    PassesWith(m, cs[3], "0.2");
  }

  lemma DefaultProcessingIntegersPass()
    ensures PassesIn(ProcessingDefaults(), ProcessingChecks()[1])
    ensures PassesIn(ProcessingDefaults(), ProcessingChecks()[2])
    ensures PassesIn(ProcessingDefaults(), ProcessingChecks()[4])
  {
    var m, cs := ProcessingDefaults(), ProcessingChecks();
    PassesWith(m, cs[1], "1526");
    PassesWith(m, cs[2], "3");
    PassesWith(m, cs[4], "10");
  }

  lemma DefaultBayesianPass()
    ensures forall k :: 0 <= k < |BayesianChecks()| ==> PassesIn(BayesianDefaults(), BayesianChecks()[k])
  {
    PassesWith(BayesianDefaults(), BayesianChecks()[0], "255");
  }

  /** Checks made in two runs pass exactly when both runs pass. */
  lemma {:induction false} AllPassConcat(ini: Ini, a: seq<Check>, b: seq<Check>)
    ensures AllPass(ini, a + b) <==> AllPass(ini, a) && AllPass(ini, b)
  {
    if AllPass(ini, a) && AllPass(ini, b) {
      forall k | 0 <= k < |a + b| ensures Passes(ini, (a + b)[k]) {
        if k >= |a| { assert (a + b)[k] == b[k - |a|]; }
      }
    }
    if AllPass(ini, a + b) {
      forall k | 0 <= k < |a| ensures Passes(ini, a[k]) {
        assert (a + b)[k] == a[k];
      }
      forall k | 0 <= k < |b| ensures Passes(ini, b[k]) {
        assert (a + b)[|a| + k] == b[k];
      }
    }
  }

  /** Checks on one section pass when that section's options pass them. */
  lemma SectionPasses(ini: Ini, section: string, cs: seq<Check>)
    requires section in ini
    requires forall k :: 0 <= k < |cs| ==> cs[k].section == section && PassesIn(ini[section], cs[k])
    ensures AllPass(ini, cs)
  {
  }

  /** The configuration `_create_default` writes passes `validate`. */
  lemma DefaultsValidate()
    ensures Validate(Defaults()).Ok?
  {
    var ini := Defaults();
    DefaultImagesPass();
    SectionPasses(ini, "images", ImagesChecks());
    DefaultProcessingPass();
    SectionPasses(ini, "processing", ProcessingChecks());
    DefaultBayesianPass();
    SectionPasses(ini, "bayesian", BayesianChecks());
    AllPassConcat(ini, ImagesChecks(), ProcessingChecks());
    AllPassConcat(ini, ImagesChecks() + ProcessingChecks(), BayesianChecks());
  }

  /** The one-dot rule: `1.5`, `.5` and `5.` are numbers to `validate`. */
  lemma DecimalExamples()
    ensures IsDecimal("1.5") && IsDecimal(".5") && IsDecimal("5.")
  {
    assert RemoveFirst("1.5", '.') == "15";
    assert RemoveFirst(".5", '.') == "5";
    assert RemoveFirst("5.", '.') == "5";
  }

  /** ... while `1.2.3`, `-1` and the empty string are not. */
  lemma NonDecimalExamples()
    ensures !IsDecimal("1.2.3") && !IsDecimal("-1") && !IsDecimal("")
  {
    assert RemoveFirst("1.2.3", '.') == "12.3";
    assert !IsDigitChar("12.3"[2]);
    assert IndexOf("-1", '.') == 2;
    assert !IsDigitChar("-1"[0]);
  }

  // ---------------------------------------------------------------- selections

  /** What `create_image` builds, from the reader's array, the CZI metadata and the raw CZI array. */
  function CreateImage(ini: Ini, read: Option<Grid>, meta: Metadata, raw: RawArray): (r: Result<Result<ImageSource, ImageError>, ConfigError>)
    requires WellShaped(raw)
    ensures ImageFormat(ini) == "CZI" ==> r == Ok(CziImage(meta, raw))
    ensures ImageFormat(ini) != "CZI" ==>
      (r.Err? <==> Scaling(ini).Err? || WhitePoint(ini).Err?) &&
      (r.Ok? ==> r.value == Ok(TiffImage(read, Scaling(ini).value, WhitePoint(ini).value)))
  {
    if ImageFormat(ini) == "CZI" then Ok(CziImage(meta, raw))
    else match Scaling(ini)
      case Err(e) => Err(e)
      case Ok(s) =>
        match WhitePoint(ini)
        case Err(e) => Err(e)
        case Ok(w) => Ok(Ok(TiffImage(read, s, w)))
  }

  /** The reader `stable_reader` configures: which decoder and the polling parameters. */
  datatype StableReader = StableReader(czi: bool, maxAttempts: int, delay: real, requiredStable: int)

  /** `stable_reader`: the CZI decoder exactly when the format is `CZI`. */
  function StableReaderOf(ini: Ini): (r: Result<StableReader, ConfigError>)
    ensures r.Err? <==> MaxChecks(ini).Err? || CheckDelay(ini).Err? || RequiredStable(ini).Err?
    ensures r.Ok? ==>
      && (r.value.czi <==> ImageFormat(ini) == "CZI")
      && r.value.maxAttempts == MaxChecks(ini).value
      && r.value.delay == CheckDelay(ini).value
      && r.value.requiredStable == RequiredStable(ini).value
  {
    match MaxChecks(ini)
    case Err(e) => Err(e)
    case Ok(m) =>
      match CheckDelay(ini)
      case Err(e) => Err(e)
      case Ok(d) =>
        match RequiredStable(ini)
        case Err(e) => Err(e)
        case Ok(s) => Ok(StableReader(ImageFormat(ini) == "CZI", m, d, s))
  }

  /** `create_processor`: the strategies selected from the processing options. */
  function CreateProcessor(ini: Ini): (r: Result<Strategies, ConfigError>)
    ensures r.Err? <==>
      || Normalization(ini).Err? || NormalizationPercentile(ini).Err?
      || ThresholdLevel(ini).Err? || MaxRadius(ini).Err?
    ensures r.Ok? ==>
      && (r.value.normalizer.Some? <==> Normalization(ini).value)
      && (r.value.masker.KMeans? <==> MaskingMethod(ini) == "K-Means")
      && (r.value.fitter.EigenvalueFitter? <==> RadiusMethod(ini) == "Eigenvalue")
      && r.value.fitter.maxRadius == MaxRadius(ini).value
  {
    match Normalization(ini)
    case Err(e) => Err(e)
    case Ok(n) =>
      match NormalizationPercentile(ini)
      case Err(e) => Err(e)
      case Ok(p) =>
        match ThresholdLevel(ini)
        case Err(e) => Err(e)
        case Ok(t) =>
          match MaxRadius(ini)
          case Err(e) => Err(e)
          case Ok(m) => Ok(NewProcessor(n, p, MaskingMethod(ini), t, RadiusMethod(ini), m))
  }

  /** The processor method `create_tester` hands the tester. */
  datatype Pipeline = CircularRoiPipeline | ProcessPipeline

  datatype TesterSetup = TesterSetup(
    processor: Strategies, pipeline: Pipeline,
    rawDir: Option<string>, truthDir: Option<string>, truthIntensity: int)

  /** `create_tester`: `circular_roi` exactly when the testing method is `circle` in any case. */
  function CreateTester(ini: Ini): (r: Result<TesterSetup, ConfigError>)
    ensures CreateProcessor(ini).Err? ==> r == Err(CreateProcessor(ini).error)
    ensures r.Err? <==> CreateProcessor(ini).Err? || TruthIntensity(ini).Err?
    ensures r.Ok? ==>
      && r.value.processor == CreateProcessor(ini).value
      && (r.value.pipeline == CircularRoiPipeline <==> Lower(TestingMethod(ini)) == "circle")
      && r.value.rawDir == TestingDirectoryRaw(ini) && r.value.truthDir == TestingDirectoryTruth(ini)
      && r.value.truthIntensity == TruthIntensity(ini).value
  {
    match CreateProcessor(ini)
    case Err(e) => Err(e)
    case Ok(p) =>
      var pipeline := if Lower(TestingMethod(ini)) == "circle" then CircularRoiPipeline else ProcessPipeline;
      match TruthIntensity(ini)
      case Err(e) => Err(e)
      case Ok(t) => Ok(TesterSetup(p, pipeline, TestingDirectoryRaw(ini), TestingDirectoryTruth(ini), t))
  }

  /** The names in the listing with the configured image format's suffix, in listing order. */
  function Matching(ini: Ini, entries: seq<DirEntry>): seq<Name>
  {
    Select(entries, Keeper(MatchingFormat(ImageFormat(ini))))
  }

  datatype AnyImagesQueue = Lazy(lazy: LazyQueue) | Eager(eager: EagerQueue)

  /**
   * `create_queue`: without a reader the stable reader is configured first;
   * the queue is an `EagerQueue` exactly when the queue type is `Image`,
   * watching the configured directory for the configured format. `entries`
   * is the directory's listing and `decode` the image factory.
   */
  method CreateQueue(ini: Ini, readerGiven: bool, entries: seq<DirEntry>, decode: Factory)
    returns (r: Result<AnyImagesQueue, ConfigError>)
    ensures !readerGiven && StableReaderOf(ini).Err? ==> r == Err(StableReaderOf(ini).error)
    ensures r.Err? <==>
      (!readerGiven && StableReaderOf(ini).Err?) || EnqueueExisting(ini).Err? || Directory(ini).None?
    ensures r.Ok? ==> (r.value.Eager? <==> QueueType(ini) == "Image")
    ensures r.Ok? && r.value.Lazy? ==>
      && fresh(r.value.lazy) && r.value.lazy.Valid() && r.value.lazy.format == ImageFormat(ini)
      && (EnqueueExisting(ini).value ==>
            r.value.lazy.State() == EnqueueNames(NameBacklog([], {}), Matching(ini, entries)))
      && (!EnqueueExisting(ini).value ==>
            r.value.lazy.backlog == [] && r.value.lazy.seen == Names(Matching(ini, entries)))
    ensures r.Ok? && r.value.Eager? ==>
      && fresh(r.value.eager) && r.value.eager.Valid() && r.value.eager.format == ImageFormat(ini)
      && (EnqueueExisting(ini).value ==>
            r.value.eager.State() == EnqueueImages(ImageBacklog([], [], {}), Matching(ini, entries), decode))
      && (!EnqueueExisting(ini).value ==>
            r.value.eager.backlog == [] && r.value.eager.seen == Names(Matching(ini, entries)))
  {
    if !readerGiven && StableReaderOf(ini).Err? {
      return Err(StableReaderOf(ini).error);
    }
    var existing := EnqueueExisting(ini);
    if existing.Err? {
      return Err(existing.error);
    }
    if Directory(ini).None? {
      return Err(NoDirectory);
    }
    if QueueType(ini) == "Image" {
      var q := new EagerQueue(entries, ImageFormat(ini), existing.value, decode);
      return Ok(Eager(q));
    }
    var q := new LazyQueue(entries, ImageFormat(ini), existing.value);
    return Ok(Lazy(q));
  }
}
