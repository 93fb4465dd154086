/**
 * The plugin entry of lib/image-process.js: the parameter defaults and
 * clamps, the per-file filter, the hand-off to the watermark compositor,
 * the encoder settings derived from the parameters, and the names of the
 * files the plugin emits.
 *
 * Decoding, encoding and resizing the base image are the raster library's
 * work and appear only as the image's size; the file system's answer to
 * "does the watermark file exist" is an input.
 */
module ImageProcess {
  import opened JsRuntime
  import Watermark

  const SupportedExtensions: seq<string> := [".jpg", ".jpeg", ".png", ".gif", ".bmp"]

  /** The `PluginError`s the plugin throws. */
  datatype PluginError = ParametersMandatory | StreamingNotSupported | WatermarkFileNotFound

  /** `multipleResize`: an array of sizes, or anything else (the default `false` included). */
  datatype MultipleResize = NoDerivatives | Sizes(sizes: seq<nat>)

  /** The options the user passes; `None` is a key the user did not give. */
  datatype Options = Options(
    watermark: Option<Watermark.Config>,
    quality: Option<int>,
    multipleResize: Option<MultipleResize>,
    output: Option<string>)

  /** The `parameters` record the plugin works from; `output: None` is the default `false`. */
  datatype Settings = Settings(
    watermark: Watermark.Config,
    quality: int,
    multipleResize: MultipleResize,
    output: Option<string>)

  /** The default `watermark` object: only `maxSize: -1`. */
  const DefaultWatermark := Watermark.Config(None, None, None, Some(-1), false, None)

  const Defaults := Settings(DefaultWatermark, 100, NoDerivatives, None)

  /** `Object.assign(parameters, param)`: each key the user gives replaces the default wholesale. */
  function Merge(param: Options): (s: Settings)
    ensures param.watermark.Some? ==> s.watermark == param.watermark.value
    ensures param.watermark.None? ==> s.watermark.maxSize == Some(-1) && s.watermark.filePath.None?
    ensures param.quality.Some? ==> s.quality == param.quality.value
    ensures param.quality.None? ==> s.quality == 100
    ensures param.multipleResize.Some? ==> s.multipleResize == param.multipleResize.value
    ensures param.multipleResize.None? ==> s.multipleResize.NoDerivatives?
    ensures s.output == param.output
  {
    Settings(
      if param.watermark.Some? then param.watermark.value else Defaults.watermark,
      if param.quality.Some? then param.quality.value else Defaults.quality,
      if param.multipleResize.Some? then param.multipleResize.value else Defaults.multipleResize,
      if param.output.Some? then param.output else Defaults.output)
  }

  // ---------------------------------------------------------------------
  // Clamps
  // ---------------------------------------------------------------------

  /** The `quality` clamp: into [1, 100], leaving values already there alone. */
  function ClampQuality(quality: int): (q: int)
    ensures 1 <= q <= 100
    ensures 1 <= quality <= 100 ==> q == quality
    ensures quality > 100 ==> q == 100
    ensures quality < 1 ==> q == 1
  {
    var q := if quality > 100 then 100 else quality;
    if q < 1 then 1 else q
  }

  /**
   * The `watermark.maxSize` clamp: into [0, 100]. An absent `maxSize`
   * compares false both ways and stays absent; -1 is clamped like any other
   * negative value.
   */
  function ClampMaxSize(maxSize: Option<int>): (m: Option<int>)
    ensures m.None? <==> maxSize.None?
    ensures m.Some? ==> 0 <= m.value <= 100
    ensures maxSize.Some? && 0 <= maxSize.value <= 100 ==> m == maxSize
    ensures maxSize.Some? && maxSize.value < 0 ==> m == Some(0)
    ensures maxSize.Some? && maxSize.value > 100 ==> m == Some(100)
  {
    match maxSize
    case None => None
    case Some(v) =>
      var v := if v > 100 then 100 else v;
      Some(if v < 0 then 0 else v)
  }

  /** The parameters after the clamps. */
  function Normalise(param: Options): (s: Settings)
    ensures 1 <= s.quality <= 100
    ensures s.watermark.maxSize.None? || 0 <= s.watermark.maxSize.value <= 100
    ensures s.watermark.maxSize.None? <==> param.watermark.Some? && param.watermark.value.maxSize.None?
    ensures s.multipleResize == Merge(param).multipleResize && s.output == Merge(param).output
  {
    var merged := Merge(param);
    merged.(
      quality := ClampQuality(merged.quality),
      watermark := merged.watermark.(maxSize := ClampMaxSize(merged.watermark.maxSize)))
  }

  /**
   * The parameter record, updated field by field by the clamps.
   */
  class Parameters {
    var watermark: Watermark.Config
    var quality: int
    var multipleResize: MultipleResize
    var output: Option<string>

    function Snapshot(): Settings
      reads this
    {
      Settings(watermark, quality, multipleResize, output)
    }

    /** The default record with the user's options assigned over it. */
    constructor (param: Options)
      ensures Snapshot() == Merge(param)
    {
      watermark := DefaultWatermark;
      quality := 100;
      multipleResize := NoDerivatives;
      output := None;
      new;
      if param.watermark.Some? {
        watermark := param.watermark.value;
      }
      if param.quality.Some? {
        quality := param.quality.value;
      }
      if param.multipleResize.Some? {
        multipleResize := param.multipleResize.value;
      }
      if param.output.Some? {
        output := param.output;
      }
    }

    /** The four clamps, in the order the source applies them. */
    method Clamp()
      modifies this
      ensures quality == ClampQuality(old(quality))
      ensures watermark == old(watermark).(maxSize := ClampMaxSize(old(watermark.maxSize)))
      ensures multipleResize == old(multipleResize) && output == old(output)
    {
      if quality > 100 {
        quality := 100;
      }
      if quality < 1 {
        quality := 1;
      }
      if watermark.maxSize.Some? && watermark.maxSize.value > 100 {
        watermark := watermark.(maxSize := Some(100));
      }
      if watermark.maxSize.Some? && watermark.maxSize.value < 0 {
        watermark := watermark.(maxSize := Some(0));
      }
    }
  }

  /**
   * The exported function's set-up: a falsy parameter object is refused
   * before anything else; otherwise the defaults, the user's options and
   * the clamps.
   */
  method Configure(param: Option<Options>) returns (r: Result<Parameters, PluginError>)
    ensures r.Err? <==> param.None?
    ensures r.Err? ==> r.error == ParametersMandatory
    ensures r.Ok? ==> fresh(r.value) && r.value.Snapshot() == Normalise(param.value)
  {
    if param.None? {
      return Err(ParametersMandatory);
    }
    var parameters := new Parameters(param.value);
    parameters.Clamp();
    return Ok(parameters);
  }

  /**
   * The -1 sentinel does not survive: the default watermark object and an
   * explicit -1 both come out as 0.
   */
  lemma SentinelClampedToZero(param: Options)
    requires param.watermark.None? || param.watermark.value.maxSize == Some(-1)
    ensures Normalise(param).watermark.maxSize == Some(0)
  {
  }

  /**
   * Once the parameters are normalised, the compositor always takes its
   * resize path, and the percentage it uses lies in [1, 100]: the user's
   * `maxSize` when that is in [1, 100], 100 when it is absent, 0, -1 or any
   * other negative, 100 when it is above 100.
   */
  lemma NormalisedResizePercent(param: Options, image: Watermark.Dims, overlay: Watermark.Dims)
    ensures Watermark.TakesResizePath(image, overlay, Normalise(param).watermark.maxSize)
    ensures var percent := Watermark.ResizePercent(Normalise(param).watermark.maxSize);
      && 1 <= percent <= 100
      && (param.watermark.Some? && param.watermark.value.maxSize.Some? && 1 <= param.watermark.value.maxSize.value <= 100
          ==> percent == param.watermark.value.maxSize.value)
      && (param.watermark.None? || param.watermark.value.maxSize.None? || param.watermark.value.maxSize.value <= 0
          ==> percent == 100)
      && (param.watermark.Some? && param.watermark.value.maxSize.Some? && param.watermark.value.maxSize.value > 100
          ==> percent == 100)
  {
  }

  // ---------------------------------------------------------------------
  // Encoder settings
  // ---------------------------------------------------------------------

  /** `Number((quality / 10).toFixed())`, capped at 9. */
  function PngCompressionLevel(quality: int): (level: int)
    ensures 1 <= quality <= 100 ==> 0 <= level <= 9
  {
    var level := ToFixedDiv(quality, 10);
    if level > 9 then 9 else level
  }

  /** For a clamped quality the level is 0 below 5, 9 from 85 up, and grows with quality. */
  lemma PngCompressionLevelSteps(q1: int, q2: int)
    requires 1 <= q1 <= q2 <= 100
    ensures PngCompressionLevel(q1) <= PngCompressionLevel(q2)
    ensures PngCompressionLevel(q1) == 0 <==> q1 < 5
    ensures PngCompressionLevel(q1) == 9 <==> q1 >= 85
  {
  }

  /** `forceJpg`: the output is `'jpeg'` or `'jpg'`. */
  function ForceJpg(output: Option<string>): (b: bool)
    ensures b <==> output in {Some("jpeg"), Some("jpg")}
    ensures b ==> output != Some("webp") && output != Some("png")
  {
    output == Some("jpeg") || output == Some("jpg")
  }

  /** The options handed to the jpeg, webp and png encoders. */
  datatype Encoders = Encoders(
    jpegQuality: int, forceJpeg: bool,
    webpQuality: int, forceWebp: bool,
    pngCompressionLevel: int, forcePng: bool)

  function EncoderOptions(s: Settings): (e: Encoders)
    ensures !(e.forceJpeg && e.forceWebp) && !(e.forceJpeg && e.forcePng) && !(e.forceWebp && e.forcePng)
    ensures 1 <= s.quality <= 100 ==> 0 <= e.pngCompressionLevel <= 9
  {
    Encoders(
      s.quality, ForceJpg(s.output),
      s.quality, s.output == Some("webp"),
      PngCompressionLevel(s.quality), s.output == Some("png"))
  }

  // ---------------------------------------------------------------------
  // File names
  // ---------------------------------------------------------------------

  /** A file path as `path.parse` splits it: directory, name and extension (with its dot). */
  datatype FilePath = FilePath(dir: string, name: string, ext: string)

  /** `extensionFile`: the lower-cased extension. */
  function ExtensionFile(p: FilePath): (e: string)
    ensures |e| == |p.ext|
    ensures forall i :: 0 <= i < |e| ==> !('A' <= e[i] <= 'Z')
  {
    ToLower(p.ext)
  }

  /** The filter on the lower-cased extension. */
  function IsSupported(p: FilePath): (b: bool)
    ensures b <==> ExtensionFile(p) in SupportedExtensions
    ensures b ==> 4 <= |p.ext| <= 5 && p.ext[0] == '.'
  {
    ExtensionFile(p) in SupportedExtensions
  }

  lemma LowerCharIdempotent(c: char)
    ensures LowerChar(LowerChar(c)) == LowerChar(c)
  {
  }

  /** The filter ignores case: a file passes exactly when its lower-cased twin does. */
  lemma {:induction false} SupportedIgnoresCase(p: FilePath)
    ensures IsSupported(p) <==> IsSupported(p.(ext := ToLower(p.ext)))
    ensures IsSupported(FilePath(p.dir, p.name, ".JPG")) && IsSupported(FilePath(p.dir, p.name, ".Png"))
    ensures !IsSupported(FilePath(p.dir, p.name, ".webp")) && !IsSupported(FilePath(p.dir, p.name, ""))
  {
    var l := ToLower(p.ext);
    forall i | 0 <= i < |l|
      ensures ToLower(l)[i] == l[i]
    {
      LowerCharIdempotent(p.ext[i]);
    }
    assert ToLower(l) == l;
    assert ToLower(".JPG") == ".jpg";
    assert ToLower(".Png") == ".png";
    assert ToLower(".webp") == ".webp";
  }

  /** The renaming `switch` on `output`. */
  function OutputPath(p: FilePath, output: Option<string>): (q: FilePath)
    ensures q.dir == p.dir && q.name == p.name
    ensures output == Some("webp") ==> q.ext == ".webp"
    ensures ForceJpg(output) ==> q.ext == ".jpeg"
    ensures output == Some("png") ==> q.ext == ".png"
    ensures output !in {Some("webp"), Some("jpeg"), Some("jpg"), Some("png")} ==> q == p
  {
    if output == Some("webp") then FilePath(p.dir, p.name, ".webp")
    else if output == Some("jpeg") || output == Some("jpg") then FilePath(p.dir, p.name, ".jpeg")
    else if output == Some("png") then FilePath(p.dir, p.name, ".png")
    else p
  }

  /** A forced encoder and the emitted file's extension agree. */
  lemma ForcedFormatMatchesName(s: Settings, p: FilePath)
    ensures EncoderOptions(s).forceJpeg ==> OutputPath(p, s.output).ext == ".jpeg"
    ensures EncoderOptions(s).forceWebp ==> OutputPath(p, s.output).ext == ".webp"
    ensures EncoderOptions(s).forcePng ==> OutputPath(p, s.output).ext == ".png"
    ensures !EncoderOptions(s).forceJpeg && !EncoderOptions(s).forceWebp && !EncoderOptions(s).forcePng
        ==> OutputPath(p, s.output) == p
  {
  }

  /** The derivative of size `s`: `<dir>/<name>-<s><ext>`. */
  function DerivativePath(p: FilePath, size: nat): (q: FilePath)
    ensures q.dir == p.dir && q.ext == p.ext
    ensures |q.name| > |p.name| + 1 && q.name[..|p.name| + 1] == p.name + "-"
    ensures DecimalValue(q.name[|p.name| + 1..]) == size
  {
    DecimalRoundTrip(size);
    FilePath(p.dir, p.name + "-" + Decimal(size), p.ext)
  }

  /** A derivative never takes the main file's name, and two sizes never share one. */
  lemma DerivativeNamesDistinct(p: FilePath, s1: nat, s2: nat)
    ensures DerivativePath(p, s1) != p
    ensures s1 != s2 ==> DerivativePath(p, s1) != DerivativePath(p, s2)
  {
  }

  /** The derivatives of a file, one per size, in the order of the array. */
  function Derivatives(p: FilePath, multipleResize: MultipleResize): (ds: seq<FilePath>)
    ensures multipleResize.NoDerivatives? ==> ds == []
    ensures multipleResize.Sizes? ==> |ds| == |multipleResize.sizes|
  {
    match multipleResize
    case NoDerivatives => []
    case Sizes(sizes) => seq(|sizes|, i requires 0 <= i < |sizes| => DerivativePath(p, sizes[i]))
  }

  /**
   * `processMultipleResize`: one clone per size, named after the size. The
   * source pushes them as their resizes complete, concurrently; the model
   * lists them in array order.
   */
  method MultipleResizeNames(p: FilePath, multipleResize: MultipleResize) returns (pushed: seq<FilePath>)
    ensures multipleResize.NoDerivatives? ==> pushed == []
    ensures multipleResize.Sizes? ==>
      && |pushed| == |multipleResize.sizes|
      && forall i :: 0 <= i < |pushed| ==> pushed[i] == DerivativePath(p, multipleResize.sizes[i])
  {
    pushed := [];
    if multipleResize.Sizes? {
      var sizes := multipleResize.sizes;
      var k := 0;
      while k < |sizes|
        invariant 0 <= k <= |sizes|
        invariant |pushed| == k
        invariant forall i :: 0 <= i < k ==> pushed[i] == DerivativePath(p, sizes[i])
      {
        var cFile := DerivativePath(p, sizes[k]);
        pushed := pushed + [cFile];
        k := k + 1;
      }
    }
  }

  // ---------------------------------------------------------------------
  // One file through the plugin
  // ---------------------------------------------------------------------

  /** The kind of a vinyl file's contents. */
  datatype Kind = NullFile | StreamFile | BufferFile

  /** A vinyl file: its path is reassigned when the output format renames it. */
  class VinylFile {
    var path: FilePath
    const kind: Kind

    constructor (path: FilePath, kind: Kind)
      ensures this.path == path && this.kind == kind
    {
      this.path := path;
      this.kind := kind;
    }
  }

  datatype FileError = Plugin(error: PluginError) | Compositor(failure: Watermark.Error)

  /** What becomes of one file: skipped, an error thrown, or the files pushed (derivatives, then the file). */
  datatype FileOutcome = Skipped | Failed(error: FileError) | Emitted(files: seq<FilePath>)

  /**
   * `processFiles` as a value. `watermarkExists` is the file system's answer
   * for the watermark path; `image`, `overlay` and `render` are what the
   * raster library reports.
   */
  function ProcessFileSpec(s: Settings, kind: Kind, path: FilePath, watermarkExists: bool,
                           image: Watermark.Dims, overlay: Watermark.Dims, render: Watermark.Renderer)
    : (out: FileOutcome)
    ensures out == Skipped <==> kind.NullFile? || (kind.BufferFile? && !IsSupported(path))
    ensures kind.StreamFile? ==> out == Failed(Plugin(StreamingNotSupported))
    ensures out == Failed(Plugin(WatermarkFileNotFound))
        <==> kind.BufferFile? && IsSupported(path) && TruthyString(s.watermark.filePath) && !watermarkExists
    ensures out.Emitted? <==>
      && kind.BufferFile? && IsSupported(path)
      && !(TruthyString(s.watermark.filePath)
           && (!watermarkExists || Watermark.WatermarkSpec(s.watermark, image, overlay, render).Err?))
    ensures out.Failed? && out.error.Compositor? <==>
      && kind.BufferFile? && IsSupported(path) && TruthyString(s.watermark.filePath) && watermarkExists
      && Watermark.WatermarkSpec(s.watermark, image, overlay, render).Err?
    ensures out.Failed? && out.error.Compositor? ==>
      out.error.failure == Watermark.WatermarkSpec(s.watermark, image, overlay, render).error
    ensures out.Emitted? ==>
      out.files == Derivatives(OutputPath(path, s.output), s.multipleResize) + [OutputPath(path, s.output)]
  {
    if kind.NullFile? then Skipped
    else if kind.StreamFile? then Failed(Plugin(StreamingNotSupported))
    else if !IsSupported(path) then Skipped
    else if TruthyString(s.watermark.filePath) && !watermarkExists then Failed(Plugin(WatermarkFileNotFound))
    else if TruthyString(s.watermark.filePath) && Watermark.WatermarkSpec(s.watermark, image, overlay, render).Err?
    then Failed(Compositor(Watermark.WatermarkSpec(s.watermark, image, overlay, render).error))
    else
      var out := OutputPath(path, s.output);
      Emitted(Derivatives(out, s.multipleResize) + [out])
  }

  /**
   * Derivatives are named after the renamed file: they carry the output
   * format's extension, each appears once, and none takes the file's name.
   */
  lemma EmittedNamesDistinct(s: Settings, path: FilePath, watermarkExists: bool,
                             image: Watermark.Dims, overlay: Watermark.Dims, render: Watermark.Renderer)
    requires s.multipleResize.Sizes?
    requires forall i, j :: 0 <= i < j < |s.multipleResize.sizes| ==> s.multipleResize.sizes[i] != s.multipleResize.sizes[j]
    ensures var out := ProcessFileSpec(s, BufferFile, path, watermarkExists, image, overlay, render);
      out.Emitted? ==>
        && (forall i :: 0 <= i < |out.files| ==> out.files[i].ext == OutputPath(path, s.output).ext)
        && (forall i, j :: 0 <= i < j < |out.files| ==> out.files[i] != out.files[j])
  {
    var out := ProcessFileSpec(s, BufferFile, path, watermarkExists, image, overlay, render);
    if out.Emitted? {
      var main := OutputPath(path, s.output);
      var sizes := s.multipleResize.sizes;
      assert out.files == Derivatives(main, s.multipleResize) + [main];
      forall i, j | 0 <= i < j < |out.files|
        ensures out.files[i] != out.files[j]
      {
        DerivativeNamesDistinct(main, sizes[i], if j < |sizes| then sizes[j] else 0);
      }
    }
  }

  /**
   * `processFiles`: skip null files, refuse streams, skip unsupported
   * extensions, check and apply the watermark, rename for the output
   * format, then push the derivatives and the file.
   */
  method ProcessFile(parameters: Parameters, file: VinylFile, watermarkExists: bool,
                     imageMetadata: Watermark.Dims, overlayMetadata: Watermark.Dims, render: Watermark.Renderer)
    returns (out: FileOutcome)
    modifies file
    ensures out == ProcessFileSpec(parameters.Snapshot(), file.kind, old(file.path), watermarkExists,
                                   imageMetadata, overlayMetadata, render)
    ensures out.Emitted? ==> file.path == OutputPath(old(file.path), parameters.output)
    ensures !out.Emitted? ==> file.path == old(file.path)
  {
    ghost var spec := ProcessFileSpec(parameters.Snapshot(), file.kind, file.path, watermarkExists,
                                      imageMetadata, overlayMetadata, render);
    if file.kind == NullFile {
      return Skipped;
    }
    if file.kind == StreamFile {
      return Failed(Plugin(StreamingNotSupported));
    }
    if ExtensionFile(file.path) !in SupportedExtensions {
      return Skipped;
    }
    var img := new Watermark.SharpImage(imageMetadata.width, imageMetadata.height);
    if TruthyString(parameters.watermark.filePath) {
      if !watermarkExists {
        return Failed(Plugin(WatermarkFileNotFound));
      }
      var applied := Watermark.ApplyWatermark(img, parameters.watermark, overlayMetadata, render);
      if applied.Err? {
        return Failed(Compositor(applied.error));
      }
    }
    var fInfo := file.path;
    if parameters.output == Some("webp") {
      file.path := FilePath(fInfo.dir, fInfo.name, ".webp");
    } else if parameters.output == Some("jpeg") || parameters.output == Some("jpg") {
      file.path := FilePath(fInfo.dir, fInfo.name, ".jpeg");
    } else if parameters.output == Some("png") {
      file.path := FilePath(fInfo.dir, fInfo.name, ".png");
    }
    assert file.path == OutputPath(fInfo, parameters.output);
    var derivatives := MultipleResizeNames(file.path, parameters.multipleResize);
    assert derivatives == Derivatives(file.path, parameters.multipleResize);
    out := Emitted(derivatives + [file.path]);
    assert out == spec;
  }
}
