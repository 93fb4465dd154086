# gulp-image-process: watermark geometry and option handling, in Dafny

This project models the decision logic of the `gulp-image-process` plugin.
The plugin streams image files through the `sharp` raster library. It can
convert their format, set the encoder quality, emit resized derivatives and
composite a watermark onto each image.

Three modules:

- `JsRuntime` (`js_runtime.dfy`) holds the JavaScript built-ins the logic
  relies on, stated over integers: `undefined`-or-value, thrown-or-returned,
  truthiness, `Math.round` (nearest integer, halves toward +infinity),
  `toFixed` (halves away from zero), ASCII `toLowerCase`, and the decimal
  text of a size.
- `Watermark` (`watermark.dfy`) models `lib/watermark.js`:
  - the per-axis max box (`getMaxSize`);
  - the two-decimal ratio (`getRatio`);
  - the resize decision and the percentage it uses;
  - `processWatermarkResize`: cover mode's clamped square, or the shrink of
    the constraining axis that never enlarges;
  - the nine-anchor placement with rounding and the clamp at 0;
  - the exported function, which issues one composite whose `tile` flag is
    `isCover`.

  `sharp` handles are a `SharpImage` class whose `resize` and `composite`
  calls are recorded on the handle. The size the library reports after it
  carries out a resize is an opaque `render` function.
- `ImageProcess` (`image_process.dfy`) models `lib/image-process.js`:
  - the mandatory-parameter check;
  - the defaults merged by `Object.assign`;
  - the `quality` and `watermark.maxSize` clamps, applied to a `Parameters`
    object field by field;
  - the PNG compression level and the forced encoder;
  - the supported-extension filter;
  - the renaming for the output format and the derivative names;
  - `processFiles` for one file.

Each step is a pure specification function plus, where the source updates
state, a method proved equal to it.

Some behaviour of the code differs from what its own defaults suggest,
such as the `maxSize` default of -1. The model follows the code:

- The `maxSize` sentinel -1 does not survive normalisation. The clamp
  turns it into 0, and so does the clamp on the default watermark object.
  After normalisation the compositor therefore always takes its resize
  path. A percentage of 0 is falsy, so it gives 100, as an absent `maxSize`
  does (`NormalisedResizePercent`).
- The shrink target is not exactly the max box. The ratio is first rounded
  to two decimals, so an 800-pixel overlay with a 500-pixel box is asked
  for 504 pixels (`ShrinkTargetOvershoots`). The target always stays within
  `(size + 100) / 200` pixels of the box (`ShrinkTargetBounds`).
- The cover-mode `sizePattern` error is thrown only on the resize path,
  after both metadata reads. The position error is thrown after the resize
  (`WatermarkSpec`).

## Model

| member | source | states |
|---|---|---|
| `JsRuntime.TruthyNumber` | lib/watermark.js:50 | a number is falsy when absent or 0 and truthy otherwise, as the `sizePattern` and `maxSize` tests at lines 50 and 155 read it |
| `JsRuntime.TruthyString` | lib/image-process.js:100 | a string is falsy when absent or empty and truthy otherwise, as the `filePath` test reads it |
| `JsRuntime.RoundDiv` | lib/watermark.js:32 | `Math.round(p / q)` is the unique integer within half a unit of `p / q`, halves going up |
| `JsRuntime.ToFixedDiv` | lib/watermark.js:26 | `toFixed` gives the nearest integer to `p / q` with halves going away from zero, and keeps the sign |
| `JsRuntime.ToLower` | lib/image-process.js:55 | lower-casing keeps the length, leaves no ASCII capital, and changes exactly the capitals |
| `JsRuntime.Decimal` | lib/image-process.js:72 | `${n}` is a non-empty digit string with no leading zero, and `"0"` exactly for 0 |
| `JsRuntime.DecimalRoundTrip` | lib/image-process.js:72 | the decimal text written for a size reads back as that size, so distinct sizes get distinct texts |
| `Watermark.PositionName` | lib/watermark.js:6-16 | each `WATERMARK_POSITION` value is the anchor's own lower-case name, of 4 to 9 letters |
| `Watermark.PositionNamesDistinct` | lib/watermark.js:6-16 | no two anchors share a name, so the `switch` on the name picks exactly one anchor |
| `Watermark.SharpImage.Metadata` | lib/watermark.js:23 | `metadata()` reports the decoded width and height of the handle, whatever has been requested since |
| `Watermark.SharpImage.constructor` | lib/watermark.js:22 | a fresh handle has the decoded size, no resize and no composite |
| `Watermark.SharpImage.Resize` | lib/watermark.js:56-64 | a `resize` request replaces the recorded one and leaves the composite alone |
| `Watermark.SharpImage.Composite` | lib/watermark.js:170-177 | a `composite` request replaces the recorded layers and leaves the resize alone |
| `Watermark.SharpImage.Rendered` | lib/watermark.js:160-162 | the size re-read after `toBuffer` is the library's size for the recorded resize, or the decoded size when none was recorded |
| `Watermark.MaxSize` | lib/watermark.js:31-39 | the max box on one axis is `imageSize * percent / 100` rounded to the nearest pixel |
| `Watermark.MaxSizeWithinImage` | lib/watermark.js:41-43 | for a percentage in [0, 100] each axis's box lies in [0, imageSize]; at 100 percent it is the image size |
| `Watermark.Ratio` | lib/watermark.js:25-29 | for a non-negative box the ratio, in hundredths, is the nearest hundredth to `max / size`, halves going up |
| `Watermark.ShrinkTarget` | lib/watermark.js:76-78 | the target is `Math.round` of the two-decimal ratio times the overlay's size, and is non-negative for a non-negative box |
| `Watermark.RatioAtMostOne` | lib/watermark.js:25-29 | when the box is smaller than the overlay, the two-decimal ratio lies in [0.00, 1.00] and is the nearest hundredth to `max / size` |
| `Watermark.ShrinkTargetBounds` | lib/watermark.js:73-89 | a shrink target is never larger than the overlay's size on that axis and lies within `(size + 100) / 200` pixels of the box |
| `Watermark.ShrinkTargetOvershoots` | lib/watermark.js:74-80 | with a 500-pixel box the ratio of an 800-pixel overlay is 0.63 and the target is 504 pixels, not 500 |
| `Watermark.TakesResizePath` | lib/watermark.js:151-153 | the resize path runs whenever `maxSize` is not -1 or the overlay overflows the base; skipping it means -1 and an overlay that fits |
| `Watermark.WidthConstrains` | lib/watermark.js:69-72 | width constrains only when it overflows strictly more than height: a tie goes to height, an overflow on one axis alone picks that axis |
| `Watermark.ResizePercent` | lib/watermark.js:154-157 | the percentage is `maxSize` when it is truthy and not -1; absent, 0 and -1 all give 100 |
| `Watermark.CoverSide` | lib/watermark.js:53-55 | the cover square's side is the minimum of `sizePattern`, the max width and the max height |
| `Watermark.PlanResize` | lib/watermark.js:41-91 | cover mode throws exactly when `sizePattern` is falsy, else asks for a `side x side` cover resize; otherwise a resize is asked exactly when the constraining axis exceeds its box, and then it is the `ShrinkTarget` of that axis's box with `null` on the other axis |
| `Watermark.ShrinkOnlyConstrainingAxis` | lib/watermark.js:67-89 | outside cover mode only the constraining axis gets a target, the other is `null`, and the target never enlarges and lands near the box |
| `Watermark.ProcessWatermarkResize` | lib/watermark.js:41-91 | the overlay handle records exactly the resize `PlanResize` asks for, and nothing on an error |
| `Watermark.ParsePosition` | lib/watermark.js:99-138 | a position string is recognised exactly when it names one of the nine anchors, and then it names that anchor |
| `Watermark.PixelCoordinate` | lib/watermark.js:139-146 | a coordinate is rounded to the nearest pixel, halves going up, then clamped at 0 with no upper clamp |
| `Watermark.CompositeCoordinates` | lib/watermark.js:93-148 | an unknown or missing position throws "Unknown Position"; otherwise both coordinates are non-negative |
| `Watermark.AnchorHalves` | lib/watermark.js:99-135 | the center anchor is twice the half-differences whatever the margin; on a canvas the overlay and margin fit, every anchor lies between 0 and the free room |
| `Watermark.PlacementTable` | lib/watermark.js:99-135 | north, south and center share `x = iw/2 - ow/2`; the west anchors use `x = margin`; the east anchors use `x = iw - ow - margin`; the same holds for `y` |
| `Watermark.MarginDefaultsToZero` | lib/watermark.js:93 | an absent margin places the overlay as a margin of 0 does |
| `Watermark.CenterIgnoresMargin` | lib/watermark.js:108-111 | the center anchor gives the same coordinates for every margin: the rounded half-differences |
| `Watermark.PlacementOnCanvas` | lib/watermark.js:93-148 | if the overlay fits and the margin fits the room left over, every anchor keeps the overlay on the canvas |
| `Watermark.OppositeAnchorsMirror` | lib/watermark.js:116-131 | on such a canvas the west and east offsets add up to `iw - ow`, and the north and south offsets to `ih - oh` |
| `Watermark.WatermarkSpec` | lib/watermark.js:150-177 | the `sizePattern` error happens exactly on the resize path in cover mode without a pattern; the position error happens otherwise for a bad position; off the resize path nothing is resized and on it the resize is `PlanResize`'s at `ResizePercent`; the layer uses the post-resize size, sits at `CompositeCoordinates` of that size, and has `tile == isCover` |
| `Watermark.ApplyWatermark` | lib/watermark.js:18-179 | the exported function's steps produce `WatermarkSpec`'s result; the base image gets exactly that one composite layer, or none on an error |
| `Watermark.FittingOverlayKeepsItsSize` | lib/watermark.js:150-177 | a 400x400 overlay at the north-west of a 1000x800 base with margin 10 is not resized and lands at (10, 10) |
| `Watermark.WideOverlayOnSmallBase` | lib/watermark.js:150-177 | an 800x200 overlay at the south-east of a 500x500 base with margin 5 is asked for width 504; with the library's 504x126 it lands at (0, 369) |
| `Watermark.CoverTilesPatternSquare` | lib/watermark.js:49-65 | cover mode at 50 percent of a 1200x1200 base with pattern 500 asks for a 500x500 square and tiles it |
| `ImageProcess.Merge` | lib/image-process.js:26-39 | each key the user gives replaces its default wholesale; absent keys keep the defaults (`maxSize` -1, quality 100, no derivatives, no output) |
| `ImageProcess.Parameters.constructor` | lib/image-process.js:26-39 | the new record holds the defaults with the user's keys assigned over them, as `Merge` gives |
| `ImageProcess.ClampQuality` | lib/image-process.js:40-45 | `quality` is clamped into [1, 100] and values already there are unchanged |
| `ImageProcess.ClampMaxSize` | lib/image-process.js:46-51 | `maxSize` is clamped into [0, 100]; an absent value stays absent, every negative value, -1 included, becomes 0, and every value above 100 becomes 100 |
| `ImageProcess.Normalise` | lib/image-process.js:26-51 | normalised parameters have quality in [1, 100] and maxSize in [0, 100] or absent; maxSize is absent exactly when the user's watermark object has none |
| `ImageProcess.Parameters.Clamp` | lib/image-process.js:40-51 | the four clamps update `quality` and `watermark.maxSize` in place and leave the other fields alone |
| `ImageProcess.Configure` | lib/image-process.js:15-51 | a falsy parameter object throws before anything else; otherwise the parameters are the normalised options |
| `ImageProcess.SentinelClampedToZero` | lib/image-process.js:26-51 | the default watermark object and an explicit -1 both end with `maxSize` 0 |
| `ImageProcess.NormalisedResizePercent` | lib/image-process.js:46-51 | after normalisation the compositor always takes its resize path, at a percentage in [1, 100] that is 100 for absent, non-positive or over-100 values; on that path it still asks for a resize only when the constraining axis exceeds its box |
| `ImageProcess.PngCompressionLevel` | lib/image-process.js:114-117 | for a clamped quality the level lies in [0, 9] |
| `ImageProcess.PngCompressionLevelSteps` | lib/image-process.js:114-117 | the level grows with quality, is 0 exactly below quality 5 and 9 exactly from 85 |
| `ImageProcess.ForceJpg` | lib/image-process.js:118 | JPEG is forced exactly for `jpeg` and `jpg`, never together with `webp` or `png` |
| `ImageProcess.EncoderOptions` | lib/image-process.js:118-125 | at most one encoder is forced, and the PNG level lies in [0, 9] |
| `ImageProcess.ExtensionFile` | lib/image-process.js:54-56 | the extension keeps its length and holds no ASCII capital |
| `ImageProcess.IsSupported` | lib/image-process.js:91 | a file passes exactly when its lower-cased extension is in the list, so a passing extension starts with a dot and has 4 or 5 characters |
| `ImageProcess.SupportedIgnoresCase` | lib/image-process.js:91-95 | the extension filter ignores case: `.JPG` and `.Png` pass, `.webp` and no extension do not |
| `ImageProcess.OutputPath` | lib/image-process.js:128-140 | `webp` renames to `.webp`, `jpeg` and `jpg` to `.jpeg`, `png` to `.png`, and any other output keeps the path; directory and name never change |
| `ImageProcess.ForcedFormatMatchesName` | lib/image-process.js:118-140 | the forced encoder and the emitted file's extension agree, and with no forced encoder the path is unchanged |
| `ImageProcess.DerivativePath` | lib/image-process.js:72 | a derivative keeps the directory and extension, and its name is the file's name, a dash, and text that reads back as the size |
| `ImageProcess.DerivativeNamesDistinct` | lib/image-process.js:72 | a derivative's name differs from the file's own, and different sizes give different names |
| `ImageProcess.Derivatives` | lib/image-process.js:61-72 | an array gives one derivative per size; anything else gives none |
| `ImageProcess.MultipleResizeNames` | lib/image-process.js:58-79 | the loop pushes exactly one clone per size, named `<name>-<size><ext>` |
| `ImageProcess.ProcessFileSpec` | lib/image-process.js:81-149 | null files and unsupported extensions are skipped, streams throw, a missing watermark file throws, a compositor error on a supported buffer file with a watermark is thrown as is, and exactly otherwise the derivatives of the renamed file and then the renamed file are pushed |
| `ImageProcess.EmittedNamesDistinct` | lib/image-process.js:128-146 | derivatives are named after the renamed file, so all emitted files carry the output extension, and with distinct sizes no two share a path |
| `ImageProcess.ProcessFile` | lib/image-process.js:81-149 | the steps of `processFiles` produce `ProcessFileSpec`'s outcome and rename the file exactly when it is emitted |

## Left out

- All `sharp` work is left out: decoding, `metadata()`, the actual resize (`fit`, `withoutEnlargement`, the proportional size of the other axis), compositing, `toBuffer`, the encoders and `withMetadata`. A handle only records what was asked of it. The post-resize size is the caller's `render` function.
- The library's own validation is left out. For example `sharp` refuses a resize target of 0 or below and a non-boolean `tile`.
- Floating point is left out. `Math.round`, `toFixed(0)` and `toFixed(2)` are exact rounding over rationals, so ties such as `1.005` that IEEE-754 stores off the half are not modelled.
- Numbers are integers. Non-integer `maxSize`, `margin`, `quality` or `sizePattern` and non-numeric values (`NaN`, strings) are not modelled, and nor are non-boolean `isCover` values.
- Keys given explicitly as `undefined` or `null` are treated like absent keys. A `null` or `undefined` watermark object, which would make the clamp itself throw, is not modelled.
- The aliasing of the user's watermark object is not captured. `Object.assign` is shallow, so the clamp changes the object the user passed in.
- Logging (`Logger`, `chalk`, `verboseLogging`) is left out.
- The stream plumbing is left out: `through2`, `maxConcurrency: 8`, `Promise.all`, the `cb` calls, and the async timing of a throw.
- MultipleResizeNames: lists derivatives in array order. The source pushes them as their concurrent resizes complete, so the real order is not specified.
- The error message texts, including the `gulp-image-process` task name the plugin errors carry, are left out. Errors are told apart by their constructors.
- `fs.existsSync` is an input: whether the watermark file exists.
- Path handling is left out. A path is modelled as the triple `path.parse` returns. The splitting rules of `path.parse` and the normalisation by `path.join` and `path.resolve` are not modelled.
- `toLowerCase` is modelled on ASCII letters only. For the five ASCII extensions in the filter this gives the same decisions.
- The base-image resizes (`width`, `heigth`, `ignoreRatio`), `progressive`, `keepMetadata`, the white background for forced JPEG, and the encoded contents of the files are library calls with no local logic, so they are left out.
- gulpfile.js is build wiring only and is not part of this model.
