/**
 * The watermark compositor of lib/watermark.js: how large the overlay may be
 * on a given base image, whether and how it is resized, where its top-left
 * corner lands, and the one composite request issued on the base image.
 *
 * The raster library (sharp) is represented by `SharpImage` handles that
 * record the requests made of them. What the library itself computes when
 * it carries out a resize (the proportional size of the other axis, the
 * cover crop) is an opaque `render` function supplied by the caller.
 */
module Watermark {
  import opened JsRuntime

  /** A pixel count reported by a decoded image: always at least 1. */
  type Pixels = n: int | n >= 1 witness 1

  /** The `width` and `height` of an image's metadata. */
  datatype Dims = Dims(width: Pixels, height: Pixels)

  /** The nine anchors of `WATERMARK_POSITION`. */
  datatype Position =
    | Center | North | South | West | East
    | Northwest | Northeast | Southwest | Southeast

  /** The value of each `WATERMARK_POSITION` key: its own name, in lower case. */
  function PositionName(p: Position): (name: string)
    ensures 4 <= |name| <= 9
    ensures forall i :: 0 <= i < |name| ==> 'a' <= name[i] <= 'z'
  {
    match p
    case Center => "center"
    case North => "north"
    case South => "south"
    case West => "west"
    case East => "east"
    case Northwest => "northwest"
    case Northeast => "northeast"
    case Southwest => "southwest"
    case Southeast => "southeast"
  }

  /** The `watermark` object of the plugin's parameters. */
  datatype Config = Config(
    filePath: Option<string>,
    position: Option<string>,
    margin: Option<int>,
    maxSize: Option<int>,
    isCover: bool,
    sizePattern: Option<int>)

  /** The two errors the compositor throws. */
  datatype Error = SizePatternNotFound | UnknownPosition

  /**
   * One `resize(width, height, options)` request; `None` is `null`. `cover`
   * marks the options `{fit: 'cover', position: 'left top',
   * withoutEnlargement: true}` of cover mode; otherwise no options are given.
   */
  datatype ResizeOp = ResizeOp(width: Option<int>, height: Option<int>, cover: bool)

  /** One entry of a `composite([...])` request: the overlay buffer's size, `left`, `top` and `tile`. */
  datatype Layer = Layer(input: Dims, left: int, top: int, tile: bool)

  /** What the raster library reports as the size of an image after it carries out a resize. */
  type Renderer = (Dims, ResizeOp) -> Dims

  /**
   * A sharp handle. Its metadata is that of the decoded input and does not
   * change; `resize` and `composite` only record what was asked, and take
   * effect when the image is rendered to a buffer.
   */
  class SharpImage {
    const width: Pixels
    const height: Pixels
    var resize: Option<ResizeOp>
    var composite: seq<Layer>

    constructor (width: Pixels, height: Pixels)
      ensures this.width == width && this.height == height
      ensures resize.None? && composite == []
    {
      this.width := width;
      this.height := height;
      resize := None;
      composite := [];
    }

    /** `metadata()`: the size of the decoded input, whatever has been requested since. */
    function Metadata(): (d: Dims)
      ensures d.width == width && d.height == height
    {
      Dims(width, height)
    }

    /** `metadata()` of `sharp(await handle.toBuffer())`: the size after the recorded resize. */
    function Rendered(render: Renderer): (d: Dims)
      reads this
      ensures resize.None? ==> d == Metadata()
      ensures resize.Some? ==> d == render(Metadata(), resize.value)
    {
      if resize.Some? then render(Metadata(), resize.value) else Metadata()
    }

    /** `resize(...)`: a later request replaces an earlier one. */
    method Resize(op: ResizeOp)
      modifies this
      ensures resize == Some(op)
      ensures composite == old(composite)
    {
      resize := Some(op);
    }

    /** `composite([...])`: the list given replaces any earlier one. */
    method Composite(layers: seq<Layer>)
      modifies this
      ensures composite == layers
      ensures resize == old(resize)
    {
      composite := layers;
    }
  }

  // ---------------------------------------------------------------------
  // Sizing
  // ---------------------------------------------------------------------

  /**
   * `getMaxSize`: the largest extent, in pixels, the overlay may have along
   * an axis of `imageSize` pixels, i.e. `percent` percent of it rounded to the
   * nearest pixel (halves up).
   */
  function MaxSize(imageSize: int, percent: int): (m: int)
    ensures 200 * m - 100 <= 2 * (imageSize * percent) < 200 * m + 100
  {
    RoundDiv(imageSize * percent, 100)
  }

  /** A percentage in [0, 100] gives a box inside the image; 100 percent gives the image itself. */
  lemma MaxSizeWithinImage(imageSize: nat, percent: int)
    requires 0 <= percent <= 100
    ensures 0 <= MaxSize(imageSize, percent) <= imageSize
    ensures percent == 100 ==> MaxSize(imageSize, percent) == imageSize
  {
  }

  /**
   * `getRatio`: `maxSize / actualSize` as `toFixed(2)` writes it, read back
   * in hundredths.
   */
  function Ratio(maxSize: int, actualSize: Pixels): (r: int)
    ensures maxSize >= 0 ==>
      && r >= 0
      && actualSize * (2 * r) - actualSize <= 200 * maxSize < actualSize * (2 * r) + actualSize
    ensures maxSize < 0 ==> r <= 0
  {
    ToFixedDiv(100 * maxSize, actualSize)
  }

  /**
   * The pixel size asked of the constraining axis when the overlay is
   * shrunk: `Math.round(getRatio(max, size) * size)`.
   */
  function ShrinkTarget(maxSize: int, actualSize: Pixels): (t: int)
    ensures 200 * t - 100 <= 2 * (Ratio(maxSize, actualSize) * actualSize) < 200 * t + 100
    ensures maxSize >= 0 ==> t >= 0
  {
    RoundDiv(Ratio(maxSize, actualSize) * actualSize, 100)
  }

  /**
   * A shrink never enlarges, and because the ratio is first rounded to two
   * decimals the target lands within `(size + 100) / 200` pixels of the box,
   * on either side of it.
   */
  lemma ShrinkTargetBounds(maxSize: int, actualSize: Pixels)
    requires 0 <= maxSize < actualSize
    ensures 0 <= ShrinkTarget(maxSize, actualSize) <= actualSize
    ensures 200 * ShrinkTarget(maxSize, actualSize) <= 200 * maxSize + actualSize + 100
    ensures 200 * maxSize <= 200 * ShrinkTarget(maxSize, actualSize) + actualSize + 100
  {
    var a := actualSize;
    var r := Ratio(maxSize, a);
    var t := ShrinkTarget(maxSize, a);
    RatioAtMostOne(maxSize, a);
    assert 2 * (r * a) == a * (2 * r);
    assert 0 <= r * a <= 100 * a by { MulMonotone(a, 0, r); MulMonotone(a, r, 100); }
    assert 200 * t - 100 <= 2 * (r * a) < 200 * t + 100;
  }

  /** Below the overlay's own size, the two-decimal ratio lies in [0.00, 1.00]. */
  lemma RatioAtMostOne(maxSize: int, actualSize: Pixels)
    requires 0 <= maxSize < actualSize
    ensures 0 <= Ratio(maxSize, actualSize) <= 100
    ensures actualSize * (2 * Ratio(maxSize, actualSize)) - actualSize <= 200 * maxSize
    ensures 200 * maxSize < actualSize * (2 * Ratio(maxSize, actualSize)) + actualSize
  {
    var a := actualSize;
    var r := Ratio(maxSize, a);
    assert a * (2 * r) - a <= 200 * maxSize < a * (2 * r) + a;
    if r < 0 {
      MulMonotone(a, 2 * r + 1, -1);
    }
    if r > 100 {
      MulMonotone(a, 201, 2 * r - 1);
    }
  }

  /** With the box at 500 pixels, an 800-pixel overlay is asked for 504 pixels: the ratio is 0.63, not 0.625. */
  lemma ShrinkTargetOvershoots()
    ensures Ratio(500, 800) == 63
    ensures ShrinkTarget(500, 800) == 504
  {
  }

  /** The percentage the resize uses: `maxSize` when it is truthy and not -1, otherwise 100. */
  function ResizePercent(maxSize: Option<int>): (percent: int)
    ensures maxSize !in {None, Some(0), Some(-1)} ==> percent == maxSize.value
    ensures maxSize in {None, Some(0), Some(-1)} ==> percent == 100
  {
    if TruthyNumber(maxSize) && maxSize != Some(-1) then maxSize.value else 100
  }

  /** Whether the resize path runs: the overlay overflows the base on some axis, or `maxSize !== -1`. */
  function TakesResizePath(image: Dims, overlay: Dims, maxSize: Option<int>): (b: bool)
    ensures maxSize != Some(-1) ==> b
    ensures image.width < overlay.width || image.height < overlay.height ==> b
    ensures !b ==> maxSize == Some(-1) && overlay.width <= image.width && overlay.height <= image.height
  {
    var needResize := image.width < overlay.width || image.height < overlay.height;
    needResize || maxSize != Some(-1)
  }

  /** Width constrains the shrink when it overflows by strictly more than height does; a tie goes to height. */
  function WidthConstrains(image: Dims, overlay: Dims): (b: bool)
    ensures overlay.width - image.width == overlay.height - image.height ==> !b
    ensures overlay.width > image.width && overlay.height <= image.height ==> b
    ensures overlay.height > image.height && overlay.width <= image.width ==> !b
    ensures b ==> overlay.width - overlay.height > image.width - image.height
  {
    overlay.width - image.width > overlay.height - image.height
  }

  /** The side of the cover square: `sizePattern`, brought down to each max box in turn. */
  function CoverSide(sizePattern: int, maxWidth: int, maxHeight: int): (side: int)
    ensures side <= sizePattern && side <= maxWidth && side <= maxHeight
    ensures side == sizePattern || side == maxWidth || side == maxHeight
  {
    var s := if sizePattern > maxHeight then maxHeight else sizePattern;
    if s > maxWidth then maxWidth else s
  }

  /**
   * `processWatermarkResize` as a value: the resize it asks of the overlay
   * (`None` when it asks for none) or the error it throws.
   */
  function PlanResize(image: Dims, overlay: Dims, percent: int, isCover: bool, sizePattern: Option<int>)
    : (r: Result<Option<ResizeOp>, Error>)
    ensures r.Err? <==> isCover && !TruthyNumber(sizePattern)
    ensures r.Err? ==> r.error == SizePatternNotFound
    ensures isCover && r.Ok? ==>
      var side := CoverSide(sizePattern.value, MaxSize(image.width, percent), MaxSize(image.height, percent));
      r.value == Some(ResizeOp(Some(side), Some(side), true))
    ensures !isCover ==> r.Ok? && (r.value.Some? <==>
      if WidthConstrains(image, overlay) then overlay.width > MaxSize(image.width, percent)
      else overlay.height > MaxSize(image.height, percent))
    ensures !isCover && r.Ok? && r.value.Some? ==>
      r.value.value == (
        if WidthConstrains(image, overlay)
        then ResizeOp(Some(ShrinkTarget(MaxSize(image.width, percent), overlay.width)), None, false)
        else ResizeOp(None, Some(ShrinkTarget(MaxSize(image.height, percent), overlay.height)), false))
  {
    var maxWidth := MaxSize(image.width, percent);
    var maxHeight := MaxSize(image.height, percent);
    if isCover then
      if !TruthyNumber(sizePattern) then Err(SizePatternNotFound)
      else
        var side := CoverSide(sizePattern.value, maxWidth, maxHeight);
        Ok(Some(ResizeOp(Some(side), Some(side), true)))
    else if WidthConstrains(image, overlay) then
      if overlay.width > maxWidth then Ok(Some(ResizeOp(Some(ShrinkTarget(maxWidth, overlay.width)), None, false)))
      else Ok(None)
    else if overlay.height > maxHeight then Ok(Some(ResizeOp(None, Some(ShrinkTarget(maxHeight, overlay.height)), false)))
    else Ok(None)
  }

  /**
   * Outside cover mode a resize names only the constraining axis, never asks
   * for more pixels than the overlay has there, and for a percentage in
   * [0, 100] lands near that axis's box. The other axis is left to the
   * library.
   */
  lemma ShrinkOnlyConstrainingAxis(image: Dims, overlay: Dims, percent: int)
    requires 0 <= percent <= 100
    ensures var r := PlanResize(image, overlay, percent, false, None);
      r.Ok? && (r.value.Some? ==>
        var op := r.value.value;
        if WidthConstrains(image, overlay) then
          var box := MaxSize(image.width, percent);
          op.height.None? && op.width.Some? && 0 <= op.width.value <= overlay.width
          && 200 * op.width.value <= 200 * box + overlay.width + 100
          && 200 * box <= 200 * op.width.value + overlay.width + 100
        else
          var box := MaxSize(image.height, percent);
          op.width.None? && op.height.Some? && 0 <= op.height.value <= overlay.height
          && 200 * op.height.value <= 200 * box + overlay.height + 100
          && 200 * box <= 200 * op.height.value + overlay.height + 100)
  {
    var r := PlanResize(image, overlay, percent, false, None);
    if r.value.Some? {
      if WidthConstrains(image, overlay) {
        MaxSizeWithinImage(image.width, percent);
        ShrinkTargetBounds(MaxSize(image.width, percent), overlay.width);
      } else {
        MaxSizeWithinImage(image.height, percent);
        ShrinkTargetBounds(MaxSize(image.height, percent), overlay.height);
      }
    }
  }

  /**
   * `processWatermarkResize` on the overlay handle: the max boxes, then
   * cover mode's square or the shrink of the constraining axis, recorded on
   * the handle.
   */
  method ProcessWatermarkResize(waterMark: SharpImage, imageMetadata: Dims, size: int, cfg: Config)
    returns (err: Option<Error>)
    modifies waterMark
    ensures match PlanResize(imageMetadata, waterMark.Metadata(), size, cfg.isCover, cfg.sizePattern)
      case Err(e) => err == Some(e) && waterMark.resize == old(waterMark.resize)
      case Ok(op) => err.None? && waterMark.resize == (if op.Some? then op else old(waterMark.resize))
    ensures waterMark.composite == old(waterMark.composite)
  {
    var watermarkMetadata := waterMark.Metadata();
    var maxWidth := MaxSize(imageMetadata.width, size);
    var maxHeight := MaxSize(imageMetadata.height, size);
    if cfg.isCover {
      if !TruthyNumber(cfg.sizePattern) {
        return Some(SizePatternNotFound);
      }
      var sizePattern := cfg.sizePattern.value;
      if sizePattern > maxHeight {
        sizePattern := maxHeight;
      }
      if sizePattern > maxWidth {
        sizePattern := maxWidth;
      }
      waterMark.Resize(ResizeOp(Some(sizePattern), Some(sizePattern), true));
      return None;
    }
    var heightDiff := watermarkMetadata.height - imageMetadata.height;
    var widthDiff := watermarkMetadata.width - imageMetadata.width;
    var widthIsMax := widthDiff > heightDiff;
    if widthIsMax {
      if watermarkMetadata.width > maxWidth {
        waterMark.Resize(ResizeOp(Some(ShrinkTarget(maxWidth, watermarkMetadata.width)), None, false));
      }
    } else if watermarkMetadata.height > maxHeight {
      waterMark.Resize(ResizeOp(None, Some(ShrinkTarget(maxHeight, watermarkMetadata.height)), false));
    }
    return None;
  }

  // ---------------------------------------------------------------------
  // Placement
  // ---------------------------------------------------------------------

  /** No two anchors share a name. */
  lemma PositionNamesDistinct(p: Position, q: Position)
    requires p != q
    ensures PositionName(p) != PositionName(q)
  {
  }

  /** The `switch` of `getCompositeCoordinates` on the position string. */
  function ParsePosition(name: Option<string>): (p: Option<Position>)
    ensures p.Some? ==> name == Some(PositionName(p.value))
    ensures p.None? ==> forall q: Position :: name != Some(PositionName(q))
  {
    if name == Some("south") then Some(South)
    else if name == Some("north") then Some(North)
    else if name == Some("center") then Some(Center)
    else if name == Some("northwest") then Some(Northwest)
    else if name == Some("west") then Some(West)
    else if name == Some("southwest") then Some(Southwest)
    else if name == Some("northeast") then Some(Northeast)
    else if name == Some("east") then Some(East)
    else if name == Some("southeast") then Some(Southeast)
    else None
  }

  /**
   * The coordinates the `switch` assigns, before rounding, as twice their
   * value: `imageWidth / 2 - overlayWidth / 2` may end in one half.
   */
  function AnchorHalves(p: Position, image: Dims, overlay: Dims, margin: int): (h: (int, int))
    ensures p == Center ==> h == (image.width - overlay.width, image.height - overlay.height)
    ensures overlay.width <= image.width && overlay.height <= image.height
         && 0 <= margin <= image.width - overlay.width && margin <= image.height - overlay.height
         ==> 0 <= h.0 <= 2 * (image.width - overlay.width) && 0 <= h.1 <= 2 * (image.height - overlay.height)
  {
    var midX, midY := image.width - overlay.width, image.height - overlay.height;
    var endX, endY := 2 * (image.width - overlay.width - margin), 2 * (image.height - overlay.height - margin);
    match p
    case South => (midX, endY)
    case North => (midX, 2 * margin)
    case Center => (midX, midY)
    case Northwest => (2 * margin, 2 * margin)
    case West => (2 * margin, midY)
    case Southwest => (2 * margin, endY)
    case Northeast => (endX, 2 * margin)
    case East => (endX, midY)
    case Southeast => (endX, endY)
  }

  /** `Math.round` of a coordinate given as twice its value, then the clamp at 0. */
  function PixelCoordinate(halves: int): (c: int)
    ensures c >= 0
    ensures halves >= 0 ==> 2 * c - 1 <= halves < 2 * c + 1
    ensures halves < 0 ==> c == 0
  {
    var rounded := RoundDiv(halves, 2);
    if rounded < 0 then 0 else rounded
  }

  /**
   * `getCompositeCoordinates`: the top-left corner of the overlay, or the
   * error for a position outside the nine. `margin` defaults to 0.
   */
  function CompositeCoordinates(position: Option<string>, margin: Option<int>, image: Dims, overlay: Dims)
    : (r: Result<(int, int), Error>)
    ensures r.Err? <==> ParsePosition(position).None?
    ensures r.Err? ==> r.error == UnknownPosition
    ensures r.Ok? ==> r.value.0 >= 0 && r.value.1 >= 0
  {
    var m := if margin.Some? then margin.value else 0;
    match ParsePosition(position)
    case None => Err(UnknownPosition)
    case Some(p) =>
      var (hx, hy) := AnchorHalves(p, image, overlay, m);
      Ok((PixelCoordinate(hx), PixelCoordinate(hy)))
  }

  /** The placement table: the anchor of each position on each axis, before rounding. */
  lemma PlacementTable(p: Position, image: Dims, overlay: Dims, margin: int)
    ensures var (hx, hy) := AnchorHalves(p, image, overlay, margin);
      && (p in {North, South, Center} ==> hx == image.width - overlay.width)
      && (p in {West, Northwest, Southwest} ==> hx == 2 * margin)
      && (p in {East, Northeast, Southeast} ==> hx == 2 * (image.width - overlay.width - margin))
      && (p in {West, East, Center} ==> hy == image.height - overlay.height)
      && (p in {North, Northwest, Northeast} ==> hy == 2 * margin)
      && (p in {South, Southwest, Southeast} ==> hy == 2 * (image.height - overlay.height - margin))
  {
  }

  /** An absent margin is a margin of 0. */
  lemma MarginDefaultsToZero(position: Option<string>, image: Dims, overlay: Dims)
    ensures CompositeCoordinates(position, None, image, overlay)
         == CompositeCoordinates(position, Some(0), image, overlay)
  {
  }

  /** The center anchor ignores the margin and rounds each half-difference to the nearest pixel. */
  lemma CenterIgnoresMargin(m1: Option<int>, m2: Option<int>, image: Dims, overlay: Dims)
    ensures var r := CompositeCoordinates(Some("center"), m1, image, overlay);
      && r == CompositeCoordinates(Some("center"), m2, image, overlay)
      && r == Ok((PixelCoordinate(image.width - overlay.width), PixelCoordinate(image.height - overlay.height)))
  {
  }

  /**
   * When the overlay fits the base and the margin fits the room left over,
   * every anchor puts the overlay wholly on the canvas.
   */
  lemma PlacementOnCanvas(position: Option<string>, margin: int, image: Dims, overlay: Dims)
    requires overlay.width <= image.width && overlay.height <= image.height
    requires 0 <= margin <= image.width - overlay.width && margin <= image.height - overlay.height
    requires ParsePosition(position).Some?
    ensures var r := CompositeCoordinates(position, Some(margin), image, overlay);
      r.Ok? && r.value.0 <= image.width - overlay.width && r.value.1 <= image.height - overlay.height
  {
  }

  /** Opposite anchors mirror each other on a canvas the overlay fits. */
  lemma OppositeAnchorsMirror(margin: int, image: Dims, overlay: Dims)
    requires overlay.width <= image.width && overlay.height <= image.height
    requires 0 <= margin <= image.width - overlay.width && margin <= image.height - overlay.height
    ensures var w := CompositeCoordinates(Some("west"), Some(margin), image, overlay);
      var e := CompositeCoordinates(Some("east"), Some(margin), image, overlay);
      w.Ok? && e.Ok? && w.value.0 + e.value.0 == image.width - overlay.width
    ensures var n := CompositeCoordinates(Some("north"), Some(margin), image, overlay);
      var s := CompositeCoordinates(Some("south"), Some(margin), image, overlay);
      n.Ok? && s.Ok? && n.value.1 + s.value.1 == image.height - overlay.height
  {
  }

  // ---------------------------------------------------------------------
  // The exported function
  // ---------------------------------------------------------------------

  /** What the compositor asked of the library: the overlay's resize, if any, and the composite layer. */
  datatype Applied = Applied(resize: Option<ResizeOp>, layer: Layer)

  /**
   * The exported function as a value. The size-pattern error can only come
   * from the resize path; the position error comes after it.
   */
  function WatermarkSpec(cfg: Config, image: Dims, overlay: Dims, render: Renderer): (r: Result<Applied, Error>)
    ensures r.Err? && r.error == SizePatternNotFound
        <==> TakesResizePath(image, overlay, cfg.maxSize) && cfg.isCover && !TruthyNumber(cfg.sizePattern)
    ensures r.Err? && r.error == UnknownPosition
        <==> !(TakesResizePath(image, overlay, cfg.maxSize) && cfg.isCover && !TruthyNumber(cfg.sizePattern))
             && ParsePosition(cfg.position).None?
    ensures r.Ok? ==> r.value.layer.tile == cfg.isCover
    ensures r.Ok? && !TakesResizePath(image, overlay, cfg.maxSize) ==> r.value.resize.None?
    ensures r.Ok? && TakesResizePath(image, overlay, cfg.maxSize) ==>
      PlanResize(image, overlay, ResizePercent(cfg.maxSize), cfg.isCover, cfg.sizePattern) == Ok(r.value.resize)
    ensures r.Ok? ==> r.value.layer.input == (if r.value.resize.Some? then render(overlay, r.value.resize.value) else overlay)
    ensures r.Ok? ==> CompositeCoordinates(cfg.position, cfg.margin, image, r.value.layer.input)
                      == Ok((r.value.layer.left, r.value.layer.top))
  {
    var plan :=
      if TakesResizePath(image, overlay, cfg.maxSize)
      then PlanResize(image, overlay, ResizePercent(cfg.maxSize), cfg.isCover, cfg.sizePattern)
      else Ok(None);
    match plan
    case Err(e) => Err(e)
    case Ok(resize) =>
      var after := if resize.Some? then render(overlay, resize.value) else overlay;
      match CompositeCoordinates(cfg.position, cfg.margin, image, after)
      case Err(e) => Err(e)
      case Ok((x, y)) => Ok(Applied(resize, Layer(after, x, y, cfg.isCover)))
  }

  /**
   * The exported function. `overlayMetadata` is the size the library decodes
   * from `cfg.filePath`; `render` is what it reports after a resize. The
   * base image receives exactly one composite layer, or none on an error.
   */
  method ApplyWatermark(image: SharpImage, cfg: Config, overlayMetadata: Dims, render: Renderer)
    returns (r: Result<Applied, Error>)
    modifies image
    ensures r == WatermarkSpec(cfg, image.Metadata(), overlayMetadata, render)
    ensures r.Ok? ==> image.composite == [r.value.layer]
    ensures r.Err? ==> image.composite == old(image.composite)
    ensures image.resize == old(image.resize)
  {
    var waterMark := new SharpImage(overlayMetadata.width, overlayMetadata.height);
    var watermarkMetadata := waterMark.Metadata();
    var imageMetadata := image.Metadata();
    var needResize := imageMetadata.width < watermarkMetadata.width
      || imageMetadata.height < watermarkMetadata.height;
    if needResize || cfg.maxSize != Some(-1) {
      var size := 100;
      if TruthyNumber(cfg.maxSize) && cfg.maxSize != Some(-1) {
        size := cfg.maxSize.value;
      }
      var err := ProcessWatermarkResize(waterMark, imageMetadata, size, cfg);
      if err.Some? {
        return Err(err.value);
      }
    }
    watermarkMetadata := waterMark.Rendered(render);
    var coordinates := CompositeCoordinates(cfg.position, cfg.margin, imageMetadata, watermarkMetadata);
    if coordinates.Err? {
      return Err(coordinates.error);
    }
    var layer := Layer(watermarkMetadata, coordinates.value.0, coordinates.value.1, cfg.isCover);
    image.Composite([layer]);
    r := Ok(Applied(waterMark.resize, layer));
  }

  // ---------------------------------------------------------------------
  // Worked cases
  // ---------------------------------------------------------------------

  /** A 400x400 overlay at the north-west of a 1000x800 base with margin 10 and no percentage: no resize, placed at (10, 10). */
  lemma FittingOverlayKeepsItsSize(render: Renderer)
    ensures WatermarkSpec(Config(Some("w.png"), Some("northwest"), Some(10), Some(-1), false, None),
                          Dims(1000, 800), Dims(400, 400), render)
         == Ok(Applied(None, Layer(Dims(400, 400), 10, 10, false)))
  {
  }

  /**
   * An 800x200 overlay at the south-east of a 500x500 base, margin 5, no
   * percentage: the width constrains and is asked to become 504, so the
   * left edge clamps to 0.
   */
  lemma WideOverlayOnSmallBase(render: Renderer)
    requires render(Dims(800, 200), ResizeOp(Some(504), None, false)) == Dims(504, 126)
    ensures WatermarkSpec(Config(Some("w.png"), Some("southeast"), Some(5), Some(-1), false, None),
                          Dims(500, 500), Dims(800, 200), render)
         == Ok(Applied(Some(ResizeOp(Some(504), None, false)), Layer(Dims(504, 126), 0, 369, false)))
  {
    ShrinkTargetOvershoots();
  }

  /** Cover mode on a 1200x1200 base at 50 percent with a 500 pattern: a 500 square, tiled. */
  lemma CoverTilesPatternSquare(overlay: Dims, render: Renderer)
    requires render(overlay, ResizeOp(Some(500), Some(500), true)) == Dims(500, 500)
    ensures WatermarkSpec(Config(Some("w.png"), Some("northwest"), None, Some(50), true, Some(500)),
                          Dims(1200, 1200), overlay, render)
         == Ok(Applied(Some(ResizeOp(Some(500), Some(500), true)), Layer(Dims(500, 500), 0, 0, true)))
  {
  }
}
