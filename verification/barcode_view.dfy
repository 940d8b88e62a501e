/**
 The pure parts of the scanning view (`BarcodeView.kt`): the converters
 from the XML attribute values to the scanner's settings, and the
 placement of the preview child inside the view's bounds.

 `calculateRectForChild` asks the scanner for its output size and the
 resources for the orientation; both are parameters here. Its `Float`
 arithmetic is taken exactly, with `Float.toInt()`'s truncation and
 saturation; its `Int` subtractions wrap as on the JVM.
 */
module BarcodeView {
  import opened Common
  import Formats
  import CentralComparator
  import BarcodeSort
  import Options
  import Scanner

  /** `Build.VERSION_CODES.M`, the first release with external cameras. */
  const VERSION_CODES_M: int := 23

  /** The output size assumed when the scanner does not know its own. */
  const DEFAULT_OUTPUT_WIDTH: int := 320
  const DEFAULT_OUTPUT_HEIGHT: int := 240

  // ---------------------------------------------------------------------
  // Attribute converters
  // ---------------------------------------------------------------------

  /**
   `cameraFacingAttrConvert(attr)`: 0 is the front camera, 2 an external
   camera on releases that have them, and everything else the back camera.
   */
  function CameraFacingAttrConvert(attr: int, sdk: int): (facing: int)
    ensures facing == LENS_FACING_FRONT || facing == LENS_FACING_BACK || facing == LENS_FACING_EXTERNAL
    ensures facing == LENS_FACING_FRONT <==> attr == 0
    ensures facing == LENS_FACING_EXTERNAL <==> attr == 2 && sdk >= VERSION_CODES_M
  {
    if attr == 0 then LENS_FACING_FRONT
    else if attr == 1 then LENS_FACING_BACK
    else if attr == 2 then
      (if sdk >= VERSION_CODES_M then LENS_FACING_EXTERNAL else LENS_FACING_BACK)
    else LENS_FACING_BACK
  }

  /**
   The attribute values coincide with the facing constants: on a release
   with external cameras every facing is its own attribute value, and on an
   older one an external request falls back to the back camera.
   */
  lemma FacingAttrRoundTrip(facing: int, sdk: int)
    requires facing == LENS_FACING_FRONT || facing == LENS_FACING_BACK || facing == LENS_FACING_EXTERNAL
    ensures sdk >= VERSION_CODES_M ==> CameraFacingAttrConvert(facing, sdk) == facing
    ensures sdk < VERSION_CODES_M ==>
              CameraFacingAttrConvert(facing, sdk) == (if facing == LENS_FACING_EXTERNAL then LENS_FACING_BACK else facing)
  {
  }

  /** `cameraFlashModeAttrConvert(attr)`: 1 is a single flash, 2 the torch, everything else off. */
  function CameraFlashModeAttrConvert(attr: int): (mode: int)
    ensures mode == FLASH_MODE_OFF || mode == FLASH_MODE_SINGLE || mode == FLASH_MODE_TORCH
    ensures mode == FLASH_MODE_SINGLE <==> attr == 1
    ensures mode == FLASH_MODE_TORCH <==> attr == 2
  {
    if attr == 0 then FLASH_MODE_OFF
    else if attr == 1 then FLASH_MODE_SINGLE
    else if attr == 2 then FLASH_MODE_TORCH
    else FLASH_MODE_OFF
  }

  /** Every flash mode is its own attribute value, so converting a converted value changes nothing. */
  lemma FlashAttrRoundTrip(attr: int)
    ensures CameraFlashModeAttrConvert(CameraFlashModeAttrConvert(attr)) == CameraFlashModeAttrConvert(attr)
  {
  }

  /** The six numeric symbologies. */
  const NUMERIC_FORMATS: seq<int> := [Formats.FORMAT_CODABAR, Formats.FORMAT_EAN_13, Formats.FORMAT_EAN_8,
                                      Formats.FORMAT_ITF, Formats.FORMAT_UPC_A, Formats.FORMAT_UPC_E]
  /** The three alphanumeric symbologies. */
  const ALPHANUMERIC_FORMATS: seq<int> := [Formats.FORMAT_CODE_128, Formats.FORMAT_CODE_39, Formats.FORMAT_CODE_93]
  /** The four two-dimensional symbologies. */
  const DATA_FORMATS: seq<int> := [Formats.FORMAT_DATA_MATRIX, Formats.FORMAT_QR_CODE, Formats.FORMAT_PDF417,
                                   Formats.FORMAT_AZTEC]
  /** The two EAN symbologies. */
  const EAN_FORMATS: seq<int> := [Formats.FORMAT_EAN_13, Formats.FORMAT_EAN_8]

  /** The symbologies named by a format group, each listed once. */
  predicate IsFormatGroup(formats: seq<int>) {
    && |formats| > 0
    && (forall i :: 0 <= i < |formats| ==> Formats.IsListed(formats[i]))
    && (forall i, j :: 0 <= i < j < |formats| ==> formats[i] != formats[j])
  }

  /**
   `formatsAttrConvert(attr)`: groups 1 to 4 name their symbologies, and
   every other value asks for all formats. The list is never empty.
   */
  function FormatsAttrConvert(attr: int): (formats: seq<int>)
    ensures |formats| > 0
    ensures formats == [Formats.FORMAT_ALL_FORMATS] <==> !(1 <= attr <= 4)
    ensures 1 <= attr <= 4 ==> IsFormatGroup(formats)
  {
    if attr == 0 then [Formats.FORMAT_ALL_FORMATS]
    else if attr == 1 then NUMERIC_FORMATS
    else if attr == 2 then ALPHANUMERIC_FORMATS
    else if attr == 3 then DATA_FORMATS
    else if attr == 4 then EAN_FORMATS
    else [Formats.FORMAT_ALL_FORMATS]
  }

  /**
   The groups are told apart by their contents: two values convert to the
   same list exactly when they are equal or both fall back to all formats.
   The EAN group is the only one contained in another (the numeric one).
   */
  lemma {:induction false} FormatGroupsDistinct(a: int, b: int)
    ensures FormatsAttrConvert(a) == FormatsAttrConvert(b) <==> a == b || (!(1 <= a <= 4) && !(1 <= b <= 4))
    ensures forall f :: f in EAN_FORMATS ==> f in NUMERIC_FORMATS
  {
    if FormatsAttrConvert(a) == FormatsAttrConvert(b) && 1 <= a <= 4 && 1 <= b <= 4 {
      var fa := FormatsAttrConvert(a);
      var fb := FormatsAttrConvert(b);
      assert |fa| == |fb| && fa[0] == fb[0];
    }
  }

  /** `sortAttrConvert(attr)`: 1 asks for a fresh centre-distance comparator, anything else for none. */
  function SortAttrConvert(attr: int): (sort: Option<BarcodeSort.Sorter>)
    ensures sort.Some? <==> attr == 1
    ensures sort.Some? ==> sort.value.CentralSort? && !sort.value.central.Ready()
  {
    if attr == 1 then Some(BarcodeSort.CentralSort(CentralComparator.NewCentral())) else None
  }

  /** `previewScaleTypeAttrConvert(attr)`: 1 crops, anything else fits inside. */
  function PreviewScaleTypeAttrConvert(attr: int): (scaleType: int)
    ensures scaleType == CENTER_INSIDE || scaleType == CENTER_CROP
    ensures scaleType == CENTER_CROP <==> attr == 1
  {
    if attr == 0 then CENTER_INSIDE
    else if attr == 1 then CENTER_CROP
    else CENTER_INSIDE
  }

  /** Each scale type is its own attribute value. */
  lemma ScaleTypeAttrRoundTrip(scaleType: int)
    requires scaleType == CENTER_INSIDE || scaleType == CENTER_CROP
    ensures PreviewScaleTypeAttrConvert(scaleType) == scaleType
  {
  }

  // ---------------------------------------------------------------------
  // Child placement
  // ---------------------------------------------------------------------

  /**
   The camera output's extent as the view sees it: the scanner's output
   size, 320x240 when it has none, with the sides exchanged in portrait
   since the image is turned a quarter.
   */
  function OutputExtent(outputSize: Option<Size>, portrait: bool): Size {
    var s := outputSize.GetOr(Size(DEFAULT_OUTPUT_WIDTH, DEFAULT_OUTPUT_HEIGHT));
    if portrait then Size(s.height, s.width) else s
  }

  /**
   `(extent.toFloat() / from.toFloat() * to).toInt()`: a length carried
   across the output's aspect ratio. A zero `from` makes the quotient
   infinite (not a number when `extent` is zero too).
   */
  function ScaleToInt(extent: int, from: int, to: int): int {
    if from != 0 then FloatToInt(extent as real / from as real * to as real)
    else Scanner.ZeroSizeToInt(extent as real, to)
  }

  /** A non-negative length scaled by a positive ratio: truncated, or saturated when too long. */
  lemma ScaleToIntBounds(extent: int, from: int, to: int)
    requires extent >= 0 && from > 0 && to >= 0
    ensures var q := extent as real / from as real * to as real;
            && 0 <= ScaleToInt(extent, from, to) <= INT_MAX
            && (q <= INT_MAX as real ==> ScaleToInt(extent, from, to) as real <= q < ScaleToInt(extent, from, to) as real + 1.0)
            && (q > INT_MAX as real ==> ScaleToInt(extent, from, to) == INT_MAX)
  {
    var q := extent as real / from as real * to as real;
    assert q >= 0.0;
  }

  /**
   Carrying the width across the ratio overshoots the height exactly when
   carrying the height back falls short of the width, and the other way
   round.
   */
  lemma CrossRatio(layoutWidth: int, layoutHeight: int, width: int, height: int)
    requires width > 0 && height > 0
    ensures var x := layoutWidth as real / width as real * height as real;
            var y := layoutHeight as real / height as real * width as real;
            && (x > layoutHeight as real <==> y < layoutWidth as real)
            && (x < layoutHeight as real <==> y > layoutWidth as real)
  {
    var w := width as real;
    var h := height as real;
    var x := layoutWidth as real / w * h;
    var y := layoutHeight as real / h * w;
    assert x * w == layoutWidth as real * h;
    assert y * h == layoutHeight as real * w;
  }

  /**
   The child's size before centring: fit to the width, then, for
   CENTER_INSIDE when that is too tall and for CENTER_CROP when that is
   too short, fit to the height instead. Any other scale type keeps the
   width fit.
   */
  function ChildSize(scaleType: int, layoutWidth: int, layoutHeight: int, output: Size): Size {
    var fitWidth := ScaleToInt(layoutWidth, output.width, output.height);
    var refit :=
      if scaleType == CENTER_INSIDE then fitWidth > layoutHeight
      else if scaleType == CENTER_CROP then fitWidth < layoutHeight
      else false;
    if refit then Size(ScaleToInt(layoutHeight, output.height, output.width), layoutHeight)
    else Size(layoutWidth, fitWidth)
  }

  /** One axis of the child: the margin `(layout - child) / 2`, and `layout - margin`. */
  function Span(layout: int, child: int): (int, int) {
    var margin := KotlinDiv(Options.Wrap32(layout - child), 2);
    (margin, Options.Wrap32(layout - margin))
  }

  /**
   Centring along one axis of a non-negative layout: the two edges sum to
   the layout's length, the span is the child's length corrected by the
   parity of the slack, and the span lies within the layout when the child
   is no longer than it and covers it when the child is no shorter.
   */
  lemma {:induction false} SpanCentred(layout: int, child: int)
    requires 0 <= layout <= INT_MAX && 0 <= child <= INT_MAX
    ensures var (start, end) := Span(layout, child);
            && start + end == layout
            && end - start == child + KotlinRem(layout - child, 2)
            && (child <= layout ==> 0 <= start <= end <= layout)
            && (child >= layout ==> start <= 0 && layout <= end)
            && (child == layout ==> start == 0 && end == layout)
  {
    var d := layout - child;
    assert Options.Wrap32(d) == d;
    var margin := KotlinDiv(d, 2);
    assert INT_MIN <= layout - margin <= INT_MAX;
    assert Options.Wrap32(layout - margin) == layout - margin;
  }

  /**
   `calculateRectForChild(scaleType, left, top, right, bottom)`: the child's
   bounds relative to the view's own origin, centred on both axes.
   */
  function CalculateRectForChild(scaleType: int, left: int, top: int, right: int, bottom: int,
                                 outputSize: Option<Size>, portrait: bool): (r: Rect)
    requires INT_MIN <= left <= INT_MAX && INT_MIN <= top <= INT_MAX
    requires INT_MIN <= right <= INT_MAX && INT_MIN <= bottom <= INT_MAX
    ensures INT_MIN <= r.left <= INT_MAX && INT_MIN <= r.top <= INT_MAX
    ensures INT_MIN <= r.right <= INT_MAX && INT_MIN <= r.bottom <= INT_MAX
  {
    var output := OutputExtent(outputSize, portrait);
    var layoutWidth := Options.Wrap32(right - left);
    var layoutHeight := Options.Wrap32(bottom - top);
    var child := ChildSize(scaleType, layoutWidth, layoutHeight, output);
    var (childLeft, childRight) := Span(layoutWidth, child.width);
    var (childTop, childBottom) := Span(layoutHeight, child.height);
    Rect(childLeft, childTop, childRight, childBottom)
  }

  /** A view whose bounds do not wrap around, over an output with a positive extent. */
  predicate RegularLayout(left: int, top: int, right: int, bottom: int, outputSize: Option<Size>) {
    && INT_MIN <= left <= INT_MAX && INT_MIN <= top <= INT_MAX
    && INT_MIN <= right <= INT_MAX && INT_MIN <= bottom <= INT_MAX
    && 0 <= right - left <= INT_MAX && 0 <= bottom - top <= INT_MAX
    && (outputSize.Some? ==> outputSize.value.width > 0 && outputSize.value.height > 0)
  }

  /** In a regular layout the child's sides are lengths no longer than `Int` allows. */
  lemma ChildSizeBounds(scaleType: int, layoutWidth: int, layoutHeight: int, output: Size)
    requires 0 <= layoutWidth <= INT_MAX && 0 <= layoutHeight <= INT_MAX
    requires output.width > 0 && output.height > 0
    ensures var c := ChildSize(scaleType, layoutWidth, layoutHeight, output);
            0 <= c.width <= INT_MAX && 0 <= c.height <= INT_MAX
  {
    ScaleToIntBounds(layoutWidth, output.width, output.height);
    ScaleToIntBounds(layoutHeight, output.height, output.width);
  }

  /**
   The child is centred: its left and right edges sum to the view's width
   and its top and bottom edges to the view's height, whatever the scale
   type.
   */
  lemma {:induction false} ChildRectCentred(scaleType: int, left: int, top: int, right: int, bottom: int,
                                            outputSize: Option<Size>, portrait: bool)
    requires RegularLayout(left, top, right, bottom, outputSize)
    ensures var r := CalculateRectForChild(scaleType, left, top, right, bottom, outputSize, portrait);
            r.left + r.right == right - left && r.top + r.bottom == bottom - top
  {
    var output := OutputExtent(outputSize, portrait);
    var lw, lh := right - left, bottom - top;
    assert Options.Wrap32(right - left) == lw && Options.Wrap32(bottom - top) == lh;
    var child := ChildSize(scaleType, lw, lh, output);
    ChildSizeBounds(scaleType, lw, lh, output);
    SpanCentred(lw, child.width);
    SpanCentred(lh, child.height);
  }

  /**
   `derived` is `base` carried across the ratio `to / from`: the exact
   quotient `base * to / from` truncated, or saturated at `Int`'s maximum.
   */
  predicate KeepsAspect(base: int, derived: int, from: int, to: int) {
    && derived * from <= base * to
    && (derived < INT_MAX ==> base * to < (derived + 1) * from)
  }

  lemma CastMul(a: int, b: int)
    ensures (a * b) as real == a as real * b as real
  {
  }

  lemma RealMulMono(a: real, b: real, f: real)
    requires f > 0.0
    ensures a <= b ==> a * f <= b * f
    ensures a < b ==> a * f < b * f
  {
  }

  /**
   An integer within a unit below the quotient `base * to / from` keeps the
   aspect; so does `Int`'s maximum when the quotient is above it.
   */
  lemma {:induction false} BoundsKeepAspect(base: int, derived: int, from: int, to: int)
    requires from > 0
    requires var q := base as real / from as real * to as real;
             (derived as real <= q < derived as real + 1.0) || (derived == INT_MAX && q > INT_MAX as real)
    ensures KeepsAspect(base, derived, from, to)
  {
    var f := from as real;
    var q := base as real / f * to as real;
    assert q * f == base as real * to as real;
    CastMul(base, to);
    CastMul(derived, from);
    CastMul(derived + 1, from);
    RealMulMono(derived as real, q, f);
    RealMulMono(q, (derived + 1) as real, f);
  }

  /** Scaling a length keeps the aspect ratio, up to truncation. */
  lemma ScaleKeepsAspect(extent: int, from: int, to: int)
    requires extent >= 0 && from > 0 && to >= 0
    ensures KeepsAspect(extent, ScaleToInt(extent, from, to), from, to)
  {
    ScaleToIntBounds(extent, from, to);
    BoundsKeepAspect(extent, ScaleToInt(extent, from, to), from, to);
  }

  /** A scaled length above a bound means the exact quotient reaches the next integer; one below means it stays below. */
  lemma {:induction false} AspectAgainstBound(base: int, d: int, from: int, to: int, bound: int)
    requires from > 0 && bound <= INT_MAX && KeepsAspect(base, d, from, to)
    ensures d > bound ==> (bound + 1) * from <= base * to
    ensures d < bound ==> base * to < bound * from
  {
    if d > bound {
      assert (bound + 1) * from <= d * from;
    }
    if d < bound {
      assert (d + 1) * from <= bound * from;
    }
  }

  /** A scaled non-negative length is a non-negative `Int`. */
  lemma ScaleRange(extent: int, from: int, to: int)
    requires extent >= 0 && from > 0 && to >= 0
    ensures 0 <= ScaleToInt(extent, from, to) <= INT_MAX
  {
    ScaleToIntBounds(extent, from, to);
  }

  /**
   When the width carried across the ratio overshoots the height by a
   whole unit, the height carried back falls short of the width.
   */
  lemma {:induction false} RefitNarrower(layoutWidth: int, layoutHeight: int, fitHeight: int, width: int, height: int)
    requires width > 0 && height > 0
    requires (layoutHeight + 1) * width <= layoutWidth * height
    requires KeepsAspect(layoutHeight, fitHeight, height, width)
    ensures fitHeight < layoutWidth
  {
    assert fitHeight * height <= layoutHeight * width < (layoutHeight + 1) * width;
    assert fitHeight * height < layoutWidth * height;
  }

  /**
   With CENTER_INSIDE the child never exceeds the view, and it has the
   output's aspect: either it is as wide as the view and its height is the
   width carried across the output's ratio, or it is as tall as the view
   and its width is the height carried across. It is narrower than the view
   only when fitting the width would have made it taller than the view.
   */
  lemma {:induction false} CenterInsideChildSize(layoutWidth: int, layoutHeight: int, output: Size)
    requires 0 <= layoutWidth <= INT_MAX && 0 <= layoutHeight <= INT_MAX
    requires output.width > 0 && output.height > 0
    ensures var c := ChildSize(CENTER_INSIDE, layoutWidth, layoutHeight, output);
            && 0 <= c.width <= layoutWidth && 0 <= c.height <= layoutHeight
            && ((c.width == layoutWidth && KeepsAspect(layoutWidth, c.height, output.width, output.height))
                || (c.height == layoutHeight && KeepsAspect(layoutHeight, c.width, output.height, output.width)))
            && (c.width != layoutWidth ==> (layoutHeight + 1) * output.width <= layoutWidth * output.height)
  {
    var fitWidth := ScaleToInt(layoutWidth, output.width, output.height);
    var fitHeight := ScaleToInt(layoutHeight, output.height, output.width);
    ScaleRange(layoutWidth, output.width, output.height);
    ScaleKeepsAspect(layoutWidth, output.width, output.height);
    if fitWidth > layoutHeight {
      ScaleRange(layoutHeight, output.height, output.width);
      ScaleKeepsAspect(layoutHeight, output.height, output.width);
      AspectAgainstBound(layoutWidth, fitWidth, output.width, output.height, layoutHeight);
      RefitNarrower(layoutWidth, layoutHeight, fitHeight, output.width, output.height);
      assert ChildSize(CENTER_INSIDE, layoutWidth, layoutHeight, output) == Size(fitHeight, layoutHeight);
    } else {
      assert ChildSize(CENTER_INSIDE, layoutWidth, layoutHeight, output) == Size(layoutWidth, fitWidth);
    }
  }

  /**
   With CENTER_CROP the child is never smaller than the view, and it has
   the output's aspect: either it is as wide as the view and its height is
   the width carried across the output's ratio, or it is as tall as the
   view and its width is the height carried across. It is wider than the
   view only when fitting the width would have left it shorter than the
   view.
   */
  lemma {:induction false} CenterCropChildSize(layoutWidth: int, layoutHeight: int, output: Size)
    requires 0 <= layoutWidth <= INT_MAX && 0 <= layoutHeight <= INT_MAX
    requires output.width > 0 && output.height > 0
    ensures var c := ChildSize(CENTER_CROP, layoutWidth, layoutHeight, output);
            && layoutWidth <= c.width <= INT_MAX && layoutHeight <= c.height <= INT_MAX
            && ((c.width == layoutWidth && KeepsAspect(layoutWidth, c.height, output.width, output.height))
                || (c.height == layoutHeight && KeepsAspect(layoutHeight, c.width, output.height, output.width)))
            && (c.width != layoutWidth ==> layoutWidth * output.height < layoutHeight * output.width)
  {
    ScaleToIntBounds(layoutWidth, output.width, output.height);
    ScaleToIntBounds(layoutHeight, output.height, output.width);
    CrossRatio(layoutWidth, layoutHeight, output.width, output.height);
    ScaleKeepsAspect(layoutWidth, output.width, output.height);
    ScaleKeepsAspect(layoutHeight, output.height, output.width);
    AspectAgainstBound(layoutWidth, ScaleToInt(layoutWidth, output.width, output.height), output.width, output.height,
                       layoutHeight);
  }

  /**
   CENTER_INSIDE: the child lies within the view's bounds and fills them
   exactly along one axis.
   */
  lemma {:induction false} CenterInsideFits(left: int, top: int, right: int, bottom: int,
                                            outputSize: Option<Size>, portrait: bool)
    requires RegularLayout(left, top, right, bottom, outputSize)
    ensures var r := CalculateRectForChild(CENTER_INSIDE, left, top, right, bottom, outputSize, portrait);
            && 0 <= r.left <= r.right <= right - left
            && 0 <= r.top <= r.bottom <= bottom - top
            && ((r.left == 0 && r.right == right - left) || (r.top == 0 && r.bottom == bottom - top))
  {
    var output := OutputExtent(outputSize, portrait);
    var lw, lh := right - left, bottom - top;
    assert Options.Wrap32(right - left) == lw && Options.Wrap32(bottom - top) == lh;
    var child := ChildSize(CENTER_INSIDE, lw, lh, output);
    CenterInsideChildSize(lw, lh, output);
    SpanCentred(lw, child.width);
    SpanCentred(lh, child.height);
  }

  /**
   CENTER_CROP: the child covers the view's bounds and matches them
   exactly along one axis.
   */
  lemma {:induction false} CenterCropCovers(left: int, top: int, right: int, bottom: int,
                                            outputSize: Option<Size>, portrait: bool)
    requires RegularLayout(left, top, right, bottom, outputSize)
    ensures var r := CalculateRectForChild(CENTER_CROP, left, top, right, bottom, outputSize, portrait);
            && r.left <= 0 && r.top <= 0 && right - left <= r.right && bottom - top <= r.bottom
            && ((r.left == 0 && r.right == right - left) || (r.top == 0 && r.bottom == bottom - top))
  {
    var output := OutputExtent(outputSize, portrait);
    var lw, lh := right - left, bottom - top;
    assert Options.Wrap32(right - left) == lw && Options.Wrap32(bottom - top) == lh;
    var child := ChildSize(CENTER_CROP, lw, lh, output);
    CenterCropChildSize(lw, lh, output);
    SpanCentred(lw, child.width);
    SpanCentred(lh, child.height);
  }

  /**
   A 200x100 output in portrait is 100 wide and 200 tall; in a 100x250
   view, fitted inside it is centred vertically.
   */
  lemma PortraitInsideExample()
    ensures CalculateRectForChild(CENTER_INSIDE, 0, 0, 100, 250, Some(Size(200, 100)), true) == Rect(0, 25, 100, 225)
  {
    assert OutputExtent(Some(Size(200, 100)), true) == Size(100, 200);
    assert ScaleToInt(100, 100, 200) == 200;
    assert ChildSize(CENTER_INSIDE, 100, 250, Size(100, 200)) == Size(100, 200);
    assert Span(100, 100) == (0, 100);
    assert Span(250, 200) == (25, 225);
  }

  /**
   The same view cropped: the child is 125 wide, and the negative margin
   of half of -25 truncates toward zero to -12.
   */
  lemma PortraitCropExample()
    ensures CalculateRectForChild(CENTER_CROP, 0, 0, 100, 250, Some(Size(200, 100)), true) == Rect(-12, 0, 112, 250)
  {
    assert OutputExtent(Some(Size(200, 100)), true) == Size(100, 200);
    assert ScaleToInt(100, 100, 200) == 200;
    assert ScaleToInt(250, 200, 100) == 125;
    assert ChildSize(CENTER_CROP, 100, 250, Size(100, 200)) == Size(125, 250);
    assert KotlinDiv(-25, 2) == -12;
    assert Span(100, 125) == (-12, 112);
    assert Span(250, 250) == (0, 250);
  }

  /** A 200x100 output in landscape cropped to a 250x100 view overhangs vertically. */
  lemma LandscapeCropExample()
    ensures CalculateRectForChild(CENTER_CROP, 0, 0, 250, 100, Some(Size(200, 100)), false) == Rect(0, -12, 250, 112)
  {
    assert OutputExtent(Some(Size(200, 100)), false) == Size(200, 100);
    assert ScaleToInt(250, 200, 100) == 125;
    assert ChildSize(CENTER_CROP, 250, 100, Size(200, 100)) == Size(250, 125);
    assert KotlinDiv(-25, 2) == -12;
    assert Span(250, 250) == (0, 250);
    assert Span(100, 125) == (-12, 112);
  }

  /** Without an output size the view assumes 320x240: a 320x480 view fitted inside gets a centred band. */
  lemma DefaultOutputExample()
    ensures CalculateRectForChild(CENTER_INSIDE, 0, 0, 320, 480, None, false) == Rect(0, 120, 320, 360)
  {
    assert OutputExtent(None, false) == Size(320, 240);
    assert ScaleToInt(320, 320, 240) == 240;
    assert ChildSize(CENTER_INSIDE, 320, 480, Size(320, 240)) == Size(320, 240);
    assert Span(320, 320) == (0, 320);
    assert Span(480, 240) == (120, 360);
  }
}
