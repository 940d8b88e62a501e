/**
 The scanner (`BarcodeScanner.kt`): it owns a camera source and a barcode
 processor, creates an image reader whose surface receives the camera's
 frames, hands each frame to the processor unless it is busy or paused,
 restarts the camera when a camera feature changes, and turns a touch on
 the preview into a focus region.

 Each call returns the scanner afterwards and what it did, in order.
 Calls into the camera source and the processor appear as their own
 traces, lifted. The environment the scanner reads but does not own (the
 cameras present, the platform's failures, the display rotation) is a
 parameter, and so is whether the processor is busy, which its base class
 decides.
 */
module Scanner {
  import opened Common
  import Formats
  import CameraSource
  import Detector
  import CentralComparator
  import BarcodeSort
  import ImageProcessor
  import SingleSlot

  /** The share of the preview's width a barcode is assumed to occupy. */
  const BARCODE_SCREEN_PROPORTION: real := 0.3

  /** A focus region's side, as a share of the sensor's active array. */
  const TOUCH_AREA_MULTIPLIER: real := 0.05

  /** `MeteringRectangle.METERING_WEIGHT_MAX`. */
  const METERING_WEIGHT_MAX: int := 1000

  // ---------------------------------------------------------------------
  // Rotation compensation
  // ---------------------------------------------------------------------

  /**
   The angle a frame must be rotated by, given the display rotation
   (`Surface.ROTATION_0..270` are 0..3), the sensor orientation (0 when
   unknown) and whether the camera faces front. A display rotation outside
   the `ORIENTATIONS` table makes the `!!` throw, modelled as `None`.
   The front camera adds the display angle to the sensor's; any other
   subtracts it.
   */
  function RotationCompensation(displayRotation: int, sensorOrientation: Option<int>, facing: Option<int>): (r: Option<int>)
    ensures r.Some? <==> 0 <= displayRotation <= 3
    ensures r.Some? && 0 <= sensorOrientation.GetOr(0) < 360 ==> 0 <= r.value < 360
    ensures r.Some? && facing == Some(LENS_FACING_FRONT) ==>
              (r.value - sensorOrientation.GetOr(0) - 90 * displayRotation) % 360 == 0
    ensures r.Some? && facing != Some(LENS_FACING_FRONT) ==>
              (r.value - sensorOrientation.GetOr(0) + 90 * displayRotation) % 360 == 0
  {
    if !(0 <= displayRotation <= 3) then None
    else
      var display := 90 * displayRotation;
      var sensor := sensorOrientation.GetOr(0);
      if facing == Some(LENS_FACING_FRONT) then
        var a := sensor + display;
        MultipleOf360(KotlinDiv(a, 360));
        Some(KotlinRem(a, 360))
      else
        var a := sensor - display + 360;
        MultipleOf360(KotlinDiv(a, 360) - 1);
        Some(KotlinRem(a, 360))
  }

  lemma MultipleOf360(q: int)
    ensures (q * 360) % 360 == 0 && (-q * 360) % 360 == 0
  {
  }

  /** The display rotation a compensation was computed from, recovered from it and the sensor. */
  function DisplayRotationOf(compensation: int, sensor: int, front: bool): int {
    if front then ((compensation - sensor) % 360) / 90 else ((sensor - compensation) % 360) / 90
  }

  /** When `x` and `y` differ by a multiple of 360 and `y` is an angle, `x % 360` is `y`. */
  lemma {:induction false} ReduceAngle(x: int, y: int)
    requires (x - y) % 360 == 0 && 0 <= y < 360
    ensures x % 360 == y
  {
    var k := (x - y) / 360;
    assert x - y == k * 360;
    assert x == y + k * 360;
  }

  /** The compensation determines the display rotation it came from. */
  lemma {:induction false} RotationRecovered(displayRotation: int, sensorOrientation: Option<int>, facing: Option<int>)
    requires 0 <= displayRotation <= 3
    ensures var r := RotationCompensation(displayRotation, sensorOrientation, facing);
            DisplayRotationOf(r.value, sensorOrientation.GetOr(0), facing == Some(LENS_FACING_FRONT)) == displayRotation
  {
    var r := RotationCompensation(displayRotation, sensorOrientation, facing).value;
    var s := sensorOrientation.GetOr(0);
    if facing == Some(LENS_FACING_FRONT) {
      assert (r - s - 90 * displayRotation) % 360 == 0;
      ReduceAngle(r - s, 90 * displayRotation);
    } else {
      assert (r - s + 90 * displayRotation) % 360 == 0;
      assert (s - r - 90 * displayRotation) == -(r - s + 90 * displayRotation);
      ReduceAngle(s - r, 90 * displayRotation);
    }
  }

  // ---------------------------------------------------------------------
  // Minimum frame width
  // ---------------------------------------------------------------------

  /** Cases of the rotation table the scanner's tests pin, back and front cameras. */
  lemma RotationExamples()
    ensures RotationCompensation(0, Some(90), Some(LENS_FACING_BACK)) == Some(90)
    ensures RotationCompensation(1, Some(0), Some(LENS_FACING_BACK)) == Some(270)
    ensures RotationCompensation(2, Some(90), Some(LENS_FACING_BACK)) == Some(270)
    ensures RotationCompensation(3, Some(270), Some(LENS_FACING_BACK)) == Some(0)
    ensures RotationCompensation(1, Some(0), Some(LENS_FACING_FRONT)) == Some(90)
    ensures RotationCompensation(2, Some(270), Some(LENS_FACING_FRONT)) == Some(90)
    ensures RotationCompensation(3, Some(180), Some(LENS_FACING_FRONT)) == Some(90)
    ensures RotationCompensation(1, None, None) == Some(270)
  {
    assert KotlinDiv(90, 360) == 0 && KotlinDiv(270, 360) == 0;
    assert KotlinDiv(360, 360) == 1 && KotlinDiv(450, 360) == 1;
  }

  /** For `n >= 0`, real division by 0.3 truncates to `10 n / 3`. */
  lemma {:induction false} TenThirds(n: int)
    requires n >= 0
    ensures TruncToInt(n as real / BARCODE_SCREEN_PROPORTION) == (10 * n) / 3
  {
    var q := (10 * n) / 3;
    var x := n as real / BARCODE_SCREEN_PROPORTION;
    assert x == (10 * n) as real / 3.0;
    assert 3 * q <= 10 * n < 3 * q + 3;
    assert q as real <= x < q as real + 1.0;
  }

  /** Above this width the division by 0.3 no longer fits in an `Int`. */
  const LARGEST_UNSATURATED_WIDTH: int := 644245094

  /**
   `minWidthForBarcodes()`: the custom width, or else the width the most
   demanding configured format needs, divided by the screen proportion and
   truncated. It is ten thirds of that width, rounded down, until the
   quotient no longer fits in an `Int` and the conversion saturates.
   */
  function MinWidthForBarcodes(custom: Option<int>, formats: seq<int>): (w: int)
    ensures INT_MIN <= w <= INT_MAX
    ensures custom.None? ==> w == (10 * Formats.RequiredWidth(formats)) / 3
    ensures custom.Some? && 0 <= custom.value <= LARGEST_UNSATURATED_WIDTH ==> w == (10 * custom.value) / 3
    ensures custom.Some? && custom.value > LARGEST_UNSATURATED_WIDTH ==> w == INT_MAX
  {
    Formats.RequiredWidthCoversEveryFormat(formats);
    var minWidth := custom.GetOr(Formats.RequiredWidth(formats));
    var w := FloatToInt(minWidth as real / BARCODE_SCREEN_PROPORTION);
    if minWidth >= 0 then TenThirds(minWidth); w else w
  }

  /**
   The widths the scanner asks the camera for: the default EAN formats,
   a list containing PDF417, and a custom width of 300.
   */
  lemma MinWidthExamples()
    ensures MinWidthForBarcodes(None, [Formats.FORMAT_EAN_13, Formats.FORMAT_EAN_8]) == 633
    ensures MinWidthForBarcodes(None, [Formats.FORMAT_PDF417, Formats.FORMAT_EAN_8]) == 3853
    ensures MinWidthForBarcodes(Some(300), [Formats.FORMAT_PDF417]) == 1000
  {
    Formats.MixedFormatsExample();
  }

  // ---------------------------------------------------------------------
  // Focus regions
  // ---------------------------------------------------------------------

  /** A point in view or normalised coordinates. */
  datatype RealPoint = RealPoint(x: real, y: real)

  /**
   The touch point in the sensor's orientation and the extent it lies in,
   before normalising: swapped for a quarter turn, flipped per the
   compensation, mirrored for a front camera.
   */
  datatype Oriented = Oriented(x: real, y: real, width: real, height: real)

  predicate Swaps(compensation: int) { compensation == 90 || compensation == 270 }
  predicate FlipsX(compensation: int) { compensation == 180 || compensation == 270 }
  predicate FlipsY(compensation: int) { compensation == 90 || compensation == 180 }

  function Orient(compensation: int, mirror: bool, viewWidth: int, viewHeight: int, touch: RealPoint): (o: Oriented)
    ensures o.width == if Swaps(compensation) then viewHeight as real else viewWidth as real
    ensures o.height == if Swaps(compensation) then viewWidth as real else viewHeight as real
  {
    var swap := Swaps(compensation);
    var x0 := if swap then touch.y else touch.x;
    var y0 := if swap then touch.x else touch.y;
    var w := if swap then viewHeight as real else viewWidth as real;
    var h := if swap then viewWidth as real else viewHeight as real;
    var x1 := if FlipsX(compensation) then w - x0 else x0;
    var y1 := if FlipsY(compensation) then h - y0 else y0;
    var x2 := if mirror then w - x1 else x1;
    Oriented(x2, y1, w, h)
  }

  /** The touch point normalised to the unit square of the sensor. */
  function Normalise(compensation: int, mirror: bool, viewWidth: int, viewHeight: int, touch: RealPoint): (p: RealPoint)
    requires viewWidth != 0 && viewHeight != 0
  {
    var o := Orient(compensation, mirror, viewWidth, viewHeight, touch);
    RealPoint(o.x / o.width, o.y / o.height)
  }

  /** The view point a normalised sensor point came from: `Orient` undone step by step. */
  function Unnormalise(compensation: int, mirror: bool, viewWidth: int, viewHeight: int, p: RealPoint): RealPoint {
    var swap := Swaps(compensation);
    var w := if swap then viewHeight as real else viewWidth as real;
    var h := if swap then viewWidth as real else viewHeight as real;
    var x2 := p.x * w;
    var y1 := p.y * h;
    var x1 := if mirror then w - x2 else x2;
    var x0 := if FlipsX(compensation) then w - x1 else x1;
    var y0 := if FlipsY(compensation) then h - y1 else y1;
    if swap then RealPoint(y0, x0) else RealPoint(x0, y0)
  }

  /** Normalising loses nothing: every touch point is recovered from its sensor point. */
  lemma {:induction false} NormaliseRoundTrip(compensation: int, mirror: bool, viewWidth: int, viewHeight: int, touch: RealPoint)
    requires viewWidth != 0 && viewHeight != 0
    ensures Unnormalise(compensation, mirror, viewWidth, viewHeight,
                        Normalise(compensation, mirror, viewWidth, viewHeight, touch)) == touch
  {
    var o := Orient(compensation, mirror, viewWidth, viewHeight, touch);
    assert o.width != 0.0 && o.height != 0.0;
    assert (o.x / o.width) * o.width == o.x;
    assert (o.y / o.height) * o.height == o.y;
  }

  /**
   `(v / size * extent).toInt()` in floating point for a zero `size`: the
   quotient is infinite (not a number for a zero `v`), and the product
   converts to the bound of `Int` with its sign (to 0 when not a number).
   */
  function ZeroSizeToInt(v: real, extent: int): (i: int)
    ensures i == 0 <==> v == 0.0 || extent == 0
    ensures i != 0 ==> (i == INT_MAX <==> (v > 0.0) == (extent > 0))
  {
    if v == 0.0 || extent == 0 then 0
    else if (v > 0.0) == (extent > 0) then INT_MAX
    else INT_MIN
  }

  /** `(p * extent).toInt()`: a normalised coordinate scaled to the active array. */
  function Scaled(p: real, extent: int): int {
    FloatToInt(p * extent as real)
  }

  /**
   `(extent * TOUCH_AREA_MULTIPLIER).toInt()`, the side of a focus region:
   a twentieth of the array's side, rounded down.
   */
  function TouchSide(extent: int): (side: int)
    ensures 0 <= extent <= INT_MAX ==> side == extent / 20
  {
    var x := extent as real * TOUCH_AREA_MULTIPLIER;
    if 0 <= extent <= INT_MAX then
      assert x == extent as real / 20.0;
      assert 20 * (extent / 20) <= extent < 20 * (extent / 20) + 20;
      FloatToInt(x)
    else FloatToInt(x)
  }

  /** The focus rectangle whose corner is the normalised point `p`, scaled to the active array. */
  function RegionAt(activeArray: Rect, p: RealPoint): CameraSource.MeteringRectangle {
    CameraSource.MeteringRectangle(
      Scaled(p.x, activeArray.Width()),
      Scaled(p.y, activeArray.Height()),
      TouchSide(activeArray.Width()),
      TouchSide(activeArray.Height()),
      METERING_WEIGHT_MAX)
  }

  /**
   The focus rectangle for a touch, in the coordinates of the sensor's
   active array: its corner is the normalised touch point scaled to the
   array, its sides a twentieth of the array's, its weight the maximum. A
   view with a zero side divides by zero.
   */
  function FocusRegion(activeArray: Rect, compensation: int, mirror: bool,
                       viewWidth: int, viewHeight: int, touch: RealPoint): (m: CameraSource.MeteringRectangle)
    ensures m.weight == METERING_WEIGHT_MAX
    ensures m.width == TouchSide(activeArray.Width()) && m.height == TouchSide(activeArray.Height())
    ensures viewWidth != 0 && viewHeight != 0 ==>
              m == RegionAt(activeArray, Normalise(compensation, mirror, viewWidth, viewHeight, touch))
  {
    if viewWidth != 0 && viewHeight != 0 then
      RegionAt(activeArray, Normalise(compensation, mirror, viewWidth, viewHeight, touch))
    else
      var o := Orient(compensation, mirror, viewWidth, viewHeight, touch);
      var x := if o.width != 0.0 then Scaled(o.x / o.width, activeArray.Width())
               else ZeroSizeToInt(o.x, activeArray.Width());
      var y := if o.height != 0.0 then Scaled(o.y / o.height, activeArray.Height())
               else ZeroSizeToInt(o.y, activeArray.Height());
      CameraSource.MeteringRectangle(x, y, TouchSide(activeArray.Width()), TouchSide(activeArray.Height()),
                                     METERING_WEIGHT_MAX)
  }

  /**
   What Android's `MeteringRectangle` constructor accepts: a negative
   corner coordinate or side makes it throw `IllegalArgumentException`
   (the weight used here is always in range).
   */
  predicate MeteringAccepted(m: CameraSource.MeteringRectangle) {
    m.x >= 0 && m.y >= 0 && m.width >= 0 && m.height >= 0
  }

  lemma MulNonneg(a: real, b: real)
    requires a >= 0.0 && b >= 0.0
    ensures a * b >= 0.0
  {
  }

  /** A value in `[0, 1]` scaled by an `Int` extent truncates into `[0, extent]`. */
  lemma {:induction false} ScaleWithin(p: real, extent: int)
    requires 0.0 <= p <= 1.0 && 0 <= extent <= INT_MAX
    ensures 0 <= Scaled(p, extent) <= extent
  {
    var e := extent as real;
    MulNonneg(p, e);
    MulNonneg(1.0 - p, e);
    assert (1.0 - p) * e == e - p * e;
  }

  /** A coordinate inside `[0, size]` normalises into `[0, 1]`. */
  lemma {:induction false} UnitInterval(v: real, size: real)
    requires 0.0 < size && 0.0 <= v <= size
    ensures 0.0 <= v / size <= 1.0
  {
    assert v / size * size == v;
  }

  /** A point of the unit square puts the region's corner inside the active array. */
  lemma {:induction false} RegionWithin(activeArray: Rect, p: RealPoint)
    requires 0.0 <= p.x <= 1.0 && 0.0 <= p.y <= 1.0
    requires 0 <= activeArray.Width() <= INT_MAX && 0 <= activeArray.Height() <= INT_MAX
    ensures 0 <= RegionAt(activeArray, p).x <= activeArray.Width()
    ensures 0 <= RegionAt(activeArray, p).y <= activeArray.Height()
  {
    ScaleWithin(p.x, activeArray.Width());
    ScaleWithin(p.y, activeArray.Height());
  }

  /** A touch inside the view normalises into the unit square. */
  lemma {:induction false} NormaliseInUnitSquare(compensation: int, mirror: bool, viewWidth: int, viewHeight: int, touch: RealPoint)
    requires viewWidth > 0 && viewHeight > 0
    requires 0.0 <= touch.x <= viewWidth as real && 0.0 <= touch.y <= viewHeight as real
    ensures var p := Normalise(compensation, mirror, viewWidth, viewHeight, touch);
            0.0 <= p.x <= 1.0 && 0.0 <= p.y <= 1.0
  {
    var o := Orient(compensation, mirror, viewWidth, viewHeight, touch);
    assert 0.0 <= o.x <= o.width && 0.0 <= o.y <= o.height;
    UnitInterval(o.x, o.width);
    UnitInterval(o.y, o.height);
  }

  /**
   A touch inside the view gives a focus region whose corner lies inside
   the active array, whatever the compensation and mirroring.
   */
  lemma {:induction false} FocusRegionInsideArray(activeArray: Rect, compensation: int, mirror: bool,
                                                 viewWidth: int, viewHeight: int, touch: RealPoint)
    requires viewWidth > 0 && viewHeight > 0
    requires 0.0 <= touch.x <= viewWidth as real && 0.0 <= touch.y <= viewHeight as real
    requires 0 <= activeArray.Width() <= INT_MAX && 0 <= activeArray.Height() <= INT_MAX
    ensures var m := FocusRegion(activeArray, compensation, mirror, viewWidth, viewHeight, touch);
            0 <= m.x <= activeArray.Width() && 0 <= m.y <= activeArray.Height()
  {
    var p := Normalise(compensation, mirror, viewWidth, viewHeight, touch);
    NormaliseInUnitSquare(compensation, mirror, viewWidth, viewHeight, touch);
    RegionWithin(activeArray, p);
  }

  /**
   A touch inside the view always builds a rectangle the constructor
   accepts, whatever the compensation and mirroring.
   */
  lemma {:induction false} InsideTouchAccepted(activeArray: Rect, compensation: int, mirror: bool,
                                              viewWidth: int, viewHeight: int, touch: RealPoint)
    requires viewWidth > 0 && viewHeight > 0
    requires 0.0 <= touch.x <= viewWidth as real && 0.0 <= touch.y <= viewHeight as real
    requires 0 <= activeArray.Width() <= INT_MAX && 0 <= activeArray.Height() <= INT_MAX
    ensures MeteringAccepted(FocusRegion(activeArray, compensation, mirror, viewWidth, viewHeight, touch))
  {
    FocusRegionInsideArray(activeArray, compensation, mirror, viewWidth, viewHeight, touch);
  }

  /**
   A touch left of the view (rotation 0, no mirroring, a 100x100 view
   over a 100x100 array) puts the corner at x = -10, which the
   constructor rejects.
   */
  lemma {:induction false} OutsideTouchRejected()
    ensures var m := FocusRegion(Rect(0, 0, 100, 100), 0, false, 100, 100, RealPoint(-10.0, 10.0));
            m.x == -10 && !MeteringAccepted(m)
  {
    var p := Normalise(0, false, 100, 100, RealPoint(-10.0, 10.0));
    assert p.x == -0.1;
    assert p.x * 100.0 == -10.0;
  }

  /** One touch of the examples below: the region follows from the normalised point. */
  lemma {:induction false} ExampleRegion(compensation: int, mirror: bool, x: int, y: int)
    requires 0 <= x <= 100 && 0 <= y <= 100
    requires Normalise(compensation, mirror, 1000, 1000, RealPoint(10.0, 20.0)) == RealPoint(x as real / 100.0, y as real / 100.0)
    ensures FocusRegion(Rect(0, 0, 100, 100), compensation, mirror, 1000, 1000, RealPoint(10.0, 20.0))
              == CameraSource.MeteringRectangle(x, y, 5, 5, METERING_WEIGHT_MAX)
  {
    assert TouchSide(100) == 5;
    assert Scaled(x as real / 100.0, 100) == x;
    assert Scaled(y as real / 100.0, 100) == y;
  }

  /**
   A 100 x 100 active array, a 1000 x 1000 view and a touch at (10, 20):
   the region for each compensation of the back camera, and for the front
   camera at 0.
   */
  lemma FocusRegionExamples()
    ensures var a := Rect(0, 0, 100, 100);
            var t := RealPoint(10.0, 20.0);
            && FocusRegion(a, 0, false, 1000, 1000, t) == CameraSource.MeteringRectangle(1, 2, 5, 5, 1000)
            && FocusRegion(a, 90, false, 1000, 1000, t) == CameraSource.MeteringRectangle(2, 99, 5, 5, 1000)
            && FocusRegion(a, 180, false, 1000, 1000, t) == CameraSource.MeteringRectangle(99, 98, 5, 5, 1000)
            && FocusRegion(a, 270, false, 1000, 1000, t) == CameraSource.MeteringRectangle(98, 1, 5, 5, 1000)
            && FocusRegion(a, 0, true, 1000, 1000, t) == CameraSource.MeteringRectangle(99, 2, 5, 5, 1000)
  {
    ExampleRegion(0, false, 1, 2);
    ExampleRegion(90, false, 2, 99);
    ExampleRegion(180, false, 99, 98);
    ExampleRegion(270, false, 98, 1);
    ExampleRegion(0, true, 99, 2);
  }

  // ---------------------------------------------------------------------
  // Scanner state
  // ---------------------------------------------------------------------

  /** An image reader, numbered in creation order, with the size it was created at. */
  datatype Reader = Reader(id: nat, size: Size)

  predicate ValidClearFocusDelay(delay: int) {
    delay == CLEAR_FOCUS_DELAY_NEVER || delay >= 0
  }

  /**
   The scanner's fields: the camera source, the processor, whether frames
   are paused, the last image reader and how many have been created, the
   surfaces the application added, the custom minimum barcode width, the
   clear-focus delay, and whether the processor's barcodes are observed.
   */
  datatype Scanner = Scanner(
    camera: CameraSource.Source,
    processor: ImageProcessor.State,
    pauseProcessing: bool,
    imageReader: Option<Reader>,
    readers: nat,
    customSurfaces: seq<SurfaceId>,
    customMinBarcodeWidth: Option<int>,
    clearFocusDelay: int,
    observing: bool)
  {
    /** What every call keeps: the setters' validation and a well-formed processor. */
    predicate Valid() {
      && processor.scanner.Valid()
      && ValidClearFocusDelay(clearFocusDelay)
      && (customMinBarcodeWidth.Some? ==> customMinBarcodeWidth.value >= 0)
      && (imageReader.Some? ==> imageReader.value.id < readers)
    }
  }

  /** What the scanner reads from the platform: the cameras, their failures, the display rotation. */
  datatype Env = Env(cameras: seq<CameraSource.CameraInfo>, faults: CameraSource.Faults, displayRotation: int)

  /** An exception the scanner lets escape; `Platform` is one a camera source read threw. */
  datatype Error = IllegalState | IllegalArgument | NullPointer | Platform(cause: CameraSource.PlatformError)

  /** A camera source characteristics read throws: it reads only while a device is open. */
  predicate CameraReadFails(sc: Scanner, env: Env) {
    sc.camera.device.Some? && env.faults.cameraQuery.Some?
  }

  datatype Action =
    /** A call into the camera source did this; its failure reports reach `onCameraErrorListener`. */
    | Camera(camera: CameraSource.Action)
    /** The processor did this. */
    | Processor(processor: Detector.Action)
    | ObserveBarcodes
    | StopObservingBarcodes
    | CreateReader(reader: Reader)
    | CloseReader(id: nat)
    /** `cameraSource.start` with these surfaces, in order. */
    | StartCamera(surfaces: seq<SurfaceId>)
    | CloseImage(image: ImageId)
    | ProcessFrame(image: ImageId, metadata: FrameMetadata)
    /** `handlerClearFocus.removeCallbacksAndMessages(null)`. */
    | CancelClearFocus
    | PostClearFocus(delay: int)
    /** An exception escapes the call; nothing after it happens. */
    | Throw(error: Error)

  datatype Step = Step(scanner: Scanner, actions: seq<Action>)

  function LiftCamera(acts: seq<CameraSource.Action>): (r: seq<Action>)
    ensures |r| == |acts|
    ensures forall i :: 0 <= i < |acts| ==> r[i] == Camera(acts[i])
  {
    if |acts| == 0 then [] else [Camera(acts[0])] + LiftCamera(acts[1..])
  }

  function LiftProcessor(acts: seq<Detector.Action>): (r: seq<Action>)
    ensures |r| == |acts|
    ensures forall i :: 0 <= i < |acts| ==> r[i] == Processor(acts[i])
  {
    if |acts| == 0 then [] else [Processor(acts[0])] + LiftProcessor(acts[1..])
  }

  /**
   The internal constructor with a fresh camera source and the default
   processor: the processor builds its first detector for EAN-13 and EAN-8.
   */
  function New(): (st: Step)
    ensures st.scanner.Valid()
    ensures st.scanner.camera.Released() && st.scanner.imageReader.None? && !st.scanner.observing
    ensures !st.scanner.pauseProcessing && st.scanner.customSurfaces == []
    ensures st.scanner.processor.formats == ImageProcessor.DefaultFormats() && st.scanner.processor.sort.None?
    ensures st.scanner.customMinBarcodeWidth.None? && st.scanner.clearFocusDelay == CLEAR_FOCUS_DELAY_DEFAULT
    ensures st.actions == [Processor(Detector.CreateDetector(st.scanner.processor.scanner.current))]
  {
    var p := ImageProcessor.New(ImageProcessor.DefaultFormats(), None);
    Step(Scanner(CameraSource.Initial(), p.state, false, None, 0, [], None, CLEAR_FOCUS_DELAY_DEFAULT, false),
         LiftProcessor(p.actions))
  }

  /** `minWidthForBarcodes()` on the scanner's current settings. */
  function MinWidth(sc: Scanner): int {
    MinWidthForBarcodes(sc.customMinBarcodeWidth, sc.processor.formats)
  }

  /**
   `getOutputSize()`: the size of the open camera, or of the camera `start`
   would select, negotiated against the minimum width; a failing camera
   manager read escapes instead.
   */
  function GetOutputSize(sc: Scanner, env: Env): (r: CameraSource.SizeQuery)
    ensures env.faults.cameraQuery.Some? ==> r == CameraSource.QueryThrew(env.faults.cameraQuery.value)
    ensures env.faults.cameraQuery.None? && sc.camera.device.Some? ==>
              r == CameraSource.Answered(CameraSource.ChooseOutputSize(sc.camera.device.value.outputSizes, MinWidth(sc)))
    ensures env.faults.cameraQuery.None? && sc.camera.device.None? && |env.cameras| == 0 ==> r == CameraSource.Answered(None)
    ensures env.faults.cameraQuery.None? && sc.camera.device.None? && |env.cameras| > 0 ==>
              var i := CameraSource.SelectCameraIndex(env.cameras, sc.camera.requestedFacing).value;
              r == CameraSource.Answered(CameraSource.ChooseOutputSize(env.cameras[i].outputSizes, MinWidth(sc)))
  {
    CameraSource.GetOutputSize(sc.camera, env.cameras, MinWidth(sc), env.faults.cameraQuery)
  }

  /** `getOutputSize()` returns a size. */
  predicate HasOutputSize(sc: Scanner, env: Env) {
    GetOutputSize(sc, env).Answered? && GetOutputSize(sc, env).size.Some?
  }

  // ---------------------------------------------------------------------
  // Starting and releasing
  // ---------------------------------------------------------------------

  /** No call into the processor. */
  predicate NoProcessorCalls(acts: seq<Action>) {
    forall i :: 0 <= i < |acts| ==> !acts[i].Processor?
  }

  lemma NoProcessorCallsAppend(a: seq<Action>, b: seq<Action>)
    requires NoProcessorCalls(a) && NoProcessorCalls(b)
    ensures NoProcessorCalls(a + b)
  {
  }

  /** A trace with no processor calls after its first `n` actions, extended by one with none. */
  lemma NoProcessorCallsAfter(a: seq<Action>, b: seq<Action>, n: nat)
    requires n <= |a| && NoProcessorCalls(a[n..]) && NoProcessorCalls(b)
    ensures NoProcessorCalls((a + b)[n..])
  {
    assert (a + b)[n..] == a[n..] + b;
    NoProcessorCallsAppend(a[n..], b);
  }

  /** No image reader is closed. */
  predicate NoReaderClosed(acts: seq<Action>) {
    forall i :: 0 <= i < |acts| ==> !acts[i].CloseReader?
  }

  lemma NoReaderClosedAppend(a: seq<Action>, b: seq<Action>)
    requires NoReaderClosed(a) && NoReaderClosed(b)
    ensures NoReaderClosed(a + b)
  {
  }

  /** A successful camera-source start closes no reader. */
  lemma StartCameraSourceClosesNoReader(sc: Scanner, env: Env)
    requires sc.Valid() && HasOutputSize(sc, env)
    ensures NoReaderClosed(StartCameraSource(sc, env).actions)
  {
    var acts := StartCameraSource(sc, env).actions;
    assert acts == acts[..2] + acts[2..];
    NoReaderClosedAppend(acts[..2], acts[2..]);
  }

  /** The settings a start or release leaves alone. */
  predicate KeepsSettings(before: Scanner, after: Scanner) {
    && after.camera.requestedFacing == before.camera.requestedFacing
    && after.camera.requestedFlashMode == before.camera.requestedFlashMode
    && after.customSurfaces == before.customSurfaces
    && after.processor == before.processor
    && after.customMinBarcodeWidth == before.customMinBarcodeWidth
    && after.clearFocusDelay == before.clearFocusDelay
  }

  /**
   `startCameraSource()` with `createProcessorSurface()`: when reading the
   output size throws, or there is none (an `IllegalStateException`), the
   exception escapes before anything is created;
   otherwise a new reader of that size is created (a previous one is left
   as it is), and the camera is started over the reader's surface followed
   by the application's surfaces, with a listener.
   */
  function StartCameraSource(sc: Scanner, env: Env): (st: Step)
    requires sc.Valid()
    ensures st.scanner.Valid()
    ensures GetOutputSize(sc, env).QueryThrew? ==>
              st == Step(sc, [Throw(Platform(GetOutputSize(sc, env).error))])
    ensures GetOutputSize(sc, env) == CameraSource.Answered(None) ==> st == Step(sc, [Throw(IllegalState)])
    ensures HasOutputSize(sc, env) ==>
              var reader := Reader(sc.readers, GetOutputSize(sc, env).size.value);
              var cam := CameraSource.Start(sc.camera, env.cameras, true, env.faults);
              && (sc.imageReader.Some? ==> reader.id > sc.imageReader.value.id)
              && st.scanner.imageReader == Some(reader)
              && st.scanner.camera == cam.source
              && |st.actions| >= 2
              && st.actions[0] == CreateReader(reader)
              && st.actions[1] == StartCamera([ReaderSurface(reader.id)] + sc.customSurfaces)
              && st.actions[2..] == LiftCamera(cam.actions)
              && st.scanner.processor == sc.processor && st.scanner.pauseProcessing == sc.pauseProcessing
    ensures KeepsSettings(sc, st.scanner)
    ensures NoProcessorCalls(st.actions)
  {
    match GetOutputSize(sc, env)
    case QueryThrew(e) => Step(sc, [Throw(Platform(e))])
    case Answered(None) => Step(sc, [Throw(IllegalState)])
    case Answered(Some(size)) =>
      var reader := Reader(sc.readers, size);
      var cam := CameraSource.Start(sc.camera, env.cameras, true, env.faults);
      CameraSource.EveryFailureReleasesFirst(sc.camera, CameraSource.StartCall(env.cameras, true), env.faults);
      var acts := [CreateReader(reader), StartCamera([ReaderSurface(reader.id)] + sc.customSurfaces)] + LiftCamera(cam.actions);
      NoProcessorCallsAppend([CreateReader(reader), StartCamera([ReaderSurface(reader.id)] + sc.customSurfaces)],
                             LiftCamera(cam.actions));
      Step(sc.(camera := cam.source, imageReader := Some(reader), readers := sc.readers + 1), acts)
  }

  /**
   `start()`: un-pause; while the camera is started or opening do nothing
   more; otherwise observe the processor's barcodes and start the camera
   source.
   */
  function Start(sc: Scanner, env: Env): (st: Step)
    requires sc.Valid()
    ensures st.scanner.Valid() && !st.scanner.pauseProcessing
    ensures sc.camera.IsStarted() || sc.camera.IsOpening() ==> st == Step(sc.(pauseProcessing := false), [])
    ensures !sc.camera.IsStarted() && !sc.camera.IsOpening() ==>
              && st.scanner.observing
              && |st.actions| >= 2 && st.actions[0] == ObserveBarcodes
              && st.actions[1..] == StartCameraSource(sc.(pauseProcessing := false, observing := true), env).actions
    ensures KeepsSettings(sc, st.scanner)
    ensures NoProcessorCalls(st.actions)
  {
    var unpaused := sc.(pauseProcessing := false);
    if sc.camera.IsStarted() || sc.camera.IsOpening() then Step(unpaused, [])
    else
      var s := StartCameraSource(unpaused.(observing := true), env);
      NoProcessorCallsAppend([ObserveBarcodes], s.actions);
      Step(s.scanner, [ObserveBarcodes] + s.actions)
  }

  /** `resume()`. */
  function Resume(sc: Scanner): (r: Scanner)
    ensures !r.pauseProcessing && r == sc.(pauseProcessing := false)
  {
    sc.(pauseProcessing := false)
  }

  /** `pause()`. */
  function Pause(sc: Scanner): (r: Scanner)
    ensures r.pauseProcessing && r == sc.(pauseProcessing := true)
  {
    sc.(pauseProcessing := true)
  }

  /**
   `release()`: stop observing, stop the processor (which closes its
   detector and publishes an empty list), close the reader (the field keeps
   it), release the camera. Only closing happens after the processor stops.
   */
  function Release(sc: Scanner): (st: Step)
    requires sc.Valid()
    ensures st.scanner.Valid()
    ensures st.scanner.camera.Released() && !st.scanner.observing
    ensures KeepsSettings(sc, st.scanner)
    ensures st.scanner.imageReader == sc.imageReader && st.scanner.readers == sc.readers
    ensures |st.actions| >= 3
    ensures st.actions[..3] == [StopObservingBarcodes,
                                Processor(Detector.CloseDetector(sc.processor.scanner.current.id)),
                                Processor(Detector.Publish([]))]
    ensures sc.imageReader.Some? ==> |st.actions| >= 4 && st.actions[3] == CloseReader(sc.imageReader.value.id)
    ensures st.actions[(if sc.imageReader.Some? then 4 else 3)..] == LiftCamera(CameraSource.Release(sc.camera).actions)
    ensures NoProcessorCalls(st.actions[3..])
  {
    var stop := ImageProcessor.Stop(sc.processor);
    var reader := if sc.imageReader.Some? then [CloseReader(sc.imageReader.value.id)] else [];
    var cam := CameraSource.Release(sc.camera);
    var head := [StopObservingBarcodes] + LiftProcessor(stop.actions);
    assert head == [StopObservingBarcodes,
                    Processor(Detector.CloseDetector(sc.processor.scanner.current.id)),
                    Processor(Detector.Publish([]))];
    var acts := head + reader + LiftCamera(cam.actions);
    assert acts[..3] == head;
    assert acts[3 + |reader|..] == LiftCamera(cam.actions);
    assert acts[3..] == reader + LiftCamera(cam.actions);
    NoProcessorCallsAppend(reader, LiftCamera(cam.actions));
    Step(sc.(observing := false, camera := cam.source), acts)
  }

  // ---------------------------------------------------------------------
  // Frames
  // ---------------------------------------------------------------------

  /**
   The reader's image-available listener. No image: nothing. Processor
   busy or frames paused: the image is closed. Otherwise the frame's
   metadata is the reader's size, the rotation compensation and the
   camera's facing, and the image goes to the processor; an unknown display
   rotation, or then a failing read of the sensor orientation, throws
   before that and leaves the image open.
   */
  function OnImageAvailable(sc: Scanner, env: Env, reader: Reader, image: Option<ImageId>, processorBusy: bool): (st: Step)
    ensures st.scanner == sc
    ensures image.None? ==> st.actions == []
    ensures image.Some? && (processorBusy || sc.pauseProcessing) ==> st.actions == [CloseImage(image.value)]
    ensures image.Some? && !processorBusy && !sc.pauseProcessing && !(0 <= env.displayRotation <= 3) ==>
              st.actions == [Throw(NullPointer)]
    ensures image.Some? && !processorBusy && !sc.pauseProcessing && 0 <= env.displayRotation <= 3
            && CameraReadFails(sc, env) ==>
              st.actions == [Throw(Platform(env.faults.cameraQuery.value))]
    ensures |st.actions| == 1 && st.actions[0].ProcessFrame? ==>
              && st.actions[0].image == image.value
              && st.actions[0].metadata.width == reader.size.width
              && st.actions[0].metadata.height == reader.size.height
              && st.actions[0].metadata.cameraFacing == CameraSource.CameraFacing(sc.camera)
              && Some(st.actions[0].metadata.rotation) ==
                   RotationCompensation(env.displayRotation, CameraSource.SensorOrientation(sc.camera),
                                        CameraSource.CameraFacing(sc.camera))
  {
    match image
    case None => Step(sc, [])
    case Some(img) =>
      if processorBusy || sc.pauseProcessing then Step(sc, [CloseImage(img)])
      else if 0 <= env.displayRotation <= 3 && CameraReadFails(sc, env) then
        Step(sc, [Throw(Platform(env.faults.cameraQuery.value))])
      else
        match RotationCompensation(env.displayRotation, CameraSource.SensorOrientation(sc.camera),
                                   CameraSource.CameraFacing(sc.camera))
        case None => Step(sc, [Throw(NullPointer)])
        case Some(rotation) =>
          var metadata := FrameMetadata(reader.size.width, reader.size.height, rotation, CameraSource.CameraFacing(sc.camera));
          Step(sc, [ProcessFrame(img, metadata)])
  }

  /**
   Every acquired image is accounted for exactly once: closed, or handed
   to the processor, which closes it when done. Only an unknown display
   rotation or a failing camera read leaves it open.
   */
  lemma ImageAccountedFor(sc: Scanner, env: Env, reader: Reader, image: ImageId, processorBusy: bool)
    requires 0 <= env.displayRotation <= 3 && !CameraReadFails(sc, env)
    ensures var st := OnImageAvailable(sc, env, reader, Some(image), processorBusy);
            && |st.actions| == 1
            && (st.actions[0] == CloseImage(image) || (st.actions[0].ProcessFrame? && st.actions[0].image == image))
            && (st.actions[0].ProcessFrame? <==> !processorBusy && !sc.pauseProcessing)
  {
  }

  /** While paused no frame reaches the processor; after `resume` an idle processor gets every frame. */
  lemma PauseGatesFrames(sc: Scanner, env: Env, reader: Reader, image: ImageId)
    requires 0 <= env.displayRotation <= 3 && !CameraReadFails(sc, env)
    ensures OnImageAvailable(Pause(sc), env, reader, Some(image), false).actions == [CloseImage(image)]
    ensures OnImageAvailable(Resume(sc), env, reader, Some(image), false).actions[0].ProcessFrame?
  {
  }

  /**
   The hook `init` installs on the processor, applied to what the
   processor did: each image it reports processed is closed, in order.
   */
  function OnImageProcessed<T>(acts: seq<SingleSlot.Action<T>>): (closes: seq<Action>)
    ensures |closes| <= |acts|
    ensures forall i :: 0 <= i < |closes| ==> closes[i].CloseImage?
    ensures forall img :: CloseImage(img) in closes <==> SingleSlot.ImageProcessed(img) in acts
  {
    if |acts| == 0 then []
    else
      var rest := OnImageProcessed(acts[1..]);
      assert forall a :: a in acts[1..] ==> a in acts;
      assert forall a :: a in acts ==> a == acts[0] || a in acts[1..];
      if acts[0].ImageProcessed? then [CloseImage(acts[0].image)] + rest else rest
  }

  /**
   An image handed to an idle single-slot processor is closed exactly once
   when its detection completes, whatever the task's outcome.
   */
  lemma AdmittedImageClosed<T>(sc: Scanner, env: Env, reader: Reader, image: ImageId, task: SingleSlot.Task<T>)
    requires 0 <= env.displayRotation <= 3 && !sc.pauseProcessing && !CameraReadFails(sc, env)
    ensures var f := OnImageAvailable(sc, env, reader, Some(image), false).actions[0];
            && f.ProcessFrame?
            && (var slot := SingleSlot.StartDetection<T>(SingleSlot.NewSlot(true), f.image, f.metadata).slot;
                OnImageProcessed(SingleSlot.Complete(slot, f.metadata, task).actions) == [CloseImage(image)])
  {
    var f := OnImageAvailable(sc, env, reader, Some(image), false).actions[0];
    var slot := SingleSlot.StartDetection<T>(SingleSlot.NewSlot(true), f.image, f.metadata).slot;
    var acts := SingleSlot.Complete(slot, f.metadata, task).actions;
    assert |acts| == 2 && acts[0] == SingleSlot.ImageProcessed(image) && !acts[1].ImageProcessed?;
    assert acts[1..][1..] == [];
  }

  // ---------------------------------------------------------------------
  // Barcodes
  // ---------------------------------------------------------------------

  /** What the barcodes observer tells the application. */
  datatype Notification =
    /** `onBarcodesListener` and the `barcodes` live data get the list. */
    | BarcodesFound(barcodes: seq<Barcode>)
    /** `onBarcodeListener` and the `barcode` live data get its first element. */
    | FirstBarcode(barcode: Barcode)

  /** The barcodes observer: an empty list is only logged. */
  function OnBarcodesPublished(barcodes: seq<Barcode>): (ns: seq<Notification>)
    ensures ns == [] <==> |barcodes| == 0
    ensures |barcodes| > 0 ==> ns == [BarcodesFound(barcodes), FirstBarcode(barcodes[0])]
  {
    if |barcodes| == 0 then [] else [BarcodesFound(barcodes), FirstBarcode(barcodes[0])]
  }

  /**
   The empty list `release()` makes the processor publish reaches no
   listener: the observer is removed first, and would ignore it anyway.
   */
  lemma ReleaseIsSilent(sc: Scanner)
    requires sc.Valid()
    ensures var acts := Release(sc).actions;
            && acts[0] == StopObservingBarcodes
            && (forall i :: 0 <= i < |acts| && acts[i].Processor? && acts[i].processor.Publish? ==>
                  i > 0 && OnBarcodesPublished(acts[i].processor.barcodes) == [])
  {
    var acts := Release(sc).actions;
    forall i | 0 <= i < |acts| && acts[i].Processor? && acts[i].processor.Publish?
      ensures i > 0 && OnBarcodesPublished(acts[i].processor.barcodes) == []
    {
      assert i == 2;
    }
  }

  // ---------------------------------------------------------------------
  // Settings
  // ---------------------------------------------------------------------

  /** The camera features `updateCameraFeature` wraps. */
  datatype Feature = ExtraSurface(surface: SurfaceId) | Facing(facing: int) | FlashMode(mode: int)

  /** The feature's own update, applied to the fields. */
  function ApplyFeature(sc: Scanner, f: Feature): Scanner {
    match f
    case ExtraSurface(surface) => sc.(customSurfaces := sc.customSurfaces + [surface])
    case Facing(facing) => sc.(camera := sc.camera.(requestedFacing := facing))
    case FlashMode(mode) => sc.(camera := sc.camera.(requestedFlashMode := mode))
  }

  /**
   `updateCameraFeature`: a started camera is released, the feature
   updated and the scanner started again; a camera that is not started
   (even one that is opening) only gets the update, taking effect at the
   next start.
   */
  function UpdateCameraFeature(sc: Scanner, env: Env, f: Feature): (st: Step)
    requires sc.Valid()
    ensures st.scanner.Valid()
    ensures !sc.camera.IsStarted() ==> st == Step(ApplyFeature(sc, f), [])
    ensures sc.camera.IsStarted() ==>
              var released := Release(sc);
              && |released.actions| <= |st.actions|
              && st.actions[..|released.actions|] == released.actions
              && !st.scanner.pauseProcessing
    ensures f.Facing? ==> st.scanner.camera.requestedFacing == f.facing
    ensures f.FlashMode? ==> st.scanner.camera.requestedFlashMode == f.mode
    ensures f.ExtraSurface? ==> st.scanner.customSurfaces == sc.customSurfaces + [f.surface]
  {
    if sc.camera.IsStarted() then
      var released := Release(sc);
      var started := Start(ApplyFeature(released.scanner, f), env);
      assert (released.actions + started.actions)[..|released.actions|] == released.actions;
      Step(started.scanner, released.actions + started.actions)
    else Step(ApplyFeature(sc, f), [])
  }

  /** A feature change on a started camera is a release followed by a start. */
  lemma UpdateIsReleaseThenStart(sc: Scanner, env: Env, f: Feature)
    requires sc.Valid() && sc.camera.IsStarted()
    ensures var released := Release(sc);
            var started := Start(ApplyFeature(released.scanner, f), env);
            UpdateCameraFeature(sc, env, f) == Step(started.scanner, released.actions + started.actions)
  {
  }

  /** `addSurface`, `setCameraFacing`, `setCameraFlashMode`. */
  function AddSurface(sc: Scanner, env: Env, surface: SurfaceId): Step
    requires sc.Valid()
  {
    UpdateCameraFeature(sc, env, ExtraSurface(surface))
  }

  function SetCameraFacing(sc: Scanner, env: Env, facing: int): Step
    requires sc.Valid()
  {
    UpdateCameraFeature(sc, env, Facing(facing))
  }

  function SetCameraFlashMode(sc: Scanner, env: Env, mode: int): Step
    requires sc.Valid()
  {
    UpdateCameraFeature(sc, env, FlashMode(mode))
  }

  /**
   Starting a stopped scanner, with an output size available and no
   platform failure, ends by handing the camera source a new reader's
   surface and the application's surfaces, then opening the camera the
   requested facing selects.
   */
  lemma StartOpensSelectedCamera(sc: Scanner, env: Env)
    requires sc.Valid() && !sc.camera.IsStarted() && !sc.camera.IsOpening()
    requires |env.cameras| > 0 && env.faults.openCamera.None?
    requires HasOutputSize(sc, env)
    ensures var st := Start(sc, env);
            && |st.actions| == 4
            && st.actions[2] == StartCamera([ReaderSurface(sc.readers)] + sc.customSurfaces)
            && st.actions[3] == Camera(CameraSource.OpenCamera(CameraSource.SelectCamera(env.cameras, sc.camera.requestedFacing).value))
            && st.scanner.camera.IsOpening()
            && st.scanner.imageReader.value.id == sc.readers
  {
    var unpaused := sc.(pauseProcessing := false, observing := true);
    var s := StartCameraSource(unpaused, env);
    var cam := CameraSource.Start(unpaused.camera, env.cameras, true, env.faults);
    assert GetOutputSize(unpaused, env) == GetOutputSize(sc, env);
    assert |s.actions[2..]| == 1;
  }

  /** A feature change on a started camera closes the device it had open. */
  lemma FeatureChangeClosesDevice(sc: Scanner, env: Env, f: Feature)
    requires sc.Valid() && sc.camera.IsStarted()
    ensures Camera(CameraSource.CloseDevice(sc.camera.device.value.id)) in UpdateCameraFeature(sc, env, f).actions
  {
    var released := Release(sc);
    ReleaseClosesDevice(sc);
    UpdateIsReleaseThenStart(sc, env, f);
    assert UpdateCameraFeature(sc, env, f).actions[..|released.actions|] == released.actions;
  }

  /** Releasing a scanner whose camera holds a device closes that device. */
  lemma ReleaseClosesDevice(sc: Scanner)
    requires sc.Valid() && sc.camera.device.Some?
    ensures Camera(CameraSource.CloseDevice(sc.camera.device.value.id)) in Release(sc).actions
  {
    var released := Release(sc);
    var closes := CameraSource.Release(sc.camera).actions;
    var k :| 0 <= k < |closes| && closes[k] == CameraSource.CloseDevice(sc.camera.device.value.id);
    var off := |released.actions| - |closes|;
    assert released.actions[off + k] == Camera(closes[k]);
  }

  /**
   A feature change on a started camera stops the processor, closing its
   detector, and starting again does not build a new one: the processor
   keeps the closed detector as its current one.
   */
  lemma {:induction false} FeatureChangeKeepsClosedDetector(sc: Scanner, env: Env, f: Feature)
    requires sc.Valid() && sc.camera.IsStarted()
    ensures var st := UpdateCameraFeature(sc, env, f);
            && |st.actions| >= 3
            && st.actions[1] == Processor(Detector.CloseDetector(sc.processor.scanner.current.id))
            && st.scanner.processor.scanner.current == sc.processor.scanner.current
            && NoProcessorCalls(st.actions[3..])
  {
    var released := Release(sc);
    var started := Start(ApplyFeature(released.scanner, f), env);
    var st := UpdateCameraFeature(sc, env, f);
    UpdateIsReleaseThenStart(sc, env, f);
    assert released.actions[1] == Processor(Detector.CloseDetector(sc.processor.scanner.current.id));
    NoProcessorCallsAfter(released.actions, started.actions, 3);
  }

  /**
   Starting again after the camera released itself (a failed open, say)
   creates a second reader while the first one was never closed.
   */
  lemma RestartLeavesPreviousReaderOpen(sc: Scanner, env: Env)
    requires sc.Valid() && sc.imageReader.Some?
    requires !sc.camera.IsStarted() && !sc.camera.IsOpening()
    requires HasOutputSize(sc, env)
    ensures var st := Start(sc, env);
            && st.scanner.imageReader.value.id != sc.imageReader.value.id
            && NoReaderClosed(st.actions)
  {
    var unpaused := sc.(pauseProcessing := false, observing := true);
    assert GetOutputSize(unpaused, env) == GetOutputSize(sc, env);
    var s := StartCameraSource(unpaused, env);
    var st := Start(sc, env);
    StartCameraSourceClosesNoReader(unpaused, env);
    assert st.actions == [ObserveBarcodes] + s.actions;
    NoReaderClosedAppend([ObserveBarcodes], s.actions);
  }

  /** `setBarcodeFormats`: the processor rebuilds its detector; the camera is not touched. */
  function SetBarcodeFormats(sc: Scanner, formats: seq<int>): (st: Step)
    requires sc.Valid()
    ensures st.scanner.Valid()
    ensures st.scanner.camera == sc.camera && st.scanner.imageReader == sc.imageReader
    ensures st.scanner.processor.formats == formats
    ensures MinWidth(st.scanner) == MinWidthForBarcodes(sc.customMinBarcodeWidth, formats)
    ensures st.actions == [Processor(Detector.CreateDetector(st.scanner.processor.scanner.current)),
                           Processor(Detector.CloseDetector(sc.processor.scanner.current.id))]
  {
    var p := ImageProcessor.SetFormats(sc.processor, formats);
    Step(sc.(processor := p.state), LiftProcessor(p.actions))
  }

  /**
   `setMinBarcodeWidth`: a missing or negative width clears the custom
   width, so the formats decide again; any other is used as given.
   */
  function SetMinBarcodeWidth(sc: Scanner, width: Option<int>): (r: Scanner)
    requires sc.Valid()
    ensures r.Valid()
    ensures r == sc.(customMinBarcodeWidth := r.customMinBarcodeWidth)
    ensures r.customMinBarcodeWidth.None? <==> width.None? || width.value < 0
    ensures r.customMinBarcodeWidth.Some? ==> r.customMinBarcodeWidth == width
    ensures width.None? || width.value < 0 ==>
              MinWidth(r) == (10 * Formats.RequiredWidth(sc.processor.formats)) / 3
    ensures width.Some? && 0 <= width.value <= LARGEST_UNSATURATED_WIDTH ==> MinWidth(r) == (10 * width.value) / 3
  {
    sc.(customMinBarcodeWidth := if width.GetOr(-1) < 0 then None else width)
  }

  /** `setBarcodesSort`: handed to the processor. */
  function SetBarcodesSort(sc: Scanner, sort: Option<BarcodeSort.Sorter>): (r: Scanner)
    requires sc.Valid()
    ensures r.Valid()
    ensures r.processor.sort == sort && r == sc.(processor := r.processor)
    ensures r.processor.formats == sc.processor.formats && r.processor.scanner == sc.processor.scanner
  {
    sc.(processor := ImageProcessor.SetSort(sc.processor, sort))
  }

  /** `setScaleType`: the scanner has no preview, so the type is only logged. */
  function SetScaleType(sc: Scanner, scaleType: int): (r: Scanner)
    ensures r == sc
  {
    sc
  }

  /**
   `setClearFocusDelay`: `CLEAR_FOCUS_DELAY_NEVER` or a non-negative delay
   is stored; anything else throws and changes nothing.
   */
  function SetClearFocusDelay(sc: Scanner, delay: int): (st: Step)
    requires sc.Valid()
    ensures st.scanner.Valid()
    ensures st.actions == [] <==> ValidClearFocusDelay(delay)
    ensures ValidClearFocusDelay(delay) ==> st.scanner == sc.(clearFocusDelay := delay)
    ensures !ValidClearFocusDelay(delay) ==> st == Step(sc, [Throw(IllegalArgument)])
  {
    if delay != CLEAR_FOCUS_DELAY_NEVER && delay < 0 then Step(sc, [Throw(IllegalArgument)])
    else Step(sc.(clearFocusDelay := delay), [])
  }

  // ---------------------------------------------------------------------
  // Touch to focus
  // ---------------------------------------------------------------------

  /** A value, or the exception computing it threw. */
  datatype Outcome<T> = Value(value: T) | Thrown(error: Error)

  /**
   `calculateFocusRegions`: a failing read of the active array size
   throws; nothing without an active array size (checked first); otherwise
   one region for the touch, oriented by the rotation compensation and
   mirrored for a front camera, whose construction throws when the region
   has a negative corner or side.
   */
  function CalculateFocusRegions(sc: Scanner, env: Env, viewWidth: int, viewHeight: int, touch: RealPoint)
    : (r: Outcome<Option<seq<CameraSource.MeteringRectangle>>>)
    ensures CameraReadFails(sc, env) ==> r == Thrown(Platform(env.faults.cameraQuery.value))
    ensures !CameraReadFails(sc, env) && CameraSource.ActiveArraySize(sc.camera).None? ==> r == Value(None)
    ensures !CameraReadFails(sc, env) && CameraSource.ActiveArraySize(sc.camera).Some? && !(0 <= env.displayRotation <= 3) ==>
              r == Thrown(NullPointer)
    ensures r == Thrown(IllegalArgument) <==>
              && !CameraReadFails(sc, env)
              && CameraSource.ActiveArraySize(sc.camera).Some?
              && var rotation := RotationCompensation(env.displayRotation, CameraSource.SensorOrientation(sc.camera),
                                                      CameraSource.CameraFacing(sc.camera));
                 && rotation.Some?
                 && !MeteringAccepted(FocusRegion(CameraSource.ActiveArraySize(sc.camera).value, rotation.value,
                                                  CameraSource.CameraFacing(sc.camera) == Some(LENS_FACING_FRONT),
                                                  viewWidth, viewHeight, touch))
    ensures r.Value? && r.value.Some? ==>
              && CameraSource.ActiveArraySize(sc.camera).Some?
              && |r.value.value| == 1
              && MeteringAccepted(r.value.value[0])
              && var rotation := RotationCompensation(env.displayRotation, CameraSource.SensorOrientation(sc.camera),
                                                      CameraSource.CameraFacing(sc.camera));
                 r.value.value[0] == FocusRegion(CameraSource.ActiveArraySize(sc.camera).value, rotation.value,
                                                 CameraSource.CameraFacing(sc.camera) == Some(LENS_FACING_FRONT),
                                                 viewWidth, viewHeight, touch)
  {
    if CameraReadFails(sc, env) then Thrown(Platform(env.faults.cameraQuery.value))
    else
    match CameraSource.ActiveArraySize(sc.camera)
    case None => Value(None)
    case Some(activeArray) =>
      match RotationCompensation(env.displayRotation, CameraSource.SensorOrientation(sc.camera),
                                 CameraSource.CameraFacing(sc.camera))
      case None => Thrown(NullPointer)
      case Some(rotation) =>
        var mirror := CameraSource.CameraFacing(sc.camera) == Some(LENS_FACING_FRONT);
        var region := FocusRegion(activeArray, rotation, mirror, viewWidth, viewHeight, touch);
        if MeteringAccepted(region) then Value(Some([region])) else Thrown(IllegalArgument)
  }

  /**
   `scheduleClearFocusRegions(delay)`: never, nothing; a negative delay
   throws; otherwise any pending clear is dropped and one is posted.
   */
  function ScheduleClearFocusRegions(sc: Scanner, delay: int): (st: Step)
    ensures st.scanner == sc
    ensures delay == CLEAR_FOCUS_DELAY_NEVER ==> st.actions == []
    ensures !ValidClearFocusDelay(delay) <==> st.actions == [Throw(IllegalArgument)]
    ensures delay >= 0 ==> st.actions == [CancelClearFocus, PostClearFocus(delay)]
  {
    if delay == CLEAR_FOCUS_DELAY_NEVER then Step(sc, [])
    else if delay < 0 then Step(sc, [Throw(IllegalArgument)])
    else Step(sc, [CancelClearFocus, PostClearFocus(delay)])
  }

  /**
   `requestCameraFocus`: compute the regions; with none, stop; otherwise
   ask the camera to focus on them and schedule clearing them after the
   configured delay. An exception escaping the camera's focus request
   leaves this call too, before anything is scheduled. The only
   `IllegalArgumentException` is a rejected focus rectangle: the
   configured delay is always one the scheduler accepts.
   */
  function RequestCameraFocus(sc: Scanner, env: Env, viewWidth: int, viewHeight: int, touch: RealPoint): (st: Step)
    requires sc.Valid()
    ensures st.scanner.Valid()
    ensures CameraReadFails(sc, env) ==> st == Step(sc, [Throw(Platform(env.faults.cameraQuery.value))])
    ensures !CameraReadFails(sc, env) && CameraSource.ActiveArraySize(sc.camera).None? ==> st == Step(sc, [])
    ensures Throw(IllegalArgument) in st.actions <==>
              CalculateFocusRegions(sc, env, viewWidth, viewHeight, touch) == Thrown(IllegalArgument)
    ensures CalculateFocusRegions(sc, env, viewWidth, viewHeight, touch) == Thrown(IllegalArgument) ==>
              st == Step(sc, [Throw(IllegalArgument)])
    ensures var regions := CalculateFocusRegions(sc, env, viewWidth, viewHeight, touch);
            regions.Value? && regions.value.Some? ==>
              var cam := CameraSource.RequestFocus(sc.camera, regions.value.value, env.faults);
              && (CameraSource.Escaped(cam) ==> st == Step(sc.(camera := cam.source), LiftCamera(cam.actions)))
              && (!CameraSource.Escaped(cam) && sc.clearFocusDelay >= 0 ==>
                    |st.actions| >= 2
                    && st.actions[|st.actions| - 2..] == [CancelClearFocus, PostClearFocus(sc.clearFocusDelay)])
  {
    match CalculateFocusRegions(sc, env, viewWidth, viewHeight, touch)
    case Thrown(e) => Step(sc, [Throw(e)])
    case Value(None) => Step(sc, [])
    case Value(Some(regions)) =>
      var cam := CameraSource.RequestFocus(sc.camera, regions, env.faults);
      var lifted := LiftCamera(cam.actions);
      assert Throw(IllegalArgument) !in lifted;
      if CameraSource.Escaped(cam) then Step(sc.(camera := cam.source), lifted)
      else
        var schedule := ScheduleClearFocusRegions(sc.(camera := cam.source), sc.clearFocusDelay);
        assert (lifted + schedule.actions)[|lifted + schedule.actions| - |schedule.actions|..] == schedule.actions;
        Step(schedule.scanner, lifted + schedule.actions)
  }

  /**
   A touch inside the view, over an active array of non-negative size,
   never makes the focus request throw `IllegalArgumentException`.
   */
  lemma {:induction false} InsideTouchNeverRejected(sc: Scanner, env: Env, viewWidth: int, viewHeight: int, touch: RealPoint)
    requires sc.Valid()
    requires viewWidth > 0 && viewHeight > 0
    requires 0.0 <= touch.x <= viewWidth as real && 0.0 <= touch.y <= viewHeight as real
    requires CameraSource.ActiveArraySize(sc.camera).Some? ==>
               var a := CameraSource.ActiveArraySize(sc.camera).value;
               0 <= a.Width() <= INT_MAX && 0 <= a.Height() <= INT_MAX
    ensures Throw(IllegalArgument) !in RequestCameraFocus(sc, env, viewWidth, viewHeight, touch).actions
  {
    if !CameraReadFails(sc, env) && CameraSource.ActiveArraySize(sc.camera).Some? {
      var rotation := RotationCompensation(env.displayRotation, CameraSource.SensorOrientation(sc.camera),
                                           CameraSource.CameraFacing(sc.camera));
      if rotation.Some? {
        InsideTouchAccepted(CameraSource.ActiveArraySize(sc.camera).value, rotation.value,
                            CameraSource.CameraFacing(sc.camera) == Some(LENS_FACING_FRONT),
                            viewWidth, viewHeight, touch);
      }
    }
  }

  /** The posted clear runs: only a started camera clears its regions. */
  function ClearFocusFired(sc: Scanner, env: Env): (st: Step)
    ensures st.scanner.camera.requestedFacing == sc.camera.requestedFacing
    ensures !sc.camera.IsStarted() ==> st == Step(sc, [])
    ensures sc.camera.IsStarted() ==>
              var cam := CameraSource.ClearFocusRegions(sc.camera, env.faults);
              st == Step(sc.(camera := cam.source), LiftCamera(cam.actions))
  {
    if sc.camera.IsStarted() then
      var cam := CameraSource.ClearFocusRegions(sc.camera, env.faults);
      CameraSource.EveryFailureReleasesFirst(sc.camera, CameraSource.ClearFocusCall, env.faults);
      Step(sc.(camera := cam.source), LiftCamera(cam.actions))
    else Step(sc, [])
  }

  /** A clear still pending when the scanner is released does nothing when it fires. */
  lemma ClearAfterReleaseIsHarmless(sc: Scanner, env: Env)
    requires sc.Valid()
    ensures ClearFocusFired(Release(sc).scanner, env).actions == []
  {
  }
}
