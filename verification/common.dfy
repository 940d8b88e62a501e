/**
 Values shared by every part of the KBarcode model: an optional value, the
 JVM's truncating integer arithmetic, the `Float.toInt()` conversion, the
 small geometry records of the Android graphics package, and the records
 that travel between the camera, the scanner and the frame processors.
 */
module Common {

  /** Kotlin's nullable types. */
  datatype Option<+T> = None | Some(value: T) {
    function GetOr(default: T): T {
      match this
      case Some(v) => v
      case None => default
    }
  }

  function Abs(x: int): nat {
    if x < 0 then -x else x
  }

  /** Kotlin's `/` on `Int`: the quotient is truncated toward zero. */
  function KotlinDiv(a: int, b: int): (q: int)
    requires b > 0
    ensures a >= 0 ==> 0 <= a - q * b < b
    ensures a < 0 ==> -b < a - q * b <= 0
  {
    if a >= 0 then
      assert a == (a / b) * b + a % b;
      a / b
    else
      assert -a == ((-a) / b) * b + (-a) % b;
      -((-a) / b)
  }

  /** Kotlin's `%` on `Int`: the remainder takes the sign of the dividend. */
  function KotlinRem(a: int, b: int): (r: int)
    requires b > 0
    ensures r == a - KotlinDiv(a, b) * b
    ensures a >= 0 ==> 0 <= r < b
    ensures a < 0 ==> -b < r <= 0
  {
    if a >= 0 then
      assert a == (a / b) * b + a % b;
      a % b
    else
      assert -a == ((-a) / b) * b + (-a) % b;
      -((-a) % b)
  }

  /** Truncation toward zero, the rounding `Float.toInt()` and `Double.toInt()` apply. */
  function TruncToInt(x: real): (i: int)
    ensures x >= 0.0 ==> i as real <= x < i as real + 1.0
    ensures x < 0.0 ==> i as real - 1.0 < x <= i as real
  {
    if x >= 0.0 then x.Floor else -((-x).Floor)
  }

  const INT_MIN: int := -0x8000_0000
  const INT_MAX: int := 0x7fff_ffff

  /**
   `Float.toInt()` / `Double.toInt()` on a finite value: truncation toward
   zero, saturating at the bounds of `Int`.
   */
  function FloatToInt(x: real): (i: int)
    ensures INT_MIN <= i <= INT_MAX
    ensures INT_MIN as real <= x <= INT_MAX as real ==> i == TruncToInt(x)
    ensures x < INT_MIN as real ==> i == INT_MIN
    ensures x > INT_MAX as real ==> i == INT_MAX
  {
    if x < INT_MIN as real then INT_MIN
    else if x > INT_MAX as real then INT_MAX
    else TruncToInt(x)
  }

  /** `android.util.Size`. */
  datatype Size = Size(width: int, height: int)

  /** `android.graphics.Point`. */
  datatype Point = Point(x: int, y: int)

  /** `android.graphics.Rect`, edges in pixels. */
  datatype Rect = Rect(left: int, top: int, right: int, bottom: int) {
    function Width(): int { right - left }
    function Height(): int { bottom - top }
    /** `Rect.centerX()` is `(left + right) >> 1`, a floor division. */
    function CenterX(): int { (left + right) / 2 }
    function CenterY(): int { (top + bottom) / 2 }
  }

  /** `CameraCharacteristics.LENS_FACING_*`. */
  const LENS_FACING_FRONT: int := 0
  const LENS_FACING_BACK: int := 1
  const LENS_FACING_EXTERNAL: int := 2

  /** `CameraMetadata.FLASH_MODE_*`. */
  const FLASH_MODE_OFF: int := 0
  const FLASH_MODE_SINGLE: int := 1
  const FLASH_MODE_TORCH: int := 2

  /** `BarcodeView.CLEAR_FOCUS_DELAY_*`, in milliseconds. */
  const CLEAR_FOCUS_DELAY_DEFAULT: int := 5000
  const CLEAR_FOCUS_DELAY_NEVER: int := -1

  /** `BarcodeView.CENTER_INSIDE` / `CENTER_CROP`. */
  const CENTER_INSIDE: int := 0
  const CENTER_CROP: int := 1

  /** Per-frame context handed to the processor and to a `BarcodeComparator`. */
  datatype FrameMetadata = FrameMetadata(width: int, height: int, rotation: int, cameraFacing: Option<int>)

  /** Opaque platform handles. */
  type ImageId = int

  /**
   A `Surface` the camera draws into: the one of the scanner's `n`-th image
   reader, or one the application added.
   */
  datatype SurfaceId = ReaderSurface(reader: nat) | AppSurface(id: int)

  /**
   A detected barcode. The library's `Barcode` is a field-by-field copy of
   the detector's object; only the fields the core reads are kept.
   */
  datatype Barcode = Barcode(displayValue: string, boundingBox: Option<Rect>)

  /** The detector's own barcode object. */
  datatype RawBarcode = RawBarcode(displayValue: string, boundingBox: Option<Rect>)

  /** The `Barcode(it)` wrapping constructor. */
  function FromRaw(raw: RawBarcode): Barcode {
    Barcode(raw.displayValue, raw.boundingBox)
  }

  /** `results.map { Barcode(it) }`. */
  function MapResults(raws: seq<RawBarcode>): (bs: seq<Barcode>)
    ensures |bs| == |raws|
    ensures forall i :: 0 <= i < |raws| ==> bs[i] == FromRaw(raws[i])
  {
    if |raws| == 0 then [] else [FromRaw(raws[0])] + MapResults(raws[1..])
  }
}
