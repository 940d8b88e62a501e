/**
 The scanner configuration record (`Options.kt`): its builder with the
 library's defaults, the normalisation of an empty format list, and the
 hand-written `equals` / `hashCode` pair that compares and hashes the
 format array by content.

 `Int` fields are 32-bit and `clearFocusDelay` is a 64-bit `Long`; the
 hash arithmetic wraps around as the JVM's does.
 */
module Options {
  import opened Common
  import Formats

  const LONG_MIN: int := -0x8000_0000_0000_0000
  const LONG_MAX: int := 0x7fff_ffff_ffff_ffff

  /** The 2^32 values of a JVM `Int`. */
  const INT_RANGE: int := 0x1_0000_0000

  type Int32 = x: int | INT_MIN <= x <= INT_MAX
  type Int64 = x: int | LONG_MIN <= x <= LONG_MAX

  /**
   A `BarcodeComparator` instance: `equals` is identity, and `hashCode` is
   whatever the instance returns.
   */
  datatype ComparatorRef = ComparatorRef(identity: nat, hash: Int32)

  datatype Options = Options(
    cameraFacing: Int32,
    cameraFlashMode: Int32,
    barcodeFormats: seq<Int32>,
    minBarcodeWidth: Option<Int32>,
    barcodesSort: Option<ComparatorRef>,
    previewScaleType: Int32,
    clearFocusDelay: Int64)

  // ---------------------------------------------------------------------
  // Builder
  // ---------------------------------------------------------------------

  datatype Builder = Builder(
    cameraFacing: Int32,
    cameraFlashMode: Int32,
    barcodeFormats: seq<Int32>,
    minBarcodeWidth: Option<Int32>,
    barcodesSort: Option<ComparatorRef>,
    previewScaleType: Int32,
    clearFocusDelay: Int64)

  /** `Options.Builder()` with every parameter left at its default. */
  function NewBuilder(): (b: Builder)
    ensures b.cameraFacing == LENS_FACING_BACK && b.cameraFlashMode == FLASH_MODE_OFF
    ensures b.barcodeFormats == [Formats.FORMAT_ALL_FORMATS]
    ensures b.minBarcodeWidth.None? && b.barcodesSort.None?
    ensures b.previewScaleType == CENTER_INSIDE && b.clearFocusDelay == CLEAR_FOCUS_DELAY_DEFAULT
  {
    Builder(LENS_FACING_BACK, FLASH_MODE_OFF, [Formats.FORMAT_ALL_FORMATS], None, None,
            CENTER_INSIDE, CLEAR_FOCUS_DELAY_DEFAULT)
  }

  /** One call of a builder method, with its argument. */
  datatype Setter =
    | CameraFacing(facing: Int32)
    | CameraFlashMode(mode: Int32)
    | BarcodeFormats(formats: seq<Int32>)
    | MinBarcodeWidth(width: Int32)
    | BarcodesSort(sort: Option<ComparatorRef>)
    | PreviewScaleType(scaleType: Int32)
    | ClearFocusDelay(delay: Int64)

  /**
   The builder methods: each stores its argument in its own field, except
   that an empty format array is stored as `[FORMAT_ALL_FORMATS]`.
   */
  function Apply(b: Builder, s: Setter): (r: Builder)
    ensures s.BarcodeFormats? ==>
              && r == b.(barcodeFormats := r.barcodeFormats)
              && (|s.formats| > 0 ==> r.barcodeFormats == s.formats)
              && (|s.formats| == 0 ==> r.barcodeFormats == [Formats.FORMAT_ALL_FORMATS])
    ensures !s.BarcodeFormats? ==> r.barcodeFormats == b.barcodeFormats
  {
    match s
    case CameraFacing(v) => b.(cameraFacing := v)
    case CameraFlashMode(v) => b.(cameraFlashMode := v)
    case BarcodeFormats(v) => b.(barcodeFormats := if |v| == 0 then [Formats.FORMAT_ALL_FORMATS] else v)
    case MinBarcodeWidth(v) => b.(minBarcodeWidth := Some(v))
    case BarcodesSort(v) => b.(barcodesSort := v)
    case PreviewScaleType(v) => b.(previewScaleType := v)
    case ClearFocusDelay(v) => b.(clearFocusDelay := v)
  }

  /** A chain of builder calls, applied left to right. */
  function ApplyAll(b: Builder, ss: seq<Setter>): Builder
    decreases |ss|
  {
    if |ss| == 0 then b else Apply(ApplyAll(b, ss[..|ss| - 1]), ss[|ss| - 1])
  }

  /** `build()`. */
  function Build(b: Builder): (o: Options)
    ensures o.cameraFacing == b.cameraFacing && o.cameraFlashMode == b.cameraFlashMode
    ensures o.barcodeFormats == b.barcodeFormats && o.minBarcodeWidth == b.minBarcodeWidth
    ensures o.barcodesSort == b.barcodesSort && o.previewScaleType == b.previewScaleType
    ensures o.clearFocusDelay == b.clearFocusDelay
  {
    Options(b.cameraFacing, b.cameraFlashMode, b.barcodeFormats, b.minBarcodeWidth, b.barcodesSort,
            b.previewScaleType, b.clearFocusDelay)
  }

  /** The field a setter writes, as the `Options` it builds sees it. */
  function Written(o: Options, s: Setter): (r: Options)
  {
    match s
    case CameraFacing(v) => o.(cameraFacing := v)
    case CameraFlashMode(v) => o.(cameraFlashMode := v)
    case BarcodeFormats(v) => o.(barcodeFormats := if |v| == 0 then [Formats.FORMAT_ALL_FORMATS] else v)
    case MinBarcodeWidth(v) => o.(minBarcodeWidth := Some(v))
    case BarcodesSort(v) => o.(barcodesSort := v)
    case PreviewScaleType(v) => o.(previewScaleType := v)
    case ClearFocusDelay(v) => o.(clearFocusDelay := v)
  }

  /**
   Building after a setter is building first and then overwriting that one
   field: a setter touches nothing but its own field, and `build()` copies
   every field unchanged.
   */
  lemma SetterTouchesOwnField(b: Builder, s: Setter)
    ensures Build(Apply(b, s)) == Written(Build(b), s)
  {
  }

  /** The value of the format field after a chain of calls: the last call's, or the default. */
  function LastFormats(ss: seq<Setter>): (fs: seq<Int32>)
    decreases |ss|
  {
    if |ss| == 0 then [Formats.FORMAT_ALL_FORMATS]
    else if ss[|ss| - 1].BarcodeFormats? && |ss[|ss| - 1].formats| > 0 then ss[|ss| - 1].formats
    else if ss[|ss| - 1].BarcodeFormats? then [Formats.FORMAT_ALL_FORMATS]
    else LastFormats(ss[..|ss| - 1])
  }

  /**
   Whatever chain of calls built them, options never carry an empty format
   list: they hold the last non-empty list passed, or all formats.
   */
  lemma {:induction false} BuiltFormatsNeverEmpty(ss: seq<Setter>)
    ensures Build(ApplyAll(NewBuilder(), ss)).barcodeFormats == LastFormats(ss)
    ensures |Build(ApplyAll(NewBuilder(), ss)).barcodeFormats| > 0
    decreases |ss|
  {
    if |ss| > 0 {
      BuiltFormatsNeverEmpty(ss[..|ss| - 1]);
    }
  }

  // ---------------------------------------------------------------------
  // equals and hashCode
  // ---------------------------------------------------------------------

  /** `other as Options` followed by the field-by-field comparison; arrays by content. */
  function Equals(a: Options, b: Options): (r: bool)
    ensures r <==> a == b
  {
    && a.cameraFacing == b.cameraFacing
    && a.cameraFlashMode == b.cameraFlashMode
    && ContentEquals(a.barcodeFormats, b.barcodeFormats)
    && a.minBarcodeWidth == b.minBarcodeWidth
    && a.barcodesSort == b.barcodesSort
    && a.previewScaleType == b.previewScaleType
    && a.clearFocusDelay == b.clearFocusDelay
  }

  /**
   The `equals`/`hashCode` contract: options `equals` accepts, comparing
   the format arrays by content, hash alike.
   */
  lemma EqualOptionsHashAlike(a: Options, b: Options)
    requires Equals(a, b)
    ensures HashCode(a) == HashCode(b)
  {
  }

  /** `IntArray.contentEquals`: same length, same element at every index. */
  function ContentEquals(a: seq<Int32>, b: seq<Int32>): (r: bool)
    ensures r <==> a == b
  {
    |a| == |b| && forall i :: 0 <= i < |a| ==> a[i] == b[i]
  }

  /** The `Int` a JVM computation wraps `x` to: the representative of `x` modulo 2^32 in `Int`'s range. */
  function Wrap32(x: int): (r: Int32)
    ensures (r - x) % INT_RANGE == 0
    ensures INT_MIN <= x <= INT_MAX ==> r == x
  {
    var m := (x - INT_MIN) % INT_RANGE;
    assert m == x - INT_MIN - INT_RANGE * ((x - INT_MIN) / INT_RANGE);
    m + INT_MIN
  }

  /** Two values congruent modulo 2^32 wrap to the same `Int`. */
  lemma WrapCongruent(a: int, b: int)
    requires (a - b) % INT_RANGE == 0
    ensures Wrap32(a) == Wrap32(b)
  {
    var k := (a - b) / INT_RANGE;
    assert a == b + k * INT_RANGE;
    ModMultiple(b - INT_MIN, k);
  }

  lemma ModMultiple(x: int, k: int)
    ensures (x + k * INT_RANGE) % INT_RANGE == x % INT_RANGE
  {
    var q := x / INT_RANGE;
    var r := x % INT_RANGE;
    assert x + k * INT_RANGE == (q + k) * INT_RANGE + r;
  }

  /** `result = 31 * result + h`, in `Int` arithmetic. */
  function Step31(acc: Int32, h: Int32): Int32 {
    Wrap32(31 * acc + h)
  }

  /** Folding `Step31` over `hs` from `seed`, left to right. */
  function Fold31(seed: Int32, hs: seq<Int32>): Int32
    decreases |hs|
  {
    if |hs| == 0 then seed else Step31(Fold31(seed, hs[..|hs| - 1]), hs[|hs| - 1])
  }

  function Pow31(n: nat): (p: nat)
    ensures p >= 1
  {
    if n == 0 then 1 else 31 * Pow31(n - 1)
  }

  /** The mathematical polynomial `sum of hs[i] * 31^(|hs|-1-i)`, without wrap-around. */
  function Poly(hs: seq<int>): int
    decreases |hs|
  {
    if |hs| == 0 then 0 else hs[0] * Pow31(|hs| - 1) + Poly(hs[1..])
  }

  lemma {:induction false} PolySnoc(hs: seq<int>, e: int)
    ensures Poly(hs + [e]) == 31 * Poly(hs) + e
    decreases |hs|
  {
    if |hs| == 0 {
      assert [] + [e] == [e];
      assert [e][1..] == [];
    } else {
      assert (hs + [e])[0] == hs[0];
      assert (hs + [e])[1..] == hs[1..] + [e];
      PolySnoc(hs[1..], e);
      assert hs[0] * Pow31(|hs|) == 31 * (hs[0] * Pow31(|hs| - 1));
    }
  }

  /** Wrapping the accumulator before a step does not change the step's result. */
  lemma WrapThenStep(x: int, e: int)
    ensures Wrap32(31 * Wrap32(x) + e) == Wrap32(31 * x + e)
  {
    var w := Wrap32(x);
    var q := (w - x) / INT_RANGE;
    assert w - x == q * INT_RANGE;
    assert (31 * w + e) - (31 * x + e) == (31 * q) * INT_RANGE;
    WrapCongruent(31 * w + e, 31 * x + e);
  }

  /** One more element multiplies the seed's weight and the polynomial by 31. */
  lemma SeededPolySnoc(seed: int, hs: seq<int>, e: int)
    ensures seed * Pow31(|hs + [e]|) + Poly(hs + [e]) == 31 * (seed * Pow31(|hs|) + Poly(hs)) + e
  {
    PolySnoc(hs, e);
    assert Pow31(|hs + [e]|) == 31 * Pow31(|hs|);
  }

  /**
   The wrapping fold equals the polynomial hash reduced once at the end:
   wrapping after every step loses nothing.
   */
  lemma {:induction false} Fold31IsPolynomial(seed: Int32, hs: seq<Int32>)
    ensures Fold31(seed, hs) == Wrap32(seed * Pow31(|hs|) + Poly(hs))
    decreases |hs|
  {
    if |hs| > 0 {
      var init := hs[..|hs| - 1];
      var e := hs[|hs| - 1];
      assert hs == init + [e];
      Fold31IsPolynomial(seed, init);
      var x := seed * Pow31(|init|) + Poly(init);
      SeededPolySnoc(seed, init, e);
      WrapThenStep(x, e);
    }
  }

  /** `IntArray.contentHashCode()`: start from 1, then `31 * result + element`. */
  function ContentHashCode(a: seq<Int32>): Int32 {
    Fold31(1, a)
  }

  /** `Long.hashCode()`: `(value xor (value ushr 32)).toInt()`, on the two's-complement bits of `value`. */
  function LongHash(v: Int64): Int32 {
    var u := if v < 0 then v + INT_RANGE * INT_RANGE else v;
    Wrap32(Xor(u % INT_RANGE, u / INT_RANGE, 32))
  }

  /**
   On values that fit in an `Int` the high word is all zeros or all ones,
   so the hash is the value itself or its bitwise complement.
   */
  lemma LongHashOfInt(v: Int64)
    requires INT_MIN <= v <= INT_MAX
    ensures v >= 0 ==> LongHash(v) == v
    ensures v < 0 ==> LongHash(v) == -v - 1
  {
    Pow2Of32();
    if v >= 0 {
      assert v % INT_RANGE == v && v / INT_RANGE == 0;
      XorWithZero(v, 32);
    } else {
      var u := v + INT_RANGE * INT_RANGE;
      assert u == (INT_RANGE - 1) * INT_RANGE + (v + INT_RANGE);
      assert u / INT_RANGE == INT_RANGE - 1 && u % INT_RANGE == v + INT_RANGE;
      XorWithOnes(v + INT_RANGE, 32);
    }
  }

  function Pow2(n: nat): (p: nat)
    ensures p >= 1
  {
    if n == 0 then 1 else 2 * Pow2(n - 1)
  }

  lemma {:induction false} Pow2Add(a: nat, b: nat)
    ensures Pow2(a + b) == Pow2(a) * Pow2(b)
    decreases a
  {
    if a > 0 {
      Pow2Add(a - 1, b);
    }
  }

  lemma Pow2Of32()
    ensures Pow2(32) == INT_RANGE
  {
    assert Pow2(4) == 16;
    Pow2Add(4, 4);
    Pow2Add(8, 8);
    Pow2Add(16, 16);
  }

  /** Bitwise exclusive or of the low `bits` bits of `a` and `b`. */
  function Xor(a: nat, b: nat, bits: nat): (r: nat)
    ensures r < Pow2(bits)
    decreases bits
  {
    if bits == 0 then 0
    else (if a % 2 != b % 2 then 1 else 0) + 2 * Xor(a / 2, b / 2, bits - 1)
  }

  lemma {:induction false} XorWithZero(a: nat, bits: nat)
    requires a < Pow2(bits)
    ensures Xor(a, 0, bits) == a
    decreases bits
  {
    if bits > 0 {
      XorWithZero(a / 2, bits - 1);
    }
  }

  lemma {:induction false} XorWithOnes(a: nat, bits: nat)
    requires a < Pow2(bits)
    ensures Xor(a, Pow2(bits) - 1, bits) == Pow2(bits) - 1 - a
    decreases bits
  {
    if bits > 0 {
      var ones := Pow2(bits) - 1;
      assert ones % 2 == 1 && ones / 2 == Pow2(bits - 1) - 1;
      XorWithOnes(a / 2, bits - 1);
    }
  }

  /** `Int?.hashCode()`: the value, or 0 for null. */
  function NullableIntHash(v: Option<Int32>): (h: Int32)
    ensures v.None? ==> h == 0
  {
    match v
    case None => 0
    case Some(x) => x
  }

  /** The seven field hashes, in the order `hashCode()` combines them. */
  function FieldHashes(o: Options): (hs: seq<Int32>)
    ensures |hs| == 7
  {
    [o.cameraFacing, o.cameraFlashMode, ContentHashCode(o.barcodeFormats), NullableIntHash(o.minBarcodeWidth),
     (match o.barcodesSort case Some(c) => c.hash case None => 0),
     o.previewScaleType, LongHash(o.clearFocusDelay)]
  }

  /**
   `hashCode()`: `result` starts as the facing and each later field is
   folded in by `result = 31 * result + h`.
   */
  function HashCode(o: Options): Int32 {
    var hs := FieldHashes(o);
    Fold31(hs[0], hs[1..])
  }

  /**
   The combined hash is the base-31 polynomial of the field hashes, reduced
   into `Int` once; the format array enters through its own polynomial hash.
   */
  lemma HashCodeIsPolynomial(o: Options)
    ensures HashCode(o) == Wrap32(Poly(FieldHashes(o)))
  {
    var hs := FieldHashes(o);
    Fold31IsPolynomial(hs[0], hs[1..]);
  }

  /** The array's hash is the polynomial of its elements behind a leading 1. */
  lemma ContentHashCodeIsPolynomial(a: seq<Int32>)
    ensures ContentHashCode(a) == Wrap32(Poly([1] + a))
  {
    Fold31IsPolynomial(1, a);
    assert ([1] + a)[1..] == a;
  }

  /** The hashes the library's defaults give, and two pairs of options `equals` tells apart. */
  lemma DefaultOptionsHash()
    ensures var d := Build(NewBuilder());
            && ContentHashCode(d.barcodeFormats) == 31
            && LongHash(d.clearFocusDelay) == 5000
            && LongHash(-1) == 0
            && !Equals(d, Build(Apply(NewBuilder(), BarcodeFormats([Formats.FORMAT_QR_CODE]))))
            && Equals(d, Build(Apply(NewBuilder(), BarcodeFormats([]))))
  {
    var d := Build(NewBuilder());
    assert d.barcodeFormats[..0] == [];
    LongHashOfInt(5000);
    LongHashOfInt(-1);
  }
}
