/**
 The scanner interface's one default method (`KBarcode.kt`): `setOptions`
 hands the fields of an `Options` to the individual setters. The calls are
 returned as a trace.

 The interface reads `options.scaleType` where the record's field is
 named `previewScaleType`; the two are taken to be the same field.
 */
module KBarcode {
  import opened Common
  import opened Options

  /** A call of one of the scanner interface's setters, with its argument. */
  datatype SetterCall =
    | SetCameraFacing(facing: Int32)
    | SetBarcodeFormats(formats: seq<Int32>)
    | SetMinBarcodeWidth(width: Option<Int32>)
    | SetBarcodesSort(sort: Option<ComparatorRef>)
    | SetScaleType(scaleType: Int32)

  /** The fields `setOptions` reads from its argument. */
  predicate SameForwardedFields(a: Options, b: Options) {
    && a.cameraFacing == b.cameraFacing
    && a.barcodeFormats == b.barcodeFormats
    && a.minBarcodeWidth == b.minBarcodeWidth
    && a.barcodesSort == b.barcodesSort
    && a.previewScaleType == b.previewScaleType
  }

  /**
   `setOptions(options)`: five setter calls, once each and in this order,
   each receiving exactly the stored value.
   */
  function SetOptions(o: Options): (calls: seq<SetterCall>)
    ensures |calls| == 5
    ensures calls[0].SetCameraFacing? && calls[1].SetBarcodeFormats? && calls[2].SetMinBarcodeWidth?
    ensures calls[3].SetBarcodesSort? && calls[4].SetScaleType?
    ensures calls[0].facing == o.cameraFacing && calls[1].formats == o.barcodeFormats
    ensures calls[2].width == o.minBarcodeWidth && calls[3].sort == o.barcodesSort
    ensures calls[4].scaleType == o.previewScaleType
  {
    [SetCameraFacing(o.cameraFacing),
     SetBarcodeFormats(o.barcodeFormats),
     SetMinBarcodeWidth(o.minBarcodeWidth),
     SetBarcodesSort(o.barcodesSort),
     SetScaleType(o.previewScaleType)]
  }

  /**
   Two option records lead to the same calls exactly when they agree on the
   five forwarded fields: the flash mode and the clear-focus delay never
   reach the scanner through `setOptions`, and nothing else is lost.
   */
  lemma SetOptionsForwardsExactly(a: Options, b: Options)
    ensures SetOptions(a) == SetOptions(b) <==> SameForwardedFields(a, b)
  {
    if SetOptions(a) == SetOptions(b) {
      assert SetOptions(a)[0] == SetOptions(b)[0];
      assert SetOptions(a)[1] == SetOptions(b)[1];
      assert SetOptions(a)[2] == SetOptions(b)[2];
      assert SetOptions(a)[3] == SetOptions(b)[3];
      assert SetOptions(a)[4] == SetOptions(b)[4];
    }
  }

  /**
   Options built with only a flash mode and a delay set give the same calls
   as the builder's defaults.
   */
  lemma FlashAndDelayNotForwarded(mode: Int32, delay: Int64)
    ensures SetOptions(Build(ApplyAll(NewBuilder(), [CameraFlashMode(mode), ClearFocusDelay(delay)])))
            == SetOptions(Build(NewBuilder()))
  {
    var ss := [CameraFlashMode(mode), ClearFocusDelay(delay)];
    assert ss[..1][..0] == [] && ss[..1] == [CameraFlashMode(mode)];
    assert ApplyAll(NewBuilder(), ss[..1]) == NewBuilder().(cameraFlashMode := mode);
    SetOptionsForwardsExactly(Build(ApplyAll(NewBuilder(), ss)), Build(NewBuilder()));
  }
}
