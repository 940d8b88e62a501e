/**
 Barcode symbologies and the per-symbology minimum pixel width the detector
 needs (`extension/_Int.kt`), together with the "largest requirement wins"
 selection the scanner makes over a list of configured formats.
 */
module Formats {
  import opened Common

  /** Format codes as the detector library publishes them (`Barcode.FORMAT_*`). */
  const FORMAT_UNKNOWN: int := -1
  const FORMAT_ALL_FORMATS: int := 0
  const FORMAT_CODE_128: int := 1
  const FORMAT_CODE_39: int := 2
  const FORMAT_CODE_93: int := 4
  const FORMAT_CODABAR: int := 8
  const FORMAT_DATA_MATRIX: int := 16
  const FORMAT_EAN_13: int := 32
  const FORMAT_EAN_8: int := 64
  const FORMAT_ITF: int := 128
  const FORMAT_QR_CODE: int := 256
  const FORMAT_UPC_A: int := 512
  const FORMAT_UPC_E: int := 1024
  const FORMAT_PDF417: int := 2048
  const FORMAT_AZTEC: int := 4096

  /** Characters assumed in a one-dimensional, character-based barcode. */
  const NUM_CHARS: int := 20
  /** Cells assumed along one side of a matrix barcode. */
  const NUM_CELLS: int := 200
  /** 2px per unit, 17 units per word, 34 words: the PDF417 figure. */
  const BARCODE_FORMAT_ALL_MIN_WIDTH: int := 2 * 17 * 34

  /** Linear symbologies whose width is counted in characters. */
  predicate IsCharBased(format: int) {
    format == FORMAT_CODE_128 || format == FORMAT_CODE_39 || format == FORMAT_CODE_93
    || format == FORMAT_CODABAR || format == FORMAT_ITF
  }

  /** Two-dimensional symbologies counted in cells, except PDF417. */
  predicate IsMatrix(format: int) {
    format == FORMAT_DATA_MATRIX || format == FORMAT_QR_CODE || format == FORMAT_AZTEC
  }

  /** EAN/UPC symbologies counted in fixed-width modules. */
  predicate IsProductCode(format: int) {
    format == FORMAT_EAN_13 || format == FORMAT_EAN_8 || format == FORMAT_UPC_A || format == FORMAT_UPC_E
  }

  /** A symbology that the table lists explicitly. */
  predicate IsListed(format: int) {
    IsCharBased(format) || IsMatrix(format) || IsProductCode(format) || format == FORMAT_PDF417
  }

  /**
   `Int.getMinWidth()`: the minimum image width, in pixels, for the format.
   The unknown code, the all-formats code and every unlisted code fall back
   to the most demanding figure.
   */
  function MinWidth(format: int): (w: int)
    ensures 0 < w <= BARCODE_FORMAT_ALL_MIN_WIDTH
    ensures w == BARCODE_FORMAT_ALL_MIN_WIDTH <==> !IsListed(format) || format == FORMAT_PDF417
    ensures IsCharBased(format) ==> w % NUM_CHARS == 0
    ensures IsMatrix(format) ==> w == NUM_CELLS
    ensures IsProductCode(format) ==> w % 2 == 0 && w <= 2 * 95
  {
    if format == FORMAT_UNKNOWN || format == FORMAT_ALL_FORMATS then BARCODE_FORMAT_ALL_MIN_WIDTH
    else if format == FORMAT_CODE_128 then 11 * NUM_CHARS
    else if format == FORMAT_CODE_39 then 16 * NUM_CHARS
    else if format == FORMAT_CODE_93 then 9 * NUM_CHARS
    else if format == FORMAT_CODABAR then 11 * NUM_CHARS
    else if format == FORMAT_DATA_MATRIX then 1 * NUM_CELLS
    else if format == FORMAT_EAN_13 then 2 * 95
    else if format == FORMAT_EAN_8 then 2 * 67
    else if format == FORMAT_ITF then 7 * NUM_CHARS
    else if format == FORMAT_QR_CODE then 1 * NUM_CELLS
    else if format == FORMAT_UPC_A then 2 * 95
    else if format == FORMAT_UPC_E then 2 * 51
    else if format == FORMAT_PDF417 then 2 * 17 * 34
    else if format == FORMAT_AZTEC then 1 * NUM_CELLS
    else BARCODE_FORMAT_ALL_MIN_WIDTH
  }

  /** The figures the table pins for the product codes. */
  lemma ProductCodeWidths()
    ensures MinWidth(FORMAT_EAN_13) == 190 && MinWidth(FORMAT_UPC_A) == 190
    ensures MinWidth(FORMAT_EAN_8) == 134 && MinWidth(FORMAT_UPC_E) == 102
    ensures MinWidth(FORMAT_PDF417) == 1156 == BARCODE_FORMAT_ALL_MIN_WIDTH
  {
  }

  /**
   Index of the element `maxByOrNull { it.getMinWidth() }` picks: the first
   element whose requirement is the largest.
   */
  function MaxByIndex(formats: seq<int>): (i: int)
    requires |formats| > 0
    ensures 0 <= i < |formats|
    ensures forall j :: 0 <= j < |formats| ==> MinWidth(formats[j]) <= MinWidth(formats[i])
    ensures forall j :: 0 <= j < i ==> MinWidth(formats[j]) < MinWidth(formats[i])
  {
    if |formats| == 1 then 0
    else
      var k := MaxByIndex(formats[..|formats| - 1]);
      if MinWidth(formats[k]) < MinWidth(formats[|formats| - 1]) then |formats| - 1 else k
  }

  /** `formats.maxByOrNull { it.getMinWidth() }`. */
  function MaxByMinWidth(formats: seq<int>): (r: Option<int>)
    ensures r.None? <==> |formats| == 0
    ensures r.Some? ==> r.value in formats
    ensures r.Some? ==> forall f :: f in formats ==> MinWidth(f) <= MinWidth(r.value)
  {
    if |formats| == 0 then None else Some(formats[MaxByIndex(formats)])
  }

  /**
   The width requirement of a list of formats: the largest per-format
   figure, or the all-formats figure when the list is empty.
   */
  function RequiredWidth(formats: seq<int>): int {
    match MaxByMinWidth(formats)
    case Some(f) => MinWidth(f)
    case None => BARCODE_FORMAT_ALL_MIN_WIDTH
  }

  /** Satisfying the most demanding format satisfies every configured one. */
  lemma RequiredWidthCoversEveryFormat(formats: seq<int>)
    ensures 0 < RequiredWidth(formats) <= BARCODE_FORMAT_ALL_MIN_WIDTH
    ensures forall f :: f in formats ==> MinWidth(f) <= RequiredWidth(formats)
    ensures |formats| > 0 ==> exists f :: f in formats && MinWidth(f) == RequiredWidth(formats)
  {
  }

  /** Any mix that contains PDF417 (or the all-formats code) needs the full width. */
  lemma PdfDominates(formats: seq<int>)
    requires FORMAT_PDF417 in formats || FORMAT_ALL_FORMATS in formats
    ensures RequiredWidth(formats) == BARCODE_FORMAT_ALL_MIN_WIDTH
  {
    var r := MaxByMinWidth(formats);
    if FORMAT_PDF417 in formats {
      assert MinWidth(FORMAT_PDF417) <= MinWidth(r.value);
    } else {
      assert MinWidth(FORMAT_ALL_FORMATS) <= MinWidth(r.value);
    }
  }

  /** The scanner's test pair: PDF417 together with EAN-8 needs PDF417's width. */
  lemma MixedFormatsExample()
    ensures RequiredWidth([FORMAT_PDF417, FORMAT_EAN_8]) == 1156
    ensures RequiredWidth([FORMAT_EAN_13, FORMAT_EAN_8]) == 190
  {
    PdfDominates([FORMAT_PDF417, FORMAT_EAN_8]);
    assert MinWidth(FORMAT_EAN_13) == 190;
  }
}
