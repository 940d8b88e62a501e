/**
 The barcode processor of the current revision (`processor/BarcodeImageProcessor.kt`):
 the format list and the scanner handle built from it, `stop`, and the
 publication of detection results, mapped and optionally sorted.

 Its base class is not part of this model; the members declared here are.
 The sort is either the library's centre-distance comparator, which is
 given the frame metadata, or an application comparator, which is not.
 */
module ImageProcessor {
  import opened Common
  import Formats
  import opened CentralComparator
  import opened BarcodeSort
  import opened Detector

  /** `formats`, `barcodesSort` and the `scanner` handle. */
  datatype State = State(formats: seq<int>, sort: Option<Sorter>, scanner: Holder)

  datatype Step = Step(state: State, actions: seq<Action>)

  /** The constructor's default format list. */
  function DefaultFormats(): (fs: seq<int>)
    ensures fs == [Formats.FORMAT_EAN_13, Formats.FORMAT_EAN_8]
    ensures CreateOptions(fs) == Restricted(Formats.FORMAT_EAN_13, [Formats.FORMAT_EAN_8])
  {
    [Formats.FORMAT_EAN_13, Formats.FORMAT_EAN_8]
  }

  /** Construction: the scanner is built from the initial formats and nothing is closed. */
  function New(formats: seq<int>, sort: Option<Sorter>): (st: Step)
    ensures st.state.formats == formats && st.state.sort == sort
    ensures st.state.scanner.Valid() && st.state.scanner.current.options == CreateOptions(formats)
    ensures st.actions == [CreateDetector(st.state.scanner.current)]
  {
    var init := Init(formats);
    Step(State(formats, sort, init.holder), init.actions)
  }

  /** Assigning `formats`: store them, build a scanner for them, close the old scanner. */
  function SetFormats(st: State, formats: seq<int>): (r: Step)
    requires st.scanner.Valid()
    ensures r.state.formats == formats && r.state.sort == st.sort
    ensures r.state.scanner.Valid()
    ensures FormatsOf(r.state.scanner.current.options) == formats
    ensures r.actions == [CreateDetector(r.state.scanner.current), CloseDetector(st.scanner.current.id)]
    ensures r.state.scanner.current.id != st.scanner.current.id
  {
    OptionsRoundTrip(formats, AllFormats);
    var rebuilt := Rebuild(st.scanner, formats);
    Step(st.(formats := formats, scanner := rebuilt.holder), rebuilt.actions)
  }

  /** Assigning `barcodesSort`. */
  function SetSort(st: State, sort: Option<Sorter>): (r: State)
    ensures r.sort == sort && r.formats == st.formats && r.scanner == st.scanner
  {
    st.(sort := sort)
  }

  /**
   `stop()`: close the current scanner and publish an empty list. The
   handle is not replaced, so it stays current although closed.
   */
  function Stop(st: State): (r: Step)
    ensures r.state == st
    ensures r.actions == [CloseDetector(st.scanner.current.id), Publish([])]
  {
    Step(st, [CloseDetector(st.scanner.current.id), Publish([])])
  }

  /**
   `onSuccess(results, frameMetadata)`: map the detector's barcodes and
   publish them, after sorting when a sort is set. The centre-distance
   comparator is given this frame's metadata first; an application
   comparator is not, and `customRank` is the order it imposes.
   */
  function OnSuccess(st: State, results: seq<RawBarcode>, metadata: FrameMetadata, customRank: Barcode -> int)
    : (r: Step)
    ensures r.state.formats == st.formats && r.state.scanner == st.scanner
    ensures |r.actions| == 1 && r.actions[0].Publish?
    ensures multiset(r.actions[0].barcodes) == multiset(MapResults(results))
    ensures st.sort.None? ==> r.state == st && r.actions[0].barcodes == MapResults(results)
    ensures st.sort.Some? && st.sort.value.CentralSort? ==>
              var cmp := SetFrameMetadata(st.sort.value.central, metadata);
              && r.state.sort.Some? && r.state.sort.value.CentralSort?
              && r.state.sort.value.central.frameMetadata == Some(metadata)
              && SortedByRank(cmp.UsedCentre(), r.actions[0].barcodes)
    ensures st.sort.Some? && st.sort.value.CustomSort? ==>
              && r.state == st
              && SortedByKey(customRank, r.actions[0].barcodes)
  {
    var barcodes := MapResults(results);
    match st.sort
    case None => Step(st, [Publish(barcodes)])
    case Some(CentralSort(cmp)) =>
      var ready := SetFrameMetadata(cmp, metadata);
      SortIsSorted(ready, barcodes);
      var sorted := Sort(ready, barcodes);
      Step(st.(sort := Some(CentralSort(sorted.comparator))), [Publish(sorted.items)])
    case Some(CustomSort(_)) =>
      KeySortIsSorted(customRank, barcodes);
      Step(st, [Publish(KeySort(customRank, barcodes))])
  }

  /** With the centre-distance sort, results of equal rank are published in detection order. */
  lemma OnSuccessStable(st: State, results: seq<RawBarcode>, metadata: FrameMetadata, customRank: Barcode -> int, k: int)
    requires st.sort.Some? && st.sort.value.CentralSort?
    ensures var c := SetFrameMetadata(st.sort.value.central, metadata).UsedCentre();
            RankFilter(c, OnSuccess(st, results, metadata, customRank).actions[0].barcodes, k)
              == RankFilter(c, MapResults(results), k)
  {
    SortIsStable(SetFrameMetadata(st.sort.value.central, metadata), MapResults(results), k);
  }

  /** With an application sort, results of equal rank are published in detection order. */
  lemma OnSuccessCustomStable(st: State, results: seq<RawBarcode>, metadata: FrameMetadata,
                              customRank: Barcode -> int, k: int)
    requires st.sort.Some? && st.sort.value.CustomSort?
    ensures KeyFilter(customRank, OnSuccess(st, results, metadata, customRank).actions[0].barcodes, k)
              == KeyFilter(customRank, MapResults(results), k)
  {
    KeySortIsStable(customRank, MapResults(results), k);
  }

  /** `onFailure(e)`: logged only; nothing is published and nothing changes. */
  function OnFailure(st: State, message: string): (r: Step)
    ensures r.state == st && r.actions == []
  {
    Step(st, [])
  }
}
