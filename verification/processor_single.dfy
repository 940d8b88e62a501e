/**
 The barcode processor of the earlier revision (`processor/BarcodeProcessorSingle.kt`),
 built on the single-slot base: the detector handle built from the format
 list, `stop`, and the publication of results.

 Unlike the current revision, `stop` publishes nothing, and `onSuccess`
 runs the sort but publishes the unsorted list.
 */
module ProcessorSingle {
  import opened Common
  import SingleSlot
  import opened CentralComparator
  import opened BarcodeSort
  import opened Detector

  datatype State = State(slot: SingleSlot.Slot, formats: seq<int>, sort: Option<Sorter>, detector: Holder)

  /** Effects of the base class and of the detector/publication logic, in one trace. */
  datatype Effect =
    | Base(event: SingleSlot.Action<seq<RawBarcode>>)
    | Own(action: Action)

  datatype Step = Step(state: State, effects: seq<Effect>)

  function Lift(acts: seq<SingleSlot.Action<seq<RawBarcode>>>): (es: seq<Effect>)
    ensures |es| == |acts|
    ensures forall i :: 0 <= i < |acts| ==> es[i] == Base(acts[i])
  {
    if |acts| == 0 then [] else [Base(acts[0])] + Lift(acts[1..])
  }

  /** Construction: build the first detector; nothing is closed. */
  function New(formats: seq<int>, sort: Option<Sorter>, hasImageHook: bool): (st: Step)
    ensures !st.state.slot.IsProcessing() && !st.state.slot.cancelled
    ensures st.state.formats == formats && st.state.sort == sort
    ensures st.state.detector.Valid() && FormatsOf(st.state.detector.current.options) == formats
    ensures st.effects == [Own(CreateDetector(st.state.detector.current))]
  {
    OptionsRoundTrip(formats, AllFormats);
    var init := Init(formats);
    Step(State(SingleSlot.NewSlot(hasImageHook), formats, sort, init.holder), [Own(init.actions[0])])
  }

  /** Assigning `formats`: build a detector for them, close the previous one. */
  function SetFormats(st: State, formats: seq<int>): (r: Step)
    requires st.detector.Valid()
    ensures r.state == st.(formats := formats, detector := r.state.detector)
    ensures r.state.detector.Valid() && FormatsOf(r.state.detector.current.options) == formats
    ensures r.effects == [Own(CreateDetector(r.state.detector.current)), Own(CloseDetector(st.detector.current.id))]
  {
    OptionsRoundTrip(formats, AllFormats);
    var rebuilt := Rebuild(st.detector, formats);
    Step(st.(formats := formats, detector := rebuilt.holder), [Own(rebuilt.actions[0]), Own(rebuilt.actions[1])])
  }

  /** `stop()`: cancel the base's scope and close the detector; nothing is published. */
  function Stop(st: State): (r: Step)
    ensures r.state.slot.cancelled && r.state.slot.processing == st.slot.processing
    ensures r.state.detector == st.detector && r.state.formats == st.formats && r.state.sort == st.sort
    ensures r.effects == [Own(CloseDetector(st.detector.current.id))]
    ensures forall i :: 0 <= i < |r.effects| ==> !(r.effects[i].Own? && r.effects[i].action.Publish?)
  {
    Step(st.(slot := SingleSlot.Stop(st.slot)), [Own(CloseDetector(st.detector.current.id))])
  }

  /** `process(image, metadata)`, inherited. */
  function Process(st: State, image: ImageId, metadata: FrameMetadata): (r: Step)
    ensures r.state == st
    ensures st.slot.IsProcessing() || st.slot.cancelled ==> r.effects == []
  {
    var b := SingleSlot.Process<seq<RawBarcode>>(st.slot, image, metadata);
    Step(st, Lift(b.actions))
  }

  /**
   `onSuccess(results, frameMetadata)` as written: the centre-distance
   comparator receives the frame's metadata and the sort runs, but its
   result is dropped and the mapped list is published in detection order.
   An application comparator is left as it is.
   */
  function OnSuccess(st: State, results: seq<RawBarcode>, metadata: FrameMetadata): (r: Step)
    ensures r.effects == [Own(Publish(MapResults(results)))]
    ensures r.state.slot == st.slot && r.state.detector == st.detector && r.state.formats == st.formats
    ensures st.sort.None? || st.sort.value.CustomSort? ==> r.state.sort == st.sort
    ensures st.sort.Some? && st.sort.value.CentralSort? ==>
              r.state.sort.Some? && r.state.sort.value.CentralSort?
              && r.state.sort.value.central.frameMetadata == Some(metadata)
  {
    var barcodes := MapResults(results);
    match st.sort
    case None => Step(st, [Own(Publish(barcodes))])
    case Some(CustomSort(_)) => Step(st, [Own(Publish(barcodes))])
    case Some(CentralSort(cmp)) =>
      var sorted := Sort(SetFrameMetadata(cmp, metadata), barcodes);
      Step(st.(sort := Some(CentralSort(sorted.comparator))), [Own(Publish(barcodes))])
  }

  /** `onFailure(e)`: logged only. */
  function OnFailure(st: State, message: string): (r: Step)
    ensures r.state == st && r.effects == []
  {
    Step(st, [])
  }

  /**
   The base's completion listener followed by whichever hook it calls:
   with a successful task holding a result, what is published is exactly
   the mapped result, in detection order.
   */
  function Complete(st: State, metadata: FrameMetadata, task: SingleSlot.Task<seq<RawBarcode>>): (r: Step)
    ensures st.slot.hasImageHook && !st.slot.IsProcessing() ==> r.effects == [Base(SingleSlot.NullSlotCrash)]
    ensures !(st.slot.hasImageHook && !st.slot.IsProcessing()) ==> !r.state.slot.IsProcessing()
    ensures !(st.slot.hasImageHook && !st.slot.IsProcessing()) && task.isSuccessful && task.result.Some? ==>
              |r.effects| > 0 && r.effects[|r.effects| - 1] == Own(Publish(MapResults(task.result.value)))
    ensures !(task.isSuccessful && task.result.Some?) ==>
              forall i :: 0 <= i < |r.effects| ==> r.effects[i].Base?
  {
    var b := SingleSlot.Complete(st.slot, metadata, task);
    var after := st.(slot := b.slot);
    if st.slot.hasImageHook && !st.slot.IsProcessing() then Step(after, Lift(b.actions))
    else
      var last := b.actions[|b.actions| - 1];
      if last.Success? then
        var s := OnSuccess(after, last.result, last.metadata);
        Step(s.state, Lift(b.actions) + s.effects)
      else
        var f := OnFailure(after, last.message);
        Step(f.state, Lift(b.actions) + f.effects)
  }

  /**
   With the centre-distance sort configured, a boxless barcode detected
   before a boxed one is still published first, although the comparator
   orders it last.
   */
  lemma SortResultDiscarded(st: State)
    requires st.sort == Some(CentralSort(NewCentral()))
    ensures var none := RawBarcode("none", None);
            var boxed := RawBarcode("boxed", Some(Rect(0, 0, 10, 10)));
            var m := FrameMetadata(200, 200, 0, None);
            var published := OnSuccess(st, [none, boxed], m).effects[0].action.barcodes;
            && published == [FromRaw(none), FromRaw(boxed)]
            && Compare(SetFrameMetadata(NewCentral(), m), published[0], published[1]).order > 0
            && !SortedByRank(SetFrameMetadata(NewCentral(), m).UsedCentre(), published)
  {
    var none := RawBarcode("none", None);
    var boxed := RawBarcode("boxed", Some(Rect(0, 0, 10, 10)));
    var m := FrameMetadata(200, 200, 0, None);
    var published := OnSuccess(st, [none, boxed], m).effects[0].action.barcodes;
    assert published == [FromRaw(none), FromRaw(boxed)];
    var c := SetFrameMetadata(NewCentral(), m).UsedCentre();
    assert Rank(c, published[0]) == 1;
    assert Rank(c, published[1]) <= 0;
  }
}
