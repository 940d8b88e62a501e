/**
 The single-slot frame processor (`processor/base/VisionImageProcessorSingleBase.kt`).

 At most one frame is under detection: `process` only launches detection
 while the slot is empty, detection fills the slot with the frame, and the
 task's completion hands the image back, empties the slot and then calls
 exactly one of the success or failure hooks. The coroutine launch and the
 detector task are explicit: `process` emits a `Launch`, the launched body
 is `StartDetection`, and the task's completion is `Complete`.
 */
module SingleSlot {
  import opened Common

  /** The image under detection and the metadata it arrived with. */
  datatype Frame = Frame(image: ImageId, metadata: FrameMetadata)

  /**
   `processingImage`, whether the coroutine scope has been cancelled, and
   whether an `onImageProcessed` hook is installed.
   */
  datatype Slot = Slot(processing: Option<Frame>, cancelled: bool, hasImageHook: bool) {
    /** `isProcessing()`. */
    predicate IsProcessing() { processing.Some? }
  }

  function NewSlot(hasImageHook: bool): (s: Slot)
    ensures !s.IsProcessing() && !s.cancelled && s.hasImageHook == hasImageHook
  {
    Slot(None, false, hasImageHook)
  }

  /** A detector task as its completion listener sees it. */
  datatype Task<T> = Task(isSuccessful: bool, result: Option<T>, exception: Option<string>)

  datatype Action<T> =
    /** A coroutine that will run `startDetection` for this frame. */
    | Launch(frame: Frame)
    /** The detector is asked to process the frame. */
    | Detect(frame: Frame)
    /** `onImageProcessed` is called with the image. */
    | ImageProcessed(image: ImageId)
    | Success(result: T, metadata: FrameMetadata)
    | Failure(message: string)
    /** A `NullPointerException` escapes the completion listener. */
    | NullSlotCrash

  datatype Step<T> = Step(slot: Slot, actions: seq<Action<T>>)

  /** `process(image, frameMetadata)`: launch detection only into an empty slot of a live scope. */
  function Process<T>(s: Slot, image: ImageId, metadata: FrameMetadata): (st: Step<T>)
    ensures st.slot == s
    ensures s.IsProcessing() || s.cancelled ==> st.actions == []
    ensures !s.IsProcessing() && !s.cancelled ==> st.actions == [Launch(Frame(image, metadata))]
  {
    if !s.IsProcessing() && !s.cancelled then Step(s, [Launch(Frame(image, metadata))])
    else Step(s, [])
  }

  /** `stop()`: cancel the scope, so nothing more is launched. */
  function Stop(s: Slot): (r: Slot)
    ensures r.cancelled && r.processing == s.processing && r.hasImageHook == s.hasImageHook
  {
    s.(cancelled := true)
  }

  /** `startDetection(image, metadata)`: occupy the slot with exactly this frame, then detect. */
  function StartDetection<T>(s: Slot, image: ImageId, metadata: FrameMetadata): (st: Step<T>)
    ensures st.slot.IsProcessing() && st.slot.processing.value == Frame(image, metadata)
    ensures st.slot.cancelled == s.cancelled && st.slot.hasImageHook == s.hasImageHook
    ensures st.actions == [Detect(Frame(image, metadata))]
  {
    Step(s.(processing := Some(Frame(image, metadata))), [Detect(Frame(image, metadata))])
  }

  /**
   The completion listener registered by `startDetection` for a frame with
   `metadata`: hand the slot's image to the hook, empty the slot, then
   call the success hook with a present result of a successful task and
   the failure hook otherwise (with the task's exception, or "Unknown").
   With a hook installed and the slot already empty, the `!!` throws.
   */
  function Complete<T>(s: Slot, metadata: FrameMetadata, task: Task<T>): (st: Step<T>)
    ensures s.hasImageHook && !s.IsProcessing() ==> st == Step(s, [NullSlotCrash])
    ensures !(s.hasImageHook && !s.IsProcessing()) ==>
              && !st.slot.IsProcessing()
              && st.slot.cancelled == s.cancelled && st.slot.hasImageHook == s.hasImageHook
              && |st.actions| == (if s.hasImageHook then 2 else 1)
              && (s.hasImageHook ==> st.actions[0] == ImageProcessed(s.processing.value.image))
              && (task.isSuccessful && task.result.Some? <==> st.actions[|st.actions| - 1].Success?)
              && (st.actions[|st.actions| - 1].Success? ==>
                    st.actions[|st.actions| - 1] == Success(task.result.value, metadata))
              && (!st.actions[|st.actions| - 1].Success? ==>
                    st.actions[|st.actions| - 1] == Failure(task.exception.GetOr("Unknown")))
  {
    if s.hasImageHook && s.processing.None? then Step(s, [NullSlotCrash])
    else
      var released := if s.hasImageHook then [ImageProcessed(s.processing.value.image)] else [];
      var outcome := if task.isSuccessful && task.result.Some? then Success(task.result.value, metadata)
                     else Failure(task.exception.GetOr("Unknown"));
      Step(s.(processing := None), released + [outcome])
  }

  /** Counts the success and failure hooks called in a trace. */
  function Outcomes<T>(actions: seq<Action<T>>): nat {
    if |actions| == 0 then 0
    else (if actions[0].Success? || actions[0].Failure? then 1 else 0) + Outcomes(actions[1..])
  }

  /** Exactly one hook runs per completion that does not crash. */
  lemma {:induction false} OneOutcomePerCompletion<T>(s: Slot, metadata: FrameMetadata, task: Task<T>)
    requires !(s.hasImageHook && !s.IsProcessing())
    ensures Outcomes(Complete(s, metadata, task).actions) == 1
  {
    var acts := Complete(s, metadata, task).actions;
    if s.hasImageHook {
      assert acts[1..][1..] == [];
      assert Outcomes(acts[1..]) == 1 + Outcomes(acts[1..][1..]);
      assert acts[0].ImageProcessed?;
    } else {
      assert acts[1..] == [];
    }
  }

  /**
   One frame through an idle processor: `process` launches it, the launched
   detection occupies the slot so a second frame is refused, and completion
   returns that same image to the hook, passes that frame's metadata to the
   success hook and leaves the slot empty again.
   */
  lemma FrameRoundTrip<T>(image: ImageId, metadata: FrameMetadata, other: ImageId, otherMeta: FrameMetadata, result: T)
    ensures var s0 := NewSlot(true);
            var p := Process<T>(s0, image, metadata);
            var d := StartDetection<T>(p.slot, image, metadata);
            var refused := Process<T>(d.slot, other, otherMeta);
            var c := Complete(d.slot, metadata, Task(true, Some(result), None));
            && p.actions == [Launch(Frame(image, metadata))]
            && refused.actions == []
            && c.actions == [ImageProcessed(image), Success(result, metadata)]
            && c.slot == s0
  {
  }

  /** After `stop` no frame is admitted, whatever the slot holds. */
  lemma StoppedAdmitsNothing<T>(s: Slot, image: ImageId, metadata: FrameMetadata)
    ensures Process<T>(Stop(s), image, metadata).actions == []
  {
  }
}
