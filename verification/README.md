# KBarcode core, modelled in Dafny

KBarcode is an Android library that runs ML Kit barcode detection on the
camera's preview frames. A `BarcodeScanner` owns the Camera2 source and a
barcode processor. It creates an image reader whose surface receives the
camera frames, and it hands each frame to the processor unless the
processor is busy or the scanner is paused. The processor publishes the
detected barcodes, optionally sorted by a comparator. `BarcodeView` wraps
the scanner for layouts: it converts XML attributes into scanner settings
and places the preview inside the view. `Options` is the configuration
record, and `KBarcode.Scanner.setOptions` forwards it to the setters.

The model is written as pure transition functions. Each call or platform
callback takes the component's state and returns the state afterwards
together with a trace of what the call did, in order: handles opened or
closed, requests sent, failures reported, lists published. Platform
objects (cameras, sessions, surfaces, images, detector clients) are
opaque ids. Whatever the code reads from the platform but does not
control is a parameter. That covers:

- the camera list and its characteristics;
- synchronous failures of the Camera2 calls: the camera manager's list and characteristics reads, `openCamera`, `createCaptureSession`, `createCaptureRequest`, `setRepeatingRequest`, `stopRepeating` and `capture`;
- the display rotation;
- the orientation of the view;
- whether the processor is still busy with a frame.

Kotlin `Int` arithmetic is written out where the model relies on it.
Division truncates toward zero and `Float.toInt()` truncates and
saturates. The `Options` hash and the layout's `right - left` spans wrap
around modulo 2^32. Other `Int` arithmetic (rectangle centres and widths,
point distances) is exact. `Float` and `Double` values are taken as exact
reals.

Modules follow the source files:

| module | file |
|---|---|
| `Common` (common.dfy) | shared records, Kotlin integer semantics |
| `Formats` (formats.dfy) | `extension/_Int.kt` |
| `CentralComparator` (comparator.dfy) | `processor/sort/CentralBarcodeComparator.kt` |
| `BarcodeSort` (barcode_sort.dfy) | `sortedWith` on the published list |
| `Detector` (detector.dfy) | detector options and handle replacement in both processors |
| `SingleSlot` (single_base.dfy) | `processor/base/VisionImageProcessorSingleBase.kt` |
| `ImageProcessor` (image_processor.dfy) | `processor/BarcodeImageProcessor.kt` |
| `ProcessorSingle` (processor_single.dfy) | `processor/BarcodeProcessorSingle.kt` |
| `CameraSource` (camera_source.dfy) | `camera/Camera2Source.kt` |
| `Scanner` (scanner.dfy) | `BarcodeScanner.kt` |
| `Options` (options.dfy) | `Options.kt` |
| `KBarcode` (kbarcode.dfy) | `KBarcode.kt` |
| `BarcodeView` (barcode_view.dfy) | `BarcodeView.kt` |

Some behaviour of the code is stated as a lemma about the code as written
and not corrected, because the intended behaviour is not evident:

- A camera-feature change on a started scanner goes through `release()`.
  That call closes the processor's detector, and the following `start()`
  never builds a new one (`Scanner.FeatureChangeKeepsClosedDetector`).
- Starting again replaces the image reader without closing the old one
  (`Scanner.RestartLeavesPreviousReaderOpen`).
- A display rotation outside the four `Surface.ROTATION_*` values makes a
  `!!` throw inside the image listener, before the image is closed.
- `KBarcode.Scanner.setOptions` forwards neither the flash mode nor the
  clear-focus delay (`KBarcode.FlashAndDelayNotForwarded`).
- Each `catch` list in `Camera2Source` is different, and an exception
  outside the list escapes. An `IllegalStateException` from `openCamera`
  leaves the source marked as opening, so later starts are ignored
  (`CameraSource.EscapedOpenBlocksStart`). A `SecurityException` from
  `createCaptureSession` or `setRepeatingRequest` escapes too. The
  `stopRepeating` and `capture` calls of the focus requests are not inside
  any `try`. The same holds for `createCaptureRequest` when the focus
  requests call it, and for the camera manager reads in `selectCamera`,
  `getOutputSize` and the characteristics getters. Only
  `createRepeatingRequest` calls these inside a `try`.
- `KBarcode.Scanner.setOptions` reads `options.scaleType`
  (`KBarcode.kt:63`), but the `Options` record names that field
  `previewScaleType` (`Options.kt`). The model takes them to be the same
  field and forwards `previewScaleType`.

## Model

| member | source | states |
|---|---|---|
| Common.KotlinDiv | kbarcode/src/main/java/uk/co/brightec/kbarcode/BarcodeView.kt:310-315 | the quotient of `Int` division truncates toward zero, so the remainder has the dividend's sign and is smaller than the divisor |
| Common.FloatToInt | kbarcode/src/main/java/uk/co/brightec/kbarcode/BarcodeScanner.kt:276 | `Float.toInt()` truncates toward zero inside `Int`'s range and saturates to `Int.MIN_VALUE` / `Int.MAX_VALUE` outside it |
| Common.MapResults | kbarcode/src/main/java/uk/co/brightec/kbarcode/processor/BarcodeImageProcessor.kt:58 | the mapped list has one wrapped barcode per detector result, at the same position |
| Formats.MinWidth | kbarcode/src/main/java/uk/co/brightec/kbarcode/extension/_Int.kt:15-35 | every format needs a positive width of at most the all-formats width 1156; exactly PDF417, the all-formats and unknown codes, and unlisted codes get 1156; character-based codes get a multiple of 20; matrix codes get 200; EAN/UPC codes get an even width of at most 190 |
| Formats.ProductCodeWidths | kbarcode/src/main/java/uk/co/brightec/kbarcode/extension/_Int.kt:22-33 | EAN-13 and UPC-A need 190 px, EAN-8 needs 134, UPC-E needs 102, and PDF417 needs 1156, the all-formats width |
| Formats.MaxByIndex | kbarcode/src/main/java/uk/co/brightec/kbarcode/BarcodeScanner.kt:273 | picks a format whose width is the maximum over the list, the first such one |
| Formats.MaxByMinWidth | kbarcode/src/main/java/uk/co/brightec/kbarcode/BarcodeScanner.kt:273 | null exactly for an empty list; otherwise a listed format whose width no listed format exceeds |
| Formats.RequiredWidthCoversEveryFormat | kbarcode/src/main/java/uk/co/brightec/kbarcode/BarcodeScanner.kt:271-275 | the width the scanner requires is positive and at most 1156, meets every configured format's need, and is attained by one of them when any is configured |
| Formats.PdfDominates | kbarcode/src/main/java/uk/co/brightec/kbarcode/extension/_Int.kt:16-28 | any list that contains PDF417 or the all-formats code requires the full 1156 px |
| Formats.MixedFormatsExample | kbarcode/src/test/java/uk/co/brightec/kbarcode/BarcodeScannerTest.kt:1023-1034 | PDF417 with EAN-8 requires 1156 px; EAN-13 with EAN-8 requires 190 |
| CentralComparator.DistSq | kbarcode/src/main/java/uk/co/brightec/kbarcode/processor/sort/CentralBarcodeComparator.kt:20-24 | the squared distance the comparison orders by is non-negative and zero only between equal points |
| CentralComparator.FrameCentre | kbarcode/src/main/java/uk/co/brightec/kbarcode/processor/sort/CentralBarcodeComparator.kt:9-11 | the frame centre is half the frame's width and height, rounded down |
| CentralComparator.NewCentral | kbarcode/src/main/java/uk/co/brightec/kbarcode/processor/sort/CentralBarcodeComparator.kt:9-11 | a fresh comparator has neither frame metadata nor a centre, so it cannot compare two boxed barcodes yet |
| CentralComparator.SetFrameMetadata | kbarcode/src/main/java/uk/co/brightec/kbarcode/processor/BarcodeImageProcessor.kt:61-63 | after the processor assigns the frame metadata the comparator can compare; a centre already fixed is kept, otherwise the new frame's centre will be used |
| CentralComparator.Compare | kbarcode/src/main/java/uk/co/brightec/kbarcode/processor/sort/CentralBarcodeComparator.kt:13-27 | as written: fails before any frame metadata only when both barcodes are boxed; a boxless first argument compares greater, a boxless second argument smaller; two boxed barcodes order by distance, nearer being greater |
| CentralComparator.CompareLessMatchesRank | kbarcode/src/main/java/uk/co/brightec/kbarcode/processor/sort/CentralBarcodeComparator.kt:13-27 | `compare(a, b) < 0` holds exactly when `a` ranks below `b`, where boxed barcodes rank by decreasing distance from the centre and boxless ones rank highest; the centre used never changes afterwards |
| CentralComparator.BoxlessPairNotAntisymmetric | kbarcode/src/main/java/uk/co/brightec/kbarcode/processor/sort/CentralBarcodeComparator.kt:17 | two boxless barcodes each compare greater than the other, so the comparator as written is not antisymmetric |
| CentralComparator.CompareFixed | kbarcode/src/main/java/uk/co/brightec/kbarcode/processor/sort/CentralBarcodeComparator.kt:13-27 | corrected comparator: two boxless barcodes compare equal and leave the state alone; it fails exactly when both are boxed and no frame metadata was ever assigned |
| CentralComparator.CompareFixedIsRankOrder | kbarcode/src/main/java/uk/co/brightec/kbarcode/processor/sort/CentralBarcodeComparator.kt:13-27 | the corrected comparator is the sign of the rank difference, hence antisymmetric for every pair |
| CentralComparator.CorrectionKeepsLessTest | kbarcode/src/main/java/uk/co/brightec/kbarcode/processor/sort/CentralBarcodeComparator.kt:13-27 | the corrected and the as-written comparator fail in the same cases, agree on `< 0` and on the state they leave, and are equal unless both barcodes lack a box |
| CentralComparator.CentreFixedByFirstUse | kbarcode/src/main/java/uk/co/brightec/kbarcode/processor/sort/CentralBarcodeComparator.kt:9-11 | once a boxed comparison has used a centre, later frame metadata does not move it (the `lazy` centre) |
| CentralComparator.CompareFixedNext | kbarcode/src/main/java/uk/co/brightec/kbarcode/processor/sort/CentralBarcodeComparator.kt:9-27 | the corrected comparator orders by rank, keeps the frame metadata, and fixes the centre exactly when it compares two boxed barcodes |
| CentralComparator.CompareExamples | kbarcode/src/androidTest/java/uk/co/brightec/kbarcode/processor/sort/CentralBarcodeComparatorTest.kt:28-121 | on a 200 x 200 frame a nearer box compares greater, a farther one smaller, equal boxes compare 0, and a boxless barcode compares greater than a boxed one |
| BarcodeSort.Insert | kbarcode/src/main/java/uk/co/brightec/kbarcode/processor/BarcodeImageProcessor.kt:64 | one insertion step adds exactly the new element to the list (as a multiset) and keeps the comparator's centre and metadata |
| BarcodeSort.InsertFixesCentre | kbarcode/src/main/java/uk/co/brightec/kbarcode/processor/sort/CentralBarcodeComparator.kt:9-11 | an insertion fixes the lazy centre exactly when it compares two boxed barcodes, and it keeps the count of boxed barcodes |
| BarcodeSort.InsertKeepsSorted | kbarcode/src/main/java/uk/co/brightec/kbarcode/processor/BarcodeImageProcessor.kt:64 | inserting into a list sorted by rank leaves it sorted by rank |
| BarcodeSort.InsertAppendsToRun | kbarcode/src/main/java/uk/co/brightec/kbarcode/processor/BarcodeImageProcessor.kt:64 | inserting appends the element behind the barcodes of equal rank and leaves the barcodes of every other rank in their order |
| BarcodeSort.Sort | kbarcode/src/main/java/uk/co/brightec/kbarcode/processor/BarcodeImageProcessor.kt:64 | `sortedWith` returns a permutation of its input; the comparator afterwards has a fixed centre exactly when one was fixed before or two boxed barcodes were compared |
| BarcodeSort.SortIsSorted | kbarcode/src/main/java/uk/co/brightec/kbarcode/processor/BarcodeImageProcessor.kt:64 | the sorted list ascends in comparator order, so the most central barcode comes last and boxless ones after it |
| BarcodeSort.SortIsStable | kbarcode/src/main/java/uk/co/brightec/kbarcode/processor/BarcodeImageProcessor.kt:64 | the sort is stable: barcodes of equal rank keep their detection order |
| BarcodeSort.KeyInsert | kbarcode/src/main/java/uk/co/brightec/kbarcode/processor/BarcodeImageProcessor.kt:64 | inserting under an application comparator adds exactly the new element (as a multiset) |
| BarcodeSort.KeySort | kbarcode/src/main/java/uk/co/brightec/kbarcode/processor/BarcodeImageProcessor.kt:64 | `sortedWith` under an application comparator returns a permutation of its input |
| BarcodeSort.KeyInsertKeepsSorted | kbarcode/src/main/java/uk/co/brightec/kbarcode/processor/BarcodeImageProcessor.kt:64 | inserting into a list sorted by the application comparator's rank leaves it sorted |
| BarcodeSort.KeyInsertAppendsToRun | kbarcode/src/main/java/uk/co/brightec/kbarcode/processor/BarcodeImageProcessor.kt:64 | inserting appends the element behind the barcodes of equal rank and leaves every other rank's barcodes in order |
| BarcodeSort.KeySortIsSorted | kbarcode/src/main/java/uk/co/brightec/kbarcode/processor/BarcodeImageProcessor.kt:64 | under an application comparator the sorted list ascends in its order |
| BarcodeSort.KeySortIsStable | kbarcode/src/main/java/uk/co/brightec/kbarcode/processor/BarcodeImageProcessor.kt:64 | under an application comparator the sort is stable: barcodes of equal rank keep their detection order |
| BarcodeSort.InsertIsKeyInsert | kbarcode/src/main/java/uk/co/brightec/kbarcode/processor/BarcodeImageProcessor.kt:64 | an insertion with the centre-distance comparator places the element where the keyed insertion by its rank does |
| BarcodeSort.SortIsKeySort | kbarcode/src/main/java/uk/co/brightec/kbarcode/processor/BarcodeImageProcessor.kt:64 | the centre-distance sort equals the keyed sort by rank from the centre used, so the comparator's state does not affect the order |
| Detector.CreateOptions | kbarcode/src/main/java/uk/co/brightec/kbarcode/processor/BarcodeImageProcessor.kt:75-86 | an empty format list leaves the builder unrestricted (all formats); otherwise the first format and the rest are passed separately |
| Detector.OptionsRoundTrip | kbarcode/src/main/java/uk/co/brightec/kbarcode/processor/BarcodeImageProcessor.kt:75-86 | the split neither loses nor reorders formats, and every option value comes from exactly one format list |
| Detector.Init | kbarcode/src/main/java/uk/co/brightec/kbarcode/processor/BarcodeImageProcessor.kt:34-35 | the property initialiser creates the first handle with the initial formats and closes nothing |
| Detector.Rebuild | kbarcode/src/main/java/uk/co/brightec/kbarcode/processor/BarcodeImageProcessor.kt:28-39 | assigning formats creates a new handle for them and then closes the old one |
| Detector.RebuildCounts | kbarcode/src/main/java/uk/co/brightec/kbarcode/processor/BarcodeImageProcessor.kt:28-39 | one reassignment creates exactly the new handle and closes exactly the replaced one, nothing else |
| Detector.Run | kbarcode/src/main/java/uk/co/brightec/kbarcode/processor/BarcodeImageProcessor.kt:28-39 | after a sequence of assignments the current handle carries the last list's options and one handle was created per assignment |
| Detector.EveryReplacedHandleClosedOnce | kbarcode/src/main/java/uk/co/brightec/kbarcode/processor/BarcodeImageProcessor.kt:28-39 | over any sequence of reassignments every handle is created once, every replaced handle is closed exactly once, and the current one stays open |
| SingleSlot.NewSlot | kbarcode/src/main/java/uk/co/brightec/kbarcode/processor/base/VisionImageProcessorSingleBase.kt:21-26 | a new processor has no frame under detection and a live scope |
| SingleSlot.Process | kbarcode/src/main/java/uk/co/brightec/kbarcode/processor/base/VisionImageProcessorSingleBase.kt:36-45 | a frame launches detection exactly when no frame is under detection and the scope is live; otherwise it is dropped |
| SingleSlot.Stop | kbarcode/src/main/java/uk/co/brightec/kbarcode/processor/base/VisionImageProcessorSingleBase.kt:47-50 | `stop()` cancels the scope and leaves any frame under detection in place |
| SingleSlot.StartDetection | kbarcode/src/main/java/uk/co/brightec/kbarcode/processor/base/VisionImageProcessorSingleBase.kt:55-61 | the slot holds exactly the launched frame, and detection runs on it |
| SingleSlot.Complete | kbarcode/src/main/java/uk/co/brightec/kbarcode/processor/base/VisionImageProcessorSingleBase.kt:62-72 | completion crashes on the `!!` when the hook is installed and the slot is empty; otherwise it hands the image back (when hooked), empties the slot, and reports success with the result iff the task succeeded with a non-null result, else failure with the task's exception or "Unknown" |
| SingleSlot.OneOutcomePerCompletion | kbarcode/src/main/java/uk/co/brightec/kbarcode/processor/base/VisionImageProcessorSingleBase.kt:62-72 | every completion that does not crash calls exactly one of the success and failure hooks |
| SingleSlot.FrameRoundTrip | kbarcode/src/main/java/uk/co/brightec/kbarcode/processor/base/VisionImageProcessorSingleBase.kt:36-72 | launch, detect and complete bring the processor back to its initial state; a frame offered meanwhile is refused, and the image is handed back before the success hook |
| SingleSlot.StoppedAdmitsNothing | kbarcode/src/main/java/uk/co/brightec/kbarcode/processor/base/VisionImageProcessorSingleBase.kt:36-50 | after `stop()` no frame is admitted |
| ImageProcessor.DefaultFormats | kbarcode/src/main/java/uk/co/brightec/kbarcode/processor/BarcodeImageProcessor.kt:20-24 | the default formats are EAN-13 then EAN-8, passed to the builder as first and rest |
| ImageProcessor.New | kbarcode/src/main/java/uk/co/brightec/kbarcode/processor/BarcodeImageProcessor.kt:20-35 | construction keeps the formats and the sort and creates one scanner handle for exactly those formats |
| ImageProcessor.SetFormats | kbarcode/src/main/java/uk/co/brightec/kbarcode/processor/BarcodeImageProcessor.kt:28-39 | new formats give a new scanner handle restricted to them, and the old one is closed after the new one exists |
| ImageProcessor.SetSort | kbarcode/src/main/java/uk/co/brightec/kbarcode/processor/BarcodeImageProcessor.kt:25 | assigning the sort changes nothing else |
| ImageProcessor.Stop | kbarcode/src/main/java/uk/co/brightec/kbarcode/processor/BarcodeImageProcessor.kt:45-49 | `stop()` closes the current scanner and then publishes the empty list |
| ImageProcessor.OnSuccess | kbarcode/src/main/java/uk/co/brightec/kbarcode/processor/BarcodeImageProcessor.kt:54-68 | publishes exactly one list, a permutation of the mapped results; without a sort it is in detection order; the centre-distance comparator gets the frame metadata and the list ascends in its order; an application `Comparator` gets no metadata, stays as it is, and the list ascends in its order |
| ImageProcessor.OnSuccessStable | kbarcode/src/main/java/uk/co/brightec/kbarcode/processor/BarcodeImageProcessor.kt:64 | with the centre-distance sort, barcodes of equal rank are published in detection order |
| ImageProcessor.OnSuccessCustomStable | kbarcode/src/main/java/uk/co/brightec/kbarcode/processor/BarcodeImageProcessor.kt:64 | with an application sort, barcodes of equal rank are published in detection order |
| ImageProcessor.OnFailure | kbarcode/src/main/java/uk/co/brightec/kbarcode/processor/BarcodeImageProcessor.kt:70-72 | a failure is only logged: nothing is published and the state is unchanged |
| ProcessorSingle.New | kbarcode/src/main/java/uk/co/brightec/kbarcode/processor/BarcodeProcessorSingle.kt:18-33 | construction creates one detector restricted to the given formats, with an empty slot and a live scope |
| ProcessorSingle.SetFormats | kbarcode/src/main/java/uk/co/brightec/kbarcode/processor/BarcodeProcessorSingle.kt:27-37 | new formats give a new detector restricted to them, the old one is closed, and nothing else changes |
| ProcessorSingle.Stop | kbarcode/src/main/java/uk/co/brightec/kbarcode/processor/BarcodeProcessorSingle.kt:43-46 | `stop()` cancels the scope and closes the detector, and publishes nothing |
| ProcessorSingle.Process | kbarcode/src/main/java/uk/co/brightec/kbarcode/processor/base/VisionImageProcessorSingleBase.kt:36-45 | a busy or stopped processor ignores the frame |
| ProcessorSingle.OnSuccess | kbarcode/src/main/java/uk/co/brightec/kbarcode/processor/BarcodeProcessorSingle.kt:51-64 | as written: the centre-distance comparator receives the frame metadata and an application comparator is left alone, but the published list is the mapped results in detection order |
| ProcessorSingle.OnFailure | kbarcode/src/main/java/uk/co/brightec/kbarcode/processor/BarcodeProcessorSingle.kt:66-68 | a failure is only logged |
| ProcessorSingle.Complete | kbarcode/src/main/java/uk/co/brightec/kbarcode/processor/base/VisionImageProcessorSingleBase.kt:62-72 | a successful completion with a result ends by publishing the mapped result; any other completion calls only the base's hooks and publishes nothing |
| ProcessorSingle.SortResultDiscarded | kbarcode/src/main/java/uk/co/brightec/kbarcode/processor/BarcodeProcessorSingle.kt:55-63 | with the centre-distance sort, [boxless, boxed] is published in that order although the comparator puts the boxless barcode last, so the published list is not sorted |
| CameraSource.Initial | kbarcode/src/main/java/uk/co/brightec/kbarcode/camera/Camera2Source.kt:30-49 | a new source holds nothing and requests the back camera with the flash off |
| CameraSource.Release | kbarcode/src/main/java/uk/co/brightec/kbarcode/camera/Camera2Source.kt:51-58 | release leaves nothing held; it closes the session and the device if present, reports nothing, and keeps the requested facing and flash mode |
| CameraSource.ReleaseIdempotent | kbarcode/src/main/java/uk/co/brightec/kbarcode/camera/Camera2Source.kt:51-58 | releasing twice closes nothing the second time |
| CameraSource.ReleaseAndReport | kbarcode/src/main/java/uk/co/brightec/kbarcode/camera/Camera2Source.kt:479-505 | the failure path releases everything and then reports exactly one failure, as its last action, when a listener is set |
| CameraSource.Fail | kbarcode/src/main/java/uk/co/brightec/kbarcode/camera/Camera2Source.kt:114-133 | an exception in a call's `catch` list releases and reports its kind; any other escapes the call, closing nothing and reporting nothing |
| CameraSource.KindFromCause | kbarcode/src/main/java/uk/co/brightec/kbarcode/camera/Camera2Source.kt:485-492 | a `CameraAccessException` is reported as a camera access failure and any other cause as a camera error |
| CameraSource.ExceptionFromDeviceError | kbarcode/src/main/java/uk/co/brightec/kbarcode/camera/Camera2Source.kt:340-347 | the five `ERROR_CAMERA_*` codes get their own kinds; any other code is a generic camera error |
| CameraSource.DeviceErrorRoundTrip | kbarcode/src/main/java/uk/co/brightec/kbarcode/camera/Camera2Source.kt:340-347 | the device-error mapping is one-to-one on the five codes, and each specific kind maps back to its code |
| CameraSource.FirstWithFacing | kbarcode/src/main/java/uk/co/brightec/kbarcode/camera/Camera2Source.kt:243-253 | finds the first camera reporting the requested facing, or proves there is none |
| CameraSource.SelectCameraIndex | kbarcode/src/main/java/uk/co/brightec/kbarcode/camera/Camera2Source.kt:243-253 | no camera exactly when the list is empty; the first camera with the requested facing when there is one, else the first camera |
| CameraSource.SelectCamera | kbarcode/src/main/java/uk/co/brightec/kbarcode/camera/Camera2Source.kt:243-253 | the selected id exists exactly when some camera exists and is one of the listed ids |
| CameraSource.SelectCameraPrefersFacing | kbarcode/src/main/java/uk/co/brightec/kbarcode/camera/Camera2Source.kt:243-253 | the first camera with the requested facing is the one selected, whatever its position |
| CameraSource.WidestIndex | kbarcode/src/main/java/uk/co/brightec/kbarcode/camera/Camera2Source.kt:336 | picks the first size of the greatest width |
| CameraSource.NarrowestAboveIndex | kbarcode/src/main/java/uk/co/brightec/kbarcode/camera/Camera2Source.kt:332-334 | picks the first of the narrowest sizes wider than the minimum, or none when no size is wider |
| CameraSource.ChooseOutputSize | kbarcode/src/main/java/uk/co/brightec/kbarcode/camera/Camera2Source.kt:330-337 | a size is chosen exactly when the camera offers one; it is the narrowest size wider than the minimum width, or the widest size when none is wider |
| CameraSource.ChooseOutputSizeExamples | kbarcode/src/test/java/uk/co/brightec/kbarcode/camera/Camera2SourceTest.kt:799-860 | the three size negotiations the tests pin: 4x4 above 3, 2x2 above 1, and the widest, 2x2, when nothing exceeds 3 |
| CameraSource.BestAfMode | kbarcode/src/main/java/uk/co/brightec/kbarcode/camera/Camera2Source.kt:392-402 | continuous-picture autofocus iff available; else auto iff available; else off |
| CameraSource.BestAeMode | kbarcode/src/main/java/uk/co/brightec/kbarcode/camera/Camera2Source.kt:405-413 | auto-exposure on iff available, else off |
| CameraSource.BestAwbMode | kbarcode/src/main/java/uk/co/brightec/kbarcode/camera/Camera2Source.kt:416-424 | auto white balance iff available, else off |
| CameraSource.ModePreference | kbarcode/src/main/java/uk/co/brightec/kbarcode/camera/Camera2Source.kt:392-424 | unknown capabilities give off for every control; adding continuous-picture selects it, and adding auto never lowers a choice that was not off |
| CameraSource.GetOutputSize | kbarcode/src/main/java/uk/co/brightec/kbarcode/camera/Camera2Source.kt:138-152 | a failing camera manager read (`getCameraCharacteristics`, or `cameraIdList` in `selectCamera`) escapes; otherwise the open device's sizes are negotiated against the minimum width; with no device, the sizes of the camera `start` would select; with no camera, no size |
| CameraSource.OutputSizeOfCameraStarted | kbarcode/src/main/java/uk/co/brightec/kbarcode/camera/Camera2Source.kt:138-152 | before any device is open, the size is that of the camera `start` then opens |
| CameraSource.DefaultRequest | kbarcode/src/main/java/uk/co/brightec/kbarcode/camera/Camera2Source.kt:427-477 | without a device or surfaces, or when `createCaptureRequest` rejects the template (an illegal argument), the source is released and a camera error reported; any other exception from `createCaptureRequest`, or from the region-count reads made when regions are given, leaves the builder; otherwise the request targets every surface with the requested flash mode, and each of the AF/AE/AWB regions is set iff regions were given and the device accepts regions for that control |
| CameraSource.CreateRepeatingRequest | kbarcode/src/main/java/uk/co/brightec/kbarcode/camera/Camera2Source.kt:297-321 | on success one repeating request with the best AF/AE/AWB modes, leaving the source unchanged; a failed build releases and reports a camera error; the first exception inside the `try` (`createCaptureRequest`, a characteristics read, `setRepeatingRequest`) releases and reports its kind when the `catch` list has it, and otherwise escapes alone, with the source unchanged |
| CameraSource.Start | kbarcode/src/main/java/uk/co/brightec/kbarcode/camera/Camera2Source.kt:61-136 | a source already started or opening ignores the call; a failing camera manager read in `selectCamera` escapes before anything changes; no camera means release then a fatal service failure; otherwise it marks opening and opens the selected camera; an access, argument or security exception releases and reports, an `IllegalStateException` escapes with opening still marked |
| CameraSource.CreateCaptureSession | kbarcode/src/main/java/uk/co/brightec/kbarcode/camera/Camera2Source.kt:256-294 | without a device nothing happens; otherwise a session is requested on exactly the surfaces; an access, argument or state exception releases and reports its kind, a `SecurityException` escapes |
| CameraSource.OnOpened | kbarcode/src/main/java/uk/co/brightec/kbarcode/camera/Camera2Source.kt:81-99 | an invalid surface closes the new device and reports a camera error without signalling readiness; otherwise the device is kept, readiness is signalled (if a listener is set), and a session is requested |
| CameraSource.OnDisconnected | kbarcode/src/main/java/uk/co/brightec/kbarcode/camera/Camera2Source.kt:101-103 | a disconnect releases and reports nothing |
| CameraSource.OnError | kbarcode/src/main/java/uk/co/brightec/kbarcode/camera/Camera2Source.kt:105-112 | a device error releases and reports the kind its code maps to |
| CameraSource.OnConfigured | kbarcode/src/main/java/uk/co/brightec/kbarcode/camera/Camera2Source.kt:264-270 | a configured session is stored with its surfaces and starts a repeating request targeting them |
| CameraSource.OnConfigureFailed | kbarcode/src/main/java/uk/co/brightec/kbarcode/camera/Camera2Source.kt:272-277 | a failed configuration releases and reports a session failure |
| CameraSource.RequestFocus | kbarcode/src/main/java/uk/co/brightec/kbarcode/camera/Camera2Source.kt:180-220 | nothing happens without a session and device; a failing characteristics read behind the AF mode and region checks escapes first; nothing happens without AUTO focus or room for an AF region; otherwise repeating stops, an AF cancel is captured, then an AF start in AUTO mode with the given regions, whose completion is observed; the first exception from `stopRepeating`, `createCaptureRequest` or either `capture` escapes at that point, leaving the source's handles as they were, and it escapes iff one of those calls fails |
| CameraSource.FocusCaptures | kbarcode/src/main/java/uk/co/brightec/kbarcode/camera/Camera2Source.kt:191-219 | after repeating stops: the AF cancel capture then the AF start capture over the regions, and an escape iff `createCaptureRequest` or a `capture` throws, naming the first failure |
| CameraSource.OnFocusCompleted | kbarcode/src/main/java/uk/co/brightec/kbarcode/camera/Camera2Source.kt:202-208 | after a completed focus, repeating restarts carrying the regions iff the device accepts AF regions; it never reports |
| CameraSource.CreateRepeatingQuiet | kbarcode/src/main/java/uk/co/brightec/kbarcode/camera/Camera2Source.kt:297-321 | without a listener a repeating request never reports a failure |
| CameraSource.OnFocusFailed | kbarcode/src/main/java/uk/co/brightec/kbarcode/camera/Camera2Source.kt:210-217 | after a failed focus, repeating restarts without any region |
| CameraSource.ClearFocusRegions | kbarcode/src/main/java/uk/co/brightec/kbarcode/camera/Camera2Source.kt:225-239 | without a session nothing happens; otherwise repeating stops, an AF cancel is captured, and repeating restarts without regions; an exception from `stopRepeating`, `createCaptureRequest` or the `capture` escapes at that point, leaving the source as it was; the restart catches what its `catch` list holds and lets the rest escape |
| CameraSource.EveryFailureReleasesFirst | kbarcode/src/main/java/uk/co/brightec/kbarcode/camera/Camera2Source.kt:479-505 | for every call and callback, at most one failure is reported, only as the last action and after a full release; an escaping exception is the last action, closes nothing and is not reported; the requested facing and flash mode survive |
| CameraSource.EscapedOpenBlocksStart | kbarcode/src/main/java/uk/co/brightec/kbarcode/camera/Camera2Source.kt:65-77 | after an `IllegalStateException` escapes `openCamera`, the source stays marked as opening and ignores every later `start` |
| CameraSource.HappyPath | kbarcode/src/main/java/uk/co/brightec/kbarcode/camera/Camera2Source.kt:61-99 | start, open and configure without faults open the selected camera, signal readiness, request a session and start repeating on the surfaces, reporting nothing |
| Scanner.RotationCompensation | kbarcode/src/main/java/uk/co/brightec/kbarcode/BarcodeScanner.kt:243-260 | defined exactly for the four display rotations; an angle in [0, 360); the sensor angle plus the display angle for the front camera, minus it otherwise |
| Scanner.RotationRecovered | kbarcode/src/main/java/uk/co/brightec/kbarcode/BarcodeScanner.kt:243-260 | the compensation determines the display rotation it was computed from, given the sensor and the facing |
| Scanner.RotationExamples | kbarcode/src/test/java/uk/co/brightec/kbarcode/BarcodeScannerTest.kt:465-1006 | cases of the tests' rotation table: back camera at display 0/1/2/3 with sensor 90/0/90/270 gives 90/270/270/0; front camera at display 1/2/3 with sensor 0/270/180 gives 90; an unknown sensor and facing counts as 0 and back |
| Scanner.TenThirds | kbarcode/src/main/java/uk/co/brightec/kbarcode/BarcodeScanner.kt:276 | dividing a non-negative width by the 0.3 screen proportion and truncating gives ten thirds of it, rounded down |
| Scanner.MinWidthForBarcodes | kbarcode/src/main/java/uk/co/brightec/kbarcode/BarcodeScanner.kt:270-279 | the custom width or else the most demanding format's width, times ten thirds rounded down, saturating at `Int.MAX_VALUE` |
| Scanner.MinWidthExamples | kbarcode/src/test/java/uk/co/brightec/kbarcode/BarcodeScannerTest.kt:1009-1034 | EAN-13 with EAN-8 needs 633 px of preview; PDF417 with EAN-8 needs 3853; a custom 300 px needs 1000 |
| Scanner.Orient | kbarcode/src/main/java/uk/co/brightec/kbarcode/BarcodeScanner.kt:322-345 | a quarter-turn compensation swaps the view's width and height; otherwise they are kept |
| Scanner.NormaliseRoundTrip | kbarcode/src/main/java/uk/co/brightec/kbarcode/BarcodeScanner.kt:322-354 | swapping, flipping, mirroring and normalising a touch loses nothing: the view point is recovered from the normalised point |
| Scanner.ZeroSizeToInt | kbarcode/src/main/java/uk/co/brightec/kbarcode/BarcodeScanner.kt:353-354 | dividing by a zero size gives 0 for 0/0 and saturates to `Int.MAX_VALUE` or `Int.MIN_VALUE` by sign otherwise |
| Scanner.TouchSide | kbarcode/src/main/java/uk/co/brightec/kbarcode/BarcodeScanner.kt:360-361 | the focus region's side is a twentieth of the active array's extent, rounded down |
| Scanner.FocusRegion | kbarcode/src/main/java/uk/co/brightec/kbarcode/BarcodeScanner.kt:357-363 | the region has maximum weight and sides a twentieth of the active array, with its corner at the normalised touch point scaled to the array; the corner may be negative for a touch outside the view, and the constructor's check on it is in `CalculateFocusRegions` |
| Scanner.NormaliseInUnitSquare | kbarcode/src/main/java/uk/co/brightec/kbarcode/BarcodeScanner.kt:322-354 | a touch inside the view normalises into the unit square for every rotation and mirroring |
| Scanner.RegionWithin | kbarcode/src/main/java/uk/co/brightec/kbarcode/BarcodeScanner.kt:357-363 | a point of the unit square scales to a corner inside the active array |
| Scanner.FocusRegionInsideArray | kbarcode/src/main/java/uk/co/brightec/kbarcode/BarcodeScanner.kt:305-366 | a touch inside the view yields a region whose corner lies inside the active array |
| Scanner.InsideTouchAccepted | kbarcode/src/main/java/uk/co/brightec/kbarcode/BarcodeScanner.kt:357-363 | a touch inside the view yields a rectangle the `MeteringRectangle` constructor accepts: no negative corner or side |
| Scanner.OutsideTouchRejected | kbarcode/src/main/java/uk/co/brightec/kbarcode/BarcodeScanner.kt:357-363 | a touch at (-10, 10) on a 100 x 100 view, rotation 0, over a 100 x 100 array puts the corner at x = -10, which the constructor rejects |
| Scanner.FocusRegionExamples | kbarcode/src/androidTest/java/uk/co/brightec/kbarcode/BarcodeScannerAndroidTest.kt:53-260 | the touch (10, 20) on a 1000 x 1000 view maps onto a 100 x 100 array at (1,2), (2,99), (99,98), (98,1) for rotations 0, 90, 180, 270, and at (99,2) mirrored |
| Scanner.New | kbarcode/src/main/java/uk/co/brightec/kbarcode/BarcodeScanner.kt:35-91 | a new scanner holds no camera or reader, is not paused or observing, has no custom surfaces or width, uses the 5000 ms clear delay, and its processor starts with one detector for EAN-13 and EAN-8 |
| Scanner.GetOutputSize | kbarcode/src/main/java/uk/co/brightec/kbarcode/BarcodeScanner.kt:168 | a failing camera manager read escapes; otherwise the output size is the open camera's size, or with no open camera the size of the camera `start` would select, negotiated against the scanner's minimum width |
| Scanner.StartCameraSource | kbarcode/src/main/java/uk/co/brightec/kbarcode/BarcodeScanner.kt:185-209 | when reading the output size throws, or there is none (an `IllegalStateException`), the exception escapes before anything is done; otherwise it creates a new reader at that size and starts the camera on the reader's surface followed by the custom surfaces; it never calls the processor and keeps the settings |
| Scanner.StartCameraSourceClosesNoReader | kbarcode/src/main/java/uk/co/brightec/kbarcode/BarcodeScanner.kt:185-202 | starting the camera source closes no image reader |
| Scanner.Start | kbarcode/src/main/java/uk/co/brightec/kbarcode/BarcodeScanner.kt:100-113 | `start()` always unpauses; with the camera already started or opening it does nothing else; otherwise it starts observing barcodes and then starts the camera source |
| Scanner.Resume | kbarcode/src/main/java/uk/co/brightec/kbarcode/BarcodeScanner.kt:115-117 | `resume()` clears the pause flag and changes nothing else |
| Scanner.Pause | kbarcode/src/main/java/uk/co/brightec/kbarcode/BarcodeScanner.kt:119-121 | `pause()` sets the pause flag and changes nothing else |
| Scanner.Release | kbarcode/src/main/java/uk/co/brightec/kbarcode/BarcodeScanner.kt:123-128 | `release()` stops observing, stops the processor (closing its detector and publishing the empty list), closes the reader, then releases the camera; settings are kept |
| Scanner.OnImageAvailable | kbarcode/src/main/java/uk/co/brightec/kbarcode/BarcodeScanner.kt:206-262 | no image does nothing; a busy or paused processor gets nothing and the image is closed; a bad display rotation throws, and so does a failing sensor-orientation read, leaving the image open; otherwise the processor gets the image with the reader's size, the camera's facing and the rotation compensation |
| Scanner.ImageAccountedFor | kbarcode/src/main/java/uk/co/brightec/kbarcode/BarcodeScanner.kt:210-225 | when the display rotation is known and the camera reads succeed, every acquired image is either closed at once or handed to the processor, and it is handed over iff the processor is idle and the scanner not paused |
| Scanner.PauseGatesFrames | kbarcode/src/main/java/uk/co/brightec/kbarcode/BarcodeScanner.kt:115-121 | while paused no frame reaches the processor; after `resume()` an idle processor gets the frame |
| Scanner.OnImageProcessed | kbarcode/src/main/java/uk/co/brightec/kbarcode/BarcodeScanner.kt:89-91 | the hook closes exactly the images the processor reports processed, and does nothing else |
| Scanner.AdmittedImageClosed | kbarcode/src/main/java/uk/co/brightec/kbarcode/BarcodeScanner.kt:89-91 | an image handed to an idle single-slot processor is closed exactly once when its detection completes, whether the task succeeded or failed |
| Scanner.OnBarcodesPublished | kbarcode/src/main/java/uk/co/brightec/kbarcode/BarcodeScanner.kt:59-74 | an empty list notifies nobody; a non-empty one goes to the list listener and then its first element to the single-barcode listener |
| Scanner.ReleaseIsSilent | kbarcode/src/main/java/uk/co/brightec/kbarcode/BarcodeScanner.kt:123-128 | observation stops before the processor publishes the empty list, and that list notifies nobody |
| Scanner.UpdateCameraFeature | kbarcode/src/main/java/uk/co/brightec/kbarcode/BarcodeScanner.kt:285-295 | with the camera not started only the feature is stored; with it started the scanner releases first, restarts unpaused, and the feature's value is in force afterwards |
| Scanner.UpdateIsReleaseThenStart | kbarcode/src/main/java/uk/co/brightec/kbarcode/BarcodeScanner.kt:285-295 | a feature change on a started camera is exactly a release, the feature's update, and a start |
| Scanner.StartOpensSelectedCamera | kbarcode/src/main/java/uk/co/brightec/kbarcode/BarcodeScanner.kt:100-113 | a start from rest creates reader number `readers` and opens the camera selection picks for the requested facing |
| Scanner.FeatureChangeClosesDevice | kbarcode/src/main/java/uk/co/brightec/kbarcode/BarcodeScanner.kt:285-295 | a feature change on a started camera closes the device it had open |
| Scanner.ReleaseClosesDevice | kbarcode/src/main/java/uk/co/brightec/kbarcode/BarcodeScanner.kt:123-128 | releasing a scanner whose camera holds a device closes that device |
| Scanner.FeatureChangeKeepsClosedDetector | kbarcode/src/main/java/uk/co/brightec/kbarcode/BarcodeScanner.kt:285-295 | a feature change closes the processor's detector and never calls the processor again, so the closed detector stays current |
| Scanner.RestartLeavesPreviousReaderOpen | kbarcode/src/main/java/uk/co/brightec/kbarcode/BarcodeScanner.kt:100-113 | a start from rest while a reader exists replaces it with a new one and closes none |
| Scanner.SetBarcodeFormats | kbarcode/src/main/java/uk/co/brightec/kbarcode/BarcodeScanner.kt:142-144 | the processor rebuilds its detector for the new formats and the minimum width follows them; the camera is not touched |
| Scanner.SetMinBarcodeWidth | kbarcode/src/main/java/uk/co/brightec/kbarcode/BarcodeScanner.kt:146-152 | null or a negative width is stored as null, so the formats' width applies; any other width, 0 included, is stored as given, and one up to the saturation bound gives ten thirds of it; nothing else changes |
| Scanner.SetBarcodesSort | kbarcode/src/main/java/uk/co/brightec/kbarcode/BarcodeScanner.kt:154-156 | the sort reaches the processor; its formats and detector are unchanged |
| Scanner.SetScaleType | kbarcode/src/main/java/uk/co/brightec/kbarcode/BarcodeScanner.kt:158-160 | the scale type has no effect on the scanner |
| Scanner.SetClearFocusDelay | kbarcode/src/main/java/uk/co/brightec/kbarcode/BarcodeScanner.kt:163-166 | a non-negative delay or the "never" value is stored silently; any other delay throws and leaves the scanner unchanged |
| Scanner.CalculateFocusRegions | kbarcode/src/main/java/uk/co/brightec/kbarcode/BarcodeScanner.kt:305-366 | a failing read of the active array throws; no active array gives no regions; a bad display rotation throws; otherwise exactly one region for the touch, oriented by the compensation and mirrored for a front camera; building that region throws `IllegalArgumentException` exactly when its corner or side is negative, so every region returned is one the constructor accepts |
| Scanner.ScheduleClearFocusRegions | kbarcode/src/main/java/uk/co/brightec/kbarcode/BarcodeScanner.kt:372-385 | "never" schedules nothing; an invalid delay is exactly the case that throws; a non-negative delay cancels the pending clear and posts a new one |
| Scanner.RequestCameraFocus | kbarcode/src/main/java/uk/co/brightec/kbarcode/BarcodeScanner.kt:170-181 | a failing camera read while computing the regions escapes; no active array means nothing happens; an `IllegalArgumentException` escapes exactly when the focus rectangle is rejected, and then nothing else happens, so the configured delay never throws; with a region, an exception escaping the camera's focus request ends the call before a clear is scheduled; otherwise, with a delay, a clear is scheduled last |
| Scanner.InsideTouchNeverRejected | kbarcode/src/main/java/uk/co/brightec/kbarcode/BarcodeScanner.kt:170-181 | a touch inside the view, over an active array of non-negative size, never makes the focus request throw `IllegalArgumentException` |
| Scanner.ClearFocusFired | kbarcode/src/main/java/uk/co/brightec/kbarcode/BarcodeScanner.kt:380-384 | the posted clear acts only on a started camera, where it clears the focus regions |
| Scanner.ClearAfterReleaseIsHarmless | kbarcode/src/main/java/uk/co/brightec/kbarcode/BarcodeScanner.kt:380-384 | a clear still pending after release does nothing |
| Options.NewBuilder | kbarcode/src/main/java/uk/co/brightec/kbarcode/Options.kt:19-27 | the defaults: back camera, flash off, all formats, no width, no sort, centre-inside, 5000 ms clear delay |
| Options.Apply | kbarcode/src/main/java/uk/co/brightec/kbarcode/Options.kt:29-61 | each setter writes its own field; an empty format array is stored as the all-formats list |
| Options.SetterTouchesOwnField | kbarcode/src/main/java/uk/co/brightec/kbarcode/Options.kt:29-61 | a setter changes exactly its own field of the built options |
| Options.Build | kbarcode/src/main/java/uk/co/brightec/kbarcode/Options.kt:63-71 | `build()` copies every builder field into the record unchanged |
| Options.BuiltFormatsNeverEmpty | kbarcode/src/main/java/uk/co/brightec/kbarcode/Options.kt:37-43 | after any chain of setters the built format list is the last one set (or the default) and is never empty |
| Options.Equals | kbarcode/src/main/java/uk/co/brightec/kbarcode/Options.kt:74-89 | `equals` holds iff every field is equal, the format arrays by content |
| Options.EqualOptionsHashAlike | kbarcode/src/main/java/uk/co/brightec/kbarcode/Options.kt:74-100 | options that `equals` accepts have equal hash codes |
| Options.ContentEquals | kbarcode/src/main/java/uk/co/brightec/kbarcode/Options.kt:82 | arrays are content-equal iff they have the same elements in the same order |
| Options.Wrap32 | kbarcode/src/main/java/uk/co/brightec/kbarcode/Options.kt:91-100 | `Int` arithmetic gives the value congruent modulo 2^32 within `Int`'s range, and keeps values already in range |
| Options.WrapCongruent | kbarcode/src/main/java/uk/co/brightec/kbarcode/Options.kt:91-100 | values congruent modulo 2^32 wrap to the same `Int` |
| Options.Fold31IsPolynomial | kbarcode/src/main/java/uk/co/brightec/kbarcode/Options.kt:91-100 | the `31 * result + h` loop with wrap-around equals the wrapped polynomial over the hashes, seed included |
| Options.LongHashOfInt | kbarcode/src/main/java/uk/co/brightec/kbarcode/Options.kt:98 | `Long.hashCode()` of a value in `Int`'s range is the value itself when non-negative, and `-v - 1` when negative |
| Options.NullableIntHash | kbarcode/src/main/java/uk/co/brightec/kbarcode/Options.kt:96 | a null width hashes to 0 |
| Options.HashCodeIsPolynomial | kbarcode/src/main/java/uk/co/brightec/kbarcode/Options.kt:91-100 | the record's hash is the wrapped base-31 polynomial of its seven field hashes |
| Options.ContentHashCodeIsPolynomial | kbarcode/src/main/java/uk/co/brightec/kbarcode/Options.kt:94 | the array's content hash is the wrapped polynomial of its elements behind a leading 1 |
| Options.DefaultOptionsHash | kbarcode/src/main/java/uk/co/brightec/kbarcode/Options.kt:19-100 | the default format list hashes to 31 and the default delay to 5000; `equals` separates a QR-only list from the default and identifies an empty list with it |
| KBarcode.SetOptions | kbarcode/src/main/java/uk/co/brightec/kbarcode/KBarcode.kt:58-64 | `setOptions` makes five setter calls in the source's order (facing, formats, width, sort, scale type), each receiving exactly the value stored in the options |
| KBarcode.SetOptionsForwardsExactly | kbarcode/src/main/java/uk/co/brightec/kbarcode/KBarcode.kt:58-64 | two option records give the same calls iff they agree on the five forwarded fields |
| KBarcode.FlashAndDelayNotForwarded | kbarcode/src/main/java/uk/co/brightec/kbarcode/KBarcode.kt:58-64 | setting only the flash mode and the clear delay gives the same calls as the defaults |
| BarcodeView.CameraFacingAttrConvert | kbarcode/src/main/java/uk/co/brightec/kbarcode/BarcodeView.kt:209-218 | attribute 0 is the front camera; 2 is the external camera from API 23 on; every other value is the back camera |
| BarcodeView.FacingAttrRoundTrip | kbarcode/src/main/java/uk/co/brightec/kbarcode/BarcodeView.kt:209-218 | each facing the converter yields converts back to itself from its own attribute number |
| BarcodeView.CameraFlashModeAttrConvert | kbarcode/src/main/java/uk/co/brightec/kbarcode/BarcodeView.kt:221-226 | attribute 1 is single flash, 2 is torch, anything else is off |
| BarcodeView.FlashAttrRoundTrip | kbarcode/src/main/java/uk/co/brightec/kbarcode/BarcodeView.kt:221-226 | converting a converted flash mode again gives the same mode |
| BarcodeView.FormatsAttrConvert | kbarcode/src/main/java/uk/co/brightec/kbarcode/BarcodeView.kt:230-247 | attributes 1 to 4 select the numeric, alphanumeric, two-dimensional and EAN groups, each a non-empty list of distinct known formats; anything else is all formats |
| BarcodeView.FormatGroupsDistinct | kbarcode/src/main/java/uk/co/brightec/kbarcode/BarcodeView.kt:230-247 | the four groups are pairwise different, and the EAN group lies inside the numeric group |
| BarcodeView.SortAttrConvert | kbarcode/src/main/java/uk/co/brightec/kbarcode/BarcodeView.kt:250-254 | attribute 1 installs a fresh centre-distance comparator; any other value installs none |
| BarcodeView.PreviewScaleTypeAttrConvert | kbarcode/src/main/java/uk/co/brightec/kbarcode/BarcodeView.kt:257-261 | attribute 1 is centre-crop; anything else is centre-inside |
| BarcodeView.ScaleTypeAttrRoundTrip | kbarcode/src/main/java/uk/co/brightec/kbarcode/BarcodeView.kt:257-261 | each scale type converts back to itself from its own constant |
| BarcodeView.ScaleToIntBounds | kbarcode/src/main/java/uk/co/brightec/kbarcode/BarcodeView.kt:293-308 | an extent scaled by the output's aspect is the truncated real quotient, never negative, saturating at `Int.MAX_VALUE` |
| BarcodeView.ScaleKeepsAspect | kbarcode/src/main/java/uk/co/brightec/kbarcode/BarcodeView.kt:293 | a length carried across the output's ratio is the exact quotient truncated, or saturated at `Int`'s maximum |
| BarcodeView.SpanCentred | kbarcode/src/main/java/uk/co/brightec/kbarcode/BarcodeView.kt:310-321 | the child's span is centred in the layout (start plus end is the layout extent), lies inside it when the child is smaller, covers it when larger, and is exact when equal |
| BarcodeView.CalculateRectForChild | kbarcode/src/main/java/uk/co/brightec/kbarcode/BarcodeView.kt:264-322 | the child rectangle's edges are `Int` values for any `Int` bounds; centring, fitting and covering are the lemmas below |
| BarcodeView.ChildRectCentred | kbarcode/src/main/java/uk/co/brightec/kbarcode/BarcodeView.kt:264-322 | the child rectangle is centred in the view's bounds on both axes |
| BarcodeView.CenterInsideChildSize | kbarcode/src/main/java/uk/co/brightec/kbarcode/BarcodeView.kt:289-301 | centre-inside never exceeds the view and keeps the output's aspect: as wide as the view with the height carried across the ratio, or as tall with the width carried across; it is narrower only when the width fit would be taller than the view |
| BarcodeView.CenterCropChildSize | kbarcode/src/main/java/uk/co/brightec/kbarcode/BarcodeView.kt:289-308 | centre-crop never falls short of the view and keeps the output's aspect: as wide as the view with the height carried across the ratio, or as tall with the width carried across; it is wider only when the width fit would be shorter than the view |
| BarcodeView.CenterInsideFits | kbarcode/src/main/java/uk/co/brightec/kbarcode/BarcodeView.kt:296-321 | with centre-inside the child lies within the view's bounds and fills one axis exactly |
| BarcodeView.CenterCropCovers | kbarcode/src/main/java/uk/co/brightec/kbarcode/BarcodeView.kt:302-321 | with centre-crop the child covers the view's bounds and matches one axis exactly |
| BarcodeView.PortraitInsideExample | kbarcode/src/androidTest/java/uk/co/brightec/kbarcode/BarcodeViewTest.kt:274-292 | a 200 x 100 output in a portrait 100 x 250 view with centre-inside is placed at (0, 25, 100, 225) |
| BarcodeView.PortraitCropExample | kbarcode/src/androidTest/java/uk/co/brightec/kbarcode/BarcodeViewTest.kt:442-460 | the same output and view with centre-crop are placed at (-12, 0, 112, 250) |
| BarcodeView.LandscapeCropExample | kbarcode/src/androidTest/java/uk/co/brightec/kbarcode/BarcodeViewTest.kt:526-544 | a 200 x 100 output in a landscape 250 x 100 view with centre-crop is placed at (0, -12, 250, 112) |
| BarcodeView.DefaultOutputExample | kbarcode/src/main/java/uk/co/brightec/kbarcode/BarcodeView.kt:271-280 | with no output size the 320 x 240 default is used: a 320 x 480 view places the child at (0, 120, 320, 360) |

## Left out

- `ImageProcessorBase`, the base class of the current processor, is not part of this model. The members `BarcodeImageProcessor` declares are modelled; its frame admission is a parameter of the scanner, and Scanner.AdmittedImageClosed uses the single-slot base in its place.
- The `process(ByteBuffer, …)` and `process(Bitmap)` overloads are not modelled: they only throw `NotImplementedError`.
- LiveData delivery, `Handler` timing and coroutine dispatch are reduced to ordered trace actions and explicit events. The delayed focus clear is the event `Scanner.ClearFocusFired`.
- Logging (`Timber`) and `KBarcode.setDebugging` are not modelled; they have no effect on state.
- Camera2 request builders are reduced to the keys the source sets. Exception messages and causes are reduced to the exception kind.
- Platform exceptions are reduced to four kinds: access, illegal argument, illegal state and security. Each Camera2 call the source makes has a fault site, and any of the four kinds may be supplied there. The platform's narrower documented lists of what each call throws are not used. An escaping exception is a final trace action; what the caller's thread does with it is not modelled.
- CameraSource.Faults: one fault per kind of call in a transition, thrown at that call's first use. A call kind that succeeds once and then fails within the same transition is not modelled. For example, `requestFocus` builds two requests and reads the camera manager several times, and only its first build or first read can fail.
- CentralComparator.DistSq: the squared distance is exact. The source subtracts in `Int`, which can wrap, and squares in `Double`, which can round (`extension/_Point.kt:5-8`). Neither is modelled.
- Common.Rect: widths, heights and centres are computed exactly. The source's `right - left` and `(left + right) >> 1` can wrap in `Int`.
- ImageProcessor.OnSuccess: an application comparator is modelled by the rank order it imposes, passed in as a parameter. Comparators that are not consistent orders, and any side effects of application code, are not modelled. An application subclass of `BarcodeComparator` would also receive the frame metadata (`BarcodeImageProcessor.kt:61-63`); the model's only `BarcodeComparator` is the centre-distance one.
- `Float` arithmetic is taken as exact real arithmetic. Rounding of large `Int` values to `Float` and signed zeros are not modelled. Division by a zero size is modelled as IEEE infinities or NaN.
- `BarcodeView`'s Android plumbing is not modelled: attribute parsing from `TypedArray`, measuring, child views, lifecycle forwarding and `isPortraitMode` (which is a parameter).
- The sample application under `app/` and the ML Kit and Firebase clients are outside the model. Detection results are inputs.
- BarcodeSort.Sort: `sortedWith` uses the JDK's merge sort; the model uses a stable insertion sort driven by the same `compare(a, b) < 0` test. The two agree for the corrected comparator. For the as-written comparator the JDK's behaviour on an inconsistent order is not modelled.
- BarcodeView.CalculateRectForChild: its own contract states only that the edges fit in `Int`; what the rectangle is follows from ChildRectCentred, CenterInsideFits and CenterCropCovers.
- BarcodeView.CenterInsideFits: stated only for regular layouts, i.e. `Int` bounds whose width and height do not wrap around and a positive output size. The function itself is total.
- BarcodeView.CenterCropCovers: stated only for regular layouts, as above.
- BarcodeView.ChildRectCentred: stated only for regular layouts, as above.
- Scanner.MinWidthForBarcodes: a negative custom width, which `setMinBarcodeWidth` never stores, is only stated to give a value in `Int`'s range.
- Scanner.OnImageAvailable: the `NullPointerException` for a display rotation outside the table is modelled as a thrown action. The image it leaks is not tracked further.
- CameraSource.ChooseOutputSize: an empty size array makes `sizes[0]` throw; the model returns no size instead.
- CameraSource.GetOutputSize: throwing when the stream configuration map is missing is not modelled. A camera's sizes are always listed.

## Findings

| source | as written | input that shows it | evidently intended | confidence | as-written member | corrected member |
|---|---|---|---|---|---|---|
| kbarcode/src/main/java/uk/co/brightec/kbarcode/processor/sort/CentralBarcodeComparator.kt:17 | when the first barcode has no bounding box, `compare` returns 1 without looking at the second | two barcodes without a bounding box: `compare(a, b) == compare(b, a) == 1` | a `Comparator` must be antisymmetric, so two boxless barcodes should compare equal (0) | not executed | CentralComparator.BoxlessPairNotAntisymmetric | CentralComparator.CompareFixedIsRankOrder |
| kbarcode/src/main/java/uk/co/brightec/kbarcode/processor/BarcodeProcessorSingle.kt:61-63 | the list returned by `barcodes.sortedWith(resultSort)` is discarded and the unsorted list is published | results [boxless, boxed] with the centre-distance sort on a 200 x 200 frame are published in that order, though the comparator puts the boxless barcode last | publish the sorted list, as `BarcodeImageProcessor.kt:64` does | not executed | ProcessorSingle.SortResultDiscarded | ImageProcessor.OnSuccess |
