/**
 The camera source (`camera/Camera2Source.kt`): camera selection, output
 size negotiation, control-mode preference, device-error mapping, and the
 open -> configure -> repeat -> release lifecycle with tap-to-focus.

 The Camera2 objects are opaque: a camera is described by the
 characteristics the source reads, a capture session by an id, a capture
 request by the keys the source sets. Platform callbacks are explicit event
 functions and every side effect (close, open, report, capture) is an
 `Action` in the trace a transition returns.
 */
module CameraSource {
  import opened Common

  /** `CameraDevice.StateCallback.ERROR_*`. */
  const ERROR_CAMERA_IN_USE: int := 1
  const ERROR_MAX_CAMERAS_IN_USE: int := 2
  const ERROR_CAMERA_DISABLED: int := 3
  const ERROR_CAMERA_DEVICE: int := 4
  const ERROR_CAMERA_SERVICE: int := 5

  /** `CameraMetadata.CONTROL_*` values the source selects between. */
  const CONTROL_AF_MODE_OFF: int := 0
  const CONTROL_AF_MODE_AUTO: int := 1
  const CONTROL_AF_MODE_CONTINUOUS_PICTURE: int := 4
  const CONTROL_AE_MODE_OFF: int := 0
  const CONTROL_AE_MODE_ON: int := 1
  const CONTROL_AWB_MODE_OFF: int := 0
  const CONTROL_AWB_MODE_AUTO: int := 1
  const CONTROL_AF_TRIGGER_START: int := 1
  const CONTROL_AF_TRIGGER_CANCEL: int := 2

  /** The library's exception classes. */
  datatype ExceptionKind =
    | CameraError
    | CameraInUse
    | MaxCamerasInUse
    | CameraDisabled
    | CameraDeviceFatal
    | CameraServiceFatal
    | CameraSessionFailed
    | CameraAccess

  /** A platform exception a Camera2 call throws synchronously. */
  datatype PlatformError = AccessError | IllegalArgument | IllegalState | Security

  /** `MeteringRectangle`: a focus region and its weight. */
  datatype MeteringRectangle = MeteringRectangle(x: int, y: int, width: int, height: int, weight: int)

  /** The characteristics the source reads for one camera id. */
  datatype CameraInfo = CameraInfo(
    id: string,
    facing: Option<int>,
    sensorOrientation: Option<int>,
    activeArraySize: Option<Rect>,
    afModes: Option<seq<int>>,
    aeModes: Option<seq<int>>,
    awbModes: Option<seq<int>>,
    maxRegionsAf: Option<int>,
    maxRegionsAe: Option<int>,
    maxRegionsAwb: Option<int>,
    outputSizes: seq<Size>)

  type SessionId = int

  /**
   The mutable fields of `Camera2Source`. The open device is represented by
   its characteristics.
   */
  datatype Source = Source(
    device: Option<CameraInfo>,
    opening: bool,
    session: Option<SessionId>,
    surfaces: Option<seq<SurfaceId>>,
    requestedFacing: int,
    requestedFlashMode: int)
  {
    predicate IsStarted() { device.Some? }
    predicate IsOpening() { opening }
    /** Nothing held: the state `release()` leaves. */
    predicate Released() { device.None? && !opening && session.None? && surfaces.None? }
  }

  function Initial(): (s: Source)
    ensures s.Released() && s.requestedFacing == LENS_FACING_BACK && s.requestedFlashMode == FLASH_MODE_OFF
  {
    Source(None, false, None, None, LENS_FACING_BACK, FLASH_MODE_OFF)
  }

  /** The keys a capture request carries; `None` means the key is not set. */
  datatype CaptureRequest = CaptureRequest(
    flashMode: int,
    afRegions: Option<seq<MeteringRectangle>>,
    aeRegions: Option<seq<MeteringRectangle>>,
    awbRegions: Option<seq<MeteringRectangle>>,
    afMode: Option<int>,
    aeMode: Option<int>,
    awbMode: Option<int>,
    afTrigger: Option<int>,
    targets: seq<SurfaceId>)

  datatype Action =
    | CloseSession(session: SessionId)
    | CloseDevice(cameraId: string)
    | OpenCamera(cameraId: string)
    | ReportFailure(kind: ExceptionKind)
    | CameraReady
    | CreateSession(targets: seq<SurfaceId>)
    | SetRepeatingRequest(session: SessionId, request: CaptureRequest)
    | StopRepeating(session: SessionId)
    /** `focusCallback` is true for the trigger capture whose callbacks restart repeating. */
    | Capture(session: SessionId, request: CaptureRequest, focusCallback: bool)
    /** An exception no `catch` handles: it leaves the call, and nothing after it happens. */
    | Escape(error: PlatformError)

  /** The state after a call or callback, and what it did, in order. */
  datatype Step = Step(source: Source, actions: seq<Action>)

  /**
   Failures the platform may raise during a transition, one per kind of
   Camera2 call: the camera manager's `cameraIdList` and
   `getCameraCharacteristics` reads (`cameraQuery`); `openCamera`;
   `createCaptureSession`; the device's `createCaptureRequest`
   (`createRequest`, where an illegal argument means the preview template
   is rejected); `setRepeatingRequest`; and the `stopRepeating`, cancel
   `capture` and trigger `capture` of the focus calls. A call kind with a
   fault throws at its first use in the transition.
   */
  datatype Faults = Faults(
    cameraQuery: Option<PlatformError>,
    openCamera: Option<PlatformError>,
    createSession: Option<PlatformError>,
    createRequest: Option<PlatformError>,
    setRepeating: Option<PlatformError>,
    stopRepeating: Option<PlatformError>,
    cancelCapture: Option<PlatformError>,
    focusCapture: Option<PlatformError>)

  function NoFaults(): Faults {
    Faults(None, None, None, None, None, None, None, None)
  }

  /** The three Camera2 calls whose exceptions the source catches, each with its own `catch` list. */
  datatype CallSite = OpenCameraSite | CreateSessionSite | SetRepeatingSite

  /**
   Whether the `try` around a call catches an exception of that kind:
   `openCamera` catches access, argument and security exceptions;
   `createCaptureSession` and `setRepeatingRequest` catch access, argument
   and state exceptions. The camera manager's reads in `selectCamera`,
   `getOutputSize` and `requestFocus`, and the focus calls' `stopRepeating`,
   `createCaptureRequest` and `capture`, sit outside any `try`.
   */
  predicate Caught(site: CallSite, e: PlatformError) {
    match site
    case OpenCameraSite => e != IllegalState
    case CreateSessionSite => e != Security
    case SetRepeatingSite => e != Security
  }

  /** No action after an escaped exception. */
  predicate EscapesLast(st: Step) {
    forall i :: 0 <= i < |st.actions| - 1 ==> !st.actions[i].Escape?
  }

  /** The call ended with an exception escaping it. */
  predicate Escaped(st: Step) {
    |st.actions| > 0 && st.actions[|st.actions| - 1].Escape?
  }

  /** An escaped exception closes nothing and is not reported. */
  predicate EscapeClean(st: Step) {
    Escaped(st) ==> CountReports(st.actions) == 0 && forall i :: 0 <= i < |st.actions| ==> !IsClose(st.actions[i])
  }

  /** Neither a report nor an escaped exception. */
  predicate Quiet(a: seq<Action>) {
    forall i :: 0 <= i < |a| ==> !a[i].ReportFailure? && !a[i].Escape?
  }

  lemma QuietAppend(a: seq<Action>, b: seq<Action>)
    requires Quiet(a) && Quiet(b)
    ensures Quiet(a + b)
  {
    assert forall i :: 0 <= i < |a| ==> (a + b)[i] == a[i];
    assert forall i :: |a| <= i < |a + b| ==> (a + b)[i] == b[i - |a|];
  }

  /** A quiet prefix keeps every escape at the end. */
  lemma EscapesLastAfterQuiet(a: seq<Action>, st: Step)
    requires Quiet(a) && EscapesLast(st)
    ensures EscapesLast(Step(st.source, a + st.actions))
    ensures Escaped(st) ==> Escaped(Step(st.source, a + st.actions))
  {
    var t := a + st.actions;
    forall i | 0 <= i < |t| - 1 ensures !t[i].Escape? {
      if i >= |a| {
        assert t[i] == st.actions[i - |a|];
      }
    }
  }

  function CountReports(actions: seq<Action>): nat {
    if |actions| == 0 then 0
    else (if actions[0].ReportFailure? then 1 else 0) + CountReports(actions[1..])
  }

  /** At most one failure is reported, and only as the final action, with everything released. */
  predicate ReportsSafely(st: Step) {
    && CountReports(st.actions) <= 1
    && (CountReports(st.actions) == 1 ==>
          st.actions[|st.actions| - 1].ReportFailure? && st.source.Released())
  }

  lemma {:induction false} CountReportsAppend(a: seq<Action>, b: seq<Action>)
    ensures CountReports(a + b) == CountReports(a) + CountReports(b)
  {
    if |a| == 0 {
      assert a + b == b;
    } else {
      assert (a + b)[1..] == a[1..] + b;
      CountReportsAppend(a[1..], b);
    }
  }

  /** Actions that never report: closing handles. */
  predicate IsClose(a: Action) {
    a.CloseSession? || a.CloseDevice?
  }

  lemma {:induction false} CountReportsNone(a: seq<Action>)
    requires forall i :: 0 <= i < |a| ==> !a[i].ReportFailure?
    ensures CountReports(a) == 0
  {
    if |a| > 0 {
      CountReportsNone(a[1..]);
    }
  }

  // ---------------------------------------------------------------------
  // Release and failure reporting
  // ---------------------------------------------------------------------

  function ReleaseActions(s: Source): seq<Action> {
    (if s.session.Some? then [CloseSession(s.session.value)] else [])
    + (if s.device.Some? then [CloseDevice(s.device.value.id)] else [])
  }

  /** `release()`: close the session, then the device, and forget the surfaces. */
  function Release(s: Source): (st: Step)
    ensures st.source.Released()
    ensures !st.source.IsStarted() && !st.source.IsOpening()
    ensures st.source.requestedFacing == s.requestedFacing
    ensures st.source.requestedFlashMode == s.requestedFlashMode
    ensures s.session.Some? ==> CloseSession(s.session.value) in st.actions
    ensures s.device.Some? ==> CloseDevice(s.device.value.id) in st.actions
    ensures forall a :: a in st.actions ==> IsClose(a)
    ensures CountReports(st.actions) == 0
    ensures |st.actions| <= 2
  {
    var acts := ReleaseActions(s);
    CountReportsNone(acts);
    Step(s.(device := None, opening := false, session := None, surfaces := None), acts)
  }

  /** `releaseCameraAndReportException`: release, then tell the listener (when there is one). */
  function ReleaseAndReport(s: Source, listener: bool, kind: ExceptionKind): (st: Step)
    ensures st.source == Release(s).source
    ensures ReportsSafely(st)
    ensures CountReports(st.actions) == (if listener then 1 else 0)
    ensures listener ==> st.actions == Release(s).actions + [ReportFailure(kind)]
    ensures !listener ==> st.actions == Release(s).actions
    ensures forall a :: a in st.actions ==> !a.Escape?
  {
    var r := Release(s);
    var report := if listener then [ReportFailure(kind)] else [];
    CountReportsAppend(r.actions, report);
    Step(r.source, r.actions + report)
  }

  /**
   A fault at a call site: a caught exception releases and reports its
   kind; any other escapes the call, releasing nothing and reporting
   nothing.
   */
  function Fail(s: Source, listener: bool, site: CallSite, e: PlatformError): (st: Step)
    ensures ReportsSafely(st) && EscapesLast(st) && EscapeClean(st)
    ensures Caught(site, e) ==> st == ReleaseAndReport(s, listener, KindFromCause(e)) && !Escaped(st)
    ensures !Caught(site, e) ==> st == Step(s, [Escape(e)]) && CountReports(st.actions) == 0
  {
    if Caught(site, e) then ReleaseAndReport(s, listener, KindFromCause(e))
    else
      CountReportsNone([Escape(e)]);
      Step(s, [Escape(e)])
  }

  /**
   The exception kind a caught platform exception is wrapped into: an access
   exception keeps its kind, everything else becomes the generic one.
   */
  function KindFromCause(cause: PlatformError): (k: ExceptionKind)
    ensures k == CameraAccess <==> cause == AccessError
    ensures k != CameraAccess ==> k == CameraError
  {
    if cause == AccessError then CameraAccess else CameraError
  }

  // ---------------------------------------------------------------------
  // Pure selection functions
  // ---------------------------------------------------------------------

  /** `createExceptionFromCameraDeviceError`. */
  function ExceptionFromDeviceError(code: int): (k: ExceptionKind)
    ensures k == CameraError <==> !(ERROR_CAMERA_IN_USE <= code <= ERROR_CAMERA_SERVICE)
    ensures k != CameraSessionFailed && k != CameraAccess
  {
    if code == ERROR_CAMERA_IN_USE then CameraInUse
    else if code == ERROR_MAX_CAMERAS_IN_USE then MaxCamerasInUse
    else if code == ERROR_CAMERA_DISABLED then CameraDisabled
    else if code == ERROR_CAMERA_DEVICE then CameraDeviceFatal
    else if code == ERROR_CAMERA_SERVICE then CameraServiceFatal
    else CameraError
  }

  /** The device error code each specific kind stands for. */
  function DeviceErrorCode(k: ExceptionKind): Option<int> {
    match k
    case CameraInUse => Some(ERROR_CAMERA_IN_USE)
    case MaxCamerasInUse => Some(ERROR_MAX_CAMERAS_IN_USE)
    case CameraDisabled => Some(ERROR_CAMERA_DISABLED)
    case CameraDeviceFatal => Some(ERROR_CAMERA_DEVICE)
    case CameraServiceFatal => Some(ERROR_CAMERA_SERVICE)
    case _ => None
  }

  /** The device-error mapping is one-to-one on the five platform codes. */
  lemma DeviceErrorRoundTrip(code: int, k: ExceptionKind)
    ensures ERROR_CAMERA_IN_USE <= code <= ERROR_CAMERA_SERVICE ==>
              DeviceErrorCode(ExceptionFromDeviceError(code)) == Some(code)
    ensures DeviceErrorCode(k).Some? ==> ExceptionFromDeviceError(DeviceErrorCode(k).value) == k
    ensures DeviceErrorCode(ExceptionFromDeviceError(code)).None? ==>
              ExceptionFromDeviceError(code) == CameraError
  {
  }

  /** Index of the first camera whose reported facing is `facing`. */
  function FirstWithFacing(cameras: seq<CameraInfo>, facing: int): (r: Option<nat>)
    ensures r.Some? ==> r.value < |cameras| && cameras[r.value].facing == Some(facing)
    ensures r.Some? ==> forall j :: 0 <= j < r.value ==> cameras[j].facing != Some(facing)
    ensures r.None? ==> forall j :: 0 <= j < |cameras| ==> cameras[j].facing != Some(facing)
  {
    if |cameras| == 0 then None
    else if cameras[0].facing == Some(facing) then Some(0)
    else
      match FirstWithFacing(cameras[1..], facing)
      case None => None
      case Some(i) => Some(i + 1)
  }

  /** `selectCamera()`, as an index into the camera-id list. */
  function SelectCameraIndex(cameras: seq<CameraInfo>, requestedFacing: int): (r: Option<nat>)
    ensures r.None? <==> |cameras| == 0
    ensures r.Some? ==> r.value < |cameras|
    ensures r.Some? && cameras[r.value].facing == Some(requestedFacing) ==>
              forall j :: 0 <= j < r.value ==> cameras[j].facing != Some(requestedFacing)
    ensures r.Some? && cameras[r.value].facing != Some(requestedFacing) ==>
              r.value == 0 && forall j :: 0 <= j < |cameras| ==> cameras[j].facing != Some(requestedFacing)
  {
    if |cameras| == 0 then None
    else
      match FirstWithFacing(cameras, requestedFacing)
      case Some(i) => Some(i)
      case None => Some(0)
  }

  /** `selectCamera()`: the id to open, if any. */
  function SelectCamera(cameras: seq<CameraInfo>, requestedFacing: int): (r: Option<string>)
    ensures r.None? <==> |cameras| == 0
    ensures r.Some? ==> exists i :: 0 <= i < |cameras| && cameras[i].id == r.value
  {
    match SelectCameraIndex(cameras, requestedFacing)
    case None => None
    case Some(i) => Some(cameras[i].id)
  }

  /** A matching facing wins over position; without one the first id is used. */
  lemma SelectCameraPrefersFacing(cameras: seq<CameraInfo>, requestedFacing: int, i: nat)
    requires i < |cameras| && cameras[i].facing == Some(requestedFacing)
    requires forall j :: 0 <= j < i ==> cameras[j].facing != Some(requestedFacing)
    ensures SelectCamera(cameras, requestedFacing) == Some(cameras[i].id)
  {
  }

  /** Index of the first size of greatest width. */
  function WidestIndex(sizes: seq<Size>): (i: nat)
    requires |sizes| > 0
    ensures i < |sizes|
    ensures forall j :: 0 <= j < |sizes| ==> sizes[j].width <= sizes[i].width
    ensures forall j :: 0 <= j < i ==> sizes[j].width < sizes[i].width
  {
    if |sizes| == 1 then 0
    else
      var k := WidestIndex(sizes[..|sizes| - 1]);
      if sizes[k].width < sizes[|sizes| - 1].width then |sizes| - 1 else k
  }

  /** Index of the first size of least width among those wider than `minWidth`. */
  function NarrowestAboveIndex(sizes: seq<Size>, minWidth: int): (r: Option<nat>)
    ensures r.None? <==> forall j :: 0 <= j < |sizes| ==> sizes[j].width <= minWidth
    ensures r.Some? ==> r.value < |sizes| && sizes[r.value].width > minWidth
    ensures r.Some? ==> forall j :: 0 <= j < |sizes| && sizes[j].width > minWidth ==>
              sizes[r.value].width <= sizes[j].width
    ensures r.Some? ==> forall j :: 0 <= j < r.value && sizes[j].width > minWidth ==>
              sizes[r.value].width < sizes[j].width
  {
    if |sizes| == 0 then None
    else
      var last := sizes[|sizes| - 1];
      match NarrowestAboveIndex(sizes[..|sizes| - 1], minWidth)
      case None => if last.width > minWidth then Some(|sizes| - 1) else None
      case Some(k) =>
        if last.width > minWidth && last.width < sizes[k].width then Some(|sizes| - 1) else Some(k)
  }

  /**
   `chooseOutputSize`: the narrowest size strictly wider than `minWidth`, or
   the widest size when none is. An empty list is the `sizes[0]` failure.
   */
  function ChooseOutputSize(sizes: seq<Size>, minWidth: int): (r: Option<Size>)
    ensures r.None? <==> |sizes| == 0
    ensures r.Some? ==> r.value in sizes
    ensures r.Some? && (exists j :: 0 <= j < |sizes| && sizes[j].width > minWidth) ==>
              r.value.width > minWidth
              && forall j :: 0 <= j < |sizes| && sizes[j].width > minWidth ==> r.value.width <= sizes[j].width
    ensures r.Some? && (forall j :: 0 <= j < |sizes| ==> sizes[j].width <= minWidth) ==>
              forall j :: 0 <= j < |sizes| ==> sizes[j].width <= r.value.width
  {
    match NarrowestAboveIndex(sizes, minWidth)
    case Some(i) => Some(sizes[i])
    case None => if |sizes| == 0 then None else Some(sizes[WidestIndex(sizes)])
  }

  /** The three cases pinned by the source's tests. */
  lemma ChooseOutputSizeExamples()
    ensures ChooseOutputSize([Size(1, 1), Size(2, 2), Size(4, 4), Size(5, 5)], 3) == Some(Size(4, 4))
    ensures ChooseOutputSize([Size(2, 2), Size(3, 3)], 1) == Some(Size(2, 2))
    ensures ChooseOutputSize([Size(1, 1), Size(2, 2)], 3) == Some(Size(2, 2))
  {
    var a := [Size(1, 1), Size(2, 2), Size(4, 4), Size(5, 5)];
    assert a[2].width > 3;
    var b := [Size(2, 2), Size(3, 3)];
    assert b[0].width > 1;
    var c := [Size(1, 1), Size(2, 2)];
    assert forall j :: 0 <= j < |c| ==> c[j].width <= 3;
  }

  function Contains(xs: Option<seq<int>>, x: int): bool {
    xs.Some? && x in xs.value
  }

  /** `selectBestContinuousAfMode`: continuous-picture, else auto, else off. */
  function BestAfMode(available: Option<seq<int>>): (m: int)
    ensures m == CONTROL_AF_MODE_CONTINUOUS_PICTURE <==> Contains(available, CONTROL_AF_MODE_CONTINUOUS_PICTURE)
    ensures m == CONTROL_AF_MODE_AUTO <==>
              !Contains(available, CONTROL_AF_MODE_CONTINUOUS_PICTURE) && Contains(available, CONTROL_AF_MODE_AUTO)
    ensures m == CONTROL_AF_MODE_OFF <==>
              !Contains(available, CONTROL_AF_MODE_CONTINUOUS_PICTURE) && !Contains(available, CONTROL_AF_MODE_AUTO)
  {
    if available.None? then CONTROL_AF_MODE_OFF
    else if CONTROL_AF_MODE_CONTINUOUS_PICTURE in available.value then CONTROL_AF_MODE_CONTINUOUS_PICTURE
    else if CONTROL_AF_MODE_AUTO in available.value then CONTROL_AF_MODE_AUTO
    else CONTROL_AF_MODE_OFF
  }

  /** `selectBestContinuousAeMode`: on when available, else off. */
  function BestAeMode(available: Option<seq<int>>): (m: int)
    ensures m == CONTROL_AE_MODE_ON <==> Contains(available, CONTROL_AE_MODE_ON)
    ensures m != CONTROL_AE_MODE_ON ==> m == CONTROL_AE_MODE_OFF
  {
    if available.None? then CONTROL_AE_MODE_OFF
    else if CONTROL_AE_MODE_ON in available.value then CONTROL_AE_MODE_ON
    else CONTROL_AE_MODE_OFF
  }

  /** `selectBestContinuousAwbMode`: auto when available, else off. */
  function BestAwbMode(available: Option<seq<int>>): (m: int)
    ensures m == CONTROL_AWB_MODE_AUTO <==> Contains(available, CONTROL_AWB_MODE_AUTO)
    ensures m != CONTROL_AWB_MODE_AUTO ==> m == CONTROL_AWB_MODE_OFF
  {
    if available.None? then CONTROL_AWB_MODE_OFF
    else if CONTROL_AWB_MODE_AUTO in available.value then CONTROL_AWB_MODE_AUTO
    else CONTROL_AWB_MODE_OFF
  }

  /** With unknown capabilities every control falls back to off; the preference never goes down. */
  lemma ModePreference(available: seq<int>)
    ensures BestAfMode(None) == CONTROL_AF_MODE_OFF && BestAeMode(None) == CONTROL_AE_MODE_OFF
    ensures BestAwbMode(None) == CONTROL_AWB_MODE_OFF
    ensures BestAfMode(Some(available + [CONTROL_AF_MODE_CONTINUOUS_PICTURE])) == CONTROL_AF_MODE_CONTINUOUS_PICTURE
    ensures BestAfMode(Some(available)) != CONTROL_AF_MODE_OFF ==>
              BestAfMode(Some(available + [CONTROL_AF_MODE_AUTO])) == BestAfMode(Some(available))
  {
    assert CONTROL_AF_MODE_CONTINUOUS_PICTURE in available + [CONTROL_AF_MODE_CONTINUOUS_PICTURE];
    assert forall x :: x in available ==> x in available + [CONTROL_AF_MODE_AUTO];
    assert CONTROL_AF_MODE_AUTO in available + [CONTROL_AF_MODE_AUTO];
    assert forall x :: x in available + [CONTROL_AF_MODE_AUTO] && x != CONTROL_AF_MODE_AUTO ==> x in available;
  }

  // ---------------------------------------------------------------------
  // Queries on the open device
  // ---------------------------------------------------------------------

  function AfModes(s: Source): Option<seq<int>> {
    if s.device.None? then None else s.device.value.afModes
  }

  function AeModes(s: Source): Option<seq<int>> {
    if s.device.None? then None else s.device.value.aeModes
  }

  function AwbModes(s: Source): Option<seq<int>> {
    if s.device.None? then None else s.device.value.awbModes
  }

  function CameraFacing(s: Source): Option<int> {
    if s.device.None? then None else s.device.value.facing
  }

  function SensorOrientation(s: Source): Option<int> {
    if s.device.None? then None else s.device.value.sensorOrientation
  }

  function ActiveArraySize(s: Source): Option<Rect> {
    if s.device.None? then None else s.device.value.activeArraySize
  }

  /** A region count key allows regions when it is present and positive. */
  function AllowsRegions(maxRegions: Option<int>): bool {
    maxRegions.Some? && maxRegions.value > 0
  }

  /** What `getOutputSize` gives: a size or none, or the exception a camera manager read threw. */
  datatype SizeQuery = Answered(size: Option<Size>) | QueryThrew(error: PlatformError)

  /**
   `getOutputSize`: the sizes of the open camera, or of the camera `start`
   would open, negotiated against `minWidth`. Either way the camera manager
   is read first (`getCameraCharacteristics`, or `cameraIdList` in
   `selectCamera`), outside any `try`, so a failing read escapes.
   */
  function GetOutputSize(s: Source, cameras: seq<CameraInfo>, minWidth: int, query: Option<PlatformError>)
    : (r: SizeQuery)
    ensures r.QueryThrew? <==> query.Some?
    ensures query.Some? ==> r.error == query.value
    ensures query.None? && s.device.Some? ==> r == Answered(ChooseOutputSize(s.device.value.outputSizes, minWidth))
    ensures query.None? && s.device.None? && |cameras| == 0 ==> r == Answered(None)
    ensures query.None? && s.device.None? && |cameras| > 0 ==>
              var i := SelectCameraIndex(cameras, s.requestedFacing).value;
              && cameras[i].id == SelectCamera(cameras, s.requestedFacing).value
              && r == Answered(ChooseOutputSize(cameras[i].outputSizes, minWidth))
  {
    if query.Some? then QueryThrew(query.value)
    else if s.device.Some? then Answered(ChooseOutputSize(s.device.value.outputSizes, minWidth))
    else
      match SelectCameraIndex(cameras, s.requestedFacing)
      case None => Answered(None)
      case Some(i) => Answered(ChooseOutputSize(cameras[i].outputSizes, minWidth))
  }

  /**
   Before any device is open, the size is the one the device `start` then
   opens would give: `start` opens the selected camera, and once it is open
   the size is read from it.
   */
  lemma OutputSizeOfCameraStarted(s: Source, cameras: seq<CameraInfo>, minWidth: int, listener: bool)
    requires s.Released() && |cameras| > 0
    ensures var i := SelectCameraIndex(cameras, s.requestedFacing).value;
            && Start(s, cameras, listener, NoFaults()).actions == [OpenCamera(cameras[i].id)]
            && GetOutputSize(s, cameras, minWidth, None) == GetOutputSize(s.(device := Some(cameras[i])), [], minWidth, None)
  {
  }

  // ---------------------------------------------------------------------
  // Capture requests
  // ---------------------------------------------------------------------

  datatype BuilderOutcome = Built(request: CaptureRequest) | BuildFailed(step: Step) | BuildThrew(error: PlatformError)

  /** The preview template is rejected: `createCaptureRequest` throws the one exception the builder catches. */
  predicate TemplateRejected(faults: Faults) {
    faults.createRequest == Some(IllegalArgument)
  }

  /**
   The exception that leaves the builder, in call order: any other from
   `createCaptureRequest`, then a failing region-count read, which happens
   only when regions are given.
   */
  function BuildFault(regions: Option<seq<MeteringRectangle>>, faults: Faults): Option<PlatformError> {
    if faults.createRequest.Some? then faults.createRequest
    else if regions.Some? then faults.cameraQuery
    else None
  }

  /**
   `createDefaultCaptureRequestBuilder`: a preview request carrying the
   requested flash mode and targeting every current surface; focus regions
   are set for each of AF, AE and AWB only when the device accepts regions
   for it. Without a device, without surfaces, or when the template is
   rejected, the source is released and the failure reported instead. Any
   other exception from `createCaptureRequest`, or from the region-count
   reads, leaves the builder for its caller to catch or not.
   */
  function DefaultRequest(s: Source, listener: bool, regions: Option<seq<MeteringRectangle>>, faults: Faults)
    : (r: BuilderOutcome)
    ensures r.BuildFailed? <==> s.device.None? || s.surfaces.None? || TemplateRejected(faults)
    ensures r.BuildThrew? <==> s.device.Some? && s.surfaces.Some? && !TemplateRejected(faults) && BuildFault(regions, faults).Some?
    ensures r.Built? <==> s.device.Some? && s.surfaces.Some? && BuildFault(regions, faults).None?
    ensures r.BuildFailed? ==> r.step == ReleaseAndReport(s, listener, CameraError)
    ensures r.BuildThrew? ==> r.error == BuildFault(regions, faults).value
    ensures r.Built? ==> r.request.targets == s.surfaces.value && r.request.flashMode == s.requestedFlashMode
    ensures r.Built? ==> r.request.afMode.None? && r.request.aeMode.None? && r.request.awbMode.None?
    ensures r.Built? ==> r.request.afTrigger.None?
    ensures r.Built? ==> (r.request.afRegions.Some? <==> regions.Some? && AllowsRegions(s.device.value.maxRegionsAf))
    ensures r.Built? ==> (r.request.aeRegions.Some? <==> regions.Some? && AllowsRegions(s.device.value.maxRegionsAe))
    ensures r.Built? ==> (r.request.awbRegions.Some? <==> regions.Some? && AllowsRegions(s.device.value.maxRegionsAwb))
    ensures r.Built? ==> forall rs :: rs in [r.request.afRegions, r.request.aeRegions, r.request.awbRegions] && rs.Some? ==> rs == regions
  {
    if s.device.None? || s.surfaces.None? || TemplateRejected(faults) then
      BuildFailed(ReleaseAndReport(s, listener, CameraError))
    else if BuildFault(regions, faults).Some? then BuildThrew(BuildFault(regions, faults).value)
    else
      var d := s.device.value;
      var af := if regions.Some? && AllowsRegions(d.maxRegionsAf) then regions else None;
      var ae := if regions.Some? && AllowsRegions(d.maxRegionsAe) then regions else None;
      var awb := if regions.Some? && AllowsRegions(d.maxRegionsAwb) then regions else None;
      Built(CaptureRequest(s.requestedFlashMode, af, ae, awb, None, None, None, None, s.surfaces.value))
  }

  /**
   The first exception thrown inside `createRepeatingRequest`'s `try` once
   the builder has a device and surfaces, in call order: the builder's
   `createCaptureRequest` (other than a rejected template), a camera manager
   read (the region counts or the best-mode lookups), `setRepeatingRequest`.
   */
  function RepeatingFault(faults: Faults): Option<PlatformError> {
    if faults.createRequest.Some? then faults.createRequest
    else if faults.cameraQuery.Some? then faults.cameraQuery
    else faults.setRepeating
  }

  /**
   `createRepeatingRequest`: the default request with the best continuous
   AF/AE/AWB modes, set repeating on `session`. A failure in building the
   request releases and reports; an exception inside the `try` releases and
   reports when the `catch` list has it, and escapes otherwise.
   */
  function CreateRepeatingRequest(s: Source, session: SessionId, listener: bool,
                                  regions: Option<seq<MeteringRectangle>>, faults: Faults): (st: Step)
    ensures ReportsSafely(st) && EscapesLast(st) && EscapeClean(st)
    ensures s.device.None? || s.surfaces.None? || TemplateRejected(faults) ==>
              st == ReleaseAndReport(s, listener, CameraError)
    ensures s.device.Some? && s.surfaces.Some? && !TemplateRejected(faults) && RepeatingFault(faults).Some?
            && Caught(SetRepeatingSite, RepeatingFault(faults).value) ==>
              st == ReleaseAndReport(s, listener, KindFromCause(RepeatingFault(faults).value))
    ensures Escaped(st) <==> s.device.Some? && s.surfaces.Some? && !TemplateRejected(faults)
                             && RepeatingFault(faults).Some? && !Caught(SetRepeatingSite, RepeatingFault(faults).value)
    ensures Escaped(st) ==> st == Step(s, [Escape(RepeatingFault(faults).value)])
    ensures st.source == s || st.source == Release(s).source
    ensures (exists req :: st.actions == [SetRepeatingRequest(session, req)]) ==> st.source == s
    ensures s.device.Some? && s.surfaces.Some? && RepeatingFault(faults).None? ==>
              && st.source == s
              && |st.actions| == 1
              && st.actions[0].SetRepeatingRequest?
              && st.actions[0].session == session
              && st.actions[0].request.afMode == Some(BestAfMode(AfModes(s)))
              && st.actions[0].request.aeMode == Some(BestAeMode(AeModes(s)))
              && st.actions[0].request.awbMode == Some(BestAwbMode(AwbModes(s)))
              && (st.actions[0].request.afRegions.Some? <==> regions.Some? && AllowsRegions(s.device.value.maxRegionsAf))
  {
    match DefaultRequest(s, listener, regions, faults)
    case BuildFailed(failed) => failed
    case BuildThrew(e) => Fail(s, listener, SetRepeatingSite, e)
    case Built(req) =>
      var withModes := req.(afMode := Some(BestAfMode(AfModes(s))),
                            aeMode := Some(BestAeMode(AeModes(s))),
                            awbMode := Some(BestAwbMode(AwbModes(s))));
      if faults.cameraQuery.Some? then Fail(s, listener, SetRepeatingSite, faults.cameraQuery.value)
      else if faults.setRepeating.Some? then Fail(s, listener, SetRepeatingSite, faults.setRepeating.value)
      else
        CountReportsNone([SetRepeatingRequest(session, withModes)]);
        Step(s, [SetRepeatingRequest(session, withModes)])
  }

  // ---------------------------------------------------------------------
  // Lifecycle
  // ---------------------------------------------------------------------

  /**
   `start(surfaces, listener)`: a no-op while a device is open or an open is
   in flight; a failing camera manager read in `selectCamera` escapes before
   anything changes; with no camera to select it releases and reports a
   service failure; otherwise it marks the open as in flight and opens
   exactly the selected camera.
   */
  function Start(s: Source, cameras: seq<CameraInfo>, listener: bool, faults: Faults): (st: Step)
    ensures ReportsSafely(st) && EscapesLast(st) && EscapeClean(st)
    ensures s.IsStarted() || s.IsOpening() ==> st == Step(s, [])
    ensures !s.IsStarted() && !s.IsOpening() && faults.cameraQuery.Some? ==>
              st == Step(s, [Escape(faults.cameraQuery.value)])
    ensures !s.IsStarted() && !s.IsOpening() && faults.cameraQuery.None? && |cameras| == 0 ==>
              st == ReleaseAndReport(s, listener, CameraServiceFatal)
    ensures !s.IsStarted() && !s.IsOpening() && faults.cameraQuery.None? && |cameras| > 0 && faults.openCamera.None? ==>
              && st.source == s.(opening := true)
              && st.actions == [OpenCamera(SelectCamera(cameras, s.requestedFacing).value)]
    ensures !s.IsStarted() && !s.IsOpening() && faults.cameraQuery.None? && |cameras| > 0 && faults.openCamera.Some?
            && Caught(OpenCameraSite, faults.openCamera.value) ==>
              st == ReleaseAndReport(s.(opening := true), listener, KindFromCause(faults.openCamera.value))
    ensures !s.IsStarted() && !s.IsOpening() && faults.cameraQuery.None? && |cameras| > 0 && faults.openCamera.Some?
            && !Caught(OpenCameraSite, faults.openCamera.value) ==>
              st == Step(s.(opening := true), [Escape(faults.openCamera.value)])
  {
    if s.device.Some? || s.opening then Step(s, [])
    else if faults.cameraQuery.Some? then
      CountReportsNone([Escape(faults.cameraQuery.value)]);
      Step(s, [Escape(faults.cameraQuery.value)])
    else
      match SelectCamera(cameras, s.requestedFacing)
      case None => ReleaseAndReport(s, listener, CameraServiceFatal)
      case Some(id) =>
        var opening := s.(opening := true);
        if faults.openCamera.Some? then Fail(opening, listener, OpenCameraSite, faults.openCamera.value)
        else
          CountReportsNone([OpenCamera(id)]);
          Step(opening, [OpenCamera(id)])
  }

  /**
   `createCaptureSession`: ask the device for a session over `surfaces`;
   a synchronous exception releases and reports.
   */
  function CreateCaptureSession(s: Source, surfaces: seq<SurfaceId>, listener: bool, faults: Faults): (st: Step)
    ensures ReportsSafely(st) && EscapesLast(st) && EscapeClean(st)
    ensures s.device.None? ==> st == Step(s, [])
    ensures s.device.Some? && faults.createSession.None? ==> st == Step(s, [CreateSession(surfaces)])
    ensures s.device.Some? && faults.createSession.Some? && Caught(CreateSessionSite, faults.createSession.value) ==>
              st == ReleaseAndReport(s, listener, KindFromCause(faults.createSession.value))
    ensures s.device.Some? && faults.createSession.Some? && !Caught(CreateSessionSite, faults.createSession.value) ==>
              st == Step(s, [Escape(faults.createSession.value)])
  {
    if s.device.None? then Step(s, [])
    else if faults.createSession.Some? then Fail(s, listener, CreateSessionSite, faults.createSession.value)
    else
      CountReportsNone([CreateSession(surfaces)]);
      Step(s, [CreateSession(surfaces)])
  }

  predicate AnyInvalid(surfaces: seq<SurfaceId>, invalid: set<SurfaceId>) {
    exists i :: 0 <= i < |surfaces| && surfaces[i] in invalid
  }

  /**
   The `onOpened` callback: the open is no longer in flight and the device
   is recorded. If any of the surfaces `start` was given has become invalid
   the source is released (closing that device) and one failure reported,
   without a ready callback; otherwise the listener hears it is ready and a
   session is requested over the same surfaces.
   */
  function OnOpened(s: Source, camera: CameraInfo, surfaces: seq<SurfaceId>, invalid: set<SurfaceId>,
                    listener: bool, faults: Faults): (st: Step)
    ensures ReportsSafely(st) && EscapesLast(st) && EscapeClean(st)
    ensures AnyInvalid(surfaces, invalid) ==>
              && st == ReleaseAndReport(s.(opening := false, device := Some(camera)), listener, CameraError)
              && CloseDevice(camera.id) in st.actions
              && CameraReady !in st.actions
    ensures !AnyInvalid(surfaces, invalid) && faults.createSession.None? ==>
              && st.source == s.(opening := false, device := Some(camera))
              && st.actions == (if listener then [CameraReady] else []) + [CreateSession(surfaces)]
  {
    var afterOpen := s.(opening := false, device := Some(camera));
    if AnyInvalid(surfaces, invalid) then
      ReleaseAndReport(afterOpen, listener, CameraError)
    else
      var ready := if listener then [CameraReady] else [];
      var next := CreateCaptureSession(afterOpen, surfaces, listener, faults);
      CountReportsNone(ready);
      CountReportsAppend(ready, next.actions);
      EscapesLastAfterQuiet(ready, next);
      Step(next.source, ready + next.actions)
  }

  /** The `onDisconnected` callback: release, report nothing. */
  function OnDisconnected(s: Source): (st: Step)
    ensures st == Release(s)
    ensures ReportsSafely(st) && CountReports(st.actions) == 0
  {
    Release(s)
  }

  /** The `onError` callback: release and report the kind the code maps to. */
  function OnError(s: Source, code: int, listener: bool): (st: Step)
    ensures st == ReleaseAndReport(s, listener, ExceptionFromDeviceError(code))
    ensures ReportsSafely(st)
  {
    ReleaseAndReport(s, listener, ExceptionFromDeviceError(code))
  }

  /**
   The session `onConfigured` callback: ignored once the device is gone;
   otherwise the session and surfaces are recorded and the repeating preview
   request is started.
   */
  function OnConfigured(s: Source, session: SessionId, surfaces: seq<SurfaceId>, listener: bool, faults: Faults): (st: Step)
    ensures ReportsSafely(st) && EscapesLast(st) && EscapeClean(st)
    ensures s.device.None? ==> st == Step(s, [])
    ensures s.device.Some? && RepeatingFault(faults).None? ==>
              && st.source == s.(session := Some(session), surfaces := Some(surfaces))
              && |st.actions| == 1 && st.actions[0].SetRepeatingRequest?
              && st.actions[0].request.targets == surfaces
  {
    if s.device.None? then Step(s, [])
    else CreateRepeatingRequest(s.(session := Some(session), surfaces := Some(surfaces)), session, listener, None, faults)
  }

  /** The session `onConfigureFailed` callback: release and report a session failure. */
  function OnConfigureFailed(s: Source, listener: bool): (st: Step)
    ensures st == ReleaseAndReport(s, listener, CameraSessionFailed)
    ensures ReportsSafely(st)
  {
    ReleaseAndReport(s, listener, CameraSessionFailed)
  }

  // ---------------------------------------------------------------------
  // Focus
  // ---------------------------------------------------------------------

  /** `requestFocus` reads the camera manager: it has a session and a device to ask about. */
  predicate FocusQueried(s: Source) {
    s.session.Some? && s.device.Some?
  }

  /** The guards of `requestFocus`: a session, AUTO among the AF modes, room for an AF region. */
  predicate CanFocus(s: Source) {
    s.session.Some? && Contains(AfModes(s), CONTROL_AF_MODE_AUTO) && AllowsRegions(s.device.value.maxRegionsAf)
  }

  /**
   The first of `requestFocus`'s uncaught faults, in call order: the
   camera manager reads, `stopRepeating`, `createCaptureRequest`, the
   cancel `capture`, the trigger `capture`.
   */
  function FirstFocusFault(faults: Faults): Option<PlatformError> {
    if faults.cameraQuery.Some? then faults.cameraQuery
    else if faults.stopRepeating.Some? then faults.stopRepeating
    else if faults.createRequest.Some? then faults.createRequest
    else if faults.cancelCapture.Some? then faults.cancelCapture
    else faults.focusCapture
  }

  /** None of the calls `requestFocus` makes outside a `try` throws. */
  predicate FocusCallsSucceed(faults: Faults) {
    FirstFocusFault(faults).None?
  }

  /**
   The rest of `requestFocus` once repeating has stopped: capture an AF
   cancel, then an AF start over the regions.
   */
  function FocusCaptures(s: Source, regions: seq<MeteringRectangle>, faults: Faults): (st: Step)
    requires CanFocus(s) && faults.cameraQuery.None? && faults.stopRepeating.None?
    ensures ReportsSafely(st) && CountReports(st.actions) == 0 && EscapesLast(st) && EscapeClean(st)
    ensures Escaped(st) ==> st.source == s && FirstFocusFault(faults) == Some(st.actions[|st.actions| - 1].error)
    ensures s.surfaces.Some? && !TemplateRejected(faults) ==> (Escaped(st) <==> !FocusCallsSucceed(faults))
    ensures s.surfaces.Some? && FocusCallsSucceed(faults) ==>
              && st.source == s
              && |st.actions| == 2
              && st.actions[0].Capture? && !st.actions[0].focusCallback
              && st.actions[0].request.afTrigger == Some(CONTROL_AF_TRIGGER_CANCEL)
              && st.actions[0].request.afRegions.None?
              && st.actions[1].Capture? && st.actions[1].focusCallback
              && st.actions[1].request.afTrigger == Some(CONTROL_AF_TRIGGER_START)
              && st.actions[1].request.afMode == Some(CONTROL_AF_MODE_AUTO)
              && st.actions[1].request.afRegions == Some(regions)
  {
    var session := s.session.value;
    match DefaultRequest(s, false, None, faults)
    case BuildFailed(failed) => failed
    case BuildThrew(e) =>
      CountReportsNone([Escape(e)]);
      Step(s, [Escape(e)])
    case Built(cancel) =>
      if faults.cancelCapture.Some? then
        CountReportsNone([Escape(faults.cancelCapture.value)]);
        Step(s, [Escape(faults.cancelCapture.value)])
      else
        var cancelCapture := [Capture(session, cancel.(afTrigger := Some(CONTROL_AF_TRIGGER_CANCEL)), false)];
        assert Quiet(cancelCapture);
        match DefaultRequest(s, false, Some(regions), faults)
        case BuildFailed(failed) =>
          CountReportsNone(cancelCapture);
          CountReportsAppend(cancelCapture, failed.actions);
          EscapesLastAfterQuiet(cancelCapture, failed);
          Step(failed.source, cancelCapture + failed.actions)
        case BuildThrew(e) =>
          var acts := cancelCapture + [Escape(e)];
          CountReportsNone(acts);
          Step(s, acts)
        case Built(focus) =>
          if faults.focusCapture.Some? then
            var acts := cancelCapture + [Escape(faults.focusCapture.value)];
            CountReportsNone(acts);
            Step(s, acts)
          else
            var trigger := focus.(afMode := Some(CONTROL_AF_MODE_AUTO), afTrigger := Some(CONTROL_AF_TRIGGER_START));
            var acts := cancelCapture + [Capture(session, trigger, true)];
            CountReportsNone(acts);
            Step(s, acts)
  }

  /** A quiet prefix keeps an escape clean. */
  lemma EscapeCleanAfterQuiet(a: seq<Action>, st: Step)
    requires Quiet(a) && EscapeClean(st) && CountReports(st.actions) == 0
    requires forall i :: 0 <= i < |a| ==> !IsClose(a[i])
    ensures EscapeClean(Step(st.source, a + st.actions))
  {
    var t := a + st.actions;
    CountReportsNone(a);
    CountReportsAppend(a, st.actions);
    if Escaped(Step(st.source, t)) && |st.actions| > 0 {
      assert t[|t| - 1] == st.actions[|st.actions| - 1];
      assert forall i :: |a| <= i < |t| ==> t[i] == st.actions[i - |a|];
    }
    if |st.actions| == 0 {
      assert t == a;
    }
  }

  /**
   `requestFocus(regions)`: stop repeating, capture an AF cancel, then
   capture an AF start over the regions whose completion restarts the
   repeating request. A rejected template releases silently (the source
   passes no listener here). An exception from the camera manager reads
   behind the AF mode and region checks, `stopRepeating`,
   `createCaptureRequest` or either `capture` is not caught: it escapes,
   and the source keeps every handle.
   */
  function RequestFocus(s: Source, regions: seq<MeteringRectangle>, faults: Faults): (st: Step)
    ensures ReportsSafely(st) && CountReports(st.actions) == 0 && EscapesLast(st)
    ensures !FocusQueried(s) ==> st == Step(s, [])
    ensures FocusQueried(s) && faults.cameraQuery.Some? ==> st == Step(s, [Escape(faults.cameraQuery.value)])
    ensures faults.cameraQuery.None? && !CanFocus(s) ==> st == Step(s, [])
    ensures CanFocus(s) && faults.cameraQuery.None? && faults.stopRepeating.Some? ==>
              st == Step(s, [Escape(faults.stopRepeating.value)])
    ensures CanFocus(s) && faults.cameraQuery.None? && faults.stopRepeating.None? ==>
              |st.actions| >= 1 && st.actions[0] == StopRepeating(s.session.value)
    ensures EscapeClean(st)
    ensures Escaped(st) ==> st.source == s && FirstFocusFault(faults) == Some(st.actions[|st.actions| - 1].error)
    ensures CanFocus(s) && s.surfaces.Some? && !TemplateRejected(faults) ==>
              (Escaped(st) <==> !FocusCallsSucceed(faults))
    ensures CanFocus(s) && s.surfaces.Some? && FocusCallsSucceed(faults) ==>
              && st.source == s
              && |st.actions| == 3
              && st.actions[1].Capture? && !st.actions[1].focusCallback
              && st.actions[1].request.afTrigger == Some(CONTROL_AF_TRIGGER_CANCEL)
              && st.actions[1].request.afRegions.None?
              && st.actions[2].Capture? && st.actions[2].focusCallback
              && st.actions[2].request.afTrigger == Some(CONTROL_AF_TRIGGER_START)
              && st.actions[2].request.afMode == Some(CONTROL_AF_MODE_AUTO)
              && st.actions[2].request.afRegions == Some(regions)
  {
    if !FocusQueried(s) then Step(s, [])
    else if faults.cameraQuery.Some? then
      CountReportsNone([Escape(faults.cameraQuery.value)]);
      Step(s, [Escape(faults.cameraQuery.value)])
    else if !CanFocus(s) then Step(s, [])
    else if faults.stopRepeating.Some? then
      CountReportsNone([Escape(faults.stopRepeating.value)]);
      Step(s, [Escape(faults.stopRepeating.value)])
    else
      var stop := [StopRepeating(s.session.value)];
      var rest := FocusCaptures(s, regions, faults);
      assert Quiet(stop);
      CountReportsNone(stop);
      CountReportsAppend(stop, rest.actions);
      EscapesLastAfterQuiet(stop, rest);
      EscapeCleanAfterQuiet(stop, rest);
      var acts := stop + rest.actions;
      assert |rest.actions| > 0 ==> acts[|acts| - 1] == rest.actions[|rest.actions| - 1];
      assert Escaped(Step(rest.source, acts)) ==> Escaped(rest);
      Step(rest.source, acts)
  }

  /** The focus capture completed: restart repeating with the regions. */
  function OnFocusCompleted(s: Source, session: SessionId, regions: seq<MeteringRectangle>, faults: Faults): (st: Step)
    ensures ReportsSafely(st) && CountReports(st.actions) == 0 && EscapesLast(st) && EscapeClean(st)
    ensures s.device.Some? && s.surfaces.Some? && RepeatingFault(faults).None? ==>
              |st.actions| == 1 && st.actions[0].SetRepeatingRequest?
              && (st.actions[0].request.afRegions == Some(regions) <==> AllowsRegions(s.device.value.maxRegionsAf))
  {
    var st := CreateRepeatingRequest(s, session, false, Some(regions), faults);
    assert CountReports(st.actions) <= 1;
    if CountReports(st.actions) == 1 then
      assert st.source == Release(s).source;
      CreateRepeatingQuiet(s, session, Some(regions), faults);
      st
    else st
  }

  /** Without a listener `createRepeatingRequest` never reports. */
  lemma CreateRepeatingQuiet(s: Source, session: SessionId, regions: Option<seq<MeteringRectangle>>, faults: Faults)
    ensures CountReports(CreateRepeatingRequest(s, session, false, regions, faults).actions) == 0
  {
    match DefaultRequest(s, false, regions, faults)
    case BuildFailed(failed) =>
    case BuildThrew(e) =>
    case Built(req) =>
  }

  /** The focus capture failed: restart repeating without any region. */
  function OnFocusFailed(s: Source, session: SessionId, faults: Faults): (st: Step)
    ensures ReportsSafely(st) && CountReports(st.actions) == 0 && EscapesLast(st) && EscapeClean(st)
    ensures s.device.Some? && s.surfaces.Some? && RepeatingFault(faults).None? ==>
              |st.actions| == 1 && st.actions[0].SetRepeatingRequest?
              && st.actions[0].request.afRegions.None? && st.actions[0].request.aeRegions.None?
              && st.actions[0].request.awbRegions.None?
  {
    CreateRepeatingQuiet(s, session, None, faults);
    CreateRepeatingRequest(s, session, false, None, faults)
  }

  /**
   `clearFocusRegions()`: with a session, stop repeating, capture an AF
   cancel and restart the plain repeating request. An exception from
   `stopRepeating`, from `createCaptureRequest` (other than a rejected
   template) or from the `capture` escapes and leaves the source as it was;
   the restart catches what its own `catch` list holds.
   */
  function ClearFocusRegions(s: Source, faults: Faults): (st: Step)
    ensures ReportsSafely(st) && CountReports(st.actions) == 0 && EscapesLast(st) && EscapeClean(st)
    ensures Escaped(st) ==> st.source == s
    ensures s.session.None? ==> st == Step(s, [])
    ensures s.session.Some? && faults.stopRepeating.Some? ==> st == Step(s, [Escape(faults.stopRepeating.value)])
    ensures s.session.Some? && faults.stopRepeating.None? ==> |st.actions| >= 1 && st.actions[0] == StopRepeating(s.session.value)
    ensures s.session.Some? && faults.stopRepeating.None? && s.device.Some? && s.surfaces.Some?
            && !TemplateRejected(faults) && faults.createRequest.Some? ==>
              st == Step(s, [StopRepeating(s.session.value), Escape(faults.createRequest.value)])
    ensures s.session.Some? && faults.stopRepeating.None? && s.device.Some? && s.surfaces.Some?
            && faults.createRequest.None? && faults.cancelCapture.Some? ==>
              st == Step(s, [StopRepeating(s.session.value), Escape(faults.cancelCapture.value)])
    ensures s.session.Some? && s.device.Some? && s.surfaces.Some? && faults.stopRepeating.None?
            && faults.cancelCapture.None? && faults.createRequest.None? && faults.cameraQuery.Some?
            && !Caught(SetRepeatingSite, faults.cameraQuery.value) ==>
              Escaped(st) && st.actions[|st.actions| - 1] == Escape(faults.cameraQuery.value)
    ensures s.session.Some? && s.device.Some? && s.surfaces.Some? && faults.stopRepeating.None?
            && faults.cancelCapture.None? && RepeatingFault(faults).None? ==>
              && st.source == s
              && |st.actions| == 3
              && st.actions[0] == StopRepeating(s.session.value)
              && st.actions[1].Capture? && st.actions[1].request.afTrigger == Some(CONTROL_AF_TRIGGER_CANCEL)
              && st.actions[2].SetRepeatingRequest? && st.actions[2].request.afRegions.None?
  {
    if s.session.None? then Step(s, [])
    else if faults.stopRepeating.Some? then
      CountReportsNone([Escape(faults.stopRepeating.value)]);
      Step(s, [Escape(faults.stopRepeating.value)])
    else
      var session := s.session.value;
      var stop := [StopRepeating(session)];
      assert Quiet(stop);
      CountReportsNone(stop);
      match DefaultRequest(s, false, None, faults)
      case BuildFailed(failed) =>
        CountReportsAppend(stop, failed.actions);
        EscapesLastAfterQuiet(stop, failed);
        Step(failed.source, stop + failed.actions)
      case BuildThrew(e) =>
        var acts := stop + [Escape(e)];
        CountReportsNone(acts);
        Step(s, acts)
      case Built(cancel) =>
        if faults.cancelCapture.Some? then
          var acts := stop + [Escape(faults.cancelCapture.value)];
          CountReportsNone(acts);
          Step(s, acts)
        else
          var cancelCapture := [Capture(session, cancel.(afTrigger := Some(CONTROL_AF_TRIGGER_CANCEL)), false)];
          assert Quiet(cancelCapture);
          QuietAppend(stop, cancelCapture);
          var restart := CreateRepeatingRequest(s, session, false, None, faults);
          CreateRepeatingQuiet(s, session, None, faults);
          CountReportsNone(stop + cancelCapture);
          CountReportsAppend(stop + cancelCapture, restart.actions);
          EscapesLastAfterQuiet(stop + cancelCapture, restart);
          Step(restart.source, stop + cancelCapture + restart.actions)
  }

  // ---------------------------------------------------------------------
  // Every call and callback
  // ---------------------------------------------------------------------

  /**
   The calls and callbacks the source reacts to. Callback events carry the
   data their closure captured when it was registered (the surfaces and the
   listener given to `start`).
   */
  datatype Event =
    | StartCall(cameras: seq<CameraInfo>, listener: bool)
    | ReleaseCall
    | Opened(camera: CameraInfo, surfaces: seq<SurfaceId>, invalid: set<SurfaceId>, listener: bool)
    | Disconnected
    | DeviceError(code: int, listener: bool)
    | Configured(session: SessionId, surfaces: seq<SurfaceId>, listener: bool)
    | ConfigureFailed(listener: bool)
    | RequestFocusCall(regions: seq<MeteringRectangle>)
    | FocusCompleted(session: SessionId, regions: seq<MeteringRectangle>)
    | FocusFailed(session: SessionId)
    | ClearFocusCall

  function Next(s: Source, e: Event, faults: Faults): Step {
    match e
    case StartCall(cameras, listener) => Start(s, cameras, listener, faults)
    case ReleaseCall => Release(s)
    case Opened(camera, surfaces, invalid, listener) => OnOpened(s, camera, surfaces, invalid, listener, faults)
    case Disconnected => OnDisconnected(s)
    case DeviceError(code, listener) => OnError(s, code, listener)
    case Configured(session, surfaces, listener) => OnConfigured(s, session, surfaces, listener, faults)
    case ConfigureFailed(listener) => OnConfigureFailed(s, listener)
    case RequestFocusCall(regions) => RequestFocus(s, regions, faults)
    case FocusCompleted(session, regions) => OnFocusCompleted(s, session, regions, faults)
    case FocusFailed(session) => OnFocusFailed(s, session, faults)
    case ClearFocusCall => ClearFocusRegions(s, faults)
  }

  /**
   Whatever the state, call or callback and platform faults: at most one
   failure is reported, it is the last thing that happens, and by then the
   source holds nothing, so `isStarted()` and `isOpening()` are both false.
   The requested facing and flash mode survive every transition. An
   exception that escapes is the last thing that happens, and it closes
   nothing and is not reported.
   */
  lemma EveryFailureReleasesFirst(s: Source, e: Event, faults: Faults)
    ensures ReportsSafely(Next(s, e, faults))
    ensures EscapesLast(Next(s, e, faults))
    ensures Escaped(Next(s, e, faults)) ==>
              CountReports(Next(s, e, faults).actions) == 0
              && forall i :: 0 <= i < |Next(s, e, faults).actions| ==> !IsClose(Next(s, e, faults).actions[i])
    ensures CountReports(Next(s, e, faults).actions) == 1 ==>
              !Next(s, e, faults).source.IsStarted() && !Next(s, e, faults).source.IsOpening()
    ensures Next(s, e, faults).source.requestedFacing == s.requestedFacing
    ensures Next(s, e, faults).source.requestedFlashMode == s.requestedFlashMode
  {
    match e
    case StartCall(cameras, listener) =>
    case ReleaseCall =>
    case Opened(camera, surfaces, invalid, listener) =>
    case Disconnected =>
    case DeviceError(code, listener) =>
    case Configured(session, surfaces, listener) =>
    case ConfigureFailed(listener) =>
    case RequestFocusCall(regions) =>
    case FocusCompleted(session, regions) =>
    case FocusFailed(session) =>
    case ClearFocusCall =>
  }

  /**
   An `IllegalStateException` from `openCamera` is outside that call's
   `catch` list: it escapes `start` with the open still marked in flight,
   so every later `start` is ignored.
   */
  lemma EscapedOpenBlocksStart(s: Source, cameras: seq<CameraInfo>, listener: bool, faults: Faults, later: Faults)
    requires s.Released() && |cameras| > 0 && faults.cameraQuery.None? && faults.openCamera == Some(IllegalState)
    ensures var st := Start(s, cameras, listener, faults);
            && st.actions == [Escape(IllegalState)]
            && st.source.IsOpening() && !st.source.IsStarted()
            && Start(st.source, cameras, listener, later) == Step(st.source, [])
  {
  }

  /** `release()` is idempotent: a second call closes nothing. */
  lemma ReleaseIdempotent(s: Source)
    ensures Release(Release(s).source) == Step(Release(s).source, [])
  {
  }

  /**
   The happy path: start, open with valid surfaces, configure. The camera
   ends up started, no longer opening, holding the session and the surfaces
   it was started with, with the preview repeating over them.
   */
  lemma HappyPath(cameras: seq<CameraInfo>, surfaces: seq<SurfaceId>, session: SessionId)
    requires |cameras| > 0
    ensures var s0 := Initial();
            var s1 := Start(s0, cameras, true, NoFaults());
            var cam := cameras[SelectCameraIndex(cameras, s0.requestedFacing).value];
            var s2 := OnOpened(s1.source, cam, surfaces, {}, true, NoFaults());
            var s3 := OnConfigured(s2.source, session, surfaces, true, NoFaults());
            && s1.actions == [OpenCamera(cam.id)] && s1.source.IsOpening()
            && s2.actions == [CameraReady, CreateSession(surfaces)]
            && s3.source.IsStarted() && !s3.source.IsOpening()
            && s3.source.session == Some(session) && s3.source.surfaces == Some(surfaces)
            && |s3.actions| == 1 && s3.actions[0].SetRepeatingRequest?
            && s3.actions[0].request.targets == surfaces
            && CountReports(s1.actions + s2.actions + s3.actions) == 0
  {
    var s0 := Initial();
    var s1 := Start(s0, cameras, true, NoFaults());
    var cam := cameras[SelectCameraIndex(cameras, s0.requestedFacing).value];
    var s2 := OnOpened(s1.source, cam, surfaces, {}, true, NoFaults());
    var s3 := OnConfigured(s2.source, session, surfaces, true, NoFaults());
    assert !AnyInvalid(surfaces, {});
    CountReportsAppend(s1.actions, s2.actions);
    CountReportsAppend(s1.actions + s2.actions, s3.actions);
    CountReportsNone(s1.actions);
    CountReportsNone(s2.actions);
    CountReportsNone(s3.actions);
  }
}
