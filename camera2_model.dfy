/** The semantics of Camera2StateMachine as functions over a snapshot of its
    fields. Every operation maps the snapshot before the call to the snapshot
    after it together with how the call ended (normally or by an exception that
    escapes it). The class in camera2_state_machine.dfy is proved against these
    functions; the properties of the machine are proved about them in
    camera2_properties.dfy. */
module Camera2Model {
  import opened Wrappers
  import opened Camera2Util

  /** The eight State objects of the machine; `None` in Machine.state is the
      null mState before open() and after Abort. */
  datatype StateTag =
    | InitSurfaceState | OpenCameraState | CreateSessionState | PreviewState
    | AutoFocusState | AutoExposureState | TakePictureState | AbortState

  /** CameraAccessException is the checked exception that nextState catches; the
      others are unchecked and leave the call that raised them. */
  datatype Exception = CameraAccess | NullPointer | IllegalState | IllegalArgument | IndexOutOfBounds

  datatype Outcome = Normal | Threw(exception: Exception)

  /** The framework calls declared to throw CameraAccessException. */
  datatype Api =
    | ListCameras          // CameraManager.getCameraIdList
    | ReadCharacteristics  // CameraManager.getCameraCharacteristics
    | OpenDevice           // CameraManager.openCamera
    | NewCaptureRequest    // CameraDevice.createCaptureRequest
    | NewCaptureSession    // CameraDevice.createCaptureSession
    | RepeatRequest        // CameraCaptureSession.setRepeatingRequest
    | StopRepeat           // CameraCaptureSession.stopRepeating
    | CaptureOnce          // CameraCaptureSession.capture

  /** Opaque handles delivered by the framework or by the host application. */
  datatype Device = Device(handle: nat)
  datatype Session = Session(handle: nat)
  datatype Listener = Listener(handle: nat)

  /** The preview view; `isAvailable` is its answer to isAvailable() during open(),
      the only time the machine asks. */
  datatype TextureView = TextureView(handle: nat, isAvailable: bool)

  /** The camera service: its cameras in getCameraIdList() order. */
  datatype CameraManager = CameraManager(cameras: seq<Camera>)

  /** The keys of a capture request that the machine sets. */
  datatype RequestKey = AfMode | AeMode | AfTrigger | AePrecaptureTrigger | JpegOrientation

  datatype Target = PreviewSurface(view: TextureView) | ReaderSurface(reader: ImageReader)

  /** A capture request (or its builder): the template it was created from, its
      output targets and the settings this class put into it. */
  datatype Request = Request(template: int, targets: seq<Target>, settings: map<RequestKey, int>)

  /** The two fields of a CaptureResult the machine reads; None when the key is absent. */
  datatype CaptureResult = CaptureResult(afState: Option<int>, aeState: Option<int>)

  /** Calls into the framework whose effect outlives the call, in the order made. */
  datatype Effect =
    | SurfaceListenerSet(view: TextureView)
    | DeviceOpenRequested(id: CameraId)
    | SessionRequested(device: Device, outputs: seq<Target>)
    | RepeatingSubmitted(session: Session, request: Request)
    | RepeatingStopped(session: Session)
    | CaptureSubmitted(session: Session, request: Request)
    | ImageListenerSet(reader: ImageReader, listener: Option<Listener>)
    | SessionClosed(session: Session)
    | DeviceClosed(device: Device)
    | ReaderClosed(reader: ImageReader)

  // CameraDevice.TEMPLATE_* and the CaptureRequest / CaptureResult constants.
  const TemplatePreview: int := 1
  const TemplateStillCapture: int := 2
  const AfModeContinuousPicture: int := 4
  const AeModeOnAutoFlash: int := 2
  const AfTriggerStart: int := 1
  const AfTriggerCancel: int := 2
  const AePrecaptureTriggerStart: int := 1
  const AfStateFocusedLocked: int := 4
  const AfStateNotFocusedLocked: int := 5
  const AeStateConverged: int := 2
  const AeStateFlashRequired: int := 4
  const PortraitOrientation: int := 90

  /** The fields of Camera2StateMachine; `faults` is the environment: the framework
      calls that currently fail with CameraAccessException. */
  datatype Machine = Machine(
    state: Option<StateTag>,
    manager: Option<CameraManager>,
    view: Option<TextureView>,
    device: Option<Device>,
    session: Option<Session>,
    reader: Option<ImageReader>,
    builder: Option<Request>,
    listener: Option<Listener>,
    faults: set<Api>,
    log: seq<Effect>)

  datatype Step = Step(m: Machine, outcome: Outcome)

  /** A freshly constructed machine: every reference null, nothing done yet. */
  function Initial(faults: set<Api>): Machine
  {
    Machine(None, None, None, None, None, None, None, None, faults, [])
  }

  function Emit(m: Machine, e: Effect): Machine
  {
    m.(log := m.log + [e])
  }

  /** The framework fields are untouched. */
  predicate SameEnvironment(m: Machine, r: Machine)
  {
    r.faults == m.faults && r.view == m.view && r.manager == m.manager && m.log <= r.log
  }

  // ---------------------------------------------------------------------------
  // Convergence policy

  /** AutoFocus may advance: no AF state reported, or focus locked either way. */
  predicate AfReady(afState: Option<int>)
  {
    afState.None? || afState.value == AfStateFocusedLocked || afState.value == AfStateNotFocusedLocked
  }

  /** AutoExposure may advance: no AE state reported, converged, or flash required. */
  predicate AeReady(aeState: Option<int>)
  {
    aeState.None? || aeState.value == AeStateConverged || aeState.value == AeStateFlashRequired
  }

  // ---------------------------------------------------------------------------
  // Controller

  /** The close calls shutdown() makes, in its order: session, device, reader. */
  function ReleaseEffects(m: Machine): seq<Effect>
  {
    (if m.session.Some? then [SessionClosed(m.session.value)] else []) +
    (if m.device.Some? then [DeviceClosed(m.device.value)] else []) +
    (if m.reader.Some? then [ReaderClosed(m.reader.value)] else [])
  }

  /** shutdown(): close and null the session, the device and the reader, each only
      if it is not null. */
  function Shutdown(m: Machine): (r: Machine)
    ensures r.session.None? && r.device.None? && r.reader.None?
    ensures r == m.(session := None, device := None, reader := None, log := m.log + ReleaseEffects(m))
  {
    var m1 := if m.session.Some? then Emit(m, SessionClosed(m.session.value)).(session := None) else m;
    var m2 := if m1.device.Some? then Emit(m1, DeviceClosed(m1.device.value)).(device := None) else m1;
    if m2.reader.Some? then Emit(m2, ReaderClosed(m2.reader.value)).(reader := None) else m2
  }

  /** Depth of nested transitions a state's enter() may start: InitSurface and Abort
      call nextState from enter(), into states that do not. */
  function Rank(target: Option<StateTag>): nat
  {
    if target == Some(InitSurfaceState) || target == Some(AbortState) then 1 else 0
  }

  /** nextState(target): finish() of the current state, then mState := target and
      enter() of it. A CameraAccessException from either hook ends in shutdown();
      any other exception leaves nextState. */
  function NextState(m: Machine, target: Option<StateTag>): (r: Step)
    decreases Rank(target), 1
    ensures SameEnvironment(m, r.m)
    ensures r.outcome != Threw(CameraAccess)
  {
    var f := if m.state.Some? then Finish(m, m.state.value) else Step(m, Normal);
    if f.outcome == Threw(CameraAccess) then Step(Shutdown(f.m), Normal)
    else if f.outcome.Threw? then f
    else
      var m1 := f.m.(state := target);
      var e := if target.Some? then Enter(m1, target.value) else Step(m1, Normal);
      if e.outcome == Threw(CameraAccess) then Step(Shutdown(e.m), Normal) else e
  }

  // ---------------------------------------------------------------------------
  // State hooks: enter() and finish()

  /** enter() of state s. */
  function Enter(m: Machine, s: StateTag): (r: Step)
    decreases Rank(Some(s)), 0
    ensures SameEnvironment(m, r.m)
  {
    match s
    case InitSurfaceState =>
      if m.view.None? then Step(m, Threw(NullPointer))
      else if m.view.value.isAvailable then NextState(m, Some(OpenCameraState))
      else Step(Emit(m, SurfaceListenerSet(m.view.value)), Normal)
    case OpenCameraState => EnterOpenCamera(m)
    case CreateSessionState => EnterCreateSession(m)
    case PreviewState =>
      UpdateAndRepeat(m, map[AfMode := AfModeContinuousPicture, AeMode := AeModeOnAutoFlash])
    case AutoFocusState => UpdateAndRepeat(m, map[AfTrigger := AfTriggerStart])
    case AutoExposureState => UpdateAndRepeat(m, map[AePrecaptureTrigger := AePrecaptureTriggerStart])
    case TakePictureState => EnterTakePicture(m)
    case AbortState => NextState(Shutdown(m), None)
  }

  /** OpenCamera.enter(): pick the back camera, create the still-image reader from
      its widest JPEG size, then ask the framework to open the device. In between,
      getBestPreviewSize reads the first preview size, which fails on an empty list;
      the size it picks only sizes the view and is not modelled. */
  function EnterOpenCamera(m: Machine): (r: Step)
    ensures SameEnvironment(m, r.m)
    ensures r.m.state == m.state && r.m.device == m.device && r.m.session == m.session
  {
    if m.manager.None? then Step(m, Threw(NullPointer))
    else
      var cameras := m.manager.value.cameras;
      if ListCameras in m.faults || (|cameras| > 0 && ReadCharacteristics in m.faults) then
        Step(m, Threw(CameraAccess))
      else
        match FirstWithFacing(cameras, LensFacingBack)
        case None => Step(m, Threw(IllegalArgument))
        case Some(k) =>
          var sizes := cameras[k].jpegSizes;
          if |sizes| == 0 then Step(m, Threw(IndexOutOfBounds))
          else
            var m1 := m.(reader := Some(MaxSizeReader(sizes, Jpeg)));
            if |cameras[k].previewSizes| == 0 then Step(m1, Threw(IndexOutOfBounds))
            else if OpenDevice in m.faults then Step(m1, Threw(CameraAccess))
            else Step(Emit(m1, DeviceOpenRequested(cameras[k].id)), Normal)
  }

  /** CreateSession.enter(): a preview request builder targeting the view's surface,
      then a session over that surface and the reader's. */
  function EnterCreateSession(m: Machine): (r: Step)
    ensures SameEnvironment(m, r.m)
    ensures r.m.state == m.state && r.m.device == m.device && r.m.session == m.session
  {
    if m.device.None? then Step(m, Threw(NullPointer))
    else if NewCaptureRequest in m.faults then Step(m, Threw(CameraAccess))
    else
      var m1 := m.(builder := Some(Request(TemplatePreview, [], map[])));
      if m.view.None? then Step(m1, Threw(NullPointer))
      else
        var surface := PreviewSurface(m.view.value);
        var m2 := m.(builder := Some(Request(TemplatePreview, [surface], map[])));
        if m.reader.None? then Step(m2, Threw(NullPointer))
        else if NewCaptureSession in m.faults then Step(m2, Threw(CameraAccess))
        else Step(Emit(m2, SessionRequested(m.device.value, [surface, ReaderSurface(m.reader.value)])), Normal)
  }

  /** Preview, AutoFocus and AutoExposure enter(): set keys on the preview builder,
      then resubmit it as the repeating request. */
  function UpdateAndRepeat(m: Machine, updates: map<RequestKey, int>): (r: Step)
    ensures SameEnvironment(m, r.m)
    ensures r.m.state == m.state && r.m.device == m.device && r.m.session == m.session
  {
    if m.builder.None? then Step(m, Threw(NullPointer))
    else
      var b := m.builder.value.(settings := m.builder.value.settings + updates);
      var m1 := m.(builder := Some(b));
      if m.session.None? then Step(m1, Threw(NullPointer))
      else if RepeatRequest in m.faults then Step(m1, Threw(CameraAccess))
      else Step(Emit(m1, RepeatingSubmitted(m.session.value, b)), Normal)
  }

  /** The still-capture request TakePicture.enter() builds for `reader`. */
  function StillRequest(reader: ImageReader): Request
  {
    Request(TemplateStillCapture, [ReaderSurface(reader)],
            map[AfMode := AfModeContinuousPicture, AeMode := AeModeOnAutoFlash,
                JpegOrientation := PortraitOrientation])
  }

  /** TakePicture.enter(): hand the pending listener to the reader, stop the
      repeating preview and submit one still capture. */
  function EnterTakePicture(m: Machine): (r: Step)
    ensures SameEnvironment(m, r.m)
    ensures r.m.state == m.state && r.m.device == m.device && r.m.session == m.session
  {
    if m.device.None? then Step(m, Threw(NullPointer))
    else if NewCaptureRequest in m.faults then Step(m, Threw(CameraAccess))
    else if m.reader.None? then Step(m, Threw(NullPointer))
    else
      var m1 := Emit(m, ImageListenerSet(m.reader.value, m.listener));
      if m.session.None? then Step(m1, Threw(NullPointer))
      else if StopRepeat in m.faults then Step(m1, Threw(CameraAccess))
      else
        var m2 := Emit(m1, RepeatingStopped(m.session.value));
        if CaptureOnce in m.faults then Step(m2, Threw(CameraAccess))
        else Step(Emit(m2, CaptureSubmitted(m.session.value, StillRequest(m.reader.value))), Normal)
  }

  /** finish() of state s; only TakePicture overrides the empty default: cancel the
      AF trigger, restore auto-flash, submit the preview builder once and drop the
      pending listener. */
  function Finish(m: Machine, s: StateTag): (r: Step)
    ensures SameEnvironment(m, r.m)
    ensures r.m.state == m.state && r.m.device == m.device && r.m.session == m.session
    ensures r.m.reader == m.reader
  {
    if s != TakePictureState then Step(m, Normal)
    else if m.builder.None? then Step(m, Threw(NullPointer))
    else
      var b := m.builder.value.(settings := m.builder.value.settings
                                  + map[AfTrigger := AfTriggerCancel, AeMode := AeModeOnAutoFlash]);
      var m1 := m.(builder := Some(b));
      if m.session.None? then Step(m1, Threw(NullPointer))
      else if CaptureOnce in m.faults then Step(m1, Threw(CameraAccess))
      else Step(Emit(m1, CaptureSubmitted(m.session.value, b)).(listener := None), Normal)
  }

  // ---------------------------------------------------------------------------
  // State hooks: events

  /** onSurfaceTextureAvailable of state s; only InitSurface reacts. */
  function OnSurfaceTextureAvailable(m: Machine, s: StateTag): Step
  {
    if s == InitSurfaceState then NextState(m, Some(OpenCameraState)) else Step(m, Normal)
  }

  /** onCameraOpened of state s; only OpenCamera reacts. */
  function OnCameraOpened(m: Machine, s: StateTag, d: Device): Step
  {
    if s == OpenCameraState then NextState(m.(device := Some(d)), Some(CreateSessionState))
    else Step(m, Normal)
  }

  /** onSessionConfigured of state s; only CreateSession reacts. */
  function OnSessionConfigured(m: Machine, s: StateTag, session: Session): Step
  {
    if s == CreateSessionState then NextState(m.(session := Some(session)), Some(PreviewState))
    else Step(m, Normal)
  }

  /** onCaptureResult of state s. */
  function OnCaptureResult(m: Machine, s: StateTag, result: CaptureResult, isCompleted: bool): Step
  {
    match s
    case AutoFocusState =>
      if AfReady(result.afState) then NextState(m, Some(AutoExposureState)) else Step(m, Normal)
    case AutoExposureState =>
      if AeReady(result.aeState) then NextState(m, Some(TakePictureState)) else Step(m, Normal)
    case TakePictureState =>
      if isCompleted then NextState(m, Some(PreviewState)) else Step(m, Normal)
    case _ => Step(m, Normal)
  }

  // ---------------------------------------------------------------------------
  // Public operations and framework callbacks

  /** open(activity, textureView). */
  function Open(m: Machine, view: TextureView, manager: CameraManager): Step
  {
    if m.state.Some? then Step(m, Threw(IllegalState))
    else NextState(m.(view := Some(view), manager := Some(manager)), Some(InitSurfaceState))
  }

  /** What takePicture(listener) returns, and the step it made. */
  datatype PictureRequest = PictureRequest(step: Step, accepted: bool)

  /** takePicture(listener). */
  function TakePicture(m: Machine, listener: Listener): PictureRequest
  {
    if m.state != Some(PreviewState) then PictureRequest(Step(m, Normal), false)
    else PictureRequest(NextState(m.(listener := Some(listener)), Some(AutoFocusState)), true)
  }

  /** close(). */
  function Close(m: Machine): Step
  {
    NextState(m, Some(AbortState))
  }

  /** The capture callback: forward a result to the current state; a
      CameraAccessException from the hook sends the machine to Abort. */
  function CaptureDelivered(m: Machine, result: CaptureResult, isCompleted: bool): Step
  {
    if m.state.None? then Step(m, Normal)
    else
      var r := OnCaptureResult(m, m.state.value, result, isCompleted);
      if r.outcome == Threw(CameraAccess) then NextState(r.m, Some(AbortState)) else r
  }

  /** Everything that can happen to the machine: the three public calls, the
      framework callbacks, and a change between events of which framework calls
      fail with CameraAccessException. */
  datatype Event =
    | OpenCalled(view: TextureView, manager: CameraManager)
    | TakePictureCalled(listener: Listener)
    | CloseCalled
    | SurfaceTextureAvailable
    | CameraOpened(device: Device)
    | CameraDisconnected
    | CameraError(error: int)
    | SessionConfigured(session: Session)
    | SessionConfigureFailed
    | CaptureProgressed(partial: CaptureResult)
    | CaptureCompleted(result: CaptureResult)
    | FaultsChanged(faults: set<Api>)

  /** The machine's reaction to one event. Callbacks other than disconnect, error
      and configure-failure are forwarded to the current state, if any. */
  function Dispatch(m: Machine, ev: Event): Step
  {
    match ev
    case OpenCalled(view, manager) => Open(m, view, manager)
    case TakePictureCalled(listener) => TakePicture(m, listener).step
    case CloseCalled => Close(m)
    case SurfaceTextureAvailable =>
      if m.state.Some? then OnSurfaceTextureAvailable(m, m.state.value) else Step(m, Normal)
    case CameraOpened(d) =>
      if m.state.Some? then OnCameraOpened(m, m.state.value, d) else Step(m, Normal)
    case CameraDisconnected => NextState(m, Some(AbortState))
    case CameraError(_) => NextState(m, Some(AbortState))
    case SessionConfigured(session) =>
      if m.state.Some? then OnSessionConfigured(m, m.state.value, session) else Step(m, Normal)
    case SessionConfigureFailed => NextState(m, Some(AbortState))
    case CaptureProgressed(partial) => CaptureDelivered(m, partial, false)
    case CaptureCompleted(result) => CaptureDelivered(m, result, true)
    case FaultsChanged(faults) => Step(m.(faults := faults), Normal)
  }

  /** A sequence of events delivered one at a time; an exception escaping an event
      ends the run (on the single thread it would be uncaught). */
  function Run(m: Machine, events: seq<Event>): Step
    decreases |events|
  {
    if |events| == 0 then Step(m, Normal)
    else
      var r := Dispatch(m, events[0]);
      if r.outcome.Threw? then r else Run(r.m, events[1..])
  }
}
