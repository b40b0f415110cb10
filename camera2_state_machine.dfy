/** Camera2StateMachine as an object whose methods update its fields in place, as
    the Java class does. Each method is proved to leave the fields exactly as the
    function of the same name in Camera2Model says, and to end the same way
    (normally or by the same exception). */
module StateMachine {
  import opened Wrappers
  import opened Camera2Util
  import opened Camera2Model

  class Camera2StateMachine {
    var state: Option<StateTag>                  // mState
    var cameraManager: Option<CameraManager>     // mCameraManager
    var textureView: Option<TextureView>         // mTextureView
    var cameraDevice: Option<Device>             // mCameraDevice
    var captureSession: Option<Session>          // mCaptureSession
    var imageReader: Option<ImageReader>         // mImageReader
    var previewRequestBuilder: Option<Request>   // mPreviewRequestBuilder
    var takePictureListener: Option<Listener>    // mTakePictureListener
    var faults: set<Api>                         // framework calls that currently fail
    var log: seq<Effect>                         // framework calls made so far

    /** The fields as a value of the model. */
    function Snapshot(): Machine
      reads this
    {
      Machine(state, cameraManager, textureView, cameraDevice, captureSession, imageReader,
              previewRequestBuilder, takePictureListener, faults, log)
    }

    constructor (faults: set<Api>)
      ensures Snapshot() == Initial(faults)
    {
      state, cameraManager, textureView := None, None, None;
      cameraDevice, captureSession, imageReader := None, None, None;
      previewRequestBuilder, takePictureListener := None, None;
      this.faults, log := faults, [];
    }

    method Emit(e: Effect)
      modifies this
      ensures Snapshot() == Camera2Model.Emit(old(Snapshot()), e)
    {
      log := log + [e];
    }

    // -------------------------------------------------------------------------
    // Public operations

    method Open(view: TextureView, manager: CameraManager) returns (outcome: Outcome)
      modifies this
      ensures Step(Snapshot(), outcome) == Camera2Model.Open(old(Snapshot()), view, manager)
    {
      if state.Some? {
        return Threw(IllegalState);
      }
      textureView := Some(view);
      cameraManager := Some(manager);
      outcome := NextState(Some(InitSurfaceState));
    }

    method TakePicture(listener: Listener) returns (accepted: bool, outcome: Outcome)
      modifies this
      ensures Camera2Model.TakePicture(old(Snapshot()), listener) == PictureRequest(Step(Snapshot(), outcome), accepted)
    {
      if state != Some(PreviewState) {
        return false, Normal;
      }
      takePictureListener := Some(listener);
      outcome := NextState(Some(AutoFocusState));
      accepted := true;
    }

    method Close() returns (outcome: Outcome)
      modifies this
      ensures Step(Snapshot(), outcome) == Camera2Model.Close(old(Snapshot()))
    {
      outcome := NextState(Some(AbortState));
    }

    // -------------------------------------------------------------------------
    // Controller

    method Shutdown()
      modifies this
      ensures Snapshot() == Camera2Model.Shutdown(old(Snapshot()))
    {
      if captureSession.Some? {
        Emit(SessionClosed(captureSession.value));
        captureSession := None;
      }
      if cameraDevice.Some? {
        Emit(DeviceClosed(cameraDevice.value));
        cameraDevice := None;
      }
      if imageReader.Some? {
        Emit(ReaderClosed(imageReader.value));
        imageReader := None;
      }
    }

    method NextState(target: Option<StateTag>) returns (outcome: Outcome)
      modifies this
      decreases Rank(target), 1
      ensures Step(Snapshot(), outcome) == Camera2Model.NextState(old(Snapshot()), target)
    {
      var finished := Normal;
      if state.Some? {
        finished := Finish(state.value);
      }
      if finished == Threw(CameraAccess) {
        Shutdown();
        return Normal;
      }
      if finished.Threw? {
        return finished;
      }
      state := target;
      var entered := Normal;
      if target.Some? {
        entered := Enter(target.value);
      }
      if entered == Threw(CameraAccess) {
        Shutdown();
        return Normal;
      }
      return entered;
    }

    // -------------------------------------------------------------------------
    // State hooks: enter() and finish()

    method Enter(s: StateTag) returns (outcome: Outcome)
      modifies this
      decreases Rank(Some(s)), 0
      ensures Step(Snapshot(), outcome) == Camera2Model.Enter(old(Snapshot()), s)
    {
      match s
      case InitSurfaceState =>
        if textureView.None? {
          return Threw(NullPointer);
        }
        if textureView.value.isAvailable {
          outcome := NextState(Some(OpenCameraState));
        } else {
          Emit(SurfaceListenerSet(textureView.value));
          outcome := Normal;
        }
      case OpenCameraState =>
        outcome := EnterOpenCamera();
      case CreateSessionState =>
        outcome := EnterCreateSession();
      case PreviewState =>
        outcome := UpdateAndRepeat(map[AfMode := AfModeContinuousPicture, AeMode := AeModeOnAutoFlash]);
      case AutoFocusState =>
        outcome := UpdateAndRepeat(map[AfTrigger := AfTriggerStart]);
      case AutoExposureState =>
        outcome := UpdateAndRepeat(map[AePrecaptureTrigger := AePrecaptureTriggerStart]);
      case TakePictureState =>
        outcome := EnterTakePicture();
      case AbortState =>
        Shutdown();
        outcome := NextState(None);
    }

    method EnterOpenCamera() returns (outcome: Outcome)
      modifies this
      ensures Step(Snapshot(), outcome) == Camera2Model.EnterOpenCamera(old(Snapshot()))
    {
      if cameraManager.None? {
        return Threw(NullPointer);
      }
      var cameras := cameraManager.value.cameras;
      if ListCameras in faults || (|cameras| > 0 && ReadCharacteristics in faults) {
        return Threw(CameraAccess);
      }
      var cameraId := GetCameraId(cameras, LensFacingBack);
      if cameraId.None? {
        return Threw(IllegalArgument);
      }
      var k := FirstWithFacing(cameras, LensFacingBack).value;
      var reader := GetMaxSizeImageReader(cameras[k].jpegSizes, Jpeg);
      if reader.None? {
        return Threw(IndexOutOfBounds);
      }
      imageReader := reader;
      if |cameras[k].previewSizes| == 0 {
        return Threw(IndexOutOfBounds);
      }
      if OpenDevice in faults {
        return Threw(CameraAccess);
      }
      Emit(DeviceOpenRequested(cameraId.value));
      outcome := Normal;
    }

    method EnterCreateSession() returns (outcome: Outcome)
      modifies this
      ensures Step(Snapshot(), outcome) == Camera2Model.EnterCreateSession(old(Snapshot()))
    {
      if cameraDevice.None? {
        return Threw(NullPointer);
      }
      if NewCaptureRequest in faults {
        return Threw(CameraAccess);
      }
      previewRequestBuilder := Some(Request(TemplatePreview, [], map[]));
      if textureView.None? {
        return Threw(NullPointer);
      }
      var surface := PreviewSurface(textureView.value);
      previewRequestBuilder := Some(previewRequestBuilder.value.(targets := previewRequestBuilder.value.targets + [surface]));
      assert [] + [surface] == [surface];
      if imageReader.None? {
        return Threw(NullPointer);
      }
      if NewCaptureSession in faults {
        return Threw(CameraAccess);
      }
      Emit(SessionRequested(cameraDevice.value, [surface, ReaderSurface(imageReader.value)]));
      outcome := Normal;
    }

    method UpdateAndRepeat(updates: map<RequestKey, int>) returns (outcome: Outcome)
      modifies this
      ensures Step(Snapshot(), outcome) == Camera2Model.UpdateAndRepeat(old(Snapshot()), updates)
    {
      if previewRequestBuilder.None? {
        return Threw(NullPointer);
      }
      var b := previewRequestBuilder.value;
      previewRequestBuilder := Some(b.(settings := b.settings + updates));
      if captureSession.None? {
        return Threw(NullPointer);
      }
      if RepeatRequest in faults {
        return Threw(CameraAccess);
      }
      Emit(RepeatingSubmitted(captureSession.value, previewRequestBuilder.value));
      outcome := Normal;
    }

    method EnterTakePicture() returns (outcome: Outcome)
      modifies this
      ensures Step(Snapshot(), outcome) == Camera2Model.EnterTakePicture(old(Snapshot()))
    {
      if cameraDevice.None? {
        return Threw(NullPointer);
      }
      if NewCaptureRequest in faults {
        return Threw(CameraAccess);
      }
      if imageReader.None? {
        return Threw(NullPointer);
      }
      var still := StillRequest(imageReader.value);
      Emit(ImageListenerSet(imageReader.value, takePictureListener));
      if captureSession.None? {
        return Threw(NullPointer);
      }
      if StopRepeat in faults {
        return Threw(CameraAccess);
      }
      Emit(RepeatingStopped(captureSession.value));
      if CaptureOnce in faults {
        return Threw(CameraAccess);
      }
      Emit(CaptureSubmitted(captureSession.value, still));
      outcome := Normal;
    }

    method Finish(s: StateTag) returns (outcome: Outcome)
      modifies this
      ensures Step(Snapshot(), outcome) == Camera2Model.Finish(old(Snapshot()), s)
    {
      if s != TakePictureState {
        return Normal;
      }
      if previewRequestBuilder.None? {
        return Threw(NullPointer);
      }
      var b := previewRequestBuilder.value;
      previewRequestBuilder := Some(b.(settings := b.settings + map[AfTrigger := AfTriggerCancel, AeMode := AeModeOnAutoFlash]));
      if captureSession.None? {
        return Threw(NullPointer);
      }
      if CaptureOnce in faults {
        return Threw(CameraAccess);
      }
      Emit(CaptureSubmitted(captureSession.value, previewRequestBuilder.value));
      takePictureListener := None;
      outcome := Normal;
    }

    // -------------------------------------------------------------------------
    // State hooks: events

    method OnSurfaceTextureAvailableHook(s: StateTag) returns (outcome: Outcome)
      modifies this
      ensures Step(Snapshot(), outcome) == Camera2Model.OnSurfaceTextureAvailable(old(Snapshot()), s)
    {
      outcome := Normal;
      if s == InitSurfaceState {
        outcome := NextState(Some(OpenCameraState));
      }
    }

    method OnCameraOpenedHook(s: StateTag, d: Device) returns (outcome: Outcome)
      modifies this
      ensures Step(Snapshot(), outcome) == Camera2Model.OnCameraOpened(old(Snapshot()), s, d)
    {
      outcome := Normal;
      if s == OpenCameraState {
        cameraDevice := Some(d);
        outcome := NextState(Some(CreateSessionState));
      }
    }

    method OnSessionConfiguredHook(s: StateTag, session: Session) returns (outcome: Outcome)
      modifies this
      ensures Step(Snapshot(), outcome) == Camera2Model.OnSessionConfigured(old(Snapshot()), s, session)
    {
      outcome := Normal;
      if s == CreateSessionState {
        captureSession := Some(session);
        outcome := NextState(Some(PreviewState));
      }
    }

    method OnCaptureResultHook(s: StateTag, result: CaptureResult, isCompleted: bool) returns (outcome: Outcome)
      modifies this
      ensures Step(Snapshot(), outcome) == Camera2Model.OnCaptureResult(old(Snapshot()), s, result, isCompleted)
    {
      outcome := Normal;
      match s
      case AutoFocusState =>
        if AfReady(result.afState) {
          outcome := NextState(Some(AutoExposureState));
        }
      case AutoExposureState =>
        if AeReady(result.aeState) {
          outcome := NextState(Some(TakePictureState));
        }
      case TakePictureState =>
        if isCompleted {
          outcome := NextState(Some(PreviewState));
        }
      case _ =>
    }

    // -------------------------------------------------------------------------
    // Framework callbacks (the listener objects forwarding to mState)

    method OnSurfaceTextureAvailable() returns (outcome: Outcome)
      modifies this
      ensures Step(Snapshot(), outcome) == Dispatch(old(Snapshot()), SurfaceTextureAvailable)
    {
      outcome := Normal;
      if state.Some? {
        outcome := OnSurfaceTextureAvailableHook(state.value);
      }
    }

    method OnOpened(d: Device) returns (outcome: Outcome)
      modifies this
      ensures Step(Snapshot(), outcome) == Dispatch(old(Snapshot()), CameraOpened(d))
    {
      outcome := Normal;
      if state.Some? {
        outcome := OnCameraOpenedHook(state.value, d);
      }
    }

    method OnDisconnected() returns (outcome: Outcome)
      modifies this
      ensures Step(Snapshot(), outcome) == Dispatch(old(Snapshot()), CameraDisconnected)
    {
      outcome := NextState(Some(AbortState));
    }

    method OnError(error: int) returns (outcome: Outcome)
      modifies this
      ensures Step(Snapshot(), outcome) == Dispatch(old(Snapshot()), CameraError(error))
    {
      outcome := NextState(Some(AbortState));
    }

    method OnConfigured(session: Session) returns (outcome: Outcome)
      modifies this
      ensures Step(Snapshot(), outcome) == Dispatch(old(Snapshot()), SessionConfigured(session))
    {
      outcome := Normal;
      if state.Some? {
        outcome := OnSessionConfiguredHook(state.value, session);
      }
    }

    method OnConfigureFailed() returns (outcome: Outcome)
      modifies this
      ensures Step(Snapshot(), outcome) == Dispatch(old(Snapshot()), SessionConfigureFailed)
    {
      outcome := NextState(Some(AbortState));
    }

    method OnCaptureResult(result: CaptureResult, isCompleted: bool) returns (outcome: Outcome)
      modifies this
      ensures Step(Snapshot(), outcome) == CaptureDelivered(old(Snapshot()), result, isCompleted)
    {
      outcome := Normal;
      if state.Some? {
        outcome := OnCaptureResultHook(state.value, result, isCompleted);
        if outcome == Threw(CameraAccess) {
          outcome := NextState(Some(AbortState));
        }
      }
    }

    method OnCaptureProgressed(partial: CaptureResult) returns (outcome: Outcome)
      modifies this
      ensures Step(Snapshot(), outcome) == Dispatch(old(Snapshot()), CaptureProgressed(partial))
    {
      outcome := OnCaptureResult(partial, false);
    }

    method OnCaptureCompleted(result: CaptureResult) returns (outcome: Outcome)
      modifies this
      ensures Step(Snapshot(), outcome) == Dispatch(old(Snapshot()), CaptureCompleted(result))
    {
      outcome := OnCaptureResult(result, true);
    }
  }
}
