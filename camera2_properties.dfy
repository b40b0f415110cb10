/** What Camera2StateMachine promises, proved about the functions of Camera2Model
    (and so, through the methods' postconditions, about the class). */
module Camera2Properties {
  import opened Wrappers
  import opened Camera2Util
  import opened Camera2Model

  // ---------------------------------------------------------------------------
  // open

  /** open() on a started machine throws IllegalStateException and changes nothing. */
  lemma OpenWhileStarted(m: Machine, view: TextureView, manager: CameraManager)
    requires m.state.Some?
    ensures Open(m, view, manager) == Step(m, Threw(IllegalState))
  {
  }

  /** open() with a view that is not yet available records the view and the manager,
      registers for the availability callback and waits in InitSurface. */
  lemma OpenWaitsForSurface(m: Machine, view: TextureView, manager: CameraManager)
    requires m.state.None? && !view.isAvailable
    ensures Open(m, view, manager) ==
            Step(m.(state := Some(InitSurfaceState), view := Some(view), manager := Some(manager),
                    log := m.log + [SurfaceListenerSet(view)]), Normal)
  {
  }

  /** open() with an available view goes straight on to OpenCamera, which creates the
      reader from the first back camera's widest JPEG size and asks to open that camera. */
  lemma OpenWithSurfaceOpensBackCamera(m: Machine, view: TextureView, manager: CameraManager, k: nat)
    requires m.state.None? && view.isAvailable
    requires ListCameras !in m.faults && ReadCharacteristics !in m.faults && OpenDevice !in m.faults
    requires FirstWithFacing(manager.cameras, LensFacingBack) == Some(k)
    requires |manager.cameras[k].jpegSizes| > 0 && |manager.cameras[k].previewSizes| > 0
    ensures Open(m, view, manager) ==
            Step(m.(state := Some(OpenCameraState), view := Some(view), manager := Some(manager),
                    reader := Some(MaxSizeReader(manager.cameras[k].jpegSizes, Jpeg)),
                    log := m.log + [DeviceOpenRequested(manager.cameras[k].id)]), Normal)
  {
  }

  /** Without a back camera getCameraId answers null and the lookup of its
      characteristics throws out of open(), leaving the machine in OpenCamera. */
  lemma OpenWithoutBackCamera(m: Machine, view: TextureView, manager: CameraManager)
    requires m.state.None? && view.isAvailable
    requires ListCameras !in m.faults && ReadCharacteristics !in m.faults
    requires forall j :: 0 <= j < |manager.cameras| ==> manager.cameras[j].lensFacing != LensFacingBack
    ensures Open(m, view, manager) ==
            Step(m.(state := Some(OpenCameraState), view := Some(view), manager := Some(manager)),
                 Threw(IllegalArgument))
  {
  }

  /** When openCamera fails with CameraAccessException the reader just created is
      closed again and mState stays OpenCamera: enter() had already been reached. */
  lemma OpenCameraFailureReleasesReader(m: Machine, view: TextureView, manager: CameraManager, k: nat)
    requires m.state.None? && m.device.None? && m.session.None? && view.isAvailable
    requires ListCameras !in m.faults && ReadCharacteristics !in m.faults && OpenDevice in m.faults
    requires FirstWithFacing(manager.cameras, LensFacingBack) == Some(k)
    requires |manager.cameras[k].jpegSizes| > 0 && |manager.cameras[k].previewSizes| > 0
    ensures Open(m, view, manager) ==
            Step(m.(state := Some(OpenCameraState), view := Some(view), manager := Some(manager),
                    reader := None,
                    log := m.log + [ReaderClosed(MaxSizeReader(manager.cameras[k].jpegSizes, Jpeg))]), Normal)
  {
  }

  /** A back camera without preview sizes: getBestPreviewSize fails at its first
      element after the reader was created and before openCamera, and the exception
      leaves open() with the reader kept and mState OpenCamera. */
  lemma OpenWithoutPreviewSizes(m: Machine, view: TextureView, manager: CameraManager, k: nat)
    requires m.state.None? && view.isAvailable
    requires ListCameras !in m.faults && ReadCharacteristics !in m.faults
    requires FirstWithFacing(manager.cameras, LensFacingBack) == Some(k)
    requires |manager.cameras[k].jpegSizes| > 0 && |manager.cameras[k].previewSizes| == 0
    ensures Open(m, view, manager) ==
            Step(m.(state := Some(OpenCameraState), view := Some(view), manager := Some(manager),
                    reader := Some(MaxSizeReader(manager.cameras[k].jpegSizes, Jpeg))),
                 Threw(IndexOutOfBounds))
  {
  }

  // ---------------------------------------------------------------------------
  // takePicture

  /** takePicture answers true exactly in Preview; then it holds the listener and
      the machine is in AutoFocus; otherwise nothing changes. */
  lemma TakePictureGuard(m: Machine, listener: Listener)
    ensures TakePicture(m, listener).accepted <==> m.state == Some(PreviewState)
    ensures !TakePicture(m, listener).accepted ==> TakePicture(m, listener).step == Step(m, Normal)
    ensures TakePicture(m, listener).accepted ==>
              TakePicture(m, listener).step.m.state == Some(AutoFocusState) &&
              TakePicture(m, listener).step.m.listener == Some(listener)
    ensures TakePicture(m, listener).accepted ==>
              (TakePicture(m, listener).step.outcome == Normal <==> m.builder.Some? && m.session.Some?)
  {
    if m.state == Some(PreviewState) {
      var m1 := m.(listener := Some(listener));
      assert Finish(m1, PreviewState) == Step(m1, Normal);
      var e := Enter(m1.(state := Some(AutoFocusState)), AutoFocusState);
      assert e.m.state == Some(AutoFocusState) && e.m.listener == Some(listener);
    }
  }

  /** Two takePicture calls in a row: the second answers false and changes nothing. */
  lemma TakePictureTwice(m: Machine, first: Listener, second: Listener)
    requires TakePicture(m, first).accepted
    ensures var m1 := TakePicture(m, first).step.m;
            TakePicture(m1, second) == PictureRequest(Step(m1, Normal), false)
  {
    TakePictureGuard(m, first);
  }

  // ---------------------------------------------------------------------------
  // nextState and shutdown

  /** A CameraAccessException from finish() happens before mState is assigned: the
      machine stays in its state, with session, device and reader released. */
  lemma FinishFailureKeepsState(m: Machine, target: Option<StateTag>)
    requires m.state.Some? && Finish(m, m.state.value).outcome == Threw(CameraAccess)
    ensures NextState(m, target) == Step(Shutdown(Finish(m, m.state.value).m), Normal)
    ensures NextState(m, target).m.state == m.state
    ensures NextState(m, target).m.session.None? && NextState(m, target).m.device.None? &&
            NextState(m, target).m.reader.None?
  {
  }

  /** A CameraAccessException from enter() comes after mState was assigned: the
      machine is left in the new state (not reset), with the handles released.
      InitSurface and Abort are excluded: their enter() runs a nested transition
      that catches its own exceptions. */
  lemma EnterFailureKeepsTarget(m: Machine, t: StateTag)
    requires t != InitSurfaceState && t != AbortState
    requires m.state.None? || Finish(m, m.state.value).outcome == Normal
    requires var f := if m.state.Some? then Finish(m, m.state.value).m else m;
             Enter(f.(state := Some(t)), t).outcome == Threw(CameraAccess)
    ensures NextState(m, Some(t)).outcome == Normal
    ensures NextState(m, Some(t)).m.state == Some(t)
    ensures NextState(m, Some(t)).m.session.None? && NextState(m, Some(t)).m.device.None? &&
            NextState(m, Some(t)).m.reader.None?
  {
    var f := if m.state.Some? then Finish(m, m.state.value).m else m;
    var m1 := f.(state := Some(t));
    var e := Enter(m1, t).m;
    EnterKeepsState(m1, t);
    assert e.state == Some(t);
    NextStateAfterEnterFailure(m, t);
  }

  /** nextState whose enter() throws CameraAccessException ends in shutdown() of the
      machine enter() left. */
  lemma NextStateAfterEnterFailure(m: Machine, t: StateTag)
    requires var f := if m.state.Some? then Finish(m, m.state.value) else Step(m, Normal);
             f.outcome == Normal && Enter(f.m.(state := Some(t)), t).outcome == Threw(CameraAccess)
    ensures var f := if m.state.Some? then Finish(m, m.state.value) else Step(m, Normal);
            NextState(m, Some(t)) == Step(Shutdown(Enter(f.m.(state := Some(t)), t).m), Normal)
  {
  }

  /** Only the enter() of InitSurface and of Abort start a transition; every other
      enter() leaves mState as nextState assigned it, whether or not it throws. */
  lemma EnterKeepsState(m: Machine, t: StateTag)
    requires t != InitSurfaceState && t != AbortState
    ensures Enter(m, t).m.state == m.state
  {
    match t
    case OpenCameraState =>
    case CreateSessionState =>
    case PreviewState =>
    case AutoFocusState =>
    case AutoExposureState =>
    case TakePictureState =>
  }

  /** Unchecked exceptions pass through nextState; only CameraAccessException is
      caught, so no call into the machine ever ends with it. */
  lemma NoCameraAccessEscapes(m: Machine, ev: Event)
    ensures Dispatch(m, ev).outcome != Threw(CameraAccess)
  {
  }

  /** Every onCaptureResult hook reaches the framework only through nextState, which
      catches CameraAccessException itself; so the capture callback's own catch,
      which would go to Abort, never fires, and the callback only forwards. */
  lemma CaptureCallbackCatchUnreachable(m: Machine, result: CaptureResult, isCompleted: bool)
    ensures m.state.Some? ==> OnCaptureResult(m, m.state.value, result, isCompleted).outcome != Threw(CameraAccess)
    ensures CaptureDelivered(m, result, isCompleted) ==
            if m.state.None? then Step(m, Normal) else OnCaptureResult(m, m.state.value, result, isCompleted)
  {
  }

  /** shutdown() twice is shutdown() once. */
  lemma ShutdownIdempotent(m: Machine)
    ensures Shutdown(Shutdown(m)) == Shutdown(m)
  {
  }

  // ---------------------------------------------------------------------------
  // close

  /** Whether finish() of the current state completes without an exception. */
  predicate FinishCompletes(m: Machine)
  {
    m.state != Some(TakePictureState) ||
    (m.builder.Some? && m.session.Some? && CaptureOnce !in m.faults)
  }

  /** close() ends with no state exactly when finish() of the current state
      completes. Then the three handles are released in the order session, device,
      reader, and nothing else changes beyond what that finish() did; otherwise the
      machine stays in TakePicture. */
  lemma CloseReleasesEverything(m: Machine)
    ensures Close(m).m.state.None? <==> FinishCompletes(m)
    ensures !FinishCompletes(m) ==> Close(m).m.state == Some(TakePictureState)
    ensures FinishCompletes(m) ==>
              var f := if m.state.Some? then Finish(m, m.state.value).m else m;
              Close(m) == Step(Shutdown(f).(state := None), Normal)
    ensures FinishCompletes(m) ==>
              Close(m).m.session.None? && Close(m).m.device.None? && Close(m).m.reader.None?
  {
    if !FinishCompletes(m) {
      assert Finish(m, TakePictureState).outcome != Normal;
      return;
    }
    var f := if m.state.Some? then Finish(m, m.state.value) else Step(m, Normal);
    assert f.outcome == Normal;
    var m1 := f.m.(state := Some(AbortState));
    var m2 := Shutdown(m1);
    assert Enter(m1, AbortState) == NextState(m2, None);
    assert Finish(m2, AbortState) == Step(m2, Normal);
  }

  /** close() on a closed machine changes nothing, so close() is idempotent. */
  lemma CloseTwice(m: Machine)
    requires FinishCompletes(m)
    ensures Close(Close(m).m) == Close(m)
  {
    CloseReleasesEverything(m);
    CloseReleasesEverything(Close(m).m);
  }

  /** close() during the still capture still runs TakePicture.finish(): the AF trigger
      is cancelled, auto-flash restored, the preview request submitted once and the
      pending listener dropped, before the handles are released. */
  lemma CloseDuringTakePicture(m: Machine)
    requires m.state == Some(TakePictureState) && m.builder.Some? && m.session.Some?
    requires CaptureOnce !in m.faults
    ensures var b := m.builder.value.(settings := m.builder.value.settings
                       + map[AfTrigger := AfTriggerCancel, AeMode := AeModeOnAutoFlash]);
            Close(m) ==
            Step(m.(state := None, session := None, device := None, reader := None,
                    builder := Some(b), listener := None,
                    log := m.log + [CaptureSubmitted(m.session.value, b)] + ReleaseEffects(m)), Normal)
  {
    CloseReleasesEverything(m);
    var b := m.builder.value.(settings := m.builder.value.settings
               + map[AfTrigger := AfTriggerCancel, AeMode := AeModeOnAutoFlash]);
    var f := Finish(m, TakePictureState).m;
    assert f == m.(builder := Some(b), listener := None, log := m.log + [CaptureSubmitted(m.session.value, b)]);
    assert ReleaseEffects(f) == ReleaseEffects(m);
  }

  /** close() while the device is still being opened releases only the reader:
      there is no session or device yet. */
  lemma CloseWhileOpening(m: Machine)
    requires m.state == Some(OpenCameraState) && m.device.None? && m.session.None?
    ensures Close(m) ==
            Step(m.(state := None, reader := None,
                    log := m.log + (if m.reader.Some? then [ReaderClosed(m.reader.value)] else [])), Normal)
  {
    CloseReleasesEverything(m);
  }

  /** If the final capture request of TakePicture.finish() fails, close() does not
      reach the null state: mState stays TakePicture with every handle released and
      the listener kept. A second close() then dereferences the released session,
      and open() refuses to start again. */
  lemma CloseStuckInTakePicture(m: Machine, view: TextureView, manager: CameraManager)
    requires m.state == Some(TakePictureState) && m.builder.Some? && m.session.Some?
    requires CaptureOnce in m.faults
    ensures Close(m).outcome == Normal
    ensures Close(m).m.state == Some(TakePictureState) && Close(m).m.listener == m.listener
    ensures Close(m).m.session.None? && Close(m).m.device.None? && Close(m).m.reader.None?
    ensures Close(Close(m).m).outcome == Threw(NullPointer)
    ensures Open(Close(m).m, view, manager).outcome == Threw(IllegalState)
  {
    FinishFailureKeepsState(m, Some(AbortState));
  }

  // ---------------------------------------------------------------------------
  // Convergence and capture results

  /** AutoFocus advances to AutoExposure exactly when the AF state is absent,
      FOCUSED_LOCKED or NOT_FOCUSED_LOCKED; any other result leaves it unchanged. */
  lemma AutoFocusConvergence(m: Machine, result: CaptureResult, isCompleted: bool)
    requires m.state == Some(AutoFocusState)
    ensures CaptureDelivered(m, result, isCompleted).m.state == Some(AutoExposureState) <==>
            (result.afState.None? || result.afState == Some(AfStateFocusedLocked) ||
             result.afState == Some(AfStateNotFocusedLocked))
    ensures !AfReady(result.afState) ==> CaptureDelivered(m, result, isCompleted) == Step(m, Normal)
  {
    if AfReady(result.afState) {
      var e := Enter(m.(state := Some(AutoExposureState)), AutoExposureState);
      assert e.m.state == Some(AutoExposureState);
    }
  }

  /** AutoExposure advances to TakePicture exactly when the AE state is absent,
      CONVERGED or FLASH_REQUIRED; any other result leaves it unchanged. */
  lemma AutoExposureConvergence(m: Machine, result: CaptureResult, isCompleted: bool)
    requires m.state == Some(AutoExposureState)
    ensures CaptureDelivered(m, result, isCompleted).m.state == Some(TakePictureState) <==>
            (result.aeState.None? || result.aeState == Some(AeStateConverged) ||
             result.aeState == Some(AeStateFlashRequired))
    ensures !AeReady(result.aeState) ==> CaptureDelivered(m, result, isCompleted) == Step(m, Normal)
  {
    if AeReady(result.aeState) {
      var e := Enter(m.(state := Some(TakePictureState)), TakePictureState);
      assert e.m.state == Some(TakePictureState);
    }
  }

  /** In TakePicture a partial result is ignored. */
  lemma PartialResultIgnored(m: Machine, partial: CaptureResult)
    requires m.state == Some(TakePictureState)
    ensures CaptureDelivered(m, partial, false) == Step(m, Normal)
  {
  }

  /** In TakePicture the completed result returns to Preview: finish() cancels the AF
      trigger and submits the preview request once, then Preview.enter() restores
      continuous AF and resubmits it as the repeating request. */
  lemma CompletedResultReturnsToPreview(m: Machine, result: CaptureResult)
    requires m.state == Some(TakePictureState) && m.builder.Some? && m.session.Some?
    requires CaptureOnce !in m.faults && RepeatRequest !in m.faults
    ensures var cancelled := m.builder.value.(settings := m.builder.value.settings
                               + map[AfTrigger := AfTriggerCancel, AeMode := AeModeOnAutoFlash]);
            var preview := cancelled.(settings := cancelled.settings
                               + map[AfMode := AfModeContinuousPicture, AeMode := AeModeOnAutoFlash]);
            CaptureDelivered(m, result, true) ==
            Step(m.(state := Some(PreviewState), builder := Some(preview), listener := None,
                    log := m.log + [CaptureSubmitted(m.session.value, cancelled),
                                    RepeatingSubmitted(m.session.value, preview)]), Normal)
  {
  }

  /** Only TakePicture has a finish() that does anything. */
  lemma OtherFinishesDoNothing(m: Machine, s: StateTag)
    requires s != TakePictureState
    ensures Finish(m, s) == Step(m, Normal)
  {
  }

  /** Callbacks that reach a state not overriding the hook change nothing, whatever
      they carry (a device or session delivered to the wrong state is dropped). */
  lemma StaleCallbacksIgnored(m: Machine, ev: Event)
    requires || (ev.SurfaceTextureAvailable? && m.state != Some(InitSurfaceState))
             || (ev.CameraOpened? && m.state != Some(OpenCameraState))
             || (ev.SessionConfigured? && m.state != Some(CreateSessionState))
             || ((ev.CaptureProgressed? || ev.CaptureCompleted?) &&
                 m.state != Some(AutoFocusState) && m.state != Some(AutoExposureState) &&
                 m.state != Some(TakePictureState))
    ensures Dispatch(m, ev) == Step(m, Normal)
  {
  }

  // ---------------------------------------------------------------------------
  // The handle invariant, over every sequence of events

  /** The states in which the device may be open, and in which the session may exist. */
  predicate DeviceState(s: Option<StateTag>)
  {
    s == Some(CreateSessionState) || SessionState(s)
  }

  predicate SessionState(s: Option<StateTag>)
  {
    s == Some(PreviewState) || s == Some(AutoFocusState) ||
    s == Some(AutoExposureState) || s == Some(TakePictureState)
  }

  /** Handles in `m` are consistent with the machine being in state `s`. */
  predicate Fits(s: Option<StateTag>, m: Machine)
  {
    && (s.Some? ==> m.view.Some? && m.manager.Some?)
    && (m.device.Some? ==> DeviceState(s))
    && (m.session.Some? ==> SessionState(s))
  }

  /** No device before OpenCamera has completed, no session before CreateSession has,
      and once a state is installed the view and camera manager of open() are set. */
  predicate Valid(m: Machine)
  {
    Fits(m.state, m)
  }

  lemma {:induction false} NextStateValid(m: Machine, t: Option<StateTag>)
    requires m.state == Some(TakePictureState) ==> Valid(m)
    requires Fits(t, m) || t == Some(AbortState)
    ensures Valid(NextState(m, t).m)
    decreases Rank(t), 1
  {
    var f := if m.state.Some? then Finish(m, m.state.value) else Step(m, Normal);
    if f.outcome == Normal {
      var m1 := f.m.(state := t);
      if t.Some? {
        EnterValid(m1, t.value);
      }
    }
  }

  lemma {:induction false} EnterValid(m: Machine, s: StateTag)
    requires m.state == Some(s)
    requires Fits(Some(s), m) || s == AbortState
    ensures Valid(Enter(m, s).m)
    decreases Rank(Some(s)), 0
  {
    match s
    case InitSurfaceState =>
      if m.view.Some? && m.view.value.isAvailable {
        NextStateValid(m, Some(OpenCameraState));
      }
    case AbortState =>
      NextStateValid(Shutdown(m), None);
    case _ =>
  }

  /** Every event keeps the invariant. */
  lemma {:induction false} DispatchValid(m: Machine, ev: Event)
    requires Valid(m)
    ensures Valid(Dispatch(m, ev).m)
  {
    match ev
    case OpenCalled(view, manager) =>
      if m.state.None? {
        NextStateValid(m.(view := Some(view), manager := Some(manager)), Some(InitSurfaceState));
      }
    case TakePictureCalled(listener) =>
      if m.state == Some(PreviewState) {
        NextStateValid(m.(listener := Some(listener)), Some(AutoFocusState));
      }
    case SurfaceTextureAvailable =>
      if m.state == Some(InitSurfaceState) {
        NextStateValid(m, Some(OpenCameraState));
      }
    case CameraOpened(d) =>
      if m.state == Some(OpenCameraState) {
        NextStateValid(m.(device := Some(d)), Some(CreateSessionState));
      }
    case SessionConfigured(session) =>
      if m.state == Some(CreateSessionState) {
        NextStateValid(m.(session := Some(session)), Some(PreviewState));
      }
    case CaptureProgressed(partial) =>
      CaptureDeliveredValid(m, partial, false);
    case CaptureCompleted(result) =>
      CaptureDeliveredValid(m, result, true);
    case FaultsChanged(_) =>
    case _ =>
      NextStateValid(m, Some(AbortState));
  }

  lemma CaptureDeliveredValid(m: Machine, result: CaptureResult, isCompleted: bool)
    requires Valid(m)
    ensures Valid(CaptureDelivered(m, result, isCompleted).m)
  {
    if m.state == Some(AutoFocusState) && AfReady(result.afState) {
      NextStateValid(m, Some(AutoExposureState));
    } else if m.state == Some(AutoExposureState) && AeReady(result.aeState) {
      NextStateValid(m, Some(TakePictureState));
    } else if m.state == Some(TakePictureState) && isCompleted {
      NextStateValid(m, Some(PreviewState));
    }
  }

  lemma {:induction false} RunValid(m: Machine, events: seq<Event>)
    requires Valid(m)
    ensures Valid(Run(m, events).m)
    decreases |events|
  {
    if |events| > 0 {
      DispatchValid(m, events[0]);
      var r := Dispatch(m, events[0]);
      if r.outcome.Normal? {
        RunValid(r.m, events[1..]);
      }
    }
  }

  /** From a new machine, whatever events arrive: no device is open before OpenCamera
      has completed and no session exists before CreateSession has. */
  lemma HandlesFollowStates(faults: set<Api>, events: seq<Event>)
    ensures var r := Run(Initial(faults), events).m;
            && (r.state.None? || r.state == Some(InitSurfaceState) || r.state == Some(OpenCameraState)
                ==> r.device.None? && r.session.None?)
            && (r.state == Some(CreateSessionState) ==> r.session.None?)
  {
    RunValid(Initial(faults), events);
  }

  /** The effect log only grows, and the failing calls change only by an explicit
      change of the environment. */
  lemma {:induction false} RunKeepsLogPrefix(m: Machine, events: seq<Event>)
    ensures m.log <= Run(m, events).m.log
    ensures (forall i :: 0 <= i < |events| ==> !events[i].FaultsChanged?) ==> Run(m, events).m.faults == m.faults
    decreases |events|
  {
    if |events| > 0 {
      var r := Dispatch(m, events[0]);
      DispatchKeepsLogPrefix(m, events[0]);
      if r.outcome.Normal? {
        RunKeepsLogPrefix(r.m, events[1..]);
      }
    }
  }

  lemma DispatchKeepsLogPrefix(m: Machine, ev: Event)
    ensures m.log <= Dispatch(m, ev).m.log
    ensures !ev.FaultsChanged? ==> Dispatch(m, ev).m.faults == m.faults
  {
  }

  // ---------------------------------------------------------------------------
  // Scenarios

  /** Once the surface becomes available, InitSurface moves on to OpenCamera. */
  lemma SurfaceAvailableOpensCamera(m: Machine, k: nat)
    requires m.state == Some(InitSurfaceState) && m.manager.Some?
    requires ListCameras !in m.faults && ReadCharacteristics !in m.faults && OpenDevice !in m.faults
    requires FirstWithFacing(m.manager.value.cameras, LensFacingBack) == Some(k)
    requires |m.manager.value.cameras[k].jpegSizes| > 0 && |m.manager.value.cameras[k].previewSizes| > 0
    ensures Dispatch(m, SurfaceTextureAvailable) ==
            Step(m.(state := Some(OpenCameraState),
                    reader := Some(MaxSizeReader(m.manager.value.cameras[k].jpegSizes, Jpeg)),
                    log := m.log + [DeviceOpenRequested(m.manager.value.cameras[k].id)]), Normal)
  {
  }

  /** onCameraOpened in OpenCamera stores the device and moves to CreateSession, which
      builds the preview request on the view's surface and asks for a session over
      that surface and the reader's. */
  lemma CameraOpenedCreatesSession(m: Machine, d: Device)
    requires m.state == Some(OpenCameraState) && m.view.Some? && m.reader.Some? && m.session.None?
    requires NewCaptureRequest !in m.faults && NewCaptureSession !in m.faults
    ensures Dispatch(m, CameraOpened(d)) ==
            Step(m.(state := Some(CreateSessionState), device := Some(d),
                    builder := Some(Request(TemplatePreview, [PreviewSurface(m.view.value)], map[])),
                    log := m.log + [SessionRequested(d, [PreviewSurface(m.view.value), ReaderSurface(m.reader.value)])]),
                 Normal)
  {
  }

  /** onSessionConfigured in CreateSession stores the session and moves to Preview,
      which streams the preview request with continuous AF and auto-flash. */
  lemma SessionConfiguredStartsPreview(m: Machine, session: Session)
    requires m.state == Some(CreateSessionState) && m.builder.Some?
    requires RepeatRequest !in m.faults
    ensures var b := m.builder.value;
            var preview := b.(settings := b.settings + map[AfMode := AfModeContinuousPicture, AeMode := AeModeOnAutoFlash]);
            Dispatch(m, SessionConfigured(session)) ==
            Step(m.(state := Some(PreviewState), session := Some(session), builder := Some(preview),
                    log := m.log + [RepeatingSubmitted(session, preview)]), Normal)
  {
  }

  /** Disconnect, device error and configure-failure are not forwarded to the state:
      from any state they run the same transition to Abort as close(). */
  lemma FailureCallbacksAbort(m: Machine, ev: Event)
    requires ev.CameraDisconnected? || ev.CameraError? || ev.SessionConfigureFailed?
    ensures Dispatch(m, ev) == Close(m)
  {
  }

  /** Regrouping a log that grew by one effect and then by several. */
  lemma AppendAfterOne<T>(l: seq<T>, x: T, ys: seq<T>)
    ensures (l + [x]) + ys == l + ([x] + ys)
  {
  }

  /** One effect in front of six, written out. */
  lemma PrependToSix<T>(x: T, ys: seq<T>)
    requires |ys| == 6
    ensures [x] + ys == [x, ys[0], ys[1], ys[2], ys[3], ys[4], ys[5]]
  {
  }

  /** The framework calls start-up makes. */
  function StartUpApis(): set<Api>
  {
    {ListCameras, ReadCharacteristics, OpenDevice, NewCaptureRequest, NewCaptureSession, RepeatRequest}
  }

  /** Running a first event that completes normally, then the rest. */
  lemma RunFirst(m: Machine, ev: Event, rest: seq<Event>)
    requires Dispatch(m, ev).outcome == Normal
    ensures Run(m, [ev] + rest) == Run(Dispatch(m, ev).m, rest)
  {
    assert ([ev] + rest)[0] == ev && ([ev] + rest)[1..] == rest;
  }

  /** Running a prefix that completes normally, then the rest. */
  lemma {:induction false} RunAppend(m: Machine, first: seq<Event>, rest: seq<Event>)
    requires Run(m, first).outcome == Normal
    ensures Run(m, first + rest) == Run(Run(m, first).m, rest)
    decreases |first|
  {
    if |first| == 0 {
      assert first + rest == rest;
    } else {
      var r := Dispatch(m, first[0]);
      assert (first + rest)[0] == first[0];
      assert (first + rest)[1..] == first[1..] + rest;
      RunAppend(r.m, first[1..], rest);
    }
  }

  /** Start-up with the view available and none of its framework calls failing:
      open(), the device-opened callback and the session-configured callback bring
      the machine to Preview with continuous AF and auto-flash streaming. */
  lemma StartUpReachesPreview(faults: set<Api>, view: TextureView, manager: CameraManager, k: nat,
                              d: Device, s: Session)
    requires StartUpApis() !! faults
    requires view.isAvailable
    requires FirstWithFacing(manager.cameras, LensFacingBack) == Some(k)
    requires |manager.cameras[k].jpegSizes| > 0 && |manager.cameras[k].previewSizes| > 0
    ensures var reader := MaxSizeReader(manager.cameras[k].jpegSizes, Jpeg);
            var preview := Request(TemplatePreview, [PreviewSurface(view)],
                                   map[AfMode := AfModeContinuousPicture, AeMode := AeModeOnAutoFlash]);
            Run(Initial(faults), [OpenCalled(view, manager), CameraOpened(d), SessionConfigured(s)]) ==
            Step(Machine(Some(PreviewState), Some(manager), Some(view), Some(d), Some(s), Some(reader),
                         Some(preview), None, faults,
                         [DeviceOpenRequested(manager.cameras[k].id),
                          SessionRequested(d, [PreviewSurface(view), ReaderSurface(reader)]),
                          RepeatingSubmitted(s, preview)]), Normal)
  {
    var reader := MaxSizeReader(manager.cameras[k].jpegSizes, Jpeg);
    var m0 := Initial(faults);
    OpenWithSurfaceOpensBackCamera(m0, view, manager, k);
    var m1 := Dispatch(m0, OpenCalled(view, manager)).m;
    CameraOpenedCreatesSession(m1, d);
    var m2 := Dispatch(m1, CameraOpened(d)).m;
    SessionConfiguredStartsPreview(m2, s);
    var m3 := Dispatch(m2, SessionConfigured(s)).m;
    RunFirst(m2, SessionConfigured(s), []);
    RunFirst(m1, CameraOpened(d), [SessionConfigured(s)]);
    RunFirst(m0, OpenCalled(view, manager), [CameraOpened(d), SessionConfigured(s)]);
    assert Request(TemplatePreview, [PreviewSurface(view)], map[]).settings
           + map[AfMode := AfModeContinuousPicture, AeMode := AeModeOnAutoFlash]
           == map[AfMode := AfModeContinuousPicture, AeMode := AeModeOnAutoFlash];
  }

  /** takePicture in Preview sets the AF trigger and resubmits the repeating request. */
  lemma TakePictureStartsAutoFocus(m: Machine, listener: Listener)
    requires m.state == Some(PreviewState) && m.builder.Some? && m.session.Some?
    requires RepeatRequest !in m.faults
    ensures var b := m.builder.value.(settings := m.builder.value.settings + map[AfTrigger := AfTriggerStart]);
            Dispatch(m, TakePictureCalled(listener)) ==
            Step(m.(state := Some(AutoFocusState), listener := Some(listener), builder := Some(b),
                    log := m.log + [RepeatingSubmitted(m.session.value, b)]), Normal)
  {
  }

  /** A focused result in AutoFocus sets the precapture trigger and resubmits the
      repeating request. */
  lemma FocusLockedStartsAutoExposure(m: Machine, result: CaptureResult, isCompleted: bool)
    requires m.state == Some(AutoFocusState) && AfReady(result.afState)
    requires m.builder.Some? && m.session.Some? && RepeatRequest !in m.faults
    ensures var b := m.builder.value.(settings := m.builder.value.settings
                       + map[AePrecaptureTrigger := AePrecaptureTriggerStart]);
            CaptureDelivered(m, result, isCompleted) ==
            Step(m.(state := Some(AutoExposureState), builder := Some(b),
                    log := m.log + [RepeatingSubmitted(m.session.value, b)]), Normal)
  {
  }

  /** A converged result in AutoExposure hands the pending listener to the reader,
      stops the repeating request and submits the still capture. */
  lemma ExposureConvergedTakesPicture(m: Machine, result: CaptureResult, isCompleted: bool)
    requires m.state == Some(AutoExposureState) && AeReady(result.aeState)
    requires m.device.Some? && m.reader.Some? && m.session.Some?
    requires NewCaptureRequest !in m.faults && StopRepeat !in m.faults && CaptureOnce !in m.faults
    ensures CaptureDelivered(m, result, isCompleted) ==
            Step(m.(state := Some(TakePictureState),
                    log := m.log + [ImageListenerSet(m.reader.value, m.listener),
                                    RepeatingStopped(m.session.value),
                                    CaptureSubmitted(m.session.value, StillRequest(m.reader.value))]), Normal)
  {
  }

  /** takePicture in Preview, followed by any further events. */
  lemma TakePictureThenRun(m: Machine, listener: Listener, rest: seq<Event>)
    requires m.state == Some(PreviewState) && m.builder.Some? && m.session.Some?
    requires RepeatRequest !in m.faults
    ensures var b := m.builder.value.(settings := m.builder.value.settings + map[AfTrigger := AfTriggerStart]);
            Run(m, [TakePictureCalled(listener)] + rest) ==
            Run(m.(state := Some(AutoFocusState), listener := Some(listener), builder := Some(b),
                   log := m.log + [RepeatingSubmitted(m.session.value, b)]), rest)
  {
    TakePictureStartsAutoFocus(m, listener);
    RunFirst(m, TakePictureCalled(listener), rest);
  }

  /** A ready AF result in AutoFocus, followed by any further events. */
  lemma FocusedThenRun(m: Machine, result: CaptureResult, rest: seq<Event>)
    requires m.state == Some(AutoFocusState) && AfReady(result.afState)
    requires m.builder.Some? && m.session.Some? && RepeatRequest !in m.faults
    ensures var b := m.builder.value.(settings := m.builder.value.settings
                       + map[AePrecaptureTrigger := AePrecaptureTriggerStart]);
            Run(m, [CaptureCompleted(result)] + rest) ==
            Run(m.(state := Some(AutoExposureState), builder := Some(b),
                   log := m.log + [RepeatingSubmitted(m.session.value, b)]), rest)
  {
    FocusLockedStartsAutoExposure(m, result, true);
    RunFirst(m, CaptureCompleted(result), rest);
  }

  /** A ready AE result in AutoExposure, followed by any further events. */
  lemma ConvergedThenRun(m: Machine, result: CaptureResult, rest: seq<Event>)
    requires m.state == Some(AutoExposureState) && AeReady(result.aeState)
    requires m.device.Some? && m.reader.Some? && m.session.Some?
    requires NewCaptureRequest !in m.faults && StopRepeat !in m.faults && CaptureOnce !in m.faults
    ensures Run(m, [CaptureCompleted(result)] + rest) ==
            Run(m.(state := Some(TakePictureState),
                   log := m.log + [ImageListenerSet(m.reader.value, m.listener),
                                   RepeatingStopped(m.session.value),
                                   CaptureSubmitted(m.session.value, StillRequest(m.reader.value))]), rest)
  {
    ExposureConvergedTakesPicture(m, result, true);
    RunFirst(m, CaptureCompleted(result), rest);
  }

  /** The completed result in TakePicture, followed by any further events. */
  lemma CompletedThenRun(m: Machine, result: CaptureResult, rest: seq<Event>)
    requires m.state == Some(TakePictureState) && m.builder.Some? && m.session.Some?
    requires CaptureOnce !in m.faults && RepeatRequest !in m.faults
    ensures var cancelled := m.builder.value.(settings := m.builder.value.settings
                               + map[AfTrigger := AfTriggerCancel, AeMode := AeModeOnAutoFlash]);
            var preview := cancelled.(settings := cancelled.settings
                               + map[AfMode := AfModeContinuousPicture, AeMode := AeModeOnAutoFlash]);
            Run(m, [CaptureCompleted(result)] + rest) ==
            Run(m.(state := Some(PreviewState), builder := Some(preview), listener := None,
                   log := m.log + [CaptureSubmitted(m.session.value, cancelled),
                                   RepeatingSubmitted(m.session.value, preview)]), rest)
  {
    CompletedResultReturnsToPreview(m, result);
    RunFirst(m, CaptureCompleted(result), rest);
  }

  /** From AutoFocus with no failures: a FOCUSED_LOCKED result, a CONVERGED result
      and the completed still capture bring the machine back to Preview with the
      listener handed to the reader once and then dropped. */
  lemma AutoFocusThroughCapture(m: Machine)
    requires m.state == Some(AutoFocusState) && m.faults == {}
    requires m.device.Some? && m.session.Some? && m.reader.Some? && m.builder.Some?
    ensures var s := m.session.value;
            var b1 := m.builder.value;
            var b2 := b1.(settings := b1.settings + map[AePrecaptureTrigger := AePrecaptureTriggerStart]);
            var b3 := b2.(settings := b2.settings + map[AfTrigger := AfTriggerCancel, AeMode := AeModeOnAutoFlash]);
            var b4 := b3.(settings := b3.settings + map[AfMode := AfModeContinuousPicture, AeMode := AeModeOnAutoFlash]);
            Run(m, [CaptureCompleted(CaptureResult(Some(AfStateFocusedLocked), None)),
                    CaptureCompleted(CaptureResult(None, Some(AeStateConverged))),
                    CaptureCompleted(CaptureResult(None, None))]) ==
            Step(m.(state := Some(PreviewState), builder := Some(b4), listener := None,
                    log := m.log + [RepeatingSubmitted(s, b2),
                                    ImageListenerSet(m.reader.value, m.listener),
                                    RepeatingStopped(s), CaptureSubmitted(s, StillRequest(m.reader.value)),
                                    CaptureSubmitted(s, b3), RepeatingSubmitted(s, b4)]), Normal)
  {
    var focused := CaptureResult(Some(AfStateFocusedLocked), None);
    var converged := CaptureResult(None, Some(AeStateConverged));
    var done := CaptureResult(None, None);
    var s := m.session.value;
    var reader := m.reader.value;
    var b1 := m.builder.value;
    var b2 := b1.(settings := b1.settings + map[AePrecaptureTrigger := AePrecaptureTriggerStart]);
    var b3 := b2.(settings := b2.settings + map[AfTrigger := AfTriggerCancel, AeMode := AeModeOnAutoFlash]);
    var b4 := b3.(settings := b3.settings + map[AfMode := AfModeContinuousPicture, AeMode := AeModeOnAutoFlash]);
    var m2 := m.(state := Some(AutoExposureState), builder := Some(b2),
                 log := m.log + [RepeatingSubmitted(s, b2)]);
    var m3 := m2.(state := Some(TakePictureState),
                  log := m2.log + [ImageListenerSet(reader, m.listener), RepeatingStopped(s),
                                   CaptureSubmitted(s, StillRequest(reader))]);
    var m4 := m3.(state := Some(PreviewState), builder := Some(b4), listener := None,
                  log := m3.log + [CaptureSubmitted(s, b3), RepeatingSubmitted(s, b4)]);
    FocusedThenRun(m, focused, [CaptureCompleted(converged), CaptureCompleted(done)]);
    ConvergedThenRun(m2, converged, [CaptureCompleted(done)]);
    CompletedThenRun(m3, done, []);
    assert [CaptureCompleted(focused)] + [CaptureCompleted(converged), CaptureCompleted(done)] ==
           [CaptureCompleted(focused), CaptureCompleted(converged), CaptureCompleted(done)];
    assert [CaptureCompleted(converged)] + [CaptureCompleted(done)] ==
           [CaptureCompleted(converged), CaptureCompleted(done)];
    assert [CaptureCompleted(done)] + [] == [CaptureCompleted(done)];
    assert m4.log == m.log + [RepeatingSubmitted(s, b2), ImageListenerSet(reader, m.listener),
                              RepeatingStopped(s), CaptureSubmitted(s, StillRequest(reader)),
                              CaptureSubmitted(s, b3), RepeatingSubmitted(s, b4)];
  }

  /** One picture from Preview with no failures: AutoFocus on a FOCUSED_LOCKED result,
      AutoExposure on a CONVERGED result, the still capture with the listener handed
      to the reader once, and back to Preview with the listener dropped. */
  lemma CaptureCycle(m: Machine, listener: Listener)
    requires m.state == Some(PreviewState) && m.faults == {}
    requires m.device.Some? && m.session.Some? && m.reader.Some? && m.builder.Some?
    ensures var s := m.session.value;
            var b0 := m.builder.value;
            var b1 := b0.(settings := b0.settings + map[AfTrigger := AfTriggerStart]);
            var b2 := b1.(settings := b1.settings + map[AePrecaptureTrigger := AePrecaptureTriggerStart]);
            var b3 := b2.(settings := b2.settings + map[AfTrigger := AfTriggerCancel, AeMode := AeModeOnAutoFlash]);
            var b4 := b3.(settings := b3.settings + map[AfMode := AfModeContinuousPicture, AeMode := AeModeOnAutoFlash]);
            Run(m, [TakePictureCalled(listener),
                    CaptureCompleted(CaptureResult(Some(AfStateFocusedLocked), None)),
                    CaptureCompleted(CaptureResult(None, Some(AeStateConverged))),
                    CaptureCompleted(CaptureResult(None, None))]) ==
            Step(m.(builder := Some(b4), listener := None,
                    log := m.log + [RepeatingSubmitted(s, b1), RepeatingSubmitted(s, b2),
                                    ImageListenerSet(m.reader.value, Some(listener)),
                                    RepeatingStopped(s), CaptureSubmitted(s, StillRequest(m.reader.value)),
                                    CaptureSubmitted(s, b3), RepeatingSubmitted(s, b4)]), Normal)
  {
    var rest := [CaptureCompleted(CaptureResult(Some(AfStateFocusedLocked), None)),
                 CaptureCompleted(CaptureResult(None, Some(AeStateConverged))),
                 CaptureCompleted(CaptureResult(None, None))];
    var s := m.session.value;
    var reader := m.reader.value;
    var b0 := m.builder.value;
    var b1 := b0.(settings := b0.settings + map[AfTrigger := AfTriggerStart]);
    var b2 := b1.(settings := b1.settings + map[AePrecaptureTrigger := AePrecaptureTriggerStart]);
    var b3 := b2.(settings := b2.settings + map[AfTrigger := AfTriggerCancel, AeMode := AeModeOnAutoFlash]);
    var b4 := b3.(settings := b3.settings + map[AfMode := AfModeContinuousPicture, AeMode := AeModeOnAutoFlash]);
    var m1 := m.(state := Some(AutoFocusState), listener := Some(listener), builder := Some(b1),
                 log := m.log + [RepeatingSubmitted(s, b1)]);
    var later := [RepeatingSubmitted(s, b2), ImageListenerSet(reader, Some(listener)),
                  RepeatingStopped(s), CaptureSubmitted(s, StillRequest(reader)),
                  CaptureSubmitted(s, b3), RepeatingSubmitted(s, b4)];
    var events := [TakePictureCalled(listener)] + rest;
    calc {
      Run(m, [TakePictureCalled(listener), rest[0], rest[1], rest[2]]);
    == { assert events == [TakePictureCalled(listener), rest[0], rest[1], rest[2]]; }
      Run(m, events);
    == { TakePictureThenRun(m, listener, rest); }
      Run(m1, rest);
    == { AutoFocusThroughCapture(m1); }
      Step(m1.(state := Some(PreviewState), builder := Some(b4), listener := None, log := m1.log + later), Normal);
    == { AppendAfterOne(m.log, RepeatingSubmitted(s, b1), later); }
      Step(m1.(state := Some(PreviewState), builder := Some(b4), listener := None,
               log := m.log + ([RepeatingSubmitted(s, b1)] + later)), Normal);
    == { PrependToSix(RepeatingSubmitted(s, b1), later); }
      Step(m.(builder := Some(b4), listener := None,
              log := m.log + [RepeatingSubmitted(s, b1), RepeatingSubmitted(s, b2),
                              ImageListenerSet(reader, Some(listener)),
                              RepeatingStopped(s), CaptureSubmitted(s, StillRequest(reader)),
                              CaptureSubmitted(s, b3), RepeatingSubmitted(s, b4)]), Normal);
    }
  }

  /** If the still capture of TakePicture.enter() fails, nextState releases the
      handles but mState stays TakePicture, with the preview builder kept. */
  lemma StillCaptureFailureKeepsTakePicture(m: Machine, result: CaptureResult, isCompleted: bool)
    requires m.state == Some(AutoExposureState) && AeReady(result.aeState)
    requires m.device.Some? && m.reader.Some? && m.session.Some?
    requires NewCaptureRequest !in m.faults && StopRepeat !in m.faults && CaptureOnce in m.faults
    ensures CaptureDelivered(m, result, isCompleted) ==
            Step(m.(state := Some(TakePictureState), session := None, device := None, reader := None,
                    log := m.log + [ImageListenerSet(m.reader.value, m.listener),
                                    RepeatingStopped(m.session.value)] + ReleaseEffects(m)), Normal)
  {
    var m1 := m.(state := Some(TakePictureState));
    var e := EnterTakePicture(m1);
    assert e.outcome == Threw(CameraAccess);
    assert ReleaseEffects(e.m) == ReleaseEffects(m);
  }

  /** In TakePicture with the session released but the builder kept, close() runs
      TakePicture.finish(), which dereferences the null session: the very first
      close() throws NullPointerException. */
  lemma CloseWithoutSessionThrows(m: Machine)
    requires m.state == Some(TakePictureState) && m.builder.Some? && m.session.None?
    ensures Close(m).outcome == Threw(NullPointer)
    ensures Close(m).m.state == Some(TakePictureState)
  {
  }

  /** From Preview, with only the still capture failing: takePicture, a result that
      lets AutoFocus advance, a result that lets AutoExposure advance (the capture
      fails), then close(), which throws NullPointerException. */
  lemma PictureFailureThenCloseThrows(m: Machine, listener: Listener)
    requires m.state == Some(PreviewState)
    requires m.device.Some? && m.session.Some? && m.reader.Some? && m.builder.Some?
    requires RepeatRequest !in m.faults && NewCaptureRequest !in m.faults && StopRepeat !in m.faults
    requires CaptureOnce in m.faults
    ensures var empty := CaptureCompleted(CaptureResult(None, None));
            Run(m, [TakePictureCalled(listener), empty, empty, CloseCalled]).outcome == Threw(NullPointer)
  {
    var empty := CaptureCompleted(CaptureResult(None, None));
    var take := TakePictureCalled(listener);
    TakePictureStartsAutoFocus(m, listener);
    var m1 := Dispatch(m, take).m;
    FocusLockedStartsAutoExposure(m1, empty.result, true);
    var m2 := Dispatch(m1, empty).m;
    StillCaptureFailureKeepsTakePicture(m2, empty.result, true);
    var m3 := Dispatch(m2, empty).m;
    CloseWithoutSessionThrows(m3);
    assert Run(m3, [CloseCalled]).outcome == Threw(NullPointer);
    RunFirst(m2, empty, [CloseCalled]);
    RunFirst(m1, empty, [empty, CloseCalled]);
    RunFirst(m, take, [empty, empty, CloseCalled]);
    assert [take] + [empty, empty, CloseCalled] == [take, empty, empty, CloseCalled];
  }

  /** From a new machine whose only failing call is capture: start-up, one picture
      whose still capture fails, then close(). The first close() of the session
      throws NullPointerException instead of closing. */
  lemma FirstCloseThrowsAfterCaptureFailure(view: TextureView, manager: CameraManager, k: nat,
                                            d: Device, s: Session, listener: Listener)
    requires view.isAvailable
    requires FirstWithFacing(manager.cameras, LensFacingBack) == Some(k)
    requires |manager.cameras[k].jpegSizes| > 0 && |manager.cameras[k].previewSizes| > 0
    ensures var empty := CaptureCompleted(CaptureResult(None, None));
            Run(Initial({CaptureOnce}),
                [OpenCalled(view, manager), CameraOpened(d), SessionConfigured(s),
                 TakePictureCalled(listener), empty, empty, CloseCalled]).outcome == Threw(NullPointer)
  {
    var empty := CaptureCompleted(CaptureResult(None, None));
    var startUp := [OpenCalled(view, manager), CameraOpened(d), SessionConfigured(s)];
    var picture := [TakePictureCalled(listener), empty, empty, CloseCalled];
    var started := Run(Initial({CaptureOnce}), startUp);
    assert started.outcome == Normal && started.m.state == Some(PreviewState) &&
           started.m.device.Some? && started.m.session.Some? && started.m.reader.Some? &&
           started.m.builder.Some? && started.m.faults == {CaptureOnce} by {
      StartUpReachesPreview({CaptureOnce}, view, manager, k, d, s);
    }
    calc {
      Run(Initial({CaptureOnce}),
          [OpenCalled(view, manager), CameraOpened(d), SessionConfigured(s),
           TakePictureCalled(listener), empty, empty, CloseCalled]).outcome;
    == { assert startUp + picture == [OpenCalled(view, manager), CameraOpened(d), SessionConfigured(s),
                                      TakePictureCalled(listener), empty, empty, CloseCalled]; }
      Run(Initial({CaptureOnce}), startUp + picture).outcome;
    == { RunAppend(Initial({CaptureOnce}), startUp, picture); }
      Run(started.m, picture).outcome;
    == { PictureFailureThenCloseThrows(started.m, listener); }
      Threw(NullPointer);
    }
  }
}
