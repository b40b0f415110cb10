# Camera2 state machine

A Dafny model of the camera controller of the androidCamera2Sample application.
It covers `Camera2StateMachine` and the two selection loops of `Camera2Util`
that the controller uses.

`Camera2StateMachine` is a single-threaded state machine. It takes an Android
camera through these states:

- InitSurface, OpenCamera, CreateSession, Preview;
- then the capture cycle AutoFocus, AutoExposure, TakePicture and back to Preview;
- Abort, reachable from anywhere, which releases the session, the device and the
  image reader and leaves the machine with no state.

The model is in five modules.

- `Wrappers` (wrappers.dfy). `Option`, which stands for a Java reference that
  may be null.
- `Camera2Util` (camera2_util.dfy). `getCameraId` and `getMaxSizeImageReader`
  are loop methods. Each is proved against a recursive specification function:
  `FirstWithFacing` (the first camera in list order with the lens facing) and
  `MaxWidthIndex` (the earliest size of maximal width).
- `Camera2Model` (camera2_model.dfy). The meaning of every operation, as
  functions over a snapshot `Machine` of the object's fields:
  - `NextState`, `Enter` and `Finish` are mutually recursive, because
    InitSurface.enter() and Abort.enter() start nested transitions.
  - `Dispatch` is the reaction to one event: one of the three public calls, a
    framework callback, or a change of which framework calls fail.
  - `Run` is a sequence of events.
- `StateMachine` (camera2_state_machine.dfy). Class `Camera2StateMachine` has
  the Java fields and one method per Java method and state hook. Each method
  updates the fields in place. Each is proved to leave `Snapshot()` as the
  `Camera2Model` function of the same name says and to end with the same
  outcome.
- `Camera2Properties` (camera2_properties.dfy). Lemmas about those functions:
  - the open/takePicture guards;
  - finish-before-enter ordering and where mState is left when a hook throws;
  - shutdown and close;
  - AF/AE convergence;
  - the TakePicture round trip;
  - a handle invariant kept by every sequence of events;
  - the start-up and capture scenarios, and the failure scenarios below.

How the environment is represented:

- **Framework objects.** Devices, sessions, listeners and views are opaque
  handles.
- **Effect log.** Every framework call whose effect outlives the call is
  appended to `log`, in order. These calls are `setSurfaceTextureListener`,
  `openCamera`, `createCaptureSession`, `setRepeatingRequest`,
  `stopRepeating`, `capture`, `setOnImageAvailableListener` and the three
  `close` calls.
- **Failures.** `faults` is the set of framework calls that throw
  `CameraAccessException`. A failing call has no effect. The event
  `FaultsChanged` replaces the set between two events, so a run can have calls
  start or stop failing in mid-session.
- **Unchecked exceptions.** `NullPointerException`, `IllegalStateException`,
  `IllegalArgumentException` and `ArrayIndexOutOfBoundsException` are outcomes
  (`Threw`). They pass through `nextState` uncaught, as in the Java code.

What the code does on its failure paths:

- **After a `CameraAccessException` in a hook, mState is not reset.**
  `nextState` catches it and only calls `shutdown()`:
  - if `finish()` threw, mState keeps the old state;
  - if `enter()` threw, mState has already become the new state.

  `FinishFailureKeepsState`, `EnterFailureKeepsTarget` and
  `OpenCameraFailureReleasesReader` state this.
- **close() reaches no state exactly when TakePicture.finish() completes**
  (`CloseReleasesEverything`). finish() needs the preview builder and the
  session, and its `capture` must succeed.
  - If the still capture of TakePicture.enter() fails, the handles are released
    while mState stays TakePicture (`StillCaptureFailureKeepsTakePicture`).
    The first close() after that then throws NullPointerException, on the null
    session in finish() (`CloseWithoutSessionThrows`). This is reachable from a
    new machine whose only failing call is `capture`
    (`FirstCloseThrowsAfterCaptureFailure`).
  - If the `capture` of finish() itself fails, close() leaves the machine in
    TakePicture with every handle released. A second close() then throws
    NullPointerException, and open() refuses to start
    (`CloseStuckInTakePicture`).
- **shutdown() release order.** `shutdown()` closes the session, then the
  device, then the reader (`ReleaseEffects`).
- **Exceptions in callbacks.** Unchecked exceptions escape from the framework
  callbacks and from the three public calls. A `CameraAccessException` never
  escapes, because `nextState` catches it (`NoCameraAccessEscapes`). The capture
  callback's own catch, which would go to Abort, can never fire: each
  onCaptureResult hook reaches the framework only through `nextState`
  (`CaptureCallbackCatchUnreachable`).
- **takePicture's answer.** `Camera2Model.TakePicture` gives an `accepted` flag
  with every step. When the step's outcome is `Threw`, the Java call returns
  nothing, and the flag has no meaning. In Preview this happens exactly when
  the preview builder or the session is null (`TakePictureGuard`), as after a
  failed `setRepeatingRequest` of Preview.enter().

## Model

Paths are relative to the repository root.

| member | source | states |
|---|---|---|
| Camera2Util.FirstWithFacing | androidCamera2Sample/src/org/kotemaru/android/camera2sample/Camera2Util.java:13-19 | the index found has the requested facing and no earlier camera has it; there is none exactly when no camera has the facing |
| Camera2Util.FirstMatchIsFound | androidCamera2Sample/src/org/kotemaru/android/camera2sample/Camera2Util.java:13-17 | a camera with the facing that has no earlier match is the one the first-match search names |
| Camera2Util.GetCameraId | androidCamera2Sample/src/org/kotemaru/android/camera2sample/Camera2Util.java:12-20 | the scan returns the id of the first camera in list order whose lens faces `facing`; it returns null exactly when no camera does |
| Camera2Util.MaxWidthIndex | androidCamera2Sample/src/org/kotemaru/android/camera2sample/Camera2Util.java:24-29 | the chosen size is in the list, no size is wider, and every earlier size is strictly narrower, so ties keep the earliest |
| Camera2Util.GetMaxSizeImageReader | androidCamera2Sample/src/org/kotemaru/android/camera2sample/Camera2Util.java:22-35 | an empty size list fails at `sizes[0]`; otherwise the reader is sized by the earliest widest size with width and height swapped, has the requested format and holds one image |
| Camera2Model.Shutdown | androidCamera2Sample/src/org/kotemaru/android/camera2sample/Camera2StateMachine.java:60-73 | afterwards session, device and reader are all null; the close calls are made in the order session, device, reader, each only for a handle that was set; nothing else changes |
| Camera2Model.NextState | androidCamera2Sample/src/org/kotemaru/android/camera2sample/Camera2StateMachine.java:75-85 | a transition never ends with CameraAccessException, because it catches that exception and shuts down; it never changes the view, the manager or the failing calls, and the log only grows |
| Camera2Model.Enter | androidCamera2Sample/src/org/kotemaru/android/camera2sample/Camera2StateMachine.java:95-290 | an enter() never changes the view, the manager or the failing calls, and the log only grows |
| Camera2Model.EnterOpenCamera | androidCamera2Sample/src/org/kotemaru/android/camera2sample/Camera2StateMachine.java:138-150 | OpenCamera.enter() leaves mState, the device and the session as they were |
| Camera2Model.EnterCreateSession | androidCamera2Sample/src/org/kotemaru/android/camera2sample/Camera2StateMachine.java:174-182 | CreateSession.enter() leaves mState, the device and the session as they were; the session arrives only through the callback |
| Camera2Model.UpdateAndRepeat | androidCamera2Sample/src/org/kotemaru/android/camera2sample/Camera2StateMachine.java:201-205 | the Preview, AutoFocus and AutoExposure enter() leave mState, the device and the session as they were |
| Camera2Model.EnterTakePicture | androidCamera2Sample/src/org/kotemaru/android/camera2sample/Camera2StateMachine.java:260-271 | TakePicture.enter() leaves mState, the device and the session as they were |
| Camera2Model.Finish | androidCamera2Sample/src/org/kotemaru/android/camera2sample/Camera2StateMachine.java:277-282 | a finish() leaves mState, the device, the session and the reader as they were |
| StateMachine.Camera2StateMachine.constructor | androidCamera2Sample/src/org/kotemaru/android/camera2sample/Camera2StateMachine.java:28-40 | a new machine has no state, every reference null and nothing logged |
| StateMachine.Camera2StateMachine.Open | androidCamera2Sample/src/org/kotemaru/android/camera2sample/Camera2StateMachine.java:42-47 | the fields and the outcome after open() are those of `Camera2Model.Open` |
| StateMachine.Camera2StateMachine.TakePicture | androidCamera2Sample/src/org/kotemaru/android/camera2sample/Camera2StateMachine.java:48-53 | the answer, the fields and the outcome are those of `Camera2Model.TakePicture` |
| StateMachine.Camera2StateMachine.Close | androidCamera2Sample/src/org/kotemaru/android/camera2sample/Camera2StateMachine.java:54-56 | the fields and the outcome after close() are those of `Camera2Model.Close` |
| StateMachine.Camera2StateMachine.Shutdown | androidCamera2Sample/src/org/kotemaru/android/camera2sample/Camera2StateMachine.java:60-73 | the fields after shutdown() are those of `Camera2Model.Shutdown` |
| StateMachine.Camera2StateMachine.NextState | androidCamera2Sample/src/org/kotemaru/android/camera2sample/Camera2StateMachine.java:75-85 | the fields and the outcome after nextState are those of `Camera2Model.NextState`, nested transitions included |
| StateMachine.Camera2StateMachine.Enter | androidCamera2Sample/src/org/kotemaru/android/camera2sample/Camera2StateMachine.java:95-290 | dispatching enter() to the state object matches `Camera2Model.Enter` |
| StateMachine.Camera2StateMachine.EnterOpenCamera | androidCamera2Sample/src/org/kotemaru/android/camera2sample/Camera2StateMachine.java:138-150 | OpenCamera.enter(), calling the two Camera2Util loops, matches `Camera2Model.EnterOpenCamera` |
| StateMachine.Camera2StateMachine.EnterCreateSession | androidCamera2Sample/src/org/kotemaru/android/camera2sample/Camera2StateMachine.java:174-182 | CreateSession.enter() matches `Camera2Model.EnterCreateSession` |
| StateMachine.Camera2StateMachine.UpdateAndRepeat | androidCamera2Sample/src/org/kotemaru/android/camera2sample/Camera2StateMachine.java:201-205 | setting builder keys and resubmitting the repeating request matches `Camera2Model.UpdateAndRepeat` |
| StateMachine.Camera2StateMachine.EnterTakePicture | androidCamera2Sample/src/org/kotemaru/android/camera2sample/Camera2StateMachine.java:260-271 | TakePicture.enter() matches `Camera2Model.EnterTakePicture` |
| StateMachine.Camera2StateMachine.Finish | androidCamera2Sample/src/org/kotemaru/android/camera2sample/Camera2StateMachine.java:277-282 | finish() matches `Camera2Model.Finish` |
| StateMachine.Camera2StateMachine.OnSurfaceTextureAvailableHook | androidCamera2Sample/src/org/kotemaru/android/camera2sample/Camera2StateMachine.java:114-116 | the state's onSurfaceTextureAvailable matches `Camera2Model.OnSurfaceTextureAvailable` |
| StateMachine.Camera2StateMachine.OnCameraOpenedHook | androidCamera2Sample/src/org/kotemaru/android/camera2sample/Camera2StateMachine.java:151-154 | the state's onCameraOpened matches `Camera2Model.OnCameraOpened` |
| StateMachine.Camera2StateMachine.OnSessionConfiguredHook | androidCamera2Sample/src/org/kotemaru/android/camera2sample/Camera2StateMachine.java:183-186 | the state's onSessionConfigured matches `Camera2Model.OnSessionConfigured` |
| StateMachine.Camera2StateMachine.OnCaptureResultHook | androidCamera2Sample/src/org/kotemaru/android/camera2sample/Camera2StateMachine.java:231-276 | the state's onCaptureResult matches `Camera2Model.OnCaptureResult` |
| StateMachine.Camera2StateMachine.OnSurfaceTextureAvailable | androidCamera2Sample/src/org/kotemaru/android/camera2sample/Camera2StateMachine.java:120-122 | the surface listener matches `Camera2Model.Dispatch` of the event |
| StateMachine.Camera2StateMachine.OnOpened | androidCamera2Sample/src/org/kotemaru/android/camera2sample/Camera2StateMachine.java:158-160 | the device callback matches `Camera2Model.Dispatch` of the event |
| StateMachine.Camera2StateMachine.OnDisconnected | androidCamera2Sample/src/org/kotemaru/android/camera2sample/Camera2StateMachine.java:162-164 | the device callback matches `Camera2Model.Dispatch` of the event |
| StateMachine.Camera2StateMachine.OnError | androidCamera2Sample/src/org/kotemaru/android/camera2sample/Camera2StateMachine.java:166-169 | the device callback matches `Camera2Model.Dispatch` of the event |
| StateMachine.Camera2StateMachine.OnConfigured | androidCamera2Sample/src/org/kotemaru/android/camera2sample/Camera2StateMachine.java:190-192 | the session callback matches `Camera2Model.Dispatch` of the event |
| StateMachine.Camera2StateMachine.OnConfigureFailed | androidCamera2Sample/src/org/kotemaru/android/camera2sample/Camera2StateMachine.java:194-196 | the session callback matches `Camera2Model.Dispatch` of the event |
| StateMachine.Camera2StateMachine.OnCaptureResult | androidCamera2Sample/src/org/kotemaru/android/camera2sample/Camera2StateMachine.java:216-223 | forwarding a result, with CameraAccessException turned into Abort, matches `Camera2Model.CaptureDelivered` |
| StateMachine.Camera2StateMachine.OnCaptureProgressed | androidCamera2Sample/src/org/kotemaru/android/camera2sample/Camera2StateMachine.java:209-211 | a partial result matches `Camera2Model.Dispatch` of the event |
| StateMachine.Camera2StateMachine.OnCaptureCompleted | androidCamera2Sample/src/org/kotemaru/android/camera2sample/Camera2StateMachine.java:213-215 | a completed result matches `Camera2Model.Dispatch` of the event |
| Camera2Properties.OpenWhileStarted | androidCamera2Sample/src/org/kotemaru/android/camera2sample/Camera2StateMachine.java:42-43 | open() on a started machine throws IllegalStateException and changes nothing |
| Camera2Properties.OpenWaitsForSurface | androidCamera2Sample/src/org/kotemaru/android/camera2sample/Camera2StateMachine.java:107-112 | open() with an unavailable view records the view and the manager, registers the surface listener and waits in InitSurface |
| Camera2Properties.OpenWithSurfaceOpensBackCamera | androidCamera2Sample/src/org/kotemaru/android/camera2sample/Camera2StateMachine.java:107-110 | open() with an available view goes straight to OpenCamera, creates the reader from the first back camera's widest JPEG size and asks to open that camera |
| Camera2Properties.OpenWithoutBackCamera | androidCamera2Sample/src/org/kotemaru/android/camera2sample/Camera2StateMachine.java:140-141 | with no back camera the characteristics lookup of the null id throws out of open() and the machine is left in OpenCamera |
| Camera2Properties.OpenCameraFailureReleasesReader | androidCamera2Sample/src/org/kotemaru/android/camera2sample/Camera2StateMachine.java:79-84 | if openCamera fails, the new reader is closed and mState stays OpenCamera |
| Camera2Properties.OpenWithoutPreviewSizes | androidCamera2Sample/src/org/kotemaru/android/camera2sample/Camera2StateMachine.java:144-147 | a back camera without preview sizes makes getBestPreviewSize fail at its first element: open() throws after the reader was created, before openCamera, leaving mState OpenCamera |
| Camera2Properties.TakePictureGuard | androidCamera2Sample/src/org/kotemaru/android/camera2sample/Camera2StateMachine.java:48-53 | takePicture answers true exactly in Preview; then the listener is stored and the state is AutoFocus, and the call returns normally exactly when the preview builder and the session are set; otherwise nothing changes |
| Camera2Properties.TakePictureTwice | androidCamera2Sample/src/org/kotemaru/android/camera2sample/Camera2StateMachine.java:48-53 | a second takePicture right after an accepted one answers false and changes nothing |
| Camera2Properties.FinishFailureKeepsState | androidCamera2Sample/src/org/kotemaru/android/camera2sample/Camera2StateMachine.java:77-84 | a CameraAccessException from finish() comes before the assignment: the old state stays and the three handles are released |
| Camera2Properties.EnterFailureKeepsTarget | androidCamera2Sample/src/org/kotemaru/android/camera2sample/Camera2StateMachine.java:79-84 | a CameraAccessException from enter() comes after the assignment: the new state stays and the three handles are released |
| Camera2Properties.EnterKeepsState | androidCamera2Sample/src/org/kotemaru/android/camera2sample/Camera2StateMachine.java:138-271 | the enter() of OpenCamera, CreateSession, Preview, AutoFocus, AutoExposure and TakePicture never changes mState, whether or not it throws |
| Camera2Properties.NoCameraAccessEscapes | androidCamera2Sample/src/org/kotemaru/android/camera2sample/Camera2StateMachine.java:81-84 | no public call or callback ever ends with CameraAccessException |
| Camera2Properties.CaptureCallbackCatchUnreachable | androidCamera2Sample/src/org/kotemaru/android/camera2sample/Camera2StateMachine.java:216-223 | no onCaptureResult hook ends with CameraAccessException, so the capture callback only forwards the result and its catch into Abort never fires |
| Camera2Properties.ShutdownIdempotent | androidCamera2Sample/src/org/kotemaru/android/camera2sample/Camera2StateMachine.java:60-73 | shutdown() twice is the same as shutdown() once |
| Camera2Properties.CloseReleasesEverything | androidCamera2Sample/src/org/kotemaru/android/camera2sample/Camera2StateMachine.java:54-56 | close() ends with no state exactly when the current finish() completes, and otherwise stays in TakePicture; when it completes, all three handles end null and nothing but finish() and shutdown() changes the machine |
| Camera2Properties.CloseTwice | androidCamera2Sample/src/org/kotemaru/android/camera2sample/Camera2StateMachine.java:285-290 | close() on a closed machine changes nothing, so close() is idempotent |
| Camera2Properties.CloseDuringTakePicture | androidCamera2Sample/src/org/kotemaru/android/camera2sample/Camera2StateMachine.java:277-282 | close() during the still capture still cancels the AF trigger, restores auto-flash, submits one capture and drops the listener before releasing the handles |
| Camera2Properties.CloseWhileOpening | androidCamera2Sample/src/org/kotemaru/android/camera2sample/Camera2StateMachine.java:285-290 | close() while the device is being opened closes only the reader and ends with no state |
| Camera2Properties.CloseStuckInTakePicture | androidCamera2Sample/src/org/kotemaru/android/camera2sample/Camera2StateMachine.java:277-282 | if finish()'s capture fails, close() leaves the machine in TakePicture with the handles released; a second close() throws NullPointerException and open() is refused |
| Camera2Properties.AutoFocusConvergence | androidCamera2Sample/src/org/kotemaru/android/camera2sample/Camera2StateMachine.java:231-239 | AutoFocus moves to AutoExposure exactly when the AF state is absent, FOCUSED_LOCKED or NOT_FOCUSED_LOCKED; otherwise nothing changes |
| Camera2Properties.AutoExposureConvergence | androidCamera2Sample/src/org/kotemaru/android/camera2sample/Camera2StateMachine.java:248-256 | AutoExposure moves to TakePicture exactly when the AE state is absent, CONVERGED or FLASH_REQUIRED; otherwise nothing changes |
| Camera2Properties.PartialResultIgnored | androidCamera2Sample/src/org/kotemaru/android/camera2sample/Camera2StateMachine.java:272-276 | in TakePicture a partial result changes nothing |
| Camera2Properties.CompletedResultReturnsToPreview | androidCamera2Sample/src/org/kotemaru/android/camera2sample/Camera2StateMachine.java:272-282 | in TakePicture a completed result runs finish() (AF cancel, auto-flash, one capture, listener dropped), then Preview's enter() restores continuous AF and resubmits the repeating request |
| Camera2Properties.OtherFinishesDoNothing | androidCamera2Sample/src/org/kotemaru/android/camera2sample/Camera2StateMachine.java:100 | every state but TakePicture has the empty default finish() |
| Camera2Properties.StaleCallbacksIgnored | androidCamera2Sample/src/org/kotemaru/android/camera2sample/Camera2StateMachine.java:95-99 | a callback reaching a state that does not override its hook changes nothing |
| Camera2Properties.NextStateValid | androidCamera2Sample/src/org/kotemaru/android/camera2sample/Camera2StateMachine.java:75-85 | a transition to a state that fits the handles, or to Abort, ends with the handle invariant |
| Camera2Properties.EnterValid | androidCamera2Sample/src/org/kotemaru/android/camera2sample/Camera2StateMachine.java:106-290 | every enter(), nested transitions included, ends with the handle invariant |
| Camera2Properties.DispatchValid | androidCamera2Sample/src/org/kotemaru/android/camera2sample/Camera2StateMachine.java:42-56 | every public call and callback keeps the handle invariant: no device outside CreateSession to TakePicture, no session outside Preview to TakePicture, view and manager set whenever a state is installed |
| Camera2Properties.CaptureDeliveredValid | androidCamera2Sample/src/org/kotemaru/android/camera2sample/Camera2StateMachine.java:216-223 | delivering a capture result keeps the handle invariant |
| Camera2Properties.RunValid | androidCamera2Sample/src/org/kotemaru/android/camera2sample/Camera2StateMachine.java:42-56 | every sequence of events keeps the handle invariant |
| Camera2Properties.HandlesFollowStates | androidCamera2Sample/src/org/kotemaru/android/camera2sample/Camera2StateMachine.java:151-154 | from a new machine, whatever events arrive, there is no device or session in no state, InitSurface or OpenCamera, and no session in CreateSession |
| Camera2Properties.RunKeepsLogPrefix | androidCamera2Sample/src/org/kotemaru/android/camera2sample/Camera2StateMachine.java:42-56 | over any sequence of events the framework calls made only accumulate, and the failing calls change only through an explicit change of the environment |
| Camera2Properties.DispatchKeepsLogPrefix | androidCamera2Sample/src/org/kotemaru/android/camera2sample/Camera2StateMachine.java:42-56 | one event only appends framework calls, and only a change of the environment changes the failing calls |
| Camera2Properties.SurfaceAvailableOpensCamera | androidCamera2Sample/src/org/kotemaru/android/camera2sample/Camera2StateMachine.java:114-116 | once the surface is available, InitSurface moves to OpenCamera, creating the reader and asking to open the first back camera |
| Camera2Properties.CameraOpenedCreatesSession | androidCamera2Sample/src/org/kotemaru/android/camera2sample/Camera2StateMachine.java:151-154 | onCameraOpened stores the device, moves to CreateSession, builds the preview request on the view's surface and asks for a session over that surface and the reader's |
| Camera2Properties.SessionConfiguredStartsPreview | androidCamera2Sample/src/org/kotemaru/android/camera2sample/Camera2StateMachine.java:183-186 | onSessionConfigured stores the session, moves to Preview and streams the preview request with continuous AF and auto-flash |
| Camera2Properties.FailureCallbacksAbort | androidCamera2Sample/src/org/kotemaru/android/camera2sample/Camera2StateMachine.java:162-169 | disconnect, device error and configure-failure do exactly what close() does, from any state |
| Camera2Properties.StartUpReachesPreview | androidCamera2Sample/src/org/kotemaru/android/camera2sample/Camera2StateMachine.java:42-205 | when none of the start-up calls fails, open() with an available view, the device-opened callback and the session-configured callback bring a new machine to Preview; the exact handles, request and framework calls are given |
| Camera2Properties.TakePictureStartsAutoFocus | androidCamera2Sample/src/org/kotemaru/android/camera2sample/Camera2StateMachine.java:227-230 | takePicture in Preview sets the AF trigger and resubmits the repeating request |
| Camera2Properties.FocusLockedStartsAutoExposure | androidCamera2Sample/src/org/kotemaru/android/camera2sample/Camera2StateMachine.java:243-247 | a ready AF result in AutoFocus sets the precapture trigger and resubmits the repeating request |
| Camera2Properties.ExposureConvergedTakesPicture | androidCamera2Sample/src/org/kotemaru/android/camera2sample/Camera2StateMachine.java:260-271 | a ready AE result in AutoExposure hands the listener to the reader, stops the repeating request and submits the still capture |
| Camera2Properties.TakePictureThenRun | androidCamera2Sample/src/org/kotemaru/android/camera2sample/Camera2StateMachine.java:48-53 | takePicture in Preview, followed by any events, runs those events from AutoFocus with the AF trigger set, the listener stored and one repeating request submitted |
| Camera2Properties.FocusedThenRun | androidCamera2Sample/src/org/kotemaru/android/camera2sample/Camera2StateMachine.java:231-239 | a ready AF result in AutoFocus, followed by any events, runs those events from AutoExposure with the precapture trigger set and one repeating request submitted |
| Camera2Properties.ConvergedThenRun | androidCamera2Sample/src/org/kotemaru/android/camera2sample/Camera2StateMachine.java:248-271 | a ready AE result in AutoExposure, followed by any events, runs those events from TakePicture after the listener is set, repeating is stopped and the still request is captured |
| Camera2Properties.CompletedThenRun | androidCamera2Sample/src/org/kotemaru/android/camera2sample/Camera2StateMachine.java:272-282 | a completed result in TakePicture, followed by any events, runs those events from Preview with the trigger cancelled, the listener dropped and both requests issued in order |
| Camera2Properties.AutoFocusThroughCapture | androidCamera2Sample/src/org/kotemaru/android/camera2sample/Camera2StateMachine.java:226-282 | from AutoFocus, a focused result, a converged result and the completed capture return to Preview with the exact framework calls in order |
| Camera2Properties.CaptureCycle | androidCamera2Sample/src/org/kotemaru/android/camera2sample/Camera2StateMachine.java:48-53 | one picture from Preview returns to Preview with the listener handed to the reader once and then dropped; the exact builder and framework calls are given |
| Camera2Properties.StillCaptureFailureKeepsTakePicture | androidCamera2Sample/src/org/kotemaru/android/camera2sample/Camera2StateMachine.java:260-271 | if the still capture of TakePicture.enter() fails, the handles are released but mState stays TakePicture and the preview builder is kept |
| Camera2Properties.CloseWithoutSessionThrows | androidCamera2Sample/src/org/kotemaru/android/camera2sample/Camera2StateMachine.java:277-282 | in TakePicture with a preview builder and no session, close() throws NullPointerException in finish() and mState stays TakePicture |
| Camera2Properties.PictureFailureThenCloseThrows | androidCamera2Sample/src/org/kotemaru/android/camera2sample/Camera2StateMachine.java:54-56 | from Preview with only the still capture failing, takePicture, two results and close() end with NullPointerException |
| Camera2Properties.FirstCloseThrowsAfterCaptureFailure | androidCamera2Sample/src/org/kotemaru/android/camera2sample/Camera2StateMachine.java:42-56 | from a new machine whose only failing call is capture, start-up, one picture and the first close() end with NullPointerException |

The functions `Camera2Model.Open`, `Camera2Model.TakePicture`,
`Camera2Model.Close`, `Camera2Model.CaptureDelivered`,
`Camera2Model.OnCaptureResult`, `Camera2Model.Dispatch`, `Camera2Model.Run`,
`Camera2Model.AfReady` and `Camera2Model.AeReady` carry no contract of their own.
They model `open` (42-47), `takePicture` (48-53), `close` (54-56), the capture
callback (216-223), the onCaptureResult hooks (231-276), callback forwarding
(121, 159, 163, 168, 191, 195, 209-215), single-threaded event delivery (38) and
the readiness tests (233-235, 250-252). The class rows above are proved equal to
them, and the lemmas rows state what they do.

## Left out

- The nearest-aspect search of `getBestPreviewSize` and
  `AutoFitTextureView.setPreviewSize` are not modelled. The search uses `float`
  arithmetic, and the size it picks only sizes the view. Its one error path is
  modelled: an empty list of preview sizes fails at its first element, after
  the reader was created and before `openCamera` (`OpenWithoutPreviewSizes`).
- `SurfaceTexture.setDefaultBufferSize` is left out. It configures the
  framework and has no effect on the machine.
- Threading and `Handler` dispatch are left out. The code runs every callback
  on one thread, so events are sequential calls (`Run`).
- Logging (`Log.d`, `Log.e`) and `toString` are left out.
- The empty `onSurfaceTextureSizeChanged`, `onSurfaceTextureDestroyed` and
  `onSurfaceTextureUpdated` listener methods are left out.
- The activity and the rest of the application, including the code that
  consumes the captured image, are not part of this model.
- The camera2 framework is a foreign library. Its objects are opaque handles,
  and its calls are logged effects or failures.
  - `getCameraIdList`, `getCameraCharacteristics` and `createCaptureRequest`
    return values but are not logged.
  - A failing framework call is assumed to have no partial effect.
- Camera ids are assumed distinct. The camera list pairs each id with its
  characteristics.
- `TextureView.isAvailable` is the value the view reports during open(). Only
  InitSurface.enter() reads it, and that runs only inside open().
- A `null` view or camera manager passed to open() is not representable. Any
  open() stores both. `Camera2Model.Enter` still models the
  NullPointerException the states would throw on a null field.
- Callbacks that arrive after Abort are delivered to no state and dropped, so
  a device or session delivered late is never closed. The model shows this
  (`StaleCallbacksIgnored`) but proves no leak property.
- Java object identity is not modelled for requests and image readers. A
  `Request` is the value of the builder when it was built. An `ImageReader` is
  its size, format and capacity, so two readers of the same size are the same
  value in the log.
- `FaultsChanged` changes the failing calls only between events. A call cannot
  start failing in the middle of one event's handling, for example between the
  `stopRepeating` and the `capture` of one enter().
- Camera2Model.Enter: its own ensures states only frame facts. What each enter() does is stated by the Camera2Properties lemmas that run it.
- Camera2Model.EnterOpenCamera: its own ensures states only frame facts. Its effects are stated by `OpenWithSurfaceOpensBackCamera`, `OpenWithoutBackCamera` and `OpenCameraFailureReleasesReader`.
- Camera2Model.EnterCreateSession: its own ensures states only frame facts. Its effects are stated by `CameraOpenedCreatesSession`.
- Camera2Model.UpdateAndRepeat: its own ensures states only frame facts. Its effects are stated by `SessionConfiguredStartsPreview`, `TakePictureStartsAutoFocus` and `FocusLockedStartsAutoExposure`.
- Camera2Model.EnterTakePicture: its own ensures states only frame facts. Its effects are stated by `ExposureConvergedTakesPicture`.
- Camera2Model.Finish: its own ensures states only frame facts. Its effects are stated by `CloseDuringTakePicture`, `CompletedResultReturnsToPreview` and `OtherFinishesDoNothing`.
