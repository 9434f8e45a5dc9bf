# Accident recorder: a verified model

The repository is an accident "black box" for a small Linux computer.  A 500 Hz
task reads an inertial sensor, writes every sample to a ring buffer in the kernel
and runs an accident detector.  At the first event it freezes the ring and signals
a camera task.  That task requests one frame from a capture thread that streams
all the time, and hands everything to a storage task, which saves the telemetry,
the raw frame and a colour preview.

This project models that behaviour in Dafny and proves what it is for.  To verify:
`dafny verify dfyconfig.toml`.

## How the model is organised

| files | what they model |
|---|---|
| RingModel, CrashBufferDriver | the ring as a value with its log, and the driver's in-place array with its entry points and errors |
| Consecutive, AngleWrap, Detection, ComplementaryFilter, Orientation, Sensor | the detector: counters with latches, angle wrapping, complementary filter, and what its angles mean for the acceleration vector |
| Timing, Task1 | periodic deadlines, the sampling loop and its run-start bookkeeping |
| CaptureControl, Camera, CameraInvariant, CameraTheorems, CameraContinuations, CameraGeometry, CameraFailures, CameraFresh, CameraCompleted, CameraStale, CameraCancelled, CameraResources | the capture handshake, and the resources of init and deinit |
| Bayer, Packing, Demosaic, NearestTaps, AffineScene, ColorPpm, ImagePath | unpacking, demosaicing, the PPM preview |
| Common, Bytes, Stdio, Telemetry, FileWriter, Storage | the telemetry text, the partial-write loop and one whole save |
| Handoff, Pipeline, PipelineInvariant, PipelineHistory, PipelineGeometry, PipelineTheorems, PipelineProgress, PipelineCapture | the three tasks, the ring, the signal, the mailbox and the camera as one transition system |

Code that changes state in place is a class or a method over arrays and fields,
proved equal to a function of the old state: the driver (`CrashBuffer`), the
detector (`AccidentDetector`), the sampling task (`SensorTask`), the capture flags
(`CaptureState`), the mailbox (`StorageArgs`), the camera's resources
(`CameraDevice`), the deadlines (`Timespec`), the image loops and the save.  The
theorems are about those functions.  Code whose point is concurrency is a transition system over the same
functions: each critical section is one step, the frame copy is one step per byte,
the driver writes to queued buffers only, wake-ups may be spurious, and any call
may fail.  Time is a clock that any step sequence may advance.

The ring's capacity N and sample size S are symbolic.  Floats are reals; `sqrt`,
`atan2`, `cos` and `acos` are arbitrary functions (`Detection.Trig`); what a theorem
needs to know of them is a named predicate in its `requires`
(`Orientation.SqrtFacts`, `CosFacts`, `AcosFacts`, `AtanFacts`).

## Where code and documentation disagree

The model follows the code.

- `include/camera_capture.h:39-44` promises the next fresh frame after the call, and
  `src/task2_camera.c:212-213` asks for the next fresh completed one.  The code asks
  whether a frame is wanted only after it has dequeued one, and frames can wait to be
  dequeued, so any call, the program's only one included, can be handed
  a frame completed before it: `CameraCompleted.FirstCallCanGetEarlierFrame` is a
  concrete run.  `CameraCompleted.EarlierFrameIffLeft` gives the exact condition, for
  every state the module can reach: when the call enters, the thread has a usable
  frame in its hands, or one waits in the driver and no failure that ends the only
  caller's request is due first.  Of these, `CameraFresh.OldFrameIffInHand` singles out
  the frames already dequeued.
- What does hold for the program's only request is about time: its bytes are copied
  after the call (`PipelineTheorems.LatencyIsValid`).  After a call that timed out
  even that can fail (`CameraStale.ImageCanPredateRequest`), if and only if the
  thread is copying when the next call enters (`CameraStale.CopyPredatesIffCopying`),
  which needs an earlier request that was withdrawn since init
  (`CameraTheorems.PendingNeedsWithdrawal`).  In every case the frame is whole, and
  it was published after the call.
- `src/camera_capture_v4l2.c:668-679` cancels every call that waits.  A call that
  first runs after deinit's last section (lines 723-729) has cleared the flags is not
  cancelled: it goes on waiting (`CameraCancelled.StoppedCallsFail`), and after
  another init it can return 0 with an image that another caller asked for, who then
  goes on waiting (`CameraCancelled.CancelledCallCanReturnImage`).  This can happen
  if and only if there is another caller
  (`CameraCancelled.CancelledCallGetsImageIffOthers`); the program has one.
- `src/storage.c:279-301` ignores what every `fprintf` returns, and only the final
  `fflush` and `fsync` are checked.  A write that fails behind an `fprintf` loses rows
  although success is reported (`Telemetry.SuccessCanLoseRows`).  The saved telemetry
  reads back if and only if none did (`Telemetry.SuccessReadsBackIffComplete`).
- `src/storage.c:183-185` speaks of a grayscale PGM; the code writes a colour PPM.
- A failed init leaves `secure_image_capacity` set when it fails between S_FMT and
  STREAMON; `CameraResources.CameraDevice.Init` says exactly when.

## Model

| member | source | states |
|---|---|---|
| `RingModel.RingRefinement` | dev/crash_buffer.c:104-210 | for every N > 0, every initial memory and every sequence of write, LOCK and UNLOCK: count <= N, head = (tail + count) mod N, the slots from tail read as exactly the last min(n, N) samples accepted since the last reset, and frozen holds exactly when the history says so |
| `RingModel.LogSinceReset` | dev/crash_buffer.c:104-210 | the history itself, without following it step by step: since the last UNLOCK the log is what was written before the first LOCK, and the buffer is frozen exactly if there was one |
| `RingModel.FrozenIsStable` | dev/crash_buffer.c:119-123 | while frozen, any sequence of writes and LOCKs leaves every slot and index unchanged |
| `RingModel.WindowEntries` | dev/crash_buffer.c:168-173 | copying m entries from the tail yields the m oldest samples of the window, in order |
| `RingModel.NewestCongruent` | dev/crash_buffer.c:104-138 | the log position found for a slot is the newest one that maps to the slot: none between it and the end does |
| `RingModel.RacingRead` | dev/crash_buffer.c:149-174 | if a read takes count and tail after any history and copies after any further writes and LOCKs, entry i is the newest log entry whose index is congruent to n1 - c + i modulo N, and it is the intended entry if and only if c + k <= N + i |
| `RingModel.RacingReadExact` | dev/crash_buffer.c:149-174 | the racing read is the exact, chronological prefix of the window when c + k <= N, or when the buffer was frozen at the first critical section |
| `RingModel.RacingReadRotates` | dev/crash_buffer.c:149-174 | a full-length read of a full buffer during which k samples were accepted is the current window rotated right by k mod N |
| `RingModel.RacingReadReturnsWritten` | dev/crash_buffer.c:149-210 | even with LOCK and UNLOCK between the two critical sections, every returned entry is a sample that was really written since the module was loaded |
| `CrashBufferDriver.CrashBuffer.constructor` | dev/crash_buffer.c:20-28 | a loaded module is empty and unlocked whatever the allocated memory holds |
| `CrashBufferDriver.CrashBuffer.DevWrite` | dev/crash_buffer.c:104-138 | a wrong length gives EINVAL, an unreadable buffer EFAULT, and neither changes anything; otherwise the in-place update is the abstract write, also when frozen, where the sample is dropped and still reported as written |
| `CrashBufferDriver.CrashBuffer.DevIoctl` | dev/crash_buffer.c:185-210 | LOCK freezes and keeps the window, UNLOCK thaws and empties it, any other command is ENOTTY and changes nothing |
| `CrashBufferDriver.CrashBuffer.SnapshotIndices` | dev/crash_buffer.c:149-152 | the first critical section of a read takes count and tail from one state |
| `CrashBufferDriver.CrashBuffer.BytesToRead` | dev/crash_buffer.c:158-161 | the byte count is a whole number of samples: the lesser of count and what fits into the caller's length |
| `CrashBufferDriver.CrashBuffer.CopyOut` | dev/crash_buffer.c:168-174 | the copy loop returns the entries of the buffer as it is at the second critical section, from the earlier tail |
| `CrashBufferDriver.CrashBuffer.DevRead` | dev/crash_buffer.c:140-183 | a read with no step between delivers exactly the oldest min(count, len / S) samples of the window, consumes nothing, and maps each failure to its errno |
| `CrashBufferDriver.CrashBuffer.RacingDevRead` | dev/crash_buffer.c:140-183 | on the array itself, with any writes, LOCKs and UNLOCKs between the two critical sections and either kernel call failing: each failure's errno, and otherwise min(count, len / S) entries copied from the later buffer with the earlier indices, each of them as the racing-read law says when no UNLOCK intervened |
| `Consecutive.CounterIsSuffix` | src/accident_detection.c:145-161 | the counter is the length of the longest suffix of samples at or above the threshold |
| `Consecutive.LatchIffWindow` | src/accident_detection.c:151-167 | the latch is set if and only if a run of the required length has occurred |
| `Consecutive.FiresAtFirstWindow` | src/accident_detection.c:145-167 | the event is emitted at an index if and only if the first run of the required length ends there |
| `Consecutive.FiresAtMostOnce` | src/accident_detection.c:151-167 | the event is emitted at most once in any run |
| `AngleWrap.Normalized` | src/accident_detection.c:23-34 | the wrapped angle always lies in [-180, 180] |
| `AngleWrap.NormalizedIsUnique` | src/accident_detection.c:23-34 | the result is the only angle a whole number of turns away that lies in range on the side where the loops stop |
| `AngleWrap.NormalizeAngle` | src/accident_detection.c:23-34 | both loops terminate for every real angle, compute that angle, and take exactly the number of rounds by which it differs |
| `Detection.Clamp` | src/accident_detection.c:10-21 | the result is the value when it lies between the bounds, and otherwise the bound it lies beyond |
| `Detection.AccidentDetector.constructor` | src/accident_detection.c:46-59 | a new detector has the given bias, no orientation, zero counters and clear latches |
| `Detection.AccidentDetector.UpdateOrientation` | src/accident_detection.c:108-132 | the first sample sets the angles, later ones integrate the gyroscope and blend in the accelerometer only when its magnitude is reliable; both angles are wrapped |
| `Detection.AccidentDetector.UpdateCounters` | src/accident_detection.c:145-167 | each counter and latch advances by the consecutive-sample rule, and each event flag is raised exactly when its latch is set by this sample |
| `Detection.AccidentDetector.Update` | src/accident_detection.c:61-181 | one call moves the detector by the transition function that the run theorems are about and reports that state's values; what magnitude, tilt and angles mean is stated over the acceleration vector in Orientation |
| `Detection.EventsMarkFirstWindows` | src/accident_detection.c:61-181 | over any run from initialisation, IMPACT (ROLLOVER) is emitted at exactly the first sample that ends 2 (250) consecutive samples at or above 4 g (60 degrees) |
| `Detection.CountersMeanSuffixes` | src/accident_detection.c:145-167 | over any run each counter is its longest suffix and each latch is set exactly when a full window has occurred |
| `ComplementaryFilter.FilterBound` | src/accident_detection.c:108-132 | for reliable samples of constant angle a and gyroscope steps of at most d: after n samples the error is at most 0.98^n times the first plus 49 d, never leaves the starting band, is exactly 0.98^n times the first when d = 0, and no update wraps, provided the band fits into half a turn |
| `ComplementaryFilter.RestIsFixedPoint` | src/accident_detection.c:108-132 | a stationary start stays at the accelerometer's angles for ever, reliable or not |
| `ComplementaryFilter.RestEvents` | src/accident_detection.c:108-167 | a device at rest reports impact on its second sample exactly if it reads at least 4 g, rollover on its 250th exactly if tilted at least 60 degrees, and nothing else ever; Orientation.RestEventsOfVector says the same of the vector alone |
| `ComplementaryFilter.WrapsAtMostOnce` | src/lsm9ds1.c:203-205 | a 16-bit gyroscope reading without bias moves an axis by less than two degrees a sample, so one update wraps it at most once and it stays in range |
| `Orientation.PureTilt` | src/accident_detection.c:36-44 | with named facts about cos and acos: the tilt of a pure roll, and of a pure pitch, is the absolute angle up to the product of the two conversion constants |
| `Orientation.TiltOfVector` | src/accident_detection.c:36-44 | with named facts about sqrt, cos, acos and atan2: the tilt of the accelerometer's own angles is at least 60 degrees if the vertical component is at most half the vector's length less one part in 10^9, and below 60 degrees if it exceeds it by as much |
| `Orientation.MagnitudeOfVector` | src/accident_detection.c:81-98 | a sample counts as an impact exactly if the sum of squares is at least 16, and its accelerometer is used exactly if the sum lies in [0.64, 1.44] |
| `Orientation.SignsOfVector` | src/accident_detection.c:92-96 | the y component has the sign of the roll, the x component the opposite sign of the pitch |
| `Orientation.RestEventsOfVector` | src/accident_detection.c:81-167 | in terms of the acceleration vector alone, for any roll and pitch together: a device that does not turn reports impact on its second sample exactly if the vector is at least 4 long, rollover on its 250th if the vertical component is below half the length and never if it is above |
| `Orientation.RawRestEvents` | src/lsm9ds1.c:199-205 | the same for the sensor's integers, by their scale of 0.000732 g |
| `Orientation.RawTurns` | src/lsm9ds1.c:199-205 | a gyroscope reading turns roll (x) and pitch (y) by 0.0175 degrees a second for 2 ms, with its sign |
| `Orientation.DeadReckoning` | src/accident_detection.c:108-132 | over every run of samples with unreliable acceleration: the angle is the starting angle plus the sum of the rates without bias times 0.002 s in degrees, up to whole turns |
| `Timing.Timespec.AddNanoseconds` | src/task1_lsm9ds1.c:19-28 | for a `long` of any width from 32 bits: the total grows by exactly the argument and tv_nsec ends in [0, 10^9), whenever the sum is a `long` |
| `Timing.Timespec.AddMilliseconds` | src/camera_capture_v4l2.c:100-112 | the total grows by exactly the milliseconds and tv_nsec ends in [0, 10^9) |
| `Timing.Timespec.Activate` | src/task1_lsm9ds1.c:158-160 | after k activations the deadline is exactly start + k * 2 ms: no drift |
| `Task1.MachinesAgree` | src/task1_lsm9ds1.c:103-122 | throughout any run with positive timestamps, each run-start is nonzero exactly when the detector's counter is, and is the timestamp of the first sample of the current run |
| `Task1.QuietCounters` | src/task1_lsm9ds1.c:125-155 | until the first event the counters stay below 2 and 250 and no latch is set |
| `Task1.DetectionPublishes` | src/task1_lsm9ds1.c:125-137 | the published latency start is the timestamp one sample before detection for an impact, 249 before it for a rollover alone; the fallback is unreachable and the counters stop at 2 and 250 |
| `Task1.TrackIsDetectorRun` | src/task1_lsm9ds1.c:100-122 | the task's detector state is the detector run over the physical values of exactly the samples the task wrote |
| `Task1.DetectsIsFirstAccident` | src/task1_lsm9ds1.c:99-155 | the loop stops at a sample if and only if that sample is the first to end 2 consecutive samples at or above 4 g or 250 tilted by at least 60 degrees |
| `Task1.Append` | src/task1_lsm9ds1.c:92-155 | a further sample either keeps the run free of events or is the first that has one |
| `Task1.SensorTask.constructor` | src/task1_lsm9ds1.c:52-64 | the task starts with a fresh detector, no run in progress and nothing published |
| `Task1.SensorTask.Process` | src/task1_lsm9ds1.c:100-137 | run starts and published timestamps follow the tracked transition; without an event nothing is published |
| `Task1.SensorTask.WriteSample` | src/task1_lsm9ds1.c:92-98 | a successful write appends exactly this sample to the ring's log, unless the ring is frozen, which drops it and still reports success; a failing one appends nothing |
| `Task1.SensorTask.Freeze` | src/task1_lsm9ds1.c:142-143 | the ring is frozen exactly if the ioctl works, and its log is kept |
| `Task1.SensorTask.Iterate` | src/task1_lsm9ds1.c:66-167 | one iteration for every way its calls can fail: the exact outcome; the sample is logged; the ring is frozen exactly if the loop ended with a detection and LOCK worked, and the signal sent exactly if kill() did; detection publishes the right timestamps; otherwise nothing is published and the deadline advances by 2 ms |
| `Task1.SensorTask.Loop` | src/task1_lsm9ds1.c:43-170 | over any stretch of inputs the ring's log is, in order, the readings of the first inputs; the loop reports a detection exactly at the first event, with the published timestamps of that run, and lock and signal are those of the very input it detected on; it stops early only at an input whose reading, write or sleep fails |
| `CaptureControl.CaptureState.SignalCaptureFailure` | src/camera_capture_v4l2.c:180-192 | keeps at most one of requested, ready and error up; a pending request ends and its call, once woken, fails with that error, or EIO for 0; without a request nothing changes |
| `CaptureControl.CaptureState.CheckShouldCapture` | src/camera_capture_v4l2.c:256-258 | true exactly if a publication of any image, made now, would be returned by a waiting call |
| `CaptureControl.CaptureState.PublishImage` | src/camera_capture_v4l2.c:294-305 | keeps the flags exclusive; a pending request ends and its call, once woken, returns exactly this image; without a request nothing changes |
| `CaptureControl.CaptureState.BeginSnapshot` | src/camera_capture_v4l2.c:591-655 | keeps the flags exclusive; the checks in their order: refused without device, busy exactly while another request is pending, then failing on the clock, cancelled exactly by the stop flag, or waiting; the whole new flags; a call that waits finds no stale flag that would end its wait |
| `CaptureControl.CaptureState.ResumeSnapshot` | src/camera_capture_v4l2.c:620-661 | keeps the flags exclusive; timeouts and wait errors withdraw the request and leave the other flags, errors come before images, images before cancellation; a call that returns leaves no request, and what it reports is consumed |
| `CaptureControl.CaptureState.Finish` | src/camera_capture_v4l2.c:640-661 | what follows the wait loop consumes the error or the image it reports |
| `CaptureControl.CaptureState.StopCapture` | src/camera_capture_v4l2.c:669-675 | from here every waiting call that wakes, the first and any later one, fails with ECANCELED, and every call that enters is cancelled |
| `CaptureControl.CaptureState.Clear` | src/camera_capture_v4l2.c:503-509 | a call that still waits when the flags are cleared goes on waiting, nothing is to be captured, and a call that enters a working camera waits |
| `CaptureControl.CopyFrame` | src/camera_capture_v4l2.c:276-278 | the copy leaves the frame in front of the secure memory and what lies behind it as it was |
| `CaptureControl.HandleFrame` | src/camera_capture_v4l2.c:256-307 | undisturbed, a wanted frame that fits is in the secure memory and its waiting call, once woken, returns it; one that does not fit makes the call fail with EMSGSIZE; an unwanted one changes neither flags nor memory |
| `CameraInvariant.StepKeepsInv` | src/camera_capture_v4l2.c:194-322 | every step of the driver, the capture thread, any caller, init and deinit keeps the invariant: flags exclusive, requests conserved, a copy's finished bytes in the secure memory, ready only without a copy in flight, undisturbed images intact, buffers owned once, hand-overs ordered and timed |
| `CameraInvariant.RunKeepsInv` | src/camera_capture_v4l2.c:194-730 | the same over every interleaving, with any number of callers, repeated init and deinit, spurious wake-ups and failing calls |
| `CameraTheorems.HandshakeIsConserved` | src/camera_capture_v4l2.c:180-192 | after any run from boot with any number of callers: at most one of requested, ready and error, accepted = delivered + failed + withdrawn + pending, and consumed deliveries are distinct and no more than the delivered ones |
| `CameraTheorems.HandOverIsFresh` | src/camera_capture_v4l2.c:602-661 | an image only goes to a call that entered before it was published, and consumes a delivery nobody had consumed, so a ready flag left by a timeout never leaks into a later call |
| `CameraFailures.FailureReachesCall` | src/camera_capture_v4l2.c:180-318 | a failing poll, a hang-up, a failing DQBUF or QBUF, or a wanted frame of unusable size: whatever callers, driver and owner do meanwhile, the thread's only next step ends the request then pending, whose call, once woken, fails with that errno (EIO for a hang-up or 0, EMSGSIZE for the frame); without a request nothing changes |
| `CameraFailures.OtherStepsAreSilent` | src/camera_capture_v4l2.c:198-318 | only a publication and a report touch the flags, and only for a pending request; a poll that times out and a DQBUF without a frame lead back to the loop head; no step that works leads to a report |
| `CameraTheorems.SnapshotIsOneFrame` | src/camera_capture_v4l2.c:256-318 | a successful snapshot is, byte for byte, one dequeued frame, with nothing requested and no copy in flight |
| `CameraGeometry.ImagesAreAsConfigured` | src/camera_capture_v4l2.c:280-286 | after any run with any number of callers, repeated init and deinit included: the image that is ready, and every image handed over since the last release, carry the width, height, stride and pixel format that the last init configured; after a release none is configured |
| `CameraTheorems.ImageStaysIntact` | src/camera_capture_v4l2.c:256-318 | over every continuation in which no request is accepted and the memory is not released, whatever becomes of the holder itself, nothing writes the secure memory, and it still holds the frame handed over |
| `CameraTheorems.SoleClientReadsLiveMemory` | src/main.c:192-197 | with one client, in every reachable state before the memory is released, the image the client holds is live, is its frame, and is not being overwritten |
| `CameraTheorems.FreshIffNotPending` | src/camera_capture_v4l2.c:271-303 | with a working clock: the delivered copy began before the call entered exactly when it was already in flight then, in which case its first-byte timestamp is no later than the request; otherwise it is no earlier |
| `CameraTheorems.PendingNeedsWithdrawal` | src/camera_capture_v4l2.c:602-638 | a copy can be in flight at entry only if an earlier request since init was withdrawn, so never for the first call |
| `CameraTheorems.ShutdownDeliversNothing` | src/camera_capture_v4l2.c:668-729 | from deinit's stop flag until the next init no run delivers or hands over an image, whoever waits or enters |
| `CameraCancelled.StoppedCallsFail` | src/camera_capture_v4l2.c:620-729 | over every run from a stopped state to before the next init, for any number of callers: a waiter that returns from its wait returns -1, except that it goes on waiting exactly if it was woken after deinit's last section cleared the stop flag; every call that enters returns -1 |
| `CameraCancelled.CancelledCallCanReturnImage` | src/camera_capture_v4l2.c:668-729 | the concrete run with two callers in which a call that deinit cancelled returns 0, with the image the other caller asked for, while that caller goes on waiting |
| `CameraCancelled.CancelledCallGetsImageIffOthers` | src/camera_capture_v4l2.c:620-729 | exactly when: from every reachable state with the stop flag up and a call waiting, some continuation, later inits included, lets that call return an image if and only if there is another caller; so with one client a cancelled call never does |
| `CameraTheorems.ThreadWindsDown` | src/camera_capture_v4l2.c:198-209 | while stopping, each step of the capture thread brings it strictly closer to its exit and nobody else moves it back: it finishes its loop body and starts no other |
| `CameraTheorems.ThreadNeverStuck` | src/camera_capture_v4l2.c:198-319 | until it exits, the capture thread always has a next step |
| `CameraTheorems.BufferOwnership` | src/camera_capture_v4l2.c:237-318 | queued + filled + held + lost buffers equal the mapped ones, the thread holds one exactly between DQBUF and QBUF and none at the loop head, and the lost ones are exactly the failed QBUFs |
| `CameraTheorems.BufferCountIsStable` | src/camera_capture_v4l2.c:237-318 | no step but init and release changes the number of buffers |
| `CameraStale.ImageCanPredateRequest` | src/camera_capture_v4l2.c:271-303 | a concrete run with one client and a working clock that hands over an image whose first byte was copied before the call, after a call that timed out |
| `CameraStale.CopyPredatesIffCopying` | src/camera_capture_v4l2.c:271-303 | exactly when the copy can predate the call, from every reachable state with a working clock and for every caller: some continuation hands the call a copy begun before it if and only if the thread is copying at the moment the call enters |
| `CameraFresh.FirstCallCanGetOldFrame` | include/camera_capture.h:39-44 | a concrete run with one client, a working clock and no withdrawn request in which the first call after init is handed a frame that had already been dequeued |
| `CameraFresh.OldFrameIffInHand` | include/camera_capture.h:39-44 | exactly when a call can be handed a frame already dequeued, from every reachable state and for every caller: if and only if, when the call enters, the thread is copying or about to copy one, or has one of usable size that it has not yet decided on |
| `CameraCompleted.FirstCallCanGetEarlierFrame` | include/camera_capture.h:39-44 | the promise of the next fresh frame fails for the first call after init, with one client, a working clock, no withdrawn request and nothing dequeued yet: a concrete run hands it a frame the driver had completed before |
| `CameraCompleted.EarlierFrameIffLeft` | include/camera_capture.h:39-44 | exactly when the promise can fail, from every reachable state and for every caller: some continuation hands the call a frame completed before it if and only if, when it enters, the thread has a usable frame in its hands, or a usable one waits in the driver and either there is another caller or the thread is not about to report a failure |
| `CameraResources.Os.Acquire` | src/camera_capture_v4l2.c:350-350 | a handle is new and live, and everything ever handed out is accounted for |
| `CameraResources.Os.Release` | src/camera_capture_v4l2.c:567-567 | only a live handle can be released, and so only once |
| `CameraResources.CameraDevice.ConfigureSubdevice` | src/camera_capture_v4l2.c:114-166 | the sensor's descriptor is closed on every path |
| `CameraResources.CameraDevice.Negotiate` | src/camera_capture_v4l2.c:350-439 | negotiation ends at the first call or size check that fails, in the code's order; a failure holds at most the descriptor, and the capacity is left set exactly after the later failures |
| `CameraResources.CameraDevice.MapBuffers` | src/camera_capture_v4l2.c:441-478 | succeeds exactly when every buffer up to the limit is queried, mapped and queued, and otherwise says which of the three failed at the first bad buffer; what was mapped before a failure is still recorded |
| `CameraResources.CameraDevice.AllocateAndStart` | src/camera_capture_v4l2.c:480-536 | the last three rungs hold everything on success and nothing on failure; the first that fails is reported |
| `CameraResources.CameraDevice.FailStreamOff` | src/camera_capture_v4l2.c:538-576 | from a running stream, everything is released once, also when STREAMOFF fails |
| `CameraResources.CameraDevice.FailFreeSecure` | src/camera_capture_v4l2.c:545-576 | from an allocated image buffer on, everything is released once |
| `CameraResources.CameraDevice.FailUnmap` | src/camera_capture_v4l2.c:553-576 | from any number of mappings on, everything is released once; the capacity is not touched |
| `CameraResources.CameraDevice.CloseDevice` | src/camera_capture_v4l2.c:565-576 | the descriptor and a stream that STREAMOFF left are gone |
| `CameraResources.CameraDevice.Init` | src/camera_capture_v4l2.c:324-577 | from any state init succeeds exactly when every rung does, and then holds all five kinds of resource and a snapshot would wait; on every failing exit, at any buffer, the rung named is the one that fails, all that was ever handed out has been released and a snapshot is refused; the capture flags are clear, and the capacity remains exactly after failures between S_FMT and STREAMON |
| `CameraResources.CameraDevice.EnterSnapshot` | src/camera_capture_v4l2.c:591-610 | a snapshot enters on the device's own availability: descriptor, stream, thread and memory |
| `CameraResources.CameraDevice.Deinit` | src/camera_capture_v4l2.c:664-730 | from any state all that was ever handed out is released and nothing new is acquired, so a second deinit releases nothing; the capture flags end clear and a snapshot is refused |
| `Bytes.ReadsDecimal` | src/storage.c:291-301 | a printed decimal followed by a separator reads back as the same integer, leaving exactly the rest |
| `Telemetry.RowRoundTrip` | src/storage.c:292-300 | a printed row reads back as its sample, leaving exactly the rest |
| `Telemetry.SampleRow` | src/storage.c:291-300 | one row as it stands in the file, byte for byte: timestamp, acceleration and angular velocity, commas between, a newline behind |
| `Telemetry.TelemetryRoundTrip` | src/storage.c:291-301 | the rows printed from 64-bit timestamps and signed 16-bit fields parse back to exactly the samples, in order, for every sequence |
| `Telemetry.PrintedReadsBack` | src/storage.c:279-301 | after any header the printed text reads back as exactly the samples |
| `Stdio.Stream.Fprintf` | src/storage.c:279-301 | printed text joins the buffer, any part of which may be written in the same call; what such a write fails to write is gone, and the call succeeds exactly if nothing was lost in it |
| `Stdio.Stream.Fflush` | src/storage.c:303-306 | a flush reports on what is still in the buffer only, not on what earlier calls lost |
| `Stdio.WholeIffComplete` | src/storage.c:279-315 | for all texts and schedules of writes: when fopen, fflush and fsync work, the file is everything that was printed if no earlier write failed, and shorter if one did |
| `Telemetry.RowsAreShortest` | src/storage.c:291-301 | no text shorter than the printed rows parses to the same samples, so lost bytes never read back |
| `Telemetry.SuccessReadsBackIffComplete` | src/storage.c:255-315 | for all samples, header floats and schedules of writes: a telemetry file that was reported as saved reads back if and only if no write before the final flush failed, and then the samples can be recovered from the file alone |
| `Telemetry.SuccessCanLoseRows` | src/storage.c:279-315 | a concrete schedule in which a write behind one fprintf fails, success is reported, and the file does not read back |
| `Telemetry.RecoversWhole` | src/storage.c:279-301 | a reader that is told nothing but the column line finds the rows behind the header, whatever its numbers, and gets exactly the samples |
| `Telemetry.WriteTelemetryToFile` | src/storage.c:255-315 | the writer, over a stream whose writes may fail behind every fprintf: success exactly when fopen, fflush and fsync work, the file is what the stream let through, and after a success it reads back exactly if nothing was lost |
| `FileWriter.WriteBinaryFile` | src/storage.c:317-361 | for every schedule of short, interrupted and failing writes the file is a prefix of the data, equals it on success, and the outcome is what the unwritten bytes and fsync say |
| `FileWriter.DrainsIffEnough` | src/storage.c:335-352 | everything is written if and only if enough bytes are taken before the first error |
| `FileWriter.DrainStopsAtError` | src/storage.c:335-352 | for every schedule: the loop fails if and only if an error comes before enough bytes are taken, and leaves unwritten exactly what the attempts before it did not take |
| `FileWriter.PositiveWritesSuffice` | src/storage.c:335-352 | the unwritten bytes bound the number of positive writes needed, however many interruptions come between |
| `Storage.SaveCrashData` | src/storage.c:74-213 | the return value is success exactly when the calls it looks at succeed; then the text parses back to exactly the ring's window if and only if no write behind an fprintf failed, the raw file is the image and the preview is the decoded picture; whether or not it succeeds, if LOCK and UNLOCK worked the ring ends unlocked and empty, with both indices 0, and otherwise its window is unchanged and it is frozen exactly if it was before or LOCK worked |
| `Storage.Collect` | src/storage.c:120-205 | between LOCK and the clean-up: the same, without touching the ring |
| `Storage.ReadAll` | src/storage.c:128-147 | a buffer of N samples always takes the whole window |
| `Storage.StorageTask` | src/storage.c:53-72 | from one return of the condition wait: without mail nothing changes; otherwise the save's outcome and files are those of the posted image over the secure memory, with the telemetry whole if and only if no write behind an fprintf failed; the ring ends unlocked and empty if LOCK and UNLOCK worked, and otherwise keeps its window, frozen exactly if it was before or LOCK worked |
| `Bayer.OffsetInRange` | src/storage.c:437-461 | every byte that unpacking reads lies inside its row and inside the image's size |
| `Bayer.UnpackedAt` | src/storage.c:437-461 | raw8[y*w+x] is data[y*stride + 5*(x/4) + x%4], for every pixel |
| `Bayer.UnpackRow` | src/storage.c:437-461 | the strided inner loop fills exactly its own row of the output |
| `Bayer.Unpack` | src/storage.c:428-461 | the two loops in place compute the unpacked image and write nothing outside w*h |
| `Packing.PackedSample` | src/storage.c:405-422 | in SRGGB10P data the unpacked byte is the 10-bit sample divided by four, and the fifth bytes hold exactly the bits dropped |
| `Packing.PackThenUnpack` | src/storage.c:405-461 | packing any 10-bit image at any stride and unpacking keeps the upper eight bits of every sample |
| `Demosaic.Clamped` | src/storage.c:369-377 | a clamped coordinate is the one inside the image that is nearest |
| `Demosaic.DemosaicPixel` | src/storage.c:504-663 | the four parity branches with C averages and casts give, per channel, the truncated mean of the samples listed for that site; NearestTaps says which samples these are |
| `NearestTaps.TapsAreNearest` | src/storage.c:504-663 | for every site and colour the samples listed are, each once, exactly those of the nine around it whose filter is of that colour and that are nearest in |dx| + |dy| |
| `NearestTaps.ChannelIsNearestMean` | src/storage.c:504-663 | each channel of each pixel is the truncated mean of all nearest samples of its colour, in a mosaic with red at even and blue at odd coordinates |
| `Demosaic.DemosaicRow` | src/storage.c:504-663 | the inner loop fills the row buffer with exactly the interpolated colours of the row |
| `Demosaic.ColorRowsAt` | src/storage.c:502-676 | bytes 3*(y*w+x) onwards of the pixel data are the interpolated colour at (x, y) |
| `Demosaic.ChannelWithinSamples` | src/storage.c:523-658 | each channel lies between the least and the greatest of its clamped samples, so no cast truncates |
| `Demosaic.DemosaicIsMonotone` | src/storage.c:502-663 | a mosaic that is nowhere darker gives an image that is nowhere darker |
| `Demosaic.FlatStaysFlat` | src/storage.c:363-380 | an equal-valued mosaic gives the same grey at every pixel, borders included |
| `AffineScene.TapsSeeTheirColour` | src/storage.c:492-658 | every neighbour read for a channel looks through a filter of that channel |
| `AffineScene.InteriorIsExact` | src/storage.c:502-663 | on a mosaicked affine scene every channel is exact at every interior pixel |
| `AffineScene.AffineScenesSurvive` | src/storage.c:437-663 | affine scenes in the top 8 bits, packed with any low bits at any stride, are reproduced exactly in all three channels at every interior pixel by unpacking and demosaicing |
| `AffineScene.VisibleScenesCanBeCaptured` | src/storage.c:405-422 | every scene within 0..255 has such a capture, so the theorem is never vacuous |
| `ColorPpm.WritePraaColorPpm` | src/storage.c:382-694 | for every image: each guard's error, computed with products that may wrap; undefined exactly if the guards let an image through whose sizes wrap or whose sides are no int; success exactly when otherwise the guards pass and every call works, and then the file is header and interpolated pixels |
| `ColorPpm.GuardIsExact` | src/storage.c:411-422 | for a size_t of any width: the length guard, computed with products that may wrap, passes every image that is long enough, and where nothing wraps no other |
| `ColorPpm.WriteRows` | src/storage.c:502-676 | the row loop over one reused buffer appends the rows of the picture, or fails exactly when an fwrite does |
| `ColorPpm.HeaderDecodes` | src/storage.c:473-476 | a reader of raw PPM recovers width, height and pixels from what is written |
| `ColorPpm.SampleHeader` | src/storage.c:473-476 | one header as it stands in the file, byte for byte |
| `ColorPpm.PreviewDecodes` | src/storage.c:463-694 | every successful preview is a well-formed P6 file of the image's size whose pixel (x, y) is the interpolated colour |
| `ImagePath.PreviewShowsScene` | src/storage.c:382-694 | end to end for images: the file reads back as a picture that shows a captured affine scene exactly at every interior pixel |
| `Handoff.StorageArgs.constructor` | src/main.c:113-116 | the mailbox starts empty |
| `Handoff.StorageArgs.Post` | src/task2_camera.c:236-259 | the mailbox then holds exactly the detection time, the capture flag and the image, with the image zeroed when there is none |
| `Handoff.StorageArgs.Wake` | src/storage.c:53-62 | the storage task leaves its wait, spurious wake-ups included, exactly when data was posted, and what it gets is what the post was given |
| `Handoff.ReportCapture` | src/task2_camera.c:214-259 | a latency is reported exactly for an image whose first byte does not precede the accident's start, is the difference of the two, and the mail says what was captured |
| `PipelineInvariant.StepKeepsInv` | src/main.c:68-197 | every step of the three tasks, the capture thread, the driver and main's final deinit keeps the pipeline invariant |
| `PipelineInvariant.StartOk` | src/main.c:67-116 | main's reset of whatever the ring held, with the camera initialised or disabled, establishes the invariant |
| `PipelineInvariant.RunKeepsInv` | src/main.c:68-197 | the invariant holds over every interleaving |
| `PipelineInvariant.StampsOrdered` | src/task1_lsm9ds1.c:125-137 | whatever task 1 publishes: latency start <= detection <= now |
| `PipelineInvariant.ReturnKeepsClient` | src/task2_camera.c:214-231 | when task 2's call returns an image, it is the caller's, was requested after the detection, and with a working clock passes the latency check |
| `PipelineInvariant.MemoryIsFrame` | src/storage.c:160-183 | while task 3 may read the image, the secure memory is the frame handed to task 2 and no copy is in flight |
| `PipelineTheorems.EndToEndTelemetry` | src/task1_lsm9ds1.c:92-155 | over every interleaving from main's reset, with any failing calls and any N >= 250: if task 3 saves, the written text reads back as exactly the last min(n, N) samples task 1 wrote, oldest first, if and only if no write behind an fprintf failed, and then they can be recovered from the file alone; the last of them is the first sample of the run to end 2 consecutive samples at or above 4 g or 250 tilted by 60 degrees, and carries the detection timestamp that task 3 was given; the sample stamped with the latency start is among them, 2 or 250 from the end |
| `PipelineTheorems.EndToEndImage` | src/storage.c:160-205 | over every interleaving: if task 3 saves and task 2 had an image, the image file is, whole, the one dequeued frame that was handed over; otherwise none was given |
| `PipelineTheorems.EndToEndPreview` | src/storage.c:177-202 | over every interleaving, with the memory read byte by byte while it is unpacked: a saved preview reads back as a picture of the geometry the camera was initialised with, each pixel the interpolated colour of exactly the frame that was handed over and saved raw |
| `PipelineTheorems.Task3ReadsLiveMemory` | src/main.c:192-197 | in every reachable state in which task 3 may read the image, the memory is mapped, equals the frame, is not being written, and the next byte is readable |
| `PipelineTheorems.LatencyIsValid` | src/task2_camera.c:207-231 | with a working clock, latency start <= detection <= request <= first byte in every run, so the branch for an invalid latency is unreachable |
| `PipelineTheorems.LatencyIsReported` | src/task2_camera.c:216-234 | over every run, whatever the clock does: a captured image's latency counts as valid exactly if its first byte does not precede the start that task 1 published |
| `PipelineProgress.SavingStaysPossible` | src/task1_lsm9ds1.c:125-155 | from every reachable state in which neither task 2 nor task 3 has given up, and, if task 2 still waits, task 1's kill() has worked, or task 1 has detected (freezing, signalling, or about to analyse the sample that completes the first accident), or it still samples and there is a raw sample at or above 4 g: some continuation ends with the data saved, for the detection that task 1 published; no hand-off can be lost and no task is left waiting for something that cannot come |
| `PipelineCapture.FullSaveStaysPossible` | src/task2_camera.c:199-259 | from every such state in which task 2 has not yet entered its call, while the camera runs and some buffer can bring an image the preview accepts: some continuation saves the telemetry with every row, the whole frame and a preview, for the detection that task 1 published |
| `PipelineTheorems.ReadsFollowDetection` | src/task2_camera.c:199-208 | from task 2's wake-up on, a detection has occurred and no sample is written any more, whether or not the freeze worked; the ring stays well formed |
| `PipelineHistory.RunRecords` | src/task1_lsm9ds1.c:142-146 | over every run, read off its actions: task 1's LOCK, its kill(), and task 3's LOCK and UNLOCK have worked exactly if the run holds such a step |
| `PipelineHistory.RingAfterSave` | src/storage.c:207-213 | over every interleaving: task 3 never ends without having tried to unlock, whether or not it saved; the ring is then unlocked and empty if its LOCK and its UNLOCK worked, and otherwise still stands for everything task 1 wrote, frozen exactly if one of the two LOCKs worked |
| `PipelineHistory.WakesOnlyBySignal` | src/task1_lsm9ds1.c:146-149 | over every run: while task 2 waits, the signal is pending exactly if task 1's kill() has worked; if it has not, task 2 never calls the camera and task 3 never leaves its wait |
| `PipelineHistory.StoppedWritesNothing` | src/task1_lsm9ds1.c:66-167 | over every run: once a sensor, clock or write error or a failing sleep has stopped the sampling loop no sample is written any more, and after one of the first three no signal is ever sent and tasks 2 and 3 go on waiting |
| `PipelineHistory.SignalCarriesReport` | src/task2_camera.c:199-208 | from task 2's wake-up on, in every run, its two times are the ones task 1 published for the first accident of what it wrote, and the mail and task 3 carry the detection time |
| `PipelineGeometry.ImageIsAsConfigured` | src/camera_capture_v4l2.c:280-286 | over every run, the image that task 2 captured, posted and task 3 saves has the geometry the camera was initialised with |

## Left out

- ColorPpm.WritePraaColorPpm: says nothing of the file where its result is undefined, nor of what a failing call leaves in it. With a 64-bit `size_t` no frame that init accepts is undefined.
- Detection.AccidentDetector.Update: requires the counters below INT_MAX, because the C increment is undefined there; `Task1.QuietCounters` shows that the sampling task never comes near it.
- ComplementaryFilter.FilterBound: over reals; IEEE rounding and the real trigonometric functions are not modelled.
- Orientation.TiltOfVector: says nothing of vectors whose vertical component is within one part in 10^9 of half the length, because the product of the two conversion constants is not exactly 1.
- Timing.Timespec.AddNanoseconds: says nothing of sums beyond the platform's greatest `long`, which C leaves undefined.
- CameraTheorems.ThreadNeverStuck: says that a step exists, not that the scheduler takes it; liveness of the whole program is not claimed. A sensor error ends task 1 without a signal (src/task1_lsm9ds1.c:78-82), and then tasks 2 and 3 wait for ever.
- PipelineProgress.SavingStaysPossible: says that saving remains possible, not that it happens; the calls that can fail may fail.
- PipelineHistory.WakesOnlyBySignal: if kill() or sigwait() fails, tasks 2 and 3 never do anything, as in the code; nothing is claimed to recover from that.
- PipelineCapture.FullSaveStaysPossible: says nothing once task 2 has entered its call, whose request may then be bound to fail.
- PipelineTheorems.EndToEndPreview: a preview that could not be written is an empty file in the pipeline; what it leaves behind is not modelled.
- Storage.SaveCrashData: is one save without interference, for images on which the preview's arithmetic is defined; interference is the subject of the pipeline theorems. The two printed floats of the telemetry header are arbitrary texts without an underscore. Directory creation, ownership and modes are Booleans.
- The capture thread and the snapshot call are a transition system, not methods: their loops interleave. Their critical sections are methods (`CaptureControl`), and so is the undisturbed handling of one frame (`CaptureControl.HandleFrame`).
- In the transition system init's publication of flags, thread and device is one step, and the driver hands out only buffers it filled, in any order, so the thread's check of the buffer index is modelled but never fails.
- EINTR retry loops around `ioctl` and `poll` are folded into the call's final result; `mlock` and `munlock` have no effect in the model.
- V4L2 negotiation, I2C register traffic, the framebuffer search, the SOS display and thread priorities: device input and output, or scheduler policy.
- main's failure paths when a thread cannot be created, and the kernel module's registration and removal: plumbing.
- Data races on the two shared timestamps: they are written before the signal and read after it, and the signal is modelled as ordering the two.
