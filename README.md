# MINI2 thermal camera: recording engine, camera function registry, command manager, device settings

This project is a Dafny model of the core of the MINI2 infrared camera Android app. It covers four parts.

* **The video recorder** (`VideoRecorder`).
  * It starts, pauses, resumes and stops a recording session.
  * It converts ARGB frames to planar YUV 4:2:0 and queues them on the video encoder, stamped at a fixed frame pace.
  * When a capture fails it re-submits the last good frame.
  * It drains the encoder into the muxer, holding the muxer back until the expected tracks are known.
* **The native camera function registry** (`CameraFunctionRegistry`).
  * Four maps from a function ID to a handler: SET, SET with two values, GET and ACTION.
  * A fixed initial population of 31 handlers.
  * The executors' error codes, and how SDK codes convert to registry codes.
* **The Kotlin command manager** (`IrcmdManager`).
  * The initialised flag and the remembered brightness and contrast.
  * The range guards of every setter.
  * The legacy and registry executors.
  * The frame-rate fallback, which tries the rate, then the mapped rate, then the index.
* **The device settings** (`DeviceConfig`, `DeviceConfigs`).
  * The comma-separated text form of a configuration and its parser, which is built on Kotlin's `toInt` and `split`.
  * The table of device types and the default configuration.
  * Saving to and loading from the preferences store, which always keeps the default entry.

Files:

* `wrappers.dfy`: `Option`.
* `yuv_convert.dfy`: the RGB→YUV formulas and the planar layout, as a specification function (`Yuv420`). The in-place array conversion (`ConvertToYuv420`) is proved against it.
* `drain.dfy`: one step of the encoder drain loop and the run of a drain over a list of encoder events.
* `session.dfy`: the session arithmetic the recorder follows (frame duration, presentation times, the reported duration, the load monitor, the capture tick).
* `video_recorder.dfy`: the `VideoRecorder` class.
* `camera_function_registry.dfy`: the registry's enums, its initial population and the `CameraFunctionRegistry` class.
* `ircmd_manager.dfy`: the `IrcmdManager` class and its guards.
* `kotlin_text.dfy`: `Int.toString`, `String.toInt` and `String.split(",")` as the JVM defines them.
* `device_config.dfy`: the configuration codec, the device-type table and the `DeviceConfigs` object.

## How the model is organised

**Outside systems are parameters.**
* The Android codec objects, the SDK behind the registry handlers and the JNI layer are not modelled as code.
* What they answer arrives as parameters:
  * encoder events, free input slots and buffer capacities for the recorder;
  * an `Sdk` value of functions for the registry handlers;
  * a `Native` value of functions for the command manager.
* What the modelled code hands to them is recorded and stated:
  * queued input buffers, muxer tracks, written samples and released buffers;
  * the sequence of native calls each manager operation makes.
* The wall clock is the parameter `now`.

**Classes.** Objects whose fields the source updates in place are classes, with field-granular `modifies`/`reads` frames:
* `VideoRecorder`;
* `CameraFunctionRegistry`;
* `IrcmdManager`;
* `DeviceConfigs`.

**Integer widths.**
* Kotlin `Int` values in the device configuration are the newtype `int32`. `toInt` rejects values outside that range.
* Kotlin's truncating `Long` division is written out (`TruncDiv`).

## Model

| member | source | states |
|---|---|---|
| YuvConvert.Red | app/src/main/java/com/example/ircmd_handle/VideoRecorder.kt:650-652 | the extracted channel byte lies in 0..255 |
| YuvConvert.CoerceIn | app/src/main/java/com/example/ircmd_handle/VideoRecorder.kt:656-664 | the result lies in [lo, hi], equals the input inside the range, and saturates at the violated bound outside it |
| YuvConvert.ComponentsNeedNoClamp | app/src/main/java/com/example/ircmd_handle/VideoRecorder.kt:654-664 | for channels in 0..255 the Y, U and V formulas already lie in 0..255, so the clamps never act |
| YuvConvert.PixelBytesAreUnclamped | app/src/main/java/com/example/ircmd_handle/VideoRecorder.kt:650-664 | the stored Y/U/V bytes of a pixel are exactly the unclamped formulas of its red, green and blue channels |
| YuvConvert.Yuv420SizeIsProduct | app/src/main/java/com/example/ircmd_handle/VideoRecorder.kt:637-641 | the output array size is width*height*3/2 |
| YuvConvert.EvenSize | app/src/main/java/com/example/ircmd_handle/VideoRecorder.kt:640-644 | for an even height the array is exactly one luma plane plus a half-height interleaved chroma plane |
| YuvConvert.LumaPlane | app/src/main/java/com/example/ircmd_handle/VideoRecorder.kt:647-656 | one Y byte per pixel, in pixel order |
| YuvConvert.Yuv420Length | app/src/main/java/com/example/ircmd_handle/VideoRecorder.kt:640-675 | the specified frame has the array's size |
| YuvConvert.Yuv420Luma | app/src/main/java/com/example/ircmd_handle/VideoRecorder.kt:649-656 | byte k of the luma plane is the Y of pixel k |
| YuvConvert.Yuv420Chroma | app/src/main/java/com/example/ircmd_handle/VideoRecorder.kt:659-665 | every chroma byte sits after the luma plane and inside the frame |
| YuvConvert.Yuv420ChromaPair | app/src/main/java/com/example/ircmd_handle/VideoRecorder.kt:659-664 | the U,V pair of a 2×2 block is computed from the block's top-left pixel and stored at that block's index after the luma plane |
| YuvConvert.ChromaFitsIffEvenDimensions | app/src/main/java/com/example/ircmd_handle/VideoRecorder.kt:640-665 | the conversion's writes stay inside the array exactly when width and height are both even, and fill it exactly when they are |
| YuvConvert.ConvertToYuv420 | app/src/main/java/com/example/ircmd_handle/VideoRecorder.kt:640-674 | the loop over rows and columns fills the array with exactly the specified YUV 4:2:0 frame |
| YuvConvert.ScanRows | app/src/main/java/com/example/ircmd_handle/VideoRecorder.kt:647-667 | after all rows the array holds the luma plane followed by the chroma rows |
| YuvConvert.ScanRow | app/src/main/java/com/example/ircmd_handle/VideoRecorder.kt:648-666 | one row writes that row's Y bytes and, on an even row, the row's U,V pairs, advancing both indices |
| YuvConvert.ScanPixel | app/src/main/java/com/example/ircmd_handle/VideoRecorder.kt:649-665 | one pixel writes its Y byte and, at an even column of an even row, its U,V pair, and touches nothing else |
| Drain.Step | app/src/main/java/com/example/ircmd_handle/VideoRecorder.kt:704-742 | a format change adds the video track and starts the muxer only when no audio track is still awaited; an output buffer is always released and written only with data, a started muxer and no codec-config flag |
| Drain.Consumed | app/src/main/java/com/example/ircmd_handle/VideoRecorder.kt:701-743 | the loop consumes events up to and including the first try-again or end-of-stream event, and no further |
| Drain.RunIgnoresLaterEvents | app/src/main/java/com/example/ircmd_handle/VideoRecorder.kt:701-743 | events after the loop has broken out change nothing |
| Drain.RunOfConsumed | app/src/main/java/com/example/ircmd_handle/VideoRecorder.kt:701-743 | a drain is determined by the events it consumes |
| Drain.RunReleasesEveryOutput | app/src/main/java/com/example/ircmd_handle/VideoRecorder.kt:722-741 | every output buffer the loop consumes is released exactly once |
| Drain.RunAfterStart | app/src/main/java/com/example/ircmd_handle/VideoRecorder.kt:708-733 | after the muxer has started, a drain keeps it started, keeps the video track, adds no track, and appends exactly `Samples` of the events it consumes: one sample, in order, for each returned, non-config, non-empty output buffer, with its size and time on the video track |
| Drain.RunWritesOnlyAfterStart | app/src/main/java/com/example/ircmd_handle/VideoRecorder.kt:729-733 | a drain that leaves the muxer unstarted wrote nothing |
| Drain.AwaitedAudioBlocksMuxer | app/src/main/java/com/example/ircmd_handle/VideoRecorder.kt:708-719 | with audio included and no audio track added, the muxer never starts and no sample is written |
| Drain.VideoOnlyStartsOnFormatChange | app/src/main/java/com/example/ircmd_handle/VideoRecorder.kt:708-720 | without audio, the first format change adds track 0 and starts the muxer |
| Session.TruncDiv | app/src/main/java/com/example/ircmd_handle/VideoRecorder.kt:157 | Long division truncates toward zero for every sign of dividend and divisor: the quotient's magnitude is \|a\| / \|b\| rounded down and its sign is the sign of a*b; it agrees with Euclidean division on non-negative operands |
| Session.FrameDurationPositive | app/src/main/java/com/example/ircmd_handle/VideoRecorder.kt:157 | the frame duration is positive exactly for rates 1..1000000, and it is the largest duration with duration*fps ≤ 1 s |
| Session.PacerStrictlyIncreasing | app/src/main/java/com/example/ircmd_handle/VideoRecorder.kt:587-588 | frame n is stamped n*duration, so with a positive duration a later frame number gets a strictly later timestamp, (m-n)*duration later |
| Session.ActiveDuration | app/src/main/java/com/example/ircmd_handle/VideoRecorder.kt:321-334 | 0 when not recording; otherwise the elapsed time minus paused time, measured up to the pause when paused |
| Session.DurationFrozenWhilePaused | app/src/main/java/com/example/ircmd_handle/VideoRecorder.kt:321-334 | while paused the reported duration does not change with time |
| Session.PauseResumeContinuity | app/src/main/java/com/example/ircmd_handle/VideoRecorder.kt:298-334 | pausing and resuming do not make the duration jump, and afterwards it excludes exactly the paused interval |
| Session.MonitorLoad | app/src/main/java/com/example/ircmd_handle/VideoRecorder.kt:36-39 | critical at ≥ the critical threshold, warning between the thresholds, normal below; each as an if-and-only-if |
| Session.MonitorMonotone | app/src/main/java/com/example/ircmd_handle/VideoRecorder.kt:499-507 | more outstanding buffers never lower the level, and warning < critical < maximum |
| Session.Tick | app/src/main/java/com/example/ircmd_handle/VideoRecorder.kt:529-543 | a capture is submitted and kept; a failed capture re-submits the kept frame |
| Session.LastGoodIsCaptured | app/src/main/java/com/example/ircmd_handle/VideoRecorder.kt:529-543 | the kept frame is the initial one or one that was actually captured |
| Session.PacedStampsIncrease | app/src/main/java/com/example/ircmd_handle/VideoRecorder.kt:587-588 | the timestamps handed out since a session began (stamp k = k*duration, `PacedStamps`) strictly increase and are whole frame durations apart |
| Session.LastGoodAppend | app/src/main/java/com/example/ircmd_handle/VideoRecorder.kt:529-543 | ticks compose: the frame kept after ticks a+b is the one b keeps starting from the frame kept after a |
| Session.SubmittedAppend | app/src/main/java/com/example/ircmd_handle/VideoRecorder.kt:520-543 | the frames submitted over ticks a+b are those of a followed by those b submits starting from the frame kept after a |
| Session.SubmittedFromNothing | app/src/main/java/com/example/ircmd_handle/VideoRecorder.kt:520-543 | a session starting with no kept frame submits nothing for the failed captures before the first good one (`LeadingNones`) and one frame per tick from there, the first being that good capture |
| Session.FailuresKeepLastGood | app/src/main/java/com/example/ircmd_handle/VideoRecorder.kt:535-543 | failed captures do not change the kept frame |
| Session.CaptureKeepsTiming | app/src/main/java/com/example/ircmd_handle/VideoRecorder.kt:520-543 | once a good frame exists, every tick submits exactly one frame, the one kept after that tick |
| Session.LastGoodSome | app/src/main/java/com/example/ircmd_handle/VideoRecorder.kt:529-543 | a good frame once kept is never lost |
| Session.NothingBeforeFirstCapture | app/src/main/java/com/example/ircmd_handle/VideoRecorder.kt:536-542 | before the first good capture of a session nothing is submitted |
| Recorder.Captures | app/src/main/java/com/example/ircmd_handle/VideoRecorder.kt:526-530 | the capture outcome of every tick, in order |
| Recorder.TargetFrame | app/src/main/java/com/example/ircmd_handle/VideoRecorder.kt:629-633 | a frame no larger than the recording size is used as is; otherwise its scaled copy |
| Recorder.ConvertBitmap | app/src/main/java/com/example/ircmd_handle/VideoRecorder.kt:624-675 | the conversion succeeds exactly for an even-sized target frame, and then yields the specified YUV 4:2:0 frame of it |
| Recorder.VideoRecorder.constructor | app/src/main/java/com/example/ircmd_handle/VideoRecorder.kt:43-88 | the initial field values: not recording, no codecs, 256×192 at 25 fps, 15 Mbps, audio on, 20000 µs per frame |
| Recorder.VideoRecorder.Configure | app/src/main/java/com/example/ircmd_handle/VideoRecorder.kt:148-161 | stores every setting and sets the frame duration to 1 s / fps; a rate of 0 throws after the settings are stored; configuring before any frame of the session keeps the pacer invariant `Paced` |
| Recorder.VideoRecorder.Cleanup | app/src/main/java/com/example/ircmd_handle/VideoRecorder.kt:459-496 | releases every codec object and the kept frame, resets the muxer gate, audio track, counters and frame counter, and so restarts the pacer's timestamps (`Paced` with no stamps) |
| Recorder.VideoRecorder.StartRecording | app/src/main/java/com/example/ircmd_handle/VideoRecorder.kt:163-227 | a no-op while recording; a failed setup cleans up and stays stopped; success starts an unpaused session at `now` with duration 0, fresh encoder and muxer, a reset pacer whose timestamps start again from frame 0 (`Paced` with no stamps), and capture mode chosen by the native link; when view capture would start at a frame rate of 0, its division throws after the session has begun (VideoRecorder.kt:513), so the catch cleans up and the recorder stays recording with no codecs and no capture |
| Recorder.VideoRecorder.StopRecording | app/src/main/java/com/example/ircmd_handle/VideoRecorder.kt:229-296 | a no-op when stopped; otherwise ends the session, sends end of stream at the next frame time, drains, cleans up and resets the pacer's timestamps |
| Recorder.VideoRecorder.Pause | app/src/main/java/com/example/ircmd_handle/VideoRecorder.kt:298-307 | pauses only a running, unpaused session, recording the pause time; the reported duration is unchanged |
| Recorder.VideoRecorder.Resume | app/src/main/java/com/example/ircmd_handle/VideoRecorder.kt:309-319 | resumes only a paused session, adding the pause to the paused total; the reported duration is unchanged |
| Recorder.VideoRecorder.DrainEncoder | app/src/main/java/com/example/ircmd_handle/VideoRecorder.kt:677-747 | with no encoder or muxer, nothing happens; otherwise an optional end-of-stream buffer is queued, then the muxer evolves as Drain.Run over the events |
| Recorder.VideoRecorder.OnNativeYuvFrame | app/src/main/java/com/example/ircmd_handle/VideoRecorder.kt:98-145 | a native frame is queued with its own timestamp and drained only while recording, unpaused, with an encoder, a free slot and a big enough buffer; a bad buffer is queued back empty |
| Recorder.VideoRecorder.EncodeBitmapFrame | app/src/main/java/com/example/ircmd_handle/VideoRecorder.kt:568-622 | an accepted frame is queued as its YUV conversion at frameCounter*duration, the counter advances, that timestamp is the next pacer stamp so `Paced` is kept, the encoder is drained and the load is normal; every other frame leaves the pacer, its stamps and the muxer alone |
| Recorder.VideoRecorder.QueueFrame | app/src/main/java/com/example/ircmd_handle/VideoRecorder.kt:587-616 | queues the frame at the pacer's time frameCounter*duration and records that stamp, advances the counter, keeps `Paced` (stamp k of the session is k*duration), drains the encoder, and returns the outstanding-buffer count to normal |
| Recorder.VideoRecorder.CaptureOnce | app/src/main/java/com/example/ircmd_handle/VideoRecorder.kt:520-543 | one unpaused tick keeps and encodes the frame Session.Tick prescribes, keeping `Paced`; a paused tick changes nothing |
| Recorder.VideoRecorder.CaptureLoop | app/src/main/java/com/example/ircmd_handle/VideoRecorder.kt:510-565 | over a run of ticks the frames encoded are exactly Session.Submitted and the kept frame is Session.LastGood, and every frame queued is stamped by the pacer in order (`Paced` is kept) |
| FunctionRegistry.FunctionTypeOfCode | app/src/main/cpp/camera_function_registry.h:16-20 | the kinds are numbered 0..2, and a number reads back as the kind with that value |
| FunctionRegistry.IdOfCode | app/src/main/cpp/camera_function_registry.h:23-58 | a number reads back only as the ID with that value |
| FunctionRegistry.IdCodesDistinct | app/src/main/cpp/camera_function_registry.h:23-58 | every ID's value reads back as that ID, so IDs have pairwise distinct values |
| FunctionRegistry.ErrorOfCode | app/src/main/cpp/camera_function_registry.h:125-131 | a number reads back only as the registry error with that value |
| FunctionRegistry.ErrorCodesDistinct | app/src/main/cpp/camera_function_registry.h:125-131 | the error codes are pairwise distinct, and only SUCCESS is non-negative |
| FunctionRegistry.ConvertSdkError | app/src/main/cpp/camera_function_registry.cpp:338-347 | SUCCESS exactly for SDK success, INVALID_PARAMETER exactly for the SDK parameter error, never FUNCTION_NOT_FOUND or INVALID_HANDLE |
| FunctionRegistry.RegistryErrorMessage | app/src/main/cpp/camera_function_registry.cpp:349-364 | "Unknown error" exactly for values outside the enum |
| FunctionRegistry.MessagesDistinct | app/src/main/cpp/camera_function_registry.cpp:349-364 | each error code has its own message |
| FunctionRegistry.ImageProcessingSetsKeys | app/src/main/cpp/camera_function_registry.cpp:144-209 | the image-processing group adds SET handlers for exactly its seven IDs |
| FunctionRegistry.ImageProcessingGetsKeys | app/src/main/cpp/camera_function_registry.cpp:144-209 | the image-processing group adds GET handlers for exactly its seven IDs |
| FunctionRegistry.SceneAndPaletteSetsKeys | app/src/main/cpp/camera_function_registry.cpp:211-231 | the scene and palette group adds SET handlers for scene mode and palette |
| FunctionRegistry.SceneAndPaletteGetsKeys | app/src/main/cpp/camera_function_registry.cpp:211-231 | the scene and palette group adds GET handlers for scene mode and palette |
| FunctionRegistry.AdvancedSetsKeys | app/src/main/cpp/camera_function_registry.cpp:242-264 | the advanced group adds SET handlers for gamma and edge enhancement only |
| FunctionRegistry.AdvancedGetsKeys | app/src/main/cpp/camera_function_registry.cpp:242-264 | the advanced group adds a GET handler for edge enhancement only |
| FunctionRegistry.DeviceControlSetsKeys | app/src/main/cpp/camera_function_registry.cpp:266-315 | the device-control group adds SET handlers for its eight single-value IDs |
| FunctionRegistry.AllSetsSize | app/src/main/cpp/camera_function_registry.cpp:131-142 | the groups' SET IDs are disjoint, so the SET registrations add 19 entries to a map without them |
| FunctionRegistry.AllGetsSize | app/src/main/cpp/camera_function_registry.cpp:131-142 | the GET registrations add 10 entries to a map without them |
| FunctionRegistry.InitialSizes | app/src/main/cpp/camera_function_registry.cpp:131-142 | the initial population has 19 SET, 1 SET2, 10 GET and 1 ACTION handlers |
| FunctionRegistry.InitialAbsences | app/src/main/cpp/camera_function_registry.cpp:242-264 | the time- and space-noise-reduction IDs are registered nowhere, and gamma only as SET |
| FunctionRegistry.UpdateSize | app/src/main/cpp/camera_function_registry.cpp:5-23 | registering grows a map by one for a new ID and not at all for a replaced one |
| FunctionRegistry.CameraFunctionRegistry.constructor | app/src/main/cpp/camera_function_registry.h:103 | the singleton starts with four empty maps, so the count is 0 |
| FunctionRegistry.CameraFunctionRegistry.RegisterSetFunction | app/src/main/cpp/camera_function_registry.cpp:5-8 | the ID maps to the new handler, replacing any earlier one; other maps unchanged |
| FunctionRegistry.CameraFunctionRegistry.RegisterSetFunction2 | app/src/main/cpp/camera_function_registry.cpp:10-13 | as RegisterSetFunction, for the two-value map |
| FunctionRegistry.CameraFunctionRegistry.RegisterGetFunction | app/src/main/cpp/camera_function_registry.cpp:15-18 | as RegisterSetFunction, for the GET map |
| FunctionRegistry.CameraFunctionRegistry.RegisterActionFunction | app/src/main/cpp/camera_function_registry.cpp:20-23 | as RegisterSetFunction, for the ACTION map |
| FunctionRegistry.CameraFunctionRegistry.ExecuteSetFunction | app/src/main/cpp/camera_function_registry.cpp:25-45 | null handle → INVALID_HANDLE before lookup; unregistered ID → FUNCTION_NOT_FOUND; otherwise the handler's result |
| FunctionRegistry.CameraFunctionRegistry.ExecuteSetFunction2 | app/src/main/cpp/camera_function_registry.cpp:47-67 | the same checks in the same order, for two values |
| FunctionRegistry.CameraFunctionRegistry.ExecuteGetFunction | app/src/main/cpp/camera_function_registry.cpp:69-91 | a null handle or out-pointer → INVALID_PARAMETER with the pointer untouched; unregistered → FUNCTION_NOT_FOUND; otherwise the handler's code and the value it stores |
| FunctionRegistry.CameraFunctionRegistry.ExecuteActionFunction | app/src/main/cpp/camera_function_registry.cpp:93-113 | the SET checks, for actions |
| FunctionRegistry.CameraFunctionRegistry.InitializeImageProcessingFunctions | app/src/main/cpp/camera_function_registry.cpp:144-209 | the SET and GET maps gain exactly the image-processing registrations |
| FunctionRegistry.CameraFunctionRegistry.InitializeSceneAndPaletteFunctions | app/src/main/cpp/camera_function_registry.cpp:211-231 | the SET and GET maps gain the scene and palette registrations |
| FunctionRegistry.CameraFunctionRegistry.InitializeActionFunctions | app/src/main/cpp/camera_function_registry.cpp:233-240 | the ACTION map gains the FFC update |
| FunctionRegistry.CameraFunctionRegistry.InitializeAdvancedFunctions | app/src/main/cpp/camera_function_registry.cpp:242-264 | gamma (a handler that always answers FUNCTION_NOT_FOUND) and edge enhancement |
| FunctionRegistry.CameraFunctionRegistry.InitializeDeviceControlFunctions | app/src/main/cpp/camera_function_registry.cpp:266-315 | the device-control SETs, with analog video output in the two-value map |
| FunctionRegistry.CameraFunctionRegistry.InitializeAllFunctions | app/src/main/cpp/camera_function_registry.cpp:131-142 | the five groups in order; on the empty singleton the maps become the initial population, 31 handlers |
| FunctionRegistry.GammaAnswersNotFound | app/src/main/cpp/camera_function_registry.cpp:248-254 | after initialisation gamma is registered and still answers FUNCTION_NOT_FOUND |
| FunctionRegistry.NoiseReductionIdsNotFound | app/src/main/cpp/camera_function_registry.cpp:242-264 | after initialisation every executor answers FUNCTION_NOT_FOUND for the two noise-reduction IDs |
| FunctionRegistry.KindsAreIndependent | app/src/main/cpp/camera_function_registry.h:111-114 | one ID can have both a SET and a GET handler (brightness), while FFC has only an ACTION handler |
| Ircmd.ConstantsMatchRegistry | app/src/main/java/com/example/ircmd_handle/IrcmdManager.kt:31-110 | every Kotlin function number equals the native ID's value, and the kind and error constants equal the native ones |
| Ircmd.LegacyGuardedSet | app/src/main/java/com/example/ircmd_handle/IrcmdManager.kt:267-358 | out-of-range values are refused with ERROR_INVALID_PARAM and no native call; in-range values make exactly the legacy SET call and return its code |
| Ircmd.FrameRateValues | app/src/main/java/com/example/ircmd_handle/IrcmdManager.kt:450-472 | three strategies, the first being the raw rate |
| Ircmd.IrcmdManager.constructor | app/src/main/java/com/example/ircmd_handle/IrcmdManager.kt:133-138 | not initialised, brightness and contrast remembered as 50 |
| Ircmd.IrcmdManager.Init | app/src/main/java/com/example/ircmd_handle/IrcmdManager.kt:146-165 | an initialised manager answers true without a native call; otherwise the native init decides and sets the flag |
| Ircmd.IrcmdManager.Cleanup | app/src/main/java/com/example/ircmd_handle/IrcmdManager.kt:170-179 | calls native cleanup only when initialised; the manager ends uninitialised |
| Ircmd.IrcmdManager.GetCurrentBrightness | app/src/main/java/com/example/ircmd_handle/IrcmdManager.kt:200-210 | the legacy GET's value on success, the remembered brightness otherwise |
| Ircmd.IrcmdManager.SetBrightness | app/src/main/java/com/example/ircmd_handle/IrcmdManager.kt:217-223 | one legacy SET; the remembered value changes exactly on success |
| Ircmd.IrcmdManager.SetContrast | app/src/main/java/com/example/ircmd_handle/IrcmdManager.kt:230-236 | as SetBrightness, for contrast |
| Ircmd.IrcmdManager.ExecuteSetFunction | app/src/main/java/com/example/ircmd_handle/IrcmdManager.kt:366-372 | ERROR_NOT_INITIALIZED and no call when uninitialised, otherwise exactly one legacy SET |
| Ircmd.IrcmdManager.ExecuteRegistrySetFunction | app/src/main/java/com/example/ircmd_handle/IrcmdManager.kt:382-390 | ERROR_NOT_INITIALIZED and no call when uninitialised, otherwise exactly one registry SET |
| Ircmd.IrcmdManager.ExecuteRegistrySetFunction2 | app/src/main/java/com/example/ircmd_handle/IrcmdManager.kt:399-407 | the same for the two-value SET |
| Ircmd.IrcmdManager.ExecuteRegistryGetFunction | app/src/main/java/com/example/ircmd_handle/IrcmdManager.kt:414-425 | (-2, 0) uninitialised, otherwise the native code and the wrapper's value |
| Ircmd.IrcmdManager.ExecuteRegistryActionFunction | app/src/main/java/com/example/ircmd_handle/IrcmdManager.kt:496-504 | the same for actions |
| Ircmd.IrcmdManager.PerformFfc | app/src/main/java/com/example/ircmd_handle/IrcmdManager.kt:242-244 | one legacy FFC action, with no initialised check |
| Ircmd.IrcmdManager.GetRegistryBrightness | app/src/main/java/com/example/ircmd_handle/IrcmdManager.kt:537-539 | uninitialised: (-2, 0) with no native call; otherwise exactly the registry GET of the native brightness ID, returning that call's code and value |
| Ircmd.IrcmdManager.PerformRegistryFfc | app/src/main/java/com/example/ircmd_handle/IrcmdManager.kt:554-556 | uninitialised: -2 with no native call; otherwise exactly the registry action of the native FFC-update ID, returning that call's code |
| Ircmd.IrcmdManager.RegistryGuardedSet | app/src/main/java/com/example/ircmd_handle/IrcmdManager.kt:529-741 | the range check comes before the initialised check; a native call happens exactly when the value is accepted and the manager initialised |
| Ircmd.IrcmdManager.SetAnalogVideoOutput | app/src/main/java/com/example/ircmd_handle/IrcmdManager.kt:644-654 | a status or format other than 0 or 1 answers ERROR_INVALID_PARAM without a call; accepted values answer ERROR_NOT_INITIALIZED when uninitialised and otherwise make exactly one two-value registry SET, returning its code |
| Ircmd.IrcmdManager.SetFrameRate | app/src/main/java/com/example/ircmd_handle/IrcmdManager.kt:434-481 | -2 uninitialised, -1 for rates other than 25/50; otherwise the strategies are tried in order, stopping at the first success, and the last code is returned |
| Ircmd.FrameRateSucceedsIffSomeStrategyDoes | app/src/main/java/com/example/ircmd_handle/IrcmdManager.kt:450-480 | the fallback succeeds exactly when one of the three strategies does, and stops at the first that does |
| Ircmd.FirstSuccess | app/src/main/java/com/example/ircmd_handle/IrcmdManager.kt:450-480 | the index of the first succeeding strategy: all before it fail |
| Ircmd.FirstSuccessIsFirst | app/src/main/java/com/example/ircmd_handle/IrcmdManager.kt:450-480 | a success preceded only by failures is the first success |
| Ircmd.GuardsAreExact | app/src/main/java/com/example/ircmd_handle/IrcmdManager.kt:267-741 | a summary of the setter contracts: guarded setters pass on only in-range values, legacy setters always call for those, and registry setters answer ERROR_NOT_INITIALIZED when uninitialised |
| Ircmd.DeviceControlRanges | app/src/main/java/com/example/ircmd_handle/IrcmdManager.kt:630-741 | a summary of the range table: status setters accept 0..1, YUV format 0..2, mirror/flip 0..3, output frame rate anything |
| KotlinText.DigitChar | app/src/main/java/com/example/ircmd_handle/DeviceConfig.kt:22 | the digit character for d has digit value d |
| KotlinText.NatToString | app/src/main/java/com/example/ircmd_handle/DeviceConfig.kt:22 | a canonical numeral (digits only, no leading zero) whose value is the number |
| KotlinText.IntToString | app/src/main/java/com/example/ircmd_handle/DeviceConfig.kt:22 | a minus sign exactly for negative values, digits otherwise |
| KotlinText.ToInt | app/src/main/java/com/example/ircmd_handle/DeviceConfig.kt:31-35 | the sign of the accepted text matches the sign of the value, and sign-only text is rejected |
| KotlinText.ToIntOfToString | app/src/main/java/com/example/ircmd_handle/DeviceConfig.kt:22-35 | toInt reads back every Int that toString writes |
| KotlinText.ToStringOfToInt | app/src/main/java/com/example/ircmd_handle/DeviceConfig.kt:22-35 | canonical text that toInt accepts is exactly what toString writes for its value |
| KotlinText.NumeralUnique | app/src/main/java/com/example/ircmd_handle/DeviceConfig.kt:22 | two canonical numerals with the same value are equal |
| KotlinText.ToIntRejectsMalformed | app/src/main/java/com/example/ircmd_handle/DeviceConfig.kt:31-37 | examples: empty, sign-only, padded and comma-containing text is rejected |
| KotlinText.ToIntAcceptsSignsAndZeros | app/src/main/java/com/example/ircmd_handle/DeviceConfig.kt:31-35 | examples: "+7", "007" and "-0" are accepted |
| KotlinText.ToIntBounds | app/src/main/java/com/example/ircmd_handle/DeviceConfig.kt:31-37 | examples at the boundary: the largest and smallest Int parse; one beyond either bound is rejected |
| KotlinText.Split | app/src/main/java/com/example/ircmd_handle/DeviceConfig.kt:28 | at least one part, no part contains the delimiter, and joining the parts gives back the text |
| KotlinText.SplitJoin | app/src/main/java/com/example/ircmd_handle/DeviceConfig.kt:22-28 | splitting the join of delimiter-free parts gives the parts back |
| DeviceSettings.ToString | app/src/main/java/com/example/ircmd_handle/DeviceConfig.kt:21-23 | the text splits at commas into the five fields' numerals, in declaration order |
| DeviceSettings.ParseAll | app/src/main/java/com/example/ircmd_handle/DeviceConfig.kt:31-35 | succeeds exactly when every part parses, with each part's value |
| DeviceSettings.FromString | app/src/main/java/com/example/ircmd_handle/DeviceConfig.kt:26-41 | a configuration exactly when there are five comma-separated parts that all parse, holding their values; null otherwise |
| DeviceSettings.RoundTrip | app/src/main/java/com/example/ircmd_handle/DeviceConfig.kt:21-41 | fromString(toString(c)) == c for every configuration |
| DeviceSettings.ToStringInjective | app/src/main/java/com/example/ircmd_handle/DeviceConfig.kt:21-23 | different configurations have different texts |
| DeviceSettings.TrailingCommaRejected | app/src/main/java/com/example/ircmd_handle/DeviceConfig.kt:28-29 | a stored text with an extra trailing comma is rejected |
| DeviceSettings.DeviceTypeCombinations | app/src/main/java/com/example/ircmd_handle/DeviceConfig.kt:62-66 | a configuration fits the device-type table exactly for the five listed type/size/fps combinations |
| DeviceSettings.DefaultMatchesDeviceType | app/src/main/java/com/example/ircmd_handle/DeviceConfig.kt:69-75 | the default configuration is a valid MINI2-384 configuration |
| DeviceSettings.SavedStrings | app/src/main/java/com/example/ircmd_handle/DeviceConfig.kt:97-103 | every non-default configuration is saved, and every saved string parses to a configuration held |
| DeviceSettings.Saved | app/src/main/java/com/example/ircmd_handle/DeviceConfig.kt:97-106 | without a store nothing is saved; otherwise only the "configs" key changes, to the saved strings |
| DeviceSettings.SaveLoadRoundTrip | app/src/main/java/com/example/ircmd_handle/DeviceConfig.kt:97-117 | loading what was saved restores a map keyed by product ID that holds the default |
| DeviceSettings.DeviceConfigs.constructor | app/src/main/java/com/example/ircmd_handle/DeviceConfig.kt:78-88 | only the default configuration, no store |
| DeviceSettings.DeviceConfigs.SetConfigs | app/src/main/java/com/example/ircmd_handle/DeviceConfig.kt:79-86 | the new map with the default entry forced in, then saved |
| DeviceSettings.DeviceConfigs.SaveConfigs | app/src/main/java/com/example/ircmd_handle/DeviceConfig.kt:97-106 | the store's "configs" key holds the non-default configurations' texts |
| DeviceSettings.DeviceConfigs.Initialize | app/src/main/java/com/example/ircmd_handle/DeviceConfig.kt:91-94 | attaches the store and loads from it |
| DeviceSettings.DeviceConfigs.LoadConfigs | app/src/main/java/com/example/ircmd_handle/DeviceConfig.kt:109-117 | without a store nothing changes; otherwise the map is the parsable stored configurations by product ID, plus the default |
| DeviceSettings.SetThenReloadRestores | app/src/main/java/com/example/ircmd_handle/DeviceConfig.kt:79-117 | setting a map keyed by product ID and reloading from the store gives back that map with the default |

## Left out

- The Android objects (MediaCodec, MediaMuxer, Surface, TextureView, Bitmap scaling, SharedPreferences) are not modelled as code. Their answers are parameters, and the scaled bitmap is given rather than computed.
- Threads, coroutines, `delay`, atomics and locks are not modelled. Each operation runs to completion on its own.
- Logging, the FPS statistics (floating point), `createOutputFile` and `saveToGallery` (file system and media store) are left out.
- Audio is left out: the audio encoder's existence is tracked, but no audio track is ever added, as in the source.
- `startRecording` returns the `inputSurface` field, which nothing ever assigns. The model returns nothing.
- The native direct-recording entry points and all JNI functions are not modelled as code. Their results are a fixed function of the call (`Native`), so repeated identical calls answer alike.
- The calls to `nativeGetLastError` made when `init` fails only feed logging. They are not recorded.
- `getLastSetBrightness` and `getLastSetContrast` read a field. They are the fields `lastBrightnessValue` and `lastContrastValue` themselves.
- These manager calls pass straight through to the native layer and are not modelled:
  - `isFunctionSupported`, `isFrameRateControlSupported` and `getRegisteredFunctionCount`;
  - `getLastError` and `getLastErrorMessage`;
  - `isInitialized`.
- The singleton `getInstance` is left out; a manager is constructed directly.
- The SDK behind the registry handlers is an oracle (`Sdk`). libircmd.h is not part of this model. The two SDK codes `convertSdkError` distinguishes are taken from test_registry_compile.cpp.
- `logRegisteredFunctions` only logs and is left out.
- The drain loop is driven by a finite list of encoder events. A list that runs out is treated as the encoder reporting "try again later".
- KotlinText.ToInt: accepts only ASCII digits, whereas the JVM also accepts other Unicode decimal digits.
- DeviceSettings.DeviceConfigs.LoadConfigs: when two stored strings share a product ID, the model does not say which one survives. `associateBy` keeps the last in the set's iteration order, which the model does not fix.
- `apply()` writes to the preferences store asynchronously. The model applies the write at once.
- Recorder.VideoRecorder.EncodeBitmapFrame: requires the scaled copy of an oversized frame to be a valid bitmap of the recording size (also `TickFits` for the capture loop). With a recording size of zero or less, `createScaledBitmap` at VideoRecorder.kt:629-630 throws and the catch at line 619 drops the frame; that case is not modelled.
- Recorder.VideoRecorder.Configure: keeps `Paced` only when called before the session's first frame. A rate change in mid-session respaces the later timestamps, as in the source, and the model then promises no spacing for that session.
