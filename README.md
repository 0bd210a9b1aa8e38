# urban_meme video encoder: a verified model

The Android side of the urban_meme app turns a list of still images into an
MP4 video. A Flutter method channel hands `MainActivity` a `createVideo` call
with the image paths, an output path and optional width, height and frames per
second. `encodeWithSurface` then does the work:

- it creates and starts an H.264 encoder (MediaCodec) with an input Surface,
  and creates a muxer (MediaMuxer) on the output path;
- it draws every image that decodes onto the surface;
- after each image it drains the encoder's output queue: the format-changed
  answer adds the track and starts the muxer, and every other buffer is
  written (when it holds data and the muxer has started) and then released;
- it signals the end of input and returns `true`;
- on every way out of its `try` block, a `finally` block stops and releases
  the encoder, the muxer (only if it was started) and the surface.

This project models that code in Dafny and proves properties of the model.

## How the model is built

- `wrappers.dfy`: `Option`, used for absent arguments, null results and
  exception messages.
- `media.dfy`: the Android collaborators. The decoder, the surface, the encoder
  and the muxer are one class, `MediaStack`. It answers from a script (`Env`):
  - which paths decode;
  - what `dequeueOutputBuffer` answers after each drawn frame;
  - the platform's value of `INFO_OUTPUT_FORMAT_CHANGED` (-2 on Android);
  - at most one call that throws, with its kind (an Exception, or another
    Throwable such as an OutOfMemoryError) and its message.

  Every call that completes is appended to a log of `Event`s.
  `BufferInfo` is a class, because the encoder fills it in place and the
  coordinator overwrites its timestamp in place.
- `coordinator.dfy`: `encodeWithSurface`, in two forms:
  - `Run`, a declarative description of a whole run. It gives the calls made
    when nothing throws (`SetupTrace`, then `TryTrace`). That list is cut short
    at the call that throws. Then come the teardown calls of the `finally`
    block, which include the muxer's calls exactly when the calls made so far
    include the muxer's start.
  - `EncodeWithSurface`, the imperative coordinator. It has the frame loop, the
    drain loop, the locals `trackIndex` and `muxerStarted`, and the
    try/finally. It is split into one method per block of the source. Each
    method is proved to make exactly the calls `Run` describes and to end the
    same way.
- `drain.dfy`, `frames.dfy` and `run.dfy`: properties of one drain, of the
  frame loop, and of whole runs.
- `dispatch.dfy`: the `createVideo` handler, with its defaults and its three
  kinds of reply.

`Run` follows the source, not the intended design:

- the run reports success whether or not the muxer ever started;
- after the end-of-input signal there is no final drain (line 103 is only a
  comment);
- a zero fps makes the Long division throw before the `try`, so no teardown
  runs. The ArithmeticException carries the message "divide by zero", which
  is what Android's runtime gives it.

With Android's negative format-changed code, the format branch sits inside
`while (outputBufferIndex >= 0)` and can never be taken. The model proves the
consequence: such a run never adds a track, never starts or writes to the
muxer, and, when no call throws and fps is not zero, still returns `true`.

## Model

| member | source | states |
|---|---|---|
| Wrappers.Option.GetOr | android/app/src/main/kotlin/com/example/urban_meme/MainActivity.kt:23-25 | a present argument is used as given; an absent one is replaced by the default |
| Media.BufferInfo.constructor | android/app/src/main/kotlin/com/example/urban_meme/MainActivity.kt:63 | a fresh BufferInfo holds size 0 and timestamp 0 |
| Media.MediaStack.constructor | android/app/src/main/kotlin/com/example/urban_meme/MainActivity.kt:55-60 | the collaborators of a run start with an empty call log, no call attempted, no frame drawn and no track added; they answer from the run's script |
| Media.MediaStack.Call | android/app/src/main/kotlin/com/example/urban_meme/MainActivity.kt:55-113 | every call without a result (lines 55-58 and 60 of the setup, 85, 93 and 101 in the `try`, and the teardown at 107-113) throws exactly when it is the scripted faulty call; it is logged only if it completes, and it always counts as attempted |
| Media.MediaStack.DecodeFile | android/app/src/main/kotlin/com/example/urban_meme/MainActivity.kt:68 | decoding yields the path's bitmap, or null for a path that does not decode |
| Media.MediaStack.DrawFrame | android/app/src/main/kotlin/com/example/urban_meme/MainActivity.kt:69-74 | drawing a frame hands the encoder a new frame: the draw count goes up and the next dequeues answer from that frame's script, from its start |
| Media.MediaStack.DequeueOutputBuffer | android/app/src/main/kotlin/com/example/urban_meme/MainActivity.kt:81 | a dequeue gives the script's next answer, or "try again later" once the script is used up; a buffer index fills BufferInfo's size and timestamp in place |
| Media.MediaStack.AddTrack | android/app/src/main/kotlin/com/example/urban_meme/MainActivity.kt:84 | the muxer numbers its tracks from 0 in the order they are added |
| Media.MediaStack.GetOutputBuffer | android/app/src/main/kotlin/com/example/urban_meme/MainActivity.kt:88 | the buffer is non-null only for the index dequeued last, as the script says |
| Media.MediaStack.WriteSampleData | android/app/src/main/kotlin/com/example/urban_meme/MainActivity.kt:91 | the sample records the track and the size and timestamp BufferInfo holds at the moment of the call |
| Coordinator.FrameDurationUs | android/app/src/main/kotlin/com/example/urban_meme/MainActivity.kt:64 | Long division truncating toward zero: d * fps is between 0 and one second, and one more step of fps would pass one second |
| Coordinator.SetupTrace | android/app/src/main/kotlin/com/example/urban_meme/MainActivity.kt:55-60 | the calls before the `try`, in source order: create the encoder, configure it with width, height and fps, create its input surface, start it, create the muxer on the output path; `NoTeardownBeforeTry` proves a fault here leaves no teardown |
| Coordinator.WriteOf | android/app/src/main/kotlin/com/example/urban_meme/MainActivity.kt:89-91 | the guarded write of the buffer branch: one sample of the buffer's size stamped `frame * frameDurationUs` when the buffer is non-null, its size positive and the muxer started, nothing otherwise; `HandleOutputWrites` states the condition per answer |
| Coordinator.HandleOutput | android/app/src/main/kotlin/com/example/urban_meme/MainActivity.kt:83-94 | one pass of the drain-loop body on a non-negative answer: the format branch adds track number `tracks` and starts the muxer, any other index gets the buffer, the guarded write and the release; `HandleOutputReleases` and `HandleOutputWrites` state what it releases and writes |
| Coordinator.DrainAfter | android/app/src/main/kotlin/com/example/urban_meme/MainActivity.kt:82-96 | the drain loop from a given answer on: handle each answer and dequeue without waiting, until the first negative answer; `AcceptedStopsAtFirstNegative`, `DrainDequeueTimeouts`, `DrainReleasesEachBuffer` and `DrainWritesPayload` are its properties |
| Coordinator.FrameStep | android/app/src/main/kotlin/com/example/urban_meme/MainActivity.kt:68-98 | one frame: a path that decodes to null makes only the decode and changes nothing else, otherwise decode, draw, the first dequeue with timeout 10000 and the drain on that draw's script; `FrameDraws` and `FrameDequeueTimeouts` are its properties |
| Coordinator.FramesFrom | android/app/src/main/kotlin/com/example/urban_meme/MainActivity.kt:67-99 | the frame loop over the list positions from a given one on, each frame under its own list position whether or not earlier paths decoded; `FramesDrawDecodable` and `FramesStampsInOrder` are its properties |
| Coordinator.TryTrace | android/app/src/main/kotlin/com/example/urban_meme/MainActivity.kt:66-105 | the calls of the `try` block when none throws: the frame loop over the whole list, then the end-of-input signal, and no final drain |
| Coordinator.Teardown | android/app/src/main/kotlin/com/example/urban_meme/MainActivity.kt:106-114 | the calls of the `finally` block: encoder stop and release, muxer stop and release only when the muxer was started, surface release; `TeardownOnEveryTryExit` proves every exit from the `try` runs it |
| Coordinator.Run | android/app/src/main/kotlin/com/example/urban_meme/MainActivity.kt:46-115 | a whole run: a setup fault or a zero fps throws with no teardown; a fault in the `try` cuts its calls short and the full teardown follows; a fault in the teardown ends the run there; otherwise it returns `true`. `EncodeWithSurface` is proved to follow it, and `RunOutcome` and the other run lemmas are its properties |
| Coordinator.AddTrackAndStart | android/app/src/main/kotlin/com/example/urban_meme/MainActivity.kt:84-86 | the format branch logs addTrack and then the muxer's start, sets `trackIndex` to the new track number and sets `muxerStarted`; if one of them throws, it escapes after the calls it made |
| Coordinator.WriteAndRelease | android/app/src/main/kotlin/com/example/urban_meme/MainActivity.kt:88-93 | the buffer branch gets the buffer; it writes a sample stamped `frame * frameDurationUs` exactly when the buffer is non-null, its size is positive and the muxer has started; it then releases the buffer |
| Coordinator.HandleOutputBuffer | android/app/src/main/kotlin/com/example/urban_meme/MainActivity.kt:83-94 | an index equal to the format-changed code takes the format branch; any other index takes the buffer branch; the locals and counts it leaves are those of `HandleOutput` |
| Coordinator.DrainIteration | android/app/src/main/kotlin/com/example/urban_meme/MainActivity.kt:83-95 | one loop body handles the answer in hand and then dequeues with timeout 0, moving to the script's next answer |
| Coordinator.DrainEncoder | android/app/src/main/kotlin/com/example/urban_meme/MainActivity.kt:81-96 | the drain dequeues with timeout 10000, then makes exactly the calls of `DrainAfter` on the frame's script; if a call throws, the drain escapes with a prefix of those calls |
| Coordinator.DrawAndDrain | android/app/src/main/kotlin/com/example/urban_meme/MainActivity.kt:69-96 | a decoded frame is drawn, then drained on the script of that draw |
| Coordinator.FrameIteration | android/app/src/main/kotlin/com/example/urban_meme/MainActivity.kt:67-98 | one frame-loop iteration makes exactly the calls of `FrameStep`: only the decode for a path that decodes to null, otherwise the decode, the draw and the drain |
| Coordinator.SetUp | android/app/src/main/kotlin/com/example/urban_meme/MainActivity.kt:55-60 | the calls before the `try` are exactly `SetupTrace` when none throws; when one throws, only the calls before it are made and the run ends with that call's Throwable, no later setup call being made |
| Coordinator.TryBlock | android/app/src/main/kotlin/com/example/urban_meme/MainActivity.kt:66-105 | the `try` block makes the calls of the frame loop over every list position and then signals end of input; if a call throws, it escapes after a prefix of those calls, and `muxerStarted` tells whether the muxer's start is among the calls made |
| Coordinator.FinallyBlock | android/app/src/main/kotlin/com/example/urban_meme/MainActivity.kt:106-114 | the teardown: stop and release the encoder, then stop and release the muxer only if it was started, then release the surface; a teardown call that throws ends the block and replaces the pending outcome; otherwise the pending exception is rethrown, or `true` is returned |
| Coordinator.EncodeWithSurface | android/app/src/main/kotlin/com/example/urban_meme/MainActivity.kt:46-115 | the imperative coordinator makes exactly the calls of `Run` and ends as `Run` says, on every fault position and every script |
| DrainProperties.AcceptedStopsAtFirstNegative | android/app/src/main/kotlin/com/example/urban_meme/MainActivity.kt:82 | the answers a drain handles are the script's answers from its start up to the first negative one: a contiguous slice, all non-negative, and the answer after them is negative |
| DrainProperties.HandleOutputReleases | android/app/src/main/kotlin/com/example/urban_meme/MainActivity.kt:87-94 | one answer releases its index once, whether or not it was written, unless it is the format code |
| DrainProperties.HandleOutputWrites | android/app/src/main/kotlin/com/example/urban_meme/MainActivity.kt:89-91 | one answer writes a sample, of the buffer's size, exactly when it is not the format code, the buffer is non-null, the size is positive and the muxer has started |
| DrainProperties.DrainDequeueTimeouts | android/app/src/main/kotlin/com/example/urban_meme/MainActivity.kt:95 | after the first dequeue, a drain dequeues once more, with timeout 0, for each answer it handles |
| DrainProperties.DrainReleasesEachBuffer | android/app/src/main/kotlin/com/example/urban_meme/MainActivity.kt:93 | the buffers a drain releases are exactly the buffer indices it was handed, each once and in order, with the format code left out |
| DrainProperties.DrainWritesPayload | android/app/src/main/kotlin/com/example/urban_meme/MainActivity.kt:89 | in a drain without the format code, the sample sizes written are exactly those of the non-null, non-empty buffers when the muxer has started, and none otherwise |
| DrainProperties.DrainSampleStamps | android/app/src/main/kotlin/com/example/urban_meme/MainActivity.kt:90 | every sample of one drain is non-empty and stamped with the same time: the frame's list position times the frame duration |
| FrameProperties.DrainCallsOnly | android/app/src/main/kotlin/com/example/urban_meme/MainActivity.kt:81-96 | a drain makes only dequeue, buffer, track, muxer-start and write calls: no draw, no teardown and no end-of-input signal |
| FrameProperties.DrainLeavesMuxerIdle | android/app/src/main/kotlin/com/example/urban_meme/MainActivity.kt:82-83 | with a negative format code and the muxer not started, a drain leaves the muxer untouched and not started |
| FrameProperties.DrainWritesAfterStart | android/app/src/main/kotlin/com/example/urban_meme/MainActivity.kt:89 | when `muxerStarted` reflects the calls made so far, a drain writes only after the muxer's start, and leaves `muxerStarted` reflecting the calls made |
| FrameProperties.FrameDequeueTimeouts | android/app/src/main/kotlin/com/example/urban_meme/MainActivity.kt:81 | a decoded frame is dequeued first with timeout 10000 and then with timeout 0 once per handled answer; a frame whose decode is null is never dequeued |
| FrameProperties.FrameDraws | android/app/src/main/kotlin/com/example/urban_meme/MainActivity.kt:68-74 | a frame is drawn once, under its own list position, exactly when its path decodes |
| FrameProperties.FrameLeavesMuxerIdle | android/app/src/main/kotlin/com/example/urban_meme/MainActivity.kt:67-98 | with a negative format code and the muxer not started, one frame never touches the muxer |
| FrameProperties.FrameCallsBeforeTeardown | android/app/src/main/kotlin/com/example/urban_meme/MainActivity.kt:67-98 | a frame makes no teardown call and does not signal end of input |
| FrameProperties.FrameWritesAfterStart | android/app/src/main/kotlin/com/example/urban_meme/MainActivity.kt:89 | one frame writes only after the muxer's start, and keeps `muxerStarted` in step with the calls made |
| FrameProperties.FrameStamps | android/app/src/main/kotlin/com/example/urban_meme/MainActivity.kt:90 | every sample of a frame is non-empty and stamped with that frame's time; a frame whose decode is null writes nothing |
| FrameProperties.FramesDrawDecodable | android/app/src/main/kotlin/com/example/urban_meme/MainActivity.kt:67-74 | the frames drawn are exactly the list positions whose path decodes, in list order; skipped positions keep the numbering of the rest |
| FrameProperties.FramesLeaveMuxerIdle | android/app/src/main/kotlin/com/example/urban_meme/MainActivity.kt:67-99 | with a negative format code, the frame loop never touches the muxer |
| FrameProperties.FramesBeforeTeardown | android/app/src/main/kotlin/com/example/urban_meme/MainActivity.kt:67-99 | the frame loop makes no teardown call and does not signal end of input |
| FrameProperties.FramesWritesAfterStart | android/app/src/main/kotlin/com/example/urban_meme/MainActivity.kt:67-99 | the frame loop writes only after the muxer's start |
| FrameProperties.FramesStampsInOrder | android/app/src/main/kotlin/com/example/urban_meme/MainActivity.kt:90 | for a non-negative frame duration, the samples of the frame loop have non-decreasing timestamps, none earlier than the first position's time |
| FrameProperties.FramesStampedAtDecodedFrames | android/app/src/main/kotlin/com/example/urban_meme/MainActivity.kt:67-90 | every sample of the frame loop is non-empty and stamped with position times frame duration, for a position whose path decodes |
| RunProperties.RunAfterSetup | android/app/src/main/kotlin/com/example/urban_meme/MainActivity.kt:66-114 | past the setup, a run is the `try` block's calls up to its exit, then the teardown those calls call for; after a fault in the `try` the whole teardown follows, and the run stops early only when the `try` completed and a teardown call throws |
| RunProperties.NoTeardownBeforeTry | android/app/src/main/kotlin/com/example/urban_meme/MainActivity.kt:55-64 | a fault during setup, or a zero fps, throws before the `try` and makes no teardown call; a zero fps throws an Exception with the message "divide by zero" |
| RunProperties.DoneBeforeTeardown | android/app/src/main/kotlin/com/example/urban_meme/MainActivity.kt:66-105 | no call the `try` block makes is a teardown call |
| RunProperties.TeardownOnEveryTryExit | android/app/src/main/kotlin/com/example/urban_meme/MainActivity.kt:106-114 | once the `try` is entered, every exit runs the teardown in order: encoder stop and release, then muxer stop and release exactly if the calls before include the muxer's start, then the surface's release; after an exception in the `try` the whole teardown runs, and it is cut short only when the `try` completed and one of the teardown's own calls throws |
| RunProperties.WritesOnlyAfterMuxerStart | android/app/src/main/kotlin/com/example/urban_meme/MainActivity.kt:89 | in every run, every sample written comes after the muxer's start |
| RunProperties.SampleStampsInOrder | android/app/src/main/kotlin/com/example/urban_meme/MainActivity.kt:90 | for a positive fps, the timestamps of the samples a run writes are non-decreasing |
| RunProperties.SampleStampsAreFrameTimes | android/app/src/main/kotlin/com/example/urban_meme/MainActivity.kt:90 | every sample a run writes is non-empty and stamped `index * frameDurationUs` for the list position of a path that decodes |
| RunProperties.NegativeFormatCodeLeavesMuxerUnused | android/app/src/main/kotlin/com/example/urban_meme/MainActivity.kt:82-86 | with a negative format-changed code, no run adds a track or starts, writes to, stops or releases the muxer |
| RunProperties.AndroidRunSucceedsWithoutSamples | android/app/src/main/kotlin/com/example/urban_meme/MainActivity.kt:101-105 | on Android's code -2 with no fault, a run returns `true` although the muxer never started and no sample was written |
| RunProperties.RunOutcome | android/app/src/main/kotlin/com/example/urban_meme/MainActivity.kt:101-105 | a run returns, and then `true`, only after signalling end of input with no call throwing. Otherwise it throws the "divide by zero" Exception or what the faulty call threw, kind and message alike. It returns `true` whenever the fps is non-zero and no call of the `try` or the teardown throws |
| Dispatch.RouteCall | android/app/src/main/kotlin/com/example/urban_meme/MainActivity.kt:20-41 | the handler's decision: not-implemented for another method, INVALID_ARGS for a missing path argument, otherwise an encoding with the defaulted width, height and fps; `EncodesExactlyCompleteCalls` and `RefusedCallsTouchNothing` are its properties |
| Dispatch.Deliver | android/app/src/main/kotlin/com/example/urban_meme/MainActivity.kt:30-35 | a returned value becomes `success` with it; an Exception becomes VIDEO_ERROR with its message; any other Throwable gets past `catch (e: Exception)`, so the call gets no reply; `EncodingReply` is its property |
| Dispatch.Handle | android/app/src/main/kotlin/com/example/urban_meme/MainActivity.kt:19-43 | a call handled end to end: an immediate reply with no collaborator call, or the reply to the run the call starts together with that run's calls; `OnMethodCall` is proved to follow it |
| Dispatch.OnMethodCall | android/app/src/main/kotlin/com/example/urban_meme/MainActivity.kt:19-43 | the handler replies and calls the collaborators exactly as `Handle` describes |
| Dispatch.EncodesExactlyCompleteCalls | android/app/src/main/kotlin/com/example/urban_meme/MainActivity.kt:20-27 | a call starts an encoding exactly when it is `createVideo` with both frame paths and an output path; these are passed on as given, and width, height and fps are taken as given or default to 1280, 720 and 2 |
| Dispatch.RefusedCallsTouchNothing | android/app/src/main/kotlin/com/example/urban_meme/MainActivity.kt:37-41 | a refused call makes no collaborator call; it gets not-implemented for another method, and INVALID_ARGS "Missing arguments" for a missing argument |
| Dispatch.EncodingReply | android/app/src/main/kotlin/com/example/urban_meme/MainActivity.kt:30-35 | an encoding call gets at most one reply: success with `true` exactly when the run returns; VIDEO_ERROR with the message exactly when it throws an Exception; no reply exactly when it throws another Throwable |
| Dispatch.AndroidDefaultCallSucceedsWithoutSamples | android/app/src/main/kotlin/com/example/urban_meme/MainActivity.kt:23-35 | a `createVideo` call with only the paths, on Android with no fault, is answered with success although no sample was written |

## Left out

- Threads and the Flutter channel: `Thread { }.start()` and `runOnUiThread` only
  move the reply between threads. The reply is modelled as delivered once, in order.
- Android internals: the behaviour of MediaCodec, MediaMuxer, the Surface,
  Canvas and BitmapFactory is not modelled. They appear only as scripted
  answers and as the call log.
- The format keys at lines 47-53 (MIME type, colour format, bit rate 2500000,
  frame rate, I-frame interval 1) are configuration passed to the platform.
  The model logs only the `Configure` call with width, height and fps.
- Pixels: scaling, drawing and the encoded bytes are not modelled. Lines
  69-74 become one `Draw` call, and the `recycle()` calls at lines 97-98 are
  not logged.
- A Throwable that is not an Exception ends the worker thread uncaught. The
  model records only that the call gets no reply (`Dispatch.Reply.NoReply`).
  What the platform then does with the thread or the process is not modelled.
- `encoder.outputFormat` at line 84 is folded into the `AddTrack` call.
- Bitmap decoding depends on the path only, so the same path decodes the same
  way each time it appears.
- The timestamp dequeueOutputBuffer writes into BufferInfo is modelled, but
  it never reaches the log: line 90 overwrites it before every write.
- Argument types: the model takes the arguments as already typed, with
  `None` for absent or null. In Kotlin, an `outputPath`, `width`, `height` or
  `fps` of the wrong type makes the handler throw a ClassCastException at
  lines 21-25. The reply the channel plumbing then sends is not modelled. A `framePaths` list with elements that are not strings gets through
  the erased generic cast. It throws a ClassCastException only at the `for` of
  line 67, inside the `try`, so the teardown runs and the reply is VIDEO_ERROR.
- Long overflow: `index * frameDurationUs` cannot overflow a Long for any list
  Kotlin can hold. The model therefore uses unbounded integers.
- Features the code does not have are not modelled either: a final flush
  drain, a check of the end-of-stream flag, success tied to `muxerStarted`,
  a guard that adds the track only once, and 16-pixel alignment.
- At most one call of a run throws (`Env.fault`). In Kotlin, a teardown call
  can also throw after the `try` has thrown. That second exception replaces
  the first, and the rest of the teardown is skipped. `Run` never reaches
  this case. `Coordinator.FinallyBlock` handles it: a teardown call that
  throws ends the block and replaces the pending outcome.
- DrainProperties.DrainWritesPayload is stated only for drains in which no
  answer is the format code. For an answer of any kind,
  DrainProperties.HandleOutputWrites states when it writes.
- RunProperties.SampleStampsInOrder is stated for a positive fps only. A
  negative fps gives a negative frame duration at line 64, and the timestamps
  then decrease. For any non-zero fps, RunProperties.SampleStampsAreFrameTimes
  still states each sample's time.
- The imperative coordinator is split into one method per block of the source
  (the drain-loop body, the drain, the frame-loop body, the `try`, the
  `finally`). This keeps each proof small and does not change the calls made.
