/**
 * The frame-to-video coordinator `encodeWithSurface`: it sets up the encoder,
 * its input surface and the muxer, draws every decodable frame of the list on
 * the surface, drains the encoder's output into the muxer after each frame,
 * and tears everything down in a `finally` block.
 *
 * `Run` specifies a whole run declaratively: the calls a run makes when no call
 * throws (`SetupTrace` then `TryTrace`), cut short at the call that throws, then
 * the teardown the `finally` block performs. `EncodeWithSurface` is the
 * imperative coordinator, proved to produce exactly that log and outcome.
 */
module Coordinator {
  import opened Wrappers
  import opened Media

  const MICROS_PER_SECOND: int := 1000000
  /** Timeout of the first dequeueOutputBuffer after a frame is drawn. */
  const FIRST_DEQUEUE_TIMEOUT_US: int := 10000
  /** Timeout of every further dequeueOutputBuffer of the same drain. */
  const NEXT_DEQUEUE_TIMEOUT_US: int := 0
  /** The message of the ArithmeticException that Android's runtime throws for a Long division by zero. */
  const DIVIDE_BY_ZERO_MESSAGE: string := "divide by zero"

  /** The arguments of encodeWithSurface. */
  datatype Request = Request(framePaths: seq<string>, outputPath: string, width: int, height: int, fps: int)

  /** How encodeWithSurface ends: it returns a Boolean or throws a Throwable of some kind. */
  datatype Outcome = Returned(value: bool) | Threw(kind: Kind, message: Option<string>)

  /** What a run that reached the scripted fault throws. */
  function Raised(env: Env): Outcome
    requires env.fault.Some?
  {
    Threw(env.fault.value.kind, env.fault.value.message)
  }

  /** The outcome of a run and the calls it made. */
  datatype Execution = Execution(outcome: Outcome, log: seq<Event>)

  /**
   * frameDurationUs = 1000000L / fps, a Long division that truncates toward
   * zero: the result has the sign of fps and is the largest multiple count
   * that does not exceed one second.
   */
  function FrameDurationUs(fps: int): (d: int)
    requires fps != 0
    ensures 0 <= d * fps <= MICROS_PER_SECOND < d * fps + (if fps > 0 then fps else -fps)
  {
    if fps > 0 then MICROS_PER_SECOND / fps else -(MICROS_PER_SECOND / -fps)
  }

  /**
   * What the coordinator knows between two calls: its locals `trackIndex` and
   * `muxerStarted`, with the number of tracks the muxer has and of frames the
   * surface has received.
   */
  datatype Progress = Progress(trackIndex: int, muxerStarted: bool, tracks: nat, draws: nat)

  const Initial: Progress := Progress(-1, false, 0, 0)

  /** The calls one piece of the coordinator makes and the progress it leaves. */
  datatype Step = Step(events: seq<Event>, after: Progress)

  /**
   * The sample the buffer branch writes for the answer `r` of frame `frame`:
   * one, stamped with the frame's time, when the buffer is non-null, its size
   * positive and the muxer started; none otherwise.
   */
  function WriteOf(r: Dequeued, frame: nat, dur: int, trackIndex: int, muxerStarted: bool): seq<Event> {
    if r.bufferPresent && r.size > 0 && muxerStarted then [WriteSample(trackIndex, frame * dur, r.size)] else []
  }

  /** The body of the drain loop for a non-negative dequeue answer `r` of frame `frame`. */
  function HandleOutput(r: Dequeued, frame: nat, dur: int, fmt: int, f: Progress): Step {
    if r.index == fmt then
      Step([AddTrack, StartMuxer], f.(trackIndex := f.tracks, muxerStarted := true, tracks := f.tracks + 1))
    else
      Step([GetOutputBuffer(r.index)] + WriteOf(r, frame, dur, f.trackIndex, f.muxerStarted) + [ReleaseOutput(r.index)], f)
  }

  /** The rest of a drain once answer `j` of the script `rs` is in hand. */
  function DrainAfter(rs: seq<Dequeued>, j: nat, frame: nat, dur: int, fmt: int, f: Progress): Step
    decreases |rs| - j
  {
    var r := DequeueAt(rs, j);
    if r.index < 0 then Step([], f)
    else
      var h := HandleOutput(r, frame, dur, fmt, f);
      var rest := DrainAfter(rs, j + 1, frame, dur, fmt, h.after);
      Step(h.events + [DequeueOutput(NEXT_DEQUEUE_TIMEOUT_US)] + rest.events, rest.after)
  }

  /** One iteration of the frame loop, for the path at list position `frame`. */
  function FrameStep(env: Env, path: string, frame: nat, dur: int, f: Progress): Step {
    if env.Decode(path).None? then Step([DecodeFile(path)], f)
    else
      var d := DrainAfter(env.Drain(f.draws), 0, frame, dur, env.formatChanged, f.(draws := f.draws + 1));
      Step([DecodeFile(path), Draw(frame), DequeueOutput(FIRST_DEQUEUE_TIMEOUT_US)] + d.events, d.after)
  }

  /** The frame loop from list position `i` on. */
  function FramesFrom(env: Env, paths: seq<string>, i: nat, dur: int, f: Progress): seq<Event>
    decreases |paths| - i
  {
    if i >= |paths| then []
    else
      var s := FrameStep(env, paths[i], i, dur, f);
      s.events + FramesFrom(env, paths, i + 1, dur, s.after)
  }

  /** The calls before the `try`: encoder creation, configuration and start, then the muxer. */
  function SetupTrace(req: Request): seq<Event> {
    [CreateEncoder, Configure(req.width, req.height, req.fps), CreateInputSurface, StartEncoder,
     CreateMuxer(req.outputPath)]
  }

  /** The calls of the `try` block when none throws. */
  function TryTrace(req: Request, env: Env): seq<Event>
    requires req.fps != 0
  {
    FramesFrom(env, req.framePaths, 0, FrameDurationUs(req.fps), Initial) + [SignalEndOfInput]
  }

  /** The calls of the `finally` block, the muxer's guarded by `muxerStarted`. */
  function Teardown(muxerStarted: bool): seq<Event> {
    [StopEncoder, ReleaseEncoder] + (if muxerStarted then [StopMuxer, ReleaseMuxer] else []) + [ReleaseSurface]
  }

  /**
   * A whole run of encodeWithSurface. A fault before the `try` (or the division
   * by a zero fps) ends the run with no teardown; a fault inside the `try` cuts
   * its calls short and the teardown follows, with the muxer stopped when the
   * calls made so far include its start; a fault in the teardown ends it there.
   * Otherwise the run returns true.
   */
  function Run(req: Request, env: Env): Execution {
    var setup := SetupTrace(req);
    if env.FaultBelow(|setup|) then
      Execution(Raised(env), setup[..env.fault.value.step])
    else if req.fps == 0 then
      Execution(Threw(Exception, Some(DIVIDE_BY_ZERO_MESSAGE)), setup)
    else
      var body := setup + TryTrace(req, env);
      if env.FaultBelow(|body|) then
        var done := body[..env.fault.value.step];
        Execution(Raised(env), done + Teardown(StartMuxer in done))
      else
        var full := body + Teardown(StartMuxer in body);
        if env.FaultBelow(|full|) then Execution(Raised(env), full[..env.fault.value.step])
        else Execution(Returned(true), full)
  }

  /** The call log `log` is the start of `whole`, cut short before its end. */
  ghost predicate CutShort(whole: seq<Event>, log: seq<Event>) {
    |log| < |whole| && whole[..|log|] == log
  }

  /** A `try` block that ran to its end: it made exactly the `planned` calls and none threw. */
  ghost predicate Completed(env: Env, planned: seq<Event>, log: seq<Event>, calls: nat) {
    log == planned && calls == |log| && !env.FaultBelow(calls)
  }

  /**
   * A `try` block left by an exception: the calls made are the start of the
   * `planned` ones, the next call threw, and `failure` holds its message.
   */
  ghost predicate Escaped(env: Env, planned: seq<Event>, log: seq<Event>, calls: nat, failure: Option<Outcome>) {
    CutShort(planned, log) && calls == |log| + 1 && env.FailsAt(|log|) && failure == Some(Raised(env))
  }

  /**
   * The body of the drain loop, lines 83-94, for the non-negative answer
   * `outputBufferIndex` just dequeued: the format-changed branch adds the
   * track and starts the muxer; any other index writes the sample when the
   * buffer is non-null, its size positive and the muxer started, and is released.
   */
  method HandleOutputBuffer(m: MediaStack, info: BufferInfo, frame: nat, frameDurationUs: int,
                            outputBufferIndex: int, trackIndex0: int, muxerStarted0: bool)
    returns (failure: Option<Outcome>, trackIndex: int, muxerStarted: bool)
    requires outputBufferIndex >= 0 && outputBufferIndex == m.current.index && info.size == m.current.size
    requires m.calls == |m.log| && !m.env.FaultBelow(m.calls)
    requires muxerStarted0 == (StartMuxer in m.log)
    modifies m`log, m`calls, m`tracks, info`presentationTimeUs
    ensures muxerStarted == (StartMuxer in m.log)
    ensures var h := HandleOutput(m.current, frame, frameDurationUs, m.env.formatChanged,
                                  Progress(trackIndex0, muxerStarted0, old(m.tracks), m.draws));
            (failure.None? ==> Completed(m.env, old(m.log) + h.events, m.log, m.calls)
                               && Progress(trackIndex, muxerStarted, m.tracks, m.draws) == h.after)
            && (failure.Some? ==> Escaped(m.env, old(m.log) + h.events, m.log, m.calls, failure))
  {
    if outputBufferIndex == m.env.formatChanged {
      failure, trackIndex, muxerStarted := AddTrackAndStart(m, trackIndex0, muxerStarted0);
    } else {
      trackIndex, muxerStarted := trackIndex0, muxerStarted0;
      failure := WriteAndRelease(m, info, frame, frameDurationUs, outputBufferIndex, trackIndex, muxerStarted);
    }
  }

  /** The format-changed branch, lines 84-86: add the encoder's track to the muxer and start it. */
  method AddTrackAndStart(m: MediaStack, trackIndex0: int, muxerStarted0: bool)
    returns (failure: Option<Outcome>, trackIndex: int, muxerStarted: bool)
    requires m.calls == |m.log| && !m.env.FaultBelow(m.calls)
    requires muxerStarted0 == (StartMuxer in m.log)
    modifies m`log, m`calls, m`tracks
    ensures muxerStarted == (StartMuxer in m.log)
    ensures failure.None? ==> Completed(m.env, old(m.log) + [AddTrack, StartMuxer], m.log, m.calls)
                              && trackIndex == old(m.tracks) && muxerStarted && m.tracks == old(m.tracks) + 1
    ensures failure.Some? ==> Escaped(m.env, old(m.log) + [AddTrack, StartMuxer], m.log, m.calls, failure)
  {
    trackIndex, muxerStarted := trackIndex0, muxerStarted0;
    failure := None;
    var track, thrown := m.AddTrack();
    if thrown {
      return Some(Raised(m.env)), trackIndex, muxerStarted;
    }
    trackIndex := track;
    thrown := m.Call(StartMuxer);
    if thrown {
      assert old(m.log) + [AddTrack, StartMuxer] == m.log + [StartMuxer];
      return Some(Raised(m.env)), trackIndex, muxerStarted;
    }
    muxerStarted := true;
  }

  /**
   * The output-buffer branch, lines 88-93: write the sample when the buffer is
   * non-null, its size positive and the muxer started, stamped with the
   * frame's time, then release the buffer.
   */
  method WriteAndRelease(m: MediaStack, info: BufferInfo, frame: nat, frameDurationUs: int,
                         outputBufferIndex: int, trackIndex: int, muxerStarted: bool)
    returns (failure: Option<Outcome>)
    requires outputBufferIndex >= 0 && outputBufferIndex == m.current.index && info.size == m.current.size
    requires m.calls == |m.log| && !m.env.FaultBelow(m.calls)
    requires muxerStarted == (StartMuxer in m.log)
    modifies m`log, m`calls, info`presentationTimeUs
    ensures muxerStarted == (StartMuxer in m.log)
    ensures var write := WriteOf(m.current, frame, frameDurationUs, trackIndex, muxerStarted);
            var planned := old(m.log) + ([GetOutputBuffer(outputBufferIndex)] + write + [ReleaseOutput(outputBufferIndex)]);
            (failure.None? ==> Completed(m.env, planned, m.log, m.calls))
            && (failure.Some? ==> Escaped(m.env, planned, m.log, m.calls, failure))
  {
    ghost var write := WriteOf(m.current, frame, frameDurationUs, trackIndex, muxerStarted);
    ghost var planned := m.log + ([GetOutputBuffer(outputBufferIndex)] + write + [ReleaseOutput(outputBufferIndex)]);
    failure := None;
    var outputBuffer, thrown := m.GetOutputBuffer(outputBufferIndex);
    if thrown {
      CutShortAppend(old(m.log), [GetOutputBuffer(outputBufferIndex)] + write + [ReleaseOutput(outputBufferIndex)]);
      return Some(Raised(m.env));
    }
    assert planned == m.log + (write + [ReleaseOutput(outputBufferIndex)]);
    if outputBuffer && info.size > 0 && muxerStarted {
      info.presentationTimeUs := frame * frameDurationUs;
      thrown := m.WriteSampleData(trackIndex, info);
      if thrown {
        CutShortAppend(m.log, write + [ReleaseOutput(outputBufferIndex)]);
        return Some(Raised(m.env));
      }
    }
    assert planned == m.log + [ReleaseOutput(outputBufferIndex)];
    thrown := m.Call(ReleaseOutput(outputBufferIndex));
    if thrown {
      CutShortAppend(m.log, [ReleaseOutput(outputBufferIndex)]);
      return Some(Raised(m.env));
    }
  }

  /**
   * One iteration of the drain loop, lines 83-95: handle the answer in hand,
   * then dequeue the next one without waiting.
   */
  method DrainIteration(m: MediaStack, info: BufferInfo, frame: nat, frameDurationUs: int,
                        outputBufferIndex: int, trackIndex0: int, muxerStarted0: bool)
    returns (failure: Option<Outcome>, trackIndex: int, muxerStarted: bool, nextIndex: int)
    requires outputBufferIndex >= 0 && outputBufferIndex == m.current.index && info.size == m.current.size
    requires m.calls == |m.log| && !m.env.FaultBelow(m.calls)
    requires muxerStarted0 == (StartMuxer in m.log)
    modifies m`log, m`calls, m`cursor, m`current, m`tracks, info
    ensures muxerStarted == (StartMuxer in m.log)
    ensures var h := HandleOutput(old(m.current), frame, frameDurationUs, m.env.formatChanged,
                                  Progress(trackIndex0, muxerStarted0, old(m.tracks), m.draws));
            var planned := old(m.log) + h.events + [DequeueOutput(NEXT_DEQUEUE_TIMEOUT_US)];
            (failure.None? ==> Completed(m.env, planned, m.log, m.calls)
                               && Progress(trackIndex, muxerStarted, m.tracks, m.draws) == h.after
                               && m.cursor == old(m.cursor) + 1 && m.current == DequeueAt(m.script, old(m.cursor))
                               && nextIndex == m.current.index
                               && (nextIndex >= 0 ==> info.size == m.current.size))
            && (failure.Some? ==> Escaped(m.env, planned, m.log, m.calls, failure))
  {
    ghost var h := HandleOutput(m.current, frame, frameDurationUs, m.env.formatChanged,
                                Progress(trackIndex0, muxerStarted0, m.tracks, m.draws));
    ghost var planned := m.log + h.events + [DequeueOutput(NEXT_DEQUEUE_TIMEOUT_US)];
    nextIndex := INFO_TRY_AGAIN_LATER;
    failure, trackIndex, muxerStarted :=
      HandleOutputBuffer(m, info, frame, frameDurationUs, outputBufferIndex, trackIndex0, muxerStarted0);
    if failure.Some? {
      CutShortExtends(old(m.log) + h.events, m.log, [DequeueOutput(NEXT_DEQUEUE_TIMEOUT_US)]);
      return;
    }
    var thrown;
    nextIndex, thrown := m.DequeueOutputBuffer(info, NEXT_DEQUEUE_TIMEOUT_US);
    if thrown {
      failure := Some(Raised(m.env));
    }
  }

  /**
   * The drain loop of lines 81-96 for the frame at list position `frame`, just
   * drawn: dequeue with the first timeout, then handle answers until a negative one.
   */
  method DrainEncoder(m: MediaStack, info: BufferInfo, frame: nat, frameDurationUs: int,
                      trackIndex0: int, muxerStarted0: bool)
    returns (failure: Option<Outcome>, trackIndex: int, muxerStarted: bool)
    requires m.calls == |m.log| && !m.env.FaultBelow(m.calls)
    requires muxerStarted0 == (StartMuxer in m.log)
    requires m.cursor == 0
    modifies m`log, m`calls, m`cursor, m`current, m`tracks, info
    ensures |old(m.log)| <= |m.log|
    ensures muxerStarted == (StartMuxer in m.log)
    ensures var d := DrainAfter(old(m.script), 0, frame, frameDurationUs, m.env.formatChanged,
                                Progress(trackIndex0, muxerStarted0, old(m.tracks), old(m.draws)));
            var planned := old(m.log) + [DequeueOutput(FIRST_DEQUEUE_TIMEOUT_US)] + d.events;
            (failure.None? ==> Completed(m.env, planned, m.log, m.calls)
                               && Progress(trackIndex, muxerStarted, m.tracks, m.draws) == d.after)
            && (failure.Some? ==> Escaped(m.env, planned, m.log, m.calls, failure))
  {
    ghost var rs := m.script;
    ghost var fmt := m.env.formatChanged;
    ghost var d0 := DrainAfter(rs, 0, frame, frameDurationUs, fmt, Progress(trackIndex0, muxerStarted0, m.tracks, m.draws));
    ghost var planned := m.log + [DequeueOutput(FIRST_DEQUEUE_TIMEOUT_US)] + d0.events;
    trackIndex, muxerStarted := trackIndex0, muxerStarted0;
    failure := None;
    var thrown;
    var outputBufferIndex;
    outputBufferIndex, thrown := m.DequeueOutputBuffer(info, FIRST_DEQUEUE_TIMEOUT_US);
    if thrown {
      assert planned == m.log + ([DequeueOutput(FIRST_DEQUEUE_TIMEOUT_US)] + d0.events);
      return Some(Raised(m.env)), trackIndex, muxerStarted;
    }
    ghost var j := 0;
    ghost var rest := d0;
    while outputBufferIndex >= 0
      invariant |old(m.log)| <= |m.log| && m.calls == |m.log| && !m.env.FaultBelow(m.calls)
      invariant failure.None?
      invariant muxerStarted == (StartMuxer in m.log)
      invariant m.cursor == j + 1 && m.current == DequeueAt(rs, j)
      invariant outputBufferIndex == m.current.index
      invariant outputBufferIndex >= 0 ==> info.size == m.current.size
      invariant rest == DrainAfter(rs, j, frame, frameDurationUs, fmt, Progress(trackIndex, muxerStarted, m.tracks, m.draws))
      invariant planned == m.log + rest.events && rest.after == d0.after
      decreases |rs| - j
    {
      ghost var before := m.log;
      ghost var h := HandleOutput(m.current, frame, frameDurationUs, fmt, Progress(trackIndex, muxerStarted, m.tracks, m.draws));
      ghost var next := DrainAfter(rs, j + 1, frame, frameDurationUs, fmt, h.after);
      DrainAfterUnfold(rs, j, frame, frameDurationUs, fmt, Progress(trackIndex, muxerStarted, m.tracks, m.draws));
      AppendThree(before, h.events, [DequeueOutput(NEXT_DEQUEUE_TIMEOUT_US)], next.events);
      failure, trackIndex, muxerStarted, outputBufferIndex :=
        DrainIteration(m, info, frame, frameDurationUs, outputBufferIndex, trackIndex, muxerStarted);
      if failure.Some? {
        CutShortExtends(before + h.events + [DequeueOutput(NEXT_DEQUEUE_TIMEOUT_US)], m.log, next.events);
        return;
      }
      j, rest := j + 1, next;
    }
  }

  /**
   * One iteration of the frame loop, lines 68-98, for the path at list
   * position `frame`: a path that decodes to null is skipped; otherwise the
   * frame is drawn and the encoder drained.
   */
  method FrameIteration(m: MediaStack, info: BufferInfo, path: string, frame: nat, frameDurationUs: int,
                        trackIndex0: int, muxerStarted0: bool)
    returns (failure: Option<Outcome>, trackIndex: int, muxerStarted: bool)
    requires m.calls == |m.log| && !m.env.FaultBelow(m.calls)
    requires muxerStarted0 == (StartMuxer in m.log)
    modifies m, info
    ensures |old(m.log)| <= |m.log|
    ensures muxerStarted == (StartMuxer in m.log)
    ensures var s := FrameStep(m.env, path, frame, frameDurationUs,
                               Progress(trackIndex0, muxerStarted0, old(m.tracks), old(m.draws)));
            (failure.None? ==> Completed(m.env, old(m.log) + s.events, m.log, m.calls)
                               && Progress(trackIndex, muxerStarted, m.tracks, m.draws) == s.after)
            && (failure.Some? ==> Escaped(m.env, old(m.log) + s.events, m.log, m.calls, failure))
  {
    ghost var s := FrameStep(m.env, path, frame, frameDurationUs, Progress(trackIndex0, muxerStarted0, m.tracks, m.draws));
    ghost var planned := m.log + s.events;
    trackIndex, muxerStarted := trackIndex0, muxerStarted0;
    failure := None;
    var bitmap, thrown := m.DecodeFile(path);
    if thrown {
      CutShortAppend(m.log, s.events);
      return Some(Raised(m.env)), trackIndex, muxerStarted;
    }
    if bitmap.None? {
      return;
    }
    ghost var drain := DrainAfter(m.env.Drain(m.draws), 0, frame, frameDurationUs, m.env.formatChanged,
                                  Progress(trackIndex, muxerStarted, m.tracks, m.draws + 1));
    assert planned == m.log + ([Draw(frame), DequeueOutput(FIRST_DEQUEUE_TIMEOUT_US)] + drain.events);
    failure, trackIndex, muxerStarted := DrawAndDrain(m, info, frame, frameDurationUs, trackIndex, muxerStarted);
  }

  /** Lines 69-96 for a frame whose path decoded: draw it on the input surface, then drain the encoder. */
  method DrawAndDrain(m: MediaStack, info: BufferInfo, frame: nat, frameDurationUs: int,
                      trackIndex0: int, muxerStarted0: bool)
    returns (failure: Option<Outcome>, trackIndex: int, muxerStarted: bool)
    requires m.calls == |m.log| && !m.env.FaultBelow(m.calls)
    requires muxerStarted0 == (StartMuxer in m.log)
    modifies m, info
    ensures |old(m.log)| <= |m.log|
    ensures muxerStarted == (StartMuxer in m.log)
    ensures var d := DrainAfter(m.env.Drain(old(m.draws)), 0, frame, frameDurationUs, m.env.formatChanged,
                                Progress(trackIndex0, muxerStarted0, old(m.tracks), old(m.draws) + 1));
            var planned := old(m.log) + ([Draw(frame), DequeueOutput(FIRST_DEQUEUE_TIMEOUT_US)] + d.events);
            (failure.None? ==> Completed(m.env, planned, m.log, m.calls)
                               && Progress(trackIndex, muxerStarted, m.tracks, m.draws) == d.after)
            && (failure.Some? ==> Escaped(m.env, planned, m.log, m.calls, failure))
  {
    ghost var drain := DrainAfter(m.env.Drain(m.draws), 0, frame, frameDurationUs, m.env.formatChanged,
                                  Progress(trackIndex0, muxerStarted0, m.tracks, m.draws + 1));
    ghost var more := [Draw(frame), DequeueOutput(FIRST_DEQUEUE_TIMEOUT_US)] + drain.events;
    trackIndex, muxerStarted := trackIndex0, muxerStarted0;
    var thrown := m.DrawFrame(frame);
    if thrown {
      CutShortAppend(m.log, more);
      return Some(Raised(m.env)), trackIndex, muxerStarted;
    }
    assert old(m.log) + more == m.log + [DequeueOutput(FIRST_DEQUEUE_TIMEOUT_US)] + drain.events;
    failure, trackIndex, muxerStarted := DrainEncoder(m, info, frame, frameDurationUs, trackIndex, muxerStarted);
  }

  /** The `try` block of lines 66-105: the frame loop, then the end-of-input signal. */
  method TryBlock(m: MediaStack, info: BufferInfo, req: Request, frameDurationUs: int)
    returns (failure: Option<Outcome>, muxerStarted: bool)
    requires req.fps != 0 && frameDurationUs == FrameDurationUs(req.fps)
    requires m.log == SetupTrace(req) && m.calls == |m.log| && !m.env.FaultBelow(m.calls)
    requires m.draws == 0 && m.tracks == 0
    modifies m, info
    ensures |SetupTrace(req)| <= |m.log|
    ensures muxerStarted == (StartMuxer in m.log)
    ensures var whole := SetupTrace(req) + TryTrace(req, m.env);
            (failure.None? ==> Completed(m.env, whole, m.log, m.calls))
            && (failure.Some? ==> Escaped(m.env, whole, m.log, m.calls, failure))
  {
    ghost var setup := SetupTrace(req);
    ghost var whole := setup + TryTrace(req, m.env);
    var trackIndex := -1;
    muxerStarted := false;
    failure := None;
    var i := 0;
    while i < |req.framePaths|
      invariant 0 <= i <= |req.framePaths| && failure.None?
      invariant |setup| <= |m.log| && m.calls == |m.log| && !m.env.FaultBelow(m.calls)
      invariant muxerStarted == (StartMuxer in m.log)
      invariant whole == m.log + FramesFrom(m.env, req.framePaths, i, frameDurationUs,
                                            Progress(trackIndex, muxerStarted, m.tracks, m.draws))
                               + [SignalEndOfInput]
    {
      ghost var before := m.log;
      ghost var s := FrameStep(m.env, req.framePaths[i], i, frameDurationUs,
                               Progress(trackIndex, muxerStarted, m.tracks, m.draws));
      ghost var more := FramesFrom(m.env, req.framePaths, i + 1, frameDurationUs, s.after) + [SignalEndOfInput];
      assert whole == before + s.events + more;
      failure, trackIndex, muxerStarted :=
        FrameIteration(m, info, req.framePaths[i], i, frameDurationUs, trackIndex, muxerStarted);
      if failure.Some? {
        CutShortExtends(before + s.events, m.log, more);
        return;
      }
      i := i + 1;
    }
    var thrown := m.Call(SignalEndOfInput);
    if thrown {
      assert CutShort(whole, m.log);
      return Some(Raised(m.env)), muxerStarted;
    }
  }

  lemma AppendTwo(p: seq<Event>, a: seq<Event>, b: seq<Event>)
    ensures p + (a + b) == p + a + b
  {
  }

  lemma AppendThree(p: seq<Event>, a: seq<Event>, b: seq<Event>, c: seq<Event>)
    ensures p + (a + b + c) == p + a + b + c
  {
  }

  /** A drain holding a non-negative answer handles it, dequeues without waiting, and goes on from the next answer. */
  lemma DrainAfterUnfold(rs: seq<Dequeued>, j: nat, frame: nat, dur: int, fmt: int, f: Progress)
    requires DequeueAt(rs, j).index >= 0
    ensures var h := HandleOutput(DequeueAt(rs, j), frame, dur, fmt, f);
            var next := DrainAfter(rs, j + 1, frame, dur, fmt, h.after);
            DrainAfter(rs, j, frame, dur, fmt, f) == Step(h.events + [DequeueOutput(NEXT_DEQUEUE_TIMEOUT_US)] + next.events, next.after)
  {
  }

  lemma CutShortAppend(log: seq<Event>, more: seq<Event>)
    requires more != []
    ensures CutShort(log + more, log)
  {
    assert (log + more)[..|log|] == log;
  }

  lemma CutShortExtends(planned: seq<Event>, log: seq<Event>, more: seq<Event>)
    requires CutShort(planned, log)
    ensures CutShort(planned + more, log)
  {
    assert (planned + more)[..|log|] == planned[..|log|];
  }

  /**
   * The `finally` block of lines 106-114: the encoder is stopped and released,
   * then the muxer when `muxerStarted`, then the surface; a call that throws
   * ends the block and its exception replaces the pending outcome.
   */
  method FinallyBlock(m: MediaStack, muxerStarted: bool, failure: Option<Outcome>) returns (outcome: Outcome)
    modifies m`log, m`calls
    ensures var td := Teardown(muxerStarted);
            if m.env.fault.Some? && old(m.calls) <= m.env.fault.value.step < old(m.calls) + |td| then
              m.log == old(m.log) + td[..m.env.fault.value.step - old(m.calls)] && outcome == Raised(m.env)
            else
              m.log == old(m.log) + td && outcome == (if failure.Some? then failure.value else Returned(true))
  {
    ghost var td := Teardown(muxerStarted);
    var thrown := m.Call(StopEncoder);
    if thrown { return Raised(m.env); }
    thrown := m.Call(ReleaseEncoder);
    if thrown { return Raised(m.env); }
    if muxerStarted {
      thrown := m.Call(StopMuxer);
      if thrown { return Raised(m.env); }
      thrown := m.Call(ReleaseMuxer);
      if thrown { return Raised(m.env); }
    }
    thrown := m.Call(ReleaseSurface);
    if thrown { return Raised(m.env); }
    assert m.log == old(m.log) + td;
    if failure.Some? {
      return failure.value;
    }
    return Returned(true);
  }

  lemma PrefixOfAppend(a: seq<Event>, b: seq<Event>, k: nat)
    requires k <= |b|
    ensures (a + b)[..|a| + k] == a + b[..k]
  {
    assert (a + b)[..|a| + k] == a + b[..k];
  }

  /**
   * Lines 55-60, before the `try`: create, configure and start the encoder
   * with its input surface, then create the muxer; a call that throws ends
   * the run at once.
   */
  method SetUp(m: MediaStack, req: Request) returns (failure: Option<Outcome>)
    requires m.log == [] && m.calls == 0
    modifies m`log, m`calls
    ensures failure.None? ==> m.log == SetupTrace(req) && m.calls == |m.log| && !m.env.FaultBelow(m.calls)
    ensures failure.Some? ==> m.env.FaultBelow(|SetupTrace(req)|) && failure == Some(Raised(m.env))
                              && m.log == SetupTrace(req)[..m.env.fault.value.step]
  {
    ghost var setup := SetupTrace(req);
    failure := None;
    assert m.log == setup[..0];
    var thrown := m.Call(CreateEncoder);
    if thrown { return Some(Raised(m.env)); }
    assert m.log == setup[..1];
    thrown := m.Call(Configure(req.width, req.height, req.fps));
    if thrown { return Some(Raised(m.env)); }
    assert m.log == setup[..2];
    thrown := m.Call(CreateInputSurface);
    if thrown { return Some(Raised(m.env)); }
    assert m.log == setup[..3];
    thrown := m.Call(StartEncoder);
    if thrown { return Some(Raised(m.env)); }
    assert m.log == setup[..4];
    thrown := m.Call(CreateMuxer(req.outputPath));
    if thrown { return Some(Raised(m.env)); }
    assert m.log == setup[..5];
  }

  /** encodeWithSurface, driving the collaborators of `m` for the request `req`. */
  method EncodeWithSurface(m: MediaStack, req: Request) returns (outcome: Outcome)
    requires m.log == [] && m.calls == 0 && m.draws == 0 && m.tracks == 0
    modifies m
    ensures Execution(outcome, m.log) == Run(req, m.env)
  {
    ghost var setup := SetupTrace(req);
    var setupFailure := SetUp(m, req);
    if setupFailure.Some? {
      return setupFailure.value;
    }

    var info := new BufferInfo();
    if req.fps == 0 {
      return Threw(Exception, Some(DIVIDE_BY_ZERO_MESSAGE));
    }
    var frameDurationUs := FrameDurationUs(req.fps);

    ghost var whole := setup + TryTrace(req, m.env);
    var failure, muxerStarted := TryBlock(m, info, req, frameDurationUs);
    ghost var done := m.log;
    ghost var afterTry := m.calls;
    outcome := FinallyBlock(m, muxerStarted, failure);
    if failure.None? {
      ghost var td := Teardown(muxerStarted);
      if m.env.fault.Some? && afterTry <= m.env.fault.value.step < afterTry + |td| {
        PrefixOfAppend(whole, td, m.env.fault.value.step - afterTry);
      }
    } else {
      assert done == whole[..m.env.fault.value.step];
    }
  }
}
